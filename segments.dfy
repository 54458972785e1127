/** The split of the kernel's domain [-1, 1] into W equal segments, and the affine
    map that carries a Chebyshev node from [-1, 1] into one segment. */
module Segments {

  /** Left end of segment i of W. */
  function SegmentLeft(W: nat, i: nat): (l: real)
    requires i < W
    ensures -1.0 <= l < 1.0
    ensures i == 0 ==> l == -1.0
  {
    -1.0 + 2.0 * (i as real) / (W as real)
  }

  /** Right end of segment i of W: the left end of the next segment, 2/W
      further on, and 1 for the last segment. */
  function SegmentRight(W: nat, i: nat): (r: real)
    requires i < W
    ensures -1.0 < r <= 1.0
    ensures i == W - 1 ==> r == 1.0
    ensures i + 1 < W ==> r == SegmentLeft(W, i + 1)
    ensures r - SegmentLeft(W, i) == 2.0 / (W as real)
  {
    -1.0 + 2.0 * ((i + 1) as real) / (W as real)
  }

  /** The node c of [-1, 1] carried into [l, r]: -1 goes to l, 1 goes to r,
      and every node of [-1, 1] lands in [l, r]. */
  function MapNode(c: real, l: real, r: real): (x: real)
    ensures c == -1.0 ==> x == l
    ensures c == 1.0 ==> x == r
    ensures l <= r && -1.0 <= c <= 1.0 ==> l <= x <= r
  {
    NodeOffsets(c, l, r);
    c * (r - l) * 0.5 + (r + l) * 0.5
  }

  lemma NodeOffsets(c: real, l: real, r: real)
    ensures c * (r - l) * 0.5 + (r + l) * 0.5 - l == (c + 1.0) * (r - l) * 0.5
    ensures r - (c * (r - l) * 0.5 + (r + l) * 0.5) == (1.0 - c) * (r - l) * 0.5
    ensures l <= r && -1.0 <= c <= 1.0 ==> (c + 1.0) * (r - l) >= 0.0 && (1.0 - c) * (r - l) >= 0.0
  {
    if l <= r && -1.0 <= c <= 1.0 {
      MulNonneg(c + 1.0, r - l);
      MulNonneg(1.0 - c, r - l);
    }
  }

  lemma MulNonneg(a: real, b: real)
    requires a >= 0.0 && b >= 0.0
    ensures a * b >= 0.0
  {
  }

  /** The segments cover the whole domain: every point of [-1, 1] lies in one of them. */
  lemma SegmentsCover(W: nat, x: real)
    requires W > 0 && -1.0 <= x <= 1.0
    ensures exists i :: 0 <= i < W && SegmentLeft(W, i) <= x <= SegmentRight(W, i)
  {
    var w := W as real;
    var t := ScaledPosition(x, w);
    var i := FloorIndex(t, W);
    DivMonotone(2.0 * (i as real), 2.0 * t, w);
    DivMonotone(2.0 * t, 2.0 * ((i + 1) as real), w);
    assert SegmentLeft(W, i) <= x <= SegmentRight(W, i);
  }

  /** The position of x in [-1, 1] on the scale [0, w]. */
  lemma ScaledPosition(x: real, w: real) returns (t: real)
    requires w > 0.0 && -1.0 <= x <= 1.0
    ensures 0.0 <= t <= w
    ensures x == -1.0 + 2.0 * t / w
  {
    t := (x + 1.0) * w / 2.0;
    MulNonneg(x + 1.0, w);
    MulNonneg(1.0 - x, w);
    var v := (x + 1.0) * w;
    assert v + (1.0 - x) * w == 2.0 * w;
    assert 0.0 <= v <= 2.0 * w;
    assert t == v / 2.0;
    DivCancel(x + 1.0, w, t);
  }

  /** The segment that holds scaled position t: the last one for t = W. */
  lemma FloorIndex(t: real, W: nat) returns (i: nat)
    requires W > 0 && 0.0 <= t <= W as real
    ensures i < W && (i as real) <= t <= ((i + 1) as real)
  {
    i := if t.Floor < W then t.Floor else W - 1;
  }

  lemma DivCancel(a: real, w: real, t: real)
    requires w > 0.0 && t == a * w / 2.0
    ensures 2.0 * t / w == a
  {
    var v := a * w;
    assert 2.0 * t == v;
    assert v / w == a;
  }

  lemma DivMonotone(a: real, b: real, w: real)
    requires w > 0.0 && a <= b
    ensures a / w <= b / w
  {
    assert (a / w) * w == a;
    assert (b / w) * w == b;
  }

  /** Segment W-1-i is segment i reflected through 0. */
  lemma MirrorSegment(W: nat, i: nat)
    requires i < W
    ensures SegmentLeft(W, W - 1 - i) == -SegmentRight(W, i)
    ensures SegmentRight(W, W - 1 - i) == -SegmentLeft(W, i)
  {
  }

  /** Reflecting a segment and its node together reflects the mapped point. */
  lemma MirrorNode(c: real, l: real, r: real)
    ensures MapNode(-c, -r, -l) == -MapNode(c, l, r)
  {
  }
}
