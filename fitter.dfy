/** The piecewise Chebyshev fitter (getCoeffs): the kernel function is sampled
    at D+1 Chebyshev nodes in each of W equal segments of [-1, 1], the sample
    mean is taken out, the samples go through a discrete cosine transform to
    Chebyshev coefficients, those are turned into monomial coefficients through
    the integer matrix C, the mean is put back into the constant term, and the
    coefficients are stored degree-major, segment-minor, highest degree first.

    Arithmetic is on exact reals.  The cosine is a parameter: cosPi(x) stands
    for cos(pi * x), so the nodes and the cosine-transform weights are opaque
    inputs while everything built from them is exact. */
module SegmentFit {
  import opened Chebyshev
  import opened Segments
  import opened Layout

  // ---------------------------------------------------------------------
  // Specification of one segment

  /** Sum of s, added from the left as the accumulating loops add it. */
  function Sum(s: seq<real>): real
  {
    if |s| == 0 then 0.0 else Sum(s[..|s| - 1]) + s[|s| - 1]
  }

  /** Arithmetic mean of the samples. */
  function Mean(s: seq<real>): real
    requires |s| > 0
  {
    Sum(s) / (|s| as real)
  }

  /** The samples with c taken off each. */
  function Centered(s: seq<real>, c: real): (d: seq<real>)
    ensures |d| == |s|
  {
    seq(|s|, j requires 0 <= j < |s| => s[j] - c)
  }

  /** The D+1 Chebyshev nodes cos((2i+1) pi / (2D+2)), i = 0..D, in [-1, 1] coordinates. */
  function ChebRoots(D: nat, cosPi: real -> real): (roots: seq<real>)
    ensures |roots| == D + 1
  {
    seq(D + 1, i requires 0 <= i <= D => cosPi(((2 * i + 1) as real) / ((2 * D + 2) as real)))
  }

  /** The function sampled at the nodes carried into [l, r]. */
  function Samples(func: real -> real, nodes: seq<real>, l: real, r: real): (ys: seq<real>)
    ensures |ys| == |nodes|
  {
    seq(|nodes|, j requires 0 <= j < |nodes| => func(MapNode(nodes[j], l, r)))
  }

  /** Term k of the cosine sum for Chebyshev coefficient j, with n = |ys| = D+1:
      2/n * ys[k] * cos(j (2k+1) pi / (2n)). */
  function DctTerm(ys: seq<real>, j: nat, k: nat, cosPi: real -> real): real
    requires k < |ys|
  {
    2.0 / (|ys| as real) * ys[k] * cosPi(((j * (2 * k + 1)) as real) / ((2 * |ys|) as real))
  }

  /** The first n terms of the cosine sum for coefficient j. */
  function DctSum(ys: seq<real>, j: nat, n: nat, cosPi: real -> real): real
    requires n <= |ys|
  {
    if n == 0 then 0.0 else DctSum(ys, j, n - 1, cosPi) + DctTerm(ys, j, n - 1, cosPi)
  }

  /** Chebyshev coefficients of the (mean-removed) samples; the zero-order one is halved. */
  function DctCoeffs(ys: seq<real>, cosPi: real -> real): (lcf: seq<real>)
    ensures |lcf| == |ys|
  {
    seq(|ys|, j requires 0 <= j < |ys| =>
      if j == 0 then DctSum(ys, 0, |ys|, cosPi) * 0.5 else DctSum(ys, j, |ys|, cosPi))
  }

  /** Monomial coefficients, lowest degree first, with avg put back into the
      constant term and nowhere else. */
  function MonomialCoeffs(lcf: seq<real>, avg: real): (m: seq<real>)
    requires |lcf| > 0
    ensures |m| == |lcf|
    ensures m[0] == ToMonomial(lcf)[0] + avg
    ensures forall k | 0 < k < |m| :: m[k] == ToMonomial(lcf)[k]
  {
    var t := ToMonomial(lcf);
    t[0 := t[0] + avg]
  }

  /** Everything the fitter computes for segment i, lowest degree first. */
  function SegmentCoeffs(W: nat, D: nat, func: real -> real, cosPi: real -> real, i: nat): (m: seq<real>)
    requires i < W
    ensures |m| == D + 1
  {
    var ys := Samples(func, ChebRoots(D, cosPi), SegmentLeft(W, i), SegmentRight(W, i));
    var avg := Mean(ys);
    MonomialCoeffs(DctCoeffs(Centered(ys, avg), cosPi), avg)
  }

  /** The coefficients of all W segments, segment by segment. */
  function AllSegments(W: nat, D: nat, func: real -> real, cosPi: real -> real): (segs: seq<seq<real>>)
    ensures |segs| == W && forall i | 0 <= i < W :: |segs[i]| == D + 1
  {
    seq(W, i requires 0 <= i < W => SegmentCoeffs(W, D, func, cosPi, i))
  }

  /** The output as the evaluator reads it: slot t holds, for segment t % W,
      the coefficient of degree D - t / W. */
  function Coeffs(W: nat, D: nat, func: real -> real, cosPi: real -> real): (c: seq<real>)
    ensures |c| == W * (D + 1)
  {
    Arrange(W, D, AllSegments(W, D, func, cosPi))
  }

  // ---------------------------------------------------------------------
  // Properties of the specification

  lemma {:induction false} SumCentered(s: seq<real>, c: real)
    ensures Sum(Centered(s, c)) == Sum(s) - (|s| as real) * c
  {
    if |s| > 0 {
      var n := |s| - 1;
      assert Centered(s, c)[..n] == Centered(s[..n], c);
      SumCentered(s[..n], c);
    }
  }

  /** The mean-removed samples sum to zero. */
  lemma CenteredSumsToZero(s: seq<real>)
    requires |s| > 0
    ensures Sum(Centered(s, Mean(s))) == 0.0
  {
    SumCentered(s, Mean(s));
  }

  /** With cos(0) = 1, the zero-order cosine sum is 2/n times the plain sum of
      the samples. */
  lemma {:induction false} DctSumZeroOrder(ys: seq<real>, n: nat, cosPi: real -> real)
    requires 0 < |ys| && n <= |ys| && cosPi(0.0) == 1.0
    ensures DctSum(ys, 0, n, cosPi) == 2.0 / (|ys| as real) * Sum(ys[..n])
  {
    var q := 2.0 / (|ys| as real);
    if n == 0 {
      assert q * Sum(ys[..0]) == q * 0.0;
    } else {
      DctSumZeroOrder(ys, n - 1, cosPi);
      assert ((0 * (2 * (n - 1) + 1)) as real) / ((2 * |ys|) as real) == 0.0;
      assert DctTerm(ys, 0, n - 1, cosPi) == q * ys[n - 1];
      assert ys[..n][..n - 1] == ys[..n - 1];
      Distribute(q, Sum(ys[..n - 1]), ys[n - 1]);
    }
  }

  lemma Distribute(q: real, a: real, b: real)
    ensures q * (a + b) == q * a + q * b
  {
  }

  /** Taking the mean out first makes the zero-order Chebyshev coefficient
      vanish (given cos(0) = 1): the whole constant part of the segment is the
      mean that is added back after the change of basis. */
  lemma DctZeroOrderVanishes(ys: seq<real>, cosPi: real -> real)
    requires |ys| > 0 && cosPi(0.0) == 1.0
    ensures DctCoeffs(Centered(ys, Mean(ys)), cosPi)[0] == 0.0
  {
    var cs := Centered(ys, Mean(ys));
    DctSumZeroOrder(cs, |cs|, cosPi);
    assert cs[..|cs|] == cs;
    CenteredSumsToZero(ys);
    var q := 2.0 / (|cs| as real);
    assert q * Sum(cs) == q * 0.0;
  }

  lemma {:induction false} PolyEvalConstantShift(t: seq<real>, avg: real, x: real, n: nat)
    requires 0 < n <= |t|
    ensures PolyEval(t[0 := t[0] + avg], x, n) == PolyEval(t, x, n) + avg
  {
    if n > 1 {
      PolyEvalConstantShift(t, avg, x, n - 1);
    } else {
      assert Pow(x, 0) == 1.0;
      assert PolyEval(t, x, 1) == t[0];
    }
  }

  /** The segment polynomial: read as monomial coefficients, they evaluate at
      every local point to the mean plus the Chebyshev series of lcf. */
  lemma MonomialCoeffsValue(lcf: seq<real>, avg: real, x: real)
    requires |lcf| > 0
    ensures PolyEval(MonomialCoeffs(lcf, avg), x, |lcf|) == avg + SeriesEval(lcf, x, |lcf|)
  {
    PolyEvalConstantShift(ToMonomial(lcf), avg, x, |lcf|);
    ToMonomialPreservesValue(lcf, x);
  }

  /** The degree-k coefficient of a segment depends on the Chebyshev
      coefficients of degree k and above only. */
  lemma MonomialCoeffsUpperOnly(lcf: seq<real>, lcf': seq<real>, avg: real, k: nat)
    requires 0 < |lcf| == |lcf'| && k < |lcf|
    requires forall j | k <= j < |lcf| :: lcf[j] == lcf'[j]
    ensures MonomialCoeffs(lcf, avg)[k] == MonomialCoeffs(lcf', avg)[k]
  {
    ConvSumUpperOnly(lcf, lcf', k, |lcf|);
  }

  /** Slot j*W+i holds the coefficient of degree D-j of segment i; in
      particular the constant term, which carries the mean, is in row D. */
  lemma CoeffsLayout(W: nat, D: nat, func: real -> real, cosPi: real -> real, i: nat, j: nat)
    requires i < W && j <= D
    ensures Flat(W, j, i) < |Coeffs(W, D, func, cosPi)|
    ensures Coeffs(W, D, func, cosPi)[Flat(W, j, i)] == SegmentCoeffs(W, D, func, cosPi, i)[D - j]
  {
    ArrangeSlot(W, D, AllSegments(W, D, func, cosPi), i, j);
  }

  /** Every output slot belongs to exactly one (degree row, segment) pair. */
  lemma SlotsPartition(W: nat, D: nat, t: nat)
    requires t < W * (D + 1)
    ensures exists i: nat, j: nat :: i < W && j <= D && t == Flat(W, j, i)
    ensures forall i: nat, j: nat, i': nat, j': nat | i < W && i' < W && t == Flat(W, j, i) && t == Flat(W, j', i')
              :: i == i' && j == j'
  {
    FlatSplit(W, D + 1, t);
    var i: nat, j: nat := t % W, t / W;
    assert i < W && j <= D && t == Flat(W, j, i);
    forall i: nat, j: nat, i': nat, j': nat | i < W && i' < W && t == Flat(W, j, i) && t == Flat(W, j', i')
      ensures i == i' && j == j'
    {
      FlatUnique(W, j, i, j', i');
    }
  }

  /** The Chebyshev matrix needs D >= 1: the entry C(1, 1) that line 60 of the
      source sets lies inside the (D+1) x (D+1) table exactly when D >= 1. */
  lemma RowOneNeedsDegreeOne(D: nat)
    ensures Flat(D + 1, 1, 1) < (D + 1) * (D + 1) <==> D >= 1
  {
    if D >= 1 {
      FlatBound(D + 1, D + 1, 1, 1);
    }
  }
}
