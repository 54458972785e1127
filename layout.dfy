/** Flat, row-major addressing of a table whose rows hold n entries each.
    The fitter uses it twice: for the (D+1) x (D+1) matrix C (rows of D+1
    entries), and for its output, where row j holds the coefficients of degree
    D-j of all W segments (rows of W entries, the segment index varying fastest). */
module Layout {

  /** Position of entry k of row j. */
  function Flat(n: nat, j: nat, k: nat): nat
  {
    j * n + k
  }

  lemma MulAtLeast(a: nat, n: nat)
    requires a >= 1
    ensures a * n >= n
  {
  }

  /** Distinct entries have distinct positions. */
  lemma FlatUnique(n: nat, j: nat, k: nat, j': nat, k': nat)
    requires k < n && k' < n && Flat(n, j, k) == Flat(n, j', k')
    ensures j == j' && k == k'
  {
    if j < j' {
      assert j' * n == j * n + (j' - j) * n;
      MulAtLeast(j' - j, n);
    } else if j' < j {
      assert j * n == j' * n + (j - j') * n;
      MulAtLeast(j - j', n);
    }
  }

  /** Entries of the first m rows lie in the first m * n positions. */
  lemma FlatBound(n: nat, m: nat, j: nat, k: nat)
    requires j < m && k < n
    ensures Flat(n, j, k) < m * n
  {
    assert m * n == j * n + (m - j) * n;
    MulAtLeast(m - j, n);
  }

  /** Every position is the position of one entry: its row is t / n, its column t % n. */
  lemma FlatSplit(n: nat, m: nat, t: nat)
    requires t < m * n
    ensures n > 0 && t / n < m && t % n < n
    ensures t == Flat(n, t / n, t % n)
  {
  }

  /** Reading an entry's position back gives the entry's row and column. */
  lemma FlatDivMod(n: nat, j: nat, k: nat)
    requires k < n
    ensures Flat(n, j, k) / n == j && Flat(n, j, k) % n == k
  {
    var t := Flat(n, j, k);
    FlatBound(n, j + 1, j, k);
    FlatSplit(n, j + 1, t);
    FlatUnique(n, j, k, t / n, t % n);
  }

  lemma FlatInjective(n: nat)
    ensures forall j: nat, k: nat, j': nat, k': nat
      | k < n && k' < n && Flat(n, j, k) == Flat(n, j', k') :: j == j' && k == k'
  {
    forall j: nat, k: nat, j': nat, k': nat | k < n && k' < n && Flat(n, j, k) == Flat(n, j', k')
      ensures j == j' && k == k'
    {
      FlatUnique(n, j, k, j', k');
    }
  }

  lemma FlatInRange(n: nat, m: nat)
    ensures forall j: nat, k: nat | j < m && k < n :: Flat(n, j, k) < m * n && Flat(n, j, k) < n * m
  {
    forall j: nat, k: nat | j < m && k < n ensures Flat(n, j, k) < m * n && Flat(n, j, k) < n * m {
      FlatBound(n, m, j, k);
    }
  }

  /** The output vector of the fitter for W segments of D+1 coefficients each,
      lowest degree first in segs[i]: row j holds degree D-j of every segment,
      so slot Flat(W, j, i) holds segs[i][D - j]. */
  function Arrange<T>(W: nat, D: nat, segs: seq<seq<T>>): (c: seq<T>)
    requires |segs| == W && forall i | 0 <= i < W :: |segs[i]| == D + 1
    ensures |c| == W * (D + 1)
  {
    seq(W * (D + 1), t requires 0 <= t < W * (D + 1) => ArrangeAt(W, D, segs, t))
  }

  function ArrangeAt<T>(W: nat, D: nat, segs: seq<seq<T>>, t: nat): T
    requires |segs| == W && forall i | 0 <= i < W :: |segs[i]| == D + 1
    requires t < W * (D + 1)
  {
    FlatSplit(W, D + 1, t);
    segs[t % W][D - t / W]
  }

  /** Slot j*W+i holds the degree D-j coefficient of segment i. */
  lemma ArrangeSlot<T>(W: nat, D: nat, segs: seq<seq<T>>, i: nat, j: nat)
    requires |segs| == W && forall i | 0 <= i < W :: |segs[i]| == D + 1
    requires i < W && j <= D
    ensures Flat(W, j, i) < |Arrange(W, D, segs)|
    ensures Arrange(W, D, segs)[Flat(W, j, i)] == segs[i][D - j]
  {
    FlatBound(W, D + 1, j, i);
    FlatDivMod(W, j, i);
  }

  /** A vector that holds segs[i][D - j] at every slot j*W+i is the arrangement. */
  lemma ArrangeFromSlots<T>(W: nat, D: nat, segs: seq<seq<T>>, s: seq<T>)
    requires |segs| == W && forall i | 0 <= i < W :: |segs[i]| == D + 1
    requires |s| == W * (D + 1)
    requires forall i: nat, j: nat | i < W && j <= D :: Flat(W, j, i) < |s| && s[Flat(W, j, i)] == segs[i][D - j]
    ensures s == Arrange(W, D, segs)
  {
    forall t | 0 <= t < W * (D + 1) ensures s[t] == Arrange(W, D, segs)[t] {
      FlatSplit(W, D + 1, t);
      var i: nat, j: nat := t % W, t / W;
      assert t == Flat(W, j, i);
    }
  }

  /** A vector whose first k entries are already s1 and the rest still s0,
      after entry k is set to s1[k]: one more entry is s1. */
  lemma SpliceStep<T>(s1: seq<T>, s0: seq<T>, k: nat)
    requires |s1| == |s0| && k < |s1|
    ensures (s1[..k] + s0[k..])[k := s1[k]] == s1[..k + 1] + s0[k + 1..]
  {
  }
}
