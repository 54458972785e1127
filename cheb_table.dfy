/** The matrix C of the fitter as it lies in memory: (D+1) x (D+1) integers,
    row-major, entry (j, k) the coefficient of x^k in T_j.  Partial(n, j, k)
    is the content of C while it is being built: rows before j and the first k
    entries of row j are filled in, everything else is still zero. */
module ChebTable {
  import opened Chebyshev
  import opened Layout

  /** C with rows r < j and entries c < k of row j filled in, zero elsewhere. */
  function Partial(n: nat, j: nat, k: nat): (s: seq<int>)
    ensures |s| == n * n
  {
    seq(n * n, t requires 0 <= t < n * n => PartialAt(n, j, k, t))
  }

  function PartialAt(n: nat, j: nat, k: nat, t: nat): int
    requires t < n * n
  {
    FlatSplit(n, n, t);
    var r, c := t / n, t % n;
    if r < j || (r == j && c < k) then ChebCoeff(r, c) else 0
  }

  /** The complete matrix: every row filled in. */
  function ChebFlat(n: nat): (s: seq<int>)
    ensures |s| == n * n
  {
    Partial(n, n, 0)
  }

  /** Entry (r, c) of a partially built C. */
  lemma PartialEntry(n: nat, j: nat, k: nat, r: nat, c: nat)
    requires r < n && c < n
    ensures Flat(n, r, c) < n * n
    ensures Partial(n, j, k)[Flat(n, r, c)] == if r < j || (r == j && c < k) then ChebCoeff(r, c) else 0
  {
    FlatBound(n, n, r, c);
    FlatDivMod(n, r, c);
  }

  /** Entry (r, c) of the complete matrix is the coefficient of x^c in T_r. */
  lemma ChebFlatEntry(n: nat, r: nat, c: nat)
    requires r < n && c < n
    ensures Flat(n, r, c) < |ChebFlat(n)|
    ensures ChebFlat(n)[Flat(n, r, c)] == ChebCoeff(r, c)
  {
    PartialEntry(n, n, 0, r, c);
  }

  /** Row j of the complete matrix, entry by entry. */
  lemma ChebFlatRow(C: seq<int>, n: nat, j: nat)
    requires C == ChebFlat(n) && j < n
    ensures forall k | 0 <= k < n :: Flat(n, j, k) < |C| && C[Flat(n, j, k)] == ChebCoeff(j, k)
  {
    forall k | 0 <= k < n
      ensures Flat(n, j, k) < |C| && C[Flat(n, j, k)] == ChebCoeff(j, k)
    {
      ChebFlatEntry(n, j, k);
    }
  }

  /** Before anything is written, C is all zero. */
  lemma PartialEmpty(n: nat)
    ensures Partial(n, 0, 0) == seq(n * n, t => 0)
  {
    forall t | 0 <= t < n * n
      ensures Partial(n, 0, 0)[t] == 0
    {
      FlatSplit(n, n, t);
    }
  }

  /** Writing entry (j, k) extends the filled part by one entry. */
  lemma PartialNext(n: nat, j: nat, k: nat)
    requires j < n && k < n
    ensures Flat(n, j, k) < n * n
    ensures Partial(n, j, k)[Flat(n, j, k) := ChebCoeff(j, k)] == Partial(n, j, k + 1)
  {
    FlatBound(n, n, j, k);
    FlatDivMod(n, j, k);
    var s, s' := Partial(n, j, k)[Flat(n, j, k) := ChebCoeff(j, k)], Partial(n, j, k + 1);
    forall t | 0 <= t < n * n
      ensures s[t] == s'[t]
    {
      FlatSplit(n, n, t);
      if t != Flat(n, j, k) {
        assert s[t] == Partial(n, j, k)[t];
        assert (t / n, t % n) != (j, k);
      }
    }
  }

  /** An entry that is zero in the matrix need not be written. */
  lemma PartialSkip(n: nat, j: nat, k: nat)
    requires ChebCoeff(j, k) == 0
    ensures Partial(n, j, k) == Partial(n, j, k + 1)
  {
    var s, s' := Partial(n, j, k), Partial(n, j, k + 1);
    forall t | 0 <= t < n * n
      ensures s[t] == s'[t]
    {
      FlatSplit(n, n, t);
    }
  }

  /** Once entries 0..j of row j are in, the row is complete: T_j has no
      power above x^j, and those entries were zero already. */
  lemma PartialRowEnd(n: nat, j: nat)
    ensures Partial(n, j, j + 1) == Partial(n, j + 1, 0)
  {
    var s, s' := Partial(n, j, j + 1), Partial(n, j + 1, 0);
    forall t | 0 <= t < n * n
      ensures s[t] == s'[t]
    {
      FlatSplit(n, n, t);
      var r, c: nat := t / n, t % n;
      if r == j && c > j {
        ChebLowerTriangular(j, c);
      }
    }
  }
}
