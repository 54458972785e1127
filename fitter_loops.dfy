/** getCoeffs as the source runs it: scratch vectors allocated once, refilled
    for each segment by nested loops, and the output vector written slot by
    slot.  Each loop nest of the source is one method here, proved against the
    specification functions of modules SegmentFit, ChebTable and Chebyshev;
    StoreSegment states the slots it writes directly. */
module Fitter {
  import opened Chebyshev
  import opened Segments
  import opened Layout
  import opened SegmentFit
  import opened ChebTable

  /** Fills chebroot with the D+1 Chebyshev nodes. */
  method FillChebRoots(chebroot: array<real>, D: nat, cosPi: real -> real)
    requires chebroot.Length == D + 1
    modifies chebroot
    ensures chebroot[..] == ChebRoots(D, cosPi)
  {
    for i := 0 to D + 1
      invariant forall i' | 0 <= i' < i :: chebroot[i'] == ChebRoots(D, cosPi)[i']
    {
      chebroot[i] := cosPi(((2 * i + 1) as real) / ((2 * D + 2) as real));
    }
  }

  /** Samples func at the nodes carried into [l, r], returns their mean and
      leaves the mean-removed samples in y. */
  method SampleSegment(y: array<real>, chebroot: array<real>, func: real -> real, l: real, r: real)
    returns (avg: real)
    requires y.Length == chebroot.Length > 0 && y != chebroot
    modifies y
    ensures avg == Mean(Samples(func, chebroot[..], l, r))
    ensures y[..] == Centered(Samples(func, chebroot[..], l, r), avg)
  {
    var total := SampleValues(y, chebroot, func, l, r);
    avg := total / (y.Length as real);
    Subtract(y, avg);
  }

  /** y[j] := func at node j carried into [l, r]; returns the sum of the samples. */
  method SampleValues(y: array<real>, chebroot: array<real>, func: real -> real, l: real, r: real)
    returns (total: real)
    requires y.Length == chebroot.Length && y != chebroot
    modifies y
    ensures y[..] == Samples(func, chebroot[..], l, r)
    ensures total == Sum(y[..])
  {
    ghost var ys := Samples(func, chebroot[..], l, r);
    var n := y.Length;
    total := 0.0;
    for j := 0 to n
      invariant y[..j] == ys[..j]
      invariant total == Sum(ys[..j])
    {
      y[j] := func(MapNode(chebroot[j], l, r));
      total := total + y[j];
      assert ys[..j + 1][..j] == ys[..j];
    }
    assert y[..] == y[..n];
  }

  /** Takes c off every entry of y. */
  method Subtract(y: array<real>, c: real)
    modifies y
    ensures y[..] == Centered(old(y[..]), c)
  {
    for j := 0 to y.Length
      invariant forall j' | 0 <= j' < j :: y[j'] == old(y[j']) - c
      invariant forall j' | j <= j' < y.Length :: y[j'] == old(y[j'])
    {
      y[j] := y[j] - c;
    }
  }

  /** The cosine transform of y into Chebyshev coefficients, zero order halved. */
  method ChebyshevTransform(lcf: array<real>, y: array<real>, cosPi: real -> real)
    requires lcf.Length == y.Length > 0 && lcf != y
    modifies lcf
    ensures lcf[..] == DctCoeffs(y[..], cosPi)
  {
    var n := y.Length;
    for j := 0 to n
      invariant forall j' | 0 <= j' < j :: lcf[j'] == DctSum(y[..], j', n, cosPi)
    {
      CosineSum(lcf, y, j, cosPi);
    }
    lcf[0] := lcf[0] * 0.5;
  }

  /** lcf[j] := the cosine sum for Chebyshev coefficient j; the other entries stay. */
  method CosineSum(lcf: array<real>, y: array<real>, j: nat, cosPi: real -> real)
    requires lcf.Length == y.Length && lcf != y && j < lcf.Length
    modifies lcf
    ensures lcf[j] == DctSum(y[..], j, y.Length, cosPi)
    ensures forall j' | 0 <= j' < lcf.Length && j' != j :: lcf[j'] == old(lcf[j'])
  {
    var n := y.Length;
    ghost var ys := y[..];
    lcf[j] := 0.0;
    for k := 0 to n
      invariant lcf[j] == DctSum(ys, j, k, cosPi)
      invariant forall j' | 0 <= j' < lcf.Length && j' != j :: lcf[j'] == old(lcf[j'])
    {
      var term := 2.0 / (n as real) * y[k] * cosPi(((j * (2 * k + 1)) as real) / ((2 * n) as real));
      assert term == DctTerm(ys, j, k, cosPi);
      lcf[j] := lcf[j] + term;
    }
  }

  /** Zeroes C and rebuilds, row by row, the power-basis coefficients of
      T_0 .. T_D by the three-term recurrence. */
  method BuildChebMatrix(C: array<int>, D: nat)
    requires D >= 1 && C.Length == (D + 1) * (D + 1)
    modifies C
    ensures C[..] == ChebFlat(D + 1)
  {
    var n := D + 1;
    for t := 0 to C.Length
      invariant forall t' | 0 <= t' < t :: C[t'] == 0
    {
      C[t] := 0;
    }
    PartialEmpty(n);
    assert C[..] == Partial(n, 0, 0);
    WriteEntry(C, n, 0, 0, 1);
    PartialRowEnd(n, 0);
    PartialSkip(n, 1, 0);
    WriteEntry(C, n, 1, 1, 1);
    PartialRowEnd(n, 1);
    for j := 2 to n
      invariant C[..] == Partial(n, j, 0)
    {
      FillChebRow(C, n, j);
    }
  }

  /** C[j*n + k] := v, where v is the entry the matrix has there. */
  method WriteEntry(C: array<int>, n: nat, j: nat, k: nat, v: int)
    requires j < n && k < n && C.Length == n * n
    requires C[..] == Partial(n, j, k) && v == ChebCoeff(j, k)
    modifies C
    ensures C[..] == Partial(n, j, k + 1)
  {
    PartialNext(n, j, k);
    C[Flat(n, j, k)] := v;
  }

  /** Row j >= 2 of C from rows j-1 and j-2: column 0 from the row two up,
      columns 1..j by the recurrence, the columns beyond j left at zero. */
  method FillChebRow(C: array<int>, n: nat, j: nat)
    requires 2 <= j < n && C.Length == n * n
    requires C[..] == Partial(n, j, 0)
    modifies C
    ensures C[..] == Partial(n, j + 1, 0)
  {
    PartialEntry(n, j, 0, j - 2, 0);
    WriteEntry(C, n, j, 0, -C[Flat(n, j - 2, 0)]);
    for k := 1 to j + 1
      invariant C[..] == Partial(n, j, k)
    {
      PartialEntry(n, j, k, j - 1, k - 1);
      PartialEntry(n, j, k, j - 2, k);
      WriteEntry(C, n, j, k, 2 * C[Flat(n, j - 1, k - 1)] - C[Flat(n, j - 2, k)]);
    }
    PartialRowEnd(n, j);
  }

  /** lcf2 := the monomial coefficients of the Chebyshev series lcf, through the
      matrix C, with avg added to the constant term. */
  method ConvertBasis(lcf2: array<real>, C: array<int>, lcf: array<real>, avg: real)
    requires lcf2.Length == lcf.Length > 0 && lcf2 != lcf
    requires C[..] == ChebFlat(lcf.Length)
    modifies lcf2
    ensures lcf2[..] == MonomialCoeffs(lcf[..], avg)
  {
    var n := lcf.Length;
    for j := 0 to n
      invariant forall j' | 0 <= j' < j :: lcf2[j'] == 0.0
    {
      lcf2[j] := 0.0;
    }
    assert lcf2[..] == ConvSums(lcf[..], 0);
    for j := 0 to n
      invariant lcf2[..] == ConvSums(lcf[..], j)
    {
      ChebFlatRow(C[..], n, j);
      AccumulateRow(lcf2, C, lcf, j);
    }
    lcf2[0] := lcf2[0] + avg;
  }

  /** Adds row j of C, weighted by lcf[j], into lcf2. */
  method AccumulateRow(lcf2: array<real>, C: array<int>, lcf: array<real>, j: nat)
    requires lcf2.Length == lcf.Length && lcf2 != lcf && j < lcf.Length
    requires forall k | 0 <= k < lcf.Length :: Flat(lcf.Length, j, k) < C.Length && C[Flat(lcf.Length, j, k)] == ChebCoeff(j, k)
    requires lcf2[..] == ConvSums(lcf[..], j)
    modifies lcf2
    ensures lcf2[..] == ConvSums(lcf[..], j + 1)
  {
    var n := lcf.Length;
    ghost var c := lcf[..];
    ghost var s0, s1 := ConvSums(c, j), ConvSums(c, j + 1);
    assert s1[..0] + s0[0..] == s0;
    for k := 0 to n
      invariant lcf2[..] == s1[..k] + s0[k..]
    {
      var a, b := C[Flat(n, j, k)], lcf[j];
      assert a == ChebCoeff(j, k) && b == c[j];
      assert lcf2[k] == s0[k];
      ConvSumStep(c, k, j);
      var v := lcf2[k] + (a as real) * b;
      assert v == s1[k];
      ghost var before := lcf2[..];
      lcf2[k] := v;
      assert lcf2[..] == before[k := v];
      SpliceStep(s1, s0, k);
    }
    assert s1[..n] + s0[n..] == s1;
  }

  /** Stores segment i's coefficients, highest degree first, at stride W. */
  method StoreSegment(coeff: array<real>, lcf2: array<real>, W: nat, D: nat, i: nat)
    requires coeff.Length == W * (D + 1) && lcf2.Length == D + 1 && i < W && coeff != lcf2
    modifies coeff
    ensures forall j: nat | j <= D :: Flat(W, j, i) < coeff.Length && coeff[Flat(W, j, i)] == lcf2[D - j]
    ensures forall i': nat, j: nat | i' < W && i' != i && j <= D ::
              Flat(W, j, i') < coeff.Length && coeff[Flat(W, j, i')] == old(coeff[Flat(W, j, i')])
  {
    FlatInRange(W, D + 1);
    FlatInjective(W);
    for j := 0 to D + 1
      invariant forall j': nat | j' < j :: coeff[Flat(W, j', i)] == lcf2[D - j']
      invariant forall i': nat, j': nat | i' < W && j' <= D && (i' != i || j' >= j) ::
                  coeff[Flat(W, j', i')] == old(coeff[Flat(W, j', i')])
    {
      coeff[Flat(W, j, i)] := lcf2[D - j];
    }
  }

  /** One pass of the segment loop: fits segment i and stores its
      coefficients, using the scratch vectors y, lcf, C and lcf2. */
  method FitSegment(out: array<real>, chebroot: array<real>, y: array<real>, lcf: array<real>,
                    C: array<int>, lcf2: array<real>, W: nat, D: nat, func: real -> real,
                    cosPi: real -> real, i: nat)
    requires D >= 1 && i < W
    requires out.Length == W * (D + 1) && C.Length == (D + 1) * (D + 1)
    requires chebroot.Length == y.Length == lcf.Length == lcf2.Length == D + 1
    requires chebroot[..] == ChebRoots(D, cosPi)
    requires out != chebroot && out != y && out != lcf && out != lcf2
    requires chebroot != y && chebroot != lcf && chebroot != lcf2
    requires y != lcf && y != lcf2 && lcf != lcf2
    modifies out, y, lcf, C, lcf2
    ensures forall j: nat | j <= D :: Flat(W, j, i) < out.Length && out[Flat(W, j, i)] == SegmentCoeffs(W, D, func, cosPi, i)[D - j]
    ensures forall i': nat, j: nat | i' < W && i' != i && j <= D ::
              Flat(W, j, i') < out.Length && out[Flat(W, j, i')] == old(out[Flat(W, j, i')])
  {
    var l := SegmentLeft(W, i);
    var r := SegmentRight(W, i);
    var avg := SampleSegment(y, chebroot, func, l, r);
    ChebyshevTransform(lcf, y, cosPi);
    BuildChebMatrix(C, D);
    ConvertBasis(lcf2, C, lcf, avg);
    assert lcf2[..] == SegmentCoeffs(W, D, func, cosPi, i);
    StoreSegment(out, lcf2, W, D, i);
  }

  /** getCoeffs: the W * (D+1) coefficients of the piecewise polynomial that
      fits func, laid out as Coeffs describes.  D >= 1 is required: for D = 0
      the source writes C(1, 1) outside the one-entry matrix. */
  method GetCoeffs(W: nat, D: nat, func: real -> real, cosPi: real -> real) returns (coeff: seq<real>)
    requires D >= 1
    ensures coeff == Coeffs(W, D, func, cosPi)
  {
    var out := new real[W * (D + 1)](_ => 0.0);
    var chebroot := new real[D + 1];
    FillChebRoots(chebroot, D, cosPi);
    var y := new real[D + 1];
    var lcf := new real[D + 1];
    var C := new int[(D + 1) * (D + 1)](_ => 0);
    var lcf2 := new real[D + 1];
    ghost var segs := AllSegments(W, D, func, cosPi);
    FlatInRange(W, D + 1);
    for i := 0 to W
      invariant chebroot[..] == ChebRoots(D, cosPi)
      invariant forall i': nat, j: nat | i' < i && j <= D :: out[Flat(W, j, i')] == segs[i'][D - j]
    {
      FitSegment(out, chebroot, y, lcf, C, lcf2, W, D, func, cosPi, i);
    }
    coeff := out[..];
    ArrangeFromSlots(W, D, segs, coeff);
  }
}
