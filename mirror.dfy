/** Mirror symmetry of the fit.  For an even function, segment W-1-i is
    segment i reflected through 0, and its coefficients are segment i's with
    the odd-degree ones negated.  The cosine enters only through the identity
    cos(pi (j - x)) = (-1)^j cos(pi x); the chain of the proof is
      nodes reflect -> samples reverse -> mean unchanged
      -> Chebyshev coefficient j picks up (-1)^j -> monomial coefficient k
         picks up (-1)^k (C is zero where j + k is odd). */
module MirrorFit {
  import opened Chebyshev
  import opened Segments
  import opened SegmentFit

  /** (-1)^k. */
  function Sign(k: nat): real
  {
    if k % 2 == 0 then 1.0 else -1.0
  }

  /** The entries of s in reverse order. */
  function Reverse(s: seq<real>): (r: seq<real>)
    ensures |r| == |s|
  {
    seq(|s|, k requires 0 <= k < |s| => s[|s| - 1 - k])
  }

  /** The terms of the cosine sum for coefficient j, one per sample. */
  function DctTerms(ys: seq<real>, j: nat, cosPi: real -> real): (t: seq<real>)
    ensures |t| == |ys|
  {
    seq(|ys|, k requires 0 <= k < |ys| => DctTerm(ys, j, k, cosPi))
  }

  /** func is even. */
  ghost predicate EvenFunction(func: real -> real)
  {
    forall x :: func(-x) == func(x)
  }

  /** cosPi behaves like x |-> cos(pi x) under reflection: cos(pi (j - x)) = (-1)^j cos(pi x). */
  ghost predicate CosPiReflects(cosPi: real -> real)
  {
    forall j: nat, x :: cosPi(j as real - x) == Sign(j) * cosPi(x)
  }

  /** (-1)^k x, written without a product. */
  function Signed(k: nat, x: real): real
  {
    if k % 2 == 0 then x else -x
  }

  lemma SignedIsProduct(k: nat, x: real)
    ensures Signed(k, x) == Sign(k) * x
  {
  }

  lemma Reflect(cosPi: real -> real, j: nat, x: real)
    requires CosPiReflects(cosPi)
    ensures cosPi(j as real - x) == Sign(j) * cosPi(x)
  {
  }

  // ---------------------------------------------------------------------
  // Sums

  lemma {:induction false} SumAppend(a: seq<real>, b: seq<real>)
    ensures Sum(a + b) == Sum(a) + Sum(b)
  {
    if |b| == 0 {
      assert a + b == a;
    } else {
      SumAppend(a, b[..|b| - 1]);
      assert (a + b)[..|a + b| - 1] == a + b[..|b| - 1];
    }
  }

  /** Adding from the other end gives the same sum. */
  lemma {:induction false} SumReverse(s: seq<real>)
    ensures Sum(Reverse(s)) == Sum(s)
  {
    if |s| > 0 {
      var n := |s| - 1;
      SumReverse(s[..n]);
      assert Reverse(s) == [s[n]] + Reverse(s[..n]);
      SumAppend([s[n]], Reverse(s[..n]));
      assert [s[n]][..0] == [];
    }
  }

  /** s' is s with every entry multiplied by (-1)^j. */
  predicate SignedBy(j: nat, s: seq<real>, s': seq<real>)
  {
    |s'| == |s| && forall k | 0 <= k < |s| :: s'[k] == Signed(j, s[k])
  }

  /** If s' is (-1)^j times s entry by entry, so are the sums of their first m entries. */
  lemma {:induction false} SumSigned(j: nat, s: seq<real>, s': seq<real>, m: nat)
    requires SignedBy(j, s, s') && m <= |s|
    ensures Sum(s'[..m]) == Signed(j, Sum(s[..m]))
  {
    if m > 0 {
      SumSigned(j, s, s', m - 1);
      assert s'[..m][..m - 1] == s'[..m - 1];
      assert s[..m][..m - 1] == s[..m - 1];
    }
  }

  // ---------------------------------------------------------------------
  // Samples of the mirrored segment

  lemma DivSum(a: real, b: real, c: real)
    requires c != 0.0
    ensures a / c + b / c == (a + b) / c
  {
    assert (a / c) * c == a && (b / c) * c == b;
    assert (a / c + b / c) * c == a + b;
  }

  /** Node D-j is node j reflected through 0. */
  lemma RootReflect(D: nat, cosPi: real -> real, j: nat)
    requires j <= D && CosPiReflects(cosPi)
    ensures ChebRoots(D, cosPi)[D - j] == -ChebRoots(D, cosPi)[j]
  {
    var c := (2 * D + 2) as real;
    var x := ((2 * j + 1) as real) / c;
    var y := ((2 * (D - j) + 1) as real) / c;
    DivSum((2 * (D - j) + 1) as real, (2 * j + 1) as real, c);
    assert y == (1 as real) - x;
    Reflect(cosPi, 1, x);
  }

  /** The mirrored segment samples an even function in reverse order. */
  lemma MirrorSamples(W: nat, D: nat, func: real -> real, cosPi: real -> real, i: nat)
    requires i < W && EvenFunction(func) && CosPiReflects(cosPi)
    ensures Samples(func, ChebRoots(D, cosPi), SegmentLeft(W, W - 1 - i), SegmentRight(W, W - 1 - i))
         == Reverse(Samples(func, ChebRoots(D, cosPi), SegmentLeft(W, i), SegmentRight(W, i)))
  {
    var roots := ChebRoots(D, cosPi);
    var l, r := SegmentLeft(W, i), SegmentRight(W, i);
    var ys := Samples(func, roots, l, r);
    var ys' := Samples(func, roots, SegmentLeft(W, W - 1 - i), SegmentRight(W, W - 1 - i));
    MirrorSegment(W, i);
    forall j | 0 <= j <= D
      ensures ys'[j] == Reverse(ys)[j]
    {
      RootReflect(D, cosPi, D - j);
      var c := roots[D - j];
      assert roots[j] == -c;
      MirrorNode(c, l, r);
      var m := MapNode(c, l, r);
      assert ys'[j] == func(-m);
      assert ys[D - j] == func(m);
    }
  }

  lemma MeanReverse(s: seq<real>)
    requires |s| > 0
    ensures Mean(Reverse(s)) == Mean(s)
  {
    SumReverse(s);
  }

  lemma CenteredReverse(s: seq<real>, c: real)
    ensures Centered(Reverse(s), c) == Reverse(Centered(s, c))
  {
  }

  // ---------------------------------------------------------------------
  // The cosine transform of reversed samples

  lemma {:induction false} DctSumOfTerms(ys: seq<real>, j: nat, n: nat, cosPi: real -> real)
    requires n <= |ys|
    ensures DctSum(ys, j, n, cosPi) == Sum(DctTerms(ys, j, cosPi)[..n])
  {
    if n > 0 {
      DctSumOfTerms(ys, j, n - 1, cosPi);
      var t := DctTerms(ys, j, cosPi);
      assert t[..n][..n - 1] == t[..n - 1];
    }
  }

  /** The cosine arguments of terms k and n-1-k add up to j. */
  lemma ArgumentsReflect(n: nat, j: nat, k: nat)
    requires k < n
    ensures ((j * (2 * k + 1)) as real) / ((2 * n) as real)
         == (j as real) - ((j * (2 * (n - 1 - k) + 1)) as real) / ((2 * n) as real)
  {
    var u, v := 2 * k + 1, 2 * (n - 1 - k) + 1;
    var c := (2 * n) as real;
    var a, b := (j * u) as real, (j * v) as real;
    CastProduct(j, u);
    CastProduct(j, v);
    Distribute(j as real, u as real, v as real);
    MulCongruence(j as real, u as real + v as real, c);
    assert a + b == (j as real) * c;
    DivSum(a, b, c);
    assert (a + b) / c == j as real;
  }

  lemma CastProduct(j: int, u: int)
    ensures (j * u) as real == (j as real) * (u as real)
  {
  }

  lemma SignedProduct(p: real, s: real, c: real)
    requires s == 1.0 || s == -1.0
    ensures p * (s * c) == s * (p * c)
  {
    if s == 1.0 {
    } else {
      assert p * (s * c) == -(p * c);
    }
  }

  /** Term k of the reversed samples is (-1)^j times term n-1-k of the samples. */
  lemma TermReflect(cs: seq<real>, j: nat, k: nat, cosPi: real -> real)
    requires k < |cs| && CosPiReflects(cosPi)
    ensures DctTerm(Reverse(cs), j, k, cosPi) == Sign(j) * DctTerm(cs, j, |cs| - 1 - k, cosPi)
  {
    var n := |cs|;
    var k' := n - 1 - k;
    var x := ((j * (2 * k' + 1)) as real) / ((2 * n) as real);
    ArgumentsReflect(n, j, k);
    Reflect(cosPi, j, x);
    var p := 2.0 / (n as real) * cs[k'];
    assert DctTerm(Reverse(cs), j, k, cosPi) == p * cosPi(j as real - x);
    assert DctTerm(cs, j, k', cosPi) == p * cosPi(x);
    MulCongruence(p, cosPi(j as real - x), Sign(j) * cosPi(x));
    SignedProduct(p, Sign(j), cosPi(x));
  }

  /** The terms for the reversed samples are (-1)^j times the terms in reverse order. */
  lemma TermsReflect(cs: seq<real>, j: nat, cosPi: real -> real)
    requires CosPiReflects(cosPi)
    ensures SignedBy(j, Reverse(DctTerms(cs, j, cosPi)), DctTerms(Reverse(cs), j, cosPi))
  {
    forall k | 0 <= k < |cs|
      ensures DctTerms(Reverse(cs), j, cosPi)[k] == Signed(j, Reverse(DctTerms(cs, j, cosPi))[k])
    {
      TermReflect(cs, j, k, cosPi);
      SignedIsProduct(j, DctTerm(cs, j, |cs| - 1 - k, cosPi));
    }
  }

  /** If s' is (-1)^j times s entry by entry, so is its sum. */
  lemma SumSignedWhole(j: nat, s: seq<real>, s': seq<real>)
    requires SignedBy(j, s, s')
    ensures Sum(s') == Signed(j, Sum(s))
  {
    SumSigned(j, s, s', |s|);
    assert s[..|s|] == s && s'[..|s|] == s';
  }

  /** A sequence that is (-1)^j times another one reversed sums to (-1)^j times its sum. */
  lemma ReverseSignedSum(j: nat, t: seq<real>, t': seq<real>)
    requires SignedBy(j, Reverse(t), t')
    ensures Sum(t') == Signed(j, Sum(t))
  {
    SumSignedWhole(j, Reverse(t), t');
    SumReverse(t);
  }

  /** The cosine sum for coefficient j of the reversed samples is (-1)^j times that of the samples. */
  lemma DctSumSigned(cs: seq<real>, j: nat, cosPi: real -> real)
    requires SignedBy(j, Reverse(DctTerms(cs, j, cosPi)), DctTerms(Reverse(cs), j, cosPi))
    ensures DctSum(Reverse(cs), j, |cs|, cosPi) == Signed(j, DctSum(cs, j, |cs|, cosPi))
  {
    var n := |cs|;
    var t, t' := DctTerms(cs, j, cosPi), DctTerms(Reverse(cs), j, cosPi);
    ReverseSignedSum(j, t, t');
    DctSumOfTerms(Reverse(cs), j, n, cosPi);
    DctSumOfTerms(cs, j, n, cosPi);
    assert t[..n] == t && t'[..n] == t';
  }

  /** Chebyshev coefficient j of the reversed samples is (-1)^j times that of the samples. */
  lemma DctCoeffsReflect(cs: seq<real>, cosPi: real -> real, j: nat)
    requires j < |cs| && CosPiReflects(cosPi)
    ensures DctCoeffs(Reverse(cs), cosPi)[j] == Sign(j) * DctCoeffs(cs, cosPi)[j]
  {
    TermsReflect(cs, j, cosPi);
    DctSumSigned(cs, j, cosPi);
    SignedIsProduct(j, DctCoeffs(cs, cosPi)[j]);
  }

  // ---------------------------------------------------------------------
  // The change of basis of sign-flipped coefficients

  /** If c' is c with the odd entries negated, the degree-k sum of c' is
      (-1)^k times that of c: only entries of the parity of k contribute. */
  lemma {:induction false} ConvSumSigned(c: seq<real>, c': seq<real>, k: nat, n: nat)
    requires |c'| == |c| && n <= |c|
    requires forall j | 0 <= j < |c| :: c'[j] == Signed(j, c[j])
    ensures ConvSum(c', k, n) == Signed(k, ConvSum(c, k, n))
  {
    if n > 0 {
      ConvSumSigned(c, c', k, n - 1);
      ConvSumSignedStep(c, c', k, n);
    }
  }

  lemma ConvSumSignedStep(c: seq<real>, c': seq<real>, k: nat, n: nat)
    requires |c'| == |c| && 1 <= n <= |c|
    requires c'[n - 1] == Signed(n - 1, c[n - 1])
    requires ConvSum(c', k, n - 1) == Signed(k, ConvSum(c, k, n - 1))
    ensures ConvSum(c', k, n) == Signed(k, ConvSum(c, k, n))
  {
    var m := n - 1;
    var a := ChebCoeff(m, k) as real;
    if (m + k) % 2 == 1 {
      ChebParity(m, k);
      assert a * c'[m] == 0.0 && a * c[m] == 0.0;
    } else if k % 2 == 1 {
      assert a * c'[m] == -(a * c[m]);
    }
  }

  // ---------------------------------------------------------------------
  // The segment coefficients

  /** For an even function, the mirrored segment W-1-i has segment i's
      coefficients with every odd-degree coefficient negated. */
  lemma MirrorCoeffs(W: nat, D: nat, func: real -> real, cosPi: real -> real, i: nat, k: nat)
    requires i < W && k <= D
    requires EvenFunction(func) && CosPiReflects(cosPi)
    ensures SegmentCoeffs(W, D, func, cosPi, W - 1 - i)[k] == Sign(k) * SegmentCoeffs(W, D, func, cosPi, i)[k]
  {
    var roots := ChebRoots(D, cosPi);
    var ys := Samples(func, roots, SegmentLeft(W, i), SegmentRight(W, i));
    MirrorSamples(W, D, func, cosPi, i);
    var avg := Mean(ys);
    MeanReverse(ys);
    var cs := Centered(ys, avg);
    CenteredReverse(ys, avg);
    var lcf, lcf' := DctCoeffs(cs, cosPi), DctCoeffs(Reverse(cs), cosPi);
    forall j | 0 <= j < |cs|
      ensures lcf'[j] == Signed(j, lcf[j])
    {
      DctCoeffsReflect(cs, cosPi, j);
      SignedIsProduct(j, lcf[j]);
    }
    assert SegmentCoeffs(W, D, func, cosPi, i) == MonomialCoeffs(lcf, avg);
    assert SegmentCoeffs(W, D, func, cosPi, W - 1 - i) == MonomialCoeffs(lcf', avg);
    MirrorMonomial(lcf, lcf', avg, k);
  }

  /** Negating the odd Chebyshev coefficients negates the odd monomial
      coefficients and keeps the rest, the mean in the constant term included. */
  lemma MirrorMonomial(lcf: seq<real>, lcf': seq<real>, avg: real, k: nat)
    requires 0 < |lcf| == |lcf'| && k < |lcf|
    requires forall j | 0 <= j < |lcf| :: lcf'[j] == Signed(j, lcf[j])
    ensures MonomialCoeffs(lcf', avg)[k] == Sign(k) * MonomialCoeffs(lcf, avg)[k]
  {
    ConvSumSigned(lcf, lcf', k, |lcf|);
    assert ToMonomial(lcf')[k] == ConvSum(lcf', k, |lcf|);
    assert ToMonomial(lcf)[k] == ConvSum(lcf, k, |lcf|);
    SignedIsProduct(k, MonomialCoeffs(lcf, avg)[k]);
  }
}
