/** Chebyshev polynomials in the power basis, as the fitter's matrix C holds them,
    and the change of basis from Chebyshev coefficients to monomial coefficients. */
module Chebyshev {

  function Pow2(n: nat): nat
  {
    if n == 0 then 1 else 2 * Pow2(n - 1)
  }

  function Pow(x: real, n: nat): real
  {
    if n == 0 then 1.0 else x * Pow(x, n - 1)
  }

  /** The coefficient of x^k in T_j, by the recurrence T_0 = 1, T_1 = x,
      T_j = 2x T_(j-1) - T_(j-2) applied coefficient by coefficient. */
  function ChebCoeff(j: nat, k: nat): int
  {
    if j == 0 then (if k == 0 then 1 else 0)
    else if j == 1 then (if k == 1 then 1 else 0)
    else (if k == 0 then 0 else 2 * ChebCoeff(j - 1, k - 1)) - ChebCoeff(j - 2, k)
  }

  /** The value T_j(x), by the same recurrence applied to values: the reference
      the power-basis rows are checked against. */
  function ChebT(j: nat, x: real): real
  {
    if j == 0 then 1.0
    else if j == 1 then x
    else 2.0 * x * ChebT(j - 1, x) - ChebT(j - 2, x)
  }

  /** C is lower triangular: T_j has no power above x^j. */
  lemma {:induction false} ChebLowerTriangular(j: nat, k: nat)
    requires k > j
    ensures ChebCoeff(j, k) == 0
  {
    if j >= 2 {
      ChebLowerTriangular(j - 1, k - 1);
      ChebLowerTriangular(j - 2, k);
    }
  }

  /** T_j has only powers of the parity of j. */
  lemma {:induction false} ChebParity(j: nat, k: nat)
    requires (j + k) % 2 == 1
    ensures ChebCoeff(j, k) == 0
  {
    if j >= 2 {
      if k > 0 {
        ChebParity(j - 1, k - 1);
      }
      ChebParity(j - 2, k);
    }
  }

  /** The leading coefficient of T_j is 2^(j-1) for j >= 1. */
  lemma {:induction false} ChebLeading(j: nat)
    requires j >= 1
    ensures ChebCoeff(j, j) == Pow2(j - 1)
  {
    if j >= 2 {
      ChebLeading(j - 1);
      ChebLowerTriangular(j - 2, j);
    }
  }

  /** Sum over k < n of m[k] * x^k. */
  function PolyEval(m: seq<real>, x: real, n: nat): real
    requires n <= |m|
  {
    if n == 0 then 0.0 else PolyEval(m, x, n - 1) + m[n - 1] * Pow(x, n - 1)
  }

  /** Sum over j < n of c[j] * T_j(x). */
  function SeriesEval(c: seq<real>, x: real, n: nat): real
    requires n <= |c|
  {
    if n == 0 then 0.0 else SeriesEval(c, x, n - 1) + c[n - 1] * ChebT(n - 1, x)
  }

  // ---------------------------------------------------------------------
  // Rows of C are the Chebyshev polynomials

  /** The first N entries of row j of C, as reals. */
  function ChebRow(j: nat, N: nat): (r: seq<real>)
    ensures |r| == N
  {
    seq(N, k requires 0 <= k < N => ChebCoeff(j, k) as real)
  }

  /** Row j of C follows from rows j-1 and j-2 entry by entry. */
  lemma ChebRowsRecur(j: nat, N: nat)
    requires j >= 2
    ensures N > 0 ==> ChebRow(j, N)[0] == -ChebRow(j - 2, N)[0]
    ensures forall k | 1 <= k < N :: ChebRow(j, N)[k] == 2.0 * ChebRow(j - 1, N)[k - 1] - ChebRow(j - 2, N)[k]
  {
  }

  /** Any three coefficient rows related like rows j, j-1 and j-2 of C
      evaluate like T_j = 2x T_(j-1) - T_(j-2), over any number of terms. */
  lemma {:induction false} PolyEvalRecurrence(r: seq<real>, r1: seq<real>, r2: seq<real>, x: real, n: nat)
    requires |r1| == |r| && |r2| == |r| && 1 <= n <= |r|
    requires r[0] == -r2[0]
    requires forall k | 1 <= k < |r| :: r[k] == 2.0 * r1[k - 1] - r2[k]
    ensures PolyEval(r, x, n) == 2.0 * x * PolyEval(r1, x, n - 1) - PolyEval(r2, x, n)
  {
    if n == 1 {
      assert Pow(x, 0) == 1.0;
      var z := PolyEval(r1, x, 0);
      assert 2.0 * x * z == 0.0;
    } else {
      PolyEvalRecurrence(r, r1, r2, x, n - 1);
      assert Pow(x, n - 1) == x * Pow(x, n - 2);
      RecurrenceStep(x, r[n - 1], r1[n - 2], r2[n - 1], Pow(x, n - 1), Pow(x, n - 2),
                     PolyEval(r, x, n - 1), PolyEval(r1, x, n - 2), PolyEval(r2, x, n - 1));
    }
  }

  /** The ring identity behind one step of PolyEvalRecurrence. */
  lemma RecurrenceStep(x: real, c: real, a: real, b: real, p: real, q: real, s: real, s1: real, s2: real)
    requires s == 2.0 * x * s1 - s2 && c == 2.0 * a - b && p == x * q
    ensures s + c * p == 2.0 * x * (s1 + a * q) - (s2 + b * p)
  {
  }

  /** Entries from m up to n that are zero add nothing. */
  lemma {:induction false} PolyEvalZeroTail(r: seq<real>, x: real, m: nat, n: nat)
    requires m <= n <= |r|
    requires forall k | m <= k < n :: r[k] == 0.0
    ensures PolyEval(r, x, n) == PolyEval(r, x, m)
  {
    if n > m {
      PolyEvalZeroTail(r, x, m, n - 1);
      var p := Pow(x, n - 1);
      assert r[n - 1] * p == 0.0;
    }
  }

  /** Row j of C, read as power-basis coefficients, is the polynomial T_j:
      evaluating any n > j of its entries anywhere gives T_j's value. */
  lemma {:induction false} ChebRowEvaluates(j: nat, x: real, N: nat, n: nat)
    requires j < n <= N
    ensures PolyEval(ChebRow(j, N), x, n) == ChebT(j, x)
  {
    if j <= 1 {
      FirstRowsEvaluate(j, x, N, n);
    } else {
      ChebRowEvaluates(j - 1, x, N, n - 1);
      ChebRowEvaluates(j - 2, x, N, n);
      ChebRowNext(j, x, N, n);
    }
  }

  /** One step of ChebRowEvaluates: rows j-1 and j-2 evaluate to T_(j-1) and
      T_(j-2), so row j evaluates to T_j. */
  lemma ChebRowNext(j: nat, x: real, N: nat, n: nat)
    requires 2 <= j && 1 <= n <= N
    requires PolyEval(ChebRow(j - 1, N), x, n - 1) == ChebT(j - 1, x)
    requires PolyEval(ChebRow(j - 2, N), x, n) == ChebT(j - 2, x)
    ensures PolyEval(ChebRow(j, N), x, n) == ChebT(j, x)
  {
    ChebRowsRecur(j, N);
    RecurrenceApplies(ChebRow(j, N), ChebRow(j - 1, N), ChebRow(j - 2, N), x, n, ChebT(j - 1, x), ChebT(j - 2, x));
  }

  /** Rows 0 and 1 of C are 1 and x. */
  lemma FirstRowsEvaluate(j: nat, x: real, N: nat, n: nat)
    requires j <= 1 && j < n <= N
    ensures PolyEval(ChebRow(j, N), x, n) == ChebT(j, x)
  {
    var r := ChebRow(j, N);
    forall k | j + 1 <= k < n
      ensures r[k] == 0.0
    {
      ChebLowerTriangular(j, k);
    }
    PolyEvalZeroTail(r, x, j + 1, n);
    assert Pow(x, 0) == 1.0 && Pow(x, 1) == x;
    if j == 1 {
      assert PolyEval(r, x, 1) == 0.0;
    }
  }

  /** PolyEvalRecurrence with the values of the two lower rows given. */
  lemma RecurrenceApplies(r: seq<real>, r1: seq<real>, r2: seq<real>, x: real, n: nat, t1: real, t2: real)
    requires |r1| == |r| && |r2| == |r| && 1 <= n <= |r|
    requires r[0] == -r2[0]
    requires forall k | 1 <= k < |r| :: r[k] == 2.0 * r1[k - 1] - r2[k]
    requires PolyEval(r1, x, n - 1) == t1 && PolyEval(r2, x, n) == t2
    ensures PolyEval(r, x, n) == 2.0 * x * t1 - t2
  {
    PolyEvalRecurrence(r, r1, r2, x, n);
    MulCongruence(2.0 * x, PolyEval(r1, x, n - 1), t1);
  }

  // ---------------------------------------------------------------------
  // Change of basis

  /** Sum over j < n of ChebCoeff(j, k) * c[j]: the degree-k monomial coefficient
      of the first n terms of the Chebyshev series c. */
  function ConvSum(c: seq<real>, k: nat, n: nat): real
    requires n <= |c|
  {
    if n == 0 then 0.0 else ConvSum(c, k, n - 1) + (ChebCoeff(n - 1, k) as real) * c[n - 1]
  }

  lemma ConvSumStep(c: seq<real>, k: nat, n: nat)
    requires n < |c|
    ensures ConvSum(c, k, n + 1) == ConvSum(c, k, n) + (ChebCoeff(n, k) as real) * c[n]
  {
  }

  /** The degree-k coefficients, for every k < |c|, of the first n terms of the series c. */
  function ConvSums(c: seq<real>, n: nat): (m: seq<real>)
    requires n <= |c|
    ensures |m| == |c|
  {
    seq(|c|, k requires 0 <= k < |c| => ConvSum(c, k, n))
  }

  /** The monomial coefficients of the Chebyshev series c, lowest degree first. */
  function ToMonomial(c: seq<real>): (m: seq<real>)
    ensures |m| == |c|
  {
    ConvSums(c, |c|)
  }

  /** The degree-k coefficient only depends on the Chebyshev coefficients of degree k and above. */
  lemma {:induction false} ConvSumUpperOnly(c: seq<real>, c': seq<real>, k: nat, n: nat)
    requires n <= |c| && n <= |c'|
    requires forall j | k <= j < n :: c[j] == c'[j]
    ensures ConvSum(c, k, n) == ConvSum(c', k, n)
  {
    if n > 0 {
      ConvSumUpperOnly(c, c', k, n - 1);
      if n - 1 < k {
        ChebLowerTriangular(n - 1, k);
      }
    }
  }

  /** The first m entries of u are those of v plus a times those of w. */
  predicate Combination(u: seq<real>, v: seq<real>, w: seq<real>, a: real, m: nat)
  {
    && m <= |u| && m <= |v| && m <= |w|
    && forall k | 0 <= k < m :: u[k] == v[k] + a * w[k]
  }

  /** PolyEval is linear in the coefficients: if u = v + a w entry by entry,
      then u evaluates to v's value plus a times w's. */
  lemma {:induction false} PolyEvalLinear(u: seq<real>, v: seq<real>, w: seq<real>, a: real, x: real, m: nat)
    requires Combination(u, v, w, a, m)
    ensures PolyEval(u, x, m) == PolyEval(v, x, m) + a * PolyEval(w, x, m)
  {
    if m > 0 {
      PolyEvalLinear(u, v, w, a, x, m - 1);
      LinearStep(PolyEval(u, x, m - 1), PolyEval(v, x, m - 1), PolyEval(w, x, m - 1),
                 u[m - 1], v[m - 1], w[m - 1], a, Pow(x, m - 1));
    }
  }

  /** The ring identity behind one step of PolyEvalLinear. */
  lemma LinearStep(su: real, sv: real, sw: real, uk: real, vk: real, wk: real, a: real, p: real)
    requires su == sv + a * sw && uk == vk + a * wk
    ensures su + uk * p == (sv + vk * p) + a * (sw + wk * p)
  {
  }

  /** PolyEvalLinear with the values of v and w given. */
  lemma LinearApplies(u: seq<real>, v: seq<real>, w: seq<real>, a: real, x: real, m: nat, sv: real, sw: real)
    requires Combination(u, v, w, a, m)
    requires PolyEval(v, x, m) == sv && PolyEval(w, x, m) == sw
    ensures PolyEval(u, x, m) == sv + a * sw
  {
    PolyEvalLinear(u, v, w, a, x, m);
    MulCongruence(a, PolyEval(w, x, m), sw);
  }

  /** Equal factors give equal products (stated once, so that callers need
      not rediscover it under many nonlinear terms). */
  lemma MulCongruence(a: real, b: real, b': real)
    requires b == b'
    ensures a * b == a * b'
  {
  }

  /** Taking in term n-1 of the series adds c[n-1] times row n-1 of C to the coefficients. */
  lemma ConvSumsStep(c: seq<real>, n: nat)
    requires 1 <= n <= |c|
    ensures Combination(ConvSums(c, n), ConvSums(c, n - 1), ChebRow(n - 1, |c|), c[n - 1], |c|)
  {
  }

  /** Without any term of the series every coefficient is zero. */
  lemma ConvSumsNone(c: seq<real>, x: real)
    ensures PolyEval(ConvSums(c, 0), x, |c|) == 0.0
  {
    PolyEvalZeroTail(ConvSums(c, 0), x, 0, |c|);
  }

  /** The coefficients of the first n terms evaluate to the first n terms of the series. */
  lemma {:induction false} ConvSumsEvaluate(c: seq<real>, x: real, n: nat)
    requires n <= |c|
    ensures PolyEval(ConvSums(c, n), x, |c|) == SeriesEval(c, x, n)
  {
    if n == 0 {
      ConvSumsNone(c, x);
    } else {
      ConvSumsEvaluate(c, x, n - 1);
      ConvSumsNext(c, x, n);
    }
  }

  /** One step of ConvSumsEvaluate: adding c[n-1] times row n-1 of C adds
      c[n-1] T_(n-1)(x) to the value. */
  lemma ConvSumsNext(c: seq<real>, x: real, n: nat)
    requires 1 <= n <= |c|
    requires PolyEval(ConvSums(c, n - 1), x, |c|) == SeriesEval(c, x, n - 1)
    ensures PolyEval(ConvSums(c, n), x, |c|) == SeriesEval(c, x, n)
  {
    ChebRowEvaluates(n - 1, x, |c|, |c|);
    ConvSumsStep(c, n);
    LinearApplies(ConvSums(c, n), ConvSums(c, n - 1), ChebRow(n - 1, |c|), c[n - 1], x, |c|,
                  SeriesEval(c, x, n - 1), ChebT(n - 1, x));
  }

  /** The change of basis is exact: the monomial coefficients evaluate, at every
      point, to the value of the Chebyshev series they came from. */
  lemma ToMonomialPreservesValue(c: seq<real>, x: real)
    ensures PolyEval(ToMonomial(c), x, |c|) == SeriesEval(c, x, |c|)
  {
    ConvSumsEvaluate(c, x, |c|);
  }
}
