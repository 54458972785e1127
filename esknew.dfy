/** The "exponential of semicircle" kernel shape esknew(v, beta, e0):
    exp(beta * (((1 - v) (1 + v))^e0 - 1)) inside [-1, 1] and 0 outside.
    The source multiplies by the truth value of the guard (1 or 0) instead of
    branching; the model keeps that form.  exp and pow are parameters: the
    model states what the guard does with them, not their numerics. */
module EsKernel {

  /** esknew with exp(x) = exp(x) and pow(b, e) = b^e supplied by the caller. */
  function Esknew(v: real, beta: real, e0: real, exp: real -> real, pow: (real, real) -> real): (r: real)
    ensures v < -1.0 || v > 1.0 ==> r == 0.0
    ensures -1.0 <= v <= 1.0 ==> r == exp(beta * (pow(1.0 - v * v, e0) - 1.0))
  {
    GuardIsInterval(v);
    var tmp := (1.0 - v) * (1.0 + v);
    var tmp2 := if tmp >= 0.0 then 1.0 else 0.0;
    MaskedValue(tmp, tmp2, beta, e0, exp, pow);
    SameBase(pow, tmp, 1.0 - v * v, e0);
    SameArgument(exp, beta * (pow(tmp, e0) - 1.0), beta * (pow(1.0 - v * v, e0) - 1.0));
    tmp2 * exp(beta * (pow(tmp * tmp2, e0) - 1.0))
  }

  /** Multiplying by the guard's truth value: the unmasked value where the
      guard holds, zero where it fails. */
  lemma MaskedValue(tmp: real, tmp2: real, beta: real, e0: real, exp: real -> real, pow: (real, real) -> real)
    requires tmp2 == if tmp >= 0.0 then 1.0 else 0.0
    ensures tmp >= 0.0 ==> tmp2 * exp(beta * (pow(tmp * tmp2, e0) - 1.0)) == exp(beta * (pow(tmp, e0) - 1.0))
    ensures tmp < 0.0 ==> tmp2 * exp(beta * (pow(tmp * tmp2, e0) - 1.0)) == 0.0
  {
    if tmp >= 0.0 {
      MaskPasses(e0, beta, exp, pow, tmp, tmp2);
    }
  }

  lemma MaskPasses(e0: real, beta: real, exp: real -> real, pow: (real, real) -> real, tmp: real, tmp2: real)
    requires tmp2 == 1.0
    ensures tmp2 * exp(beta * (pow(tmp * tmp2, e0) - 1.0)) == exp(beta * (pow(tmp, e0) - 1.0))
  {
    SameBase(pow, tmp * tmp2, tmp, e0);
    SameArgument(exp, beta * (pow(tmp * tmp2, e0) - 1.0), beta * (pow(tmp, e0) - 1.0));
  }

  lemma SameArgument(f: real -> real, a: real, b: real)
    requires a == b
    ensures f(a) == f(b)
  {
  }

  lemma SameBase(f: (real, real) -> real, a: real, b: real, e: real)
    requires a == b
    ensures f(a, e) == f(b, e)
  {
  }

  /** The guard (1 - v)(1 + v) >= 0 holds exactly on [-1, 1]. */
  lemma GuardIsInterval(v: real)
    ensures (1.0 - v) * (1.0 + v) == 1.0 - v * v
    ensures (1.0 - v) * (1.0 + v) >= 0.0 <==> -1.0 <= v <= 1.0
  {
    if v > 1.0 {
      assert (v - 1.0) * (1.0 + v) > 0.0;
    } else if v < -1.0 {
      assert (1.0 - v) * (-1.0 - v) > 0.0;
    } else {
      assert (1.0 - v) * (1.0 + v) >= 0.0;
    }
  }

  /** With a positive exp, the kernel vanishes exactly outside [-1, 1]. */
  lemma EsknewSupport(v: real, beta: real, e0: real, exp: real -> real, pow: (real, real) -> real)
    requires forall x :: exp(x) > 0.0
    ensures Esknew(v, beta, e0, exp, pow) == 0.0 <==> v < -1.0 || v > 1.0
  {
    if -1.0 <= v <= 1.0 {
      assert exp(beta * (pow(1.0 - v * v, e0) - 1.0)) > 0.0;
    }
  }

  /** At the edges v = -1 and v = 1 the kernel is exp(-beta), not zero,
      whenever pow(0, e0) == 0. */
  lemma EsknewAtEdges(beta: real, e0: real, exp: real -> real, pow: (real, real) -> real)
    requires pow(0.0, e0) == 0.0
    ensures Esknew(1.0, beta, e0, exp, pow) == exp(-beta)
    ensures Esknew(-1.0, beta, e0, exp, pow) == exp(-beta)
  {
    SameBase(pow, 1.0 - 1.0 * 1.0, 0.0, e0);
    SameArgument(exp, beta * (pow(1.0 - 1.0 * 1.0, e0) - 1.0), -beta);
    SameBase(pow, 1.0 - (-1.0) * (-1.0), 0.0, e0);
    SameArgument(exp, beta * (pow(1.0 - (-1.0) * (-1.0), e0) - 1.0), -beta);
  }

  /** At the centre the kernel is exp(0) whenever pow(1, e0) == 1. */
  lemma EsknewAtCentre(beta: real, e0: real, exp: real -> real, pow: (real, real) -> real)
    requires pow(1.0, e0) == 1.0
    ensures Esknew(0.0, beta, e0, exp, pow) == exp(0.0)
  {
    var tmp := (1.0 - 0.0) * (1.0 + 0.0);
    MaskedValue(tmp, 1.0, beta, e0, exp, pow);
    SameBase(pow, tmp * 1.0, 1.0, e0);
    SameArgument(exp, beta * (pow(tmp * 1.0, e0) - 1.0), 0.0);
  }

  /** The kernel is even, whatever exp and pow are. */
  lemma EsknewEven(v: real, beta: real, e0: real, exp: real -> real, pow: (real, real) -> real)
    ensures Esknew(-v, beta, e0, exp, pow) == Esknew(v, beta, e0, exp, pow)
  {
    SameBase(pow, 1.0 - (-v) * (-v), 1.0 - v * v, e0);
  }
}
