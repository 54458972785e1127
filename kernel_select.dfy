/** selectKernel: picks row idx of the kernel table and turns it into the
    parameters of a polynomial kernel.  The support is the row's width W, the
    polynomial degree is W + 3, the steepness is the row's per-width beta times
    W, and the shape is esknew with that steepness and the row's exponent.
    An index past the end of the table is the source's assertion failure,
    modelled as a Failure value carrying the source's message. */
module KernelSelect {
  import opened KernelTable
  import opened EsKernel
  import SegmentFit

  datatype Result<T> = Success(value: T) | Failure(msg: string)

  /** What selectKernel hands to the polynomial kernel's constructor. */
  datatype KernelSpec = KernelSpec(supp: nat, degree: nat, beta: real, e0: real)

  const NoKernelMessage: string := "no appropriate kernel found"

  /** The table's beta is per unit of support: the kernel's steepness is beta
      times the support W.  For a row's beta in (1, 2.5) it lies strictly
      between W and 2.5 W. */
  function ScaledBeta(b: real, W: nat): (beta: real)
    ensures 1.0 < b < 2.5 && W >= 1 ==> (W as real) < beta < 2.5 * (W as real)
  {
    BetaScaled(b, W);
    b * (W as real)
  }

  /** selectKernel: row idx of the table as a kernel (support W, degree W + 3,
      steepness beta * W, the row's exponent), or the source's failure for an
      index past the end. */
  function SelectKernel(idx: nat): (r: Result<KernelSpec>)
    ensures r.Failure? <==> idx >= |KernelDB|
    ensures r.Failure? ==> r.msg == NoKernelMessage
    ensures r.Success? ==> r.value.degree == r.value.supp + 3
    ensures r.Success? ==> r.value.supp == KernelDB[idx].W && r.value.e0 == KernelDB[idx].e0
    ensures r.Success? ==> r.value.beta == ScaledBeta(KernelDB[idx].beta, r.value.supp)
  {
    if idx < |KernelDB| then
      var supp := KernelDB[idx].W;
      Success(KernelSpec(supp, supp + 3, ScaledBeta(KernelDB[idx].beta, supp), KernelDB[idx].e0))
    else
      Failure(NoKernelMessage)
  }

  /** The kernel function of a selected kernel: esknew with its steepness and exponent. */
  function Shape(k: KernelSpec, v: real, exp: real -> real, pow: (real, real) -> real): real
  {
    Esknew(v, k.beta, k.e0, exp, pow)
  }

  /** Every selected kernel has a support of 4 to 16, a steepness strictly
      between its support and 2.5 times its support, an exponent in (0.5, 0.6),
      and a degree between 7 and 19, so the coefficient fit's requirement of
      degree >= 1 is met. */
  lemma SelectedKernelBounds(idx: nat)
    requires idx < |KernelDB|
    ensures SelectKernel(idx).Success?
    ensures SpecInRange(SelectKernel(idx).value)
  {
    RowInRangeAt(idx);
    var p := KernelDB[idx];
    RowGivesSpecInRange(p, SelectKernel(idx).value);
  }

  /** The bounds a kernel built from a table row satisfies. */
  predicate SpecInRange(k: KernelSpec)
  {
    && 4 <= k.supp <= 16
    && 7 <= k.degree <= 19
    && (k.supp as real) < k.beta < 2.5 * (k.supp as real)
    && 0.5 < k.e0 < 0.6
  }

  lemma RowGivesSpecInRange(p: KernelParams, k: KernelSpec)
    requires RowInRange(p)
    requires k.supp == p.W && k.degree == p.W + 3 && k.e0 == p.e0 && k.beta == ScaledBeta(p.beta, p.W)
    ensures SpecInRange(k)
  {
  }

  lemma BetaScaled(b: real, W: nat)
    ensures 1.0 < b < 2.5 && W >= 1 ==> (W as real) < b * (W as real) < 2.5 * (W as real)
  {
    if 1.0 < b < 2.5 && W >= 1 {
      var w := W as real;
      assert (b - 1.0) * w > 0.0;
      assert (2.5 - b) * w > 0.0;
    }
  }

  /** Support widths rise with the index: a later row never has a narrower support. */
  lemma SupportNonDecreasing(i: nat, j: nat)
    requires i <= j < |KernelDB|
    ensures SelectKernel(i).value.supp <= SelectKernel(j).value.supp
  {
    if i < j {
      RowsInOrderAt(i, j);
    }
  }

  /** The first row gives the narrowest kernel: support 4, degree 7. */
  lemma FirstKernel()
    ensures SelectKernel(0).Success?
    ensures SelectKernel(0).value.supp == 4 && SelectKernel(0).value.degree == 7
  {
    KernelDBOrdered();
    assert KernelDB[0] == Width4Rows[0];
  }

  /** The coefficient array made for the first kernel has 4 * (7 + 1) = 32 entries. */
  lemma FirstKernelCoeffCount(func: real -> real, cosPi: real -> real)
    ensures SelectKernel(0).Success?
    ensures |SegmentFit.Coeffs(SelectKernel(0).value.supp, SelectKernel(0).value.degree, func, cosPi)| == 32
  {
    FirstKernel();
  }

  /** The last row gives support 16 and degree 19; one past it is refused. */
  lemma LastKernel()
    ensures SelectKernel(324).Success?
    ensures SelectKernel(324).value.supp == 16 && SelectKernel(324).value.degree == 19
    ensures SelectKernel(325) == Failure(NoKernelMessage)
  {
    KernelDBOrdered();
    ErrorBoundNotMonotone();
  }

  /** A selected kernel vanishes exactly outside [-1, 1] when exp is positive,
      and is even. */
  lemma SelectedShape(idx: nat, v: real, exp: real -> real, pow: (real, real) -> real)
    requires idx < |KernelDB|
    requires forall x :: exp(x) > 0.0
    ensures SelectKernel(idx).Success?
    ensures var k := SelectKernel(idx).value;
      && (Shape(k, v, exp, pow) == 0.0 <==> v < -1.0 || v > 1.0)
      && Shape(k, -v, exp, pow) == Shape(k, v, exp, pow)
  {
    var k := SelectKernel(idx).value;
    EsknewSupport(v, k.beta, k.e0, exp, pow);
    EsknewEven(v, k.beta, k.e0, exp, pow);
  }
}
