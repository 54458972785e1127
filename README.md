# Gridding kernel: kernel table, kernel shape and piecewise polynomial fit

This project models the core of `src/ducc0/math/gridding_kernel.cc` from the
ducc0 library. It covers four parts:

- **Kernel table.** The constant table `KernelDB` of 325 kernel parameter rows:
  support width W, oversampling factor, error bound, per-width steepness beta,
  exponent e0, and a sixth constant.
- **Kernel shape.** The "exponential of semicircle" shape `esknew`.
- **Kernel selection.** `selectKernel`, which turns row `idx` of the table into
  the parameters of a polynomial kernel, or fails with
  "no appropriate kernel found".
- **Piecewise fit.** `getCoeffs`, which approximates a function on [-1, 1] by W
  polynomial pieces of degree D. For each segment it does the following:
  1. samples the function at D+1 Chebyshev nodes;
  2. takes out the sample mean;
  3. runs a discrete cosine transform to get Chebyshev coefficients;
  4. converts them to monomial coefficients through the integer matrix C of
     the Chebyshev polynomials;
  5. puts the mean back into the constant term;
  6. stores the coefficients degree-major, highest degree first.

`getCoeffs` works step by step on scratch vectors, so it is modelled as Dafny
methods over arrays. There is one method per loop nest. Each method is proved
against specification functions in modules `SegmentFit`, `ChebTable` and
`Chebyshev`; `StoreSegment` states the slots it writes directly. The table,
`esknew` and `selectKernel` are pure, so they are modelled as functions and
lemmas.

Modules and files:

| file | module | contents |
|---|---|---|
| kernel_table.dfy | KernelTable | the 325 rows, grouped by width; range and ordering facts |
| esknew.dfy | EsKernel | the kernel shape and its support, symmetry and edge values |
| kernel_select.dfy | KernelSelect | selectKernel with its failure case |
| layout.dfy | Layout | row-major flat addressing; the output arrangement |
| segments.dfy | Segments | segment ends and the node map into a segment |
| chebyshev.dfy | Chebyshev | power-basis coefficients of T_j; change of basis and its exactness |
| cheb_table.dfy | ChebTable | the matrix C as it lies in memory, complete and partly built |
| fitter.dfy | SegmentFit | specification of getCoeffs, and its properties |
| fitter_loops.dfy | Fitter | getCoeffs as loops over arrays, proved against SegmentFit, ChebTable and Chebyshev |
| mirror.dfy | MirrorFit | the mirror symmetry of the fit for an even function |

The model uses these parameters:

- `cosPi` stands for x ↦ cos(πx). The source's `cos((2i+1)π/(2D+2))` is
  `cosPi((2i+1)/(2D+2))`.
- `exp` and `pow` in `esknew` are the caller's functions.
- `func` is the function being fitted.

The model states what the code does with these values. It does not state their
numerics. All arithmetic is on exact reals.

Two things a reader might expect of the kernel do not hold in the code. The
model follows the code:

- **esknew at v = ±1.** One might expect the kernel to be 0 at the ends of its
  support. The code (`gridding_kernel.cc:437-439`) says otherwise: at v = ±1,
  tmp = (1 - v)(1 + v) is 0, so the guard `tmp >= 0` holds. The value is then
  `exp(beta * (pow(0, e0) - 1))`, which is exp(-beta) whenever pow(0, e0) = 0
  (`EsKernel.EsknewAtEdges`). The kernel vanishes only strictly outside
  [-1, 1].
- **Error bound within a width.** One might expect the error bound never to
  rise as the oversampling factor grows within one width. The table's last two
  rows (`gridding_kernel.cc:432-433`) say otherwise: at width 16, the row for
  oversampling 2.50 has error bound 2.2824172e-15. That is larger than the
  2.061095e-15 of the row for 2.45 (`KernelTable.ErrorBoundNotMonotone`).

The contracts in the table below are stated in terms of these definitions:

- `KernelTable.KernelDB`: the table rows (`gridding_kernel.cc:78-433`).
- `KernelSelect.Shape`: the lambda that `selectKernel` wraps
  (`gridding_kernel.cc:448`).
- `Chebyshev.ChebCoeff`: entry (j, k) of the matrix C, by the recurrence
  (`gridding_kernel.cc:58-66`).
- `SegmentFit.Samples`: the samples `y` (`gridding_kernel.cc:40-45`).
- `SegmentFit.Mean`: `avg` (`gridding_kernel.cc:40-46`).
- `SegmentFit.DctCoeffs`: `lcf` (`gridding_kernel.cc:50-56`).
- `SegmentFit.SegmentCoeffs`: one segment's `lcf2`
  (`gridding_kernel.cc:37-71`).
- `SegmentFit.Coeffs`: the returned vector (`gridding_kernel.cc:28-76`).
- `MirrorFit.Sign` and `MirrorFit.Signed`: (-1)^k and (-1)^k x.
- `MirrorFit.Reverse`: a sequence in reverse order.
- `MirrorFit.EvenFunction` and `MirrorFit.CosPiReflects`: the hypotheses of
  the mirror symmetry. They say that func is even and that
  cos(π(j - x)) = (-1)^j cos(πx).

## Model

| member | source | states |
|---|---|---|
| KernelTable.KernelDBOrdered | src/ducc0/math/gridding_kernel.cc:78-433 | the table has 325 rows, every row is in range (W in 4..16, oversampling in [1.15, 2.5], error bound in (0, 0.03), beta in (1, 2.5), e0 in (0.5, 0.6), and norm > 1), and any two rows are ordered by width and then strictly by oversampling factor |
| KernelTable.RowInRangeAt | src/ducc0/math/gridding_kernel.cc:78-433 | every single row of the table is in range |
| KernelTable.RowsInOrderAt | src/ducc0/math/gridding_kernel.cc:78-433 | for i < j, row i comes before row j in table order |
| KernelTable.ErrorBoundNotMonotone | src/ducc0/math/gridding_kernel.cc:432-433 | the last two rows have width 16 and rising oversampling, yet the later row has the larger error bound |
| EsKernel.Esknew | src/ducc0/math/gridding_kernel.cc:435-440 | outside [-1, 1] the masked value is 0; inside it is exp(beta (pow(1 - v², e0) - 1)) |
| EsKernel.GuardIsInterval | src/ducc0/math/gridding_kernel.cc:437-438 | the guard (1 - v)(1 + v) >= 0 holds exactly for v in [-1, 1], and tmp equals 1 - v² |
| EsKernel.EsknewSupport | src/ducc0/math/gridding_kernel.cc:435-440 | with a positive exp, esknew is 0 exactly when v lies outside [-1, 1] (both directions) |
| EsKernel.EsknewAtEdges | src/ducc0/math/gridding_kernel.cc:437-439 | at v = 1 and v = -1 the kernel is exp(-beta), not 0, whenever pow(0, e0) = 0 |
| EsKernel.EsknewAtCentre | src/ducc0/math/gridding_kernel.cc:435-440 | at v = 0 the kernel is exp(0) whenever pow(1, e0) = 1 |
| EsKernel.EsknewEven | src/ducc0/math/gridding_kernel.cc:435-440 | esknew(-v) = esknew(v) for every exp and pow |
| KernelSelect.SelectKernel | src/ducc0/math/gridding_kernel.cc:442-450 | fails with "no appropriate kernel found" exactly when idx is past the end of the table; otherwise support = row's W, degree = support + 3, beta = row's beta times support, e0 = row's e0 |
| KernelSelect.ScaledBeta | src/ducc0/math/gridding_kernel.cc:446 | the steepness beta·W lies strictly between W and 2.5 W for a table beta in (1, 2.5) |
| KernelSelect.SelectedKernelBounds | src/ducc0/math/gridding_kernel.cc:444-449 | every valid index gives support 4..16, degree 7..19, steepness in (supp, 2.5 supp) and e0 in (0.5, 0.6), so the fitter's D >= 1 holds |
| KernelSelect.SupportNonDecreasing | src/ducc0/math/gridding_kernel.cc:445 | a larger index never gives a narrower support |
| KernelSelect.FirstKernel | src/ducc0/math/gridding_kernel.cc:79 | index 0 gives support 4 and degree 7 |
| KernelSelect.FirstKernelCoeffCount | src/ducc0/math/gridding_kernel.cc:442-449 | the coefficient vector that getCoeffs makes for the kernel of index 0 has W·(D+1) = 4·8 = 32 entries |
| KernelSelect.LastKernel | src/ducc0/math/gridding_kernel.cc:433-444 | index 324 gives support 16 and degree 19; index 325 is refused with the source's message |
| KernelSelect.SelectedShape | src/ducc0/math/gridding_kernel.cc:448 | the kernel function of a selected kernel vanishes exactly outside [-1, 1] (given positive exp) and is even |
| Segments.SegmentLeft | src/ducc0/math/gridding_kernel.cc:37 | the left end lies in [-1, 1), and is -1 for the first segment |
| Segments.SegmentRight | src/ducc0/math/gridding_kernel.cc:38 | the right end lies in (-1, 1], is 1 for the last segment, equals the next segment's left end, and lies 2/W past the left end |
| Segments.SegmentsCover | src/ducc0/math/gridding_kernel.cc:35-38 | every point of [-1, 1] lies in some segment |
| Segments.MapNode | src/ducc0/math/gridding_kernel.cc:43 | the node map sends -1 to l and 1 to r, and maps [-1, 1] into [l, r] |
| Segments.MirrorSegment | src/ducc0/math/gridding_kernel.cc:37-38 | segment W-1-i is segment i reflected through 0 |
| Segments.MirrorNode | src/ducc0/math/gridding_kernel.cc:43 | reflecting a node and its segment reflects the mapped point |
| Chebyshev.ChebLowerTriangular | src/ducc0/math/gridding_kernel.cc:58-66 | C is lower triangular: T_j has no power above x^j |
| Chebyshev.ChebParity | src/ducc0/math/gridding_kernel.cc:58-66 | C is zero where j + k is odd |
| Chebyshev.ChebLeading | src/ducc0/math/gridding_kernel.cc:58-66 | the diagonal entry of row j >= 1 is 2^(j-1) |
| Chebyshev.ChebRowEvaluates | src/ducc0/math/gridding_kernel.cc:58-66 | row j of C, read as monomial coefficients, evaluates at every x to T_j(x) as the three-term recurrence defines it |
| Chebyshev.ConvSumUpperOnly | src/ducc0/math/gridding_kernel.cc:67-70 | the degree-k monomial coefficient depends on the Chebyshev coefficients of degree k and above only |
| Chebyshev.ConvSumsEvaluate | src/ducc0/math/gridding_kernel.cc:67-70 | after the first n rows of C have been accumulated, the coefficients evaluate to the first n terms of the Chebyshev series |
| Chebyshev.ToMonomialPreservesValue | src/ducc0/math/gridding_kernel.cc:67-70 | the change of basis is exact: the monomial coefficients evaluate at every x to the Chebyshev series they came from |
| ChebTable.ChebFlatEntry | src/ducc0/math/gridding_kernel.cc:58-66 | entry C[r·(D+1) + c] of the complete matrix is the coefficient of x^c in T_r |
| ChebTable.PartialRowEnd | src/ducc0/math/gridding_kernel.cc:64-65 | writing columns 0..j of row j completes the row, because the columns beyond j are zero already |
| SegmentFit.MonomialCoeffs | src/ducc0/math/gridding_kernel.cc:67-71 | the mean goes into the constant term and changes no other coefficient |
| SegmentFit.CenteredSumsToZero | src/ducc0/math/gridding_kernel.cc:40-48 | the mean-removed samples sum to 0 |
| SegmentFit.DctSumZeroOrder | src/ducc0/math/gridding_kernel.cc:50-54 | with cos(0) = 1 the zero-order cosine sum is 2/(D+1) times the sum of the samples |
| SegmentFit.DctZeroOrderVanishes | src/ducc0/math/gridding_kernel.cc:40-56 | after the mean is removed, the zero-order Chebyshev coefficient is 0, so the constant part of the segment is exactly the mean added back |
| SegmentFit.MonomialCoeffsValue | src/ducc0/math/gridding_kernel.cc:58-71 | a segment's stored polynomial evaluates at every local point to the mean plus the Chebyshev series of the transformed samples |
| SegmentFit.MonomialCoeffsUpperOnly | src/ducc0/math/gridding_kernel.cc:67-71 | a segment's degree-k coefficient depends only on its Chebyshev coefficients of degree >= k |
| SegmentFit.CoeffsLayout | src/ducc0/math/gridding_kernel.cc:72-73 | slot j·W + i of the output holds segment i's coefficient of degree D - j |
| SegmentFit.SlotsPartition | src/ducc0/math/gridding_kernel.cc:30 | every one of the W·(D+1) output slots belongs to exactly one (degree row, segment) pair |
| SegmentFit.RowOneNeedsDegreeOne | src/ducc0/math/gridding_kernel.cc:60 | the write to C(1, 1) is inside the (D+1)×(D+1) matrix exactly when D >= 1 |
| MirrorFit.RootReflect | src/ducc0/math/gridding_kernel.cc:31-33 | under the reflection identity for cos, node D-j is the negative of node j |
| MirrorFit.MirrorSamples | src/ducc0/math/gridding_kernel.cc:37-45 | for an even func, the samples of segment W-1-i are those of segment i in reverse order |
| MirrorFit.MeanReverse | src/ducc0/math/gridding_kernel.cc:40-46 | reversing the samples leaves their mean unchanged |
| MirrorFit.DctCoeffsReflect | src/ducc0/math/gridding_kernel.cc:50-56 | reversing the mean-removed samples multiplies Chebyshev coefficient j by (-1)^j, the halved zero-order one included |
| MirrorFit.ConvSumSigned | src/ducc0/math/gridding_kernel.cc:67-70 | negating the odd Chebyshev coefficients multiplies every degree-k monomial sum by (-1)^k |
| MirrorFit.MirrorMonomial | src/ducc0/math/gridding_kernel.cc:67-71 | the same holds for the segment's coefficients with the mean added to the constant term |
| MirrorFit.MirrorCoeffs | src/ducc0/math/gridding_kernel.cc:37-73 | for an even func, segment W-1-i's coefficient of degree k is (-1)^k times segment i's |
| Fitter.FillChebRoots | src/ducc0/math/gridding_kernel.cc:31-33 | chebroot holds cos((2i+1)π/(2D+2)) for i = 0..D |
| Fitter.SampleValues | src/ducc0/math/gridding_kernel.cc:40-45 | y holds func at every node mapped into [l, r], and the running total is their sum |
| Fitter.Subtract | src/ducc0/math/gridding_kernel.cc:47-48 | every entry of y loses c |
| Fitter.SampleSegment | src/ducc0/math/gridding_kernel.cc:40-48 | returns the mean of the samples and leaves the mean-removed samples in y |
| Fitter.CosineSum | src/ducc0/math/gridding_kernel.cc:52-54 | lcf[j] becomes the full cosine sum for coefficient j; no other entry changes |
| Fitter.ChebyshevTransform | src/ducc0/math/gridding_kernel.cc:50-56 | lcf holds the cosine transform of y, with the zero-order coefficient halved |
| Fitter.BuildChebMatrix | src/ducc0/math/gridding_kernel.cc:58-66 | after zeroing and the recurrence, C is the complete matrix of power-basis coefficients of T_0..T_D |
| Fitter.FillChebRow | src/ducc0/math/gridding_kernel.cc:63-65 | writing row j from rows j-1 and j-2 extends the built part of C by exactly that row |
| Fitter.ConvertBasis | src/ducc0/math/gridding_kernel.cc:67-71 | lcf2 holds the monomial coefficients of the Chebyshev series in lcf, with the mean added to the constant term |
| Fitter.AccumulateRow | src/ducc0/math/gridding_kernel.cc:69-70 | adding row j of C, weighted by lcf[j], takes the partial sums over the first j rows to those over the first j+1 |
| Fitter.StoreSegment | src/ducc0/math/gridding_kernel.cc:72-73 | the segment's coefficients go to slots j·W + i, highest degree first; the slots of every other segment keep their values |
| Fitter.FitSegment | src/ducc0/math/gridding_kernel.cc:37-73 | one pass of the segment loop writes segment i's specified coefficients and leaves every other segment's slots alone |
| Fitter.GetCoeffs | src/ducc0/math/gridding_kernel.cc:28-76 | the returned vector is the specified arrangement of all W segments' coefficients |

## Left out

- Floating point: the model computes on exact reals. Rounding in the
  sampling, in the transform and in the basis conversion is not modelled, and
  neither is any accuracy claim for the fitted polynomial.
- cos, exp, pow and func are opaque parameters. The model does not state their
  numerics. In particular, it does not prove that the cosine transform
  interpolates the samples, which would need trigonometric identities. The
  mirror symmetry (`MirrorFit.MirrorCoeffs`) takes the one identity it needs,
  cos(π(j - x)) = (-1)^j cos(πx), as a hypothesis on cosPi.
- `PolynomialKernel` and `GLFullCorrection`, which `selectKernel` hands its
  parameters to, are not part of this model. `KernelSelect.SelectKernel`
  returns the parameters themselves (support, degree, steepness, exponent), and
  `KernelSelect.Shape` stands for the kernel function it would wrap.
- The `MR_assert` failure in `selectKernel` aborts in the source. Here it is a
  `Failure` value carrying the same message.
- The header that declares the table's record type is not part of this
  model. The sixth column of each row is named `norm` here.
- The rows that are commented out in the source table are left out, just as
  the compiled table leaves them out.
- Fitter.BuildChebMatrix: C is an array of integers, where the source uses a
  vector of doubles. For degrees up to 19, the highest that `selectKernel`
  asks for, the entries are integers below 2^22 in magnitude, so doubles hold
  them exactly.
- Fitter.GetCoeffs: requires D >= 1. For D = 0 the source writes C(1, 1)
  outside its one-entry matrix, which is undefined behaviour
  (`SegmentFit.RowOneNeedsDegreeOne`). Every kernel from the table has
  D = W + 3 >= 7.
- Fitter.GetCoeffs: returns the output vector as a sequence. The source
  returns a `std::vector` by value.
- The rest of the component is not part of this model: the kernel classes, the
  choice of a kernel by accuracy and oversampling, and the other functions of
  the header.
