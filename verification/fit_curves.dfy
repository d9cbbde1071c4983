/** What both exponential fitters compute once the solver has returned:
    parameter packing, reduced chi-squared, the sample grid, the fit curve,
    the confidence band and the curves above and below the fit.

    The fit model is y = a·exp(-x/b) (single) or
    y = a·exp(-x/b) + c·exp(-x/d) (double), with a and c the linear
    coefficients and b and d the nonlinear parameters.

    The nonlinear least-squares solver and Student's t distribution are
    libraries: their results are inputs here (`SolverOutcome`,
    `TDistribution`), constrained only by the shapes the libraries promise. */
module FitCurves {
  import opened Common
  import opened Float

  datatype Point = Point(x: F64, y: F64)

  /** A value and its uncertainty. */
  datatype Estimate = Estimate(value: F64, uncertainty: F64)

  /** One exponential term of a fit: ((a, σa), (b, σb)). */
  datatype FitParam = FitParam(linear: Estimate, nonlinear: Estimate)

  datatype Color32 = Color32(r: int, g: int, b: int, a: int)

  const Blue := Color32(0, 0, 255, 255)
  const LightBlue := Color32(140, 160, 255, 255)

  /** What the solver reports after a fit that ran. The covariance matrix is
      over the linear coefficients followed by the nonlinear parameters and
      is read by flat index (column-major storage). */
  datatype FitStatistics = FitStatistics(
    linearCoefficients: Option<seq<F64>>,
    linearVariances: seq<F64>,
    nonlinearParameters: seq<F64>,
    nonlinearVariances: seq<F64>,
    covariance: seq<F64>,
    weightedResiduals: seq<F64>)

  /** How a call of the solver ends: building the model fails, building the
      problem fails, the fit fails, or it returns its statistics. */
  datatype SolverOutcome = ModelBuildFailed | ProblemBuildFailed | SolverFailed | Solved(stats: FitStatistics)

  /** The sizes the solver guarantees for a model of `terms` exponentials:
      one nonlinear parameter and (when present) one linear coefficient per
      term, each with its variance, and a square covariance matrix over all
      of them. */
  predicate WellShaped(outcome: SolverOutcome, terms: nat)
  {
    outcome.Solved? ==>
      var s := outcome.stats;
      && |s.nonlinearParameters| == terms && |s.nonlinearVariances| == terms
      && (s.linearCoefficients.Some? ==> |s.linearCoefficients.value| == terms && |s.linearVariances| == terms)
      && |s.covariance| == 4 * terms * terms
  }

  /** The separable least-squares solver: it fits the single model from the
      x values, observations, weights and an initial b, and the double model
      from the same data and initial b and d. */
  datatype Solver = Solver(
    single: (seq<real>, seq<F64>, seq<F64>, real) -> SolverOutcome,
    double: (seq<real>, seq<F64>, seq<F64>, real, real) -> SolverOutcome)

  ghost predicate LawfulSolver(solver: Solver)
  {
    && (forall x, y, w, b :: WellShaped(solver.single(x, y, w, b), 1))
    && (forall x, y, w, b, d :: WellShaped(solver.double(x, y, w, b, d), 2))
  }

  /** Student's t distribution with location 0 and scale 1: for a number of
      degrees of freedom, the t value at the one-sigma two-sided confidence
      level, or None when the distribution cannot be built. */
  datatype TDistribution = TDistribution(tValue: real -> Option<F64>)

  /** The distribution refuses exactly the non-positive degrees of freedom,
      and its one-sigma t value is a finite non-negative number. */
  ghost predicate LawfulT(st: TDistribution)
  {
    forall dof :: (st.tValue(dof).None? <==> dof <= 0.0)
                  && (st.tValue(dof).Some? ==> st.tValue(dof).value.Finite? && 0.0 <= st.tValue(dof).value.r)
  }

  /** What a successful fit leaves: the parameters, the fit curve and the
      curves at the upper and lower edges of the confidence band. */
  datatype Fitted = Fitted(params: seq<FitParam>, curve: seq<Point>, upper: seq<Point>, lower: seq<Point>)

  /* ---------------- the model functions given to the solver ---------------- */

  /** exp(-x/b). */
  function ExpBasis(m: MathLib, x: F64, b: F64): F64
  {
    Exp(m, Div(Neg(x), b))
  }

  /** (x/b²)·exp(-x/b), the derivative of exp(-x/b) with respect to b. */
  function ExpBasisPd(m: MathLib, x: F64, b: F64): F64
  {
    Mul(Div(x, Float.Square(b)), ExpBasis(m, x, b))
  }

  /** `exponential`: the basis function at every x. */
  function Exponential(m: MathLib, xs: seq<F64>, b: F64): (r: seq<F64>)
    ensures |r| == |xs| && forall i :: 0 <= i < |xs| ==> r[i] == ExpBasis(m, xs[i], b)
  {
    seq(|xs|, i requires 0 <= i < |xs| => ExpBasis(m, xs[i], b))
  }

  /** `exponential_pd_b` and `exponential_pd_d`: its derivative at every x. */
  function ExponentialPd(m: MathLib, xs: seq<F64>, b: F64): (r: seq<F64>)
    ensures |r| == |xs| && forall i :: 0 <= i < |xs| ==> r[i] == ExpBasisPd(m, xs[i], b)
  {
    seq(|xs|, i requires 0 <= i < |xs| => ExpBasisPd(m, xs[i], b))
  }

  /* ---------------- statistics ---------------- */

  /** Sum of the squared weighted residuals. */
  function ChiSquared(residuals: seq<F64>): F64
  {
    Sum(seq(|residuals|, i requires 0 <= i < |residuals| => Mul(residuals[i], residuals[i])))
  }

  /** Chi-squared over the degrees of freedom. */
  function ReducedChiSquared(residuals: seq<F64>, dof: real): F64
  {
    Div(ChiSquared(residuals), Finite(dof))
  }

  /** Term `i` of a fit, packed as ((a, sqrt(var a)), (b, sqrt(var b))). */
  function PackParam(m: MathLib, s: FitStatistics, i: nat): FitParam
    requires s.linearCoefficients.Some?
    requires i < |s.linearCoefficients.value| && i < |s.linearVariances|
    requires i < |s.nonlinearParameters| && i < |s.nonlinearVariances|
  {
    FitParam(Estimate(s.linearCoefficients.value[i], Sqrt(m, s.linearVariances[i])),
             Estimate(s.nonlinearParameters[i], Sqrt(m, s.nonlinearVariances[i])))
  }

  /* ---------------- the sample grid ---------------- */

  /** The largest x, folded with `f64::max` from negative infinity. */
  function MaxX(xs: seq<real>): F64
  {
    if xs == [] then NegInf else Max(MaxX(xs[..|xs| - 1]), Finite(xs[|xs| - 1]))
  }

  /** The distance between grid points: from `start` to 1000 past the largest
      x, in `n` steps. */
  function Step(start: real, n: nat, xs: seq<real>): F64
  {
    Div(Sub(Add(MaxX(xs), Finite(1000.0)), Finite(start)), Finite(n as real))
  }

  /** The `n + 1` points `start + i·step`, i = 0..n. */
  function Grid(start: real, n: nat, xs: seq<real>): (r: seq<F64>)
    ensures |r| == n + 1
  {
    seq(n + 1, i requires 0 <= i <= n => Add(Finite(start), Mul(Finite(i as real), Step(start, n, xs))))
  }

  /* ---------------- curves ---------------- */

  function SingleCurve(m: MathLib, a: F64, b: F64, grid: seq<F64>): (r: seq<Point>)
    ensures |r| == |grid|
  {
    seq(|grid|, i requires 0 <= i < |grid| => Point(grid[i], Mul(a, ExpBasis(m, grid[i], b))))
  }

  function DoubleCurve(m: MathLib, a: F64, b: F64, c: F64, d: F64, grid: seq<F64>): (r: seq<Point>)
    ensures |r| == |grid|
  {
    seq(|grid|, i requires 0 <= i < |grid| =>
      Point(grid[i], Add(Mul(a, ExpBasis(m, grid[i], b)), Mul(c, ExpBasis(m, grid[i], d)))))
  }

  /** The partial derivatives of a·exp(-x/b) at x, in the order of the
      covariance matrix: with respect to a, then b. */
  function SingleJacobian(m: MathLib, a: F64, b: F64, x: F64): (r: seq<F64>)
    ensures |r| == 2
  {
    [ExpBasis(m, x, b), Mul(Mul(a, Div(x, Float.Square(b))), ExpBasis(m, x, b))]
  }

  /** The partial derivatives of a·exp(-x/b) + c·exp(-x/d) at x, in the order
      of the covariance matrix: with respect to a, c, b, d. */
  function DoubleJacobian(m: MathLib, a: F64, b: F64, c: F64, d: F64, x: F64): (r: seq<F64>)
    ensures |r| == 4
  {
    [ExpBasis(m, x, b), ExpBasis(m, x, d),
     Mul(Mul(a, Div(x, Float.Square(b))), ExpBasis(m, x, b)),
     Mul(Mul(c, Div(x, Float.Square(d))), ExpBasis(m, x, d))]
  }

  /** Jᵀ·C·J with C read by flat index: the sum, in index order, of
      J[t / n]·J[t % n]·C[t]. */
  function QuadForm(jac: seq<F64>, cov: seq<F64>): F64
    requires |cov| == |jac| * |jac|
  {
    var n := |jac|;
    Sum(seq(n * n, t requires 0 <= t < n * n =>
      FlatIndexBounds(t, n); Mul(Mul(jac[t / n], jac[t % n]), cov[t])))
  }

  /** A flat index below n·n splits into a row and a column below n. */
  lemma FlatIndexBounds(t: int, n: nat)
    requires 0 <= t < n * n
    ensures 0 <= t / n < n && 0 <= t % n < n
  {
  }

  /** The four terms of the single-fit band, in the order the source adds
      them: the (i, j) term is ∂i·∂j·cov[2i + j]. */
  function SingleTerms(dfda: F64, dfdb: F64, cov: seq<F64>): seq<F64>
    requires |cov| == 4
  {
    [Mul(Mul(dfda, dfda), cov[0]), Mul(Mul(dfda, dfdb), cov[1]),
     Mul(Mul(dfdb, dfda), cov[2]), Mul(Mul(dfdb, dfdb), cov[3])]
  }

  /** The band half-width of the single fit as the source spells it out:
      t·sqrt(scale·(the four terms, added from the left)). */
  function SingleHalfWidth(m: MathLib, t: F64, scale: F64, dfda: F64, dfdb: F64, cov: seq<F64>): F64
    requires |cov| == 4
  {
    Mul(t, Sqrt(m, Mul(scale, Sum(SingleTerms(dfda, dfdb, cov)))))
  }

  /** The sixteen terms of the double-fit band, in the order the source adds
      them: the (i, j) term is ∂i·∂j·cov[4i + j]. */
  function DoubleTerms(dfda: F64, dfdb: F64, dfdc: F64, dfdd: F64, cov: seq<F64>): seq<F64>
    requires |cov| == 16
  {
    [Mul(Mul(dfda, dfda), cov[0]), Mul(Mul(dfda, dfdb), cov[1]),
     Mul(Mul(dfda, dfdc), cov[2]), Mul(Mul(dfda, dfdd), cov[3]),
     Mul(Mul(dfdb, dfda), cov[4]), Mul(Mul(dfdb, dfdb), cov[5]),
     Mul(Mul(dfdb, dfdc), cov[6]), Mul(Mul(dfdb, dfdd), cov[7]),
     Mul(Mul(dfdc, dfda), cov[8]), Mul(Mul(dfdc, dfdb), cov[9]),
     Mul(Mul(dfdc, dfdc), cov[10]), Mul(Mul(dfdc, dfdd), cov[11]),
     Mul(Mul(dfdd, dfda), cov[12]), Mul(Mul(dfdd, dfdb), cov[13]),
     Mul(Mul(dfdd, dfdc), cov[14]), Mul(Mul(dfdd, dfdd), cov[15])]
  }

  /** The band half-width of the double fit as the source spells it out:
      t·sqrt(scale·(the sixteen terms, added from the left)). */
  function DoubleHalfWidth(m: MathLib, t: F64, scale: F64, dfda: F64, dfdb: F64, dfdc: F64, dfdd: F64, cov: seq<F64>): F64
    requires |cov| == 16
  {
    Mul(t, Sqrt(m, Mul(scale, Sum(DoubleTerms(dfda, dfdb, dfdc, dfdd, cov)))))
  }

  /** The fit curve shifted up by the band, point by point. */
  function Upper(curve: seq<Point>, band: seq<F64>): (r: seq<Point>)
    requires |band| == |curve|
    ensures |r| == |curve|
  {
    seq(|curve|, i requires 0 <= i < |curve| => Point(curve[i].x, Add(curve[i].y, band[i])))
  }

  /** The fit curve shifted down by the band, point by point. */
  function Lower(curve: seq<Point>, band: seq<F64>): (r: seq<Point>)
    requires |band| == |curve|
    ensures |r| == |curve|
  {
    seq(|curve|, i requires 0 <= i < |curve| => Point(curve[i].x, Sub(curve[i].y, band[i])))
  }

  /* ---------------- the two fits after the solver ---------------- */

  const SinglePoints: nat := 2000
  const DoublePoints: nat := 1000

  predicate SingleReady(s: FitStatistics)
  {
    && s.linearCoefficients.Some?
    && |s.linearCoefficients.value| == 1 && |s.linearVariances| == 1
    && |s.nonlinearParameters| == 1 && |s.nonlinearVariances| == 1 && |s.covariance| == 4
  }

  predicate DoubleReady(s: FitStatistics)
  {
    && s.linearCoefficients.Some?
    && |s.linearCoefficients.value| == 2 && |s.linearVariances| == 2
    && |s.nonlinearParameters| == 2 && |s.nonlinearVariances| == 2 && |s.covariance| == 16
  }

  function SingleBand(m: MathLib, t: F64, scale: F64, s: FitStatistics, grid: seq<F64>): (r: seq<F64>)
    requires SingleReady(s)
    ensures |r| == |grid|
  {
    var a := s.linearCoefficients.value[0];
    var b := s.nonlinearParameters[0];
    seq(|grid|, i requires 0 <= i < |grid| =>
      var jac := SingleJacobian(m, a, b, grid[i]);
      SingleHalfWidth(m, t, scale, jac[0], jac[1], s.covariance))
  }

  function DoubleBand(m: MathLib, t: F64, scale: F64, s: FitStatistics, grid: seq<F64>): (r: seq<F64>)
    requires DoubleReady(s)
    ensures |r| == |grid|
  {
    var lin := s.linearCoefficients.value;
    var nl := s.nonlinearParameters;
    seq(|grid|, i requires 0 <= i < |grid| =>
      var jac := DoubleJacobian(m, lin[0], nl[0], lin[1], nl[1], grid[i]);
      DoubleHalfWidth(m, t, scale, jac[0], jac[1], jac[2], jac[3], s.covariance))
  }

  /** Everything a successful single fit leaves, given the t value and the
      factor the band is scaled by. */
  function SingleFitted(m: MathLib, t: F64, scale: F64, xs: seq<real>, s: FitStatistics): Fitted
    requires SingleReady(s)
  {
    var grid := Grid(1.0, SinglePoints, xs);
    var curve := SingleCurve(m, s.linearCoefficients.value[0], s.nonlinearParameters[0], grid);
    var band := SingleBand(m, t, scale, s, grid);
    Fitted([PackParam(m, s, 0)], curve, Upper(curve, band), Lower(curve, band))
  }

  /** Everything a successful double fit leaves. */
  function DoubleFitted(m: MathLib, t: F64, scale: F64, xs: seq<real>, s: FitStatistics): Fitted
    requires DoubleReady(s)
  {
    var grid := Grid(0.0, DoublePoints, xs);
    var lin := s.linearCoefficients.value;
    var nl := s.nonlinearParameters;
    var curve := DoubleCurve(m, lin[0], nl[0], lin[1], nl[1], grid);
    var band := DoubleBand(m, t, scale, s, grid);
    Fitted([PackParam(m, s, 0), PackParam(m, s, 1)], curve, Upper(curve, band), Lower(curve, band))
  }

  /* ---------------- properties ---------------- */

  /** The fold finds the largest x, and it is one of the xs; with no data it
      stays at negative infinity. */
  lemma {:induction false} MaxXIsMaximum(xs: seq<real>)
    ensures xs == [] ==> MaxX(xs) == NegInf
    ensures xs != [] ==> MaxX(xs).Finite? && MaxX(xs).r in xs
                         && forall k :: 0 <= k < |xs| ==> xs[k] <= MaxX(xs).r
    decreases |xs|
  {
    if xs != [] {
      var xs' := xs[..|xs| - 1];
      MaxXIsMaximum(xs');
      if xs' != [] {
        assert MaxX(xs').r in xs;
      }
    }
  }

  /** With data, grid point i is start + i·(max x + 1000 - start)/n: the grid
      starts at `start` and ends 1000 past the largest x. */
  lemma {:induction false} GridPoints(start: real, n: nat, xs: seq<real>)
    requires 0 < n && xs != []
    ensures MaxX(xs).Finite?
    ensures var hi := MaxX(xs).r + 1000.0;
      && (forall i :: 0 <= i <= n ==>
            Grid(start, n, xs)[i] == Finite(start + (i as real) * ((hi - start) / (n as real))))
      && Grid(start, n, xs)[0] == Finite(start)
      && Grid(start, n, xs)[n] == Finite(hi)
  {
    MaxXIsMaximum(xs);
    var hi := MaxX(xs).r + 1000.0;
    assert Step(start, n, xs) == Finite((hi - start) / (n as real));
    assert (n as real) * ((hi - start) / (n as real)) == hi - start;
  }

  /** The single-fit band as written is t·sqrt(scale·JᵀCJ) for the Jacobian
      [∂/∂a, ∂/∂b]. */
  lemma SingleBandIsQuadraticForm(m: MathLib, t: F64, scale: F64, jac: seq<F64>, cov: seq<F64>)
    requires |jac| == 2 && |cov| == 4
    ensures SingleHalfWidth(m, t, scale, jac[0], jac[1], cov) == Mul(t, Sqrt(m, Mul(scale, QuadForm(jac, cov))))
  {
    var terms := seq(4, k requires 0 <= k < 4 => Mul(Mul(jac[k / 2], jac[k % 2]), cov[k]));
    var written := SingleTerms(jac[0], jac[1], cov);
    assert QuadForm(jac, cov) == Sum(terms);
    forall k | 0 <= k < 4 ensures terms[k] == written[k] {
      RowColumn(k, 2);
    }
    assert terms == written;
  }

  /** The row and column of a small flat index, spelled out. */
  lemma RowColumn(k: nat, n: nat)
    requires 0 < n <= 4 && k < n * n
    ensures k / n == if k < n then 0 else if k < 2 * n then 1 else if k < 3 * n then 2 else 3
    ensures k % n == k - n * (k / n)
  {
  }

  /** The double-fit band as written is t·sqrt(scale·JᵀCJ) for the Jacobian
      [∂/∂a, ∂/∂c, ∂/∂b, ∂/∂d]. */
  lemma DoubleBandIsQuadraticForm(m: MathLib, t: F64, scale: F64, jac: seq<F64>, cov: seq<F64>)
    requires |jac| == 4 && |cov| == 16
    ensures DoubleHalfWidth(m, t, scale, jac[0], jac[1], jac[2], jac[3], cov)
            == Mul(t, Sqrt(m, Mul(scale, QuadForm(jac, cov))))
  {
    var terms := seq(16, k requires 0 <= k < 16 => Mul(Mul(jac[k / 4], jac[k % 4]), cov[k]));
    var written := DoubleTerms(jac[0], jac[1], jac[2], jac[3], cov);
    assert QuadForm(jac, cov) == Sum(terms);
    forall k | 0 <= k < 16 ensures terms[k] == written[k] {
      RowColumn(k, 4);
    }
    assert terms == written;
  }

  /** The Jacobian of the band is the model's own derivative: ∂/∂a is the
      basis function given to the solver and ∂/∂b is a times the partial
      derivative given to the solver. */
  lemma JacobianMatchesModel(m: MathLib, a: F64, b: F64, c: F64, d: F64, x: F64)
    ensures SingleJacobian(m, a, b, x) == [ExpBasis(m, x, b), Mul(a, ExpBasisPd(m, x, b))]
    ensures DoubleJacobian(m, a, b, c, d, x)
            == [ExpBasis(m, x, b), ExpBasis(m, x, d), Mul(a, ExpBasisPd(m, x, b)), Mul(c, ExpBasisPd(m, x, d))]
  {
    MulAssociative(a, Div(x, Float.Square(b)), ExpBasis(m, x, b));
    MulAssociative(c, Div(x, Float.Square(d)), ExpBasis(m, x, d));
  }

  /** The band's Jacobian at the i-th x is read off the vectors the solver is
      given: the basis vector (`exponential`) and a, or c, times the derivative
      vector (`exponential_pd_b`, `exponential_pd_d`), at the same x and b or d. */
  lemma JacobianFromSolverVectors(m: MathLib, a: F64, b: F64, c: F64, d: F64, xs: seq<F64>, i: int)
    requires 0 <= i < |xs|
    ensures SingleJacobian(m, a, b, xs[i]) == [Exponential(m, xs, b)[i], Mul(a, ExponentialPd(m, xs, b)[i])]
    ensures DoubleJacobian(m, a, b, c, d, xs[i])
            == [Exponential(m, xs, b)[i], Exponential(m, xs, d)[i],
                Mul(a, ExponentialPd(m, xs, b)[i]), Mul(c, ExponentialPd(m, xs, d)[i])]
  {
    JacobianMatchesModel(m, a, b, c, d, xs[i]);
  }

  /** The half-width is a finite non-negative number when t is and the scaled
      quadratic form is. */
  lemma HalfWidthNonNegative(m: MathLib, t: F64, q: F64)
    requires Lawful(m)
    requires t.Finite? && 0.0 <= t.r && q.Finite? && 0.0 <= q.r
    ensures Mul(t, Sqrt(m, q)).Finite? && 0.0 <= Mul(t, Sqrt(m, q)).r
  {
    assert 0.0 <= m.sqrt(q.r);
  }

  /** The upper and lower curves pair up with the fit curve point by point:
      same length, same x, and wherever the curve value is finite and the
      band is a finite non-negative number, lower ≤ curve ≤ upper. */
  lemma EnvelopeBrackets(curve: seq<Point>, band: seq<F64>)
    requires |band| == |curve|
    ensures |Upper(curve, band)| == |curve| == |Lower(curve, band)|
    ensures forall i :: 0 <= i < |curve| ==>
      Upper(curve, band)[i].x == curve[i].x == Lower(curve, band)[i].x
    ensures forall i :: 0 <= i < |curve| && curve[i].y.Finite? && band[i].Finite? && 0.0 <= band[i].r ==>
      && Lower(curve, band)[i].y.Finite? && Upper(curve, band)[i].y.Finite?
      && Lower(curve, band)[i].y.r <= curve[i].y.r <= Upper(curve, band)[i].y.r
  {
  }

  /** A finite value plus and minus a finite non-negative width: both
      finite, one at or below the value and one at or above it. */
  lemma Brackets(y: F64, w: F64)
    requires y.Finite? && w.Finite? && 0.0 <= w.r
    ensures Sub(y, w).Finite? && Add(y, w).Finite? && Sub(y, w).r <= y.r <= Add(y, w).r
  {
  }

  /** A successful single fit leaves one packed term and 2001 points on each
      of the three curves, on the grid from 1. */
  lemma SingleFittedShape(m: MathLib, t: F64, scale: F64, xs: seq<real>, s: FitStatistics)
    requires SingleReady(s)
    ensures var f := SingleFitted(m, t, scale, xs, s);
      && f.params == [PackParam(m, s, 0)]
      && |f.curve| == |f.upper| == |f.lower| == 2001
      && forall i :: 0 <= i < 2001 ==>
           f.curve[i].x == f.upper[i].x == f.lower[i].x == Grid(1.0, SinglePoints, xs)[i]
  {
  }

  /** A successful double fit leaves two packed terms and 1001 points on each
      of the three curves, on the grid from 0. */
  lemma DoubleFittedShape(m: MathLib, t: F64, scale: F64, xs: seq<real>, s: FitStatistics)
    requires DoubleReady(s)
    ensures var f := DoubleFitted(m, t, scale, xs, s);
      && f.params == [PackParam(m, s, 0), PackParam(m, s, 1)]
      && |f.curve| == |f.upper| == |f.lower| == 1001
      && forall i :: 0 <= i < 1001 ==>
           f.curve[i].x == f.upper[i].x == f.lower[i].x == Grid(0.0, DoublePoints, xs)[i]
  {
  }

  /** The variance JᵀCJ of the single fit's value at grid point i. */
  function SingleVariance(m: MathLib, xs: seq<real>, s: FitStatistics, i: nat): F64
    requires SingleReady(s) && i <= SinglePoints
  {
    QuadForm(SingleJacobian(m, s.linearCoefficients.value[0], s.nonlinearParameters[0],
                            Grid(1.0, SinglePoints, xs)[i]), s.covariance)
  }

  /** The variance JᵀCJ of the double fit's value at grid point i. */
  function DoubleVariance(m: MathLib, xs: seq<real>, s: FitStatistics, i: nat): F64
    requires DoubleReady(s) && i <= DoublePoints
  {
    var lin := s.linearCoefficients.value;
    var nl := s.nonlinearParameters;
    QuadForm(DoubleJacobian(m, lin[0], nl[0], lin[1], nl[1], Grid(0.0, DoublePoints, xs)[i]), s.covariance)
  }

  /** The single band at grid point i is t·sqrt(scale·variance). */
  lemma SingleBandAt(m: MathLib, t: F64, scale: F64, xs: seq<real>, s: FitStatistics, i: nat)
    requires SingleReady(s) && i <= SinglePoints
    ensures SingleBand(m, t, scale, s, Grid(1.0, SinglePoints, xs))[i]
            == Mul(t, Sqrt(m, Mul(scale, SingleVariance(m, xs, s, i))))
  {
    var grid := Grid(1.0, SinglePoints, xs);
    var jac := SingleJacobian(m, s.linearCoefficients.value[0], s.nonlinearParameters[0], grid[i]);
    SingleBandIsQuadraticForm(m, t, scale, jac, s.covariance);
  }

  /** The double band at grid point i is t·sqrt(scale·variance). */
  lemma DoubleBandAt(m: MathLib, t: F64, scale: F64, xs: seq<real>, s: FitStatistics, i: nat)
    requires DoubleReady(s) && i <= DoublePoints
    ensures DoubleBand(m, t, scale, s, Grid(0.0, DoublePoints, xs))[i]
            == Mul(t, Sqrt(m, Mul(scale, DoubleVariance(m, xs, s, i))))
  {
    var grid := Grid(0.0, DoublePoints, xs);
    var lin := s.linearCoefficients.value;
    var nl := s.nonlinearParameters;
    var jac := DoubleJacobian(m, lin[0], nl[0], lin[1], nl[1], grid[i]);
    DoubleBandIsQuadraticForm(m, t, scale, jac, s.covariance);
  }

  /** The edges of a single fit at grid point i are the curve value plus and
      minus t·sqrt(scale·variance). */
  lemma SingleEdgesAt(m: MathLib, t: F64, scale: F64, xs: seq<real>, s: FitStatistics, i: nat)
    requires SingleReady(s) && i <= SinglePoints
    ensures var f := SingleFitted(m, t, scale, xs, s);
      var w := Mul(t, Sqrt(m, Mul(scale, SingleVariance(m, xs, s, i))));
      f.upper[i].y == Add(f.curve[i].y, w) && f.lower[i].y == Sub(f.curve[i].y, w)
  {
    SingleBandAt(m, t, scale, xs, s, i);
  }

  /** The same for the double fit. */
  lemma DoubleEdgesAt(m: MathLib, t: F64, scale: F64, xs: seq<real>, s: FitStatistics, i: nat)
    requires DoubleReady(s) && i <= DoublePoints
    ensures var f := DoubleFitted(m, t, scale, xs, s);
      var w := Mul(t, Sqrt(m, Mul(scale, DoubleVariance(m, xs, s, i))));
      f.upper[i].y == Add(f.curve[i].y, w) && f.lower[i].y == Sub(f.curve[i].y, w)
  {
    DoubleBandAt(m, t, scale, xs, s, i);
  }

  /** The band of a single fit brackets the fit curve at every grid point
      where the curve is finite and the scaled variance is a finite
      non-negative number, for a finite non-negative t. */
  lemma SingleBandBrackets(m: MathLib, t: F64, scale: F64, xs: seq<real>, s: FitStatistics, i: nat)
    requires Lawful(m) && SingleReady(s) && i <= SinglePoints
    requires t.Finite? && 0.0 <= t.r
    requires SingleFitted(m, t, scale, xs, s).curve[i].y.Finite?
    requires Mul(scale, SingleVariance(m, xs, s, i)).Finite? && 0.0 <= Mul(scale, SingleVariance(m, xs, s, i)).r
    ensures var f := SingleFitted(m, t, scale, xs, s);
      f.lower[i].y.Finite? && f.upper[i].y.Finite? && f.lower[i].y.r <= f.curve[i].y.r <= f.upper[i].y.r
  {
    var q := Mul(scale, SingleVariance(m, xs, s, i));
    SingleEdgesAt(m, t, scale, xs, s, i);
    HalfWidthNonNegative(m, t, q);
    Brackets(SingleFitted(m, t, scale, xs, s).curve[i].y, Mul(t, Sqrt(m, q)));
  }

  /** The same for the double fit. */
  lemma DoubleBandBrackets(m: MathLib, t: F64, scale: F64, xs: seq<real>, s: FitStatistics, i: nat)
    requires Lawful(m) && DoubleReady(s) && i <= DoublePoints
    requires t.Finite? && 0.0 <= t.r
    requires DoubleFitted(m, t, scale, xs, s).curve[i].y.Finite?
    requires Mul(scale, DoubleVariance(m, xs, s, i)).Finite? && 0.0 <= Mul(scale, DoubleVariance(m, xs, s, i)).r
    ensures var f := DoubleFitted(m, t, scale, xs, s);
      f.lower[i].y.Finite? && f.upper[i].y.Finite? && f.lower[i].y.r <= f.curve[i].y.r <= f.upper[i].y.r
  {
    var q := Mul(scale, DoubleVariance(m, xs, s, i));
    DoubleEdgesAt(m, t, scale, xs, s, i);
    HalfWidthNonNegative(m, t, q);
    Brackets(DoubleFitted(m, t, scale, xs, s).curve[i].y, Mul(t, Sqrt(m, q)));
  }

  /** Reduced chi-squared is a finite non-negative number whenever the
      residuals are finite and there are degrees of freedom left, so the
      band it scales is too. */
  lemma {:induction false} ReducedChiSquaredNonNegative(residuals: seq<F64>, dof: real)
    requires 0.0 < dof
    requires forall i :: 0 <= i < |residuals| ==> residuals[i].Finite?
    ensures ReducedChiSquared(residuals, dof).Finite? && 0.0 <= ReducedChiSquared(residuals, dof).r
  {
    var squares := seq(|residuals|, i requires 0 <= i < |residuals| => Mul(residuals[i], residuals[i]));
    forall k | 0 <= k < |squares| ensures squares[k].Finite? && 0.0 <= squares[k].r {
      assert squares[k] == Finite(residuals[k].r * residuals[k].r);
    }
    SumOfNonNegative(squares);
  }
}
