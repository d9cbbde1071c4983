/** The exponential fitter of the efficiency-fitter tree
    (src/efficiency_fitter/exp_fitter.rs): an object holding one detector's
    data and the last fit of it, drawn as a named line with an uncertainty
    band. The band here is t·sqrt(JᵀCJ): the reduced chi-squared factor is
    fixed at 1. */
module EfficiencyExpFitter {
  import opened Common
  import opened Float
  import opened FitCurves
  import opened Registry

  /** The plotted fit line: legend name, points and colours. The line type
      itself (egui_line.rs) is not part of this model; these are the fields
      the fitter reads and writes. */
  datatype EguiLine = EguiLine(name: string, points: seq<Point>, color: Color32, colorRgb: Color32)

  /** A new plot line in the given colour, without points. `EguiLine::new` is
      not part of this model; the line is taken to start unnamed. */
  function NewLine(color: Color32): EguiLine
  {
    EguiLine("", [], color, color)
  }

  /** The outcome of a single fit: nothing when the solver does not return
      statistics, when the t distribution cannot be built for n - 2 degrees
      of freedom, or when there are no linear coefficients; otherwise the
      parameters, curve and band with the scale factor fixed at 1. */
  function SingleFitOutcome(m: MathLib, st: TDistribution, xs: seq<real>, outcome: SolverOutcome): Option<Fitted>
    requires WellShaped(outcome, 1)
  {
    if !outcome.Solved? then None
    else
      var t := st.tValue(|xs| as real - 2.0);
      if t.None? || outcome.stats.linearCoefficients.None? then None
      else Some(SingleFitted(m, t.value, Finite(1.0), xs, outcome.stats))
  }

  /** The outcome of a double fit: nothing when the solver does not return
      statistics or linear coefficients, or when the t distribution cannot
      be built for n minus the number of parameters degrees of freedom. */
  function DoubleFitOutcome(m: MathLib, st: TDistribution, xs: seq<real>, outcome: SolverOutcome): Option<Fitted>
    requires WellShaped(outcome, 2)
  {
    if !outcome.Solved? || outcome.stats.linearCoefficients.None? then None
    else
      var s := outcome.stats;
      var parameters := |s.nonlinearParameters| + |s.linearCoefficients.value|;
      var t := st.tValue(|xs| as real - parameters as real);
      if t.None? then None
      else Some(DoubleFitted(m, t.value, Finite(1.0), xs, s))
  }

  class ExpFitter {
    var fitParams: Option<seq<FitParam>>
    var x: seq<real>
    var y: seq<F64>
    var weights: seq<F64>
    var upperUncertaintyPoints: seq<Point>
    var lowerUncertaintyPoints: seq<Point>
    var fitLine: EguiLine

    /** No parameters, no band and no curve. */
    predicate Unfitted()
      reads this
    {
      fitParams.None? && upperUncertaintyPoints == [] && lowerUncertaintyPoints == [] && fitLine.points == []
    }

    /** The fitter shows a fit outcome: a successful fit's parameters, curve
        and band; after a failed one no parameters and no band, and the curve
        it had before. */
    predicate Shows(r: Option<Fitted>, previousCurve: seq<Point>)
      reads this
    {
      match r
      case None =>
        fitParams.None? && upperUncertaintyPoints == [] && lowerUncertaintyPoints == []
        && fitLine.points == previousCurve
      case Some(f) =>
        fitParams == Some(f.params) && fitLine.points == f.curve
        && upperUncertaintyPoints == f.upper && lowerUncertaintyPoints == f.lower
    }

    /** `ExpFitter::new`: the data, nothing fitted, a blue line. */
    constructor (x: seq<real>, y: seq<F64>, weights: seq<F64>)
      ensures this.x == x && this.y == y && this.weights == weights
      ensures Unfitted() && fitLine == NewLine(Blue)
    {
      this.fitParams := None;
      this.x := x;
      this.y := y;
      this.weights := weights;
      this.upperUncertaintyPoints := [];
      this.lowerUncertaintyPoints := [];
      this.fitLine := NewLine(Blue);
    }

    /** `ExpFitter::default()`: no data and nothing fitted. */
    constructor Default()
      ensures x == [] && y == [] && weights == []
      ensures Unfitted() && fitLine.name == ""
    {
      fitParams := None;
      x := [];
      y := [];
      weights := [];
      upperUncertaintyPoints := [];
      lowerUncertaintyPoints := [];
      fitLine := NewLine(Blue);
    }

    /** `single_exp_fit`: clears the parameters and the band, names the line,
        runs the solver on the data and, when every step succeeds, stores the
        parameters, the curve and the band. */
    method SingleExpFit(m: MathLib, st: TDistribution, solver: Solver, initialBGuess: real)
      requires LawfulSolver(solver)
      modifies this
      ensures x == old(x) && y == old(y) && weights == old(weights)
      ensures fitLine.name == "Single Exponential Fit"
      ensures fitLine.color == old(fitLine.color) && fitLine.colorRgb == old(fitLine.colorRgb)
      ensures Shows(SingleFitOutcome(m, st, x, solver.single(x, y, weights, initialBGuess)), old(fitLine.points))
    {
      fitParams := None;
      fitLine := fitLine.(name := "Single Exponential Fit");
      upperUncertaintyPoints := [];
      lowerUncertaintyPoints := [];
      var outcome := solver.single(x, y, weights, initialBGuess);
      ghost var expected := SingleFitOutcome(m, st, x, outcome);
      if !outcome.Solved? {
        assert expected == None;
        return;
      }
      var stats := outcome.stats;
      var dof := |x| as real - 2.0;
      var t := st.tValue(dof);
      if t.None? {
        assert expected == None;
        return;
      }
      if stats.linearCoefficients.None? {
        assert expected == None;
        return;
      }
      var fitted := SingleFitted(m, t.value, Finite(1.0), x, stats);
      assert expected == Some(fitted);
      fitParams := Some(fitted.params);
      fitLine := fitLine.(points := fitted.curve);
      upperUncertaintyPoints := fitted.upper;
      lowerUncertaintyPoints := fitted.lower;
    }

    /** `double_exp_fit`: the same for the two-term model. */
    method DoubleExpFit(m: MathLib, st: TDistribution, solver: Solver, initialBGuess: real, initialDGuess: real)
      requires LawfulSolver(solver)
      modifies this
      ensures x == old(x) && y == old(y) && weights == old(weights)
      ensures fitLine.name == "Double Exponential Fit"
      ensures fitLine.color == old(fitLine.color) && fitLine.colorRgb == old(fitLine.colorRgb)
      ensures Shows(DoubleFitOutcome(m, st, x, solver.double(x, y, weights, initialBGuess, initialDGuess)),
                    old(fitLine.points))
    {
      fitParams := None;
      fitLine := fitLine.(name := "Double Exponential Fit");
      upperUncertaintyPoints := [];
      lowerUncertaintyPoints := [];
      var outcome := solver.double(x, y, weights, initialBGuess, initialDGuess);
      ghost var expected := DoubleFitOutcome(m, st, x, outcome);
      if !outcome.Solved? {
        assert expected == None;
        return;
      }
      var stats := outcome.stats;
      if stats.linearCoefficients.None? {
        assert expected == None;
        return;
      }
      var parameters := |stats.nonlinearParameters| + |stats.linearCoefficients.value|;
      var dof := |x| as real - parameters as real;
      var t := st.tValue(dof);
      if t.None? {
        assert expected == None;
        return;
      }
      var fitted := DoubleFitted(m, t.value, Finite(1.0), x, stats);
      assert expected == Some(fitted);
      fitParams := Some(fitted.params);
      fitLine := fitLine.(points := fitted.curve);
      upperUncertaintyPoints := fitted.upper;
      lowerUncertaintyPoints := fitted.lower;
    }
  }

  /** `Fitter::single_exp_fit_button`: when clicked, a new fitter on the
      detector's data is fitted, its line is named after the detector and
      keeps the old line's colours, and it replaces the old fitter; the name,
      data and guesses stay. Not clicked, nothing changes. */
  method SingleExpFitButton(f: Fitter<ExpFitter>, m: MathLib, st: TDistribution, solver: Solver, clicked: bool)
    returns (r: Fitter<ExpFitter>)
    requires LawfulSolver(solver)
    ensures !clicked ==> r == f
    ensures clicked ==>
      && r == f.(expFitter := r.expFitter) && fresh(r.expFitter)
      && r.expFitter.x == f.data.x && r.expFitter.y == f.data.y && r.expFitter.weights == f.data.weights
      && r.expFitter.fitLine.name == f.name + " Fit"
      && r.expFitter.fitLine.color == f.expFitter.fitLine.color
      && r.expFitter.fitLine.colorRgb == f.expFitter.fitLine.colorRgb
      && r.expFitter.Shows(SingleFitOutcome(m, st, f.data.x, solver.single(f.data.x, f.data.y, f.data.weights, f.initialBGuess)), [])
  {
    r := f;
    if clicked {
      var fitter := new ExpFitter(f.data.x, f.data.y, f.data.weights);
      fitter.SingleExpFit(m, st, solver, f.initialBGuess);
      fitter.fitLine := fitter.fitLine.(name := f.name + " Fit", color := f.expFitter.fitLine.color,
                                        colorRgb := f.expFitter.fitLine.colorRgb);
      r := f.(expFitter := fitter);
    }
  }

  /** `Fitter::double_exp_fit_button`: the same with the double fit and both
      guesses. */
  method DoubleExpFitButton(f: Fitter<ExpFitter>, m: MathLib, st: TDistribution, solver: Solver, clicked: bool)
    returns (r: Fitter<ExpFitter>)
    requires LawfulSolver(solver)
    ensures !clicked ==> r == f
    ensures clicked ==>
      && r == f.(expFitter := r.expFitter) && fresh(r.expFitter)
      && r.expFitter.x == f.data.x && r.expFitter.y == f.data.y && r.expFitter.weights == f.data.weights
      && r.expFitter.fitLine.name == f.name + " Fit"
      && r.expFitter.fitLine.color == f.expFitter.fitLine.color
      && r.expFitter.fitLine.colorRgb == f.expFitter.fitLine.colorRgb
      && r.expFitter.Shows(DoubleFitOutcome(m, st, f.data.x,
           solver.double(f.data.x, f.data.y, f.data.weights, f.initialBGuess, f.initialDGuess)), [])
  {
    r := f;
    if clicked {
      var fitter := new ExpFitter(f.data.x, f.data.y, f.data.weights);
      fitter.DoubleExpFit(m, st, solver, f.initialBGuess, f.initialDGuess);
      fitter.fitLine := fitter.fitLine.(name := f.name + " Fit", color := f.expFitter.fitLine.color,
                                        colorRgb := f.expFitter.fitLine.colorRgb);
      r := f.(expFitter := fitter);
    }
  }

  /* ---------------- properties ---------------- */

  /** A single fit fails exactly when the solver returns no statistics, when
      there are at most two points (no degrees of freedom left), or when it
      reports no linear coefficients; a successful one has one term, packed
      from the solver's values and the square roots of their variances, and
      2001 points on the curve and on each edge of the band, at the same x. */
  lemma SingleFitResult(m: MathLib, st: TDistribution, xs: seq<real>, outcome: SolverOutcome)
    requires LawfulT(st) && WellShaped(outcome, 1)
    ensures SingleFitOutcome(m, st, xs, outcome).None?
            <==> (!outcome.Solved? || |xs| <= 2 || outcome.stats.linearCoefficients.None?)
    ensures SingleFitOutcome(m, st, xs, outcome).Some? ==>
      var f := SingleFitOutcome(m, st, xs, outcome).value;
      && f.params == [PackParam(m, outcome.stats, 0)]
      && |f.curve| == |f.upper| == |f.lower| == 2001
      && forall i :: 0 <= i < 2001 ==> f.curve[i].x == f.upper[i].x == f.lower[i].x == Grid(1.0, SinglePoints, xs)[i]
  {
    if outcome.Solved? {
      var t := st.tValue(|xs| as real - 2.0);
      if t.Some? && outcome.stats.linearCoefficients.Some? {
        SingleFittedShape(m, t.value, Finite(1.0), xs, outcome.stats);
      }
    }
  }

  /** The solver always reports two nonlinear parameters and two linear
      coefficients for the double model, so the degrees of freedom are
      n - 4: a double fit fails exactly when the solver returns no
      statistics or no linear coefficients, or there are at most four
      points. A successful one has two terms and 1001 points on each curve,
      at the same x. */
  lemma DoubleFitResult(m: MathLib, st: TDistribution, xs: seq<real>, outcome: SolverOutcome)
    requires LawfulT(st) && WellShaped(outcome, 2)
    ensures DoubleFitOutcome(m, st, xs, outcome).None?
            <==> (!outcome.Solved? || outcome.stats.linearCoefficients.None? || |xs| <= 4)
    ensures DoubleFitOutcome(m, st, xs, outcome).Some? ==>
      var f := DoubleFitOutcome(m, st, xs, outcome).value;
      && f.params == [PackParam(m, outcome.stats, 0), PackParam(m, outcome.stats, 1)]
      && |f.curve| == |f.upper| == |f.lower| == 1001
      && forall i :: 0 <= i < 1001 ==> f.curve[i].x == f.upper[i].x == f.lower[i].x == Grid(0.0, DoublePoints, xs)[i]
  {
    DoubleFitFails(st, xs, outcome, m);
    if DoubleFitOutcome(m, st, xs, outcome).Some? {
      DoubleFitShape(m, st, xs, outcome);
    }
  }

  /** The shape of a successful double fit. */
  lemma DoubleFitShape(m: MathLib, st: TDistribution, xs: seq<real>, outcome: SolverOutcome)
    requires WellShaped(outcome, 2) && DoubleFitOutcome(m, st, xs, outcome).Some?
    ensures outcome.Solved? && outcome.stats.linearCoefficients.Some?
    ensures var f := DoubleFitOutcome(m, st, xs, outcome).value;
      && f.params == [PackParam(m, outcome.stats, 0), PackParam(m, outcome.stats, 1)]
      && |f.curve| == |f.upper| == |f.lower| == 1001
      && forall i :: 0 <= i < 1001 ==> f.curve[i].x == f.upper[i].x == f.lower[i].x == Grid(0.0, DoublePoints, xs)[i]
  {
    DoubleFitOutcomeValue(m, st, xs, outcome);
    var s := outcome.stats;
    var parameters := |s.nonlinearParameters| + |s.linearCoefficients.value|;
    var t := st.tValue(|xs| as real - parameters as real).value;
    DoubleFittedShape(m, t, Finite(1.0), xs, s);
  }

  /** The failure cases of a double fit. */
  lemma DoubleFitFails(st: TDistribution, xs: seq<real>, outcome: SolverOutcome, m: MathLib)
    requires LawfulT(st) && WellShaped(outcome, 2)
    ensures DoubleFitOutcome(m, st, xs, outcome).None?
            <==> (!outcome.Solved? || outcome.stats.linearCoefficients.None? || |xs| <= 4)
  {
    if outcome.Solved? && outcome.stats.linearCoefficients.Some? {
      var s := outcome.stats;
      assert |s.nonlinearParameters| + |s.linearCoefficients.value| == 4;
      assert st.tValue(|xs| as real - 4.0).None? <==> |xs| <= 4;
    }
  }

  /** At every grid point of a successful single fit where the curve is
      finite and the variance JᵀCJ is a finite non-negative number, the
      lower edge of the band is at or below the curve and the upper edge at
      or above it. */
  lemma SingleBandAroundCurve(m: MathLib, st: TDistribution, xs: seq<real>, outcome: SolverOutcome, i: nat)
    requires Lawful(m) && LawfulT(st) && WellShaped(outcome, 1)
    requires SingleFitOutcome(m, st, xs, outcome).Some? && i <= SinglePoints
    requires SingleFitOutcome(m, st, xs, outcome).value.curve[i].y.Finite?
    requires SingleVariance(m, xs, outcome.stats, i).Finite? && 0.0 <= SingleVariance(m, xs, outcome.stats, i).r
    ensures var f := SingleFitOutcome(m, st, xs, outcome).value;
      f.lower[i].y.Finite? && f.upper[i].y.Finite?
    ensures var f := SingleFitOutcome(m, st, xs, outcome).value;
      f.lower[i].y.r <= f.curve[i].y.r
    ensures var f := SingleFitOutcome(m, st, xs, outcome).value;
      f.curve[i].y.r <= f.upper[i].y.r
  {
    var t := st.tValue(|xs| as real - 2.0).value;
    MulOneLeft(SingleVariance(m, xs, outcome.stats, i));
    SingleBandBrackets(m, t, Finite(1.0), xs, outcome.stats, i);
  }

  /** The same for the double fit. */
  lemma DoubleBandAroundCurve(m: MathLib, st: TDistribution, xs: seq<real>, outcome: SolverOutcome, i: nat)
    requires Lawful(m) && LawfulT(st) && WellShaped(outcome, 2)
    requires DoubleFitOutcome(m, st, xs, outcome).Some? && i <= DoublePoints
    requires DoubleFitOutcome(m, st, xs, outcome).value.curve[i].y.Finite?
    requires DoubleVariance(m, xs, outcome.stats, i).Finite? && 0.0 <= DoubleVariance(m, xs, outcome.stats, i).r
    ensures var f := DoubleFitOutcome(m, st, xs, outcome).value;
      f.lower[i].y.Finite? && f.upper[i].y.Finite?
    ensures var f := DoubleFitOutcome(m, st, xs, outcome).value;
      f.lower[i].y.r <= f.curve[i].y.r
    ensures var f := DoubleFitOutcome(m, st, xs, outcome).value;
      f.curve[i].y.r <= f.upper[i].y.r
  {
    DoubleFitOutcomeValue(m, st, xs, outcome);
    var s := outcome.stats;
    var parameters := |s.nonlinearParameters| + |s.linearCoefficients.value|;
    var t := st.tValue(|xs| as real - parameters as real).value;
    MulOneLeft(DoubleVariance(m, xs, s, i));
    DoubleBandBrackets(m, t, Finite(1.0), xs, s, i);
  }

  /** A successful double fit is the fitted curve for the t value of its
      degrees of freedom. */
  lemma DoubleFitOutcomeValue(m: MathLib, st: TDistribution, xs: seq<real>, outcome: SolverOutcome)
    requires WellShaped(outcome, 2)
    requires DoubleFitOutcome(m, st, xs, outcome).Some?
    ensures outcome.Solved? && DoubleReady(outcome.stats)
    ensures var s := outcome.stats;
      var parameters := |s.nonlinearParameters| + |s.linearCoefficients.value|;
      var t := st.tValue(|xs| as real - parameters as real);
      t.Some? && DoubleFitOutcome(m, st, xs, outcome) == Some(DoubleFitted(m, t.value, Finite(1.0), xs, s))
  {
  }
}
