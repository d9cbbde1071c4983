/** The exponential fitter of the original tree (src/exp_fitter.rs): the same
    fits as the efficiency-fitter tree, but the band is scaled by the reduced
    chi-squared, the double fit counts four parameters outright, the fit is
    also described by a text label, and the fitter of a detector is optional
    and is created afresh by every click. */
module LegacyExpFitter {
  import opened Common
  import opened Float
  import opened FitCurves
  import opened Registry
  import EfficiencyExpFitter

  /** The label of a single fit, with `fmt` the two-decimal formatting of a
      number. */
  function SingleLabel(fmt: F64 -> string, p: FitParam): string
  {
    "Y = (" + fmt(p.linear.value) + " \U{00B1} " + fmt(p.linear.uncertainty)
    + ") * exp[ -x / (" + fmt(p.nonlinear.value) + " \U{00B1} " + fmt(p.nonlinear.uncertainty) + ") ]"
  }

  /** The label of a double fit. The first term's nonlinear parameter and its
      uncertainty are written without spaces around the sign, as in the
      source's format string. */
  function DoubleLabel(fmt: F64 -> string, p: FitParam, q: FitParam): string
  {
    "Y = (" + fmt(p.linear.value) + " \U{00B1} " + fmt(p.linear.uncertainty)
    + ") * exp[ -x / (" + fmt(p.nonlinear.value) + "\U{00B1}" + fmt(p.nonlinear.uncertainty)
    + ") ] + (" + fmt(q.linear.value) + " \U{00B1} " + fmt(q.linear.uncertainty)
    + ") * exp[ -x / (" + fmt(q.nonlinear.value) + " \U{00B1} " + fmt(q.nonlinear.uncertainty) + ") ]"
  }

  /** The outcome of a single fit: as in the other tree, but the band is
      scaled by chi-squared over the n - 2 degrees of freedom. */
  function SingleFitOutcome(m: MathLib, st: TDistribution, xs: seq<real>, outcome: SolverOutcome): Option<Fitted>
    requires WellShaped(outcome, 1)
  {
    if !outcome.Solved? then None
    else
      var s := outcome.stats;
      var dof := |xs| as real - 2.0;
      var t := st.tValue(dof);
      if t.None? || s.linearCoefficients.None? then None
      else Some(SingleFitted(m, t.value, ReducedChiSquared(s.weightedResiduals, dof), xs, s))
  }

  /** The outcome of a double fit, with n - 4 degrees of freedom and the band
      scaled by the reduced chi-squared. */
  function DoubleFitOutcome(m: MathLib, st: TDistribution, xs: seq<real>, outcome: SolverOutcome): Option<Fitted>
    requires WellShaped(outcome, 2)
  {
    if !outcome.Solved? then None
    else
      var s := outcome.stats;
      var dof := |xs| as real - 4.0;
      var t := st.tValue(dof);
      if t.None? || s.linearCoefficients.None? then None
      else Some(DoubleFitted(m, t.value, ReducedChiSquared(s.weightedResiduals, dof), xs, s))
  }

  class ExpFitter {
    var fitParams: Option<seq<FitParam>>
    var x: seq<real>
    var y: seq<F64>
    var weights: seq<F64>
    var fitLinePoints: seq<Point>
    var upperUncertaintyPoints: seq<Point>
    var lowerUncertaintyPoints: seq<Point>
    var fitLabel: string
    var color: Color32

    /** Neither parameters nor a label. */
    predicate Cleared()
      reads this
    {
      fitParams.None? && fitLabel == ""
    }

    /** No curve and no band. */
    predicate NoCurves()
      reads this
    {
      fitLinePoints == [] && upperUncertaintyPoints == [] && lowerUncertaintyPoints == []
    }

    /** The fitter holds the parameters, curve and band of `f`. */
    predicate Draws(f: Fitted)
      reads this
    {
      && fitParams == Some(f.params) && fitLinePoints == f.curve
      && upperUncertaintyPoints == f.upper && lowerUncertaintyPoints == f.lower
    }

    /** The label describes the parameters: empty without them, the single or
        double label with one or two terms. */
    predicate LabelMatches(fmt: F64 -> string)
      reads this
    {
      match fitParams
      case None => fitLabel == ""
      case Some(ps) =>
        || (|ps| == 1 && fitLabel == SingleLabel(fmt, ps[0]))
        || (|ps| == 2 && fitLabel == DoubleLabel(fmt, ps[0], ps[1]))
    }

    /** `ExpFitter::new`: the data, nothing fitted, light blue. */
    constructor (x: seq<real>, y: seq<F64>, weights: seq<F64>)
      ensures this.x == x && this.y == y && this.weights == weights
      ensures Cleared() && NoCurves() && color == LightBlue
    {
      this.fitParams := None;
      this.x := x;
      this.y := y;
      this.weights := weights;
      this.fitLinePoints := [];
      this.upperUncertaintyPoints := [];
      this.lowerUncertaintyPoints := [];
      this.fitLabel := "";
      this.color := LightBlue;
    }

    /** `single_exp_fit`: clears parameters, label, curve and band, then on
        success stores the fit and its label. */
    method SingleExpFit(m: MathLib, st: TDistribution, solver: Solver, fmt: F64 -> string, initialBGuess: real)
      requires LawfulSolver(solver)
      modifies this
      ensures x == old(x) && y == old(y) && weights == old(weights) && color == old(color)
      ensures LabelMatches(fmt)
      ensures match SingleFitOutcome(m, st, x, solver.single(x, y, weights, initialBGuess))
        case None => Cleared() && NoCurves()
        case Some(f) => Draws(f) && |f.params| == 1 && fitLabel == SingleLabel(fmt, f.params[0])
    {
      fitParams := None;
      fitLinePoints := [];
      upperUncertaintyPoints := [];
      lowerUncertaintyPoints := [];
      fitLabel := "";
      var outcome := solver.single(x, y, weights, initialBGuess);
      ghost var expected := SingleFitOutcome(m, st, x, outcome);
      if !outcome.Solved? {
        assert expected == None;
        return;
      }
      var stats := outcome.stats;
      var dof := |x| as real - 2.0;
      var rchi2 := ReducedChiSquared(stats.weightedResiduals, dof);
      var t := st.tValue(dof);
      if t.None? {
        assert expected == None;
        return;
      }
      if stats.linearCoefficients.None? {
        assert expected == None;
        return;
      }
      var fitted := SingleFitted(m, t.value, rchi2, x, stats);
      assert expected == Some(fitted);
      fitLabel := SingleLabel(fmt, fitted.params[0]);
      fitParams := Some(fitted.params);
      fitLinePoints := fitted.curve;
      upperUncertaintyPoints := fitted.upper;
      lowerUncertaintyPoints := fitted.lower;
    }

    /** `double_exp_fit`: clears only the parameters and the label; a failed
        fit leaves the previous curve and band in place. */
    method DoubleExpFit(m: MathLib, st: TDistribution, solver: Solver, fmt: F64 -> string,
                        initialBGuess: real, initialDGuess: real)
      requires LawfulSolver(solver)
      modifies this
      ensures x == old(x) && y == old(y) && weights == old(weights) && color == old(color)
      ensures LabelMatches(fmt)
      ensures match DoubleFitOutcome(m, st, x, solver.double(x, y, weights, initialBGuess, initialDGuess))
        case None =>
          && Cleared() && fitLinePoints == old(fitLinePoints)
          && upperUncertaintyPoints == old(upperUncertaintyPoints)
          && lowerUncertaintyPoints == old(lowerUncertaintyPoints)
        case Some(f) => Draws(f) && |f.params| == 2 && fitLabel == DoubleLabel(fmt, f.params[0], f.params[1])
    {
      fitParams := None;
      fitLabel := "";
      var outcome := solver.double(x, y, weights, initialBGuess, initialDGuess);
      ghost var expected := DoubleFitOutcome(m, st, x, outcome);
      if !outcome.Solved? {
        assert expected == None;
        return;
      }
      var stats := outcome.stats;
      var dof := |x| as real - 4.0;
      var rchi2 := ReducedChiSquared(stats.weightedResiduals, dof);
      var t := st.tValue(dof);
      if t.None? {
        assert expected == None;
        return;
      }
      if stats.linearCoefficients.None? {
        assert expected == None;
        return;
      }
      var fitted := DoubleFitted(m, t.value, rchi2, x, stats);
      assert expected == Some(fitted);
      fitLabel := DoubleLabel(fmt, fitted.params[0], fitted.params[1]);
      fitParams := Some(fitted.params);
      fitLinePoints := fitted.curve;
      upperUncertaintyPoints := fitted.upper;
      lowerUncertaintyPoints := fitted.lower;
    }
  }

  /** The "Single" and "Double" buttons of `Fitter::ui`: each click replaces
      the fitter with a new one on the detector's data and runs that fit on
      it, "Double" after "Single". Name, data and guesses stay; without a
      click nothing changes. A failed fit leaves no curve, even the double
      one, because the fitter is new. */
  method FitterUi(f: Fitter<Option<ExpFitter>>, m: MathLib, st: TDistribution, solver: Solver, fmt: F64 -> string,
                  singleClicked: bool, doubleClicked: bool)
    returns (r: Fitter<Option<ExpFitter>>)
    requires LawfulSolver(solver)
    ensures !singleClicked && !doubleClicked ==> r == f
    ensures singleClicked || doubleClicked ==>
      && r == f.(expFitter := r.expFitter) && r.expFitter.Some? && fresh(r.expFitter.value)
      && r.expFitter.value.x == f.data.x && r.expFitter.value.y == f.data.y
      && r.expFitter.value.weights == f.data.weights
      && r.expFitter.value.color == LightBlue && r.expFitter.value.LabelMatches(fmt)
    ensures singleClicked && !doubleClicked ==>
      match SingleFitOutcome(m, st, f.data.x, solver.single(f.data.x, f.data.y, f.data.weights, f.initialBGuess))
      case None => r.expFitter.value.Cleared() && r.expFitter.value.NoCurves()
      case Some(fit) => r.expFitter.value.Draws(fit)
    ensures doubleClicked ==>
      match DoubleFitOutcome(m, st, f.data.x,
                             solver.double(f.data.x, f.data.y, f.data.weights, f.initialBGuess, f.initialDGuess))
      case None => r.expFitter.value.Cleared() && r.expFitter.value.NoCurves()
      case Some(fit) => r.expFitter.value.Draws(fit)
  {
    r := f;
    if singleClicked {
      var fitter := new ExpFitter(f.data.x, f.data.y, f.data.weights);
      fitter.SingleExpFit(m, st, solver, fmt, f.initialBGuess);
      r := r.(expFitter := Some(fitter));
    }
    if doubleClicked {
      var fitter := new ExpFitter(f.data.x, f.data.y, f.data.weights);
      fitter.DoubleExpFit(m, st, solver, fmt, f.initialBGuess, f.initialDGuess);
      r := r.(expFitter := Some(fitter));
    }
  }

  /* ---------------- properties ---------------- */

  /** The label is empty exactly when there are no parameters. */
  lemma LabelEmptyIffUnfitted(e: ExpFitter, fmt: F64 -> string)
    requires e.LabelMatches(fmt)
    ensures e.fitLabel == "" <==> e.fitParams.None?
  {
    if e.fitParams.Some? {
      var ps := e.fitParams.value;
      if |ps| == 1 {
        assert e.fitLabel[0] == SingleLabel(fmt, ps[0])[0] == 'Y';
      } else {
        assert e.fitLabel[0] == DoubleLabel(fmt, ps[0], ps[1])[0] == 'Y';
      }
    }
  }

  /** Both trees accept and reject the same solver results, and where they
      succeed they report the same parameters and draw the same curve on the
      same grid; they differ only in the factor the band is scaled by. */
  lemma TreesAgree(m: MathLib, st: TDistribution, xs: seq<real>, single: SolverOutcome, double: SolverOutcome)
    requires WellShaped(single, 1) && WellShaped(double, 2)
    ensures SingleFitOutcome(m, st, xs, single).None? <==> EfficiencyExpFitter.SingleFitOutcome(m, st, xs, single).None?
    ensures DoubleFitOutcome(m, st, xs, double).None? <==> EfficiencyExpFitter.DoubleFitOutcome(m, st, xs, double).None?
    ensures SingleFitOutcome(m, st, xs, single).Some? ==>
      && SingleFitOutcome(m, st, xs, single).value.params == EfficiencyExpFitter.SingleFitOutcome(m, st, xs, single).value.params
      && SingleFitOutcome(m, st, xs, single).value.curve == EfficiencyExpFitter.SingleFitOutcome(m, st, xs, single).value.curve
    ensures DoubleFitOutcome(m, st, xs, double).Some? ==>
      && DoubleFitOutcome(m, st, xs, double).value.params == EfficiencyExpFitter.DoubleFitOutcome(m, st, xs, double).value.params
      && DoubleFitOutcome(m, st, xs, double).value.curve == EfficiencyExpFitter.DoubleFitOutcome(m, st, xs, double).value.curve
  {
    if double.Solved? && double.stats.linearCoefficients.Some? && st.tValue(|xs| as real - 4.0).Some? {
      EfficiencyExpFitter.DoubleFitOutcomeValue(m, st, xs, double);
    }
  }

  /** With finite residuals and more points than parameters, the reduced
      chi-squared that scales the band is a finite non-negative number, so
      the band brackets the curve wherever the curve is finite and the
      variance JᵀCJ is finite and non-negative. */
  lemma SingleBandAroundCurve(m: MathLib, st: TDistribution, xs: seq<real>, outcome: SolverOutcome, i: nat)
    requires Lawful(m) && LawfulT(st) && WellShaped(outcome, 1)
    requires SingleFitOutcome(m, st, xs, outcome).Some? && i <= SinglePoints
    requires forall k :: 0 <= k < |outcome.stats.weightedResiduals| ==> outcome.stats.weightedResiduals[k].Finite?
    requires SingleFitOutcome(m, st, xs, outcome).value.curve[i].y.Finite?
    requires SingleVariance(m, xs, outcome.stats, i).Finite? && 0.0 <= SingleVariance(m, xs, outcome.stats, i).r
    ensures var f := SingleFitOutcome(m, st, xs, outcome).value;
      f.lower[i].y.Finite? && f.upper[i].y.Finite?
    ensures var f := SingleFitOutcome(m, st, xs, outcome).value;
      f.lower[i].y.r <= f.curve[i].y.r
    ensures var f := SingleFitOutcome(m, st, xs, outcome).value;
      f.curve[i].y.r <= f.upper[i].y.r
  {
    SingleFitOutcomeValue(m, st, xs, outcome);
    var s := outcome.stats;
    var dof := |xs| as real - 2.0;
    var t := st.tValue(dof).value;
    ReducedChiSquaredNonNegative(s.weightedResiduals, dof);
    MulNonNegative(ReducedChiSquared(s.weightedResiduals, dof), SingleVariance(m, xs, s, i));
    SingleBandBrackets(m, t, ReducedChiSquared(s.weightedResiduals, dof), xs, s, i);
  }

  /** The same for the double fit. */
  lemma DoubleBandAroundCurve(m: MathLib, st: TDistribution, xs: seq<real>, outcome: SolverOutcome, i: nat)
    requires Lawful(m) && LawfulT(st) && WellShaped(outcome, 2)
    requires DoubleFitOutcome(m, st, xs, outcome).Some? && i <= DoublePoints
    requires forall k :: 0 <= k < |outcome.stats.weightedResiduals| ==> outcome.stats.weightedResiduals[k].Finite?
    requires DoubleFitOutcome(m, st, xs, outcome).value.curve[i].y.Finite?
    requires DoubleVariance(m, xs, outcome.stats, i).Finite? && 0.0 <= DoubleVariance(m, xs, outcome.stats, i).r
    ensures var f := DoubleFitOutcome(m, st, xs, outcome).value;
      f.lower[i].y.Finite? && f.upper[i].y.Finite?
    ensures var f := DoubleFitOutcome(m, st, xs, outcome).value;
      f.lower[i].y.r <= f.curve[i].y.r
    ensures var f := DoubleFitOutcome(m, st, xs, outcome).value;
      f.curve[i].y.r <= f.upper[i].y.r
  {
    DoubleFitOutcomeValue(m, st, xs, outcome);
    var s := outcome.stats;
    var dof := |xs| as real - 4.0;
    var t := st.tValue(dof).value;
    ReducedChiSquaredNonNegative(s.weightedResiduals, dof);
    MulNonNegative(ReducedChiSquared(s.weightedResiduals, dof), DoubleVariance(m, xs, s, i));
    DoubleBandBrackets(m, t, ReducedChiSquared(s.weightedResiduals, dof), xs, s, i);
  }

  /** A successful single fit is the fitted curve for the t value and the
      reduced chi-squared of n - 2 degrees of freedom. */
  lemma SingleFitOutcomeValue(m: MathLib, st: TDistribution, xs: seq<real>, outcome: SolverOutcome)
    requires WellShaped(outcome, 1)
    requires SingleFitOutcome(m, st, xs, outcome).Some?
    ensures outcome.Solved? && SingleReady(outcome.stats)
    ensures var s := outcome.stats;
      var dof := |xs| as real - 2.0;
      st.tValue(dof).Some?
      && SingleFitOutcome(m, st, xs, outcome)
         == Some(SingleFitted(m, st.tValue(dof).value, ReducedChiSquared(s.weightedResiduals, dof), xs, s))
  {
  }

  /** A successful double fit is the fitted curve for the t value and the
      reduced chi-squared of n - 4 degrees of freedom. */
  lemma DoubleFitOutcomeValue(m: MathLib, st: TDistribution, xs: seq<real>, outcome: SolverOutcome)
    requires WellShaped(outcome, 2)
    requires DoubleFitOutcome(m, st, xs, outcome).Some?
    ensures outcome.Solved? && DoubleReady(outcome.stats)
    ensures var s := outcome.stats;
      var dof := |xs| as real - 4.0;
      st.tValue(dof).Some?
      && DoubleFitOutcome(m, st, xs, outcome)
         == Some(DoubleFitted(m, st.tValue(dof).value, ReducedChiSquared(s.weightedResiduals, dof), xs, s))
  {
  }
}
