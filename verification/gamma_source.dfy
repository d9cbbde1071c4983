/** A calibration source: its gamma lines, its half-life, its activity at a
    calibration date and at the date of a measurement, and how it is drawn.

    Calendar dates are day numbers of the proleptic Gregorian calendar, so the
    signed number of days between two dates is the difference of their day
    numbers. */
module GammaSources {
  import opened Common
  import opened Float
  import opened DetectorLines

  /** A gamma line of the source: energy in keV, intensity and its
      uncertainty in percent. */
  datatype GammaLine = GammaLine(energy: real, intensity: real, intensityUncertainty: real)

  /** `GammaLine::new()`: all fields zero. */
  const DefaultGammaLine := GammaLine(0.0, 0.0, 0.0)

  /** An activity in kBq (calibration) or Bq (measurement), and the date it
      refers to, when one was picked. */
  datatype SourceActivity = SourceActivity(activity: F64, date: Option<int>)

  /** `SourceActivity::default()`. */
  const NoActivity := SourceActivity(Finite(0.0), None)

  datatype MarkerShape = Circle | Diamond | Square | Cross | Plus | Up | Down | Left | Right | Asterisk

  /* ---------------- calendar ---------------- */

  predicate IsLeapYear(y: int)
  {
    y % 4 == 0 && (y % 100 != 0 || y % 400 == 0)
  }

  function DaysInMonth(y: int, m: int): int
    requires 1 <= m <= 12
  {
    if m == 2 then (if IsLeapYear(y) then 29 else 28)
    else if m == 4 || m == 6 || m == 9 || m == 11 then 30
    else 31
  }

  /** Days of year `y` before the first of month `m`. */
  function DaysBeforeMonth(y: int, m: int): int
    requires 1 <= m <= 12
    decreases m
  {
    if m == 1 then 0 else DaysBeforeMonth(y, m - 1) + DaysInMonth(y, m - 1)
  }

  /** Day number of a date; 0001-01-01 is day 1. */
  function DayNumber(y: int, m: int, d: int): int
    requires 1 <= m <= 12
  {
    365 * (y - 1) + (y - 1) / 4 - (y - 1) / 100 + (y - 1) / 400 + DaysBeforeMonth(y, m) + d
  }

  /** `NaiveDate::from_ymd_opt`: the date, when month and day exist. */
  function FromYmdOpt(y: int, m: int, d: int): (r: Option<int>)
    ensures r.Some? <==> 1 <= m <= 12 && 1 <= d <= DaysInMonth(y, m)
    ensures r.Some? ==> r.value == DayNumber(y, m, d)
  {
    if 1 <= m <= 12 && 1 <= d <= DaysInMonth(y, m) then Some(DayNumber(y, m, d)) else None
  }

  /** February has 29 days exactly in a leap year. */
  lemma LeapFebruary(y: int)
    ensures DaysInMonth(y, 2) == 29 <==> IsLeapYear(y)
  {
  }

  /** Within a month, the next day has the next day number. */
  lemma {:induction false} NextDayInMonth(y: int, m: int, d: int)
    requires 1 <= m <= 12 && 1 <= d < DaysInMonth(y, m)
    ensures FromYmdOpt(y, m, d).Some? && FromYmdOpt(y, m, d + 1).Some?
    ensures FromYmdOpt(y, m, d).value + 1 == FromYmdOpt(y, m, d + 1).value
  {
  }

  /** The first of the next month follows the last day of a month. */
  lemma {:induction false} NextMonth(y: int, m: int)
    requires 1 <= m < 12
    ensures FromYmdOpt(y, m, DaysInMonth(y, m)).Some? && FromYmdOpt(y, m + 1, 1).Some?
    ensures FromYmdOpt(y, m, DaysInMonth(y, m)).value + 1 == FromYmdOpt(y, m + 1, 1).value
  {
  }

  /** Days of year `y` before December: 334, or 335 in a leap year. */
  lemma {:induction false} DaysBeforeDecember(y: int)
    ensures DaysBeforeMonth(y, 12) == if IsLeapYear(y) then 335 else 334
  {
  }

  /** Stepping from year y - 1 to y raises the counts of multiples of 4, 100
      and 400 by one exactly when y is such a multiple. */
  lemma {:induction false} DivStep(y: int)
    ensures y / 4 == (y - 1) / 4 + (if y % 4 == 0 then 1 else 0)
    ensures y / 100 == (y - 1) / 100 + (if y % 100 == 0 then 1 else 0)
    ensures y / 400 == (y - 1) / 400 + (if y % 400 == 0 then 1 else 0)
  {
  }

  /** The leap days counted up to the end of year y grow by one exactly in a
      leap year. */
  lemma {:induction false} LeapDaysStep(y: int)
    ensures (y / 4 - y / 100 + y / 400) - ((y - 1) / 4 - (y - 1) / 100 + (y - 1) / 400)
            == if IsLeapYear(y) then 1 else 0
  {
    DivStep(y);
  }

  /** New Year's Day follows the 31st of December of the year before. */
  lemma {:induction false} NextYear(y: int)
    ensures FromYmdOpt(y, 12, 31).Some? && FromYmdOpt(y + 1, 1, 1).Some?
    ensures FromYmdOpt(y, 12, 31).value + 1 == FromYmdOpt(y + 1, 1, 1).value
  {
    DaysBeforeDecember(y);
    LeapDaysStep(y);
    var before := 365 * (y - 1) + (y - 1) / 4 - (y - 1) / 100 + (y - 1) / 400;
    assert DayNumber(y, 12, 31) == before + DaysBeforeMonth(y, 12) + 31;
    assert DayNumber(y + 1, 1, 1) == 365 * y + y / 4 - y / 100 + y / 400 + 1;
  }

  /** The two preset calibration dates lie 1858 days apart: five years with
      one leap day (2020-02-29), plus 32 days. */
  lemma CalibrationDatesApart()
    ensures FromYmdOpt(2017, 3, 17).Some? && FromYmdOpt(2022, 4, 18).Some?
    ensures FromYmdOpt(2022, 4, 18).value - FromYmdOpt(2017, 3, 17).value == 1858
  {
  }

  /* ---------------- plotting marker ---------------- */

  /** The names offered by the marker-shape selector, one per shape. */
  function MarkerShapeName(s: MarkerShape): string
  {
    match s
    case Circle => "Circle"
    case Diamond => "Diamond"
    case Square => "Square"
    case Cross => "Cross"
    case Plus => "Plus"
    case Up => "Up"
    case Down => "Down"
    case Left => "Left"
    case Right => "Right"
    case Asterisk => "Asterisk"
  }

  /** The shape a marker name stands for; None where the program panics. */
  function ShapeOfName(name: string): (r: Option<MarkerShape>)
    ensures r.Some? ==> MarkerShapeName(r.value) == name
    ensures r.None? ==> forall s: MarkerShape :: MarkerShapeName(s) != name
  {
    match name
    case "Circle" => Some(Circle)
    case "Diamond" => Some(Diamond)
    case "Square" => Some(Square)
    case "Cross" => Some(Cross)
    case "Plus" => Some(Plus)
    case "Up" => Some(Up)
    case "Down" => Some(Down)
    case "Left" => Some(Left)
    case "Right" => Some(Right)
    case "Asterisk" => Some(Asterisk)
    case _ => None
  }

  /** Every selectable name is accepted and maps back to its own shape. */
  lemma ShapeNameRoundTrip(s: MarkerShape)
    ensures ShapeOfName(MarkerShapeName(s)) == Some(s)
  {
  }

  /* ---------------- the presets ---------------- */

  const Eu152Lines: seq<GammaLine> := [
    GammaLine(121.7817, 28.53, 0.16),
    GammaLine(244.6974, 7.55, 0.04),
    GammaLine(344.2785, 26.59, 0.20),
    GammaLine(411.1164, 2.237, 0.013),
    GammaLine(443.9650, 2.827, 0.014),
    GammaLine(778.9045, 12.93, 0.08),
    GammaLine(867.3800, 4.23, 0.03),
    GammaLine(964.0570, 14.51, 0.07),
    GammaLine(1085.837, 10.11, 0.05),
    GammaLine(1112.076, 13.67, 0.08),
    GammaLine(1408.0130, 20.87, 0.09)]

  const Co56Lines: seq<GammaLine> := [
    GammaLine(846.7638, 99.9399, 0.0023),
    GammaLine(1037.8333, 14.03, 0.05),
    GammaLine(1360.196, 4.283, 0.013),
    GammaLine(2598.438, 16.96, 0.04),
    GammaLine(3451.119, 0.942, 0.006)]

  /* ---------------- efficiency arithmetic ---------------- */

  /** Activity in Bq at the measurement date, from the calibration activity in
      kBq, the half-life in years (converted to days) and the signed number of
      days since calibration; the decay constant is taken as 0.693 / half-life. */
  function DecayedActivity(m: MathLib, calibrationKBq: F64, halfLifeYears: real, days: int): F64
  {
    var decayConstant := Div(Finite(0.693), Finite(halfLifeYears * 365.25));
    Mul(Mul(calibrationKBq, Finite(1000.0)), Exp(m, Mul(Neg(decayConstant), Finite(days as real))))
  }

  /** Efficiency in percent: counts over the gammas the source emitted during
      the run (intensity in percent, activity in Bq, run time in hours). */
  function Efficiency(count: real, intensity: real, activity: F64, hours: real): F64
  {
    var runTime := hours * 3600.0;
    Mul(Div(Finite(count), Mul(Mul(Mul(Finite(intensity), activity), Finite(runTime)), Finite(0.01))), Finite(100.0))
  }

  /** The relative uncertainties of counts, intensity and activity added in
      quadrature; the activity uncertainty is fixed at zero. */
  function RelativeUncertainty(m: MathLib, line: DetectorLine, activity: F64): F64
  {
    var activityUncertainty := Finite(0.0);
    Sqrt(m, Add(Add(Float.Square(Div(Finite(line.uncertainty), Finite(line.count))),
                    Float.Square(Div(Finite(line.intensityUncertainty), Finite(line.intensity)))),
                Float.Square(Div(activityUncertainty, activity))))
  }

  class GammaSource {
    var name: string
    var gammaLines: seq<GammaLine>
    /** In years. */
    var halfLife: real
    var calibration: SourceActivity
    var measurement: SourceActivity
    /** In hours. */
    var measurementTime: real
    var markerShape: string
    var markerSize: real

    /** The state `GammaSource::new()` builds. */
    predicate IsNewSource()
      reads this
    {
      && name == "" && gammaLines == [] && halfLife == 0.0
      && calibration == NoActivity && measurement == NoActivity
      && measurementTime == 0.0 && markerShape == "circle" && markerSize == 5.0
    }

    constructor ()
      ensures IsNewSource()
    {
      name := "";
      gammaLines := [];
      halfLife := 0.0;
      calibration := NoActivity;
      measurement := NoActivity;
      measurementTime := 0.0;
      markerShape := "circle";
      markerSize := 5.0;
    }

    /** Appends one line at the end; nothing else changes. */
    method AddGammaLine(energy: real, intensity: real, intensityUncertainty: real)
      modifies this`gammaLines
      ensures gammaLines == old(gammaLines) + [GammaLine(energy, intensity, intensityUncertainty)]
    {
      gammaLines := gammaLines + [GammaLine(energy, intensity, intensityUncertainty)];
    }

    /** Removes exactly line `index`; the others keep their order. */
    method RemoveGammaLine(index: nat)
      requires index < |gammaLines|
      modifies this`gammaLines
      ensures gammaLines == RemoveAt(old(gammaLines), index)
    {
      gammaLines := RemoveAt(gammaLines, index);
    }

    /** The 152Eu preset: name, half-life and calibration are overwritten and
        its 11 lines are appended to whatever lines the source already has. */
    method Fsu152EuSource()
      modifies this
      ensures name == "152Eu" && halfLife == 13.517
      ensures calibration == SourceActivity(Finite(74.370), FromYmdOpt(2017, 3, 17))
      ensures gammaLines == old(gammaLines) + Eu152Lines
      ensures measurement == old(measurement) && measurementTime == old(measurementTime)
      ensures markerShape == old(markerShape) && markerSize == old(markerSize)
    {
      name := "152Eu";
      halfLife := 13.517;
      calibration := calibration.(activity := Finite(74.370));
      calibration := calibration.(date := FromYmdOpt(2017, 3, 17));
      ghost var before := gammaLines;
      AddGammaLine(121.7817, 28.53, 0.16);
      AddGammaLine(244.6974, 7.55, 0.04);
      AddGammaLine(344.2785, 26.59, 0.20);
      AddGammaLine(411.1164, 2.237, 0.013);
      AddGammaLine(443.9650, 2.827, 0.014);
      AddGammaLine(778.9045, 12.93, 0.08);
      AddGammaLine(867.3800, 4.23, 0.03);
      AddGammaLine(964.0570, 14.51, 0.07);
      AddGammaLine(1085.837, 10.11, 0.05);
      AddGammaLine(1112.076, 13.67, 0.08);
      AddGammaLine(1408.0130, 20.87, 0.09);
      assert gammaLines == before + Eu152Lines;
    }

    /** The 56Co preset: half-life 77.236 days written in years, 5 lines appended. */
    method Fsu56CoSource()
      modifies this
      ensures name == "56Co" && halfLife == 77.236 / 365.25
      ensures calibration == SourceActivity(Finite(108.0), FromYmdOpt(2022, 4, 18))
      ensures gammaLines == old(gammaLines) + Co56Lines
      ensures measurement == old(measurement) && measurementTime == old(measurementTime)
      ensures markerShape == old(markerShape) && markerSize == old(markerSize)
    {
      name := "56Co";
      var co56HalfLifeDays := 77.236;
      halfLife := co56HalfLifeDays / 365.25;
      calibration := calibration.(activity := Finite(108.0));
      calibration := calibration.(date := FromYmdOpt(2022, 4, 18));
      AddGammaLine(846.7638, 99.9399, 0.0023);
      AddGammaLine(1037.8333, 14.03, 0.05);
      AddGammaLine(1360.196, 4.283, 0.013);
      AddGammaLine(2598.438, 16.96, 0.04);
      AddGammaLine(3451.119, 0.942, 0.006);
    }

    /** Decays the calibration activity to the measurement date. Both dates
        are unwrapped: when either is unset the program panics, reported here
        as `panicked` with nothing written. Otherwise only the measurement
        activity changes. */
    method CalculateSourceActivityForMeasurement(m: MathLib) returns (panicked: bool)
      modifies this
      ensures panicked <==> old(calibration.date).None? || old(measurement.date).None?
      ensures !panicked ==> measurement == old(measurement).(activity :=
        DecayedActivity(m, old(calibration.activity), old(halfLife),
                        old(measurement.date).value - old(calibration.date).value))
      ensures panicked ==> measurement == old(measurement)
      ensures name == old(name) && gammaLines == old(gammaLines) && halfLife == old(halfLife)
      ensures calibration == old(calibration) && measurementTime == old(measurementTime)
      ensures markerShape == old(markerShape) && markerSize == old(markerSize)
    {
      if calibration.date.None? || measurement.date.None? {
        return true;
      }
      var calibrationDate := calibration.date.value;
      var measurementDate := measurement.date.value;
      var halfLifeDays := halfLife * 365.25;
      var timeDifference := (measurementDate - calibrationDate) as real;
      var decayConstant := Div(Finite(0.693), Finite(halfLifeDays));
      var sourceActivityBq := Mul(calibration.activity, Finite(1000.0));
      var activity := Mul(sourceActivityBq, Exp(m, Mul(Neg(decayConstant), Finite(timeDifference))));
      measurement := measurement.(activity := activity);
      panicked := false;
    }

    /** The line with its efficiency and efficiency uncertainty recomputed from
        this source's measurement activity and run time; no other field of the
        line changes. */
    function LineEfficiency(m: MathLib, line: DetectorLine): (r: DetectorLine)
      reads this
      ensures Inputs(r) == Inputs(line)
      ensures r.efficiency == Efficiency(line.count, line.intensity, measurement.activity, measurementTime)
      ensures r.efficiencyUncertainty == Mul(r.efficiency, RelativeUncertainty(m, line, measurement.activity))
    {
      var efficiency := Efficiency(line.count, line.intensity, measurement.activity, measurementTime);
      line.(efficiency := efficiency,
            efficiencyUncertainty := Mul(efficiency, RelativeUncertainty(m, line, measurement.activity)))
    }

    /** `to_egui_marker_shape`: None where the program panics. */
    function ToEguiMarkerShape(): (r: Option<MarkerShape>)
      reads this
      ensures r.Some? <==> exists s: MarkerShape :: MarkerShapeName(s) == markerShape
      ensures r.Some? ==> MarkerShapeName(r.value) == markerShape
    {
      var r := ShapeOfName(markerShape);
      assert r.Some? ==> MarkerShapeName(r.value) == markerShape;
      r
    }
  }

  /* ---------------- properties ---------------- */

  /** The presets add 11 and 5 lines and always set a calibration date. */
  lemma PresetSizes()
    ensures |Eu152Lines| == 11 && |Co56Lines| == 5
    ensures FromYmdOpt(2017, 3, 17) == Some(DayNumber(2017, 3, 17))
    ensures FromYmdOpt(2022, 4, 18) == Some(DayNumber(2022, 4, 18))
  {
  }

  /** A freshly built source has the lower-case marker name "circle", which
      `to_egui_marker_shape` does not accept. */
  lemma NewSourceMarkerRejected(s: GammaSource)
    requires s.IsNewSource()
    ensures s.ToEguiMarkerShape() == None
  {
    assert ShapeOfName("circle") == None;
  }

  /** On the calibration day itself the activity is the calibration activity
      converted to Bq, exactly, given exp(0) = 1. */
  lemma {:induction false} SameDayActivity(m: MathLib, calibrationKBq: real, halfLifeYears: real)
    requires Lawful(m) && halfLifeYears != 0.0
    ensures DecayedActivity(m, Finite(calibrationKBq), halfLifeYears, 0) == Finite(calibrationKBq * 1000.0)
  {
    var k := 0.693 / (halfLifeYears * 365.25);
    assert Div(Finite(0.693), Finite(halfLifeYears * 365.25)) == Finite(k);
    assert Mul(Neg(Finite(k)), Finite(0.0)) == Finite(0.0);
    assert Exp(m, Finite(0.0)) == Finite(1.0);
  }

  /** With a non-zero half-life and a positive calibration activity the
      activity at any measurement date, before or after calibration, is a
      finite positive number. */
  lemma {:induction false} ActivityPositive(m: MathLib, calibrationKBq: real, halfLifeYears: real, days: int)
    requires Lawful(m) && halfLifeYears != 0.0 && 0.0 < calibrationKBq
    ensures DecayedActivity(m, Finite(calibrationKBq), halfLifeYears, days).Finite?
    ensures 0.0 < DecayedActivity(m, Finite(calibrationKBq), halfLifeYears, days).r
  {
    var k := 0.693 / (halfLifeYears * 365.25);
    assert Div(Finite(0.693), Finite(halfLifeYears * 365.25)) == Finite(k);
    var e := m.exp(Mul(Neg(Finite(k)), Finite(days as real)).r);
    assert Exp(m, Mul(Neg(Finite(k)), Finite(days as real))) == Finite(e);
    assert 0.0 < e;
    assert 0.0 < calibrationKBq * 1000.0 * e;
  }

  /** While the half-life is still 0 (as in a new source) the decay constant
      is infinite: after the calibration date the activity is 0, on the day
      itself it is NaN. */
  lemma ZeroHalfLifeActivity(m: MathLib, calibrationKBq: real, days: int)
    requires 0.0 <= calibrationKBq
    ensures days > 0 ==> DecayedActivity(m, Finite(calibrationKBq), 0.0, days) == Finite(0.0)
    ensures days == 0 ==> DecayedActivity(m, Finite(calibrationKBq), 0.0, days) == NaN
  {
  }

  /** What the efficiency means: efficiency (in percent) times the number of
      gammas emitted during the run equals 100 times the counts. */
  lemma {:induction false} EfficiencyMeaning(count: real, intensity: real, activity: real, hours: real)
    requires intensity != 0.0 && activity != 0.0 && hours != 0.0
    ensures Efficiency(count, intensity, Finite(activity), hours).Finite?
    ensures Efficiency(count, intensity, Finite(activity), hours).r * (intensity * 0.01 * activity * (hours * 3600.0))
            == count * 100.0
  {
    var emitted := intensity * activity * (hours * 3600.0) * 0.01;
    assert emitted != 0.0 by {
      assert intensity * activity != 0.0;
      assert intensity * activity * (hours * 3600.0) != 0.0;
    }
    assert Mul(Mul(Mul(Finite(intensity), Finite(activity)), Finite(hours * 3600.0)), Finite(0.01)) == Finite(emitted);
    var e := count / emitted * 100.0;
    assert Efficiency(count, intensity, Finite(activity), hours) == Finite(e);
    assert intensity * 0.01 * activity * (hours * 3600.0) == emitted;
    assert e * emitted == count * 100.0;
  }

  /** A line whose gamma line is still unselected (intensity 0) has an
      undefined efficiency when it has no counts and an infinite one otherwise. */
  lemma ZeroIntensityEfficiency(count: real, activity: real, hours: real)
    requires activity != 0.0 && hours != 0.0
    ensures count == 0.0 ==> Efficiency(count, 0.0, Finite(activity), hours) == NaN
    ensures count != 0.0 ==> Efficiency(count, 0.0, Finite(activity), hours).PosInf?
                             || Efficiency(count, 0.0, Finite(activity), hours).NegInf?
  {
  }

  /** With a non-zero activity the (zero) activity uncertainty drops out: the
      relative uncertainty is the quadrature sum of the count and intensity
      terms only. With a zero activity the term is 0/0 and the uncertainty NaN. */
  lemma ActivityTermDropsOut(m: MathLib, line: DetectorLine, activity: real)
    ensures activity != 0.0 ==>
      (RelativeUncertainty(m, line, Finite(activity))
       == Sqrt(m, Add(Float.Square(Div(Finite(line.uncertainty), Finite(line.count))),
                      Float.Square(Div(Finite(line.intensityUncertainty), Finite(line.intensity))))))
    ensures activity == 0.0 ==> RelativeUncertainty(m, line, Finite(activity)) == NaN
  {
  }

  /** The efficiency uncertainty is never negative when the efficiency is not. */
  lemma {:induction false} UncertaintyNonNegative(m: MathLib, s: GammaSource, line: DetectorLine)
    requires Lawful(m)
    requires line.count != 0.0 && line.intensity != 0.0
    requires s.measurement.activity.Finite? && s.measurement.activity.r != 0.0
    requires s.LineEfficiency(m, line).efficiency.Finite? && 0.0 <= s.LineEfficiency(m, line).efficiency.r
    ensures s.LineEfficiency(m, line).efficiencyUncertainty.Finite?
    ensures 0.0 <= s.LineEfficiency(m, line).efficiencyUncertainty.r
  {
    ActivityTermDropsOut(m, line, s.measurement.activity.r);
    var c := line.uncertainty / line.count;
    var i := line.intensityUncertainty / line.intensity;
    assert Div(Finite(line.uncertainty), Finite(line.count)) == Finite(c);
    assert Div(Finite(line.intensityUncertainty), Finite(line.intensity)) == Finite(i);
    assert 0.0 <= c * c + i * i;
    assert Add(Float.Square(Finite(c)), Float.Square(Finite(i))) == Finite(c * c + i * i);
    assert RelativeUncertainty(m, line, s.measurement.activity) == Finite(m.sqrt(c * c + i * i));
  }
}
