/** Measurements and the measurement handler of the efficiency-fitter tree
    (src/efficiency_fitter/measurements.rs): a measurement is a source and
    the detectors measured with it; the handler keeps one fitter per detector
    name across all measurements. */
module EfficiencyMeasurements {
  import opened Common
  import opened Float
  import opened GammaSources
  import opened LineEditing
  import opened Registry
  import opened EfficiencyExpFitter
  import opened EfficiencyDetector

  /** A measurement. Rust owns the source by value; here the measurement
      refers to a `GammaSource` object. */
  datatype Measurement = Measurement(gammaSource: GammaSource, detectors: seq<Detector>)

  /** What the user did to a measurement in one frame: whether its section is
      open, what they did to each detector and whether "Add Detector" was
      clicked. */
  datatype MeasurementInput = MeasurementInput(expanded: bool, detectorInputs: seq<DetectorInput>, addClicked: bool)

  /** `Measurement::new`: the given source, or a new one, and no detectors. */
  method NewMeasurement(source: Option<GammaSource>) returns (r: Measurement)
    ensures source.Some? ==> r.gammaSource == source.value
    ensures source.None? ==> fresh(r.gammaSource) && r.gammaSource.IsNewSource()
    ensures r.detectors == []
  {
    if source.Some? {
      r := Measurement(source.value, []);
    } else {
      var s := new GammaSource();
      r := Measurement(s, []);
    }
  }

  /** One input per detector, each fitting its detector. */
  predicate ValidMeasurementInput(meas: Measurement, input: MeasurementInput)
    reads meas.gammaSource
  {
    && |input.detectorInputs| == |meas.detectors|
    && forall k :: 0 <= k < |meas.detectors| ==> ValidInput(meas.detectors[k], meas.gammaSource, input.detectorInputs[k])
  }

  /** Every detector after its own frame. */
  function PassAll(m: MathLib, meas: Measurement, input: MeasurementInput): (r: seq<Detector>)
    reads meas.gammaSource
    requires ValidMeasurementInput(meas, input)
    ensures |r| == |meas.detectors|
  {
    seq(|meas.detectors|, k requires 0 <= k < |meas.detectors|
                                && ValidInput(meas.detectors[k], meas.gammaSource, input.detectorInputs[k])
                              reads meas.gammaSource =>
      Pass(m, meas.gammaSource, meas.detectors[k], input.detectorInputs[k]))
  }

  /** Which detectors are flagged for removal. */
  function Flagged(ds: seq<Detector>): (r: seq<bool>)
    ensures |r| == |ds|
  {
    seq(|ds|, k requires 0 <= k < |ds| => ds[k].toRemove == Some(true))
  }

  /** The measurement after one frame of `measurement_ui`: nothing happens
      while the section is closed or the source has no gamma lines; otherwise
      every detector runs its frame, "Add Detector" appends a default one and
      the last flagged detector is removed. */
  function MeasurementPass(m: MathLib, meas: Measurement, input: MeasurementInput): Measurement
    reads meas.gammaSource
    requires ValidMeasurementInput(meas, input)
  {
    if !input.expanded || meas.gammaSource.gammaLines == [] then meas
    else
      var passed := PassAll(m, meas, input);
      var grown := if input.addClicked then passed + [DefaultDetector] else passed;
      meas.(detectors := RemoveIfSome(grown, LastTrue(Flagged(passed))))
  }

  /** `Measurement::measurement_ui`. */
  method MeasurementUi(m: MathLib, meas: Measurement, input: MeasurementInput) returns (r: Measurement)
    requires ValidMeasurementInput(meas, input)
    ensures r == MeasurementPass(m, meas, input)
  {
    if !input.expanded || meas.gammaSource.gammaLines == [] {
      return meas;
    }
    var detectors := meas.detectors;
    var indexToRemove: Option<nat> := None;
    for i := 0 to |detectors|
      invariant |detectors| == |meas.detectors|
      invariant forall k :: 0 <= k < i ==> detectors[k] == PassAll(m, meas, input)[k]
      invariant forall k :: i <= k < |detectors| ==> detectors[k] == meas.detectors[k]
      invariant indexToRemove == LastTrue(Flagged(PassAll(m, meas, input))[..i])
    {
      assert Flagged(PassAll(m, meas, input))[..i + 1][..i] == Flagged(PassAll(m, meas, input))[..i];
      var d := Ui(detectors[i], m, meas.gammaSource, input.detectorInputs[i]);
      detectors := detectors[i := d];
      if d.toRemove == Some(true) {
        indexToRemove := Some(i);
      }
    }
    assert detectors == PassAll(m, meas, input);
    assert Flagged(detectors)[..|detectors|] == Flagged(detectors);
    if input.addClicked {
      detectors := detectors + [DefaultDetector];
    }
    if indexToRemove.Some? {
      detectors := RemoveAt(detectors, indexToRemove.value);
    }
    r := meas.(detectors := detectors);
  }

  /** In one frame of an open measurement with gamma lines at most one
      detector goes, the last one flagged (by a click in this frame or an
      earlier one); the others keep their order, and a detector added in the
      same frame comes last and does not shift the removed index. */
  lemma {:induction false} MeasurementPassEffect(m: MathLib, meas: Measurement, input: MeasurementInput)
    requires ValidMeasurementInput(meas, input)
    requires input.expanded && meas.gammaSource.gammaLines != []
    ensures var r := MeasurementPass(m, meas, input).detectors;
      var passed := PassAll(m, meas, input);
      var removed := LastTrue(Flagged(passed));
      var kept := RemoveIfSome(passed, removed);
      && r == (if input.addClicked then kept + [DefaultDetector] else kept)
      && |r| == |meas.detectors| - (if removed.Some? then 1 else 0) + (if input.addClicked then 1 else 0)
      && (removed.Some? ==>
            && passed[removed.value].toRemove == Some(true)
            && forall k :: removed.value < k < |passed| ==> passed[k].toRemove != Some(true))
      && (removed.None? ==> forall k :: 0 <= k < |passed| ==> passed[k].toRemove != Some(true))
  {
    var passed := PassAll(m, meas, input);
    var removed := LastTrue(Flagged(passed));
    assert forall k :: 0 <= k < |passed| ==> Flagged(passed)[k] == (passed[k].toRemove == Some(true));
    if input.addClicked && removed.Some? {
      RemoveAtBeforePush(passed, DefaultDetector, removed.value);
    }
  }

  /** The detectors of each measurement as the registry sees them. */
  function Entries(ms: seq<Measurement>): (r: seq<seq<Entry>>)
    ensures |r| == |ms|
    ensures forall i :: 0 <= i < |ms| ==> |r[i]| == |ms[i].detectors|
  {
    seq(|ms|, i requires 0 <= i < |ms| =>
      seq(|ms[i].detectors|, j requires 0 <= j < |ms[i].detectors| =>
        Entry(ms[i].detectors[j].name, ms[i].detectors[j].lines)))
  }

  /** The second loop of `synchronize_detectors`, over the current names:
      for each, a default fitter is inserted when the name has none, then the
      fitter takes the name and its collected data. Fitters of other keys are
      not touched. */
  method RefreshFits(fits: map<string, Fitter<ExpFitter>>, names: set<string>, data: map<string, FitData>)
    returns (r: map<string, Fitter<ExpFitter>>)
    requires data.Keys == names
    ensures r.Keys == fits.Keys + names
    ensures forall k :: k in r && k !in names ==> r[k] == fits[k]
    ensures forall k :: k in names && k in fits ==> r[k] == fits[k].(name := k, data := data[k])
    ensures forall k :: k in names && k !in fits ==> r[k] == Fitter(k, data[k], r[k].expFitter, 0.0, 0.0)
    ensures forall k :: k in r && k !in fits ==> fresh(r[k].expFitter) && r[k].expFitter.Unfitted()
  {
    r := fits;
    var pending := names;
    ghost var done: set<string> := {};
    ghost var created: set<ExpFitter> := {};
    while pending != {}
      invariant pending == names - done && done <= names
      invariant r.Keys == fits.Keys + done
      invariant forall k :: k in r && k !in done ==> r[k] == fits[k]
      invariant forall k :: k in done && k in fits ==> r[k] == fits[k].(name := k, data := data[k])
      invariant forall k :: k in done && k !in fits ==> r[k] == Fitter(k, data[k], r[k].expFitter, 0.0, 0.0)
      invariant forall k :: k in r && k !in fits ==> r[k].expFitter in created
      invariant forall e :: e in created ==> fresh(e) && e.Unfitted()
      decreases pending
    {
      var name :| name in pending;
      if name !in r {
        var expFitter := new ExpFitter.Default();
        created := created + {expFitter};
        r := r[name := Fitter("", NoData, expFitter, 0.0, 0.0)];
      }
      if name in data {
        var fitter := r[name];
        r := r[name := fitter.(name := name, data := data[name])];
      }
      pending := pending - {name};
      done := done + {name};
    }
  }

  /** `MeasurementHandler`: the measurements and one fitter per detector name. */
  class MeasurementHandler {
    var measurements: seq<Measurement>
    var measurementExpFits: map<string, Fitter<ExpFitter>>

    /** `MeasurementHandler::new`. */
    constructor ()
      ensures measurements == [] && measurementExpFits == map[]
    {
      measurements := [];
      measurementExpFits := map[];
    }

    /** `get_detector_data_from_measurements`: the energies, efficiencies and
        weights of every line of every detector called `name`, in
        measurement, detector and line order (see `Registry.DataPoints`). */
    method GetDetectorDataFromMeasurements(name: string) returns (data: FitData)
      ensures data == Data(Entries(measurements), name)
    {
      data := CollectData(Entries(measurements), name);
    }

    /** `synchronize_detectors`: afterwards there is exactly one fitter per
        detector name, holding that name and its data; fitters of names seen
        before keep their fit and their initial guesses; a name seen for the
        first time gets a default fitter; fitters of vanished names are
        dropped. On a registry already in sync nothing changes. */
    method SynchronizeDetectors()
      modifies this
      ensures measurements == old(measurements)
      ensures Synchronized(measurementExpFits, Entries(measurements))
      ensures KeepsSurvivors(old(measurementExpFits), measurementExpFits, Entries(measurements))
      ensures forall k :: k in measurementExpFits && k !in old(measurementExpFits) ==>
        && fresh(measurementExpFits[k].expFitter) && measurementExpFits[k].expFitter.Unfitted()
        && measurementExpFits[k].initialBGuess == 0.0 && measurementExpFits[k].initialDGuess == 0.0
      ensures old(Synchronized(measurementExpFits, Entries(measurements))) ==> measurementExpFits == old(measurementExpFits)
    {
      var es := Entries(measurements);
      var names, data := CollectNamesAndData(es);
      measurementExpFits := RefreshFits(measurementExpFits, names, data);
      measurementExpFits := RemoveStale(measurementExpFits, names);
      if old(Synchronized(measurementExpFits, Entries(measurements))) {
        SyncIdempotent(old(measurementExpFits), measurementExpFits, es);
      }
    }

    /** `remove_measurement`: measurement `index` goes, the others keep their
        order; the fitters are left to the next synchronisation. */
    method RemoveMeasurement(index: nat)
      requires index < |measurements|
      modifies this
      ensures measurements == RemoveAt(old(measurements), index)
      ensures measurementExpFits == old(measurementExpFits)
    {
      measurements := RemoveAt(measurements, index);
    }
  }
}
