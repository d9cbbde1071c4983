/** The per-detector fit registry: a map from detector name to a `Fitter`
    holding the data of every detector of that name, across all measurements.

    The measurements are seen here through their detectors only: a sequence
    (one per measurement) of sequences (one per detector) of `Entry`s, each a
    detector's name and its lines. Both copies of the measurement handler
    project their measurements onto this shape. */
module Registry {
  import opened Common
  import opened Float
  import opened DetectorLines

  /** The data handed to the fitter: energies, efficiencies and weights. */
  datatype FitData = FitData(x: seq<real>, y: seq<F64>, weights: seq<F64>)

  const NoData := FitData([], [], [])

  /** A registry value. `E` is the exponential fitter it owns: an object in
      one copy of the code, an optional object in the other. */
  datatype Fitter<E> = Fitter(name: string, data: FitData, expFitter: E, initialBGuess: real, initialDGuess: real)

  datatype Entry = Entry(name: string, lines: seq<DetectorLine>)

  /** The detectors of all measurements, measurement by measurement. */
  function Flatten(es: seq<seq<Entry>>): seq<Entry>
  {
    if es == [] then [] else Flatten(es[..|es| - 1]) + es[|es| - 1]
  }

  function NamesIn(flat: seq<Entry>): set<string>
  {
    set e | e in flat :: e.name
  }

  /** The names of all detectors of all measurements. */
  function Names(es: seq<seq<Entry>>): set<string>
  {
    NamesIn(Flatten(es))
  }

  /** The lines of the detectors called `name`, detector after detector. */
  function MatchingIn(flat: seq<Entry>, name: string): seq<DetectorLine>
  {
    if flat == [] then []
    else MatchingIn(flat[..|flat| - 1], name) + (if flat[|flat| - 1].name == name then flat[|flat| - 1].lines else [])
  }

  function Matching(es: seq<seq<Entry>>, name: string): seq<DetectorLine>
  {
    MatchingIn(Flatten(es), name)
  }

  /** One data point per line: its energy, its efficiency and the weight
      1 / efficiency uncertainty. */
  function LinesData(lines: seq<DetectorLine>): (r: FitData)
    ensures |r.x| == |r.y| == |r.weights| == |lines|
  {
    FitData(seq(|lines|, k requires 0 <= k < |lines| => lines[k].energy),
            seq(|lines|, k requires 0 <= k < |lines| => lines[k].efficiency),
            seq(|lines|, k requires 0 <= k < |lines| => Div(Finite(1.0), lines[k].efficiencyUncertainty)))
  }

  /** What the registry entry of `name` must hold. */
  function Data(es: seq<seq<Entry>>, name: string): FitData
  {
    LinesData(Matching(es, name))
  }

  /** The number of lines of all detectors called `name`. */
  function LineCount(es: seq<seq<Entry>>, name: string): nat
  {
    if es == [] then 0 else LineCountIn(es[|es| - 1], name) + LineCount(es[..|es| - 1], name)
  }

  function LineCountIn(ds: seq<Entry>, name: string): nat
  {
    if ds == [] then 0
    else LineCountIn(ds[..|ds| - 1], name) + (if ds[|ds| - 1].name == name then |ds[|ds| - 1].lines| else 0)
  }

  /* ---------------- the registry invariant ---------------- */

  /** Exactly one entry per detector name, named after its key and holding
      that name's data. */
  predicate Synchronized<E>(fits: map<string, Fitter<E>>, es: seq<seq<Entry>>)
  {
    && fits.Keys == Names(es)
    && forall k :: k in fits ==> fits[k].name == k && fits[k].data == Data(es, k)
  }

  /** An entry present before and after keeps everything but name and data. */
  predicate KeepsSurvivors<E(==)>(before: map<string, Fitter<E>>, after: map<string, Fitter<E>>, es: seq<seq<Entry>>)
  {
    forall k :: k in after && k in before ==> after[k] == before[k].(name := k, data := Data(es, k))
  }

  /* ---------------- properties of the specification ---------------- */

  lemma {:induction false} MatchingAppend(a: seq<Entry>, b: seq<Entry>, name: string)
    ensures MatchingIn(a + b, name) == MatchingIn(a, name) + MatchingIn(b, name)
    decreases |b|
  {
    if b == [] {
      assert a + b == a;
    } else {
      var b' := b[..|b| - 1];
      assert (a + b)[..|a + b| - 1] == a + b';
      MatchingAppend(a, b', name);
    }
  }

  lemma {:induction false} FlattenAppend(es: seq<seq<Entry>>, fs: seq<seq<Entry>>)
    ensures Flatten(es + fs) == Flatten(es) + Flatten(fs)
    decreases |fs|
  {
    if fs == [] {
      assert es + fs == es;
    } else {
      var fs' := fs[..|fs| - 1];
      assert (es + fs)[..|es + fs| - 1] == es + fs';
      FlattenAppend(es, fs');
    }
  }

  /** The data is ordered by measurement: the data of a list of measurements
      followed by more measurements is the data of the first list followed by
      that of the others, and likewise detector by detector inside one
      measurement (`MatchingAppend`). */
  lemma {:induction false} DataOrdered(es: seq<seq<Entry>>, fs: seq<seq<Entry>>, name: string)
    ensures Matching(es + fs, name) == Matching(es, name) + Matching(fs, name)
  {
    FlattenAppend(es, fs);
    MatchingAppend(Flatten(es), Flatten(fs), name);
  }

  /** The k-th data point is energy, efficiency and 1 / efficiency uncertainty
      of the k-th line of the detectors with that name, and there are as many
      points as those detectors have lines. */
  lemma {:induction false} DataPoints(es: seq<seq<Entry>>, name: string)
    ensures var d := Data(es, name); var ls := Matching(es, name);
      && |d.x| == |d.y| == |d.weights| == |ls| == LineCount(es, name)
      && forall k :: 0 <= k < |ls| ==>
           d.x[k] == ls[k].energy && d.y[k] == ls[k].efficiency
           && d.weights[k] == Div(Finite(1.0), ls[k].efficiencyUncertainty)
  {
    MatchingCount(es, name);
  }

  lemma {:induction false} MatchingCount(es: seq<seq<Entry>>, name: string)
    ensures |Matching(es, name)| == LineCount(es, name)
    decreases |es|
  {
    if es != [] {
      var es' := es[..|es| - 1];
      MatchingCount(es', name);
      MatchingAppend(Flatten(es'), es[|es| - 1], name);
      MatchingInCount(es[|es| - 1], name);
    }
  }

  lemma {:induction false} MatchingInCount(ds: seq<Entry>, name: string)
    ensures |MatchingIn(ds, name)| == LineCountIn(ds, name)
    decreases |ds|
  {
    if ds != [] {
      MatchingInCount(ds[..|ds| - 1], name);
    }
  }

  lemma {:induction false} FlattenMember(es: seq<seq<Entry>>, e: Entry)
    ensures e in Flatten(es) <==> exists i, j :: 0 <= i < |es| && 0 <= j < |es[i]| && es[i][j] == e
    decreases |es|
  {
    if es != [] {
      var es' := es[..|es| - 1];
      FlattenMember(es', e);
      if e in Flatten(es) && e !in Flatten(es') {
        var j :| 0 <= j < |es[|es| - 1]| && es[|es| - 1][j] == e;
      }
      if exists i, j :: 0 <= i < |es| && 0 <= j < |es[i]| && es[i][j] == e {
        var i, j :| 0 <= i < |es| && 0 <= j < |es[i]| && es[i][j] == e;
        if i < |es| - 1 {
          assert es'[i][j] == e;
        } else {
          assert e in es[|es| - 1];
        }
      }
    }
  }

  /** The registry's keys are the names of the detectors of the measurements,
      no more and no fewer. */
  lemma {:induction false} NamesMember(es: seq<seq<Entry>>, name: string)
    ensures name in Names(es) <==> exists i, j :: 0 <= i < |es| && 0 <= j < |es[i]| && es[i][j].name == name
  {
    if name in Names(es) {
      var e :| e in Flatten(es) && e.name == name;
      FlattenMember(es, e);
    }
    if exists i, j :: 0 <= i < |es| && 0 <= j < |es[i]| && es[i][j].name == name {
      var i, j :| 0 <= i < |es| && 0 <= j < |es[i]| && es[i][j].name == name;
      FlattenMember(es, es[i][j]);
    }
  }

  /** A name no detector carries has no data. */
  lemma {:induction false} UnknownNameNoData(es: seq<seq<Entry>>, name: string)
    requires name !in Names(es)
    ensures Data(es, name) == NoData
  {
    NoMatch(Flatten(es), name);
  }

  lemma {:induction false} NoMatch(flat: seq<Entry>, name: string)
    requires name !in NamesIn(flat)
    ensures MatchingIn(flat, name) == []
    decreases |flat|
  {
    if flat != [] {
      var flat' := flat[..|flat| - 1];
      assert NamesIn(flat') <= NamesIn(flat) by {
        forall n | n in NamesIn(flat') ensures n in NamesIn(flat) {
          var e :| e in flat' && e.name == n;
          assert e in flat;
        }
      }
      NoMatch(flat', name);
      assert flat[|flat| - 1] in flat;
    }
  }

  /** Synchronising an already synchronised registry changes nothing: when the
      map before and the map after are both synchronised with the same
      measurements and the survivors kept their other fields, the two maps
      are equal. */
  lemma {:induction false} SyncIdempotent<E>(before: map<string, Fitter<E>>, after: map<string, Fitter<E>>, es: seq<seq<Entry>>)
    requires Synchronized(before, es) && Synchronized(after, es) && KeepsSurvivors(before, after, es)
    ensures after == before
  {
    assert after.Keys == before.Keys;
    forall k | k in after ensures after[k] == before[k] {
      assert after[k] == before[k].(name := k, data := Data(es, k));
    }
  }

  /* ---------------- the loops both handlers run ---------------- */

  lemma LinesDataSnoc(lines: seq<DetectorLine>, l: DetectorLine)
    ensures var d := LinesData(lines);
      LinesData(lines + [l]) == FitData(d.x + [l.energy], d.y + [l.efficiency],
                                        d.weights + [Div(Finite(1.0), l.efficiencyUncertainty)])
  {
    var d, d' := LinesData(lines), LinesData(lines + [l]);
    assert d'.x == d.x + [l.energy];
    assert d'.y == d.y + [l.efficiency];
    assert d'.weights == d.weights + [Div(Finite(1.0), l.efficiencyUncertainty)];
  }

  lemma PrefixStep(es: seq<seq<Entry>>, i: nat, j: nat)
    requires i < |es| && j < |es[i]|
    ensures Flatten(es[..i]) + es[i][..j + 1] == (Flatten(es[..i]) + es[i][..j]) + [es[i][j]]
  {
    assert es[i][..j + 1] == es[i][..j] + [es[i][j]];
  }

  lemma PrefixDone(es: seq<seq<Entry>>, i: nat)
    requires i < |es|
    ensures Flatten(es[..i]) + es[i][..|es[i]|] == Flatten(es[..i + 1])
  {
    assert es[..i + 1][..i] == es[..i];
    assert es[i][..|es[i]|] == es[i];
  }

  /** `get_detector_data_from_measurements`: the nested loops over
      measurements, detectors and lines that collect the data of one name. */
  method CollectData(es: seq<seq<Entry>>, name: string) returns (data: FitData)
    ensures data == Data(es, name)
  {
    var xData: seq<real> := [];
    var yData: seq<F64> := [];
    var weights: seq<F64> := [];
    ghost var acc: seq<DetectorLine> := [];
    for i := 0 to |es|
      invariant acc == MatchingIn(Flatten(es[..i]), name)
      invariant FitData(xData, yData, weights) == LinesData(acc)
    {
      assert Flatten(es[..i]) + es[i][..0] == Flatten(es[..i]);
      for j := 0 to |es[i]|
        invariant acc == MatchingIn(Flatten(es[..i]) + es[i][..j], name)
        invariant FitData(xData, yData, weights) == LinesData(acc)
      {
        PrefixStep(es, i, j);
        var detector := es[i][j];
        if detector.name == name {
          for k := 0 to |detector.lines|
            invariant acc == MatchingIn(Flatten(es[..i]) + es[i][..j], name) + detector.lines[..k]
            invariant FitData(xData, yData, weights) == LinesData(acc)
          {
            var line := detector.lines[k];
            LinesDataSnoc(acc, line);
            xData := xData + [line.energy];
            yData := yData + [line.efficiency];
            weights := weights + [Div(Finite(1.0), line.efficiencyUncertainty)];
            acc := acc + [line];
            assert detector.lines[..k + 1] == detector.lines[..k] + [line];
          }
          assert detector.lines[..|detector.lines|] == detector.lines;
        }
      }
      PrefixDone(es, i);
    }
    assert es[..|es|] == es;
    data := FitData(xData, yData, weights);
  }

  /** The first loop of `synchronize_detectors`: every detector's name goes
      into a set and its name's data into a map. */
  method CollectNamesAndData(es: seq<seq<Entry>>) returns (names: set<string>, data: map<string, FitData>)
    ensures names == Names(es) && data.Keys == names
    ensures forall n :: n in data ==> data[n] == Data(es, n)
  {
    names := {};
    data := map[];
    for i := 0 to |es|
      invariant names == NamesIn(Flatten(es[..i])) && data.Keys == names
      invariant forall n :: n in data ==> data[n] == Data(es, n)
    {
      assert Flatten(es[..i]) + es[i][..0] == Flatten(es[..i]);
      for j := 0 to |es[i]|
        invariant names == NamesIn(Flatten(es[..i]) + es[i][..j]) && data.Keys == names
        invariant forall n :: n in data ==> data[n] == Data(es, n)
      {
        PrefixStep(es, i, j);
        var name := es[i][j].name;
        NamesSnoc(Flatten(es[..i]) + es[i][..j], es[i][j]);
        names := names + {name};
        var d := CollectData(es, name);
        data := data[name := d];
      }
      PrefixDone(es, i);
    }
    assert es[..|es|] == es;
  }

  lemma NamesSnoc(flat: seq<Entry>, e: Entry)
    ensures NamesIn(flat + [e]) == NamesIn(flat) + {e.name}
  {
    forall n | n in NamesIn(flat + [e]) ensures n in NamesIn(flat) + {e.name} {
      var e' :| e' in flat + [e] && e'.name == n;
    }
    forall n | n in NamesIn(flat) ensures n in NamesIn(flat + [e]) {
      var e' :| e' in flat && e'.name == n;
      assert e' in flat + [e];
    }
    assert e in flat + [e];
  }

  /** The last loop of `synchronize_detectors`: every key that is not a
      current name is removed; the rest stay as they are. */
  method RemoveStale<E>(fits: map<string, Fitter<E>>, names: set<string>) returns (r: map<string, Fitter<E>>)
    ensures r.Keys == fits.Keys * names
    ensures forall k :: k in r ==> r[k] == fits[k]
  {
    var keys := fits.Keys;
    r := fits;
    while keys != {}
      invariant keys <= fits.Keys
      invariant r.Keys == (fits.Keys - keys) * names + keys
      invariant forall k :: k in r ==> r[k] == fits[k]
      decreases keys
    {
      var key :| key in keys;
      if key !in names {
        r := r - {key};
      }
      keys := keys - {key};
    }
  }
}
