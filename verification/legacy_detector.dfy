/** A detector of the first tree (src/detector.rs): a named table of lines
    measured with one source, with a slot for an exponential fit. */
module LegacyDetector {
  import opened Common
  import opened Float
  import opened DetectorLines
  import opened GammaSources
  import opened LineEditing
  import LegacyExpFitter

  /** A detector: its name, its lines, its fit slot and whether its "X" was
      clicked. */
  datatype Detector = Detector(name: string, lines: seq<DetectorLine>,
                               expFit: Option<LegacyExpFitter.ExpFitter>, toRemove: Option<bool>)

  /** `Detector::default()`. */
  const DefaultDetector: Detector := Detector("", [], None, None)

  /** The input of one frame fits the detector and its source. */
  predicate ValidInput(d: Detector, source: GammaSource, input: DetectorInput)
    reads source
  {
    input.expanded ==> ValidEdits(input.edits, |d.lines|, |source.gammaLines|)
  }

  /** The detector after one frame of `Detector::ui`. */
  function Pass(m: MathLib, source: GammaSource, d: Detector, input: DetectorInput): Detector
    reads source
    requires ValidInput(d, source, input)
  {
    var flagged := if input.removeClicked then d.(toRemove := Some(true)) else d;
    if input.expanded then flagged.(lines := EditedLines(m, source, d.lines, input.edits)) else flagged
  }

  /** `Detector::ui`: the "X" flags the detector for removal; when the table is
      open the lines are edited (see `LineEditing.EditLines`). */
  method Ui(d: Detector, m: MathLib, source: GammaSource, input: DetectorInput) returns (r: Detector)
    requires ValidInput(d, source, input)
    ensures r == Pass(m, source, d, input)
  {
    r := d;
    if input.removeClicked {
      r := r.(toRemove := Some(true));
    }
    if input.expanded {
      var lines := EditLines(m, source, r.lines, input.edits);
      r := r.(lines := lines);
    }
  }

  /** One frame keeps the name and the fit slot; the "X" sets the flag and
      nothing clears it; a closed table keeps its lines and an open one goes
      through the editing pass. */
  lemma PassEffect(m: MathLib, source: GammaSource, d: Detector, input: DetectorInput)
    requires ValidInput(d, source, input)
    ensures var r := Pass(m, source, d, input);
      && r.name == d.name && r.expFit == d.expFit
      && (r.toRemove == Some(true) <==> input.removeClicked || d.toRemove == Some(true))
      && (!input.removeClicked ==> r.toRemove == d.toRemove)
      && (!input.expanded ==> r.lines == d.lines)
      && (input.expanded ==> r.lines == EditedLines(m, source, d.lines, input.edits))
  {
  }

  /** `remove_line`: line `index` goes, the others keep their order. */
  function RemoveLine(d: Detector, index: nat): (r: Detector)
    requires index < |d.lines|
    ensures r.name == d.name && r.expFit == d.expFit && r.toRemove == d.toRemove
    ensures |r.lines| == |d.lines| - 1
    ensures r.lines[..index] == d.lines[..index] && r.lines[index..] == d.lines[index + 1..]
  {
    d.(lines := RemoveAt(d.lines, index))
  }
}
