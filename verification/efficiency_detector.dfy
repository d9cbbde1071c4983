/** A detector of the efficiency-fitter tree (src/efficiency_fitter/detector.rs):
    a named table of lines measured with one source, its plot points and its
    CSV export. */
module EfficiencyDetector {
  import opened Common
  import opened Float
  import opened DetectorLines
  import opened GammaSources
  import opened LineEditing
  import opened FitCurves
  import opened Registry

  /** A detector: its name, the name of its source, its lines and whether its
      "X" was clicked. Its plot settings (egui_points.rs) are not part of this
      model. */
  datatype Detector = Detector(name: string, sourceName: string, lines: seq<DetectorLine>, toRemove: Option<bool>)

  /** `Detector::default()`. */
  const DefaultDetector := Detector("", "", [], None)

  /** The input of one frame fits the detector and its source. */
  predicate ValidInput(d: Detector, source: GammaSource, input: DetectorInput)
    reads source
  {
    input.expanded ==> ValidEdits(input.edits, |d.lines|, |source.gammaLines|)
  }

  /** The detector after one frame of `Detector::ui`. */
  function Pass(m: MathLib, source: GammaSource, d: Detector, input: DetectorInput): Detector
    reads source
    requires ValidInput(d, source, input)
  {
    var flagged := if input.removeClicked then d.(toRemove := Some(true)) else d;
    if input.expanded then flagged.(lines := EditedLines(m, source, d.lines, input.edits)) else flagged
  }

  /** `Detector::ui`: the "X" flags the detector for removal; when the table is
      open the lines are edited (see `LineEditing.EditLines`). */
  method Ui(d: Detector, m: MathLib, source: GammaSource, input: DetectorInput) returns (r: Detector)
    requires ValidInput(d, source, input)
    ensures r == Pass(m, source, d, input)
  {
    r := d;
    if input.removeClicked {
      r := r.(toRemove := Some(true));
    }
    if input.expanded {
      var lines := EditLines(m, source, r.lines, input.edits);
      r := r.(lines := lines);
    }
  }

  /** One frame keeps the names; the "X" sets the flag and nothing clears it;
      a closed table keeps its lines and an open one goes through the editing
      pass. */
  lemma PassEffect(m: MathLib, source: GammaSource, d: Detector, input: DetectorInput)
    requires ValidInput(d, source, input)
    ensures var r := Pass(m, source, d, input);
      && r.name == d.name && r.sourceName == d.sourceName
      && (r.toRemove == Some(true) <==> input.removeClicked || d.toRemove == Some(true))
      && (!input.removeClicked ==> r.toRemove == d.toRemove)
      && (!input.expanded ==> r.lines == d.lines)
      && (input.expanded ==> r.lines == EditedLines(m, source, d.lines, input.edits))
  {
  }

  /** `remove_line`: line `index` goes, the others keep their order. */
  function RemoveLine(d: Detector, index: nat): (r: Detector)
    requires index < |d.lines|
    ensures r.name == d.name && r.sourceName == d.sourceName && r.toRemove == d.toRemove
    ensures |r.lines| == |d.lines| - 1
    ensures r.lines[..index] == d.lines[..index] && r.lines[index..] == d.lines[index + 1..]
  {
    d.(lines := RemoveAt(d.lines, index))
  }

  /** `get_detector_points`: one (energy, efficiency) point per line. */
  function GetDetectorPoints(d: Detector): (r: seq<Point>)
    ensures |r| == |d.lines|
  {
    seq(|d.lines|, k requires 0 <= k < |d.lines| => Point(Finite(d.lines[k].energy), d.lines[k].efficiency))
  }

  /** The points drawn for a detector are the x and y values it contributes to
      the fit, line by line. */
  lemma PointsAreFitData(d: Detector)
    ensures var data := LinesData(d.lines);
      && |GetDetectorPoints(d)| == |data.x| == |data.y|
      && forall k :: 0 <= k < |d.lines| ==>
           GetDetectorPoints(d)[k] == Point(Finite(data.x[k]), data.y[k])
  {
  }

  /* ---------------- CSV export ---------------- */

  /** The header: the seven column names, comma-separated, and a line break. */
  const CsvHeader := "Energy,Counts,Uncertainty,Intensity,Intensity Uncertainty,Efficiency,Efficiency Uncertainty\n"

  /** The seven fields of a line, with `fmt` the display formatting of a number. */
  function Fields(fmt: F64 -> string, line: DetectorLine): (r: seq<string>)
    ensures |r| == 7
  {
    [fmt(Finite(line.energy)), fmt(Finite(line.count)), fmt(Finite(line.uncertainty)),
     fmt(Finite(line.intensity)), fmt(Finite(line.intensityUncertainty)),
     fmt(line.efficiency), fmt(line.efficiencyUncertainty)]
  }

  /** Fields separated by commas and ended by a line break. */
  function Join(fields: seq<string>): string
    requires fields != []
  {
    if |fields| == 1 then fields[0] + "\n" else fields[0] + "," + Join(fields[1..])
  }

  /** The row of one line. */
  function CsvRow(fmt: F64 -> string, line: DetectorLine): string
  {
    Join(Fields(fmt, line))
  }

  /** The rows of the lines, in order. */
  function Rows(fmt: F64 -> string, lines: seq<DetectorLine>): string
  {
    if lines == [] then "" else Rows(fmt, lines[..|lines| - 1]) + CsvRow(fmt, lines[|lines| - 1])
  }

  /** `lines_csv`: the header, then one pushed row per line. */
  method LinesCsv(d: Detector, fmt: F64 -> string) returns (csv: string)
    ensures csv == CsvHeader + Rows(fmt, d.lines)
  {
    csv := CsvHeader;
    ghost var header := csv;
    for i := 0 to |d.lines|
      invariant csv == header + Rows(fmt, d.lines[..i])
    {
      var row := CsvRow(fmt, d.lines[i]);
      RowsSnoc(fmt, d.lines, i, header, csv, row);
      csv := csv + row;
    }
    assert d.lines[..|d.lines|] == d.lines;
  }

  /** Appending the row of line i to the text so far gives the text up to
      line i + 1. */
  lemma RowsSnoc(fmt: F64 -> string, lines: seq<DetectorLine>, i: nat, header: string, csv: string, row: string)
    requires i < |lines| && row == CsvRow(fmt, lines[i])
    requires csv == header + Rows(fmt, lines[..i])
    ensures csv + row == header + Rows(fmt, lines[..i + 1])
  {
    assert lines[..i + 1][..i] == lines[..i];
    assert Rows(fmt, lines[..i + 1]) == Rows(fmt, lines[..i]) + row;
  }

  /** A formatted number contains neither a comma nor a line break. */
  ghost predicate PlainNumbers(fmt: F64 -> string)
  {
    forall v :: ',' !in fmt(v) && '\n' !in fmt(v)
  }

  /** Joining n fields free of commas and line breaks writes n - 1 commas and
      one line break, at the end. */
  lemma {:induction false} JoinShape(fields: seq<string>)
    requires fields != []
    requires forall k :: 0 <= k < |fields| ==> ',' !in fields[k] && '\n' !in fields[k]
    ensures var row := Join(fields);
      && multiset(row)[','] == |fields| - 1 && multiset(row)['\n'] == 1 && row[|row| - 1] == '\n'
  {
    assert ',' !in fields[0] && '\n' !in fields[0];
    if |fields| == 1 {
      assert multiset(fields[0] + "\n") == multiset(fields[0]) + multiset("\n");
    } else {
      JoinShape(fields[1..]);
      var rest := Join(fields[1..]);
      assert multiset(fields[0] + "," + rest) == multiset(fields[0]) + multiset(",") + multiset(rest);
    }
  }

  /** Each row is seven fields: six commas and one line break, at its end. */
  lemma RowShape(fmt: F64 -> string, line: DetectorLine)
    requires PlainNumbers(fmt)
    ensures var row := CsvRow(fmt, line);
      && multiset(row)[','] == 6 && multiset(row)['\n'] == 1 && row[|row| - 1] == '\n'
  {
    JoinShape(Fields(fmt, line));
  }

  /** After the header there is one text line per detector line: each row
      adds one line break, its last character, and six commas, seven fields to
      every line. */
  lemma {:induction false} RowsShape(fmt: F64 -> string, lines: seq<DetectorLine>)
    requires PlainNumbers(fmt)
    ensures var rows := Rows(fmt, lines);
      && multiset(rows)['\n'] == |lines|
      && multiset(rows)[','] == 6 * |lines|
      && (lines != [] ==> rows[|rows| - 1] == '\n')
  {
    if lines != [] {
      var init := lines[..|lines| - 1];
      RowsShape(fmt, init);
      RowShape(fmt, lines[|lines| - 1]);
      var row := CsvRow(fmt, lines[|lines| - 1]);
      assert Rows(fmt, lines) == Rows(fmt, init) + row;
      assert multiset(Rows(fmt, init) + row) == multiset(Rows(fmt, init)) + multiset(row);
    }
  }
}
