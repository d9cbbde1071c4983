/** The editing pass a detector's table runs over its lines on each frame.
    Both copies of `Detector::ui` contain the same pass:
    1. for every line in order, a gamma line picked in the line's selector is
       copied into it, and a click on the line's "X" records its index;
    2. the last recorded line is removed;
    3. "+" appends a default line;
    4. every line's efficiency is recomputed from the source.
    The clicks of one frame are the input of the pass. */
module LineEditing {
  import opened Common
  import opened Float
  import opened DetectorLines
  import opened GammaSources

  /** What the user did to the table in one frame: the gamma line picked in
      each line's selector (if any), which "X" buttons were clicked, and
      whether "+" was clicked. */
  datatype LineEdits = LineEdits(choices: seq<Option<nat>>, removeClicks: seq<bool>, plusClicked: bool)

  /** What the user did to a detector in one frame: its own "X", whether its
      table is open, and the edits made in the table. */
  datatype DetectorInput = DetectorInput(removeClicked: bool, expanded: bool, edits: LineEdits)

  /** One choice and one "X" per line, and only gamma lines the source has
      can be picked. */
  predicate ValidEdits(edits: LineEdits, lineCount: nat, gammaLineCount: nat)
  {
    && |edits.choices| == lineCount && |edits.removeClicks| == lineCount
    && forall k :: 0 <= k < lineCount && edits.choices[k].Some? ==> edits.choices[k].value < gammaLineCount
  }

  /** Picking gamma line `g` for a detector line copies its energy, intensity
      and intensity uncertainty; counts, their uncertainty and the computed
      fields stay as they were. */
  function SelectGammaLine(line: DetectorLine, g: GammaLine): (r: DetectorLine)
    ensures r.energy == g.energy && r.intensity == g.intensity
    ensures r.intensityUncertainty == g.intensityUncertainty
    ensures r.count == line.count && r.uncertainty == line.uncertainty
    ensures r.efficiency == line.efficiency && r.efficiencyUncertainty == line.efficiencyUncertainty
  {
    line.(energy := g.energy, intensity := g.intensity, intensityUncertainty := g.intensityUncertainty)
  }

  /** Step 1 of the pass on every line. */
  function Selected(lines: seq<DetectorLine>, gammaLines: seq<GammaLine>, edits: LineEdits): (r: seq<DetectorLine>)
    requires ValidEdits(edits, |lines|, |gammaLines|)
    ensures |r| == |lines|
  {
    seq(|lines|, k requires 0 <= k < |lines| =>
      if edits.choices[k].Some? then SelectGammaLine(lines[k], gammaLines[edits.choices[k].value]) else lines[k])
  }

  /** Step 4: every line with its efficiency fields recomputed. */
  function Recomputed(m: MathLib, source: GammaSource, lines: seq<DetectorLine>): (r: seq<DetectorLine>)
    reads source
    ensures |r| == |lines|
  {
    seq(|lines|, k requires 0 <= k < |lines| reads source => source.LineEfficiency(m, lines[k]))
  }

  /** The lines after the whole pass. */
  function EditedLines(m: MathLib, source: GammaSource, lines: seq<DetectorLine>, edits: LineEdits): seq<DetectorLine>
    reads source
    requires ValidEdits(edits, |lines|, |source.gammaLines|)
  {
    var selected := Selected(lines, source.gammaLines, edits);
    var kept := RemoveIfSome(selected, LastTrue(edits.removeClicks));
    Recomputed(m, source, if edits.plusClicked then kept + [DefaultLine] else kept)
  }

  /** The `for line in &mut self.lines` loop that recomputes every efficiency. */
  method RecomputeEfficiencies(m: MathLib, source: GammaSource, lines: seq<DetectorLine>) returns (r: seq<DetectorLine>)
    ensures r == Recomputed(m, source, lines)
  {
    r := lines;
    for i := 0 to |r|
      invariant |r| == |lines|
      invariant forall k :: 0 <= k < i ==> r[k] == source.LineEfficiency(m, lines[k])
      invariant forall k :: i <= k < |r| ==> r[k] == lines[k]
    {
      r := r[i := source.LineEfficiency(m, r[i])];
    }
  }

  /** The pass as the table runs it. */
  method EditLines(m: MathLib, source: GammaSource, lines: seq<DetectorLine>, edits: LineEdits)
    returns (r: seq<DetectorLine>)
    requires ValidEdits(edits, |lines|, |source.gammaLines|)
    ensures r == EditedLines(m, source, lines, edits)
  {
    var rows := lines;
    var indexToRemove: Option<nat> := None;
    for i := 0 to |rows|
      invariant |rows| == |lines|
      invariant forall k :: 0 <= k < i ==> rows[k] == Selected(lines, source.gammaLines, edits)[k]
      invariant forall k :: i <= k < |rows| ==> rows[k] == lines[k]
      invariant indexToRemove == LastTrue(edits.removeClicks[..i])
    {
      assert edits.removeClicks[..i + 1][..i] == edits.removeClicks[..i];
      if edits.choices[i].Some? {
        rows := rows[i := SelectGammaLine(rows[i], source.gammaLines[edits.choices[i].value])];
      }
      if edits.removeClicks[i] {
        indexToRemove := Some(i);
      }
    }
    assert edits.removeClicks[..|rows|] == edits.removeClicks;
    assert rows == Selected(lines, source.gammaLines, edits);
    if indexToRemove.Some? {
      rows := RemoveAt(rows, indexToRemove.value);
    }
    if edits.plusClicked {
      rows := rows + [DefaultLine];
    }
    r := RecomputeEfficiencies(m, source, rows);
  }

  /** Recomputing a line whose efficiency was already recomputed changes nothing. */
  lemma LineEfficiencyIdempotent(m: MathLib, source: GammaSource, line: DetectorLine)
    ensures source.LineEfficiency(m, source.LineEfficiency(m, line)) == source.LineEfficiency(m, line)
  {
  }

  /** What one pass does to the table:
      - without an "X" click no line goes; with clicks exactly one goes, the
        last one clicked, and the lines after it move up by one;
      - every remaining line carries its own inputs, with the picked gamma
        line's energy and intensities copied in;
      - "+" adds one line at the end whose inputs are all zero;
      - every line's efficiency fields agree with its inputs and the source. */
  lemma {:induction false} EditPass(m: MathLib, source: GammaSource, lines: seq<DetectorLine>, edits: LineEdits)
    requires ValidEdits(edits, |lines|, |source.gammaLines|)
    ensures var r := EditedLines(m, source, lines, edits);
      var removed := LastTrue(edits.removeClicks);
      var selected := Selected(lines, source.gammaLines, edits);
      var kept := |lines| - (if removed.Some? then 1 else 0);
      && |r| == kept + (if edits.plusClicked then 1 else 0)
      && (removed.Some? ==> removed.value < |lines| && edits.removeClicks[removed.value]
                            && forall k :: removed.value < k < |lines| ==> !edits.removeClicks[k])
      && (forall k :: 0 <= k < kept ==>
            Inputs(r[k]) == Inputs(selected[if removed.Some? && removed.value <= k then k + 1 else k]))
      && (edits.plusClicked ==> Inputs(r[|r| - 1]) == Inputs(DefaultLine))
      && (forall k :: 0 <= k < |r| ==> source.LineEfficiency(m, r[k]) == r[k])
  {
    var r := EditedLines(m, source, lines, edits);
    var removed := LastTrue(edits.removeClicks);
    var selected := Selected(lines, source.gammaLines, edits);
    var kept := RemoveIfSome(selected, removed);
    var grown := if edits.plusClicked then kept + [DefaultLine] else kept;
    assert r == Recomputed(m, source, grown);
    forall k | 0 <= k < |r|
      ensures source.LineEfficiency(m, r[k]) == r[k]
    {
      LineEfficiencyIdempotent(m, source, grown[k]);
    }
    forall k | 0 <= k < |kept|
      ensures Inputs(r[k]) == Inputs(selected[if removed.Some? && removed.value <= k then k + 1 else k])
    {
      assert grown[k] == kept[k];
    }
  }
}
