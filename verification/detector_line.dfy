/** The row of a detector's table: one gamma line as one detector saw it.
    Both copies of the detector code declare the same record (only the field
    order differs), so it is declared once here. */
module DetectorLines {
  import opened Float

  /** Energy in keV, counts and their uncertainty, the gamma line's intensity
      and its uncertainty in percent are typed in by the user; the efficiency
      and its uncertainty (in percent) are computed from the source. */
  datatype DetectorLine = DetectorLine(
    energy: real,
    count: real,
    uncertainty: real,
    intensity: real,
    intensityUncertainty: real,
    efficiency: F64,
    efficiencyUncertainty: F64)

  /** `DetectorLine::default()`: every field zero. */
  const DefaultLine := DetectorLine(0.0, 0.0, 0.0, 0.0, 0.0, Finite(0.0), Finite(0.0))

  /** The user-entered part of a line: everything but the two computed fields. */
  function Inputs(line: DetectorLine): (r: DetectorLine)
    ensures r.efficiency == Finite(0.0) && r.efficiencyUncertainty == Finite(0.0)
    ensures r.(efficiency := line.efficiency, efficiencyUncertainty := line.efficiencyUncertainty) == line
  {
    line.(efficiency := Finite(0.0), efficiencyUncertainty := Finite(0.0))
  }
}
