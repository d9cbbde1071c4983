# cebra_efficiency: a Dafny model of the efficiency calibration core

cebra_efficiency is a desktop tool for calibrating the detection efficiency of
gamma detectors. The user describes a calibration source: its gamma lines,
its half-life, and its activity on a calibration date and on the measurement
date. For each detector the user types in the counts seen in each gamma line.
The tool computes an efficiency per line. Per detector name, it then fits
y = a·exp(-x/b) or y = a·exp(-x/b) + c·exp(-x/d) to the efficiencies and
draws the fit with a one-sigma confidence band.

The repository holds two copies of most of this logic:

- an older tree (`src/*.rs`), modelled by the `Legacy*` modules;
- a newer tree (`src/efficiency_fitter/*.rs`), modelled by the `Efficiency*` modules.

Each copy is modelled as written. How far the two trees agree is proved by
`LegacyExpFitter.TreesAgree`: they accept the same solver results and report the
same parameters and curve. They differ only in the band's scale factor, which the
`SingleFitOutcomeValue` and `DoubleFitOutcomeValue` lemmas of each tree state.

Modules:

- `Float`: the `f64` values the program computes. Finite values are exact reals. Infinities and NaN follow IEEE 754. `exp` and `sqrt` are parameters (`MathLib`) with a few laws (`Lawful`).
- `Common`: `Vec::remove`, and the "remember the last flagged index" scan that the user-interface loops run.
- `GammaSources`: the `GammaSource` class, its presets, its activity and efficiency arithmetic, and its marker names.
- `DetectorLines`, `LineEditing`: a detector's table of lines, and the editing pass `Detector::ui` runs over it in each frame. The pass copies a selected gamma line into a row, removes the last row whose "X" was clicked, appends a row on "+", and recomputes every efficiency.
- `EfficiencyDetector`, `LegacyDetector`: the two `Detector` records, their frame, `remove_line`, the plot points and the CSV export.
- `FitCurves`: everything both fitters compute once the solver has returned.
  - It covers parameter packing, reduced chi-squared, the sample grid, the curve, the Jacobian, the band as t·sqrt(scale·JᵀCJ), and the upper and lower curves.
  - The solver and Student's t distribution are inputs (`SolverOutcome`, `TDistribution`). They are constrained only by the shapes their libraries promise (`WellShaped`, `LawfulT`).
- `EfficiencyExpFitter`, `LegacyExpFitter`: the `ExpFitter` classes with their reset-then-fit methods, and the fit buttons that replace a detector's fitter.
- `Registry`: the per-detector-name fit registry.
  - `Synchronized` is its invariant: one fitter per detector name, each holding its name's data.
  - `CollectData` and `CollectNamesAndData` are the nested loops that compute that data.
- `EfficiencyMeasurements`, `LegacyMeasurements`: `Measurement`, one frame of `measurement_ui`, and the `MeasurementHandler` class with `synchronize_detectors`, `get_detector_data_from_measurements` and `remove_measurement`.

State the source mutates in place is modelled as classes with `modifies` clauses: `GammaSource`, both `ExpFitter`s and both `MeasurementHandler`s. Values the source keeps by value in `Vec`s and maps are datatypes: `Measurement`, `Detector`, `DetectorLine` and `Fitter`.

## Model

| member | source | states |
|---|---|---|
| Common.RemoveAt | src/detector.rs:122-124 | Removing element i shortens the sequence by one. Elements before i stay in place, those after move up by one, and the multiset loses exactly the removed element. |
| Common.RemoveAtBeforePush | src/efficiency_fitter/measurements.rs:45-51 | Removing an index recorded before a push at the end gives the same rows as removing first and then pushing. |
| Common.LastTrue | src/detector.rs:70-99 | The remembered index is None iff no row is flagged. Otherwise it is a flagged row with no flagged row after it. |
| Common.FindLastFlagged | src/efficiency_fitter/measurements.rs:33-41 | The enumerate-and-overwrite loop ends with the last flagged index (`LastTrue`). |
| Common.RemoveIfSome | src/detector.rs:104-106 | With no recorded index the rows are unchanged; with one, exactly that row is removed. |
| DetectorLines.Inputs | src/efficiency_fitter/detector.rs:6-14 | The user-entered part of a line has zero computed fields. Putting the line's own computed fields back gives the line again. |
| GammaSources.FromYmdOpt | src/gamma_source.rs:78 | A date exists iff the month is 1..12 and the day lies within the month's length, leap years included. Its value is a day count whose consecutiveness `NextDayInMonth`, `NextMonth` and `NextYear` prove. |
| GammaSources.LeapFebruary | src/gamma_source.rs:78 | February of year y has 29 days iff y is a Gregorian leap year. |
| GammaSources.NextDayInMonth | src/gamma_source.rs:126-127 | Within a month, the date of the next day has the next day number, so a difference of day numbers counts days. |
| GammaSources.NextMonth | src/gamma_source.rs:126-127 | The first of the next month is one day after the last day of a month. |
| GammaSources.NextYear | src/gamma_source.rs:126-127 | 1 January of year y+1 is one day after 31 December of year y, leap years included. |
| GammaSources.CalibrationDatesApart | src/gamma_source.rs:78-100 | The two preset calibration dates, 2017-03-17 and 2022-04-18, are 1858 days apart. |
| GammaSources.ShapeOfName | src/gamma_source.rs:320-333 | A name is accepted only when it is the name of a shape, and it maps to that shape. A name that belongs to no shape is the panic case. |
| GammaSources.ShapeNameRoundTrip | src/gamma_source.rs:252-268 | Each of the ten names the marker selector offers is accepted and maps back to its own shape. |
| GammaSources.GammaSource.constructor | src/gamma_source.rs:60-71 | A new source: empty name, no lines, half-life 0, default activities, time 0, marker "circle" of size 5. |
| GammaSources.GammaSource.AddGammaLine | src/gamma_source.rs:109-117 | The new line is appended at the end, the existing lines are unchanged, and no other field is written. |
| GammaSources.GammaSource.RemoveGammaLine | src/gamma_source.rs:316-318 | Exactly line i is removed, the others keep their order, and no other field is written. |
| GammaSources.GammaSource.Fsu152EuSource | src/gamma_source.rs:73-91 | Name, half-life 13.517 and the calibration (74.370 kBq on 2017-03-17) are overwritten. The 11 lines are appended to the existing ones, so a second call duplicates them. The measurement fields and the marker are kept. |
| GammaSources.GammaSource.Fsu56CoSource | src/gamma_source.rs:93-107 | The same preset for 56Co: half-life 77.236/365.25 years, 108 kBq on 2022-04-18, 5 lines appended. |
| GammaSources.GammaSource.CalculateSourceActivityForMeasurement | src/gamma_source.rs:119-133 | It panics iff either date is unset, and then nothing is written. Otherwise only the measurement activity changes: calibration kBq·1000·exp(-(0.693/(half-life·365.25))·signed days). |
| GammaSources.GammaSource.LineEfficiency | src/gamma_source.rs:135-155 | Only a line's two computed fields are written. The efficiency is counts/(intensity·activity·hours·3600·0.01)·100, and its uncertainty is the efficiency times the quadrature sum of the relative uncertainties. |
| GammaSources.GammaSource.ToEguiMarkerShape | src/gamma_source.rs:320-333 | A shape is returned iff the marker name is the name of some shape, and then it is that shape; otherwise it is the panic case. |
| GammaSources.PresetSizes | src/gamma_source.rs:73-107 | The presets add 11 and 5 lines, and both calibration dates exist. |
| GammaSources.NewSourceMarkerRejected | src/gamma_source.rs:320-333 | The lower-case "circle" a new source carries is rejected by the marker conversion, which is the panic case. |
| GammaSources.SameDayActivity | src/gamma_source.rs:125-130 | On the calibration day the activity is exactly the calibration activity in Bq, given exp(0) = 1. |
| GammaSources.ActivityPositive | src/gamma_source.rs:119-133 | With a non-zero half-life and a positive calibration activity, the activity on any date, before or after calibration, is finite and positive. |
| GammaSources.ZeroHalfLifeActivity | src/gamma_source.rs:123-130 | With half-life 0 (a new source) the decay constant is infinite. The activity is 0 after calibration and NaN on the calibration day. |
| GammaSources.EfficiencyMeaning | src/gamma_source.rs:140-146 | Efficiency (percent) times the gammas emitted during the run equals 100 × counts. |
| GammaSources.ZeroIntensityEfficiency | src/gamma_source.rs:146 | A line whose intensity is still 0 has efficiency NaN without counts and an infinite efficiency with counts. |
| GammaSources.ActivityTermDropsOut | src/gamma_source.rs:137-151 | With a non-zero activity, the fixed zero activity uncertainty drops out of the quadrature sum. With a zero activity the result is NaN. |
| GammaSources.UncertaintyNonNegative | src/gamma_source.rs:147-151 | For non-zero counts, intensity and activity, a non-negative efficiency has a finite non-negative uncertainty. |
| LineEditing.SelectGammaLine | src/detector.rs:85-90 | Selecting a gamma line copies its energy, intensity and intensity uncertainty. Counts, their uncertainty and the computed fields stay as they were. |
| LineEditing.Selected | src/efficiency_fitter/detector.rs:96-120 | The selection step keeps one row per line. |
| LineEditing.Recomputed | src/detector.rs:116-118 | The recompute step keeps one row per line. |
| LineEditing.RecomputeEfficiencies | src/efficiency_fitter/detector.rs:142-144 | The in-place loop leaves every line recomputed from the source (`Recomputed`). |
| LineEditing.EditLines | src/detector.rs:70-118 | The table loop, the removal, the "+" push and the recompute loop together give `EditedLines`. |
| LineEditing.LineEfficiencyIdempotent | src/gamma_source.rs:135-155 | Recomputing an already recomputed line changes nothing. |
| LineEditing.EditPass | src/efficiency_fitter/detector.rs:95-144 | Without an "X" click no row goes; with clicks only the last clicked row goes and later rows move up. Every other row keeps its inputs plus the picked gamma line's fields. "+" adds an all-zero row at the end. Every efficiency agrees with its inputs and the source. |
| EfficiencyDetector.Ui | src/efficiency_fitter/detector.rs:66-146 | A detector's frame: the "X" sets the removal flag, and an open table runs the editing pass (`Pass`). |
| EfficiencyDetector.PassEffect | src/efficiency_fitter/detector.rs:66-146 | A frame keeps the names. The flag is set iff this frame's or an earlier click set it, and nothing clears it. A closed table keeps its lines. |
| EfficiencyDetector.RemoveLine | src/efficiency_fitter/detector.rs:148-150 | Exactly line i is removed: the lines before it are unchanged, those after it move up, and the other fields stay. |
| EfficiencyDetector.GetDetectorPoints | src/efficiency_fitter/detector.rs:152-157 | There is one plot point per line. |
| EfficiencyDetector.PointsAreFitData | src/efficiency_fitter/detector.rs:152-157 | Point k is (energy, efficiency) of line k: the same x and y that line contributes to the fit data. |
| EfficiencyDetector.Fields | src/efficiency_fitter/detector.rs:191-199 | A row has seven fields. |
| EfficiencyDetector.LinesCsv | src/efficiency_fitter/detector.rs:185-204 | The push loop builds the fixed header followed by the rows of the lines, in line order. |
| EfficiencyDetector.JoinShape | src/efficiency_fitter/detector.rs:191-192 | Joining n fields that contain no commas or line breaks writes n-1 commas and one line break, which is the last character. |
| EfficiencyDetector.RowShape | src/efficiency_fitter/detector.rs:190-200 | Each row has six commas and ends with its only line break. |
| EfficiencyDetector.RowsShape | src/efficiency_fitter/detector.rs:185-204 | After the header there are exactly as many text lines as detector lines, each with seven fields. |
| LegacyDetector.Ui | src/detector.rs:44-120 | A detector's frame in the older tree: the "X" sets the removal flag, and an open table runs the editing pass. |
| LegacyDetector.PassEffect | src/detector.rs:44-120 | A frame keeps the name and the fit slot. The flag is set iff this frame's or an earlier click set it. A closed table keeps its lines. |
| LegacyDetector.RemoveLine | src/detector.rs:122-124 | Exactly line i is removed: the others keep their order, and the name, fit slot and flag stay. |
| FitCurves.Grid | src/efficiency_fitter/exp_fitter.rs:175-193 | The grid of n steps has n+1 points. |
| FitCurves.SingleCurve | src/efficiency_fitter/exp_fitter.rs:186-193 | The curve has one point per grid point. |
| FitCurves.DoubleCurve | src/efficiency_fitter/exp_fitter.rs:402-410 | The curve has one point per grid point. |
| FitCurves.SingleJacobian | src/efficiency_fitter/exp_fitter.rs:200-201 | The Jacobian has two entries, ∂/∂a and ∂/∂b. |
| FitCurves.DoubleJacobian | src/efficiency_fitter/exp_fitter.rs:417-427 | The Jacobian has four entries, ∂/∂a, ∂/∂c, ∂/∂b and ∂/∂d. |
| FitCurves.Upper | src/efficiency_fitter/exp_fitter.rs:223-229 | The upper curve has as many points as the fit curve. |
| FitCurves.Lower | src/efficiency_fitter/exp_fitter.rs:215-221 | The lower curve has as many points as the fit curve. |
| FitCurves.MaxXIsMaximum | src/efficiency_fitter/exp_fitter.rs:178 | The max fold from -∞ yields the largest x, which is one of the xs. With no data it stays -∞. |
| FitCurves.GridPoints | src/efficiency_fitter/exp_fitter.rs:175-193 | Grid point i is start + i·(max x + 1000 - start)/n. The grid starts at `start` and ends 1000 past the largest x. |
| FitCurves.SingleBandIsQuadraticForm | src/efficiency_fitter/exp_fitter.rs:204-210 | The four hand-written band terms add up to t·sqrt(scale·JᵀCJ), with C read by flat index. |
| FitCurves.DoubleBandIsQuadraticForm | src/efficiency_fitter/exp_fitter.rs:430-448 | The sixteen hand-written band terms add up to t·sqrt(scale·JᵀCJ). |
| FitCurves.JacobianMatchesModel | src/efficiency_fitter/exp_fitter.rs:417-427 | The band's Jacobian is the model's derivative: the basis function and a (or c) times the derivative function given to the solver. |
| FitCurves.JacobianFromSolverVectors | src/efficiency_fitter/exp_fitter.rs:34-44 | At every x, the band's Jacobian entries are the entries of the vectors given to the solver: `exponential` for ∂/∂a (and ∂/∂c), and a (or c) times `exponential_pd_b` (or `exponential_pd_d`) for ∂/∂b (and ∂/∂d). |
| FitCurves.HalfWidthNonNegative | src/efficiency_fitter/exp_fitter.rs:204-210 | A finite non-negative t and quadratic form give a finite non-negative half-width. |
| FitCurves.EnvelopeBrackets | src/efficiency_fitter/exp_fitter.rs:215-229 | The upper and lower curves pair with the fit curve point by point (same length, same x). Where the curve is finite and the band finite and non-negative: lower ≤ curve ≤ upper. |
| FitCurves.Brackets | src/efficiency_fitter/exp_fitter.rs:215-229 | A finite value minus and plus a finite non-negative width brackets the value. |
| FitCurves.SingleFittedShape | src/efficiency_fitter/exp_fitter.rs:152-233 | A single fit packs one term. Its curve, upper and lower each have 2001 points with the x of the grid from 1. |
| FitCurves.DoubleFittedShape | src/efficiency_fitter/exp_fitter.rs:354-472 | A double fit packs two terms. Its three curves each have 1001 points with the x of the grid from 0. |
| FitCurves.SingleBandAt | src/efficiency_fitter/exp_fitter.rs:195-213 | The single band at grid point i is t·sqrt(scale·variance at i). |
| FitCurves.DoubleBandAt | src/efficiency_fitter/exp_fitter.rs:412-452 | The double band at grid point i is t·sqrt(scale·variance at i). |
| FitCurves.SingleEdgesAt | src/efficiency_fitter/exp_fitter.rs:215-229 | The single fit's upper and lower edges at point i are the curve value ± t·sqrt(scale·variance). |
| FitCurves.DoubleEdgesAt | src/efficiency_fitter/exp_fitter.rs:454-468 | The double fit's upper and lower edges at point i are the curve value ± t·sqrt(scale·variance). |
| FitCurves.SingleBandBrackets | src/efficiency_fitter/exp_fitter.rs:195-229 | For finite t ≥ 0, wherever the curve is finite and the scaled variance finite and ≥ 0: lower ≤ curve ≤ upper. |
| FitCurves.DoubleBandBrackets | src/efficiency_fitter/exp_fitter.rs:412-468 | The same bracket for the double fit. |
| FitCurves.ReducedChiSquaredNonNegative | src/efficiency_fitter/exp_fitter.rs:111-119 | With finite residuals and dof > 0, Σ residual²/dof is finite and non-negative. |
| Registry.LinesData | src/efficiency_fitter/measurements.rs:142-146 | The three data sequences have one entry per line. |
| Registry.MatchingAppend | src/efficiency_fitter/measurements.rs:140-147 | The lines of the detectors with a name, over two runs of detectors, are those of the first run followed by those of the second. |
| Registry.FlattenAppend | src/efficiency_fitter/measurements.rs:139-140 | Flattening two lists of measurements gives the detectors of the first list followed by those of the second. |
| Registry.DataOrdered | src/efficiency_fitter/measurements.rs:139-149 | A name's data over measurements followed by more measurements is the first part's data followed by the rest's: measurement order is kept. |
| Registry.DataPoints | src/efficiency_fitter/measurements.rs:134-151 | The three sequences have equal length: the number of lines of all detectors with that name. Entry k is (energy, efficiency, 1/efficiency uncertainty) of the k-th such line. |
| Registry.MatchingCount | src/measurements.rs:116-134 | The collected lines of a name number exactly its detectors' lines, summed over measurements. |
| Registry.MatchingInCount | src/measurements.rs:122-129 | The same count within one measurement. |
| Registry.FlattenMember | src/efficiency_fitter/measurements.rs:102-103 | A detector is in the flattened list iff it is detector j of measurement i for some i and j. |
| Registry.NamesMember | src/efficiency_fitter/measurements.rs:101-109 | A name is a registry name iff some detector of some measurement carries it. |
| Registry.UnknownNameNoData | src/efficiency_fitter/measurements.rs:134-151 | A name no detector carries has empty data. |
| Registry.NoMatch | src/measurements.rs:116-134 | No detector in a list carries the name, so no line is collected. |
| Registry.SyncIdempotent | src/efficiency_fitter/measurements.rs:96-132 | Two registries that are both synchronised with the same measurements, where one keeps the other's survivors, are equal. So a second synchronisation changes nothing. |
| Registry.LinesDataSnoc | src/efficiency_fitter/measurements.rs:142-146 | Pushing one line's energy, efficiency and weight extends the data by that line. |
| Registry.PrefixStep | src/efficiency_fitter/measurements.rs:102-103 | The detectors seen so far grow by one detector per inner step. |
| Registry.PrefixDone | src/efficiency_fitter/measurements.rs:102-103 | Finishing a measurement's detectors completes the prefix up to the next measurement. |
| Registry.CollectData | src/efficiency_fitter/measurements.rs:134-152 | The three nested loops collect exactly the specified data of the name (`Data`). |
| Registry.CollectNamesAndData | src/efficiency_fitter/measurements.rs:97-109 | The first loop builds the set of all detector names and, for each name exactly, its data. |
| Registry.NamesSnoc | src/measurements.rs:84-90 | Inserting one more detector adds its name to the set of names. |
| Registry.RemoveStale | src/efficiency_fitter/measurements.rs:125-131 | The removal loop keeps exactly the keys that are current names, and their entries unchanged. |
| EfficiencyMeasurements.NewMeasurement | src/efficiency_fitter/measurements.rs:18-23 | A measurement has the given source (or a new one when none is given) and no detectors. |
| EfficiencyMeasurements.PassAll | src/efficiency_fitter/measurements.rs:35-41 | Every detector goes through its own frame, and the count is unchanged. |
| EfficiencyMeasurements.Flagged | src/efficiency_fitter/measurements.rs:38-40 | There is one removal flag per detector. |
| EfficiencyMeasurements.MeasurementUi | src/efficiency_fitter/measurements.rs:25-55 | The frame loop, the "Add Detector" push and the removal together give `MeasurementPass`. Nothing happens when the section is closed or the source has no lines. |
| EfficiencyMeasurements.MeasurementPassEffect | src/efficiency_fitter/measurements.rs:33-51 | At most one detector is removed per frame: the last flagged one. The count changes by -1 and/or +1. A detector added in the same frame comes last and does not shift the removed index. |
| EfficiencyMeasurements.Entries | src/efficiency_fitter/measurements.rs:102-104 | The registry sees every measurement and each of its detectors. |
| EfficiencyMeasurements.RefreshFits | src/efficiency_fitter/measurements.rs:111-123 | The keys become the old keys plus the names. A name already present keeps everything except name and data. A new name gets a fresh, unfitted default fitter with zero guesses. Other keys are untouched. |
| EfficiencyMeasurements.MeasurementHandler.constructor | src/efficiency_fitter/measurements.rs:88-94 | A new handler has no measurements and no fitters. |
| EfficiencyMeasurements.MeasurementHandler.GetDetectorDataFromMeasurements | src/efficiency_fitter/measurements.rs:134-152 | The result is the name's data over all measurements (`Registry.Data`). |
| EfficiencyMeasurements.MeasurementHandler.SynchronizeDetectors | src/efficiency_fitter/measurements.rs:96-132 | After the call the keys are exactly the detector names, and each fitter holds its key and its data. Survivors keep their fitter and guesses. New names get an unfitted default fitter. An already synchronised registry is unchanged, and the measurements are untouched. |
| EfficiencyMeasurements.MeasurementHandler.RemoveMeasurement | src/efficiency_fitter/measurements.rs:188-190 | Exactly measurement i is removed, the others keep their order, and the fitters are untouched. |
| LegacyMeasurements.NewMeasurement | src/measurements.rs:18-23 | A measurement has the given source (or a new one) and no detectors. |
| LegacyMeasurements.PassAll | src/measurements.rs:35-41 | Every detector goes through its own frame, and the count is unchanged. |
| LegacyMeasurements.Flagged | src/measurements.rs:38-40 | There is one removal flag per detector. |
| LegacyMeasurements.MeasurementUi | src/measurements.rs:25-55 | The frame loop, the push and the removal together give `MeasurementPass`. |
| LegacyMeasurements.MeasurementPassEffect | src/measurements.rs:33-51 | At most the last flagged detector is removed, and a detector added in the same frame does not shift the removed index. |
| LegacyMeasurements.Entries | src/measurements.rs:84-90 | The registry sees every measurement and each of its detectors. |
| LegacyMeasurements.RefreshFits | src/measurements.rs:93-105 | The keys become the old keys plus the names. Survivors keep everything except name and data. A new name gets a default fitter with no exponential fitter and zero guesses. |
| LegacyMeasurements.MeasurementHandler.constructor | src/measurements.rs:72-77 | A new handler has no measurements and no fitters. |
| LegacyMeasurements.MeasurementHandler.GetDetectorDataFromMeasurements | src/measurements.rs:116-134 | The result is the name's data over all measurements. |
| LegacyMeasurements.MeasurementHandler.SynchronizeDetectors | src/measurements.rs:79-114 | The keys are exactly the detector names, each with its key and data. Survivors keep their fit slot and guesses. New names have no exponential fitter. It is idempotent. |
| LegacyMeasurements.MeasurementHandler.RemoveMeasurement | src/measurements.rs:176-178 | Exactly measurement i is removed, the others keep their order, and the fitters are untouched. |
| EfficiencyExpFitter.ExpFitter.constructor | src/efficiency_fitter/exp_fitter.rs:22-32 | A new fitter holds the data, nothing fitted, and the line `EguiLine::new(BLUE)`, assumed to be unnamed (see Left out). |
| EfficiencyExpFitter.ExpFitter.Default | src/efficiency_fitter/exp_fitter.rs:9 | A default fitter has no data, nothing fitted and a default line, assumed to be unnamed (see Left out). |
| EfficiencyExpFitter.ExpFitter.SingleExpFit | src/efficiency_fitter/exp_fitter.rs:46-235 | The data and line colours are kept, and the line is named. After a failure the fitter has no parameters and no band, but keeps the previous curve. After success it has one term, the curve and the band. |
| EfficiencyExpFitter.ExpFitter.DoubleExpFit | src/efficiency_fitter/exp_fitter.rs:237-474 | The same for the double fit. |
| EfficiencyExpFitter.SingleExpFitButton | src/efficiency_fitter/exp_fitter.rs:580-591 | A click puts in place a fresh fitter on the detector's data, fitted once. Its line is named "<name> Fit" with the old colours. Name, data and guesses stay. Without a click nothing changes. |
| EfficiencyExpFitter.DoubleExpFitButton | src/efficiency_fitter/exp_fitter.rs:593-604 | The same with the double fit and both guesses. |
| EfficiencyExpFitter.SingleFitResult | src/efficiency_fitter/exp_fitter.rs:68-173 | A single fit fails iff the solver returns no statistics, there are at most 2 points (dof = n-2 ≤ 0), or there are no linear coefficients. A success packs (value, sqrt(variance)) and has 2001 points per curve. |
| EfficiencyExpFitter.DoubleFitResult | src/efficiency_fitter/exp_fitter.rs:261-390 | The double dof is n minus the 4 reported parameters, so the fit fails iff there are no statistics, no linear coefficients, or at most 4 points. A success has two terms and 1001 points per curve. |
| EfficiencyExpFitter.DoubleFitShape | src/efficiency_fitter/exp_fitter.rs:354-410 | A successful double fit packs both terms and has 1001 points on each curve, at the same x. |
| EfficiencyExpFitter.DoubleFitFails | src/efficiency_fitter/exp_fitter.rs:307-347 | The failure cases of the double fit, both directions. |
| EfficiencyExpFitter.SingleBandAroundCurve | src/efficiency_fitter/exp_fitter.rs:195-229 | With the scale fixed at 1: where the curve is finite and JᵀCJ is finite and ≥ 0, lower ≤ curve ≤ upper. |
| EfficiencyExpFitter.DoubleBandAroundCurve | src/efficiency_fitter/exp_fitter.rs:412-468 | The same for the double fit. |
| EfficiencyExpFitter.DoubleFitOutcomeValue | src/efficiency_fitter/exp_fitter.rs:316-347 | A successful double fit is the fitted result for the t value of n minus the reported parameter count. |
| LegacyExpFitter.ExpFitter.constructor | src/exp_fitter.rs:26-38 | A new fitter holds the data, no parameters, an empty label, no curves, and light blue. |
| LegacyExpFitter.ExpFitter.SingleExpFit | src/exp_fitter.rs:56-246 | Parameters, label, curve and band are cleared on entry. A failure leaves them all cleared. A success draws one term, with the label describing it. |
| LegacyExpFitter.ExpFitter.DoubleExpFit | src/exp_fitter.rs:248-467 | Only the parameters and the label are cleared. A failed double fit keeps the previous curve and band without parameters. A success draws two terms, with the label describing them. |
| LegacyExpFitter.FitterUi | src/exp_fitter.rs:557-575 | Each click stores a fresh fitter (present even if the fit fails) on the detector's data, and its fit shows or clears the result. "Double" runs after "Single". Without a click nothing changes. |
| LegacyExpFitter.LabelEmptyIffUnfitted | src/exp_fitter.rs:163-185 | The label is empty exactly when there are no parameters. |
| LegacyExpFitter.TreesAgree | src/exp_fitter.rs:128-130 | Both trees accept and reject the same solver results. On success they report the same parameters and the same curve, so they differ only in the band's scale factor. |
| LegacyExpFitter.SingleBandAroundCurve | src/exp_fitter.rs:207-244 | With the band scaled by the reduced chi-squared of finite residuals: lower ≤ curve ≤ upper wherever the curve is finite and JᵀCJ is finite and ≥ 0. |
| LegacyExpFitter.DoubleBandAroundCurve | src/exp_fitter.rs:413-465 | The same for the double fit with dof = n - 4. |
| LegacyExpFitter.SingleFitOutcomeValue | src/exp_fitter.rs:128-185 | A successful single fit is the fitted result for t and the reduced chi-squared of n-2 dof. |
| LegacyExpFitter.DoubleFitOutcomeValue | src/exp_fitter.rs:320-391 | A successful double fit is the fitted result for t and the reduced chi-squared of n-4 dof. |

## Left out

- The separable least-squares solver (building the model and the problem, Levenberg–Marquardt): its outcome is an input value, `SolverOutcome`, that only has the sizes the library promises. Convergence is not specified.
- `erf` and `StudentsT::inverse_cdf`: the one-sigma t value is an input function of the degrees of freedom, refused exactly for dof ≤ 0 and otherwise finite and non-negative.
- `f64` rounding, overflow and signed zero: finite values are exact reals. `exp` and `sqrt` are parameters with a few laws, and `powi(2)` is a product.
- `chrono` dates: a date is an integer day number of the proleptic Gregorian calendar, so the signed day difference is a subtraction.
- All drawing and widgets: `draw`, `draw_fit_line`, `menu_button`, `context_menu`, `plot`, `source_ui`, `update_ui`, `fit_detectors_ui`, the polygon splitting, and the drag values with their clamps. They are presentation over egui. A frame's clicks and selections are an input value (`DetectorInput`, `MeasurementInput`).
- The detector-name text field: the name is kept as it is, so a rename typed in a frame is not modelled.
- `Display` formatting in `lines_csv` and in the fit labels: it is a parameter `fmt` of the functions that need it, with only the row and field structure modelled.
- src/app.rs, src/main.rs, src/lib.rs, src/egui_plot_stuff/plot_settings.rs, egui_points.rs and egui_line.rs are not part of this model: file dialogs, persistence, start-up, module wiring and plot settings. Of `EguiLine`, only the name, points and colours that the fitter reads and writes are kept.
- src/gamma_line.rs duplicates `GammaLine` and adds only UI.
- src/efficiency_fitter/gamma_source.rs is not part of this model. The newer tree is taken to use the `GammaSource` of src/gamma_source.rs.
- `GammaSource` has no `Default` implementation in src/gamma_source.rs. `Measurement::new(None)` is modelled as building `GammaSource::new()`.
- Measurement ownership: a `Measurement` refers to a `GammaSource` object, while Rust owns its source by value. Aliasing between measurements that share a source object is not excluded.
- The older tree's `draw_fit_line` is called with three arguments (src/measurements.rs:263) but defined with two (src/exp_fitter.rs:469). Both are drawing code and are left out as written.
- HashMap and HashSet iteration order: the loops over names and keys visit them in an arbitrary order (`:|`). The contracts hold for every order.
- Logging calls, the fit-parameter display in `Fitter::ui`, and the fit string that the newer tree formats but never stores.
- `GammaSources.GammaSource.CalculateSourceActivityForMeasurement`: the decay constant uses 0.693 as written, not ln 2. A panic from `unwrap` is reported as `panicked` with nothing written, rather than ending the program.
- `EfficiencyExpFitter.ExpFitter.constructor`: the fit line of `ExpFitter::new` is `EguiLine::new(BLUE)`, whose body is not part of this model. That it starts with the name "" and with both colours set to the given one is assumed.
- `EfficiencyExpFitter.ExpFitter.Default`: the fit line of the derived `Default` is `EguiLine::default()`, whose body is not part of this model. That it starts with the name "" (and, in the body, blue colours) is assumed.
- `Float.Sum`: additions run from the left starting at 0.0, whereas the source's `+` chain has no leading zero. Without signed zero these agree.
- `EfficiencyMeasurements.RefreshFits` and `LegacyMeasurements.RefreshFits` build the new map as a value that `SynchronizeDetectors` then assigns. Updating the `HashMap` entry in place is not modelled separately.

Three facts about the code that the model follows:

- The older tree scales the band by the computed reduced chi-squared. The newer tree fixes that factor at 1.
- The older tree's double fit takes dof = n - 4 outright.
- There is no standalone confidence half-width function at an arbitrary x. The band is only computed on the sample grid.
