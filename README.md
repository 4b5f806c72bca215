# jomt chart core in Dafny

jomt plots the results of Google Benchmark runs. This project models the parts of it that decide what a chart shows:

- **Statistics helpers** (`src/plot_parameters.h`): the Y-value and Y-title selectors, microsecond normalisation, the range median and the box-plot statistics. The statistics sort the record's samples in place and use the exclusive-median quartile split. The header also holds the common-prefix test for label lists.
- **Label folds**: the plain fold (`src/plotter_barchart.cpp`, and the no-Z branch of `src/plotter_3dbars.cpp`) and the sticky-flag fold (the Z branch of `src/plotter_3dbars.cpp`). Both merge the X (and Z) labels of several grouped subsets into one axis.
- **Series construction**:
  - 2D bar charts, vertical or horizontal;
  - 3D bar charts, with and without a Z parameter, including the numbered fallback range of the X axis;
  - 3D surfaces: the shape admission check, the fallback Z ordinals, and in-place filling of row buffers.
- **The results selector** (`src/result_selector.cpp`):
  - tri-state check propagation on a tree of `TreeItem` objects, and the enable rule of the Plot button;
  - the walk that collects the checked records;
  - the chart types, tree columns and X/Z combos offered for a result set;
  - the rule that keeps X and Z apart.

Modules follow the source files:

- `NumberText`: decimal rendering of `QString::number` on integers.
- `SampleSort`: `qSort` as a sorted permutation.
- `PlotParameters`.
- `ChartInput`: what the chart builders receive.
- `LabelReconcile`: both folds.
- `BarChart`, `Bars3D`, `Surface3D`, `ResultSelector`.

Where the source loops and updates variables, the model is a method with loop invariants. Each method is proved equal to a specification function, and the lemmas state the properties about those functions. Where the source updates objects (tree items, surface row buffers), the model uses a class or an array.

The grouping functions (`groupParam`, `segmentParam`, `segment2DNames`) and the parameter-name lookup (`getParamName`) live in `benchmark_results.cpp`, which is not part of this model. Their results are inputs:

- a subset is a name plus the record indices it holds, in order;
- `xNames` gives the X label of every record;
- a 2D name carries its Z-subsets, and each Z-subset carries its X-groups.

## Model

| member | source | states |
|---|---|---|
| NumberText.NatText | src/plotter_barchart.cpp:183-185 | the decimal text of a number is non-empty, made of digits only, and starts with 0 only for 0 |
| NumberText.IntText | src/plotter_barchart.cpp:183-185 | the text of an int is non-empty and starts with a minus sign exactly when the number is negative |
| NumberText.ParseNatText | src/plotter_barchart.cpp:183-185 | reading back the decimal text of n gives n |
| NumberText.NatTextInjective | src/plotter_barchart.cpp:183-185 | distinct numbers get distinct texts |
| SampleSort.Insert | src/plot_parameters.h:262 | inserting into sorted samples keeps them sorted, adds exactly the new sample, and grows the length by one |
| SampleSort.SortSamples | src/plot_parameters.h:262 | the sorted samples are in ascending order and a permutation of the input |
| SampleSort.SortedPermutationUnique | src/plot_parameters.h:262 | two sorted sequences with the same multiset are equal, so any sort gives the same result |
| SampleSort.SortIgnoresOrder | src/plot_parameters.h:262 | sorting a permutation of the samples gives the same sorted sequence |
| SampleSort.SortOfSorted | src/plot_parameters.h:262 | sorting already sorted samples changes nothing |
| PlotParameters.YPlotNameUnits | src/plot_parameters.h:143-210 | a title ends in "(us)" exactly for the time value types and in "(k)" exactly for the bytes/s and items/s ones |
| PlotParameters.TimeNameUnits | src/plot_parameters.h:143-173 | every time value type's title ends in "(us)" and not in "(k)" |
| PlotParameters.RateNameUnits | src/plot_parameters.h:180-206 | every bytes/items value type's title ends in "(k)" and not in "(us)" |
| PlotParameters.YPlotNameInjective | src/plot_parameters.h:143-210 | no two value types share an axis title |
| PlotParameters.NormalizeTimeUs | src/plot_parameters.h:213-219 | `ns` divides the value by 1000, `ms` multiplies it by 1000, any other unit keeps it |
| PlotParameters.NormalizeTimeUsMonotone | src/plot_parameters.h:213-219 | the conversion preserves order, so sorted samples stay sorted |
| PlotParameters.FindMedian | src/plot_parameters.h:222-234 | empty or inverted range gives 0; odd count gives the middle element; even count gives the mean of the two middle elements |
| PlotParameters.MedianWithinRange | src/plot_parameters.h:222-234 | on a sorted range the median lies between the range's first and last elements |
| PlotParameters.GetYPlotStats | src/plot_parameters.h:237-327 | no aggregate or Iterations gives all-zero statistics and an untouched record; otherwise the record leaves with that channel's samples sorted, permuted and nothing else changed, and lowQuart <= uppQuart |
| PlotParameters.QuartilesOrdered | src/plot_parameters.h:262-265 | on sorted samples the lower-half median never exceeds the upper-half median |
| PlotParameters.StatsSortOneChannel | src/plot_parameters.h:262-310 | only the chosen channel's samples are rewritten, to their sorted order |
| PlotParameters.StatsQuartiles | src/plot_parameters.h:262-310 | the quartiles are the half medians of the sorted samples; time channels are converted to microseconds, throughput channels are not |
| PlotParameters.HalvesSplit | src/plot_parameters.h:263-265 | both halves hold n/2 samples, the middle sample is skipped when n is odd, and the two findMedian calls are the medians of the halves |
| PlotParameters.StatsAreHalfMedians | src/plot_parameters.h:262-310 | the quartiles are the medians of the lower and upper halves of the sorted samples |
| PlotParameters.HalfMediansWithin | src/plot_parameters.h:222-234 | on sorted samples (at least two) the lower-half median is at least the smallest sample and the upper-half median at most the largest |
| PlotParameters.QuartilesWithinSamples | src/plot_parameters.h:262-295 | with at least two samples, both quartiles lie between the smallest and largest sample, each converted to microseconds like the quartiles for time channels (every time unit) |
| PlotParameters.MedianBetweenHalves | src/plot_parameters.h:222-234 | on at least two sorted samples the lower-half median is at most the median of all samples, which is at most the upper-half median |
| PlotParameters.QuartileBounds | src/plot_parameters.h:262-265 | the converted half medians of sorted samples lie between the converted least and greatest samples |
| PlotParameters.ScaledOrder | src/plot_parameters.h:213-234 | converted least sample <= converted lower-half median <= converted median <= converted upper-half median <= converted greatest sample |
| PlotParameters.StatsChain | src/plot_parameters.h:256-266 | the box-plot order min <= lower quartile <= median <= upper quartile <= max, for two or more samples when the copied aggregate fields are the converted least, greatest and median sample |
| PlotParameters.FewSamplesZeroQuartiles | src/plot_parameters.h:262-265 | with fewer than two samples both halves are empty and both quartiles are 0, whatever the aggregate fields hold |
| PlotParameters.OneSampleBreaksOrder | src/plot_parameters.h:256-266 | a record with the single sample 5 and matching aggregates gets min 5 but lower quartile 0, so the box-plot order fails |
| PlotParameters.StatsAggregates | src/plot_parameters.h:258-305 | min, max and median are copied from the precomputed aggregate fields |
| PlotParameters.StatsFormula | src/plot_parameters.h:237-327 | the whole statistics record, field by field, from the aggregates and the sorted samples |
| PlotParameters.StatsIgnoreSampleOrder | src/plot_parameters.h:262-310 | reordering a record's samples does not change its statistics |
| PlotParameters.SortedStatsAgree | src/plot_parameters.h:252-313 | records with the same aggregates, unit and sorted samples get the same statistics |
| PlotParameters.StatsIdempotent | src/plot_parameters.h:237-327 | running the statistics again on the record it leaves behind gives the same outcome |
| PlotParameters.PlotValueMatchesStats | src/plot_parameters.h:73-139 | plotting a min or median value type shows the same number as the box plot's min or median |
| PlotParameters.CommonPartEqual | src/plot_parameters.h:330-340 | false when either list is empty; otherwise true exactly when the lists agree at every index below the shorter length |
| PlotParameters.CommonPartIsPrefix | src/plot_parameters.h:330-340 | agreement on the common part means one list is a prefix of the other |
| PlotParameters.EightSampleQuartiles | src/plot_parameters.h:262-265 | samples 1..8 give quartiles 2.5 and 6.5 |
| LabelReconcile.FoldLabels | src/plotter_barchart.cpp:152-162 | no candidates gives no labels; otherwise the result is [""] or one of the candidates |
| LabelReconcile.MergeAgreeing | src/plotter_barchart.cpp:155-157 | merging an agreeing list keeps the longer of the two, which extends both |
| LabelReconcile.FoldCompatible | src/plotter_barchart.cpp:152-162 | with pairwise agreeing candidates the fold returns a candidate that extends every candidate |
| LabelReconcile.PlainUpdate | src/plotter_barchart.cpp:153-162 | one step: the first list initialises; an agreeing list replaces the running one if it is longer; a collision gives [""] |
| LabelReconcile.FoldLabelsSnoc | src/plotter_barchart.cpp:153-162 | folding one more list is one more step |
| LabelReconcile.CollisionRecovery | src/plotter_barchart.cpp:155-161 | after a collision the plain fold can recover (a later list starting with "" replaces [""]); the sticky fold cannot |
| LabelReconcile.FoldExamples | src/plotter_barchart.cpp:153-161 | a longer agreeing list replaces the running one; a disagreeing one collides |
| LabelReconcile.StickyFold | src/plotter_3dbars.cpp:198-209 | once the flag is clear the state never changes again, and a flag still set at the end was set at the start |
| LabelReconcile.StickyUpdate | src/plotter_3dbars.cpp:199-209 | one step of the sticky fold, as the source spells it out |
| LabelReconcile.StickyFoldSnoc | src/plotter_3dbars.cpp:199-209 | folding one more candidate is one more step |
| LabelReconcile.StickyFoldAppend | src/plotter_3dbars.cpp:199-209 | folding two stretches in turn is folding their concatenation |
| LabelReconcile.StickyUpperBound | src/plotter_3dbars.cpp:199-208 | while the flag holds, the running labels extend every candidate seen |
| LabelReconcile.StickySameMeansAgreement | src/plotter_3dbars.cpp:199-208 | when the flag survives, every two candidates agree on their common part |
| LabelReconcile.StickyPairwise | src/plotter_3dbars.cpp:199-208 | with pairwise agreeing candidates, the flag survives and the labels extend every candidate |
| ChartInput.YValues | src/plotter_barchart.cpp:147 | one Y value per record, the value getYPlotValue selects |
| ChartInput.Pick | src/plotter_barchart.cpp:140-148 | one element per index, in index order: the X label or the Y value of each record in the subset |
| ChartInput.ReadSubset | src/plotter_barchart.cpp:139-148 | the inner loop collects exactly those labels and values |
| ChartInput.NonEmpty | src/plotter_barchart.cpp:126-130 | only subsets with records are kept, each one taken from the input |
| ChartInput.NonEmptySnoc | src/plotter_barchart.cpp:126-130 | one more subset is kept exactly when it has records |
| ChartInput.NonEmptyKeeps | src/plotter_barchart.cpp:126-130 | a subset with records is never dropped |
| ChartInput.SubsetNames | src/plotter_3dbars.cpp:130 | the row labels are the subset names, in order |
| ChartInput.ZNames | src/plotter_3dbars.cpp:171-175 | a series' row labels are its Z-subset names, in order |
| ChartInput.AxisTitle | src/plotter_barchart.cpp:182-185 | "Argument n" or "Template n", counted from 1; no title for an empty axis kind |
| ChartInput.AxisTitleInjective | src/plotter_barchart.cpp:182-185 | distinct axes get distinct titles |
| BarChart.AddSubset | src/plotter_barchart.cpp:124-163 | one loop pass: an empty subset changes nothing; any other adds its bar set and folds its labels |
| BarChart.BuildBarChart | src/plotter_barchart.cpp:115-195 | one bar set per non-empty subset, with one value per index in index order; axes with the folded labels and the titles when there are sets; otherwise no axes and the "No compatible series to display" title |
| BarChart.BarSetsOfAt | src/plotter_barchart.cpp:137-150 | the j-th bar set carries the j-th subset's name and values |
| BarChart.BarSetsAllOf | src/plotter_barchart.cpp:137-150 | every bar set of the list carries its subset's name and one value per index, in index order |
| BarChart.CategoryLabelsOrigin | src/plotter_barchart.cpp:152-161 | the category labels are [""] or the X labels of some non-empty subset |
| BarChart.CategoryLabelsLongest | src/plotter_barchart.cpp:155-157 | when all subsets agree, the category labels extend every subset's labels |
| Bars3D.AddRow | src/plotter_3dbars.cpp:110-143 | one no-Z pass: the subset's values become a row, its name a row label, its X labels are folded |
| Bars3D.BuildNoZ | src/plotter_3dbars.cpp:102-151 | one row per subset, with one value per index; row labels are the subset names; column labels are the plain fold |
| Bars3D.RowsOfAt | src/plotter_3dbars.cpp:119-130 | row j holds subset j's values |
| Bars3D.RowCandidates | src/plotter_3dbars.cpp:213-224 | the row-label candidates are each series' Z-subset names |
| Bars3D.ColFoldZSubsFlat | src/plotter_3dbars.cpp:183-209 | the column fold over a series' X-groups is the sticky fold over their flat label list |
| Bars3D.ColFoldNamesFlat | src/plotter_3dbars.cpp:162-212 | the nested column fold over all series is the sticky fold over every X-group's labels in visiting order |
| Bars3D.ColCollisionSticky | src/plotter_3dbars.cpp:199-208 | once a column collision has occurred, later series never restore the flag |
| Bars3D.BuildZRow | src/plotter_3dbars.cpp:172-211 | one Z-subset: its X-groups' values appended in turn, and their labels added to the sticky column fold |
| Bars3D.BuildRows | src/plotter_3dbars.cpp:168-212 | one series' rows and the column fold after them |
| Bars3D.BuildAllSeries | src/plotter_3dbars.cpp:160-234 | one series per 2D name, named after it, with its rows, and both sticky folds over everything |
| Bars3D.BuildWithZ | src/plotter_3dbars.cpp:154-243 | the Z branch: series as above, then the final labels given to every series when the first one has rows |
| Bars3D.ApplyLabels | src/plotter_3dbars.cpp:236-241 | every series gets the same final column and row labels, and nothing else changes |
| Bars3D.ColFoldNamesPrefix | src/plotter_3dbars.cpp:199-208 | the column state after all series is the fold over the state after the first s series |
| Bars3D.ZColumnLabelsExtendAll | src/plotter_3dbars.cpp:236-241 | when the column flag survives, every series' final column labels extend every X-group's labels |
| Bars3D.SeriesRowsCount | src/plotter_3dbars.cpp:178-196 | a series holds one row per X-group, each the Z-subset's full row buffer |
| Bars3D.SingleGroupRow | src/plotter_3dbars.cpp:178-196 | a Z-subset with one X-group gets exactly that group's values |
| Bars3D.AxisTitles | src/plotter_3dbars.cpp:249-284 | when the first series has rows: the column title is the X parameter's "Argument n"/"Template n" title (none exactly for an empty X), the value title is the Y name, and the row title is the Z parameter's title (none exactly for an empty Z); otherwise only the column title "No compatible series to display" |
| Bars3D.MaxRowBounds | src/plotter_3dbars.cpp:308-311 | the longest row of one series bounds each of its rows and is reached by one of them (or is 0) |
| Bars3D.MaxRowLengthBounds | src/plotter_3dbars.cpp:306-311 | the longest row over every series bounds every row and is reached by one (or is 0) |
| Bars3D.LongestInSeries | src/plotter_3dbars.cpp:308-311 | the inner scan over one series' rows leaves the larger of the incoming bound and that series' longest row |
| Bars3D.LongestRow | src/plotter_3dbars.cpp:306-311 | the scan returns that longest row length |
| Bars3D.NumberedRange | src/plotter_3dbars.cpp:312-313 | one fallback label per column up to maxCol |
| Bars3D.NumberedRangeDistinct | src/plotter_3dbars.cpp:312-313 | the fallback labels are pairwise distinct and none is empty |
| Bars3D.ColumnRange | src/plotter_3dbars.cpp:303-314 | the axis labels when the first is non-empty, else "1".."maxCol" when there is a series, else nothing |
| Surface3D.ShapeFrom | src/plotter_3dsurface.cpp:113-117 | a failure always names the culprit passed in |
| Surface3D.ShapeFromRef | src/plotter_3dsurface.cpp:113-117 | with a reference size of at least 2, the check admits exactly when all later sizes equal it and never reports too few points |
| Surface3D.ShapeOutcome | src/plotter_3dsurface.cpp:110-126 | too few points exactly when the first subset has fewer than 2; asymmetric exactly when it has at least 2 and some size differs; admitted exactly when all sizes are equal and at least 2; the culprit is the first subset |
| Surface3D.CheckShape | src/plotter_3dsurface.cpp:110-118 | the early-exit admission loop computes that outcome |
| Surface3D.ShapeDiag | src/plotter_3dsurface.cpp:119-126 | a warning exactly for a rejected shape, inconsistency before too few points |
| Surface3D.PointsOf | src/plotter_3dsurface.cpp:150-162 | one point per index, in index order, at the given Z |
| Surface3D.Overwrite | src/plotter_3dsurface.cpp:148-161 | the written points come first and the rest of the buffer is kept |
| Surface3D.FillRow | src/plotter_3dsurface.cpp:148-162 | the array buffer afterwards holds those points from its start, and the rest is unchanged |
| Surface3D.NoZRows | src/plotter_3dsurface.cpp:129-167 | one row per subset |
| Surface3D.NoZRowsAt | src/plotter_3dsurface.cpp:129-167 | row k is subset k's points at Z fallback k |
| Surface3D.NoZRow | src/plotter_3dsurface.cpp:142-164 | a buffer sized for the subset ends up holding exactly its points |
| Surface3D.NoZBuildRows | src/plotter_3dsurface.cpp:129-167 | an admitted list never hits the row-size break and gives those rows |
| Surface3D.SurfaceNoZ | src/plotter_3dsurface.cpp:98-180 | admitted: a series with those rows is added; rejected: no rows, nothing added, the warning about the first subset |
| Surface3D.ZRowFill | src/plotter_3dsurface.cpp:240-264 | the buffer after the first g X-groups |
| Surface3D.ZRowFillAt | src/plotter_3dsurface.cpp:245-264 | each cell holds the point of the last group reaching it, or the default item |
| Surface3D.ZRowSingleGroup | src/plotter_3dsurface.cpp:240-264 | a Z-subset with one X-group gets exactly that group's points |
| Surface3D.ZSubsetRow | src/plotter_3dsurface.cpp:239-264 | one Z-subset's final buffer, and how many times it is appended |
| Surface3D.ZBuildRows | src/plotter_3dsurface.cpp:231-265 | an admitted 2D name's rows: each Z-subset's final buffer, once per X-group |
| Surface3D.BuildZName | src/plotter_3dsurface.cpp:199-274 | no Z-subset or a rejected shape gives a warning and no series; otherwise a series named after the 2D name |
| Surface3D.SurfaceWithZ | src/plotter_3dsurface.cpp:186-275 | the series of the names not skipped, in order, and the warnings of those skipped |
| Surface3D.ZSeriesOrWarning | src/plotter_3dsurface.cpp:202-229 | every 2D name gives exactly one of a series or a warning |
| Surface3D.ZAllSeriesAppend | src/plotter_3dsurface.cpp:189-275 | a skipped name does not affect the others: processing two stretches concatenates their results |
| Surface3D.ZSurfaceRowsCount | src/plotter_3dsurface.cpp:232-265 | an admitted series holds one row per X-group of each Z-subset |
| ResultSelector.DerivedNotUnchecked | src/result_selector.cpp:320-328 | a derived state that is not Unchecked has a child that is not Unchecked |
| ResultSelector.UpdateItemParentsState | src/result_selector.cpp:315-329 | the parent becomes Checked if all children are, Unchecked if all are, PartiallyChecked otherwise; no parent changes nothing |
| ResultSelector.UpdateItemChildrenState | src/result_selector.cpp:331-347 | Checked or Unchecked is copied to every direct child; PartiallyChecked or no children changes nothing |
| ResultSelector.PlotEnabled | src/result_selector.cpp:357-361 | enabled exactly when some top-level item is not Unchecked |
| ResultSelector.OnItemChanged | src/result_selector.cpp:349-362 | a null item does nothing; otherwise children, then the parent, then the Plot button, as above |
| ResultSelector.CheckedChildIdxs | src/result_selector.cpp:388-393 | the stored indices of the Checked children, in order |
| ResultSelector.MidsSelectedIdxs | src/result_selector.cpp:378-395 | the second-level walk: a childless item by its own state, otherwise its Checked children |
| ResultSelector.GetSelectedBenchmarks | src/result_selector.cpp:364-400 | the stored index of every Checked leaf at depth 1, 2 or 3, in tree order |
| ResultSelector.PlotEnabledSelects | src/result_selector.cpp:349-400 | on a propagated tree, an enabled Plot button means a non-empty selection |
| ResultSelector.OfferedChartTypesMembers | src/result_selector.cpp:253-263 | Lines, Splines and 3D Surface only with a parameter; Boxes only with aggregates; Bars, HBars and 3D Bars always |
| ResultSelector.OfferedChartTypesDistinct | src/result_selector.cpp:253-263 | the types appear in the fixed combo order, none twice |
| ResultSelector.HeaderLabelsFitColumns | src/result_selector.cpp:164-232 | 5 columns, plus one for bytes/s, plus one for items/s, exactly as many as header labels; the time columns carry "(us)" |
| ResultSelector.ParamItems | src/result_selector.cpp:266-278 | one entry per argument, then one per template |
| ResultSelector.ParamItemsWellFormed | src/result_selector.cpp:266-311 | each entry's text is its axis title, no entry is "Auto", and no two carry the same (kind, index) |
| ResultSelector.OnComboXChanged | src/result_selector.cpp:416-432 | without a clash Z is kept; on a clash Z moves to 1 from 0, and to 0 otherwise |
| ResultSelector.ComboXSeparates | src/result_selector.cpp:416-432 | choosing X always leaves a valid Z entry different from X |
| ResultSelector.OnComboZChanged | src/result_selector.cpp:434-450 | without a clash X is kept; on a clash X moves to 1 from 0, and to 0 otherwise |
| ResultSelector.ComboZSeparates | src/result_selector.cpp:434-450 | with at least two X entries, choosing Z leaves a valid X entry different from Z |
| ResultSelector.ComboZLeavesRange | src/result_selector.cpp:443-449 | with one argument and no template, choosing it for Z sends X to entry 1, which does not exist |
| ResultSelector.OnComboZChangedSafe | src/result_selector.cpp:434-450 | the corrected slot: unchanged without a clash |
| ResultSelector.ComboZSafeSeparates | src/result_selector.cpp:434-450 | the corrected slot always leaves valid, distinct X and Z entries |

## Left out

- PlotParameters.GetYPlotStats: the box-plot order min <= lower quartile <= median <= upper quartile <= max is proved only for two or more samples and only when the aggregate fields agree with the samples (`StatsChain`), because min, max and median are copied from the record while the quartiles are computed from the samples. With fewer than two samples the source yields quartiles of 0 regardless of the aggregates (`FewSamplesZeroQuartiles`, `OneSampleBreaksOrder`); the model keeps that behaviour as written.
- Qt widgets and chart objects: themes, fonts, legends, axis formatting, log axes, spin boxes and every UI slot outside the selector's tree and combos. These are library calls with no logic of their own here.
- Snapshot and file dialogs, and `ResultParser::parseJsonFile`: I/O. `appendResults` and `overwriteResults` are not part of this model.
- `groupParam`, `segmentParam`, `segment2DNames`, `segmentFamilies`, `segmentContainers` and `getParamName`: `benchmark_results.cpp` is not part of this model. Their results are inputs.
- `getParamValue`: it parses the X or Z label as a number and falls back to a running ordinal. Surface points therefore keep the X label, and in the Z path the Z-subset name, as their coordinates. Only the no-Z fallback Z ordinal is modelled as a number.
- `custXName` and `custZName`, the custom axis titles of the surface chart, are left out, as are the surface axis titles.
- `toHtmlEscaped` on bar-chart labels: `xNames` are taken as the labels shown.
- Floating point: samples, Y values and time factors are `real`. `0.001` is exact here but not in a `double`, and the `float` casts of the 3D bar values are not modelled.
- `getYPlotValue` is modelled but has no contract of its own; `PlotValueMatchesStats` relates it to the statistics. The chart builders take the Y value of every record precomputed with it (`YValues`).
- Re-entrancy of tree updates: each `setCheckState` emits `itemChanged` again, so propagation in the program cascades through the whole tree. The model gives one call of `onItemChanged` (children one level down, the parent one level up). `PlotEnabledSelects` therefore takes as its precondition that the cascade has left the tree consistent.
- Tree population in `updateResults` (lines 169-219) and the text of tree rows (`buildTreeItem`): these depend on `segmentFamilies` and `segmentContainers`.
- `updateComboBoxY`, `onComboTypeChanged` and the enabled flags of the combos: UI state with no selection logic beyond what is modelled.
- Aliasing: in the Z branches of the 3D charts, one row buffer is appended once per X-group. Later writes to it show in every copy. The model appends the finished buffer once per X-group, which is what the chart ends up holding.
- Surface3D.SurfaceNoZ: requires at least one subset, because the source reads `bchSubsets[0]` without a check. That read is undefined on an empty list, so it is not modelled.
- ResultSelector.GetSelectedBenchmarks: the specification functions of the tree walk read the whole heap (`reads *`) rather than an exact three-level frame.

## Findings

| source | as written | input that shows it | evidently intended | confidence | as-written member | corrected member |
|---|---|---|---|---|---|---|
| src/result_selector.cpp:443-449 | when Z takes the value X holds, X moves to entry 1 if it was at entry 0 | one argument and no template: X = "Argument 1" (entry 0) and Z chosen as "Argument 1" moves X to entry 1 of a one-entry combo, leaving X without a current entry | keep X and Z distinct without leaving the valid entries; with a single X entry, Z goes back to "Auto" | not executed | ResultSelector.ComboZLeavesRange | ResultSelector.ComboZSafeSeparates |
