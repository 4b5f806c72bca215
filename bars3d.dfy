/** The 3D bar chart. Without a Z parameter there is one series with a row
    per X-group subset, labelled by the plain label fold. With a Z parameter
    there is a series per 2D name, a row per Z-subset, and the column and
    row labels are gathered by the sticky folds and handed to every series
    at the end. */
module Bars3D {
  import opened PlotParameters
  import opened NumberText
  import opened ChartInput
  import opened LabelReconcile

  /** One bar series: its name, its data rows, and the row and column
      labels its data proxy carries. */
  datatype Bars3DSeries = Bars3DSeries(seriesName: string, rows: seq<seq<real>>,
                                       rowLabels: seq<string>, colLabels: seq<string>)

  /** The rows of a list of subsets: each subset's values, in order. */
  function RowsOf(ys: seq<real>, subsets: seq<BenchSubset>): (r: seq<seq<real>>)
    requires ValidSubsets(|ys|, subsets)
    ensures |r| == |subsets|
  {
    if |subsets| == 0 then []
    else RowsOf(ys, subsets[..|subsets| - 1]) + [Pick(ys, subsets[|subsets| - 1].idxs)]
  }

  /** The j-th row holds the j-th subset's values. */
  lemma {:induction false} RowsOfAt(ys: seq<real>, subsets: seq<BenchSubset>, j: int)
    requires ValidSubsets(|ys|, subsets) && 0 <= j < |subsets|
    ensures RowsOf(ys, subsets)[j] == Pick(ys, subsets[j].idxs)
  {
    if j < |subsets| - 1 {
      RowsOfAt(ys, subsets[..|subsets| - 1], j);
    }
  }

  /** The no-Z state after the first i subsets. */
  predicate NoZSoFar(ys: seq<real>, xNames: seq<string>, subsets: seq<BenchSubset>, i: nat,
                     rows: seq<seq<real>>, rowLabels: seq<string>, colLabels: seq<string>)
    requires |xNames| == |ys| && ValidSubsets(|ys|, subsets) && i <= |subsets|
  {
    && rows == RowsOf(ys, subsets[..i])
    && rowLabels == SubsetNames(subsets[..i])
    && colLabels == FoldLabels(LabelCandidates(xNames, subsets[..i]))
  }

  /** One pass of the no-Z loop: the subset's values become a row, its name a
      row label, and its X labels are folded into the column labels. */
  method AddRow(ys: seq<real>, xNames: seq<string>, subsets: seq<BenchSubset>, i: nat,
                rows: seq<seq<real>>, rowLabels: seq<string>, colLabels: seq<string>)
    returns (rows': seq<seq<real>>, rowLabels': seq<string>, colLabels': seq<string>)
    requires |xNames| == |ys| && ValidSubsets(|ys|, subsets) && i < |subsets|
    requires NoZSoFar(ys, xNames, subsets, i, rows, rowLabels, colLabels)
    ensures NoZSoFar(ys, xNames, subsets, i + 1, rows', rowLabels', colLabels')
  {
    var s := subsets[i];
    var cur, data := ReadSubset(ys, xNames, s);
    assert subsets[..i + 1] == subsets[..i] + [s];
    assert subsets[..i + 1][..i] == subsets[..i];
    rows' := rows + [data];
    rowLabels' := rowLabels + [s.name];
    LabelCandidatesSnoc(xNames, subsets[..i], s);
    FoldLabelsSnoc(LabelCandidates(xNames, subsets[..i]), cur);
    colLabels' := PlainUpdate(colLabels, cur, i == 0);
  }

  /** No Z parameter: a single series with one row per subset (empty
      subsets included), named after the subset, and the plain fold over
      every subset's X labels as column labels. */
  method BuildNoZ(benchmarks: seq<BenchData>, xNames: seq<string>, yType: PlotValueType,
                  subsets: seq<BenchSubset>) returns (series: Bars3DSeries)
    requires |xNames| == |benchmarks| && ValidSubsets(|benchmarks|, subsets)
    ensures |series.rows| == |subsets|
    ensures forall j :: 0 <= j < |subsets| ==> series.rows[j] == Pick(YValues(benchmarks, yType), subsets[j].idxs)
    ensures series.rowLabels == SubsetNames(subsets)
    ensures series.colLabels == FoldLabels(LabelCandidates(xNames, subsets))
  {
    var ys := YValues(benchmarks, yType);
    var rows: seq<seq<real>> := [];
    var rowLabels: seq<string> := [];
    var colLabels: seq<string> := [];
    var i := 0;
    while i < |subsets|
      invariant 0 <= i <= |subsets|
      invariant NoZSoFar(ys, xNames, subsets, i, rows, rowLabels, colLabels)
    {
      rows, rowLabels, colLabels := AddRow(ys, xNames, subsets, i, rows, rowLabels, colLabels);
      i := i + 1;
    }
    assert subsets[..i] == subsets;
    forall j | 0 <= j < |subsets| ensures rows[j] == Pick(ys, subsets[j].idxs) {
      RowsOfAt(ys, subsets, j);
    }
    series := Bars3DSeries("", rows, rowLabels, colLabels);
  }

  /** The values a Z-subset's X-groups append, one group after the other. */
  function GroupsRow(ys: seq<real>, groups: seq<BenchSubset>): (r: seq<real>)
    requires ValidSubsets(|ys|, groups)
  {
    if |groups| == 0 then []
    else GroupsRow(ys, groups[..|groups| - 1]) + Pick(ys, groups[|groups| - 1].idxs)
  }

  /** The rows of one series: every X-group of a Z-subset adds the same
      row buffer again, so the Z-subset contributes its whole row once per
      X-group. */
  function SeriesRows(ys: seq<real>, zSubs: seq<ZSubset>): seq<seq<real>>
    requires ValidZSubsets(|ys|, zSubs)
  {
    if |zSubs| == 0 then []
    else
      var last := zSubs[|zSubs| - 1];
      SeriesRows(ys, zSubs[..|zSubs| - 1]) + Repeat(GroupsRow(ys, last.groups), |last.groups|)
  }

  /** The sticky column fold over the X-groups of the Z-subsets, in order. */
  function ColFoldZSubs(xNames: seq<string>, st: StickyLabels, zSubs: seq<ZSubset>): StickyLabels
    requires ValidZSubsets(|xNames|, zSubs)
  {
    if |zSubs| == 0 then st
    else StickyFold(ColFoldZSubs(xNames, st, zSubs[..|zSubs| - 1]), LabelCandidates(xNames, zSubs[|zSubs| - 1].groups))
  }

  /** The sticky column fold over every 2D name in turn. */
  function ColFoldNames(xNames: seq<string>, st: StickyLabels, names: seq<Name2D>): StickyLabels
    requires ValidNames(|xNames|, names)
  {
    if |names| == 0 then st
    else ColFoldZSubs(xNames, ColFoldNames(xNames, st, names[..|names| - 1]), names[|names| - 1].zSubs)
  }

  /** The row-label candidates: each series' Z-subset names. */
  function RowCandidates(names: seq<Name2D>): (r: seq<seq<string>>)
    ensures |r| == |names| && forall s :: 0 <= s < |names| ==> r[s] == ZNames(names[s].zSubs)
  {
    if |names| == 0 then [] else RowCandidates(names[..|names| - 1]) + [ZNames(names[|names| - 1].zSubs)]
  }

  /** Every X-group's labels across all 2D names and Z-subsets, in visiting order. */
  function ZSubsCandidates(xNames: seq<string>, zSubs: seq<ZSubset>): seq<seq<string>>
    requires ValidZSubsets(|xNames|, zSubs)
  {
    if |zSubs| == 0 then []
    else ZSubsCandidates(xNames, zSubs[..|zSubs| - 1]) + LabelCandidates(xNames, zSubs[|zSubs| - 1].groups)
  }

  function ColCandidates(xNames: seq<string>, names: seq<Name2D>): seq<seq<string>>
    requires ValidNames(|xNames|, names)
  {
    if |names| == 0 then []
    else ColCandidates(xNames, names[..|names| - 1]) + ZSubsCandidates(xNames, names[|names| - 1].zSubs)
  }

  lemma {:induction false} ColFoldZSubsFlat(xNames: seq<string>, st: StickyLabels, zSubs: seq<ZSubset>)
    requires ValidZSubsets(|xNames|, zSubs)
    ensures ColFoldZSubs(xNames, st, zSubs) == StickyFold(st, ZSubsCandidates(xNames, zSubs))
  {
    if |zSubs| > 0 {
      var init := zSubs[..|zSubs| - 1];
      ColFoldZSubsFlat(xNames, st, init);
      StickyFoldAppend(st, ZSubsCandidates(xNames, init), LabelCandidates(xNames, zSubs[|zSubs| - 1].groups));
    }
  }

  /** The nested column fold is the sticky fold over the flat list of every
      X-group's labels, so the sticky-fold facts carry over to it. */
  lemma {:induction false} ColFoldNamesFlat(xNames: seq<string>, st: StickyLabels, names: seq<Name2D>)
    requires ValidNames(|xNames|, names)
    ensures ColFoldNames(xNames, st, names) == StickyFold(st, ColCandidates(xNames, names))
  {
    if |names| > 0 {
      var init := names[..|names| - 1];
      var last := names[|names| - 1];
      ColFoldNamesFlat(xNames, st, init);
      ColFoldZSubsFlat(xNames, ColFoldNames(xNames, st, init), last.zSubs);
      StickyFoldAppend(st, ColCandidates(xNames, init), ZSubsCandidates(xNames, last.zSubs));
    }
  }

  /** Once a column collision is seen after some 2D names, the column state
      no longer changes for any later name. */
  lemma ColCollisionSticky(xNames: seq<string>, names: seq<Name2D>, s: int)
    requires ValidNames(|xNames|, names) && 0 <= s <= |names|
    requires !ColFoldNames(xNames, StickyInit, names[..s]).same
    ensures ColFoldNames(xNames, StickyInit, names) == ColFoldNames(xNames, StickyInit, names[..s])
  {
    var a, b := names[..s], names[s..];
    ValidNamesSplit(|xNames|, names, s);
    ColFoldNamesFlat(xNames, StickyInit, names);
    ColFoldNamesFlat(xNames, StickyInit, a);
    ColCandidatesAppend(xNames, a, b);
    StickyFoldAppend(StickyInit, ColCandidates(xNames, a), ColCandidates(xNames, b));
  }

  /** Both parts of a split list of valid 2D names are valid. */
  lemma ValidNamesSplit(n: nat, names: seq<Name2D>, s: int)
    requires ValidNames(n, names) && 0 <= s <= |names|
    ensures names == names[..s] + names[s..]
    ensures ValidNames(n, names[..s]) && ValidNames(n, names[s..])
  {
    assert forall t :: 0 <= t < |names| - s ==> names[s..][t] == names[s + t];
  }

  lemma {:induction false} ColCandidatesAppend(xNames: seq<string>, a: seq<Name2D>, b: seq<Name2D>)
    requires ValidNames(|xNames|, a) && ValidNames(|xNames|, b)
    ensures ValidNames(|xNames|, a + b)
    ensures ColCandidates(xNames, a + b) == ColCandidates(xNames, a) + ColCandidates(xNames, b)
  {
    if |b| > 0 {
      var bi := b[..|b| - 1];
      assert (a + b)[..|a + b| - 1] == a + bi;
      assert (a + b)[|a + b| - 1] == b[|b| - 1];
      ColCandidatesAppend(xNames, a, bi);
    } else {
      assert a + b == a;
    }
  }

  /** The Z-branch result: the series, and the two sticky states the final
      labels come from. */
  datatype ZBuild = ZBuild(series: seq<Bars3DSeries>, colState: StickyLabels, rowState: StickyLabels)

  /** Whether the final labels are applied: some series exists and the first one has rows. */
  predicate LabelsApplied(series: seq<Bars3DSeries>)
  {
    |series| > 0 && |series[0].rows| > 0
  }

  /** One Z-subset's row: the values of its X-groups one after the other,
      the number of times the row buffer is added (once per X-group), and
      the column fold over the groups' labels. */
  method BuildZRow(ys: seq<real>, xNames: seq<string>,
                   zSub: ZSubset, colIn: StickyLabels) returns (data: seq<real>, added: nat, colOut: StickyLabels)
    requires |xNames| == |ys| && ValidSubsets(|ys|, zSub.groups)
    ensures data == GroupsRow(ys, zSub.groups) && added == |zSub.groups|
    ensures colOut == StickyFold(colIn, LabelCandidates(xNames, zSub.groups))
  {
    data, added, colOut := [], 0, colIn;
    var g := 0;
    while g < |zSub.groups|
      invariant 0 <= g <= |zSub.groups| && added == g
      invariant data == GroupsRow(ys, zSub.groups[..g])
      invariant colOut == StickyFold(colIn, LabelCandidates(xNames, zSub.groups[..g]))
    {
      var group := zSub.groups[g];
      var cur, values := ReadSubset(ys, xNames, group);
      assert zSub.groups[..g + 1] == zSub.groups[..g] + [group];
      LabelCandidatesSnoc(xNames, zSub.groups[..g], group);
      StickyFoldSnoc(colIn, LabelCandidates(xNames, zSub.groups[..g]), cur);
      data := data + values;
      added := added + 1;  // the same row buffer is added once more
      colOut := StickyUpdate(colOut, cur);
      g := g + 1;
    }
    assert zSub.groups[..g] == zSub.groups;
  }

  /** One series' rows, adding each X-group's labels to the sticky column fold. */
  method BuildRows(ys: seq<real>, xNames: seq<string>,
                   zSubs: seq<ZSubset>, colIn: StickyLabels) returns (rows: seq<seq<real>>, colOut: StickyLabels)
    requires |xNames| == |ys| && ValidZSubsets(|ys|, zSubs)
    ensures rows == SeriesRows(ys, zSubs)
    ensures colOut == ColFoldZSubs(xNames, colIn, zSubs)
  {
    rows := [];
    colOut := colIn;
    var z := 0;
    while z < |zSubs|
      invariant 0 <= z <= |zSubs|
      invariant rows == SeriesRows(ys, zSubs[..z])
      invariant colOut == ColFoldZSubs(xNames, colIn, zSubs[..z])
    {
      var zSub := zSubs[z];
      assert zSubs[..z + 1][..z] == zSubs[..z];
      assert zSubs[..z + 1][z] == zSub;
      var data, added;
      data, added, colOut := BuildZRow(ys, xNames, zSub, colOut);
      rows := rows + Repeat(data, added);
      z := z + 1;
    }
    assert zSubs[..z] == zSubs;
  }

  /** The Z-branch state after the first s 2D names. */
  predicate SeriesSoFar(ys: seq<real>, xNames: seq<string>, names: seq<Name2D>, s: nat,
                        series: seq<Bars3DSeries>, colState: StickyLabels, rowState: StickyLabels)
    requires |xNames| == |ys| && ValidNames(|ys|, names) && s <= |names|
  {
    && |series| == s
    && colState == ColFoldNames(xNames, StickyInit, names[..s])
    && rowState == StickyFold(StickyInit, RowCandidates(names[..s]))
    && forall t :: 0 <= t < s ==> series[t] == UnlabelledSeries(ys, names[t])
  }

  /** One pass over a 2D name: its series, its X-groups folded into the
      column state and its Z-subset names folded into the row state. */
  method AddSeries(ys: seq<real>, xNames: seq<string>, names: seq<Name2D>, s: nat,
                   series: seq<Bars3DSeries>, colState: StickyLabels, rowState: StickyLabels)
    returns (series': seq<Bars3DSeries>, colState': StickyLabels, rowState': StickyLabels)
    requires |xNames| == |ys| && ValidNames(|ys|, names) && s < |names|
    requires SeriesSoFar(ys, xNames, names, s, series, colState, rowState)
    ensures SeriesSoFar(ys, xNames, names, s + 1, series', colState', rowState')
  {
    var name := names[s];
    ColFoldNamesPrefix(xNames, StickyInit, names, s);
    var rows;
    rows, colState' := BuildRows(ys, xNames, name.zSubs, colState);
    var curRowLabels := ZNames(name.zSubs);
    assert names[..s + 1][..s] == names[..s];
    StickyFoldSnoc(StickyInit, RowCandidates(names[..s]), curRowLabels);
    rowState' := StickyUpdate(rowState, curRowLabels);
    series' := series + [Bars3DSeries(name.name, rows, [], [])];
  }

  /** The series of the 2D names in order, before the final labels, with
      both sticky folds. */
  method BuildAllSeries(ys: seq<real>, xNames: seq<string>,
                        names: seq<Name2D>) returns (series: seq<Bars3DSeries>, colState: StickyLabels, rowState: StickyLabels)
    requires |xNames| == |ys| && ValidNames(|ys|, names)
    ensures colState == ColFoldNames(xNames, StickyInit, names)
    ensures rowState == StickyFold(StickyInit, RowCandidates(names))
    ensures |series| == |names|
    ensures forall t :: 0 <= t < |names| ==> series[t] == UnlabelledSeries(ys, names[t])
  {
    series := [];
    colState := StickyInit;
    rowState := StickyInit;
    var s := 0;
    while s < |names|
      invariant 0 <= s <= |names|
      invariant SeriesSoFar(ys, xNames, names, s, series, colState, rowState)
    {
      series, colState, rowState := AddSeries(ys, xNames, names, s, series, colState, rowState);
      s := s + 1;
    }
    assert names[..s] == names;
  }

  /** A 2D name's series before labels are applied. */
  function UnlabelledSeries(ys: seq<real>, name: Name2D): Bars3DSeries
    requires ValidZSubsets(|ys|, name.zSubs)
  {
    Bars3DSeries(name.name, SeriesRows(ys, name.zSubs), [], [])
  }

  /** With a Z parameter: one series per 2D name, rows from its Z-subsets,
      both sticky folds, and the final labels handed to every series when
      the first series has rows. */
  method BuildWithZ(benchmarks: seq<BenchData>, xNames: seq<string>, yType: PlotValueType,
                    names: seq<Name2D>) returns (r: ZBuild)
    requires |xNames| == |benchmarks| && ValidNames(|benchmarks|, names)
    ensures r.colState == ColFoldNames(xNames, StickyInit, names)
    ensures r.rowState == StickyFold(StickyInit, RowCandidates(names))
    ensures |r.series| == |names|
    ensures forall s :: 0 <= s < |names| ==>
              && r.series[s].seriesName == names[s].name
              && r.series[s].rows == SeriesRows(YValues(benchmarks, yType), names[s].zSubs)
    ensures forall s :: 0 <= s < |names| ==>
              if LabelsApplied(r.series)
              then r.series[s].colLabels == FinalLabels(r.colState) && r.series[s].rowLabels == FinalLabels(r.rowState)
              else r.series[s].colLabels == [] && r.series[s].rowLabels == []
  {
    var ys := YValues(benchmarks, yType);
    var series, colState, rowState := BuildAllSeries(ys, xNames, names);
    if |series| > 0 && |series[0].rows| > 0 {
      series := ApplyLabels(series, FinalLabels(colState), FinalLabels(rowState));
    }
    r := ZBuild(series, colState, rowState);
  }

  lemma ColFoldNamesPrefix(xNames: seq<string>, st: StickyLabels, names: seq<Name2D>, s: int)
    requires ValidNames(|xNames|, names) && 0 <= s < |names|
    ensures ColFoldNames(xNames, st, names[..s + 1]) == ColFoldZSubs(xNames, ColFoldNames(xNames, st, names[..s]), names[s].zSubs)
  {
    assert names[..s + 1][..s] == names[..s];
  }

  /** Gives every series the same final column and row labels. */
  method ApplyLabels(series: seq<Bars3DSeries>, cols: seq<string>, rowsL: seq<string>) returns (out: seq<Bars3DSeries>)
    ensures |out| == |series|
    ensures forall t :: 0 <= t < |series| ==> out[t] == series[t].(colLabels := cols, rowLabels := rowsL)
  {
    out := series;
    var k := 0;
    while k < |out|
      invariant 0 <= k <= |out| && |out| == |series|
      invariant forall t :: 0 <= t < |series| ==>
                  out[t] == if t < k then series[t].(colLabels := cols, rowLabels := rowsL) else series[t]
    {
      out := out[k := out[k].(colLabels := cols, rowLabels := rowsL)];
      k := k + 1;
    }
  }

  /** When the column labels survive the sticky fold, every series is given
      labels that extend every X-group's labels. */
  lemma ZColumnLabelsExtendAll(xNames: seq<string>, names: seq<Name2D>)
    requires ValidNames(|xNames|, names)
    requires ColFoldNames(xNames, StickyInit, names).same
    ensures var cands := ColCandidates(xNames, names);
            var labels := FinalLabels(ColFoldNames(xNames, StickyInit, names));
            (labels == [] || labels in cands) && forall k :: 0 <= k < |cands| ==> cands[k] <= labels
  {
    ColFoldNamesFlat(xNames, StickyInit, names);
    StickyUpperBound(ColCandidates(xNames, names));
  }

  /** Every series' rows: each Z-subset contributes its full row, repeated once per X-group. */
  lemma {:induction false} SeriesRowsCount(ys: seq<real>, zSubs: seq<ZSubset>)
    requires ValidZSubsets(|ys|, zSubs)
    ensures |SeriesRows(ys, zSubs)| == GroupCount(zSubs)
  {
    if |zSubs| > 0 {
      SeriesRowsCount(ys, zSubs[..|zSubs| - 1]);
    }
  }

  /** A Z-subset whose records form a single X-group gives exactly that group's values as its row. */
  lemma SingleGroupRow(ys: seq<real>, z: ZSubset)
    requires ValidSubsets(|ys|, z.groups) && |z.groups| == 1
    ensures GroupsRow(ys, z.groups) == Pick(ys, z.groups[0].idxs)
  {
    assert z.groups[..0] == [];
  }

  /** Axis titles of the 3D bar chart. */
  datatype Bars3DTitles = Bars3DTitles(colTitle: Option<string>, valueTitle: Option<string>, rowTitle: Option<string>)

  const NoSeriesTitle := "No compatible series to display"

  /** With a series that has rows: the X and Z parameter titles and the Y
      value name; otherwise the column axis reads "No compatible series to display". */
  function AxisTitles(params: PlotParams, series: seq<Bars3DSeries>): (t: Bars3DTitles)
    ensures LabelsApplied(series) ==>
              && t.colTitle == AxisTitle(params.xType, params.xIdx)
              && t.valueTitle == Some(GetYPlotName(params.yType))
              && t.rowTitle == AxisTitle(params.zType, params.zIdx)
    ensures LabelsApplied(series) ==> (t.colTitle == None <==> params.xType == PlotEmptyType)
    ensures LabelsApplied(series) ==> (t.rowTitle == None <==> params.zType == PlotEmptyType)
    ensures !LabelsApplied(series) ==> t == Bars3DTitles(Some(NoSeriesTitle), None, None)
  {
    if LabelsApplied(series) then
      Bars3DTitles(AxisTitle(params.xType, params.xIdx), Some(GetYPlotName(params.yType)),
                   AxisTitle(params.zType, params.zIdx))
    else Bars3DTitles(Some(NoSeriesTitle), None, None)
  }

  /** The longest row over every series. */
  function MaxRowLength(series: seq<Bars3DSeries>): nat
  {
    if |series| == 0 then 0
    else
      var a := MaxRowLength(series[..|series| - 1]);
      var b := MaxRow(series[|series| - 1].rows);
      if a < b then b else a
  }

  /** The longest of some rows. */
  function MaxRow(rows: seq<seq<real>>): nat
  {
    if |rows| == 0 then 0
    else
      var a := MaxRow(rows[..|rows| - 1]);
      if a < |rows[|rows| - 1]| then |rows[|rows| - 1]| else a
  }

  /** MaxRow bounds every row and is reached by one (or is 0). */
  lemma {:induction false} MaxRowBounds(rows: seq<seq<real>>)
    ensures forall j :: 0 <= j < |rows| ==> |rows[j]| <= MaxRow(rows)
    ensures MaxRow(rows) == 0 || exists j :: 0 <= j < |rows| && |rows[j]| == MaxRow(rows)
  {
    if |rows| > 0 {
      var init := rows[..|rows| - 1];
      MaxRowBounds(init);
      assert forall j :: 0 <= j < |init| ==> init[j] == rows[j];
    }
  }

  /** The longest row over every series bounds every row of every series and
      is the length of one of them (or 0 when there is no row). */
  lemma {:induction false} MaxRowLengthBounds(series: seq<Bars3DSeries>)
    ensures forall s, j :: 0 <= s < |series| && 0 <= j < |series[s].rows| ==> |series[s].rows[j]| <= MaxRowLength(series)
    ensures MaxRowLength(series) == 0 ||
            exists s, j :: 0 <= s < |series| && 0 <= j < |series[s].rows| && |series[s].rows[j]| == MaxRowLength(series)
  {
    if |series| > 0 {
      var init := series[..|series| - 1];
      MaxRowLengthBounds(init);
      MaxRowBounds(series[|series| - 1].rows);
      assert forall s :: 0 <= s < |init| ==> init[s] == series[s];
    }
  }

  /** The longest of some rows, or a bound found so far when it is larger. */
  method LongestInSeries(rows: seq<seq<real>>, maxCol: nat) returns (rowMax: nat)
    ensures rowMax == if maxCol < MaxRow(rows) then MaxRow(rows) else maxCol
  {
    rowMax := maxCol;
    var iR := 0;
    while iR < |rows|
      invariant 0 <= iR <= |rows|
      invariant rowMax == if maxCol < MaxRow(rows[..iR]) then MaxRow(rows[..iR]) else maxCol
    {
      assert rows[..iR + 1][..iR] == rows[..iR];
      if rowMax < |rows[iR]| {
        rowMax := |rows[iR]|;
      }
      iR := iR + 1;
    }
    assert rows[..iR] == rows;
  }

  /** The longest row over every series, by scanning each series' rows. */
  method LongestRow(series: seq<Bars3DSeries>) returns (maxCol: nat)
    ensures maxCol == MaxRowLength(series)
  {
    maxCol := 0;
    var s := 0;
    while s < |series|
      invariant 0 <= s <= |series|
      invariant maxCol == MaxRowLength(series[..s])
    {
      assert series[..s + 1][..s] == series[..s];
      maxCol := LongestInSeries(series[s].rows, maxCol);
      s := s + 1;
    }
    assert series[..s] == series;
  }

  /** The numbered labels "1".."n". */
  function NumberedRange(n: nat): (r: seq<string>)
    ensures |r| == n
  {
    seq(n, i requires 0 <= i < n => NatText(i + 1))
  }

  /** The numbered labels are pairwise distinct and none is empty. */
  lemma NumberedRangeDistinct(n: nat)
    ensures forall i, j :: 0 <= i < j < n ==> NumberedRange(n)[i] != NumberedRange(n)[j]
    ensures forall i :: 0 <= i < n ==> NumberedRange(n)[i] != ""
  {
    forall i, j | 0 <= i < j < n ensures NumberedRange(n)[i] != NumberedRange(n)[j] {
      if NatText(i + 1) == NatText(j + 1) {
        NatTextInjective(i + 1, j + 1);
      }
    }
  }

  /** The labels of the primary (first) series' columns, which the column axis shows. */
  function AxisLabels(series: seq<Bars3DSeries>): seq<string>
  {
    if |series| == 0 then [] else series[0].colLabels
  }

  /** The X range offered to the axis controls: the axis labels when the
      first one is not empty, otherwise "1".."maxCol" over the longest row of
      any series, and nothing when there is no series. */
  method ColumnRange(series: seq<Bars3DSeries>) returns (range: seq<string>)
    ensures var labels := AxisLabels(series);
            if |labels| > 0 && labels[0] != "" then range == labels
            else if |series| > 0 then range == NumberedRange(MaxRowLength(series))
            else range == []
  {
    var labels := AxisLabels(series);
    if |labels| > 0 && labels[0] != "" {
      return labels;
    }
    range := [];
    if |series| == 0 {
      return;
    }
    var maxCol := LongestRow(series);
    var i := 0;
    while i < maxCol
      invariant 0 <= i <= maxCol
      invariant range == NumberedRange(maxCol)[..i]
    {
      range := range + [NatText(i + 1)];
      i := i + 1;
    }
  }
}
