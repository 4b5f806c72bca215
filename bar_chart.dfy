/** The 2D bar chart (vertical or horizontal): one bar set per X-group
    subset, one bar per record, and a category axis labelled by the plain
    label fold over the non-empty subsets. */
module BarChart {
  import opened PlotParameters
  import opened ChartInput
  import opened LabelReconcile

  datatype BarSet = BarSet(setName: string, values: seq<real>)

  datatype BarAxes = BarAxes(categories: seq<string>, categoryTitle: Option<string>, valueTitle: string)

  /** The chart as built: its bar sets, its axes when there is something to
      show, and its title. */
  datatype BarChartModel = BarChartModel(sets: seq<BarSet>, axes: Option<BarAxes>, title: string)

  const NoSeriesTitle := "No compatible series to display"

  /** The bar set of one subset holds one value per index, in index order. */
  predicate IsBarSetOf(b: BarSet, benchmarks: seq<BenchData>, yType: PlotValueType, s: BenchSubset)
    requires ValidSubset(|benchmarks|, s)
  {
    && b.setName == s.name
    && |b.values| == |s.idxs|
    && forall k :: 0 <= k < |s.idxs| ==> b.values[k] == GetYPlotValue(benchmarks[s.idxs[k]], yType)
  }

  /** The bar sets of a list of subsets, one per subset, in order. */
  function BarSetsOf(ys: seq<real>, subsets: seq<BenchSubset>): (r: seq<BarSet>)
    requires ValidSubsets(|ys|, subsets)
    ensures |r| == |subsets|
  {
    if |subsets| == 0 then []
    else
      var last := subsets[|subsets| - 1];
      BarSetsOf(ys, subsets[..|subsets| - 1]) + [BarSet(last.name, Pick(ys, last.idxs))]
  }

  /** Each of those bar sets is the bar set of its subset. */
  lemma {:induction false} BarSetsOfAt(benchmarks: seq<BenchData>, yType: PlotValueType, subsets: seq<BenchSubset>, j: int)
    requires ValidSubsets(|benchmarks|, subsets) && 0 <= j < |subsets|
    ensures IsBarSetOf(BarSetsOf(YValues(benchmarks, yType), subsets)[j], benchmarks, yType, subsets[j])
  {
    if j < |subsets| - 1 {
      BarSetsOfAt(benchmarks, yType, subsets[..|subsets| - 1], j);
    }
  }

  /** So the whole list is the bar sets of the subsets, position by position. */
  lemma BarSetsAllOf(benchmarks: seq<BenchData>, yType: PlotValueType, subsets: seq<BenchSubset>)
    requires ValidSubsets(|benchmarks|, subsets)
    ensures var r := BarSetsOf(YValues(benchmarks, yType), subsets);
            forall j :: 0 <= j < |subsets| ==> IsBarSetOf(r[j], benchmarks, yType, subsets[j])
  {
    forall j | 0 <= j < |subsets|
      ensures IsBarSetOf(BarSetsOf(YValues(benchmarks, yType), subsets)[j], benchmarks, yType, subsets[j])
    {
      BarSetsOfAt(benchmarks, yType, subsets, j);
    }
  }

  /** The state after the first i subsets: the bar sets of the non-empty
      ones and the plain fold over their X labels. */
  predicate BarsSoFar(ys: seq<real>, xNames: seq<string>, subsets: seq<BenchSubset>, i: nat,
                      sets: seq<BarSet>, labels: seq<string>, first: bool)
    requires |xNames| == |ys| && ValidSubsets(|ys|, subsets) && i <= |subsets|
  {
    && sets == BarSetsOf(ys, NonEmpty(subsets[..i]))
    && labels == FoldLabels(LabelCandidates(xNames, NonEmpty(subsets[..i])))
    && (first <==> |sets| == 0)
  }

  /** One pass of the loop: a subset without records touches neither the
      sets nor the labels; any other adds its bar set and folds its X labels. */
  method AddSubset(ys: seq<real>, xNames: seq<string>, subsets: seq<BenchSubset>, i: nat,
                   sets: seq<BarSet>, labels: seq<string>, first: bool)
    returns (sets': seq<BarSet>, labels': seq<string>, first': bool)
    requires |xNames| == |ys| && ValidSubsets(|ys|, subsets) && i < |subsets|
    requires BarsSoFar(ys, xNames, subsets, i, sets, labels, first)
    ensures BarsSoFar(ys, xNames, subsets, i + 1, sets', labels', first')
  {
    var s := subsets[i];
    NonEmptySnoc(subsets, i);
    if |s.idxs| == 0 {
      return sets, labels, first;
    }
    var colLabels, values := ReadSubset(ys, xNames, s);
    ghost var before := NonEmpty(subsets[..i]);
    assert (before + [s])[..|before|] == before;
    sets' := sets + [BarSet(s.name, values)];
    LabelCandidatesSnoc(xNames, before, s);
    FoldLabelsSnoc(LabelCandidates(xNames, before), colLabels);
    labels' := PlainUpdate(labels, colLabels, first);
    first' := false;
  }

  /** Walks the subsets once, skipping those without records; each other
      subset adds a bar set and folds its X labels into the category labels. */
  method BuildBarChart(params: PlotParams, benchmarks: seq<BenchData>, xNames: seq<string>,
                       subsets: seq<BenchSubset>) returns (chart: BarChartModel)
    requires |xNames| == |benchmarks| && ValidSubsets(|benchmarks|, subsets)
    ensures var ne := NonEmpty(subsets);
            && |chart.sets| == |ne|
            && forall j :: 0 <= j < |ne| ==> IsBarSetOf(chart.sets[j], benchmarks, params.yType, ne[j])
    ensures |chart.sets| > 0 ==>
              chart.axes == Some(BarAxes(FoldLabels(LabelCandidates(xNames, NonEmpty(subsets))),
                                         AxisTitle(params.xType, params.xIdx), GetYPlotName(params.yType)))
              && chart.title == ""
    ensures |chart.sets| == 0 ==> chart.axes == None && chart.title == NoSeriesTitle
  {
    var ys := YValues(benchmarks, params.yType);
    var sets: seq<BarSet> := [];
    var firstCol := true;
    var prevColLabels: seq<string> := [];
    var i := 0;
    while i < |subsets|
      invariant 0 <= i <= |subsets|
      invariant BarsSoFar(ys, xNames, subsets, i, sets, prevColLabels, firstCol)
    {
      sets, prevColLabels, firstCol := AddSubset(ys, xNames, subsets, i, sets, prevColLabels, firstCol);
      i := i + 1;
    }
    assert subsets[..i] == subsets;
    BarSetsAllOf(benchmarks, params.yType, NonEmpty(subsets));
    if |sets| > 0 {
      chart := BarChartModel(sets, Some(BarAxes(prevColLabels, AxisTitle(params.xType, params.xIdx),
                                                GetYPlotName(params.yType))), "");
    } else {
      chart := BarChartModel(sets, None, NoSeriesTitle);
    }
  }

  /** The category labels are [""] after an unrecovered collision, and
      otherwise the X labels of one of the non-empty subsets. */
  lemma CategoryLabelsOrigin(xNames: seq<string>, subsets: seq<BenchSubset>)
    requires ValidSubsets(|xNames|, subsets) && |NonEmpty(subsets)| > 0
    ensures var labels := FoldLabels(LabelCandidates(xNames, NonEmpty(subsets)));
            labels == [""] || exists j :: 0 <= j < |subsets| && |subsets[j].idxs| > 0 && labels == Pick(xNames, subsets[j].idxs)
  {
    var ne := NonEmpty(subsets);
    var c := LabelCandidates(xNames, ne);
    var labels := FoldLabels(c);
    if labels != [""] {
      var m :| 0 <= m < |c| && c[m] == labels;
      var j :| 0 <= j < |subsets| && subsets[j] == ne[m];
      LabelCandidatesAt(xNames, ne, m);
      assert 0 <= j < |subsets| && |subsets[j].idxs| > 0 && labels == Pick(xNames, subsets[j].idxs);
    }
  }

  /** When every non-empty subset's X labels agree with every other's, the
      category axis shows the longest of them, which extends them all. */
  lemma CategoryLabelsLongest(xNames: seq<string>, subsets: seq<BenchSubset>)
    requires ValidSubsets(|xNames|, subsets) && |NonEmpty(subsets)| > 0
    requires Pairwise(LabelCandidates(xNames, NonEmpty(subsets)))
    ensures var labels := FoldLabels(LabelCandidates(xNames, NonEmpty(subsets)));
            forall j :: 0 <= j < |subsets| && |subsets[j].idxs| > 0 ==> Pick(xNames, subsets[j].idxs) <= labels
  {
    var ne := NonEmpty(subsets);
    var c := LabelCandidates(xNames, ne);
    FoldCompatible(c);
    forall j | 0 <= j < |subsets| && |subsets[j].idxs| > 0
      ensures Pick(xNames, subsets[j].idxs) <= FoldLabels(c)
    {
      NonEmptyKeeps(subsets, j);
      var m :| 0 <= m < |ne| && ne[m] == subsets[j];
      LabelCandidatesAt(xNames, ne, m);
    }
  }
}
