/** What the chart builders receive from the result store. The grouping
    functions (groupParam, segmentParam, segment2DNames) and the parameter
    name lookup (getParamName) live in code outside this model, so their
    results are inputs here: a subset is a name and the record indices it
    holds, in order, and xNames gives the X label of every record. */
module ChartInput {
  import opened PlotParameters
  import opened NumberText

  datatype Option<T> = None | Some(value: T)

  /** One group of records sharing a name (groupParam / segmentParam output). */
  datatype BenchSubset = BenchSubset(name: string, idxs: seq<nat>)

  /** Indices refer to existing records. */
  predicate ValidIdxs(n: nat, idxs: seq<nat>)
  {
    forall k :: 0 <= k < |idxs| ==> idxs[k] < n
  }

  predicate ValidSubset(n: nat, s: BenchSubset)
  {
    ValidIdxs(n, s.idxs)
  }

  predicate ValidSubsets(n: nat, subsets: seq<BenchSubset>)
  {
    forall i :: 0 <= i < |subsets| ==> ValidSubset(n, subsets[i])
  }

  /** The names of the subsets, in order. */
  function SubsetNames(subsets: seq<BenchSubset>): (r: seq<string>)
    ensures |r| == |subsets| && forall j :: 0 <= j < |subsets| ==> r[j] == subsets[j].name
  {
    if |subsets| == 0 then [] else SubsetNames(subsets[..|subsets| - 1]) + [subsets[|subsets| - 1].name]
  }

  /** The Y value of every record, in record order, for the chosen value type. */
  function YValues(benchmarks: seq<BenchData>, yType: PlotValueType): (ys: seq<real>)
    ensures |ys| == |benchmarks|
  {
    seq(|benchmarks|, k requires 0 <= k < |benchmarks| => GetYPlotValue(benchmarks[k], yType))
  }

  /** The elements at the given indices, in index order: the X labels or the
      Y values of a subset's records. */
  function Pick<T>(xs: seq<T>, idxs: seq<nat>): (r: seq<T>)
    requires ValidIdxs(|xs|, idxs)
    ensures |r| == |idxs| && forall k :: 0 <= k < |idxs| ==> r[k] == xs[idxs[k]]
  {
    if |idxs| == 0 then [] else Pick(xs, idxs[..|idxs| - 1]) + [xs[idxs[|idxs| - 1]]]
  }

  /** Reads one subset's records in index order, collecting their X labels
      and Y values. */
  method ReadSubset(ys: seq<real>, xNames: seq<string>, s: BenchSubset)
    returns (labels: seq<string>, values: seq<real>)
    requires |xNames| == |ys| && ValidSubset(|ys|, s)
    ensures labels == Pick(xNames, s.idxs) && values == Pick(ys, s.idxs)
  {
    labels, values := [], [];
    var k := 0;
    while k < |s.idxs|
      invariant 0 <= k <= |s.idxs|
      invariant labels == Pick(xNames, s.idxs[..k])
      invariant values == Pick(ys, s.idxs[..k])
    {
      assert s.idxs[..k + 1][..k] == s.idxs[..k];
      labels := labels + [xNames[s.idxs[k]]];
      values := values + [ys[s.idxs[k]]];
      k := k + 1;
    }
    assert s.idxs[..k] == s.idxs;
  }

  /** The subsets that hold at least one record, in their original order. */
  function NonEmpty(subsets: seq<BenchSubset>): (r: seq<BenchSubset>)
    ensures |r| <= |subsets|
    ensures forall j :: 0 <= j < |r| ==> |r[j].idxs| > 0 && r[j] in subsets
  {
    if |subsets| == 0 then []
    else
      var init := NonEmpty(subsets[..|subsets| - 1]);
      var last := subsets[|subsets| - 1];
      if |last.idxs| > 0 then init + [last] else init
  }

  /** One more subset is kept exactly when it holds records. */
  lemma NonEmptySnoc(subsets: seq<BenchSubset>, i: int)
    requires 0 <= i < |subsets|
    ensures NonEmpty(subsets[..i + 1]) ==
              if |subsets[i].idxs| > 0 then NonEmpty(subsets[..i]) + [subsets[i]] else NonEmpty(subsets[..i])
  {
    assert subsets[..i + 1][..i] == subsets[..i];
  }

  /** A subset with records is never dropped. */
  lemma {:induction false} NonEmptyKeeps(subsets: seq<BenchSubset>, i: int)
    requires 0 <= i < |subsets| && |subsets[i].idxs| > 0
    ensures subsets[i] in NonEmpty(subsets)
  {
    var init := subsets[..|subsets| - 1];
    if i < |subsets| - 1 {
      assert init[i] == subsets[i];
      NonEmptyKeeps(init, i);
    }
  }

  /** One Z-subset of a 2D name (segmentParam output) with its X-groups
      (groupParam output over the Z-subset's records). */
  datatype ZSubset = ZSubset(name: string, idxs: seq<nat>, groups: seq<BenchSubset>)

  /** One 2D name (segment2DNames output) with its Z-subsets. */
  datatype Name2D = Name2D(name: string, zSubs: seq<ZSubset>)

  predicate ValidZSubsets(n: nat, zSubs: seq<ZSubset>)
  {
    forall z :: 0 <= z < |zSubs| ==> ValidIdxs(n, zSubs[z].idxs) && ValidSubsets(n, zSubs[z].groups)
  }

  predicate ValidNames(n: nat, names: seq<Name2D>)
  {
    forall s :: 0 <= s < |names| ==> ValidZSubsets(n, names[s].zSubs)
  }

  /** The number of X-groups over a list of Z-subsets. */
  function GroupCount(zSubs: seq<ZSubset>): nat
  {
    if |zSubs| == 0 then 0 else GroupCount(zSubs[..|zSubs| - 1]) + |zSubs[|zSubs| - 1].groups|
  }

  /** The names of the Z-subsets, in order: a series' row labels. */
  function ZNames(zSubs: seq<ZSubset>): (r: seq<string>)
    ensures |r| == |zSubs| && forall z :: 0 <= z < |zSubs| ==> r[z] == zSubs[z].name
  {
    if |zSubs| == 0 then [] else ZNames(zSubs[..|zSubs| - 1]) + [zSubs[|zSubs| - 1].name]
  }

  /** The column-label candidates of a list of subsets, one per subset. */
  function LabelCandidates(xNames: seq<string>, subsets: seq<BenchSubset>): (r: seq<seq<string>>)
    requires ValidSubsets(|xNames|, subsets)
    ensures |r| == |subsets|
  {
    if |subsets| == 0 then []
    else LabelCandidates(xNames, subsets[..|subsets| - 1]) + [Pick(xNames, subsets[|subsets| - 1].idxs)]
  }

  /** The j-th candidate is the j-th subset's X labels. */
  lemma {:induction false} LabelCandidatesAt(xNames: seq<string>, subsets: seq<BenchSubset>, j: int)
    requires ValidSubsets(|xNames|, subsets) && 0 <= j < |subsets|
    ensures LabelCandidates(xNames, subsets)[j] == Pick(xNames, subsets[j].idxs)
  {
    if j < |subsets| - 1 {
      LabelCandidatesAt(xNames, subsets[..|subsets| - 1], j);
    }
  }

  /** One more subset adds its X labels as one more candidate. */
  lemma LabelCandidatesSnoc(xNames: seq<string>, subsets: seq<BenchSubset>, s: BenchSubset)
    requires ValidSubsets(|xNames|, subsets) && ValidSubset(|xNames|, s)
    ensures ValidSubsets(|xNames|, subsets + [s])
    ensures LabelCandidates(xNames, subsets + [s]) == LabelCandidates(xNames, subsets) + [Pick(xNames, s.idxs)]
  {
    assert (subsets + [s])[..|subsets|] == subsets;
  }

  /** n copies of one row: what appending the same row buffer n times amounts to. */
  function Repeat<T>(row: T, n: nat): (r: seq<T>)
    ensures |r| == n && forall k :: 0 <= k < n ==> r[k] == row
  {
    if n == 0 then [] else Repeat(row, n - 1) + [row]
  }

  /** The title of an X or Z axis: "Argument n" or "Template n", counted from 1;
      no title for an empty axis kind. */
  function AxisTitle(kind: PlotParamType, idx: int): (r: Option<string>)
    ensures kind == PlotEmptyType <==> r == None
  {
    match kind
    case PlotArgumentType => Some("Argument " + IntText(idx + 1))
    case PlotTemplateType => Some("Template " + IntText(idx + 1))
    case PlotEmptyType => None
  }

  /** Distinct axes get distinct titles. */
  lemma AxisTitleInjective(k1: PlotParamType, i1: int, k2: PlotParamType, i2: int)
    requires i1 >= 0 && i2 >= 0
    requires AxisTitle(k1, i1) == AxisTitle(k2, i2)
    ensures k1 == k2 && (k1 != PlotEmptyType ==> i1 == i2)
  {
    if k1 != PlotEmptyType {
      TitleParts(k1, i1);
      TitleParts(k2, i2);
      NatTextInjective(i1 + 1, i2 + 1);
    }
  }

  /** A title is its initial letter's word, a space, and the 1-based number. */
  lemma TitleParts(k: PlotParamType, i: int)
    requires k != PlotEmptyType && i >= 0
    ensures AxisTitle(k, i).Some? && |AxisTitle(k, i).value| >= 9
    ensures AxisTitle(k, i).value[0] == if k == PlotArgumentType then 'A' else 'T'
    ensures AxisTitle(k, i).value[9..] == NatText(i + 1)
  {
    var w := if k == PlotArgumentType then "Argument " else "Template ";
    assert AxisTitle(k, i).value == w + NatText(i + 1);
  }
}
