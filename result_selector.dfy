/** The results selector: the tree of benchmark records with tri-state check
    boxes, the collection of the checked records to plot, and the chart
    options offered for a result set (chart types, tree columns, X and Z
    parameter combos, and the rule that keeps X and Z apart). */
module ResultSelector {
  import opened PlotParameters
  import opened NumberText
  import opened ChartInput

  datatype CheckState = Unchecked | PartiallyChecked | Checked

  /** A row of the results tree: its check state, the record index it
      stores, its children and its parent. */
  class TreeItem {
    var state: CheckState
    var index: int
    var children: seq<TreeItem>
    var parent: TreeItem?

    /** A new item without children or parent. */
    constructor (state: CheckState, index: int)
      ensures this.state == state && this.index == index && children == [] && parent == null
    {
      this.state := state;
      this.index := index;
      children := [];
      parent := null;
    }
  }

  // ---------- tri-state propagation ----------

  /** The check states of some items, in order. */
  function States(items: seq<TreeItem>): (r: seq<CheckState>)
    reads items
    ensures |r| == |items|
  {
    if |items| == 0 then [] else States(items[..|items| - 1]) + [items[|items| - 1].state]
  }

  lemma {:induction false} StatesAt(items: seq<TreeItem>, k: int)
    requires 0 <= k < |items|
    ensures States(items)[k] == items[k].state
  {
    if k < |items| - 1 {
      StatesAt(items[..|items| - 1], k);
    }
  }

  /** The state a parent takes from its children's states: Checked when all
      are Checked (so also when there is none), Unchecked when all are
      Unchecked, and PartiallyChecked otherwise. */
  function DerivedState(states: seq<CheckState>): CheckState
  {
    if forall i :: 0 <= i < |states| ==> states[i] == Checked then Checked
    else if forall i :: 0 <= i < |states| ==> states[i] == Unchecked then Unchecked
    else PartiallyChecked
  }

  /** A parent that is not Unchecked has a child that is not Unchecked. */
  lemma DerivedNotUnchecked(states: seq<CheckState>)
    requires |states| > 0 && DerivedState(states) != Unchecked
    ensures exists i :: 0 <= i < |states| && states[i] != Unchecked
  {
    if DerivedState(states) == Checked {
      assert states[0] == Checked;
    }
  }

  /** Re-derives the parent's state from its children, scanning them until
      both "all checked" and "all unchecked" are ruled out. An item without
      parent changes nothing. */
  method UpdateItemParentsState(item: TreeItem)
    modifies if item.parent == null then {} else {item.parent}
    ensures item.parent == old(item.parent)
    ensures var p := old(item.parent);
            p != null ==>
              && p.state == DerivedState(old(States(p.children)))
              && p.children == old(p.children) && p.index == old(p.index) && p.parent == old(p.parent)
  {
    var parent := item.parent;
    if parent == null {
      return;
    }
    var allChecked, allUnchecked := true, true;
    var idx := 0;
    while (allChecked || allUnchecked) && idx < |parent.children|
      invariant 0 <= idx <= |parent.children|
      invariant allChecked <==> forall j :: 0 <= j < idx ==> parent.children[j].state == Checked
      invariant allUnchecked <==> forall j :: 0 <= j < idx ==> parent.children[j].state == Unchecked
    {
      allChecked := allChecked && parent.children[idx].state == Checked;
      allUnchecked := allUnchecked && parent.children[idx].state == Unchecked;
      idx := idx + 1;
    }
    ghost var states := States(parent.children);
    forall j | 0 <= j < |parent.children| ensures states[j] == parent.children[j].state {
      StatesAt(parent.children, j);
    }
    if allChecked {
      parent.state := Checked;
    } else if allUnchecked {
      parent.state := Unchecked;
    } else {
      parent.state := PartiallyChecked;
    }
  }

  /** Sets every item to one state, touching nothing else. */
  method SetStates(items: seq<TreeItem>, s: CheckState)
    modifies items
    ensures forall c :: c in items ==> c.state == s
    ensures forall c :: c in items ==> c.children == old(c.children) && c.index == old(c.index) && c.parent == old(c.parent)
  {
    var idx := 0;
    while idx < |items|
      invariant 0 <= idx <= |items|
      invariant forall j :: 0 <= j < idx ==> items[j].state == s
      invariant forall c :: c in items ==> c.children == old(c.children) && c.index == old(c.index) && c.parent == old(c.parent)
    {
      items[idx].state := s;
      idx := idx + 1;
    }
  }

  /** The state a child gets when its parent's state is pushed down:
      Checked and Unchecked are copied, PartiallyChecked changes nothing. */
  function PushedState(parentState: CheckState, childState: CheckState): CheckState
  {
    if parentState == PartiallyChecked then childState else parentState
  }

  /** A Checked or Unchecked item forces its direct children to its state;
      a PartiallyChecked item, or one without children, changes nothing. */
  method UpdateItemChildrenState(item: TreeItem)
    modifies item.children
    ensures item.children == old(item.children)
    ensures forall c :: c in item.children ==> c.state == PushedState(old(item.state), old(c.state))
    ensures forall c :: c in item.children ==> c.children == old(c.children) && c.index == old(c.index) && c.parent == old(c.parent)
  {
    if |item.children| <= 0 {
      return;
    }
    if item.state == Checked {
      SetStates(item.children, Checked);
    } else if item.state == Unchecked {
      SetStates(item.children, Unchecked);
    }
    // Nothing if PartiallyChecked
  }

  /** Whether the Plot button is enabled: some top-level item is not Unchecked. */
  method PlotEnabled(tops: seq<TreeItem>) returns (enabled: bool)
    ensures enabled <==> exists i :: 0 <= i < |tops| && tops[i].state != Unchecked
  {
    var allUnchecked := true;
    var i := 0;
    while allUnchecked && i < |tops|
      invariant 0 <= i <= |tops|
      invariant allUnchecked <==> forall j :: 0 <= j < i ==> tops[j].state == Unchecked
    {
      allUnchecked := allUnchecked && tops[i].state == Unchecked;
      i := i + 1;
    }
    enabled := !allUnchecked;
  }

  /** An item's parent is not among its own children (a tree has no cycles). */
  predicate NotOwnChild(p: TreeItem)
    reads p
  {
    p !in p.children
  }

  /** A changed check box: push the item's state down to its children, then
      re-derive its parent, then decide the Plot button (None: no item, the
      button is left alone). */
  method OnItemChanged(item: TreeItem?, tops: seq<TreeItem>) returns (plot: Option<bool>)
    requires item != null && item.parent != null ==> NotOwnChild(item.parent)
    modifies if item == null then [] else item.children
    modifies if item == null || item.parent == null then {} else {item.parent}
    ensures item == null ==> plot == None
    ensures item != null ==>
              && item.parent == old(item.parent)
              && (forall c :: c in old(item.children) && c != item.parent ==>
                    c.state == PushedState(old(item.state), old(c.state)))
              && (item.parent != null ==> item.parent.state == DerivedState(States(item.parent.children)))
              && plot == Some(exists i :: 0 <= i < |tops| && tops[i].state != Unchecked)
  {
    if item == null {
      return None;
    }
    UpdateItemChildrenState(item);
    UpdateItemParentsState(item);
    var enabled := PlotEnabled(tops);
    plot := Some(enabled);
  }

  // ---------- selection of the checked records ----------

  /** The stored indices of the Checked items among some siblings, in order. */
  function CheckedIdxs(items: seq<TreeItem>): seq<int>
    reads items
  {
    if |items| == 0 then []
    else
      var last := items[|items| - 1];
      CheckedIdxs(items[..|items| - 1]) + (if last.state == Checked then [last.index] else [])
  }

  /** A second-level item: itself when it has no children, else its Checked children. */
  function MidSelected(mid: TreeItem): seq<int>
    reads mid, mid.children
  {
    if |mid.children| <= 0 then (if mid.state == Checked then [mid.index] else [])
    else CheckedIdxs(mid.children)
  }

  function MidsSelected(mids: seq<TreeItem>): seq<int>
    reads *
  {
    if |mids| == 0 then []
    else MidsSelected(mids[..|mids| - 1]) + MidSelected(mids[|mids| - 1])
  }

  /** A top-level item: itself when it has no children, else what its children select. */
  function TopSelected(top: TreeItem): seq<int>
    reads *
  {
    if |top.children| <= 0 then (if top.state == Checked then [top.index] else [])
    else MidsSelected(top.children)
  }

  /** The records to plot: every Checked leaf of depth 1, 2 or 3 in tree order
      (an item of depth 3 counts by its own state whatever lies below it). */
  function Selected(tops: seq<TreeItem>): seq<int>
    reads *
  {
    if |tops| == 0 then []
    else Selected(tops[..|tops| - 1]) + TopSelected(tops[|tops| - 1])
  }

  /** The checked items among some siblings. */
  method CheckedChildIdxs(items: seq<TreeItem>) returns (idxs: seq<int>)
    ensures idxs == CheckedIdxs(items)
  {
    idxs := [];
    var j := 0;
    while j < |items|
      invariant 0 <= j <= |items|
      invariant idxs == CheckedIdxs(items[..j])
    {
      assert items[..j + 1][..j] == items[..j];
      if items[j].state == Checked {
        idxs := idxs + [items[j].index];
      }
      j := j + 1;
    }
    assert items[..j] == items;
  }

  /** What the children of a top-level item select. */
  method MidsSelectedIdxs(mids: seq<TreeItem>) returns (idxs: seq<int>)
    ensures idxs == MidsSelected(mids)
  {
    idxs := [];
    var i := 0;
    while i < |mids|
      invariant 0 <= i <= |mids|
      invariant idxs == MidsSelected(mids[..i])
    {
      var midItem := mids[i];
      assert mids[..i + 1][..i] == mids[..i];
      if |midItem.children| <= 0 {
        if midItem.state == Checked {
          idxs := idxs + [midItem.index];
        }
      } else {
        var low := CheckedChildIdxs(midItem.children);
        idxs := idxs + low;
      }
      i := i + 1;
    }
    assert mids[..i] == mids;
  }

  /** Walks the tree three levels deep, collecting checked leaves in order. */
  method GetSelectedBenchmarks(tops: seq<TreeItem>) returns (resIdxs: seq<int>)
    ensures resIdxs == Selected(tops)
  {
    resIdxs := [];
    var i := 0;
    while i < |tops|
      invariant 0 <= i <= |tops|
      invariant resIdxs == Selected(tops[..i])
    {
      var topItem := tops[i];
      assert tops[..i + 1][..i] == tops[..i];
      if |topItem.children| <= 0 {
        if topItem.state == Checked {
          resIdxs := resIdxs + [topItem.index];
        }
      } else {
        var mid := MidsSelectedIdxs(topItem.children);
        resIdxs := resIdxs + mid;
      }
      i := i + 1;
    }
    assert tops[..i] == tops;
  }

  /** A leaf never shows the partial state. */
  predicate LeafOk(item: TreeItem)
    reads item
  {
    |item.children| == 0 ==> item.state != PartiallyChecked
  }

  /** An item with children shows the state derived from them. */
  predicate DerivedOk(item: TreeItem)
    reads item, item.children
  {
    |item.children| > 0 ==> item.state == DerivedState(States(item.children))
  }

  predicate MidOk(mid: TreeItem)
    reads mid, mid.children
  {
    LeafOk(mid) && DerivedOk(mid) && forall c :: c in mid.children ==> |c.children| == 0 && c.state != PartiallyChecked
  }

  predicate TopOk(top: TreeItem)
    reads *
  {
    LeafOk(top) && DerivedOk(top) && forall m :: m in top.children ==> MidOk(m)
  }

  /** A tree at most three levels deep whose states are all propagated. */
  predicate Consistent(tops: seq<TreeItem>)
    reads *
  {
    forall t :: t in tops ==> TopOk(t)
  }

  lemma {:induction false} CheckedIdxsNonEmpty(items: seq<TreeItem>, k: int)
    requires 0 <= k < |items| && items[k].state == Checked
    ensures CheckedIdxs(items) != []
  {
    if k < |items| - 1 {
      CheckedIdxsNonEmpty(items[..|items| - 1], k);
    }
  }

  lemma {:induction false} MidsSelectedNonEmpty(mids: seq<TreeItem>, k: int)
    requires 0 <= k < |mids| && MidSelected(mids[k]) != []
    ensures MidsSelected(mids) != []
  {
    if k < |mids| - 1 {
      MidsSelectedNonEmpty(mids[..|mids| - 1], k);
    }
  }

  lemma {:induction false} SelectedNonEmpty(tops: seq<TreeItem>, k: int)
    requires 0 <= k < |tops| && TopSelected(tops[k]) != []
    ensures Selected(tops) != []
  {
    if k < |tops| - 1 {
      SelectedNonEmpty(tops[..|tops| - 1], k);
    }
  }

  /** A propagated item that is not Unchecked has a child that is not Unchecked. */
  lemma SomeChildNotUnchecked(item: TreeItem) returns (k: int)
    requires |item.children| > 0 && DerivedOk(item) && item.state != Unchecked
    ensures 0 <= k < |item.children| && item.children[k].state != Unchecked
  {
    DerivedNotUnchecked(States(item.children));
    k :| 0 <= k < |States(item.children)| && States(item.children)[k] != Unchecked;
    StatesAt(item.children, k);
  }

  /** A consistent second-level item that is not Unchecked selects something. */
  lemma MidNonEmpty(mid: TreeItem)
    requires MidOk(mid) && mid.state != Unchecked
    ensures MidSelected(mid) != []
  {
    if |mid.children| > 0 {
      var k := SomeChildNotUnchecked(mid);
      assert mid.children[k] in mid.children;
      CheckedIdxsNonEmpty(mid.children, k);
    }
  }

  /** A consistent top-level item that is not Unchecked selects something. */
  lemma TopNonEmpty(top: TreeItem)
    requires TopOk(top) && top.state != Unchecked
    ensures TopSelected(top) != []
  {
    if |top.children| > 0 {
      var k := SomeChildNotUnchecked(top);
      assert top.children[k] in top.children;
      MidNonEmpty(top.children[k]);
      MidsSelectedNonEmpty(top.children, k);
    }
  }

  /** On a consistent tree, an enabled Plot button means a non-empty selection. */
  lemma PlotEnabledSelects(tops: seq<TreeItem>, k: int)
    requires Consistent(tops) && 0 <= k < |tops| && tops[k].state != Unchecked
    ensures Selected(tops) != []
  {
    assert tops[k] in tops;
    TopNonEmpty(tops[k]);
    SelectedNonEmpty(tops, k);
  }

  // ---------- chart options ----------

  /** What the result set tells the selector. */
  datatype ResultsMeta = ResultsMeta(maxArguments: nat, maxTemplates: nat, hasAggregate: bool,
                                     hasBytesSec: bool, hasItemsSec: bool)

  /** The chart types offered, in combo order. */
  function OfferedChartTypes(meta: ResultsMeta): seq<PlotChartType>
  {
    var hasParams := meta.maxArguments > 0 || meta.maxTemplates > 0;
    (if hasParams then [ChartLineType, ChartSplineType] else [])
    + [ChartBarType, ChartHBarType]
    + (if meta.hasAggregate then [ChartBoxType] else [])
    + [Chart3DBarsType]
    + (if hasParams then [Chart3DSurfaceType] else [])
  }

  /** Lines, splines and 3D surfaces need a parameter for the X axis; box
      charts need aggregates; bars, horizontal bars and 3D bars are always offered. */
  lemma OfferedChartTypesMembers(meta: ResultsMeta)
    ensures var r := OfferedChartTypes(meta);
            && (ChartLineType in r <==> meta.maxArguments > 0 || meta.maxTemplates > 0)
            && (ChartSplineType in r <==> meta.maxArguments > 0 || meta.maxTemplates > 0)
            && (Chart3DSurfaceType in r <==> meta.maxArguments > 0 || meta.maxTemplates > 0)
            && (ChartBoxType in r <==> meta.hasAggregate)
            && ChartBarType in r && ChartHBarType in r && Chart3DBarsType in r
  {
  }

  /** The position of a chart type in the full combo. */
  function ChartTypeRank(t: PlotChartType): nat
  {
    match t
    case ChartLineType => 0
    case ChartSplineType => 1
    case ChartBarType => 2
    case ChartHBarType => 3
    case ChartBoxType => 4
    case Chart3DBarsType => 5
    case Chart3DSurfaceType => 6
  }

  lemma {:induction false} RankIncreasingDistinct(r: seq<PlotChartType>)
    requires forall i :: 0 <= i < |r| - 1 ==> ChartTypeRank(r[i]) < ChartTypeRank(r[i + 1])
    ensures forall i, j :: 0 <= i < j < |r| ==> ChartTypeRank(r[i]) < ChartTypeRank(r[j])
  {
    if |r| > 1 {
      var t := r[1..];
      RankIncreasingDistinct(t);
      forall i, j | 0 <= i < j < |r| ensures ChartTypeRank(r[i]) < ChartTypeRank(r[j]) {
        if i == 0 {
          if j > 1 {
            assert t[0] == r[1] && t[j - 1] == r[j];
          }
        } else {
          assert t[i - 1] == r[i] && t[j - 1] == r[j];
        }
      }
    }
  }

  /** The offered chart types keep the full combo's order, so none is offered twice. */
  lemma OfferedChartTypesDistinct(meta: ResultsMeta)
    ensures var r := OfferedChartTypes(meta);
            forall i, j :: 0 <= i < j < |r| ==> ChartTypeRank(r[i]) < ChartTypeRank(r[j]) && r[i] != r[j]
  {
    var hasParams := meta.maxArguments > 0 || meta.maxTemplates > 0;
    var r := OfferedChartTypes(meta);
    if hasParams && meta.hasAggregate {
      assert r == [ChartLineType, ChartSplineType, ChartBarType, ChartHBarType, ChartBoxType, Chart3DBarsType, Chart3DSurfaceType];
    } else if hasParams {
      assert r == [ChartLineType, ChartSplineType, ChartBarType, ChartHBarType, Chart3DBarsType, Chart3DSurfaceType];
    } else if meta.hasAggregate {
      assert r == [ChartBarType, ChartHBarType, ChartBoxType, Chart3DBarsType];
    } else {
      assert r == [ChartBarType, ChartHBarType, Chart3DBarsType];
    }
    RankIncreasingDistinct(r);
  }

  /** The number of tree columns: 5, one more for bytes/s, one more for items/s. */
  function ColumnCount(meta: ResultsMeta): nat
  {
    5 + (if meta.hasBytesSec then 1 else 0) + (if meta.hasItemsSec then 1 else 0)
  }

  /** The tree header labels: minimum values when the results are aggregates. */
  function HeaderLabels(meta: ResultsMeta): seq<string>
  {
    ["Benchmark", "Templates", "Arguments"]
    + (if !meta.hasAggregate then
         ["Real time (us)", "CPU time (us)"]
         + (if meta.hasBytesSec then ["Bytes/s (k)"] else [])
         + (if meta.hasItemsSec then ["Items/s (k)"] else [])
       else
         ["Real min time (us)", "CPU min time (us)"]
         + (if meta.hasBytesSec then ["Bytes/s min (k)"] else [])
         + (if meta.hasItemsSec then ["Items/s min (k)"] else []))
  }

  predicate HasSuffix(s: string, suffix: string)
  {
    |suffix| <= |s| && s[|s| - |suffix|..] == suffix
  }

  /** The column count set for the tree matches its header labels, and the
      time columns carry the microsecond unit. */
  lemma HeaderLabelsFitColumns(meta: ResultsMeta)
    ensures |HeaderLabels(meta)| == ColumnCount(meta)
    ensures HasSuffix(HeaderLabels(meta)[3], "(us)") && HasSuffix(HeaderLabels(meta)[4], "(us)")
  {
  }

  /** An entry of the X or Z combo: its text and its (kind, index) data. */
  datatype ComboItem = ComboItem(text: string, kind: PlotParamType, idx: nat)

  /** The parameter entries: every argument, then every template. */
  function ParamItems(meta: ResultsMeta): (r: seq<ComboItem>)
    ensures |r| == meta.maxArguments + meta.maxTemplates
  {
    seq(meta.maxArguments, i requires 0 <= i < meta.maxArguments => ComboItem("Argument " + IntText(i + 1), PlotArgumentType, i))
    + seq(meta.maxTemplates, i requires 0 <= i < meta.maxTemplates => ComboItem("Template " + IntText(i + 1), PlotTemplateType, i))
  }

  /** The X combo: the parameter entries (disabled when there is none). */
  function XItems(meta: ResultsMeta): seq<ComboItem>
  {
    ParamItems(meta)
  }

  /** The Z combo: "Auto" (no parameter) first, then the parameter entries;
      nothing when the X combo is disabled. */
  function ZItems(meta: ResultsMeta): seq<ComboItem>
  {
    if |XItems(meta)| > 0 then [ComboItem("Auto", PlotEmptyType, 0)] + ParamItems(meta) else []
  }

  predicate SameData(a: ComboItem, b: ComboItem)
  {
    a.kind == b.kind && a.idx == b.idx
  }

  /** Every parameter entry reads as its axis title and names a real
      parameter; no two entries carry the same data. */
  lemma ParamItemsWellFormed(meta: ResultsMeta)
    ensures var r := ParamItems(meta);
            && (forall i :: 0 <= i < |r| ==> Some(r[i].text) == AxisTitle(r[i].kind, r[i].idx))
            && (forall i :: 0 <= i < |r| ==> r[i].kind != PlotEmptyType)
            && (forall i, j :: 0 <= i < j < |r| ==> !SameData(r[i], r[j]))
  {
  }

  /** The slot run when X is chosen: if Z now holds the same data, Z moves
      to entry 1 when it was at entry 0, and to entry 0 otherwise. */
  function OnComboXChanged(xItems: seq<ComboItem>, zItems: seq<ComboItem>, xCur: nat, zCur: nat): (zNew: nat)
    requires xCur < |xItems| && zCur < |zItems|
    ensures !SameData(xItems[xCur], zItems[zCur]) ==> zNew == zCur
  {
    if SameData(xItems[xCur], zItems[zCur]) then (if zCur == 0 then 1 else 0) else zCur
  }

  /** Choosing X always leaves a valid Z entry that differs from X: Z can
      only collide with X on a parameter entry, and then returns to "Auto". */
  lemma ComboXSeparates(meta: ResultsMeta, xCur: nat, zCur: nat)
    requires xCur < |XItems(meta)| && zCur < |ZItems(meta)|
    ensures var zNew := OnComboXChanged(XItems(meta), ZItems(meta), xCur, zCur);
            zNew < |ZItems(meta)| && !SameData(XItems(meta)[xCur], ZItems(meta)[zNew])
  {
    ParamItemsWellFormed(meta);
  }

  /** The slot run when Z is chosen, as written: if X now holds the same
      data, X moves to entry 1 when it was at entry 0, and to entry 0 otherwise. */
  function OnComboZChanged(xItems: seq<ComboItem>, zItems: seq<ComboItem>, xCur: nat, zCur: nat): (xNew: nat)
    requires xCur < |xItems| && zCur < |zItems|
    ensures !SameData(xItems[xCur], zItems[zCur]) ==> xNew == xCur
  {
    if SameData(xItems[xCur], zItems[zCur]) then (if xCur == 0 then 1 else 0) else xCur
  }

  /** With at least two X entries, choosing Z leaves a valid X entry that differs from Z. */
  lemma ComboZSeparates(meta: ResultsMeta, xCur: nat, zCur: nat)
    requires xCur < |XItems(meta)| && zCur < |ZItems(meta)| && |XItems(meta)| >= 2
    ensures var xNew := OnComboZChanged(XItems(meta), ZItems(meta), xCur, zCur);
            xNew < |XItems(meta)| && !SameData(XItems(meta)[xNew], ZItems(meta)[zCur])
  {
    ParamItemsWellFormed(meta);
  }

  /** With a single parameter, choosing it for Z moves X to entry 1, which does not exist. */
  lemma ComboZLeavesRange()
    ensures var meta := ResultsMeta(1, 0, false, false, false);
            && |XItems(meta)| == 1 && |ZItems(meta)| == 2
            && OnComboZChanged(XItems(meta), ZItems(meta), 0, 1) == 1
  {
    var meta := ResultsMeta(1, 0, false, false, false);
    assert XItems(meta)[0] == ComboItem("Argument " + IntText(1), PlotArgumentType, 0);
    assert ZItems(meta)[1] == XItems(meta)[0];
  }

  /** The new X and Z entries after Z is chosen. */
  datatype ComboPair = ComboPair(xCur: nat, zCur: nat)

  /** The slot run when Z is chosen, corrected: when X has no other entry to
      move to, Z returns to "Auto" instead. */
  function OnComboZChangedSafe(xItems: seq<ComboItem>, zItems: seq<ComboItem>, xCur: nat, zCur: nat): (r: ComboPair)
    requires xCur < |xItems| && zCur < |zItems|
    ensures !SameData(xItems[xCur], zItems[zCur]) ==> r == ComboPair(xCur, zCur)
  {
    if !SameData(xItems[xCur], zItems[zCur]) then ComboPair(xCur, zCur)
    else if |xItems| < 2 then ComboPair(xCur, 0)
    else ComboPair(if xCur == 0 then 1 else 0, zCur)
  }

  /** The corrected slot always leaves valid, distinct X and Z entries. */
  lemma ComboZSafeSeparates(meta: ResultsMeta, xCur: nat, zCur: nat)
    requires xCur < |XItems(meta)| && zCur < |ZItems(meta)|
    ensures var r := OnComboZChangedSafe(XItems(meta), ZItems(meta), xCur, zCur);
            && r.xCur < |XItems(meta)| && r.zCur < |ZItems(meta)|
            && !SameData(XItems(meta)[r.xCur], ZItems(meta)[r.zCur])
  {
    ParamItemsWellFormed(meta);
  }
}
