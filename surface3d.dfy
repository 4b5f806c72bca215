/** The data of the 3D surface chart. A list of subsets is admitted only
    when every subset has as many records as the first and at least two.
    Without a Z parameter one series gets a row per X-group subset, the row
    ordinal serving as Z. With a Z parameter each 2D name gets a series with
    one row buffer per Z-subset, which the Z-subset's X-groups fill in turn
    and which is added to the series once per X-group. The X coordinate of a
    point is its record's X label, and with a Z parameter the Z coordinate is
    the Z-subset's name: turning labels into numbers (getParamValue) is not
    part of this model. */
module Surface3D {
  import opened PlotParameters
  import opened ChartInput

  /** The Z coordinate of a point: the row ordinal, or the Z-subset's name. */
  datatype SurfaceZ = ZOrdinal(k: nat) | ZNamed(zName: string)

  /** A surface data item: still at the default position, or placed at a
      record's X label, Y value and Z coordinate. */
  datatype SurfaceItem = Origin | At(x: string, y: real, z: SurfaceZ)

  /** Outcome of the shape check; a failure names the culprit reported. */
  datatype Shape = Admitted | Asymmetric(culprit: string) | TooFew(culprit: string)

  /** The warnings the builder emits. */
  datatype Diag = NoZValues | Inconsistent(subject: string) | NotEnough(subject: string)

  /** The shape check from position i on: stop at the first size that differs
      from the reference (asymmetric) or is below 2 (too few points). */
  function ShapeFrom(sizes: seq<nat>, ref: nat, i: nat, culprit: string): (r: Shape)
    requires i <= |sizes|
    ensures r != Admitted ==> r.culprit == culprit
    decreases |sizes| - i
  {
    if i == |sizes| then Admitted
    else if sizes[i] != ref then Asymmetric(culprit)
    else if sizes[i] < 2 then TooFew(culprit)
    else ShapeFrom(sizes, ref, i + 1, culprit)
  }

  /** The shape check against the first size; the culprit is always the first subset. */
  function ShapeOf(sizes: seq<nat>, firstName: string): Shape
    requires |sizes| > 0
  {
    ShapeFrom(sizes, sizes[0], 0, firstName)
  }

  /** With a reference size of at least 2, the check from position i admits
      exactly when every later size equals the reference, and otherwise
      reports an asymmetry, never too few points. */
  lemma {:induction false} ShapeFromRef(sizes: seq<nat>, ref: nat, i: nat, culprit: string)
    requires i <= |sizes| && ref >= 2
    ensures ShapeFrom(sizes, ref, i, culprit) == Admitted <==> forall j :: i <= j < |sizes| ==> sizes[j] == ref
    ensures !ShapeFrom(sizes, ref, i, culprit).TooFew?
    decreases |sizes| - i
  {
    if i < |sizes| && sizes[i] == ref {
      ShapeFromRef(sizes, ref, i + 1, culprit);
    }
  }

  /** The whole outcome of the check: too few points exactly when the first
      subset has fewer than 2 records (so an asymmetry is reported in
      preference only once the first subset is large enough), asymmetric when
      some size differs from the first, and admitted otherwise. The culprit
      is always the first subset's name. */
  lemma ShapeOutcome(sizes: seq<nat>, firstName: string)
    requires |sizes| > 0
    ensures ShapeOf(sizes, firstName) == TooFew(firstName) <==> sizes[0] < 2
    ensures ShapeOf(sizes, firstName) == Asymmetric(firstName) <==>
              sizes[0] >= 2 && exists j :: 0 <= j < |sizes| && sizes[j] != sizes[0]
    ensures ShapeOf(sizes, firstName) == Admitted <==>
              sizes[0] >= 2 && forall j :: 0 <= j < |sizes| ==> sizes[j] == sizes[0]
  {
    if sizes[0] >= 2 {
      ShapeFromRef(sizes, sizes[0], 1, firstName);
      assert ShapeOf(sizes, firstName) == ShapeFrom(sizes, sizes[0], 1, firstName);
      if ShapeOf(sizes, firstName) == Admitted {
        assert forall j :: 0 <= j < |sizes| ==> sizes[j] == sizes[0] by {
          forall j | 0 <= j < |sizes| ensures sizes[j] == sizes[0] {
            if j > 0 { assert 1 <= j < |sizes|; }
          }
        }
      }
    }
  }

  /** The admission loop: it stops at the first failing subset and blames
      the first subset. */
  method CheckShape(sizes: seq<nat>, firstName: string) returns (shape: Shape)
    requires |sizes| > 0
    ensures shape == ShapeOf(sizes, firstName)
  {
    var symOK, minOK := true, true;
    var culprit := "";
    var refSize := sizes[0];
    var i := 0;
    while symOK && minOK && i < |sizes|
      invariant 0 <= i <= |sizes|
      invariant symOK && minOK ==> ShapeOf(sizes, firstName) == ShapeFrom(sizes, refSize, i, firstName)
      invariant !symOK ==> ShapeOf(sizes, firstName) == Asymmetric(culprit)
      invariant symOK && !minOK ==> ShapeOf(sizes, firstName) == TooFew(culprit)
    {
      symOK := sizes[i] == refSize;
      minOK := sizes[i] >= 2;
      if !symOK || !minOK {
        culprit := firstName;
      }
      i := i + 1;
    }
    if !symOK {
      shape := Asymmetric(culprit);
    } else if !minOK {
      shape := TooFew(culprit);
    } else {
      shape := Admitted;
    }
  }

  /** The warning for a rejected shape, about the given subject. */
  function ShapeDiag(shape: Shape, subject: string): (d: Option<Diag>)
    ensures d == None <==> shape == Admitted
  {
    match shape
    case Admitted => None
    case Asymmetric(_) => Some(Inconsistent(subject))
    case TooFew(_) => Some(NotEnough(subject))
  }

  function SubsetSizes(subsets: seq<BenchSubset>): (r: seq<nat>)
    ensures |r| == |subsets|
  {
    seq(|subsets|, i requires 0 <= i < |subsets| => |subsets[i].idxs|)
  }

  function ZSizes(zSubs: seq<ZSubset>): (r: seq<nat>)
    ensures |r| == |zSubs|
  {
    seq(|zSubs|, i requires 0 <= i < |zSubs| => |zSubs[i].idxs|)
  }

  /** The points of some records, one per index, in index order, at Z coordinate z. */
  function PointsOf(ys: seq<real>, xNames: seq<string>, idxs: seq<nat>, z: SurfaceZ): (r: seq<SurfaceItem>)
    requires |xNames| == |ys| && ValidIdxs(|ys|, idxs)
    ensures |r| == |idxs| && forall k :: 0 <= k < |idxs| ==> r[k] == At(xNames[idxs[k]], ys[idxs[k]], z)
  {
    if |idxs| == 0 then []
    else PointsOf(ys, xNames, idxs[..|idxs| - 1], z) + [At(xNames[idxs[|idxs| - 1]], ys[idxs[|idxs| - 1]], z)]
  }

  /** A row buffer after writing some points from its start. */
  function Overwrite(row: seq<SurfaceItem>, pts: seq<SurfaceItem>): (r: seq<SurfaceItem>)
    requires |pts| <= |row|
    ensures |r| == |row|
    ensures forall k :: 0 <= k < |row| ==> r[k] == if k < |pts| then pts[k] else row[k]
  {
    pts + row[|pts|..]
  }

  /** Writes points at positions 0, 1, ... of a row buffer, leaving the rest as it was. */
  method FillRow(ys: seq<real>, xNames: seq<string>, idxs: seq<nat>, z: SurfaceZ, row: array<SurfaceItem>)
    requires |xNames| == |ys| && ValidIdxs(|ys|, idxs) && |idxs| <= row.Length
    modifies row
    ensures row[..] == Overwrite(old(row[..]), PointsOf(ys, xNames, idxs, z))
  {
    var index := 0;
    while index < |idxs|
      invariant 0 <= index <= |idxs|
      invariant forall j :: 0 <= j < row.Length ==>
                  row[j] == if j < index then At(xNames[idxs[j]], ys[idxs[j]], z) else old(row[j])
    {
      row[index] := At(xNames[idxs[index]], ys[idxs[index]], z);
      index := index + 1;
    }
  }

  /** A fresh row buffer with room for exactly the points written is those points. */
  lemma OverwriteAll(n: nat, pts: seq<SurfaceItem>)
    requires |pts| == n
    ensures Overwrite(seq(n, _ => Origin), pts) == pts
  {
  }

  // ---------- without a Z parameter ----------

  /** The rows without Z: row k holds X-group k's points at Z ordinal k. */
  function NoZRows(ys: seq<real>, xNames: seq<string>, subsets: seq<BenchSubset>): (r: seq<seq<SurfaceItem>>)
    requires |xNames| == |ys| && ValidSubsets(|ys|, subsets)
    ensures |r| == |subsets|
  {
    if |subsets| == 0 then []
    else NoZRows(ys, xNames, subsets[..|subsets| - 1])
         + [PointsOf(ys, xNames, subsets[|subsets| - 1].idxs, ZOrdinal(|subsets| - 1))]
  }

  /** Row k is subset k's points, one per index in index order, with Z fallback k. */
  lemma {:induction false} NoZRowsAt(ys: seq<real>, xNames: seq<string>, subsets: seq<BenchSubset>, k: int)
    requires |xNames| == |ys| && ValidSubsets(|ys|, subsets) && 0 <= k < |subsets|
    ensures NoZRows(ys, xNames, subsets)[k] == PointsOf(ys, xNames, subsets[k].idxs, ZOrdinal(k))
  {
    if k < |subsets| - 1 {
      NoZRowsAt(ys, xNames, subsets[..|subsets| - 1], k);
    }
  }

  /** One no-Z row: a buffer sized for the subset, filled in index order. */
  method NoZRow(ys: seq<real>, xNames: seq<string>, s: BenchSubset, zFallback: nat) returns (row: seq<SurfaceItem>)
    requires |xNames| == |ys| && ValidSubset(|ys|, s)
    ensures row == PointsOf(ys, xNames, s.idxs, ZOrdinal(zFallback))
  {
    var newRow := new SurfaceItem[|s.idxs|](_ => Origin);
    assert newRow[..] == seq(|s.idxs|, _ => Origin);
    FillRow(ys, xNames, s.idxs, ZOrdinal(zFallback), newRow);
    OverwriteAll(|s.idxs|, PointsOf(ys, xNames, s.idxs, ZOrdinal(zFallback)));
    row := newRow[..];
  }

  /** The no-Z series: its rows, whether it is added to the chart, and the warning. */
  datatype NoZSurface = NoZSurface(rows: seq<seq<SurfaceItem>>, added: bool, diag: Option<Diag>)

  /** The rows loop of an admitted list, with the row-size consistency check. */
  method NoZBuildRows(ys: seq<real>, xNames: seq<string>, subsets: seq<BenchSubset>)
    returns (rows: seq<seq<SurfaceItem>>, symBchOK: bool)
    requires |xNames| == |ys| && ValidSubsets(|ys|, subsets) && |subsets| > 0
    requires forall j :: 0 <= j < |subsets| ==> |subsets[j].idxs| == |subsets[0].idxs|
    ensures symBchOK && rows == NoZRows(ys, xNames, subsets)
  {
    rows := [];
    symBchOK := true;
    var prevRowSize := 0;
    var zFallback := 0;
    var i := 0;
    while i < |subsets|
      invariant 0 <= i <= |subsets| && zFallback == i && symBchOK
      invariant prevRowSize == if i == 0 then 0 else |subsets[0].idxs|
      invariant rows == NoZRows(ys, xNames, subsets[..i])
    {
      var s := subsets[i];
      if prevRowSize > 0 && prevRowSize != |s.idxs| {
        symBchOK := false;  // never taken: every size equals the first
        break;
      }
      prevRowSize := |s.idxs|;
      var row := NoZRow(ys, xNames, s, zFallback);
      assert subsets[..i + 1][..i] == subsets[..i];
      rows := rows + [row];
      zFallback := zFallback + 1;
      i := i + 1;
    }
    assert subsets[..i] == subsets;
  }

  /** Without a Z parameter: an admitted list gives one row per subset and
      the series is added; a rejected one gives no row, no series and the
      warning naming the first subset. */
  method SurfaceNoZ(benchmarks: seq<BenchData>, xNames: seq<string>, yType: PlotValueType,
                    subsets: seq<BenchSubset>) returns (r: NoZSurface)
    requires |xNames| == |benchmarks| && ValidSubsets(|benchmarks|, subsets) && |subsets| > 0
    ensures var shape := ShapeOf(SubsetSizes(subsets), subsets[0].name);
            r == if shape == Admitted then NoZSurface(NoZRows(YValues(benchmarks, yType), xNames, subsets), true, None)
                 else NoZSurface([], false, ShapeDiag(shape, subsets[0].name))
  {
    var ys := YValues(benchmarks, yType);
    var sizes := SubsetSizes(subsets);
    var shape := CheckShape(sizes, subsets[0].name);
    if shape != Admitted {
      r := NoZSurface([], false, ShapeDiag(shape, shape.culprit));
      return;
    }
    ShapeOutcome(sizes, subsets[0].name);
    assert forall j :: 0 <= j < |subsets| ==> |subsets[j].idxs| == sizes[j];
    var rows, symBchOK := NoZBuildRows(ys, xNames, subsets);
    r := NoZSurface(rows, symBchOK && |rows| > 0, None);
  }

  // ---------- with a Z parameter ----------

  /** Every X-group of a Z-subset fits in the Z-subset's row buffer, as the
      X-groups split the Z-subset's records. */
  predicate GroupsFit(zSub: ZSubset)
  {
    forall g :: 0 <= g < |zSub.groups| ==> |zSub.groups[g].idxs| <= |zSub.idxs|
  }

  predicate ValidZSurface(n: nat, zSub: ZSubset)
  {
    ValidSubsets(n, zSub.groups) && GroupsFit(zSub)
  }

  /** The row buffer of a Z-subset after the first groups wrote their points
      from position 0: later groups overwrite earlier ones. */
  function ZRowFill(ys: seq<real>, xNames: seq<string>, zSub: ZSubset, g: nat): (r: seq<SurfaceItem>)
    requires |xNames| == |ys| && ValidZSurface(|ys|, zSub) && g <= |zSub.groups|
    ensures |r| == |zSub.idxs|
  {
    if g == 0 then seq(|zSub.idxs|, _ => Origin)
    else Overwrite(ZRowFill(ys, xNames, zSub, g - 1), PointsOf(ys, xNames, zSub.groups[g - 1].idxs, ZNamed(zSub.name)))
  }

  /** The point a cell ends up with: that of the last of the first g groups
      long enough to reach it, or the default when none is. */
  function LastCover(ys: seq<real>, xNames: seq<string>, zSub: ZSubset, g: nat, k: nat): SurfaceItem
    requires |xNames| == |ys| && ValidZSurface(|ys|, zSub) && g <= |zSub.groups|
  {
    if g == 0 then Origin
    else if k < |zSub.groups[g - 1].idxs| then
      var idx := zSub.groups[g - 1].idxs[k];
      At(xNames[idx], ys[idx], ZNamed(zSub.name))
    else LastCover(ys, xNames, zSub, g - 1, k)
  }

  /** Each cell of the filled buffer holds the point of the last group that reaches it. */
  lemma {:induction false} ZRowFillAt(ys: seq<real>, xNames: seq<string>, zSub: ZSubset, g: nat, k: nat)
    requires |xNames| == |ys| && ValidZSurface(|ys|, zSub) && g <= |zSub.groups| && k < |zSub.idxs|
    ensures ZRowFill(ys, xNames, zSub, g)[k] == LastCover(ys, xNames, zSub, g, k)
  {
    if g > 0 {
      ZRowFillAt(ys, xNames, zSub, g - 1, k);
    }
  }

  /** A Z-subset whose records form one X-group gets exactly that group's points. */
  lemma ZRowSingleGroup(ys: seq<real>, xNames: seq<string>, zSub: ZSubset)
    requires |xNames| == |ys| && ValidZSurface(|ys|, zSub)
    requires |zSub.groups| == 1 && |zSub.groups[0].idxs| == |zSub.idxs|
    ensures ZRowFill(ys, xNames, zSub, 1) == PointsOf(ys, xNames, zSub.groups[0].idxs, ZNamed(zSub.name))
  {
    OverwriteAll(|zSub.idxs|, PointsOf(ys, xNames, zSub.groups[0].idxs, ZNamed(zSub.name)));
  }

  /** One Z-subset: a buffer sized for the Z-subset, filled by each X-group
      in turn, and the number of times it is added (once per X-group). */
  method ZSubsetRow(ys: seq<real>, xNames: seq<string>, zSub: ZSubset) returns (row: seq<SurfaceItem>, added: nat)
    requires |xNames| == |ys| && ValidZSurface(|ys|, zSub)
    ensures row == ZRowFill(ys, xNames, zSub, |zSub.groups|) && added == |zSub.groups|
  {
    var newRow := new SurfaceItem[|zSub.idxs|](_ => Origin);
    assert newRow[..] == ZRowFill(ys, xNames, zSub, 0);
    added := 0;
    var g := 0;
    while g < |zSub.groups|
      invariant 0 <= g <= |zSub.groups| && added == g
      invariant newRow[..] == ZRowFill(ys, xNames, zSub, g)
    {
      FillRow(ys, xNames, zSub.groups[g].idxs, ZNamed(zSub.name), newRow);
      added := added + 1;  // the same buffer is added once more
      g := g + 1;
    }
    row := newRow[..];
  }

  predicate ValidZSurfaces(n: nat, zSubs: seq<ZSubset>)
  {
    forall z :: 0 <= z < |zSubs| ==> ValidZSurface(n, zSubs[z])
  }

  /** The rows of one series: each Z-subset's final buffer, once per X-group. */
  function ZSurfaceRows(ys: seq<real>, xNames: seq<string>, zSubs: seq<ZSubset>): seq<seq<SurfaceItem>>
    requires |xNames| == |ys| && ValidZSurfaces(|ys|, zSubs)
  {
    if |zSubs| == 0 then []
    else
      var last := zSubs[|zSubs| - 1];
      ZSurfaceRows(ys, xNames, zSubs[..|zSubs| - 1]) + Repeat(ZRowFill(ys, xNames, last, |last.groups|), |last.groups|)
  }

  /** The rows loop of an admitted 2D name. */
  method ZBuildRows(ys: seq<real>, xNames: seq<string>, zSubs: seq<ZSubset>) returns (rows: seq<seq<SurfaceItem>>)
    requires |xNames| == |ys| && ValidZSurfaces(|ys|, zSubs)
    ensures rows == ZSurfaceRows(ys, xNames, zSubs)
  {
    rows := [];
    var z := 0;
    while z < |zSubs|
      invariant 0 <= z <= |zSubs|
      invariant rows == ZSurfaceRows(ys, xNames, zSubs[..z])
    {
      var row, added := ZSubsetRow(ys, xNames, zSubs[z]);
      assert zSubs[..z + 1][..z] == zSubs[..z];
      rows := rows + Repeat(row, added);
      z := z + 1;
    }
    assert zSubs[..z] == zSubs;
  }

  datatype SurfaceSeries = SurfaceSeries(seriesName: string, rows: seq<seq<SurfaceItem>>)

  /** The subject of a 2D name's shape warning: its name and the culprit Z-subset. */
  function ZSubject(name: string, culprit: string): string
  {
    name + "[Z=" + culprit + "]"
  }

  /** What one 2D name contributes: a series, or a warning and nothing. */
  datatype ZOutcome = Series(series: SurfaceSeries) | Skipped(diag: Diag)

  /** One 2D name: skipped when it has no Z-subset or its Z-subsets fail the
      shape check, otherwise a series with the rows of its Z-subsets. */
  function ZOutcomeOf(ys: seq<real>, xNames: seq<string>, n: Name2D): ZOutcome
    requires |xNames| == |ys| && ValidZSurfaces(|ys|, n.zSubs)
  {
    if |n.zSubs| == 0 then Skipped(NoZValues)
    else
      var shape := ShapeOf(ZSizes(n.zSubs), n.zSubs[0].name);
      if shape == Admitted then Series(SurfaceSeries(n.name, ZSurfaceRows(ys, xNames, n.zSubs)))
      else Skipped(ShapeDiag(shape, ZSubject(n.name, shape.culprit)).value)
  }

  /** The source's per-name body. */
  method BuildZName(ys: seq<real>, xNames: seq<string>, n: Name2D) returns (out: ZOutcome)
    requires |xNames| == |ys| && ValidZSurfaces(|ys|, n.zSubs)
    ensures out == ZOutcomeOf(ys, xNames, n)
  {
    if |n.zSubs| == 0 {
      return Skipped(NoZValues);
    }
    var shape := CheckShape(ZSizes(n.zSubs), n.zSubs[0].name);
    if shape.Asymmetric? {
      return Skipped(Inconsistent(ZSubject(n.name, shape.culprit)));
    } else if shape.TooFew? {
      return Skipped(NotEnough(ZSubject(n.name, shape.culprit)));
    }
    var rows := ZBuildRows(ys, xNames, n.zSubs);
    out := Series(SurfaceSeries(n.name, rows));
  }

  predicate ValidZNames(n: nat, names: seq<Name2D>)
  {
    forall s :: 0 <= s < |names| ==> ValidZSurfaces(n, names[s].zSubs)
  }

  /** The series of the 2D names that were not skipped, in order. */
  function ZAllSeries(ys: seq<real>, xNames: seq<string>, names: seq<Name2D>): seq<SurfaceSeries>
    requires |xNames| == |ys| && ValidZNames(|ys|, names)
  {
    if |names| == 0 then []
    else
      var out := ZOutcomeOf(ys, xNames, names[|names| - 1]);
      ZAllSeries(ys, xNames, names[..|names| - 1]) + (if out.Series? then [out.series] else [])
  }

  /** The warnings of the skipped 2D names, in order. */
  function ZAllDiags(ys: seq<real>, xNames: seq<string>, names: seq<Name2D>): seq<Diag>
    requires |xNames| == |ys| && ValidZNames(|ys|, names)
  {
    if |names| == 0 then []
    else
      var out := ZOutcomeOf(ys, xNames, names[|names| - 1]);
      ZAllDiags(ys, xNames, names[..|names| - 1]) + (if out.Skipped? then [out.diag] else [])
  }

  /** With a Z parameter: every 2D name in turn; a skipped one does not stop the later ones. */
  method SurfaceWithZ(benchmarks: seq<BenchData>, xNames: seq<string>, yType: PlotValueType, names: seq<Name2D>)
    returns (series: seq<SurfaceSeries>, diags: seq<Diag>)
    requires |xNames| == |benchmarks| && ValidZNames(|benchmarks|, names)
    ensures series == ZAllSeries(YValues(benchmarks, yType), xNames, names)
    ensures diags == ZAllDiags(YValues(benchmarks, yType), xNames, names)
  {
    var ys := YValues(benchmarks, yType);
    series, diags := [], [];
    var s := 0;
    while s < |names|
      invariant 0 <= s <= |names|
      invariant series == ZAllSeries(ys, xNames, names[..s])
      invariant diags == ZAllDiags(ys, xNames, names[..s])
    {
      var out := BuildZName(ys, xNames, names[s]);
      assert names[..s + 1][..s] == names[..s];
      match out {
        case Series(ser) => series := series + [ser];
        case Skipped(d) => diags := diags + [d];
      }
      s := s + 1;
    }
    assert names[..s] == names;
  }

  /** Every 2D name gives either a series or a warning, never both. */
  lemma {:induction false} ZSeriesOrWarning(ys: seq<real>, xNames: seq<string>, names: seq<Name2D>)
    requires |xNames| == |ys| && ValidZNames(|ys|, names)
    ensures |ZAllSeries(ys, xNames, names)| + |ZAllDiags(ys, xNames, names)| == |names|
  {
    if |names| > 0 {
      ZSeriesOrWarning(ys, xNames, names[..|names| - 1]);
    }
  }

  /** Processing two stretches of 2D names one after the other concatenates
      their series: what one name does has no effect on any other. */
  lemma {:induction false} ZAllSeriesAppend(ys: seq<real>, xNames: seq<string>, a: seq<Name2D>, b: seq<Name2D>)
    requires |xNames| == |ys| && ValidZNames(|ys|, a) && ValidZNames(|ys|, b)
    ensures ValidZNames(|ys|, a + b)
    ensures ZAllSeries(ys, xNames, a + b) == ZAllSeries(ys, xNames, a) + ZAllSeries(ys, xNames, b)
  {
    if |b| > 0 {
      var bi := b[..|b| - 1];
      assert (a + b)[..|a + b| - 1] == a + bi;
      assert (a + b)[|a + b| - 1] == b[|b| - 1];
      ZAllSeriesAppend(ys, xNames, a, bi);
    } else {
      assert a + b == a;
    }
  }

  /** An admitted 2D name has a series holding one row per X-group of each Z-subset. */
  lemma {:induction false} ZSurfaceRowsCount(ys: seq<real>, xNames: seq<string>, zSubs: seq<ZSubset>)
    requires |xNames| == |ys| && ValidZSurfaces(|ys|, zSubs)
    ensures |ZSurfaceRows(ys, xNames, zSubs)| == GroupCount(zSubs)
  {
    if |zSubs| > 0 {
      ZSurfaceRowsCount(ys, xNames, zSubs[..|zSubs| - 1]);
    }
  }
}
