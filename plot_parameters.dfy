/** Plot parameters and the per-record value accessors shared by every chart:
    the chart/axis/value enumerations, the Y-value and Y-name selectors, time
    normalisation to microseconds, the sub-range median and the box-plot
    statistics, and the common-prefix test used to reconcile axis labels. */
module PlotParameters {
  import opened SampleSort

  datatype PlotChartType =
    | ChartLineType | ChartSplineType | ChartBarType | ChartHBarType
    | ChartBoxType | Chart3DBarsType | Chart3DSurfaceType

  datatype PlotParamType = PlotEmptyType | PlotArgumentType | PlotTemplateType

  datatype PlotValueType =
    | CpuTimeType | CpuTimeMinType | CpuTimeMeanType | CpuTimeMedianType
    | RealTimeType | RealTimeMinType | RealTimeMeanType | RealTimeMedianType
    | IterationsType
    | BytesType | BytesMinType | BytesMeanType | BytesMedianType
    | ItemsType | ItemsMinType | ItemsMeanType | ItemsMedianType

  datatype BenchYStats = BenchYStats(min: real, max: real, median: real, lowQuart: real, uppQuart: real)

  const ZeroStats := BenchYStats(0.0, 0.0, 0.0, 0.0, 0.0)

  datatype PlotParams = PlotParams(
    chartType: PlotChartType,
    xType: PlotParamType, xIdx: int,
    yType: PlotValueType,
    zType: PlotParamType, zIdx: int)

  /** One decoded benchmark record, restricted to what the plotters read:
      the single-run values, the precomputed aggregate fields, and the raw
      repetition samples of the four sampled channels. */
  datatype BenchData = BenchData(
    timeUnit: string,
    hasAggregate: bool,
    cpuTimeUs: real, minCpu: real, meanCpu: real, medianCpu: real, maxCpu: real,
    realTimeUs: real, minReal: real, meanReal: real, medianReal: real, maxReal: real,
    iterations: real,
    kbytesSecDflt: real, minKbytes: real, meanKbytes: real, medianKbytes: real, maxKbytes: real,
    kitemsSecDflt: real, minKitems: real, meanKitems: real, medianKitems: real, maxKitems: real,
    cpuTime: seq<real>, realTime: seq<real>, kbytesSec: seq<real>, kitemsSec: seq<real>)

  /** The measured quantity a value type reads, and which statistic of it. */
  datatype Channel = CpuChannel | RealChannel | IterationsChannel | BytesChannel | ItemsChannel
  datatype Statistic = SingleRun | MinStat | MeanStat | MedianStat

  function ChannelOf(t: PlotValueType): Channel
  {
    match t
    case CpuTimeType | CpuTimeMinType | CpuTimeMeanType | CpuTimeMedianType => CpuChannel
    case RealTimeType | RealTimeMinType | RealTimeMeanType | RealTimeMedianType => RealChannel
    case IterationsType => IterationsChannel
    case BytesType | BytesMinType | BytesMeanType | BytesMedianType => BytesChannel
    case ItemsType | ItemsMinType | ItemsMeanType | ItemsMedianType => ItemsChannel
  }

  function StatisticOf(t: PlotValueType): Statistic
  {
    match t
    case CpuTimeMinType | RealTimeMinType | BytesMinType | ItemsMinType => MinStat
    case CpuTimeMeanType | RealTimeMeanType | BytesMeanType | ItemsMeanType => MeanStat
    case CpuTimeMedianType | RealTimeMedianType | BytesMedianType | ItemsMedianType => MedianStat
    case _ => SingleRun
  }

  predicate IsTimeChannel(c: Channel) { c == CpuChannel || c == RealChannel }

  /** The Y value of a record for a value type. */
  function GetYPlotValue(d: BenchData, t: PlotValueType): real
  {
    match t
    case CpuTimeType => d.cpuTimeUs
    case CpuTimeMinType => d.minCpu
    case CpuTimeMeanType => d.meanCpu
    case CpuTimeMedianType => d.medianCpu
    case RealTimeType => d.realTimeUs
    case RealTimeMinType => d.minReal
    case RealTimeMeanType => d.meanReal
    case RealTimeMedianType => d.medianReal
    case IterationsType => d.iterations
    case BytesType => d.kbytesSecDflt
    case BytesMinType => d.minKbytes
    case BytesMeanType => d.meanKbytes
    case BytesMedianType => d.medianKbytes
    case ItemsType => d.kitemsSecDflt
    case ItemsMinType => d.minKitems
    case ItemsMeanType => d.meanKitems
    case ItemsMedianType => d.medianKitems
  }

  predicate EndsWith(s: string, suffix: string)
  {
    |suffix| <= |s| && forall i :: 0 <= i < |suffix| ==> s[|s| - |suffix| + i] == suffix[i]
  }

  /** The axis title of a value type. Time titles carry the "(us)" unit and
      throughput titles the "(k)" scale. */
  function GetYPlotName(t: PlotValueType): (name: string)
  {
    match t
    case CpuTimeType => "CPU time (us)"
    case CpuTimeMinType => "CPU min time (us)"
    case CpuTimeMeanType => "CPU mean time (us)"
    case CpuTimeMedianType => "CPU median time (us)"
    case RealTimeType => "Real time (us)"
    case RealTimeMinType => "Real min time (us)"
    case RealTimeMeanType => "Real mean time (us)"
    case RealTimeMedianType => "Real median time (us)"
    case IterationsType => "Iterations"
    case BytesType => "Bytes/s (k)"
    case BytesMinType => "Bytes/s min (k)"
    case BytesMeanType => "Bytes/s mean (k)"
    case BytesMedianType => "Bytes/s median (k)"
    case ItemsType => "Items/s (k)"
    case ItemsMinType => "Items/s min (k)"
    case ItemsMeanType => "Items/s mean (k)"
    case ItemsMedianType => "Items/s median (k)"
  }

  /** Time titles end in the "(us)" unit and throughput titles in the "(k)"
      scale; the iterations title has neither. */
  lemma YPlotNameUnits(t: PlotValueType)
    ensures IsTimeChannel(ChannelOf(t)) <==> EndsWith(GetYPlotName(t), "(us)")
    ensures (ChannelOf(t) == BytesChannel || ChannelOf(t) == ItemsChannel) <==> EndsWith(GetYPlotName(t), "(k)")
  {
    match ChannelOf(t)
    case CpuChannel => TimeNameUnits(t);
    case RealChannel => TimeNameUnits(t);
    case IterationsChannel =>
      SuffixMarker(GetYPlotName(t), "(us)");
      SuffixMarker(GetYPlotName(t), "(k)");
    case BytesChannel => RateNameUnits(t);
    case ItemsChannel => RateNameUnits(t);
  }

  lemma TimeNameUnits(t: PlotValueType)
    requires IsTimeChannel(ChannelOf(t))
    ensures EndsWith(GetYPlotName(t), "(us)") && !EndsWith(GetYPlotName(t), "(k)")
  {
    var n := GetYPlotName(t);
    assert |n| >= 4 && n[|n| - 4] == '(' && n[|n| - 3] == 'u' && n[|n| - 2] == 's' && n[|n| - 1] == ')';
    UnitTitle(n);
  }

  lemma RateNameUnits(t: PlotValueType)
    requires ChannelOf(t) == BytesChannel || ChannelOf(t) == ItemsChannel
    ensures EndsWith(GetYPlotName(t), "(k)") && !EndsWith(GetYPlotName(t), "(us)")
  {
    var n := GetYPlotName(t);
    assert |n| >= 3 && n[|n| - 3] == '(' && n[|n| - 2] == 'k' && n[|n| - 1] == ')';
    ScaleTitle(n);
  }

  /** A title whose last four characters are "(us)" ends in the unit and not in the scale. */
  lemma UnitTitle(n: string)
    requires |n| >= 4 && n[|n| - 4] == '(' && n[|n| - 3] == 'u' && n[|n| - 2] == 's' && n[|n| - 1] == ')'
    ensures EndsWith(n, "(us)") && !EndsWith(n, "(k)")
  {
    SuffixMarker(n, "(k)");
  }

  /** A title whose last three characters are "(k)" ends in the scale and not in the unit. */
  lemma ScaleTitle(n: string)
    requires |n| >= 3 && n[|n| - 3] == '(' && n[|n| - 2] == 'k' && n[|n| - 1] == ')'
    ensures EndsWith(n, "(k)") && !EndsWith(n, "(us)")
  {
    SuffixMarker(n, "(us)");
  }

  lemma SuffixMarker(s: string, suffix: string)
    requires |suffix| >= 2
    ensures EndsWith(s, suffix) ==> s[|s| - 2] == suffix[|suffix| - 2]
  {
    if EndsWith(s, suffix) {
      assert s[|s| - |suffix| + (|suffix| - 2)] == suffix[|suffix| - 2];
    }
  }

  /** No two value types share an axis title. */
  lemma YPlotNameInjective(a: PlotValueType, b: PlotValueType)
    requires GetYPlotName(a) == GetYPlotName(b)
    ensures a == b
  {
    var na, nb := GetYPlotName(a), GetYPlotName(b);
    // the length and one distinguishing character separate every pair
    assert |na| == |nb|;
    assert na[0] == nb[0];
    assert na[|na| - 2] == nb[|nb| - 2];
    if |na| > 6 {
      assert na[4] == nb[4] && na[5] == nb[5] && na[6] == nb[6];
    }
    if |na| > 9 {
      assert na[8] == nb[8] && na[9] == nb[9];
    }
  }

  /** A time value converted to microseconds from the record's unit
      ("ns" and "ms"; any other unit is taken as microseconds already). */
  function NormalizeTimeUs(d: BenchData, value: real): (r: real)
    ensures d.timeUnit == "ns" ==> r * 1000.0 == value
    ensures d.timeUnit == "ms" ==> r == value * 1000.0
    ensures d.timeUnit != "ns" && d.timeUnit != "ms" ==> r == value
  {
    var timeFactor :=
      if d.timeUnit == "ns" then 0.001
      else if d.timeUnit == "ms" then 1000.0
      else 1.0;
    value * timeFactor
  }

  /** Conversion keeps the order of values, so sorted samples stay sorted. */
  lemma NormalizeTimeUsMonotone(d: BenchData, a: real, b: real)
    requires a <= b
    ensures NormalizeTimeUs(d, a) <= NormalizeTimeUs(d, b)
  {
  }

  /** Median of sorted[begin..end]: the middle element for an odd count, the
      mean of the two middle ones for an even count, 0 for an empty range. */
  function FindMedian(sorted: seq<real>, begin: int, end: int): (r: real)
    requires end - begin <= 0 || (0 <= begin && end <= |sorted|)
    ensures end - begin <= 0 ==> r == 0.0
    ensures end - begin > 0 && (end - begin) % 2 == 1 ==> r == sorted[begin + (end - begin) / 2]
    ensures end - begin > 0 && (end - begin) % 2 == 0 ==>
              r == (sorted[begin + (end - begin) / 2 - 1] + sorted[begin + (end - begin) / 2]) / 2.0
  {
    var count := end - begin;
    if count <= 0 then 0.0
    else if count % 2 != 0 then sorted[count / 2 + begin]
    else
      var right := sorted[count / 2 + begin];
      var left := sorted[count / 2 - 1 + begin];
      (right + left) / 2.0
  }

  /** On a sorted range the median lies between the range's extremes. */
  lemma MedianWithinRange(s: seq<real>, begin: int, end: int)
    requires IsSorted(s) && 0 <= begin < end <= |s|
    ensures s[begin] <= FindMedian(s, begin, end) <= s[end - 1]
  {
    var c := end - begin;
    if c % 2 == 0 {
      assert s[begin] <= s[begin + c / 2 - 1] <= s[begin + c / 2] <= s[end - 1];
    } else {
      assert s[begin] <= s[begin + c / 2] <= s[end - 1];
    }
  }

  /** The raw repetition samples of a sampled channel. */
  function Samples(d: BenchData, c: Channel): seq<real>
  {
    match c
    case CpuChannel => d.cpuTime
    case RealChannel => d.realTime
    case BytesChannel => d.kbytesSec
    case ItemsChannel => d.kitemsSec
    case IterationsChannel => []
  }

  /** The record with one channel's samples replaced. */
  function WithSamples(d: BenchData, c: Channel, s: seq<real>): BenchData
  {
    match c
    case CpuChannel => d.(cpuTime := s)
    case RealChannel => d.(realTime := s)
    case BytesChannel => d.(kbytesSec := s)
    case ItemsChannel => d.(kitemsSec := s)
    case IterationsChannel => d
  }

  /** Lower half for the exclusive-median quartile split: the first n/2 samples. */
  function LowerHalf(s: seq<real>): seq<real> { s[..|s| / 2] }

  /** Upper half: the last n/2 samples, skipping the middle one when n is odd. */
  function UpperHalf(s: seq<real>): seq<real> { s[|s| / 2 + |s| % 2..] }

  function Median(s: seq<real>): real { FindMedian(s, 0, |s|) }

  /** What getYPlotStats returns, together with the record as it leaves it
      (the statistics sort the selected channel's samples in place). */
  datatype StatsOutcome = StatsOutcome(stats: BenchYStats, data: BenchData)

  /** Quartile conversion: time channels go to microseconds, throughput
      channels are left as they are. */
  function ChannelScale(d: BenchData, c: Channel, v: real): real
  {
    if IsTimeChannel(c) then NormalizeTimeUs(d, v) else v
  }

  /** Box-plot statistics of a record for a value type. Extremes and median
      are the record's precomputed aggregate fields; the quartiles are the
      medians of the lower and upper halves of the sorted samples, converted
      to microseconds for time channels only. Iterations have no statistics. */
  function GetYPlotStats(d: BenchData, t: PlotValueType): (r: StatsOutcome)
    ensures !d.hasAggregate || ChannelOf(t) == IterationsChannel ==> r == StatsOutcome(ZeroStats, d)
    ensures r.data == WithSamples(d, ChannelOf(t), Samples(r.data, ChannelOf(t)))
    ensures d.hasAggregate ==> IsSorted(Samples(r.data, ChannelOf(t)))
    ensures multiset(Samples(r.data, ChannelOf(t))) == multiset(Samples(d, ChannelOf(t)))
    ensures r.stats.lowQuart <= r.stats.uppQuart
  {
    if !d.hasAggregate then StatsOutcome(ZeroStats, d)
    else
      match ChannelOf(t)
      case CpuChannel =>
        var sorted := SortSamples(d.cpuTime);
        QuartilesOrdered(sorted);
        NormalizeTimeUsMonotone(d, LowMedian(sorted), UppMedian(sorted));
        StatsOutcome(BenchYStats(d.minCpu, d.maxCpu, d.medianCpu,
                                 NormalizeTimeUs(d, LowMedian(sorted)), NormalizeTimeUs(d, UppMedian(sorted))),
                     d.(cpuTime := sorted))
      case RealChannel =>
        var sorted := SortSamples(d.realTime);
        QuartilesOrdered(sorted);
        NormalizeTimeUsMonotone(d, LowMedian(sorted), UppMedian(sorted));
        StatsOutcome(BenchYStats(d.minReal, d.maxReal, d.medianReal,
                                 NormalizeTimeUs(d, LowMedian(sorted)), NormalizeTimeUs(d, UppMedian(sorted))),
                     d.(realTime := sorted))
      case BytesChannel =>
        var sorted := SortSamples(d.kbytesSec);
        QuartilesOrdered(sorted);
        StatsOutcome(BenchYStats(d.minKbytes, d.maxKbytes, d.medianKbytes, LowMedian(sorted), UppMedian(sorted)),
                     d.(kbytesSec := sorted))
      case ItemsChannel =>
        var sorted := SortSamples(d.kitemsSec);
        QuartilesOrdered(sorted);
        StatsOutcome(BenchYStats(d.minKitems, d.maxKitems, d.medianKitems, LowMedian(sorted), UppMedian(sorted)),
                     d.(kitemsSec := sorted))
      case IterationsChannel =>  // the value types without statistics
        StatsOutcome(ZeroStats, d)
  }

  /** findMedian over the first count/2 sorted samples. */
  function LowMedian(sorted: seq<real>): real
  {
    FindMedian(sorted, 0, |sorted| / 2)
  }

  /** findMedian over samples [count/2 + count%2, count). */
  function UppMedian(sorted: seq<real>): real
  {
    FindMedian(sorted, |sorted| / 2 + |sorted| % 2, |sorted|)
  }

  /** The lower-half median never exceeds the upper-half median. */
  lemma QuartilesOrdered(s: seq<real>)
    requires IsSorted(s)
    ensures LowMedian(s) <= UppMedian(s)
  {
    var n := |s|;
    if n >= 2 {
      MedianWithinRange(s, 0, n / 2);
      MedianWithinRange(s, n / 2 + n % 2, n);
      assert s[n / 2 - 1] <= s[n / 2 + n % 2];
    }
  }

  /** The record comes back with that channel's samples sorted and nothing else changed. */
  lemma StatsSortOneChannel(d: BenchData, t: PlotValueType)
    requires d.hasAggregate && ChannelOf(t) != IterationsChannel
    ensures GetYPlotStats(d, t).data == WithSamples(d, ChannelOf(t), SortSamples(Samples(d, ChannelOf(t))))
  {
    match ChannelOf(t)
    case CpuChannel =>
    case RealChannel =>
    case BytesChannel =>
    case ItemsChannel =>
  }

  /** The quartiles are the lower and upper half medians of the sorted samples,
      scaled to microseconds for time channels only. */
  lemma StatsQuartiles(d: BenchData, t: PlotValueType)
    requires d.hasAggregate && ChannelOf(t) != IterationsChannel
    ensures var sorted := SortSamples(Samples(d, ChannelOf(t)));
            && GetYPlotStats(d, t).stats.lowQuart == ChannelScale(d, ChannelOf(t), LowMedian(sorted))
            && GetYPlotStats(d, t).stats.uppQuart == ChannelScale(d, ChannelOf(t), UppMedian(sorted))
  {
    match ChannelOf(t)
    case CpuChannel =>
    case RealChannel =>
    case BytesChannel =>
    case ItemsChannel =>
  }

  /** The exclusive-median split: both halves hold n/2 samples, the middle one
      is skipped when n is odd, and the two half medians are the medians of the halves. */
  lemma HalvesSplit(s: seq<real>)
    ensures |LowerHalf(s)| == |UpperHalf(s)| == |s| / 2
    ensures |s| % 2 == 0 ==> s == LowerHalf(s) + UpperHalf(s)
    ensures |s| % 2 == 1 ==> s == LowerHalf(s) + [s[|s| / 2]] + UpperHalf(s)
    ensures LowMedian(s) == Median(LowerHalf(s)) && UppMedian(s) == Median(UpperHalf(s))
  {
    HalfMedians(s);
    HalvesJoin(s);
  }

  /** The two findMedian calls are the medians of the two halves. */
  lemma HalfMedians(s: seq<real>)
    ensures LowMedian(s) == Median(LowerHalf(s)) && UppMedian(s) == Median(UpperHalf(s))
  {
    var n := |s|;
    HalfMedian(s, 0, n / 2);
    HalfMedian(s, n / 2 + n % 2, n);
  }

  /** The halves and, for an odd count, the middle sample make up the samples. */
  lemma HalvesJoin(s: seq<real>)
    ensures |s| % 2 == 0 ==> s == LowerHalf(s) + UpperHalf(s)
    ensures |s| % 2 == 1 ==> s == LowerHalf(s) + [s[|s| / 2]] + UpperHalf(s)
  {
    var n := |s|;
    if n % 2 == 1 {
      assert s == s[..n / 2] + [s[n / 2]] + s[n / 2 + 1..];
    } else {
      assert s == s[..n / 2] + s[n / 2..];
    }
  }

  /** The quartiles are the medians of the lower and upper halves of the
      sorted samples (the middle sample excluded when the count is odd). */
  lemma StatsAreHalfMedians(d: BenchData, t: PlotValueType)
    requires d.hasAggregate && ChannelOf(t) != IterationsChannel
    ensures var c := ChannelOf(t);
            var sorted := SortSamples(Samples(d, c));
            && GetYPlotStats(d, t).stats.lowQuart == ChannelScale(d, c, Median(LowerHalf(sorted)))
            && GetYPlotStats(d, t).stats.uppQuart == ChannelScale(d, c, Median(UpperHalf(sorted)))
  {
    StatsQuartiles(d, t);
    HalvesSplit(SortSamples(Samples(d, ChannelOf(t))));
  }

  /** The median of an index range equals the median of that slice. */
  lemma HalfMedian(s: seq<real>, begin: int, end: int)
    requires 0 <= begin <= end <= |s|
    ensures FindMedian(s, begin, end) == Median(s[begin..end])
  {
  }

  /** For a record with at least two samples, the quartiles lie between the
      least and the greatest sample, converted to microseconds like the
      quartiles themselves for time channels. */
  lemma QuartilesWithinSamples(d: BenchData, t: PlotValueType)
    requires d.hasAggregate && ChannelOf(t) != IterationsChannel
    requires |Samples(d, ChannelOf(t))| >= 2
    ensures var c := ChannelOf(t);
            var sorted := SortSamples(Samples(d, c));
            && ChannelScale(d, c, sorted[0]) <= GetYPlotStats(d, t).stats.lowQuart
            && GetYPlotStats(d, t).stats.uppQuart <= ChannelScale(d, c, sorted[|sorted| - 1])
  {
    var c := ChannelOf(t);
    var sorted := SortSamples(Samples(d, c));
    var st := GetYPlotStats(d, t).stats;
    StatsQuartiles(d, t);
    var lo, hi := st.lowQuart, st.uppQuart;
    var first, last := ChannelScale(d, c, sorted[0]), ChannelScale(d, c, sorted[|sorted| - 1]);
    assert first <= lo && hi <= last by {
      QuartileBounds(d, c, sorted, lo, hi);
    }
  }

  /** The converted half medians of sorted samples lie between the converted extremes. */
  lemma QuartileBounds(d: BenchData, c: Channel, sorted: seq<real>, lo: real, hi: real)
    requires IsSorted(sorted) && |sorted| >= 2
    requires lo == ChannelScale(d, c, LowMedian(sorted)) && hi == ChannelScale(d, c, UppMedian(sorted))
    ensures ChannelScale(d, c, sorted[0]) <= lo && hi <= ChannelScale(d, c, sorted[|sorted| - 1])
  {
    HalfMediansWithin(sorted);
    ChannelScaleMonotone(d, c, sorted[0], LowMedian(sorted));
    ChannelScaleMonotone(d, c, UppMedian(sorted), sorted[|sorted| - 1]);
  }

  /** The per-channel conversion keeps the order of values. */
  lemma ChannelScaleMonotone(d: BenchData, c: Channel, a: real, b: real)
    requires a <= b
    ensures ChannelScale(d, c, a) <= ChannelScale(d, c, b)
  {
    NormalizeTimeUsMonotone(d, a, b);
  }

  /** On sorted samples the median of all of them lies between the two half medians. */
  lemma MedianBetweenHalves(sorted: seq<real>)
    requires IsSorted(sorted) && |sorted| >= 2
    ensures LowMedian(sorted) <= Median(sorted) <= UppMedian(sorted)
  {
    var n := |sorted|;
    MedianWithinRange(sorted, 0, n / 2);
    MedianWithinRange(sorted, n / 2 + n % 2, n);
    if n % 2 == 0 {
      assert sorted[n / 2 - 1] <= sorted[n / 2];
    } else {
      assert sorted[n / 2 - 1] <= sorted[n / 2] <= sorted[n / 2 + 1];
    }
  }

  /** Converted least sample, half medians, median and greatest sample are in order. */
  lemma ScaledOrder(d: BenchData, c: Channel, sorted: seq<real>)
    requires IsSorted(sorted) && |sorted| >= 2
    ensures ChannelScale(d, c, sorted[0]) <= ChannelScale(d, c, LowMedian(sorted))
    ensures ChannelScale(d, c, LowMedian(sorted)) <= ChannelScale(d, c, Median(sorted))
    ensures ChannelScale(d, c, Median(sorted)) <= ChannelScale(d, c, UppMedian(sorted))
    ensures ChannelScale(d, c, UppMedian(sorted)) <= ChannelScale(d, c, sorted[|sorted| - 1])
  {
    HalfMediansWithin(sorted);
    MedianBetweenHalves(sorted);
    ChannelScaleMonotone(d, c, sorted[0], LowMedian(sorted));
    ChannelScaleMonotone(d, c, LowMedian(sorted), Median(sorted));
    ChannelScaleMonotone(d, c, Median(sorted), UppMedian(sorted));
    ChannelScaleMonotone(d, c, UppMedian(sorted), sorted[|sorted| - 1]);
  }

  /** The box-plot order min <= lower quartile <= median <= upper quartile <= max,
      for a record with at least two samples whose aggregate fields are its
      least, greatest and median sample, converted like the quartiles. The
      aggregates are copied, not computed, so this is a hypothesis on the input. */
  lemma StatsChain(d: BenchData, t: PlotValueType)
    requires d.hasAggregate && ChannelOf(t) != IterationsChannel
    requires |Samples(d, ChannelOf(t))| >= 2
    requires var c := ChannelOf(t);
             var sorted := SortSamples(Samples(d, c));
             Aggregates(d, c) == (ChannelScale(d, c, sorted[0]), ChannelScale(d, c, sorted[|sorted| - 1]),
                                  ChannelScale(d, c, Median(sorted)))
    ensures var st := GetYPlotStats(d, t).stats;
            st.min <= st.lowQuart <= st.median <= st.uppQuart <= st.max
  {
    var c := ChannelOf(t);
    var sorted := SortSamples(Samples(d, c));
    var st := GetYPlotStats(d, t).stats;
    StatsFormula(d, t);
    var first, last := ChannelScale(d, c, sorted[0]), ChannelScale(d, c, sorted[|sorted| - 1]);
    var mid := ChannelScale(d, c, Median(sorted));
    var lo, hi := ChannelScale(d, c, LowMedian(sorted)), ChannelScale(d, c, UppMedian(sorted));
    assert st == BenchYStats(first, last, mid, lo, hi);
    assert first <= lo <= mid <= hi <= last by {
      ScaledOrder(d, c, sorted);
    }
  }

  /** With fewer than two samples both halves are empty, so findMedian gives 0
      for both quartiles whatever the aggregate fields say. */
  lemma FewSamplesZeroQuartiles(d: BenchData, t: PlotValueType)
    requires d.hasAggregate && ChannelOf(t) != IterationsChannel
    requires |Samples(d, ChannelOf(t))| < 2
    ensures GetYPlotStats(d, t).stats.lowQuart == 0.0 && GetYPlotStats(d, t).stats.uppQuart == 0.0
  {
    var sorted := SortSamples(Samples(d, ChannelOf(t)));
    StatsQuartiles(d, t);
    assert LowMedian(sorted) == 0.0 && UppMedian(sorted) == 0.0;
  }

  /** One sample of 5 with matching aggregates: the quartiles drop to 0 below
      the minimum and the box-plot order fails. */
  lemma OneSampleBreaksOrder(d: BenchData)
    requires d.hasAggregate && d.kbytesSec == [5.0]
    requires d.minKbytes == 5.0 && d.medianKbytes == 5.0 && d.maxKbytes == 5.0
    ensures var st := GetYPlotStats(d, BytesType).stats;
            st.min == 5.0 && st.lowQuart == 0.0 && !(st.min <= st.lowQuart)
  {
    FewSamplesZeroQuartiles(d, BytesType);
    StatsAggregates(d, BytesType);
  }

  /** Both half medians of sorted samples lie between the extremes. */
  lemma HalfMediansWithin(sorted: seq<real>)
    requires IsSorted(sorted) && |sorted| >= 2
    ensures sorted[0] <= LowMedian(sorted) && UppMedian(sorted) <= sorted[|sorted| - 1]
  {
    var n := |sorted|;
    MedianWithinRange(sorted, 0, n / 2);
    MedianWithinRange(sorted, n / 2 + n % 2, n);
  }

  /** The precomputed aggregate fields of a sampled channel, as (min, max, median). */
  function Aggregates(d: BenchData, c: Channel): (real, real, real)
  {
    match c
    case CpuChannel => (d.minCpu, d.maxCpu, d.medianCpu)
    case RealChannel => (d.minReal, d.maxReal, d.medianReal)
    case BytesChannel => (d.minKbytes, d.maxKbytes, d.medianKbytes)
    case ItemsChannel => (d.minKitems, d.maxKitems, d.medianKitems)
    case IterationsChannel => (0.0, 0.0, 0.0)
  }

  /** Extremes and median are copied from the aggregate fields. */
  lemma StatsAggregates(d: BenchData, t: PlotValueType)
    requires d.hasAggregate && ChannelOf(t) != IterationsChannel
    ensures var s := GetYPlotStats(d, t).stats;
            (s.min, s.max, s.median) == Aggregates(d, ChannelOf(t))
  {
    match ChannelOf(t)
    case CpuChannel =>
    case RealChannel =>
    case BytesChannel =>
    case ItemsChannel =>
  }

  /** Replacing one channel's samples leaves its aggregate fields alone. */
  lemma WithSamplesKeeps(d: BenchData, c: Channel, s: seq<real>)
    ensures Aggregates(WithSamples(d, c, s), c) == Aggregates(d, c)
    ensures Samples(WithSamples(d, c, s), c) == if c == IterationsChannel then [] else s
    ensures WithSamples(d, c, s).timeUnit == d.timeUnit
    ensures WithSamples(d, c, s).hasAggregate == d.hasAggregate
  {
  }

  /** The whole statistics record, field by field. */
  lemma StatsFormula(d: BenchData, t: PlotValueType)
    requires d.hasAggregate && ChannelOf(t) != IterationsChannel
    ensures var c := ChannelOf(t);
            var sorted := SortSamples(Samples(d, c));
            var (mn, mx, md) := Aggregates(d, c);
            GetYPlotStats(d, t).stats
              == BenchYStats(mn, mx, md, ChannelScale(d, c, LowMedian(sorted)), ChannelScale(d, c, UppMedian(sorted)))
  {
    StatsAggregates(d, t);
    StatsQuartiles(d, t);
  }

  /** The statistics depend only on the multiset of samples. */
  lemma StatsIgnoreSampleOrder(d: BenchData, t: PlotValueType, perm: seq<real>)
    requires multiset(perm) == multiset(Samples(d, ChannelOf(t)))
    ensures GetYPlotStats(WithSamples(d, ChannelOf(t), perm), t).stats == GetYPlotStats(d, t).stats
  {
    var c := ChannelOf(t);
    WithSamplesKeeps(d, c, perm);
    if d.hasAggregate && c != IterationsChannel {
      SortedStatsAgree(d, WithSamples(d, c, perm), t);
    }
  }

  /** Two records with the same aggregates, unit and sorted samples get the same statistics. */
  lemma SortedStatsAgree(d: BenchData, e: BenchData, t: PlotValueType)
    requires d.hasAggregate && e.hasAggregate && ChannelOf(t) != IterationsChannel
    requires Aggregates(d, ChannelOf(t)) == Aggregates(e, ChannelOf(t)) && d.timeUnit == e.timeUnit
    requires multiset(Samples(d, ChannelOf(t))) == multiset(Samples(e, ChannelOf(t)))
    ensures GetYPlotStats(d, t).stats == GetYPlotStats(e, t).stats
  {
    SortIgnoresOrder(Samples(d, ChannelOf(t)), Samples(e, ChannelOf(t)));
    StatsFormula(d, t);
    StatsFormula(e, t);
  }

  /** Running the statistics again on the record they leave behind gives the same outcome. */
  lemma StatsIdempotent(d: BenchData, t: PlotValueType)
    ensures var r := GetYPlotStats(d, t);
            GetYPlotStats(r.data, t) == r
  {
    var r := GetYPlotStats(d, t);
    var c := ChannelOf(t);
    if d.hasAggregate && c != IterationsChannel {
      var sorted := SortSamples(Samples(d, c));
      StatsSortOneChannel(d, t);
      WithSamplesKeeps(d, c, sorted);
      SortedStatsAgree(d, r.data, t);
      SortOfSorted(sorted);
      StatsSortOneChannel(r.data, t);
      assert WithSamples(r.data, c, sorted) == r.data;
    }
  }

  /** Plotting a min or median value type shows the same number as the box
      chart's lower whisker or median line for that record. */
  lemma PlotValueMatchesStats(d: BenchData, t: PlotValueType)
    requires d.hasAggregate && ChannelOf(t) != IterationsChannel
    ensures StatisticOf(t) == MinStat ==> GetYPlotValue(d, t) == GetYPlotStats(d, t).stats.min
    ensures StatisticOf(t) == MedianStat ==> GetYPlotValue(d, t) == GetYPlotStats(d, t).stats.median
  {
  }

  /** The labels agree on every index both have, and neither is empty. */
  predicate CommonPartAgrees(a: seq<string>, b: seq<string>)
  {
    |a| > 0 && |b| > 0 && forall i :: 0 <= i < |a| && i < |b| ==> a[i] == b[i]
  }

  /** Compare the first common elements of two label lists. */
  method CommonPartEqual(listA: seq<string>, listB: seq<string>) returns (isEqual: bool)
    ensures isEqual <==> CommonPartAgrees(listA, listB)
  {
    isEqual := true;
    var maxIdx := if |listA| < |listB| then |listA| else |listB|;
    if maxIdx <= 0 {
      return false;
    }
    var idx := 0;
    while isEqual && idx < maxIdx
      invariant 0 <= idx <= maxIdx
      invariant isEqual <==> forall i :: 0 <= i < idx ==> listA[i] == listB[i]
    {
      isEqual := listA[idx] == listB[idx];
      idx := idx + 1;
    }
  }

  /** Agreement on the common part means one list is a prefix of the other. */
  lemma CommonPartIsPrefix(a: seq<string>, b: seq<string>)
    ensures CommonPartAgrees(a, b) <==> |a| > 0 && |b| > 0 && (a <= b || b <= a)
  {
    if |a| > 0 && |b| > 0 && CommonPartAgrees(a, b) {
      if |a| <= |b| { assert a == b[..|a|]; } else { assert b == a[..|b|]; }
    }
  }

  /** Concrete cases: 8 samples [1..8] give median 4.5 and quartiles 2.5 / 6.5. */
  lemma EightSampleQuartiles()
    ensures var s := [1.0, 2.0, 3.0, 4.0, 5.0, 6.0, 7.0, 8.0];
            && Median(s) == 4.5
            && Median(LowerHalf(s)) == 2.5
            && Median(UpperHalf(s)) == 6.5
  {
    var s := [1.0, 2.0, 3.0, 4.0, 5.0, 6.0, 7.0, 8.0];
    assert LowerHalf(s) == [1.0, 2.0, 3.0, 4.0];
    assert UpperHalf(s) == [5.0, 6.0, 7.0, 8.0];
  }
}
