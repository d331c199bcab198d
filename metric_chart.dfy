// MetricChart.tsx: the same aggregation as TrackerChart for a metric, with no
// event override and no date label. Its `aggregationMap` is filled by the
// same pass as the tracker chart's (`TrackerChart.BuildGroups` with `isEvent`
// false); the series is specified on its own and then shown to be the value
// tracker case of the tracker chart with the label dropped.
module MetricChart {
  import opened Calendar
  import opened Entities
  import opened Bucketing
  import opened Collections
  import opened TrackerChart
  import TrackerChartProperties

  /** One entry of the metric chart series (its `ProcessedDataPoint`). */
  datatype MetricPoint = MetricPoint(timestamp: DateTime, value: real, notes: Option<string>, originalDataPointCount: nat)

  /** The operation selected when the chart first renders. */
  const InitialMetricOperation: Operation := Sum

  /** `handleIntervalChange`: the operation after switching to `interval`. */
  function OnIntervalChange(interval: Interval, current: Operation): Operation {
    match interval
    case Raw => current
    case Daily => Sum
    case Monthly => Average
    case Yearly => Average
  }

  function MetricRawPoint(dp: DataPoint): MetricPoint {
    MetricPoint(dp.timestamp, dp.value, dp.notes, 1)
  }

  /** The entry of one group: the selected operation applied to its values,
      with the notes summary of its notes. */
  function MetricPointOf(g: Group, op: Operation): MetricPoint
    requires |g.values| > 0
  {
    var count := |g.values|;
    MetricPoint(g.timestamp, Reduce(op, g.values), Some(NotesSummary(count, Dedup(g.notesArr))), count)
  }

  /** The entry of bucket `k`: the group of the points with key `k`. */
  function MetricBucketPoint(sorted: seq<DataPoint>, interval: Interval, op: Operation, k: BucketKey): MetricPoint
    requires interval != Raw && k in KeySeq(sorted, interval)
  {
    BucketSize(sorted, interval, false, k);
    MetricPointOf(GroupOf(sorted, interval, false, k), op)
  }

  function MetricBuckets(sorted: seq<DataPoint>, interval: Interval, op: Operation, keys: seq<BucketKey>): seq<MetricPoint>
    requires interval != Raw
    requires forall i :: 0 <= i < |keys| ==> keys[i] in KeySeq(sorted, interval)
  {
    seq(|keys|, i requires 0 <= i < |keys| => MetricBucketPoint(sorted, interval, op, keys[i]))
  }

  /** The series `processedChartData` holds. */
  function MetricSeries(data: seq<DataPoint>, interval: Interval, op: Operation): seq<MetricPoint> {
    if |data| == 0 then []
    else
      var sorted := SortByTime(data);
      if interval == Raw then seq(|sorted|, i requires 0 <= i < |sorted| => MetricRawPoint(sorted[i]))
      else MetricBuckets(sorted, interval, op, Dedup(KeySeq(sorted, interval)))
  }

  function Unlabelled(p: ChartPoint): MetricPoint {
    MetricPoint(p.timestamp, p.value, p.notes, p.originalDataPointCount)
  }

  /** The sum of `originalDataPointCount` over a metric series. */
  function MetricTotalCount(points: seq<MetricPoint>): nat {
    if |points| == 0 then 0
    else MetricTotalCount(points[..|points| - 1]) + points[|points| - 1].originalDataPointCount
  }

  /** Dropping the labels keeps every count, so the totals agree. */
  lemma {:induction false} UnlabelledTotalCount(ms: seq<MetricPoint>, cs: seq<ChartPoint>)
    requires |ms| == |cs|
    requires forall i :: 0 <= i < |ms| ==> ms[i] == Unlabelled(cs[i])
    ensures MetricTotalCount(ms) == TrackerChartProperties.TotalCount(cs)
  {
    if |ms| > 0 {
      UnlabelledTotalCount(ms[..|ms| - 1], cs[..|cs| - 1]);
    }
  }

  lemma MetricBucketsStep(sorted: seq<DataPoint>, interval: Interval, op: Operation, keys: seq<BucketKey>, i: nat)
    requires interval != Raw && i < |keys|
    requires forall j :: 0 <= j < |keys| ==> keys[j] in KeySeq(sorted, interval)
    ensures MetricBuckets(sorted, interval, op, keys[..i + 1])
         == MetricBuckets(sorted, interval, op, keys[..i]) + [MetricBucketPoint(sorted, interval, op, keys[i])]
  {
  }

  /** The `Object.values(aggregationMap).map(...)` pass of the metric chart. */
  method SummariseMetricGroups(sorted: seq<DataPoint>, interval: Interval, op: Operation,
                               order: seq<BucketKey>, groups: map<BucketKey, Group>)
    returns (points: seq<MetricPoint>)
    requires interval != Raw
    requires order == Dedup(KeySeq(sorted, interval))
    requires forall k :: k in groups <==> k in order
    requires forall k :: k in groups ==> groups[k] == GroupOf(sorted, interval, false, k)
    ensures points == MetricBuckets(sorted, interval, op, order)
  {
    points := [];
    assert forall j :: 0 <= j < |order| ==> order[j] in KeySeq(sorted, interval);
    for i := 0 to |order|
      invariant points == MetricBuckets(sorted, interval, op, order[..i])
    {
      var group := groups[order[i]];
      assert group == GroupOf(sorted, interval, false, order[i]);
      BucketSize(sorted, interval, false, order[i]);
      var point := MetricPointOf(group, op);
      assert point == MetricBucketPoint(sorted, interval, op, order[i]);
      MetricBucketsStep(sorted, interval, op, order, i);
      points := points + [point];
    }
    assert order[..|order|] == order;
  }

  /** The metric chart's `processedChartData` computation. */
  method ProcessMetricData(data: seq<DataPoint>, interval: Interval, op: Operation)
    returns (points: seq<MetricPoint>)
    ensures points == MetricSeries(data, interval, op)
  {
    if |data| == 0 {
      return [];
    }
    var sorted := SortByTime(data);
    if interval == Raw {
      return seq(|sorted|, i requires 0 <= i < |sorted| => MetricRawPoint(sorted[i]));
    }
    var order, groups := BuildGroups(sorted, interval, false);
    points := SummariseMetricGroups(sorted, interval, op, order, groups);
  }

  /** The metric chart is the tracker chart of a value tracker, entry by
      entry, without the date label. */
  lemma MetricIsValueTrackerCase(data: seq<DataPoint>, interval: Interval, op: Operation)
    ensures |MetricSeries(data, interval, op)| == |Series(data, interval, op, false)|
    ensures forall i :: 0 <= i < |MetricSeries(data, interval, op)| ==>
              MetricSeries(data, interval, op)[i] == Unlabelled(Series(data, interval, op, false)[i])
  {
  }

  /** Switching interval picks the same operation as a value tracker's chart. */
  lemma IntervalChangeAgreesWithTrackerChart(interval: Interval, current: Operation)
    ensures OnIntervalChange(interval, current) == DefaultOperation(Value, interval, current)
    ensures InitialMetricOperation == InitialOperation(Value)
  {
  }

  /** What the metric series promises, carried over from the tracker chart:
      raw output is one entry per point in ascending order with count 1;
      buckets are strictly ascending; the counts add up to the input length. */
  lemma MetricSeriesProperties(data: seq<DataPoint>, interval: Interval, op: Operation)
    ensures |data| == 0 ==> MetricSeries(data, interval, op) == []
    ensures interval == Raw ==> |MetricSeries(data, interval, op)| == |data|
    ensures interval == Raw ==> forall i :: 0 <= i < |MetricSeries(data, interval, op)| ==>
              MetricSeries(data, interval, op)[i].originalDataPointCount == 1
    ensures interval == Raw ==> forall i, j :: 0 <= i < j < |MetricSeries(data, interval, op)| ==>
              NotAfter(MetricSeries(data, interval, op)[i].timestamp, MetricSeries(data, interval, op)[j].timestamp)
    ensures interval != Raw ==> forall i, j :: 0 <= i < j < |MetricSeries(data, interval, op)| ==>
              Before(MetricSeries(data, interval, op)[i].timestamp, MetricSeries(data, interval, op)[j].timestamp)
    ensures TrackerChartProperties.TotalCount(Series(data, interval, op, false)) == |data|
    ensures MetricTotalCount(MetricSeries(data, interval, op)) == |data|
  {
    MetricIsValueTrackerCase(data, interval, op);
    TrackerChartProperties.CountsSumToLength(data, interval, op, false);
    UnlabelledTotalCount(MetricSeries(data, interval, op), Series(data, interval, op, false));
    if interval == Raw {
      TrackerChartProperties.RawSeries(data, op, false);
    } else {
      TrackerChartProperties.BucketsAscending(data, interval, op, false);
    }
  }
}
