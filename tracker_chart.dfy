// The chart aggregation engine of TrackerChart.tsx: the `processedChartData`
// computation (sort by timestamp, emit raw points or group them into day,
// month or year buckets, reduce each bucket, summarise its notes, track the
// largest event count), the default-operation policy and the bar colour
// index. The engine is parameterised by `isEvent`; MetricChart.tsx uses the
// same engine with `isEvent` false (see metric_chart.dfy).
module TrackerChart {
  import opened Calendar
  import opened Entities
  import opened Bucketing
  import opened Collections
  import opened Text

  datatype Operation = Sum | Average | Count | Min | Max

  /** `format(at, pattern)`, kept as its two inputs. */
  datatype DateLabel = DateLabel(pattern: string, at: DateTime)

  /** One entry of the chart series (`ProcessedDataPoint`). */
  datatype ChartPoint = ChartPoint(
    timestamp: DateTime,
    value: real,
    notes: Option<string>,
    originalDataPointCount: nat,
    dateLabel: DateLabel)

  /** One entry of `aggregationMap` (`AggregationGroup`). */
  datatype Group = Group(timestamp: DateTime, values: seq<real>, notesArr: seq<string>, dateLabel: DateLabel)

  datatype ChartData = ChartData(points: seq<ChartPoint>, maxEventCount: real)

  const EventHeatmapColors: seq<string> := [
    "hsl(120, 60%, 90%)",
    "hsl(120, 55%, 75%)",
    "hsl(120, 50%, 60%)",
    "hsl(120, 65%, 45%)",
    "hsl(120, 70%, 30%)"
  ]

  // ---------------------------------------------------------------------
  // Sorting by timestamp (`sort((a, b) => a.getTime() - b.getTime())`,
  // a stable sort)

  predicate SortedByTime(s: seq<DataPoint>) {
    forall i, j :: 0 <= i < j < |s| ==> NotAfter(s[i].timestamp, s[j].timestamp)
  }

  /** Inserts `p` in front of the first element not strictly earlier than it. */
  function InsertByTime(p: DataPoint, s: seq<DataPoint>): (r: seq<DataPoint>)
    ensures multiset(r) == multiset(s) + multiset{p}
  {
    if |s| == 0 then [p]
    else if !Before(s[0].timestamp, p.timestamp) then [p] + s
    else
      assert s == [s[0]] + s[1..];
      [s[0]] + InsertByTime(p, s[1..])
  }

  lemma NotAfterTransitive(a: DateTime, b: DateTime, c: DateTime)
    requires NotAfter(a, b) && NotAfter(b, c)
    ensures NotAfter(a, c)
  {
  }

  lemma {:induction false} InsertKeepsSorted(p: DataPoint, s: seq<DataPoint>)
    requires SortedByTime(s)
    ensures SortedByTime(InsertByTime(p, s))
  {
    var r := InsertByTime(p, s);
    if |s| == 0 {
    } else if !Before(s[0].timestamp, p.timestamp) {
      forall j | 0 <= j < |s| ensures NotAfter(p.timestamp, s[j].timestamp) {
        if j > 0 {
          NotAfterTransitive(p.timestamp, s[0].timestamp, s[j].timestamp);
        }
      }
      assert forall j :: 1 <= j < |r| ==> r[j] == s[j - 1];
    } else {
      var rest := InsertByTime(p, s[1..]);
      InsertKeepsSorted(p, s[1..]);
      forall j | 0 <= j < |rest| ensures NotAfter(s[0].timestamp, rest[j].timestamp) {
        assert rest[j] in multiset(rest);
        assert rest[j] == p || rest[j] in multiset(s[1..]);
        if rest[j] != p {
          var m :| 0 <= m < |s[1..]| && s[1..][m] == rest[j];
          assert s[m + 1] == rest[j];
        }
      }
      assert forall j :: 1 <= j < |r| ==> r[j] == rest[j - 1];
    }
  }

  /** The ascending permutation of the data points (stable). */
  function SortByTime(ps: seq<DataPoint>): (r: seq<DataPoint>)
    ensures SortedByTime(r)
    ensures multiset(r) == multiset(ps)
    ensures |r| == |ps|
  {
    if |ps| == 0 then []
    else
      assert ps == [ps[0]] + ps[1..];
      var rest := SortByTime(ps[1..]);
      InsertKeepsSorted(ps[0], rest);
      InsertByTime(ps[0], rest)
  }

  // ---------------------------------------------------------------------
  // Bucketing (`aggregationMap`)

  function KeySeq(ps: seq<DataPoint>, interval: Interval): seq<BucketKey>
    requires interval != Raw
  {
    seq(|ps|, i requires 0 <= i < |ps| => KeyOf(interval, ps[i].timestamp))
  }

  /** What a point pushes into its bucket's `values`: 1 for an event tracker. */
  function Contribution(dp: DataPoint, isEvent: bool): real {
    if isEvent then 1.0 else dp.value
  }

  /** The `values` of bucket `k` after all of `ps` has been pushed. */
  function BucketValues(ps: seq<DataPoint>, interval: Interval, isEvent: bool, k: BucketKey): seq<real>
    requires interval != Raw
  {
    if |ps| == 0 then []
    else
      var last := ps[|ps| - 1];
      BucketValues(ps[..|ps| - 1], interval, isEvent, k)
      + (if KeyOf(interval, last.timestamp) == k then [Contribution(last, isEvent)] else [])
  }

  /** The `notesArr` of bucket `k`: the truthy notes, in push order. */
  function BucketNotes(ps: seq<DataPoint>, interval: Interval, k: BucketKey): seq<string>
    requires interval != Raw
  {
    if |ps| == 0 then []
    else
      var last := ps[|ps| - 1];
      BucketNotes(ps[..|ps| - 1], interval, k)
      + (if KeyOf(interval, last.timestamp) == k && HasNote(last) then [last.notes.value] else [])
  }

  function LabelPattern(interval: Interval): string {
    match interval
    case Raw => "MMM d, yy p"
    case Daily => "MMM d, yyyy"
    case Monthly => "MMM yyyy"
    case Yearly => "yyyy"
  }

  /** The complete group of key `k` once every point of `ps` is pushed. */
  function GroupOf(ps: seq<DataPoint>, interval: Interval, isEvent: bool, k: BucketKey): Group
    requires interval != Raw
  {
    var start := PeriodStart(k);
    Group(start, BucketValues(ps, interval, isEvent, k), BucketNotes(ps, interval, k),
          DateLabel(LabelPattern(interval), start))
  }

  /** A bucket holds one value per point carrying its key. */
  lemma {:induction false} BucketValuesCount(ps: seq<DataPoint>, interval: Interval, isEvent: bool, k: BucketKey)
    requires interval != Raw
    ensures |BucketValues(ps, interval, isEvent, k)| == multiset(KeySeq(ps, interval))[k]
  {
    if |ps| > 0 {
      var init := ps[..|ps| - 1];
      var key := KeyOf(interval, ps[|ps| - 1].timestamp);
      BucketValuesCount(init, interval, isEvent, k);
      KeySeqSnoc(ps, interval);
      var keys := KeySeq(init, interval);
      assert multiset(keys + [key]) == multiset(keys) + multiset{key};
      assert multiset(keys + [key])[k] == multiset(keys)[k] + (if key == k then 1 else 0);
    }
  }

  lemma KeySeqSnoc(ps: seq<DataPoint>, interval: Interval)
    requires interval != Raw && |ps| > 0
    ensures KeySeq(ps, interval) == KeySeq(ps[..|ps| - 1], interval) + [KeyOf(interval, ps[|ps| - 1].timestamp)]
  {
  }

  /** A bucket holds a note only for a point carrying its key and a truthy
      note. */
  lemma {:induction false} BucketNotesBound(ps: seq<DataPoint>, interval: Interval, isEvent: bool, k: BucketKey)
    requires interval != Raw
    ensures |BucketNotes(ps, interval, k)| <= |BucketValues(ps, interval, isEvent, k)|
    ensures forall i :: 0 <= i < |BucketNotes(ps, interval, k)| ==> BucketNotes(ps, interval, k)[i] != ""
  {
    if |ps| > 0 {
      BucketNotesBound(ps[..|ps| - 1], interval, isEvent, k);
    }
  }

  /** A bucket holds one value per point carrying its key, and a note only
      for points with a truthy note. */
  lemma BucketSize(ps: seq<DataPoint>, interval: Interval, isEvent: bool, k: BucketKey)
    requires interval != Raw
    ensures |BucketValues(ps, interval, isEvent, k)| == multiset(KeySeq(ps, interval))[k]
    ensures |BucketNotes(ps, interval, k)| <= |BucketValues(ps, interval, isEvent, k)|
    ensures forall i :: 0 <= i < |BucketNotes(ps, interval, k)| ==> BucketNotes(ps, interval, k)[i] != ""
  {
    BucketValuesCount(ps, interval, isEvent, k);
    BucketNotesBound(ps, interval, isEvent, k);
  }

  /** Pushing one more point changes only the group of its own key. */
  lemma GroupOfStep(prefix: seq<DataPoint>, dp: DataPoint, interval: Interval, isEvent: bool, k: BucketKey)
    requires interval != Raw
    ensures KeySeq(prefix + [dp], interval) == KeySeq(prefix, interval) + [KeyOf(interval, dp.timestamp)]
    ensures GroupOf(prefix + [dp], interval, isEvent, k)
         == if KeyOf(interval, dp.timestamp) != k then GroupOf(prefix, interval, isEvent, k)
            else
              var g := GroupOf(prefix, interval, isEvent, k);
              g.(values := g.values + [Contribution(dp, isEvent)],
                 notesArr := if HasNote(dp) then g.notesArr + [dp.notes.value] else g.notesArr)
  {
    assert (prefix + [dp])[..|prefix|] == prefix;
  }

  /** The group of a key not seen yet is the freshly created, empty one. */
  lemma UnseenKeyGroup(prefix: seq<DataPoint>, interval: Interval, isEvent: bool, k: BucketKey)
    requires interval != Raw && k !in KeySeq(prefix, interval)
    ensures GroupOf(prefix, interval, isEvent, k)
         == Group(PeriodStart(k), [], [], DateLabel(LabelPattern(interval), PeriodStart(k)))
  {
    BucketSize(prefix, interval, isEvent, k);
  }

  /** `order` and `groups` are what one pass over `ps` has built: the keys in
      first-seen order, each mapped to its group. */
  ghost predicate Built(ps: seq<DataPoint>, interval: Interval, isEvent: bool,
                        order: seq<BucketKey>, groups: map<BucketKey, Group>)
    requires interval != Raw
  {
    order == Dedup(KeySeq(ps, interval))
    && (forall k :: k in groups <==> k in order)
    && forall k :: k in groups ==> groups[k] == GroupOf(ps, interval, isEvent, k)
  }

  /** The `forEach` callback: files one more point under its key, creating
      the group the first time the key is seen. Given the map built from
      `prefix`, it returns the map built from `prefix + [dp]`. */
  method PushPoint(ghost prefix: seq<DataPoint>, dp: DataPoint, interval: Interval, isEvent: bool,
                   order0: seq<BucketKey>, groups0: map<BucketKey, Group>)
    returns (order: seq<BucketKey>, groups: map<BucketKey, Group>)
    requires interval != Raw
    requires Built(prefix, interval, isEvent, order0, groups0)
    ensures Built(prefix + [dp], interval, isEvent, order, groups)
  {
    order, groups := order0, groups0;
    var key := KeyOf(interval, dp.timestamp);
    var start := PeriodStart(key);
    GroupOfStep(prefix, dp, interval, isEvent, key);
    ghost var keys := KeySeq(prefix + [dp], interval);
    assert keys[..|keys| - 1] == KeySeq(prefix, interval);
    if key !in groups {
      UnseenKeyGroup(prefix, interval, isEvent, key);
      groups := groups[key := Group(start, [], [], DateLabel(LabelPattern(interval), start))];
      order := order + [key];
    }
    var group := groups[key];
    group := group.(values := group.values + [Contribution(dp, isEvent)]);
    if HasNote(dp) {
      group := group.(notesArr := group.notesArr + [dp.notes.value]);
    }
    groups := groups[key := group];
    forall k | k in groups
      ensures groups[k] == GroupOf(prefix + [dp], interval, isEvent, k)
    {
      GroupOfStep(prefix, dp, interval, isEvent, k);
    }
  }

  /** Builds `aggregationMap` as the source does: one pass over the sorted
      points, creating a group the first time its key is seen and pushing the
      point's value and truthy note into it. `order` is the order in which
      the keys were inserted. */
  method BuildGroups(sorted: seq<DataPoint>, interval: Interval, isEvent: bool)
    returns (order: seq<BucketKey>, groups: map<BucketKey, Group>)
    requires interval != Raw
    ensures order == Dedup(KeySeq(sorted, interval))
    ensures forall k :: k in groups <==> k in order
    ensures forall k :: k in groups ==> groups[k] == GroupOf(sorted, interval, isEvent, k)
  {
    order, groups := [], map[];
    for i := 0 to |sorted|
      invariant Built(sorted[..i], interval, isEvent, order, groups)
    {
      assert sorted[..i + 1] == sorted[..i] + [sorted[i]];
      order, groups := PushPoint(sorted[..i], sorted[i], interval, isEvent, order, groups);
    }
    assert sorted[..|sorted|] == sorted;
  }

  // ---------------------------------------------------------------------
  // Reduction of one bucket

  /** `values.reduce((acc, val) => acc + val, 0)` */
  function Total(vs: seq<real>): real {
    if |vs| == 0 then 0.0 else Total(vs[..|vs| - 1]) + vs[|vs| - 1]
  }

  /** `Math.min(...values)` */
  function Minimum(vs: seq<real>): (m: real)
    requires |vs| > 0
    ensures m in vs
    ensures forall i :: 0 <= i < |vs| ==> m <= vs[i]
  {
    if |vs| == 1 then vs[0]
    else
      var m := Minimum(vs[..|vs| - 1]);
      if vs[|vs| - 1] < m then vs[|vs| - 1] else m
  }

  /** `Math.max(...values)` */
  function Maximum(vs: seq<real>): (m: real)
    requires |vs| > 0
    ensures m in vs
    ensures forall i :: 0 <= i < |vs| ==> vs[i] <= m
  {
    if |vs| == 1 then vs[0]
    else
      var m := Maximum(vs[..|vs| - 1]);
      if vs[|vs| - 1] > m then vs[|vs| - 1] else m
  }

  /** The `switch (currentOperationForGroup)` of one bucket. */
  function Reduce(op: Operation, vs: seq<real>): real
    requires |vs| > 0
  {
    match op
    case Sum => Total(vs)
    case Average => Total(vs) / (|vs| as real)
    case Count => |vs| as real
    case Min => Minimum(vs)
    case Max => Maximum(vs)
  }

  /** `n` copies of `x` added up: multiplication kept linear for the prover. */
  function Scaled(n: nat, x: real): real {
    if n == 0 then 0.0 else Scaled(n - 1, x) + x
  }

  lemma {:induction false} ScaledMonotone(n: nat, a: real, b: real)
    requires a <= b
    ensures Scaled(n, a) <= Scaled(n, b)
  {
    if n > 0 {
      ScaledMonotone(n - 1, a, b);
    }
  }

  lemma {:induction false} ScaledIsProduct(n: nat, x: real)
    ensures Scaled(n, x) == (n as real) * x
  {
    if n > 0 {
      ScaledIsProduct(n - 1, x);
      assert (n as real) * x == ((n - 1) as real) * x + x;
    }
  }

  /** Every value is at least the minimum, so the total is at least `n`
      times the minimum. */
  lemma {:induction false} TotalAtLeast(vs: seq<real>)
    requires |vs| > 0
    ensures Scaled(|vs|, Minimum(vs)) <= Total(vs)
  {
    if |vs| > 1 {
      var init := vs[..|vs| - 1];
      TotalAtLeast(init);
      ScaledMonotone(|init|, Minimum(vs), Minimum(init));
    }
  }

  /** Every value is at most the maximum, so the total is at most `n` times
      the maximum. */
  lemma {:induction false} TotalAtMost(vs: seq<real>)
    requires |vs| > 0
    ensures Total(vs) <= Scaled(|vs|, Maximum(vs))
  {
    if |vs| > 1 {
      var init := vs[..|vs| - 1];
      TotalAtMost(init);
      ScaledMonotone(|init|, Maximum(init), Maximum(vs));
    }
  }

  lemma QuotientBounds(t: real, n: real, lo: real, hi: real)
    requires n > 0.0 && n * lo <= t <= n * hi
    ensures lo <= t / n <= hi
  {
    var q := t / n;
    assert t == n * q;
    assert n * lo <= n * q <= n * hi;
  }

  /** A total between `n` copies of `lo` and `n` copies of `hi` has its mean
      between `lo` and `hi`. */
  lemma MeanBounds(n: nat, t: real, lo: real, hi: real)
    requires n > 0 && Scaled(n, lo) <= t <= Scaled(n, hi)
    ensures lo <= t / (n as real) <= hi
  {
    ScaledIsProduct(n, lo);
    ScaledIsProduct(n, hi);
    QuotientBounds(t, n as real, lo, hi);
  }

  /** The average of a bucket lies between its minimum and its maximum. */
  lemma AverageWithinRange(vs: seq<real>)
    requires |vs| > 0
    ensures Reduce(Min, vs) <= Reduce(Average, vs) <= Reduce(Max, vs)
  {
    TotalAtLeast(vs);
    TotalAtMost(vs);
    MeanBounds(|vs|, Total(vs), Minimum(vs), Maximum(vs));
  }

  /** Event trackers at an aggregated interval are always counted. */
  function EffectiveOperation(op: Operation, interval: Interval, isEvent: bool): Operation {
    if isEvent && interval != Raw then Count else op
  }

  // ---------------------------------------------------------------------
  // Selected operation

  /** The operation selected when the chart first renders. */
  function InitialOperation(t: TrackerType): Operation {
    if t == Event then Count else Sum
  }

  /** The operation after the effect that runs whenever the tracker type or
      the interval changes; `current` is the operation selected before. */
  function DefaultOperation(t: TrackerType, interval: Interval, current: Operation): Operation {
    if t == Event then Count
    else if interval == Raw then current
    else if interval == Daily then Sum
    else Average
  }

  // ---------------------------------------------------------------------
  // Notes summary

  /** `${count} entr${count > 1 ? 'ies' : 'y'}` */
  function EntryPhrase(count: nat): string {
    DecimalString(count) + " entr" + (if count > 1 then "ies" else "y")
  }

  /** The summary of a bucket of `count` points whose distinct truthy notes,
      in first-seen order, are `unique`. */
  function NotesSummary(count: nat, unique: seq<string>): string {
    var phrase := EntryPhrase(count);
    if |unique| > 0 then
      phrase + ". Notes: " + Join(unique[..if |unique| < 2 then |unique| else 2], "; ")
      + (if |unique| > 2 then "..." else "")
    else phrase
  }

  /** The summary is the entry phrase, extended exactly when the bucket has a
      note: then ". Notes: " follows with at most the first two distinct
      notes joined by "; ", and "..." exactly when there are more than two. */
  lemma NotesSummaryShape(count: nat, unique: seq<string>)
    ensures StartsWith(NotesSummary(count, unique), EntryPhrase(count))
    ensures NotesSummary(count, unique) == EntryPhrase(count) <==> unique == []
    ensures |unique| == 1 ==> NotesSummary(count, unique) == EntryPhrase(count) + ". Notes: " + unique[0]
    ensures |unique| == 2 ==>
      NotesSummary(count, unique) == EntryPhrase(count) + ". Notes: " + unique[0] + "; " + unique[1]
    ensures |unique| > 2 ==>
      NotesSummary(count, unique) == EntryPhrase(count) + ". Notes: " + unique[0] + "; " + unique[1] + "..."
  {
    var phrase := EntryPhrase(count);
    var s := NotesSummary(count, unique);
    if unique != [] {
      var taken := unique[..if |unique| < 2 then |unique| else 2];
      var rest := Join(taken, "; ") + (if |unique| > 2 then "..." else "");
      assert s == phrase + (". Notes: " + rest);
      assert |s| > |phrase|;
      assert s[..|phrase|] == phrase;
      if |unique| == 1 {
        assert taken == [unique[0]];
      } else {
        assert taken == [unique[0], unique[1]];
        assert taken[1..] == [unique[1]];
        assert Join(taken, "; ") == unique[0] + "; " + unique[1];
      }
    }
  }

  // ---------------------------------------------------------------------
  // The chart series

  function RawPoint(dp: DataPoint, isEvent: bool): ChartPoint {
    ChartPoint(dp.timestamp, Contribution(dp, isEvent), dp.notes, 1, DateLabel(LabelPattern(Raw), dp.timestamp))
  }

  function BucketPoint(g: Group, op: Operation, interval: Interval, isEvent: bool): ChartPoint
    requires |g.values| > 0
  {
    var count := |g.values|;
    ChartPoint(g.timestamp, Reduce(EffectiveOperation(op, interval, isEvent), g.values),
               Some(NotesSummary(count, Dedup(g.notesArr))), count, g.dateLabel)
  }

  function PointForKey(sorted: seq<DataPoint>, interval: Interval, op: Operation, isEvent: bool, k: BucketKey): ChartPoint
    requires interval != Raw && k in KeySeq(sorted, interval)
  {
    BucketSize(sorted, interval, isEvent, k);
    BucketPoint(GroupOf(sorted, interval, isEvent, k), op, interval, isEvent)
  }

  function BucketSeries(sorted: seq<DataPoint>, interval: Interval, op: Operation, isEvent: bool, keys: seq<BucketKey>): seq<ChartPoint>
    requires interval != Raw
    requires forall i :: 0 <= i < |keys| ==> keys[i] in KeySeq(sorted, interval)
  {
    seq(|keys|, i requires 0 <= i < |keys| => PointForKey(sorted, interval, op, isEvent, keys[i]))
  }

  /** The series `processedChartData` holds for the given data, interval and
      selected operation. */
  function Series(data: seq<DataPoint>, interval: Interval, op: Operation, isEvent: bool): seq<ChartPoint> {
    if |data| == 0 then []
    else
      var sorted := SortByTime(data);
      if interval == Raw then seq(|sorted|, i requires 0 <= i < |sorted| => RawPoint(sorted[i], isEvent))
      else BucketSeries(sorted, interval, op, isEvent, Dedup(KeySeq(sorted, interval)))
  }

  /** `currentMaxEventCount` after visiting `points` in order, starting at 0. */
  function RunningMax(points: seq<ChartPoint>): real {
    if |points| == 0 then 0.0
    else
      var m := RunningMax(points[..|points| - 1]);
      var v := points[|points| - 1].value;
      if v > m then v else m
  }

  /** The `maxEventCount` returned beside the series. */
  function MaxEventCount(data: seq<DataPoint>, interval: Interval, op: Operation, isEvent: bool): real {
    if |data| == 0 then 0.0
    else if interval == Raw then (if isEvent then 1.0 else 0.0)
    else if isEvent then RunningMax(Series(data, interval, op, isEvent))
    else 0.0
  }

  lemma BucketSeriesStep(sorted: seq<DataPoint>, interval: Interval, op: Operation, isEvent: bool,
                         keys: seq<BucketKey>, i: nat)
    requires interval != Raw && i < |keys|
    requires forall j :: 0 <= j < |keys| ==> keys[j] in KeySeq(sorted, interval)
    ensures BucketSeries(sorted, interval, op, isEvent, keys[..i + 1])
         == BucketSeries(sorted, interval, op, isEvent, keys[..i]) + [PointForKey(sorted, interval, op, isEvent, keys[i])]
  {
  }

  lemma RunningMaxStep(points: seq<ChartPoint>, p: ChartPoint)
    ensures RunningMax(points + [p]) == if p.value > RunningMax(points) then p.value else RunningMax(points)
  {
    assert (points + [p])[..|points|] == points;
  }

  /** The `Object.values(aggregationMap).map(...)` pass: one chart point per
      group in key insertion order, and the running maximum of the event
      counts. */
  method SummariseGroups(sorted: seq<DataPoint>, interval: Interval, op: Operation, isEvent: bool,
                         order: seq<BucketKey>, groups: map<BucketKey, Group>)
    returns (points: seq<ChartPoint>, currentMaxEventCount: real)
    requires interval != Raw
    requires order == Dedup(KeySeq(sorted, interval))
    requires forall k :: k in groups <==> k in order
    requires forall k :: k in groups ==> groups[k] == GroupOf(sorted, interval, isEvent, k)
    ensures points == BucketSeries(sorted, interval, op, isEvent, order)
    ensures currentMaxEventCount == if isEvent then RunningMax(points) else 0.0
  {
    currentMaxEventCount := 0.0;
    points := [];
    assert forall j :: 0 <= j < |order| ==> order[j] in KeySeq(sorted, interval);
    for i := 0 to |order|
      invariant points == BucketSeries(sorted, interval, op, isEvent, order[..i])
      invariant currentMaxEventCount == if isEvent then RunningMax(points) else 0.0
    {
      var key := order[i];
      var group := groups[key];
      assert group == GroupOf(sorted, interval, isEvent, key);
      // A group is created together with its first value, so the source's
      // `if (count === 0) return null` (and the `filter(Boolean)` after it)
      // never applies.
      BucketSize(sorted, interval, isEvent, key);
      var point := BucketPoint(group, op, interval, isEvent);
      assert point == PointForKey(sorted, interval, op, isEvent, key);
      RunningMaxStep(points, point);
      if isEvent && interval != Raw && point.value > currentMaxEventCount {
        currentMaxEventCount := point.value;
      }
      BucketSeriesStep(sorted, interval, op, isEvent, order, i);
      points := points + [point];
    }
    assert order[..|order|] == order;
  }

  /** The `processedChartData` / `maxEventCount` computation. */
  method ProcessChartData(data: seq<DataPoint>, interval: Interval, op: Operation, isEvent: bool)
    returns (result: ChartData)
    ensures result.points == Series(data, interval, op, isEvent)
    ensures result.maxEventCount == MaxEventCount(data, interval, op, isEvent)
  {
    if |data| == 0 {
      return ChartData([], 0.0);
    }
    var sorted := SortByTime(data);
    if interval == Raw {
      var points := seq(|sorted|, i requires 0 <= i < |sorted| => RawPoint(sorted[i], isEvent));
      return ChartData(points, if isEvent then 1.0 else 0.0);
    }
    var order, groups := BuildGroups(sorted, interval, isEvent);
    var points, currentMaxEventCount := SummariseGroups(sorted, interval, op, isEvent, order, groups);
    return ChartData(points, currentMaxEventCount);
  }
}
