// What the chart series computed by TrackerChart promises: raw output is the
// sorted input one point at a time; buckets partition the input, come out in
// strictly ascending time order and carry the start of their period; event
// buckets count their points; `maxEventCount` is the largest bucket value.
module TrackerChartProperties {
  import opened Calendar
  import opened Entities
  import opened Bucketing
  import opened Collections
  import opened TrackerChart

  /** `ps.map(f)` */
  function Image<B(==)>(f: DataPoint -> B, ps: seq<DataPoint>): (r: seq<B>)
    ensures |r| == |ps|
  {
    seq(|ps|, i requires 0 <= i < |ps| => f(ps[i]))
  }

  lemma ImageConcat<B>(f: DataPoint -> B, a: seq<DataPoint>, b: seq<DataPoint>)
    ensures Image(f, a + b) == Image(f, a) + Image(f, b)
  {
  }

  lemma {:induction false} ImageInsert<B>(f: DataPoint -> B, p: DataPoint, s: seq<DataPoint>)
    ensures multiset(Image(f, InsertByTime(p, s))) == multiset(Image(f, s)) + multiset{f(p)}
  {
    if |s| == 0 {
      assert Image(f, [p]) == [f(p)];
    } else if !Before(s[0].timestamp, p.timestamp) {
      ImageConcat(f, [p], s);
      assert Image(f, [p]) == [f(p)];
    } else {
      var rest := InsertByTime(p, s[1..]);
      ImageInsert(f, p, s[1..]);
      ImageConcat(f, [s[0]], rest);
      ImageConcat(f, [s[0]], s[1..]);
      assert Image(f, [s[0]]) == [f(s[0])];
      assert [s[0]] + s[1..] == s;
    }
  }

  /** Sorting permutes the points, so it permutes anything computed from
      each point alone. */
  lemma {:induction false} ImageSort<B>(f: DataPoint -> B, ps: seq<DataPoint>)
    ensures multiset(Image(f, SortByTime(ps))) == multiset(Image(f, ps))
  {
    if |ps| > 0 {
      ImageSort(f, ps[1..]);
      ImageInsert(f, ps[0], SortByTime(ps[1..]));
      ImageConcat(f, [ps[0]], ps[1..]);
      assert Image(f, [ps[0]]) == [f(ps[0])];
      assert [ps[0]] + ps[1..] == ps;
    }
  }

  lemma KeySeqIsImage(ps: seq<DataPoint>, interval: Interval)
    requires interval != Raw
    ensures KeySeq(ps, interval) == Image((p: DataPoint) => KeyOf(interval, p.timestamp), ps)
  {
  }

  /** Sorting does not change how many points fall in each bucket. */
  lemma SortedKeyCounts(data: seq<DataPoint>, interval: Interval)
    requires interval != Raw
    ensures multiset(KeySeq(SortByTime(data), interval)) == multiset(KeySeq(data, interval))
  {
    var f := (p: DataPoint) => KeyOf(interval, p.timestamp);
    KeySeqIsImage(data, interval);
    KeySeqIsImage(SortByTime(data), interval);
    ImageSort(f, data);
  }

  // ---------------------------------------------------------------------
  // Raw interval

  /** The raw series has one entry per input point, in ascending timestamp
      order; as a multiset it is the input with each point turned into its
      raw chart point (count 1, value 1 for events and the point's own value
      otherwise, notes passed through). */
  lemma RawSeries(data: seq<DataPoint>, op: Operation, isEvent: bool)
    ensures |Series(data, Raw, op, isEvent)| == |data|
    ensures forall i, j :: 0 <= i < j < |Series(data, Raw, op, isEvent)|
              ==> NotAfter(Series(data, Raw, op, isEvent)[i].timestamp, Series(data, Raw, op, isEvent)[j].timestamp)
    ensures multiset(Series(data, Raw, op, isEvent))
         == multiset(Image((p: DataPoint) => RawPoint(p, isEvent), data))
    ensures forall i :: 0 <= i < |Series(data, Raw, op, isEvent)| ==>
              Series(data, Raw, op, isEvent)[i].originalDataPointCount == 1
              && (isEvent ==> Series(data, Raw, op, isEvent)[i].value == 1.0)
  {
    var f := (p: DataPoint) => RawPoint(p, isEvent);
    var s := Series(data, Raw, op, isEvent);
    if |data| > 0 {
      var sorted := SortByTime(data);
      assert forall i :: 0 <= i < |s| ==> s[i] == RawPoint(sorted[i], isEvent);
      assert s == Image(f, sorted);
      ImageSort(f, data);
    }
  }

  // ---------------------------------------------------------------------
  // Buckets

  /** The number of input points the series entries stand for. */
  function TotalCount(points: seq<ChartPoint>): nat {
    if |points| == 0 then 0
    else TotalCount(points[..|points| - 1]) + points[|points| - 1].originalDataPointCount
  }

  lemma {:induction false} BucketSeriesCounts(sorted: seq<DataPoint>, interval: Interval, op: Operation, isEvent: bool,
                                              keys: seq<BucketKey>)
    requires interval != Raw
    requires forall i :: 0 <= i < |keys| ==> keys[i] in KeySeq(sorted, interval)
    ensures TotalCount(BucketSeries(sorted, interval, op, isEvent, keys))
         == SumMultiplicities(keys, multiset(KeySeq(sorted, interval)))
  {
    if |keys| > 0 {
      var n := |keys| - 1;
      var init, k := keys[..n], keys[n];
      BucketSeriesCounts(sorted, interval, op, isEvent, init);
      BucketSeriesStep(sorted, interval, op, isEvent, keys, n);
      assert keys[..n + 1] == keys;
      var s := BucketSeries(sorted, interval, op, isEvent, keys);
      var p := PointForKey(sorted, interval, op, isEvent, k);
      assert s == BucketSeries(sorted, interval, op, isEvent, init) + [p];
      assert s[..|s| - 1] == BucketSeries(sorted, interval, op, isEvent, init);
      BucketSize(sorted, interval, isEvent, k);
      assert p.originalDataPointCount == multiset(KeySeq(sorted, interval))[k];
    }
  }

  lemma {:induction false} RawCounts(points: seq<ChartPoint>)
    requires forall i :: 0 <= i < |points| ==> points[i].originalDataPointCount == 1
    ensures TotalCount(points) == |points|
  {
    if |points| > 0 {
      RawCounts(points[..|points| - 1]);
    }
  }

  /** Conservation of count: whatever the interval, the entries of the series
      stand for exactly the input points. */
  lemma CountsSumToLength(data: seq<DataPoint>, interval: Interval, op: Operation, isEvent: bool)
    ensures TotalCount(Series(data, interval, op, isEvent)) == |data|
    ensures |data| == 0 ==> Series(data, interval, op, isEvent) == [] && MaxEventCount(data, interval, op, isEvent) == 0.0
  {
    if |data| > 0 {
      var sorted := SortByTime(data);
      if interval == Raw {
        RawSeries(data, op, isEvent);
        RawCounts(Series(data, interval, op, isEvent));
      } else {
        var keys := Dedup(KeySeq(sorted, interval));
        BucketSeriesCounts(sorted, interval, op, isEvent, keys);
        GroupSizesSumToLength(KeySeq(sorted, interval));
      }
    }
  }

  /** Each bucket is one key present in the input: its timestamp is the start
      of the key's period, its count is the number of input points with that
      key (at least one), and every key present in the input has a bucket. */
  lemma SeriesBuckets(data: seq<DataPoint>, interval: Interval, op: Operation, isEvent: bool)
    requires interval != Raw
    ensures var r := Series(data, interval, op, isEvent);
            var keys := Dedup(KeySeq(SortByTime(data), interval));
            |r| == |keys| <= |data|
            && (forall k :: k in keys <==> multiset(KeySeq(data, interval))[k] >= 1)
            && forall i :: 0 <= i < |r| ==>
                 r[i].timestamp == PeriodStart(keys[i])
                 && r[i].dateLabel == DateLabel(LabelPattern(interval), PeriodStart(keys[i]))
                 && r[i].originalDataPointCount == multiset(KeySeq(data, interval))[keys[i]] >= 1
  {
    var sorted := SortByTime(data);
    var keys := Dedup(KeySeq(sorted, interval));
    SortedKeyCounts(data, interval);
    forall k ensures k in keys <==> multiset(KeySeq(data, interval))[k] >= 1 {
      DedupMembersOccur(KeySeq(sorted, interval), k);
    }
    forall i | 0 <= i < |keys| ensures |GroupOf(sorted, interval, isEvent, keys[i]).values|
                                      == multiset(KeySeq(data, interval))[keys[i]] >= 1 {
      BucketSize(sorted, interval, isEvent, keys[i]);
    }
  }

  /** Keys listed in an order whose period starts never go back in time. */
  predicate StartsNonDecreasing(ks: seq<BucketKey>) {
    forall i, j :: 0 <= i < j < |ks| ==> NotAfter(PeriodStart(ks[i]), PeriodStart(ks[j]))
  }

  lemma {:induction false} DedupStrictlyAscending(ks: seq<BucketKey>, interval: Interval)
    requires forall i :: 0 <= i < |ks| ==> KeyOfInterval(interval, ks[i])
    requires StartsNonDecreasing(ks)
    ensures forall i, j :: 0 <= i < j < |Dedup(ks)| ==> Before(PeriodStart(Dedup(ks)[i]), PeriodStart(Dedup(ks)[j]))
  {
    if |ks| > 0 {
      var init, x := ks[..|ks| - 1], ks[|ks| - 1];
      DedupStrictlyAscending(init, interval);
      var d := Dedup(init);
      if x !in d {
        var r := d + [x];
        forall i | 0 <= i < |d| ensures Before(PeriodStart(d[i]), PeriodStart(x)) {
          var m :| 0 <= m < |init| && init[m] == d[i];
          assert NotAfter(PeriodStart(init[m]), PeriodStart(x));
          PeriodStartInjective(interval, d[i], x);
          BeforeIsStrictTotalOrder(PeriodStart(d[i]), PeriodStart(x), PeriodStart(x));
        }
        assert Dedup(ks) == r;
      }
    }
  }

  lemma SortedKeysNonDecreasing(sorted: seq<DataPoint>, interval: Interval)
    requires interval != Raw && SortedByTime(sorted)
    ensures StartsNonDecreasing(KeySeq(sorted, interval))
  {
    forall i, j | 0 <= i < j < |sorted|
      ensures NotAfter(PeriodStart(KeyOf(interval, sorted[i].timestamp)), PeriodStart(KeyOf(interval, sorted[j].timestamp)))
    {
      KeyOfMonotone(interval, sorted[i].timestamp, sorted[j].timestamp);
    }
  }

  /** Buckets come out with strictly ascending, hence distinct, timestamps. */
  lemma BucketsAscending(data: seq<DataPoint>, interval: Interval, op: Operation, isEvent: bool)
    requires interval != Raw
    ensures forall i, j :: 0 <= i < j < |Series(data, interval, op, isEvent)| ==>
              Before(Series(data, interval, op, isEvent)[i].timestamp, Series(data, interval, op, isEvent)[j].timestamp)
  {
    if |data| > 0 {
      var sorted := SortByTime(data);
      var ks := KeySeq(sorted, interval);
      SortedKeysNonDecreasing(sorted, interval);
      DedupStrictlyAscending(ks, interval);
    }
  }

  /** Event trackers at an aggregated interval: every bucket's value is the
      number of its points, whatever the selected operation and the points'
      values. */
  lemma EventBucketsCountPoints(data: seq<DataPoint>, interval: Interval, op: Operation)
    requires interval != Raw
    ensures forall i :: 0 <= i < |Series(data, interval, op, true)| ==>
              Series(data, interval, op, true)[i].value == Series(data, interval, op, true)[i].originalDataPointCount as real
    ensures Series(data, interval, op, true) == Series(data, interval, Count, true)
  {
  }

  /** The selected operation matters only for value trackers at an
      aggregated interval. */
  lemma OperationIgnored(data: seq<DataPoint>, interval: Interval, op: Operation, isEvent: bool)
    requires interval == Raw || isEvent
    ensures Series(data, interval, op, isEvent) == Series(data, interval, Sum, isEvent)
  {
  }

  // ---------------------------------------------------------------------
  // maxEventCount

  lemma {:induction false} RunningMaxBounds(points: seq<ChartPoint>)
    ensures RunningMax(points) >= 0.0
    ensures forall i :: 0 <= i < |points| ==> points[i].value <= RunningMax(points)
    ensures RunningMax(points) == 0.0 || exists i :: 0 <= i < |points| && points[i].value == RunningMax(points)
  {
    if |points| > 0 {
      RunningMaxBounds(points[..|points| - 1]);
      assert forall i :: 0 <= i < |points| - 1 ==> points[..|points| - 1][i] == points[i];
    }
  }

  /** For an event tracker at an aggregated interval, `maxEventCount` is the
      largest bucket value, and it is zero exactly when there is no data. */
  lemma MaxEventCountIsMaximum(data: seq<DataPoint>, interval: Interval, op: Operation)
    requires interval != Raw
    ensures var r := Series(data, interval, op, true);
            var m := MaxEventCount(data, interval, op, true);
            (forall i :: 0 <= i < |r| ==> r[i].value <= m)
            && (|data| > 0 <==> exists i :: 0 <= i < |r| && r[i].value == m)
  {
    var r := Series(data, interval, op, true);
    RunningMaxBounds(r);
    if |data| > 0 {
      SeriesBuckets(data, interval, op, true);
      DedupFirst(KeySeq(SortByTime(data), interval));
      assert r[0].value >= 1.0;
    }
  }

  // ---------------------------------------------------------------------
  // Bar colour

  /** The index into `EVENT_HEATMAP_COLORS` of a bar of value `v` when the
      largest bar is `max`. */
  function BarColorIndex(v: real, max: real): (i: nat)
    ensures i < |EventHeatmapColors|
  {
    if max == 0.0 then 0
    else
      var colorIndex := if 4 < (v / max * 5.0).Floor then 4 else (v / max * 5.0).Floor;
      if colorIndex < 0 then 0 else colorIndex
  }

  function BarFill(v: real, max: real): string {
    EventHeatmapColors[BarColorIndex(v, max)]
  }

  lemma FloorMonotone(a: real, b: real)
    requires a <= b
    ensures a.Floor <= b.Floor
  {
  }

  /** A taller bar never gets a lighter colour, and the tallest bar gets the
      darkest one. */
  lemma BarColorMonotone(v: real, w: real, max: real)
    requires 0.0 <= max && v <= w
    ensures BarColorIndex(v, max) <= BarColorIndex(w, max)
    ensures 0.0 < max ==> BarColorIndex(max, max) == 4
  {
    if max > 0.0 {
      assert v / max <= w / max;
      FloorMonotone(v / max * 5.0, w / max * 5.0);
      assert max / max * 5.0 == 5.0;
    }
  }

  // ---------------------------------------------------------------------
  // Selected operation

  /** Event trackers always end up counting; value trackers sum per day and
      average per month or year, and keep their operation in the raw view. The
      choice is stable: running the effect again changes nothing. */
  lemma DefaultOperationPolicy(t: TrackerType, interval: Interval, current: Operation)
    ensures t == Event ==> DefaultOperation(t, interval, current) == Count
    ensures t == Value && interval == Raw ==> DefaultOperation(t, interval, current) == current
    ensures t == Value && interval == Daily ==> DefaultOperation(t, interval, current) == Sum
    ensures t == Value && (interval == Monthly || interval == Yearly) ==> DefaultOperation(t, interval, current) == Average
    ensures DefaultOperation(t, interval, DefaultOperation(t, interval, current)) == DefaultOperation(t, interval, current)
    ensures t == Event ==> EffectiveOperation(current, interval, true) == DefaultOperation(t, interval, current) || interval == Raw
  {
  }
}
