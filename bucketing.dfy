// Time buckets of the chart aggregation: the `yyyy-MM-dd`, `yyyy-MM` and
// `yyyy` keys the charts group by, and the start of each period
// (`startOfDay`, `startOfMonth`, `startOfYear`) used as the bucket timestamp.
module Bucketing {
  import opened Calendar

  datatype Interval = Raw | Daily | Monthly | Yearly

  /** The formatted grouping key, kept as its fields. */
  datatype BucketKey = Day(year: int, month: int, day: int) | Month(year: int, month: int) | Year(year: int)

  function KeyOf(interval: Interval, t: DateTime): (k: BucketKey)
    requires interval != Raw
  {
    match interval
    case Daily => Day(t.date.year, t.date.month, t.date.day)
    case Monthly => Month(t.date.year, t.date.month)
    case Yearly => Year(t.date.year)
  }

  /** The first instant of the period a key names. */
  function PeriodStart(k: BucketKey): DateTime {
    match k
    case Day(y, m, d) => DateTime(Date(y, m, d), 0, 0, 0, 0)
    case Month(y, m) => DateTime(Date(y, m, 1), 0, 0, 0, 0)
    case Year(y) => DateTime(Date(y, 1, 1), 0, 0, 0, 0)
  }

  predicate KeyOfInterval(interval: Interval, k: BucketKey) {
    match interval
    case Raw => false
    case Daily => k.Day?
    case Monthly => k.Month?
    case Yearly => k.Year?
  }

  /** The bucket timestamp is the first instant of the period: it lies in the
      same bucket, no instant of the bucket comes before it, and it is at or
      before the point it was computed from. */
  lemma PeriodStartIsFirstInstant(interval: Interval, t: DateTime, u: DateTime)
    requires interval != Raw && ValidDateTime(t) && ValidDateTime(u)
    requires KeyOf(interval, u) == KeyOf(interval, t)
    ensures KeyOf(interval, PeriodStart(KeyOf(interval, t))) == KeyOf(interval, t)
    ensures NotAfter(PeriodStart(KeyOf(interval, t)), u)
  {
  }

  /** Keys of one interval are determined by their period start. */
  lemma PeriodStartInjective(interval: Interval, a: BucketKey, b: BucketKey)
    requires KeyOfInterval(interval, a) && KeyOfInterval(interval, b)
    ensures PeriodStart(a) == PeriodStart(b) <==> a == b
  {
  }

  /** Keys respect time: a later instant never falls in an earlier bucket,
      and a different bucket of a later instant starts strictly later. */
  lemma KeyOfMonotone(interval: Interval, t: DateTime, u: DateTime)
    requires interval != Raw && NotAfter(t, u)
    ensures NotAfter(PeriodStart(KeyOf(interval, t)), PeriodStart(KeyOf(interval, u)))
    ensures KeyOf(interval, t) != KeyOf(interval, u)
            ==> Before(PeriodStart(KeyOf(interval, t)), PeriodStart(KeyOf(interval, u)))
  {
  }
}
