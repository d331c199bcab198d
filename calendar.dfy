// Local civil dates and date-times in the proleptic Gregorian calendar, as
// JavaScript's `Date` presents them through its local-time getters and as the
// date-fns helpers (`startOfDay`, `getDaysInMonth`, `getDay`, `addYears`)
// compute on them. Months are numbered 1..12 here; JavaScript's 0-based month
// index is converted where the source uses it.
module Calendar {

  datatype Date = Date(year: int, month: int, day: int)

  datatype DateTime = DateTime(date: Date, hour: int, minute: int, second: int, millis: int)

  predicate DateBefore(a: Date, b: Date) {
    a.year < b.year
    || (a.year == b.year && (a.month < b.month || (a.month == b.month && a.day < b.day)))
  }

  /** Strict chronological order (`a.getTime() < b.getTime()`). */
  predicate Before(a: DateTime, b: DateTime) {
    DateBefore(a.date, b.date)
    || (a.date == b.date
        && (a.hour < b.hour
            || (a.hour == b.hour
                && (a.minute < b.minute
                    || (a.minute == b.minute
                        && (a.second < b.second
                            || (a.second == b.second && a.millis < b.millis)))))))
  }

  predicate NotAfter(a: DateTime, b: DateTime) {
    !Before(b, a)
  }

  /** `Before` is a strict total order on date-times. */
  lemma BeforeIsStrictTotalOrder(a: DateTime, b: DateTime, c: DateTime)
    ensures !Before(a, a)
    ensures Before(a, b) ==> !Before(b, a)
    ensures Before(a, b) && Before(b, c) ==> Before(a, c)
    ensures a != b ==> Before(a, b) || Before(b, a)
  {
  }

  predicate IsLeapYear(y: int) {
    y % 4 == 0 && (y % 100 != 0 || y % 400 == 0)
  }

  function DaysInMonth(year: int, month: int): (n: int)
    requires 1 <= month <= 12
    ensures 28 <= n <= 31
    ensures month == 2 ==> (n == 29 <==> IsLeapYear(year))
  {
    if month == 2 then (if IsLeapYear(year) then 29 else 28)
    else if month == 4 || month == 6 || month == 9 || month == 11 then 30
    else 31
  }

  predicate ValidDate(d: Date) {
    1 <= d.month <= 12 && 1 <= d.day <= DaysInMonth(d.year, d.month)
  }

  predicate ValidDateTime(t: DateTime) {
    ValidDate(t.date)
    && 0 <= t.hour < 24 && 0 <= t.minute < 60 && 0 <= t.second < 60 && 0 <= t.millis < 1000
  }

  /** Day of the week, 0 = Sunday .. 6 = Saturday (`getDay`). Dafny's `/` and
      `%` are Euclidean, which for a positive divisor is floor division, so the
      formula also holds for years before 1. */
  function Weekday(d: Date): (w: int)
    requires 1 <= d.month <= 12
    ensures 0 <= w < 7
  {
    var y := if d.month < 3 then d.year - 1 else d.year;
    (YearTerm(y) + MonthOffsets[d.month - 1] + d.day) % 7
  }

  /** The per-month offsets of Sakamoto's method (January and February are
      counted with the year before). */
  const MonthOffsets: seq<int> := [0, 3, 2, 5, 0, 3, 5, 1, 4, 6, 2, 4]

  /** The days a year shifts the weekday by: one per year, plus one per leap
      year up to it. */
  function YearTerm(y: int): int {
    y + y / 4 - y / 100 + y / 400
  }

  /** Within a month, each day falls one weekday after the previous one. */
  lemma WeekdayOfDay(year: int, month: int, day: int)
    requires 1 <= month <= 12
    ensures Weekday(Date(year, month, day)) == (Weekday(Date(year, month, 1)) + day - 1) % 7
  {
    var y := if month < 3 then year - 1 else year;
    var c := YearTerm(y) + MonthOffsets[month - 1];
    assert Weekday(Date(year, month, day)) == (c + day) % 7;
    assert Weekday(Date(year, month, 1)) == (c + 1) % 7;
    ModSevenShift(c + 1, day - 1);
  }

  /** The first of the next month falls as many weekdays later as the month
      has days. */
  lemma WeekdayNextMonth(year: int, month: int)
    requires 1 <= month < 12
    ensures Weekday(Date(year, month + 1, 1))
            == (Weekday(Date(year, month, 1)) + DaysInMonth(year, month)) % 7
  {
    var days := DaysInMonth(year, month);
    var before := Weekday(Date(year, month, 1));
    if month == 2 {
      YearTermStep(year);
      var c := YearTerm(year - 1) + 3 + 1;
      assert before == c % 7;
      assert Weekday(Date(year, 3, 1)) == (c + days - 28) % 7;
      ModSevenShift(c, days);
      ModSevenPeriod(c + days - 28, 4);
    } else {
      var y := if month < 3 then year - 1 else year;
      var c := YearTerm(y) + MonthOffsets[month - 1] + 1;
      var k := OffsetStep(month);
      assert before == c % 7;
      assert Weekday(Date(year, month + 1, 1)) == (c + days - 7 * k) % 7;
      ModSevenShift(c, days);
      ModSevenPeriod(c + days - 7 * k, k);
    }
  }

  /** Away from February, consecutive offsets differ by the month's length
      modulo 7. */
  lemma OffsetStep(month: int) returns (k: int)
    requires 1 <= month < 12 && month != 2
    ensures MonthOffsets[month] == MonthOffsets[month - 1] + DaysInMonth(0, month) - 7 * k
  {
    k := if month == 4 || month == 7 || month == 10 then 5 else 4;
  }

  /** From one year to the next the year term grows by one, or by two when the
      later year is a leap year. */
  lemma YearTermStep(year: int)
    ensures YearTerm(year) == YearTerm(year - 1) + 1 + (if IsLeapYear(year) then 1 else 0)
  {
    MultiplesStep(year, 4);
    MultiplesStep(year, 100);
    MultiplesStep(year, 400);
    CenturyDivisors(year);
  }

  lemma CenturyDivisors(y: int)
    ensures y % 400 == 0 ==> y % 100 == 0
    ensures y % 100 == 0 ==> y % 4 == 0
  {
    if y % 400 == 0 {
      var q := y / 400;
      assert y == 400 * q;
      assert y / 100 == 4 * q;
    }
    if y % 100 == 0 {
      var q := y / 100;
      assert y == 100 * q;
      assert y / 4 == 25 * q;
    }
  }

  /** Going from `y - 1` to `y` passes one more multiple of `k` exactly when
      `y` is one. */
  lemma MultiplesStep(y: int, k: int)
    requires k == 4 || k == 100 || k == 400
    ensures y / k - (y - 1) / k == if y % k == 0 then 1 else 0
  {
    if k == 4 {
      assert y / 4 - (y - 1) / 4 == if y % 4 == 0 then 1 else 0;
    } else if k == 100 {
      assert y / 100 - (y - 1) / 100 == if y % 100 == 0 then 1 else 0;
    } else {
      assert y / 400 - (y - 1) / 400 == if y % 400 == 0 then 1 else 0;
    }
  }

  lemma ModSevenPeriod(x: int, k: int)
    ensures (x + 7 * k) % 7 == x % 7
  {
    var q := x / 7;
    assert x == 7 * q + x % 7;
    assert x + 7 * k == 7 * (q + k) + x % 7;
  }

  /** 1 January follows 1 December of the year before by December's 31 days. */
  lemma WeekdayNextYear(year: int)
    ensures Weekday(Date(year + 1, 1, 1)) == (Weekday(Date(year, 12, 1)) + 31) % 7
  {
    var c := YearTerm(year) + 1;
    assert Weekday(Date(year + 1, 1, 1)) == c % 7;
    assert Weekday(Date(year, 12, 1)) == (c + 4) % 7;
    ModSevenShift(c + 4, 31);
    ModSevenPeriod(c, 5);
  }

  /** 1 January 1970 was a Thursday. */
  lemma WeekdayEpoch()
    ensures Weekday(Date(1970, 1, 1)) == 4
  {
  }

  lemma ModSevenShift(a: int, b: int)
    ensures (a % 7 + b) % 7 == (a + b) % 7
  {
    var q := a / 7;
    assert a == 7 * q + a % 7;
    assert a + b == 7 * q + (a % 7 + b);
  }

  /** `addYears(t, n)`: same month and time of day, `n` years on; the day is
      clamped to the length of the target month (29 February becomes
      28 February in a common year). */
  function AddYears(t: DateTime, n: int): (r: DateTime)
    requires ValidDateTime(t)
    ensures ValidDateTime(r)
    ensures r.date.year == t.date.year + n
    ensures r.date.month == t.date.month
    ensures r.date.day == if t.date.day <= DaysInMonth(t.date.year + n, t.date.month) then t.date.day
                          else DaysInMonth(t.date.year + n, t.date.month)
    ensures r.hour == t.hour && r.minute == t.minute && r.second == t.second && r.millis == t.millis
  {
    var y := t.date.year + n;
    var dim := DaysInMonth(y, t.date.month);
    t.(date := Date(y, t.date.month, if t.date.day <= dim then t.date.day else dim))
  }
}
