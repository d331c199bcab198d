// EventCalendarHeatmap.tsx: the per-date event count (`eventMap`), the month
// grids of the year view (`getMonthData`), the colour of a day cell
// (`getEventColor`), the per-day tooltip notes, and the displayed year with
// its previous/next navigation.
module EventCalendarHeatmap {
  import opened Calendar
  import opened Entities
  import opened Collections
  import opened Text

  // ---------------------------------------------------------------------
  // Counting events per local date

  /** The local date (`yyyy-MM-dd`) of each point, in input order. */
  function DateSeq(data: seq<DataPoint>): (r: seq<Date>)
    ensures |r| == |data|
  {
    seq(|data|, i requires 0 <= i < |data| => data[i].timestamp.date)
  }

  /** `eventMap` as a value: a date is a key exactly when some point falls on
      it, and maps to the number of points on it. */
  ghost predicate IsEventMap(data: seq<DataPoint>, m: map<Date, nat>) {
    (forall d :: d in m <==> d in DateSeq(data))
    && forall d :: d in m ==> m[d] == multiset(DateSeq(data))[d]
  }

  /** Builds `eventMap` with one `set` per point, as the source does. */
  method BuildEventMap(data: seq<DataPoint>) returns (m: map<Date, nat>)
    ensures IsEventMap(data, m)
  {
    m := map[];
    for i := 0 to |data|
      invariant IsEventMap(data[..i], m)
    {
      var dateKey := data[i].timestamp.date;
      var previous := if dateKey in m then m[dateKey] else 0;
      m := m[dateKey := previous + 1];
      assert DateSeq(data[..i + 1]) == DateSeq(data[..i]) + [dateKey];
    }
    assert data[..|data|] == data;
  }

  /** `eventMap.get(key) || 0` */
  function CountOn(m: map<Date, nat>, d: Date): nat {
    if d in m then m[d] else 0
  }

  /** Every date with a point has a count of at least one, every other date
      reads as zero, and the counts over the dates present, each listed once,
      add up to the number of points. */
  lemma EventMapCounts(data: seq<DataPoint>, m: map<Date, nat>)
    requires IsEventMap(data, m)
    ensures forall d :: d in m ==> m[d] >= 1
    ensures forall d :: CountOn(m, d) == multiset(DateSeq(data))[d]
    ensures forall d :: d in Dedup(DateSeq(data)) <==> d in m
    ensures SumMultiplicities(Dedup(DateSeq(data)), multiset(DateSeq(data))) == |data|
  {
    GroupSizesSumToLength(DateSeq(data));
  }

  // ---------------------------------------------------------------------
  // Month grids

  /** One cell of a month grid: `null` before day 1, or a day of the month. */
  datatype Cell = Blank | DayCell(date: Date, hasEvent: bool, count: nat)

  function DayOf(year: int, month: int, day: int, m: map<Date, nat>): Cell {
    var count := CountOn(m, Date(year, month, day));
    DayCell(Date(year, month, day), count > 0, count)
  }

  /** `getMonthData(year, monthIndex)` with months numbered 1..12. */
  function MonthCells(year: int, month: int, m: map<Date, nat>): seq<Cell>
    requires 1 <= month <= 12
  {
    var start := Weekday(Date(year, month, 1));
    seq(start, i => Blank)
    + seq(DaysInMonth(year, month), i requires 0 <= i < DaysInMonth(year, month) => DayOf(year, month, i + 1, m))
  }

  /** `getMonthData`: the leading blanks in one loop, then one cell per day. */
  method MonthGrid(year: int, monthIndex: int, eventMap: map<Date, nat>) returns (monthData: seq<Cell>)
    requires 0 <= monthIndex < 12
    ensures monthData == MonthCells(year, monthIndex + 1, eventMap)
  {
    var month := monthIndex + 1;
    var startingDayOfWeek := Weekday(Date(year, month, 1));
    var daysInMonth := DaysInMonth(year, month);
    monthData := [];
    for i := 0 to startingDayOfWeek
      invariant monthData == seq(i, j => Blank)
    {
      monthData := monthData + [Blank];
    }
    ghost var blanks := monthData;
    for day := 1 to daysInMonth + 1
      invariant monthData == blanks + seq(day - 1, i requires 0 <= i < day - 1 => DayOf(year, month, i + 1, eventMap))
    {
      var eventCount := CountOn(eventMap, Date(year, month, day));
      monthData := monthData + [DayCell(Date(year, month, day), eventCount > 0, eventCount)];
    }
  }

  /** The shape of a month grid: exactly `getDay` of day 1 leading blanks, no
      trailing padding, day `d` at index `start + d - 1` in the column of its
      weekday, with its count from the event map (0 when absent) and
      `hasEvent` exactly when the count is positive. */
  lemma MonthGridShape(year: int, month: int, m: map<Date, nat>)
    requires 1 <= month <= 12
    ensures var cells := MonthCells(year, month, m);
            var start := Weekday(Date(year, month, 1));
            |cells| == start + DaysInMonth(year, month)
            && (forall i :: 0 <= i < start ==> cells[i] == Blank)
            && forall d :: 1 <= d <= DaysInMonth(year, month) ==>
                 cells[start + d - 1].DayCell?
                 && cells[start + d - 1].date == Date(year, month, d)
                 && cells[start + d - 1].count == CountOn(m, Date(year, month, d))
                 && (cells[start + d - 1].hasEvent <==> cells[start + d - 1].count > 0)
                 && (start + d - 1) % 7 == Weekday(Date(year, month, d))
  {
    var cells := MonthCells(year, month, m);
    var start := Weekday(Date(year, month, 1));
    forall d | 1 <= d <= DaysInMonth(year, month)
      ensures cells[start + d - 1] == DayOf(year, month, d, m)
      ensures (start + d - 1) % 7 == Weekday(Date(year, month, d))
    {
      WeekdayOfDay(year, month, d);
    }
  }

  /** The year view: the grids of January to December of the displayed year. */
  function YearView(year: int, m: map<Date, nat>): (grids: seq<seq<Cell>>)
    ensures |grids| == 12
  {
    seq(12, i requires 0 <= i < 12 => MonthCells(year, i + 1, m))
  }

  /** Every day of the displayed year appears in exactly one cell of the year
      view, with its count. */
  lemma YearViewCoversYear(year: int, m: map<Date, nat>, d: Date)
    requires d.year == year && ValidDate(d)
    ensures var grid := YearView(year, m)[d.month - 1];
            var i := Weekday(Date(year, d.month, 1)) + d.day - 1;
            0 <= i < |grid| && grid[i] == DayOf(year, d.month, d.day, m)
    ensures forall g, i :: 0 <= g < 12 && 0 <= i < |YearView(year, m)[g]| && YearView(year, m)[g][i].DayCell?
              ==> YearView(year, m)[g][i].date.year == year && YearView(year, m)[g][i].date.month == g + 1
  {
    MonthGridShape(year, d.month, m);
  }

  /** May 2024 begins on a Wednesday: three blanks, then its 31 days; the leap
      February of that year has 29. */
  lemma MayTwentyTwentyFour(m: map<Date, nat>)
    ensures Weekday(Date(2024, 5, 1)) == 3
    ensures |MonthCells(2024, 5, m)| == 34
    ensures |MonthCells(2024, 2, m)| == Weekday(Date(2024, 2, 1)) + 29
  {
  }

  // ---------------------------------------------------------------------
  // Cell colour

  const ThemePrimary: string := "hsl(var(--primary))"

  /** `tracker.color || 'hsl(var(--primary))'` */
  function BaseColor(trackerColor: Option<string>): string {
    OrDefault(trackerColor, ThemePrimary)
  }

  /** The green tier of a count outside the theme colours: 0 for none. */
  function GreenTier(count: int): (tier: nat)
    ensures tier <= 3
    ensures tier == 0 <==> count <= 0
  {
    if 0 < count <= 1 then 1
    else if 1 < count <= 3 then 2
    else if count > 3 then 3
    else 0
  }

  const GreenClasses: seq<string> := [
    "bg-muted/50",
    "bg-green-300 dark:bg-green-700",
    "bg-green-500 dark:bg-green-500",
    "bg-green-700 dark:bg-green-300"
  ]

  /** `getEventColor(hasEvent, count)` for the given base colour. */
  function EventColor(baseColor: string, hasEvent: bool, count: int): string {
    if !hasEvent then "bg-muted/50"
    else if StartsWith(baseColor, "hsl(var(--") then "bg-[" + baseColor + "]"
    else if 0 < count <= 1 then "bg-green-300 dark:bg-green-700"
    else if 1 < count <= 3 then "bg-green-500 dark:bg-green-500"
    else if count > 3 then "bg-green-700 dark:bg-green-300"
    else "bg-muted/50"
  }

  lemma {:induction false} GreenTierMonotone(a: int, b: int)
    requires a <= b
    ensures GreenTier(a) <= GreenTier(b)
  {
  }

  /** The tiers of `getEventColor`: a day without event is muted; a theme
      colour is used as is whatever the count; any other base colour picks the
      green tier of the count, which never gets lighter as the count grows. */
  lemma EventColorTiers(baseColor: string, hasEvent: bool, count: int)
    ensures !hasEvent ==> EventColor(baseColor, hasEvent, count) == "bg-muted/50"
    ensures hasEvent && StartsWith(baseColor, "hsl(var(--")
            ==> EventColor(baseColor, hasEvent, count) == "bg-[" + baseColor + "]"
    ensures hasEvent && !StartsWith(baseColor, "hsl(var(--")
            ==> EventColor(baseColor, hasEvent, count) == GreenClasses[GreenTier(count)]
  {
  }

  /** The cells call `getEventColor` only when the tracker has no colour of its
      own, so the base colour is the theme's primary and every day with an
      event gets the same class, whatever its count. */
  lemma DefaultBaseIgnoresCount(trackerColor: Option<string>, count: int)
    requires !Truthy(trackerColor)
    ensures EventColor(BaseColor(trackerColor), true, count) == "bg-[hsl(var(--primary))]"
  {
    assert BaseColor(trackerColor) == ThemePrimary;
    assert StartsWith(ThemePrimary, "hsl(var(--")
      by { assert ThemePrimary[..|"hsl(var(--"|] == "hsl(var(--"; }
  }

  // ---------------------------------------------------------------------
  // Tooltip notes

  /** The truthy notes of the points on local date `d`, in input order. */
  function NotesOn(data: seq<DataPoint>, d: Date): (r: seq<string>)
    ensures forall i :: 0 <= i < |r| ==> r[i] != ""
  {
    if |data| == 0 then []
    else
      var last := data[|data| - 1];
      NotesOn(data[..|data| - 1], d) + (if last.timestamp.date == d && HasNote(last) then [last.notes.value] else [])
  }

  /** The notes line of a day's tooltip (shown only when not empty). */
  function DayNotes(data: seq<DataPoint>, d: Date): string {
    Join(NotesOn(data, d), "; ")
  }

  /** Collecting notes keeps input order: the notes of a concatenation are
      the notes of each part, one after the other. */
  lemma {:induction false} NotesOnConcat(a: seq<DataPoint>, b: seq<DataPoint>, d: Date)
    ensures NotesOn(a + b, d) == NotesOn(a, d) + NotesOn(b, d)
    decreases |b|
  {
    if |b| > 0 {
      var b0 := b[..|b| - 1];
      NotesOnConcat(a, b0, d);
      assert (a + b)[..|a + b| - 1] == a + b0;
    } else {
      assert a + b == a;
    }
  }

  lemma {:induction false} JoinEmpty(parts: seq<string>, sep: string)
    requires forall i :: 0 <= i < |parts| ==> parts[i] != ""
    ensures Join(parts, sep) == "" <==> parts == []
  {
    if |parts| > 1 {
      assert |Join(parts, sep)| >= |parts[0]| > 0;
    }
  }

  /** The tooltip shows a notes line exactly when some point on that day has a
      truthy note. */
  lemma {:induction false} DayNotesShown(data: seq<DataPoint>, d: Date)
    ensures DayNotes(data, d) != "" <==>
            exists i :: 0 <= i < |data| && data[i].timestamp.date == d && HasNote(data[i])
  {
    JoinEmpty(NotesOn(data, d), "; ");
    NotesPresent(data, d);
  }

  lemma {:induction false} NotesPresent(data: seq<DataPoint>, d: Date)
    ensures NotesOn(data, d) != [] <==>
            exists i :: 0 <= i < |data| && data[i].timestamp.date == d && HasNote(data[i])
  {
    if |data| > 0 {
      var init := data[..|data| - 1];
      NotesPresent(init, d);
      if exists i :: 0 <= i < |init| && init[i].timestamp.date == d && HasNote(init[i]) {
        var i :| 0 <= i < |init| && init[i].timestamp.date == d && HasNote(init[i]);
        assert data[i] == init[i];
      }
      if exists i :: 0 <= i < |data| && data[i].timestamp.date == d && HasNote(data[i]) {
        var i :| 0 <= i < |data| && data[i].timestamp.date == d && HasNote(data[i]);
        if i < |init| {
          assert init[i] == data[i];
        }
      }
    }
  }

  // ---------------------------------------------------------------------
  // The displayed year

  /** The held `currentDate`; the displayed year is its year. */
  class HeatmapState {
    var currentDate: DateTime

    ghost predicate Valid()
      reads this
    {
      ValidDateTime(currentDate)
    }

    function DisplayedYear(): int
      reads this
    {
      currentDate.date.year
    }

    /** `useState(new Date())`: the clock's reading is a parameter. */
    constructor (now: DateTime)
      requires ValidDateTime(now)
      ensures Valid() && currentDate == now
    {
      currentDate := now;
    }

    /** `handlePrevYear`: `subYears(prev, 1)`. */
    method PrevYear()
      requires Valid()
      modifies this
      ensures Valid()
      ensures currentDate == AddYears(old(currentDate), -1)
      ensures DisplayedYear() == old(DisplayedYear()) - 1
    {
      currentDate := AddYears(currentDate, -1);
    }

    /** `handleNextYear`: `addYears(prev, 1)`. */
    method NextYear()
      requires Valid()
      modifies this
      ensures Valid()
      ensures currentDate == AddYears(old(currentDate), 1)
      ensures DisplayedYear() == old(DisplayedYear()) + 1
    {
      currentDate := AddYears(currentDate, 1);
    }
  }

  /** Going back a year and forward again shows the same year, and restores
      the held date itself unless it was 29 February (which becomes the 28th). */
  lemma PrevThenNext(t: DateTime)
    requires ValidDateTime(t)
    ensures AddYears(AddYears(t, -1), 1).date.year == t.date.year
    ensures !(t.date.month == 2 && t.date.day == 29) ==> AddYears(AddYears(t, -1), 1) == t
  {
    var p := AddYears(t, -1);
    if !(t.date.month == 2 && t.date.day == 29) {
      assert t.date.day <= DaysInMonth(t.date.year - 1, t.date.month);
      assert p.date.day == t.date.day;
    }
  }
}
