# SimplyTrack core in Dafny

SimplyTrack is a personal tracking web application. A user defines
*trackers* (numeric value series or event occurrences), logs timestamped
*data points* against them, and reads the results as charts and as a
calendar heatmap. This project models the logic of that application:

- **the chart aggregation engine** (`TrackerChart.tsx` and its value-only
  twin `MetricChart.tsx`). It sorts the points by time and either emits them
  one by one or groups them into day, month or year buckets. Each bucket is
  reduced by sum, average, count, min or max (always count for event
  trackers) and gets a notes summary. The engine also tracks the largest
  event count and picks the bar colour and the default operation;
- **the event calendar heatmap** (`EventCalendarHeatmap.tsx`): the per-date
  event count, the month grids of the year view, the cell colour, the
  per-day tooltip notes, and the previous/next year navigation;
- **the dashboard page** (`src/app/page.tsx`): the held tracker and data
  point lists and the handlers that replace them (save, delete, pin, add a
  data point), the dialog state, and the order of the tracker cards;
- **the two form dialogs**: tracker validation and normalisation
  (`AddTrackerDialog.tsx`), and data point validation (`HH:mm` time, value
  coercion, date and time combined) with the edit prefill
  (`AddDataPointDialog.tsx`).

Modules, one per file:

- `calendar.dfy`: local civil date-times and Gregorian arithmetic.
- `text.dfy`: `trim`, `join`, `startsWith`, decimal rendering.
- `collections.dfy`: first-seen de-duplication, counting, `filter`.
- `entities.dfy`: the `Tracker` and `DataPoint` records of
  `src/types/index.ts`.
- `bucketing.dfy`: the `yyyy-MM-dd` / `yyyy-MM` / `yyyy` keys as the
  datatype `Day | Month | Year`, and the start of each period.
- `tracker_chart.dfy` and `tracker_chart_properties.dfy`: the one engine,
  parameterised by `isEvent`, and what it promises.
- `metric_chart.dfy`: the metric chart, shown to be the `isEvent = false`
  case.
- `event_calendar_heatmap.dfy`, `dashboard_page.dfy`,
  `add_tracker_dialog.dfy`, `add_data_point_dialog.dfy`.

Modelling choices:

- **Timestamps** are already-parsed local civil date-times
  (`Date(year, month, day)` with hour, minute, second and millisecond),
  ordered chronologically. Months are numbered 1..12.
- **Values** are mathematical reals.
- **Optional properties** are `Option` values. A missing tracker `type`
  reads as `Value`. A missing `isPinned` reads as unpinned. A note counts
  only when it is present and non-empty (JavaScript truthiness).
- **Keyed dictionaries filled in place** become a `map` plus the sequence of
  keys in insertion order. This covers `aggregationMap` and `eventMap`.
  - `Object.values` lists the daily and monthly keys in insertion order.
  - The yearly keys `"1000"`..`"9999"` are integer-like, so `Object.values`
    lists them in ascending numeric order. The points are sorted first, so
    insertion order is already ascending and both orders agree.
- **State that the page updates in place** is a class with `modifies`
  clauses:
  - the dashboard's lists and dialog flags (`Dashboard`);
  - the heatmap's displayed date (`HeatmapState`);
  - the `Date` object that `setHours` mutates (`LocalDate`).
- **The clock and `Date.now()`** are parameters (`now`, `freshId`).
- **Loops stay loops.** The `forEach` loops that fill the maps, the
  `getMonthData` loops and the pin-toggle `map` with closure writes are
  methods with loop invariants. Each is proved equal to a specification
  function, and the promised properties are proved about that function.

The model follows the code in these places:

- a tracker's `type` and `isPinned` are optional;
- the heatmap has only a year view (no week or month view);
- the dashboard does not force event values to 1 when a data point is added;
- bucket order comes from key insertion order over the sorted points. It is
  proved strictly ascending rather than assumed.

## Model

| member | source | states |
|---|---|---|
| Calendar.BeforeIsStrictTotalOrder | src/components/custom/TrackerChart.tsx:106 | Comparing timestamps by `getTime()` is a strict total order: irreflexive, asymmetric, transitive and total. |
| Calendar.DaysInMonth | src/components/custom/EventCalendarHeatmap.tsx:41 | `getDaysInMonth` lies in 28..31. February has 29 days exactly in Gregorian leap years. |
| Calendar.Weekday | src/components/custom/EventCalendarHeatmap.tsx:40 | `getDay` is a weekday index in 0..6 (0 = Sunday). |
| Calendar.WeekdayOfDay | src/components/custom/EventCalendarHeatmap.tsx:40-55 | Within a month, day `d` falls `d - 1` weekdays after day 1, modulo 7. |
| Calendar.WeekdayNextMonth | src/components/custom/EventCalendarHeatmap.tsx:39-41 | The first of the next month falls `getDaysInMonth` weekdays after the first of this one, modulo 7, leap Februaries included. |
| Calendar.WeekdayNextYear | src/components/custom/EventCalendarHeatmap.tsx:39-41 | 1 January falls 31 weekdays after the preceding 1 December, modulo 7. |
| Calendar.WeekdayEpoch | src/components/custom/EventCalendarHeatmap.tsx:40 | 1 January 1970 is a Thursday (`getDay` 4), which anchors the weekday index to the real calendar. |
| Calendar.AddYears | src/components/custom/EventCalendarHeatmap.tsx:59-65 | `addYears` / `subYears` give a valid date-time exactly `n` years on, with the same month and time of day. The day is kept when the target month has it and otherwise clamped to that month's last day (29 February becomes 28 February in a common year). |
| Text.DecimalRoundTrip | src/components/custom/TrackerChart.tsx:194-195 | The `${count}` rendering of a count reads back as the same number. |
| Text.TrimEmptyIffBlank | src/components/custom/AddTrackerDialog.tsx:57 | `s.trim() === ""` exactly when `s` is all JavaScript white space. |
| Collections.Dedup | src/components/custom/TrackerChart.tsx:192 | `[...new Set(xs)]` is duplicate-free and has the same members as `xs`. |
| Collections.DedupPrefix | src/components/custom/TrackerChart.tsx:142-155 | First-seen order: the distinct keys of a prefix are a prefix of the distinct keys of the whole. |
| Collections.DedupFirst | src/components/custom/TrackerChart.tsx:142-155 | The first key inserted is the first key listed. |
| Collections.GroupSizesSumToLength | src/components/custom/TrackerChart.tsx:121-158 | Grouping loses and duplicates nothing: the group sizes over the distinct keys sum to the input length. |
| Collections.DedupMembersOccur | src/components/custom/TrackerChart.tsx:142-150 | A key is created exactly when at least one point carries it. |
| Collections.Filter | src/app/page.tsx:98-99 | `filter` keeps only elements satisfying the predicate and never grows the list. |
| Collections.FilterConcat | src/app/page.tsx:97-99 | Filtering keeps relative order: filtering `a + b` gives filter(a) followed by filter(b). |
| Collections.FilterMembers | src/app/page.tsx:97-99 | An element survives exactly when it was present and satisfies the predicate, with its multiplicity kept. |
| Bucketing.PeriodStartIsFirstInstant | src/components/custom/TrackerChart.tsx:128-140 | `startOfDay` / `startOfMonth` / `startOfYear` lies in the same bucket and is at or before every instant of the bucket. |
| Bucketing.PeriodStartInjective | src/components/custom/TrackerChart.tsx:128-140 | Two keys of one interval are equal exactly when their period starts are equal. |
| Bucketing.KeyOfMonotone | src/components/custom/TrackerChart.tsx:128-140 | A later point never falls in an earlier bucket. A different bucket of a later point starts strictly later. |
| TrackerChart.InsertByTime | src/components/custom/TrackerChart.tsx:101-106 | Insertion adds exactly the one point (multiset). |
| TrackerChart.InsertKeepsSorted | src/components/custom/TrackerChart.tsx:101-106 | Inserting into a sorted list keeps it sorted by timestamp. |
| TrackerChart.SortByTime | src/components/custom/TrackerChart.tsx:101-106 | The sorted copy is in ascending timestamp order and is a permutation of the input. |
| TrackerChart.BucketValuesCount | src/components/custom/TrackerChart.tsx:142-150 | The `values` of a bucket hold exactly one entry per point whose key is the bucket's key. |
| TrackerChart.BucketNotesBound | src/components/custom/TrackerChart.tsx:150-151 | A bucket has no more notes than values, and each collected note is non-empty. |
| TrackerChart.BucketSize | src/components/custom/TrackerChart.tsx:142-151 | A bucket holds one value per point with its key. It holds at most that many notes, all non-empty. |
| TrackerChart.GroupOfStep | src/components/custom/TrackerChart.tsx:142-151 | Pushing one point changes only the group of its own key, appending its value (and its note if truthy). |
| TrackerChart.UnseenKeyGroup | src/components/custom/TrackerChart.tsx:142-149 | A key not yet seen has the freshly created group: period start, no values, no notes, its date label. |
| TrackerChart.PushPoint | src/components/custom/TrackerChart.tsx:142-151 | One `forEach` step turns the map built from a prefix into the map built from the prefix plus one point. The key order stays first-seen, and each group is complete. |
| TrackerChart.BuildGroups | src/components/custom/TrackerChart.tsx:121-152 | The `forEach` loop builds exactly one group per distinct key. Keys come in first-seen order, each with all its values and truthy notes in push order. |
| TrackerChart.Minimum | src/components/custom/TrackerChart.tsx:176-178 | `Math.min(...values)` is one of the values and at most each of them. |
| TrackerChart.Maximum | src/components/custom/TrackerChart.tsx:179-181 | `Math.max(...values)` is one of the values and at least each of them. |
| TrackerChart.TotalAtLeast | src/components/custom/TrackerChart.tsx:167-172 | The sum of a bucket is at least its size times its minimum. |
| TrackerChart.TotalAtMost | src/components/custom/TrackerChart.tsx:167-172 | The sum of a bucket is at most its size times its maximum. |
| TrackerChart.AverageWithinRange | src/components/custom/TrackerChart.tsx:166-181 | For every non-empty bucket, min ≤ average ≤ max. |
| TrackerChart.NotesSummaryShape | src/components/custom/TrackerChart.tsx:192-195 | The summary starts with `"N entry"`/`"N entries"`. It is exactly that phrase iff there are no notes. Otherwise `". Notes: "` follows, then the first distinct note, then the second joined by `"; "`, then `"..."` exactly when there are more than two. |
| TrackerChart.SummariseGroups | src/components/custom/TrackerChart.tsx:154-204 | The `Object.values(...).map` loop yields one point per group in key order. Its running maximum equals the largest event bucket value (0 for value trackers). |
| TrackerChart.ProcessChartData | src/components/custom/TrackerChart.tsx:98-208 | The `useMemo` computes exactly the specified series and `maxEventCount`. |
| TrackerChartProperties.ImageSort | src/components/custom/TrackerChart.tsx:101-106 | Sorting permutes the points, so it permutes any per-point image of them. |
| TrackerChartProperties.SortedKeyCounts | src/components/custom/TrackerChart.tsx:101-152 | Sorting does not change how many points fall in each bucket. |
| TrackerChartProperties.RawSeries | src/components/custom/TrackerChart.tsx:108-119 | Raw output has one entry per input point, in ascending timestamp order. As a multiset it is the input mapped pointwise, with count 1, value 1 for events, `dp.value` otherwise, and notes passed through. |
| TrackerChartProperties.BucketSeriesCounts | src/components/custom/TrackerChart.tsx:155-204 | The bucket counts add up to the multiplicities of the listed keys. |
| TrackerChartProperties.RawCounts | src/components/custom/TrackerChart.tsx:114 | Entries of count 1 add up to their number. |
| TrackerChartProperties.CountsSumToLength | src/components/custom/TrackerChart.tsx:99-204 | Conservation of count: at every interval `originalDataPointCount` sums to the input length. Empty input gives `[]` and `maxEventCount` 0. |
| TrackerChartProperties.SeriesBuckets | src/components/custom/TrackerChart.tsx:121-204 | There is one bucket per key present, and no more buckets than points. Each has its period start as timestamp, its date label, and a count ≥ 1 equal to the number of points with its key. |
| TrackerChartProperties.DedupStrictlyAscending | src/components/custom/TrackerChart.tsx:142-155 | Distinct keys listed from non-decreasing keys have strictly increasing period starts. |
| TrackerChartProperties.SortedKeysNonDecreasing | src/components/custom/TrackerChart.tsx:101-140 | The keys of sorted points have non-decreasing period starts. |
| TrackerChartProperties.BucketsAscending | src/components/custom/TrackerChart.tsx:101-204 | Buckets come out with strictly ascending, hence distinct, timestamps. |
| TrackerChartProperties.EventBucketsCountPoints | src/components/custom/TrackerChart.tsx:150-175 | For an event tracker at a non-raw interval, each bucket's value equals its point count, whatever `operationType` or `dp.value`. |
| TrackerChartProperties.OperationIgnored | src/components/custom/TrackerChart.tsx:108-163 | The selected operation changes nothing in the raw view or for event trackers. |
| TrackerChartProperties.RunningMaxBounds | src/components/custom/TrackerChart.tsx:154-190 | The running maximum is ≥ 0 and ≥ every value. It is 0 or attained by some entry. |
| TrackerChartProperties.MaxEventCountIsMaximum | src/components/custom/TrackerChart.tsx:154-206 | For an event tracker at a non-raw interval, `maxEventCount` is the largest bucket value, attained exactly when there is data. |
| TrackerChartProperties.BarColorIndex | src/components/custom/TrackerChart.tsx:465-473 | The bar colour index is always a valid index into `EVENT_HEATMAP_COLORS`. |
| TrackerChartProperties.BarColorMonotone | src/components/custom/TrackerChart.tsx:465-473 | A taller bar never gets a lighter colour, and the tallest bar gets index 4. |
| TrackerChartProperties.DefaultOperationPolicy | src/components/custom/TrackerChart.tsx:72-91 | Event: count. Value: unchanged for raw, sum for daily, average for monthly and yearly. The effect is idempotent. |
| MetricChart.SummariseMetricGroups | src/components/custom/MetricChart.tsx:121-157 | The metric chart's `map` over the groups yields one entry per group in key order, reduced by `operationType`. |
| MetricChart.ProcessMetricData | src/components/custom/MetricChart.tsx:74-158 | The metric `useMemo` computes exactly the specified metric series. |
| MetricChart.MetricIsValueTrackerCase | src/components/custom/MetricChart.tsx:74-158 | The metric series equals the tracker chart's value-tracker series entry by entry, without the date label. |
| MetricChart.IntervalChangeAgreesWithTrackerChart | src/components/custom/MetricChart.tsx:55-72 | `handleIntervalChange` and the initial `sum` pick the value-tracker default operation. |
| MetricChart.UnlabelledTotalCount | src/components/custom/MetricChart.tsx:84-158 | Dropping the date label keeps each entry's `originalDataPointCount`, so a metric series and the tracker series it mirrors have the same total count. |
| MetricChart.MetricSeriesProperties | src/components/custom/MetricChart.tsx:74-158 | Empty input gives `[]`. Raw output: one ascending entry per point, count 1. Buckets are strictly ascending, and the `originalDataPointCount`s of the metric series itself add up to the input length. |
| EventCalendarHeatmap.BuildEventMap | src/components/custom/EventCalendarHeatmap.tsx:27-34 | The `forEach` loop maps each date with points to its number of points, and no other date. |
| EventCalendarHeatmap.EventMapCounts | src/components/custom/EventCalendarHeatmap.tsx:27-34 | Every count is ≥ 1, absent dates read as 0, and the counts over the dates present sum to `data.length`. |
| EventCalendarHeatmap.MonthGrid | src/components/custom/EventCalendarHeatmap.tsx:38-57 | `getMonthData`'s two loops build the specified grid. |
| EventCalendarHeatmap.MonthGridShape | src/components/custom/EventCalendarHeatmap.tsx:38-57 | The grid has exactly `getDay(day 1)` leading blanks and no trailing padding. Day `d` is at `start + d - 1`, in its weekday column, with the event-map count (0 if absent); `hasEvent` holds iff count > 0. |
| EventCalendarHeatmap.YearView | src/components/custom/EventCalendarHeatmap.tsx:122-123 | The year view has twelve month grids. |
| EventCalendarHeatmap.YearViewCoversYear | src/components/custom/EventCalendarHeatmap.tsx:122-123 | Every day of the displayed year sits in its month's grid with its count, and grid `g` holds only days of month `g + 1`. |
| EventCalendarHeatmap.MayTwentyTwentyFour | src/components/custom/EventCalendarHeatmap.tsx:38-57 | May 2024 starts on a Wednesday: 3 blanks then 31 days. February 2024 has 29 days. |
| EventCalendarHeatmap.GreenTier | src/components/custom/EventCalendarHeatmap.tsx:91-94 | The green tier is in 0..3 and is 0 exactly for a non-positive count. |
| EventCalendarHeatmap.GreenTierMonotone | src/components/custom/EventCalendarHeatmap.tsx:91-94 | A larger count never gets a lower tier. |
| EventCalendarHeatmap.EventColorTiers | src/components/custom/EventCalendarHeatmap.tsx:71-95 | `getEventColor`: no event gives muted; a theme-variable base colour is returned as `bg-[base]` whatever the count; any other base colour gets its green tier. |
| EventCalendarHeatmap.DefaultBaseIgnoresCount | src/components/custom/EventCalendarHeatmap.tsx:67-95 | Cells call `getEventColor` only for trackers without a truthy colour, i.e. no colour or `""` (line 137). The base is then the theme primary, so every event day gets `bg-[hsl(var(--primary))]` whatever its count. |
| EventCalendarHeatmap.NotesOn | src/components/custom/EventCalendarHeatmap.tsx:153-154 | The collected notes of a day are all non-empty. |
| EventCalendarHeatmap.NotesOnConcat | src/components/custom/EventCalendarHeatmap.tsx:153-154 | A day's notes keep input-array order. |
| EventCalendarHeatmap.JoinEmpty | src/components/custom/EventCalendarHeatmap.tsx:153 | Non-empty notes join to `""` exactly when there are none. |
| EventCalendarHeatmap.DayNotesShown | src/components/custom/EventCalendarHeatmap.tsx:153-154 | The tooltip shows a notes line exactly when some point on that local day has a truthy note. |
| EventCalendarHeatmap.NotesPresent | src/components/custom/EventCalendarHeatmap.tsx:153 | A day has collected notes exactly when some point on that day has a truthy note. |
| EventCalendarHeatmap.HeatmapState.constructor | src/components/custom/EventCalendarHeatmap.tsx:25 | The displayed date starts at the clock's reading. |
| EventCalendarHeatmap.HeatmapState.PrevYear | src/components/custom/EventCalendarHeatmap.tsx:59-61 | `handlePrevYear` moves the displayed year back by exactly one. |
| EventCalendarHeatmap.HeatmapState.NextYear | src/components/custom/EventCalendarHeatmap.tsx:63-65 | `handleNextYear` moves the displayed year on by exactly one. |
| EventCalendarHeatmap.PrevThenNext | src/components/custom/EventCalendarHeatmap.tsx:59-65 | Previous then next restores the displayed year. It restores the whole date unless that was 29 February. |
| AddTrackerDialog.Validate | src/components/custom/AddTrackerDialog.tsx:50-64 | The form validates iff the name is non-empty and a value tracker has a non-blank unit. Each failed check is reported. `type` defaults to value. |
| AddTrackerDialog.UnitRule | src/components/custom/AddTrackerDialog.tsx:56-60 | An event tracker needs no unit. A value tracker is accepted iff its unit is present and not all white space. |
| AddTrackerDialog.HandleSubmit | src/components/custom/AddTrackerDialog.tsx:111-124 | An event tracker's unit becomes `"occurrence"` and a value tracker's unit is kept. Name, type, colour and pin pass through, with the edited tracker's id or none. |
| AddTrackerDialog.ResetForm | src/components/custom/AddTrackerDialog.tsx:89-109 | A new form gets the defaults. An edited tracker's missing type reads as value, missing colour as the first palette entry, and the pin as a boolean. |
| AddTrackerDialog.NewFormRejected | src/components/custom/AddTrackerDialog.tsx:76-85 | Submitting the default form reports both a missing name and a missing unit. |
| AddTrackerDialog.EditRoundTrip | src/components/custom/AddTrackerDialog.tsx:89-124 | Re-submitting an edited tracker unchanged gives its id, name and type. Its unit is kept ("occurrence" for events), and its colour and pin come back with their defaults. |
| AddDataPointDialog.FormatHHmm | src/components/custom/AddDataPointDialog.tsx:62 | `format(date, "HH:mm")` is five characters. |
| AddDataPointDialog.TimePatternAcceptsFormatted | src/components/custom/AddDataPointDialog.tsx:35 | Every `HH:mm` rendering of a valid time matches the pattern and parses back to the same hour and minute. |
| AddDataPointDialog.TimePatternAcceptsOnlyFormatted | src/components/custom/AddDataPointDialog.tsx:35 | A matching string is exactly the rendering of an hour in 0..23 and a minute in 0..59. |
| AddDataPointDialog.UnsignedWhole | src/components/custom/AddDataPointDialog.tsx:33 | A run of digits without a point reads as its decimal value. |
| AddDataPointDialog.NumberOfUnsigned | src/components/custom/AddDataPointDialog.tsx:33 | Text without surrounding white space or a sign is read by `Number` as an unsigned literal. |
| AddDataPointDialog.NumberOfDigits | src/components/custom/AddDataPointDialog.tsx:33 | `Number` reads a run of digits as its decimal value. |
| AddDataPointDialog.CoerceWholeNumber | src/components/custom/AddDataPointDialog.tsx:33 | A typed whole number coerces to itself. |
| AddDataPointDialog.CoerceBlank | src/components/custom/AddDataPointDialog.tsx:33 | A blank value coerces to 0 and is not rejected. |
| AddDataPointDialog.UnsignedRejectsStray | src/components/custom/AddDataPointDialog.tsx:33 | An unsigned literal with any character other than digits and the point is not a number. |
| AddDataPointDialog.CoerceRejectsStray | src/components/custom/AddDataPointDialog.tsx:33 | Within the modelled decimal notation, text whose trimmed form holds a character other than a digit, the point or a leading sign is rejected as not a number. |
| AddDataPointDialog.CoerceRejectsLetters | src/components/custom/AddDataPointDialog.tsx:33 | The value `"12a"` is rejected as not a number. |
| AddDataPointDialog.Validate | src/components/custom/AddDataPointDialog.tsx:32-37 | The form validates iff the value coerces, a date is chosen and the time matches. Each failure is reported, and the parsed time renders back to the field. |
| AddDataPointDialog.LocalDate.constructor | src/components/custom/AddDataPointDialog.tsx:81 | `new Date(d)` is a copy of `d`. |
| AddDataPointDialog.LocalDate.SetHours | src/components/custom/AddDataPointDialog.tsx:83 | `setHours(h, m, 0, 0)` sets the time of day and keeps the date. |
| AddDataPointDialog.Submit | src/components/custom/AddDataPointDialog.tsx:76-94 | Submit saves nothing without `metric` or a valid form. Otherwise it saves the chosen date at the chosen hour and minute (seconds and milliseconds 0), with the coerced value, the notes, and the edited point's id or a fresh one. |
| AddDataPointDialog.EditRoundTrip | src/components/custom/AddDataPointDialog.tsx:55-94 | Re-submitting an edited point unchanged keeps its id, value, date, hour and minute. Only seconds and milliseconds are cleared, and a missing note becomes `""`. |
| AddDataPointDialog.NewPointDefaults | src/components/custom/AddDataPointDialog.tsx:65-94 | Submitting a new point untouched records 0 at the current minute under a fresh id. |
| AddDataPointDialog.NoMetricNoSave | src/components/custom/AddDataPointDialog.tsx:76-96 | Without `metric`, submit saves nothing whatever the form holds. |
| DashboardPage.UpdateTrackers | src/app/page.tsx:53-56 | Saving with an id overwrites the matching tracker's fields but keeps its id and `createdAt`. Every other tracker is unchanged, and the length is kept. |
| DashboardPage.NewTrackerAsWritten | src/app/page.tsx:58-67 | The new tracker has the fresh id and the current time. Its colour defaults to `hsl(var(--primary))`, the pin is a boolean, and `type` is absent (so it reads as a value tracker). |
| DashboardPage.NewTracker | src/app/page.tsx:58-67 | Corrected creation: the same tracker with the submitted `type` kept. |
| DashboardPage.EventTrackerCreatedAsValue | src/app/page.tsx:58-67 | An event tracker submitted by the dialog is stored as a value tracker and reopens as one. The corrected creation keeps it an event tracker. |
| DashboardPage.TogglePins | src/app/page.tsx:107-116 | Toggling maps each tracker to itself with its pin flipped if its id matches. |
| DashboardPage.FindTracker | src/app/page.tsx:85 | `find` returns the first tracker with the id, and returns one iff such a tracker exists. |
| DashboardPage.ShownBeforeIsStrictWeakOrder | src/app/page.tsx:138-142 | The comparator is asymmetric and negatively transitive, so it is a strict weak order and `sort` may use it. |
| DashboardPage.InsertCard | src/app/page.tsx:138-142 | Inserting a card adds exactly that card (multiset). |
| DashboardPage.InsertCardKeepsOrder | src/app/page.tsx:138-142 | Inserting into a list in dashboard order keeps it in dashboard order. |
| DashboardPage.DashboardOrder | src/app/page.tsx:138-142 | The sorted copy is in dashboard order and is a permutation of the trackers. |
| DashboardPage.DashboardOrderMeaning | src/app/page.tsx:138-142 | Pinned cards come before unpinned ones. Cards alike in pinning run from newest to oldest `createdAt`. |
| DashboardPage.Dashboard.constructor | src/app/page.tsx:34-43 | The page starts from the stored lists with every dialog closed and nothing selected. |
| DashboardPage.Dashboard.OpenNewTracker | src/app/page.tsx:150 | "Add New Tracker" opens the dialog with no tracker to edit. Nothing else changes. |
| DashboardPage.Dashboard.OpenEditTracker | src/app/page.tsx:92-95 | Edit opens the dialog on that tracker. Nothing else changes. |
| DashboardPage.Dashboard.CloseTrackerDialog | src/app/page.tsx:186 | Closing clears the tracker to edit. Nothing else changes. |
| DashboardPage.Dashboard.SaveTracker | src/app/page.tsx:52-71 | A truthy id updates; otherwise exactly one tracker is appended (as written, without `type`). The edit target is cleared and nothing else changes. |
| DashboardPage.Dashboard.SubmitTrackerDialog | src/app/page.tsx:184-189 | An invalid dialog form changes nothing. A valid one is saved through `onSave` and the dialog closes. |
| DashboardPage.Dashboard.OpenAddDataPoint | src/app/page.tsx:84-90 | The first tracker with the id is selected and the dialog opens. An unknown id changes nothing. |
| DashboardPage.Dashboard.CloseAddDataPoint | src/app/page.tsx:192 | Closing the data point dialog keeps the selection. |
| DashboardPage.Dashboard.SaveDataPoint | src/app/page.tsx:73-82 | With no selected tracker this is a no-op. Otherwise exactly one point is appended, carrying the selected tracker's id. |
| DashboardPage.Dashboard.SubmitDataPointAsWritten | src/app/page.tsx:190-195 | As written, the dialog gets no `metric`, so its submit never produces a point. |
| DashboardPage.Dashboard.SubmitDataPoint | src/app/page.tsx:190-195 | Corrected wiring: a valid form appends exactly one point for the selected tracker and the dialog's `onClose` closes it (AddDataPointDialog.tsx:92-93). An invalid form changes nothing, the dialog's open state included. |
| DashboardPage.Dashboard.RequestDelete | src/app/page.tsx:177 | Asks for confirmation of exactly this tracker. Nothing else changes. |
| DashboardPage.Dashboard.CancelDelete | src/app/page.tsx:196-206 | Cancelling clears the pending deletion. Nothing else changes. |
| DashboardPage.Dashboard.DeleteTracker | src/app/page.tsx:97-102 | Deletion filters out the tracker with the id and the data points with that `trackerId`, then clears the pending deletion. |
| DashboardPage.Dashboard.ConfirmDelete | src/app/page.tsx:207 | Confirming deletes the pending tracker when its id is truthy, and otherwise does nothing. |
| DashboardPage.Dashboard.TogglePin | src/app/page.tsx:104-120 | Only matching trackers have their pin flipped. The last match's name and new state are reported, the toast shows iff the name is non-empty, and nothing else changes. |
| DashboardPage.Dashboard.SortedTrackers | src/app/page.tsx:138-142 | `sortedTrackers` is the held list in dashboard order, as a copy. |
| DashboardPage.DeleteRemovesExactly | src/app/page.tsx:97-99 | A tracker survives deletion iff its id differs, and a data point iff its `trackerId` differs. Survivors keep their multiplicity. |
| DashboardPage.TogglePinTwice | src/app/page.tsx:107-116 | Toggling flips the pin of matching trackers only (missing reads as false) and changes no other field. Toggling twice restores every pinned state. |
| DashboardPage.EditUnchangedIsNoOp | src/app/page.tsx:53-56 | Opening a normalised tracker for editing and saving it unchanged leaves the tracker list unchanged. |

## Left out

- `src/lib/idb.ts` and `public/sw.js` are not part of this model. They are IndexedDB and service-worker plumbing.
- The `useLocalStorage` persistence of the dashboard lists is not modelled: the stored lists are constructor parameters.
- `src/components/custom/AddMetricDialog.tsx`, the metric and tracker detail pages, the cards, the header and the layout are not part of this model. They are rendering, or they target a `Metric` type the types file no longer has.
- Rendering is left out: JSX, Recharts props, class names, the heatmap's inline style (line 140), `isClient`/`isMounted` placeholders and toasts. The toggle's toast is modelled only as the boolean telling whether it is shown.
- Date parsing and time zones are not modelled. `parseISO` / `new Date(string)`, ISO serialisation, local-time offsets and daylight-saving gaps are given: timestamps are already local civil date-times.
- `DateLabel`: `format(...)` strings are kept as their pattern and instant rather than rendered text.
- JavaScript `new Date(y, m, d)` maps years 0..99 to 1900..1999. This is not modelled; the Gregorian arithmetic applies to every year.
- `BucketsAscending`: the proved ascending order is `Object.values` order only for yearly keys with four digits (years 1000..9999). A year before 1000 formats as `"0999"`, which is not an integer-like key, so it would be listed after all four-digit years.
- Numbers are mathematical reals: IEEE rounding, `NaN` and `Infinity` are not modelled, nor is `Math.min`/`Math.max` on huge spreads.
- `AddDataPointDialog.NumberOf` covers decimal notation with sign and surrounding white space. `Number`'s exponent, hexadecimal, binary, octal and `Infinity` forms read as not a number here.
- `AddDataPointDialog.LocalDate.SetHours` requires in-range parts, which the time pattern guarantees. JavaScript's carry into the next day for out-of-range parts is not modelled.
- `DashboardPage.Dashboard.TogglePin` runs the `map` updater at once. React may defer the updater or run it twice in development, which would leave `trackerName` empty when the toast is decided.
- `DashboardPage.DashboardOrder` is proved sorted and a permutation, but trackers equal under the comparator are not proved to keep their input order, as the stable `sort` does.
- `TrackerChart.SortByTime` is proved sorted and a permutation, but stability (points with equal timestamps keeping input order) is not stated.
- `DashboardPage.UpdateTrackers`: the spread `{ ...t, ...trackerData }` is modelled with every submitted field present, as the tracker dialog always sends them. A key absent from `trackerData` would keep the old value instead.
- Uniqueness of `Date.now()` ids is not modelled: `freshId` is a parameter, and nothing assumes it is unused.
- The `default:` branches of the reduction `switch` are not modelled. `Operation` is a closed datatype, so they cannot be reached.
- The tracker detail page's normalisation of event values to 1 is not modelled. It is outside the dashboard, and the dashboard's dialog never saves (see Findings).

## Findings

| source | as written | input that shows it | evidently intended | confidence | as-written member | corrected member |
|---|---|---|---|---|---|---|
| src/app/page.tsx:190-195 | The selected tracker is passed as `tracker`, but the dialog reads `metric` (AddDataPointDialog.tsx:45, 77, 96). The dialog gets no metric: it renders nothing and its submit returns before `onSave`. | Any selected tracker and any valid form, e.g. value `"5"`, today's date, time `"12:00"`. | The dialog receives the selected tracker, and a valid form appends one data point for it. | high; not executed | DashboardPage.Dashboard.SubmitDataPointAsWritten | DashboardPage.Dashboard.SubmitDataPoint |
| src/app/page.tsx:58-67 | The new tracker object omits the submitted `type`. | A dialog form with type `event` and name `"Run"`: the dialog submits type event and unit `"occurrence"`, but the stored tracker reads as a value tracker. | The new tracker keeps the submitted `type`, as the update path does through its spread. | medium; not executed | DashboardPage.NewTrackerAsWritten | DashboardPage.NewTracker |
