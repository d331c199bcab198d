// AddDataPointDialog.tsx: the form schema (the value coerced to a number, a
// required date, an `HH:mm` time), the values the form is prefilled with,
// and `handleSubmit`, which sets the chosen time on a copy of the chosen date
// and builds the payload handed to `onSave`.
module AddDataPointDialog {
  import opened Calendar
  import opened Entities
  import opened Text

  // ---------------------------------------------------------------------
  // The time field

  /** `/^([01]\d|2[0-3]):([0-5]\d)$/.test(s)` */
  predicate TimeMatches(s: string) {
    |s| == 5 && s[2] == ':'
    && IsDigit(s[0]) && IsDigit(s[1]) && IsDigit(s[3]) && IsDigit(s[4])
    && (s[0] == '0' || s[0] == '1' || (s[0] == '2' && s[1] <= '3'))
    && s[3] <= '5'
  }

  /** `format(date, "HH:mm")` of an hour and a minute. */
  function FormatHHmm(hour: int, minute: int): (s: string)
    requires 0 <= hour < 24 && 0 <= minute < 60
    ensures |s| == 5
  {
    [DigitChar(hour / 10), DigitChar(hour % 10), ':', DigitChar(minute / 10), DigitChar(minute % 10)]
  }

  /** `timeString.split(':').map(Number)` of a string the pattern accepts. */
  function ParseTime(s: string): (hm: (int, int))
    requires TimeMatches(s)
  {
    (10 * DigitValue(s[0]) + DigitValue(s[1]), 10 * DigitValue(s[3]) + DigitValue(s[4]))
  }

  /** The pattern accepts exactly hours 00 to 23 and minutes 00 to 59, and
      reading an accepted time back gives its hour and minute. */
  lemma TimePatternAcceptsFormatted(hour: int, minute: int)
    requires 0 <= hour < 24 && 0 <= minute < 60
    ensures TimeMatches(FormatHHmm(hour, minute))
    ensures ParseTime(FormatHHmm(hour, minute)) == (hour, minute)
  {
  }

  lemma TimePatternAcceptsOnlyFormatted(s: string)
    requires TimeMatches(s)
    ensures 0 <= ParseTime(s).0 < 24 && 0 <= ParseTime(s).1 < 60
    ensures FormatHHmm(ParseTime(s).0, ParseTime(s).1) == s
  {
    var (h, m) := ParseTime(s);
    assert h / 10 == DigitValue(s[0]) && h % 10 == DigitValue(s[1]);
    assert m / 10 == DigitValue(s[3]) && m % 10 == DigitValue(s[4]);
  }

  // ---------------------------------------------------------------------
  // The value field

  /** What the value input holds: the number of a point being edited, or the
      text typed (the empty string for a new point). */
  datatype FieldValue = Num(n: real) | Text(s: string)

  predicate AllDigits(s: string) {
    forall i :: 0 <= i < |s| ==> IsDigit(s[i])
  }

  function Pow10(n: nat): (p: nat)
    ensures p >= 1
  {
    if n == 0 then 1 else 10 * Pow10(n - 1)
  }

  /** The index of the first `c` in `s`, or `|s|` when there is none. */
  function IndexOf(s: string, c: char): (i: nat)
    ensures i <= |s|
    ensures i < |s| ==> s[i] == c
    ensures c !in s[..i]
  {
    if |s| == 0 then 0
    else if s[0] == c then 0
    else
      assert s[1..][..IndexOf(s[1..], c)] == s[1..1 + IndexOf(s[1..], c)];
      1 + IndexOf(s[1..], c)
  }

  /** The value of the digits after the point: `5` in `.5` is one half. */
  function FractionValue(fraction: string): real
    requires AllDigits(fraction)
  {
    if fraction == "" then 0.0
    else (DecimalValue(fraction) as real) / (Pow10(|fraction|) as real)
  }

  /** An unsigned decimal literal (`12`, `12.5`, `.5`, `12.`), or nothing. */
  function UnsignedDecimal(s: string): Option<real> {
    var dot := IndexOf(s, '.');
    var whole := s[..dot];
    var fraction := if dot < |s| then s[dot + 1..] else "";
    if AllDigits(whole) && AllDigits(fraction) && |whole| + |fraction| >= 1 then
      Some(DecimalValue(whole) as real + FractionValue(fraction))
    else None
  }

  /** `Number(s)` for the decimal notation: surrounding white space is
      ignored, a blank string is 0, anything else that is not a decimal
      literal is `NaN` (here `None`). */
  function NumberOf(s: string): Option<real> {
    var t := Trim(s);
    if t == "" then Some(0.0)
    else if t[0] == '-' then
      match UnsignedDecimal(t[1..])
      case Some(v) => Some(-v)
      case None => None
    else if t[0] == '+' then UnsignedDecimal(t[1..])
    else UnsignedDecimal(t)
  }

  /** `z.coerce.number()`: a number stays as it is, text goes through `Number`. */
  function Coerce(v: FieldValue): Option<real> {
    match v
    case Num(n) => Some(n)
    case Text(s) => NumberOf(s)
  }

  /** A string of digits without a point reads as its decimal value. */
  lemma UnsignedWhole(d: string)
    requires |d| >= 1 && AllDigits(d)
    ensures UnsignedDecimal(d) == Some(DecimalValue(d) as real)
  {
    var dot := IndexOf(d, '.');
    assert !IsDigit('.');
    assert dot == |d|;
    assert d[..dot] == d;
    assert AllDigits("") && FractionValue("") == 0.0;
  }

  /** Text that neither starts nor ends with white space and has no sign is
      read by `Number` as an unsigned literal. */
  lemma NumberOfUnsigned(t: string)
    requires |t| >= 1 && !IsJsSpace(t[0]) && !IsJsSpace(t[|t| - 1])
    requires t[0] != '-' && t[0] != '+'
    ensures NumberOf(t) == UnsignedDecimal(t)
  {
    assert TrimStart(t) == t;
    assert Trim(t) == t;
  }

  /** A string of digits is read by `Number` as its decimal value. */
  lemma NumberOfDigits(d: string)
    requires |d| >= 1 && AllDigits(d)
    ensures NumberOf(d) == Some(DecimalValue(d) as real)
  {
    assert IsDigit(d[0]) && IsDigit(d[|d| - 1]);
    NumberOfUnsigned(d);
    UnsignedWhole(d);
  }

  /** A typed whole number reads back as itself. */
  lemma CoerceWholeNumber(n: nat)
    ensures Coerce(Text(DecimalString(n))) == Some(n as real)
  {
    var d := DecimalString(n);
    assert AllDigits(d);
    NumberOfDigits(d);
    DecimalRoundTrip(n);
  }

  /** A blank field coerces to 0 rather than being rejected. */
  lemma CoerceBlank(s: string)
    requires Blank(s)
    ensures Coerce(Text(s)) == Some(0.0)
  {
    TrimEmptyIffBlank(s);
  }

  /** A character that is neither a digit nor the point makes an unsigned
      literal invalid. */
  lemma UnsignedRejectsStray(u: string, j: int)
    requires 0 <= j < |u| && !IsDigit(u[j]) && u[j] != '.'
    ensures UnsignedDecimal(u).None?
  {
    var dot := IndexOf(u, '.');
    if j < dot {
      assert u[..dot][j] == u[j];
    } else {
      assert j > dot;
      assert u[dot + 1..][j - dot - 1] == u[j];
    }
  }

  /** Within the decimal notation, text is rejected as soon as its trimmed
      form holds a character that is not a digit, not the point, and not a
      leading sign. */
  lemma CoerceRejectsStray(s: string, i: int)
    requires 0 <= i < |Trim(s)|
    requires !IsDigit(Trim(s)[i]) && Trim(s)[i] != '.'
    requires i == 0 ==> Trim(s)[0] != '-' && Trim(s)[0] != '+'
    ensures Coerce(Text(s)).None?
  {
    var t := Trim(s);
    if t[0] == '-' || t[0] == '+' {
      assert t[1..][i - 1] == t[i];
      UnsignedRejectsStray(t[1..], i - 1);
    } else {
      UnsignedRejectsStray(t, i);
    }
  }

  /** A field with a letter after its digits is not a number. */
  lemma CoerceRejectsLetters()
    ensures Coerce(Text("12a")).None?
  {
    assert "12a"[2] == 'a' && !IsDigit('a');
    assert IndexOf("12a", '.') == 3;
  }

  // ---------------------------------------------------------------------
  // Validation and submission

  datatype DataPointForm = DataPointForm(value: FieldValue, date: Option<DateTime>, time: string, notes: Option<string>)

  datatype Issue = ValueNotNumber | DateRequired | InvalidTime

  datatype ValidPoint = ValidPoint(value: real, date: DateTime, hour: int, minute: int, notes: Option<string>)

  /** `dataPointFormSchema.safeParse(values)`: every failed check is reported. */
  function Validate(f: DataPointForm): (r: Result<ValidPoint, seq<Issue>>)
    ensures r.Ok? <==> Coerce(f.value).Some? && f.date.Some? && TimeMatches(f.time)
    ensures r.Err? ==> (ValueNotNumber in r.error <==> Coerce(f.value).None?)
    ensures r.Err? ==> (DateRequired in r.error <==> f.date.None?)
    ensures r.Err? ==> (InvalidTime in r.error <==> !TimeMatches(f.time))
    ensures r.Ok? ==> 0 <= r.value.hour < 24 && 0 <= r.value.minute < 60
                      && FormatHHmm(r.value.hour, r.value.minute) == f.time
  {
    var issues := (if Coerce(f.value).None? then [ValueNotNumber] else [])
                  + (if f.date.None? then [DateRequired] else [])
                  + (if !TimeMatches(f.time) then [InvalidTime] else []);
    if issues == [] then
      TimePatternAcceptsOnlyFormatted(f.time);
      var (h, m) := ParseTime(f.time);
      Ok(ValidPoint(Coerce(f.value).value, f.date.value, h, m, f.notes))
    else Err(issues)
  }

  /** A mutable JavaScript `Date` in local time. */
  class LocalDate {
    var at: DateTime

    /** `new Date(other)`: a copy. */
    constructor (from: DateTime)
      ensures at == from
    {
      at := from;
    }

    /** `setHours(h, m, s, ms)` with each part in range (the time pattern
        guarantees it), so the date stays the same. */
    method SetHours(h: int, m: int, s: int, ms: int)
      requires 0 <= h < 24 && 0 <= m < 60 && 0 <= s < 60 && 0 <= ms < 1000
      modifies this
      ensures at == old(at).(hour := h, minute := m, second := s, millis := ms)
    {
      at := at.(hour := h, minute := m, second := s, millis := ms);
    }
  }

  /** What `onSave` receives: the payload and the id of the edited point. */
  datatype PointPayload = PointPayload(id: string, value: real, timestamp: DateTime, notes: Option<string>)

  datatype SavedPoint = SavedPoint(payload: PointPayload, editId: Option<string>)

  /** The result of submitting the form: nothing without a `metric` or when the
      form does not validate; otherwise the chosen date at the chosen hour and
      minute (seconds and milliseconds 0), the edited point's id or a fresh
      one, the coerced value and the notes. */
  function SubmitResult(metric: Option<Tracker>, dataPointToEdit: Option<DataPoint>,
                        f: DataPointForm, freshId: string): Option<SavedPoint>
  {
    if metric.None? || Validate(f).Err? then None
    else
      var v := Validate(f).value;
      var id := if dataPointToEdit.Some? then dataPointToEdit.value.id else freshId;
      Some(SavedPoint(PointPayload(id, v.value, v.date.(hour := v.hour, minute := v.minute, second := 0, millis := 0), v.notes),
                      if dataPointToEdit.Some? then Some(dataPointToEdit.value.id) else None))
  }

  /** `form.handleSubmit(handleSubmit)`: validation first, then the handler. */
  method Submit(metric: Option<Tracker>, dataPointToEdit: Option<DataPoint>, f: DataPointForm, freshId: string)
    returns (saved: Option<SavedPoint>)
    ensures saved == SubmitResult(metric, dataPointToEdit, f, freshId)
  {
    var parsed := Validate(f);
    if parsed.Err? {
      return None;
    }
    if metric.None? {
      return None;
    }
    var values := parsed.value;
    var combinedDateTime := new LocalDate(values.date);
    combinedDateTime.SetHours(values.hour, values.minute, 0, 0);
    var id := if dataPointToEdit.Some? then dataPointToEdit.value.id else freshId;
    var payload := PointPayload(id, values.value, combinedDateTime.at, values.notes);
    saved := Some(SavedPoint(payload, if dataPointToEdit.Some? then Some(dataPointToEdit.value.id) else None));
  }

  /** The values the form is given when it opens; `now` is the clock's
      reading. */
  function Prefill(dataPointToEdit: Option<DataPoint>, now: DateTime): DataPointForm
    requires ValidDateTime(now)
    requires dataPointToEdit.Some? ==> ValidDateTime(dataPointToEdit.value.timestamp)
  {
    match dataPointToEdit
    case Some(dp) =>
      DataPointForm(Num(dp.value), Some(dp.timestamp), FormatHHmm(dp.timestamp.hour, dp.timestamp.minute),
                    Some(OrDefault(dp.notes, "")))
    case None => DataPointForm(Text(""), Some(now), FormatHHmm(now.hour, now.minute), Some(""))
  }

  /** Editing a point and submitting unchanged keeps its id, value, local
      date, hour and minute; only seconds and milliseconds are reset, and a
      missing note becomes "". */
  lemma EditRoundTrip(metric: Tracker, dp: DataPoint, now: DateTime, freshId: string)
    requires ValidDateTime(now) && ValidDateTime(dp.timestamp)
    ensures SubmitResult(Some(metric), Some(dp), Prefill(Some(dp), now), freshId)
         == Some(SavedPoint(PointPayload(dp.id, dp.value, dp.timestamp.(second := 0, millis := 0),
                                         Some(OrDefault(dp.notes, ""))),
                            Some(dp.id)))
  {
    var t := dp.timestamp;
    TimePatternAcceptsFormatted(t.hour, t.minute);
  }

  /** Submitting a new point without typing a value records 0 at the current
      minute under the fresh id. */
  lemma NewPointDefaults(metric: Tracker, now: DateTime, freshId: string)
    requires ValidDateTime(now)
    ensures SubmitResult(Some(metric), None, Prefill(None, now), freshId)
         == Some(SavedPoint(PointPayload(freshId, 0.0, now.(second := 0, millis := 0), Some("")), None))
  {
    TimePatternAcceptsFormatted(now.hour, now.minute);
    assert Trim("") == "";
    assert Coerce(Text("")) == Some(0.0);
  }

  /** Without a `metric` the dialog renders nothing and its submit saves
      nothing, whatever the form holds. */
  lemma NoMetricNoSave(dataPointToEdit: Option<DataPoint>, f: DataPointForm, freshId: string)
    ensures SubmitResult(None, dataPointToEdit, f, freshId).None?
  {
  }
}
