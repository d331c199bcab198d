// AddTrackerDialog.tsx: the form schema (`trackerFormSchema` with its unit
// refinement), the values the form is reset to, and `handleSubmit`, which
// turns the validated values into what the dashboard's `onSave` receives.
module AddTrackerDialog {
  import opened Entities
  import opened Text

  /** `availableColors`, by value. */
  const Palette: seq<string> := [
    "hsl(var(--primary))",
    "hsl(var(--accent))",
    "hsl(var(--chart-1))",
    "hsl(var(--chart-2))",
    "hsl(var(--chart-3))",
    "hsl(var(--chart-4))",
    "hsl(var(--chart-5))",
    "hsl(145, 63%, 49%)",
    "hsl(45, 100%, 51%)",
    "hsl(0, 84%, 60%)"
  ]

  /** The raw form values; every field but the name may be missing. */
  datatype TrackerForm = TrackerForm(
    name: string,
    trackerType: Option<TrackerType>,
    unit: Option<string>,
    color: Option<string>,
    isPinned: Option<bool>)

  datatype Issue = NameRequired | UnitRequired

  /** The schema's output: the type default applied. */
  datatype ValidForm = ValidForm(
    name: string,
    trackerType: TrackerType,
    unit: Option<string>,
    color: Option<string>,
    isPinned: Option<bool>)

  /** The refinement: a value tracker needs a unit that is not blank. */
  predicate UnitMissing(t: TrackerType, unit: Option<string>) {
    t == Value && (unit.None? || unit.value == "" || Trim(unit.value) == "")
  }

  /** `trackerFormSchema.safeParse(values)`: every failed check is reported. */
  function Validate(f: TrackerForm): (r: Result<ValidForm, seq<Issue>>)
    ensures r.Ok? <==> |f.name| >= 1 && !UnitMissing(f.trackerType.GetOr(Value), f.unit)
    ensures r.Err? ==> (NameRequired in r.error <==> |f.name| == 0)
    ensures r.Err? ==> (UnitRequired in r.error <==> UnitMissing(f.trackerType.GetOr(Value), f.unit))
    ensures r.Ok? ==> r.value.trackerType == f.trackerType.GetOr(Value) && r.value.name == f.name
  {
    var t := f.trackerType.GetOr(Value);
    var issues := (if |f.name| < 1 then [NameRequired] else [])
                  + (if UnitMissing(t, f.unit) then [UnitRequired] else []);
    if issues == [] then Ok(ValidForm(f.name, t, f.unit, f.color, f.isPinned))
    else Err(issues)
  }

  /** A value tracker is rejected exactly when its unit is missing, empty or
      whitespace only; an event tracker needs no unit. */
  lemma UnitRule(f: TrackerForm)
    requires |f.name| >= 1
    ensures f.trackerType == Some(Event) ==> Validate(f).Ok?
    ensures f.trackerType != Some(Event) ==>
              (Validate(f).Ok? <==> f.unit.Some? && !Blank(f.unit.value))
  {
    if f.unit.Some? {
      TrimEmptyIffBlank(f.unit.value);
    }
  }

  /** What `onSave` receives: the submitted fields and the edited tracker's id. */
  datatype SaveRequest = SaveRequest(fields: TrackerFields, id: Option<string>)

  /** `handleSubmit`: an event tracker's unit becomes "occurrence", a value
      tracker's unit is kept; everything else is passed through. */
  function HandleSubmit(v: ValidForm, trackerToEdit: Option<Tracker>): (r: SaveRequest)
    requires !UnitMissing(v.trackerType, v.unit)
    ensures r.fields.unit == if v.trackerType == Event then "occurrence" else v.unit.value
    ensures r.fields.name == v.name && r.fields.color == v.color && r.fields.isPinned == v.isPinned
    ensures r.fields.trackerType == Some(v.trackerType)
    ensures r.id == if trackerToEdit.Some? then Some(trackerToEdit.value.id) else None
  {
    var unitToSave := if v.trackerType == Event then "occurrence" else v.unit.value;
    SaveRequest(TrackerFields(v.name, unitToSave, v.color, v.isPinned, Some(v.trackerType)),
                if trackerToEdit.Some? then Some(trackerToEdit.value.id) else None)
  }

  /** Submitting the form: nothing is saved unless it validates. */
  function Submit(f: TrackerForm, trackerToEdit: Option<Tracker>): Result<SaveRequest, seq<Issue>> {
    match Validate(f)
    case Ok(v) => Ok(HandleSubmit(v, trackerToEdit))
    case Err(issues) => Err(issues)
  }

  /** The values of a fresh form (`defaultValues` and the reset for a new
      tracker). */
  const NewForm: TrackerForm := TrackerForm("", Some(Value), Some(""), Some(Palette[0]), Some(false))

  /** The values the form is reset to when it opens. */
  function ResetForm(trackerToEdit: Option<Tracker>): (f: TrackerForm)
    ensures trackerToEdit.None? ==> f == NewForm
    ensures trackerToEdit.Some? ==>
              var t := trackerToEdit.value;
              f.name == t.name
              && f.trackerType == Some(TypeOf(t))
              && f.unit == Some(t.unit)
              && f.color == Some(if Truthy(t.color) then t.color.value else Palette[0])
              && f.isPinned == Some(Pinned(t))
  {
    match trackerToEdit
    case None => NewForm
    case Some(t) =>
      TrackerForm(t.name, Some(t.trackerType.GetOr(Value)), Some(t.unit),
                  Some(OrDefault(t.color, Palette[0])), Some(t.isPinned == Some(true)))
  }

  /** A fresh form cannot be submitted as it is: it has no name and, being a
      value tracker, no unit. */
  lemma NewFormRejected()
    ensures Submit(NewForm, None) == Err([NameRequired, UnitRequired])
  {
    var f := NewForm;
    assert f.trackerType.GetOr(Value) == Value;
    assert UnitMissing(Value, f.unit);
    assert [NameRequired] + [UnitRequired] == [NameRequired, UnitRequired];
    assert Validate(f) == Err([NameRequired, UnitRequired]);
  }

  /** Opening a tracker for editing and submitting unchanged reproduces its
      name, type and id, its unit for a value tracker ("occurrence" for an
      event tracker), and its colour and pin state as read with their
      defaults, provided the stored tracker itself passes the schema. */
  lemma EditRoundTrip(t: Tracker)
    requires |t.name| >= 1 && (TypeOf(t) == Value ==> !Blank(t.unit))
    ensures Submit(ResetForm(Some(t)), Some(t)).Ok?
    ensures var r := Submit(ResetForm(Some(t)), Some(t)).value;
            r.id == Some(t.id)
            && r.fields.name == t.name
            && r.fields.trackerType == Some(TypeOf(t))
            && r.fields.unit == (if TypeOf(t) == Event then "occurrence" else t.unit)
            && r.fields.color == Some(OrDefault(t.color, Palette[0]))
            && r.fields.isPinned == Some(Pinned(t))
  {
    var f := ResetForm(Some(t));
    TrimEmptyIffBlank(t.unit);
    assert !UnitMissing(TypeOf(t), f.unit);
    var v := ValidForm(t.name, TypeOf(t), Some(t.unit), f.color, f.isPinned);
    assert Validate(f) == Ok(v);
    assert Submit(f, Some(t)) == Ok(HandleSubmit(v, Some(t)));
  }
}
