// The dashboard (src/app/page.tsx): the held tracker and data point lists and
// the handlers that replace them (save, delete, pin), the selection behind the
// add-data-point dialog, and the order in which the tracker cards are shown.
module DashboardPage {
  import opened Calendar
  import opened Entities
  import opened Collections
  import Text
  import AddTrackerDialog
  import AddDataPointDialog

  const DefaultTrackerColor: string := "hsl(var(--primary))"

  // ---------------------------------------------------------------------
  // The list transformations behind the handlers

  /** `{ ...t, ...trackerData, id: t.id, createdAt: t.createdAt }` */
  function Overwrite(t: Tracker, fields: TrackerFields): Tracker {
    Tracker(t.id, fields.name, fields.unit, t.createdAt, fields.color, fields.isPinned, fields.trackerType)
  }

  /** Saving with an id: the tracker with that id takes the submitted fields
      but keeps its id and creation time; every other tracker is unchanged. */
  function UpdateTrackers(ts: seq<Tracker>, id: string, fields: TrackerFields): (r: seq<Tracker>)
    ensures |r| == |ts|
    ensures forall i :: 0 <= i < |ts| ==> r[i].id == ts[i].id && r[i].createdAt == ts[i].createdAt
    ensures forall i :: 0 <= i < |ts| && ts[i].id != id ==> r[i] == ts[i]
    ensures forall i :: 0 <= i < |ts| && ts[i].id == id ==>
              r[i].name == fields.name && r[i].unit == fields.unit && r[i].color == fields.color
              && r[i].isPinned == fields.isPinned && r[i].trackerType == fields.trackerType
  {
    seq(|ts|, i requires 0 <= i < |ts| => if ts[i].id == id then Overwrite(ts[i], fields) else ts[i])
  }

  /** Saving without an id, as the page writes it: the new tracker gets the
      fresh id, the creation time, the default colour when none is given and
      a boolean pin flag, but the submitted `type` is not copied, so the new
      tracker reads as a value tracker whatever was chosen. */
  function NewTrackerAsWritten(fields: TrackerFields, freshId: string, now: DateTime): (t: Tracker)
    ensures t.id == freshId && t.createdAt == now
    ensures t.name == fields.name && t.unit == fields.unit
    ensures t.color.Some? && (Truthy(fields.color) ==> t.color == fields.color)
    ensures !Truthy(fields.color) ==> t.color == Some(DefaultTrackerColor)
    ensures t.isPinned == Some(fields.isPinned == Some(true))
    ensures t.trackerType.None? && TypeOf(t) == Value
  {
    Tracker(freshId, fields.name, fields.unit, now, Some(OrDefault(fields.color, DefaultTrackerColor)),
            Some(fields.isPinned == Some(true)), None)
  }

  /** Saving without an id with the submitted `type` kept: the same tracker,
      of the type the dialog chose. */
  function NewTracker(fields: TrackerFields, freshId: string, now: DateTime): (t: Tracker)
    ensures t.id == freshId && t.createdAt == now
    ensures t.name == fields.name && t.unit == fields.unit
    ensures t.color.Some? && (Truthy(fields.color) ==> t.color == fields.color)
    ensures !Truthy(fields.color) ==> t.color == Some(DefaultTrackerColor)
    ensures t.isPinned == Some(fields.isPinned == Some(true))
    ensures t.trackerType == fields.trackerType && TypeOf(t) == fields.trackerType.GetOr(Value)
  {
    NewTrackerAsWritten(fields, freshId, now).(trackerType := fields.trackerType)
  }

  /** An event tracker created from the dialog: the dialog submits type
      "event" with unit "occurrence", the page as written stores a tracker
      that reads as a value tracker (and opens for editing as one), and the
      corrected creation keeps it an event tracker. */
  lemma EventTrackerCreatedAsValue(f: AddTrackerDialog.TrackerForm, freshId: string, now: DateTime)
    requires f.trackerType == Some(Event) && |f.name| >= 1
    ensures AddTrackerDialog.Submit(f, None).Ok?
    ensures var fields := AddTrackerDialog.Submit(f, None).value.fields;
            fields.unit == "occurrence" && fields.trackerType == Some(Event)
            && TypeOf(NewTrackerAsWritten(fields, freshId, now)) == Value
            && AddTrackerDialog.ResetForm(Some(NewTrackerAsWritten(fields, freshId, now))).trackerType == Some(Value)
            && TypeOf(NewTracker(fields, freshId, now)) == Event
            && AddTrackerDialog.ResetForm(Some(NewTracker(fields, freshId, now))).trackerType == Some(Event)
  {
    assert !AddTrackerDialog.UnitMissing(Event, f.unit);
  }

  /** `{ ...t, isPinned: !t.isPinned }` for the tracker with the id. */
  function FlipPin(t: Tracker, id: string): Tracker {
    if t.id == id then t.(isPinned := Some(!Pinned(t))) else t
  }

  function TogglePins(ts: seq<Tracker>, id: string): (r: seq<Tracker>)
    ensures |r| == |ts|
    ensures forall i :: 0 <= i < |ts| ==> r[i] == FlipPin(ts[i], id)
  {
    if |ts| == 0 then []
    else TogglePins(ts[..|ts| - 1], id) + [FlipPin(ts[|ts| - 1], id)]
  }

  /** The last tracker with the id, which is what the closure variables of
      the toggle handler end up describing. */
  function LastWithId(ts: seq<Tracker>, id: string): Option<Tracker> {
    if |ts| == 0 then None
    else if ts[|ts| - 1].id == id then Some(ts[|ts| - 1])
    else LastWithId(ts[..|ts| - 1], id)
  }

  /** `trackers.find(t => t.id === id)` */
  function FindTracker(ts: seq<Tracker>, id: string): (r: Option<Tracker>)
    ensures r.Some? <==> exists i :: 0 <= i < |ts| && ts[i].id == id
    ensures r.Some? ==> r.value in ts && r.value.id == id
    ensures r.Some? ==> exists i :: 0 <= i < |ts| && ts[i] == r.value && forall j :: 0 <= j < i ==> ts[j].id != id
  {
    if |ts| == 0 then None
    else if ts[0].id == id then Some(ts[0])
    else
      var r := FindTracker(ts[1..], id);
      assert forall i :: 1 <= i < |ts| ==> ts[i] == ts[1..][i - 1];
      r
  }

  // ---------------------------------------------------------------------
  // The order of the cards

  /** The comparator's "negative": `a` goes before `b` when only `a` is
      pinned, or when both are alike and `a` was created later. */
  predicate ShownBefore(a: Tracker, b: Tracker) {
    (Pinned(a) && !Pinned(b)) || (Pinned(a) == Pinned(b) && Before(b.createdAt, a.createdAt))
  }

  predicate InDashboardOrder(ts: seq<Tracker>) {
    forall i, j :: 0 <= i < j < |ts| ==> !ShownBefore(ts[j], ts[i])
  }

  lemma ShownBeforeIsStrictWeakOrder(a: Tracker, b: Tracker, c: Tracker)
    ensures ShownBefore(a, b) ==> !ShownBefore(b, a)
    ensures !ShownBefore(b, a) && !ShownBefore(c, b) ==> !ShownBefore(c, a)
  {
    BeforeIsStrictTotalOrder(a.createdAt, b.createdAt, c.createdAt);
    BeforeIsStrictTotalOrder(c.createdAt, b.createdAt, a.createdAt);
    BeforeIsStrictTotalOrder(b.createdAt, a.createdAt, c.createdAt);
  }

  /** Places `t` in front of the first tracker not shown strictly before it. */
  function InsertCard(t: Tracker, s: seq<Tracker>): (r: seq<Tracker>)
    ensures multiset(r) == multiset(s) + multiset{t}
  {
    if |s| == 0 then [t]
    else if !ShownBefore(s[0], t) then [t] + s
    else
      assert s == [s[0]] + s[1..];
      [s[0]] + InsertCard(t, s[1..])
  }

  lemma {:induction false} InsertCardKeepsOrder(t: Tracker, s: seq<Tracker>)
    requires InDashboardOrder(s)
    ensures InDashboardOrder(InsertCard(t, s))
  {
    var r := InsertCard(t, s);
    if |s| == 0 {
    } else if !ShownBefore(s[0], t) {
      forall j | 0 <= j < |s| ensures !ShownBefore(s[j], t) {
        ShownBeforeIsStrictWeakOrder(t, s[0], s[j]);
      }
      assert forall j :: 1 <= j < |r| ==> r[j] == s[j - 1];
    } else {
      var rest := InsertCard(t, s[1..]);
      InsertCardKeepsOrder(t, s[1..]);
      forall j | 0 <= j < |rest| ensures !ShownBefore(rest[j], s[0]) {
        assert rest[j] in multiset(rest);
        if rest[j] == t {
          ShownBeforeIsStrictWeakOrder(s[0], t, t);
        } else {
          assert rest[j] in multiset(s[1..]);
          var m :| 0 <= m < |s[1..]| && s[1..][m] == rest[j];
          assert s[m + 1] == rest[j];
        }
      }
      assert forall j :: 1 <= j < |r| ==> r[j] == rest[j - 1];
    }
  }

  /** `[...trackers].sort(comparator)`: the cards in dashboard order. */
  function DashboardOrder(ts: seq<Tracker>): (r: seq<Tracker>)
    ensures InDashboardOrder(r)
    ensures multiset(r) == multiset(ts)
    ensures |r| == |ts|
  {
    if |ts| == 0 then []
    else
      assert ts == [ts[0]] + ts[1..];
      var rest := DashboardOrder(ts[1..]);
      InsertCardKeepsOrder(ts[0], rest);
      InsertCard(ts[0], rest)
  }

  /** In dashboard order every pinned tracker comes before every unpinned one,
      and trackers alike in pinning run from the newest to the oldest. */
  lemma DashboardOrderMeaning(ts: seq<Tracker>)
    ensures var r := DashboardOrder(ts);
            (forall i, j :: 0 <= i < j < |r| && Pinned(r[j]) ==> Pinned(r[i]))
            && (forall i, j :: 0 <= i < j < |r| && Pinned(r[i]) == Pinned(r[j]) ==> NotAfter(r[j].createdAt, r[i].createdAt))
  {
  }

  // ---------------------------------------------------------------------
  // The page state

  class Dashboard {
    var trackers: seq<Tracker>
    var dataPoints: seq<DataPoint>
    var isAddTrackerDialogOpen: bool
    var trackerToEdit: Option<Tracker>
    var isAddDataPointDialogOpen: bool
    var selectedTrackerForDataPoint: Option<Tracker>
    var trackerToDelete: Option<string>

    /** The page as mounted, with the lists read from storage. */
    constructor (storedTrackers: seq<Tracker>, storedDataPoints: seq<DataPoint>)
      ensures trackers == storedTrackers && dataPoints == storedDataPoints
      ensures !isAddTrackerDialogOpen && trackerToEdit.None?
      ensures !isAddDataPointDialogOpen && selectedTrackerForDataPoint.None?
      ensures trackerToDelete.None?
    {
      trackers := storedTrackers;
      dataPoints := storedDataPoints;
      isAddTrackerDialogOpen := false;
      trackerToEdit := None;
      isAddDataPointDialogOpen := false;
      selectedTrackerForDataPoint := None;
      trackerToDelete := None;
    }

    // -- The tracker dialog

    /** The "Add New Tracker" buttons: the dialog opens on a fresh form. */
    method OpenNewTracker()
      modifies this
      ensures isAddTrackerDialogOpen && trackerToEdit.None?
      ensures trackers == old(trackers) && dataPoints == old(dataPoints)
      ensures isAddDataPointDialogOpen == old(isAddDataPointDialogOpen)
      ensures selectedTrackerForDataPoint == old(selectedTrackerForDataPoint) && trackerToDelete == old(trackerToDelete)
    {
      trackerToEdit := None;
      isAddTrackerDialogOpen := true;
    }

    /** `openEditTrackerDialog`: the dialog opens on the given tracker. */
    method OpenEditTracker(tracker: Tracker)
      modifies this
      ensures isAddTrackerDialogOpen && trackerToEdit == Some(tracker)
      ensures trackers == old(trackers) && dataPoints == old(dataPoints)
      ensures isAddDataPointDialogOpen == old(isAddDataPointDialogOpen)
      ensures selectedTrackerForDataPoint == old(selectedTrackerForDataPoint) && trackerToDelete == old(trackerToDelete)
    {
      trackerToEdit := Some(tracker);
      isAddTrackerDialogOpen := true;
    }

    /** The tracker dialog's `onClose`. */
    method CloseTrackerDialog()
      modifies this
      ensures !isAddTrackerDialogOpen && trackerToEdit.None?
      ensures trackers == old(trackers) && dataPoints == old(dataPoints)
      ensures isAddDataPointDialogOpen == old(isAddDataPointDialogOpen)
      ensures selectedTrackerForDataPoint == old(selectedTrackerForDataPoint) && trackerToDelete == old(trackerToDelete)
    {
      isAddTrackerDialogOpen := false;
      trackerToEdit := None;
    }

    /** `handleSaveTracker`: with a truthy id the matching tracker is
        overwritten, otherwise one new tracker is appended, without the
        submitted type (see `NewTrackerAsWritten`). `freshId` and `now`
        stand for `Date.now()` and `new Date()`. */
    method SaveTracker(fields: TrackerFields, id: Option<string>, freshId: string, now: DateTime)
      modifies this
      ensures Truthy(id) ==> trackers == UpdateTrackers(old(trackers), id.value, fields)
      ensures !Truthy(id) ==> trackers == old(trackers) + [NewTrackerAsWritten(fields, freshId, now)]
      ensures trackerToEdit.None?
      ensures dataPoints == old(dataPoints) && isAddTrackerDialogOpen == old(isAddTrackerDialogOpen)
      ensures isAddDataPointDialogOpen == old(isAddDataPointDialogOpen)
      ensures selectedTrackerForDataPoint == old(selectedTrackerForDataPoint) && trackerToDelete == old(trackerToDelete)
    {
      if Truthy(id) {
        trackers := UpdateTrackers(trackers, id.value, fields);
      } else {
        var newTracker := NewTrackerAsWritten(fields, freshId, now);
        trackers := trackers + [newTracker];
      }
      trackerToEdit := None;
    }

    /** Submitting the tracker dialog: an invalid form changes nothing; a
        valid one is saved (as an update of the tracker being edited, or as a
        new tracker) and the dialog closes. */
    method SubmitTrackerDialog(form: AddTrackerDialog.TrackerForm, freshId: string, now: DateTime)
      returns (result: Result<AddTrackerDialog.SaveRequest, seq<AddTrackerDialog.Issue>>)
      modifies this
      ensures result == AddTrackerDialog.Submit(form, old(trackerToEdit))
      ensures result.Err? ==> trackers == old(trackers) && trackerToEdit == old(trackerToEdit)
                              && isAddTrackerDialogOpen == old(isAddTrackerDialogOpen)
      ensures result.Ok? && Truthy(result.value.id) ==>
                trackers == UpdateTrackers(old(trackers), result.value.id.value, result.value.fields)
      ensures result.Ok? && !Truthy(result.value.id) ==>
                trackers == old(trackers) + [NewTrackerAsWritten(result.value.fields, freshId, now)]
      ensures result.Ok? ==> !isAddTrackerDialogOpen && trackerToEdit.None?
      ensures dataPoints == old(dataPoints) && isAddDataPointDialogOpen == old(isAddDataPointDialogOpen)
      ensures selectedTrackerForDataPoint == old(selectedTrackerForDataPoint) && trackerToDelete == old(trackerToDelete)
    {
      result := AddTrackerDialog.Submit(form, trackerToEdit);
      if result.Ok? {
        SaveTracker(result.value.fields, result.value.id, freshId, now);
        CloseTrackerDialog();
      }
    }

    // -- The data point dialog

    /** `openAddDataPointDialog`: selects the first tracker with the id and
        opens the dialog; an unknown id changes nothing. */
    method OpenAddDataPoint(trackerId: string)
      modifies this
      ensures FindTracker(trackers, trackerId).Some? ==>
                selectedTrackerForDataPoint == FindTracker(trackers, trackerId) && isAddDataPointDialogOpen
      ensures FindTracker(trackers, trackerId).None? ==>
                selectedTrackerForDataPoint == old(selectedTrackerForDataPoint)
                && isAddDataPointDialogOpen == old(isAddDataPointDialogOpen)
      ensures trackers == old(trackers) && dataPoints == old(dataPoints)
      ensures isAddTrackerDialogOpen == old(isAddTrackerDialogOpen) && trackerToEdit == old(trackerToEdit)
      ensures trackerToDelete == old(trackerToDelete)
    {
      var tracker := FindTracker(trackers, trackerId);
      if tracker.Some? {
        selectedTrackerForDataPoint := tracker;
        isAddDataPointDialogOpen := true;
      }
    }

    /** The data point dialog's `onClose`; the selection is kept. */
    method CloseAddDataPoint()
      modifies this
      ensures !isAddDataPointDialogOpen
      ensures trackers == old(trackers) && dataPoints == old(dataPoints)
      ensures isAddTrackerDialogOpen == old(isAddTrackerDialogOpen) && trackerToEdit == old(trackerToEdit)
      ensures selectedTrackerForDataPoint == old(selectedTrackerForDataPoint) && trackerToDelete == old(trackerToDelete)
    {
      isAddDataPointDialogOpen := false;
    }

    /** `handleSaveDataPoint`: nothing without a selected tracker, otherwise
        one point for the selected tracker is appended. */
    method SaveDataPoint(fields: DataPointFields, freshId: string)
      modifies this
      ensures selectedTrackerForDataPoint.None? ==> dataPoints == old(dataPoints)
      ensures selectedTrackerForDataPoint.Some? ==>
                dataPoints == old(dataPoints)
                  + [DataPoint(freshId, selectedTrackerForDataPoint.value.id, fields.value, fields.timestamp, fields.notes)]
      ensures trackers == old(trackers)
      ensures isAddTrackerDialogOpen == old(isAddTrackerDialogOpen) && trackerToEdit == old(trackerToEdit)
      ensures isAddDataPointDialogOpen == old(isAddDataPointDialogOpen)
      ensures selectedTrackerForDataPoint == old(selectedTrackerForDataPoint) && trackerToDelete == old(trackerToDelete)
    {
      if selectedTrackerForDataPoint.None? {
        return;
      }
      var newDataPoint := DataPoint(freshId, selectedTrackerForDataPoint.value.id, fields.value, fields.timestamp, fields.notes);
      dataPoints := dataPoints + [newDataPoint];
    }

    /** The add-data-point dialog as the page renders it: the selected tracker
        is handed over as `tracker`, but the dialog reads `metric`, so it gets
        none, renders nothing and its submit never reaches `onSave`, whatever
        the form holds and whichever tracker is selected. */
    method SubmitDataPointAsWritten(form: AddDataPointDialog.DataPointForm, freshId: string)
      returns (saved: Option<AddDataPointDialog.SavedPoint>)
      ensures saved.None?
    {
      saved := AddDataPointDialog.Submit(None, None, form, freshId);
      AddDataPointDialog.NoMetricNoSave(None, form, freshId);
    }

    /** The dialog given the selected tracker as its `metric`: a valid form
        records exactly one point for the selected tracker and the dialog's
        `onClose` closes it; an invalid form changes nothing. */
    method SubmitDataPoint(form: AddDataPointDialog.DataPointForm, freshId: string)
      modifies this
      ensures var saved := AddDataPointDialog.SubmitResult(old(selectedTrackerForDataPoint), None, form, freshId);
              saved.None? ==> dataPoints == old(dataPoints)
      ensures var saved := AddDataPointDialog.SubmitResult(old(selectedTrackerForDataPoint), None, form, freshId);
              saved.Some? ==>
                selectedTrackerForDataPoint.Some?
                && dataPoints == old(dataPoints)
                     + [DataPoint(freshId, selectedTrackerForDataPoint.value.id, saved.value.payload.value,
                                  saved.value.payload.timestamp, saved.value.payload.notes)]
      ensures var saved := AddDataPointDialog.SubmitResult(old(selectedTrackerForDataPoint), None, form, freshId);
              saved.Some? ==> !isAddDataPointDialogOpen
      ensures var saved := AddDataPointDialog.SubmitResult(old(selectedTrackerForDataPoint), None, form, freshId);
              saved.None? ==> isAddDataPointDialogOpen == old(isAddDataPointDialogOpen)
      ensures trackers == old(trackers) && selectedTrackerForDataPoint == old(selectedTrackerForDataPoint)
      ensures isAddTrackerDialogOpen == old(isAddTrackerDialogOpen) && trackerToEdit == old(trackerToEdit)
      ensures trackerToDelete == old(trackerToDelete)
    {
      var saved := AddDataPointDialog.Submit(selectedTrackerForDataPoint, None, form, freshId);
      if saved.Some? {
        var p := saved.value.payload;
        SaveDataPoint(DataPointFields(p.value, p.timestamp, p.notes), freshId);
        CloseAddDataPoint();
      }
    }

    // -- Deleting

    /** A card's delete button: asks for confirmation of this tracker. */
    method RequestDelete(trackerId: string)
      modifies this
      ensures trackerToDelete == Some(trackerId)
      ensures trackers == old(trackers) && dataPoints == old(dataPoints)
      ensures isAddTrackerDialogOpen == old(isAddTrackerDialogOpen) && trackerToEdit == old(trackerToEdit)
      ensures isAddDataPointDialogOpen == old(isAddDataPointDialogOpen)
      ensures selectedTrackerForDataPoint == old(selectedTrackerForDataPoint)
    {
      trackerToDelete := Some(trackerId);
    }

    /** Cancelling or dismissing the confirmation. */
    method CancelDelete()
      modifies this
      ensures trackerToDelete.None?
      ensures trackers == old(trackers) && dataPoints == old(dataPoints)
      ensures isAddTrackerDialogOpen == old(isAddTrackerDialogOpen) && trackerToEdit == old(trackerToEdit)
      ensures isAddDataPointDialogOpen == old(isAddDataPointDialogOpen)
      ensures selectedTrackerForDataPoint == old(selectedTrackerForDataPoint)
    {
      trackerToDelete := None;
    }

    /** `handleDeleteTracker`: drops the tracker and its data points. */
    method DeleteTracker(trackerId: string)
      modifies this
      ensures trackers == Filter((t: Tracker) => t.id != trackerId, old(trackers))
      ensures dataPoints == Filter((dp: DataPoint) => dp.trackerId != trackerId, old(dataPoints))
      ensures trackerToDelete.None?
      ensures isAddTrackerDialogOpen == old(isAddTrackerDialogOpen) && trackerToEdit == old(trackerToEdit)
      ensures isAddDataPointDialogOpen == old(isAddDataPointDialogOpen)
      ensures selectedTrackerForDataPoint == old(selectedTrackerForDataPoint)
    {
      trackers := Filter((t: Tracker) => t.id != trackerId, trackers);
      dataPoints := Filter((dp: DataPoint) => dp.trackerId != trackerId, dataPoints);
      trackerToDelete := None;
    }

    /** Confirming: deletes the tracker asked about, if its id is truthy. */
    method ConfirmDelete()
      modifies this
      ensures Truthy(old(trackerToDelete)) ==>
                var id := old(trackerToDelete).value;
                trackers == Filter((t: Tracker) => t.id != id, old(trackers))
                && dataPoints == Filter((dp: DataPoint) => dp.trackerId != id, old(dataPoints))
                && trackerToDelete.None?
      ensures !Truthy(old(trackerToDelete)) ==>
                trackers == old(trackers) && dataPoints == old(dataPoints) && trackerToDelete == old(trackerToDelete)
      ensures isAddTrackerDialogOpen == old(isAddTrackerDialogOpen) && trackerToEdit == old(trackerToEdit)
      ensures isAddDataPointDialogOpen == old(isAddDataPointDialogOpen)
      ensures selectedTrackerForDataPoint == old(selectedTrackerForDataPoint)
    {
      if Truthy(trackerToDelete) {
        DeleteTracker(trackerToDelete.value);
      }
    }

    // -- Pinning and the card order

    /** `handleTogglePin`: one pass over the trackers that flips the pin of
        each tracker with the id and records, in `trackerName` and
        `isNowPinned`, the last one flipped; the toast is shown when the name
        is not empty. */
    method TogglePin(trackerId: string) returns (trackerName: string, isNowPinned: bool, toastShown: bool)
      modifies this
      ensures trackers == TogglePins(old(trackers), trackerId)
      ensures LastWithId(old(trackers), trackerId).None? ==> trackerName == "" && !isNowPinned
      ensures LastWithId(old(trackers), trackerId).Some? ==>
                trackerName == LastWithId(old(trackers), trackerId).value.name
                && isNowPinned == !Pinned(LastWithId(old(trackers), trackerId).value)
      ensures toastShown <==> trackerName != ""
      ensures dataPoints == old(dataPoints)
      ensures isAddTrackerDialogOpen == old(isAddTrackerDialogOpen) && trackerToEdit == old(trackerToEdit)
      ensures isAddDataPointDialogOpen == old(isAddDataPointDialogOpen)
      ensures selectedTrackerForDataPoint == old(selectedTrackerForDataPoint) && trackerToDelete == old(trackerToDelete)
    {
      trackerName := "";
      isNowPinned := false;
      var updated: seq<Tracker> := [];
      for i := 0 to |trackers|
        invariant updated == TogglePins(trackers[..i], trackerId)
        invariant LastWithId(trackers[..i], trackerId).None? ==> trackerName == "" && !isNowPinned
        invariant LastWithId(trackers[..i], trackerId).Some? ==>
                    trackerName == LastWithId(trackers[..i], trackerId).value.name
                    && isNowPinned == !Pinned(LastWithId(trackers[..i], trackerId).value)
      {
        var t := trackers[i];
        assert trackers[..i + 1][..i] == trackers[..i];
        if t.id == trackerId {
          trackerName := t.name;
          isNowPinned := !Pinned(t);
          updated := updated + [t.(isPinned := Some(!Pinned(t)))];
        } else {
          updated := updated + [t];
        }
      }
      assert trackers[..|trackers|] == trackers;
      trackers := updated;
      toastShown := trackerName != "";
    }

    /** `sortedTrackers`: a sorted copy; the held list is left as it is. */
    function SortedTrackers(): (r: seq<Tracker>)
      reads this
      ensures InDashboardOrder(r) && multiset(r) == multiset(trackers)
    {
      DashboardOrder(trackers)
    }
  }

  // ---------------------------------------------------------------------
  // Properties of the handlers

  /** Deleting removes exactly the tracker with the id and exactly its data
      points, keeping the relative order of everything else. */
  lemma DeleteRemovesExactly(ts: seq<Tracker>, dps: seq<DataPoint>, trackerId: string, t: Tracker, dp: DataPoint)
    ensures t in Filter((x: Tracker) => x.id != trackerId, ts) <==> t in ts && t.id != trackerId
    ensures dp in Filter((x: DataPoint) => x.trackerId != trackerId, dps) <==> dp in dps && dp.trackerId != trackerId
    ensures t.id != trackerId ==>
              multiset(Filter((x: Tracker) => x.id != trackerId, ts))[t] == multiset(ts)[t]
  {
    FilterMembers((x: Tracker) => x.id != trackerId, ts, t);
    FilterMembers((x: DataPoint) => x.trackerId != trackerId, dps, dp);
  }

  /** Toggling flips the pin of the trackers with the id, reading a missing
      flag as unpinned, and changes nothing else; toggling twice restores
      every tracker's pinned state. */
  lemma TogglePinTwice(ts: seq<Tracker>, id: string)
    ensures forall i :: 0 <= i < |ts| ==>
              (Pinned(TogglePins(ts, id)[i]) <==> (if ts[i].id == id then !Pinned(ts[i]) else Pinned(ts[i])))
              && TogglePins(ts, id)[i].(isPinned := ts[i].isPinned) == ts[i]
    ensures forall i :: 0 <= i < |ts| ==> Pinned(TogglePins(TogglePins(ts, id), id)[i]) == Pinned(ts[i])
  {
  }

  /** Opening a tracker for editing and saving the form unchanged leaves the
      list as it is, when the tracker is stored in the form the dialog saves
      (every optional field set, a truthy colour, "occurrence" as an event
      tracker's unit) and no other tracker shares its id. */
  lemma EditUnchangedIsNoOp(ts: seq<Tracker>, t: Tracker)
    requires forall i :: 0 <= i < |ts| && ts[i].id == t.id ==> ts[i] == t
    requires |t.name| >= 1 && (TypeOf(t) == Value ==> !Text.Blank(t.unit))
    requires TypeOf(t) == Event ==> t.unit == "occurrence"
    requires Truthy(t.color) && t.isPinned.Some? && t.trackerType.Some?
    ensures AddTrackerDialog.Submit(AddTrackerDialog.ResetForm(Some(t)), Some(t)).Ok?
    ensures UpdateTrackers(ts, t.id, AddTrackerDialog.Submit(AddTrackerDialog.ResetForm(Some(t)), Some(t)).value.fields) == ts
  {
    AddTrackerDialog.EditRoundTrip(t);
    var fields := AddTrackerDialog.Submit(AddTrackerDialog.ResetForm(Some(t)), Some(t)).value.fields;
    assert fields.trackerType == t.trackerType;
    assert fields.unit == t.unit;
    assert fields.color == t.color;
    assert fields.isPinned == Some(Pinned(t));
    assert Some(Pinned(t)) == t.isPinned by {
      if t.isPinned.value { } else { }
    }
    assert Overwrite(t, fields) == t;
  }
}
