// The two persisted entities of the application, `Tracker` and `DataPoint`
// (src/types/index.ts), with optional properties as `Option` values.
module Entities {
  import opened Calendar

  datatype Option<+T> = None | Some(value: T) {
    function GetOr(default: T): T {
      match this
      case Some(v) => v
      case None => default
    }
  }

  datatype Result<+T, +E> = Ok(value: T) | Err(error: E)

  datatype TrackerType = Value | Event

  /** `type?: 'value' | 'event'` is the optional field `trackerType`. */
  datatype Tracker = Tracker(
    id: string,
    name: string,
    unit: string,
    createdAt: DateTime,
    color: Option<string>,
    isPinned: Option<bool>,
    trackerType: Option<TrackerType>)

  datatype DataPoint = DataPoint(
    id: string,
    trackerId: string,
    value: real,
    timestamp: DateTime,
    notes: Option<string>)

  /** What the tracker dialog submits (`Omit<Tracker, "id" | "createdAt">`). */
  datatype TrackerFields = TrackerFields(
    name: string,
    unit: string,
    color: Option<string>,
    isPinned: Option<bool>,
    trackerType: Option<TrackerType>)

  /** What the data point dialog submits, less the ids the page assigns. */
  datatype DataPointFields = DataPointFields(value: real, timestamp: DateTime, notes: Option<string>)

  /** `tracker.type || 'value'`: a tracker without a type is a value tracker. */
  function TypeOf(t: Tracker): TrackerType {
    t.trackerType.GetOr(Value)
  }

  /** The truthiness of `isPinned`: a missing flag reads as false. */
  predicate Pinned(t: Tracker) {
    t.isPinned == Some(true)
  }

  /** The truthiness of a string id: present and not empty. */
  predicate Truthy(s: Option<string>) {
    s.Some? && s.value != ""
  }

  /** The truthiness of `dp.notes`: present and not the empty string. */
  predicate HasNote(dp: DataPoint) {
    dp.notes.Some? && dp.notes.value != ""
  }

  /** `s || fallback` for an optional string: absent and "" both fall back. */
  function OrDefault(s: Option<string>, fallback: string): string {
    if s.Some? && s.value != "" then s.value else fallback
  }
}
