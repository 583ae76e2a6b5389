/** The memory-resize check: a branch's `database_memory_resize` entry is
    confirmed from the memory the VM's pod was given. */
module MemoryResize {
  import opened Common
  import opened BranchModel
  import P = PvcResize

  const MemoryServiceKey: string := "database_memory_resize"

  /** The plain dictionary `_load_resize_entry` returns: the `status` and
      `timestamp` members and the others. */
  datatype EntryPayload = EntryPayload(status: Option<string>, timestamp: Option<string>, extra: map<string, string>)

  /** `_load_resize_entry`: a dictionary is copied; an entry object is
      dumped (it keeps no extra members); anything else has neither a
      `status` nor a `timestamp` attribute. */
  function LoadResizeEntry(e: RawEntry): (r: EntryPayload)
    ensures e.EntryObject? ==> r == EntryPayload(e.status, e.timestamp, e.extra)
    ensures e.TypedEntry? ==> r == EntryPayload(Some(ResizeStatusName(e.entry.status)), Some(e.entry.timestamp), map[])
    ensures e.NullEntry? || e.NotAnObject? ==> r == EntryPayload(None, None, map[])
  {
    match e
    case TypedEntry(entry) => EntryPayload(Some(ResizeStatusName(entry.status)), Some(entry.timestamp), map[])
    case EntryObject(status, timestamp, extra) => EntryPayload(status, timestamp, extra)
    case NullEntry => EntryPayload(None, None, map[])
    case NotAnObject => EntryPayload(None, None, map[])
  }

  /** The payload stored back as a JSON object. */
  function AsEntry(p: EntryPayload): RawEntry {
    EntryObject(p.status, p.timestamp, p.extra)
  }

  /** Loading loses nothing validation looks at: the loaded payload, stored
      back, validates exactly as the original entry did, and a dictionary
      comes back unchanged. */
  lemma LoadKeepsEntry(e: RawEntry)
    ensures ValidateEntry(AsEntry(LoadResizeEntry(e))) == ValidateEntry(e)
    ensures e.EntryObject? ==> AsEntry(LoadResizeEntry(e)) == e
  {
    if e.TypedEntry? {
      ResizeStatusRoundTrip(e.entry.status);
    }
  }

  /** What a refresh does to the branch: nothing, or write the entry (and,
      when `completed`, the branch memory). */
  datatype MemoryOutcome = NoChange | Write(entry: RawEntry, completed: bool)

  /** The decision of `refresh_memory_status`, from the branch's stored
      entry, its memory, the memory the pod was given (if the pod and its
      quantity could be read) and the VM's target memory (if known). */
  function MemoryRefresh(entry: Option<RawEntry>, memory: int, pod: Option<int>, target: Option<int>,
                         timestamp: string): MemoryOutcome
  {
    if entry.None? || entry.value.NullEntry? then NoChange
    else
      var payload := LoadResizeEntry(entry.value);
      var current := payload.status.GetOr("PENDING");
      if target.None? then NoChange
      else
        var newStatus := if pod.Some? && pod.value >= target.value then "COMPLETED" else "RESIZING";
        var memoryNeedsUpdate := newStatus == "COMPLETED" && memory != target.value;
        if newStatus == current && !memoryNeedsUpdate then NoChange
        else Write(EntryObject(Some(newStatus), Some(timestamp), payload.extra - {"requested_value"}), newStatus == "COMPLETED")
  }

  /** No entry, or no known target, changes nothing. Otherwise the new
      status is COMPLETED exactly when the pod's memory is known and reaches
      the target, and RESIZING else; it is written unless it equals the
      stored status (PENDING when there is none) while the branch memory
      needs no update. A written entry carries the new status and the
      timestamp and keeps every other member except `requested_value`. */
  lemma MemoryRefreshMeaning(entry: Option<RawEntry>, memory: int, pod: Option<int>, target: Option<int>, timestamp: string)
    ensures entry.None? || entry.value.NullEntry? || target.None? ==>
              MemoryRefresh(entry, memory, pod, target, timestamp) == NoChange
    ensures entry.Some? && !entry.value.NullEntry? && target.Some? ==>
              var done := pod.Some? && pod.value >= target.value;
              var current := LoadResizeEntry(entry.value).status.GetOr("PENDING");
              var r := MemoryRefresh(entry, memory, pod, target, timestamp);
              (r.Write? <==> current != (if done then "COMPLETED" else "RESIZING") || (done && memory != target.value)) &&
              (r.Write? ==>
                 r.completed == done &&
                 r.entry.EntryObject? &&
                 r.entry.status == Some(if done then "COMPLETED" else "RESIZING") &&
                 r.entry.timestamp == Some(timestamp) &&
                 "requested_value" !in r.entry.extra &&
                 forall k :: k != "requested_value" ==>
                   (k in r.entry.extra <==> k in LoadResizeEntry(entry.value).extra))
  {
  }

  /** There is no priority guard: a FAILED entry is overwritten with
      COMPLETED once the pod has the target memory. */
  lemma FailedEntryCanComplete(timestamp: Option<string>, extra: map<string, string>, memory: int, pod: int, target: int, now: string)
    requires pod >= target
    ensures MemoryRefresh(Some(EntryObject(Some("FAILED"), timestamp, extra)), memory, Some(pod), Some(target), now) ==
            Write(EntryObject(Some("COMPLETED"), Some(now), extra - {"requested_value"}), true)
  {
  }

  /** An entry without a status counts as PENDING, so it is always written
      once the target is known. */
  lemma MissingStatusIsPending(timestamp: Option<string>, extra: map<string, string>, memory: int, pod: Option<int>,
                               target: int, now: string)
    ensures MemoryRefresh(Some(EntryObject(None, timestamp, extra)), memory, pod, Some(target), now).Write?
  {
  }

  /** A second refresh with the same readings, after the first one's write,
      changes nothing. */
  lemma MemoryRefreshSettles(entry: Option<RawEntry>, memory: int, pod: Option<int>, target: Option<int>,
                             timestamp: string, later: string)
    requires MemoryRefresh(entry, memory, pod, target, timestamp).Write?
    ensures var w := MemoryRefresh(entry, memory, pod, target, timestamp);
      MemoryRefresh(Some(w.entry), if w.completed then target.value else memory, pod, target, later) == NoChange
  {
  }

  /** `_timestamp_now`: the clock in whole seconds, written with "Z". */
  function TimestampNow(now: int, render: P.IsoRenderer): string {
    P.NormalizeIsoTimestamp(None, now, render)
  }

  /** `refresh_memory_status`. The pod's memory (unknown when the pod or its
      quantity cannot be read), the VM's target memory, the clock and the ISO
      renderer and parser are given. */
  method RefreshMemoryStatus(b: Branch, pod: Option<int>, target: Option<int>, now: int,
                             render: P.IsoRenderer, parse: IsoParser)
    modifies b`resizeStatuses, b`resizeStatus, b`memory
    ensures match MemoryRefresh(Lookup(old(b.resizeStatuses), MemoryServiceKey), old(b.memory), pod, target,
                                TimestampNow(now, render))
      case NoChange =>
        b.resizeStatuses == old(b.resizeStatuses) && b.resizeStatus == old(b.resizeStatus) && b.memory == old(b.memory)
      case Write(e, completed) =>
        b.resizeStatuses == Put(old(b.resizeStatuses), MemoryServiceKey, e) &&
        b.resizeStatus == Aggregate(Some(Values(b.resizeStatuses)), parse) &&
        b.memory == (if completed then target.value else old(b.memory))
  {
    var outcome := MemoryRefresh(Lookup(b.resizeStatuses, MemoryServiceKey), b.memory, pod, target,
                                 TimestampNow(now, render));
    match outcome
    case NoChange =>
    case Write(e, completed) =>
      b.resizeStatuses := Put(b.resizeStatuses, MemoryServiceKey, e);
      b.resizeStatus := Aggregate(Some(Values(b.resizeStatuses)), parse);
      if completed {
        b.memory := target.value;
      }
  }
}
