/** The branch model: service statuses, the resize-status priority guard,
    timestamp parsing of resize entries, the latest-timestamp aggregation,
    `Branch.set_status`, the resource-usage snapshot and the `BranchCreate`
    validator. */
module BranchModel {
  import opened Common

  /** `BranchServiceStatus`, a string-valued enum. */
  datatype ServiceStatus =
    | ActiveHealthy | Stopped | Starting | ActiveUnhealthy | Creating | Deleting
    | Updating | Restarting | Stopping | Pausing | Paused | Resuming | Unknown
    | Error | Resizing

  function StatusValue(s: ServiceStatus): string {
    match s
    case ActiveHealthy => "ACTIVE_HEALTHY"
    case Stopped => "STOPPED"
    case Starting => "STARTING"
    case ActiveUnhealthy => "ACTIVE_UNHEALTHY"
    case Creating => "CREATING"
    case Deleting => "DELETING"
    case Updating => "UPDATING"
    case Restarting => "RESTARTING"
    case Stopping => "STOPPING"
    case Pausing => "PAUSING"
    case Paused => "PAUSED"
    case Resuming => "RESUMING"
    case Unknown => "UNKNOWN"
    case Error => "ERROR"
    case Resizing => "RESIZING"
  }

  /** The enum's value-to-member map. */
  function StatusFromValue(v: string): (r: Option<ServiceStatus>)
    ensures r.Some? ==> StatusValue(r.value) == v
  {
    if v == "ACTIVE_HEALTHY" then Some(ActiveHealthy)
    else if v == "STOPPED" then Some(Stopped)
    else if v == "STARTING" then Some(Starting)
    else if v == "ACTIVE_UNHEALTHY" then Some(ActiveUnhealthy)
    else if v == "CREATING" then Some(Creating)
    else if v == "DELETING" then Some(Deleting)
    else if v == "UPDATING" then Some(Updating)
    else if v == "RESTARTING" then Some(Restarting)
    else if v == "STOPPING" then Some(Stopping)
    else if v == "PAUSING" then Some(Pausing)
    else if v == "PAUSED" then Some(Paused)
    else if v == "RESUMING" then Some(Resuming)
    else if v == "UNKNOWN" then Some(Unknown)
    else if v == "ERROR" then Some(Error)
    else if v == "RESIZING" then Some(Resizing)
    else None
  }

  /** Every member is found again from its value, so the values are distinct. */
  lemma StatusValueRoundTrip(s: ServiceStatus)
    ensures StatusFromValue(StatusValue(s)) == Some(s)
  {
  }

  // ---------------------------------------------------------------------
  // Resize statuses

  /** The `BranchResizeStatus` literals. */
  datatype ResizeStatus = ResizeNone | Pending | ResizeInProgress | FilesystemResizePending | Completed | Failed

  function ResizeStatusName(s: ResizeStatus): string {
    match s
    case ResizeNone => "NONE"
    case Pending => "PENDING"
    case ResizeInProgress => "RESIZING"
    case FilesystemResizePending => "FILESYSTEM_RESIZE_PENDING"
    case Completed => "COMPLETED"
    case Failed => "FAILED"
  }

  /** Membership in `RESIZE_STATUS_PRIORITY`. */
  function ParseResizeStatus(text: string): (r: Option<ResizeStatus>)
    ensures r.Some? ==> ResizeStatusName(r.value) == text
  {
    if text == "NONE" then Some(ResizeNone)
    else if text == "PENDING" then Some(Pending)
    else if text == "RESIZING" then Some(ResizeInProgress)
    else if text == "FILESYSTEM_RESIZE_PENDING" then Some(FilesystemResizePending)
    else if text == "COMPLETED" then Some(Completed)
    else if text == "FAILED" then Some(Failed)
    else None
  }

  lemma ResizeStatusRoundTrip(s: ResizeStatus)
    ensures ParseResizeStatus(ResizeStatusName(s)) == Some(s)
  {
  }

  /** `RESIZE_STATUS_PRIORITY`. */
  function Priority(s: ResizeStatus): nat {
    match s
    case ResizeNone => 0
    case Pending => 1
    case ResizeInProgress => 2
    case FilesystemResizePending => 3
    case Completed => 4
    case Failed => 5
  }

  lemma PriorityInjective(a: ResizeStatus, b: ResizeStatus)
    ensures Priority(a) == Priority(b) ==> a == b
  {
  }

  /** `should_transition_resize_status`. */
  function ShouldTransition(current: Option<ResizeStatus>, proposed: string): bool {
    match ParseResizeStatus(proposed)
    case None => false
    case Some(p) =>
      if current == Some(p) then false
      else if p == Failed then true
      else if current.None? then true
      else Priority(p) >= Priority(current.value)
  }

  /** What the guard accepts, case by case: nothing outside the table, never
      the current status again, FAILED over anything else, anything over no
      status, and otherwise exactly a strictly higher priority. */
  lemma ShouldTransitionMeaning(current: Option<ResizeStatus>, proposed: string)
    ensures ParseResizeStatus(proposed).None? ==> !ShouldTransition(current, proposed)
    ensures ParseResizeStatus(proposed) == current ==> !ShouldTransition(current, proposed)
    ensures proposed == "FAILED" && current != Some(Failed) ==> ShouldTransition(current, proposed)
    ensures current.None? && ParseResizeStatus(proposed).Some? ==> ShouldTransition(current, proposed)
    ensures current.Some? && ParseResizeStatus(proposed).Some? ==>
              (ShouldTransition(current, proposed) <==>
                 Priority(ParseResizeStatus(proposed).value) > Priority(current.value))
  {
    if current.Some? && ParseResizeStatus(proposed).Some? {
      PriorityInjective(ParseResizeStatus(proposed).value, current.value);
    }
  }

  /** FAILED is absorbing: once reached, no proposal replaces it. */
  lemma FailedIsAbsorbing(proposed: string)
    ensures !ShouldTransition(Some(Failed), proposed)
  {
  }

  // ---------------------------------------------------------------------
  // Resize entries and their timestamps

  /** What `datetime.fromisoformat` yields: local seconds and, for an aware
      value, its UTC offset in seconds. */
  datatype IsoDatetime = IsoDatetime(local: int, offset: Option<int>)

  /** The ISO-8601 parser is a library call; `None` stands for its ValueError. */
  type IsoParser = string -> Option<IsoDatetime>

  /** Seconds since the epoch, in UTC, of a parsed value; a naive value is
      taken to be UTC. */
  function UtcSeconds(d: IsoDatetime): int {
    match d.offset
    case None => d.local
    case Some(off) => d.local - off
  }

  /** `BranchResizeStatusEntry.timestamp_as_datetime`. */
  function TimestampAsDatetime(value: string, parse: IsoParser): (t: int)
    ensures value == "" ==> t == DatetimeMin
  {
    if value == "" then DatetimeMin
    else
      var normalized := if EndsWith(value, "Z") then value[..|value| - 1] + "+00:00" else value;
      match parse(normalized)
      case None => DatetimeMin
      case Some(d) => UtcSeconds(d)
  }

  /** A trailing 'Z' means exactly the same instant as "+00:00". */
  lemma ZuluIsUtc(s: string, parse: IsoParser)
    ensures TimestampAsDatetime(s + "Z", parse) == TimestampAsDatetime(s + "+00:00", parse)
  {
    var z := s + "Z";
    assert EndsWith(z, "Z");
    assert z[..|z| - 1] == s;
    var u := s + "+00:00";
    assert u[|u| - 1] == '0';
    assert !EndsWith(u, "Z");
  }

  /** An unparseable value falls back to `datetime.min`. */
  lemma UnparseableIsMin(value: string, parse: IsoParser)
    requires !EndsWith(value, "Z") && parse(value).None?
    ensures TimestampAsDatetime(value, parse) == DatetimeMin
  {
  }

  /** A validated `BranchResizeStatusEntry`. */
  datatype ResizeEntry = ResizeEntry(status: ResizeStatus, timestamp: string)

  /** A value of the per-service map: an entry object, a JSON object with
      (possibly missing) `status` and `timestamp` members and its other
      members, JSON `null`, or anything else. */
  datatype RawEntry =
    | TypedEntry(entry: ResizeEntry)
    | EntryObject(status: Option<string>, timestamp: Option<string>, extra: map<string, string>)
    | NullEntry
    | NotAnObject

  /** `BranchResizeStatusEntry.model_validate`; `None` is its ValidationError.
      Extra members are allowed and ignored. */
  function ValidateEntry(e: RawEntry): (r: Option<ResizeEntry>)
    ensures e.NotAnObject? || e.NullEntry? ==> r.None?
    ensures e.EntryObject? ==>
              (r.Some? <==> e.timestamp.Some? && e.status.Some? && ParseResizeStatus(e.status.value).Some?)
    ensures e.EntryObject? && r.Some? ==>
              ResizeStatusName(r.value.status) == e.status.value && r.value.timestamp == e.timestamp.value
  {
    match e
    case TypedEntry(entry) => Some(entry)
    case EntryObject(s, t, _) =>
      if s.Some? && t.Some? && ParseResizeStatus(s.value).Some? then
        Some(ResizeEntry(ParseResizeStatus(s.value).value, t.value))
      else None
    case NullEntry => None
    case NotAnObject => None
  }

  function EntryTime(e: ResizeEntry, parse: IsoParser): int {
    TimestampAsDatetime(e.timestamp, parse)
  }

  /** One iteration of the aggregation loop over `(highest, highest_timestamp)`. */
  function AggregateStep(acc: (ResizeStatus, int), e: RawEntry, parse: IsoParser): (ResizeStatus, int) {
    match ValidateEntry(e)
    case None => acc
    case Some(snap) =>
      var ts := EntryTime(snap, parse);
      if ts > acc.1 || (ts == acc.1 && ShouldTransition(Some(acc.0), ResizeStatusName(snap.status))) then
        (snap.status, ts)
      else acc
  }

  /** The loop state after the given values, in map order. */
  function AggregateFrom(entries: seq<RawEntry>, parse: IsoParser): (ResizeStatus, int) {
    if entries == [] then (ResizeNone, DatetimeMin)
    else AggregateStep(AggregateFrom(entries[..|entries| - 1], parse), entries[|entries| - 1], parse)
  }

  /** `aggregate_resize_statuses`, with the map given by its values in order. */
  function Aggregate(statuses: Option<seq<RawEntry>>, parse: IsoParser): ResizeStatus {
    if statuses.None? || statuses.value == [] then ResizeNone
    else AggregateFrom(statuses.value, parse).0
  }

  predicate IsValidAt(entries: seq<RawEntry>, j: int) {
    0 <= j < |entries| && ValidateEntry(entries[j]).Some?
  }

  function TimeAt(entries: seq<RawEntry>, j: int, parse: IsoParser): int
    requires IsValidAt(entries, j)
  {
    EntryTime(ValidateEntry(entries[j]).value, parse)
  }

  /** The running maximum: the loop's timestamp is at least `datetime.min` and
      every valid entry's timestamp, and the loop's status is either the
      initial NONE at `datetime.min` or the status of a valid entry carrying
      exactly that timestamp. */
  lemma {:induction false} AggregateIsLatest(entries: seq<RawEntry>, parse: IsoParser)
    ensures var (s, t) := AggregateFrom(entries, parse);
      t >= DatetimeMin &&
      (forall j :: IsValidAt(entries, j) ==> TimeAt(entries, j, parse) <= t) &&
      ((s, t) == (ResizeNone, DatetimeMin) ||
       exists j :: IsValidAt(entries, j) && TimeAt(entries, j, parse) == t &&
                   ValidateEntry(entries[j]).value.status == s)
  {
    if entries != [] {
      var n := |entries| - 1;
      var init := entries[..n];
      AggregateIsLatest(init, parse);
      var (s0, t0) := AggregateFrom(init, parse);
      forall j | IsValidAt(init, j)
        ensures IsValidAt(entries, j) && TimeAt(entries, j, parse) == TimeAt(init, j, parse)
      {
        assert init[j] == entries[j];
      }
      var (s, t) := AggregateFrom(entries, parse);
      if (s, t) != (s0, t0) {
        assert IsValidAt(entries, n) && TimeAt(entries, n, parse) == t;
        assert ValidateEntry(entries[n]).value.status == s;
      } else if (s0, t0) != (ResizeNone, DatetimeMin) {
        var j :| IsValidAt(init, j) && TimeAt(init, j, parse) == t0 &&
                 ValidateEntry(init[j]).value.status == s0;
        assert init[j] == entries[j];
      }
      forall j | IsValidAt(entries, j)
        ensures TimeAt(entries, j, parse) <= t
      {
        if j < n {
          assert init[j] == entries[j];
          assert IsValidAt(init, j);
        }
      }
    }
  }

  /** A valid entry whose timestamp is strictly later than every other valid
      entry's decides the aggregate, wherever it sits in the map. */
  lemma StrictlyLatestWins(entries: seq<RawEntry>, i: int, parse: IsoParser)
    requires IsValidAt(entries, i) && TimeAt(entries, i, parse) >= DatetimeMin
    requires forall j :: IsValidAt(entries, j) && j != i ==> TimeAt(entries, j, parse) < TimeAt(entries, i, parse)
    ensures Aggregate(Some(entries), parse) == ValidateEntry(entries[i]).value.status
  {
    LatestFrom(entries, i, |entries|, parse);
    assert entries[..|entries|] == entries;
  }

  /** Right after the strictly latest entry the loop holds its status and
      timestamp. */
  lemma LatestAtItself(entries: seq<RawEntry>, i: int, parse: IsoParser)
    requires IsValidAt(entries, i) && TimeAt(entries, i, parse) >= DatetimeMin
    requires forall j :: IsValidAt(entries, j) && j != i ==> TimeAt(entries, j, parse) < TimeAt(entries, i, parse)
    ensures AggregateFrom(entries[..i + 1], parse).0 == ValidateEntry(entries[i]).value.status
    ensures AggregateFrom(entries[..i + 1], parse).1 == TimeAt(entries, i, parse)
  {
    var si := ValidateEntry(entries[i]).value.status;
    var ti := TimeAt(entries, i, parse);
    var init := entries[..i];
    assert entries[..i + 1][..i] == init;
    assert entries[..i + 1][i] == entries[i];
    AggregateIsLatest(init, parse);
    var (s0, t0) := AggregateFrom(init, parse);
    if t0 >= ti {
      // t0 cannot be an earlier entry's timestamp, so it is the initial state.
      if (s0, t0) != (ResizeNone, DatetimeMin) {
        var j :| IsValidAt(init, j) && TimeAt(init, j, parse) == t0 &&
                 ValidateEntry(init[j]).value.status == s0;
        assert init[j] == entries[j];
        assert IsValidAt(entries, j) && j != i;
        assert false;
      }
      ResizeStatusRoundTrip(si);
    }
  }

  lemma {:induction false} LatestFrom(entries: seq<RawEntry>, i: int, n: int, parse: IsoParser)
    requires IsValidAt(entries, i) && TimeAt(entries, i, parse) >= DatetimeMin
    requires forall j :: IsValidAt(entries, j) && j != i ==> TimeAt(entries, j, parse) < TimeAt(entries, i, parse)
    requires i < n <= |entries|
    ensures AggregateFrom(entries[..n], parse).0 == ValidateEntry(entries[i]).value.status
    ensures AggregateFrom(entries[..n], parse).1 == TimeAt(entries, i, parse)
    decreases n
  {
    if n == i + 1 {
      LatestAtItself(entries, i, parse);
    } else {
      var pre := entries[..n];
      assert pre[..n - 1] == entries[..n - 1];
      assert pre[n - 1] == entries[n - 1];
      LatestFrom(entries, i, n - 1, parse);
      if IsValidAt(entries, n - 1) {
        assert TimeAt(entries, n - 1, parse) < TimeAt(entries, i, parse);
      }
    }
  }

  /** The aggregation loop as written, with its running variables. */
  method AggregateResizeStatuses(statuses: Option<seq<RawEntry>>, parse: IsoParser) returns (highest: ResizeStatus)
    ensures highest == Aggregate(statuses, parse)
  {
    highest := ResizeNone;
    if statuses.None? || statuses.value == [] {
      return;
    }
    var entries := statuses.value;
    var highestTimestamp := DatetimeMin;
    var i := 0;
    while i < |entries|
      invariant 0 <= i <= |entries|
      invariant (highest, highestTimestamp) == AggregateFrom(entries[..i], parse)
    {
      assert entries[..i + 1][..i] == entries[..i];
      var snapshot := ValidateEntry(entries[i]);
      if snapshot.Some? {
        var status := snapshot.value.status;
        var timestamp := TimestampAsDatetime(snapshot.value.timestamp, parse);
        if timestamp > highestTimestamp ||
           (timestamp == highestTimestamp && ShouldTransition(Some(highest), ResizeStatusName(status))) {
          highest := status;
          highestTimestamp := timestamp;
        }
      }
      i := i + 1;
    }
    assert entries[..|entries|] == entries;
  }

  // ---------------------------------------------------------------------
  // Branch.set_status and the constructor

  // ---------------------------------------------------------------------
  // The per-service resize map of a branch row

  /** `Branch.resize_statuses`: a JSON object, given by its members in
      insertion order. */
  type ResizeStatuses = seq<(string, RawEntry)>

  predicate DistinctKeys(d: ResizeStatuses) {
    forall i, j :: 0 <= i < j < |d| ==> d[i].0 != d[j].0
  }

  /** `d.get(key)`. */
  function Lookup(d: ResizeStatuses, key: string): (r: Option<RawEntry>)
    ensures r.None? <==> forall i :: 0 <= i < |d| ==> d[i].0 != key
  {
    if d == [] then None
    else if d[0].0 == key then Some(d[0].1)
    else
      assert forall i :: 1 <= i < |d| ==> d[i] == d[1..][i - 1];
      Lookup(d[1..], key)
  }

  /** `d[key] = value`: an existing member keeps its place, a new one is
      appended. */
  function Put(d: ResizeStatuses, key: string, value: RawEntry): (r: ResizeStatuses)
  {
    if d == [] then [(key, value)]
    else if d[0].0 == key then [(key, value)] + d[1..]
    else [d[0]] + Put(d[1..], key, value)
  }

  /** The dictionary's values, in order, as `aggregate_resize_statuses` sees
      them. */
  function Values(d: ResizeStatuses): (r: seq<RawEntry>)
    ensures |r| == |d| && forall i :: 0 <= i < |d| ==> r[i] == d[i].1
  {
    if d == [] then [] else [d[0].1] + Values(d[1..])
  }

  /** After `d[key] = value` the key maps to the value and every other key
      is unchanged. */
  lemma {:induction false} PutLookup(d: ResizeStatuses, key: string, value: RawEntry, k: string)
    ensures Lookup(Put(d, key, value), key) == Some(value)
    ensures k != key ==> Lookup(Put(d, key, value), k) == Lookup(d, k)
  {
    if d != [] && d[0].0 != key {
      PutLookup(d[1..], key, value, k);
    }
  }

  /** With distinct keys every member is found by its key. */
  lemma {:induction false} LookupAt(d: ResizeStatuses, j: int)
    requires DistinctKeys(d) && 0 <= j < |d|
    ensures Lookup(d, d[j].0) == Some(d[j].1)
  {
    if j > 0 {
      assert DistinctKeys(d[1..]);
      LookupAt(d[1..], j - 1);
    }
  }

  /** A key that is found belongs to some member. */
  lemma {:induction false} LookupIndex(d: ResizeStatuses, key: string)
    requires Lookup(d, key).Some?
    ensures exists i :: 0 <= i < |d| && d[i] == (key, Lookup(d, key).value)
  {
    if d[0].0 != key {
      LookupIndex(d[1..], key);
      var i :| 0 <= i < |d[1..]| && d[1..][i] == (key, Lookup(d[1..], key).value);
      assert d[i + 1] == d[1..][i];
    }
  }

  /** An existing key is overwritten in place; a new key is appended. */
  lemma {:induction false} PutShape(d: ResizeStatuses, key: string, value: RawEntry)
    ensures Lookup(d, key).Some? ==> |Put(d, key, value)| == |d|
    ensures Lookup(d, key).None? ==> Put(d, key, value) == d + [(key, value)]
  {
    if d != [] && d[0].0 != key {
      PutShape(d[1..], key, value);
      assert d == [d[0]] + d[1..];
    }
  }

  /** The keys after `d[key] = value` are the keys before plus `key`. */
  lemma {:induction false} PutKeys(d: ResizeStatuses, key: string, value: RawEntry)
    ensures forall j :: 0 <= j < |Put(d, key, value)| ==>
              Put(d, key, value)[j].0 == key || Lookup(d, Put(d, key, value)[j].0).Some?
  {
    if d != [] && d[0].0 != key {
      PutKeys(d[1..], key, value);
      var r := Put(d, key, value);
      forall j | 0 < j < |r|
        ensures r[j].0 == key || Lookup(d, r[j].0).Some?
      {
        assert r[j] == Put(d[1..], key, value)[j - 1];
      }
    }
  }

  /** Writing a member keeps the keys distinct. */
  lemma {:induction false} PutDistinct(d: ResizeStatuses, key: string, value: RawEntry)
    requires DistinctKeys(d)
    ensures DistinctKeys(Put(d, key, value))
  {
    if d != [] && d[0].0 != key {
      PutDistinct(d[1..], key, value);
      PutKeys(d[1..], key, value);
      var rest := Put(d[1..], key, value);
      var r := [d[0]] + rest;
      forall j | 0 < j < |r|
        ensures r[0].0 != r[j].0
      {
        assert r[j] == rest[j - 1];
      }
      assert DistinctKeys(r);
    }
  }

  /** An argument of `set_status`: an enum member or any other value, given
      by its `str()`. */
  datatype StatusInput = Member(member: ServiceStatus) | Text(text: string)

  function ParseStatusInput(s: StatusInput): (r: ServiceStatus)
    ensures s.Text? && StatusFromValue(s.text).None? ==> r == Unknown
    ensures s.Text? && StatusFromValue(s.text).Some? ==> StatusValue(r) == s.text
  {
    match s
    case Member(m) => m
    case Text(t) => StatusFromValue(t).GetOr(Unknown)
  }

  /** The raw attribute value a status field holds before `set_status`. */
  function RawValue(s: StatusInput): string {
    match s
    case Member(m) => StatusValue(m)
    case Text(t) => t
  }

  /** The fields of a branch row that the status and resize paths update. A
      `str`-valued enum compares equal to its value, so `status` holds the
      value string. */
  class Branch {
    var status: Option<string>
    var statusUpdatedAt: Option<int>
    var resizeStatus: ResizeStatus
    var resizeStatuses: ResizeStatuses
    var databaseSize: int
    var storageSize: Option<int>
    var memory: int
    var enableFileStorage: bool

    /** `Branch.__init__`: a status given without a timestamp is normalised
        through `set_status` with a forced timestamp; a branch built without a
        status holds the field default "UNKNOWN". */
    constructor(status: Option<StatusInput>, statusUpdatedAt: Option<int>, now: int)
      ensures status.Some? && statusUpdatedAt.None? ==>
                this.status == Some(StatusValue(ParseStatusInput(status.value))) && this.statusUpdatedAt == Some(now)
      ensures status.Some? && statusUpdatedAt.Some? ==>
                this.status == Some(RawValue(status.value)) && this.statusUpdatedAt == statusUpdatedAt
      ensures status.None? ==> this.status == Some(StatusValue(Unknown)) && this.statusUpdatedAt == statusUpdatedAt
    {
      this.status := Some(if status.Some? then RawValue(status.value) else StatusValue(Unknown));
      this.statusUpdatedAt := statusUpdatedAt;
      new;
      if status.Some? && statusUpdatedAt.None? {
        SetStatus(status.value, true, now);
      }
    }

    /** `Branch.set_status`. */
    method SetStatus(s: StatusInput, forceTimestamp: bool, now: int)
      modifies this`status, this`statusUpdatedAt
      ensures var v := StatusValue(ParseStatusInput(s));
        if !forceTimestamp && old(status) == Some(v) then
          status == old(status) && statusUpdatedAt == old(statusUpdatedAt)
        else
          status == Some(v) && statusUpdatedAt == Some(now)
    {
      var parsed := ParseStatusInput(s);
      if !forceTimestamp && status == Some(StatusValue(parsed)) {
        return;
      }
      status := Some(StatusValue(parsed));
      statusUpdatedAt := Some(now);
    }
  }

  /** After `set_status` the field always holds a member's value. */
  lemma SetStatusNormalises(s: StatusInput)
    ensures StatusFromValue(StatusValue(ParseStatusInput(s))) == Some(ParseStatusInput(s))
  {
    StatusValueRoundTrip(ParseStatusInput(s));
  }

  // ---------------------------------------------------------------------
  // Resource usage

  /** `ResourceUsageDefinition`. */
  datatype ResourceUsage = ResourceUsage(milliVcpu: int, ramBytes: int, nvmeBytes: int, iops: int, storageBytes: Option<int>)

  const Int32Max: int := 0x7FFF_FFFF

  /** The field constraints of `ResourceUsageDefinition`. */
  predicate ValidUsage(u: ResourceUsage) {
    0 <= u.milliVcpu <= Int32Max && 0 <= u.ramBytes && 0 <= u.nvmeBytes && 0 <= u.iops <= Int32Max &&
    (u.storageBytes.Some? ==> u.storageBytes.value >= 0)
  }

  /** The JSON payload; a key mapped to `None` holds JSON null. */
  type UsagePayload = map<string, Option<int>>

  function PayloadGet(p: UsagePayload, key: string): Option<int> {
    if key in p then p[key] else None
  }

  /** `int(payload.get(key) or 0)`. */
  function IntOrZero(v: Option<int>): (r: int)
    ensures v.None? ==> r == 0
    ensures v.Some? ==> r == v.value
  {
    if v.None? || v.value == 0 then 0 else v.value
  }

  /** `Branch.resource_usage_snapshot`; a value the definition's constraints
      refuse gives its ValidationError. */
  function ResourceUsageSnapshot(payload: Option<UsagePayload>): (r: Result<ResourceUsage>)
    ensures r.Ok? ==> ValidUsage(r.value) && r.value.storageBytes == PayloadGet(payload.GetOr(map[]), "storage_bytes")
    ensures r.Ok? ==> forall k :: (k in ["milli_vcpu", "ram_bytes", "nvme_bytes", "iops"] && payload.Some? &&
                                   k in payload.value && payload.value[k].Some?) ==> payload.value[k].value >= 0
  {
    var p := payload.GetOr(map[]);
    var u := ResourceUsage(
      IntOrZero(PayloadGet(p, "milli_vcpu")),
      IntOrZero(PayloadGet(p, "ram_bytes")),
      IntOrZero(PayloadGet(p, "nvme_bytes")),
      IntOrZero(PayloadGet(p, "iops")),
      PayloadGet(p, "storage_bytes"));
    if ValidUsage(u) then Ok(u) else Err(Raised("ValidationError", "resource usage out of range"))
  }

  /** `Branch.store_resource_usage`: the definition's `model_dump`. */
  function StoreResourceUsage(u: ResourceUsage): UsagePayload {
    map["milli_vcpu" := Some(u.milliVcpu), "ram_bytes" := Some(u.ramBytes), "nvme_bytes" := Some(u.nvmeBytes),
        "iops" := Some(u.iops), "storage_bytes" := u.storageBytes]
  }

  /** Storing a valid usage and taking a snapshot gives the same usage back. */
  lemma SnapshotOfStored(u: ResourceUsage)
    requires ValidUsage(u)
    ensures ResourceUsageSnapshot(Some(StoreResourceUsage(u))) == Ok(u)
  {
  }

  /** `_default_resource_usage_payload`, and a missing payload, both read as
      zero usage with no storage figure. */
  lemma DefaultPayloadSnapshot()
    ensures ResourceUsageSnapshot(None) == Ok(ResourceUsage(0, 0, 0, 0, None))
    ensures ResourceUsageSnapshot(Some(map["milli_vcpu" := Some(0), "ram_bytes" := Some(0), "nvme_bytes" := Some(0),
                                           "iops" := Some(0), "storage_bytes" := None]))
            == Ok(ResourceUsage(0, 0, 0, 0, None))
  {
  }

  // ---------------------------------------------------------------------
  // BranchCreate

  /** The presence of the three mutually exclusive `BranchCreate` fields. */
  datatype CreateSources = CreateSources(source: bool, deployment: bool, restore: bool)

  function CountProvided(c: CreateSources): nat {
    (if c.source then 1 else 0) + (if c.deployment then 1 else 0) + (if c.restore then 1 else 0)
  }

  /** `BranchCreate._validate_source_or_deployment`. */
  function ValidateBranchCreate(c: CreateSources): (r: Result<CreateSources>)
    ensures r.Ok? <==> (c.source && !c.deployment && !c.restore) ||
                       (!c.source && c.deployment && !c.restore) ||
                       (!c.source && !c.deployment && c.restore)
    ensures r.Ok? ==> r.value == c
    ensures r.Err? ==> r.failure == ValidatorFailure("Provide exactly one of source, deployment, or restore")
  {
    if CountProvided(c) != 1 then Err(ValidatorFailure("Provide exactly one of source, deployment, or restore"))
    else Ok(c)
  }
}
