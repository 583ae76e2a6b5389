/** The resize monitor's effect on branch rows: how an accepted PVC event
    updates the per-service resize map, the aggregate resize status, the
    service status and the provisioned sizes, and the start/stop wrapper of
    the monitor task. */
module ResizeMonitor {
  import opened Common
  import opened BranchModel
  import H = Health
  import RL = ResourceLimit
  import D = Deployment
  import P = PvcResize

  /** `VOLUME_SERVICE_MAP.get(resource) if resource else None`. */
  function ServiceKey(resource: Option<string>): (r: Option<string>)
    ensures r == Some("database_disk_resize") <==> resource == Some("database")
    ensures r == Some("storage_api_disk_resize") <==> resource == Some("storage")
    ensures r.None? <==> resource != Some("database") && resource != Some("storage")
  {
    if resource == Some("database") then Some("database_disk_resize")
    else if resource == Some("storage") then Some("storage_api_disk_resize")
    else None
  }

  /** The current status of a service entry: only an object whose status is
      a known resize status counts; anything else is no status. */
  function EntryStatus(e: Option<RawEntry>): (r: Option<ResizeStatus>)
    ensures r.Some? <==> e.Some? && e.value.EntryObject? && e.value.status.Some? &&
                         ParseResizeStatus(e.value.status.value).Some?
    ensures r.Some? ==> ResizeStatusName(r.value) == e.value.status.value
  {
    if e.Some? && e.value.EntryObject? && e.value.status.Some? then ParseResizeStatus(e.value.status.value)
    else None
  }

  /** The entry `_apply_volume_status` writes. */
  function WrittenEntry(status: ResizeStatus, timestamp: string): RawEntry {
    EntryObject(Some(ResizeStatusName(status)), Some(timestamp), map[])
  }

  /** The resize fields of a branch after an event: whether the guard
      accepted the status, the per-service map and the aggregate status. */
  datatype ResizeUpdate = ResizeUpdate(accepted: bool, statuses: ResizeStatuses, resizeStatus: ResizeStatus)

  /** The resize-field part of `_apply_volume_status`. */
  function VolumeStatusUpdate(statuses: ResizeStatuses, resizeStatus: ResizeStatus, status: Option<ResizeStatus>,
                              timestamp: string, resource: Option<string>, parse: IsoParser): (u: ResizeUpdate)
  {
    var key := ServiceKey(resource);
    if status.Some? && key.Some? then
      if ShouldTransition(EntryStatus(Lookup(statuses, key.value)), ResizeStatusName(status.value)) then
        var written := Put(statuses, key.value, WrittenEntry(status.value, timestamp));
        ResizeUpdate(true, written, Aggregate(Some(Values(written)), parse))
      else ResizeUpdate(false, statuses, resizeStatus)
    else if status.Some? && ShouldTransition(Some(resizeStatus), ResizeStatusName(status.value)) then
      ResizeUpdate(true, statuses, status.value)
    else ResizeUpdate(false, statuses, resizeStatus)
  }

  /** An event for a known service is accepted exactly when the guard
      accepts it over that service's entry; it then writes the entry, keeps
      every other service's entry and recomputes the aggregate. An event
      without a service is accepted exactly when the guard accepts it over
      the branch's resize status, which it then replaces. A rejected event
      changes nothing. */
  lemma VolumeStatusUpdateMeaning(statuses: ResizeStatuses, resizeStatus: ResizeStatus, status: Option<ResizeStatus>,
                                  timestamp: string, resource: Option<string>, parse: IsoParser, other: string)
    ensures var u := VolumeStatusUpdate(statuses, resizeStatus, status, timestamp, resource, parse);
      var key := ServiceKey(resource);
      (status.None? ==> !u.accepted) &&
      (!u.accepted ==> u.statuses == statuses && u.resizeStatus == resizeStatus) &&
      (status.Some? && key.Some? ==>
         (u.accepted <==> ShouldTransition(EntryStatus(Lookup(statuses, key.value)), ResizeStatusName(status.value))) &&
         (u.accepted ==>
            Lookup(u.statuses, key.value) == Some(WrittenEntry(status.value, timestamp)) &&
            (other != key.value ==> Lookup(u.statuses, other) == Lookup(statuses, other)) &&
            u.resizeStatus == Aggregate(Some(Values(u.statuses)), parse))) &&
      (status.Some? && key.None? ==>
         (u.accepted <==> ShouldTransition(Some(resizeStatus), ResizeStatusName(status.value))) &&
         (u.accepted ==> u.statuses == statuses && u.resizeStatus == status.value))
  {
    var key := ServiceKey(resource);
    if status.Some? && key.Some? {
      PutLookup(statuses, key.value, WrittenEntry(status.value, timestamp), other);
    }
  }

  /** A service whose entry is FAILED keeps it: no later event for that
      service is accepted. */
  lemma FailedEntryIsFinal(statuses: ResizeStatuses, resizeStatus: ResizeStatus, status: ResizeStatus,
                           timestamp: string, resource: Option<string>, parse: IsoParser)
    requires ServiceKey(resource).Some?
    requires EntryStatus(Lookup(statuses, ServiceKey(resource).value)) == Some(Failed)
    ensures VolumeStatusUpdate(statuses, resizeStatus, Some(status), timestamp, resource, parse) ==
            ResizeUpdate(false, statuses, resizeStatus)
  {
    FailedIsAbsorbing(ResizeStatusName(status));
  }

  /** An accepted entry never lowers the service's priority, except that
      nothing at all is replaced once FAILED. */
  lemma AcceptedRaisesPriority(statuses: ResizeStatuses, resizeStatus: ResizeStatus, status: ResizeStatus,
                               timestamp: string, resource: Option<string>, parse: IsoParser)
    requires ServiceKey(resource).Some?
    requires VolumeStatusUpdate(statuses, resizeStatus, Some(status), timestamp, resource, parse).accepted
    ensures var before := EntryStatus(Lookup(statuses, ServiceKey(resource).value));
      before != Some(status) &&
      (before.Some? ==> Priority(status) > Priority(before.value))
  {
    var before := EntryStatus(Lookup(statuses, ServiceKey(resource).value));
    ResizeStatusRoundTrip(status);
    ShouldTransitionMeaning(before, ResizeStatusName(status));
  }

  /** When the written entry is strictly later than every other valid entry,
      the branch's aggregate resize status is the event's status. */
  lemma LatestEventDecidesAggregate(statuses: ResizeStatuses, resizeStatus: ResizeStatus, status: ResizeStatus,
                                    timestamp: string, resource: Option<string>, parse: IsoParser)
    requires DistinctKeys(statuses)
    requires ServiceKey(resource).Some?
    requires VolumeStatusUpdate(statuses, resizeStatus, Some(status), timestamp, resource, parse).accepted
    requires TimestampAsDatetime(timestamp, parse) >= DatetimeMin
    requires forall k :: k != ServiceKey(resource).value && Lookup(statuses, k).Some? &&
                         ValidateEntry(Lookup(statuses, k).value).Some? ==>
                           EntryTime(ValidateEntry(Lookup(statuses, k).value).value, parse) < TimestampAsDatetime(timestamp, parse)
    ensures VolumeStatusUpdate(statuses, resizeStatus, Some(status), timestamp, resource, parse).resizeStatus == status
  {
    var key := ServiceKey(resource).value;
    var entry := WrittenEntry(status, timestamp);
    var written := Put(statuses, key, entry);
    PutDistinct(statuses, key, entry);
    PutLookup(statuses, key, entry, key);
    LookupIndex(written, key);
    var i :| 0 <= i < |written| && written[i] == (key, entry);
    var values := Values(written);
    ResizeStatusRoundTrip(status);
    assert ValidateEntry(values[i]) == Some(ResizeEntry(status, timestamp));
    forall j | IsValidAt(values, j) && j != i
      ensures TimeAt(values, j, parse) < TimeAt(values, i, parse)
    {
      OtherEntryIsOlder(statuses, key, entry, status, timestamp, parse, i, j);
    }
    StrictlyLatestWins(values, i, parse);
  }

  /** Any other valid entry of the written statuses is older than the
      event's. */
  lemma OtherEntryIsOlder(statuses: ResizeStatuses, key: string, entry: RawEntry, status: ResizeStatus,
                          timestamp: string, parse: IsoParser, i: int, j: int)
    requires DistinctKeys(statuses)
    requires entry == WrittenEntry(status, timestamp)
    requires 0 <= i < |Put(statuses, key, entry)| && Put(statuses, key, entry)[i] == (key, entry)
    requires ValidateEntry(Values(Put(statuses, key, entry))[i]) == Some(ResizeEntry(status, timestamp))
    requires IsValidAt(Values(Put(statuses, key, entry)), j) && j != i
    requires forall k :: k != key && Lookup(statuses, k).Some? &&
                         ValidateEntry(Lookup(statuses, k).value).Some? ==>
                           EntryTime(ValidateEntry(Lookup(statuses, k).value).value, parse) < TimestampAsDatetime(timestamp, parse)
    ensures TimeAt(Values(Put(statuses, key, entry)), j, parse) < TimeAt(Values(Put(statuses, key, entry)), i, parse)
  {
    var written := Put(statuses, key, entry);
    var values := Values(written);
    PutDistinct(statuses, key, entry);
    var k := written[j].0;
    assert k != key;
    LookupAt(written, j);
    PutLookup(statuses, key, entry, k);
    assert Lookup(statuses, k) == Some(values[j]);
  }

  // ---------------------------------------------------------------------
  // The branch rows and the session

  /** The rows an event can touch: branches by id, and the provisioning
      table with its audit log. */
  class Session {
    var branches: map<Ulid, Branch>
    var provisioning: seq<RL.Provisioning>
    var logs: seq<RL.ProvisioningLog>
  }

  /** The branch row with the given id, as a frame. */
  function Row(session: Session, id: Option<Ulid>): set<Branch>
    reads session
  {
    if id.Some? && id.value in session.branches then {session.branches[id.value]} else {}
  }

  /** The status the monitor's health reading gives the branch. */
  function HealthStatus(health: Option<H.MonitorStatus>, storageEnabled: bool): ServiceStatus {
    H.DeriveBranchStatus(H.CollectBranchServiceHealth(health), storageEnabled)
  }

  /** `set_branch_status`'s effect: a FAILED or COMPLETED resize status
      re-derives the service status through `set_status`; any other leaves
      it alone. */
  twostate predicate ServiceStatusRefreshed(b: Branch, resize: ResizeStatus, health: Option<H.MonitorStatus>, now: int)
    reads b`status, b`statusUpdatedAt, b`enableFileStorage
  {
    var v := StatusValue(HealthStatus(health, old(b.enableFileStorage)));
    if (resize == Failed || resize == Completed) && old(b.status) != Some(v) then
      b.status == Some(v) && b.statusUpdatedAt == Some(now)
    else
      b.status == old(b.status) && b.statusUpdatedAt == old(b.statusUpdatedAt)
  }

  /** `set_branch_status`. The health reading of the branch's VM is given. */
  method SetBranchStatus(status: ResizeStatus, branch: Branch, health: Option<H.MonitorStatus>, now: int)
    modifies branch`status, branch`statusUpdatedAt
    ensures ServiceStatusRefreshed(branch, status, health, now)
  {
    if status != Failed && status != Completed {
      return;
    }
    var derived := HealthStatus(health, branch.enableFileStorage);
    branch.SetStatus(Member(derived), false, now);
  }

  /** `ResourceLimitsPublic` carrying only the size of the resized volume. */
  function SizeRequest(resource: string, capacity: int): (r: RL.ResourceLimits)
    requires resource == "storage" || resource == "database"
    ensures forall t :: r.Get(t).Some? <==> RL.ResourceName(t) == resource + "_size"
    ensures forall t :: r.Get(t).Some? ==> r.Get(t) == Some(capacity)
  {
    if resource == "storage" then RL.ResourceLimits(None, None, None, None, Some(capacity))
    else RL.ResourceLimits(None, None, None, Some(capacity), None)
  }

  /** The size fields and the provisioning rows after an event: a recorded
      size replaces the volume's size field and is upserted as the branch's
      provisioning, with its audit log; otherwise neither changes. */
  twostate predicate SizeApplied(session: Session, b: Branch, id: Ulid, record: bool, resource: Option<string>,
                                 capacity: Option<int>, now: int)
    reads session`provisioning, session`logs, b`storageSize, b`databaseSize
  {
    if record && capacity.Some? && (resource == Some("storage") || resource == Some("database")) then
      var request := RL.ResourceLimitsToDict(SizeRequest(resource.value, capacity.value));
      session.provisioning == RL.UpsertAll(old(session.provisioning), id, request, now) &&
      session.logs == old(session.logs) + RL.UpsertLogs(old(session.provisioning), id, request, now) &&
      (if resource == Some("storage") then
         b.storageSize == Some(capacity.value) && b.databaseSize == old(b.databaseSize)
       else
         b.databaseSize == capacity.value && b.storageSize == old(b.storageSize))
    else
      session.provisioning == old(session.provisioning) && session.logs == old(session.logs) &&
      b.storageSize == old(b.storageSize) && b.databaseSize == old(b.databaseSize)
  }

  /** The resize and status fields after an event: an accepted event stores
      the new map and aggregate and refreshes the service status from it; a
      rejected one changes none of them. */
  twostate predicate ResizeApplied(b: Branch, u: ResizeUpdate, health: Option<H.MonitorStatus>, now: int)
    reads b`resizeStatuses, b`resizeStatus, b`status, b`statusUpdatedAt, b`enableFileStorage
  {
    if u.accepted then
      b.resizeStatuses == u.statuses && b.resizeStatus == u.resizeStatus &&
      ServiceStatusRefreshed(b, u.resizeStatus, health, now)
    else
      b.resizeStatuses == old(b.resizeStatuses) && b.resizeStatus == old(b.resizeStatus) &&
      b.status == old(b.status) && b.statusUpdatedAt == old(b.statusUpdatedAt)
  }

  /** The whole effect of `_apply_volume_status` on the branch `b` with id
      `id` and on the session. */
  twostate predicate VolumeStatusApplied(session: Session, b: Branch, id: Ulid, status: Option<ResizeStatus>,
                                         timestamp: string, resource: Option<string>, capacity: Option<int>,
                                         health: Option<H.MonitorStatus>, parse: IsoParser, now: int)
    reads session, b
  {
    var u := VolumeStatusUpdate(old(b.resizeStatuses), old(b.resizeStatus), status, timestamp, resource, parse);
    ResizeApplied(b, u, health, now) &&
    SizeApplied(session, b, id, u.accepted && status == Some(Completed), resource, capacity, now)
  }

  /** Stores an accepted update and refreshes the service status. */
  method ApplyResizeFields(b: Branch, u: ResizeUpdate, health: Option<H.MonitorStatus>, now: int)
    modifies b`resizeStatuses, b`resizeStatus, b`status, b`statusUpdatedAt
    ensures ResizeApplied(b, u, health, now)
  {
    if u.accepted {
      b.resizeStatuses := u.statuses;
      b.resizeStatus := u.resizeStatus;
      SetBranchStatus(b.resizeStatus, b, health, now);
    }
  }

  /** `create_or_update_branch_provisioning` with the new size, then the
      branch's size field. */
  method RecordSize(session: Session, b: Branch, id: Ulid, record: bool, resource: Option<string>,
                    capacity: Option<int>, now: int)
    modifies session`provisioning, session`logs, b`storageSize, b`databaseSize
    ensures SizeApplied(session, b, id, record, resource, capacity, now)
  {
    if record && capacity.Some? && (resource == Some("storage") || resource == Some("database")) {
      var request := RL.ResourceLimitsToDict(SizeRequest(resource.value, capacity.value));
      session.logs := session.logs + RL.UpsertLogs(session.provisioning, id, request, now);
      session.provisioning := RL.UpsertAll(session.provisioning, id, request, now);
      if resource == Some("storage") {
        b.storageSize := Some(capacity.value);
      } else {
        b.databaseSize := capacity.value;
      }
    }
  }

  /** `_apply_volume_status` on the branch row it found. */
  method ApplyToBranch(session: Session, b: Branch, id: Ulid, status: Option<ResizeStatus>, timestamp: string,
                       resource: Option<string>, capacity: Option<int>, health: Option<H.MonitorStatus>,
                       parse: IsoParser, now: int)
    modifies session`provisioning, session`logs, b`resizeStatuses, b`resizeStatus, b`status, b`statusUpdatedAt
    modifies b`storageSize, b`databaseSize
    ensures VolumeStatusApplied(session, b, id, status, timestamp, resource, capacity, health, parse, now)
  {
    var u := VolumeStatusUpdate(b.resizeStatuses, b.resizeStatus, status, timestamp, resource, parse);
    ApplyResizeFields(b, u, health, now);
    RecordSize(session, b, id, u.accepted && status == Some(Completed), resource, capacity, now);
  }

  /** `_apply_volume_status`: a branch id without a row changes nothing. */
  method ApplyVolumeStatus(session: Session, branchId: Ulid, status: Option<ResizeStatus>, timestamp: string,
                           resource: Option<string>, capacity: Option<int>, health: Option<H.MonitorStatus>,
                           parse: IsoParser, now: int)
    modifies session`provisioning, session`logs
    modifies Row(session, Some(branchId))`resizeStatuses, Row(session, Some(branchId))`resizeStatus
    modifies Row(session, Some(branchId))`status, Row(session, Some(branchId))`statusUpdatedAt
    modifies Row(session, Some(branchId))`storageSize, Row(session, Some(branchId))`databaseSize
    ensures branchId !in session.branches ==> unchanged(session)
    ensures branchId in session.branches ==>
              VolumeStatusApplied(session, session.branches[branchId], branchId, status, timestamp, resource,
                                  capacity, health, parse, now)
  {
    if branchId in session.branches {
      ApplyToBranch(session, session.branches[branchId], branchId, status, timestamp, resource, capacity, health, parse, now);
    }
  }

  // ---------------------------------------------------------------------
  // _handle_pvc_event

  /** The parts of a Kubernetes event the handler reads. */
  datatype PvcEvent = PvcEvent(
    namespace: Option<string>,
    name: Option<string>,
    reason: Option<string>,
    eventType: Option<string>,
    message: Option<string>,
    lastTimestamp: Option<IsoDatetime>,
    eventTime: Option<IsoDatetime>,
    creationTimestamp: Option<IsoDatetime>)

  /** The branch an event is about: none when the object has no namespace
      or name, or the namespace is not a branch namespace. */
  function EventBranch(event: PvcEvent, prefix: string): (r: Option<Ulid>)
    ensures r.Some? <==> event.namespace.Some? && event.namespace.value != "" && event.name.Some? &&
                         event.name.value != "" && D.DeploymentBranch(event.namespace.value, prefix).Ok?
    ensures r.Some? ==> D.DeploymentBranch(event.namespace.value, prefix) == Ok(r.value)
  {
    if event.namespace.None? || event.namespace.value == "" || event.name.None? || event.name.value == "" then None
    else
      match D.DeploymentBranch(event.namespace.value, prefix)
      case Ok(id) => Some(id)
      case Err(_) => None
  }

  /** The namespace a branch is deployed to leads events back to it. */
  lemma EventOfBranchNamespace(event: PvcEvent, id: Ulid, prefix: string)
    requires Strip(prefix) == prefix
    requires event.namespace == Some(D.DeploymentNamespace(id, prefix)) && event.name.Some? && event.name.value != ""
    ensures EventBranch(event, prefix) == Some(id)
  {
    D.NamespaceRoundTrip(id, prefix);
    assert |D.DeploymentNamespace(id, prefix)| >= |Lower(id)|;
  }

  /** `last_timestamp or event_time or metadata.creation_timestamp`. */
  function TimestampSource(event: PvcEvent): Option<IsoDatetime> {
    if event.lastTimestamp.Some? then event.lastTimestamp
    else if event.eventTime.Some? then event.eventTime
    else event.creationTimestamp
  }

  /** The capacity the handler passes on: fetched only for COMPLETED. */
  function EventCapacity(status: Option<ResizeStatus>, fetched: Option<int>): (r: Option<int>)
    ensures status != Some(Completed) ==> r.None?
    ensures status == Some(Completed) ==> r == fetched
  {
    if status == Some(Completed) then fetched else None
  }

  /** `_handle_pvc_event`. The namespace prefix setting, the capacity a
      fetch of the PVC would return, the VM's health reading, the ISO
      renderer and parser and the clock are given. */
  method HandlePvcEvent(session: Session, event: PvcEvent, prefix: string, fetched: Option<int>,
                        health: Option<H.MonitorStatus>, render: P.IsoRenderer, parse: IsoParser, now: int)
    modifies session`provisioning, session`logs
    modifies Row(session, EventBranch(event, prefix))`resizeStatuses, Row(session, EventBranch(event, prefix))`resizeStatus
    modifies Row(session, EventBranch(event, prefix))`status, Row(session, EventBranch(event, prefix))`statusUpdatedAt
    modifies Row(session, EventBranch(event, prefix))`storageSize, Row(session, EventBranch(event, prefix))`databaseSize
    ensures EventBranch(event, prefix).None? ==> unchanged(session)
    ensures EventBranch(event, prefix).Some? && EventBranch(event, prefix).value !in session.branches ==> unchanged(session)
    ensures var id := EventBranch(event, prefix);
      id.Some? && id.value in session.branches ==>
        var status := P.DeriveStatus(event.reason, event.eventType, event.message);
        VolumeStatusApplied(session, session.branches[id.value], id.value, status,
                            P.NormalizeIsoTimestamp(TimestampSource(event), now, render),
                            P.ResourceFromPvcName(event.name.value), EventCapacity(status, fetched), health, parse, now)
  {
    var branchId := EventBranch(event, prefix);
    if branchId.None? {
      return;
    }
    var resource := P.ResourceFromPvcName(event.name.value);
    var status := P.DeriveStatus(event.reason, event.eventType, event.message);
    var capacity := EventCapacity(status, fetched);
    var timestamp := P.NormalizeIsoTimestamp(TimestampSource(event), now, render);
    ApplyVolumeStatus(session, branchId.value, status, timestamp, resource, capacity, health, parse, now);
  }

  // ---------------------------------------------------------------------
  // ResizeMonitor

  /** An `asyncio.Event`. */
  class StopEvent {
    var isSet: bool

    constructor()
      ensures !isSet
    {
      isSet := false;
    }
  }

  /** A background job running `run_resize_monitor` against its stop event. */
  class MonitorTask {
    const stop: StopEvent
    var cancelled: bool

    constructor(stop: StopEvent)
      ensures this.stop == stop && !cancelled
    {
      this.stop := stop;
      cancelled := false;
    }
  }

  /** `ResizeMonitor`: at most one task at a time, stopped through its
      event. */
  class Monitor {
    var stop: StopEvent
    var task: MonitorTask?

    constructor()
      ensures !stop.isSet && task == null
    {
      stop := new StopEvent();
      task := null;
    }

    /** `start`: a running task is kept; otherwise a new task watches the
        current stop event. */
    method Start()
      modifies this`task
      ensures old(task) != null ==> task == old(task)
      ensures old(task) == null ==> task != null && fresh(task) && task.stop == stop && !task.cancelled
    {
      if task == null {
        task := new MonitorTask(stop);
      }
    }

    /** `stop`: without a running task nothing happens; otherwise its stop
        event is set, it is cancelled, and the monitor is left with no task and
        a fresh, unset event, ready to start again. */
    method Stop()
      modifies this, (if task != null then {task, stop} else {})
      ensures old(task) == null ==> task == null && stop == old(stop) && unchanged(stop)
      ensures old(task) != null ==>
                old(stop).isSet && old(task).cancelled && task == null && fresh(stop) && !stop.isSet
    {
      if task == null {
        return;
      }
      stop.isSet := true;
      task.cancelled := true;
      task := null;
      stop := new StopEvent();
    }
  }
}
