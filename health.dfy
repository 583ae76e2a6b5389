/** Service health of a branch: the per-service statuses read from the VM
    monitor and the overall status derived from them. */
module Health {
  import opened Common
  import opened BranchModel

  /** `BranchStatus`: the status of each service of a branch. */
  datatype BranchStatus = BranchStatus(database: ServiceStatus, storage: ServiceStatus,
                                       meta: ServiceStatus, rest: ServiceStatus)

  /** The services the overall status looks at: database, meta and rest,
      then storage when file storage is enabled. */
  function ConsideredStatuses(s: BranchStatus, storageEnabled: bool): (r: seq<ServiceStatus>)
    ensures forall x :: x in r <==> x == s.database || x == s.meta || x == s.rest || (storageEnabled && x == s.storage)
  {
    [s.database, s.meta, s.rest] + (if storageEnabled then [s.storage] else [])
  }

  predicate AllAre(xs: seq<ServiceStatus>, v: ServiceStatus) {
    forall i :: 0 <= i < |xs| ==> xs[i] == v
  }

  predicate AnyIs(xs: seq<ServiceStatus>, v: ServiceStatus) {
    exists i :: 0 <= i < |xs| && xs[i] == v
  }

  /** `derive_branch_status_from_services`. */
  function DeriveBranchStatus(s: BranchStatus, storageEnabled: bool): (r: ServiceStatus)
    ensures r in {ActiveHealthy, Error, Stopped, Unknown, ActiveUnhealthy}
  {
    var statuses := ConsideredStatuses(s, storageEnabled);
    if AllAre(statuses, ActiveHealthy) then ActiveHealthy
    else if AnyIs(statuses, Error) then Error
    else if AllAre(statuses, Stopped) then Stopped
    else if AnyIs(statuses, Unknown) then Unknown
    else ActiveUnhealthy
  }

  /** Every considered service has status `v`. */
  predicate EveryService(s: BranchStatus, storageEnabled: bool, v: ServiceStatus) {
    s.database == v && s.meta == v && s.rest == v && (storageEnabled ==> s.storage == v)
  }

  /** Some considered service has status `v`. */
  predicate AnyService(s: BranchStatus, storageEnabled: bool, v: ServiceStatus) {
    s.database == v || s.meta == v || s.rest == v || (storageEnabled && s.storage == v)
  }

  lemma AllAreEveryService(s: BranchStatus, storageEnabled: bool, v: ServiceStatus)
    ensures AllAre(ConsideredStatuses(s, storageEnabled), v) <==> EveryService(s, storageEnabled, v)
    ensures AnyIs(ConsideredStatuses(s, storageEnabled), v) <==> AnyService(s, storageEnabled, v)
  {
    var xs := ConsideredStatuses(s, storageEnabled);
    assert xs[0] == s.database && xs[1] == s.meta && xs[2] == s.rest;
    assert storageEnabled ==> xs[3] == s.storage;
  }

  /** The derivation cascade, stated on the services themselves: healthy
      when every considered service is, else ERROR when any is, else STOPPED
      when all are, else UNKNOWN when any is, else ACTIVE_UNHEALTHY. */
  lemma DeriveMeaning(s: BranchStatus, storageEnabled: bool)
    ensures DeriveBranchStatus(s, storageEnabled) == ActiveHealthy <==> EveryService(s, storageEnabled, ActiveHealthy)
    ensures DeriveBranchStatus(s, storageEnabled) == Error <==> AnyService(s, storageEnabled, Error)
    ensures DeriveBranchStatus(s, storageEnabled) == Stopped <==>
              !AnyService(s, storageEnabled, Error) && EveryService(s, storageEnabled, Stopped)
    ensures DeriveBranchStatus(s, storageEnabled) == Unknown <==>
              !AnyService(s, storageEnabled, Error) && !EveryService(s, storageEnabled, Stopped) && AnyService(s, storageEnabled, Unknown)
    ensures DeriveBranchStatus(s, storageEnabled) == ActiveUnhealthy <==>
              !EveryService(s, storageEnabled, ActiveHealthy) && !AnyService(s, storageEnabled, Error) &&
              !EveryService(s, storageEnabled, Stopped) && !AnyService(s, storageEnabled, Unknown)
  {
    AllAreEveryService(s, storageEnabled, ActiveHealthy);
    AllAreEveryService(s, storageEnabled, Error);
    AllAreEveryService(s, storageEnabled, Stopped);
    AllAreEveryService(s, storageEnabled, Unknown);
  }

  /** With file storage disabled the storage service does not matter. */
  lemma StorageIgnoredWhenDisabled(s: BranchStatus, storage: ServiceStatus)
    ensures DeriveBranchStatus(s, false) == DeriveBranchStatus(s.(storage := storage), false)
  {
    assert ConsideredStatuses(s, false) == ConsideredStatuses(s.(storage := storage), false);
  }

  /** A branch whose considered services all agree on one of the four
      statuses the cascade tests gets that status. */
  lemma UniformStatus(s: BranchStatus, storageEnabled: bool, v: ServiceStatus)
    requires v in {ActiveHealthy, Error, Stopped, Unknown}
    requires EveryService(s, storageEnabled, v)
    ensures DeriveBranchStatus(s, storageEnabled) == v
  {
    DeriveMeaning(s, storageEnabled);
  }

  // ---------------------------------------------------------------------
  // collect_branch_service_health

  /** What the VM monitor reports for a branch: the reachability of each
      named service, when it has probed them. */
  datatype MonitorStatus = MonitorStatus(services: Option<map<string, bool>>)

  /** `services.get(key, False)`. */
  predicate Up(services: map<string, bool>, key: string) {
    key in services && services[key]
  }

  function Reachability(services: map<string, bool>, key: string): (r: ServiceStatus)
    ensures r == ActiveHealthy <==> Up(services, key)
    ensures r != ActiveHealthy ==> r == Stopped
  {
    if Up(services, key) then ActiveHealthy else Stopped
  }

  /** `collect_branch_service_health`, given the monitor's answer. */
  function CollectBranchServiceHealth(status: Option<MonitorStatus>): (r: BranchStatus)
    ensures status.None? || status.value.services.None? ==>
              r.database == Unknown && r.storage == Unknown && r.meta == Unknown && r.rest == Unknown
    ensures status.Some? && status.value.services.Some? ==>
              (r.database == ActiveHealthy <==> Up(status.value.services.value, "postgres")) &&
              (r.storage == ActiveHealthy <==> Up(status.value.services.value, "storageapi")) &&
              (r.meta == ActiveHealthy <==> Up(status.value.services.value, "meta")) &&
              (r.rest == ActiveHealthy <==> Up(status.value.services.value, "rest"))
    ensures status.Some? && status.value.services.Some? ==>
              r.database in {ActiveHealthy, Stopped} && r.storage in {ActiveHealthy, Stopped} &&
              r.meta in {ActiveHealthy, Stopped} && r.rest in {ActiveHealthy, Stopped}
  {
    if status.None? || status.value.services.None? then
      BranchStatus(Unknown, Unknown, Unknown, Unknown)
    else
      var services := status.value.services.value;
      BranchStatus(Reachability(services, "postgres"), Reachability(services, "storageapi"),
                   Reachability(services, "meta"), Reachability(services, "rest"))
  }

  /** Collected health never yields ERROR for the branch: without a reading
      it is UNKNOWN, otherwise healthy, stopped or unhealthy. */
  lemma CollectedNeverError(status: Option<MonitorStatus>, storageEnabled: bool)
    ensures DeriveBranchStatus(CollectBranchServiceHealth(status), storageEnabled) != Error
    ensures status.None? || status.value.services.None? ==>
              DeriveBranchStatus(CollectBranchServiceHealth(status), storageEnabled) == Unknown
    ensures status.Some? && status.value.services.Some? ==>
              DeriveBranchStatus(CollectBranchServiceHealth(status), storageEnabled) in {ActiveHealthy, Stopped, ActiveUnhealthy}
  {
    DeriveMeaning(CollectBranchServiceHealth(status), storageEnabled);
  }

  /** The branch is healthy exactly when every considered service is up,
      and stopped exactly when none is. */
  lemma CollectedHealthy(services: map<string, bool>, storageEnabled: bool)
    ensures var d := DeriveBranchStatus(CollectBranchServiceHealth(Some(MonitorStatus(Some(services)))), storageEnabled);
      (d == ActiveHealthy <==>
         Up(services, "postgres") && Up(services, "meta") && Up(services, "rest") &&
         (storageEnabled ==> Up(services, "storageapi"))) &&
      (d == Stopped <==>
         !Up(services, "postgres") && !Up(services, "meta") && !Up(services, "rest") &&
         (storageEnabled ==> !Up(services, "storageapi")))
  {
    DeriveMeaning(CollectBranchServiceHealth(Some(MonitorStatus(Some(services)))), storageEnabled);
  }
}
