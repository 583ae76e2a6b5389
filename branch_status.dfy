/** The branch status monitor: parsing a stored status, the guard that
    decides whether a derived status replaces the current one, the
    escalation of a branch stuck in CREATING or STARTING, one refresh of a
    branch, and the normalisation of its per-service resize entries. The
    overall status is derived from the services as in `Health`. */
module BranchStatusMonitor {
  import opened Common
  import opened BranchModel
  import H = Health

  // ---------------------------------------------------------------------
  // parse_branch_status

  /** The argument of `parse_branch_status`: an enum member, any other
      value given by its `str()`, or `None`. */
  datatype StatusArg = EnumArg(member: ServiceStatus) | TextArg(text: string) | NoArg

  /** The argument a stored status column passes. */
  function StoredArg(stored: Option<string>): StatusArg {
    if stored.Some? then TextArg(stored.value) else NoArg
  }

  /** `parse_branch_status`: a member passes through, text is upper-cased
      and looked up among the enum's values, anything else is UNKNOWN. */
  function ParseBranchStatus(v: StatusArg): (r: ServiceStatus)
    ensures v.EnumArg? ==> r == v.member
    ensures v.NoArg? ==> r == Unknown
    ensures v.TextArg? && StatusFromValue(Upper(v.text)).Some? ==> StatusValue(r) == Upper(v.text)
    ensures v.TextArg? && StatusFromValue(Upper(v.text)).None? ==> r == Unknown
  {
    match v
    case EnumArg(m) => m
    case TextArg(t) =>
      if t != [] then StatusFromValue(Upper(t)).GetOr(Unknown) else Unknown
    case NoArg => Unknown
  }

  /** The enum's values are upper case. */
  lemma StatusValueIsUpper(m: ServiceStatus)
    ensures Upper(StatusValue(m)) == StatusValue(m)
  {
    if m in {ActiveHealthy, Stopped, Starting, ActiveUnhealthy, Creating} {
      UpperValuesLifecycle(m);
    } else if m in {Deleting, Updating, Restarting, Stopping, Pausing} {
      UpperValuesTransition(m);
    } else {
      UpperValuesSettled(m);
    }
  }

  lemma UpperValuesLifecycle(m: ServiceStatus)
    requires m in {ActiveHealthy, Stopped, Starting, ActiveUnhealthy, Creating}
    ensures Upper(StatusValue(m)) == StatusValue(m)
  {
    UpperOfUppered(StatusValue(m));
  }

  lemma UpperValuesTransition(m: ServiceStatus)
    requires m in {Deleting, Updating, Restarting, Stopping, Pausing}
    ensures Upper(StatusValue(m)) == StatusValue(m)
  {
    UpperOfUppered(StatusValue(m));
  }

  lemma UpperValuesSettled(m: ServiceStatus)
    requires m in {Paused, Resuming, Unknown, Error, Resizing}
    ensures Upper(StatusValue(m)) == StatusValue(m)
  {
    UpperOfUppered(StatusValue(m));
  }

  /** A stored member value parses back to that member. */
  lemma ParseStoredValue(m: ServiceStatus)
    ensures ParseBranchStatus(TextArg(StatusValue(m))) == m
  {
    StatusValueIsUpper(m);
    StatusValueRoundTrip(m);
  }

  /** Parsing text does not depend on its letter case. */
  lemma ParseIgnoresCase(t: string)
    ensures ParseBranchStatus(TextArg(Lower(t))) == ParseBranchStatus(TextArg(t))
    ensures ParseBranchStatus(TextArg(Upper(t))) == ParseBranchStatus(TextArg(t))
  {
    UpperIgnoresCase(t);
  }

  // ---------------------------------------------------------------------
  // _should_update_branch_status

  /** `_TRANSITIONAL_BRANCH_STATUSES`. */
  predicate Transitional(s: ServiceStatus) {
    s in {Creating, Starting, Stopping, Restarting, Pausing, Resuming, Updating, Deleting, Resizing}
  }

  /** `_PROTECTED_BRANCH_STATUSES`. */
  predicate Protected(s: ServiceStatus) {
    s == Paused
  }

  /** `_ACTIVE_RESIZE_STATUSES`. */
  predicate ActiveResize(r: ResizeStatus) {
    r in {Pending, ResizeInProgress, FilesystemResizePending}
  }

  /** `_should_update_branch_status`: whether the status derived from the
      services replaces the current one. */
  function ShouldUpdateBranchStatus(current: ServiceStatus, derived: ServiceStatus, resize: ResizeStatus): (r: bool)
    // an unchanged status is never written
    ensures current == derived ==> !r
    // while a resize is in progress only a hard failure ends RESIZING
    ensures current != derived && current == Resizing && ActiveResize(resize) ==> (r <==> derived == Error)
    ensures current == Starting && derived == Stopped ==> !r
    // PAUSED is left only for ACTIVE_HEALTHY or ERROR
    ensures current == Paused ==> (r <==> derived in {ActiveHealthy, Error})
    // STOPPED does not interrupt a transition, except STOPPING
    ensures derived == Stopped && Transitional(current) && current != Stopping ==> !r
    // past those guards
    ensures current != derived && !(current == Resizing && ActiveResize(resize)) && !Protected(current) ==>
              (derived in {ActiveHealthy, ActiveUnhealthy, Error} ==> r) &&
              (derived == Stopped ==> (r <==> !Transitional(current) || current == Stopping)) &&
              (derived == Unknown ==> (r <==> !Transitional(current))) &&
              (!(derived in {ActiveHealthy, ActiveUnhealthy, Error, Stopped, Unknown}) ==> r)
  {
    if current == derived then false
    else if current == Resizing && ActiveResize(resize) then derived == Error
    else if current == Starting && derived == Stopped then false
    else if Protected(current) && !(derived in {ActiveHealthy, Error}) then false
    else if derived == Stopped && Transitional(current) && current != Stopping then false
    else if derived in {ActiveHealthy, ActiveUnhealthy, Stopped, Error} then true
    else if derived == Unknown then !Transitional(current) && !Protected(current)
    else true
  }

  // ---------------------------------------------------------------------
  // _adjust_derived_status_for_stuck_creation

  /** `_CREATING_STATUS_ERROR_GRACE_PERIOD`, in seconds. */
  const CreatingGrace: int := 5 * 60
  /** `_STARTING_STATUS_ERROR_GRACE_PERIOD`, in seconds. */
  const StartingGrace: int := 5 * 60

  /** The time the current status has held: since it was last written, or
      since the branch was created. */
  function StatusSince(statusUpdatedAt: Option<int>, created: int): int {
    statusUpdatedAt.GetOr(created)
  }

  /** The branch has been CREATING or STARTING at least its grace period. */
  predicate Stuck(current: ServiceStatus, since: int, now: int) {
    (current == Creating && now - since >= CreatingGrace) ||
    (current == Starting && now - since >= StartingGrace)
  }

  /** `_adjust_derived_status_for_stuck_creation`, with the clock read as `now`. */
  function AdjustDerivedStatusForStuckCreation(current: ServiceStatus, derived: ServiceStatus,
                                               statusUpdatedAt: Option<int>, created: int, now: int): (r: ServiceStatus)
    ensures derived != Stopped ==> r == derived
    ensures derived == Stopped ==> r in {Stopped, Error}
    ensures derived == Stopped ==> (r == Error <==> Stuck(current, StatusSince(statusUpdatedAt, created), now))
  {
    if derived != Stopped then derived
    else
      var elapsed := now - StatusSince(statusUpdatedAt, created);
      if current == Creating && elapsed >= CreatingGrace then Error
      else if current == Starting && elapsed >= StartingGrace then Error
      else derived
  }

  /** Only CREATING and STARTING are escalated, and only after five minutes. */
  lemma EscalationNeedsFiveMinutes(current: ServiceStatus, statusUpdatedAt: Option<int>, created: int, now: int)
    requires AdjustDerivedStatusForStuckCreation(current, Stopped, statusUpdatedAt, created, now) == Error
    ensures current in {Creating, Starting}
    ensures now - StatusSince(statusUpdatedAt, created) >= 300
  {
  }

  // ---------------------------------------------------------------------
  // refresh_branch_status

  /** The status derived from the services, or UNKNOWN when reading the
      monitor raised. */
  function ProbedStatus(probe: Result<Option<H.MonitorStatus>>, storageEnabled: bool): (r: ServiceStatus)
    ensures probe.Err? ==> r == Unknown
    ensures r != Error
  {
    if probe.Err? then Unknown
    else
      H.CollectedNeverError(probe.value, storageEnabled);
      H.DeriveBranchStatus(H.CollectBranchServiceHealth(probe.value), storageEnabled)
  }

  /** The status a refresh proposes for a branch whose status is `current`. */
  function Proposed(current: ServiceStatus, probe: Result<Option<H.MonitorStatus>>, storageEnabled: bool,
                    statusUpdatedAt: Option<int>, created: int, now: int): ServiceStatus {
    AdjustDerivedStatusForStuckCreation(current, ProbedStatus(probe, storageEnabled), statusUpdatedAt, created, now)
  }

  /** `refresh_branch_status`. The branch row is `branch` (`null` when it is
      missing); its creation time, file-storage flag and resize status are
      given, as are the monitor's answer (an `Err` when it raised) and the
      clock. */
  method RefreshBranchStatus(branch: Branch?, created: int, storageEnabled: bool, resize: ResizeStatus,
                             probe: Result<Option<H.MonitorStatus>>, now: int) returns (r: ServiceStatus)
    modifies branch
    ensures branch == null ==> r == Unknown
    ensures branch != null ==>
              var current := ParseBranchStatus(StoredArg(old(branch.status)));
              var proposed := Proposed(current, probe, storageEnabled, old(branch.statusUpdatedAt), created, now);
              if ShouldUpdateBranchStatus(current, proposed, resize) then
                r == proposed && branch.status == Some(StatusValue(proposed)) && branch.statusUpdatedAt == Some(now)
              else
                r == current && branch.status == old(branch.status) && branch.statusUpdatedAt == old(branch.statusUpdatedAt)
    // the returned status is the one the row holds afterwards
    ensures branch != null ==> r == ParseBranchStatus(StoredArg(branch.status))
  {
    if branch == null {
      return Unknown;
    }
    var current := ParseBranchStatus(StoredArg(branch.status));
    var proposed := Proposed(current, probe, storageEnabled, branch.statusUpdatedAt, created, now);
    if ShouldUpdateBranchStatus(current, proposed, resize) {
      ParseStoredValue(proposed);
      branch.SetStatus(Member(proposed), false, now);
      r := proposed;
    } else {
      r := current;
    }
  }

  /** A refresh that finds the status the services show changes nothing. */
  lemma RefreshIsStable(probe: Result<Option<H.MonitorStatus>>, storageEnabled: bool, resize: ResizeStatus,
                        statusUpdatedAt: Option<int>, created: int, now: int)
    ensures var shown := ProbedStatus(probe, storageEnabled);
      !ShouldUpdateBranchStatus(shown, Proposed(shown, probe, storageEnabled, statusUpdatedAt, created, now), resize)
  {
  }

  /** A branch in transition or PAUSED keeps its status when the monitor
      cannot be read. */
  lemma FailedProbeKeepsStatus(current: ServiceStatus, storageEnabled: bool, resize: ResizeStatus,
                               statusUpdatedAt: Option<int>, created: int, now: int, failure: Failure)
    requires Transitional(current) || Protected(current)
    ensures !ShouldUpdateBranchStatus(current, Proposed(current, Err(failure), storageEnabled, statusUpdatedAt, created, now), resize)
  {
  }

  /** A branch stuck in CREATING whose services are all down is escalated to
      ERROR; the next refresh with the services still down sees ERROR, which
      is no longer escalated, and writes STOPPED. */
  lemma StuckEscalationIsUndone(services: map<string, bool>, storageEnabled: bool, resize: ResizeStatus,
                                statusUpdatedAt: Option<int>, created: int, now: int, later: int)
    requires !H.Up(services, "postgres") && !H.Up(services, "meta") && !H.Up(services, "rest")
    requires !H.Up(services, "storageapi")
    requires now - StatusSince(statusUpdatedAt, created) >= CreatingGrace
    ensures var probe := Ok(Some(H.MonitorStatus(Some(services))));
      Proposed(Creating, probe, storageEnabled, statusUpdatedAt, created, now) == Error &&
      ShouldUpdateBranchStatus(Creating, Error, resize) &&
      Proposed(Error, probe, storageEnabled, Some(now), created, later) == Stopped &&
      ShouldUpdateBranchStatus(Error, Stopped, resize)
  {
    H.CollectedHealthy(services, storageEnabled);
  }

  // ---------------------------------------------------------------------
  // normalize_resize_statuses

  /** The valid entries of a branch's per-service resize map, validated. */
  function NormalizedEntries(statuses: Option<map<string, RawEntry>>): map<string, ResizeEntry> {
    if statuses.None? then map[]
    else
      var m := statuses.value;
      map k | k in m && ValidateEntry(m[k]).Some? :: ValidateEntry(m[k]).value
  }

  /** A service keeps its entry exactly when the entry validates; typed
      entries are kept as they are, objects keep their status and timestamp. */
  lemma NormalizedEntriesMeaning(m: map<string, RawEntry>, k: string)
    ensures k in NormalizedEntries(Some(m)) <==> k in m && ValidateEntry(m[k]).Some?
    ensures k in m && m[k].TypedEntry? ==> k in NormalizedEntries(Some(m)) && NormalizedEntries(Some(m))[k] == m[k].entry
    ensures k in NormalizedEntries(Some(m)) && m[k].EntryObject? ==>
              ResizeStatusName(NormalizedEntries(Some(m))[k].status) == m[k].status.value &&
              NormalizedEntries(Some(m))[k].timestamp == m[k].timestamp.value
  {
  }

  /** `normalize_resize_statuses`, on the branch's `resize_statuses`. */
  method NormalizeResizeStatuses(statuses: Option<map<string, RawEntry>>) returns (normalized: map<string, ResizeEntry>)
    ensures normalized == NormalizedEntries(statuses)
  {
    normalized := map[];
    if statuses.None? || statuses.value == map[] {
      return;
    }
    var m := statuses.value;
    var todo := m.Keys;
    while todo != {}
      invariant todo <= m.Keys
      invariant forall k :: k in normalized <==> k in m && k !in todo && ValidateEntry(m[k]).Some?
      invariant forall k :: k in normalized ==> normalized[k] == ValidateEntry(m[k]).value
      decreases |todo|
    {
      var k :| k in todo;
      var entry := ValidateEntry(m[k]);
      if entry.Some? {
        normalized := normalized[k := entry.value];
      }
      todo := todo - {k};
    }
  }
}
