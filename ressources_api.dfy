/** The second copy of the resource API. Its effective limits and usage sums
    are computed as in the first copy; its provisioning adds a
    check of the project's total allocation, its provisioning-limit upsert
    compares the project column exactly, and its metering pass reads the
    branches whose status is "online". */
module RessourcesApi {
  import opened Common
  import RL = ResourceLimit
  import RA = ResourcesApi

  /** This copy's resource names: the five types in the same order are
      called vcpu, ram, iops, backup_storage and nvme. */
  function Name(t: RL.ResourceType): string {
    match t
    case MilliVcpu => "vcpu"
    case Ram => "ram"
    case Iops => "iops"
    case StorageSize => "backup_storage"
    case DatabaseSize => "nvme"
  }

  /** `get_total_allocated`: the project's provisioned amount of a resource,
      0 when it has none. It is the sum the effective limit subtracts for the
      project. */
  function TotalAllocated(rows: seq<RL.Provisioning>, branches: seq<RA.BranchRecord>, projectId: Ulid, t: RL.ResourceType): (total: int)
    ensures RA.ProjectProvisionRows(rows, branches, projectId, t) == [] ==> total == 0
  {
    RA.ProjectProvisioned(rows, branches, projectId, t)
  }

  /** A sum over rows is the sum over the rows without one row, plus that
      row's amount when it counts. */
  lemma {:induction false} TotalAllocatedSnoc(rows: seq<RL.Provisioning>, p: RL.Provisioning, branches: seq<RA.BranchRecord>,
                                              projectId: Ulid, t: RL.ResourceType)
    ensures TotalAllocated(rows + [p], branches, projectId, t) ==
            TotalAllocated(rows, branches, projectId, t) +
            (if p.resource == t && RA.InProject(branches, projectId, p) then p.amount else 0)
  {
    var f := (q: RL.Provisioning) => q.resource == t && RA.InProject(branches, projectId, q);
    FilterAppend(rows, [p], f);
    SumOfAppend(Filter(rows, f), Filter([p], f), RA.Amount);
  }

  /** One item of the request: the amount check, the check of the project's
      total, then the upsert and its "create" log. The total is read from the
      rows as they are when the item is handled, so it includes what earlier
      items of the same request committed and the branch's own current
      amount. */
  function ProvisionStep(s: RA.ProvisionState, branches: seq<RA.BranchRecord>, projectId: Ulid, effective: map<RL.ResourceType, int>,
                         branchId: Ulid, item: (RL.ResourceType, int), now: int): RA.ProvisionState
  {
    if s.failure.Some? then s
    else
      var (t, amount) := item;
      if t in effective && amount > effective[t] then
        s.(failure := Some(Http(422, Name(t) + " limit exceeded for branch " + branchId)))
      else if t in effective && TotalAllocated(s.rows, branches, projectId, t) + amount > effective[t] then
        s.(failure := Some(Http(422, "Total allocation for " + Name(t) + " exceeds project/org limit")))
      else
        RA.ProvisionState(RA.UpsertAmount(s.rows, branchId, t, amount, now),
                          s.logs + [RL.ProvisioningLog(branchId, t, amount, "create", None, now)], None)
  }

  function ProvisionRun(s: RA.ProvisionState, branches: seq<RA.BranchRecord>, projectId: Ulid, effective: map<RL.ResourceType, int>,
                        branchId: Ulid, items: seq<(RL.ResourceType, int)>, now: int): RA.ProvisionState
  {
    if items == [] then s
    else
      ProvisionStep(ProvisionRun(s, branches, projectId, effective, branchId, items[..|items| - 1], now),
                    branches, projectId, effective, branchId, items[|items| - 1], now)
  }

  /** An item is accepted exactly when its amount and the project's total
      with it both stay within the effective limit. */
  lemma StepAcceptance(s: RA.ProvisionState, branches: seq<RA.BranchRecord>, projectId: Ulid, effective: map<RL.ResourceType, int>,
                       branchId: Ulid, t: RL.ResourceType, amount: int, now: int)
    requires s.failure.None? && t in effective
    ensures ProvisionStep(s, branches, projectId, effective, branchId, (t, amount), now).failure.None? <==>
            amount <= effective[t] && TotalAllocated(s.rows, branches, projectId, t) + amount <= effective[t]
    ensures amount > effective[t] ==>
              ProvisionStep(s, branches, projectId, effective, branchId, (t, amount), now).failure ==
              Some(Http(422, Name(t) + " limit exceeded for branch " + branchId))
  {
  }

  /** Re-provisioning the only branch of a project with the amount it already
      holds is refused once that amount is positive and equals the
      effective limit: the total counts the branch's current row as well as
      the new amount. */
  lemma ReprovisionAtLimitRejected(b: RA.BranchRecord, t: RL.ResourceType, amount: int, now: int, effective: map<RL.ResourceType, int>)
    requires amount > 0 && t in effective && effective[t] == amount
    ensures var rows := [RL.Provisioning(Some(b.id), t, amount, now)];
      ProvisionStep(RA.ProvisionState(rows, [], None), [b], b.projectId, effective, b.id, (t, amount), now).failure ==
      Some(Http(422, "Total allocation for " + Name(t) + " exceeds project/org limit"))
  {
    var rows := [RL.Provisioning(Some(b.id), t, amount, now)];
    TotalAllocatedSnoc([], rows[0], [b], b.projectId, t);
    assert [] + [rows[0]] == rows;
    assert RA.FindBranch([b], b.id) == Some(b);
  }

  lemma ProvisionRunSnoc(s: RA.ProvisionState, branches: seq<RA.BranchRecord>, projectId: Ulid, effective: map<RL.ResourceType, int>,
                         branchId: Ulid, items: seq<(RL.ResourceType, int)>, now: int, k: nat)
    requires k < |items|
    ensures ProvisionRun(s, branches, projectId, effective, branchId, items[..k + 1], now) ==
            ProvisionStep(ProvisionRun(s, branches, projectId, effective, branchId, items[..k], now),
                          branches, projectId, effective, branchId, items[k], now)
  {
    assert items[..k + 1][..k] == items[..k];
  }

  /** Once an item fails, the later items change nothing: the writes of the
      items before it remain. */
  lemma {:induction false} FailureIsFinal(s: RA.ProvisionState, branches: seq<RA.BranchRecord>, projectId: Ulid,
                                          effective: map<RL.ResourceType, int>, branchId: Ulid, items: seq<(RL.ResourceType, int)>,
                                          now: int, k: nat)
    requires k <= |items| && ProvisionRun(s, branches, projectId, effective, branchId, items[..k], now).failure.Some?
    ensures ProvisionRun(s, branches, projectId, effective, branchId, items, now) ==
            ProvisionRun(s, branches, projectId, effective, branchId, items[..k], now)
  {
    if k < |items| {
      var init := items[..|items| - 1];
      assert init[..k] == items[..k];
      FailureIsFinal(s, branches, projectId, effective, branchId, init, now, k);
    } else {
      assert items[..k] == items;
    }
  }

  /** When item `k` is the first one rejected, the request ends with its
      failure and the tables as the items before it left them. */
  lemma ProvisionStopsAt(s: RA.ProvisionState, branches: seq<RA.BranchRecord>, projectId: Ulid,
                         effective: map<RL.ResourceType, int>, branchId: Ulid, items: seq<(RL.ResourceType, int)>, now: int, k: nat)
    requires k < |items|
    requires ProvisionRun(s, branches, projectId, effective, branchId, items[..k], now).failure.None?
    requires ProvisionStep(ProvisionRun(s, branches, projectId, effective, branchId, items[..k], now),
                           branches, projectId, effective, branchId, items[k], now).failure.Some?
    ensures var before := ProvisionRun(s, branches, projectId, effective, branchId, items[..k], now);
      var final := ProvisionRun(s, branches, projectId, effective, branchId, items, now);
      && final.failure == ProvisionStep(before, branches, projectId, effective, branchId, items[k], now).failure
      && final.rows == before.rows && final.logs == before.logs
  {
    ProvisionRunSnoc(s, branches, projectId, effective, branchId, items, now, k);
    FailureIsFinal(s, branches, projectId, effective, branchId, items, now, k + 1);
  }

  /** `provision_branch`: 404 for an unknown branch; otherwise the effective
      limits are computed once and the items are handled in order, each
      accepted one committed before the next. */
  method ProvisionBranch(store: RA.MeteringStore, branches: seq<RA.BranchRecord>, branchId: Ulid,
                         payload: seq<(RL.ResourceType, int)>, now: int)
    returns (r: Result<()>)
    modifies store
    ensures RA.FindBranch(branches, branchId).None? ==>
              r == Err(Http(404, "Branch not found")) && store.rows == old(store.rows) && store.logs == old(store.logs)
    ensures RA.FindBranch(branches, branchId).Some? ==>
              var b := RA.FindBranch(branches, branchId).value;
              var final := ProvisionRun(RA.ProvisionState(old(store.rows), old(store.logs), None), branches, b.projectId,
                                        RA.EffectiveMap(b, branches, old(store.limits), old(store.rows)), branchId, payload, now);
              store.rows == final.rows && store.logs == final.logs &&
              (r.Err? <==> final.failure.Some?) && (r.Err? ==> r.failure == final.failure.value)
    ensures store.limits == old(store.limits) && store.consumption == old(store.consumption) && store.usages == old(store.usages)
  {
    var branch := RA.FindBranch(branches, branchId);
    if branch.None? {
      return Err(Http(404, "Branch not found"));
    }
    var projectId := branch.value.projectId;
    var effectiveResult := RA.GetEffectiveBranchLimits(branches, store.limits, store.rows, branchId);
    var effective := effectiveResult.value;
    ghost var start := RA.ProvisionState(store.rows, store.logs, None);
    var i := 0;
    while i < |payload|
      invariant 0 <= i <= |payload|
      invariant ProvisionRun(start, branches, projectId, effective, branchId, payload[..i], now).failure.None?
      invariant ProvisionRun(start, branches, projectId, effective, branchId, payload[..i], now).rows == store.rows
      invariant ProvisionRun(start, branches, projectId, effective, branchId, payload[..i], now).logs == store.logs
      invariant store.limits == old(store.limits) && store.consumption == old(store.consumption) && store.usages == old(store.usages)
    {
      ProvisionRunSnoc(start, branches, projectId, effective, branchId, payload, now, i);
      var (t, amount) := payload[i];
      if t in effective && amount > effective[t] {
        ProvisionStopsAt(start, branches, projectId, effective, branchId, payload, now, i);
        return Err(Http(422, Name(t) + " limit exceeded for branch " + branchId));
      }
      var totalAllocated := TotalAllocated(store.rows, branches, projectId, t);
      if t in effective && totalAllocated + amount > effective[t] {
        ProvisionStopsAt(start, branches, projectId, effective, branchId, payload, now, i);
        return Err(Http(422, "Total allocation for " + Name(t) + " exceeds project/org limit"));
      }
      store.Upsert(branchId, t, amount, now);
      i := i + 1;
    }
    assert payload[..|payload|] == payload;
    r := Ok(());
  }

  /** `set_provisioning_limit`: the limit row is looked up by entity type,
      organization, project (exactly, a missing project matching only rows
      without one) and resource, then updated or added. */
  method SetProvisioningLimit(store: RA.MeteringStore, projects: seq<RA.ProjectRow>, entityType: RA.ApiEntityType, entityId: Ulid,
                              t: RL.ResourceType, maxTotal: int, maxPerBranch: int)
    returns (r: Result<()>)
    modifies store
    ensures r.Err? <==> RA.ResolveScope(projects, entityType, entityId).Err?
    ensures r.Err? ==> r == Err(RA.ResolveScope(projects, entityType, entityId).failure) && store.limits == old(store.limits)
    ensures r.Ok? ==>
              store.limits == RA.SetLimitRows(old(store.limits), RA.ResolveScope(projects, entityType, entityId).value, true, t,
                                              maxTotal, maxPerBranch)
    ensures store.rows == old(store.rows) && store.logs == old(store.logs) && store.consumption == old(store.consumption) &&
            store.usages == old(store.usages)
  {
    var scope := RA.ResolveScope(projects, entityType, entityId);
    if scope.Err? {
      return Err(scope.failure);
    }
    var found := RA.LimitIndex(store.limits, scope.value, true, t);
    if found.Some? {
      store.limits := store.limits[found.value := store.limits[found.value].(maxTotal := maxTotal, maxPerBranch := Some(maxPerBranch))];
    } else {
      store.limits := store.limits + [RL.LimitRow(scope.value.entityType, Some(scope.value.orgId), scope.value.projectId, t, maxTotal,
                                                  Some(maxPerBranch))];
    }
    r := Ok(());
  }

  /** `get_project_usage`: the bounds are used as given. */
  method GetProjectUsage(usages: seq<RL.UsageMinute>, projectId: Ulid, start: Option<int>, end: Option<int>)
    returns (result: map<RL.ResourceType, int>)
    ensures forall t :: t in result <==> RL.HasUsage(RL.ProjectUsageRows(usages, projectId, RL.UsageCycle(start, end)), t)
    ensures forall t :: t in result ==>
              result[t] == RL.UsageAmount(RL.ProjectUsageRows(usages, projectId, RL.UsageCycle(start, end)), t)
  {
    result := RL.MapResourceUsages(RL.ProjectUsageRows(usages, projectId, RL.UsageCycle(start, end)));
  }

  /** `get_org_usage`. */
  method GetOrgUsage(usages: seq<RL.UsageMinute>, orgId: Ulid, start: Option<int>, end: Option<int>)
    returns (result: map<RL.ResourceType, int>)
    ensures forall t :: t in result <==> RL.HasUsage(RL.OrganizationUsageRows(usages, orgId, RL.UsageCycle(start, end)), t)
    ensures forall t :: t in result ==>
              result[t] == RL.UsageAmount(RL.OrganizationUsageRows(usages, orgId, RL.UsageCycle(start, end)), t)
  {
    result := RL.MapResourceUsages(RL.OrganizationUsageRows(usages, orgId, RL.UsageCycle(start, end)));
  }

  /** One iteration of `monitor_resources`: a usage row per provisioning row
      of every branch whose status column is "online", stamped with the
      current minute. `statuses[i]` is the status of `branches[i]`. */
  method MonitorResources(store: RA.MeteringStore, branches: seq<RA.BranchRecord>, statuses: seq<string>, now: int)
    requires |statuses| == |branches|
    modifies store
    ensures store.usages ==
            old(store.usages) + RA.MeteredUsage(RA.BranchesWithStatus(branches, statuses, "online"), store.rows, RL.TruncateToMinute(now))
    ensures store.rows == old(store.rows) && store.logs == old(store.logs) && store.limits == old(store.limits) &&
            store.consumption == old(store.consumption)
  {
    var tsMinute := RL.TruncateToMinute(now);
    ghost var start := store.usages;
    var i := 0;
    while i < |branches|
      invariant 0 <= i <= |branches|
      invariant store.usages == start + RA.MeteredPrefix(branches, statuses, "online", store.rows, tsMinute, i)
      invariant store.rows == old(store.rows) && store.logs == old(store.logs) && store.limits == old(store.limits) &&
                store.consumption == old(store.consumption)
    {
      store.MeterNext(branches, statuses, "online", tsMinute, i, start);
      i := i + 1;
    }
    assert branches[..|branches|] == branches && statuses[..|statuses|] == statuses;
  }
}
