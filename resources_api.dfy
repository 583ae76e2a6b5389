/** The first-generation resource API: effective per-branch limits with a
    constant default cap, provisioning with an amount check, usage sums over a
    window, the limit upserts, and one metering pass. The database is a class
    whose fields are the tables these handlers read and write. */
module ResourcesApi {
  import opened Common
  import RL = ResourceLimit
  import BM = BranchModel

  /** The per-branch cap when neither the project nor the organization sets one. */
  const DefaultPerBranchLimit: int := 32000

  /** A branch with its project and that project's organization. The
      organization is the one the project belongs to; the `Branch` table the
      handlers read has no `organization_id` column of its own. */
  datatype BranchRecord = BranchRecord(id: Ulid, projectId: Ulid, orgId: Ulid)

  datatype ProjectRow = ProjectRow(id: Ulid, orgId: Ulid)

  /** A `ResourceConsumptionLimit` row. */
  datatype ConsumptionLimit = ConsumptionLimit(
    entityType: RL.EntityType,
    orgId: Option<Ulid>,
    projectId: Option<Ulid>,
    resource: RL.ResourceType,
    maxTotalMinutes: int)

  /** The branch `select(Branch).where(Branch.id == id).first()` returns. */
  function FindBranch(branches: seq<BranchRecord>, id: Ulid): (r: Option<BranchRecord>)
    ensures r.Some? ==> r.value in branches && r.value.id == id
    ensures r.None? ==> forall j :: 0 <= j < |branches| ==> branches[j].id != id
  {
    FirstWhere(branches, (b: BranchRecord) => b.id == id)
  }

  function FindProject(projects: seq<ProjectRow>, id: Ulid): (r: Option<ProjectRow>)
    ensures r.Some? ==> r.value in projects && r.value.id == id
    ensures r.None? ==> forall j :: 0 <= j < |projects| ==> projects[j].id != id
  {
    FirstWhere(projects, (p: ProjectRow) => p.id == id)
  }

  // ---------------------------------------------------------------------
  // Effective limits

  predicate IsOrgLimitFor(l: RL.LimitRow, orgId: Ulid, t: RL.ResourceType) {
    l.entityType == RL.OrgEntity && l.orgId == Some(orgId) && l.projectId.None? && l.resource == t
  }

  predicate IsProjectLimitFor(l: RL.LimitRow, orgId: Ulid, projectId: Ulid, t: RL.ResourceType) {
    l.entityType == RL.ProjectEntity && l.orgId == Some(orgId) && l.projectId == Some(projectId) && l.resource == t
  }

  function OrgLimitFor(limits: seq<RL.LimitRow>, orgId: Ulid, t: RL.ResourceType): Option<RL.LimitRow> {
    FirstWhere(limits, l => IsOrgLimitFor(l, orgId, t))
  }

  function ProjectLimitFor(limits: seq<RL.LimitRow>, orgId: Ulid, projectId: Ulid, t: RL.ResourceType): Option<RL.LimitRow> {
    FirstWhere(limits, l => IsProjectLimitFor(l, orgId, projectId, t))
  }

  /** The per-branch cap: the project's `max_per_branch`, else the
      organization's, else 32000. */
  function PerBranchLimit(project: Option<RL.LimitRow>, org: Option<RL.LimitRow>): (r: int)
    ensures r == FirstSet([RL.MaxPerBranchOf(project), RL.MaxPerBranchOf(org)]).GetOr(DefaultPerBranchLimit)
    ensures project.Some? && project.value.maxPerBranch.Some? ==> r == project.value.maxPerBranch.value
    ensures (project.None? || project.value.maxPerBranch.None?) && org.Some? && org.value.maxPerBranch.Some? ==>
              r == org.value.maxPerBranch.value
    ensures (project.None? || project.value.maxPerBranch.None?) && (org.None? || org.value.maxPerBranch.None?) ==>
              r == DefaultPerBranchLimit
  {
    var last := [RL.MaxPerBranchOf(org)];
    assert last[1..] == [] && ([RL.MaxPerBranchOf(project)] + last)[1..] == last;
    assert FirstSet(last) == RL.MaxPerBranchOf(org);
    if project.Some? && project.value.maxPerBranch.Some? then project.value.maxPerBranch.value
    else if org.Some? && org.value.maxPerBranch.Some? then org.value.maxPerBranch.value
    else DefaultPerBranchLimit
  }

  /** A provisioning row joined to its branch, whose organization is `orgId`. */
  predicate InOrganization(branches: seq<BranchRecord>, orgId: Ulid, p: RL.Provisioning) {
    p.branchId.Some? && FindBranch(branches, p.branchId.value).Some? && FindBranch(branches, p.branchId.value).value.orgId == orgId
  }

  predicate InProject(branches: seq<BranchRecord>, projectId: Ulid, p: RL.Provisioning) {
    p.branchId.Some? && FindBranch(branches, p.branchId.value).Some? &&
    FindBranch(branches, p.branchId.value).value.projectId == projectId
  }

  function OrgProvisionRows(rows: seq<RL.Provisioning>, branches: seq<BranchRecord>, orgId: Ulid, t: RL.ResourceType): seq<RL.Provisioning> {
    Filter(rows, (p: RL.Provisioning) => p.resource == t && InOrganization(branches, orgId, p))
  }

  function ProjectProvisionRows(rows: seq<RL.Provisioning>, branches: seq<BranchRecord>, projectId: Ulid, t: RL.ResourceType)
    : seq<RL.Provisioning>
  {
    Filter(rows, (p: RL.Provisioning) => p.resource == t && InProject(branches, projectId, p))
  }

  function Amount(p: RL.Provisioning): int {
    p.amount
  }

  /** `sum(amount) or 0` over the organization's or the project's rows. */
  function OrgProvisioned(rows: seq<RL.Provisioning>, branches: seq<BranchRecord>, orgId: Ulid, t: RL.ResourceType): int {
    SumOf(OrgProvisionRows(rows, branches, orgId, t), Amount)
  }

  function ProjectProvisioned(rows: seq<RL.Provisioning>, branches: seq<BranchRecord>, projectId: Ulid, t: RL.ResourceType): int {
    SumOf(ProjectProvisionRows(rows, branches, projectId, t), Amount)
  }

  /** Remaining capacity: `max_total - provisioned` when a limit row exists,
      unbounded (`None`) otherwise. Unlike the shared helper, a zero
      allocation does not make it unbounded. */
  function Remaining(limit: Option<RL.LimitRow>, provisioned: int): (r: Option<int>)
    ensures r.Some? <==> limit.Some?
    ensures r.Some? ==> r.value == limit.value.maxTotal - provisioned
  {
    if limit.Some? then Some(limit.value.maxTotal - provisioned) else None
  }

  /** The effective limit of one resource for branch `b`. */
  function EffectiveFor(b: BranchRecord, branches: seq<BranchRecord>, limits: seq<RL.LimitRow>, rows: seq<RL.Provisioning>,
                        t: RL.ResourceType): int
  {
    var org := OrgLimitFor(limits, b.orgId, t);
    var project := ProjectLimitFor(limits, b.orgId, b.projectId, t);
    RL.EffectiveLimit(PerBranchLimit(project, org),
                      Remaining(org, OrgProvisioned(rows, branches, b.orgId, t)),
                      Remaining(project, ProjectProvisioned(rows, branches, b.projectId, t)))
  }

  function EffectiveMap(b: BranchRecord, branches: seq<BranchRecord>, limits: seq<RL.LimitRow>, rows: seq<RL.Provisioning>)
    : map<RL.ResourceType, int>
  {
    map t | t in RL.AllResources :: EffectiveFor(b, branches, limits, rows, t)
  }

  /** The effective limit is never negative and never above the cap. */
  lemma EffectiveBounds(b: BranchRecord, branches: seq<BranchRecord>, limits: seq<RL.LimitRow>, rows: seq<RL.Provisioning>,
                        t: RL.ResourceType)
    requires PerBranchLimit(ProjectLimitFor(limits, b.orgId, b.projectId, t), OrgLimitFor(limits, b.orgId, t)) >= 0
    ensures 0 <= EffectiveFor(b, branches, limits, rows, t)
    ensures EffectiveFor(b, branches, limits, rows, t) <=
            PerBranchLimit(ProjectLimitFor(limits, b.orgId, b.projectId, t), OrgLimitFor(limits, b.orgId, t))
  {
  }

  /** Without any limit row for the resource, the effective limit is 32000. */
  lemma NoLimitsGiveDefault(b: BranchRecord, branches: seq<BranchRecord>, limits: seq<RL.LimitRow>, rows: seq<RL.Provisioning>,
                            t: RL.ResourceType)
    requires forall i :: 0 <= i < |limits| ==> limits[i].resource != t
    ensures EffectiveFor(b, branches, limits, rows, t) == DefaultPerBranchLimit
  {
    assert OrgLimitFor(limits, b.orgId, t).None?;
    assert ProjectLimitFor(limits, b.orgId, b.projectId, t).None?;
  }

  /** A map with an entry for every resource type, each its effective limit,
      is the effective-limit map. */
  lemma EffectiveMapByValues(m: map<RL.ResourceType, int>, b: BranchRecord, branches: seq<BranchRecord>, limits: seq<RL.LimitRow>,
                             rows: seq<RL.Provisioning>)
    requires forall t :: t in m <==> t in RL.AllResources
    requires forall t :: t in m ==> m[t] == EffectiveFor(b, branches, limits, rows, t)
    ensures m == EffectiveMap(b, branches, limits, rows)
  {
  }

  /** `get_effective_branch_limits`: 404 for an unknown branch, otherwise the
      loop over the resource types. */
  method GetEffectiveBranchLimits(branches: seq<BranchRecord>, limits: seq<RL.LimitRow>, rows: seq<RL.Provisioning>, branchId: Ulid)
    returns (r: Result<map<RL.ResourceType, int>>)
    ensures r.Err? <==> FindBranch(branches, branchId).None?
    ensures r.Err? ==> r == Err(Http(404, "Branch " + branchId + " not found"))
    ensures r.Ok? ==> r.value == EffectiveMap(FindBranch(branches, branchId).value, branches, limits, rows)
  {
    var branch := FindBranch(branches, branchId);
    if branch.None? {
      return Err(Http(404, "Branch " + branchId + " not found"));
    }
    var b := branch.value;
    var effective: map<RL.ResourceType, int> := map[];
    var i := 0;
    while i < |RL.ResourceTypes|
      invariant 0 <= i <= |RL.ResourceTypes|
      invariant forall t :: t in effective <==> t in RL.ResourceTypes[..i]
      invariant forall t :: t in effective ==> effective[t] == EffectiveFor(b, branches, limits, rows, t)
    {
      var t := RL.ResourceTypes[i];
      assert RL.ResourceTypes[..i + 1] == RL.ResourceTypes[..i] + [t];
      var org := OrgLimitFor(limits, b.orgId, t);
      var project := ProjectLimitFor(limits, b.orgId, b.projectId, t);
      var perBranch := PerBranchLimit(project, org);
      var remainingOrg := Remaining(org, OrgProvisioned(rows, branches, b.orgId, t));
      var remainingProject := Remaining(project, ProjectProvisioned(rows, branches, b.projectId, t));
      effective := effective[t := RL.EffectiveLimit(perBranch, remainingOrg, remainingProject)];
      i := i + 1;
    }
    forall t ensures t in effective <==> t in RL.AllResources {
      RL.ResourceTypesComplete(t);
      assert RL.ResourceTypes[..|RL.ResourceTypes|] == RL.ResourceTypes;
    }
    EffectiveMapByValues(effective, b, branches, limits, rows);
    r := Ok(effective);
  }

  // ---------------------------------------------------------------------
  // Provisioning

  /** The upsert of one resource: the first row of `(branch, resource)` gets
      the amount (its `updated_at` is left alone), or a row is added. */
  function UpsertAmount(rows: seq<RL.Provisioning>, branchId: Ulid, t: RL.ResourceType, amount: int, now: int): seq<RL.Provisioning> {
    match RL.FindProvisioning(rows, branchId, t)
    case None => rows + [RL.Provisioning(Some(branchId), t, amount, now)]
    case Some(i) => rows[i := rows[i].(amount := amount)]
  }

  /** After the upsert the branch's row for the resource holds the amount,
      and every other row is where it was. */
  lemma UpsertAmountMeaning(rows: seq<RL.Provisioning>, branchId: Ulid, t: RL.ResourceType, amount: int, now: int)
    ensures var after := UpsertAmount(rows, branchId, t, amount, now);
      RL.FindProvisioning(after, branchId, t).Some? &&
      after[RL.FindProvisioning(after, branchId, t).value].amount == amount &&
      |after| == |rows| + (if RL.FindProvisioning(rows, branchId, t).None? then 1 else 0) &&
      forall j :: 0 <= j < |rows| && !RL.RowFor(rows[j], branchId, t) ==> after[j] == rows[j]
  {
    var after := UpsertAmount(rows, branchId, t, amount, now);
    var f := RL.FindProvisioning(rows, branchId, t);
    var g := RL.FindProvisioning(after, branchId, t);
    if f.None? {
      assert RL.RowFor(after[|rows|], branchId, t);
      if g.None? || g.value != |rows| {
        assert false;
      }
    } else {
      assert RL.RowFor(after[f.value], branchId, t);
      if g.None? || g.value != f.value {
        assert false;
      }
    }
  }

  /** The tables a provisioning request changes, and the failure that ended
      the request early, if any. */
  datatype ProvisionState = ProvisionState(rows: seq<RL.Provisioning>, logs: seq<RL.ProvisioningLog>, failure: Option<Failure>)

  /** One item of the request: the amount check, then the upsert and its
      "create" log. A name that is not a resource type has no effective limit
      and fails when it is used as one. */
  function ProvisionStep(s: ProvisionState, effective: map<RL.ResourceType, int>, branchId: Ulid, item: (string, int), now: int)
    : ProvisionState
  {
    if s.failure.Some? then s
    else
      var t := RL.ParseResourceType(item.0);
      if t.None? then s.(failure := Some(Raised("LookupError", item.0 + " is not a resource type")))
      else if t.value in effective && item.1 > effective[t.value] then
        s.(failure := Some(Http(422, item.0 + " limit exceeded for branch " + branchId)))
      else
        ProvisionState(UpsertAmount(s.rows, branchId, t.value, item.1, now),
                       s.logs + [RL.ProvisioningLog(branchId, t.value, item.1, "create", None, now)], None)
  }

  function ProvisionRun(s: ProvisionState, effective: map<RL.ResourceType, int>, branchId: Ulid, items: seq<(string, int)>, now: int)
    : ProvisionState
  {
    if items == [] then s
    else ProvisionStep(ProvisionRun(s, effective, branchId, items[..|items| - 1], now), effective, branchId, items[|items| - 1], now)
  }

  lemma ProvisionRunSnoc(s: ProvisionState, effective: map<RL.ResourceType, int>, branchId: Ulid, items: seq<(string, int)>,
                         now: int, k: nat)
    requires k < |items|
    ensures ProvisionRun(s, effective, branchId, items[..k + 1], now) ==
            ProvisionStep(ProvisionRun(s, effective, branchId, items[..k], now), effective, branchId, items[k], now)
  {
    assert items[..k + 1][..k] == items[..k];
  }

  /** Once an item fails, the later items change nothing. */
  lemma {:induction false} FailureIsFinal(s: ProvisionState, effective: map<RL.ResourceType, int>, branchId: Ulid,
                                          items: seq<(string, int)>, now: int, k: nat)
    requires k <= |items| && ProvisionRun(s, effective, branchId, items[..k], now).failure.Some?
    ensures ProvisionRun(s, effective, branchId, items, now) == ProvisionRun(s, effective, branchId, items[..k], now)
  {
    if k < |items| {
      var init := items[..|items| - 1];
      assert init[..k] == items[..k];
      FailureIsFinal(s, effective, branchId, init, now, k);
    } else {
      assert items[..k] == items;
    }
  }

  /** When item `k` is the first one rejected, the request ends with its
      failure and the tables as the items before it left them. */
  lemma ProvisionStopsAt(s: ProvisionState, effective: map<RL.ResourceType, int>, branchId: Ulid, items: seq<(string, int)>,
                         now: int, k: nat)
    requires k < |items|
    requires ProvisionRun(s, effective, branchId, items[..k], now).failure.None?
    requires ProvisionStep(ProvisionRun(s, effective, branchId, items[..k], now), effective, branchId, items[k], now).failure.Some?
    ensures var before := ProvisionRun(s, effective, branchId, items[..k], now);
      var final := ProvisionRun(s, effective, branchId, items, now);
      && final.failure == ProvisionStep(before, effective, branchId, items[k], now).failure
      && final.rows == before.rows && final.logs == before.logs
  {
    ProvisionRunSnoc(s, effective, branchId, items, now, k);
    FailureIsFinal(s, effective, branchId, items, now, k + 1);
  }

  /** The request is not all-or-nothing: when item `k` is the first one
      rejected, the rows and logs written for the items before it remain. */
  lemma RejectionKeepsEarlierWrites(s: ProvisionState, effective: map<RL.ResourceType, int>, branchId: Ulid,
                                    items: seq<(string, int)>, now: int, k: nat)
    requires s.failure.None?
    requires k < |items|
    requires ProvisionRun(s, effective, branchId, items[..k], now).failure.None?
    requires ProvisionRun(s, effective, branchId, items[..k + 1], now).failure.Some?
    ensures var before := ProvisionRun(s, effective, branchId, items[..k], now);
      var final := ProvisionRun(s, effective, branchId, items, now);
      final.failure.Some? && final.rows == before.rows && final.logs == before.logs
  {
    FailureIsFinal(s, effective, branchId, items, now, k + 1);
    assert items[..k + 1][..k] == items[..k];
  }

  /** An amount equal to its effective limit is accepted. */
  lemma AmountAtLimitAccepted(s: ProvisionState, effective: map<RL.ResourceType, int>, branchId: Ulid, t: RL.ResourceType,
                              now: int)
    requires s.failure.None? && t in effective
    ensures var after := ProvisionStep(s, effective, branchId, (RL.ResourceName(t), effective[t]), now);
      after.failure.None? && after.logs == s.logs + [RL.ProvisioningLog(branchId, t, effective[t], "create", None, now)]
  {
    RL.ResourceNameRoundTrip(t);
  }

  /** Every log written by a request says "create", one per accepted item. */
  lemma {:induction false} ProvisionLogsAreCreates(s: ProvisionState, effective: map<RL.ResourceType, int>, branchId: Ulid,
                                                   items: seq<(string, int)>, now: int)
    ensures var final := ProvisionRun(s, effective, branchId, items, now);
      |s.logs| <= |final.logs| <= |s.logs| + |items| && final.logs[..|s.logs|] == s.logs &&
      forall i :: |s.logs| <= i < |final.logs| ==> final.logs[i].action == "create" && final.logs[i].branchId == branchId
  {
    if items != [] {
      var init := items[..|items| - 1];
      ProvisionLogsAreCreates(s, effective, branchId, init, now);
      var mid := ProvisionRun(s, effective, branchId, init, now);
      var final := ProvisionRun(s, effective, branchId, items, now);
      if final.logs != mid.logs {
        assert final.logs[..|mid.logs|] == mid.logs;
        assert final.logs[..|s.logs|] == mid.logs[..|s.logs|];
      }
    }
  }

  /** The outcome of `provision_branch` for a branch that exists: the items
      run against the branch's effective limits in the tables as they were. */
  function Provisioned(b: BranchRecord, branches: seq<BranchRecord>, limits: seq<RL.LimitRow>, rows: seq<RL.Provisioning>,
                       logs: seq<RL.ProvisioningLog>, branchId: Ulid, items: seq<(string, int)>, now: int): ProvisionState
  {
    ProvisionRun(ProvisionState(rows, logs, None), EffectiveMap(b, branches, limits, rows), branchId, items, now)
  }

  /** The metering tables. */
  class MeteringStore {
    var rows: seq<RL.Provisioning>
    var logs: seq<RL.ProvisioningLog>
    var limits: seq<RL.LimitRow>
    var consumption: seq<ConsumptionLimit>
    var usages: seq<RL.UsageMinute>

    constructor(rows: seq<RL.Provisioning>, limits: seq<RL.LimitRow>)
      ensures this.rows == rows && this.limits == limits && logs == [] && consumption == [] && usages == []
    {
      this.rows := rows;
      this.limits := limits;
      logs := [];
      consumption := [];
      usages := [];
    }

    /** `provision_branch`: 404 for an unknown branch; otherwise the effective
        limits are computed once and the items are handled in order, each
        accepted one committed before the next is looked at. */
    method ProvisionBranch(branches: seq<BranchRecord>, branchId: Ulid, payload: seq<(string, int)>, now: int)
      returns (r: Result<()>)
      modifies this
      ensures FindBranch(branches, branchId).None? ==>
                r == Err(Http(404, "Branch not found")) && rows == old(rows) && logs == old(logs)
      ensures FindBranch(branches, branchId).Some? ==>
                rows == Provisioned(FindBranch(branches, branchId).value, branches, old(limits), old(rows), old(logs),
                                    branchId, payload, now).rows
      ensures FindBranch(branches, branchId).Some? ==>
                logs == Provisioned(FindBranch(branches, branchId).value, branches, old(limits), old(rows), old(logs),
                                    branchId, payload, now).logs
      ensures FindBranch(branches, branchId).Some? ==>
                (r.Err? <==> Provisioned(FindBranch(branches, branchId).value, branches, old(limits), old(rows), old(logs),
                                         branchId, payload, now).failure.Some?)
      ensures FindBranch(branches, branchId).Some? && r.Err? ==>
                Some(r.failure) == Provisioned(FindBranch(branches, branchId).value, branches, old(limits), old(rows), old(logs),
                                               branchId, payload, now).failure
      ensures limits == old(limits) && consumption == old(consumption) && usages == old(usages)
    {
      if FindBranch(branches, branchId).None? {
        return Err(Http(404, "Branch not found"));
      }
      var effectiveResult := GetEffectiveBranchLimits(branches, limits, rows, branchId);
      r := ProvisionItems(effectiveResult.value, branchId, payload, now);
    }

    /** The loop of `provision_branch` over the items, against the effective
        limits computed before it. */
    method ProvisionItems(effective: map<RL.ResourceType, int>, branchId: Ulid, payload: seq<(string, int)>, now: int)
      returns (r: Result<()>)
      modifies this
      ensures rows == ProvisionRun(ProvisionState(old(rows), old(logs), None), effective, branchId, payload, now).rows
      ensures logs == ProvisionRun(ProvisionState(old(rows), old(logs), None), effective, branchId, payload, now).logs
      ensures r.Err? <==> ProvisionRun(ProvisionState(old(rows), old(logs), None), effective, branchId, payload, now).failure.Some?
      ensures r.Err? ==> Some(r.failure) == ProvisionRun(ProvisionState(old(rows), old(logs), None), effective, branchId, payload, now).failure
      ensures limits == old(limits) && consumption == old(consumption) && usages == old(usages)
    {
      ghost var start := ProvisionState(rows, logs, None);
      var i := 0;
      while i < |payload|
        invariant 0 <= i <= |payload|
        invariant ProvisionRun(start, effective, branchId, payload[..i], now) == ProvisionState(rows, logs, None)
        invariant limits == old(limits) && consumption == old(consumption) && usages == old(usages)
      {
        ProvisionRunSnoc(start, effective, branchId, payload, now, i);
        var (name, amount) := payload[i];
        var t := RL.ParseResourceType(name);
        if t.None? {
          ProvisionStopsAt(start, effective, branchId, payload, now, i);
          return Err(Raised("LookupError", name + " is not a resource type"));
        }
        if t.value in effective && amount > effective[t.value] {
          ProvisionStopsAt(start, effective, branchId, payload, now, i);
          return Err(Http(422, name + " limit exceeded for branch " + branchId));
        }
        Upsert(branchId, t.value, amount, now);
        i := i + 1;
      }
      assert payload[..|payload|] == payload;
      r := Ok(());
    }

    /** The upsert of one accepted item and its "create" log. */
    method Upsert(branchId: Ulid, t: RL.ResourceType, amount: int, now: int)
      modifies this
      ensures rows == UpsertAmount(old(rows), branchId, t, amount, now)
      ensures logs == old(logs) + [RL.ProvisioningLog(branchId, t, amount, "create", None, now)]
      ensures limits == old(limits) && consumption == old(consumption) && usages == old(usages)
    {
      var found := RL.FindProvisioning(rows, branchId, t);
      if found.Some? {
        rows := rows[found.value := rows[found.value].(amount := amount)];
      } else {
        rows := rows + [RL.Provisioning(Some(branchId), t, amount, now)];
      }
      logs := logs + [RL.ProvisioningLog(branchId, t, amount, "create", None, now)];
    }

    /** `set_provisioning_limit`: the first limit row of the scope is
        updated, or a row is added. */
    method SetProvisioningLimit(projects: seq<ProjectRow>, entityType: ApiEntityType, entityId: Ulid, t: RL.ResourceType,
                                maxTotal: int, maxPerBranch: int)
      returns (r: Result<()>)
      modifies this
      ensures r.Err? <==> ResolveScope(projects, entityType, entityId).Err?
      ensures r.Err? ==> r == Err(ResolveScope(projects, entityType, entityId).failure) && limits == old(limits)
      ensures r.Ok? ==>
                limits == SetLimitRows(old(limits), ResolveScope(projects, entityType, entityId).value, false, t, maxTotal, maxPerBranch)
      ensures rows == old(rows) && logs == old(logs) && consumption == old(consumption) && usages == old(usages)
    {
      var scope := ResolveScope(projects, entityType, entityId);
      if scope.Err? {
        return Err(scope.failure);
      }
      var found := LimitIndex(limits, scope.value, false, t);
      if found.Some? {
        limits := limits[found.value := limits[found.value].(maxTotal := maxTotal, maxPerBranch := Some(maxPerBranch))];
      } else {
        limits := limits + [RL.LimitRow(scope.value.entityType, Some(scope.value.orgId), scope.value.projectId, t, maxTotal,
                                        Some(maxPerBranch))];
      }
      r := Ok(());
    }

    /** `set_consumption_limit`: the same upsert on consumption limits,
        keyed on all four columns. */
    method SetConsumptionLimit(projects: seq<ProjectRow>, entityType: ApiEntityType, entityId: Ulid, t: RL.ResourceType,
                               maxTotalMinutes: int)
      returns (r: Result<()>)
      modifies this
      ensures r.Err? <==> ResolveScope(projects, entityType, entityId).Err?
      ensures r.Err? ==> r == Err(ResolveScope(projects, entityType, entityId).failure) && consumption == old(consumption)
      ensures r.Ok? ==>
                consumption == SetConsumptionRows(old(consumption), ResolveScope(projects, entityType, entityId).value, t, maxTotalMinutes)
      ensures rows == old(rows) && logs == old(logs) && limits == old(limits) && usages == old(usages)
    {
      var scope := ResolveScope(projects, entityType, entityId);
      if scope.Err? {
        return Err(scope.failure);
      }
      var found := ConsumptionIndex(consumption, scope.value, t);
      if found.Some? {
        consumption := consumption[found.value := consumption[found.value].(maxTotalMinutes := maxTotalMinutes)];
      } else {
        consumption := consumption + [ConsumptionLimit(scope.value.entityType, Some(scope.value.orgId), scope.value.projectId, t,
                                                       maxTotalMinutes)];
      }
      r := Ok(());
    }

    /** The usage rows of one healthy branch: one per provisioning row of it. */
    method MeterBranch(b: BranchRecord, tsMinute: int)
      modifies this
      ensures usages == old(usages) + UsageFor(b, rows, tsMinute)
      ensures rows == old(rows) && logs == old(logs) && limits == old(limits) && consumption == old(consumption)
    {
      var j := 0;
      while j < |rows|
        invariant 0 <= j <= |rows|
        invariant usages == old(usages) + UsageFor(b, rows[..j], tsMinute)
        invariant rows == old(rows) && logs == old(logs) && limits == old(limits) && consumption == old(consumption)
      {
        assert rows[..j + 1][..j] == rows[..j];
        var p := rows[j];
        if p.branchId == Some(b.id) {
          usages := usages + [RL.UsageMinute(tsMinute, b.orgId, b.projectId, b.id, p.resource, p.amount)];
        }
        j := j + 1;
      }
      assert rows[..|rows|] == rows;
    }

    /** The body of the metering loop for `branches[i]`: its usage rows are
        written when its status is the wanted one. */
    method MeterNext(branches: seq<BranchRecord>, statuses: seq<string>, wanted: string, tsMinute: int, i: nat,
                     ghost start: seq<RL.UsageMinute>)
      requires |statuses| == |branches| && i < |branches|
      requires usages == start + MeteredPrefix(branches, statuses, wanted, rows, tsMinute, i)
      modifies this
      ensures usages == start + MeteredPrefix(branches, statuses, wanted, rows, tsMinute, i + 1)
      ensures rows == old(rows) && logs == old(logs) && limits == old(limits) && consumption == old(consumption)
    {
      ghost var metered := MeteredPrefix(branches, statuses, wanted, rows, tsMinute, i);
      MeteredUsageStep(branches, statuses, wanted, rows, tsMinute, i);
      if statuses[i] == wanted {
        ghost var added := UsageFor(branches[i], rows, tsMinute);
        MeterBranch(branches[i], tsMinute);
        assert start + metered + added == start + (metered + added);
      }
    }

    /** One iteration of `monitor_resources`: a usage row per provisioning row
        of every branch whose status is ACTIVE_HEALTHY, stamped with the
        current minute. `statuses[i]` is what the status probe reports for
        `branches[i]`. */
    method MonitorResources(branches: seq<BranchRecord>, statuses: seq<string>, now: int)
      requires |statuses| == |branches|
      modifies this
      ensures usages == old(usages) + MeteredUsage(BranchesWithStatus(branches, statuses, "ACTIVE_HEALTHY"), rows, RL.TruncateToMinute(now))
      ensures rows == old(rows) && logs == old(logs) && limits == old(limits) && consumption == old(consumption)
    {
      var tsMinute := RL.TruncateToMinute(now);
      ghost var start := usages;
      var i := 0;
      while i < |branches|
        invariant 0 <= i <= |branches|
        invariant usages == start + MeteredPrefix(branches, statuses, "ACTIVE_HEALTHY", rows, tsMinute, i)
        invariant rows == old(rows) && logs == old(logs) && limits == old(limits) && consumption == old(consumption)
      {
        MeterNext(branches, statuses, "ACTIVE_HEALTHY", tsMinute, i, start);
        i := i + 1;
      }
      assert branches[..|branches|] == branches && statuses[..|statuses|] == statuses;
    }
  }

  /** The entity types of the limit endpoints' path parameter. */
  datatype ApiEntityType = ApiOrg | ApiOrgEnv | ApiProject

  /** The columns a limit of one entity is stored under. */
  datatype Scope = Scope(entityType: RL.EntityType, orgId: Ulid, projectId: Option<Ulid>)

  /** Where an entity's limit goes: an organization is itself, a project is
      looked up for its organization (404 when missing); an organization
      environment is refused with 400. */
  function ResolveScope(projects: seq<ProjectRow>, entityType: ApiEntityType, entityId: Ulid): (r: Result<Scope>)
    ensures entityType == ApiOrg ==> r == Ok(Scope(RL.OrgEntity, entityId, None))
    ensures entityType == ApiOrgEnv ==> r == Err(Http(400, "Unsupported entity type"))
    ensures entityType == ApiProject && FindProject(projects, entityId).None? ==> r == Err(Http(404, "Project not found"))
    ensures entityType == ApiProject && FindProject(projects, entityId).Some? ==>
              r == Ok(Scope(RL.ProjectEntity, FindProject(projects, entityId).value.orgId, Some(entityId)))
  {
    match entityType
    case ApiOrg => Ok(Scope(RL.OrgEntity, entityId, None))
    case ApiProject =>
      var project := FindProject(projects, entityId);
      if project.None? then Err(Http(404, "Project not found")) else Ok(Scope(RL.ProjectEntity, project.value.orgId, Some(project.value.id)))
    case ApiOrgEnv => Err(Http(400, "Unsupported entity type"))
  }

  /** The limit lookup of the upsert. With `exactProject` the project column
      must equal the scope's (a missing project matching only rows without
      one); without it the column is compared only when the scope has a
      project. */
  predicate MatchesLimit(l: RL.LimitRow, scope: Scope, exactProject: bool, t: RL.ResourceType) {
    l.entityType == scope.entityType && l.orgId == Some(scope.orgId) && l.resource == t &&
    (exactProject || scope.projectId.Some? ==> l.projectId == scope.projectId)
  }

  /** The consumption-limit lookup: keyed on all four columns. */
  predicate MatchesConsumption(c: ConsumptionLimit, scope: Scope, t: RL.ResourceType) {
    c.entityType == scope.entityType && c.orgId == Some(scope.orgId) && c.projectId == scope.projectId && c.resource == t
  }

  function LimitIndex(limits: seq<RL.LimitRow>, scope: Scope, exactProject: bool, t: RL.ResourceType): Option<nat> {
    FirstIndex(limits, l => MatchesLimit(l, scope, exactProject, t))
  }

  function ConsumptionIndex(rows: seq<ConsumptionLimit>, scope: Scope, t: RL.ResourceType): Option<nat> {
    FirstIndex(rows, c => MatchesConsumption(c, scope, t))
  }

  function SetLimitRows(limits: seq<RL.LimitRow>, scope: Scope, exactProject: bool, t: RL.ResourceType, maxTotal: int, maxPerBranch: int)
    : seq<RL.LimitRow>
  {
    match LimitIndex(limits, scope, exactProject, t)
    case Some(i) => limits[i := limits[i].(maxTotal := maxTotal, maxPerBranch := Some(maxPerBranch))]
    case None => limits + [RL.LimitRow(scope.entityType, Some(scope.orgId), scope.projectId, t, maxTotal, Some(maxPerBranch))]
  }

  function SetConsumptionRows(rows: seq<ConsumptionLimit>, scope: Scope, t: RL.ResourceType, maxTotalMinutes: int): seq<ConsumptionLimit> {
    match ConsumptionIndex(rows, scope, t)
    case Some(i) => rows[i := rows[i].(maxTotalMinutes := maxTotalMinutes)]
    case None => rows + [ConsumptionLimit(scope.entityType, Some(scope.orgId), scope.projectId, t, maxTotalMinutes)]
  }

  /** After the upsert the first matching limit row holds the new values; a
      match is updated in place, otherwise exactly one row is added, and no
      other row changes. */
  lemma SetLimitRowsReadBack(limits: seq<RL.LimitRow>, scope: Scope, exactProject: bool, t: RL.ResourceType, maxTotal: int,
                             maxPerBranch: int)
    ensures var after := SetLimitRows(limits, scope, exactProject, t, maxTotal, maxPerBranch);
      var i := LimitIndex(after, scope, exactProject, t);
      i.Some? && after[i.value].maxTotal == maxTotal && after[i.value].maxPerBranch == Some(maxPerBranch) &&
      |after| == |limits| + (if LimitIndex(limits, scope, exactProject, t).Some? then 0 else 1) &&
      forall j :: 0 <= j < |limits| && j != i.value ==> after[j] == limits[j]
  {
    var after := SetLimitRows(limits, scope, exactProject, t, maxTotal, maxPerBranch);
    var f := LimitIndex(limits, scope, exactProject, t);
    var g := LimitIndex(after, scope, exactProject, t);
    if f.Some? {
      assert MatchesLimit(after[f.value], scope, exactProject, t);
      if g.None? || g.value != f.value {
        assert false;
      }
    } else {
      assert MatchesLimit(after[|limits|], scope, exactProject, t);
      if g.None? || g.value != |limits| {
        assert false;
      }
    }
  }

  lemma SetConsumptionRowsReadBack(rows: seq<ConsumptionLimit>, scope: Scope, t: RL.ResourceType, maxTotalMinutes: int)
    ensures var after := SetConsumptionRows(rows, scope, t, maxTotalMinutes);
      var i := ConsumptionIndex(after, scope, t);
      i.Some? && after[i.value].maxTotalMinutes == maxTotalMinutes &&
      |after| == |rows| + (if ConsumptionIndex(rows, scope, t).Some? then 0 else 1) &&
      forall j :: 0 <= j < |rows| && j != i.value ==> after[j] == rows[j]
  {
    var after := SetConsumptionRows(rows, scope, t, maxTotalMinutes);
    var f := ConsumptionIndex(rows, scope, t);
    var g := ConsumptionIndex(after, scope, t);
    if f.Some? {
      assert MatchesConsumption(after[f.value], scope, t);
      if g.None? || g.value != f.value {
        assert false;
      }
    } else {
      assert MatchesConsumption(after[|rows|], scope, t);
      if g.None? || g.value != |rows| {
        assert false;
      }
    }
  }

  /** Setting an organization limit without the exact project key updates
      the first organization row of the resource even when that row carries
      a project; with the exact key such a row is never touched. */
  lemma OrgScopeIgnoresProjectColumn(l: RL.LimitRow, orgId: Ulid, t: RL.ResourceType)
    requires l.entityType == RL.OrgEntity && l.orgId == Some(orgId) && l.resource == t && l.projectId.Some?
    ensures LimitIndex([l], Scope(RL.OrgEntity, orgId, None), false, t) == Some(0)
    ensures LimitIndex([l], Scope(RL.OrgEntity, orgId, None), true, t).None?
  {
    assert MatchesLimit([l][0], Scope(RL.OrgEntity, orgId, None), false, t);
  }

  // ---------------------------------------------------------------------
  // Usage

  /** A bound as the handlers normalize it: an aware value converted to UTC
      and made naive, a naive value kept. */
  function NormalizeBound(dt: Option<BM.IsoDatetime>): (r: Option<int>)
    ensures r.Some? <==> dt.Some?
    ensures dt.Some? && dt.value.offset.None? ==> r == Some(dt.value.local)
    ensures dt.Some? && dt.value.offset.Some? ==> r == Some(dt.value.local - dt.value.offset.value)
  {
    if dt.None? then None else Some(BM.UtcSeconds(dt.value))
  }

  /** `get_project_usage`: per-resource sums over `[cycle_start, cycle_end)`;
      the accumulation is the same dict fill as the shared helper's. */
  method GetProjectUsage(usages: seq<RL.UsageMinute>, projectId: Ulid, start: Option<BM.IsoDatetime>, end: Option<BM.IsoDatetime>)
    returns (result: map<RL.ResourceType, int>)
    ensures forall t :: t in result <==>
              RL.HasUsage(RL.ProjectUsageRows(usages, projectId, RL.UsageCycle(NormalizeBound(start), NormalizeBound(end))), t)
    ensures forall t :: t in result ==>
              result[t] == RL.UsageAmount(RL.ProjectUsageRows(usages, projectId, RL.UsageCycle(NormalizeBound(start), NormalizeBound(end))), t)
  {
    result := RL.MapResourceUsages(RL.ProjectUsageRows(usages, projectId, RL.UsageCycle(NormalizeBound(start), NormalizeBound(end))));
  }

  /** `get_org_usage`. */
  method GetOrgUsage(usages: seq<RL.UsageMinute>, orgId: Ulid, start: Option<BM.IsoDatetime>, end: Option<BM.IsoDatetime>)
    returns (result: map<RL.ResourceType, int>)
    ensures forall t :: t in result <==>
              RL.HasUsage(RL.OrganizationUsageRows(usages, orgId, RL.UsageCycle(NormalizeBound(start), NormalizeBound(end))), t)
    ensures forall t :: t in result ==>
              result[t] == RL.UsageAmount(RL.OrganizationUsageRows(usages, orgId, RL.UsageCycle(NormalizeBound(start), NormalizeBound(end))), t)
  {
    result := RL.MapResourceUsages(RL.OrganizationUsageRows(usages, orgId, RL.UsageCycle(NormalizeBound(start), NormalizeBound(end))));
  }

  // ---------------------------------------------------------------------
  // Metering

  /** The usage rows written for one branch, one per provisioning row of it. */
  function UsageFor(b: BranchRecord, rows: seq<RL.Provisioning>, ts: int): seq<RL.UsageMinute> {
    if rows == [] then []
    else
      var p := rows[|rows| - 1];
      UsageFor(b, rows[..|rows| - 1], ts) +
      (if p.branchId == Some(b.id) then [RL.UsageMinute(ts, b.orgId, b.projectId, b.id, p.resource, p.amount)] else [])
  }

  function MeteredUsage(branches: seq<BranchRecord>, rows: seq<RL.Provisioning>, ts: int): seq<RL.UsageMinute> {
    if branches == [] then []
    else MeteredUsage(branches[..|branches| - 1], rows, ts) + UsageFor(branches[|branches| - 1], rows, ts)
  }

  lemma MeteredUsageAppend(branches: seq<BranchRecord>, b: BranchRecord, rows: seq<RL.Provisioning>, ts: int)
    ensures MeteredUsage(branches + [b], rows, ts) == MeteredUsage(branches, rows, ts) + UsageFor(b, rows, ts)
  {
    assert (branches + [b])[..|branches|] == branches;
  }

  /** The usage rows a metering pass writes for the first `i` branches. */
  function MeteredPrefix(branches: seq<BranchRecord>, statuses: seq<string>, wanted: string, rows: seq<RL.Provisioning>,
                         ts: int, i: nat): seq<RL.UsageMinute>
    requires |statuses| == |branches| && i <= |branches|
  {
    MeteredUsage(BranchesWithStatus(branches[..i], statuses[..i], wanted), rows, ts)
  }

  /** Metering one more branch of the table adds its usage rows when its
      status is the wanted one. */
  lemma MeteredUsageStep(branches: seq<BranchRecord>, statuses: seq<string>, wanted: string, rows: seq<RL.Provisioning>,
                         ts: int, i: nat)
    requires |statuses| == |branches| && i < |branches|
    ensures MeteredPrefix(branches, statuses, wanted, rows, ts, i + 1) ==
            MeteredPrefix(branches, statuses, wanted, rows, ts, i) + (if statuses[i] == wanted then UsageFor(branches[i], rows, ts) else [])
  {
    var prev := BranchesWithStatus(branches[..i], statuses[..i], wanted);
    assert branches[..i + 1][..i] == branches[..i] && statuses[..i + 1][..i] == statuses[..i];
    assert BranchesWithStatus(branches[..i + 1], statuses[..i + 1], wanted) ==
           prev + (if statuses[i] == wanted then [branches[i]] else []);
    if statuses[i] == wanted {
      MeteredUsageAppend(prev, branches[i], rows, ts);
    } else {
      assert prev + [] == prev;
    }
  }

  /** The branches whose status is `wanted`, in order. */
  function BranchesWithStatus(branches: seq<BranchRecord>, statuses: seq<string>, wanted: string): (r: seq<BranchRecord>)
    requires |statuses| == |branches|
    ensures forall b :: b in r ==> exists i :: 0 <= i < |branches| && branches[i] == b && statuses[i] == wanted
    ensures forall i :: 0 <= i < |branches| && statuses[i] == wanted ==> branches[i] in r
  {
    if branches == [] then []
    else
      var init := BranchesWithStatus(branches[..|branches| - 1], statuses[..|statuses| - 1], wanted);
      assert forall i :: 0 <= i < |branches| - 1 ==> branches[..|branches| - 1][i] == branches[i] && statuses[..|statuses| - 1][i] == statuses[i];
      init + (if statuses[|statuses| - 1] == wanted then [branches[|branches| - 1]] else [])
  }

  function CountRowsOf(b: BranchRecord, rows: seq<RL.Provisioning>): nat {
    if rows == [] then 0 else CountRowsOf(b, rows[..|rows| - 1]) + (if rows[|rows| - 1].branchId == Some(b.id) then 1 else 0)
  }

  /** Each usage row of a branch copies one of its provisioning rows, stamped
      with the pass's minute; there is one per provisioning row. */
  lemma {:induction false} UsageForMeaning(b: BranchRecord, rows: seq<RL.Provisioning>, ts: int)
    ensures |UsageFor(b, rows, ts)| == CountRowsOf(b, rows)
    ensures forall u :: u in UsageFor(b, rows, ts) ==>
              u.tsMinute == ts && u.branchId == b.id && u.projectId == b.projectId && u.orgId == b.orgId &&
              exists p :: p in rows && p.branchId == Some(b.id) && p.resource == u.resource && p.amount == u.amount
  {
    if rows != [] {
      UsageForMeaning(b, rows[..|rows| - 1], ts);
      forall u | u in UsageFor(b, rows[..|rows| - 1], ts)
        ensures exists p :: p in rows && p.branchId == Some(b.id) && p.resource == u.resource && p.amount == u.amount
      {
        var p :| p in rows[..|rows| - 1] && p.branchId == Some(b.id) && p.resource == u.resource && p.amount == u.amount;
        assert p in rows;
      }
    }
  }
}
