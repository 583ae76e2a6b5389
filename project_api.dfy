/** Project creation and update checks (the organization's backup budget and
    the per-resource project limits) and the project status flow of delete,
    suspend and resume. */
module ProjectApi {
  import opened Common
  import RL = ResourceLimit

  // ---------------------------------------------------------------------
  // Backup budget

  datatype ProjectRecord = ProjectRecord(id: Ulid, orgId: Ulid, maxBackups: int)
  datatype OrganizationRecord = OrganizationRecord(id: Ulid, maxBackups: int)

  predicate BudgetRow(p: ProjectRecord, orgId: Ulid, exclude: Option<Ulid>) {
    p.orgId == orgId && (exclude.Some? ==> p.id != exclude.value)
  }

  /** The projects whose `max_backups` the budget query sums. */
  function BudgetRows(projects: seq<ProjectRecord>, orgId: Ulid, exclude: Option<Ulid>): seq<ProjectRecord> {
    Filter(projects, p => BudgetRow(p, orgId, exclude))
  }

  /** `coalesce(sum(max_backups), 0)` over those projects. */
  function AllocatedBackups(projects: seq<ProjectRecord>, orgId: Ulid, exclude: Option<Ulid>): int {
    SumOf(BudgetRows(projects, orgId, exclude), (p: ProjectRecord) => p.maxBackups)
  }

  function RemainingBackupCapacity(org: OrganizationRecord, projects: seq<ProjectRecord>, exclude: Option<Ulid>): int {
    Max(org.maxBackups - AllocatedBackups(projects, org.id, exclude), 0)
  }

  /** `_validate_project_backup_budget`: a request above the remaining budget
      is a 422; a request that uses it up exactly is accepted. */
  function ValidateProjectBackupBudget(org: OrganizationRecord, projects: seq<ProjectRecord>, requested: int,
                                       exclude: Option<Ulid>): (r: Result<()>)
    ensures r.Ok? <==> requested <= RemainingBackupCapacity(org, projects, exclude)
    ensures r.Err? ==> r.IsHttp(422)
    ensures requested == RemainingBackupCapacity(org, projects, exclude) ==> r.Ok?
  {
    var remaining := RemainingBackupCapacity(org, projects, exclude);
    if requested > remaining then
      Err(Http(422, "Requested max_backups " + IntToString(requested) +
                    " exceeds the organization's remaining backup capacity " + IntToString(remaining) +
                    " (limit " + IntToString(org.maxBackups) + ")"))
    else Ok(())
  }

  lemma BudgetStep(projects: seq<ProjectRecord>, orgId: Ulid, exclude: Option<Ulid>)
    requires projects != []
    ensures var last := projects[|projects| - 1];
      AllocatedBackups(projects, orgId, exclude) ==
      AllocatedBackups(projects[..|projects| - 1], orgId, exclude) + (if BudgetRow(last, orgId, exclude) then last.maxBackups else 0)
  {
    var last := projects[|projects| - 1];
    var f := BudgetRows(projects[..|projects| - 1], orgId, exclude);
    if BudgetRow(last, orgId, exclude) {
      assert BudgetRows(projects, orgId, exclude) == f + [last];
      assert (f + [last])[..|f|] == f;
    } else {
      assert BudgetRows(projects, orgId, exclude) == f + [];
      assert f + [] == f;
    }
  }

  /** The budget sum is independent of an excluded project's own value. */
  lemma {:induction false} ExcludedValueIgnored(projects: seq<ProjectRecord>, orgId: Ulid, self: Ulid, k: nat, v: int)
    requires k < |projects| && projects[k].id == self
    ensures AllocatedBackups(projects[k := projects[k].(maxBackups := v)], orgId, Some(self)) ==
            AllocatedBackups(projects, orgId, Some(self))
  {
    var q := projects[k := projects[k].(maxBackups := v)];
    var n := |projects|;
    BudgetStep(q, orgId, Some(self));
    BudgetStep(projects, orgId, Some(self));
    if k < n - 1 {
      assert q[..n - 1] == projects[..n - 1][k := projects[k].(maxBackups := v)];
      ExcludedValueIgnored(projects[..n - 1], orgId, self, k, v);
      assert q[n - 1] == projects[n - 1];
    } else {
      assert q[..n - 1] == projects[..n - 1];
    }
  }

  /** An update of `max_backups` excludes the project's own current value, so
      the check a project faces does not depend on what it holds now. */
  lemma UpdateIgnoresOwnValue(org: OrganizationRecord, projects: seq<ProjectRecord>, k: nat, v: int, requested: int)
    requires k < |projects|
    ensures ValidateProjectBackupBudget(org, projects[k := projects[k].(maxBackups := v)], requested, Some(projects[k].id)) ==
            ValidateProjectBackupBudget(org, projects, requested, Some(projects[k].id))
  {
    ExcludedValueIgnored(projects, org.id, projects[k].id, k, v);
  }

  // ---------------------------------------------------------------------
  // Project limits

  /** `_normalize_limits`: the payload's items with their keys parsed; an
      unknown name is a 422 naming the field and the resource. */
  method NormalizeLimits(payload: seq<(string, int)>, field: string) returns (r: Result<seq<(RL.ResourceType, int)>>)
    ensures r.Err? <==> exists i :: 0 <= i < |payload| && RL.ParseResourceType(payload[i].0).None?
    ensures r.Err? ==> r.IsHttp(422)
    ensures r.Ok? ==> |r.value| == |payload| &&
                      forall i :: 0 <= i < |payload| ==> r.value[i] == (RL.ParseResourceType(payload[i].0).value, payload[i].1)
  {
    var normalized: seq<(RL.ResourceType, int)> := [];
    var i := 0;
    while i < |payload|
      invariant 0 <= i <= |payload|
      invariant forall k :: 0 <= k < i ==> RL.ParseResourceType(payload[k].0).Some?
      invariant |normalized| == i
      invariant forall k :: 0 <= k < i ==> normalized[k] == (RL.ParseResourceType(payload[k].0).value, payload[k].1)
    {
      var (name, value) := payload[i];
      var t := RL.ParseResourceType(name);
      if t.None? {
        return Err(Http(422, "Unknown resource type '" + name + "' in " + field));
      }
      normalized := normalized + [(t.value, value)];
      i := i + 1;
    }
    r := Ok(normalized);
  }

  /** The organization's limit row as this handler reads it. */
  datatype OrgLimit = OrgLimit(maxTotal: Option<int>, maxPerBranch: Option<int>)

  /** One entry of the 422 error list. */
  datatype LimitError = LimitError(kind: string, field: string, resource: RL.ResourceType, input: int)

  /** `_resolve_per_branch_limit`: an override above the organization's
      per-branch limit is an error; otherwise override, organization per-branch
      limit, then the requested total, capped by the requested total. */
  function ResolvePerBranchLimit(t: RL.ResourceType, requested: int, override: Option<int>, orgPerBranch: Option<int>)
    : (r: Result<int>)
    ensures r.Err? <==> override.Some? && orgPerBranch.Some? && override.value > orgPerBranch.value
    ensures r.Ok? ==> r.value <= requested
    ensures r.Ok? && orgPerBranch.Some? ==> r.value <= orgPerBranch.value
    ensures r.Ok? && override.Some? ==> r.value == Min(override.value, requested)
    ensures r.Ok? && override.None? && orgPerBranch.Some? ==> r.value == Min(orgPerBranch.value, requested)
    ensures r.Ok? && override.None? && orgPerBranch.None? ==> r.value == requested
  {
    if override.Some? && orgPerBranch.Some? && override.value > orgPerBranch.value then
      Err(Http(422, "Requested per-branch limit exceeds organization limit"))
    else
      var perBranch := if override.Some? then override.value
                       else if orgPerBranch.Some? then orgPerBranch.value
                       else requested;
      Ok(Min(perBranch, requested))
  }

  /** The result of `_calculate_project_limit_pair`: a pair, or the error
      it appends. */
  datatype PairOutcome = Pair(total: int, perBranch: int) | Rejected(error: LimitError)

  function CalculateProjectLimitPair(t: RL.ResourceType, requested: int, orgLimit: Option<OrgLimit>, override: Option<int>,
                                     consumed: int): (r: PairOutcome)
    ensures r.Rejected? && (orgLimit.None? || orgLimit.value.maxTotal.None?) ==>
              r.error == LimitError("limit_unconfigured", "project_limits", t, requested)
    ensures (orgLimit.None? || orgLimit.value.maxTotal.None?) ==> r.Rejected?
    ensures orgLimit.Some? && orgLimit.value.maxTotal.Some? && requested > Max(orgLimit.value.maxTotal.value - consumed, 0) ==>
              r == Rejected(LimitError("exceeded", "project_limits", t, requested))
    ensures r.Pair? ==> orgLimit.Some? && orgLimit.value.maxTotal.Some? &&
                        r.total == requested && requested <= Max(orgLimit.value.maxTotal.value - consumed, 0) &&
                        r.perBranch <= r.total &&
                        ResolvePerBranchLimit(t, requested, override, orgLimit.value.maxPerBranch) == Ok(r.perBranch)
    ensures r.Rejected? && orgLimit.Some? && orgLimit.value.maxTotal.Some? &&
            requested <= Max(orgLimit.value.maxTotal.value - consumed, 0) ==>
              override.Some? && r.error == LimitError("exceeded", "per_branch_limits", t, override.value) &&
              ResolvePerBranchLimit(t, requested, override, orgLimit.value.maxPerBranch).Err?
  {
    if orgLimit.None? || orgLimit.value.maxTotal.None? then
      Rejected(LimitError("limit_unconfigured", "project_limits", t, requested))
    else
      var remaining := Max(orgLimit.value.maxTotal.value - consumed, 0);
      if requested > remaining then Rejected(LimitError("exceeded", "project_limits", t, requested))
      else
        match ResolvePerBranchLimit(t, requested, override, orgLimit.value.maxPerBranch)
        case Err(_) => Rejected(LimitError("exceeded", "per_branch_limits", t, override.value))
        case Ok(perBranch) => Pair(requested, perBranch)
  }

  function PairFor(item: (RL.ResourceType, int), perBranch: map<RL.ResourceType, int>,
                   orgLimits: map<RL.ResourceType, OrgLimit>, consumed: map<RL.ResourceType, int>): PairOutcome {
    CalculateProjectLimitPair(item.0, item.1, MapGet(orgLimits, item.0), MapGet(perBranch, item.0),
                              MapGet(consumed, item.0).GetOr(0))
  }

  /** The errors collected over the requested resources, in order. */
  function CollectedErrors(items: seq<(RL.ResourceType, int)>, perBranch: map<RL.ResourceType, int>,
                           orgLimits: map<RL.ResourceType, OrgLimit>, consumed: map<RL.ResourceType, int>): seq<LimitError> {
    if items == [] then []
    else
      var o := PairFor(items[|items| - 1], perBranch, orgLimits, consumed);
      CollectedErrors(items[..|items| - 1], perBranch, orgLimits, consumed) + (if o.Rejected? then [o.error] else [])
  }

  lemma {:induction false} NoErrorsMeansAllPairs(items: seq<(RL.ResourceType, int)>, perBranch: map<RL.ResourceType, int>,
                                                 orgLimits: map<RL.ResourceType, OrgLimit>, consumed: map<RL.ResourceType, int>)
    ensures CollectedErrors(items, perBranch, orgLimits, consumed) == [] <==>
              forall i :: 0 <= i < |items| ==> PairFor(items[i], perBranch, orgLimits, consumed).Pair?
  {
    if items != [] {
      var init := items[..|items| - 1];
      NoErrorsMeansAllPairs(init, perBranch, orgLimits, consumed);
      assert forall i :: 0 <= i < |init| ==> init[i] == items[i];
    }
  }

  /** The pairs collected over the requested resources, in order. */
  function CollectedPairs(items: seq<(RL.ResourceType, int)>, perBranch: map<RL.ResourceType, int>,
                          orgLimits: map<RL.ResourceType, OrgLimit>, consumed: map<RL.ResourceType, int>)
    : map<RL.ResourceType, (int, int)>
  {
    if items == [] then map[]
    else
      var last := items[|items| - 1];
      var o := PairFor(last, perBranch, orgLimits, consumed);
      var m := CollectedPairs(items[..|items| - 1], perBranch, orgLimits, consumed);
      if o.Pair? then m[last.0 := (o.total, o.perBranch)] else m
  }

  /** With distinct resources, the collected map has a key only for a
      requested resource and, for each resource whose pair was computed, that
      pair. */
  lemma {:induction false} CollectedPairsMeaning(items: seq<(RL.ResourceType, int)>, perBranch: map<RL.ResourceType, int>,
                                                 orgLimits: map<RL.ResourceType, OrgLimit>, consumed: map<RL.ResourceType, int>)
    requires forall i, j :: 0 <= i < j < |items| ==> items[i].0 != items[j].0
    ensures forall t :: t in CollectedPairs(items, perBranch, orgLimits, consumed) ==> exists k :: 0 <= k < |items| && items[k].0 == t
    ensures forall k :: 0 <= k < |items| && PairFor(items[k], perBranch, orgLimits, consumed).Pair? ==>
              var m := CollectedPairs(items, perBranch, orgLimits, consumed);
              var o := PairFor(items[k], perBranch, orgLimits, consumed);
              items[k].0 in m && m[items[k].0].0 == o.total && m[items[k].0].1 == o.perBranch
  {
    if items != [] {
      var n := |items| - 1;
      var init := items[..n];
      assert forall k :: 0 <= k < n ==> init[k] == items[k];
      CollectedPairsMeaning(init, perBranch, orgLimits, consumed);
      var m := CollectedPairs(items, perBranch, orgLimits, consumed);
      forall t | t in m ensures exists k :: 0 <= k < |items| && items[k].0 == t {
        if t != items[n].0 {
          assert t in CollectedPairs(init, perBranch, orgLimits, consumed);
          var k :| 0 <= k < n && init[k].0 == t;
        }
      }
      forall k | 0 <= k < n
        ensures items[k].0 != items[n].0
      {
      }
    }
  }

  datatype LimitsOutcome =
    | Calculated(limits: map<RL.ResourceType, (int, int)>)
    | Invalid(errors: seq<LimitError>)

  /** `_calculate_project_limits`: every error across the resources in one
      422, or exactly one (total, per-branch) pair per requested resource. */
  method CalculateProjectLimits(items: seq<(RL.ResourceType, int)>, perBranch: map<RL.ResourceType, int>,
                                orgLimits: map<RL.ResourceType, OrgLimit>, consumed: map<RL.ResourceType, int>)
    returns (r: LimitsOutcome)
    requires forall i, j :: 0 <= i < j < |items| ==> items[i].0 != items[j].0
    ensures r.Invalid? <==> exists i :: 0 <= i < |items| && PairFor(items[i], perBranch, orgLimits, consumed).Rejected?
    ensures r.Invalid? ==> r.errors == CollectedErrors(items, perBranch, orgLimits, consumed) && r.errors != []
    ensures r.Calculated? ==> forall t :: t in r.limits <==> exists i :: 0 <= i < |items| && items[i].0 == t
    ensures r.Calculated? ==> forall i :: 0 <= i < |items| ==>
              var o := PairFor(items[i], perBranch, orgLimits, consumed);
              r.limits[items[i].0].0 == o.total && r.limits[items[i].0].1 == o.perBranch &&
              o.total == items[i].1 && o.perBranch <= o.total
  {
    var calculated, errors := CollectPairs(items, perBranch, orgLimits, consumed);
    NoErrorsMeansAllPairs(items, perBranch, orgLimits, consumed);
    CollectedPairsMeaning(items, perBranch, orgLimits, consumed);
    if errors != [] {
      return Invalid(errors);
    }
    r := Calculated(calculated);
  }

  /** The loop of `_calculate_project_limits` over the requested resources. */
  method CollectPairs(items: seq<(RL.ResourceType, int)>, perBranch: map<RL.ResourceType, int>,
                      orgLimits: map<RL.ResourceType, OrgLimit>, consumed: map<RL.ResourceType, int>)
    returns (calculated: map<RL.ResourceType, (int, int)>, errors: seq<LimitError>)
    ensures errors == CollectedErrors(items, perBranch, orgLimits, consumed)
    ensures calculated == CollectedPairs(items, perBranch, orgLimits, consumed)
  {
    calculated := map[];
    errors := [];
    var i := 0;
    while i < |items|
      invariant 0 <= i <= |items|
      invariant errors == CollectedErrors(items[..i], perBranch, orgLimits, consumed)
      invariant calculated == CollectedPairs(items[..i], perBranch, orgLimits, consumed)
    {
      assert items[..i + 1][..i] == items[..i];
      var o := CalculateProjectLimitPair(items[i].0, items[i].1, MapGet(orgLimits, items[i].0), MapGet(perBranch, items[i].0),
                                         MapGet(consumed, items[i].0).GetOr(0));
      if o.Rejected? {
        errors := errors + [o.error];
      } else {
        calculated := calculated[items[i].0 := (o.total, o.perBranch)];
      }
      i := i + 1;
    }
    assert items[..|items|] == items;
  }

  /** `_get_consumed_project_limits`: nothing to look up for no requested
      limits, otherwise the other projects' totals for the requested types. */
  function ConsumedProjectLimits(limits: seq<RL.LimitRow>, orgId: Ulid, items: seq<(RL.ResourceType, int)>): (r: map<RL.ResourceType, int>)
    ensures items == [] ==> r == map[]
    ensures forall t :: t in r ==> exists i :: 0 <= i < |items| && items[i].0 == t
  {
    if items == [] then map[]
    else
      var types := seq(|items|, i requires 0 <= i < |items| => items[i].0);
      var totals := RL.ProjectLimitTotals(limits, orgId, Some(types), None);
      assert forall t :: t in totals ==> t in types;
      totals
  }

  // ---------------------------------------------------------------------
  // Status flow

  /** The outcome of the two power calls made for one branch: the error text
      each produced, if any. */
  datatype PowerOutcome = PowerOutcome(vmError: Option<string>, autoscalerError: Option<string>)

  function OutcomeErrors(o: PowerOutcome): seq<string> {
    (if o.vmError.Some? then [o.vmError.value] else []) + (if o.autoscalerError.Some? then [o.autoscalerError.value] else [])
  }

  function PowerErrors(outcomes: seq<PowerOutcome>): (r: seq<string>)
    ensures r == [] <==> forall i :: 0 <= i < |outcomes| ==> OutcomeErrors(outcomes[i]) == []
  {
    if outcomes == [] then []
    else
      var init := outcomes[..|outcomes| - 1];
      assert forall i :: 0 <= i < |init| ==> init[i] == outcomes[i];
      PowerErrors(init) + OutcomeErrors(outcomes[|outcomes| - 1])
  }

  /** The error texts of the power calls, collected in order. */
  method CollectPowerErrors(outcomes: seq<PowerOutcome>) returns (errors: seq<string>)
    ensures errors == PowerErrors(outcomes)
  {
    errors := [];
    var i := 0;
    while i < |outcomes|
      invariant 0 <= i <= |outcomes|
      invariant errors == PowerErrors(outcomes[..i])
    {
      assert outcomes[..i + 1][..i] == outcomes[..i];
      ghost var before := errors;
      var o := outcomes[i];
      if o.vmError.Some? {
        errors := errors + [o.vmError.value];
      }
      if o.autoscalerError.Some? {
        errors := errors + [o.autoscalerError.value];
      }
      assert errors == before + OutcomeErrors(o);
      i := i + 1;
    }
    assert outcomes[..|outcomes|] == outcomes;
  }

  /** A project's status and the statuses each commit wrote, in order. */
  class ProjectState {
    var status: string
    var committed: seq<string>
    var deleted: bool

    constructor(status: string)
      ensures this.status == status && committed == [] && !deleted
    {
      this.status := status;
      committed := [];
      deleted := false;
    }

    method Commit()
      modifies this
      ensures committed == old(committed) + [status] && status == old(status) && deleted == old(deleted)
    {
      committed := committed + [status];
    }

    /** The shared loop of `suspend` and `resume`: `transitional` is committed
        first, then `done` when every power call succeeded, else ERROR and a
        400 listing the failures. */
    method PowerCycle(transitional: string, done: string, outcomes: seq<PowerOutcome>) returns (r: Result<()>)
      modifies this
      ensures r.Ok? <==> PowerErrors(outcomes) == []
      ensures r.Err? ==> r.IsHttp(400)
      ensures status == (if r.Ok? then done else "ERROR")
      ensures committed == old(committed) + [transitional, status]
      ensures deleted == old(deleted)
    {
      status := transitional;
      Commit();
      var errors := CollectPowerErrors(outcomes);
      if errors != [] {
        status := "ERROR";
        Commit();
        return Err(Http(400, "failed: " + Join(errors, ", ")));
      }
      status := done;
      Commit();
      r := Ok(());
    }

    /** `suspend`: PAUSING, then PAUSED or ERROR. */
    method Suspend(outcomes: seq<PowerOutcome>) returns (r: Result<()>)
      modifies this
      ensures r.Ok? <==> PowerErrors(outcomes) == []
      ensures committed == old(committed) + ["PAUSING", if r.Ok? then "PAUSED" else "ERROR"]
      ensures status == (if r.Ok? then "PAUSED" else "ERROR")
    {
      r := PowerCycle("PAUSING", "PAUSED", outcomes);
    }

    /** `resume`: STARTING, then STARTED or ERROR. */
    method Resume(outcomes: seq<PowerOutcome>) returns (r: Result<()>)
      modifies this
      ensures r.Ok? <==> PowerErrors(outcomes) == []
      ensures committed == old(committed) + ["STARTING", if r.Ok? then "STARTED" else "ERROR"]
      ensures status == (if r.Ok? then "STARTED" else "ERROR")
    {
      r := PowerCycle("STARTING", "STARTED", outcomes);
    }

    /** `delete`: DELETING, then the branch deployments are deleted in order;
        the first failure commits ERROR and re-raises, otherwise the project
        is deleted. `deletions[i]` says whether the i-th deletion succeeds. */
    method Delete(deletions: seq<bool>) returns (r: Result<()>)
      requires !deleted
      modifies this
      ensures r.Ok? <==> forall i :: 0 <= i < |deletions| ==> deletions[i]
      ensures r.Ok? ==> deleted && committed == old(committed) + ["DELETING"]
      ensures r.Err? ==> !deleted && status == "ERROR" && committed == old(committed) + ["DELETING", "ERROR"]
    {
      status := "DELETING";
      Commit();
      var i := 0;
      while i < |deletions|
        invariant 0 <= i <= |deletions|
        invariant forall k :: 0 <= k < i ==> deletions[k]
        invariant status == "DELETING" && committed == old(committed) + ["DELETING"] && !deleted
      {
        if !deletions[i] {
          status := "ERROR";
          Commit();
          return Err(Raised("DeploymentError", "branch deployment deletion failed"));
        }
        i := i + 1;
      }
      deleted := true;
      r := Ok(());
    }
  }
}
