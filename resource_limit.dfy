/** Resource-limit admission and metering: limit lookups, allocation
    totals, the effective per-branch limits, the admission check, usage sums
    and the provisioning upsert with its audit log. Database queries are
    modelled as filters over the table rows they read. */
module ResourceLimit {
  import opened Common
  import BM = BranchModel

  datatype ResourceType = MilliVcpu | Ram | Iops | StorageSize | DatabaseSize

  /** The enum's iteration order. */
  const ResourceTypes: seq<ResourceType> := [MilliVcpu, Ram, Iops, StorageSize, DatabaseSize]
  const AllResources: set<ResourceType> := {MilliVcpu, Ram, Iops, StorageSize, DatabaseSize}

  lemma ResourceTypesComplete(t: ResourceType)
    ensures t in ResourceTypes && t in AllResources
  {
  }

  function ResourceName(t: ResourceType): string {
    match t
    case MilliVcpu => "milli_vcpu"
    case Ram => "ram"
    case Iops => "iops"
    case StorageSize => "storage_size"
    case DatabaseSize => "database_size"
  }

  /** `ResourceType(name)`: the member with that value, if any. */
  function ParseResourceType(name: string): (t: Option<ResourceType>)
    ensures t.Some? ==> ResourceName(t.value) == name
    ensures t.None? ==> forall u :: ResourceName(u) != name
  {
    if name == "milli_vcpu" then Some(MilliVcpu)
    else if name == "ram" then Some(Ram)
    else if name == "iops" then Some(Iops)
    else if name == "storage_size" then Some(StorageSize)
    else if name == "database_size" then Some(DatabaseSize)
    else None
  }

  lemma ResourceNameRoundTrip(t: ResourceType)
    ensures ParseResourceType(ResourceName(t)) == Some(t)
  {
  }

  datatype EntityType = SystemEntity | OrgEntity | ProjectEntity

  /** A `ResourceLimit` row. */
  datatype LimitRow = LimitRow(
    entityType: EntityType,
    orgId: Option<Ulid>,
    projectId: Option<Ulid>,
    resource: ResourceType,
    maxTotal: int,
    maxPerBranch: Option<int>)

  type LimitMap = map<ResourceType, LimitRow>
  type AmountMap = map<ResourceType, int>

  /** `ResourceLimitsPublic`. */
  datatype ResourceLimits = ResourceLimits(
    milliVcpu: Option<int>,
    ram: Option<int>,
    iops: Option<int>,
    databaseSize: Option<int>,
    storageSize: Option<int>)
  {
    function Get(t: ResourceType): Option<int> {
      match t
      case MilliVcpu => milliVcpu
      case Ram => ram
      case Iops => iops
      case StorageSize => storageSize
      case DatabaseSize => databaseSize
    }
  }

  // ---------------------------------------------------------------------
  // Converters

  /** The key order of `resource_limits_to_dict`, which is also the order
      in which the admission check reports exceeded resources. */
  const DictOrder: seq<ResourceType> := [MilliVcpu, Ram, Iops, DatabaseSize, StorageSize]

  function DictPosition(t: ResourceType): (i: nat)
    ensures i < 5 && DictOrder[i] == t
  {
    match t
    case MilliVcpu => 0
    case Ram => 1
    case Iops => 2
    case DatabaseSize => 3
    case StorageSize => 4
  }

  lemma DictOrderComplete()
    ensures forall t :: t in DictOrder
  {
    forall t ensures t in DictOrder {
      var i := DictPosition(t);
    }
  }

  /** `resource_limits_to_dict`, as its items in order. */
  function ResourceLimitsToDict(v: ResourceLimits): (d: seq<(ResourceType, Option<int>)>)
    ensures |d| == 5
    ensures forall i :: 0 <= i < 5 ==> d[i] == (DictOrder[i], v.Get(DictOrder[i]))
  {
    [(MilliVcpu, v.milliVcpu), (Ram, v.ram), (Iops, v.iops), (DatabaseSize, v.databaseSize), (StorageSize, v.storageSize)]
  }

  /** `dict_to_resource_limits`: a missing key becomes `None`. */
  function DictToResourceLimits(m: AmountMap): (r: ResourceLimits)
    ensures forall t :: r.Get(t) == MapGet(m, t)
  {
    ResourceLimits(MapGet(m, MilliVcpu), MapGet(m, Ram), MapGet(m, Iops), MapGet(m, DatabaseSize), MapGet(m, StorageSize))
  }

  /** The items of a limits dict whose value is not `None`, as a dict. */
  function PresentEntries(d: seq<(ResourceType, Option<int>)>): AmountMap {
    if d == [] then map[]
    else
      var m := PresentEntries(d[..|d| - 1]);
      var (k, v) := d[|d| - 1];
      if v.Some? then m[k := v.value] else m
  }

  /** With distinct keys, each key of the items reads back its own value. */
  lemma {:induction false} PresentEntriesGet(d: seq<(ResourceType, Option<int>)>)
    requires forall i, j :: 0 <= i < j < |d| ==> d[i].0 != d[j].0
    ensures forall i :: 0 <= i < |d| ==> MapGet(PresentEntries(d), d[i].0) == d[i].1
    ensures forall k :: k in PresentEntries(d) ==> exists i :: 0 <= i < |d| && d[i].0 == k
  {
    if d != [] {
      var init := d[..|d| - 1];
      PresentEntriesGet(init);
      forall k | k in PresentEntries(d) ensures exists i :: 0 <= i < |d| && d[i].0 == k {
        if k in PresentEntries(init) {
          var i :| 0 <= i < |init| && init[i].0 == k;
          assert d[i] == init[i];
        } else {
          assert d[|d| - 1].0 == k;
        }
      }
      forall i | 0 <= i < |d|
        ensures MapGet(PresentEntries(d), d[i].0) == d[i].1
      {
        if i < |d| - 1 {
          assert init[i] == d[i];
        }
      }
    }
  }

  lemma LimitsDictRoundTrip(v: ResourceLimits)
    ensures DictToResourceLimits(PresentEntries(ResourceLimitsToDict(v))) == v
  {
    var d := ResourceLimitsToDict(v);
    PresentEntriesGet(d);
    assert d[0].0 == MilliVcpu && d[1].0 == Ram && d[2].0 == Iops && d[3].0 == DatabaseSize && d[4].0 == StorageSize;
  }

  lemma DictLimitsRoundTrip(m: AmountMap)
    ensures PresentEntries(ResourceLimitsToDict(DictToResourceLimits(m))) == m
  {
    var d := ResourceLimitsToDict(DictToResourceLimits(m));
    PresentEntriesGet(d);
    var p := PresentEntries(d);
    forall t
      ensures t in p <==> t in m
      ensures t in p ==> p[t] == m[t]
    {
      var i := DictPosition(t);
      assert MapGet(p, t) == d[i].1 == MapGet(m, t);
    }
  }

  // ---------------------------------------------------------------------
  // The admission check

  /** `check_resource_limit`: does the request exceed what is available? */
  function CheckResourceLimit(requested: Option<int>, available: Option<int>): (exceeds: bool)
    ensures requested.None? ==> !exceeds
    ensures requested.Some? && available.None? ==> exceeds
    ensures requested.Some? && available.Some? ==> (exceeds <==> requested.value > available.value)
  {
    if requested.None? then false
    else if available.None? then true
    else requested.value > available.value
  }

  /** Python truthiness of an optional integer. */
  predicate Truthy(v: Option<int>) {
    v.Some? && v.value != 0
  }

  function CheckedOne(t: ResourceType, request: ResourceLimits, effective: ResourceLimits): seq<ResourceType> {
    if CheckResourceLimit(request.Get(t), effective.Get(t)) then [t] else []
  }

  /** The exceeded list of `check_available_resources_limits` for given
      effective limits. */
  function ExceededLimits(request: ResourceLimits, effective: ResourceLimits): (r: seq<ResourceType>)
    ensures !Truthy(request.milliVcpu) ==> r == []
    ensures Truthy(request.milliVcpu) ==>
              forall t :: t in r <==> CheckResourceLimit(request.Get(t), effective.Get(t))
    ensures forall i, j :: 0 <= i < j < |r| ==> DictPosition(r[i]) < DictPosition(r[j])
  {
    if !Truthy(request.milliVcpu) then []
    else
      var exceeds := (t: ResourceType) => CheckResourceLimit(request.Get(t), effective.Get(t));
      DictOrderComplete();
      FilterMembershipAll(DictOrder, exceeds);
      var key := (t: ResourceType) => DictPosition(t) as int;
      assert IncreasingBy(DictOrder, key);
      FilterKeepsOrder(DictOrder, exceeds, key);
      var r := Filter(DictOrder, exceeds);
      assert forall i, j :: 0 <= i < j < |r| ==> key(r[i]) < key(r[j]);
      r
  }

  /** A request exactly at its effective limit is admitted. */
  lemma EqualityIsAdmitted(request: ResourceLimits, effective: ResourceLimits, t: ResourceType)
    requires request.Get(t).Some? && request.Get(t) == effective.Get(t)
    ensures t !in ExceededLimits(request, effective)
  {
  }

  // ---------------------------------------------------------------------
  // Effective limits

  /** The `max_per_branch` of a limit row that may be missing. */
  function MaxPerBranchOf(l: Option<LimitRow>): Option<int> {
    if l.Some? then l.value.maxPerBranch else None
  }

  /** The per-branch cap: project, then organization, then system, each
      level used only when its `max_per_branch` is set. */
  function PerBranchLimit(system: Option<LimitRow>, organization: Option<LimitRow>, project: Option<LimitRow>): (r: Option<int>)
    ensures r == FirstSet([MaxPerBranchOf(project), MaxPerBranchOf(organization), MaxPerBranchOf(system)])
    ensures r.None? <==> MaxPerBranchOf(project).None? && MaxPerBranchOf(organization).None? && MaxPerBranchOf(system).None?
    ensures project.Some? && project.value.maxPerBranch.Some? ==> r == project.value.maxPerBranch
    ensures (!(project.Some? && project.value.maxPerBranch.Some?) && organization.Some? &&
             organization.value.maxPerBranch.Some?) ==> r == organization.value.maxPerBranch
    ensures (!(project.Some? && project.value.maxPerBranch.Some?) &&
             !(organization.Some? && organization.value.maxPerBranch.Some?)) ==>
              r == (if system.Some? then system.value.maxPerBranch else None)
  {
    var last := [MaxPerBranchOf(system)];
    var lower := [MaxPerBranchOf(organization)] + last;
    assert last[1..] == [] && lower[1..] == last && ([MaxPerBranchOf(project)] + lower)[1..] == lower;
    assert FirstSet(last) == MaxPerBranchOf(system);
    if project.Some? && project.value.maxPerBranch.Some? then project.value.maxPerBranch
    else if organization.Some? && organization.value.maxPerBranch.Some? then organization.value.maxPerBranch
    else if system.Some? && system.value.maxPerBranch.Some? then system.value.maxPerBranch
    else None
  }

  /** Remaining aggregate capacity; `None` is `float("inf")`. A limit counts
      only together with a non-zero allocation. */
  function RemainingCapacity(limit: Option<LimitRow>, allocation: Option<int>): (r: Option<int>)
    ensures r.Some? <==> limit.Some? && Truthy(allocation)
    ensures r.Some? ==> r.value == limit.value.maxTotal - allocation.value
  {
    if limit.Some? && Truthy(allocation) then Some(limit.value.maxTotal - allocation.value) else None
  }

  /** A request `x` that fits under the cap and under every finite remaining
      capacity. */
  predicate Admissible(x: int, perBranch: int, remainingOrg: Option<int>, remainingProject: Option<int>) {
    0 <= x <= perBranch &&
    (remainingOrg.Some? ==> x <= remainingOrg.value) &&
    (remainingProject.Some? ==> x <= remainingProject.value)
  }

  function MinOpt(a: int, b: Option<int>): int {
    if b.Some? then Min(a, b.value) else a
  }

  /** `int(max(min(per_branch, remaining_org, remaining_project), 0))`: the
      largest admissible request, or 0 when none is admissible. It is never
      negative and never above the cap or a finite remaining capacity that is
      not negative. */
  function EffectiveLimit(perBranch: int, remainingOrg: Option<int>, remainingProject: Option<int>): (r: int)
    ensures r >= 0
    ensures perBranch >= 0 ==> r <= perBranch
    ensures forall x :: Admissible(x, perBranch, remainingOrg, remainingProject) ==> x <= r
    ensures r == 0 || Admissible(r, perBranch, remainingOrg, remainingProject)
  {
    Max(MinOpt(MinOpt(perBranch, remainingOrg), remainingProject), 0)
  }

  /** The effective limit of one resource in `get_remaining_project_resources`;
      `None` when no level sets a per-branch cap. */
  function ProjectEffectiveLimit(t: ResourceType, system: LimitMap, organization: LimitMap, project: LimitMap,
                                 orgAllocations: AmountMap, projectAllocations: AmountMap): Option<int>
  {
    var cap := PerBranchLimit(MapGet(system, t), MapGet(organization, t), MapGet(project, t));
    if cap.None? then None
    else Some(EffectiveLimit(cap.value,
                             RemainingCapacity(MapGet(organization, t), MapGet(orgAllocations, t)),
                             RemainingCapacity(MapGet(project, t), MapGet(projectAllocations, t))))
  }

  /** `get_remaining_project_resources` after its queries: the loop over the
      resource types filling `effective_limits`. */
  method GetRemainingProjectResources(system: LimitMap, organization: LimitMap, project: LimitMap,
                                      orgAllocations: AmountMap, projectAllocations: AmountMap)
    returns (r: Result<ResourceLimits>)
    ensures r.Err? <==>
              exists t :: ProjectEffectiveLimit(t, system, organization, project, orgAllocations, projectAllocations).None?
    ensures r.Err? ==> r.failure == Raised("VelaResourceLimitError", "")
    ensures r.Ok? ==> forall t ::
              r.value.Get(t) == ProjectEffectiveLimit(t, system, organization, project, orgAllocations, projectAllocations)
  {
    var effective: AmountMap := map[];
    var i := 0;
    while i < |ResourceTypes|
      invariant 0 <= i <= |ResourceTypes|
      invariant forall t :: t in effective <==> t in ResourceTypes[..i]
      invariant forall t :: t in effective ==>
                  Some(effective[t]) == ProjectEffectiveLimit(t, system, organization, project, orgAllocations, projectAllocations)
    {
      var t := ResourceTypes[i];
      assert ResourceTypes[..i + 1] == ResourceTypes[..i] + [t];
      var perBranch := PerBranchLimit(MapGet(system, t), MapGet(organization, t), MapGet(project, t));
      if perBranch.None? {
        assert ProjectEffectiveLimit(t, system, organization, project, orgAllocations, projectAllocations).None?;
        return Err(Raised("VelaResourceLimitError", ""));
      }
      var remainingOrganization := RemainingCapacity(MapGet(organization, t), MapGet(orgAllocations, t));
      var remainingProject := RemainingCapacity(MapGet(project, t), MapGet(projectAllocations, t));
      effective := effective[t := EffectiveLimit(perBranch.value, remainingOrganization, remainingProject)];
      i := i + 1;
    }
    forall t ensures t in effective {
      ResourceTypesComplete(t);
      assert ResourceTypes[..|ResourceTypes|] == ResourceTypes;
    }
    r := Ok(DictToResourceLimits(effective));
  }

  /** With a zero or missing allocation the remaining capacity is unbounded
      in the project computation, while the organization-only computation
      reports 0 for the same inputs. */
  lemma ZeroAllocationReadsTwoWays(limit: LimitRow, allocation: Option<int>)
    requires !Truthy(allocation)
    ensures RemainingCapacity(Some(limit), allocation).None?
    ensures RemainingOrganization(Some(limit), allocation) == 0
  {
  }

  /** The organization-only remaining capacity of `get_remaining_organization_resources`. */
  function RemainingOrganization(limit: Option<LimitRow>, allocation: Option<int>): (r: int)
    ensures r >= 0
    ensures limit.None? || !Truthy(allocation) ==> r == 0
    ensures limit.Some? && Truthy(allocation) ==> r == Max(limit.value.maxTotal - allocation.value, 0)
  {
    var current := if Truthy(allocation) then allocation.value else 0;
    var remaining := if limit.Some? && current != 0 then limit.value.maxTotal - current else 0;
    Max(remaining, 0)
  }

  method GetRemainingOrganizationResources(organization: LimitMap, orgAllocations: AmountMap) returns (r: ResourceLimits)
    ensures forall t :: r.Get(t) == Some(RemainingOrganization(MapGet(organization, t), MapGet(orgAllocations, t)))
  {
    var effective: AmountMap := map[];
    var i := 0;
    while i < |ResourceTypes|
      invariant 0 <= i <= |ResourceTypes|
      invariant forall t :: t in effective <==> t in ResourceTypes[..i]
      invariant forall t :: t in effective ==>
                  effective[t] == RemainingOrganization(MapGet(organization, t), MapGet(orgAllocations, t))
    {
      var t := ResourceTypes[i];
      effective := effective[t := RemainingOrganization(MapGet(organization, t), MapGet(orgAllocations, t))];
      i := i + 1;
    }
    forall t ensures t in effective {
      ResourceTypesComplete(t);
      assert ResourceTypes[..|ResourceTypes|] == ResourceTypes;
    }
    r := DictToResourceLimits(effective);
  }

  // ---------------------------------------------------------------------
  // Limit rows

  /** The last row for `t`: `_map_resource_limits` lets later rows win. */
  function LastLimitFor(limits: seq<LimitRow>, t: ResourceType): (r: Option<LimitRow>)
    ensures r.Some? ==> r.value in limits && r.value.resource == t
    ensures r.None? ==> forall i :: 0 <= i < |limits| ==> limits[i].resource != t
  {
    if limits == [] then None
    else if limits[|limits| - 1].resource == t then Some(limits[|limits| - 1])
    else LastLimitFor(limits[..|limits| - 1], t)
  }

  function LimitMapOf(limits: seq<LimitRow>): LimitMap {
    map t | t in AllResources && LastLimitFor(limits, t).Some? :: LastLimitFor(limits, t).value
  }

  method MapResourceLimits(limits: seq<LimitRow>) returns (result: LimitMap)
    ensures forall t :: MapGet(result, t) == LastLimitFor(limits, t)
    ensures result == LimitMapOf(limits)
  {
    result := map[];
    var i := 0;
    while i < |limits|
      invariant 0 <= i <= |limits|
      invariant forall t :: MapGet(result, t) == LastLimitFor(limits[..i], t)
    {
      assert limits[..i + 1][..i] == limits[..i];
      result := result[limits[i].resource := limits[i]];
      i := i + 1;
    }
    assert limits[..|limits|] == limits;
    forall t ensures (t in result) == (t in LimitMapOf(limits)) {
      ResourceTypesComplete(t);
    }
  }

  predicate IsSystemLimit(r: LimitRow) {
    r.entityType == SystemEntity && r.orgId.None? && r.projectId.None?
  }

  predicate IsOrganizationLimit(r: LimitRow, orgId: Ulid) {
    r.entityType == OrgEntity && r.orgId == Some(orgId) && r.projectId.None?
  }

  predicate IsProjectLimit(r: LimitRow, orgId: Ulid, projectId: Ulid) {
    r.entityType == ProjectEntity && r.orgId == Some(orgId) && r.projectId == Some(projectId)
  }

  /** The rows each limit query returns. */
  function SystemLimitRows(limits: seq<LimitRow>): seq<LimitRow> {
    Filter(limits, IsSystemLimit)
  }

  function OrganizationLimitRows(limits: seq<LimitRow>, orgId: Ulid): seq<LimitRow> {
    Filter(limits, r => IsOrganizationLimit(r, orgId))
  }

  function ProjectLimitRows(limits: seq<LimitRow>, orgId: Ulid, projectId: Ulid): seq<LimitRow> {
    Filter(limits, r => IsProjectLimit(r, orgId, projectId))
  }

  /** The project-level rows summed by `get_project_limit_totals`. The
      `project_id != excluded` condition is SQL's, so a row without a project
      fails it. */
  predicate IsReservingRow(r: LimitRow, orgId: Ulid, resourceTypes: Option<seq<ResourceType>>, excludeProject: Option<Ulid>) {
    r.entityType == ProjectEntity && r.orgId == Some(orgId) &&
    (resourceTypes.Some? ==> r.resource in resourceTypes.value) &&
    (excludeProject.Some? ==> r.projectId.Some? && r.projectId.value != excludeProject.value)
  }

  function ReservingRows(limits: seq<LimitRow>, orgId: Ulid, resourceTypes: Option<seq<ResourceType>>,
                         excludeProject: Option<Ulid>, t: ResourceType): seq<LimitRow> {
    Filter(limits, r => IsReservingRow(r, orgId, resourceTypes, excludeProject) && r.resource == t)
  }

  /** `get_project_limit_totals`: the sum of project `max_total`s per resource. */
  function ProjectLimitTotals(limits: seq<LimitRow>, orgId: Ulid, resourceTypes: Option<seq<ResourceType>>,
                              excludeProject: Option<Ulid>): (totals: AmountMap)
    ensures resourceTypes == Some([]) ==> totals == map[]
    ensures forall t :: t in totals ==> resourceTypes.None? || t in resourceTypes.value
    ensures forall t :: t in totals ==>
              totals[t] == SumOf(ReservingRows(limits, orgId, resourceTypes, excludeProject, t), (r: LimitRow) => r.maxTotal)
  {
    if resourceTypes == Some([]) then map[]
    else
      map t | t in AllResources && (resourceTypes.None? || t in resourceTypes.value) &&
              ReservingRows(limits, orgId, resourceTypes, excludeProject, t) != [] ::
        SumOf(ReservingRows(limits, orgId, resourceTypes, excludeProject, t), (r: LimitRow) => r.maxTotal)
  }

  /** A resource is listed exactly when some project row reserves it. */
  lemma ProjectLimitTotalsKeys(limits: seq<LimitRow>, orgId: Ulid, resourceTypes: Option<seq<ResourceType>>,
                               excludeProject: Option<Ulid>, t: ResourceType)
    ensures t in ProjectLimitTotals(limits, orgId, resourceTypes, excludeProject) <==>
              exists i :: 0 <= i < |limits| && IsReservingRow(limits[i], orgId, resourceTypes, excludeProject) &&
                          limits[i].resource == t
  {
    var p := (r: LimitRow) => IsReservingRow(r, orgId, resourceTypes, excludeProject) && r.resource == t;
    var rows := ReservingRows(limits, orgId, resourceTypes, excludeProject, t);
    if rows != [] {
      FilterMembership(limits, p, rows[0]);
      var i :| 0 <= i < |limits| && limits[i] == rows[0];
    }
    if exists i :: 0 <= i < |limits| && IsReservingRow(limits[i], orgId, resourceTypes, excludeProject) && limits[i].resource == t {
      var i :| 0 <= i < |limits| && IsReservingRow(limits[i], orgId, resourceTypes, excludeProject) && limits[i].resource == t;
      FilterMembership(limits, p, limits[i]);
    }
    assert t in ProjectLimitTotals(limits, orgId, resourceTypes, excludeProject) <==> rows != [] by {
      ResourceTypesComplete(t);
    }
  }

  // ---------------------------------------------------------------------
  // Allocations

  /** A `BranchProvisioning` row. */
  datatype Provisioning = Provisioning(branchId: Option<Ulid>, resource: ResourceType, amount: int, updatedAt: int)

  /** A provisioning row joined with its branch and the branch's project. */
  datatype AllocationRow = AllocationRow(provisioning: Provisioning, branchStatus: Option<string>, projectId: Ulid, orgId: Ulid)

  /** `NOT (status IN (STOPPED, DELETING))`; SQL drops a NULL status. */
  predicate StatusCounts(status: Option<string>) {
    status.Some? && status.value != BM.StatusValue(BM.Stopped) && status.value != BM.StatusValue(BM.Deleting)
  }

  /** The optional exclusion of branch ids, applied only to a non-empty list. */
  predicate NotExcluded(branchId: Option<Ulid>, exclude: seq<Ulid>) {
    exclude == [] || (branchId.Some? && branchId.value !in exclude)
  }

  /** The rows of `get_current_organization_allocations`. */
  function OrganizationAllocationRows(rows: seq<AllocationRow>, orgId: Ulid, exclude: seq<Ulid>): seq<Provisioning> {
    if rows == [] then []
    else
      var r := rows[|rows| - 1];
      OrganizationAllocationRows(rows[..|rows| - 1], orgId, exclude) +
      (if r.orgId == orgId && StatusCounts(r.branchStatus) && NotExcluded(r.provisioning.branchId, exclude)
       then [r.provisioning] else [])
  }

  /** The rows of `get_current_project_allocations`. */
  function ProjectAllocationRows(rows: seq<AllocationRow>, projectId: Ulid, exclude: seq<Ulid>): seq<Provisioning> {
    if rows == [] then []
    else
      var r := rows[|rows| - 1];
      ProjectAllocationRows(rows[..|rows| - 1], projectId, exclude) +
      (if r.projectId == projectId && StatusCounts(r.branchStatus) && NotExcluded(r.provisioning.branchId, exclude)
       then [r.provisioning] else [])
  }

  function OfResource(rows: seq<Provisioning>, t: ResourceType): seq<Provisioning> {
    Filter(rows, (a: Provisioning) => a.resource == t)
  }

  /** `_group_by_resource_type`, as the state after each row. */
  function Group(rows: seq<Provisioning>): map<ResourceType, seq<Provisioning>> {
    if rows == [] then map[]
    else
      var g := Group(rows[..|rows| - 1]);
      var a := rows[|rows| - 1];
      g[a.resource := (if a.resource in g then g[a.resource] else []) + [a]]
  }

  /** Grouping puts every row, and only it, under its resource, in order. */
  lemma {:induction false} GroupMeaning(rows: seq<Provisioning>)
    ensures forall t :: t in Group(rows) <==> OfResource(rows, t) != []
    ensures forall t :: t in Group(rows) ==> Group(rows)[t] == OfResource(rows, t)
  {
    if rows != [] {
      GroupMeaning(rows[..|rows| - 1]);
    }
  }

  method GroupByResourceType(allocations: seq<Provisioning>) returns (result: map<ResourceType, seq<Provisioning>>)
    ensures result == Group(allocations)
  {
    result := map[];
    var i := 0;
    while i < |allocations|
      invariant 0 <= i <= |allocations|
      invariant result == Group(allocations[..i])
    {
      assert allocations[..i + 1][..i] == allocations[..i];
      var a := allocations[i];
      var existing := if a.resource in result then result[a.resource] else [];
      result := result[a.resource := existing + [a]];
      i := i + 1;
    }
    assert allocations[..|allocations|] == allocations;
  }

  /** An amount as `_aggregate_group_by_resource_type` counts it. */
  function CountedAmount(a: Provisioning): int {
    if a.branchId.Some? then a.amount else 0
  }

  function AggregateGroups(grouped: map<ResourceType, seq<Provisioning>>): AmountMap {
    map t | t in grouped :: SumOf(grouped[t], CountedAmount)
  }

  /** The allocation totals of a set of provisioning rows: one entry per
      resource that has rows, summing the amounts of rows with a branch. */
  function AllocationTotals(rows: seq<Provisioning>): AmountMap {
    map t | t in AllResources && OfResource(rows, t) != [] :: SumOf(OfResource(rows, t), CountedAmount)
  }

  method AllocationsOf(rows: seq<Provisioning>) returns (totals: AmountMap)
    ensures totals == AllocationTotals(rows)
  {
    var grouped := GroupByResourceType(rows);
    GroupMeaning(rows);
    totals := AggregateGroups(grouped);
    forall t ensures (t in totals) == (t in AllocationTotals(rows)) {
      ResourceTypesComplete(t);
    }
  }

  method GetCurrentOrganizationAllocations(rows: seq<AllocationRow>, orgId: Ulid, exclude: seq<Ulid>) returns (totals: AmountMap)
    ensures totals == AllocationTotals(OrganizationAllocationRows(rows, orgId, exclude))
  {
    totals := AllocationsOf(OrganizationAllocationRows(rows, orgId, exclude));
  }

  method GetCurrentProjectAllocations(rows: seq<AllocationRow>, projectId: Ulid, exclude: seq<Ulid>) returns (totals: AmountMap)
    ensures totals == AllocationTotals(ProjectAllocationRows(rows, projectId, exclude))
  {
    totals := AllocationsOf(ProjectAllocationRows(rows, projectId, exclude));
  }

  /** A row of a stopped or deleting branch, or of an excluded branch, adds
      nothing to the organization's totals. */
  lemma IgnoredRowsDoNotCount(rows: seq<AllocationRow>, r: AllocationRow, orgId: Ulid, exclude: seq<Ulid>)
    requires r.branchStatus == Some("STOPPED") || r.branchStatus == Some("DELETING") ||
             (exclude != [] && r.provisioning.branchId.Some? && r.provisioning.branchId.value in exclude)
    ensures AllocationTotals(OrganizationAllocationRows(rows + [r], orgId, exclude)) ==
            AllocationTotals(OrganizationAllocationRows(rows, orgId, exclude))
  {
    assert (rows + [r])[..|rows + [r]| - 1] == rows;
    assert OrganizationAllocationRows(rows + [r], orgId, exclude) == OrganizationAllocationRows(rows, orgId, exclude) + [];
    assert OrganizationAllocationRows(rows + [r], orgId, exclude) == OrganizationAllocationRows(rows, orgId, exclude);
  }

  /** A counted row adds its amount to its own resource's total only. */
  lemma {:induction false} CountedRowAdds(rows: seq<Provisioning>, a: Provisioning, t: ResourceType)
    ensures SumOf(OfResource(rows + [a], t), CountedAmount) ==
            SumOf(OfResource(rows, t), CountedAmount) + (if a.resource == t then CountedAmount(a) else 0)
  {
    var p := (x: Provisioning) => x.resource == t;
    FilterAppend(rows, [a], p);
    assert Filter([a], p) == Filter([a][..0], p) + (if p(a) then [a] else []);
    SumOfAppend(OfResource(rows, t), Filter([a], p), CountedAmount);
    if a.resource == t {
      assert SumOf([a], CountedAmount) == SumOf([a][..0], CountedAmount) + CountedAmount(a);
    }
  }

  /** `_select_resource_allocation_or_zero`: the single row's amount, 0 when
      there is none, and a ValueError when there are several. */
  method SelectResourceAllocationOrZero(t: ResourceType, allocations: seq<Provisioning>) returns (r: Result<int>)
    ensures r.Err? <==> |OfResource(allocations, t)| >= 2
    ensures r.Err? ==> r.failure.Raised? && r.failure.kind == "ValueError"
    ensures r.Ok? ==> r.value == (if OfResource(allocations, t) == [] then 0 else OfResource(allocations, t)[0].amount)
  {
    var value: Option<int> := None;
    var i := 0;
    while i < |allocations|
      invariant 0 <= i <= |allocations|
      invariant |OfResource(allocations[..i], t)| <= 1
      invariant value.None? <==> OfResource(allocations[..i], t) == []
      invariant value.Some? ==> value.value == OfResource(allocations[..i], t)[0].amount
    {
      assert allocations[..i + 1][..i] == allocations[..i];
      if allocations[i].resource == t {
        if value.Some? {
          FilterAppend(allocations[..i + 1], allocations[i + 1..], (a: Provisioning) => a.resource == t);
          assert allocations[..i + 1] + allocations[i + 1..] == allocations;
          return Err(Raised("ValueError", "Multiple allocations entries for resource type " + ResourceName(t)));
        }
        value := Some(allocations[i].amount);
      }
      i := i + 1;
    }
    assert allocations[..|allocations|] == allocations;
    r := Ok(if value.Some? then value.value else 0);
  }

  /** `_select_allocation`: the amount of the first row for the resource. */
  function SelectAllocation(t: ResourceType, allocations: seq<Provisioning>): (r: Option<int>)
    ensures r.None? <==> forall i :: 0 <= i < |allocations| ==> allocations[i].resource != t
    ensures r.Some? ==> exists i :: 0 <= i < |allocations| && allocations[i].resource == t &&
                         allocations[i].amount == r.value &&
                         forall j :: 0 <= j < i ==> allocations[j].resource != t
  {
    if allocations == [] then None
    else if allocations[0].resource == t then Some(allocations[0].amount)
    else
      var rest := SelectAllocation(t, allocations[1..]);
      if rest.Some? then
        assert forall j :: 1 <= j < |allocations| ==> allocations[j] == allocations[1..][j - 1];
        rest
      else
        assert forall j :: 1 <= j < |allocations| ==> allocations[j] == allocations[1..][j - 1];
        None
  }

  // ---------------------------------------------------------------------
  // Usage

  /** A `ResourceUsageMinute` row. */
  datatype UsageMinute = UsageMinute(tsMinute: int, orgId: Ulid, projectId: Ulid, branchId: Ulid, resource: ResourceType, amount: int)

  /** A usage window; a missing bound is not applied. */
  datatype UsageCycle = UsageCycle(start: Option<int>, end: Option<int>)

  /** The half-open window `start <= ts < end`. */
  predicate InCycle(ts: int, c: UsageCycle) {
    (c.start.Some? ==> c.start.value <= ts) && (c.end.Some? ==> ts < c.end.value)
  }

  function UsageAmount(usages: seq<UsageMinute>, t: ResourceType): int {
    if usages == [] then 0
    else UsageAmount(usages[..|usages| - 1], t) +
         (if usages[|usages| - 1].resource == t then usages[|usages| - 1].amount else 0)
  }

  predicate HasUsage(usages: seq<UsageMinute>, t: ResourceType) {
    exists i :: 0 <= i < |usages| && usages[i].resource == t
  }

  /** One more usage row adds its resource to those that occur and its
      amount to that resource's sum. */
  lemma UsageSnoc(usages: seq<UsageMinute>, i: nat)
    requires i < |usages|
    ensures forall t :: HasUsage(usages[..i + 1], t) <==> HasUsage(usages[..i], t) || usages[i].resource == t
    ensures forall t :: UsageAmount(usages[..i + 1], t) ==
                        UsageAmount(usages[..i], t) + (if usages[i].resource == t then usages[i].amount else 0)
  {
    var pre := usages[..i + 1];
    assert pre[..i] == usages[..i];
    forall t ensures HasUsage(pre, t) <==> HasUsage(usages[..i], t) || usages[i].resource == t {
      if HasUsage(pre, t) && usages[i].resource != t {
        var j :| 0 <= j < |pre| && pre[j].resource == t;
        assert j < i && usages[..i][j] == pre[j];
      }
      if HasUsage(usages[..i], t) {
        var j :| 0 <= j < i && usages[..i][j].resource == t;
        assert pre[j] == usages[..i][j];
      }
      if usages[i].resource == t {
        assert pre[i] == usages[i];
      }
    }
  }

  /** `_map_resource_usages`: one entry per resource that occurs, holding the
      sum of its amounts. */
  method MapResourceUsages(usages: seq<UsageMinute>) returns (result: AmountMap)
    ensures forall t :: t in result <==> HasUsage(usages, t)
    ensures forall t :: t in result ==> result[t] == UsageAmount(usages, t)
  {
    result := map[];
    var i := 0;
    while i < |usages|
      invariant 0 <= i <= |usages|
      invariant forall t :: t in result <==> HasUsage(usages[..i], t)
      invariant forall t :: t in result ==> result[t] == UsageAmount(usages[..i], t)
      invariant forall t :: t !in result ==> UsageAmount(usages[..i], t) == 0
    {
      UsageSnoc(usages, i);
      var u := usages[i];
      result := result[u.resource := (if u.resource in result then result[u.resource] else 0) + u.amount];
      i := i + 1;
    }
    assert usages[..|usages|] == usages;
  }

  /** The rows of `get_organization_resource_usage`. */
  function OrganizationUsageRows(usages: seq<UsageMinute>, orgId: Ulid, cycle: UsageCycle): seq<UsageMinute> {
    Filter(usages, (u: UsageMinute) => u.orgId == orgId && InCycle(u.tsMinute, cycle))
  }

  /** The rows of `get_project_resource_usage`. */
  function ProjectUsageRows(usages: seq<UsageMinute>, projectId: Ulid, cycle: UsageCycle): seq<UsageMinute> {
    Filter(usages, (u: UsageMinute) => u.projectId == projectId && InCycle(u.tsMinute, cycle))
  }

  method GetOrganizationResourceUsage(usages: seq<UsageMinute>, orgId: Ulid, cycle: UsageCycle) returns (result: AmountMap)
    ensures forall t :: t in result <==> HasUsage(OrganizationUsageRows(usages, orgId, cycle), t)
    ensures forall t :: t in result ==> result[t] == UsageAmount(OrganizationUsageRows(usages, orgId, cycle), t)
  {
    result := MapResourceUsages(OrganizationUsageRows(usages, orgId, cycle));
  }

  method GetProjectResourceUsage(usages: seq<UsageMinute>, projectId: Ulid, cycle: UsageCycle) returns (result: AmountMap)
    ensures forall t :: t in result <==> HasUsage(ProjectUsageRows(usages, projectId, cycle), t)
    ensures forall t :: t in result ==> result[t] == UsageAmount(ProjectUsageRows(usages, projectId, cycle), t)
  {
    result := MapResourceUsages(ProjectUsageRows(usages, projectId, cycle));
  }

  lemma UsageAmountSnoc(xs: seq<UsageMinute>, u: UsageMinute, t: ResourceType)
    ensures UsageAmount(xs + [u], t) == UsageAmount(xs, t) + (if u.resource == t then u.amount else 0)
  {
    assert (xs + [u])[..|xs|] == xs;
  }

  /** The last row adds its amount to a window's usage exactly when it lies
      in the window. */
  lemma OrganizationUsageStep(xs: seq<UsageMinute>, orgId: Ulid, cycle: UsageCycle, t: ResourceType)
    requires xs != []
    ensures var u := xs[|xs| - 1];
            UsageAmount(OrganizationUsageRows(xs, orgId, cycle), t) ==
            UsageAmount(OrganizationUsageRows(xs[..|xs| - 1], orgId, cycle), t) +
            (if u.orgId == orgId && InCycle(u.tsMinute, cycle) && u.resource == t then u.amount else 0)
  {
    var init, u := xs[..|xs| - 1], xs[|xs| - 1];
    var before := OrganizationUsageRows(init, orgId, cycle);
    if u.orgId == orgId && InCycle(u.tsMinute, cycle) {
      assert OrganizationUsageRows(xs, orgId, cycle) == before + [u];
      UsageAmountSnoc(before, u, t);
    } else {
      assert OrganizationUsageRows(xs, orgId, cycle) == before + [];
      assert before + [] == before;
    }
  }

  /** Half-open windows add up: the usage over `[a, c)` is the usage over
      `[a, b)` plus the usage over `[b, c)`, so no minute is counted twice. */
  lemma {:induction false} AdjacentCyclesAdd(usages: seq<UsageMinute>, orgId: Ulid, a: int, b: int, c: int, t: ResourceType)
    requires a <= b <= c
    ensures UsageAmount(OrganizationUsageRows(usages, orgId, UsageCycle(Some(a), Some(c))), t) ==
            UsageAmount(OrganizationUsageRows(usages, orgId, UsageCycle(Some(a), Some(b))), t) +
            UsageAmount(OrganizationUsageRows(usages, orgId, UsageCycle(Some(b), Some(c))), t)
  {
    if usages != [] {
      AdjacentCyclesAdd(usages[..|usages| - 1], orgId, a, b, c, t);
      OrganizationUsageStep(usages, orgId, UsageCycle(Some(a), Some(c)), t);
      OrganizationUsageStep(usages, orgId, UsageCycle(Some(a), Some(b)), t);
      OrganizationUsageStep(usages, orgId, UsageCycle(Some(b), Some(c)), t);
    }
  }

  /** `replace(second=0, microsecond=0)` on a UTC instant in seconds. */
  function TruncateToMinute(t: int): (r: int)
    ensures r % 60 == 0 && r <= t < r + 60
  {
    t - t % 60
  }

  lemma TruncateIdempotent(t: int)
    ensures TruncateToMinute(TruncateToMinute(t)) == TruncateToMinute(t)
  {
  }

  /** `normalize_datetime_to_utc`: a naive value is taken as UTC. */
  function NormalizeDatetimeToUtc(instant: Option<BM.IsoDatetime>): (r: Option<int>)
    ensures r.Some? <==> instant.Some?
    ensures r.Some? ==> r.value % 60 == 0 && r.value <= BM.UtcSeconds(instant.value) < r.value + 60
  {
    if instant.None? then None else Some(TruncateToMinute(BM.UtcSeconds(instant.value)))
  }

  function MakeUsageCycle(start: Option<BM.IsoDatetime>, end: Option<BM.IsoDatetime>): UsageCycle {
    UsageCycle(NormalizeDatetimeToUtc(start), NormalizeDatetimeToUtc(end))
  }

  // ---------------------------------------------------------------------
  // The admission check over the tables

  /** The effective limit of one resource for a branch of `projectId`,
      computed from the tables. */
  function TableEffectiveLimit(limits: seq<LimitRow>, allocations: seq<AllocationRow>, orgId: Ulid, projectId: Ulid,
                               exclude: seq<Ulid>, t: ResourceType): Option<int>
  {
    ProjectEffectiveLimit(t, LimitMapOf(SystemLimitRows(limits)), LimitMapOf(OrganizationLimitRows(limits, orgId)),
                          LimitMapOf(ProjectLimitRows(limits, orgId, projectId)),
                          AllocationTotals(OrganizationAllocationRows(allocations, orgId, exclude)),
                          AllocationTotals(ProjectAllocationRows(allocations, projectId, exclude)))
  }

  /** `check_available_resources_limits`: the effective limits of the
      project, and the resources the request exceeds. */
  method CheckAvailableResourcesLimits(limits: seq<LimitRow>, allocations: seq<AllocationRow>, orgId: Ulid, projectId: Ulid,
                                       request: ResourceLimits, exclude: seq<Ulid>)
    returns (r: Result<(seq<ResourceType>, ResourceLimits)>)
    ensures r.Err? <==> exists t :: TableEffectiveLimit(limits, allocations, orgId, projectId, exclude, t).None?
    ensures r.Ok? ==> r.value.0 == ExceededLimits(request, r.value.1)
    ensures r.Ok? ==> forall t ::
              r.value.1.Get(t) == TableEffectiveLimit(limits, allocations, orgId, projectId, exclude, t)
  {
    var system := MapResourceLimits(SystemLimitRows(limits));
    var organization := MapResourceLimits(OrganizationLimitRows(limits, orgId));
    var project := MapResourceLimits(ProjectLimitRows(limits, orgId, projectId));
    var orgAllocations := GetCurrentOrganizationAllocations(allocations, orgId, exclude);
    var projectAllocations := GetCurrentProjectAllocations(allocations, projectId, exclude);
    var effective := GetRemainingProjectResources(system, organization, project, orgAllocations, projectAllocations);
    assert forall t :: TableEffectiveLimit(limits, allocations, orgId, projectId, exclude, t) ==
                       ProjectEffectiveLimit(t, system, organization, project, orgAllocations, projectAllocations);
    if effective.Err? {
      return Err(effective.failure);
    }
    r := Ok((ExceededLimits(request, effective.value), effective.value));
  }

  // ---------------------------------------------------------------------
  // The provisioning upsert

  /** A `ProvisioningLog` row. */
  datatype ProvisioningLog = ProvisioningLog(branchId: Ulid, resource: ResourceType, amount: int, action: string, reason: Option<string>, ts: int)

  predicate RowFor(a: Provisioning, branchId: Ulid, t: ResourceType) {
    a.branchId == Some(branchId) && a.resource == t
  }

  /** The row `.first()` returns for `(branch, resource)`. */
  function FindProvisioning(rows: seq<Provisioning>, branchId: Ulid, t: ResourceType): (i: Option<nat>)
    ensures i.Some? ==> i.value < |rows| && RowFor(rows[i.value], branchId, t) &&
                        forall j :: 0 <= j < i.value ==> !RowFor(rows[j], branchId, t)
    ensures i.None? ==> forall j :: 0 <= j < |rows| ==> !RowFor(rows[j], branchId, t)
  {
    if rows == [] then None
    else if RowFor(rows[0], branchId, t) then Some(0)
    else
      var rest := FindProvisioning(rows[1..], branchId, t);
      assert forall j :: 1 <= j < |rows| ==> rows[j] == rows[1..][j - 1];
      if rest.None? then None else Some(rest.value + 1)
  }

  /** One iteration: update the found row, or add a new one. */
  function UpsertOne(rows: seq<Provisioning>, branchId: Ulid, t: ResourceType, amount: int, now: int): seq<Provisioning> {
    match FindProvisioning(rows, branchId, t)
    case None => rows + [Provisioning(Some(branchId), t, amount, now)]
    case Some(i) => rows[i := rows[i].(amount := amount, updatedAt := now)]
  }

  /** The table after the requests seen so far. */
  function UpsertAll(rows: seq<Provisioning>, branchId: Ulid, requests: seq<(ResourceType, Option<int>)>, now: int): seq<Provisioning> {
    if requests == [] then rows
    else
      var before := UpsertAll(rows, branchId, requests[..|requests| - 1], now);
      var (t, amount) := requests[|requests| - 1];
      if amount.None? then before else UpsertOne(before, branchId, t, amount.value, now)
  }

  /** The log entries written for the requests seen so far. */
  function UpsertLogs(rows: seq<Provisioning>, branchId: Ulid, requests: seq<(ResourceType, Option<int>)>, now: int): seq<ProvisioningLog> {
    if requests == [] then []
    else
      var init := requests[..|requests| - 1];
      var before := UpsertAll(rows, branchId, init, now);
      var (t, amount) := requests[|requests| - 1];
      UpsertLogs(rows, branchId, init, now) +
      (if amount.None? then []
       else [ProvisioningLog(branchId, t, amount.value,
                             if FindProvisioning(before, branchId, t).None? then "create" else "update", None, now)])
  }

  /** The log the upsert is meant to write, stated against the table as it
      was before the call: one entry per given amount, in order, "create"
      exactly for a resource the branch had no row for. */
  function ExpectedLogs(rows: seq<Provisioning>, branchId: Ulid, requests: seq<(ResourceType, Option<int>)>, now: int): seq<ProvisioningLog> {
    if requests == [] then []
    else
      var (t, amount) := requests[|requests| - 1];
      ExpectedLogs(rows, branchId, requests[..|requests| - 1], now) +
      (if amount.None? then []
       else [ProvisioningLog(branchId, t, amount.value,
                             if FindProvisioning(rows, branchId, t).None? then "create" else "update", None, now)])
  }

  predicate DistinctResources(requests: seq<(ResourceType, Option<int>)>) {
    forall i, j :: 0 <= i < j < |requests| ==> requests[i].0 != requests[j].0
  }

  lemma DictOrderDistinct(v: ResourceLimits)
    ensures DistinctResources(ResourceLimitsToDict(v))
  {
  }

  /** Upserting one resource does not move the first row of another. */
  lemma UpsertOneKeepsOthers(rows: seq<Provisioning>, branchId: Ulid, t: ResourceType, amount: int, now: int, s: ResourceType)
    requires s != t
    ensures FindProvisioning(UpsertOne(rows, branchId, t, amount, now), branchId, s) == FindProvisioning(rows, branchId, s)
  {
    var after := UpsertOne(rows, branchId, t, amount, now);
    assert forall j :: 0 <= j < |rows| ==> (RowFor(after[j], branchId, s) <==> RowFor(rows[j], branchId, s));
    var f := FindProvisioning(rows, branchId, s);
    var g := FindProvisioning(after, branchId, s);
    if f.Some? {
      if g.None? || g.value != f.value {
        assert false;
      }
    } else if g.Some? {
      assert false;
    }
  }

  /** Requests for other resources leave a resource's first row where it was. */
  lemma {:induction false} UpsertAllKeepsOthers(rows: seq<Provisioning>, branchId: Ulid, requests: seq<(ResourceType, Option<int>)>,
                                                now: int, s: ResourceType)
    requires forall i :: 0 <= i < |requests| ==> requests[i].0 != s
    ensures FindProvisioning(UpsertAll(rows, branchId, requests, now), branchId, s) == FindProvisioning(rows, branchId, s)
  {
    if requests != [] {
      UpsertAllKeepsOthers(rows, branchId, requests[..|requests| - 1], now, s);
      var (t, amount) := requests[|requests| - 1];
      if amount.Some? {
        UpsertOneKeepsOthers(UpsertAll(rows, branchId, requests[..|requests| - 1], now), branchId, t, amount.value, now, s);
      }
    }
  }

  /** With distinct resources, every log entry's action is decided by the
      table as it was before the call. */
  lemma {:induction false} LogsMatchExpected(rows: seq<Provisioning>, branchId: Ulid, requests: seq<(ResourceType, Option<int>)>, now: int)
    requires DistinctResources(requests)
    ensures UpsertLogs(rows, branchId, requests, now) == ExpectedLogs(rows, branchId, requests, now)
  {
    if requests != [] {
      var init := requests[..|requests| - 1];
      LogsMatchExpected(rows, branchId, init, now);
      UpsertAllKeepsOthers(rows, branchId, init, now, requests[|requests| - 1].0);
    }
  }

  /** The number of log entries is the number of given amounts. */
  function CountGiven(requests: seq<(ResourceType, Option<int>)>): nat {
    if requests == [] then 0
    else CountGiven(requests[..|requests| - 1]) + (if requests[|requests| - 1].1.Some? then 1 else 0)
  }

  lemma {:induction false} OneLogPerGivenAmount(rows: seq<Provisioning>, branchId: Ulid, requests: seq<(ResourceType, Option<int>)>, now: int)
    ensures |UpsertLogs(rows, branchId, requests, now)| == CountGiven(requests)
  {
    if requests != [] {
      OneLogPerGivenAmount(rows, branchId, requests[..|requests| - 1], now);
    }
  }

  /** After the upsert, the branch's row for every given resource holds the
      given amount. */
  lemma {:induction false} UpsertSetsAmounts(rows: seq<Provisioning>, branchId: Ulid, requests: seq<(ResourceType, Option<int>)>,
                                             now: int, k: int)
    requires DistinctResources(requests)
    requires 0 <= k < |requests| && requests[k].1.Some?
    ensures var after := UpsertAll(rows, branchId, requests, now);
      FindProvisioning(after, branchId, requests[k].0).Some? &&
      after[FindProvisioning(after, branchId, requests[k].0).value].amount == requests[k].1.value
  {
    var init := requests[..|requests| - 1];
    var (t, amount) := requests[|requests| - 1];
    var before := UpsertAll(rows, branchId, init, now);
    if k == |requests| - 1 {
      var after := UpsertOne(before, branchId, t, amount.value, now);
      var f := FindProvisioning(before, branchId, t);
      if f.None? {
        assert after[|before|] == Provisioning(Some(branchId), t, amount.value, now);
        assert RowFor(after[|before|], branchId, t);
        var g := FindProvisioning(after, branchId, t);
        if g.None? || g.value != |before| {
          assert false;
        }
      } else {
        var g := FindProvisioning(after, branchId, t);
        assert RowFor(after[f.value], branchId, t);
        if g.None? || g.value != f.value {
          assert false;
        }
      }
    } else {
      assert DistinctResources(init);
      assert init[k] == requests[k];
      UpsertSetsAmounts(rows, branchId, init, now, k);
      if amount.Some? {
        assert t != requests[k].0;
        UpsertOneKeepsOthers(before, branchId, t, amount.value, now, requests[k].0);
        var after := UpsertOne(before, branchId, t, amount.value, now);
        var f := FindProvisioning(before, branchId, requests[k].0).value;
        assert after[f] == before[f] by {
          var g := FindProvisioning(before, branchId, t);
          if g.Some? {
            assert g.value != f;
          }
        }
      }
    }
  }

  /** Rows of other branches or of resources without a given amount are left
      exactly as they were, and no row is removed. */
  lemma {:induction false} UpsertKeepsUnrequested(rows: seq<Provisioning>, branchId: Ulid, requests: seq<(ResourceType, Option<int>)>,
                                                  now: int, j: int)
    requires 0 <= j < |rows|
    requires !(rows[j].branchId == Some(branchId) &&
               exists i :: 0 <= i < |requests| && requests[i].0 == rows[j].resource && requests[i].1.Some?)
    ensures |rows| <= |UpsertAll(rows, branchId, requests, now)|
    ensures UpsertAll(rows, branchId, requests, now)[j] == rows[j]
  {
    if requests != [] {
      var init := requests[..|requests| - 1];
      assert forall i :: 0 <= i < |init| ==> init[i] == requests[i];
      UpsertKeepsUnrequested(rows, branchId, init, now, j);
      var (t, amount) := requests[|requests| - 1];
      if amount.Some? {
        var before := UpsertAll(rows, branchId, init, now);
        var f := FindProvisioning(before, branchId, t);
        if f.Some? && f.value == j {
          assert false;
        }
      }
    }
  }

  /** The `BranchProvisioning` and `ProvisioningLog` tables. */
  class ProvisioningStore {
    var rows: seq<Provisioning>
    var logs: seq<ProvisioningLog>

    constructor(rows: seq<Provisioning>, logs: seq<ProvisioningLog>)
      ensures this.rows == rows && this.logs == logs
    {
      this.rows := rows;
      this.logs := logs;
    }

    /** `create_or_update_branch_provisioning`: the loop over the request's
        items, skipping `None`, upserting and logging each given amount. */
    method CreateOrUpdateBranchProvisioning(branchId: Ulid, requests: ResourceLimits, now: int)
      modifies this
      ensures rows == UpsertAll(old(rows), branchId, ResourceLimitsToDict(requests), now)
      ensures logs == old(logs) + ExpectedLogs(old(rows), branchId, ResourceLimitsToDict(requests), now)
    {
      var items := ResourceLimitsToDict(requests);
      ghost var initial := rows;
      var i := 0;
      while i < |items|
        invariant 0 <= i <= |items|
        invariant rows == UpsertAll(initial, branchId, items[..i], now)
        invariant logs == old(logs) + UpsertLogs(initial, branchId, items[..i], now)
      {
        assert items[..i + 1][..i] == items[..i];
        var (t, amount) := items[i];
        if amount.Some? {
          var found := FindProvisioning(rows, branchId, t);
          var newAllocation := found.None?;
          if found.None? {
            rows := rows + [Provisioning(Some(branchId), t, amount.value, now)];
          } else {
            rows := rows[found.value := rows[found.value].(amount := amount.value, updatedAt := now)];
          }
          logs := logs + [ProvisioningLog(branchId, t, amount.value, if newAllocation then "create" else "update", None, now)];
        }
        i := i + 1;
      }
      assert items[..|items|] == items;
      DictOrderDistinct(requests);
      LogsMatchExpected(initial, branchId, items, now);
    }
  }
}
