/** The API-side branch model. Its resize guard, timestamp parsing and
    aggregation are a separate copy of the branch model's; each is written
    out here and proved to agree with the other copy. */
module ApiBranchModel {
  import opened Common
  import UtilPkg
  import BM = BranchModel

  /** `should_transition_resize_status`, this module's copy. */
  function ShouldTransition(current: Option<BM.ResizeStatus>, proposed: string): (r: bool)
    ensures r ==> BM.ParseResizeStatus(proposed).Some? && BM.ParseResizeStatus(proposed) != current
  {
    if BM.ParseResizeStatus(proposed).None? then false
    else
      var p := BM.ParseResizeStatus(proposed).value;
      if current == Some(p) then false
      else if p == BM.Failed then true
      else if current.None? then true
      else BM.Priority(p) >= BM.Priority(current.value)
  }

  lemma ShouldTransitionAgrees(current: Option<BM.ResizeStatus>, proposed: string)
    ensures ShouldTransition(current, proposed) == BM.ShouldTransition(current, proposed)
  {
  }

  /** `timestamp_as_datetime`, this module's copy. */
  function TimestampAsDatetime(value: string, parse: BM.IsoParser): (t: int)
    ensures value == "" ==> t == DatetimeMin
  {
    if value == "" then DatetimeMin
    else
      var normalized := if EndsWith(value, "Z") then value[..|value| - 1] + "+00:00" else value;
      var parsed := parse(normalized);
      if parsed.None? then DatetimeMin
      else if parsed.value.offset.None? then parsed.value.local
      else parsed.value.local - parsed.value.offset.value
  }

  lemma TimestampAgrees(value: string, parse: BM.IsoParser)
    ensures TimestampAsDatetime(value, parse) == BM.TimestampAsDatetime(value, parse)
  {
  }

  /** `aggregate_resize_statuses`, this module's loop: it computes exactly
      what the branch model's aggregation computes. */
  method AggregateResizeStatuses(statuses: Option<seq<BM.RawEntry>>, parse: BM.IsoParser) returns (highest: BM.ResizeStatus)
    ensures highest == BM.Aggregate(statuses, parse)
  {
    highest := BM.ResizeNone;
    if statuses.None? || |statuses.value| == 0 {
      return;
    }
    var entries := statuses.value;
    var highestTimestamp := DatetimeMin;
    var i := 0;
    while i < |entries|
      invariant 0 <= i <= |entries|
      invariant (highest, highestTimestamp) == BM.AggregateFrom(entries[..i], parse)
    {
      assert entries[..i + 1][..i] == entries[..i];
      var snapshot := BM.ValidateEntry(entries[i]);
      if snapshot.Some? {
        var status := snapshot.value.status;
        var timestamp := TimestampAsDatetime(snapshot.value.timestamp, parse);
        TimestampAgrees(snapshot.value.timestamp, parse);
        ShouldTransitionAgrees(Some(highest), BM.ResizeStatusName(status));
        if timestamp > highestTimestamp ||
           (timestamp == highestTimestamp && ShouldTransition(Some(highest), BM.ResizeStatusName(status))) {
          highest := status;
          highestTimestamp := timestamp;
        }
      }
      i := i + 1;
    }
    assert entries[..|entries|] == entries;
  }

  /** This module's `BranchCreate` validator (it has no `pitr_enabled`, which
      the validator does not look at). */
  function ValidateBranchCreate(c: BM.CreateSources): (r: Result<BM.CreateSources>)
    ensures r.Ok? <==> BM.CountProvided(c) == 1
    ensures r == BM.ValidateBranchCreate(c)
  {
    var provided := (if c.source then 1 else 0) + (if c.deployment then 1 else 0) + (if c.restore then 1 else 0);
    if provided != 1 then Err(ValidatorFailure("Provide exactly one of source, deployment, or restore"))
    else Ok(c)
  }

  // ---------------------------------------------------------------------
  // PgBouncer configuration update

  datatype PgbouncerUpdate = PgbouncerUpdate(
    defaultPoolSize: Option<int>,
    maxClientConn: Option<int>,
    serverIdleTimeout: Option<int>,
    serverLifetime: Option<int>,
    queryWaitTimeout: Option<int>,
    reservePoolSize: Option<int>)

  predicate AtLeast(v: Option<int>, bound: int) {
    v.Some? ==> v.value >= bound
  }

  /** The per-field `ge` constraints: each given value is at least its default. */
  predicate FieldsValid(u: PgbouncerUpdate) {
    AtLeast(u.defaultPoolSize, UtilPkg.PgbouncerDefaultPoolSize) &&
    AtLeast(u.maxClientConn, UtilPkg.PgbouncerDefaultMaxClientConn) &&
    AtLeast(u.serverIdleTimeout, UtilPkg.PgbouncerDefaultServerIdleTimeout) &&
    AtLeast(u.serverLifetime, UtilPkg.PgbouncerDefaultServerLifetime) &&
    AtLeast(u.queryWaitTimeout, UtilPkg.PgbouncerDefaultQueryWaitTimeout) &&
    AtLeast(u.reservePoolSize, UtilPkg.PgbouncerDefaultReservePoolSize)
  }

  predicate AnyProvided(u: PgbouncerUpdate) {
    u.defaultPoolSize.Some? || u.maxClientConn.Some? || u.serverIdleTimeout.Some? ||
    u.serverLifetime.Some? || u.queryWaitTimeout.Some? || u.reservePoolSize.Some?
  }

  /** Field validation, then `ensure_updates`. */
  function ValidatePgbouncerUpdate(u: PgbouncerUpdate): (r: Result<PgbouncerUpdate>)
    ensures r.Ok? <==> FieldsValid(u) && AnyProvided(u)
    ensures r.Ok? ==> r.value == u
    ensures FieldsValid(u) && !AnyProvided(u) ==>
              r == Err(ValidatorFailure("Provide at least one PgBouncer parameter to update."))
  {
    if !FieldsValid(u) then Err(Raised("ValidationError", "input should be greater than or equal to the default"))
    else if u.defaultPoolSize.None? && u.maxClientConn.None? && u.serverIdleTimeout.None? &&
            u.serverLifetime.None? && u.queryWaitTimeout.None? && u.reservePoolSize.None? then
      Err(ValidatorFailure("Provide at least one PgBouncer parameter to update."))
    else Ok(u)
  }

  // ---------------------------------------------------------------------
  // Branch rows, provisioned resources and lookup

  /** The fields of a branch row this module reads. */
  datatype BranchRow = BranchRow(
    id: Ulid,
    projectId: Ulid,
    milliVcpu: int,
    memory: int,
    databaseSize: int,
    iops: int,
    storageSize: Option<int>)

  /** The API `ResourcesDefinition`. */
  datatype ResourcesDefinition = ResourcesDefinition(milliVcpu: int, ramBytes: int, nvmeBytes: int, iops: int, storageBytes: Option<int>)

  /** The field constraints of the API `ResourcesDefinition`. */
  predicate ValidDefinition(d: ResourcesDefinition) {
    UtilPkg.Satisfies(UtilPkg.CpuConstraints, d.milliVcpu) &&
    d.ramBytes > 0 &&
    UtilPkg.Satisfies(UtilPkg.DatabaseSizeConstraints, d.nvmeBytes) &&
    UtilPkg.Satisfies(UtilPkg.IopsConstraints, d.iops) &&
    (d.storageBytes.Some? ==> UtilPkg.Satisfies(UtilPkg.StorageSizeConstraints, d.storageBytes.value))
  }

  /** `Branch.provisioned_resources`: memory becomes `ram_bytes`, the database
      size `nvme_bytes` and the storage size `storage_bytes`; a value the
      definition refuses is its ValidationError. */
  function ProvisionedResources(b: BranchRow): (r: Result<ResourcesDefinition>)
    ensures r.Ok? <==> ValidDefinition(ResourcesDefinition(b.milliVcpu, b.memory, b.databaseSize, b.iops, b.storageSize))
    ensures r.Ok? ==> r.value.milliVcpu == b.milliVcpu && r.value.ramBytes == b.memory &&
                      r.value.nvmeBytes == b.databaseSize && r.value.iops == b.iops &&
                      r.value.storageBytes == b.storageSize
  {
    var d := ResourcesDefinition(b.milliVcpu, b.memory, b.databaseSize, b.iops, b.storageSize);
    if ValidDefinition(d) then Ok(d) else Err(Raised("ValidationError", "resource out of range"))
  }

  /** The rows a query for `(project, id)` returns. */
  function Matching(rows: seq<BranchRow>, projectId: Ulid, branchId: Ulid): (m: seq<BranchRow>)
    ensures forall r :: r in m <==> r in rows && r.projectId == projectId && r.id == branchId
    ensures |m| <= |rows|
  {
    if rows == [] then []
    else
      var rest := Matching(rows[1..], projectId, branchId);
      if rows[0].projectId == projectId && rows[0].id == branchId then [rows[0]] + rest else rest
  }

  /** `lookup`: `.one()` over the matching rows; no match is a 404. */
  function Lookup(rows: seq<BranchRow>, projectId: Ulid, branchId: Ulid): (r: Result<BranchRow>)
    ensures r.Ok? ==> r.value in rows && r.value.projectId == projectId && r.value.id == branchId
    ensures (forall b :: b in rows ==> !(b.projectId == projectId && b.id == branchId)) ==>
              r == Err(Http(404, "Branch " + branchId + " not found"))
    ensures |Matching(rows, projectId, branchId)| == 1 ==> r.Ok?
    ensures |Matching(rows, projectId, branchId)| >= 2 ==> r.Err? && r.failure.Raised? && r.failure.kind == "MultipleResultsFound"
  {
    var m := Matching(rows, projectId, branchId);
    if |m| == 0 then Err(Http(404, "Branch " + branchId + " not found"))
    else if |m| >= 2 then assert m[0] in m; Err(Raised("MultipleResultsFound", "Multiple rows were found when exactly one was required"))
    else Ok(m[0])
  }

  /** A branch of another project is never found, even with the right id. */
  lemma LookupIsScopedToProject(rows: seq<BranchRow>, projectId: Ulid, branchId: Ulid)
    requires forall b :: b in rows && b.id == branchId ==> b.projectId != projectId
    ensures Lookup(rows, projectId, branchId).IsHttp(404)
  {
  }
}
