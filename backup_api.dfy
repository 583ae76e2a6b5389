/** The backup schedule endpoints (src/api/backup.py): create or replace the
    schedule of an organization or a branch, delete a schedule, and take a
    manual backup of a branch. */
module BackupApi {
  import opened Common
  import opened BackupData

  /** One schedule row of a request body. */
  datatype RowInput = RowInput(rowIndex: int, interval: int, unit: string, retention: int)

  const MaxScheduleRows: nat := 10

  /** The request model's unit validator: a row whose unit is not a valid
      unit fails the request with 422 before the handler runs. */
  function ValidatePayload(rows: seq<RowInput>): (r: Option<Failure>)
    ensures r.None? <==> forall i :: 0 <= i < |rows| ==> ValidUnit(rows[i].unit)
    ensures r.Some? ==> r.value == Http(422, "invalid unit")
  {
    if forall i :: 0 <= i < |rows| ==> ValidUnit(rows[i].unit) then None else Some(Http(422, "invalid unit"))
  }

  function RowKey(r: RowInput): (int, string) {
    (r.interval, r.unit)
  }

  function RetentionOf(r: RowInput): int {
    r.retention
  }

  /** The keys of `rows`: the handler's `seen` set once it has passed them. */
  function SeenKeys(rows: seq<RowInput>): (s: set<(int, string)>)
    ensures forall j :: 0 <= j < |rows| ==> RowKey(rows[j]) in s
    ensures forall k :: k in s ==> exists j :: 0 <= j < |rows| && RowKey(rows[j]) == k
  {
    if rows == [] then {} else SeenKeys(rows[..|rows| - 1]) + {RowKey(rows[|rows| - 1])}
  }

  /** `INTERVAL_LIMITS.get(unit, 9999)`. */
  function LimitOrDefault(unit: string): int {
    IntervalLimit(unit).GetOr(9999)
  }

  /** The checks of one row, in their order, given the keys of the rows
      before it. */
  function RowError(seen: set<(int, string)>, r: RowInput): Option<Failure> {
    if RowKey(r) in seen then Some(Http(422, "Duplicate row found in schedule"))
    else if !ValidUnit(r.unit) then Some(Http(400, "Invalid unit: " + r.unit))
    else if r.interval > LimitOrDefault(r.unit) then
      Some(Http(400, "Interval for " + r.unit + " cannot exceed " + IntToString(LimitOrDefault(r.unit))))
    else None
  }

  /** The rows checked in order: the first failing row's error, or the total
      retention. */
  function CheckRows(rows: seq<RowInput>): Result<int> {
    if rows == [] then Ok(0)
    else
      var init := rows[..|rows| - 1];
      var prior := CheckRows(init);
      if prior.Err? then prior
      else match RowError(SeenKeys(init), rows[|rows| - 1])
        case Some(f) => Err(f)
        case None => Ok(prior.value + rows[|rows| - 1].retention)
  }

  /** What the row checks accept: no two rows with the same (interval, unit),
      every unit valid and every interval within its unit's cap. */
  predicate RowsAcceptable(rows: seq<RowInput>) {
    && (forall i, j :: 0 <= i < j < |rows| ==> RowKey(rows[i]) != RowKey(rows[j]))
    && (forall i :: 0 <= i < |rows| ==> ValidUnit(rows[i].unit) && rows[i].interval <= LimitOrDefault(rows[i].unit))
  }

  lemma {:induction false} CheckRowsMeaning(rows: seq<RowInput>)
    ensures CheckRows(rows).Ok? <==> RowsAcceptable(rows)
    ensures CheckRows(rows).Ok? ==> CheckRows(rows).value == SumOf(rows, RetentionOf)
  {
    if rows != [] {
      var init := rows[..|rows| - 1];
      var last := rows[|rows| - 1];
      CheckRowsMeaning(init);
      assert forall i :: 0 <= i < |init| ==> init[i] == rows[i];
      if RowsAcceptable(rows) {
        assert RowsAcceptable(init);
      }
      if CheckRows(rows).Ok? {
        forall i, j | 0 <= i < j < |rows| ensures RowKey(rows[i]) != RowKey(rows[j]) {
          if j == |rows| - 1 {
            assert RowKey(init[i]) in SeenKeys(init);
          }
        }
      }
    }
  }

  /** Once a row fails, the rows after it do not change the outcome. */
  lemma {:induction false} CheckRowsFailureIsFinal(rows: seq<RowInput>, k: nat)
    requires k <= |rows|
    requires CheckRows(rows[..k]).Err?
    ensures CheckRows(rows) == CheckRows(rows[..k])
    decreases |rows| - k
  {
    if k == |rows| {
      assert rows[..k] == rows;
    } else {
      assert rows[..k + 1][..k] == rows[..k];
      CheckRowsFailureIsFinal(rows, k + 1);
    }
  }

  /** With every unit valid (as the request validator guarantees), the row
      checks fail only on a duplicate or on an interval above its cap. */
  lemma {:induction false} CheckRowsErrorsWithValidUnits(rows: seq<RowInput>)
    requires forall i :: 0 <= i < |rows| ==> ValidUnit(rows[i].unit)
    ensures CheckRows(rows).Err? ==>
              CheckRows(rows).failure == Http(422, "Duplicate row found in schedule")
              || (CheckRows(rows).failure.Http? && CheckRows(rows).failure.status == 400
                  && StartsWith(CheckRows(rows).failure.detail, "Interval for "))
  {
    if rows != [] {
      var init := rows[..|rows| - 1];
      assert forall i :: 0 <= i < |init| ==> init[i] == rows[i];
      CheckRowsErrorsWithValidUnits(init);
    }
  }

  /** The row checks over one more row that passes them. */
  lemma CheckRowsPass(rows: seq<RowInput>, i: nat, total: int)
    requires i < |rows|
    requires CheckRows(rows[..i]).Ok? && CheckRows(rows[..i]).value == total
    requires RowError(SeenKeys(rows[..i]), rows[i]).None?
    ensures CheckRows(rows[..i + 1]).Ok? && CheckRows(rows[..i + 1]).value == total + rows[i].retention
    ensures SeenKeys(rows[..i + 1]) == SeenKeys(rows[..i]) + {(rows[i].interval, rows[i].unit)}
  {
    assert rows[..i + 1][..i] == rows[..i];
  }

  /** The row checks stop at the first row that fails them. */
  lemma CheckRowsStop(rows: seq<RowInput>, i: nat, f: Failure)
    requires i < |rows|
    requires CheckRows(rows[..i]).Ok?
    requires RowError(SeenKeys(rows[..i]), rows[i]) == Some(f)
    ensures CheckRows(rows) == Err(f)
  {
    assert rows[..i + 1][..i] == rows[..i];
    CheckRowsFailureIsFinal(rows, i + 1);
  }

  /** The validation loop: a `seen` set and a running total. */
  method ValidateRows(rows: seq<RowInput>) returns (r: Result<int>)
    ensures r == CheckRows(rows)
  {
    var total := 0;
    var seen: set<(int, string)> := {};
    var i := 0;
    while i < |rows|
      invariant 0 <= i <= |rows|
      invariant CheckRows(rows[..i]).Ok? && CheckRows(rows[..i]).value == total
      invariant seen == SeenKeys(rows[..i])
    {
      var failure := CheckRow(seen, rows[i]);
      if failure.Some? {
        CheckRowsStop(rows, i, failure.value);
        return Err(failure.value);
      }
      CheckRowsPass(rows, i, total);
      seen := seen + {(rows[i].interval, rows[i].unit)};
      total := total + rows[i].retention;
      i := i + 1;
    }
    assert rows[..|rows|] == rows;
    return Ok(total);
  }

  /** The body of the validation loop for one row, up to its `seen` and
      total updates. */
  method CheckRow(seen: set<(int, string)>, row: RowInput) returns (failure: Option<Failure>)
    ensures failure == RowError(seen, row)
  {
    if (row.interval, row.unit) in seen {
      return Some(Http(422, "Duplicate row found in schedule"));
    }
    if !ValidUnit(row.unit) {
      return Some(Http(400, "Invalid unit: " + row.unit));
    }
    var limit := IntervalLimit(row.unit).GetOr(9999);
    if row.interval > limit {
      return Some(Http(400, "Interval for " + row.unit + " cannot exceed " + IntToString(limit)));
    }
    return None;
  }

  // ---------------------------------------------------------------------
  // Schedule owner

  /** The organization or the branch a schedule request resolved to. */
  datatype Target = OrgTarget(org: OrgRecord) | BranchTarget(branch: BranchRecord)

  /** Python truthiness of an optional path parameter. */
  predicate Truthy(s: Option<string>) {
    s.Some? && s.value != ""
  }

  /** The organization when `org_ref` is given, else the branch when
      `branch_ref` is given. */
  function ResolveTarget(orgs: seq<OrgRecord>, branches: seq<BranchRecord>,
                         orgRef: Option<string>, branchRef: Option<string>): (r: Option<Target>)
    ensures r.Some? && r.value.OrgTarget? ==> Truthy(orgRef) && r.value.org in orgs && r.value.org.id == orgRef.value
    ensures r.Some? && r.value.BranchTarget? ==>
              !Truthy(orgRef) && Truthy(branchRef) && r.value.branch in branches && r.value.branch.id == branchRef.value
    ensures r.None? <==>
              if Truthy(orgRef) then forall o :: o in orgs ==> o.id != orgRef.value
              else !Truthy(branchRef) || forall b :: b in branches ==> b.id != branchRef.value
  {
    if Truthy(orgRef) then
      var o := FindOrg(orgs, orgRef.value);
      if o.Some? then Some(OrgTarget(o.value)) else None
    else if Truthy(branchRef) then
      var b := FindBranch(branches, branchRef.value);
      if b.Some? then Some(BranchTarget(b.value)) else None
    else None
  }

  function TargetOrgId(t: Target): Option<Id> {
    if t.OrgTarget? then Some(t.org.id) else None
  }

  function TargetBranchId(t: Target): Option<Id> {
    if t.BranchTarget? then Some(t.branch.id) else None
  }

  /** `max_backups` of the owner. */
  function TargetMaxBackups(t: Target): int {
    match t
    case OrgTarget(o) => o.maxBackups
    case BranchTarget(b) => b.maxBackups
  }

  /** A schedule with exactly these owner columns (a `None` column matches
      only NULL). */
  predicate ScheduleFor(s: Schedule, orgId: Option<Id>, branchId: Option<Id>, envType: Option<string>) {
    s.orgId == orgId && s.branchId == branchId && s.envType == envType
  }

  function SchedulesFor(schedules: seq<Schedule>, orgId: Option<Id>, branchId: Option<Id>,
                        envType: Option<string>): (r: seq<Schedule>)
    ensures forall s :: s in r <==> s in schedules && ScheduleFor(s, orgId, branchId, envType)
  {
    FilterMembershipAll(schedules, (s: Schedule) => ScheduleFor(s, orgId, branchId, envType));
    Filter(schedules, (s: Schedule) => ScheduleFor(s, orgId, branchId, envType))
  }

  /** The total retention against the owner's `max_backups`. */
  function BudgetError(t: Target, total: int): (r: Option<Failure>)
    ensures r.None? <==> total <= TargetMaxBackups(t)
    ensures r.Some? ==> r.value.Http? && r.value.status == 422
  {
    match t
    case OrgTarget(o) =>
      if total > o.maxBackups then
        Some(Http(422, "Max Backups " + IntToString(o.maxBackups) + " of Organization " + o.id + " exceeded: "
                       + IntToString(total)))
      else None
    case BranchTarget(b) =>
      if total > b.maxBackups then
        Some(Http(422, "Max Backups " + IntToString(b.maxBackups) + " of Branch " + b.id + " exceeded: "
                       + IntToString(total)))
      else None
  }

  // ---------------------------------------------------------------------
  // Create or replace

  function ToRow(scheduleId: Id, r: RowInput): ScheduleRow {
    ScheduleRow(scheduleId, r.rowIndex, r.interval, r.unit, r.retention)
  }

  /** The stored rows of the payload, in payload order. */
  function PayloadRows(scheduleId: Id, payload: seq<RowInput>): (r: seq<ScheduleRow>)
    ensures |r| == |payload|
    ensures forall i :: 0 <= i < |payload| ==> r[i] == ToRow(scheduleId, payload[i])
  {
    if payload == [] then []
    else PayloadRows(scheduleId, payload[..|payload| - 1]) + [ToRow(scheduleId, payload[|payload| - 1])]
  }

  /** Two payload rows with the same `row_index`: the unique index on
      (schedule_id, row_index) rejects their insertion. */
  predicate DuplicateRowIndex(payload: seq<RowInput>) {
    exists i, j :: 0 <= i < j < |payload| && payload[i].rowIndex == payload[j].rowIndex
  }

  const RowIndexViolation: Failure :=
    Raised("IntegrityError", "duplicate key value violates unique constraint \"ix_backup_schedule_row_schedule_index\"")

  /** What the checks established for an accepted request: the owner, the
      schedule already stored for it if any, and the total retention. */
  datatype Admission = Admission(target: Target, existing: Option<Schedule>, total: int)

  /** The checks of `add_or_replace_backup_schedule`, in their order, before
      anything is written. */
  function Admit(schedules: seq<Schedule>, orgs: seq<OrgRecord>, branches: seq<BranchRecord>,
                 orgRef: Option<string>, branchRef: Option<string>, payload: seq<RowInput>,
                 envType: Option<string>): (r: Result<Admission>)
    ensures r.Ok? ==> ResolveTarget(orgs, branches, orgRef, branchRef) == Some(r.value.target)
    ensures r.Ok? ==> r.value.existing.Some? ==>
              r.value.existing.value in SchedulesFor(schedules, TargetOrgId(r.value.target), TargetBranchId(r.value.target), envType)
    ensures r.Ok? ==> r.value.existing.None? ==>
              SchedulesFor(schedules, TargetOrgId(r.value.target), TargetBranchId(r.value.target), envType) == []
    ensures r.Ok? ==> CheckRows(payload) == Ok(r.value.total)
    ensures r.Ok? ==> ValidatePayload(payload).None? && 1 <= |payload| <= MaxScheduleRows
    ensures r.Ok? ==> r.value.total <= TargetMaxBackups(r.value.target)
    ensures r.Err? && r.failure.Http? && r.failure.status == 400 ==>
              || r.failure.detail == "No rows provided"
              || (ValidatePayload(payload).None? && CheckRows(payload) == Err(r.failure))
  {
    var invalid := ValidatePayload(payload);
    if invalid.Some? then Err(invalid.value)
    else if payload == [] then Err(Http(400, "No rows provided"))
    else if |payload| > MaxScheduleRows then Err(Http(422, "Too many rows in schedule. Max: 10"))
    else
      var target := ResolveTarget(orgs, branches, orgRef, branchRef);
      if target.None? then Err(Http(404, "Valid branch or organization required."))
      else
        var existing := OneOrNone(SchedulesFor(schedules, TargetOrgId(target.value), TargetBranchId(target.value), envType));
        if existing.Err? then Err(existing.failure)
        else
          var checked := CheckRows(payload);
          if checked.Err? then Err(checked.failure)
          else
            var over := BudgetError(target.value, checked.value);
            if over.Some? then Err(over.value)
            else Ok(Admission(target.value, existing.value, checked.value))
  }

  /** The writes of an accepted request. An existing schedule's rows are
      deleted and committed before the new rows are inserted, and a new
      schedule is committed before its rows, so a rejected insertion leaves
      the schedule without rows. */
  function Apply(t: ScheduleTables, a: Admission, payload: seq<RowInput>, envType: Option<string>,
                 freshId: Id): (Result<Id>, ScheduleTables)
  {
    var sid := if a.existing.Some? then a.existing.value.id else freshId;
    var cleared :=
      if a.existing.Some? then ScheduleTables(t.schedules, RowsWithout(t.rows, sid), t.nexts)
      else ScheduleTables(t.schedules + [Schedule(freshId, TargetOrgId(a.target), TargetBranchId(a.target), envType)],
                          t.rows, t.nexts);
    if DuplicateRowIndex(payload) then (Err(RowIndexViolation), cleared)
    else (Ok(sid), ScheduleTables(cleared.schedules, cleared.rows + PayloadRows(sid, payload), cleared.nexts))
  }

  /** `add_or_replace_backup_schedule`: the response and the schedule tables
      after it. */
  function AddOrReplace(t: ScheduleTables, orgs: seq<OrgRecord>, branches: seq<BranchRecord>,
                        orgRef: Option<string>, branchRef: Option<string>, payload: seq<RowInput>,
                        envType: Option<string>, freshId: Id): (Result<Id>, ScheduleTables)
  {
    var a := Admit(t.schedules, orgs, branches, orgRef, branchRef, payload, envType);
    if a.Err? then (Err(a.failure), t) else Apply(t, a.value, payload, envType, freshId)
  }

  /** The checks as the handler runs them. */
  method CheckRequest(schedules: seq<Schedule>, orgs: seq<OrgRecord>, branches: seq<BranchRecord>,
                      orgRef: Option<string>, branchRef: Option<string>, payload: seq<RowInput>,
                      envType: Option<string>)
    returns (r: Result<Admission>)
    ensures r == Admit(schedules, orgs, branches, orgRef, branchRef, payload, envType)
  {
    var invalid := ValidatePayload(payload);
    if invalid.Some? {
      return Err(invalid.value);
    }
    if |payload| == 0 {
      return Err(Http(400, "No rows provided"));
    }
    if |payload| > MaxScheduleRows {
      return Err(Http(422, "Too many rows in schedule. Max: 10"));
    }
    var target := ResolveTarget(orgs, branches, orgRef, branchRef);
    if target.None? {
      return Err(Http(404, "Valid branch or organization required."));
    }
    var existing := OneOrNone(SchedulesFor(schedules, TargetOrgId(target.value), TargetBranchId(target.value), envType));
    if existing.Err? {
      return Err(existing.failure);
    }
    var checked := ValidateRows(payload);
    if checked.Err? {
      return Err(checked.failure);
    }
    var over := BudgetError(target.value, checked.value);
    if over.Some? {
      return Err(over.value);
    }
    return Ok(Admission(target.value, existing.value, checked.value));
  }

  /** The writes of an accepted request as the handler makes them: the
      deletion of the old rows or the creation of the schedule, then the rows
      added one by one and committed together. */
  method ApplyRequest(store: BackupStore, a: Admission, payload: seq<RowInput>, envType: Option<string>, freshId: Id)
    returns (r: Result<Id>)
    modifies store
    ensures (r, ScheduleTables(store.schedules, store.rows, store.nexts))
            == Apply(ScheduleTables(old(store.schedules), old(store.rows), old(store.nexts)), a, payload, envType, freshId)
    ensures store.entries == old(store.entries) && store.logs == old(store.logs) && store.nextId == old(store.nextId)
  {
    var sid := if a.existing.Some? then a.existing.value.id else freshId;
    var added: seq<ScheduleRow> := [];
    var i := 0;
    while i < |payload|
      invariant 0 <= i <= |payload|
      invariant added == PayloadRows(sid, payload[..i])
    {
      assert payload[..i + 1][..i] == payload[..i];
      added := added + [ToRow(sid, payload[i])];
      i := i + 1;
    }
    assert payload[..|payload|] == payload;
    if a.existing.Some? {
      store.rows := RowsWithout(store.rows, sid);
    } else {
      store.schedules := store.schedules + [Schedule(freshId, TargetOrgId(a.target), TargetBranchId(a.target), envType)];
    }
    if DuplicateRowIndex(payload) {
      return Err(RowIndexViolation);
    }
    store.rows := store.rows + added;
    return Ok(sid);
  }

  /** `add_or_replace_backup_schedule` as it runs: the checks, then the
      writes. */
  method AddOrReplaceBackupSchedule(store: BackupStore, orgs: seq<OrgRecord>, branches: seq<BranchRecord>,
                                    orgRef: Option<string>, branchRef: Option<string>, payload: seq<RowInput>,
                                    envType: Option<string>, freshId: Id)
    returns (r: Result<Id>)
    modifies store
    ensures (r, ScheduleTables(store.schedules, store.rows, store.nexts))
            == AddOrReplace(ScheduleTables(old(store.schedules), old(store.rows), old(store.nexts)),
                            orgs, branches, orgRef, branchRef, payload, envType, freshId)
    ensures store.entries == old(store.entries) && store.logs == old(store.logs) && store.nextId == old(store.nextId)
  {
    var a := CheckRequest(store.schedules, orgs, branches, orgRef, branchRef, payload, envType);
    if a.Err? {
      return Err(a.failure);
    }
    r := ApplyRequest(store, a.value, payload, envType, freshId);
  }

  /** A successful call passed every check, in order: a non-empty payload of
      at most ten rows with valid units, a found owner, acceptable rows and a
      total retention within the owner's `max_backups`. */
  lemma AddOrReplaceAccepts(t: ScheduleTables, orgs: seq<OrgRecord>, branches: seq<BranchRecord>,
                            orgRef: Option<string>, branchRef: Option<string>, payload: seq<RowInput>,
                            envType: Option<string>, freshId: Id)
    ensures var o := AddOrReplace(t, orgs, branches, orgRef, branchRef, payload, envType, freshId);
            o.0.Ok? ==>
              && 1 <= |payload| <= MaxScheduleRows
              && RowsAcceptable(payload)
              && !DuplicateRowIndex(payload)
              && ResolveTarget(orgs, branches, orgRef, branchRef).Some?
              && SumOf(payload, RetentionOf) <= TargetMaxBackups(ResolveTarget(orgs, branches, orgRef, branchRef).value)
  {
    var a := Admit(t.schedules, orgs, branches, orgRef, branchRef, payload, envType);
    if a.Ok? {
      CheckRowsMeaning(payload);
    }
  }

  /** After a successful call the schedule's rows are exactly the payload's
      rows, in order; every other schedule keeps its rows and the NextBackup
      table is untouched. The fresh id is one no stored row uses. */
  lemma AddOrReplaceReplacesRows(t: ScheduleTables, orgs: seq<OrgRecord>, branches: seq<BranchRecord>,
                                 orgRef: Option<string>, branchRef: Option<string>, payload: seq<RowInput>,
                                 envType: Option<string>, freshId: Id)
    requires forall x :: x in t.rows ==> x.scheduleId != freshId
    ensures var o := AddOrReplace(t, orgs, branches, orgRef, branchRef, payload, envType, freshId);
            o.0.Ok? ==>
              && RowsOf(o.1.rows, o.0.value) == PayloadRows(o.0.value, payload)
              && (forall id :: id != o.0.value ==> RowsOf(o.1.rows, id) == RowsOf(t.rows, id))
              && o.1.nexts == t.nexts
  {
    var a := Admit(t.schedules, orgs, branches, orgRef, branchRef, payload, envType);
    if a.Ok? && !DuplicateRowIndex(payload) {
      ApplyReplacesRows(t, a.value, payload, envType, freshId);
    }
  }

  lemma ApplyReplacesRows(t: ScheduleTables, a: Admission, payload: seq<RowInput>, envType: Option<string>, freshId: Id)
    requires a.existing.None? ==> forall x :: x in t.rows ==> x.scheduleId != freshId
    requires !DuplicateRowIndex(payload)
    ensures var o := Apply(t, a, payload, envType, freshId);
            && o.0.Ok?
            && RowsOf(o.1.rows, o.0.value) == PayloadRows(o.0.value, payload)
            && (forall id :: id != o.0.value ==> RowsOf(o.1.rows, id) == RowsOf(t.rows, id))
            && o.1.nexts == t.nexts
  {
    var sid := if a.existing.Some? then a.existing.value.id else freshId;
    var base := if a.existing.Some? then RowsWithout(t.rows, sid) else t.rows;
    var added := PayloadRows(sid, payload);
    assert Apply(t, a, payload, envType, freshId).1.rows == base + added;
    assert forall x :: x in base ==> x.scheduleId != sid;
    NewRowsAreTheSchedule(base, sid, payload);
    forall id | id != sid ensures RowsOf(base + added, id) == RowsOf(t.rows, id) {
      OtherRowsKept(t.rows, base, sid, id, payload, a.existing.Some?);
    }
  }

  /** Rows of other schedules followed by the payload's rows of `sid`: the
      rows of `sid` are the payload's. */
  lemma NewRowsAreTheSchedule(base: seq<ScheduleRow>, sid: Id, payload: seq<RowInput>)
    requires forall x :: x in base ==> x.scheduleId != sid
    ensures RowsOf(base + PayloadRows(sid, payload), sid) == PayloadRows(sid, payload)
  {
    var added := PayloadRows(sid, payload);
    FilterAppend(base, added, (x: ScheduleRow) => RowOfSchedule(x, sid));
    FilterNone(base, (x: ScheduleRow) => RowOfSchedule(x, sid));
    FilterAll(added, (x: ScheduleRow) => RowOfSchedule(x, sid));
  }

  /** Deleting `sid`'s rows (when `cleared`) and adding new rows of `sid`
      leaves every other schedule's rows as they were. */
  lemma OtherRowsKept(rows: seq<ScheduleRow>, base: seq<ScheduleRow>, sid: Id, id: Id, payload: seq<RowInput>,
                      cleared: bool)
    requires id != sid
    requires base == if cleared then RowsWithout(rows, sid) else rows
    ensures RowsOf(base + PayloadRows(sid, payload), id) == RowsOf(rows, id)
  {
    var added := PayloadRows(sid, payload);
    FilterAppend(base, added, (x: ScheduleRow) => RowOfSchedule(x, id));
    FilterNone(added, (x: ScheduleRow) => RowOfSchedule(x, id));
    if cleared {
      FilterFilter(rows, (x: ScheduleRow) => !RowOfSchedule(x, sid), (x: ScheduleRow) => RowOfSchedule(x, id));
    }
  }


  /** A rejected call changes nothing, except that a payload with a repeated
      `row_index` fails only at the insertion of the rows, after the old rows
      were deleted or the new schedule committed: that schedule then has no
      rows. */
  lemma AddOrReplaceRejections(t: ScheduleTables, orgs: seq<OrgRecord>, branches: seq<BranchRecord>,
                               orgRef: Option<string>, branchRef: Option<string>, payload: seq<RowInput>,
                               envType: Option<string>, freshId: Id)
    requires forall x :: x in t.rows ==> x.scheduleId != freshId
    ensures var o := AddOrReplace(t, orgs, branches, orgRef, branchRef, payload, envType, freshId);
            o.0.Err? && o.0.failure != RowIndexViolation ==> o.1 == t
    ensures var o := AddOrReplace(t, orgs, branches, orgRef, branchRef, payload, envType, freshId);
            o.0 == Err(RowIndexViolation) ==>
              && DuplicateRowIndex(payload)
              && exists s :: s in o.1.schedules && RowsOf(o.1.rows, s.id) == []
  {
    var a := Admit(t.schedules, orgs, branches, orgRef, branchRef, payload, envType);
    if a.Err? {
      AdmitNeverViolatesIndex(t.schedules, orgs, branches, orgRef, branchRef, payload, envType);
    } else if DuplicateRowIndex(payload) {
      var o := Apply(t, a.value, payload, envType, freshId);
      if a.value.existing.Some? {
        var s := a.value.existing.value;
        FilterNone(RowsWithout(t.rows, s.id), (x: ScheduleRow) => RowOfSchedule(x, s.id));
        assert s in o.1.schedules;
      } else {
        var s := Schedule(freshId, TargetOrgId(a.value.target), TargetBranchId(a.value.target), envType);
        FilterNone(t.rows, (x: ScheduleRow) => RowOfSchedule(x, freshId));
        assert s in o.1.schedules;
      }
    }
  }

  /** The checks report HTTP errors, or the ambiguous-lookup exception;
      never the unique-index violation. */
  lemma AdmitNeverViolatesIndex(schedules: seq<Schedule>, orgs: seq<OrgRecord>, branches: seq<BranchRecord>,
                                orgRef: Option<string>, branchRef: Option<string>, payload: seq<RowInput>,
                                envType: Option<string>)
    ensures var a := Admit(schedules, orgs, branches, orgRef, branchRef, payload, envType);
            a.Err? ==> a.failure.Http? || a.failure.kind == "MultipleResultsFound"
  {
    CheckRowsHttp(payload);
  }

  lemma {:induction false} CheckRowsHttp(rows: seq<RowInput>)
    ensures CheckRows(rows).Err? ==> CheckRows(rows).failure.Http?
  {
    if rows != [] {
      CheckRowsHttp(rows[..|rows| - 1]);
    }
  }

  /** The handler's "Invalid unit" branch is unreachable: the request
      validator has already refused every invalid unit. */
  lemma InvalidUnitBranchUnreachable(t: ScheduleTables, orgs: seq<OrgRecord>, branches: seq<BranchRecord>,
                                     orgRef: Option<string>, branchRef: Option<string>, payload: seq<RowInput>,
                                     envType: Option<string>, freshId: Id, unit: string)
    ensures AddOrReplace(t, orgs, branches, orgRef, branchRef, payload, envType, freshId).0
            != Err(Http(400, "Invalid unit: " + unit))
  {
    AdmitNeverInvalidUnit(t.schedules, orgs, branches, orgRef, branchRef, payload, envType, unit);
  }

  lemma AdmitNeverInvalidUnit(schedules: seq<Schedule>, orgs: seq<OrgRecord>, branches: seq<BranchRecord>,
                              orgRef: Option<string>, branchRef: Option<string>, payload: seq<RowInput>,
                              envType: Option<string>, unit: string)
    ensures Admit(schedules, orgs, branches, orgRef, branchRef, payload, envType) != Err(Http(400, "Invalid unit: " + unit))
  {
    var r := Admit(schedules, orgs, branches, orgRef, branchRef, payload, envType);
    if r.Err? && r.failure.Http? && r.failure.status == 400 {
      NotInvalidUnit(r.failure, payload, unit);
    }
  }

  /** Neither "No rows provided" nor an error of rows whose units are all
      valid is an "Invalid unit" error. */
  lemma NotInvalidUnit(f: Failure, payload: seq<RowInput>, unit: string)
    requires f.Http? && f.status == 400
    requires f.detail == "No rows provided" || (ValidatePayload(payload).None? && CheckRows(payload) == Err(f))
    ensures f != Http(400, "Invalid unit: " + unit)
  {
    var bad := "Invalid unit: " + unit;
    assert bad[0] == 'I' && bad[2] == 'v';
    if f.detail != "No rows provided" {
      CheckRowsErrorsWithValidUnits(payload);
    }
  }

  // ---------------------------------------------------------------------
  // Delete

  /** The schedules `delete_schedule` selects: by organization (and
      environment type when one is given), or else by branch. */
  predicate DeleteMatches(s: Schedule, orgRef: Option<string>, branchRef: Option<string>, envType: Option<string>) {
    if Truthy(orgRef) then s.orgId.Some? && s.orgId.value == orgRef.value && (envType.Some? ==> s.envType == envType)
    else branchRef.Some? && s.branchId.Some? && s.branchId.value == branchRef.value
  }

  function SchedulesToDelete(schedules: seq<Schedule>, orgRef: Option<string>, branchRef: Option<string>,
                             envType: Option<string>): (r: seq<Schedule>)
    ensures forall s :: s in r <==> s in schedules && DeleteMatches(s, orgRef, branchRef, envType)
  {
    FilterMembershipAll(schedules, (s: Schedule) => DeleteMatches(s, orgRef, branchRef, envType));
    Filter(schedules, (s: Schedule) => DeleteMatches(s, orgRef, branchRef, envType))
  }

  /** `delete_schedule`: the response and the tables after it. */
  function DeleteScheduleOutcome(t: ScheduleTables, orgRef: Option<string>, branchRef: Option<string>,
                                 envType: Option<string>): (Result<string>, ScheduleTables)
  {
    if !Truthy(orgRef) && !Truthy(branchRef) then (Err(Http(400, "either org-ref or branch-ref needed.")), t)
    else
      var found := OneOrNone(SchedulesToDelete(t.schedules, orgRef, branchRef, envType));
      if found.Err? then (Err(found.failure), t)
      else if found.value.None? then (Err(Http(404, "Schedule not found")), t)
      else (Ok("Schedule and related data deleted successfully"), RemoveSchedule(t, found.value.value.id))
  }

  method DeleteSchedule(store: BackupStore, orgRef: Option<string>, branchRef: Option<string>, envType: Option<string>)
    returns (r: Result<string>)
    modifies store
    ensures (r, ScheduleTables(store.schedules, store.rows, store.nexts))
            == DeleteScheduleOutcome(ScheduleTables(old(store.schedules), old(store.rows), old(store.nexts)),
                                     orgRef, branchRef, envType)
    ensures store.entries == old(store.entries) && store.logs == old(store.logs) && store.nextId == old(store.nextId)
  {
    if !Truthy(orgRef) && !Truthy(branchRef) {
      return Err(Http(400, "either org-ref or branch-ref needed."));
    }
    var found := OneOrNone(SchedulesToDelete(store.schedules, orgRef, branchRef, envType));
    if found.Err? {
      return Err(found.failure);
    }
    if found.value.None? {
      return Err(Http(404, "Schedule not found"));
    }
    var id := found.value.value.id;
    var removed := RemoveSchedule(ScheduleTables(store.schedules, store.rows, store.nexts), id);
    store.rows := removed.rows;
    store.nexts := removed.nexts;
    store.schedules := removed.schedules;
    assert ScheduleTables(store.schedules, store.rows, store.nexts) == removed;
    return Ok("Schedule and related data deleted successfully");
  }

  /** A successful deletion selected exactly one schedule, and afterwards no
      schedule, row or NextBackup with its id remains while everything else
      stays. */
  lemma DeleteScheduleMeaning(t: ScheduleTables, orgRef: Option<string>, branchRef: Option<string>,
                              envType: Option<string>)
    ensures var o := DeleteScheduleOutcome(t, orgRef, branchRef, envType);
            o.0.Ok? ==>
              exists s :: s in t.schedules && DeleteMatches(s, orgRef, branchRef, envType)
                && |SchedulesToDelete(t.schedules, orgRef, branchRef, envType)| == 1
                && (forall x :: x in o.1.schedules <==> x in t.schedules && x.id != s.id)
                && (forall x :: x in o.1.rows <==> x in t.rows && x.scheduleId != s.id)
                && (forall nb :: nb in o.1.nexts <==> nb in t.nexts && nb.scheduleId != s.id)
  {
    var o := DeleteScheduleOutcome(t, orgRef, branchRef, envType);
    var found := SchedulesToDelete(t.schedules, orgRef, branchRef, envType);
    if o.0.Ok? {
      assert found[0] in found;
    }
  }

  /** Without a reference the result is 400, and with no match 404; either
      way nothing is deleted. */
  lemma DeleteScheduleRejects(t: ScheduleTables, orgRef: Option<string>, branchRef: Option<string>,
                              envType: Option<string>)
    ensures !Truthy(orgRef) && !Truthy(branchRef) ==>
              DeleteScheduleOutcome(t, orgRef, branchRef, envType).0.IsHttp(400)
    ensures (Truthy(orgRef) || Truthy(branchRef))
            && (forall s :: s in t.schedules ==> !DeleteMatches(s, orgRef, branchRef, envType)) ==>
              && DeleteScheduleOutcome(t, orgRef, branchRef, envType).0 == Err(Http(404, "Schedule not found"))
              && DeleteScheduleOutcome(t, orgRef, branchRef, envType).1 == t
  {
    if (Truthy(orgRef) || Truthy(branchRef)) && (forall s :: s in t.schedules ==> !DeleteMatches(s, orgRef, branchRef, envType)) {
      FilterNone(t.schedules, (s: Schedule) => DeleteMatches(s, orgRef, branchRef, envType));
    }
  }

  /** Deleting by organization without an environment type selects every
      schedule of the organization, so two of them make the lookup raise. */
  lemma DeleteByOrgIsAmbiguous(t: ScheduleTables, orgRef: string, branchRef: Option<string>, i: nat, j: nat)
    requires orgRef != ""
    requires i < j < |t.schedules|
    requires t.schedules[i].orgId == Some(orgRef) && t.schedules[j].orgId == Some(orgRef)
    ensures DeleteScheduleOutcome(t, Some(orgRef), branchRef, None).0
            == Err(Raised("MultipleResultsFound", "Multiple rows were found when one or none was required"))
  {
    OrgMatchesTwo(t.schedules, orgRef, branchRef, i, j);
  }

  lemma {:induction false} OrgMatchesTwo(schedules: seq<Schedule>, orgRef: string, branchRef: Option<string>,
                                         i: nat, j: nat)
    requires orgRef != ""
    requires i < j < |schedules|
    requires schedules[i].orgId == Some(orgRef) && schedules[j].orgId == Some(orgRef)
    ensures |SchedulesToDelete(schedules, Some(orgRef), branchRef, None)| >= 2
    decreases |schedules|
  {
    var p := (s: Schedule) => DeleteMatches(s, Some(orgRef), branchRef, None);
    var init := schedules[..|schedules| - 1];
    if j < |schedules| - 1 {
      OrgMatchesTwo(init, orgRef, branchRef, i, j);
    } else {
      assert init[i] == schedules[i];
      assert |SchedulesToDelete(init, Some(orgRef), branchRef, None)| >= 1 by {
        assert init[i] in SchedulesToDelete(init, Some(orgRef), branchRef, None);
      }
    }
  }

  // ---------------------------------------------------------------------
  // Manual backup

  /** `manual_backup`: a backup entry with row index -1 and size 0, and a
      "manual-create" log entry, for the branch `branchRef`. */
  method ManualBackup(store: BackupStore, branches: seq<BranchRecord>, branchRef: string, now: int)
    returns (r: Result<nat>)
    modifies store
    ensures FindBranch(branches, branchRef).None? ==>
              r == Err(Http(404, "Branch not found")) && store.entries == old(store.entries)
              && store.logs == old(store.logs) && store.nextId == old(store.nextId)
    ensures FindBranch(branches, branchRef).Some? ==>
              var b := FindBranch(branches, branchRef).value;
              && r == Ok(old(store.nextId))
              && store.entries == old(store.entries) + [BackupEntry(old(store.nextId), b.id, -1, now, Some(0))]
              && store.logs == old(store.logs) + [BackupLog(b.id, old(store.nextId), "manual-create", now)]
              && store.nextId == old(store.nextId) + 1
    ensures WellFormed(old(store.State())) ==> WellFormed(store.State())
    ensures store.schedules == old(store.schedules) && store.rows == old(store.rows) && store.nexts == old(store.nexts)
  {
    var branch := FindBranch(branches, branchRef);
    if branch.None? {
      return Err(Http(404, "Branch not found"));
    }
    var id := store.nextId;
    store.entries := store.entries + [BackupEntry(id, branch.value.id, -1, now, Some(0))];
    store.nextId := id + 1;
    store.logs := store.logs + [BackupLog(branch.value.id, id, "manual-create", now)];
    return Ok(id);
  }
}
