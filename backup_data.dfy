/** The backup tables shared by the schedule API, the two backup monitors
    and the schedule helpers: schedules and their rows, the next due time of
    each (branch, row), the backups taken and the backup log; and the unit
    tables that turn a schedule row into seconds. */
module BackupData {
  import opened Common

  /** A primary key of the backup tables (a ULID), kept as opaque text. */
  type Id = string

  /** A schedule belongs to an organization (optionally narrowed to an
      environment type) or to a branch. */
  datatype Schedule = Schedule(id: Id, orgId: Option<Id>, branchId: Option<Id>, envType: Option<string>)

  /** One row of a schedule: take a backup every `interval` `unit`s and keep
      `retention` of them. */
  datatype ScheduleRow = ScheduleRow(scheduleId: Id, rowIndex: int, interval: int, unit: string, retention: int)

  /** When the backup of a branch's schedule row is next due. */
  datatype NextBackup = NextBackup(branchId: Id, scheduleId: Id, rowIndex: int, nextAt: int)

  /** A backup taken; `rowIndex` is -1 for a manual backup. */
  datatype BackupEntry = BackupEntry(id: nat, branchId: Id, rowIndex: int, createdAt: int, sizeBytes: Option<int>)

  datatype BackupLog = BackupLog(branchId: Id, backupId: nat, action: string, ts: int)

  /** The organization and branch columns the backup code reads. */
  datatype OrgRecord = OrgRecord(id: Id, maxBackups: int)

  datatype BranchRecord = BranchRecord(id: Id, orgId: Id, projectId: Id, envType: Option<string>, maxBackups: int,
                                       isOnline: bool)

  // ---------------------------------------------------------------------
  // Units

  /** `UNIT_MULTIPLIER`: seconds per unit, under each unit's aliases. */
  function UnitMultiplier(unit: string): (r: Option<int>)
    ensures r.Some? ==> r.value in {60, 3600, 86400, 604800}
  {
    if unit in {"min", "minute", "minutes"} then Some(60)
    else if unit in {"h", "hour", "hours"} then Some(3600)
    else if unit in {"d", "day", "days"} then Some(86400)
    else if unit in {"w", "week", "weeks"} then Some(604800)
    else None
  }

  /** `VALID_UNITS`. */
  predicate ValidUnit(unit: string) {
    unit in {"minute", "hour", "day", "week", "min", "minutes", "h", "hours", "d", "days", "w", "weeks"}
  }

  /** `INTERVAL_LIMITS`: the largest interval allowed for each unit. */
  function IntervalLimit(unit: string): (r: Option<int>)
    ensures r.Some? ==> r.value in {59, 23, 6, 12}
  {
    if unit in {"minute", "minutes", "min"} then Some(59)
    else if unit in {"hour", "hours", "h"} then Some(23)
    else if unit in {"day", "d", "days"} then Some(6)
    else if unit in {"week", "w", "weeks"} then Some(12)
    else None
  }

  /** The three tables have the same keys. */
  lemma UnitTablesAgree(unit: string)
    ensures ValidUnit(unit) <==> UnitMultiplier(unit).Some?
    ensures ValidUnit(unit) <==> IntervalLimit(unit).Some?
  {
  }

  /** `interval_seconds`: the unit is looked up lower-cased; an unknown unit
      raises KeyError. */
  function IntervalSeconds(interval: int, unit: string): (r: Result<int>)
    ensures r.Ok? <==> ValidUnit(Lower(unit))
    ensures r.Ok? ==> r.value == interval * UnitMultiplier(Lower(unit)).value
    ensures r.Err? ==> r.failure.Raised? && r.failure.kind == "KeyError"
  {
    UnitTablesAgree(Lower(unit));
    var m := UnitMultiplier(Lower(unit));
    if m.None? then Err(Raised("KeyError", Lower(unit))) else Ok(interval * m.value)
  }

  /** The unit is matched without regard to case. */
  lemma IntervalSecondsIgnoresCase(interval: int, unit: string)
    ensures IntervalSeconds(interval, unit) == IntervalSeconds(interval, Lower(unit))
  {
    LowerIdempotent(unit);
  }

  /** Minutes and hours in seconds. */
  lemma IntervalSecondsMinutesHours(interval: int)
    ensures IntervalSeconds(interval, "minute") == Ok(interval * 60)
    ensures IntervalSeconds(interval, "h") == Ok(interval * 3600)
  {
    assert Lower("minute") == "minute";
    assert Lower("h") == "h";
  }

  /** Days and weeks in seconds. */
  lemma IntervalSecondsDaysWeeks(interval: int)
    ensures IntervalSeconds(interval, "days") == Ok(interval * 86400)
    ensures IntervalSeconds(interval, "w") == Ok(interval * 604800)
  {
    assert Lower("days") == "days";
    assert Lower("w") == "w";
  }

  /** A unit outside the table, such as months, raises KeyError. */
  lemma IntervalSecondsUnknownUnit(interval: int)
    ensures IntervalSeconds(interval, "month") == Err(Raised("KeyError", "month"))
  {
    assert Lower("month") == "month";
  }

  /** Upper-case spellings are accepted too. */
  lemma IntervalSecondsUpperCase(interval: int)
    ensures IntervalSeconds(interval, "HOURS") == Ok(interval * 3600)
  {
    assert Lower("HOURS") == "hours";
  }

  // ---------------------------------------------------------------------
  // Table queries

  predicate OrgIs(o: OrgRecord, id: string) {
    o.id == id
  }

  predicate BranchIs(b: BranchRecord, id: string) {
    b.id == id
  }

  /** The organization with primary key `id`. */
  function FindOrg(orgs: seq<OrgRecord>, id: string): (r: Option<OrgRecord>)
    ensures r.Some? ==> r.value in orgs && r.value.id == id
    ensures r.None? <==> forall o :: o in orgs ==> o.id != id
  {
    FirstWhere(orgs, (o: OrgRecord) => OrgIs(o, id))
  }

  /** The branch with primary key `id`. */
  function FindBranch(branches: seq<BranchRecord>, id: string): (r: Option<BranchRecord>)
    ensures r.Some? ==> r.value in branches && r.value.id == id
    ensures r.None? <==> forall b :: b in branches ==> b.id != id
  {
    FirstWhere(branches, (b: BranchRecord) => BranchIs(b, id))
  }

  predicate RowOfSchedule(r: ScheduleRow, scheduleId: Id) {
    r.scheduleId == scheduleId
  }

  /** `schedule.rows`, in table order. */
  function RowsOf(rows: seq<ScheduleRow>, scheduleId: Id): (r: seq<ScheduleRow>)
    ensures forall x :: x in r <==> x in rows && x.scheduleId == scheduleId
  {
    FilterMembershipAll(rows, (x: ScheduleRow) => RowOfSchedule(x, scheduleId));
    Filter(rows, (x: ScheduleRow) => RowOfSchedule(x, scheduleId))
  }

  function RowIndexKey(r: ScheduleRow): int {
    r.rowIndex
  }

  function CreatedAtKey(e: BackupEntry): int {
    e.createdAt
  }

  /** The ids of the given backups. */
  function EntryIds(entries: seq<BackupEntry>): set<nat> {
    set e | e in entries :: e.id
  }

  /** The rows of every schedule but `scheduleId`. */
  function RowsWithout(rows: seq<ScheduleRow>, scheduleId: Id): (r: seq<ScheduleRow>)
    ensures forall x :: x in r <==> x in rows && x.scheduleId != scheduleId
  {
    FilterMembershipAll(rows, (x: ScheduleRow) => !RowOfSchedule(x, scheduleId));
    Filter(rows, (x: ScheduleRow) => !RowOfSchedule(x, scheduleId))
  }

  /** The schedule tables a schedule's creation, replacement and removal act on. */
  datatype ScheduleTables = ScheduleTables(schedules: seq<Schedule>, rows: seq<ScheduleRow>, nexts: seq<NextBackup>)

  predicate IsSchedule(s: Schedule, id: Id) {
    s.id == id
  }

  predicate NextOfSchedule(nb: NextBackup, scheduleId: Id) {
    nb.scheduleId == scheduleId
  }

  /** Deleting a schedule's rows, its NextBackup rows and the schedule. */
  function RemoveSchedule(t: ScheduleTables, id: Id): (r: ScheduleTables)
    ensures forall s :: s in r.schedules <==> s in t.schedules && s.id != id
    ensures forall x :: x in r.rows <==> x in t.rows && x.scheduleId != id
    ensures forall nb :: nb in r.nexts <==> nb in t.nexts && nb.scheduleId != id
  {
    FilterMembershipAll(t.schedules, (s: Schedule) => !IsSchedule(s, id));
    FilterMembershipAll(t.nexts, (nb: NextBackup) => !NextOfSchedule(nb, id));
    ScheduleTables(Filter(t.schedules, (s: Schedule) => !IsSchedule(s, id)),
                   RowsWithout(t.rows, id),
                   Filter(t.nexts, (nb: NextBackup) => !NextOfSchedule(nb, id)))
  }

  /** No two backups share an id. */
  predicate DistinctIds(entries: seq<BackupEntry>) {
    forall i, j :: 0 <= i < j < |entries| ==> entries[i].id != entries[j].id
  }

  /** The tables the backup monitors write. */
  datatype BackupState = BackupState(nexts: seq<NextBackup>, entries: seq<BackupEntry>, logs: seq<BackupLog>, nextId: nat)

  /** Backup ids are distinct and below the next id to hand out. */
  predicate WellFormed(st: BackupState) {
    DistinctIds(st.entries) && forall e :: e in st.entries ==> e.id < st.nextId
  }

  /** The backup tables. `nextId` is the id the next backup taken receives. */
  class BackupStore {
    var schedules: seq<Schedule>
    var rows: seq<ScheduleRow>
    var nexts: seq<NextBackup>
    var entries: seq<BackupEntry>
    var logs: seq<BackupLog>
    var nextId: nat

    /** The tables the backup monitors write. */
    function State(): BackupState
      reads this
    {
      BackupState(nexts, entries, logs, nextId)
    }

    constructor(schedules: seq<Schedule>, rows: seq<ScheduleRow>, nexts: seq<NextBackup>, entries: seq<BackupEntry>)
      ensures this.schedules == schedules && this.rows == rows && this.nexts == nexts && this.entries == entries
      ensures logs == [] && nextId == 0
    {
      this.schedules := schedules;
      this.rows := rows;
      this.nexts := nexts;
      this.entries := entries;
      logs := [];
      nextId := 0;
    }
  }
}
