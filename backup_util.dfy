/** The schedule helpers the branch and backup endpoints share: copying a
    branch's schedules to a new branch, the project-wide retention budget,
    and removing a schedule that is about to be replaced. */
module BackupUtil {
  import opened Common
  import opened BackupData

  // ---------------------------------------------------------------------
  // Copying a branch's schedules

  predicate OnBranch(s: Schedule, branchId: Id) {
    s.branchId == Some(branchId)
  }

  /** The schedules of branch `branchId`, in table order. */
  function BranchSchedules(schedules: seq<Schedule>, branchId: Id): (r: seq<Schedule>)
    ensures forall s :: s in r <==> s in schedules && s.branchId == Some(branchId)
  {
    FilterMembershipAll(schedules, (s: Schedule) => OnBranch(s, branchId));
    Filter(schedules, (s: Schedule) => OnBranch(s, branchId))
  }

  /** A row with the same index, interval, unit and retention, belonging
      to schedule `scheduleId`. */
  function Retarget(r: ScheduleRow, scheduleId: Id): ScheduleRow {
    r.(scheduleId := scheduleId)
  }

  /** The new schedule for the target branch. `newId` stands for the
      primary key the database generates for the copy of each schedule. */
  function CopiedSchedule(s: Schedule, targetId: Id, newId: Id -> Id): Schedule {
    Schedule(newId(s.id), s.orgId, Some(targetId), s.envType)
  }

  /** The rows of the copy of `s`: the rows of `s` in row_index order. */
  function CopiedRows(rows: seq<ScheduleRow>, s: Schedule, newId: Id -> Id): (r: seq<ScheduleRow>)
  {
    var sorted := SortBy(RowsOf(rows, s.id), RowIndexKey);
    seq(|sorted|, i requires 0 <= i < |sorted| => Retarget(sorted[i], newId(s.id)))
  }

  /** The copies of `sources`, in order. */
  function CopiedSchedules(sources: seq<Schedule>, targetId: Id, newId: Id -> Id): (r: seq<Schedule>)
  {
    if sources == [] then []
    else CopiedSchedules(sources[..|sources| - 1], targetId, newId)
         + [CopiedSchedule(sources[|sources| - 1], targetId, newId)]
  }

  /** The rows of the copies of `sources`, schedule after schedule. */
  function CopiedRowsAll(rows: seq<ScheduleRow>, sources: seq<Schedule>, newId: Id -> Id): (r: seq<ScheduleRow>)
  {
    if sources == [] then []
    else CopiedRowsAll(rows, sources[..|sources| - 1], newId) + CopiedRows(rows, sources[|sources| - 1], newId)
  }

  /** `copy_branch_backup_schedules`: each schedule of the source branch is
      added again for the target branch, with its rows in row_index order.
      The copies are added to the session one by one and reach the tables
      together; NextBackup rows are not copied. */
  method CopyBranchBackupSchedules(store: BackupStore, sourceId: Id, target: BranchRecord, newId: Id -> Id)
    modifies store
    ensures store.schedules
            == old(store.schedules) + CopiedSchedules(BranchSchedules(old(store.schedules), sourceId), target.id, newId)
    ensures store.rows
            == old(store.rows) + CopiedRowsAll(old(store.rows), BranchSchedules(old(store.schedules), sourceId), newId)
    ensures store.nexts == old(store.nexts) && store.entries == old(store.entries)
    ensures store.logs == old(store.logs) && store.nextId == old(store.nextId)
  {
    var sources := BranchSchedules(store.schedules, sourceId);
    if sources == [] {
      assert CopiedSchedules(sources, target.id, newId) == [] && CopiedRowsAll(store.rows, sources, newId) == [];
      assert store.schedules + [] == store.schedules && store.rows + [] == store.rows;
      return;
    }
    var added, addedRows := CopySchedules(sources, store.rows, target.id, newId);
    store.schedules := store.schedules + added;
    store.rows := store.rows + addedRows;
  }

  /** The loop of the copy: one new schedule, and its rows, per source. */
  method CopySchedules(sources: seq<Schedule>, rows: seq<ScheduleRow>, targetId: Id, newId: Id -> Id)
    returns (added: seq<Schedule>, addedRows: seq<ScheduleRow>)
    ensures added == CopiedSchedules(sources, targetId, newId)
    ensures addedRows == CopiedRowsAll(rows, sources, newId)
  {
    added, addedRows := [], [];
    var i := 0;
    while i < |sources|
      invariant 0 <= i <= |sources|
      invariant added == CopiedSchedules(sources[..i], targetId, newId)
      invariant addedRows == CopiedRowsAll(rows, sources[..i], newId)
    {
      var s := sources[i];
      assert sources[..i + 1][..i] == sources[..i];
      added := added + [CopiedSchedule(s, targetId, newId)];
      addedRows := addedRows + CopiedRows(rows, s, newId);
      i := i + 1;
    }
    assert sources[..|sources|] == sources;
  }

  /** Each copy keeps the organization and environment type of a schedule
      of the source branch and belongs to the target branch; there is one
      copy per source schedule. */
  lemma {:induction false} CopiedSchedulesMeaning(schedules: seq<Schedule>, sourceId: Id, targetId: Id,
                                                  newId: Id -> Id)
    ensures var copies := CopiedSchedules(BranchSchedules(schedules, sourceId), targetId, newId);
            |copies| == |BranchSchedules(schedules, sourceId)|
    ensures forall c :: c in CopiedSchedules(BranchSchedules(schedules, sourceId), targetId, newId) ==>
              && c.branchId == Some(targetId)
              && (exists s :: s in schedules && s.branchId == Some(sourceId) && c.id == newId(s.id)
                    && c.orgId == s.orgId && c.envType == s.envType)
  {
    CopiesOf(BranchSchedules(schedules, sourceId), targetId, newId);
  }

  lemma {:induction false} CopiesOf(sources: seq<Schedule>, targetId: Id, newId: Id -> Id)
    ensures |CopiedSchedules(sources, targetId, newId)| == |sources|
    ensures forall c :: c in CopiedSchedules(sources, targetId, newId) ==>
              && c.branchId == Some(targetId)
              && (exists s :: s in sources && c.id == newId(s.id) && c.orgId == s.orgId && c.envType == s.envType)
  {
    if sources != [] {
      var init := sources[..|sources| - 1];
      var last := sources[|sources| - 1];
      CopiesOf(init, targetId, newId);
      forall c | c in CopiedSchedules(sources, targetId, newId)
        ensures exists s :: s in sources && c.id == newId(s.id) && c.orgId == s.orgId && c.envType == s.envType
      {
        if c in CopiedSchedules(init, targetId, newId) {
          var s :| s in init && c.id == newId(s.id) && c.orgId == s.orgId && c.envType == s.envType;
          assert s in sources;
        } else {
          assert c == CopiedSchedule(last, targetId, newId);
          assert last in sources;
        }
      }
    }
  }

  /** The copy of a schedule has its rows in row_index order, one for each
      row of the original, with the same index, interval, unit and
      retention. */
  lemma CopiedRowsMeaning(rows: seq<ScheduleRow>, s: Schedule, newId: Id -> Id)
    ensures SortedBy(CopiedRows(rows, s, newId), RowIndexKey)
    ensures |CopiedRows(rows, s, newId)| == |RowsOf(rows, s.id)|
    ensures forall x :: x in CopiedRows(rows, s, newId) <==>
              exists r :: r in rows && r.scheduleId == s.id && x == Retarget(r, newId(s.id))
  {
    var sorted := SortBy(RowsOf(rows, s.id), RowIndexKey);
    var copied := CopiedRows(rows, s, newId);
    assert forall i :: 0 <= i < |sorted| ==> copied[i] == Retarget(sorted[i], newId(s.id));
    forall x ensures x in copied <==> exists r :: r in rows && r.scheduleId == s.id && x == Retarget(r, newId(s.id)) {
      if x in copied {
        var i :| 0 <= i < |copied| && copied[i] == x;
        assert sorted[i] in multiset(sorted);
        assert sorted[i] in RowsOf(rows, s.id);
      }
      if r :| r in rows && r.scheduleId == s.id && x == Retarget(r, newId(s.id)) {
        assert r in RowsOf(rows, s.id);
        assert r in multiset(sorted);
        var i :| 0 <= i < |sorted| && sorted[i] == r;
        assert copied[i] == x;
      }
    }
  }

  /** Every copied row belongs to the copy of one of the source schedules. */
  lemma {:induction false} CopiedRowsBelong(rows: seq<ScheduleRow>, sources: seq<Schedule>, newId: Id -> Id)
    ensures forall x :: x in CopiedRowsAll(rows, sources, newId) ==>
              exists s :: s in sources && x.scheduleId == newId(s.id)
  {
    if sources != [] {
      var init := sources[..|sources| - 1];
      var last := sources[|sources| - 1];
      CopiedRowsBelong(rows, init, newId);
      forall x | x in CopiedRowsAll(rows, sources, newId) ensures exists s :: s in sources && x.scheduleId == newId(s.id) {
        if x in CopiedRowsAll(rows, init, newId) {
          var s :| s in init && x.scheduleId == newId(s.id);
          assert s in sources;
        } else {
          var copied := CopiedRows(rows, last, newId);
          assert x in copied;
          var i :| 0 <= i < |copied| && copied[i] == x;
          assert last in sources;
        }
      }
    }
  }

  // ---------------------------------------------------------------------
  // The project retention budget

  /** The project columns the budget check reads. */
  datatype ProjectRecord = ProjectRecord(id: Id, maxBackups: int)

  predicate IsScheduleId(s: Schedule, id: Id) {
    s.id == id
  }

  /** The schedule with primary key `id`. */
  function FindSchedule(schedules: seq<Schedule>, id: Id): (r: Option<Schedule>)
    ensures r.Some? ==> r.value in schedules && r.value.id == id
    ensures r.None? <==> forall s :: s in schedules ==> s.id != id
  {
    FirstWhere(schedules, (s: Schedule) => IsScheduleId(s, id))
  }

  /** The row joins its schedule and the schedule's branch, the branch is
      in the project, and the row is not of the excluded schedule. */
  predicate CountedRow(r: ScheduleRow, schedules: seq<Schedule>, branches: seq<BranchRecord>, projectId: Id,
                       exclude: Option<Id>)
  {
    && (exclude.None? || r.scheduleId != exclude.value)
    && var s := FindSchedule(schedules, r.scheduleId);
       && s.Some? && s.value.branchId.Some?
       && var b := FindBranch(branches, s.value.branchId.value);
          b.Some? && b.value.projectId == projectId
  }

  function CountedRows(rows: seq<ScheduleRow>, schedules: seq<Schedule>, branches: seq<BranchRecord>,
                       projectId: Id, exclude: Option<Id>): seq<ScheduleRow>
  {
    Filter(rows, (r: ScheduleRow) => CountedRow(r, schedules, branches, projectId, exclude))
  }

  function Retention(r: ScheduleRow): int {
    r.retention
  }

  /** The retention summed over the project's rows (0 when there are none). */
  function ProjectRetention(rows: seq<ScheduleRow>, schedules: seq<Schedule>, branches: seq<BranchRecord>,
                            projectId: Id, exclude: Option<Id>): int
  {
    SumOf(CountedRows(rows, schedules, branches, projectId, exclude), Retention)
  }

  /** `_validate_project_retention_budget`: nothing to check without a
      project; otherwise the project's retention, without the schedule being
      replaced, plus the new retention may reach but not exceed the
      project's `max_backups`, else 422. */
  function ValidateProjectRetentionBudget(project: Option<ProjectRecord>, schedule: Option<Schedule>,
                                          newRetention: int, t: ScheduleTables,
                                          branches: seq<BranchRecord>): (r: Option<Failure>)
    ensures project.None? ==> r.None?
    ensures project.Some? ==>
              var exclude := if schedule.Some? then Some(schedule.value.id) else None;
              (r.None? <==> ProjectRetention(t.rows, t.schedules, branches, project.value.id, exclude) + newRetention
                            <= project.value.maxBackups)
    ensures r.Some? ==> r.value.Http? && r.value.status == 422
  {
    if project.None? then None
    else
      var p := project.value;
      var exclude := if schedule.Some? then Some(schedule.value.id) else None;
      var combined := ProjectRetention(t.rows, t.schedules, branches, p.id, exclude) + newRetention;
      if combined > p.maxBackups then
        Some(Http(422, "Project " + p.id + " max backups " + IntToString(p.maxBackups)
                       + " exceeded by branch schedule: total retention " + IntToString(combined)))
      else None
  }

  /** The rows of the schedule being replaced do not count: removing them
      from the table first leaves the project's retention as it was. */
  lemma RetentionIgnoresReplacedRows(rows: seq<ScheduleRow>, schedules: seq<Schedule>, branches: seq<BranchRecord>,
                                     projectId: Id, id: Id)
    ensures ProjectRetention(RowsWithout(rows, id), schedules, branches, projectId, Some(id))
            == ProjectRetention(rows, schedules, branches, projectId, Some(id))
  {
    var p := (x: ScheduleRow) => !RowOfSchedule(x, id);
    var q := (r: ScheduleRow) => CountedRow(r, schedules, branches, projectId, Some(id));
    FilterFilter(rows, p, q);
  }

  /** Hence the budget check does not depend on the replaced schedule's rows. */
  lemma BudgetIgnoresReplacedRows(project: Option<ProjectRecord>, schedule: Schedule, newRetention: int,
                                  t: ScheduleTables, branches: seq<BranchRecord>)
    ensures ValidateProjectRetentionBudget(project, Some(schedule), newRetention,
                                           t.(rows := RowsWithout(t.rows, schedule.id)), branches).None?
            <==> ValidateProjectRetentionBudget(project, Some(schedule), newRetention, t, branches).None?
  {
    if project.Some? {
      RetentionIgnoresReplacedRows(t.rows, t.schedules, branches, project.value.id, schedule.id);
    }
  }

  /** A row whose schedule is an organization schedule or sits on a branch
      of another project. */
  predicate ForeignRow(r: ScheduleRow, schedules: seq<Schedule>, branches: seq<BranchRecord>, projectId: Id) {
    var s := FindSchedule(schedules, r.scheduleId);
    s.Some? ==> s.value.branchId.None? ||
                var b := FindBranch(branches, s.value.branchId.value);
                b.Some? ==> b.value.projectId != projectId
  }

  /** Rows of organization schedules and of other projects' branches do not
      count. */
  lemma RetentionIgnoresOtherRows(rows: seq<ScheduleRow>, schedules: seq<Schedule>, branches: seq<BranchRecord>,
                                  projectId: Id, exclude: Option<Id>, extra: seq<ScheduleRow>)
    requires forall r :: r in extra ==> ForeignRow(r, schedules, branches, projectId)
    ensures ProjectRetention(rows + extra, schedules, branches, projectId, exclude)
            == ProjectRetention(rows, schedules, branches, projectId, exclude)
  {
    var q := (r: ScheduleRow) => CountedRow(r, schedules, branches, projectId, exclude);
    FilterAppend(rows, extra, q);
    FilterNone(extra, q);
    assert Filter(rows, q) + [] == Filter(rows, q);
  }

  /** One more counted row adds its retention to the project's total. */
  lemma ProjectRetentionSnoc(rows: seq<ScheduleRow>, schedules: seq<Schedule>, branches: seq<BranchRecord>,
                             projectId: Id, exclude: Option<Id>, r: ScheduleRow)
    ensures ProjectRetention(rows + [r], schedules, branches, projectId, exclude)
            == ProjectRetention(rows, schedules, branches, projectId, exclude)
               + (if CountedRow(r, schedules, branches, projectId, exclude) then r.retention else 0)
  {
    var q := (x: ScheduleRow) => CountedRow(x, schedules, branches, projectId, exclude);
    FilterAppend(rows, [r], q);
    assert Filter([r], q) == if q(r) then [r] else [] by {
      assert [r][..0] == [];
    }
    SumOfAppend(Filter(rows, q), Filter([r], q), Retention);
    if !q(r) {
      assert Filter(rows, q) + [] == Filter(rows, q);
    }
  }

  // ---------------------------------------------------------------------
  // Removing the schedule being replaced

  /** `_remove_existing_schedule`: nothing without a schedule; otherwise its
      rows, then its NextBackup rows, then the schedule are deleted. */
  method RemoveExistingSchedule(store: BackupStore, schedule: Option<Schedule>)
    modifies store
    ensures ScheduleTables(store.schedules, store.rows, store.nexts)
            == if schedule.None? then ScheduleTables(old(store.schedules), old(store.rows), old(store.nexts))
               else RemoveSchedule(ScheduleTables(old(store.schedules), old(store.rows), old(store.nexts)),
                                   schedule.value.id)
    ensures store.entries == old(store.entries) && store.logs == old(store.logs) && store.nextId == old(store.nextId)
  {
    if schedule.None? {
      return;
    }
    var id := schedule.value.id;
    store.rows := RowsWithout(store.rows, id);
    store.nexts := Filter(store.nexts, (nb: NextBackup) => !NextOfSchedule(nb, id));
    store.schedules := Filter(store.schedules, (s: Schedule) => !IsSchedule(s, id));
  }

  /** Removing a schedule twice is removing it once. */
  lemma RemoveScheduleIdempotent(t: ScheduleTables, id: Id)
    ensures RemoveSchedule(RemoveSchedule(t, id), id) == RemoveSchedule(t, id)
  {
    var ps := (s: Schedule) => !IsSchedule(s, id);
    var pr := (x: ScheduleRow) => !RowOfSchedule(x, id);
    var pn := (nb: NextBackup) => !NextOfSchedule(nb, id);
    FilterFilter(t.schedules, ps, ps);
    FilterFilter(t.rows, pr, pr);
    FilterFilter(t.nexts, pn, pn);
  }
}
