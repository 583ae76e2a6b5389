/** The asynchronous backup monitor of src/api/backupmonitor.py: one pass
    over every branch resolves the branch's schedule, makes sure each row of
    it has a NextBackup, and takes (simulates) the backups that are due,
    advancing their NextBackup by one interval and pruning down to the row's
    retention. A branch that fails is logged and the pass goes on with the
    next one. */
module BackupMonitor {
  import opened Common
  import opened BackupData
  import opened BackupSteps

  // ---------------------------------------------------------------------
  // Schedule resolution

  predicate OnBranch(s: Schedule, b: BranchRecord) {
    s.branchId == Some(b.id)
  }

  /** `organization_id == branch.organization_id`, `env_type ==
      branch.env_type` (IS NULL when the branch has none), no branch. */
  predicate OnEnv(s: Schedule, b: BranchRecord) {
    s.orgId == Some(b.orgId) && s.envType == b.envType && s.branchId.None?
  }

  predicate OnOrg(s: Schedule, b: BranchRecord) {
    s.orgId == Some(b.orgId) && s.branchId.None? && s.envType.None?
  }

  function BranchLevel(schedules: seq<Schedule>, b: BranchRecord): (r: seq<Schedule>)
    ensures forall s :: s in r <==> s in schedules && OnBranch(s, b)
  {
    FilterMembershipAll(schedules, (s: Schedule) => OnBranch(s, b));
    Filter(schedules, (s: Schedule) => OnBranch(s, b))
  }

  function EnvLevel(schedules: seq<Schedule>, b: BranchRecord): (r: seq<Schedule>)
    ensures forall s :: s in r <==> s in schedules && OnEnv(s, b)
  {
    FilterMembershipAll(schedules, (s: Schedule) => OnEnv(s, b));
    Filter(schedules, (s: Schedule) => OnEnv(s, b))
  }

  function OrgLevel(schedules: seq<Schedule>, b: BranchRecord): (r: seq<Schedule>)
    ensures forall s :: s in r <==> s in schedules && OnOrg(s, b)
  {
    FilterMembershipAll(schedules, (s: Schedule) => OnOrg(s, b));
    Filter(schedules, (s: Schedule) => OnOrg(s, b))
  }

  /** `resolve_schedule`: the branch's own schedule, else its organization's
      schedule for the branch's environment type, else its organization's
      schedule without an environment type, else none. Each level is a
      `one_or_none` query, so two matching schedules at the level reached
      raise. */
  function ResolveSchedule(schedules: seq<Schedule>, b: BranchRecord): (r: Result<Option<Schedule>>)
    ensures |BranchLevel(schedules, b)| == 1 ==> r == Ok(Some(BranchLevel(schedules, b)[0]))
    ensures BranchLevel(schedules, b) == [] && |EnvLevel(schedules, b)| == 1 ==>
              r == Ok(Some(EnvLevel(schedules, b)[0]))
    ensures BranchLevel(schedules, b) == [] && EnvLevel(schedules, b) == [] ==> r == OneOrNone(OrgLevel(schedules, b))
    ensures r == Ok(None) <==>
              BranchLevel(schedules, b) == [] && EnvLevel(schedules, b) == [] && OrgLevel(schedules, b) == []
    ensures r.Err? <==>
              || |BranchLevel(schedules, b)| >= 2
              || (BranchLevel(schedules, b) == [] && |EnvLevel(schedules, b)| >= 2)
              || (BranchLevel(schedules, b) == [] && EnvLevel(schedules, b) == [] && |OrgLevel(schedules, b)| >= 2)
    ensures r.Ok? && r.value.Some? ==>
              var s := r.value.value;
              s in schedules && (OnBranch(s, b) || OnEnv(s, b) || OnOrg(s, b))
  {
    var byBranch := OneOrNone(BranchLevel(schedules, b));
    if byBranch.Err? || byBranch.value.Some? then byBranch
    else
      var byEnv := OneOrNone(EnvLevel(schedules, b));
      if byEnv.Err? || byEnv.value.Some? then byEnv
      else OneOrNone(OrgLevel(schedules, b))
  }

  // ---------------------------------------------------------------------
  // One branch

  predicate RowAt(r: ScheduleRow, scheduleId: Id, rowIndex: int) {
    r.scheduleId == scheduleId && r.rowIndex == rowIndex
  }

  /** The schedule row of a due NextBackup, a `one_or_none` query. */
  function FindRow(rows: seq<ScheduleRow>, scheduleId: Id, rowIndex: int): (r: Result<Option<ScheduleRow>>)
    ensures r.Ok? && r.value.Some? ==> r.value.value in rows && RowAt(r.value.value, scheduleId, rowIndex)
    ensures r == Ok(None) <==> forall x :: x in rows ==> !RowAt(x, scheduleId, rowIndex)
  {
    FilterMembershipAll(rows, (x: ScheduleRow) => RowAt(x, scheduleId, rowIndex));
    FilterEmpty(rows, (x: ScheduleRow) => RowAt(x, scheduleId, rowIndex));
    OneOrNone(Filter(rows, (x: ScheduleRow) => RowAt(x, scheduleId, rowIndex)))
  }

  /** The backup `execute_backup` records: the next id, the row's index, the
      current time and no size yet. */
  function NewEntry(st: BackupState, b: BranchRecord, row: ScheduleRow, now: int): BackupEntry {
    BackupEntry(st.nextId, b.id, row.rowIndex, now, None)
  }

  /** The tables once the new backup is committed. */
  function Recorded(st: BackupState, b: BranchRecord, row: ScheduleRow, now: int): BackupState {
    st.(entries := st.entries + [NewEntry(st, b, row, now)], nextId := st.nextId + 1)
  }

  /** The "taken" log of backup `id` and the k-th NextBackup moved `secs`
      seconds on. */
  function Advance(st: BackupState, b: BranchRecord, id: nat, k: nat, secs: int, now: int): BackupState
    requires k < |st.nexts|
  {
    st.(logs := st.logs + [BackupLog(b.id, id, "taken", now)],
        nexts := st.nexts[k := st.nexts[k].(nextAt := st.nexts[k].nextAt + secs)])
  }

  /** `execute_backup` on the k-th NextBackup: the backup is recorded and
      committed; then the "taken" log and the advanced NextBackup are
      committed together, and the row is pruned. A unit without a
      multiplier raises after the first commit. */
  function Execute(st: BackupState, b: BranchRecord, row: ScheduleRow, k: nat, now: int): (r: BranchRun)
    requires k < |st.nexts|
    ensures r.state.nextId == st.nextId + 1
    ensures IntervalSeconds(row.interval, row.unit).Err? ==>
              && r.failure == Some(IntervalSeconds(row.interval, row.unit).failure)
              && r.state.entries == st.entries + [NewEntry(st, b, row, now)]
              && r.state.nexts == st.nexts && r.state.logs == st.logs
    ensures IntervalSeconds(row.interval, row.unit).Ok? ==>
              var secs := IntervalSeconds(row.interval, row.unit).value;
              && r.failure.None?
              && r.state.nexts == st.nexts[k := st.nexts[k].(nextAt := st.nexts[k].nextAt + secs)]
              && st.logs + [BackupLog(b.id, st.nextId, "taken", now)] <= r.state.logs
  {
    var recorded := Recorded(st, b, row, now);
    var secs := IntervalSeconds(row.interval, row.unit);
    if secs.Err? then BranchRun(recorded, Some(secs.failure))
    else BranchRun(Prune(Advance(recorded, b, st.nextId, k, secs.value, now), b.id, row, now), None)
  }

  /** One NextBackup of the due loop. A run that has failed goes no further;
      a NextBackup of another branch or not yet due is passed over, and so
      is a due one whose row_index has no row in the resolved schedule or
      whose branch's lock is held elsewhere (`busy`). */
  function DueStep(run: BranchRun, scheduleId: Id, rows: seq<ScheduleRow>, b: BranchRecord, busy: set<Id>,
                   now: int, k: nat): (r: BranchRun)
    ensures |r.state.nexts| == |run.state.nexts|
    ensures forall i :: 0 <= i < |run.state.nexts| && i != k ==> r.state.nexts[i] == run.state.nexts[i]
    ensures r.state.nextId >= run.state.nextId
    ensures run.failure.Some? ==> r == run
  {
    if run.failure.Some? || k >= |run.state.nexts| then run
    else
      var nb := run.state.nexts[k];
      if nb.branchId != b.id || nb.nextAt > now then run
      else
        var found := FindRow(rows, scheduleId, nb.rowIndex);
        if found.Err? then BranchRun(run.state, Some(found.failure))
        else if found.value.None? || b.id in busy then run
        else Execute(run.state, b, found.value.value, k, now)
  }

  /** The due loop over the first `n` NextBackups, in table order. */
  function DueRun(st: BackupState, scheduleId: Id, rows: seq<ScheduleRow>, b: BranchRecord, busy: set<Id>,
                  now: int, n: nat): BranchRun
  {
    Steps(BranchRun(st, None), n, (r: BranchRun, k: nat) => DueStep(r, scheduleId, rows, b, busy, now, k))
  }

  /** `process_branch`: resolve the schedule; ensure a NextBackup for each of
      its rows in row_index order (one commit); then run the due loop over
      all NextBackups. */
  function Process(st: BackupState, schedules: seq<Schedule>, rows: seq<ScheduleRow>, b: BranchRecord,
                   busy: set<Id>, now: int): (r: BranchRun)
  {
    var resolved := ResolveSchedule(schedules, b);
    if resolved.Err? then BranchRun(st, Some(resolved.failure))
    else if resolved.value.None? then BranchRun(st, None)
    else
      var s := resolved.value.value;
      var ensured := EnsureNexts(st.nexts, s.id, b.id, SortBy(RowsOf(rows, s.id), RowIndexKey), now);
      if ensured.Err? then BranchRun(st, Some(ensured.failure))
      else
        var st1 := st.(nexts := ensured.value);
        DueRun(st1, s.id, rows, b, busy, now, |st1.nexts|)
  }

  /** `run_once` over `branches`: each branch processed in turn, a failing
      branch logged and the pass continued with the next. */
  function RunOnceState(st: BackupState, schedules: seq<Schedule>, rows: seq<ScheduleRow>,
                        branches: seq<BranchRecord>, busy: set<Id>, now: int): BackupState
  {
    ForEach(st, branches, (s: BackupState, x: BranchRecord) => Process(s, schedules, rows, x, busy, now).state)
  }

  // ---------------------------------------------------------------------
  // Properties

  /** A NextBackup the loop passes over is left as it was; from a due one
      whose row exists and whose unit is known, exactly one interval of the
      row is added to next_at. */
  predicate Advanced(before: NextBackup, after: NextBackup, scheduleId: Id, rows: seq<ScheduleRow>, now: int) {
    || after == before
    || (&& before.nextAt <= now
        && exists row :: row in rows && RowAt(row, scheduleId, before.rowIndex)
                         && IntervalSeconds(row.interval, row.unit).Ok?
                         && after == before.(nextAt := before.nextAt + IntervalSeconds(row.interval, row.unit).value))
  }

  /** One step of the due loop moves only its own NextBackup, and that one
      only if it belongs to the branch and is due, by one interval of its
      row. */
  lemma DueStepAdvances(run: BranchRun, scheduleId: Id, rows: seq<ScheduleRow>, b: BranchRecord, busy: set<Id>,
                        now: int, k: nat)
    requires k < |run.state.nexts|
    ensures var r := DueStep(run, scheduleId, rows, b, busy, now, k);
            && Advanced(run.state.nexts[k], r.state.nexts[k], scheduleId, rows, now)
            && (run.state.nexts[k].branchId != b.id ==> r.state.nexts[k] == run.state.nexts[k])
  {
    var nb := run.state.nexts[k];
    if run.failure.None? && nb.branchId == b.id && nb.nextAt <= now {
      var found := FindRow(rows, scheduleId, nb.rowIndex);
      if found.Ok? && found.value.Some? && b.id !in busy {
        var row := found.value.value;
        assert row in rows && RowAt(row, scheduleId, nb.rowIndex);
      }
    }
  }

  /** How the due loop may move a NextBackup: as `Advanced` allows, and not
      at all when it belongs to another branch. */
  predicate MovedBy(before: NextBackup, after: NextBackup, scheduleId: Id, rows: seq<ScheduleRow>, b: BranchRecord,
                    now: int) {
    Advanced(before, after, scheduleId, rows, now) && (before.branchId != b.id ==> after == before)
  }

  /** The due loop keeps the number of NextBackups, changes next_at only of
      the branch's due NextBackups, and each by exactly one interval of its
      row. */
  lemma DueRunAdvances(st: BackupState, scheduleId: Id, rows: seq<ScheduleRow>, b: BranchRecord,
                       busy: set<Id>, now: int, n: nat)
    ensures var r := DueRun(st, scheduleId, rows, b, busy, now, n);
            && |r.state.nexts| == |st.nexts|
            && forall i :: 0 <= i < |st.nexts| ==> MovedBy(st.nexts[i], r.state.nexts[i], scheduleId, rows, b, now)
  {
    var step := (r: BranchRun, k: nat) => DueStep(r, scheduleId, rows, b, busy, now, k);
    var rel := (x: NextBackup, y: NextBackup) => MovedBy(x, y, scheduleId, rows, b, now);
    forall r: BranchRun, k: nat | k < |r.state.nexts|
      ensures rel(r.state.nexts[k], step(r, k).state.nexts[k])
    {
      DueStepAdvances(r, scheduleId, rows, b, busy, now, k);
    }
    StepsMoveOwn(BranchRun(st, None), n, step, rel);
  }

  /** Once the due loop has failed, the remaining NextBackups are passed over. */
  lemma DueRunFailureIsFinal(st: BackupState, scheduleId: Id, rows: seq<ScheduleRow>,
                             b: BranchRecord, busy: set<Id>, now: int, n: nat, m: nat)
    requires n <= m
    requires DueRun(st, scheduleId, rows, b, busy, now, n).failure.Some?
    ensures DueRun(st, scheduleId, rows, b, busy, now, m) == DueRun(st, scheduleId, rows, b, busy, now, n)
  {
    var step := (r: BranchRun, k: nat) => DueStep(r, scheduleId, rows, b, busy, now, k);
    StepsFailureIsFinal(BranchRun(st, None), step, n, m);
  }

  /** A branch whose schedule cannot be resolved, or that has none, or whose
      ensure step raises, leaves the tables as they were. */
  lemma ProcessWithoutScheduleChangesNothing(st: BackupState, schedules: seq<Schedule>, rows: seq<ScheduleRow>,
                                              b: BranchRecord, busy: set<Id>, now: int)
    ensures var resolved := ResolveSchedule(schedules, b);
            (resolved.Err? || resolved == Ok(None)) ==> Process(st, schedules, rows, b, busy, now).state == st
    ensures var resolved := ResolveSchedule(schedules, b);
            resolved.Err? ==> Process(st, schedules, rows, b, busy, now).failure == Some(resolved.failure)
    ensures var resolved := ResolveSchedule(schedules, b);
            resolved.Ok? && resolved.value.Some? ==>
              var s := resolved.value.value;
              var ensured := EnsureNexts(st.nexts, s.id, b.id, SortBy(RowsOf(rows, s.id), RowIndexKey), now);
              ensured.Err? ==> Process(st, schedules, rows, b, busy, now) == BranchRun(st, Some(ensured.failure))
  {
  }

  /** Advancing keeps a NextBackup's branch and row index. */
  lemma HasNextKept(before: seq<NextBackup>, after: seq<NextBackup>, scheduleId: Id, rows: seq<ScheduleRow>, now: int,
                    branchId: Id, rowIndex: int)
    requires |before| == |after|
    requires forall i :: 0 <= i < |before| ==> Advanced(before[i], after[i], scheduleId, rows, now)
    requires HasNext(before, branchId, rowIndex)
    ensures HasNext(after, branchId, rowIndex)
  {
    var nb :| nb in before && NextFor(nb, branchId, rowIndex);
    var i :| 0 <= i < |before| && before[i] == nb;
    assert NextFor(after[i], branchId, rowIndex);
  }

  /** After processing a branch, every row of its resolved schedule has a
      NextBackup for the branch. */
  lemma ProcessCoversRows(st: BackupState, schedules: seq<Schedule>, rows: seq<ScheduleRow>, b: BranchRecord,
                          busy: set<Id>, now: int)
    ensures var resolved := ResolveSchedule(schedules, b);
            var r := Process(st, schedules, rows, b, busy, now);
            resolved.Ok? && resolved.value.Some? && r.failure.None? ==>
              forall x :: x in rows && x.scheduleId == resolved.value.value.id ==> HasNext(r.state.nexts, b.id, x.rowIndex)
  {
    var resolved := ResolveSchedule(schedules, b);
    var r := Process(st, schedules, rows, b, busy, now);
    if resolved.Ok? && resolved.value.Some? && r.failure.None? {
      var s := resolved.value.value;
      var sorted := SortBy(RowsOf(rows, s.id), RowIndexKey);
      var ensured := EnsureNexts(st.nexts, s.id, b.id, sorted, now);
      EnsureNextsCovers(st.nexts, s.id, b.id, sorted, now);
      var st1 := st.(nexts := ensured.value);
      DueRunAdvances(st1, s.id, rows, b, busy, now, |st1.nexts|);
      forall x | x in rows && x.scheduleId == s.id ensures HasNext(r.state.nexts, b.id, x.rowIndex) {
        assert x in multiset(RowsOf(rows, s.id));
        assert x in multiset(sorted);
        var j :| 0 <= j < |sorted| && sorted[j] == x;
        HasNextKept(st1.nexts, r.state.nexts, s.id, rows, now, b.id, x.rowIndex);
      }
    }
  }

  /** Processing a branch keeps every NextBackup that existed before, each
      untouched or advanced by one interval of its row, and leaves those of
      other branches untouched. */
  lemma ProcessAdvances(st: BackupState, schedules: seq<Schedule>, rows: seq<ScheduleRow>, b: BranchRecord,
                        busy: set<Id>, now: int)
    ensures var resolved := ResolveSchedule(schedules, b);
            var r := Process(st, schedules, rows, b, busy, now);
            resolved.Ok? && resolved.value.Some? ==>
              && |st.nexts| <= |r.state.nexts|
              && (forall i :: 0 <= i < |st.nexts| ==>
                    Advanced(st.nexts[i], r.state.nexts[i], resolved.value.value.id, rows, now))
              && (forall i :: 0 <= i < |st.nexts| && st.nexts[i].branchId != b.id ==> r.state.nexts[i] == st.nexts[i])
  {
    var resolved := ResolveSchedule(schedules, b);
    if resolved.Ok? && resolved.value.Some? {
      var s := resolved.value.value;
      var ensured := EnsureNexts(st.nexts, s.id, b.id, SortBy(RowsOf(rows, s.id), RowIndexKey), now);
      if ensured.Ok? {
        var st1 := st.(nexts := ensured.value);
        DueRunAdvances(st1, s.id, rows, b, busy, now, |st1.nexts|);
        assert forall i :: 0 <= i < |st.nexts| ==> st1.nexts[i] == st.nexts[i];
      }
    }
  }

  // ---------------------------------------------------------------------
  // Well-formedness

  lemma ExecuteKeepsWellFormed(st: BackupState, b: BranchRecord, row: ScheduleRow, k: nat, now: int)
    requires k < |st.nexts|
    requires WellFormed(st)
    ensures WellFormed(Execute(st, b, row, k, now).state)
  {
    var recorded := Recorded(st, b, row, now);
    assert WellFormed(recorded) by {
      forall i, j | 0 <= i < j < |recorded.entries| ensures recorded.entries[i].id != recorded.entries[j].id {
        if j == |st.entries| {
          assert st.entries[i] in st.entries;
        } else {
          assert recorded.entries[i] == st.entries[i] && recorded.entries[j] == st.entries[j];
        }
      }
    }
    var secs := IntervalSeconds(row.interval, row.unit);
    if secs.Ok? {
      PruneKeepsWellFormed(Advance(recorded, b, st.nextId, k, secs.value, now), b.id, row, now);
    }
  }

  lemma DueStepKeepsWellFormed(run: BranchRun, scheduleId: Id, rows: seq<ScheduleRow>, b: BranchRecord,
                                busy: set<Id>, now: int, k: nat)
    requires WellFormed(run.state)
    ensures WellFormed(DueStep(run, scheduleId, rows, b, busy, now, k).state)
  {
    var r := DueStep(run, scheduleId, rows, b, busy, now, k);
    if run.failure.None? && k < |run.state.nexts| {
      var nb := run.state.nexts[k];
      if nb.branchId == b.id && nb.nextAt <= now {
        var found := FindRow(rows, scheduleId, nb.rowIndex);
        if found.Ok? && found.value.Some? && b.id !in busy {
          assert r == Execute(run.state, b, found.value.value, k, now);
          ExecuteKeepsWellFormed(run.state, b, found.value.value, k, now);
        } else {
          assert r.state == run.state;
        }
      } else {
        assert r == run;
      }
    } else {
      assert r == run;
    }
  }

  lemma DueRunKeepsWellFormed(st: BackupState, scheduleId: Id, rows: seq<ScheduleRow>,
                              b: BranchRecord, busy: set<Id>, now: int, n: nat)
    requires WellFormed(st)
    ensures WellFormed(DueRun(st, scheduleId, rows, b, busy, now, n).state)
  {
    var step := (r: BranchRun, k: nat) => DueStep(r, scheduleId, rows, b, busy, now, k);
    forall r: BranchRun, k: nat | WellFormed(r.state)
      ensures WellFormed(step(r, k).state)
    {
      DueStepKeepsWellFormed(r, scheduleId, rows, b, busy, now, k);
    }
    StepsKeep(BranchRun(st, None), n, step, WellFormed);
  }

  /** Processing a branch keeps backup ids distinct and below the next id. */
  lemma ProcessKeepsWellFormed(st: BackupState, schedules: seq<Schedule>, rows: seq<ScheduleRow>, b: BranchRecord,
                               busy: set<Id>, now: int)
    requires WellFormed(st)
    ensures WellFormed(Process(st, schedules, rows, b, busy, now).state)
  {
    var resolved := ResolveSchedule(schedules, b);
    if resolved.Ok? && resolved.value.Some? {
      var s := resolved.value.value;
      var ensured := EnsureNexts(st.nexts, s.id, b.id, SortBy(RowsOf(rows, s.id), RowIndexKey), now);
      if ensured.Ok? {
        var st1 := st.(nexts := ensured.value);
        DueRunKeepsWellFormed(st1, s.id, rows, b, busy, now, |st1.nexts|);
      }
    }
  }

  /** A whole pass keeps backup ids distinct and below the next id. */
  lemma RunOnceKeepsWellFormed(st: BackupState, schedules: seq<Schedule>, rows: seq<ScheduleRow>,
                               branches: seq<BranchRecord>, busy: set<Id>, now: int)
    requires WellFormed(st)
    ensures WellFormed(RunOnceState(st, schedules, rows, branches, busy, now))
  {
    var step := (s: BackupState, x: BranchRecord) => Process(s, schedules, rows, x, busy, now).state;
    forall s, x | WellFormed(s) ensures WellFormed(step(s, x)) {
      ProcessKeepsWellFormed(s, schedules, rows, x, busy, now);
    }
    ForEachKeeps(st, branches, step, WellFormed);
  }

  /** A branch whose schedule cannot be resolved does not stop the pass: the
      branches after it are processed exactly as if it were absent. */
  lemma RunOnceSkipsUnresolvable(st: BackupState, schedules: seq<Schedule>, rows: seq<ScheduleRow>,
                                 before: seq<BranchRecord>, b: BranchRecord, after: seq<BranchRecord>,
                                 busy: set<Id>, now: int)
    requires ResolveSchedule(schedules, b).Err?
    ensures RunOnceState(st, schedules, rows, before + [b] + after, busy, now)
            == RunOnceState(st, schedules, rows, before + after, busy, now)
  {
    var step := (s: BackupState, x: BranchRecord) => Process(s, schedules, rows, x, busy, now).state;
    ForEachSkips(st, before, b, after, step);
  }

  // ---------------------------------------------------------------------
  // The monitor as it runs

  /** `execute_backup` on the store's k-th NextBackup. */
  method ExecuteBackup(store: BackupStore, b: BranchRecord, row: ScheduleRow, k: nat, now: int)
    returns (failure: Option<Failure>)
    requires k < |store.nexts|
    modifies store
    ensures BranchRun(store.State(), failure) == Execute(old(store.State()), b, row, k, now)
    ensures store.schedules == old(store.schedules) && store.rows == old(store.rows)
  {
    ghost var st0 := store.State();
    var id := store.nextId;
    store.entries := store.entries + [BackupEntry(id, b.id, row.rowIndex, now, None)];
    store.nextId := id + 1;
    assert store.State() == Recorded(st0, b, row, now);
    var secs := IntervalSeconds(row.interval, row.unit);
    if secs.Err? {
      return Some(secs.failure);
    }
    ghost var recorded := store.State();
    store.logs := store.logs + [BackupLog(b.id, id, "taken", now)];
    var nb := store.nexts[k];
    store.nexts := store.nexts[k := nb.(nextAt := nb.nextAt + secs.value)];
    assert store.State() == Advance(recorded, b, id, k, secs.value, now);
    PruneBackups(store, b.id, row, now);
    return None;
  }

  /** The due loop of `process_branch` over the store's NextBackups. */
  method RunDue(store: BackupStore, scheduleId: Id, b: BranchRecord, busy: set<Id>, now: int)
    returns (failure: Option<Failure>)
    modifies store
    ensures BranchRun(store.State(), failure)
            == DueRun(old(store.State()), scheduleId, old(store.rows), b, busy, now, |old(store.nexts)|)
    ensures store.schedules == old(store.schedules) && store.rows == old(store.rows)
  {
    var st0 := store.State();
    var i := 0;
    while i < |store.nexts|
      invariant |store.nexts| == |st0.nexts|
      invariant 0 <= i <= |store.nexts|
      invariant store.schedules == old(store.schedules) && store.rows == old(store.rows)
      invariant DueRun(st0, scheduleId, store.rows, b, busy, now, i) == BranchRun(store.State(), None)
    {
      failure := DueOne(store, scheduleId, b, busy, now, i);
      if failure.Some? {
        DueRunFailureIsFinal(st0, scheduleId, store.rows, b, busy, now, i + 1, |st0.nexts|);
        return;
      }
      i := i + 1;
    }
    return None;
  }

  /** One NextBackup of the due loop on the store. */
  method DueOne(store: BackupStore, scheduleId: Id, b: BranchRecord, busy: set<Id>, now: int, k: nat)
    returns (failure: Option<Failure>)
    requires k < |store.nexts|
    modifies store
    ensures BranchRun(store.State(), failure)
            == DueStep(BranchRun(old(store.State()), None), scheduleId, old(store.rows), b, busy, now, k)
    ensures store.schedules == old(store.schedules) && store.rows == old(store.rows)
  {
    var nb := store.nexts[k];
    if nb.branchId == b.id && nb.nextAt <= now {
      var found := FindRow(store.rows, scheduleId, nb.rowIndex);
      if found.Err? {
        return Some(found.failure);
      }
      if found.value.Some? && b.id !in busy {
        failure := ExecuteBackup(store, b, found.value.value, k, now);
        return;
      }
    }
    return None;
  }

  /** `process_branch` on the store. */
  method ProcessBranch(store: BackupStore, b: BranchRecord, busy: set<Id>, now: int)
    returns (failure: Option<Failure>)
    modifies store
    ensures BranchRun(store.State(), failure) == Process(old(store.State()), old(store.schedules), old(store.rows), b, busy, now)
    ensures store.schedules == old(store.schedules) && store.rows == old(store.rows)
  {
    var resolved := ResolveSchedule(store.schedules, b);
    if resolved.Err? {
      return Some(resolved.failure);
    }
    if resolved.value.None? {
      return None;
    }
    var s := resolved.value.value;
    var sorted := SortBy(RowsOf(store.rows, s.id), RowIndexKey);
    failure := EnsureNextBackups(store, s.id, b.id, sorted, now);
    if failure.Some? {
      return;
    }
    failure := RunDue(store, s.id, b, busy, now);
  }

  /** The pass over one more branch processes that branch last. */
  lemma RunOnceSnoc(st: BackupState, schedules: seq<Schedule>, rows: seq<ScheduleRow>, branches: seq<BranchRecord>,
                    i: nat, busy: set<Id>, now: int)
    requires i < |branches|
    ensures RunOnceState(st, schedules, rows, branches[..i + 1], busy, now)
            == Process(RunOnceState(st, schedules, rows, branches[..i], busy, now), schedules, rows, branches[i],
                       busy, now).state
  {
    var step := (s: BackupState, x: BranchRecord) => Process(s, schedules, rows, x, busy, now).state;
    assert branches[..i + 1] == branches[..i] + [branches[i]];
    ForEachSnoc(st, branches[..i], branches[i], step);
  }

  /** `run_once` over the given branches. */
  method RunOnce(store: BackupStore, branches: seq<BranchRecord>, busy: set<Id>, now: int)
    modifies store
    ensures store.State() == RunOnceState(old(store.State()), old(store.schedules), old(store.rows), branches, busy, now)
    ensures store.schedules == old(store.schedules) && store.rows == old(store.rows)
  {
    var schedules, rows := store.schedules, store.rows;
    var i := 0;
    while i < |branches|
      invariant 0 <= i <= |branches|
      invariant store.schedules == schedules && store.rows == rows
      invariant store.State() == RunOnceState(old(store.State()), schedules, rows, branches[..i], busy, now)
    {
      RunOnceSnoc(old(store.State()), schedules, rows, branches, i, busy, now);
      var _ := ProcessBranch(store, branches[i], busy, now);
      i := i + 1;
    }
    assert branches[..|branches|] == branches;
  }
}
