/** The synchronous backup monitor of src/api/organization/project/backup.py.
    It differs from the asynchronous one in four ways: only online branches
    are processed; the organization-level fallback takes any branch-less
    schedule of the organization, whatever its environment type; the
    "taken" log is committed before next_at is advanced; and a schedule
    without rows ends the branch with an UnboundLocalError once the ensure
    step has committed. */
module ProjectBackup {
  import opened Common
  import opened BackupData
  import opened BackupSteps
  import BM = BackupMonitor

  // ---------------------------------------------------------------------
  // Branches and schedules

  predicate IsOnline(b: BranchRecord) {
    b.isOnline
  }

  /** `query(Branch).filter(Branch.is_online == True)`, in table order. */
  function OnlineBranches(branches: seq<BranchRecord>): (r: seq<BranchRecord>)
    ensures forall b :: b in r <==> b in branches && b.isOnline
  {
    FilterMembershipAll(branches, (b: BranchRecord) => IsOnline(b));
    Filter(branches, (b: BranchRecord) => IsOnline(b))
  }

  /** The organization-level query of this monitor: the organization and no
      branch, with no condition on the environment type. */
  predicate OnOrgAny(s: Schedule, b: BranchRecord) {
    s.orgId == Some(b.orgId) && s.branchId.None?
  }

  function OrgLevelAny(schedules: seq<Schedule>, b: BranchRecord): (r: seq<Schedule>)
    ensures forall s :: s in r <==> s in schedules && OnOrgAny(s, b)
  {
    FilterMembershipAll(schedules, (s: Schedule) => OnOrgAny(s, b));
    Filter(schedules, (s: Schedule) => OnOrgAny(s, b))
  }

  /** `resolve_schedule`: the branch's own schedule, else the organization's
      schedule for the branch's environment type, else any branch-less
      schedule of the organization. Each level is a `one_or_none` query. */
  function ResolveSchedule(schedules: seq<Schedule>, b: BranchRecord): (r: Result<Option<Schedule>>)
    ensures |BM.BranchLevel(schedules, b)| == 1 ==> r == Ok(Some(BM.BranchLevel(schedules, b)[0]))
    ensures BM.BranchLevel(schedules, b) == [] && |BM.EnvLevel(schedules, b)| == 1 ==>
              r == Ok(Some(BM.EnvLevel(schedules, b)[0]))
    ensures BM.BranchLevel(schedules, b) == [] && BM.EnvLevel(schedules, b) == [] ==>
              r == OneOrNone(OrgLevelAny(schedules, b))
    ensures r == Ok(None) <==>
              BM.BranchLevel(schedules, b) == [] && BM.EnvLevel(schedules, b) == [] && OrgLevelAny(schedules, b) == []
    ensures r.Ok? && r.value.Some? ==>
              var s := r.value.value;
              s in schedules && (BM.OnBranch(s, b) || BM.OnEnv(s, b) || OnOrgAny(s, b))
  {
    var byBranch := OneOrNone(BM.BranchLevel(schedules, b));
    if byBranch.Err? || byBranch.value.Some? then byBranch
    else
      var byEnv := OneOrNone(BM.EnvLevel(schedules, b));
      if byEnv.Err? || byEnv.value.Some? then byEnv
      else OneOrNone(OrgLevelAny(schedules, b))
  }

  /** A lone organization schedule for another environment type serves the
      branch here, while the asynchronous monitor finds no schedule. */
  lemma OrgFallbackIgnoresEnvType(s: Schedule, b: BranchRecord)
    requires s.orgId == Some(b.orgId) && s.branchId.None?
    requires s.envType.Some? && s.envType != b.envType
    ensures ResolveSchedule([s], b) == Ok(Some(s))
    ensures BM.ResolveSchedule([s], b) == Ok(None)
  {
    assert !BM.OnBranch(s, b) && !BM.OnEnv(s, b) && !BM.OnOrg(s, b) && OnOrgAny(s, b);
    assert BM.BranchLevel([s], b) == [];
    assert BM.EnvLevel([s], b) == [];
    assert BM.OrgLevel([s], b) == [];
    assert OrgLevelAny([s], b) == [s] by {
      assert Filter([s], (x: Schedule) => OnOrgAny(x, b)) == [s];
    }
  }

  // ---------------------------------------------------------------------
  // One branch

  /** The "taken" log of backup `id`, committed on its own. */
  function Logged(st: BackupState, b: BranchRecord, id: nat, now: int): BackupState {
    st.(logs := st.logs + [BackupLog(b.id, id, "taken", now)])
  }

  /** The k-th NextBackup moved `secs` seconds on. */
  function Moved(st: BackupState, k: nat, secs: int): BackupState
    requires k < |st.nexts|
  {
    st.(nexts := st.nexts[k := st.nexts[k].(nextAt := st.nexts[k].nextAt + secs)])
  }

  /** The body of the due loop for the k-th NextBackup once its lock is
      taken: the backup is recorded and committed, the "taken" log is
      committed, next_at is advanced and committed, and the row is pruned. A
      unit without a multiplier raises after the first two commits. */
  function Execute(st: BackupState, b: BranchRecord, row: ScheduleRow, k: nat, now: int): (r: BranchRun)
    requires k < |st.nexts|
    ensures r.state.nextId == st.nextId + 1
    ensures IntervalSeconds(row.interval, row.unit).Err? ==>
              && r.failure == Some(IntervalSeconds(row.interval, row.unit).failure)
              && r.state.entries == st.entries + [BM.NewEntry(st, b, row, now)]
              && r.state.logs == st.logs + [BackupLog(b.id, st.nextId, "taken", now)]
              && r.state.nexts == st.nexts
    ensures IntervalSeconds(row.interval, row.unit).Ok? ==>
              var secs := IntervalSeconds(row.interval, row.unit).value;
              && r.failure.None?
              && r.state.nexts == st.nexts[k := st.nexts[k].(nextAt := st.nexts[k].nextAt + secs)]
              && st.logs + [BackupLog(b.id, st.nextId, "taken", now)] <= r.state.logs
  {
    var logged := Logged(BM.Recorded(st, b, row, now), b, st.nextId, now);
    var secs := IntervalSeconds(row.interval, row.unit);
    if secs.Err? then BranchRun(logged, Some(secs.failure))
    else BranchRun(Prune(Moved(logged, k, secs.value), b.id, row, now), None)
  }

  /** One NextBackup of the due loop, as in the asynchronous monitor but with
      this monitor's `Execute`. */
  function DueStep(run: BranchRun, scheduleId: Id, rows: seq<ScheduleRow>, b: BranchRecord, busy: set<Id>,
                   now: int, k: nat): (r: BranchRun)
    ensures |r.state.nexts| == |run.state.nexts|
    ensures forall i :: 0 <= i < |run.state.nexts| && i != k ==> r.state.nexts[i] == run.state.nexts[i]
    ensures r.state.nextId >= run.state.nextId
    ensures run.failure.Some? ==> r == run
  {
    if run.failure.Some? || k >= |run.state.nexts| then run
    else
      var nb := run.state.nexts[k];
      if nb.branchId != b.id || nb.nextAt > now then run
      else
        var found := BM.FindRow(rows, scheduleId, nb.rowIndex);
        if found.Err? then BranchRun(run.state, Some(found.failure))
        else if found.value.None? || b.id in busy then run
        else Execute(run.state, b, found.value.value, k, now)
  }

  /** The due loop over the first `n` NextBackups, in table order. */
  function DueRun(st: BackupState, scheduleId: Id, rows: seq<ScheduleRow>, b: BranchRecord, busy: set<Id>,
                  now: int, n: nat): BranchRun
  {
    Steps(BranchRun(st, None), n, (r: BranchRun, k: nat) => DueStep(r, scheduleId, rows, b, busy, now, k))
  }

  /** The exception the progress log line raises when the schedule has no
      rows: its loop variable was never bound. */
  const UnboundRow: Failure := Raised("UnboundLocalError", "row")

  /** `process_branch`: resolve the schedule; ensure a NextBackup for each of
      its rows in row_index order and commit; log the last row (which raises
      when there is none); then run the due loop. */
  function Process(st: BackupState, schedules: seq<Schedule>, rows: seq<ScheduleRow>, b: BranchRecord,
                   busy: set<Id>, now: int): (r: BranchRun)
  {
    var resolved := ResolveSchedule(schedules, b);
    if resolved.Err? then BranchRun(st, Some(resolved.failure))
    else if resolved.value.None? then BranchRun(st, None)
    else
      var s := resolved.value.value;
      var sorted := SortBy(RowsOf(rows, s.id), RowIndexKey);
      var ensured := EnsureNexts(st.nexts, s.id, b.id, sorted, now);
      if ensured.Err? then BranchRun(st, Some(ensured.failure))
      else
        var st1 := st.(nexts := ensured.value);
        if sorted == [] then BranchRun(st1, Some(UnboundRow))
        else DueRun(st1, s.id, rows, b, busy, now, |st1.nexts|)
  }

  /** `run_once` over the online ones of `branches`: each processed in turn,
      a failing branch logged and the pass continued with the next. */
  function RunOnceState(st: BackupState, schedules: seq<Schedule>, rows: seq<ScheduleRow>,
                        branches: seq<BranchRecord>, busy: set<Id>, now: int): BackupState
  {
    ForEach(st, OnlineBranches(branches), (s: BackupState, x: BranchRecord) => Process(s, schedules, rows, x, busy, now).state)
  }

  // ---------------------------------------------------------------------
  // Properties

  /** One step of the due loop moves only its own NextBackup, and that one
      only if it belongs to the branch and is due, by one interval of its
      row. */
  lemma DueStepAdvances(run: BranchRun, scheduleId: Id, rows: seq<ScheduleRow>, b: BranchRecord, busy: set<Id>,
                        now: int, k: nat)
    requires k < |run.state.nexts|
    ensures BM.MovedBy(run.state.nexts[k], DueStep(run, scheduleId, rows, b, busy, now, k).state.nexts[k],
                       scheduleId, rows, b, now)
  {
    var nb := run.state.nexts[k];
    if run.failure.None? && nb.branchId == b.id && nb.nextAt <= now {
      var found := BM.FindRow(rows, scheduleId, nb.rowIndex);
      if found.Ok? && found.value.Some? && b.id !in busy {
        var row := found.value.value;
        assert row in rows && BM.RowAt(row, scheduleId, nb.rowIndex);
      }
    }
  }

  /** The due loop keeps the number of NextBackups and moves each only as
      `BM.MovedBy` allows. */
  lemma DueRunAdvances(st: BackupState, scheduleId: Id, rows: seq<ScheduleRow>, b: BranchRecord,
                       busy: set<Id>, now: int, n: nat)
    ensures var r := DueRun(st, scheduleId, rows, b, busy, now, n);
            && |r.state.nexts| == |st.nexts|
            && forall i :: 0 <= i < |st.nexts| ==> BM.MovedBy(st.nexts[i], r.state.nexts[i], scheduleId, rows, b, now)
  {
    var step := (r: BranchRun, k: nat) => DueStep(r, scheduleId, rows, b, busy, now, k);
    var rel := (x: NextBackup, y: NextBackup) => BM.MovedBy(x, y, scheduleId, rows, b, now);
    forall r: BranchRun, k: nat | k < |r.state.nexts|
      ensures rel(r.state.nexts[k], step(r, k).state.nexts[k])
    {
      DueStepAdvances(r, scheduleId, rows, b, busy, now, k);
    }
    StepsMoveOwn(BranchRun(st, None), n, step, rel);
  }

  /** Once the due loop has failed, the remaining NextBackups are passed over. */
  lemma DueRunFailureIsFinal(st: BackupState, scheduleId: Id, rows: seq<ScheduleRow>,
                             b: BranchRecord, busy: set<Id>, now: int, n: nat, m: nat)
    requires n <= m
    requires DueRun(st, scheduleId, rows, b, busy, now, n).failure.Some?
    ensures DueRun(st, scheduleId, rows, b, busy, now, m) == DueRun(st, scheduleId, rows, b, busy, now, n)
  {
    var step := (r: BranchRun, k: nat) => DueStep(r, scheduleId, rows, b, busy, now, k);
    StepsFailureIsFinal(BranchRun(st, None), step, n, m);
  }

  /** A schedule without rows ends the branch with UnboundLocalError after the
      (empty) ensure step, before any backup is taken. */
  lemma ProcessEmptyScheduleFails(st: BackupState, schedules: seq<Schedule>, rows: seq<ScheduleRow>,
                                  b: BranchRecord, busy: set<Id>, now: int)
    ensures var resolved := ResolveSchedule(schedules, b);
            resolved.Ok? && resolved.value.Some? && RowsOf(rows, resolved.value.value.id) == [] ==>
              Process(st, schedules, rows, b, busy, now) == BranchRun(st, Some(UnboundRow))
  {
    var resolved := ResolveSchedule(schedules, b);
    if resolved.Ok? && resolved.value.Some? && RowsOf(rows, resolved.value.value.id) == [] {
      var s := resolved.value.value;
      var sorted := SortBy(RowsOf(rows, s.id), RowIndexKey);
      assert |sorted| == 0;
      assert EnsureNexts(st.nexts, s.id, b.id, sorted, now) == Ok(st.nexts);
    }
  }

  /** After processing a branch without failure, every row of its resolved
      schedule has a NextBackup for the branch. */
  lemma ProcessCoversRows(st: BackupState, schedules: seq<Schedule>, rows: seq<ScheduleRow>, b: BranchRecord,
                          busy: set<Id>, now: int)
    ensures var resolved := ResolveSchedule(schedules, b);
            var r := Process(st, schedules, rows, b, busy, now);
            resolved.Ok? && resolved.value.Some? && r.failure.None? ==>
              forall x :: x in rows && x.scheduleId == resolved.value.value.id ==> HasNext(r.state.nexts, b.id, x.rowIndex)
  {
    var resolved := ResolveSchedule(schedules, b);
    var r := Process(st, schedules, rows, b, busy, now);
    if resolved.Ok? && resolved.value.Some? && r.failure.None? {
      var s := resolved.value.value;
      var sorted := SortBy(RowsOf(rows, s.id), RowIndexKey);
      var ensured := EnsureNexts(st.nexts, s.id, b.id, sorted, now);
      EnsureNextsCovers(st.nexts, s.id, b.id, sorted, now);
      var st1 := st.(nexts := ensured.value);
      DueRunAdvances(st1, s.id, rows, b, busy, now, |st1.nexts|);
      forall x | x in rows && x.scheduleId == s.id ensures HasNext(r.state.nexts, b.id, x.rowIndex) {
        assert x in multiset(RowsOf(rows, s.id));
        assert x in multiset(sorted);
        BM.HasNextKept(st1.nexts, r.state.nexts, s.id, rows, now, b.id, x.rowIndex);
      }
    }
  }

  /** A branch that is not online is not processed: inserting it anywhere in
      the branch table leaves the pass's outcome as it was. */
  lemma RunOnceSkipsOffline(st: BackupState, schedules: seq<Schedule>, rows: seq<ScheduleRow>,
                            before: seq<BranchRecord>, b: BranchRecord, after: seq<BranchRecord>, busy: set<Id>,
                            now: int)
    requires !b.isOnline
    ensures RunOnceState(st, schedules, rows, before + [b] + after, busy, now)
            == RunOnceState(st, schedules, rows, before + after, busy, now)
  {
    OnlineBranchesSkipOffline(before, b, after);
  }

  lemma OnlineBranchesSkipOffline(before: seq<BranchRecord>, b: BranchRecord, after: seq<BranchRecord>)
    requires !b.isOnline
    ensures OnlineBranches(before + [b] + after) == OnlineBranches(before + after)
  {
    var p := (x: BranchRecord) => IsOnline(x);
    FilterAppend(before + [b], after, p);
    FilterAppend(before, [b], p);
    FilterAppend(before, after, p);
    assert Filter([b], p) == [] by {
      assert [b][..0] == [];
    }
    assert Filter(before, p) + [] == Filter(before, p);
  }

  lemma ExecuteKeepsWellFormed(st: BackupState, b: BranchRecord, row: ScheduleRow, k: nat, now: int)
    requires k < |st.nexts|
    requires WellFormed(st)
    ensures WellFormed(Execute(st, b, row, k, now).state)
  {
    var recorded := BM.Recorded(st, b, row, now);
    assert WellFormed(recorded) by {
      forall i, j | 0 <= i < j < |recorded.entries| ensures recorded.entries[i].id != recorded.entries[j].id {
        if j == |st.entries| {
          assert st.entries[i] in st.entries;
        }
      }
    }
    var secs := IntervalSeconds(row.interval, row.unit);
    if secs.Ok? {
      PruneKeepsWellFormed(Moved(Logged(recorded, b, st.nextId, now), k, secs.value), b.id, row, now);
    }
  }

  lemma DueStepKeepsWellFormed(run: BranchRun, scheduleId: Id, rows: seq<ScheduleRow>, b: BranchRecord,
                                busy: set<Id>, now: int, k: nat)
    requires WellFormed(run.state)
    ensures WellFormed(DueStep(run, scheduleId, rows, b, busy, now, k).state)
  {
    var r := DueStep(run, scheduleId, rows, b, busy, now, k);
    if run.failure.None? && k < |run.state.nexts| {
      var nb := run.state.nexts[k];
      if nb.branchId == b.id && nb.nextAt <= now {
        var found := BM.FindRow(rows, scheduleId, nb.rowIndex);
        if found.Ok? && found.value.Some? && b.id !in busy {
          assert r == Execute(run.state, b, found.value.value, k, now);
          ExecuteKeepsWellFormed(run.state, b, found.value.value, k, now);
        } else {
          assert r.state == run.state;
        }
      } else {
        assert r == run;
      }
    } else {
      assert r == run;
    }
  }

  lemma DueRunKeepsWellFormed(st: BackupState, scheduleId: Id, rows: seq<ScheduleRow>,
                              b: BranchRecord, busy: set<Id>, now: int, n: nat)
    requires WellFormed(st)
    ensures WellFormed(DueRun(st, scheduleId, rows, b, busy, now, n).state)
  {
    var step := (r: BranchRun, k: nat) => DueStep(r, scheduleId, rows, b, busy, now, k);
    forall r: BranchRun, k: nat | WellFormed(r.state)
      ensures WellFormed(step(r, k).state)
    {
      DueStepKeepsWellFormed(r, scheduleId, rows, b, busy, now, k);
    }
    StepsKeep(BranchRun(st, None), n, step, WellFormed);
  }

  lemma ProcessKeepsWellFormed(st: BackupState, schedules: seq<Schedule>, rows: seq<ScheduleRow>, b: BranchRecord,
                               busy: set<Id>, now: int)
    requires WellFormed(st)
    ensures WellFormed(Process(st, schedules, rows, b, busy, now).state)
  {
    var resolved := ResolveSchedule(schedules, b);
    if resolved.Ok? && resolved.value.Some? {
      var s := resolved.value.value;
      var ensured := EnsureNexts(st.nexts, s.id, b.id, SortBy(RowsOf(rows, s.id), RowIndexKey), now);
      if ensured.Ok? {
        var st1 := st.(nexts := ensured.value);
        DueRunKeepsWellFormed(st1, s.id, rows, b, busy, now, |st1.nexts|);
      }
    }
  }

  /** A whole pass keeps backup ids distinct and below the next id. */
  lemma RunOnceKeepsWellFormed(st: BackupState, schedules: seq<Schedule>, rows: seq<ScheduleRow>,
                               branches: seq<BranchRecord>, busy: set<Id>, now: int)
    requires WellFormed(st)
    ensures WellFormed(RunOnceState(st, schedules, rows, branches, busy, now))
  {
    var step := (s: BackupState, x: BranchRecord) => Process(s, schedules, rows, x, busy, now).state;
    forall s: BackupState, x: BranchRecord | WellFormed(s) ensures WellFormed(step(s, x)) {
      ProcessKeepsWellFormed(s, schedules, rows, x, busy, now);
    }
    ForEachKeeps(st, OnlineBranches(branches), step, WellFormed);
  }

  // ---------------------------------------------------------------------
  // The monitor on the backup tables

  /** The due-loop body on the store, once the lock is taken. */
  method ExecuteBackup(store: BackupStore, b: BranchRecord, row: ScheduleRow, k: nat, now: int)
    returns (failure: Option<Failure>)
    requires k < |store.nexts|
    modifies store
    ensures BranchRun(store.State(), failure) == Execute(old(store.State()), b, row, k, now)
    ensures store.schedules == old(store.schedules) && store.rows == old(store.rows)
  {
    ghost var st0 := store.State();
    var id := store.nextId;
    store.entries := store.entries + [BackupEntry(id, b.id, row.rowIndex, now, None)];
    store.nextId := store.nextId + 1;
    store.logs := store.logs + [BackupLog(b.id, id, "taken", now)];
    ghost var logged := Logged(BM.Recorded(st0, b, row, now), b, id, now);
    assert store.State() == logged;
    var secs := IntervalSeconds(row.interval, row.unit);
    if secs.Err? {
      return Some(secs.failure);
    }
    var nb := store.nexts[k];
    store.nexts := store.nexts[k := nb.(nextAt := nb.nextAt + secs.value)];
    assert store.State() == Moved(logged, k, secs.value);
    PruneBackups(store, b.id, row, now);
    return None;
  }

  /** One NextBackup of the due loop on the store. */
  method DueOne(store: BackupStore, scheduleId: Id, b: BranchRecord, busy: set<Id>, now: int, k: nat)
    returns (failure: Option<Failure>)
    requires k < |store.nexts|
    modifies store
    ensures BranchRun(store.State(), failure)
            == DueStep(BranchRun(old(store.State()), None), scheduleId, old(store.rows), b, busy, now, k)
    ensures store.schedules == old(store.schedules) && store.rows == old(store.rows)
  {
    var nb := store.nexts[k];
    if nb.branchId == b.id && nb.nextAt <= now {
      var found := BM.FindRow(store.rows, scheduleId, nb.rowIndex);
      if found.Err? {
        return Some(found.failure);
      }
      if found.value.Some? && b.id !in busy {
        failure := ExecuteBackup(store, b, found.value.value, k, now);
        return;
      }
    }
    return None;
  }

  /** The due loop of `process_branch` over the store's NextBackups. */
  method RunDue(store: BackupStore, scheduleId: Id, b: BranchRecord, busy: set<Id>, now: int)
    returns (failure: Option<Failure>)
    modifies store
    ensures BranchRun(store.State(), failure)
            == DueRun(old(store.State()), scheduleId, old(store.rows), b, busy, now, |old(store.nexts)|)
    ensures store.schedules == old(store.schedules) && store.rows == old(store.rows)
  {
    var st0 := store.State();
    var i := 0;
    while i < |store.nexts|
      invariant |store.nexts| == |st0.nexts|
      invariant 0 <= i <= |store.nexts|
      invariant store.schedules == old(store.schedules) && store.rows == old(store.rows)
      invariant DueRun(st0, scheduleId, store.rows, b, busy, now, i) == BranchRun(store.State(), None)
    {
      failure := DueOne(store, scheduleId, b, busy, now, i);
      if failure.Some? {
        DueRunFailureIsFinal(st0, scheduleId, store.rows, b, busy, now, i + 1, |st0.nexts|);
        return;
      }
      i := i + 1;
    }
    return None;
  }

  /** `process_branch` on the store. */
  method ProcessBranch(store: BackupStore, b: BranchRecord, busy: set<Id>, now: int) returns (failure: Option<Failure>)
    modifies store
    ensures BranchRun(store.State(), failure) == Process(old(store.State()), old(store.schedules), old(store.rows), b, busy, now)
    ensures store.schedules == old(store.schedules) && store.rows == old(store.rows)
  {
    var resolved := ResolveSchedule(store.schedules, b);
    if resolved.Err? {
      return Some(resolved.failure);
    }
    if resolved.value.None? {
      return None;
    }
    var s := resolved.value.value;
    var sorted := SortBy(RowsOf(store.rows, s.id), RowIndexKey);
    failure := EnsureNextBackups(store, s.id, b.id, sorted, now);
    if failure.Some? {
      return;
    }
    if sorted == [] {
      return Some(UnboundRow);
    }
    failure := RunDue(store, s.id, b, busy, now);
  }

  /** The pass over one more online branch processes that branch last. */
  lemma RunOnceSnoc(st: BackupState, schedules: seq<Schedule>, rows: seq<ScheduleRow>, online: seq<BranchRecord>,
                    i: nat, busy: set<Id>, now: int)
    requires i < |online|
    ensures ForEach(st, online[..i + 1], (s: BackupState, x: BranchRecord) => Process(s, schedules, rows, x, busy, now).state)
            == Process(ForEach(st, online[..i], (s: BackupState, x: BranchRecord) => Process(s, schedules, rows, x, busy, now).state),
                       schedules, rows, online[i], busy, now).state
  {
    var step := (s: BackupState, x: BranchRecord) => Process(s, schedules, rows, x, busy, now).state;
    assert online[..i + 1] == online[..i] + [online[i]];
    ForEachSnoc(st, online[..i], online[i], step);
  }

  /** `run_once` over the branch table. */
  method RunOnce(store: BackupStore, branches: seq<BranchRecord>, busy: set<Id>, now: int)
    modifies store
    ensures store.State() == RunOnceState(old(store.State()), old(store.schedules), old(store.rows), branches, busy, now)
    ensures store.schedules == old(store.schedules) && store.rows == old(store.rows)
  {
    var schedules, rows := store.schedules, store.rows;
    var online := OnlineBranches(branches);
    var i := 0;
    while i < |online|
      invariant 0 <= i <= |online|
      invariant store.schedules == schedules && store.rows == rows
      invariant store.State()
                == ForEach(old(store.State()), online[..i],
                           (s: BackupState, x: BranchRecord) => Process(s, schedules, rows, x, busy, now).state)
    {
      RunOnceSnoc(old(store.State()), schedules, rows, online, i, busy, now);
      var _ := ProcessBranch(store, online[i], busy, now);
      i := i + 1;
    }
    assert online[..|online|] == online;
  }
}
