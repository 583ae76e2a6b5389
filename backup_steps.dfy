/** The two steps both backup monitors (src/api/backupmonitor.py and
    src/api/organization/project/backup.py) perform identically: making sure
    every row of a branch's schedule has a NextBackup, and pruning a branch's
    backups of one row down to the row's retention. */
module BackupSteps {
  import opened Common
  import opened BackupData

  // ---------------------------------------------------------------------
  // NextBackup rows

  predicate NextFor(nb: NextBackup, branchId: Id, rowIndex: int) {
    nb.branchId == branchId && nb.rowIndex == rowIndex
  }

  /** A NextBackup exists for (branch, row_index), whichever schedule
      created it. */
  predicate HasNext(nexts: seq<NextBackup>, branchId: Id, rowIndex: int) {
    exists nb :: nb in nexts && NextFor(nb, branchId, rowIndex)
  }

  /** The ensure loop over the schedule's rows (in the order given): a row
      without a NextBackup for the branch gets one due one interval from
      now. An interval with an unknown unit raises, and nothing of the loop
      is committed. */
  function EnsureNexts(nexts: seq<NextBackup>, scheduleId: Id, branchId: Id, rows: seq<ScheduleRow>,
                       now: int): (r: Result<seq<NextBackup>>)
    ensures r.Ok? ==> nexts <= r.value
    ensures r.Err? ==> r.failure.Raised? && r.failure.kind == "KeyError"
  {
    if rows == [] then Ok(nexts)
    else
      var prior := EnsureNexts(nexts, scheduleId, branchId, rows[..|rows| - 1], now);
      var row := rows[|rows| - 1];
      if prior.Err? || HasNext(prior.value, branchId, row.rowIndex) then prior
      else
        var secs := IntervalSeconds(row.interval, row.unit);
        if secs.Err? then Err(secs.failure)
        else Ok(prior.value + [NextBackup(branchId, scheduleId, row.rowIndex, now + secs.value)])
  }

  /** After the ensure loop every row has a NextBackup for the branch. */
  lemma {:induction false} EnsureNextsCovers(nexts: seq<NextBackup>, scheduleId: Id, branchId: Id,
                                             rows: seq<ScheduleRow>, now: int)
    ensures var r := EnsureNexts(nexts, scheduleId, branchId, rows, now);
            r.Ok? ==> forall i :: 0 <= i < |rows| ==> HasNext(r.value, branchId, rows[i].rowIndex)
  {
    if rows != [] {
      var init := rows[..|rows| - 1];
      var row := rows[|rows| - 1];
      EnsureNextsCovers(nexts, scheduleId, branchId, init, now);
      var prior := EnsureNexts(nexts, scheduleId, branchId, init, now);
      var r := EnsureNexts(nexts, scheduleId, branchId, rows, now);
      if r.Ok? && !HasNext(prior.value, branchId, row.rowIndex) {
        var added := r.value[|r.value| - 1];
        assert r.value == prior.value + [added];
        assert NextFor(added, branchId, row.rowIndex);
        forall i | 0 <= i < |rows| ensures HasNext(r.value, branchId, rows[i].rowIndex) {
          if i < |init| {
            assert init[i] == rows[i];
            var nb :| nb in prior.value && NextFor(nb, branchId, init[i].rowIndex);
            assert nb in r.value;
          }
        }
      } else if r.Ok? {
        assert forall i :: 0 <= i < |init| ==> init[i] == rows[i];
      }
    }
  }

  /** The existing NextBackups are kept as they were and every added one
      belongs to the branch and the schedule and is due one interval of its
      row from now. */
  lemma {:induction false} EnsureNextsAdds(nexts: seq<NextBackup>, scheduleId: Id, branchId: Id,
                                           rows: seq<ScheduleRow>, now: int)
    ensures var r := EnsureNexts(nexts, scheduleId, branchId, rows, now);
            r.Ok? ==>
              forall i :: |nexts| <= i < |r.value| ==>
                && r.value[i].branchId == branchId && r.value[i].scheduleId == scheduleId
                && exists j :: 0 <= j < |rows| && rows[j].rowIndex == r.value[i].rowIndex
                     && IntervalSeconds(rows[j].interval, rows[j].unit) == Ok(r.value[i].nextAt - now)
  {
    if rows != [] {
      var init := rows[..|rows| - 1];
      EnsureNextsAdds(nexts, scheduleId, branchId, init, now);
      assert forall j :: 0 <= j < |init| ==> init[j] == rows[j];
    }
  }

  /** The ensure loop succeeds when every row's unit is known. */
  lemma {:induction false} EnsureNextsSucceeds(nexts: seq<NextBackup>, scheduleId: Id, branchId: Id,
                                               rows: seq<ScheduleRow>, now: int)
    requires forall i :: 0 <= i < |rows| ==> ValidUnit(Lower(rows[i].unit))
    ensures EnsureNexts(nexts, scheduleId, branchId, rows, now).Ok?
  {
    if rows != [] {
      var init := rows[..|rows| - 1];
      assert forall j :: 0 <= j < |init| ==> init[j] == rows[j];
      EnsureNextsSucceeds(nexts, scheduleId, branchId, init, now);
    }
  }

  /** The ensure loop as it runs: each row looked up and the missing ones
      added, committed once at the end. */
  method EnsureNextBackups(store: BackupStore, scheduleId: Id, branchId: Id, rows: seq<ScheduleRow>, now: int)
    returns (r: Option<Failure>)
    modifies store
    ensures var e := EnsureNexts(old(store.nexts), scheduleId, branchId, rows, now);
            && (e.Ok? ==> r.None? && store.nexts == e.value)
            && (e.Err? ==> r == Some(e.failure) && store.nexts == old(store.nexts))
    ensures store.entries == old(store.entries) && store.logs == old(store.logs) && store.nextId == old(store.nextId)
    ensures store.schedules == old(store.schedules) && store.rows == old(store.rows)
  {
    var pending := store.nexts;
    var i := 0;
    while i < |rows|
      invariant 0 <= i <= |rows|
      invariant EnsureNexts(store.nexts, scheduleId, branchId, rows[..i], now) == Ok(pending)
    {
      var row := rows[i];
      assert rows[..i + 1][..i] == rows[..i];
      assert rows[..i + 1][i] == row;
      var found := FirstWhere(pending, (nb: NextBackup) => NextFor(nb, branchId, row.rowIndex));
      if found.None? {
        var secs := IntervalSeconds(row.interval, row.unit);
        if secs.Err? {
          EnsureNextsFailureIsFinal(store.nexts, scheduleId, branchId, rows, now, i + 1);
          return Some(secs.failure);
        }
        pending := pending + [NextBackup(branchId, scheduleId, row.rowIndex, now + secs.value)];
      }
      i := i + 1;
    }
    assert rows[..|rows|] == rows;
    store.nexts := pending;
    return None;
  }

  lemma {:induction false} EnsureNextsFailureIsFinal(nexts: seq<NextBackup>, scheduleId: Id, branchId: Id,
                                                     rows: seq<ScheduleRow>, now: int, k: nat)
    requires k <= |rows|
    requires EnsureNexts(nexts, scheduleId, branchId, rows[..k], now).Err?
    ensures EnsureNexts(nexts, scheduleId, branchId, rows, now) == EnsureNexts(nexts, scheduleId, branchId, rows[..k], now)
    decreases |rows| - k
  {
    if k == |rows| {
      assert rows[..k] == rows;
    } else {
      assert rows[..k + 1][..k] == rows[..k];
      EnsureNextsFailureIsFinal(nexts, scheduleId, branchId, rows, now, k + 1);
    }
  }

  // ---------------------------------------------------------------------
  // Pruning

  predicate EntryOf(e: BackupEntry, branchId: Id, rowIndex: int) {
    e.branchId == branchId && e.rowIndex == rowIndex
  }

  /** The branch's backups of one row, oldest first. */
  function RowBackups(entries: seq<BackupEntry>, branchId: Id, rowIndex: int): (r: seq<BackupEntry>)
    ensures SortedBy(r, CreatedAtKey)
    ensures multiset(r) == multiset(Filter(entries, (e: BackupEntry) => EntryOf(e, branchId, rowIndex)))
  {
    SortBy(Filter(entries, (e: BackupEntry) => EntryOf(e, branchId, rowIndex)), CreatedAtKey)
  }

  /** Backups with the same `created_at` keep the order they have in the
      table. */
  lemma RowBackupsTiesKeepTableOrder(entries: seq<BackupEntry>, branchId: Id, rowIndex: int, createdAt: int)
    ensures Filter(RowBackups(entries, branchId, rowIndex), HasKey(CreatedAtKey, createdAt)) ==
            Filter(Filter(entries, (e: BackupEntry) => EntryOf(e, branchId, rowIndex)), HasKey(CreatedAtKey, createdAt))
  {
    SortByStable(Filter(entries, (e: BackupEntry) => EntryOf(e, branchId, rowIndex)), CreatedAtKey, createdAt);
  }

  /** How many of `n` backups go: `len(backups[:n - retention])` once there
      are more than `retention`. */
  function PruneCount(n: nat, retention: int): (k: nat)
    ensures k <= n
    ensures n <= retention ==> k == 0
    ensures n > retention ==> n - k == Max(retention, 0)
  {
    if n <= retention then 0 else if n - retention > n then n else n - retention
  }

  predicate NotDeleted(e: BackupEntry, ids: set<nat>) {
    e.id !in ids
  }

  function DeleteLogs(doomed: seq<BackupEntry>, branchId: Id, now: int): (r: seq<BackupLog>)
    ensures |r| == |doomed|
    ensures forall i :: 0 <= i < |doomed| ==> r[i] == BackupLog(branchId, doomed[i].id, "delete", now)
  {
    if doomed == [] then []
    else DeleteLogs(doomed[..|doomed| - 1], branchId, now) + [BackupLog(branchId, doomed[|doomed| - 1].id, "delete", now)]
  }

  /** `prune_backups`: beyond the row's retention, the oldest backups of the
      (branch, row_index) are deleted, each with a "delete" log entry. */
  function Prune(st: BackupState, branchId: Id, row: ScheduleRow, now: int): (r: BackupState)
    ensures r.nexts == st.nexts && r.nextId == st.nextId
    ensures st.logs <= r.logs
  {
    var backups := RowBackups(st.entries, branchId, row.rowIndex);
    if |backups| <= row.retention then st
    else
      var doomed := backups[..PruneCount(|backups|, row.retention)];
      st.(entries := Filter(st.entries, (e: BackupEntry) => NotDeleted(e, EntryIds(doomed))),
          logs := st.logs + DeleteLogs(doomed, branchId, now))
  }

  lemma {:induction false} DistinctCount(xs: seq<BackupEntry>, x: BackupEntry)
    requires DistinctIds(xs)
    ensures multiset(xs)[x] <= 1
  {
    if xs != [] {
      var init := xs[..|xs| - 1];
      assert xs == init + [xs[|xs| - 1]];
      DistinctCount(init, x);
    }
  }

  lemma {:induction false} FilterSubMultiset<T>(xs: seq<T>, p: T -> bool)
    ensures multiset(Filter(xs, p)) <= multiset(xs)
  {
    if xs != [] {
      var init := xs[..|xs| - 1];
      assert xs == init + [xs[|xs| - 1]];
      FilterSubMultiset(init, p);
    }
  }

  lemma SameIdSameEntry(xs: seq<BackupEntry>, a: BackupEntry, b: BackupEntry)
    requires DistinctIds(xs) && a in xs && b in xs && a.id == b.id
    ensures a == b
  {
    var i :| 0 <= i < |xs| && xs[i] == a;
    var j :| 0 <= j < |xs| && xs[j] == b;
  }

  /** Pruning, with distinct backup ids: nothing happens while the row has
      at most `retention` backups; otherwise exactly the newest
      `max(retention, 0)` of them remain, every deleted one is at least as old
      as every kept one, each deletion is logged, and the backups of other
      rows and branches are kept. */
  lemma PruneMeaning(st: BackupState, branchId: Id, row: ScheduleRow, now: int)
    requires DistinctIds(st.entries)
    ensures var backups := RowBackups(st.entries, branchId, row.rowIndex);
            |backups| <= row.retention ==> Prune(st, branchId, row, now) == st
    ensures var backups := RowBackups(st.entries, branchId, row.rowIndex);
            var k := PruneCount(|backups|, row.retention);
            var after := Prune(st, branchId, row, now);
            |backups[k..]| == (if |backups| <= row.retention then |backups| else Max(row.retention, 0))
    ensures var backups := RowBackups(st.entries, branchId, row.rowIndex);
            var k := PruneCount(|backups|, row.retention);
            var after := Prune(st, branchId, row, now);
            forall e :: e in after.entries && EntryOf(e, branchId, row.rowIndex) <==> e in backups[k..]
    ensures var after := Prune(st, branchId, row, now);
            forall e :: e in st.entries && !EntryOf(e, branchId, row.rowIndex) ==> e in after.entries
    ensures var after := Prune(st, branchId, row, now);
            forall e :: e in after.entries ==> e in st.entries
    ensures var backups := RowBackups(st.entries, branchId, row.rowIndex);
            var k := PruneCount(|backups|, row.retention);
            forall i, j :: 0 <= i < k <= j < |backups| ==> backups[i].createdAt <= backups[j].createdAt
    ensures var backups := RowBackups(st.entries, branchId, row.rowIndex);
            var k := PruneCount(|backups|, row.retention);
            var after := Prune(st, branchId, row, now);
            after.logs == st.logs + DeleteLogs(backups[..k], branchId, now)
    ensures var after := Prune(st, branchId, row, now);
            after.nexts == st.nexts && after.nextId == st.nextId
  {
    PruneEntries(st, branchId, row, now);
    PruneRowMembers(st, branchId, row, now);
  }

  /** The row's backups after pruning are exactly the newest ones. */
  lemma PruneRowMembers(st: BackupState, branchId: Id, row: ScheduleRow, now: int)
    requires DistinctIds(st.entries)
    ensures var backups := RowBackups(st.entries, branchId, row.rowIndex);
            var k := PruneCount(|backups|, row.retention);
            var after := Prune(st, branchId, row, now);
            forall e :: e in after.entries && EntryOf(e, branchId, row.rowIndex) <==> e in backups[k..]
  {
    PruneSurvivorsAreNewest(st, branchId, row, now);
    PruneNewestSurvive(st, branchId, row, now);
  }

  lemma PruneSurvivorsAreNewest(st: BackupState, branchId: Id, row: ScheduleRow, now: int)
    requires DistinctIds(st.entries)
    ensures var backups := RowBackups(st.entries, branchId, row.rowIndex);
            var k := PruneCount(|backups|, row.retention);
            var after := Prune(st, branchId, row, now);
            forall e :: e in after.entries && EntryOf(e, branchId, row.rowIndex) ==> e in backups[k..]
  {
    var after := Prune(st, branchId, row, now);
    PruneEntries(st, branchId, row, now);
    forall e | e in after.entries && EntryOf(e, branchId, row.rowIndex)
      ensures var backups := RowBackups(st.entries, branchId, row.rowIndex);
              e in backups[PruneCount(|backups|, row.retention)..]
    {
      SurvivorIsKept(st, branchId, row, e);
    }
  }

  lemma PruneNewestSurvive(st: BackupState, branchId: Id, row: ScheduleRow, now: int)
    requires DistinctIds(st.entries)
    ensures var backups := RowBackups(st.entries, branchId, row.rowIndex);
            var k := PruneCount(|backups|, row.retention);
            var after := Prune(st, branchId, row, now);
            forall e :: e in backups[k..] ==> e in after.entries && EntryOf(e, branchId, row.rowIndex)
  {
    var backups := RowBackups(st.entries, branchId, row.rowIndex);
    var k := PruneCount(|backups|, row.retention);
    PruneEntries(st, branchId, row, now);
    BackupsAreEntries(st.entries, branchId, row.rowIndex);
    forall e | e in backups[k..] ensures e in Prune(st, branchId, row, now).entries && EntryOf(e, branchId, row.rowIndex) {
      KeptSurvives(st, branchId, row, e);
    }
  }

  /** The entries pruning leaves: those whose id is not among the doomed. */
  lemma PruneEntries(st: BackupState, branchId: Id, row: ScheduleRow, now: int)
    requires DistinctIds(st.entries)
    ensures var backups := RowBackups(st.entries, branchId, row.rowIndex);
            var doomed := backups[..PruneCount(|backups|, row.retention)];
            var after := Prune(st, branchId, row, now);
            && (forall e :: e in after.entries <==> e in st.entries && e.id !in EntryIds(doomed))
            && (forall e :: e in st.entries && !EntryOf(e, branchId, row.rowIndex) ==> e in after.entries)
  {
    var backups := RowBackups(st.entries, branchId, row.rowIndex);
    var doomed := backups[..PruneCount(|backups|, row.retention)];
    var after := Prune(st, branchId, row, now);
    if |backups| <= row.retention {
      assert doomed == [];
    } else {
      FilterMembershipAll(st.entries, (e: BackupEntry) => NotDeleted(e, EntryIds(doomed)));
    }
    BackupsAreEntries(st.entries, branchId, row.rowIndex);
    forall e | e in st.entries && !EntryOf(e, branchId, row.rowIndex) ensures e.id !in EntryIds(doomed) {
      if e.id in EntryIds(doomed) {
        var d :| d in doomed && d.id == e.id;
        assert d in backups;
        SameIdSameEntry(st.entries, d, e);
      }
    }
  }

  lemma BackupsAreEntries(entries: seq<BackupEntry>, branchId: Id, rowIndex: int)
    ensures forall e :: e in RowBackups(entries, branchId, rowIndex) <==> e in entries && EntryOf(e, branchId, rowIndex)
  {
    var p := (e: BackupEntry) => EntryOf(e, branchId, rowIndex);
    var backups := RowBackups(entries, branchId, rowIndex);
    FilterMembershipAll(entries, p);
    forall e ensures e in backups <==> e in Filter(entries, p) {
      assert e in backups <==> e in multiset(backups);
    }
  }

  lemma SurvivorIsKept(st: BackupState, branchId: Id, row: ScheduleRow, e: BackupEntry)
    requires DistinctIds(st.entries)
    requires var backups := RowBackups(st.entries, branchId, row.rowIndex);
             var doomed := backups[..PruneCount(|backups|, row.retention)];
             e in st.entries && e.id !in EntryIds(doomed) && EntryOf(e, branchId, row.rowIndex)
    ensures var backups := RowBackups(st.entries, branchId, row.rowIndex);
            e in backups[PruneCount(|backups|, row.retention)..]
  {
    var backups := RowBackups(st.entries, branchId, row.rowIndex);
    var k := PruneCount(|backups|, row.retention);
    BackupsAreEntries(st.entries, branchId, row.rowIndex);
    assert backups == backups[..k] + backups[k..];
    assert e in backups;
  }

  lemma KeptSurvives(st: BackupState, branchId: Id, row: ScheduleRow, e: BackupEntry)
    requires DistinctIds(st.entries)
    requires var backups := RowBackups(st.entries, branchId, row.rowIndex);
             e in backups[PruneCount(|backups|, row.retention)..]
    ensures var backups := RowBackups(st.entries, branchId, row.rowIndex);
            e.id !in EntryIds(backups[..PruneCount(|backups|, row.retention)]) && e in st.entries
    ensures EntryOf(e, branchId, row.rowIndex)
  {
    var p := (x: BackupEntry) => EntryOf(x, branchId, row.rowIndex);
    var backups := RowBackups(st.entries, branchId, row.rowIndex);
    var k := PruneCount(|backups|, row.retention);
    var doomed := backups[..k];
    var kept := backups[k..];
    BackupsAreEntries(st.entries, branchId, row.rowIndex);
    assert backups == doomed + kept;
    assert e in backups;
    if e.id in EntryIds(doomed) {
      var d :| d in doomed && d.id == e.id;
      assert d in backups;
      SameIdSameEntry(st.entries, d, e);
      assert multiset(backups)[e] >= 2 by {
        assert multiset(backups) == multiset(doomed) + multiset(kept);
        assert e in multiset(doomed) && e in multiset(kept);
      }
      DistinctCount(st.entries, e);
      FilterSubMultiset(st.entries, p);
    }
  }

  /** Pruning keeps the backup ids distinct and below the next id. */
  lemma PruneKeepsWellFormed(st: BackupState, branchId: Id, row: ScheduleRow, now: int)
    requires WellFormed(st)
    ensures WellFormed(Prune(st, branchId, row, now))
  {
    var backups := RowBackups(st.entries, branchId, row.rowIndex);
    if |backups| > row.retention {
      var doomed := backups[..PruneCount(|backups|, row.retention)];
      FilterKeepsDistinct(st.entries, (e: BackupEntry) => NotDeleted(e, EntryIds(doomed)));
    }
  }

  lemma {:induction false} FilterKeepsDistinct(xs: seq<BackupEntry>, p: BackupEntry -> bool)
    requires DistinctIds(xs)
    ensures DistinctIds(Filter(xs, p))
  {
    if xs != [] {
      var init := xs[..|xs| - 1];
      var last := xs[|xs| - 1];
      assert DistinctIds(init) by {
        forall i, j | 0 <= i < j < |init| ensures init[i].id != init[j].id {
          assert init[i] == xs[i] && init[j] == xs[j];
        }
      }
      FilterKeepsDistinct(init, p);
      var f := Filter(init, p);
      if p(last) {
        forall i | 0 <= i < |f| ensures f[i].id != last.id {
          assert f[i] in init;
          var k :| 0 <= k < |init| && init[k] == f[i];
          assert xs[k] == f[i];
        }
        assert Filter(xs, p) == f + [last];
      } else {
        assert Filter(xs, p) == f + [];
        assert f + [] == f;
      }
    }
  }

  /** The prune loop as it runs: each doomed backup logged and deleted. */
  method PruneBackups(store: BackupStore, branchId: Id, row: ScheduleRow, now: int)
    modifies store
    ensures store.State() == Prune(old(store.State()), branchId, row, now)
    ensures store.schedules == old(store.schedules) && store.rows == old(store.rows)
  {
    var backups := RowBackups(store.entries, branchId, row.rowIndex);
    if |backups| <= row.retention {
      return;
    }
    var doomed := backups[..PruneCount(|backups|, row.retention)];
    var entries, logs := DeleteBackups(store.entries, store.logs, doomed, branchId, now);
    store.entries := entries;
    store.logs := logs;
  }

  /** Each doomed backup logged and deleted, one after the other. */
  method DeleteBackups(entries0: seq<BackupEntry>, logs0: seq<BackupLog>, doomed: seq<BackupEntry>, branchId: Id,
                       now: int)
    returns (entries: seq<BackupEntry>, logs: seq<BackupLog>)
    ensures entries == Filter(entries0, (e: BackupEntry) => NotDeleted(e, EntryIds(doomed)))
    ensures logs == logs0 + DeleteLogs(doomed, branchId, now)
  {
    entries, logs := entries0, logs0;
    assert EntryIds(doomed[..0]) == {};
    FilterAll(entries0, (e: BackupEntry) => NotDeleted(e, EntryIds(doomed[..0])));
    var i := 0;
    while i < |doomed|
      invariant 0 <= i <= |doomed|
      invariant entries == Filter(entries0, (e: BackupEntry) => NotDeleted(e, EntryIds(doomed[..i])))
      invariant logs == logs0 + DeleteLogs(doomed[..i], branchId, now)
    {
      var b := doomed[i];
      DeleteStep(entries0, doomed, i, branchId, now);
      ghost var done := DeleteLogs(doomed[..i], branchId, now);
      var entry := BackupLog(branchId, b.id, "delete", now);
      assert logs0 + done + [entry] == logs0 + (done + [entry]);
      logs := logs + [entry];
      entries := Filter(entries, (e: BackupEntry) => NotDeleted(e, {b.id}));
      i := i + 1;
    }
    assert doomed[..|doomed|] == doomed;
  }

  lemma DeleteStep(entries0: seq<BackupEntry>, doomed: seq<BackupEntry>, i: nat, branchId: Id, now: int)
    requires i < |doomed|
    ensures Filter(Filter(entries0, (e: BackupEntry) => NotDeleted(e, EntryIds(doomed[..i]))),
                   (e: BackupEntry) => NotDeleted(e, {doomed[i].id}))
            == Filter(entries0, (e: BackupEntry) => NotDeleted(e, EntryIds(doomed[..i + 1])))
    ensures DeleteLogs(doomed[..i + 1], branchId, now)
            == DeleteLogs(doomed[..i], branchId, now) + [BackupLog(branchId, doomed[i].id, "delete", now)]
  {
    assert doomed[..i + 1][..i] == doomed[..i];
    assert doomed[..i + 1] == doomed[..i] + [doomed[i]];
    DeleteOneMore(entries0, EntryIds(doomed[..i]), doomed[i]);
    assert EntryIds(doomed[..i + 1]) == EntryIds(doomed[..i]) + {doomed[i].id};
  }

  /** Deleting one more backup after some others is deleting them all. */
  lemma DeleteOneMore(entries: seq<BackupEntry>, ids: set<nat>, b: BackupEntry)
    ensures Filter(Filter(entries, (e: BackupEntry) => NotDeleted(e, ids)), (e: BackupEntry) => NotDeleted(e, {b.id}))
            == Filter(entries, (e: BackupEntry) => NotDeleted(e, ids + {b.id}))
  {
    var p := (e: BackupEntry) => NotDeleted(e, ids);
    var q := (e: BackupEntry) => NotDeleted(e, {b.id});
    var both := (e: BackupEntry) => NotDeleted(e, ids + {b.id});
    var first := Filter(entries, p);
    FilterMembershipAll(entries, p);
    FilterSame(first, q, both);
    FilterFilter(entries, p, both);
  }

  /** Two conditions that agree on every element filter alike. */
  lemma {:induction false} FilterSame<T>(xs: seq<T>, p: T -> bool, q: T -> bool)
    requires forall x :: x in xs ==> p(x) == q(x)
    ensures Filter(xs, p) == Filter(xs, q)
  {
    if xs != [] {
      FilterSame(xs[..|xs| - 1], p, q);
    }
  }

  // ---------------------------------------------------------------------
  // The pass over the branches

  /** Each of `branches` in turn through `step`, which stands for processing
      one branch with its failures caught and logged. */
  function ForEach(st: BackupState, branches: seq<BranchRecord>, step: (BackupState, BranchRecord) -> BackupState)
    : BackupState
  {
    if branches == [] then st
    else step(ForEach(st, branches[..|branches| - 1], step), branches[|branches| - 1])
  }

  lemma ForEachSnoc(st: BackupState, branches: seq<BranchRecord>, b: BranchRecord,
                    step: (BackupState, BranchRecord) -> BackupState)
    ensures ForEach(st, branches + [b], step) == step(ForEach(st, branches, step), b)
  {
    assert (branches + [b])[..|branches|] == branches;
  }

  /** A branch whose step changes nothing drops out of the pass: the others
      are processed exactly as if it were absent. */
  lemma {:induction false} ForEachSkips(st: BackupState, before: seq<BranchRecord>, b: BranchRecord,
                                        after: seq<BranchRecord>, step: (BackupState, BranchRecord) -> BackupState)
    requires forall s :: step(s, b) == s
    ensures ForEach(st, before + [b] + after, step) == ForEach(st, before + after, step)
  {
    if after == [] {
      assert before + [b] + after == before + [b];
      assert before + after == before;
      ForEachSnoc(st, before, b, step);
    } else {
      var init := after[..|after| - 1];
      var last := after[|after| - 1];
      ForEachSkips(st, before, b, init, step);
      assert before + [b] + after == (before + [b] + init) + [last];
      assert before + after == (before + init) + [last];
      ForEachSnoc(st, before + [b] + init, last, step);
      ForEachSnoc(st, before + init, last, step);
    }
  }

  /** A condition every step keeps holds after the whole pass. */
  lemma {:induction false} ForEachKeeps(st: BackupState, branches: seq<BranchRecord>,
                                        step: (BackupState, BranchRecord) -> BackupState, inv: BackupState -> bool)
    requires inv(st)
    requires forall s, x :: inv(s) ==> inv(step(s, x))
    ensures inv(ForEach(st, branches, step))
  {
    if branches != [] {
      ForEachKeeps(st, branches[..|branches| - 1], step, inv);
    }
  }

  // ---------------------------------------------------------------------
  // The due loop over a branch's NextBackups

  /** The backup tables after (part of) one branch's processing, and the
      exception that ended it, if any. */
  datatype BranchRun = BranchRun(state: BackupState, failure: Option<Failure>)

  /** The due loop over the first `n` NextBackups, by position, `step`
      being the work done on the NextBackup at index k. */
  function Steps(run: BranchRun, n: nat, step: (BranchRun, nat) -> BranchRun): BranchRun {
    if n == 0 then run else step(Steps(run, n - 1, step), n - 1)
  }

  /** When a failed run is passed through unchanged, the loop ends at its
      first failure. */
  lemma {:induction false} StepsFailureIsFinal(run: BranchRun, step: (BranchRun, nat) -> BranchRun, n: nat, m: nat)
    requires n <= m
    requires forall r: BranchRun, k: nat :: r.failure.Some? ==> step(r, k) == r
    requires Steps(run, n, step).failure.Some?
    ensures Steps(run, m, step) == Steps(run, n, step)
    decreases m - n
  {
    if m > n {
      StepsFailureIsFinal(run, step, n, m - 1);
    }
  }

  /** A condition on the tables every step keeps holds after the loop. */
  lemma {:induction false} StepsKeep(run: BranchRun, n: nat, step: (BranchRun, nat) -> BranchRun,
                                     inv: BackupState -> bool)
    requires inv(run.state)
    requires forall r: BranchRun, k: nat :: inv(r.state) ==> inv(step(r, k).state)
    ensures inv(Steps(run, n, step).state)
  {
    if n > 0 {
      StepsKeep(run, n - 1, step, inv);
    }
  }

  /** When the step at index k changes no NextBackup but the k-th, and that
      one as `rel` allows, the loop over the first `n` leaves the rest as
      they were and moves each of the first `n` as `rel` allows. */
  lemma {:induction false} StepsMoveOwn(run: BranchRun, n: nat, step: (BranchRun, nat) -> BranchRun,
                                        rel: (NextBackup, NextBackup) -> bool)
    requires forall r: BranchRun, k: nat :: |step(r, k).state.nexts| == |r.state.nexts|
    requires forall r: BranchRun, k: nat, i :: 0 <= i < |r.state.nexts| && i != k ==> step(r, k).state.nexts[i] == r.state.nexts[i]
    requires forall r: BranchRun, k: nat :: k < |r.state.nexts| ==> rel(r.state.nexts[k], step(r, k).state.nexts[k])
    ensures var r := Steps(run, n, step);
            && |r.state.nexts| == |run.state.nexts|
            && (forall i :: n <= i < |run.state.nexts| ==> r.state.nexts[i] == run.state.nexts[i])
            && (forall i :: 0 <= i < n && i < |run.state.nexts| ==> rel(run.state.nexts[i], r.state.nexts[i]))
  {
    if n > 0 {
      StepsMoveOwn(run, n - 1, step, rel);
      var prior := Steps(run, n - 1, step);
      assert |step(prior, n - 1).state.nexts| == |prior.state.nexts|;
    }
  }
}
