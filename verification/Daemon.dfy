/** The daemon's two housekeeping loops, recovery of orphans at startup and the timeout sweep, with the workers, the
    handlers and everybody else writing to the table between any two of their statements. */
module Daemon {
  import opened Jobs
  import opened Queue
  import opened Store

  // The in-flight statuses recovery looks for.
  const STALE := {Planning, Applying, Destroying}

  // What others do to the table before the i-th statement.
  type Meanwhile = (nat, Table) -> Table

  // ---------- recovery ----------

  // The table after the failure writes for ids; fates(i) is what becomes of the i-th.
  function Recovered(t: Table, ids: seq<JobId>, fates: nat -> Fate, others: Meanwhile): Table {
    if ids == [] then t
    else
      var n := |ids| - 1;
      var u := others(n, Recovered(t, ids[..n], fates, others));
      if !fates(n).Lost? then WithStatus(u, ids[n], Failed) else u
  }

  function IdSeq(rows: seq<Row>): (ids: seq<JobId>)
    ensures |ids| == |rows| && forall i :: 0 <= i < |rows| ==> ids[i] == rows[i].id
  {
    seq(|rows|, i requires 0 <= i < |rows| => rows[i].id)
  }

  // Others leave row j as it is, whatever else they do.
  ghost predicate Spares(others: Meanwhile, j: JobId) {
    forall i: nat, t: Table :: SameRow(t, others(i, t), j)
  }

  predicate SameRow(t: Table, u: Table, j: JobId) {
    (j in t <==> j in u) && (j in t ==> u[j] == t[j])
  }

  // Some write for j reached the table.
  ghost predicate Hit(ids: seq<JobId>, fates: nat -> Fate, j: JobId) {
    exists i: nat :: i < |ids| && ids[i] == j && !fates(i).Lost?
  }

  lemma HitExtends(ids: seq<JobId>, fates: nat -> Fate, j: JobId)
    requires ids != []
    ensures var n := |ids| - 1; Hit(ids, fates, j) <==> Hit(ids[..n], fates, j) || (ids[n] == j && !fates(n).Lost?)
  {
    var n := |ids| - 1;
    if Hit(ids[..n], fates, j) {
      var i: nat :| i < n && ids[..n][i] == j && !fates(i).Lost?;
      assert ids[i] == j;
    }
    if Hit(ids, fates, j) {
      var i: nat :| i < |ids| && ids[i] == j && !fates(i).Lost?;
      assert i < n ==> ids[..n][i] == j;
    }
  }

  // A row nobody else touches is FAILED after recovery iff recovery fetched it and its write reached the table, and is
  // otherwise as it was.
  lemma {:induction false} RecoveredRow(t: Table, ids: seq<JobId>, fates: nat -> Fate, others: Meanwhile, j: JobId)
    requires Spares(others, j) && j in t
    ensures var u := Recovered(t, ids, fates, others);
            j in u && u[j] == if Hit(ids, fates, j) then t[j].(status := Failed) else t[j]
    decreases |ids|
  {
    if ids != [] {
      var n := |ids| - 1;
      RecoveredRow(t, ids[..n], fates, others, j);
      HitExtends(ids, fates, j);
      assert SameRow(Recovered(t, ids[..n], fates, others), others(n, Recovered(t, ids[..n], fates, others)), j);
    }
  }

  predicate Down(t: Table, j: JobId) {
    j in t && (t[j].status.Failed? || t[j].status.Cancelled?)
  }

  // Others may discard or unlock the job, but do not bring it back, and never delete it.
  ghost predicate KeepsDown(others: Meanwhile, j: JobId) {
    && (forall i: nat, t: Table :: Down(t, j) ==> Down(others(i, t), j))
    && (forall i: nat, t: Table :: j in t ==> j in others(i, t))
  }

  // An orphan whose write reached the table is FAILED or CANCELLED when recovery is over, though discards and unlocks
  // of it may land in between.
  lemma {:induction false} RecoveredStaysDown(t: Table, ids: seq<JobId>, fates: nat -> Fate, others: Meanwhile,
                                              j: JobId)
    requires KeepsDown(others, j) && j in t
    ensures j in Recovered(t, ids, fates, others)
    ensures Hit(ids, fates, j) ==> Down(Recovered(t, ids, fates, others), j)
    decreases |ids|
  {
    if ids != [] {
      var n := |ids| - 1;
      var before := Recovered(t, ids[..n], fates, others);
      RecoveredStaysDown(t, ids[..n], fates, others, j);
      HitExtends(ids, fates, j);
      assert j in others(n, before) && (Down(before, j) ==> Down(others(n, before), j));
    }
  }

  lemma OrphansAreListed(t: Table, rows: seq<Row>, j: JobId)
    requires Listing(t, {Planning, Applying, Destroying}, rows) && j in t
    ensures j in IdSeq(rows) <==> t[j].status in {Planning, Applying, Destroying}
  {
    if t[j].status in {Planning, Applying, Destroying} {
      assert j in Ids(rows);
      var row :| row in rows && row.id == j;
      var i :| 0 <= i < |rows| && rows[i] == row;
      assert IdSeq(rows)[i] == j;
    }
    if j in IdSeq(rows) {
      var i :| 0 <= i < |rows| && IdSeq(rows)[i] == j;
      assert rows[i] in rows;
      assert j in Ids(rows);
    }
  }

  // When its writes succeed, recovery leaves every job that was in flight FAILED or CANCELLED, and it touches no other.
  lemma RecoveryFailsTheOrphans(t: Table, rows: seq<Row>, fates: nat -> Fate, others: Meanwhile, j: JobId)
    requires Listing(t, {Planning, Applying, Destroying}, rows) && j in t
    requires forall i: nat :: i < |rows| ==> !fates(i).Lost?
    ensures var orphan, u := t[j].status in {Planning, Applying, Destroying}, Recovered(t, IdSeq(rows), fates, others);
            && (orphan && KeepsDown(others, j) ==> j in u && (u[j].status.Failed? || u[j].status.Cancelled?))
            && (!orphan && Spares(others, j) ==> SameRow(t, u, j))
  {
    var ids := IdSeq(rows);
    OrphansAreListed(t, rows, j);
    if j in ids {
      var i: nat :| i < |ids| && ids[i] == j;
      assert Hit(ids, fates, j);
      if KeepsDown(others, j) { RecoveredStaysDown(t, ids, fates, others, j); }
    } else if Spares(others, j) {
      RecoveredRow(t, ids, fates, others, j);
    }
  }

  // ---------- the sweep ----------

  // The table after the ticks; succeeds(i) says whether the i-th sweep does.
  function SweptThrough(t: Table, ticks: seq<Time>, succeeds: nat -> bool, timeout: int, others: Meanwhile): Table {
    if ticks == [] then t
    else
      var n := |ticks| - 1;
      var u := others(n, SweptThrough(t, ticks[..n], succeeds, timeout, others));
      if succeeds(n) then Swept(u, ticks[n], timeout) else u
  }

  // Some successful sweep found the job queued for too long.
  ghost predicate CaughtBy(job: Job, ticks: seq<Time>, succeeds: nat -> bool, timeout: int) {
    exists i: nat :: i < |ticks| && succeeds(i) && TimedOut(job, ticks[i], timeout)
  }

  lemma CaughtExtends(job: Job, ticks: seq<Time>, succeeds: nat -> bool, timeout: int)
    requires ticks != []
    ensures var n := |ticks| - 1;
            CaughtBy(job, ticks, succeeds, timeout)
            <==> CaughtBy(job, ticks[..n], succeeds, timeout) || (succeeds(n) && TimedOut(job, ticks[n], timeout))
  {
    var n := |ticks| - 1;
    if CaughtBy(job, ticks[..n], succeeds, timeout) {
      var k: nat :| k < n && succeeds(k) && TimedOut(job, ticks[..n][k], timeout);
      assert ticks[k] == ticks[..n][k];
    }
    if CaughtBy(job, ticks, succeeds, timeout) {
      var k: nat :| k < |ticks| && succeeds(k) && TimedOut(job, ticks[k], timeout);
      assert k < n ==> ticks[..n][k] == ticks[k];
    }
  }

  // A row nobody else touches is FAILED after the ticks iff some successful sweep found it overdue, and is otherwise as
  // it was.
  lemma {:induction false} SweptRow(t: Table, ticks: seq<Time>, succeeds: nat -> bool, timeout: int,
                                    others: Meanwhile, j: JobId)
    requires Spares(others, j) && j in t
    ensures var u := SweptThrough(t, ticks, succeeds, timeout, others);
            j in u && u[j] == if CaughtBy(t[j], ticks, succeeds, timeout) then t[j].(status := Failed) else t[j]
    decreases |ticks|
  {
    if ticks != [] {
      var n := |ticks| - 1;
      var before := SweptThrough(t, ticks[..n], succeeds, timeout, others);
      SweptRow(t, ticks[..n], succeeds, timeout, others, j);
      CaughtExtends(t[j], ticks, succeeds, timeout);
      assert SameRow(before, others(n, before), j);
    }
  }

  // After a successful sweep nothing is overdue, whatever others have done before it.
  lemma LastSweepLeavesNoneOverdue(t: Table, ticks: seq<Time>, succeeds: nat -> bool, timeout: int, others: Meanwhile)
    requires ticks != [] && succeeds(|ticks| - 1)
    ensures NoneOverdue(SweptThrough(t, ticks, succeeds, timeout, others), ticks[|ticks| - 1], timeout)
  {
  }

  class OrchestratorDaemon {
    const store: JobStore
    const queueTimeout: int   // nanoseconds

    constructor (store: JobStore, queueTimeout: int)
      ensures this.store == store && this.queueTimeout == queueTimeout
    {
      this.store, this.queueTimeout := store, queueTimeout;
    }

    // What the sweep's SQL makes of the configured timeout, in microseconds.
    function Timeout(): int {
      SweepInterval(queueTimeout)
    }

    // Writes FAILED for every job found in flight, each once; a write that fails is logged and skipped.
    method RecoverJobs(fetched: bool, fates: nat -> Fate, others: Meanwhile) returns (ok: bool)
      modifies store
      ensures ok <==> fetched
      ensures !fetched ==> store.table == old(store.table)
      ensures fetched ==> exists rows ::
                && Listing(old(store.table), {Planning, Applying, Destroying}, rows)
                && store.table == Recovered(old(store.table), IdSeq(rows), fates, others)
    {
      if !fetched {
        return false;
      }
      var rows := store.FetchJobsByStatuses(STALE);
      ghost var before, ids := store.table, IdSeq(rows);
      var i := 0;
      while i < |rows|
        invariant 0 <= i <= |rows|
        invariant store.table == Recovered(before, ids[..i], fates, others)
      {
        assert ids[..i + 1][..i] == ids[..i];
        store.table := others(i, store.table);
        var _ := store.UpdateJobStatus(rows[i].id, Failed, fates(i));
        i := i + 1;
      }
      assert ids[..i] == ids;
      ok := true;
    }

    // The ticker loop: one sweep a tick; one that fails is logged, and the next tick tries again.
    method Sweep(ticks: seq<Time>, succeeds: nat -> bool, others: Meanwhile)
      modifies store
      ensures store.table == SweptThrough(old(store.table), ticks, succeeds, Timeout(), others)
    {
      var i := 0;
      while i < |ticks|
        invariant 0 <= i <= |ticks|
        invariant store.table == SweptThrough(old(store.table), ticks[..i], succeeds, Timeout(), others)
      {
        assert ticks[..i + 1][..i] == ticks[..i];
        store.table := others(i, store.table);
        if succeeds(i) {
          ghost var t := store.table;
          ghost var seconds;
          var affected;
          affected, seconds := store.FailTimedOutJobs(queueTimeout, ticks[i]);
          assert store.table == Swept(t, ticks[i], Timeout());
        }
        i := i + 1;
      }
      assert ticks[..i] == ticks;
    }

    // One life of the daemon. The cache directory comes first; the workers are started before recovery, so they are
    // among the others; recovery may fail without stopping the daemon.
    method Start(directoryMade: bool, fetched: bool, fates: nat -> Fate, early: Meanwhile,
                 ticks: seq<Time>, succeeds: nat -> bool, late: Meanwhile)
      returns (started: bool)
      modifies store
      ensures started <==> directoryMade
      ensures !started ==> store.table == old(store.table)
      ensures started && !fetched ==> store.table == SweptThrough(old(store.table), ticks, succeeds, Timeout(), late)
      ensures started && fetched ==> exists rows ::
                && Listing(old(store.table), {Planning, Applying, Destroying}, rows)
                && store.table
                   == SweptThrough(Recovered(old(store.table), IdSeq(rows), fates, early),
                                   ticks, succeeds, Timeout(), late)
    {
      if !directoryMade {
        return false;
      }
      var _ := RecoverJobs(fetched, fates, early);
      Sweep(ticks, succeeds, late);
      started := true;
    }
  }
}
