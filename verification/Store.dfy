/** The jobs table as the Store's methods update it, one SQL statement or transaction at a time. */
module Store {
  import opened Jobs
  import opened Queue

  // What became of a statement: done; lost before it took effect; or done although its reply was lost.
  datatype Fate = Done | Lost | Unsure

  datatype Row = Row(id: JobId, job: Job)
  datatype Error = NoRows | Broken | LockMismatch
  datatype Outcome<+T> = Ok(value: T) | Err(error: Error)

  function Locking(t: Table, p: ProjectId): set<JobId> {
    set j | j in t && t[j].project == p && LocksProject(t[j].status)
  }

  // A status locks its project iff it keeps it active without waiting in the queue or destroying.
  lemma LocksIff(st: Status)
    ensures LocksProject(st) <==> st in {PendingPlan, Planning, Planned, Approved, Applying}
    ensures LocksProject(st) <==> !Terminal(st) && st != Queued && st != Destroying
  {
  }

  predicate Copies(t: Table, rows: seq<Row>) {
    forall i :: 0 <= i < |rows| ==> rows[i].id in t && rows[i].job == t[rows[i].id]
  }

  predicate OldestFirst(rows: seq<Row>) {
    forall i, k :: 0 <= i < k < |rows| ==> rows[i].id != rows[k].id && rows[i].job.createdAt <= rows[k].job.createdAt
  }

  function Ids(rows: seq<Row>): set<JobId> {
    set r | r in rows :: r.id
  }

  // Exactly the rows with one of the given statuses, each once, oldest first.
  ghost predicate Listing(t: Table, statuses: set<Status>, rows: seq<Row>) {
    Copies(t, rows) && OldestFirst(rows) && Ids(rows) == JobsWith(t, statuses)
  }

  // A listing in progress: the rows still to come are none of those listed, and no older.
  ghost predicate Listed(t: Table, statuses: set<Status>, rows: seq<Row>, rest: set<JobId>) {
    && Copies(t, rows) && OldestFirst(rows)
    && rest <= t.Keys && Ids(rows) + rest == JobsWith(t, statuses) && Ids(rows) !! rest
    && forall r, j :: r in rows && j in rest ==> r.job.createdAt <= t[j].createdAt
  }

  lemma ListOneMore(t: Table, statuses: set<Status>, rows: seq<Row>, rest: set<JobId>, j: JobId)
    requires Listed(t, statuses, rows, rest) && j in rest && NoOlder(t, j, rest)
    ensures Listed(t, statuses, rows + [Row(j, t[j])], rest - {j})
  {
    var more := rows + [Row(j, t[j])];
    assert forall r :: r in more ==> r in rows || r == Row(j, t[j]);
    forall id | id in Ids(rows) + {j} ensures id in Ids(more) {
      if id != j {
        var r :| r in rows && r.id == id;
        assert r in more;
      } else {
        assert more[|rows|] in more;
      }
    }
    assert Ids(more) == Ids(rows) + {j};
    forall i, k | 0 <= i < k < |more|
      ensures more[i].id != more[k].id && more[i].job.createdAt <= more[k].job.createdAt
    {
      assert more[i] in rows;
      if k == |rows| { assert more[i].id in Ids(rows); }
    }
  }

  class JobStore {
    var table: Table
    const projects: set<ProjectId>   // the rows of the projects table

    constructor (projects: set<ProjectId>)
      ensures table == map[] && this.projects == projects
    {
      table := map[];
      this.projects := projects;
    }

    method UpdateJobStatus(id: JobId, status: Status, fate: Fate) returns (ok: bool)
      modifies this
      ensures table.Keys == old(table).Keys
      ensures forall j :: j in table ==>
                table[j] == if j == id && !fate.Lost? then old(table)[j].(status := status) else old(table)[j]
      ensures table == if fate.Lost? then old(table) else WithStatus(old(table), id, status)
      ensures ok <==> fate.Done?
    {
      if !fate.Lost? && id in table {
        table := table[id := table[id].(status := status)];
      }
      ok := fate.Done?;
    }

    method UpdateJobPlanResult(id: JobId, path: Object, summary: string, fate: Fate) returns (ok: bool)
      modifies this
      ensures table.Keys == old(table).Keys
      ensures forall j :: j in table ==>
                table[j] == if j == id && !fate.Lost?
                            then old(table)[j].(planPath := Some(path), planSummary := Some(summary)) else old(table)[j]
      ensures table == if fate.Lost? then old(table) else WithPlanResult(old(table), id, path, summary)
      ensures ok <==> fate.Done?
    {
      if !fate.Lost? && id in table {
        table := table[id := table[id].(planPath := Some(path), planSummary := Some(summary))];
      }
      ok := fate.Done?;
    }

    method UpdateJobSummary(id: JobId, summary: string, fate: Fate) returns (ok: bool)
      modifies this
      ensures table.Keys == old(table).Keys
      ensures forall j :: j in table ==>
                table[j] == if j == id && !fate.Lost?
                            then old(table)[j].(planSummary := Some(summary)) else old(table)[j]
      ensures table == if fate.Lost? then old(table) else WithSummary(old(table), id, summary)
      ensures ok <==> fate.Done?
    {
      if !fate.Lost? && id in table {
        table := table[id := table[id].(planSummary := Some(summary))];
      }
      ok := fate.Done?;
    }

    method GetJob(id: JobId) returns (r: Outcome<Job>)
      ensures r == if id in table then Ok(table[id]) else Err(NoRows)
    {
      r := if id in table then Ok(table[id]) else Err(NoRows);
    }

    // The row refers to its project, so an unknown project inserts nothing. The database picks the id.
    method CreateJob(project: ProjectId, status: Status, op: Operation, hooks: Hooks, id: JobId, now: Time, fate: Fate)
      returns (r: Outcome<Row>)
      requires id !in table
      modifies this
      ensures project !in projects || fate.Lost? ==> table == old(table) && r == Err(Broken)
      ensures project in projects && !fate.Lost? ==>
                table == old(table)[id := Job(project, op, hooks, status, now, None, None)]
      ensures r.Ok? <==> project in projects && fate.Done?
      ensures r.Ok? ==> r.value == Row(id, table[id])
    {
      if project !in projects || fate.Lost? {
        return Err(Broken);
      }
      table := table[id := NewJob(project, status, op, hooks, now)];
      r := if fate.Done? then Ok(Row(id, table[id])) else Err(Broken);
    }

    // The oldest unlocked row with one of the statuses, j, moved to the in-flight status of its operation.
    method ClaimNextJob(statuses: set<Status>, locked: set<JobId>, fate: Fate)
      returns (r: Outcome<Row>, ghost j: JobId)
      modifies this
      ensures fate.Lost? ==> r == Err(Broken) && table == old(table)
      ensures r == Err(NoRows) ==> table == old(table)
      ensures r == Err(NoRows) <==>
                !fate.Lost? && forall j :: j in old(table) && old(table)[j].status in statuses ==> j in locked
      ensures r != Err(NoRows) && !fate.Lost? ==>
                && j in old(table) && old(table)[j].status in statuses && j !in locked
                && (forall k :: k in old(table) && old(table)[k].status in statuses && k !in locked ==>
                      old(table)[j].createdAt <= old(table)[k].createdAt)
                && table == old(table)[j := old(table)[j].(status := match old(table)[j].operation
                                                                     case Plan => Planning
                                                                     case Apply => Applying
                                                                     case Destroy => Destroying
                                                                     case Unknown(_) => old(table)[j].status)]
                && (fate.Done? ==> r == Ok(Row(j, table[j])))
      ensures r.Ok? ==> fate.Done?
    {
      if fate.Lost? {
        return Err(Broken), 0;
      }
      var free := JobsWith(table, statuses) - locked;
      assert forall k :: k in table && table[k].status in statuses && k !in locked ==> k in free;
      if free == {} {
        return Err(NoRows), 0;
      }
      var _ := FirstExists(table, free);
      var oldest :| oldest in free && NoOlder(table, oldest, free);
      j := oldest;
      forall k | k in table && table[k].status in statuses && k !in locked
        ensures table[j].createdAt <= table[k].createdAt
      {
        assert NoOlder(table, j, free) && k in free;
      }
      table := table[oldest := table[oldest].(status := ClaimedStatus(table[oldest].operation, table[oldest].status))];
      r := if fate.Done? then Ok(Row(oldest, table[oldest])) else Err(Broken);
    }

    // The first unlocked QUEUED row of the project by creation time and id, j, becomes PENDING_PLAN.
    method PromoteNextJob(project: ProjectId, locked: set<JobId>, fate: Fate)
      returns (r: Outcome<Row>, ghost j: JobId)
      modifies this
      ensures fate.Lost? ==> r == Err(Broken) && table == old(table)
      ensures r == Err(NoRows) ==> table == old(table)
      ensures r == Err(NoRows) <==>
                && !fate.Lost?
                && forall j :: j in old(table) && old(table)[j].project == project && old(table)[j].status == Queued ==>
                     j in locked
      ensures r != Err(NoRows) && !fate.Lost? ==>
                && j in old(table) && old(table)[j].project == project && old(table)[j].status == Queued && j !in locked
                && (forall k :: k in old(table) && old(table)[k].project == project && old(table)[k].status == Queued
                                && k !in locked ==>
                      || old(table)[j].createdAt < old(table)[k].createdAt
                      || (old(table)[j].createdAt == old(table)[k].createdAt && j <= k))
                && table == old(table)[j := old(table)[j].(status := PendingPlan)]
                && (fate.Done? ==> r == Ok(Row(j, table[j])))
      ensures r.Ok? ==> fate.Done?
    {
      if fate.Lost? {
        return Err(Broken), 0;
      }
      var free := QueuedIn(table, project) - locked;
      assert forall k :: k in table && table[k].project == project && table[k].status == Queued && k !in locked ==>
          k in free;
      if free == {} {
        return Err(NoRows), 0;
      }
      var _ := FirstExists(table, free);
      var first :| first in free && IsFirst(table, first, free);
      j := first;
      forall k | k in table && table[k].project == project && table[k].status == Queued && k !in locked
        ensures table[j].createdAt < table[k].createdAt || (table[j].createdAt == table[k].createdAt && j <= k)
      {
        assert IsFirst(table, j, free) && k in free;
      }
      table := table[first := table[first].(status := PendingPlan)];
      r := if fate.Done? then Ok(Row(first, table[first])) else Err(Broken);
    }

    // Fails every job queued for longer than the timeout, cut down to whole seconds; the count is the number of jobs
    // that left the queue.
    method FailTimedOutJobs(timeoutNanos: int, now: Time) returns (affected: nat, ghost seconds: int)
      modifies this
      ensures if timeoutNanos >= 0
              then seconds * 1_000_000_000 <= timeoutNanos < (seconds + 1) * 1_000_000_000
              else (seconds - 1) * 1_000_000_000 < timeoutNanos <= seconds * 1_000_000_000
      ensures table.Keys == old(table).Keys
      ensures forall j :: j in table ==>
                table[j] == if old(table)[j].status == Queued && old(table)[j].createdAt + seconds * 1_000_000 < now
                            then old(table)[j].(status := Failed) else old(table)[j]
      ensures affected == |set j | j in old(table) && old(table)[j].status == Queued && table[j].status == Failed|
      ensures table == Swept(old(table), now, SweepInterval(timeoutNanos))
    {
      var timeout := SweepInterval(timeoutNanos);
      seconds := timeout / 1_000_000;
      ghost var before := table;
      affected := |Expired(table, now, timeout)|;
      table := Swept(table, now, timeout);
      assert Expired(before, now, timeout)
          == set j | j in old(table) && old(table)[j].status == Queued && table[j].status == Failed;
    }

    method FetchJobsByStatuses(statuses: set<Status>) returns (rows: seq<Row>)
      ensures Listing(table, statuses, rows)
      ensures forall j :: j in Ids(rows) <==> j in table && table[j].status in statuses
    {
      rows := [];
      var rest := JobsWith(table, statuses);
      while rest != {}
        invariant Listed(table, statuses, rows, rest)
        decreases rest
      {
        var _ := FirstExists(table, rest);
        var j :| j in rest && NoOlder(table, j, rest);
        ListOneMore(table, statuses, rows, rest, j);
        rows := rows + [Row(j, table[j])];
        rest := rest - {j};
      }
    }

    method IsProjectActive(project: ProjectId) returns (active: bool)
      ensures active <==> exists j :: j in table && table[j].project == project
                                      && table[j].status !in {Applied, Destroyed, Failed, Cancelled}
      // The five locking statuses are not all: a project is also active while a job is queued or destroying.
      ensures active <==> Locking(table, project) != {}
                          || (exists j :: j in table && table[j].project == project
                                          && (table[j].status.Queued? || table[j].status.Destroying?))
    {
      active := ProjectActive(table, project);
      if j :| j in table && table[j].project == project && !Terminal(table[j].status) {
        LocksIff(table[j].status);
        assert LocksProject(table[j].status) ==> j in Locking(table, project);
      }
      if j :| j in Locking(table, project) {
        LocksIff(table[j].status);
      }
    }

    // LIMIT 1 without an order: any job that locks the project.
    method GetActiveJobForProject(project: ProjectId) returns (r: Outcome<Row>)
      ensures r == Err(NoRows) <==>
                !exists j :: j in table && table[j].project == project
                             && table[j].status in {PendingPlan, Planning, Planned, Approved, Applying}
      ensures r != Err(NoRows) ==>
                && r.Ok? && r.value.id in table && r.value.job == table[r.value.id] && r.value.job.project == project
                && r.value.job.status in {PendingPlan, Planning, Planned, Approved, Applying}
    {
      var active := Locking(table, project);
      if active == {} {
        assert forall j :: j in table && table[j].project == project && LocksProject(table[j].status) ==> j in active;
        return Err(NoRows);
      }
      var j :| j in active;
      r := Ok(Row(j, table[j]));
    }

    // Cancels the active job it happens to find, provided its id is the lock's; `readable` says whether it can be read,
    // and `meanwhile` is whatever others do to the table between the read and the write.
    method UnlockProjectState(project: ProjectId, lock: JobId, readable: bool, meanwhile: Table -> Table, fate: Fate)
        returns (r: Outcome<()>)
      modifies this
      ensures r != Err(NoRows)
      ensures !readable ==> r == Err(Broken) && table == old(table)
      ensures r == Err(LockMismatch) ==> table == old(table)
      ensures readable ==>
                var five := {PendingPlan, Planning, Planned, Approved, Applying};
                var others := exists j :: j != lock && j in old(table) && old(table)[j].project == project
                                          && old(table)[j].status in five;
                var own := lock in old(table) && old(table)[lock].project == project && old(table)[lock].status in five;
                && (!own && !others ==> r.Ok? && table == old(table))
                && (!own && others ==> r == Err(LockMismatch))
                && (own && !others ==> r != Err(LockMismatch))
                && (own && r != Err(LockMismatch) ==>
                      && (r.Ok? <==> fate.Done?)
                      && var later := meanwhile(old(table));
                         table == if fate.Lost? || lock !in later then later
                                  else later[lock := later[lock].(status := Cancelled)])
    {
      if !readable {
        return Err(Broken);
      }
      var found := GetActiveJobForProject(project);
      if found.Err? {
        return Ok(());
      }
      if found.value.id != lock {
        return Err(LockMismatch);
      }
      table := meanwhile(table);
      var ok := UpdateJobStatus(lock, Cancelled, fate);
      r := if ok then Ok(()) else Err(Broken);
    }
  }
}
