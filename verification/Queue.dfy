/** The meaning of each SQL statement as a function or predicate of the jobs table. */
module Queue {
  import opened Jobs

  // ---------- status sets ----------

  predicate Claimable(st: Status) {
    st.PendingPlan? || st.Approved?
  }

  // The five statuses GetActiveJobForProject looks for.
  predicate LocksProject(st: Status) {
    st.PendingPlan? || st.Planning? || st.Planned? || st.Approved? || st.Applying?
  }

  // The four statuses IsProjectActive ignores.
  predicate Terminal(st: Status) {
    st.Applied? || st.Destroyed? || st.Failed? || st.Cancelled?
  }

  // The three statuses recoverJobs fetches.
  predicate InFlight(st: Status) {
    st.Planning? || st.Applying? || st.Destroying?
  }

  predicate ProjectActive(t: Table, p: ProjectId) {
    exists j :: j in t && t[j].project == p && !Terminal(t[j].status)
  }

  // ---------- row updates ----------

  // UPDATE ... WHERE id = j: an absent id updates no row and is no error.
  function WithStatus(t: Table, j: JobId, st: Status): Table {
    if j in t then t[j := t[j].(status := st)] else t
  }

  function WithPlanResult(t: Table, j: JobId, path: Object, summary: string): Table {
    if j in t then t[j := t[j].(planPath := Some(path), planSummary := Some(summary))] else t
  }

  function WithSummary(t: Table, j: JobId, summary: string): Table {
    if j in t then t[j := t[j].(planSummary := Some(summary))] else t
  }

  function NewJob(p: ProjectId, st: Status, op: Operation, hooks: Hooks, now: Time): Job {
    Job(p, op, hooks, st, now, None, None)
  }

  // ---------- claiming and promoting ----------

  function ClaimedStatus(op: Operation, st: Status): Status {
    match op
    case Plan => Planning
    case Apply => Applying
    case Destroy => Destroying
    case Unknown(_) => st
  }

  // ORDER BY created_at ASC, id ASC
  predicate Before(t: Table, a: JobId, b: JobId)
    requires a in t && b in t
  {
    t[a].createdAt < t[b].createdAt || (t[a].createdAt == t[b].createdAt && a < b)
  }

  // ORDER BY created_at ASC alone leaves ties open.
  predicate NoOlder(t: Table, j: JobId, among: set<JobId>)
    requires j in t && among <= t.Keys
  {
    forall k :: k in among ==> t[j].createdAt <= t[k].createdAt
  }

  predicate IsFirst(t: Table, j: JobId, among: set<JobId>)
    requires j in t && among <= t.Keys
  {
    j in among && forall k :: k in among && k != j ==> Before(t, j, k)
  }

  function JobsWith(t: Table, statuses: set<Status>): set<JobId> {
    set j | j in t && t[j].status in statuses
  }

  function QueuedIn(t: Table, p: ProjectId): set<JobId> {
    set j | j in t && t[j].project == p && t[j].status == Queued
  }

  function Claimed(t: Table, j: JobId): Table
    requires j in t
  {
    WithStatus(t, j, ClaimedStatus(t[j].operation, t[j].status))
  }

  // Every non-empty set of rows has a first one, so the LIMIT 1 queries always find their row.
  lemma FirstExists(t: Table, among: set<JobId>) returns (j: JobId)
    requires among <= t.Keys && among != {}
    ensures j in t && IsFirst(t, j, among) && NoOlder(t, j, among)
    decreases |among|
  {
    var k :| k in among;
    var rest := among - {k};
    if rest == {} {
      assert among == {k};
      j := k;
    } else {
      var f := FirstExists(t, rest);
      j := if Before(t, f, k) then f else k;
      assert forall i :: i in among ==> i == k || i in rest;
    }
  }

  lemma FirstIsUnique(t: Table, a: JobId, b: JobId, among: set<JobId>)
    requires among <= t.Keys && a in t && b in t
    requires IsFirst(t, a, among) && IsFirst(t, b, among)
    ensures a == b
  {
  }

  // ---------- the timeout sweep ----------

  // What the sweep's interval makes of a timeout in nanoseconds: int(timeout.Seconds()) seconds, in microseconds. Go
  // truncates toward zero.
  function SweepInterval(nanos: int): (micros: int)
    ensures micros % 1_000_000 == 0
    ensures nanos >= 0 ==> 0 <= micros * 1_000 <= nanos < micros * 1_000 + 1_000_000_000
    ensures nanos <= 0 ==> micros * 1_000 - 1_000_000_000 < nanos <= micros * 1_000 <= 0
  {
    var seconds := if nanos >= 0 then nanos / 1_000_000_000 else -((-nanos) / 1_000_000_000);
    seconds * 1_000_000
  }

  // status = QUEUED AND created_at < NOW() - interval
  predicate TimedOut(job: Job, now: Time, timeout: int) {
    job.status == Queued && job.createdAt < now - timeout
  }

  function Expired(t: Table, now: Time, timeout: int): set<JobId> {
    set j | j in t && TimedOut(t[j], now, timeout)
  }

  function Swept(t: Table, now: Time, timeout: int): Table {
    map j | j in t :: if TimedOut(t[j], now, timeout) then t[j].(status := Failed) else t[j]
  }

  // No job has been queued for longer than the timeout.
  predicate NoneOverdue(t: Table, now: Time, timeout: int) {
    forall j :: j in t && t[j].status == Queued ==> now - t[j].createdAt <= timeout
  }
}
