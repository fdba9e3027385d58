/** The whole system as a transition system: workers, HTTP handlers, recovery and the sweep, interleaved
    at every access to the jobs table or the object store. A step's label fixes its outcome, so a run is a
    sequence of labels. */
module Orchestrator {
  import opened Jobs
  import opened Queue
  import opened Execution

  datatype Worker = Idle | Busy(job: JobId, pc: Pc)

  // The four actors that read a status, decide, and later write another status unconditionally.
  datatype Kind = Approve | Discard | Unlock | Recover

  // May an actor that reads status st go on to its write?
  predicate Permits(kind: Kind, st: Status) {
    match kind
    case Approve => st.Planned?
    case Discard => !(st.Applying? || st.Applied? || st.Failed? || st.Cancelled?)
    case Unlock => LocksProject(st)
    case Recover => InFlight(st)
  }

  function Writes(kind: Kind): Status {
    match kind
    case Approve => Approved
    case Discard => Cancelled
    case Unlock => Cancelled
    case Recover => Failed
  }

  // A request that has read but not yet written.
  datatype Intent =
    | Creating(project: ProjectId, operation: Operation, hooks: Hooks, queued: bool)
    | Writing(kind: Kind, job: JobId)

  // History of one job: how often it was claimed, approved, and handed to `terraform apply`.
  datatype Tally = Tally(claims: nat, approvals: nat, applies: nat)

  // Where every job that was created QUEUED went.
  datatype Ledger = Ledger(enqueued: set<JobId>, promoted: seq<JobId>, expired: set<JobId>, withdrawn: set<JobId>)

  datatype State = State(table: Table, objects: set<Object>, workers: seq<Worker>, requests: map<nat, Intent>,
                         timeout: int, now: Time, sweptAt: Time,
                         tally: map<JobId, Tally>, ledger: Ledger)

  function Init(pool: nat, timeout: int, start: Time): State {
    State(map[], {}, seq(pool, i => Idle), map[], timeout, start, start, map[], Ledger({}, [], {}, {}))
  }

  datatype Step =
    | BeginCreate(r: nat, project: ProjectId, operation: Operation, hooks: Hooks)
    | EndCreate(r: nat, id: JobId)
    | Begin(r: nat, kind: Kind, job: JobId)
    | End(r: nat)
    | Drop(r: nat)                         // the request fails or its process dies before its write
    | Claim(w: nat, job: JobId)
    | Work(w: nat, e: Effect, ok: bool, took: bool, text: string)
    | Promote(w: nat, next: Option<JobId>) // PromoteNextJob and the return from processJob
    | Vanish(w: nat)                       // the worker's process dies
    | Sweep(at: Time)                      // a sweep that began at `at`, not before the last one, takes effect
    | Tick(d: nat)
    | Store(o: Object)                     // anything else that uploads an object

  // ---------- the twelve steps ----------

  predicate CanCreate(s: State, r: nat, id: JobId) {
    r in s.requests && s.requests[r].Creating? && id !in s.table
  }

  function AfterCreate(s: State, r: nat, id: JobId): State
    requires CanCreate(s, r, id)
  {
    var c := s.requests[r];
    var job := NewJob(c.project, if c.queued then Queued else PendingPlan, c.operation, c.hooks, s.now);
    s.(table := s.table[id := job], requests := s.requests - {r}, tally := s.tally[id := Tally(0, 0, 0)],
       ledger := if c.queued then s.ledger.(enqueued := s.ledger.enqueued + {id}) else s.ledger)
  }

  predicate CanBegin(s: State, r: nat, kind: Kind, j: JobId) {
    r !in s.requests && j in s.table && Permits(kind, s.table[j].status)
  }

  predicate CanEnd(s: State, r: nat) {
    r in s.requests && s.requests[r].Writing? && s.requests[r].job in s.table && s.requests[r].job in s.tally
  }

  function Approvals(n: Tally, kind: Kind): Tally {
    if kind.Approve? then n.(approvals := n.approvals + 1) else n
  }

  function AfterEnd(s: State, r: nat): State
    requires CanEnd(s, r)
  {
    var Writing(kind, j) := s.requests[r];
    s.(table := WithStatus(s.table, j, Writes(kind)), requests := s.requests - {r},
       tally := s.tally[j := Approvals(s.tally[j], kind)],
       ledger := if s.table[j].status == Queued then s.ledger.(withdrawn := s.ledger.withdrawn + {j}) else s.ledger)
  }

  predicate CanClaim(s: State, w: nat, j: JobId) {
    w < |s.workers| && s.workers[w].Idle? && j in s.table && j in s.tally && Claimable(s.table[j].status)
  }

  function AfterClaim(s: State, w: nat, j: JobId): State
    requires CanClaim(s, w, j)
  {
    s.(table := Claimed(s.table, j), workers := s.workers[w := Busy(j, Preparing(0))],
       tally := s.tally[j := s.tally[j].(claims := s.tally[j].claims + 1)])
  }

  // Label `took` says whether a write reached its target; a call that returned nil did.
  predicate CanWork(s: State, w: nat, e: Effect, ok: bool, took: bool) {
    && w < |s.workers| && s.workers[w].Busy?
    && s.workers[w].job in s.table && s.workers[w].job in s.tally
    && Next(s.table[s.workers[w].job].operation, s.workers[w].pc, e, ok, took).Some?
    && (ok ==> took)
    && (e.Download? && ok ==> PlanFile(s.workers[w].job) in s.objects)
  }

  // What an effect that took place does to its job's row, to the object store, and to the history.
  function EffectOnRow(j: JobId, job: Job, e: Effect, text: string): Job {
    match e
    case RecordPlan => job.(planPath := Some(PlanFile(j)), planSummary := Some(text))
    case WriteStatus(st) => job.(status := st)
    case RecordSummary => job.(planSummary := Some(text))
    case _ => job
  }

  function EffectOnObjects(objects: set<Object>, j: JobId, e: Effect): set<Object> {
    match e
    case UploadPlan => objects + {PlanFile(j)}
    case UploadLog => objects + {RunLog(j)}
    case _ => objects
  }

  function EffectOnTally(n: Tally, op: Operation, e: Effect): Tally {
    if e.Terraform? && op.Apply? then n.(applies := n.applies + 1) else n
  }

  function AfterWork(s: State, w: nat, e: Effect, ok: bool, took: bool, text: string): State
    requires CanWork(s, w, e, ok, took)
  {
    var Busy(j, pc) := s.workers[w];
    var op := s.table[j].operation;
    s.(table := if took then s.table[j := EffectOnRow(j, s.table[j], e, text)] else s.table,
       objects := if took then EffectOnObjects(s.objects, j, e) else s.objects,
       workers := s.workers[w := Busy(j, Next(op, pc, e, ok, took).value)],
       tally := s.tally[j := EffectOnTally(s.tally[j], op, e)])
  }

  predicate CanPromote(s: State, w: nat, next: Option<JobId>) {
    && w < |s.workers| && s.workers[w].Busy? && s.workers[w].pc.Closing? && s.workers[w].job in s.table
    && (next.Some? ==> next.value in QueuedIn(s.table, s.table[s.workers[w].job].project))
  }

  function AfterPromote(s: State, w: nat, next: Option<JobId>): State
    requires CanPromote(s, w, next)
  {
    var t := s.(workers := s.workers[w := Idle]);
    if next.None? then t
    else t.(table := WithStatus(s.table, next.value, PendingPlan),
            ledger := s.ledger.(promoted := s.ledger.promoted + [next.value]))
  }

  function AfterSweep(s: State, at: Time): State {
    s.(table := Swept(s.table, at, s.timeout), sweptAt := at,
       ledger := s.ledger.(expired := s.ledger.expired + Expired(s.table, at, s.timeout)))
  }

  predicate Enabled(s: State, step: Step) {
    match step
    case BeginCreate(r, _, _, _) => r !in s.requests
    case EndCreate(r, id) => CanCreate(s, r, id)
    case Begin(r, kind, j) => CanBegin(s, r, kind, j)
    case End(r) => CanEnd(s, r)
    case Drop(r) => r in s.requests
    case Claim(w, j) => CanClaim(s, w, j)
    case Work(w, e, ok, took, _) => CanWork(s, w, e, ok, took)
    case Promote(w, next) => CanPromote(s, w, next)
    case Vanish(w) => w < |s.workers|
    case Sweep(at) => s.sweptAt <= at <= s.now
    case Tick(_) => true
    case Store(_) => true
  }

  function Perform(s: State, step: Step): State
    requires Enabled(s, step)
  {
    match step
    case BeginCreate(r, p, op, hooks) =>
      s.(requests := s.requests[r := Creating(p, op, hooks, ProjectActive(s.table, p))])
    case EndCreate(r, id) => AfterCreate(s, r, id)
    case Begin(r, kind, j) => s.(requests := s.requests[r := Writing(kind, j)])
    case End(r) => AfterEnd(s, r)
    case Drop(r) => s.(requests := s.requests - {r})
    case Claim(w, j) => AfterClaim(s, w, j)
    case Work(w, e, ok, took, text) => AfterWork(s, w, e, ok, took, text)
    case Promote(w, next) => AfterPromote(s, w, next)
    case Vanish(w) => s.(workers := s.workers[w := Idle])
    case Sweep(at) => AfterSweep(s, at)
    case Tick(d) => s.(now := s.now + d)
    case Store(o) => s.(objects := s.objects + {o})
  }

  predicate Executes(s: State, run: seq<Step>)
    decreases |run|
  {
    run == [] || (Enabled(s, run[0]) && Executes(Perform(s, run[0]), run[1..]))
  }

  function After(s: State, run: seq<Step>): State
    requires Executes(s, run)
    decreases |run|
  {
    if run == [] then s else After(Perform(s, run[0]), run[1..])
  }

  lemma {:induction false} RunsCompose(s: State, a: seq<Step>, b: seq<Step>)
    requires Executes(s, a) && Executes(After(s, a), b)
    ensures Executes(s, a + b) && After(s, a + b) == After(After(s, a), b)
    decreases |a|
  {
    if a == [] {
      assert a + b == b;
    } else {
      RunsCompose(Perform(s, a[0]), a[1..], b);
      assert (a + b)[0] == a[0] && (a + b)[1..] == a[1..] + b;
    }
  }

  // The last sweep to take effect began in the past.
  lemma {:induction false} SweepsArePast(s: State, run: seq<Step>)
    requires Executes(s, run) && s.sweptAt <= s.now
    ensures After(s, run).sweptAt <= After(s, run).now
    decreases |run|
  {
    if run != [] {
      SweepsArePast(Perform(s, run[0]), run[1..]);
    }
  }

  lemma Prepend(s: State, step: Step, rest: seq<Step>)
    requires Enabled(s, step) && Executes(Perform(s, step), rest)
    ensures Executes(s, [step] + rest) && After(s, [step] + rest) == After(Perform(s, step), rest)
  {
    assert ([step] + rest)[1..] == rest;
  }

  // No step changes a job's project, operation, hooks or creation time, and no step deletes a job.
  lemma IdentityIsFixed(s: State, step: Step, j: JobId)
    requires Enabled(s, step) && j in s.table
    ensures j in Perform(s, step).table && SameIdentity(s.table[j], Perform(s, step).table[j])
  {
  }

  lemma {:induction false} RunFixesIdentity(s: State, run: seq<Step>, j: JobId)
    requires Executes(s, run) && j in s.table
    ensures j in After(s, run).table && SameIdentity(s.table[j], After(s, run).table[j])
    ensures var a, b := s.table[j], After(s, run).table[j];
            a.project == b.project && a.operation == b.operation && a.hooks == b.hooks && a.createdAt == b.createdAt
    decreases |run|
  {
    if run != [] {
      IdentityIsFixed(s, run[0], j);
      RunFixesIdentity(Perform(s, run[0]), run[1..], j);
    }
  }

  // The shortest run: claimed, the first call fails, FAILED is written.
  function FailFast(w: nat, j: JobId): seq<Step> {
    [Claim(w, j), Work(w, Setup(EnsureBucket), false, false, ""), Work(w, WriteStatus(Failed), true, true, "")]
  }

  lemma FailsFast(s: State, w: nat, j: JobId)
    requires CanClaim(s, w, j)
    ensures Executes(s, FailFast(w, j))
    ensures var t := After(s, FailFast(w, j));
            && t.table == s.table[j := s.table[j].(status := Failed)]
            && t.workers == s.workers[w := Busy(j, Closing(0))]
            && t.requests == s.requests && t.objects == s.objects && t.ledger == s.ledger
            && t.tally.Keys == s.tally.Keys
  {
    var fail, write := Work(w, Setup(EnsureBucket), false, false, ""), Work(w, WriteStatus(Failed), true, true, "");
    var s1 := AfterClaim(s, w, j);
    var s2 := AfterWork(s1, w, fail.e, false, false, "");
    assert s2.workers == s.workers[w := Busy(j, Failing(false, 2))] && s2.table == s1.table && s2.objects == s.objects;
    var s3 := AfterWork(s2, w, write.e, true, true, "");
    assert s3.table == s.table[j := s.table[j].(status := Failed)];
    Prepend(s2, write, []);
    Prepend(s1, fail, [write]);
    Prepend(s, Claim(w, j), [fail, write]);
  }
}
