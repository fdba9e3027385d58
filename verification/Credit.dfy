/** How many jobs of a project can be under way at once. Every job that is claimable or being worked on spends
    one credit; credits come only from jobs created directly as PENDING_PLAN and from approval writes. */
module Credit {
  import opened Jobs
  import opened Queue
  import opened Execution
  import opened Orchestrator
  import opened Safety
  import opened Counting

  // The claimable jobs of a project.
  function Open(t: Table, p: ProjectId): set<JobId> {
    set j | j in t && t[j].project == p && Claimable(t[j].status)
  }

  // Is the worker inside processJob for a job of the project?
  predicate WorksFor(t: Table, v: Worker, p: ProjectId) {
    v.Busy? && v.job in t && t[v.job].project == p
  }

  function Team(t: Table, workers: seq<Worker>, p: ProjectId): set<nat> {
    set w: nat | w < |workers| && WorksFor(t, workers[w], p)
  }

  function Spent(s: State, p: ProjectId): nat {
    |Open(s.table, p)| + |Team(s.table, s.workers, p)|
  }

  predicate CreatesPending(s: State, step: Step, p: ProjectId) {
    step.EndCreate? && step.r in s.requests && s.requests[step.r].Creating?
    && s.requests[step.r].project == p && !s.requests[step.r].queued
  }

  predicate Approves(s: State, step: Step, p: ProjectId) {
    && step.End? && step.r in s.requests && s.requests[step.r].Writing? && s.requests[step.r].kind.Approve?
    && s.requests[step.r].job in s.table && s.table[s.requests[step.r].job].project == p
  }

  // Credits a run hands out: direct creations plus approval writes.
  function Issued(s: State, run: seq<Step>, p: ProjectId): nat
    requires Executes(s, run)
    decreases |run|
  {
    if run == [] then 0
    else (if CreatesPending(s, run[0], p) || Approves(s, run[0], p) then 1 else 0)
         + Issued(Perform(s, run[0]), run[1..], p)
  }

  predicate KnownRequest(step: Step, p: ProjectId) {
    step.BeginCreate? && step.project == p ==> Known(step.operation)
  }

  // Every job of the project, present or about to be created, is a plan, an apply or a destroy.
  ghost predicate KnownOnly(s: State, p: ProjectId) {
    && (forall j :: j in s.table && s.table[j].project == p ==> Known(s.table[j].operation))
    && (forall r :: r in s.requests && s.requests[r].Creating? && s.requests[r].project == p ==>
          Known(s.requests[r].operation))
  }

  lemma AtMostOneMore<T>(a: set<T>, b: set<T>, x: T)
    requires a <= b + {x}
    ensures |a| <= |b| + 1
  {
    SubsetSize(a, b + {x});
  }

  // Rewriting one row, project unchanged, moves at most that job in or out of Open and nobody in or out of Team.
  lemma OneRow(t: Table, u: Table, workers: seq<Worker>, j: JobId, p: ProjectId)
    requires j in t && t.Keys == u.Keys && u[j].project == t[j].project
    requires forall k :: k in t && k != j ==> u[k] == t[k]
    ensures Team(u, workers, p) == Team(t, workers, p)
    ensures |Open(u, p)| <= |Open(t, p)| + (if t[j].project == p && Claimable(u[j].status) then 1 else 0)
    ensures t[j].project == p && Claimable(t[j].status) && !Claimable(u[j].status) ==> |Open(u, p)| == |Open(t, p)| - 1
    ensures t[j].project != p ==> Open(u, p) == Open(t, p)
  {
    forall w: nat | w < |workers| ensures WorksFor(u, workers[w], p) == WorksFor(t, workers[w], p) {}
    if t[j].project == p && Claimable(u[j].status) {
      AtMostOneMore(Open(u, p), Open(t, p), j);
    } else if t[j].project == p {
      assert Open(u, p) == Open(t, p) - {j};
    } else {
      assert Open(u, p) == Open(t, p);
    }
  }

  // Moving one worker.
  lemma OneWorker(t: Table, workers: seq<Worker>, w: nat, v: Worker, p: ProjectId)
    requires w < |workers|
    ensures WorksFor(t, workers[w], p) == WorksFor(t, v, p) ==> Team(t, workers[w := v], p) == Team(t, workers, p)
    ensures !WorksFor(t, workers[w], p) && WorksFor(t, v, p) ==>
              |Team(t, workers[w := v], p)| == |Team(t, workers, p)| + 1
    ensures WorksFor(t, workers[w], p) && !WorksFor(t, v, p) ==>
              |Team(t, workers[w := v], p)| == |Team(t, workers, p)| - 1
  {
    var a, b := Team(t, workers, p), Team(t, workers[w := v], p);
    if WorksFor(t, workers[w], p) == WorksFor(t, v, p) {
      assert a == b;
    } else if WorksFor(t, v, p) {
      assert b == a + {w};
    } else {
      assert b == a - {w};
    }
  }

  lemma CreateSpends(s: State, r: nat, id: JobId, p: ProjectId)
    requires Consistent(s) && CanCreate(s, r, id)
    ensures Spent(AfterCreate(s, r, id), p) <= Spent(s, p) + (if CreatesPending(s, EndCreate(r, id), p) then 1 else 0)
  {
    var t := AfterCreate(s, r, id);
    assert Team(t.table, t.workers, p) == Team(s.table, s.workers, p);
    if CreatesPending(s, EndCreate(r, id), p) {
      AtMostOneMore(Open(t.table, p), Open(s.table, p), id);
    } else {
      assert Open(t.table, p) == Open(s.table, p);
    }
  }

  lemma EndSpends(s: State, r: nat, p: ProjectId)
    requires CanEnd(s, r)
    ensures Spent(AfterEnd(s, r), p) <= Spent(s, p) + (if Approves(s, End(r), p) then 1 else 0)
  {
    OneRow(s.table, AfterEnd(s, r).table, s.workers, s.requests[r].job, p);
  }

  // A claim moves a credit from the job to the worker; a job of unknown operation stays claimable, and spends one more.
  lemma ClaimSpends(s: State, w: nat, j: JobId, p: ProjectId)
    requires CanClaim(s, w, j)
    ensures Spent(AfterClaim(s, w, j), p)
         == Spent(s, p) + (if s.table[j].project == p && !Known(s.table[j].operation) then 1 else 0)
  {
    var t := AfterClaim(s, w, j);
    OneRow(s.table, t.table, s.workers, j, p);
    OneWorker(t.table, s.workers, w, Busy(j, Preparing(0)), p);
    assert !Known(s.table[j].operation) ==> t.table == s.table;
  }

  lemma WorkSpends(s: State, w: nat, e: Effect, ok: bool, took: bool, text: string, p: ProjectId)
    requires CanWork(s, w, e, ok, took)
    ensures Spent(AfterWork(s, w, e, ok, took, text), p) <= Spent(s, p)
  {
    var t := AfterWork(s, w, e, ok, took, text);
    var j := s.workers[w].job;
    assert e.WriteStatus? ==> !Claimable(e.status);
    OneWorker(s.table, s.workers, w, t.workers[w], p);
    OneRow(s.table, t.table, t.workers, j, p);
    if Claimable(t.table[j].status) { assert Open(t.table, p) == Open(s.table, p); }
  }

  lemma PromoteSpends(s: State, w: nat, next: Option<JobId>, p: ProjectId)
    requires CanPromote(s, w, next)
    ensures Spent(AfterPromote(s, w, next), p) <= Spent(s, p)
  {
    var t := AfterPromote(s, w, next);
    OneWorker(s.table, s.workers, w, Idle, p);
    if next.Some? { OneRow(s.table, t.table, t.workers, next.value, p); }
  }

  lemma StepSpends(s: State, step: Step, p: ProjectId)
    requires Consistent(s) && KnownOnly(s, p) && Enabled(s, step)
    ensures Spent(Perform(s, step), p)
         <= Spent(s, p) + (if CreatesPending(s, step, p) || Approves(s, step, p) then 1 else 0)
  {
    match step
    case EndCreate(r, id) => CreateSpends(s, r, id, p);
    case End(r) => EndSpends(s, r, p);
    case Claim(w, j) => ClaimSpends(s, w, j, p);
    case Work(w, e, ok, took, text) => WorkSpends(s, w, e, ok, took, text, p);
    case Promote(w, next) => PromoteSpends(s, w, next, p);
    case _ =>
      var t := Perform(s, step);
      SubsetSize(Open(t.table, p), Open(s.table, p));
      SubsetSize(Team(t.table, t.workers, p), Team(s.table, s.workers, p));
  }

  lemma StepKeepsKnownOnly(s: State, step: Step, p: ProjectId)
    requires KnownOnly(s, p) && Enabled(s, step) && KnownRequest(step, p)
    ensures KnownOnly(Perform(s, step), p)
  {
    var t := Perform(s, step);
    forall j | j in t.table && t.table[j].project == p ensures Known(t.table[j].operation) {
      if j in s.table { IdentityIsFixed(s, step, j); }
    }
  }

  lemma {:induction false} RunSpends(s: State, run: seq<Step>, p: ProjectId)
    requires Consistent(s) && KnownOnly(s, p) && Executes(s, run)
    requires forall i :: 0 <= i < |run| ==> KnownRequest(run[i], p)
    ensures Spent(After(s, run), p) <= Spent(s, p) + Issued(s, run, p)
    decreases |run|
  {
    if run != [] {
      StepSpends(s, run[0], p);
      StepKeepsKnownOnly(s, run[0], p);
      StepKeepsConsistent(s, run[0]);
      RunSpends(Perform(s, run[0]), run[1..], p);
    }
  }

  // The credit bound: claimable jobs plus busy workers of a project never exceed the credits handed out to it.
  lemma CreditBound(pool: nat, timeout: int, start: Time, run: seq<Step>, p: ProjectId)
    requires Executes(Init(pool, timeout, start), run)
    requires forall i :: 0 <= i < |run| ==> KnownRequest(run[i], p)
    ensures var s := Init(pool, timeout, start); Spent(After(s, run), p) <= Issued(s, run, p)
  {
    var s := Init(pool, timeout, start);
    InitConsistent(pool, timeout, start);
    assert Open(s.table, p) == {} && Team(s.table, s.workers, p) == {};
    RunSpends(s, run, p);
  }

  // With a single credit the jobs of a project run strictly one at a time, and none is claimable meanwhile.
  lemma OneCreditMeansSerial(pool: nat, timeout: int, start: Time, run: seq<Step>, p: ProjectId, v: nat)
    requires Executes(Init(pool, timeout, start), run)
    requires forall i :: 0 <= i < |run| ==> KnownRequest(run[i], p)
    requires Issued(Init(pool, timeout, start), run, p) <= 1
    requires var t := After(Init(pool, timeout, start), run); v in Team(t.table, t.workers, p)
    ensures var t := After(Init(pool, timeout, start), run);
            Team(t.table, t.workers, p) == {v} && Open(t.table, p) == {}
  {
    var t := After(Init(pool, timeout, start), run);
    CreditBound(pool, timeout, start, run, p);
    SubsetSize({v}, Team(t.table, t.workers, p));
    if w :| w in Team(t.table, t.workers, p) && v != w { SubsetSize({v, w}, Team(t.table, t.workers, p)); }
  }

  // ---------- one active job per project is not guaranteed ----------

  // Two requests that both read an idle project both insert PENDING_PLAN.
  lemma ConcurrentCreatesBothPending(s: State, p: ProjectId, op: Operation, hooks: Hooks,
                                     q: nat, r: nat, a: JobId, b: JobId)
    requires !ProjectActive(s.table, p) && q != r && q !in s.requests && r !in s.requests
    requires a != b && a !in s.table && b !in s.table
    ensures var run := [BeginCreate(q, p, op, hooks), BeginCreate(r, p, op, hooks), EndCreate(q, a), EndCreate(r, b)];
            && Executes(s, run)
            && a in After(s, run).table && After(s, run).table[a].status == PendingPlan
            && b in After(s, run).table && After(s, run).table[b].status == PendingPlan
  {
    var s1 := s.(requests := s.requests[q := Creating(p, op, hooks, false)]);
    var s2 := s1.(requests := s1.requests[r := Creating(p, op, hooks, false)]);
    var s3 := AfterCreate(s2, q, a);
    Prepend(s3, EndCreate(r, b), []);
    Prepend(s2, EndCreate(q, a), [EndCreate(r, b)]);
    Prepend(s1, BeginCreate(r, p, op, hooks), [EndCreate(q, a), EndCreate(r, b)]);
    Prepend(s, BeginCreate(q, p, op, hooks), [BeginCreate(r, p, op, hooks), EndCreate(q, a), EndCreate(r, b)]);
  }

  // A direct creation ends up alone in its project iff the project is still idle when the row is inserted.
  lemma DirectCreateIsAloneIff(s: State, r: nat, id: JobId)
    requires CanCreate(s, r, id)
    ensures var p, t := s.requests[r].project, AfterCreate(s, r, id);
            (forall j :: j in t.table && t.table[j].project == p && !Terminal(t.table[j].status) ==> j == id)
            <==> !ProjectActive(s.table, p)
  {
    var p, t := s.requests[r].project, AfterCreate(s, r, id);
    assert forall j :: j in s.table ==> j in t.table && t.table[j] == s.table[j] && j != id;
  }
}
