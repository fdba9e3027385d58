/** What every reachable state satisfies, whatever the interleaving, and what follows for whole runs. */
module Safety {
  import opened Jobs
  import opened Queue
  import opened Execution
  import opened Orchestrator

  // The statuses a job of each operation can have. DESTROYED is not among them: nothing writes it.
  predicate StatusFits(op: Operation, st: Status) {
    match st
    case Planning => op.Plan?
    case Applying => op.Apply?
    case Applied => op.Apply?
    case Destroying => op.Destroy?
    case Destroyed => false
    case Planned => MakesPlan(op)
    case Approved => MakesPlan(op)
    case _ => true
  }

  // Still waiting for a claim.
  predicate Waiting(st: Status) {
    st.Queued? || Claimable(st)
  }

  predicate HasPlan(j: JobId, job: Job, objects: set<Object>) {
    job.planPath == Some(PlanFile(j)) && PlanFile(j) in objects
  }

  predicate RowOk(j: JobId, job: Job, n: Tally, objects: set<Object>) {
    && StatusFits(job.operation, job.status)
    && (job.status.Planned? || job.status.Approved? ==> HasPlan(j, job, objects))
    && (Known(job.operation) ==> n.claims + (if Waiting(job.status) then 1 else 0) <= 1 + n.approvals)
    && (!MakesPlan(job.operation) ==> n.approvals == 0)
    && n.applies <= (if job.operation.Apply? then n.claims else 0)
    && (job.status.Applied? ==> n.applies >= 1)
  }

  // A worker at pc on job j.
  predicate RunOk(j: JobId, pc: Pc, job: Job, n: Tally, objects: set<Object>) {
    && PcFits(job.operation, pc)
    && job.status != Queued
    && n.claims >= 1
    && (pc.Uploaded? ==> PlanFile(j) in objects)
    && (pc.Recorded? ==> HasPlan(j, job, objects))
    && (job.operation.Apply? && BeforeTerraform(pc) ==> n.applies == 0)
    && (job.operation.Apply? && pc.Ran? ==> n.applies >= 1)
  }

  // A request of the given kind between its read and its write.
  predicate IntentOk(kind: Kind, j: JobId, job: Job, objects: set<Object>) {
    && (job.status == Queued ==> kind.Discard?)
    && (kind.Approve? ==> MakesPlan(job.operation) && HasPlan(j, job, objects))
  }

  ghost predicate RowsOk(s: State) {
    s.tally.Keys == s.table.Keys && forall j :: j in s.table ==> RowOk(j, s.table[j], s.tally[j], s.objects)
  }

  predicate Works(v: Worker, j: JobId) {
    v.Busy? && v.job == j
  }

  ghost predicate WorkersOk(s: State)
    requires s.tally.Keys == s.table.Keys
  {
    && (forall w :: 0 <= w < |s.workers| && s.workers[w].Busy? ==> s.workers[w].job in s.table)
    && (forall w :: 0 <= w < |s.workers| && s.workers[w].Busy? ==>
          var v := s.workers[w]; RunOk(v.job, v.pc, s.table[v.job], s.tally[v.job], s.objects))
  }

  ghost predicate IntentsOk(s: State) {
    && (forall r :: r in s.requests && s.requests[r].Writing? ==> s.requests[r].job in s.table)
    && (forall r :: r in s.requests && s.requests[r].Writing? ==>
          var i := s.requests[r]; IntentOk(i.kind, i.job, s.table[i.job], s.objects))
  }

  // No two workers are on the same apply job.
  ghost predicate OneApplyWorker(s: State) {
    forall v, w :: 0 <= v < w < |s.workers| && s.workers[v].Busy? && s.workers[w].Busy?
      && s.workers[v].job == s.workers[w].job && s.workers[v].job in s.table
      ==> !s.table[s.workers[v].job].operation.Apply?
  }

  ghost predicate Consistent(s: State) {
    RowsOk(s) && WorkersOk(s) && IntentsOk(s) && OneApplyWorker(s)
  }

  // ---------- what a step may do to a row ----------

  predicate RowMoves(j: JobId, a: Job, m: Tally, b: Job, n: Tally, objects: set<Object>) {
    && SameIdentity(a, b)
    && (HasPlan(j, a, objects) ==> HasPlan(j, b, objects))
    && (a.status != Queued ==> b.status != Queued)
    && m.claims <= n.claims
  }

  lemma RunSurvives(j: JobId, pc: Pc, a: Job, m: Tally, b: Job, n: Tally, before: set<Object>, after: set<Object>)
    requires RunOk(j, pc, a, m, before) && before <= after
    requires RowMoves(j, a, m, b, n, after) && m.applies == n.applies
    ensures RunOk(j, pc, b, n, after)
  {
  }

  lemma IntentSurvives(kind: Kind, j: JobId, a: Job, m: Tally, b: Job, n: Tally, before: set<Object>,
                       after: set<Object>)
    requires IntentOk(kind, j, a, before) && before <= after && RowMoves(j, a, m, b, n, after)
    ensures IntentOk(kind, j, b, after)
  {
  }

  lemma EndOnRow(kind: Kind, j: JobId, job: Job, n: Tally, objects: set<Object>)
    requires RowOk(j, job, n, objects) && IntentOk(kind, j, job, objects)
    ensures var job' := job.(status := Writes(kind));
            RowOk(j, job', Approvals(n, kind), objects) && RowMoves(j, job, n, job', Approvals(n, kind), objects)
  {
  }

  lemma ClaimOnRow(j: JobId, job: Job, n: Tally, objects: set<Object>)
    requires RowOk(j, job, n, objects) && Claimable(job.status)
    ensures var job' := job.(status := ClaimedStatus(job.operation, job.status));
            var n' := n.(claims := n.claims + 1);
            && RowOk(j, job', n', objects) && RowMoves(j, job, n, job', n', objects)
            && RunOk(j, Preparing(0), job', n', objects)
  {
  }

  lemma WorkKeepsRow(j: JobId, pc: Pc, job: Job, n: Tally, objects: set<Object>,
                     e: Effect, ok: bool, took: bool, text: string)
    requires RowOk(j, job, n, objects) && RunOk(j, pc, job, n, objects)
    requires Next(job.operation, pc, e, ok, took).Some?
    ensures var job' := if took then EffectOnRow(j, job, e, text) else job;
            var n' := EffectOnTally(n, job.operation, e);
            var objects' := if took then EffectOnObjects(objects, j, e) else objects;
            RowOk(j, job', n', objects') && RowMoves(j, job, n, job', n', objects')
  {
  }

  lemma WorkKeepsRun(j: JobId, pc: Pc, job: Job, n: Tally, objects: set<Object>,
                     e: Effect, ok: bool, took: bool, text: string)
    requires RunOk(j, pc, job, n, objects)
    requires Next(job.operation, pc, e, ok, took).Some? && (ok ==> took)
    ensures var job' := if took then EffectOnRow(j, job, e, text) else job;
            var n' := EffectOnTally(n, job.operation, e);
            var objects' := if took then EffectOnObjects(objects, j, e) else objects;
            RunOk(j, Next(job.operation, pc, e, ok, took).value, job', n', objects')
  {
  }

  // One effect of a run, seen from its own row.
  lemma WorkOnRow(j: JobId, pc: Pc, job: Job, n: Tally, objects: set<Object>,
                  e: Effect, ok: bool, took: bool, text: string)
    requires RowOk(j, job, n, objects) && RunOk(j, pc, job, n, objects)
    requires Next(job.operation, pc, e, ok, took).Some? && (ok ==> took)
    ensures var job' := if took then EffectOnRow(j, job, e, text) else job;
            var n' := EffectOnTally(n, job.operation, e);
            var objects' := if took then EffectOnObjects(objects, j, e) else objects;
            && objects <= objects'
            && RowOk(j, job', n', objects') && RowMoves(j, job, n, job', n', objects')
            && RunOk(j, Next(job.operation, pc, e, ok, took).value, job', n', objects')
            && (n'.applies != n.applies ==> job.operation.Apply?)
  {
    WorkKeepsRow(j, pc, job, n, objects, e, ok, took, text);
    WorkKeepsRun(j, pc, job, n, objects, e, ok, took, text);
  }

  // ---------- what a step may do to the whole state ----------

  // At most row j of the table moves.
  ghost predicate MovesOnly(s: State, t: State, j: JobId) {
    && j in s.table && s.tally.Keys == s.table.Keys
    && t.table.Keys == s.table.Keys && t.tally.Keys == s.tally.Keys && s.objects <= t.objects
    && (forall k :: k in s.table && k != j ==> t.table[k] == s.table[k] && t.tally[k] == s.tally[k])
    && RowOk(j, t.table[j], t.tally[j], t.objects)
    && RowMoves(j, s.table[j], s.tally[j], t.table[j], t.tally[j], t.objects)
  }

  ghost predicate NobodyElse(s: State, w: nat, j: JobId) {
    forall v :: 0 <= v < |s.workers| && v != w ==> !Works(s.workers[v], j)
  }

  // Every worker but w stays where it is.
  ghost predicate OthersStay(s: State, t: State, w: nat) {
    |t.workers| == |s.workers| && forall v :: 0 <= v < |s.workers| && v != w ==> t.workers[v] == s.workers[v]
  }

  lemma RowsAfter(s: State, t: State, j: JobId)
    requires RowsOk(s) && MovesOnly(s, t, j)
    ensures RowsOk(t)
  {
    forall k | k in t.table ensures RowOk(k, t.table[k], t.tally[k], t.objects) {
      if k != j { assert RowOk(k, s.table[k], s.tally[k], s.objects); }
    }
  }

  lemma WorkersAfter(s: State, t: State, j: JobId, w: nat)
    requires RowsOk(s) && WorkersOk(s) && MovesOnly(s, t, j) && OthersStay(s, t, w)
    requires s.tally[j].applies == t.tally[j].applies || NobodyElse(s, w, j)
    requires w < |s.workers| && Works(t.workers[w], j) ==> RunOk(j, t.workers[w].pc, t.table[j], t.tally[j], t.objects)
    requires w < |s.workers| ==> t.workers[w].Idle? || Works(t.workers[w], j) || t.workers[w] == s.workers[w]
    ensures WorkersOk(t)
  {
    forall v | 0 <= v < |t.workers| && t.workers[v].Busy?
      ensures var x := t.workers[v]; x.job in t.table && RunOk(x.job, x.pc, t.table[x.job], t.tally[x.job], t.objects)
    {
      var x := t.workers[v];
      if !(v == w && x.job == j) {
        assert x == s.workers[v];
        RunSurvives(x.job, x.pc, s.table[x.job], s.tally[x.job], t.table[x.job], t.tally[x.job], s.objects, t.objects);
      }
    }
  }

  lemma IntentsAfter(s: State, t: State, j: JobId)
    requires RowsOk(s) && IntentsOk(s) && MovesOnly(s, t, j)
    requires forall r :: r in t.requests ==> r in s.requests && t.requests[r] == s.requests[r]
    ensures IntentsOk(t)
  {
    forall r | r in t.requests && t.requests[r].Writing?
      ensures var i := t.requests[r]; i.job in t.table && IntentOk(i.kind, i.job, t.table[i.job], t.objects)
    {
      var i := s.requests[r];
      IntentSurvives(i.kind, i.job, s.table[i.job], s.tally[i.job], t.table[i.job], t.tally[i.job],
                     s.objects, t.objects);
    }
  }

  lemma OneApplyAfter(s: State, t: State, j: JobId, w: nat)
    requires RowsOk(s) && WorkersOk(s) && OneApplyWorker(s) && MovesOnly(s, t, j) && OthersStay(s, t, w)
    requires w < |s.workers| ==>
      || t.workers[w].Idle?
      || t.workers[w] == s.workers[w]
      || (Works(t.workers[w], j) && (s.table[j].operation.Apply? ==> NobodyElse(s, w, j)))
    ensures OneApplyWorker(t)
  {
  }

  // The shape of every step that moves at most one row and one worker.
  lemma LocalStepKeepsConsistent(s: State, t: State, j: JobId, w: nat)
    requires Consistent(s) && MovesOnly(s, t, j) && OthersStay(s, t, w)
    requires forall r :: r in t.requests ==> r in s.requests && t.requests[r] == s.requests[r]
    requires s.tally[j].applies == t.tally[j].applies || NobodyElse(s, w, j)
    requires w < |s.workers| ==>
      || t.workers[w].Idle?
      || (t.workers[w] == s.workers[w] && t.tally[j].applies == s.tally[j].applies)
      || (&& Works(t.workers[w], j) && RunOk(j, t.workers[w].pc, t.table[j], t.tally[j], t.objects)
          && (s.table[j].operation.Apply? ==> NobodyElse(s, w, j)))
    ensures Consistent(t)
  {
    RowsAfter(s, t, j);
    if
      && w < |s.workers| && t.workers[w] == s.workers[w] && Works(s.workers[w], j)
      && t.tally[j].applies == s.tally[j].applies
    {
      RunSurvives(j, s.workers[w].pc, s.table[j], s.tally[j], t.table[j], t.tally[j], s.objects, t.objects);
    }
    WorkersAfter(s, t, j, w);
    IntentsAfter(s, t, j);
    OneApplyAfter(s, t, j, w);
  }

  lemma EndKeepsConsistent(s: State, r: nat)
    requires Consistent(s) && CanEnd(s, r)
    ensures Consistent(AfterEnd(s, r))
  {
    var Writing(kind, j) := s.requests[r];
    EndOnRow(kind, j, s.table[j], s.tally[j], s.objects);
    LocalStepKeepsConsistent(s, AfterEnd(s, r), j, |s.workers|);
  }

  // Nobody works on an apply job that is still waiting.
  lemma WaitingApplyIsFree(s: State, w: nat, j: JobId)
    requires Consistent(s) && j in s.table && Waiting(s.table[j].status) && s.table[j].operation.Apply?
    ensures NobodyElse(s, w, j)
  {
    assert RowOk(j, s.table[j], s.tally[j], s.objects);
  }

  lemma ClaimKeepsConsistent(s: State, w: nat, j: JobId)
    requires Consistent(s) && CanClaim(s, w, j)
    ensures Consistent(AfterClaim(s, w, j))
  {
    ClaimOnRow(j, s.table[j], s.tally[j], s.objects);
    if s.table[j].operation.Apply? { WaitingApplyIsFree(s, w, j); }
    LocalStepKeepsConsistent(s, AfterClaim(s, w, j), j, w);
  }

  lemma WorkMovesItsRow(s: State, w: nat, e: Effect, ok: bool, took: bool, text: string)
    requires RowsOk(s) && WorkersOk(s) && CanWork(s, w, e, ok, took)
    ensures var t, j := AfterWork(s, w, e, ok, took, text), s.workers[w].job;
            && MovesOnly(s, t, j) && OthersStay(s, t, w) && t.requests == s.requests && Works(t.workers[w], j)
            && RunOk(j, t.workers[w].pc, t.table[j], t.tally[j], t.objects)
  {
    var v := s.workers[w];
    WorkOnRow(v.job, v.pc, s.table[v.job], s.tally[v.job], s.objects, e, ok, took, text);
  }

  lemma WorkKeepsConsistent(s: State, w: nat, e: Effect, ok: bool, took: bool, text: string)
    requires Consistent(s) && CanWork(s, w, e, ok, took)
    ensures Consistent(AfterWork(s, w, e, ok, took, text))
  {
    var j := s.workers[w].job;
    WorkMovesItsRow(s, w, e, ok, took, text);
    assert s.table[j].operation.Apply? ==> NobodyElse(s, w, j);
    LocalStepKeepsConsistent(s, AfterWork(s, w, e, ok, took, text), j, w);
  }

  lemma PromoteKeepsConsistent(s: State, w: nat, next: Option<JobId>)
    requires Consistent(s) && CanPromote(s, w, next)
    ensures Consistent(AfterPromote(s, w, next))
  {
    var j := if next.Some? then next.value else s.workers[w].job;
    assert RowOk(j, s.table[j], s.tally[j], s.objects);
    LocalStepKeepsConsistent(s, AfterPromote(s, w, next), j, w);
  }

  lemma CreateKeepsConsistent(s: State, r: nat, id: JobId)
    requires Consistent(s) && CanCreate(s, r, id)
    ensures Consistent(AfterCreate(s, r, id))
  {
  }

  lemma SweepKeepsConsistent(s: State, at: Time)
    requires Consistent(s)
    ensures Consistent(AfterSweep(s, at))
  {
    var t := AfterSweep(s, at);
    forall k | k in t.table
      ensures RowOk(k, t.table[k], t.tally[k], t.objects)
      ensures RowMoves(k, s.table[k], s.tally[k], t.table[k], t.tally[k], t.objects)
    {
      assert RowOk(k, s.table[k], s.tally[k], s.objects);
    }
    forall w | 0 <= w < |t.workers| && t.workers[w].Busy?
      ensures var v := t.workers[w]; v.job in t.table && RunOk(v.job, v.pc, t.table[v.job], t.tally[v.job], t.objects)
    {
      var v := s.workers[w];
      RunSurvives(v.job, v.pc, s.table[v.job], s.tally[v.job], t.table[v.job], t.tally[v.job], s.objects, t.objects);
    }
  }

  // Steps that leave the table alone.
  lemma QuietStepKeepsConsistent(s: State, step: Step)
    requires Consistent(s) && Enabled(s, step)
    requires step.BeginCreate? || step.Begin? || step.Drop? || step.Vanish? || step.Tick? || step.Store?
    ensures Consistent(Perform(s, step))
  {
    var t := Perform(s, step);
    assert RowsOk(t) by {
      forall k | k in t.table ensures RowOk(k, t.table[k], t.tally[k], t.objects) {
        assert RowOk(k, s.table[k], s.tally[k], s.objects);
      }
    }
  }

  lemma StepKeepsConsistent(s: State, step: Step)
    requires Consistent(s) && Enabled(s, step)
    ensures Consistent(Perform(s, step))
  {
    match step
    case EndCreate(r, id) => CreateKeepsConsistent(s, r, id);
    case End(r) => EndKeepsConsistent(s, r);
    case Claim(w, j) => ClaimKeepsConsistent(s, w, j);
    case Work(w, e, ok, took, text) => WorkKeepsConsistent(s, w, e, ok, took, text);
    case Promote(w, next) => PromoteKeepsConsistent(s, w, next);
    case Sweep(at) => SweepKeepsConsistent(s, at);
    case _ => QuietStepKeepsConsistent(s, step);
  }

  // ---------- whole runs ----------

  lemma InitConsistent(pool: nat, timeout: int, start: Time)
    ensures Consistent(Init(pool, timeout, start))
  {
  }

  lemma {:induction false} RunKeepsConsistent(s: State, run: seq<Step>)
    requires Consistent(s) && Executes(s, run)
    ensures Consistent(After(s, run))
    decreases |run|
  {
    if run != [] {
      StepKeepsConsistent(s, run[0]);
      RunKeepsConsistent(Perform(s, run[0]), run[1..]);
    }
  }

  ghost predicate Reachable(s: State) {
    exists pool: nat, timeout: int, start: Time, run: seq<Step> ::
      Executes(Init(pool, timeout, start), run) && s == After(Init(pool, timeout, start), run)
  }

  lemma ReachableIsConsistent(s: State)
    requires Reachable(s)
    ensures Consistent(s)
  {
    var pool: nat, timeout: int, start: Time, run: seq<Step> :|
      Executes(Init(pool, timeout, start), run) && s == After(Init(pool, timeout, start), run);
    InitConsistent(pool, timeout, start);
    RunKeepsConsistent(Init(pool, timeout, start), run);
  }

  // Over any whole run `terraform apply` is started at most once for a job, and only for an apply job.
  lemma ApplyAtMostOnce(s: State, j: JobId)
    requires Reachable(s) && j in s.tally
    ensures j in s.table && s.tally[j].applies <= (if s.table[j].operation.Apply? then 1 else 0)
  {
    ReachableIsConsistent(s);
    assert RowOk(j, s.table[j], s.tally[j], s.objects);
  }

  // A job shown as APPLIED was handed to `terraform apply`, exactly once.
  lemma AppliedWasApplied(s: State, j: JobId)
    requires Reachable(s) && j in s.table && s.table[j].status.Applied?
    ensures j in s.tally && s.tally[j].applies == 1
  {
    ReachableIsConsistent(s);
    assert RowOk(j, s.table[j], s.tally[j], s.objects);
  }

  // A job is claimed at most once more than it is approved. A job still waiting has a claim in hand.
  lemma ClaimsBoundedByApprovals(s: State, j: JobId)
    requires Reachable(s) && j in s.table && Known(s.table[j].operation)
    ensures j in s.tally && s.tally[j].claims <= 1 + s.tally[j].approvals
    ensures Waiting(s.table[j].status) ==> s.tally[j].claims <= s.tally[j].approvals
  {
    ReachableIsConsistent(s);
    assert RowOk(j, s.table[j], s.tally[j], s.objects);
  }

  // A job shown as PLANNED or APPROVED has its plan recorded and stored.
  lemma PlannedHasArtefact(s: State, j: JobId)
    requires Reachable(s) && j in s.table && (s.table[j].status.Planned? || s.table[j].status.Approved?)
    ensures s.table[j].planPath == Some(PlanFile(j)) && PlanFile(j) in s.objects
    ensures MakesPlan(s.table[j].operation)
  {
    ReachableIsConsistent(s);
    assert RowOk(j, s.table[j], s.tally[j], s.objects);
  }

  // DESTROYED is never reached, and each in-flight status names its operation.
  lemma StatusNamesOperation(s: State, j: JobId)
    requires Reachable(s) && j in s.table
    ensures StatusFits(s.table[j].operation, s.table[j].status)
  {
    ReachableIsConsistent(s);
    assert RowOk(j, s.table[j], s.tally[j], s.objects);
  }

  // Approving never leads to an apply: every claim that follows an approval plans again.
  lemma ApprovalNeverApplies(s: State, w: nat, j: JobId)
    requires Reachable(s) && Enabled(s, Claim(w, j)) && s.table[j].status.Approved?
    ensures var t := Perform(s, Claim(w, j));
            t.table[j].status == (if s.table[j].operation.Plan? then Planning else Destroying)
  {
    StatusNamesOperation(s, j);
  }
}
