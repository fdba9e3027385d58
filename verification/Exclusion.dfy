/** Who may be running a job: exclusion when approvals are fresh, its failure when they are stale, and how
    often a job of an unknown operation can be claimed. */
module Exclusion {
  import opened Jobs
  import opened Queue
  import opened Execution
  import opened Orchestrator
  import opened Safety
  import opened Settled

  // Worker w holds job j: it has claimed j and written no status for it yet.
  predicate Holds(s: State, w: nat, j: JobId) {
    w < |s.workers| && Works(s.workers[w], j) && BeforeFirstWrite(s.workers[w].pc)
  }

  // What the status of a held job can be.
  predicate HeldStatus(st: Status) {
    InFlight(st) || st.Cancelled? || st.Failed?
  }

  ghost predicate Exclusive(s: State, j: JobId) {
    && (forall v, w :: Holds(s, v, j) && Holds(s, w, j) ==> v == w)
    && (forall w :: Holds(s, w, j) ==> j in s.table && HeldStatus(s.table[j].status))
  }

  predicate ApprovalWrite(s: State, step: Step, j: JobId) {
    step.End? && step.r in s.requests && s.requests[step.r] == Writing(Approve, j)
  }

  // An approval of j that lands while j still shows the status it was based on.
  predicate FreshStep(s: State, step: Step, j: JobId) {
    ApprovalWrite(s, step, j) ==> j in s.table && s.table[j].status.Planned?
  }

  // If no worker comes to hold j and j's status keeps its place, exclusion is kept.
  lemma ExclusiveAfter(s: State, t: State, j: JobId)
    requires Exclusive(s, j) && s.table.Keys <= t.table.Keys
    requires forall w :: Holds(t, w, j) ==> Holds(s, w, j)
    requires (exists w :: Holds(s, w, j)) && j in s.table && HeldStatus(s.table[j].status) ==>
               HeldStatus(t.table[j].status)
    ensures Exclusive(t, j)
  {
  }

  lemma ClaimKeepsExclusive(s: State, w: nat, k: JobId, j: JobId)
    requires Exclusive(s, j) && CanClaim(s, w, k)
    requires j in s.table ==> Known(s.table[j].operation)
    ensures Exclusive(AfterClaim(s, w, k), j)
  {
    var t := AfterClaim(s, w, k);
    assert forall v :: Holds(t, v, j) ==> Holds(s, v, j) || (v == w && k == j);
  }

  lemma WorkKeepsExclusive(s: State, w: nat, e: Effect, ok: bool, took: bool, text: string, j: JobId)
    requires Exclusive(s, j) && CanWork(s, w, e, ok, took)
    ensures Exclusive(AfterWork(s, w, e, ok, took, text), j)
  {
    var t := AfterWork(s, w, e, ok, took, text);
    assert BeforeFirstWrite(t.workers[w].pc) ==> BeforeFirstWrite(s.workers[w].pc) && !(took && e.WriteStatus?);
    assert forall v :: Holds(t, v, j) ==> Holds(s, v, j);
    // Only the holder itself writes anything but FAILED.
    assert took && e.WriteStatus? && e.status != Failed && s.workers[w].job == j ==> Holds(s, w, j);
  }

  lemma EndKeepsExclusive(s: State, r: nat, j: JobId)
    requires Exclusive(s, j) && CanEnd(s, r) && FreshStep(s, End(r), j)
    ensures Exclusive(AfterEnd(s, r), j)
  {
    var t := AfterEnd(s, r);
    assert forall w :: Holds(t, w, j) ==> Holds(s, w, j);
  }

  lemma PromoteKeepsExclusive(s: State, w: nat, next: Option<JobId>, j: JobId)
    requires Exclusive(s, j) && CanPromote(s, w, next)
    ensures Exclusive(AfterPromote(s, w, next), j)
  {
    var t := AfterPromote(s, w, next);
    assert forall v :: Holds(t, v, j) ==> Holds(s, v, j);
  }

  // Discards, unlocks, sweeps, recoveries, crashes and every worker step keep exclusion; so do fresh approvals.
  lemma StepKeepsExclusive(s: State, step: Step, j: JobId)
    requires Consistent(s) && Enabled(s, step)
    requires j in s.table ==> Known(s.table[j].operation)
    requires Exclusive(s, j) && FreshStep(s, step, j)
    ensures Exclusive(Perform(s, step), j)
  {
    match step
    case End(r) => EndKeepsExclusive(s, r, j);
    case Claim(w, k) => ClaimKeepsExclusive(s, w, k, j);
    case Work(w, e, ok, took, text) => WorkKeepsExclusive(s, w, e, ok, took, text, j);
    case Promote(w, next) => PromoteKeepsExclusive(s, w, next, j);
    case _ =>
      var t := Perform(s, step);
      assert forall w :: Holds(t, w, j) ==> Holds(s, w, j);
      ExclusiveAfter(s, t, j);
  }

  ghost predicate FreshRun(s: State, run: seq<Step>, j: JobId)
    requires Executes(s, run)
    decreases |run|
  {
    run == [] || (FreshStep(s, run[0], j) && FreshRun(Perform(s, run[0]), run[1..], j))
  }

  lemma {:induction false} FreshRunKeepsExclusive(s: State, run: seq<Step>, j: JobId)
    requires Consistent(s) && Exclusive(s, j) && Executes(s, run) && FreshRun(s, run, j)
    requires j in After(s, run).table ==> Known(After(s, run).table[j].operation)
    ensures Exclusive(After(s, run), j)
    decreases |run|
  {
    if run != [] {
      if j in s.table { RunFixesIdentity(s, run, j); }
      StepKeepsExclusive(s, run[0], j);
      StepKeepsConsistent(s, run[0]);
      FreshRunKeepsExclusive(Perform(s, run[0]), run[1..], j);
    }
  }

  // ---------- what one approval write does to exclusion ----------

  ghost predicate AtMostOneHolder(s: State, j: JobId) {
    forall v, w :: Holds(s, v, j) && Holds(s, w, j) ==> v == w
  }

  // An approval of a job nobody holds keeps it exclusive.
  lemma FreeApprovalKeepsExclusive(s: State, r: nat, j: JobId)
    requires Exclusive(s, j) && CanEnd(s, r) && s.requests[r] == Writing(Approve, j) && !exists w :: Holds(s, w, j)
    ensures Exclusive(AfterEnd(s, r), j)
  {
    var t := AfterEnd(s, r);
    assert forall w :: Holds(t, w, j) ==> Holds(s, w, j);
  }

  lemma {:induction false} NoWriteIsFresh(s: State, run: seq<Step>, j: JobId)
    requires Executes(s, run) && forall i :: 0 <= i < |run| ==> !run[i].End?
    ensures FreshRun(s, run, j)
    decreases |run|
  {
    if run != [] {
      assert !run[0].End?;
      NoWriteIsFresh(Perform(s, run[0]), run[1..], j);
    }
  }

  // Any worker can come to claim a claimable job, once its own run has ended.
  lemma CanComeToClaim(s: State, v: nat, j: JobId) returns (run: seq<Step>)
    requires v < |s.workers| && j in s.table && j in s.tally && Claimable(s.table[j].status)
    requires FitsJob(s, s.workers[v])
    ensures Executes(s, run) && After(s, run).workers == s.workers[v := Busy(j, Preparing(0))]
    ensures forall i :: 0 <= i < |run| ==> run[i].Work? || run[i].Promote? || run[i].Claim?
  {
    run := CanGoIdle(s, v);
    Prepend(After(s, run), Claim(v, j), []);
    RunsCompose(s, run, [Claim(v, j)]);
    run := run + [Claim(v, j)];
  }

  // An approval of a job that worker w holds lets any other worker, once its own run has ended, claim the job as well.
  lemma HeldApprovalIsClaimed(s: State, r: nat, j: JobId, w: nat, v: nat) returns (run: seq<Step>)
    requires Consistent(s) && CanEnd(s, r) && s.requests[r] == Writing(Approve, j) && Known(s.table[j].operation)
    requires Holds(s, w, j) && v < |s.workers| && v != w
    ensures var t := AfterEnd(s, r);
            Executes(t, run) && FreshRun(t, run, j) && !AtMostOneHolder(After(t, run), j)
    ensures forall i :: 0 <= i < |run| ==> run[i].Work? || run[i].Promote? || run[i].Claim?
  {
    var t := AfterEnd(s, r);
    run := CanComeToClaim(t, v, j);
    NoWriteIsFresh(t, run, j);
    assert Holds(After(t, run), w, j) && Holds(After(t, run), v, j);
  }

  // With two workers or more, an approval write keeps every continuation whose later approvals are fresh to at most one
  // holder of the job iff nobody holds the job when it lands.
  lemma ApprovalKeepsExclusionIff(s: State, r: nat, j: JobId)
    requires Consistent(s) && Exclusive(s, j) && |s.workers| >= 2
    requires CanEnd(s, r) && s.requests[r] == Writing(Approve, j) && Known(s.table[j].operation)
    ensures var t := AfterEnd(s, r);
            (forall run :: Executes(t, run) && FreshRun(t, run, j) ==> AtMostOneHolder(After(t, run), j))
            <==> !exists w :: Holds(s, w, j)
  {
    var t := AfterEnd(s, r);
    if w :| Holds(s, w, j) {
      var run := HeldApprovalIsClaimed(s, r, j, w, if w == 0 then 1 else 0);
    } else {
      FreeApprovalKeepsExclusive(s, r, j);
      EndKeepsConsistent(s, r);
      forall run | Executes(t, run) && FreshRun(t, run, j) ensures AtMostOneHolder(After(t, run), j) {
        RunFixesIdentity(t, run, j);
        FreshRunKeepsExclusive(t, run, j);
      }
    }
  }

  // ---------- approvals whose read and write act as one step ----------

  predicate OpensApproval(step: Step, j: JobId) {
    step.Begin? && step.kind.Approve? && step.job == j
  }

  predicate AtomicApprovals(run: seq<Step>, j: JobId) {
    forall i :: 0 <= i < |run| && OpensApproval(run[i], j) ==> i + 1 < |run| && run[i + 1] == End(run[i].r)
  }

  ghost predicate NoPendingApproval(s: State, j: JobId) {
    forall r :: r in s.requests ==> s.requests[r] != Writing(Approve, j)
  }

  lemma {:induction false} AtomicApprovalsAreFresh(s: State, run: seq<Step>, j: JobId)
    requires Executes(s, run) && AtomicApprovals(run, j) && NoPendingApproval(s, j)
    ensures FreshRun(s, run, j)
    decreases |run|
  {
    if run == [] {
    } else if OpensApproval(run[0], j) {
      assert run[1] == End(run[0].r);
      var t := Perform(s, run[0]);
      assert run[1..][0] == run[1] && run[1..][1..] == run[2..];
      forall i | 0 <= i < |run[2..]| && OpensApproval(run[2..][i], j)
        ensures i + 1 < |run[2..]| && run[2..][i + 1] == End(run[2..][i].r)
      {
        assert run[2..][i] == run[i + 2];
      }
      AtomicApprovalsAreFresh(Perform(t, run[1]), run[2..], j);
    } else {
      forall i | 0 <= i < |run[1..]| && OpensApproval(run[1..][i], j)
        ensures i + 1 < |run[1..]| && run[1..][i + 1] == End(run[1..][i].r)
      {
        assert run[1..][i] == run[i + 1];
      }
      AtomicApprovalsAreFresh(Perform(s, run[0]), run[1..], j);
    }
  }

  // Mutual exclusion over whole runs of a job with a known operation.
  lemma AtomicApprovalsExclude(pool: nat, timeout: int, start: Time, run: seq<Step>, j: JobId, v: nat, w: nat)
    requires Executes(Init(pool, timeout, start), run) && AtomicApprovals(run, j)
    requires var s := After(Init(pool, timeout, start), run);
             j in s.table && Known(s.table[j].operation) && Holds(s, v, j) && Holds(s, w, j)
    ensures v == w
  {
    var s := Init(pool, timeout, start);
    InitConsistent(pool, timeout, start);
    AtomicApprovalsAreFresh(s, run, j);
    FreshRunKeepsExclusive(s, run, j);
  }

  // ---------- two stale approvals ----------

  // An approval write revives the job whatever its status has become, and a free worker can claim it.
  lemma ApproveThenClaim(s: State, j: JobId, r: nat, w: nat)
    requires j in s.table && j in s.tally && r in s.requests && s.requests[r] == Writing(Approve, j)
    requires w < |s.workers| && s.workers[w].Idle?
    ensures Executes(s, [End(r), Claim(w, j)])
    ensures var t := After(s, [End(r), Claim(w, j)]);
            && j in t.table && j in t.tally && t.workers == s.workers[w := Busy(j, Preparing(0))]
            && t.requests == s.requests - {r}
  {
    var s1 := AfterEnd(s, r);
    Prepend(s1, Claim(w, j), []);
    Prepend(s, End(r), [Claim(w, j)]);
  }

  // Whenever a job is PLANNED and two workers are free, two overlapping approvals end with both running it.
  lemma StaleApprovalBreaksExclusion(s: State, j: JobId, q: nat, r: nat, v: nat, w: nat)
    requires Reachable(s) && j in s.table && s.table[j].status.Planned?
    requires q != r && q !in s.requests && r !in s.requests
    requires v != w && v < |s.workers| && w < |s.workers| && s.workers[v].Idle? && s.workers[w].Idle?
    ensures var run := [Begin(q, Approve, j), Begin(r, Approve, j)] + ([End(q), Claim(v, j)] + [End(r), Claim(w, j)]);
            Executes(s, run) && Holds(After(s, run), v, j) && Holds(After(s, run), w, j)
  {
    ReachableIsConsistent(s);
    var s1 := s.(requests := s.requests[q := Writing(Approve, j)]);
    var s2 := s1.(requests := s1.requests[r := Writing(Approve, j)]);
    Prepend(s1, Begin(r, Approve, j), []);
    Prepend(s, Begin(q, Approve, j), [Begin(r, Approve, j)]);
    ApproveThenClaim(s2, j, q, v);
    ApproveThenClaim(After(s2, [End(q), Claim(v, j)]), j, r, w);
    RunsCompose(s2, [End(q), Claim(v, j)], [End(r), Claim(w, j)]);
    RunsCompose(s, [Begin(q, Approve, j), Begin(r, Approve, j)], [End(q), Claim(v, j)] + [End(r), Claim(w, j)]);
  }
}
