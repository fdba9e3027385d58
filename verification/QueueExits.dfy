/** Where the jobs that left the queue without being promoted stay: discarded ones CANCELLED, overdue ones FAILED unless
    a discard that had read QUEUED still lands. */
module QueueExits {
  import opened Jobs
  import opened Orchestrator
  import opened Safety

  // Over and done with: nobody works on the job, and only discards of it may be pending.
  ghost predicate Out(s: State, j: JobId) {
    && j in s.table && (s.table[j].status.Failed? || s.table[j].status.Cancelled?)
    && (forall w :: 0 <= w < |s.workers| ==> !Works(s.workers[w], j))
    && (forall r :: r in s.requests && s.requests[r].Writing? && s.requests[r].job == j ==> s.requests[r].kind.Discard?)
  }

  lemma StepKeepsOut(s: State, step: Step, j: JobId)
    requires Out(s, j) && Enabled(s, step)
    ensures Out(Perform(s, step), j)
    ensures s.table[j].status.Cancelled? ==> Perform(s, step).table[j].status.Cancelled?
  {
    match step
    case Work(w, e, ok, took, text) => assert s.workers[w].job != j;
    case _ =>
  }

  lemma {:induction false} RunKeepsOut(s: State, run: seq<Step>, j: JobId)
    requires Out(s, j) && Executes(s, run)
    ensures Out(After(s, run), j)
    ensures s.table[j].status.Cancelled? ==> After(s, run).table[j].status.Cancelled?
    decreases |run|
  {
    if run != [] {
      StepKeepsOut(s, run[0], j);
      RunKeepsOut(Perform(s, run[0]), run[1..], j);
    }
  }

  ghost predicate Accounted(s: State) {
    && (forall j :: j in s.ledger.withdrawn ==> Out(s, j) && s.table[j].status.Cancelled?)
    && (forall j :: j in s.ledger.expired ==> Out(s, j))
  }

  // A queued job has no worker and no pending write but discards.
  lemma QueuedIsFree(s: State, j: JobId)
    requires Consistent(s) && j in s.table && s.table[j].status.Queued?
    ensures forall w :: 0 <= w < |s.workers| ==> !Works(s.workers[w], j)
    ensures forall r :: r in s.requests && s.requests[r].Writing? && s.requests[r].job == j ==>
              s.requests[r].kind.Discard?
  {
    forall w | 0 <= w < |s.workers| ensures !Works(s.workers[w], j) {
      assert Works(s.workers[w], j) ==> RunOk(j, s.workers[w].pc, s.table[j], s.tally[j], s.objects);
    }
    forall r | r in s.requests && s.requests[r].Writing? && s.requests[r].job == j ensures s.requests[r].kind.Discard? {
      assert IntentOk(s.requests[r].kind, j, s.table[j], s.objects);
    }
  }

  lemma EndKeepsAccounted(s: State, r: nat)
    requires Consistent(s) && Accounted(s) && CanEnd(s, r)
    ensures Accounted(AfterEnd(s, r))
  {
    var t, j := AfterEnd(s, r), s.requests[r].job;
    if s.table[j].status.Queued? { QueuedIsFree(s, j); }
    forall k | k in t.ledger.withdrawn ensures Out(t, k) && t.table[k].status.Cancelled? {
      if k in s.ledger.withdrawn { StepKeepsOut(s, End(r), k); }
    }
    forall k | k in t.ledger.expired ensures Out(t, k) { StepKeepsOut(s, End(r), k); }
  }

  lemma SweepKeepsAccounted(s: State, at: Time)
    requires Enabled(s, Sweep(at))
    requires Consistent(s) && Accounted(s)
    ensures Accounted(AfterSweep(s, at))
  {
    var t := AfterSweep(s, at);
    forall k | k in t.ledger.withdrawn ensures Out(t, k) && t.table[k].status.Cancelled? {
      StepKeepsOut(s, Sweep(at), k);
    }
    forall k | k in t.ledger.expired ensures Out(t, k) {
      if k in s.ledger.expired { StepKeepsOut(s, Sweep(at), k); } else { QueuedIsFree(s, k); }
    }
  }

  lemma OtherStepKeepsAccounted(s: State, step: Step)
    requires Accounted(s) && Enabled(s, step) && !step.End? && !step.Sweep?
    ensures Accounted(Perform(s, step))
  {
    var t := Perform(s, step);
    assert t.ledger.withdrawn == s.ledger.withdrawn && t.ledger.expired == s.ledger.expired;
    forall k | k in s.ledger.withdrawn ensures Out(t, k) && t.table[k].status.Cancelled? { StepKeepsOut(s, step, k); }
    forall k | k in s.ledger.expired ensures Out(t, k) { StepKeepsOut(s, step, k); }
  }

  lemma {:induction false} RunKeepsAccounted(s: State, run: seq<Step>)
    requires Consistent(s) && Accounted(s) && Executes(s, run)
    ensures Accounted(After(s, run))
    decreases |run|
  {
    if run != [] {
      match run[0] {
        case End(r) => EndKeepsAccounted(s, r);
        case Sweep(at) => SweepKeepsAccounted(s, at);
        case _ => OtherStepKeepsAccounted(s, run[0]);
      }
      StepKeepsConsistent(s, run[0]);
      RunKeepsAccounted(Perform(s, run[0]), run[1..]);
    }
  }

  // A job cancelled while QUEUED shows CANCELLED for good; one that timed out shows FAILED or CANCELLED for good.
  lemma QueueExitsAreFinal(s: State, run: seq<Step>, j: JobId)
    requires Reachable(s) && Executes(s, run) && (j in s.ledger.withdrawn || j in s.ledger.expired)
    ensures var t := After(s, run);
            && j in t.table && (t.table[j].status.Failed? || t.table[j].status.Cancelled?)
            && (j in s.ledger.withdrawn ==> t.table[j].status.Cancelled?)
  {
    var pool: nat, timeout: int, start: Time, history: seq<Step> :|
      Executes(Init(pool, timeout, start), history) && s == After(Init(pool, timeout, start), history);
    InitConsistent(pool, timeout, start);
    RunKeepsAccounted(Init(pool, timeout, start), history);
    RunKeepsOut(s, run, j);
  }
}
