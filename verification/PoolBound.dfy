/** A job whose operation is unknown keeps its status when claimed, so every worker of the pool may claim it;
    within one life of the pool it is claimed no more often than the pool has workers. */
module PoolBound {
  import opened Jobs
  import opened Execution
  import opened Orchestrator
  import opened Safety
  import opened Counting

  function Crew(s: State, j: JobId): set<nat> {
    set w: nat | w < |s.workers| && Works(s.workers[w], j)
  }

  // No worker dies and every status write a worker attempts reaches the table.
  predicate SoundStep(step: Step) {
    && !step.Vanish?
    && (step.Work? && step.e.WriteStatus? ==> step.took)
  }

  ghost predicate SoundRun(run: seq<Step>) {
    forall i :: 0 <= i < |run| ==> SoundStep(run[i])
  }

  // Claims of j beyond the `base` it had when this life of the pool began.
  ghost predicate PoolInvariant(s: State, j: JobId, base: nat) {
    j in s.table && j in s.tally ==>
      && (Waiting(s.table[j].status) ==> s.tally[j].claims == base + |Crew(s, j)|)
      && (Waiting(s.table[j].status) ==> forall w :: w in Crew(s, j) ==> !s.workers[w].pc.Closing?)
      && s.tally[j].claims <= base + |s.workers|
  }

  lemma CrewSize(s: State, j: JobId)
    ensures |Crew(s, j)| <= |s.workers|
    ensures forall w: nat :: w < |s.workers| && !Works(s.workers[w], j) ==> |Crew(s, j)| < |s.workers|
  {
    SubsetSize(Crew(s, j), Below(|s.workers|));
    forall w: nat | w < |s.workers| && !Works(s.workers[w], j) ensures |Crew(s, j)| < |s.workers| {
      SubsetSize(Crew(s, j), Below(|s.workers|) - {w});
    }
  }

  lemma ClaimKeepsPool(s: State, w: nat, k: JobId, j: JobId, base: nat)
    requires Consistent(s) && PoolInvariant(s, j, base) && CanClaim(s, w, k)
    requires j in s.table ==> !Known(s.table[j].operation)
    ensures PoolInvariant(AfterClaim(s, w, k), j, base)
  {
    var t := AfterClaim(s, w, k);
    if k == j {
      CrewSize(s, j);
      assert Crew(t, j) == Crew(s, j) + {w};
    } else {
      assert Crew(t, j) == Crew(s, j);
    }
  }

  // A run of an unknown operation writes FAILED and nothing else, and closes only by writing it.
  lemma UnknownRunsFail(op: Operation, pc: Pc, e: Effect, ok: bool, took: bool)
    requires !Known(op) && PcFits(op, pc) && Next(op, pc, e, ok, took).Some?
    ensures e.WriteStatus? ==> e.status == Failed
    ensures Next(op, pc, e, ok, took).value.Closing? ==> pc.Closing? || e.WriteStatus?
  {
  }

  lemma WorkKeepsPool(s: State, w: nat, e: Effect, ok: bool, took: bool, text: string, j: JobId, base: nat)
    requires Consistent(s) && PoolInvariant(s, j, base) && CanWork(s, w, e, ok, took)
    requires j in s.table ==> !Known(s.table[j].operation)
    requires e.WriteStatus? ==> took
    ensures PoolInvariant(AfterWork(s, w, e, ok, took, text), j, base)
  {
    var t := AfterWork(s, w, e, ok, took, text);
    assert Crew(t, j) == Crew(s, j);
    if s.workers[w].job == j {
      UnknownRunsFail(s.table[j].operation, s.workers[w].pc, e, ok, took);
      assert w in Crew(s, j);
    }
  }

  lemma PromoteKeepsPool(s: State, w: nat, next: Option<JobId>, j: JobId, base: nat)
    requires Consistent(s) && PoolInvariant(s, j, base) && CanPromote(s, w, next)
    ensures PoolInvariant(AfterPromote(s, w, next), j, base)
  {
    var t := AfterPromote(s, w, next);
    if s.workers[w].job == j {
      assert w in Crew(s, j);
    } else {
      assert Crew(t, j) == Crew(s, j);
    }
  }

  lemma EndKeepsPool(s: State, r: nat, j: JobId, base: nat)
    requires Consistent(s) && PoolInvariant(s, j, base) && CanEnd(s, r)
    requires j in s.table ==> !Known(s.table[j].operation)
    ensures PoolInvariant(AfterEnd(s, r), j, base)
  {
    assert Crew(AfterEnd(s, r), j) == Crew(s, j);
    if s.requests[r].job == j {
      assert IntentOk(s.requests[r].kind, j, s.table[j], s.objects);
    }
  }

  lemma CreateKeepsPool(s: State, r: nat, id: JobId, j: JobId, base: nat)
    requires Consistent(s) && PoolInvariant(s, j, base) && CanCreate(s, r, id)
    requires j !in s.table ==> base == 0
    ensures PoolInvariant(AfterCreate(s, r, id), j, base)
  {
    assert Crew(AfterCreate(s, r, id), j) == Crew(s, j);
    if id == j {
      assert Crew(s, j) == {};
    }
  }

  // Steps that leave the workers alone and make no job claimable.
  lemma OtherStepKeepsPool(s: State, step: Step, j: JobId, base: nat)
    requires PoolInvariant(s, j, base) && Enabled(s, step)
    requires !step.Claim? && !step.Work? && !step.Promote? && !step.End? && !step.EndCreate? && !step.Vanish?
    ensures PoolInvariant(Perform(s, step), j, base)
  {
    assert Crew(Perform(s, step), j) == Crew(s, j);
  }

  lemma StepKeepsPool(s: State, step: Step, j: JobId, base: nat)
    requires Consistent(s) && PoolInvariant(s, j, base) && Enabled(s, step) && SoundStep(step)
    requires j in s.table ==> !Known(s.table[j].operation)
    requires j !in s.table ==> base == 0
    ensures PoolInvariant(Perform(s, step), j, base)
  {
    match step
    case Claim(w, k) => ClaimKeepsPool(s, w, k, j, base);
    case Work(w, e, ok, took, text) => WorkKeepsPool(s, w, e, ok, took, text, j, base);
    case Promote(w, next) => PromoteKeepsPool(s, w, next, j, base);
    case End(r) => EndKeepsPool(s, r, j, base);
    case EndCreate(r, id) => CreateKeepsPool(s, r, id, j, base);
    case Vanish(_) =>
    case _ => OtherStepKeepsPool(s, step, j, base);
  }

  lemma {:induction false} SoundRunKeepsPool(s: State, run: seq<Step>, j: JobId, base: nat)
    requires Consistent(s) && PoolInvariant(s, j, base) && Executes(s, run) && SoundRun(run)
    requires j in After(s, run).table ==> !Known(After(s, run).table[j].operation)
    requires j !in s.table ==> base == 0
    ensures PoolInvariant(After(s, run), j, base) && |After(s, run).workers| == |s.workers|
    decreases |run|
  {
    if run != [] {
      if j in s.table { RunFixesIdentity(s, run, j); }
      assert SoundStep(run[0]);
      StepKeepsPool(s, run[0], j, base);
      StepKeepsConsistent(s, run[0]);
      SoundRunKeepsPool(Perform(s, run[0]), run[1..], j, if j in Perform(s, run[0]).table then base else 0);
    }
  }

  // One life of the pool: it starts with every worker idle, none dies, and every status write succeeds.
  // In that life a job of unknown operation is claimed no more often than the pool has workers.
  lemma UnknownClaimsBoundedByPool(s: State, run: seq<Step>, j: JobId)
    requires Reachable(s) && Executes(s, run) && SoundRun(run)
    requires forall w :: 0 <= w < |s.workers| ==> s.workers[w].Idle?
    requires j in After(s, run).table && !Known(After(s, run).table[j].operation)
    ensures j in After(s, run).tally
    ensures After(s, run).tally[j].claims <= (if j in s.tally then s.tally[j].claims else 0) + |s.workers|
  {
    ReachableIsConsistent(s);
    RunKeepsConsistent(s, run);
    assert Crew(s, j) == {};
    SoundRunKeepsPool(s, run, j, if j in s.tally then s.tally[j].claims else 0);
  }
}
