/** No run of the program uploads the plan file an apply job downloads: plan and destroy runs upload under their own
    job id. Until somebody else does, an apply job gets nowhere. */
module OutsidePlan {
  import opened Jobs
  import opened Execution
  import opened Orchestrator
  import opened Safety

  // The plan file of j has not appeared, and no worker on j has got past the download.
  ghost predicate Stuck(s: State, j: JobId) {
    && PlanFile(j) !in s.objects
    && (j in s.tally ==> s.tally[j].applies == 0)
    && forall w :: 0 <= w < |s.workers| && Works(s.workers[w], j) ==>
         s.workers[w].pc.Preparing? || s.workers[w].pc.Failing? || s.workers[w].pc.Closing?
  }

  lemma WorkKeepsStuck(s: State, w: nat, e: Effect, ok: bool, took: bool, text: string, j: JobId)
    requires Stuck(s, j) && CanWork(s, w, e, ok, took)
    requires j in s.table ==> s.table[j].operation.Apply?
    ensures Stuck(AfterWork(s, w, e, ok, took, text), j)
  {
    var t := AfterWork(s, w, e, ok, took, text);
    forall v | 0 <= v < |t.workers| && v != w ensures t.workers[v] == s.workers[v] {}
  }

  lemma OtherStepKeepsStuck(s: State, step: Step, j: JobId)
    requires Stuck(s, j) && Enabled(s, step) && step != Store(PlanFile(j)) && !step.Work?
    ensures Stuck(Perform(s, step), j)
  {
  }

  lemma StepKeepsStuck(s: State, step: Step, j: JobId)
    requires Stuck(s, j) && Enabled(s, step) && step != Store(PlanFile(j))
    requires j in Perform(s, step).table ==> Perform(s, step).table[j].operation.Apply?
    ensures Stuck(Perform(s, step), j)
  {
    if j in s.table { IdentityIsFixed(s, step, j); }
    match step
    case Work(w, e, ok, took, text) => WorkKeepsStuck(s, w, e, ok, took, text, j);
    case _ => OtherStepKeepsStuck(s, step, j);
  }

  lemma {:induction false} RunKeepsStuck(s: State, run: seq<Step>, j: JobId)
    requires Stuck(s, j) && Executes(s, run) && Store(PlanFile(j)) !in run
    requires j in After(s, run).table ==> After(s, run).table[j].operation.Apply?
    ensures Stuck(After(s, run), j)
    decreases |run|
  {
    if run != [] {
      var t := Perform(s, run[0]);
      assert run[0] in run && run == [run[0]] + run[1..];
      if j in t.table { RunFixesIdentity(t, run[1..], j); }
      StepKeepsStuck(s, run[0], j);
      RunKeepsStuck(t, run[1..], j);
    }
  }

  // Unless something outside the program uploads its plan file, an apply job never runs terraform and is never APPLIED.
  lemma ApplyNeedsOutsidePlan(pool: nat, timeout: int, start: Time, run: seq<Step>, j: JobId)
    requires Executes(Init(pool, timeout, start), run)
    requires j in After(Init(pool, timeout, start), run).table
    requires After(Init(pool, timeout, start), run).table[j].operation.Apply?
    ensures var t := After(Init(pool, timeout, start), run);
            t.table[j].status.Applied? || (j in t.tally && t.tally[j].applies > 0) ==> Store(PlanFile(j)) in run
  {
    var s := Init(pool, timeout, start);
    InitConsistent(pool, timeout, start);
    RunKeepsConsistent(s, run);
    if Store(PlanFile(j)) !in run {
      RunKeepsStuck(s, run, j);
      assert RowOk(j, After(s, run).table[j], After(s, run).tally[j], After(s, run).objects);
    }
  }
}
