/** The safety results are not empty: from the very start, every operation can be carried through to its success. */
module Witness {
  import opened Jobs
  import opened Execution
  import opened Script
  import opened Orchestrator
  import opened RunRefinement
  import opened Safety

  // A request on an idle project, somebody's upload of a plan file, and a claim.
  function Opening(p: ProjectId, op: Operation, hooks: Hooks, j: JobId): seq<Step> {
    [BeginCreate(0, p, op, hooks), EndCreate(0, j), Store(PlanFile(j)), Claim(0, j)]
  }

  lemma OpeningExecutes(pool: nat, timeout: int, start: Time, p: ProjectId, op: Operation, hooks: Hooks, j: JobId)
    requires pool > 0
    ensures var s, run := Init(pool, timeout, start), Opening(p, op, hooks, j);
            && |s.workers| == pool && Executes(s, run)
            && After(s, run).workers == s.workers[0 := Busy(j, Preparing(0))]
            && j in After(s, run).table && j in After(s, run).tally && After(s, run).table[j].operation == op
            && After(s, run).table[j].hooks == hooks
            && PlanFile(j) in After(s, run).objects
  {
    var s0 := Init(pool, timeout, start);
    var s1 := Perform(s0, BeginCreate(0, p, op, hooks));
    var s2 := Perform(s1, EndCreate(0, j));
    var s3 := Perform(s2, Store(PlanFile(j)));
    Prepend(s3, Claim(0, j), []);
    Prepend(s2, Store(PlanFile(j)), [Claim(0, j)]);
    Prepend(s1, EndCreate(0, j), [Store(PlanFile(j)), Claim(0, j)]);
    Prepend(s0, BeginCreate(0, p, op, hooks), [EndCreate(0, j), Store(PlanFile(j)), Claim(0, j)]);
  }

  // A call of processJob in which every call returns nil and something is logged.
  function FlawlessRun(op: Operation, hooks: Hooks, w: nat): seq<Step> {
    Steps(w, Calls(FullScript(op, hooks) + [JoinReader], false, true), AllReturn, 0) + [Promote(w, None)]
  }

  lemma FlawlessIsExecuted(op: Operation, hooks: Hooks)
    requires Known(op)
    ensures Executed(FullScript(op, hooks), AllReturn, FullScript(op, hooks) + [JoinReader], None)
  {
    var full := FullScript(op, hooks);
    var made := full + [JoinReader];
    var before := FullWritesOnce(op, hooks);
    forall i: nat | i < |full| ensures Returns(full[i], AllReturn, i) {
      if i < |before| { assert full[i] == before[i] && before[i] in before; }
    }
    assert made[..|made| - 1] == full && full[..|full|] == full;
    assert Follows(full, AllReturn, 0, full, None);
    assert Joined(full, AllReturn, made, None, None);
  }

  // Plans and destroys can reach PLANNED, applies APPLIED, and then `terraform apply` was started: a request, a claim,
  // and then exactly the calls of processJob, each returning nil.
  lemma EveryOperationCanSucceed(pool: nat, timeout: int, start: Time, p: ProjectId, op: Operation, hooks: Hooks,
                                 j: JobId)
    requires pool > 0 && Known(op)
    ensures var s, run := Init(pool, timeout, start), Opening(p, op, hooks, j) + FlawlessRun(op, hooks, 0);
            && Executes(s, run) && Reachable(After(s, run))
            && j in After(s, run).table && After(s, run).table[j].status == Success(op)
            && (op.Apply? ==> j in After(s, run).tally && After(s, run).tally[j].applies == 1)
  {
    var s, opening := Init(pool, timeout, start), Opening(p, op, hooks, j);
    OpeningExecutes(pool, timeout, start, p, op, hooks, j);
    FlawlessIsExecuted(op, hooks);
    var execution := FullScript(op, hooks) + [JoinReader];
    var rest := ProcessJobIsARun(After(s, opening), 0, j, AllReturn, true, execution, None);
    RunsCompose(s, opening, rest);
    if op.Apply? { AppliedWasApplied(After(s, opening + rest), j); }
  }
}
