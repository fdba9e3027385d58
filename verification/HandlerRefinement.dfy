/** A handler's read and its write as two steps of the transition system, with any run of everybody else in between. */
module HandlerRefinement {
  import opened Jobs
  import opened Queue
  import opened Execution
  import opened Orchestrator
  import opened Safety

  // The steps that end request r.
  predicate Resolves(step: Step, r: nat) {
    step == End(r) || step == Drop(r) || (step.EndCreate? && step.r == r)
  }

  predicate LeavesPending(run: seq<Step>, r: nat) {
    forall i :: 0 <= i < |run| ==> !Resolves(run[i], r)
  }

  lemma StepLeavesRequest(s: State, step: Step, r: nat)
    requires Enabled(s, step) && r in s.requests && !Resolves(step, r)
    ensures r in Perform(s, step).requests && Perform(s, step).requests[r] == s.requests[r]
  {
  }

  lemma {:induction false} RequestWaits(s: State, run: seq<Step>, r: nat)
    requires Executes(s, run) && r in s.requests && LeavesPending(run, r)
    ensures r in After(s, run).requests && After(s, run).requests[r] == s.requests[r]
    decreases |run|
  {
    if run != [] {
      StepLeavesRequest(s, run[0], r);
      RequestWaits(Perform(s, run[0]), run[1..], r);
    }
  }

  lemma {:induction false} DroppedNeverWrites(s: State, run: seq<Step>, r: nat)
    requires Executes(s, run) && r !in s.requests
    requires forall i :: 0 <= i < |run| ==> !(run[i].BeginCreate? && run[i].r == r) && !(run[i].Begin? && run[i].r == r)
    ensures r !in After(s, run).requests && End(r) !in run && Drop(r) !in run
    ensures forall i :: 0 <= i < |run| ==> !(run[i].EndCreate? && run[i].r == r)
    decreases |run|
  {
    if run != [] {
      assert run == [run[0]] + run[1..];
      StepBeginsNothing(s, run[0], r);
      DroppedNeverWrites(Perform(s, run[0]), run[1..], r);
    }
  }

  lemma StepBeginsNothing(s: State, step: Step, r: nat)
    requires Enabled(s, step) && r !in s.requests
    requires !(step.BeginCreate? && step.r == r) && !(step.Begin? && step.r == r)
    ensures r !in Perform(s, step).requests && !Resolves(step, r)
  {
  }

  // A request that fails, or whose process dies, before its write never writes: until its number is used again there is
  // nothing left that could.
  lemma DropGivesUp(s: State, r: nat, run: seq<Step>)
    requires Enabled(s, Drop(r)) && Executes(Perform(s, Drop(r)), run)
    requires forall i :: 0 <= i < |run| ==> !(run[i].BeginCreate? && run[i].r == r) && !(run[i].Begin? && run[i].r == r)
    ensures Perform(s, Drop(r)).table == s.table && LeavesPending(run, r)
  {
    DroppedNeverWrites(Perform(s, Drop(r)), run, r);
    forall i | 0 <= i < |run| ensures !Resolves(run[i], r) {
      assert run[i] in run;
    }
  }

  // Which statuses each actor goes on from, and a worker claims.
  lemma BeginsIff(s: State, r: nat, w: nat, j: JobId)
    requires r !in s.requests && w < |s.workers| && s.workers[w].Idle? && j in s.table && j in s.tally
    ensures Enabled(s, Begin(r, Approve, j)) <==> s.table[j].status == Planned
    ensures Enabled(s, Begin(r, Discard, j)) <==> s.table[j].status !in {Applying, Applied, Failed, Cancelled}
    ensures Enabled(s, Begin(r, Unlock, j)) <==>
              s.table[j].status in {PendingPlan, Planning, Planned, Approved, Applying}
    ensures Enabled(s, Begin(r, Recover, j)) <==> s.table[j].status in {Planning, Applying, Destroying}
    ensures Enabled(s, Claim(w, j)) <==> s.table[j].status in {PendingPlan, Approved}
  {
  }

  // An approval, discard, unlock or recovery that read a status it accepts can always write, whatever has happened
  // since, and its write replaces whatever status the job shows by then. This is what the handlers' contracts say of
  // the table, with `meanwhile` the run in between.
  lemma WriteLandsOnWhateverIsThere(s: State, r: nat, kind: Kind, j: JobId, run: seq<Step>)
    requires Consistent(s) && Enabled(s, Begin(r, kind, j))
    requires Executes(Perform(s, Begin(r, kind, j)), run) && LeavesPending(run, r)
    ensures var t := After(Perform(s, Begin(r, kind, j)), run);
            && Enabled(t, End(r)) && j in t.table
            && Perform(t, End(r)).table == t.table[j := t.table[j].(status := match kind
                                                                              case Approve => Approved
                                                                              case Discard => Cancelled
                                                                              case Unlock => Cancelled
                                                                              case Recover => Failed)]
  {
    var s1 := Perform(s, Begin(r, kind, j));
    StepKeepsConsistent(s, Begin(r, kind, j));
    RunKeepsConsistent(s1, run);
    RequestWaits(s1, run, r);
    RunFixesIdentity(s1, run, j);
  }

  // A creation inserts with the status its read called for, whether or not the project is still as it was read.
  lemma InsertGoesByTheRead(s: State, r: nat, p: ProjectId, op: Operation, hooks: Hooks, run: seq<Step>, id: JobId)
    requires Enabled(s, BeginCreate(r, p, op, hooks))
    requires Executes(Perform(s, BeginCreate(r, p, op, hooks)), run) && LeavesPending(run, r)
    requires id !in After(Perform(s, BeginCreate(r, p, op, hooks)), run).table
    ensures var t := After(Perform(s, BeginCreate(r, p, op, hooks)), run);
            var active := exists j :: j in s.table && s.table[j].project == p
                                      && s.table[j].status !in {Applied, Destroyed, Failed, Cancelled};
            && Enabled(t, EndCreate(r, id))
            && Perform(t, EndCreate(r, id)).table
               == t.table[id := Job(p, op, hooks, if active then Queued else PendingPlan, t.now, None, None)]
  {
    RequestWaits(Perform(s, BeginCreate(r, p, op, hooks)), run, r);
    assert ProjectActive(s.table, p)
       <==> exists j :: j in s.table && s.table[j].project == p
                        && s.table[j].status !in {Applied, Destroyed, Failed, Cancelled};
  }

  // What a worker's writes do when they reach the table or the object store; nothing else it does changes either.
  lemma WorkWrites(s: State, w: nat, e: Effect, ok: bool, text: string)
    requires CanWork(s, w, e, ok, true)
    ensures var j, t := s.workers[w].job, AfterWork(s, w, e, ok, true, text);
            && t.table == (match e
                           case RecordPlan => WithPlanResult(s.table, j, PlanFile(j), text)
                           case RecordSummary => WithSummary(s.table, j, text)
                           case WriteStatus(st) => WithStatus(s.table, j, st)
                           case _ => s.table)
            && t.objects == (match e
                             case UploadPlan => s.objects + {PlanFile(j)}
                             case UploadLog => s.objects + {RunLog(j)}
                             case _ => s.objects)
    ensures !ok ==> AfterWork(s, w, e, false, false, text).table == s.table
    ensures !ok ==> AfterWork(s, w, e, false, false, text).objects == s.objects
  {
  }
}
