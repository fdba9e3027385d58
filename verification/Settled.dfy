/** When a terminal status is final. The tests promise that a job cancelled while it runs stays CANCELLED; it does
    so exactly when no worker and no pending request can still write something else. */
module Settled {
  import opened Jobs
  import opened Queue
  import opened Execution
  import opened Orchestrator
  import opened RunRefinement
  import opened Script
  import opened Safety

  predicate Ended(st: Status) {
    st.Applied? || st.Failed? || st.Cancelled?
  }

  // Could a worker at pc still write status st?
  predicate MayWrite(op: Operation, pc: Pc, st: Status) {
    && !pc.Closing?
    && (st == Failed || (Known(op) && !pc.Stored? && !pc.Failing? && st == Success(op)))
  }

  ghost predicate IsSettled(s: State, j: JobId) {
    && j in s.table && Ended(s.table[j].status)
    && (forall w, st ::
          0 <= w < |s.workers| && Works(s.workers[w], j) && MayWrite(s.table[j].operation, s.workers[w].pc, st)
          ==> st == s.table[j].status)
    && (forall r :: r in s.requests && s.requests[r].Writing? && s.requests[r].job == j
          ==> Writes(s.requests[r].kind) == s.table[j].status)
  }

  ghost predicate AlwaysShows(s: State, j: JobId, st: Status) {
    forall run :: Executes(s, run) ==> j in After(s, run).table && After(s, run).table[j].status == st
  }

  // ---------- settled implies final ----------

  lemma WorkMayWrite(op: Operation, pc: Pc, e: Effect, ok: bool, took: bool)
    requires Next(op, pc, e, ok, took).Some? && PcFits(op, pc)
    ensures e.WriteStatus? ==> MayWrite(op, pc, e.status)
    ensures forall st :: MayWrite(op, Next(op, pc, e, ok, took).value, st) ==> MayWrite(op, pc, st)
  {
  }

  lemma WorkKeepsSettled(s: State, w: nat, e: Effect, ok: bool, took: bool, text: string, j: JobId)
    requires Consistent(s) && IsSettled(s, j) && CanWork(s, w, e, ok, took)
    ensures var t := AfterWork(s, w, e, ok, took, text); IsSettled(t, j) && t.table[j].status == s.table[j].status
  {
    var t := AfterWork(s, w, e, ok, took, text);
    WorkMayWrite(s.table[s.workers[w].job].operation, s.workers[w].pc, e, ok, took);
    assert t.table[j].operation == s.table[j].operation && t.table[j].status == s.table[j].status;
  }

  lemma EndKeepsSettled(s: State, r: nat, j: JobId)
    requires IsSettled(s, j) && CanEnd(s, r)
    ensures IsSettled(AfterEnd(s, r), j) && AfterEnd(s, r).table[j].status == s.table[j].status
  {
  }

  lemma StepKeepsSettled(s: State, step: Step, j: JobId)
    requires Consistent(s) && IsSettled(s, j) && Enabled(s, step)
    ensures IsSettled(Perform(s, step), j) && Perform(s, step).table[j].status == s.table[j].status
  {
    match step
    case Work(w, e, ok, took, text) => WorkKeepsSettled(s, w, e, ok, took, text, j);
    case End(r) => EndKeepsSettled(s, r, j);
    case Claim(w, k) => assert k != j;
    case Begin(r, kind, k) => assert k != j;
    case Promote(w, next) => assert next.Some? ==> next.value != j;
    case _ =>
  }

  lemma {:induction false} RunKeepsSettled(s: State, run: seq<Step>, j: JobId)
    requires Consistent(s) && IsSettled(s, j) && Executes(s, run)
    ensures IsSettled(After(s, run), j) && After(s, run).table[j].status == s.table[j].status
    decreases |run|
  {
    if run != [] {
      StepKeepsSettled(s, run[0], j);
      StepKeepsConsistent(s, run[0]);
      RunKeepsSettled(Perform(s, run[0]), run[1..], j);
    }
  }

  // ---------- unsettled implies overwritable ----------

  // The effect whose failure sends a run at pc to the failure exit.
  function Stumble(op: Operation, pc: Pc): Effect
    requires !pc.Failing? && !pc.Closing?
  {
    match pc
    case Preparing(n) =>
      if n < 7 then Setup(SetupCall(n))
      else if op.Apply? then Download else if op.Unknown? then RejectOperation else Terraform
    case Fetched(n) => if n == 0 then CreatePlanFile else if n == 1 then CopyPlanFile else Terraform
    case Ran(n) =>
      if n == 0 then ReadStatus
      else if n == 1 then (if op.Apply? then WriteStatus(Applied) else Show)
      else if n == 2 then ReadPlanFile else UploadPlan
    case Uploaded => RecordPlan
    case Recorded => WriteStatus(Planned)
    case Stored => JoinReader
  }

  // The worker's stage is one that a run of its job can be at.
  predicate FitsJob(s: State, v: Worker) {
    v.Busy? ==> v.job in s.table && v.job in s.tally && PcFits(s.table[v.job].operation, v.pc)
  }

  lemma CanFail(s: State, w: nat) returns (run: seq<Step>)
    requires w < |s.workers| && s.workers[w].Busy? && !s.workers[w].pc.Closing? && FitsJob(s, s.workers[w])
    ensures Executes(s, run) && s.workers[w].job in After(s, run).table
    ensures After(s, run).table[s.workers[w].job].status == Failed
    ensures forall i :: 0 <= i < |run| ==> run[i].Work?
    ensures var t, j := After(s, run), s.workers[w].job;
            && t.table == s.table[j := s.table[j].(status := Failed)]
            && t.workers == s.workers[w := Busy(j, Closing(0))]
            && t.tally.Keys == s.tally.Keys
  {
    var write := Work(w, WriteStatus(Failed), true, true, "");
    if s.workers[w].pc.Failing? {
      run := [write];
      Prepend(s, write, []);
    } else {
      var e := Stumble(s.table[s.workers[w].job].operation, s.workers[w].pc);
      var t := AfterWork(s, w, e, false, false, "");
      assert t.table == s.table;
      Prepend(t, write, []);
      Prepend(s, Work(w, e, false, false, ""), [write]);
      run := [Work(w, e, false, false, "")] + [write];
    }
  }

  // A run can end with its FAILED write lost and nobody promoted: the worker goes idle and leaves no trace.
  lemma CanGoIdle(s: State, w: nat) returns (run: seq<Step>)
    requires w < |s.workers| && FitsJob(s, s.workers[w])
    ensures Executes(s, run) && forall i :: 0 <= i < |run| ==> run[i].Work? || run[i].Promote?
    ensures var t := After(s, run);
            && t.table == s.table && t.workers == s.workers[w := Idle] && t.requests == s.requests
            && t.objects == s.objects && t.ledger == s.ledger && t.tally.Keys == s.tally.Keys
    decreases if s.workers[w].Idle? then 0 else Remaining(s.workers[w].pc)
  {
    if s.workers[w].Idle? {
      run := [];
    } else if s.workers[w].pc.Closing? {
      run := [Promote(w, None)];
      Prepend(s, Promote(w, None), []);
    } else {
      var op, pc := s.table[s.workers[w].job].operation, s.workers[w].pc;
      var e := if pc.Failing? then WriteStatus(Failed) else Stumble(op, pc);
      var t := AfterWork(s, w, e, false, false, "");
      var rest := CanGoIdle(t, w);
      Prepend(s, Work(w, e, false, false, ""), rest);
      run := [Work(w, e, false, false, "")] + rest;
    }
  }

  // From wherever a worker is before its status write, what is left of its job's script can all succeed, and then the
  // job shows the success of its operation.
  lemma CanSucceed(s: State, w: nat, j: JobId)
    requires w < |s.workers| && Works(s.workers[w], j) && j in s.table && j in s.tally
    requires Known(s.table[j].operation) && PcFits(s.table[j].operation, s.workers[w].pc) && Unwritten(s.workers[w].pc)
    requires s.table[j].operation.Apply? && s.workers[w].pc.Preparing? ==> PlanFile(j) in s.objects
    ensures EndsWith(FullScript(s.table[j].operation, s.table[j].hooks),
                     Remainder(s.table[j].operation, s.table[j].hooks, s.workers[w].pc))
    ensures var run := Steps(w, Remainder(s.table[j].operation, s.table[j].hooks, s.workers[w].pc), AllReturn, 0);
            && Executes(s, run) && j in After(s, run).table
            && After(s, run).table[j].status == Success(s.table[j].operation)
  {
    var op, hooks, pc := s.table[j].operation, s.table[j].hooks, s.workers[w].pc;
    RemainderDrives(op, hooks, pc);
    RemainderEndsScript(op, hooks, pc);
    AllReturning(op, pc, Remainder(op, hooks, pc), Stored, 0);
    RemainderSucceeds(op, hooks, pc, AllReturn, 0, s.table[j].status);
    ReachingExecutes(s, w, j, Remainder(op, hooks, pc), AllReturn, 0, Stored);
  }

  lemma CanWriteMayWrite(s: State, w: nat, j: JobId, st: Status) returns (run: seq<Step>)
    requires Consistent(s) && w < |s.workers| && Works(s.workers[w], j)
    requires j in s.table && MayWrite(s.table[j].operation, s.workers[w].pc, st)
    ensures Executes(s, run) && j in After(s, run).table && After(s, run).table[j].status == st
  {
    if st == Failed {
      run := CanFail(s, w);
    } else {
      var t := s.(objects := s.objects + {PlanFile(j)});
      CanSucceed(t, w, j);
      run := Steps(w, Remainder(s.table[j].operation, s.table[j].hooks, s.workers[w].pc), AllReturn, 0);
      Prepend(s, Store(PlanFile(j)), run);
      run := [Store(PlanFile(j))] + run;
    }
  }

  lemma UnsettledCanChange(s: State, j: JobId) returns (run: seq<Step>)
    requires Consistent(s) && j in s.table && Ended(s.table[j].status) && !IsSettled(s, j)
    ensures Executes(s, run) && j in After(s, run).table && After(s, run).table[j].status != s.table[j].status
  {
    if r :| r in s.requests && s.requests[r].Writing? && s.requests[r].job == j
            && Writes(s.requests[r].kind) != s.table[j].status {
      run := [End(r)];
      Prepend(s, End(r), []);
    } else {
      var w, st :| 0 <= w < |s.workers| && Works(s.workers[w], j)
                   && MayWrite(s.table[j].operation, s.workers[w].pc, st) && st != s.table[j].status;
      run := CanWriteMayWrite(s, w, j, st);
    }
  }

  // A terminal status is final iff no worker on the job and no pending request can still write another.
  lemma FinalIffSettled(s: State, j: JobId)
    requires Reachable(s) && j in s.table && Ended(s.table[j].status)
    ensures IsSettled(s, j) <==> AlwaysShows(s, j, s.table[j].status)
  {
    ReachableIsConsistent(s);
    if IsSettled(s, j) {
      forall run | Executes(s, run)
        ensures j in After(s, run).table && After(s, run).table[j].status == s.table[j].status
      {
        RunKeepsSettled(s, run, j);
      }
    } else {
      var run := UnsettledCanChange(s, j);
    }
  }

  // Whatever its stage, a worker that has not yet written can overwrite a cancellation with PLANNED or APPLIED.
  lemma MidFlightCancellationCanBeLost(s: State, w: nat, j: JobId) returns (run: seq<Step>)
    requires Reachable(s) && j in s.table && s.table[j].status.Cancelled? && Known(s.table[j].operation)
    requires w < |s.workers| && Works(s.workers[w], j) && BeforeFirstWrite(s.workers[w].pc) && !s.workers[w].pc.Failing?
    ensures Executes(s, run) && j in After(s, run).table
    ensures After(s, run).table[j].status == Success(s.table[j].operation)
  {
    ReachableIsConsistent(s);
    run := CanWriteMayWrite(s, w, j, Success(s.table[j].operation));
  }

  // ---------- recovery of orphans ----------

  // Left in flight by a process that died: nobody works on it and no approval of it is pending.
  ghost predicate Abandoned(s: State, j: JobId) {
    && j in s.table && j in s.tally
    && (forall w :: 0 <= w < |s.workers| ==> !Works(s.workers[w], j))
    && (forall r :: r in s.requests ==> s.requests[r] != Writing(Approve, j))
  }

  ghost predicate RecoveryPending(s: State, j: JobId) {
    exists r :: r in s.requests && s.requests[r] == Writing(Recover, j)
  }

  // recoverJobs has fetched the job; until its write the job may also be discarded or unlocked.
  ghost predicate Doomed(s: State, j: JobId) {
    && Abandoned(s, j)
    && (s.table[j].status.Failed? || s.table[j].status.Cancelled?
        || (InFlight(s.table[j].status) && RecoveryPending(s, j)))
  }

  predicate DropsRecovery(s: State, step: Step, j: JobId) {
    step.Drop? && step.r in s.requests && s.requests[step.r] == Writing(Recover, j)
  }

  ghost predicate RecoverySucceeds(s: State, run: seq<Step>, j: JobId)
    requires Executes(s, run)
    decreases |run|
  {
    run == [] || (!DropsRecovery(s, run[0], j) && RecoverySucceeds(Perform(s, run[0]), run[1..], j))
  }

  lemma StepKeepsRecovery(s: State, step: Step, j: JobId)
    requires RecoveryPending(s, j) && Enabled(s, step) && !DropsRecovery(s, step, j)
    ensures var t := Perform(s, step); RecoveryPending(t, j) || (j in t.table && t.table[j].status.Failed?)
  {
    var r :| r in s.requests && s.requests[r] == Writing(Recover, j);
    assert step != End(r) ==> r in Perform(s, step).requests && Perform(s, step).requests[r] == Writing(Recover, j);
  }

  lemma EndKeepsDoomed(s: State, r: nat, j: JobId)
    requires Doomed(s, j) && CanEnd(s, r)
    ensures Doomed(AfterEnd(s, r), j) && AfterEnd(s, r).tally[j].claims == s.tally[j].claims
  {
    if RecoveryPending(s, j) { StepKeepsRecovery(s, End(r), j); }
  }

  lemma WorkKeepsDoomed(s: State, w: nat, e: Effect, ok: bool, took: bool, text: string, j: JobId)
    requires Doomed(s, j) && CanWork(s, w, e, ok, took)
    ensures var t := AfterWork(s, w, e, ok, took, text); Doomed(t, j) && t.tally[j].claims == s.tally[j].claims
  {
    if RecoveryPending(s, j) { StepKeepsRecovery(s, Work(w, e, ok, took, text), j); }
  }

  lemma StepKeepsDoomed(s: State, step: Step, j: JobId)
    requires Doomed(s, j) && Enabled(s, step) && !DropsRecovery(s, step, j)
    ensures Doomed(Perform(s, step), j) && Perform(s, step).tally[j].claims == s.tally[j].claims
  {
    if RecoveryPending(s, j) { StepKeepsRecovery(s, step, j); }
    match step
    case End(r) => EndKeepsDoomed(s, r, j);
    case Work(w, e, ok, took, text) => WorkKeepsDoomed(s, w, e, ok, took, text, j);
    case Claim(w, k) => assert k != j;
    case Promote(w, next) => assert next.Some? ==> next.value != j;
    case _ =>
  }

  lemma {:induction false} RunKeepsDoomed(s: State, run: seq<Step>, j: JobId)
    requires Doomed(s, j) && Executes(s, run) && RecoverySucceeds(s, run, j)
    ensures Doomed(After(s, run), j) && After(s, run).tally[j].claims == s.tally[j].claims
    decreases |run|
  {
    if run != [] {
      StepKeepsDoomed(s, run[0], j);
      RunKeepsDoomed(Perform(s, run[0]), run[1..], j);
    }
  }

  // Not claimed since s; and FAILED or CANCELLED, unless a recovery of it is still to land.
  ghost predicate StaysDown(s: State, t: State, j: JobId)
    requires j in s.tally
  {
    && j in t.table && j in t.tally && t.tally[j].claims == s.tally[j].claims
    && (RecoveryPending(t, j) || t.table[j].status.Failed? || t.table[j].status.Cancelled?)
  }

  // Once recovery has fetched an orphan, it is FAILED or CANCELLED from the recovery write on, for good, and is never
  // claimed again.
  lemma OrphansAreFailedForGood(s: State, run: seq<Step>, j: JobId)
    requires Abandoned(s, j) && InFlight(s.table[j].status) && RecoveryPending(s, j)
    requires Executes(s, run) && RecoverySucceeds(s, run, j)
    ensures StaysDown(s, After(s, run), j)
  {
    RunKeepsDoomed(s, run, j);
  }

  lemma {:induction false} NoDropSucceeds(s: State, run: seq<Step>, j: JobId)
    requires Executes(s, run) && forall i :: 0 <= i < |run| ==> !run[i].Drop?
    ensures RecoverySucceeds(s, run, j)
    decreases |run|
  {
    if run != [] {
      assert !run[0].Drop?;
      NoDropSucceeds(Perform(s, run[0]), run[1..], j);
    }
  }

  // Every recovery write of the job lands, one after the other.
  lemma {:induction false} RecoveriesLand(s: State, j: JobId, pending: set<nat>) returns (run: seq<Step>)
    requires j in s.table && j in s.tally
    requires pending == set r | r in s.requests && s.requests[r] == Writing(Recover, j)
    ensures Executes(s, run) && forall i :: 0 <= i < |run| ==> run[i].End?
    ensures var t := After(s, run);
            j in t.table && j in t.tally && t.requests == s.requests - pending && !RecoveryPending(t, j)
    decreases |pending|
  {
    if pending == {} {
      run := [];
    } else {
      var r :| r in pending;
      var rest := RecoveriesLand(AfterEnd(s, r), j, pending - {r});
      Prepend(s, End(r), rest);
      run := [End(r)] + rest;
    }
  }

  // A stale approval revives the job when it lands after every recovery write.
  lemma ApprovalOutlivesRecovery(s: State, r: nat, j: JobId) returns (run: seq<Step>)
    requires j in s.table && j in s.tally && r in s.requests && s.requests[r] == Writing(Approve, j)
    ensures Executes(s, run) && RecoverySucceeds(s, run, j) && !StaysDown(s, After(s, run), j)
  {
    var writes := RecoveriesLand(s, j, set q | q in s.requests && s.requests[q] == Writing(Recover, j));
    var t := After(s, writes);
    Prepend(t, End(r), []);
    RunsCompose(s, writes, [End(r)]);
    run := writes + [End(r)];
    NoDropSucceeds(s, run, j);
  }

  // An orphan that recovery has fetched stays down, whatever happens next, iff no approval of it is still pending.
  lemma OrphanStaysDownIff(s: State, j: JobId)
    requires j in s.table && j in s.tally && InFlight(s.table[j].status) && RecoveryPending(s, j)
    requires forall w :: 0 <= w < |s.workers| ==> !Works(s.workers[w], j)
    ensures (forall run :: Executes(s, run) && RecoverySucceeds(s, run, j) ==> StaysDown(s, After(s, run), j))
            <==> forall r :: r in s.requests ==> s.requests[r] != Writing(Approve, j)
  {
    if r :| r in s.requests && s.requests[r] == Writing(Approve, j) {
      var run := ApprovalOutlivesRecovery(s, r, j);
    } else {
      forall run | Executes(s, run) && RecoverySucceeds(s, run, j) ensures StaysDown(s, After(s, run), j) {
        OrphansAreFailedForGood(s, run, j);
      }
    }
  }
}
