/** Exactly when the orchestrator comes to rest once creations and approvals stop: unless a job of unknown operation is,
    or can still become, claimable. */
module ComingToRest {
  import opened Jobs
  import opened Queue
  import opened Execution
  import opened Orchestrator
  import opened Safety
  import opened Settled
  import opened Termination

  // However it goes on, only so many steps change anything.
  ghost predicate ComesToRest(s: State) {
    exists bound: nat :: BoundsProgress(s, bound)
  }

  ghost predicate BoundsProgress(s: State, bound: nat) {
    forall run :: Executes(s, run) && UndisturbedRun(s, run) ==> Progress(s, run) <= bound + Begins(run)
  }

  predicate WorksIn(s: State, v: Worker, p: ProjectId) {
    v.Busy? && v.job in s.table && s.table[v.job].project == p
  }

  // Somebody works on a job of the project, or can claim one.
  ghost predicate Alive(s: State, p: ProjectId) {
    || (exists k :: k in s.table && s.table[k].project == p && Claimable(s.table[k].status))
    || (exists w :: 0 <= w < |s.workers| && WorksIn(s, s.workers[w], p))
  }

  // A job of unknown operation that is claimable, or waits in the queue of a project where a promotion can still come.
  ghost predicate Restless(s: State, j: JobId) {
    && j in s.table && !Known(s.table[j].operation)
    && (Claimable(s.table[j].status) || (s.table[j].status.Queued? && Alive(s, s.table[j].project)))
  }

  ghost predicate Barren(s: State) {
    forall j :: j in s.table ==> !Restless(s, j)
  }

  // ---------- without such a job it rests ----------

  // No row changes its identity or joins the queue, only rows of live projects become claimable, and no project comes
  // back to life.
  ghost predicate Withers(s: State, t: State) {
    && t.table.Keys == s.table.Keys
    && (forall j :: j in s.table ==> SameIdentity(s.table[j], t.table[j]))
    && (forall j :: j in s.table && t.table[j].status.Queued? ==> s.table[j].status.Queued?)
    && (forall j :: j in s.table && Claimable(t.table[j].status) ==>
          Claimable(s.table[j].status) || (s.table[j].status.Queued? && Alive(s, s.table[j].project)))
    && (forall p :: Alive(t, p) ==> Alive(s, p))
  }

  lemma QuietWithers(s: State, t: State)
    requires t.table.Keys == s.table.Keys && forall j :: j in s.table ==> SameIdentity(s.table[j], t.table[j])
    requires forall j :: j in s.table ==> t.table[j].status == s.table[j].status || !Active(t.table[j].status)
    requires |t.workers| == |s.workers|
    requires forall w :: 0 <= w < |s.workers| ==>
               t.workers[w].Idle? || (s.workers[w].Busy? && t.workers[w].job == s.workers[w].job)
    ensures Withers(s, t)
  {
    forall p | Alive(t, p) ensures Alive(s, p) {
      if k :| k in t.table && t.table[k].project == p && Claimable(t.table[k].status) {
        assert Claimable(s.table[k].status);
      } else {
        var w :| 0 <= w < |t.workers| && WorksIn(t, t.workers[w], p);
        assert WorksIn(s, s.workers[w], p);
      }
    }
  }

  lemma ClaimWithers(s: State, w: nat, j: JobId)
    requires CanClaim(s, w, j)
    ensures Withers(s, AfterClaim(s, w, j))
  {
    var t := AfterClaim(s, w, j);
    forall p | Alive(t, p) ensures Alive(s, p) {
      if k :| k in t.table && t.table[k].project == p && Claimable(t.table[k].status) {
        assert Claimable(s.table[k].status);
      } else {
        var v :| 0 <= v < |t.workers| && WorksIn(t, t.workers[v], p);
        assert v == w || WorksIn(s, s.workers[v], p);
      }
    }
  }

  lemma PromoteWithers(s: State, w: nat, next: Option<JobId>)
    requires CanPromote(s, w, next)
    ensures Withers(s, AfterPromote(s, w, next))
  {
    var t, p := AfterPromote(s, w, next), s.table[s.workers[w].job].project;
    assert WorksIn(s, s.workers[w], p);
    forall q | Alive(t, q) ensures Alive(s, q) {
      if k :| k in t.table && t.table[k].project == q && Claimable(t.table[k].status) {
        assert q == p || Claimable(s.table[k].status);
      } else {
        var v :| 0 <= v < |t.workers| && WorksIn(t, t.workers[v], q);
        assert WorksIn(s, s.workers[v], q);
      }
    }
  }

  lemma WorkIsQuiet(s: State, w: nat, e: Effect, ok: bool, took: bool, text: string)
    requires CanWork(s, w, e, ok, took)
    ensures Withers(s, AfterWork(s, w, e, ok, took, text))
  {
    RunMovesOn(s.table[s.workers[w].job].operation, s.workers[w].pc, e, ok, took);
    QuietWithers(s, AfterWork(s, w, e, ok, took, text));
  }

  lemma EndWithers(s: State, r: nat)
    requires CanEnd(s, r) && !s.requests[r].kind.Approve?
    ensures Withers(s, AfterEnd(s, r))
  {
    QuietWithers(s, AfterEnd(s, r));
  }

  lemma SweepWithers(s: State, at: Time)
    ensures Withers(s, AfterSweep(s, at))
  {
    QuietWithers(s, AfterSweep(s, at));
  }

  lemma StandstillWithers(s: State, t: State)
    requires t.table == s.table && |t.workers| == |s.workers|
    requires forall w :: 0 <= w < |s.workers| ==> t.workers[w].Idle? || t.workers[w] == s.workers[w]
    ensures Withers(s, t)
  {
    QuietWithers(s, t);
  }

  lemma StepWithers(s: State, step: Step)
    requires Consistent(s) && Enabled(s, step) && Undisturbed(s, step)
    ensures Withers(s, Perform(s, step))
  {
    var t := Perform(s, step);
    match step
    case EndCreate(_, _) =>
    case Claim(w, j) => ClaimWithers(s, w, j);
    case Promote(w, next) => PromoteWithers(s, w, next);
    case Work(w, e, ok, took, text) => WorkIsQuiet(s, w, e, ok, took, text);
    case End(r) => EndWithers(s, r);
    case Sweep(at) => SweepWithers(s, at);
    case _ => StandstillWithers(s, t);
  }

  lemma WitheringStaysBarren(s: State, t: State)
    requires Barren(s) && Withers(s, t)
    ensures Barren(t)
  {
    forall j | j in t.table ensures !Restless(t, j) {
      assert !Restless(s, j);
    }
  }

  lemma StepKeepsPoolSize(s: State, step: Step)
    requires Enabled(s, step)
    ensures |Perform(s, step).workers| == |s.workers|
  {
  }

  lemma {:induction false} BarrenRunsNeverAbandon(s: State, run: seq<Step>)
    requires Consistent(s) && Executes(s, run) && UndisturbedRun(s, run) && (|s.workers| == 0 || Barren(s))
    ensures NeverAbandons(s, run)
    decreases |run|
  {
    if run != [] {
      var t := Perform(s, run[0]);
      assert !Abandons(s, run[0]) by {
        if Barren(s) { assert forall j :: j in s.table ==> !Restless(s, j); }
      }
      StepWithers(s, run[0]);
      StepKeepsConsistent(s, run[0]);
      StepKeepsPoolSize(s, run[0]);
      if Barren(s) { WitheringStaysBarren(s, t); }
      BarrenRunsNeverAbandon(t, run[1..]);
    }
  }

  // ---------- with such a job it can go on for ever ----------

  // What a worker does by itself.
  predicate Inner(step: Step) {
    step.Claim? || step.Work? || step.Promote? || step.Vanish?
  }

  predicate InnerRun(run: seq<Step>) {
    forall i :: 0 <= i < |run| ==> Inner(run[i])
  }

  // Nobody dies on the way.
  predicate CrashFree(run: seq<Step>) {
    forall i :: 0 <= i < |run| ==> run[i].Claim? || run[i].Work? || run[i].Promote?
  }

  lemma {:induction false} InnerRunsAreUndisturbed(s: State, run: seq<Step>)
    requires Executes(s, run) && InnerRun(run)
    ensures UndisturbedRun(s, run) && Begins(run) == 0
    decreases |run|
  {
    if run != [] {
      assert Inner(run[0]);
      InnerRunsAreUndisturbed(Perform(s, run[0]), run[1..]);
    }
  }

  lemma {:induction false} ProgressAdds(s: State, a: seq<Step>, b: seq<Step>)
    requires Executes(s, a) && Executes(After(s, a), b)
    ensures Executes(s, a + b) && After(s, a + b) == After(After(s, a), b)
    ensures Progress(s, a + b) == Progress(s, a) + Progress(After(s, a), b)
    decreases |a|
  {
    if a == [] {
      assert a + b == b;
    } else {
      ProgressAdds(Perform(s, a[0]), a[1..], b);
      assert (a + b)[0] == a[0] && (a + b)[1..] == a[1..] + b;
    }
  }

  // A run of a worker that leads back to where it began, having changed something on the way.
  ghost predicate Loops(s: State, run: seq<Step>) {
    && Executes(s, run) && InnerRun(run) && Progress(s, run) > 0
    && SameVisible(s, After(s, run)) && After(s, run).tally.Keys == s.tally.Keys
  }

  // A claim after which the worker dies.
  lemma CrashLoops(s: State, w: nat, j: JobId)
    requires CanClaim(s, w, j) && !Known(s.table[j].operation)
    ensures Loops(s, [Claim(w, j), Vanish(w)])
  {
    var t := AfterClaim(s, w, j);
    assert t.table == s.table && t.workers[w := Idle] == s.workers && t.workers[w] != s.workers[w];
    Prepend(t, Vanish(w), []);
    Prepend(s, Claim(w, j), [Vanish(w)]);
    assert [Claim(w, j), Vanish(w)][1..] == [Vanish(w)];
    assert Changes(s, Claim(w, j));
  }

  // A claim whose first call fails.
  lemma FailedClaim(s: State, w: nat, j: JobId)
    requires CanClaim(s, w, j) && !Known(s.table[j].operation)
    ensures var run := [Claim(w, j), Work(w, Setup(EnsureBucket), false, false, "")];
            && Executes(s, run) && Progress(s, run) > 0 && After(s, run).tally.Keys == s.tally.Keys
            && SameVisible(s.(workers := s.workers[w := Busy(j, Failing(false, 2))]), After(s, run))
  {
    var fail := Work(w, Setup(EnsureBucket), false, false, "");
    var t := AfterClaim(s, w, j);
    assert t.table == s.table && Changes(s, Claim(w, j));
    Prepend(t, fail, []);
    Prepend(s, Claim(w, j), [fail]);
  }

  // Once its run has failed and the FAILED write is lost, a worker goes idle and leaves everything as it was.
  lemma LostWriteLeavesNoTrace(s: State, w: nat)
    requires w < |s.workers| && s.workers[w].Busy? && s.workers[w].pc.Failing?
    requires s.workers[w].job in s.table && s.workers[w].job in s.tally
    ensures var run := [Work(w, WriteStatus(Failed), false, false, ""), Promote(w, None)];
            && Executes(s, run) && After(s, run).tally.Keys == s.tally.Keys
            && SameVisible(s.(workers := s.workers[w := Idle]), After(s, run))
  {
    var t := AfterWork(s, w, WriteStatus(Failed), false, false, "");
    Prepend(t, Promote(w, None), []);
    Prepend(s, Work(w, WriteStatus(Failed), false, false, ""), [Promote(w, None)]);
  }

  // A run whose FAILED write is lost.
  lemma LostWriteLoops(s: State, w: nat, j: JobId)
    requires CanClaim(s, w, j) && !Known(s.table[j].operation)
    ensures Loops(s, [Claim(w, j), Work(w, Setup(EnsureBucket), false, false, "")]
                     + [Work(w, WriteStatus(Failed), false, false, ""), Promote(w, None)])
  {
    var claim := [Claim(w, j), Work(w, Setup(EnsureBucket), false, false, "")];
    var t := After(s, claim);
    FailedClaim(s, w, j);
    LostWriteLeavesNoTrace(t, w);
    assert t.workers[w := Idle] == s.workers;
    ProgressAdds(s, claim, [Work(w, WriteStatus(Failed), false, false, ""), Promote(w, None)]);
  }

  // Going round n times, by whichever of the two loops.
  lemma {:induction false} GoesRound(s: State, w: nat, j: JobId, crashing: bool, n: nat) returns (run: seq<Step>)
    requires CanClaim(s, w, j) && !Known(s.table[j].operation)
    ensures Executes(s, run) && InnerRun(run) && Progress(s, run) >= n
    ensures crashing ==> forall i :: 0 <= i < |run| ==> !run[i].Work?
    ensures !crashing ==> CrashFree(run)
    decreases n
  {
    if n == 0 {
      run := [];
    } else {
      var loop := if crashing then [Claim(w, j), Vanish(w)]
                  else [Claim(w, j), Work(w, Setup(EnsureBucket), false, false, "")]
                       + [Work(w, WriteStatus(Failed), false, false, ""), Promote(w, None)];
      if crashing { CrashLoops(s, w, j); } else { LostWriteLoops(s, w, j); }
      var rest := GoesRound(After(s, loop), w, j, crashing, n - 1);
      ProgressAdds(s, loop, rest);
      run := loop + rest;
    }
  }

  lemma ClosesAndPromotes(s: State, w: nat, j: JobId)
    requires w < |s.workers| && s.workers[w].Busy? && s.workers[w].pc.Closing? && s.workers[w].job in s.table
    requires j in s.tally && j in QueuedIn(s.table, s.table[s.workers[w].job].project)
    ensures Executes(s, [Promote(w, Some(j))])
    ensures var t := After(s, [Promote(w, Some(j))]);
            CanClaim(t, w, j) && t.table.Keys == s.table.Keys && SameIdentity(s.table[j], t.table[j])
  {
    Prepend(s, Promote(w, Some(j)), []);
  }

  // A worker on a job of the project can be made to promote a waiting one.
  lemma WorkerPromotes(s: State, w: nat, j: JobId) returns (run: seq<Step>)
    requires Consistent(s) && j in s.table && s.table[j].status.Queued?
    requires w < |s.workers| && WorksIn(s, s.workers[w], s.table[j].project)
    ensures Executes(s, run) && CrashFree(run) && After(s, run).table.Keys == s.table.Keys
    ensures CanClaim(After(s, run), w, j) && SameIdentity(s.table[j], After(s, run).table[j])
  {
    run := [];
    if !s.workers[w].pc.Closing? {
      assert RunOk(s.workers[w].job, s.workers[w].pc, s.table[s.workers[w].job], s.tally[s.workers[w].job], s.objects);
      run := CanFail(s, w);
    }
    ClosesAndPromotes(After(s, run), w, j);
    RunsCompose(s, run, [Promote(w, Some(j))]);
    run := run + [Promote(w, Some(j))];
  }

  // So can one that claims a job of the project first.
  lemma ClaimerPromotes(s: State, w: nat, k: JobId, j: JobId) returns (run: seq<Step>)
    requires CanClaim(s, w, k) && s.tally.Keys == s.table.Keys
    requires j in s.table && s.table[j].status.Queued? && s.table[k].project == s.table[j].project
    ensures Executes(s, run) && CrashFree(run) && After(s, run).table.Keys == s.table.Keys
    ensures CanClaim(After(s, run), w, j) && SameIdentity(s.table[j], After(s, run).table[j])
  {
    FailsFast(s, w, k);
    ClosesAndPromotes(After(s, FailFast(w, k)), w, j);
    RunsCompose(s, FailFast(w, k), [Promote(w, Some(j))]);
    run := FailFast(w, k) + [Promote(w, Some(j))];
  }

  // And so can one that first comes to the end of its run.
  lemma AnyonePromotes(s: State, w: nat, k: JobId, j: JobId) returns (run: seq<Step>)
    requires Consistent(s) && w < |s.workers| && k in s.table && Claimable(s.table[k].status)
    requires j in s.table && s.table[j].status.Queued? && s.table[k].project == s.table[j].project
    ensures Executes(s, run) && CrashFree(run) && After(s, run).table.Keys == s.table.Keys
    ensures CanClaim(After(s, run), w, j) && SameIdentity(s.table[j], After(s, run).table[j])
  {
    var ending := CanGoIdle(s, w);
    var next := ClaimerPromotes(After(s, ending), w, k, j);
    RunsCompose(s, ending, next);
    run := ending + next;
  }

  lemma CanPromoteIn(s: State, j: JobId) returns (w: nat, run: seq<Step>)
    requires Consistent(s) && |s.workers| > 0
    requires j in s.table && s.table[j].status.Queued? && Alive(s, s.table[j].project)
    ensures Executes(s, run) && CrashFree(run) && After(s, run).table.Keys == s.table.Keys
    ensures CanClaim(After(s, run), w, j) && SameIdentity(s.table[j], After(s, run).table[j])
  {
    if k :| k in s.table && s.table[k].project == s.table[j].project && Claimable(s.table[k].status) {
      w := 0;
      run := AnyonePromotes(s, 0, k, j);
    } else {
      w :| 0 <= w < |s.workers| && WorksIn(s, s.workers[w], s.table[j].project);
      run := WorkerPromotes(s, w, j);
    }
  }

  lemma RestlessGoesOn(s: State, j: JobId, n: nat) returns (run: seq<Step>)
    requires Consistent(s) && |s.workers| > 0 && Restless(s, j)
    ensures Executes(s, run) && CrashFree(run) && UndisturbedRun(s, run) && Begins(run) == 0 && Progress(s, run) >= n
  {
    var w, first;
    if Claimable(s.table[j].status) {
      w := 0;
      first := CanGoIdle(s, 0);
    } else {
      w, first := CanPromoteIn(s, j);
    }
    var round := GoesRound(After(s, first), w, j, false, n);
    ProgressAdds(s, first, round);
    run := first + round;
    InnerRunsAreUndisturbed(s, run);
  }

  // Once creations and approvals stop, the orchestrator comes to rest iff the pool is empty, or no job of unknown
  // operation is claimable or waits in a project that still has a job to run.
  lemma ComesToRestIff(s: State)
    requires Reachable(s)
    ensures ComesToRest(s) <==> |s.workers| == 0 || Barren(s)
  {
    ReachableIsConsistent(s);
    if |s.workers| == 0 || Barren(s) {
      forall run | Executes(s, run) && UndisturbedRun(s, run) ensures Progress(s, run) <= Measure(s) + Begins(run) {
        BarrenRunsNeverAbandon(s, run);
        RunsEnd(s, run);
      }
      assert BoundsProgress(s, Measure(s));
    } else {
      var j :| j in s.table && Restless(s, j);
      forall bound: nat ensures !BoundsProgress(s, bound) {
        var run := RestlessGoesOn(s, j, bound + 1);
      }
    }
  }
}
