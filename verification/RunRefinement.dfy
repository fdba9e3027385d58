/** The worker's code refines the transition system: the effects processJob performs, under any schedule of
    outcomes, are a run of one worker from its claim back to idle. */
module RunRefinement {
  import opened Jobs
  import opened Execution
  import opened Script
  import opened Orchestrator

  // ---------- scripts drive the automaton ----------

  // Made in full, the script takes a worker from pc to end; a failure anywhere sends it to the failure exit.
  ghost predicate Drives(op: Operation, pc: Pc, script: seq<Effect>, end: Pc)
    decreases |script|
  {
    if script == [] then pc == end
    else
      && Next(op, pc, script[0], false, false) == Some(Failing(false, 2))
      && (!script[0].RejectOperation? ==>
            && Next(op, pc, script[0], true, true).Some?
            && Drives(op, Next(op, pc, script[0], true, true).value, script[1..], end))
  }

  lemma {:induction false} DrivesBoth(op: Operation, pc: Pc, a: seq<Effect>, mid: Pc, b: seq<Effect>, end: Pc)
    requires Drives(op, pc, a, mid) && Drives(op, mid, b, end)
    ensures Drives(op, pc, a + b, end)
    decreases |a|
  {
    if a == [] {
      assert a + b == b;
    } else {
      assert (a + b)[0] == a[0] && (a + b)[1..] == a[1..] + b;
      if !a[0].RejectOperation? {
        DrivesBoth(op, Next(op, pc, a[0], true, true).value, a[1..], mid, b, end);
      }
    }
  }

  lemma OneDrives(op: Operation, pc: Pc, e: Effect, next: Pc, rest: seq<Effect>, end: Pc)
    requires Next(op, pc, e, false, false) == Some(Failing(false, 2))
    requires Next(op, pc, e, true, true) == Some(next) && Drives(op, next, rest, end)
    ensures Drives(op, pc, [e] + rest, end)
  {
    assert ([e] + rest)[1..] == rest;
  }

  // Where hooks may run.
  predicate TakesHooks(op: Operation, pc: Pc) {
    || (pc == Preparing(7) && MakesPlan(op))
    || (pc == Fetched(2) && op.Apply?)
    || (pc == Ran(1) && (op.Plan? || op.Apply?))
  }

  lemma {:induction false} HooksDrive(op: Operation, pc: Pc, hooks: seq<string>)
    requires hooks == [] || TakesHooks(op, pc)
    ensures Drives(op, pc, HookScript(hooks), pc)
  {
    if hooks != [] {
      HooksDrive(op, pc, hooks[1..]);
      OneDrives(op, pc, Hook(hooks[0]), pc, HookScript(hooks[1..]), pc);
      OneDrives(op, pc, Announce(hooks[0]), pc, [Hook(hooks[0])] + HookScript(hooks[1..]), pc);
      assert HookScript(hooks) == [Announce(hooks[0])] + ([Hook(hooks[0])] + HookScript(hooks[1..]));
    }
  }

  lemma PipelineDrives(op: Operation, pc: Pc, pre: seq<string>, post: seq<string>)
    requires (MakesPlan(op) && pc == Preparing(7)) || (op.Apply? && pc == Fetched(2))
    requires op.Destroy? ==> post == []
    ensures Drives(op, pc, PipelineScript(pre, post), Ran(1))
  {
    HooksDrive(op, pc, pre);
    HooksDrive(op, Ran(1), post);
    OneDrives(op, Ran(0), ReadStatus, Ran(1), HookScript(post), Ran(1));
    OneDrives(op, pc, Terraform, Ran(0), [ReadStatus] + HookScript(post), Ran(1));
    var step := [Terraform, ReadStatus];
    assert step + HookScript(post) == [Terraform] + ([ReadStatus] + HookScript(post));
    DrivesBoth(op, pc, HookScript(pre), pc, step + HookScript(post), Ran(1));
  }

  // Where the calls of PUBLICATION are made.
  function Publishing(i: nat): Pc
    requires i <= 5
  {
    if i < 3 then Ran(i + 1) else if i == 3 then Uploaded else if i == 4 then Recorded else Stored
  }

  lemma {:induction false} PublicationDrives(op: Operation, i: nat)
    requires MakesPlan(op) && i <= 5
    ensures Drives(op, Publishing(i), PUBLICATION[i..], Stored)
    decreases 5 - i
  {
    if i < 5 {
      PublicationDrives(op, i + 1);
      OneDrives(op, Publishing(i), PUBLICATION[i], Publishing(i + 1), PUBLICATION[i + 1..], Stored);
      assert PUBLICATION[i..] == [PUBLICATION[i]] + PUBLICATION[i + 1..];
    }
  }

  lemma FinishDrives(op: Operation)
    requires Known(op)
    ensures Drives(op, Ran(1), Finish(op), Stored)
  {
    if op.Apply? {
      OneDrives(op, Ran(1), WriteStatus(Applied), Stored, [], Stored);
      assert [WriteStatus(Applied)] + [] == [WriteStatus(Applied)];
    } else {
      PublicationDrives(op, 0);
      assert PUBLICATION[0..] == PUBLICATION;
    }
  }

  lemma RunDrives(op: Operation, hooks: Hooks, pc: Pc)
    requires (MakesPlan(op) && pc == Preparing(7)) || (op.Apply? && pc == Fetched(2))
    ensures Drives(op, pc, PipelineScript(PreHooks(op, hooks), PostHooks(op, hooks)) + Finish(op), Stored)
  {
    PipelineDrives(op, pc, PreHooks(op, hooks), PostHooks(op, hooks));
    FinishDrives(op);
    DrivesBoth(op, pc, PipelineScript(PreHooks(op, hooks), PostHooks(op, hooks)), Ran(1), Finish(op), Stored);
  }

  // From the i-th call of RETRIEVAL on.
  lemma {:induction false} RetrievalDrives(hooks: Hooks, i: nat)
    requires i <= 3
    ensures Drives(Apply, if i == 0 then Preparing(7) else Fetched(i - 1),
                   RETRIEVAL[i..] + (PipelineScript(hooks.preApply, hooks.postApply) + Finish(Apply)), Stored)
    decreases 3 - i
  {
    var run := PipelineScript(hooks.preApply, hooks.postApply) + Finish(Apply);
    if i == 3 {
      RunDrives(Apply, hooks, Fetched(2));
      assert RETRIEVAL[3..] + run == run;
    } else {
      RetrievalDrives(hooks, i + 1);
      OneDrives(Apply, if i == 0 then Preparing(7) else Fetched(i - 1), RETRIEVAL[i], Fetched(i),
                RETRIEVAL[i + 1..] + run, Stored);
      assert RETRIEVAL[i..] + run == [RETRIEVAL[i]] + (RETRIEVAL[i + 1..] + run);
    }
  }

  lemma HandlerDrives(op: Operation, hooks: Hooks)
    ensures Drives(op, Preparing(7), HandlerScript(op, hooks), Stored)
  {
    if op.Apply? {
      RetrievalDrives(hooks, 0);
      assert RETRIEVAL[0..] == RETRIEVAL;
    } else if Known(op) {
      RunDrives(op, hooks, Preparing(7));
    }
  }

  lemma SetupCalls(op: Operation, hooks: Hooks, n: SetupsDone)
    requires n < 7
    ensures FullScript(op, hooks)[n] == Setup(SetupCall(n))
    ensures FullScript(op, hooks)[n..] == [Setup(SetupCall(n))] + FullScript(op, hooks)[n + 1..]
  {
    var full, setups := FullScript(op, hooks), PREPARATION + INITIALISATION;
    assert full == setups + HandlerScript(op, hooks);
    assert setups[n] == Setup(SetupCall(n));
    FirstOfRest(full, n);
  }

  lemma FirstOfRest<T>(s: seq<T>, n: nat)
    requires n < |s|
    ensures s[n..] == [s[n]] + s[n + 1..]
  {
  }

  // From the n-th setup call on.
  lemma {:induction false} SetupDrives(op: Operation, hooks: Hooks, n: SetupsDone)
    ensures Drives(op, Preparing(n), FullScript(op, hooks)[n..], Stored)
    decreases 7 - n
  {
    var full := FullScript(op, hooks);
    if n == 7 {
      HandlerDrives(op, hooks);
      assert full[7..] == HandlerScript(op, hooks);
    } else {
      SetupDrives(op, hooks, n + 1);
      SetupCalls(op, hooks, n);
      OneDrives(op, Preparing(n), Setup(SetupCall(n)), Preparing(n + 1), full[n + 1..], Stored);
    }
  }

  lemma FullDrives(op: Operation, hooks: Hooks)
    ensures Drives(op, Preparing(0), FullScript(op, hooks), Stored)
  {
    SetupDrives(op, hooks, 0);
    assert FullScript(op, hooks)[0..] == FullScript(op, hooks);
  }

  // ---------- traces as steps of one worker ----------

  // The steps of worker w for the effects made from the at-th call on.
  function Steps(w: nat, made: seq<Effect>, outcome: nat -> bool, at: nat): seq<Step> {
    if made == [] then []
    else [Work(w, made[0], Returns(made[0], outcome, at), Returns(made[0], outcome, at), "")]
         + Steps(w, made[1..], outcome, at + 1)
  }

  // Where the effects take the automaton.
  ghost predicate Reaches(op: Operation, pc: Pc, made: seq<Effect>, outcome: nat -> bool, at: nat, end: Pc)
    decreases |made|
  {
    if made == [] then pc == end
    else
      var ok := Returns(made[0], outcome, at);
      && Next(op, pc, made[0], ok, ok).Some?
      && Reaches(op, Next(op, pc, made[0], ok, ok).value, made[1..], outcome, at + 1, end)
  }

  lemma ReachesFrom(op: Operation, pc: Pc, e: Effect, next: Pc, rest: seq<Effect>, outcome: nat -> bool, at: nat,
                    end: Pc)
    requires var ok := Returns(e, outcome, at); Next(op, pc, e, ok, ok) == Some(next)
    requires Reaches(op, next, rest, outcome, at + 1, end)
    ensures Reaches(op, pc, [e] + rest, outcome, at, end)
  {
    assert ([e] + rest)[1..] == rest;
  }

  lemma {:induction false} ReachesBoth(op: Operation, pc: Pc, a: seq<Effect>, mid: Pc, b: seq<Effect>, end: Pc,
                                       outcome: nat -> bool, at: nat)
    requires Reaches(op, pc, a, outcome, at, mid) && Reaches(op, mid, b, outcome, at + |a|, end)
    ensures Reaches(op, pc, a + b, outcome, at, end)
    decreases |a|
  {
    if a == [] {
      assert a + b == b;
    } else {
      var e, rest, ok := a[0], a[1..], Returns(a[0], outcome, at);
      var next := Next(op, pc, e, ok, ok).value;
      assert a + b == [e] + (rest + b) && at + |a| == (at + 1) + |rest|;
      assert Reaches(op, next, rest, outcome, at + 1, mid);
      ReachesBoth(op, next, rest, mid, b, end, outcome, at + 1);
      ReachesFrom(op, pc, e, next, rest + b, outcome, at, end);
    }
  }

  lemma {:induction false} FollowingReaches(op: Operation, pc: Pc, script: seq<Effect>, end: Pc,
                                            outcome: nat -> bool, at: nat, made: seq<Effect>, err: Option<Effect>)
    requires Drives(op, pc, script, end) && Follows(script, outcome, at, made, err)
    ensures Reaches(op, pc, made, outcome, at, if err.None? then end else Failing(false, 2))
    decreases |made|
  {
    if made != [] {
      var ok := Returns(made[0], outcome, at);
      assert made[0] == script[0];
      if !ok {
        assert |made| == 1 && made[1..] == [];
      } else {
        var rest, made' := script[1..], made[1..];
        assert made' == rest[..|made'|];
        forall i: nat | i + 1 < |made'| ensures Returns(made'[i], outcome, at + 1 + i) {
          assert made'[i] == made[i + 1] && Returns(made[i + 1], outcome, at + (i + 1));
        }
        assert made' != [] ==> made'[|made'| - 1] == made[|made| - 1];
        FollowingReaches(op, Next(op, pc, made[0], true, true).value, rest, end, outcome, at + 1, made', err);
      }
    }
  }

  // The status a job shows once the effects have been made, if nobody else writes it.
  function Written(st: Status, made: seq<Effect>, outcome: nat -> bool, at: nat): Status
    decreases |made|
  {
    if made == [] then st
    else Written(if made[0].WriteStatus? && Returns(made[0], outcome, at) then made[0].status else st, made[1..],
                 outcome, at + 1)
  }

  lemma {:induction false} WrittenBoth(st: Status, a: seq<Effect>, b: seq<Effect>, outcome: nat -> bool, at: nat)
    ensures Written(st, a + b, outcome, at) == Written(Written(st, a, outcome, at), b, outcome, at + |a|)
    decreases |a|
  {
    if a == [] {
      assert a + b == b;
    } else {
      assert (a + b)[0] == a[0] && (a + b)[1..] == a[1..] + b;
      WrittenBoth(if a[0].WriteStatus? && Returns(a[0], outcome, at) then a[0].status else st, a[1..], b,
                  outcome, at + 1);
    }
  }

  lemma {:induction false} NothingWritten(st: Status, made: seq<Effect>, outcome: nat -> bool, at: nat)
    requires forall i :: 0 <= i < |made| ==> !made[i].WriteStatus?
    ensures Written(st, made, outcome, at) == st
    decreases |made|
  {
    if made != [] { NothingWritten(st, made[1..], outcome, at + 1); }
  }

  // Wherever the schedule lets a download succeed, the plan is there.
  predicate PlanAtHand(objects: set<Object>, j: JobId, made: seq<Effect>, outcome: nat -> bool, at: nat) {
    forall i: nat :: i < |made| && made[i].Download? && Returns(made[i], outcome, at + i) ==> PlanFile(j) in objects
  }

  // A worker on job j can make any trace its automaton admits.
  lemma {:induction false} ReachingExecutes(s: State, w: nat, j: JobId, made: seq<Effect>, outcome: nat -> bool,
                                            at: nat, end: Pc)
    requires w < |s.workers| && s.workers[w].Busy? && s.workers[w].job == j && j in s.table && j in s.tally
    requires Reaches(s.table[j].operation, s.workers[w].pc, made, outcome, at, end)
    requires PlanAtHand(s.objects, j, made, outcome, at)
    ensures Executes(s, Steps(w, made, outcome, at))
    ensures var t := After(s, Steps(w, made, outcome, at));
            && j in t.table && t.workers == s.workers[w := Busy(j, end)]
            && t.table[j].status == Written(s.table[j].status, made, outcome, at)
    decreases |made|
  {
    if made != [] {
      var ok := Returns(made[0], outcome, at);
      var t := AfterWork(s, w, made[0], ok, ok, "");
      forall i: nat | i < |made[1..]| && made[1..][i].Download? && Returns(made[1..][i], outcome, at + 1 + i)
        ensures PlanFile(j) in t.objects
      {
        assert made[1..][i] == made[i + 1] && Returns(made[i + 1], outcome, at + (i + 1));
      }
      ReachingExecutes(t, w, j, made[1..], outcome, at + 1, end);
      Prepend(s, Work(w, made[0], ok, ok, ""), Steps(w, made[1..], outcome, at + 1));
    }
  }

  // ---------- what is left of a script ----------

  predicate AllReturn(n: nat) { true }

  lemma {:induction false} AllReturning(op: Operation, pc: Pc, script: seq<Effect>, end: Pc, at: nat)
    requires Known(op) && Drives(op, pc, script, end)
    ensures Reaches(op, pc, script, AllReturn, at, end)
    decreases |script|
  {
    if script != [] {
      assert !script[0].RejectOperation?;
      AllReturning(op, Next(op, pc, script[0], true, true).value, script[1..], end, at + 1);
    }
  }

  // Before the status write, and with no error yet.
  predicate Unwritten(pc: Pc) {
    !pc.Stored? && !pc.Failing? && !pc.Closing?
  }

  // The script from the first call a worker at pc may still have before it.
  function Remainder(op: Operation, hooks: Hooks, pc: Pc): seq<Effect>
    requires Known(op) && Unwritten(pc)
  {
    match pc
    case Preparing(n) => FullScript(op, hooks)[n..]
    case Fetched(n) => RETRIEVAL[n + 1..] + (PipelineScript(hooks.preApply, hooks.postApply) + Finish(op))
    case Ran(n) =>
      if n == 0 then [ReadStatus] + (HookScript(PostHooks(op, hooks)) + Finish(op))
      else if n == 1 then HookScript(PostHooks(op, hooks)) + Finish(op)
      else PUBLICATION[n - 1..]
    case Uploaded => PUBLICATION[3..]
    case Recorded => PUBLICATION[4..]
  }

  predicate EndsWith(script: seq<Effect>, rest: seq<Effect>) {
    |rest| <= |script| && script[|script| - |rest|..] == rest
  }

  lemma EndsWithin(a: seq<Effect>, script: seq<Effect>, rest: seq<Effect>)
    requires EndsWith(script, rest)
    ensures EndsWith(a + script, rest)
  {
    assert (a + script)[|a + script| - |rest|..] == script[|script| - |rest|..];
  }

  lemma RanDrives(op: Operation, hooks: Hooks)
    requires Known(op)
    ensures Drives(op, Ran(1), Remainder(op, hooks, Ran(1)), Stored)
    ensures Drives(op, Ran(0), Remainder(op, hooks, Ran(0)), Stored)
  {
    var rest := HookScript(PostHooks(op, hooks)) + Finish(op);
    FinishDrives(op);
    HooksDrive(op, Ran(1), PostHooks(op, hooks));
    DrivesBoth(op, Ran(1), HookScript(PostHooks(op, hooks)), Ran(1), Finish(op), Stored);
    OneDrives(op, Ran(0), ReadStatus, Ran(1), rest, Stored);
  }

  lemma RemainderDrives(op: Operation, hooks: Hooks, pc: Pc)
    requires Known(op) && Unwritten(pc) && PcFits(op, pc)
    ensures Drives(op, pc, Remainder(op, hooks, pc), Stored)
  {
    match pc
    case Preparing(n) => SetupDrives(op, hooks, n);
    case Fetched(n) => RetrievalDrives(hooks, n + 1);
    case Ran(n) => if n <= 1 { RanDrives(op, hooks); } else { PublicationDrives(op, n - 1); }
    case Uploaded => PublicationDrives(op, 3);
    case Recorded => PublicationDrives(op, 4);
  }

  lemma EndsInHandler(op: Operation, hooks: Hooks, rest: seq<Effect>)
    requires EndsWith(HandlerScript(op, hooks), rest)
    ensures EndsWith(FullScript(op, hooks), rest)
  {
    EndsWithin(INITIALISATION, HandlerScript(op, hooks), rest);
    EndsWithin(PREPARATION, INITIALISATION + HandlerScript(op, hooks), rest);
  }

  lemma EndsInFinish(op: Operation, hooks: Hooks, rest: seq<Effect>)
    requires Known(op) && EndsWith(Finish(op), rest)
    ensures EndsWith(HandlerScript(op, hooks), rest)
  {
    var run := PipelineScript(PreHooks(op, hooks), PostHooks(op, hooks));
    HandlerShape(op, hooks);
    EndsWithin(run, Finish(op), rest);
    EndsWithin(Fetching(op), run + Finish(op), rest);
  }

  lemma SplitAfterFirst<T>(a: seq<T>, x: T, y: T, b: seq<T>, c: seq<T>)
    ensures a + ([x, y] + b) + c == a + [x] + ([y] + (b + c))
  {
  }

  lemma RanEndsHandler(op: Operation, hooks: Hooks)
    requires Known(op)
    ensures EndsWith(HandlerScript(op, hooks), Remainder(op, hooks, Ran(0)))
  {
    var run, rest := HookScript(PreHooks(op, hooks)) + [Terraform], Remainder(op, hooks, Ran(0));
    HandlerShape(op, hooks);
    SplitAfterFirst(HookScript(PreHooks(op, hooks)), Terraform, ReadStatus, HookScript(PostHooks(op, hooks)),
                    Finish(op));
    EndsWithin(run, rest, rest);
    EndsWithin(Fetching(op), run + rest, rest);
  }

  lemma CheckedEndsHandler(op: Operation, hooks: Hooks)
    requires Known(op)
    ensures EndsWith(HandlerScript(op, hooks), Remainder(op, hooks, Ran(1)))
  {
    var whole, rest := HandlerScript(op, hooks), Remainder(op, hooks, Ran(1));
    RanEndsHandler(op, hooks);
    assert Remainder(op, hooks, Ran(0)) == [ReadStatus] + rest;
    EndsShorter(whole, ReadStatus, rest);
  }

  lemma EndsShorter(script: seq<Effect>, e: Effect, rest: seq<Effect>)
    requires EndsWith(script, [e] + rest)
    ensures EndsWith(script, rest)
  {
    assert script[|script| - |rest|..] == script[|script| - |rest| - 1..][1..];
  }

  lemma FetchedEndsHandler(hooks: Hooks, n: CopiesDone)
    ensures EndsWith(HandlerScript(Apply, hooks), Remainder(Apply, hooks, Fetched(n)))
  {
    assert RETRIEVAL == RETRIEVAL[..n + 1] + RETRIEVAL[n + 1..];
    assert HandlerScript(Apply, hooks) == RETRIEVAL[..n + 1] + Remainder(Apply, hooks, Fetched(n));
  }

  // What is left is the end of the job's script.
  lemma RemainderEndsScript(op: Operation, hooks: Hooks, pc: Pc)
    requires Known(op) && Unwritten(pc) && PcFits(op, pc)
    ensures EndsWith(FullScript(op, hooks), Remainder(op, hooks, pc))
  {
    var rest := Remainder(op, hooks, pc);
    if pc.Preparing? {
    } else {
      if pc.Fetched? {
        FetchedEndsHandler(hooks, pc.copies);
      } else if pc == Ran(0) {
        RanEndsHandler(op, hooks);
      } else if pc == Ran(1) {
        CheckedEndsHandler(op, hooks);
      } else {
        EndsInFinish(op, hooks, rest);
      }
      EndsInHandler(op, hooks, rest);
    }
  }

  // Calls that neither write the status, nor fetch a plan, nor reject the operation.
  predicate Plain(e: Effect) {
    !e.WriteStatus? && !e.Download? && !e.RejectOperation?
  }

  // Plain but for the download of an apply.
  predicate Ordinary(op: Operation, e: Effect) {
    !e.WriteStatus? && !e.RejectOperation? && (e.Download? ==> op.Apply?)
  }

  lemma {:induction false} HooksArePlain(hooks: seq<string>)
    ensures forall e :: e in HookScript(hooks) ==> Plain(e)
  {
    if hooks != [] { HooksArePlain(hooks[1..]); }
  }

  lemma PipelineIsPlain(pre: seq<string>, post: seq<string>)
    ensures forall e :: e in PipelineScript(pre, post) ==> Plain(e)
  {
    HooksArePlain(pre);
    HooksArePlain(post);
  }

  lemma FinishWritesOnce(op: Operation)
    requires Known(op)
    ensures Finish(op) == Finish(op)[..|Finish(op)| - 1] + [WriteStatus(Success(op))]
    ensures forall e :: e in Finish(op)[..|Finish(op)| - 1] ==> Plain(e)
  {
    if !op.Apply? {
      assert PUBLICATION[..4] == [Show, ReadPlanFile, UploadPlan, RecordPlan];
    }
  }

  lemma StartIsOrdinary(op: Operation)
    ensures forall e :: e in Start(op) ==> Ordinary(op, e)
  {
  }

  lemma Regrouped<T>(a: seq<T>, b: seq<T>, c: seq<T>, d: seq<T>, e: seq<T>, f: seq<T>)
    ensures a + (b + (c + (d + (e + f)))) == a + (b + c) + (d + e) + f
  {
  }

  lemma FullWritesOnce(op: Operation, hooks: Hooks) returns (before: seq<Effect>)
    requires Known(op)
    ensures FullScript(op, hooks) == before + [WriteStatus(Success(op))] && forall e :: e in before ==> Ordinary(op, e)
  {
    var run, finish := PipelineScript(PreHooks(op, hooks), PostHooks(op, hooks)), Finish(op)[..|Finish(op)| - 1];
    HandlerShape(op, hooks);
    FinishWritesOnce(op);
    PipelineIsPlain(PreHooks(op, hooks), PostHooks(op, hooks));
    StartIsOrdinary(op);
    before := Start(op) + (run + finish);
    Regrouped(PREPARATION, INITIALISATION, Fetching(op), run, finish, [WriteStatus(Success(op))]);
  }

  lemma CheckedWritesOnce(op: Operation, hooks: Hooks) returns (before: seq<Effect>)
    requires Known(op)
    ensures HookScript(PostHooks(op, hooks)) + Finish(op) == before + [WriteStatus(Success(op))]
    ensures forall e :: e in before ==> Plain(e)
  {
    var post, finish := HookScript(PostHooks(op, hooks)), Finish(op)[..|Finish(op)| - 1];
    FinishWritesOnce(op);
    HooksArePlain(PostHooks(op, hooks));
    before := post + finish;
    assert post + (finish + [WriteStatus(Success(op))]) == before + [WriteStatus(Success(op))];
  }

  lemma RanWritesOnce(op: Operation, hooks: Hooks, n: LooksDone) returns (before: seq<Effect>)
    requires Known(op) && PcFits(op, Ran(n))
    ensures Remainder(op, hooks, Ran(n)) == before + [WriteStatus(Success(op))] && forall e :: e in before ==> Plain(e)
  {
    if n >= 2 {
      before := PUBLICATION[n - 1..4];
    } else {
      before := CheckedWritesOnce(op, hooks);
      if n == 0 {
        var write := [WriteStatus(Success(op))];
        assert [ReadStatus] + (before + write) == [ReadStatus] + before + write;
        before := [ReadStatus] + before;
      }
    }
  }

  lemma FetchedWritesOnce(hooks: Hooks, n: CopiesDone) returns (before: seq<Effect>)
    ensures Remainder(Apply, hooks, Fetched(n)) == before + [WriteStatus(Applied)]
    ensures forall e :: e in before ==> Plain(e)
  {
    var run := PipelineScript(hooks.preApply, hooks.postApply);
    PipelineIsPlain(hooks.preApply, hooks.postApply);
    before := RETRIEVAL[n + 1..] + run;
  }

  // What is left of a script has one status write, at its end: the success of the operation. Only an apply that has not
  // fetched its plan still has to.
  lemma RemainderWritesOnce(op: Operation, hooks: Hooks, pc: Pc) returns (before: seq<Effect>)
    requires Known(op) && Unwritten(pc) && PcFits(op, pc)
    ensures Remainder(op, hooks, pc) == before + [WriteStatus(Success(op))]
    ensures forall e :: e in before ==> if pc.Preparing? then Ordinary(op, e) else Plain(e)
  {
    match pc
    case Preparing(n) =>
      var all := FullWritesOnce(op, hooks);
      before := all[n..];
      assert forall e :: e in before ==> e in all;
    case Fetched(n) => before := FetchedWritesOnce(hooks, n);
    case Ran(n) => before := RanWritesOnce(op, hooks, n);
    case Uploaded => before := PUBLICATION[3..4];
    case Recorded => before := [];
  }

  // With every call returning nil, what is left leads to the success, given the plan an apply still has to fetch.
  lemma RemainderSucceeds(op: Operation, hooks: Hooks, pc: Pc, outcome: nat -> bool, at: nat, st: Status)
    requires Known(op) && Unwritten(pc) && PcFits(op, pc)
    requires outcome(at + |Remainder(op, hooks, pc)| - 1)
    ensures Written(st, Remainder(op, hooks, pc), outcome, at) == Success(op)
    ensures forall e :: e in Remainder(op, hooks, pc) && e.Download? ==> op.Apply? && pc.Preparing?
  {
    var before := RemainderWritesOnce(op, hooks, pc);
    var write := [WriteStatus(Success(op))];
    assert forall i :: 0 <= i < |before| ==> before[i] in before;
    NothingWritten(st, before, outcome, at);
    WrittenBoth(st, before, write, outcome, at);
    assert write[1..] == [];
  }

  // ---------- a whole call of processJob ----------

  lemma OneReaches(op: Operation, pc: Pc, e: Effect, outcome: nat -> bool, at: nat)
    requires var ok := Returns(e, outcome, at); Next(op, pc, e, ok, ok).Some?
    ensures var ok := Returns(e, outcome, at); Reaches(op, pc, [e], outcome, at, Next(op, pc, e, ok, ok).value)
  {
    assert [e][1..] == [];
  }

  lemma ExecutionReaches(op: Operation, full: seq<Effect>, outcome: nat -> bool, made: seq<Effect>, err: Option<Effect>)
    returns (end: Pc)
    requires Drives(op, Preparing(0), full, Stored) && Executed(full, outcome, made, err)
    ensures Reaches(op, Preparing(0), made, outcome, 0, end)
    ensures if err.None? then end == Closing(2) else end.Failing? && end.logs == 2
  {
    if FailedEarly(full, outcome, made, err) {
      FollowingReaches(op, Preparing(0), full, Stored, outcome, 0, made, err);
      end := Failing(false, 2);
    } else {
      var bodyErr :| Joined(full, outcome, made, err, bodyErr);
      var body := made[..|made| - 1];
      FollowingReaches(op, Preparing(0), full, Stored, outcome, 0, body, bodyErr);
      end := JoinReaches(op, if bodyErr.None? then Stored else Failing(false, 2), outcome, body);
      assert body + [JoinReader] == made;
    }
  }

  lemma JoinReaches(op: Operation, pc: Pc, outcome: nat -> bool, body: seq<Effect>) returns (end: Pc)
    requires pc.Stored? || (pc.Failing? && pc.logs == 2)
    requires Reaches(op, Preparing(0), body, outcome, 0, pc)
    ensures Reaches(op, Preparing(0), body + [JoinReader], outcome, 0, end)
    ensures if pc.Stored? && outcome(|body|) then end == Closing(2) else end.Failing? && end.logs == 2
  {
    var ok := outcome(|body|);
    end := Next(op, pc, JoinReader, ok, ok).value;
    OneReaches(op, pc, JoinReader, outcome, |body|);
    ReachesBoth(op, Preparing(0), body, pc, [JoinReader], end, outcome, 0);
  }

  lemma LogReaches(op: Operation, pc: Pc, outcome: nat -> bool, at: nat) returns (end: Pc)
    requires pc == Closing(2) || (pc.Failing? && pc.logs == 2)
    ensures Reaches(op, pc, [UploadLog, RecordSummary], outcome, at, end)
    ensures if pc.Closing? then end == Closing(0) else end.Failing?
  {
    end := if pc.Closing? then Closing(0) else Failing(pc.wrote, 0);
    var log := [UploadLog, RecordSummary];
    assert log[1..] == [RecordSummary] && log[1..][1..] == [];
    var mid := if pc.Closing? then Closing(1) else Failing(pc.wrote, 1);
    assert Reaches(op, mid, log[1..], outcome, at + 1, end);
  }

  lemma ClosureReaches(op: Operation, pc: Pc, outcome: nat -> bool, at: nat, failed: bool, logged: bool)
      returns (end: Pc)
    requires if failed then pc.Failing? && pc.logs == 2 else pc == Closing(2)
    ensures Reaches(op, pc, Ending(failed, logged), outcome, at, end)
    ensures end.Closing?
  {
    var log := if logged then [UploadLog, RecordSummary] else [];
    var write := if failed then [WriteStatus(Failed)] else [];
    var mid := pc;
    if logged { mid := LogReaches(op, pc, outcome, at); }
    end := if failed then Closing(0) else mid;
    if failed { OneReaches(op, mid, WriteStatus(Failed), outcome, at + |log|); }
    ReachesBoth(op, pc, log, mid, write, end, outcome, at);
  }

  lemma WholeReaches(op: Operation, full: seq<Effect>, outcome: nat -> bool, logged: bool, execution: seq<Effect>,
                     err: Option<Effect>)
    returns (end: Pc)
    requires Drives(op, Preparing(0), full, Stored) && Executed(full, outcome, execution, err)
    ensures Reaches(op, Preparing(0), Calls(execution, err.Some?, logged), outcome, 0, end)
    ensures end.Closing?
  {
    var mid := ExecutionReaches(op, full, outcome, execution, err);
    end := ClosureReaches(op, mid, outcome, |execution|, err.Some?, logged);
    ReachesBoth(op, Preparing(0), execution, mid, Ending(err.Some?, logged), end, outcome, 0);
  }

  lemma Release(s: State, w: nat)
    requires w < |s.workers| && s.workers[w].Busy? && s.workers[w].pc.Closing? && s.workers[w].job in s.table
    ensures Executes(s, [Promote(w, None)]) && After(s, [Promote(w, None)]) == s.(workers := s.workers[w := Idle])
  {
    Prepend(s, Promote(w, None), []);
  }

  lemma UnknownIsRejected(op: Operation, hooks: Hooks)
    requires !Known(op)
    ensures FullScript(op, hooks) != [] && FullScript(op, hooks)[|FullScript(op, hooks)| - 1] == RejectOperation
  {
  }

  lemma JoiningWritesNothing(st: Status, made: seq<Effect>, outcome: nat -> bool)
    ensures Written(st, made + [JoinReader], outcome, 0) == Written(st, made, outcome, 0)
  {
    WrittenBoth(st, made, [JoinReader], outcome, 0);
    NothingWritten(Written(st, made, outcome, 0), [JoinReader], outcome, |made|);
  }

  // What the job shows when executeJob has returned, if nobody else writes it: its success if the error is nil.
  lemma ExecutionWrites(op: Operation, hooks: Hooks, outcome: nat -> bool, execution: seq<Effect>, st: Status)
    requires Executed(FullScript(op, hooks), outcome, execution, None)
    ensures Known(op) && Written(st, execution, outcome, 0) == Success(op)
  {
    var full := FullScript(op, hooks);
    var bodyErr :| Joined(full, outcome, execution, None, bodyErr);
    assert execution[..|execution| - 1] == full && execution == full + [JoinReader];
    if !Known(op) { UnknownIsRejected(op, hooks); }
    assert Remainder(op, hooks, Preparing(0)) == full;
    assert Returns(full[|full| - 1], outcome, |full| - 1);
    var before := RemainderWritesOnce(op, hooks, Preparing(0));
    RemainderSucceeds(op, hooks, Preparing(0), outcome, 0, st);
    JoiningWritesNothing(st, full, outcome);
  }

  lemma ClosureWrites(st: Status, outcome: nat -> bool, at: nat, failed: bool, logged: bool)
    ensures var ending := Ending(failed, logged);
            Written(st, ending, outcome, at) == if failed && outcome(at + |ending| - 1) then Failed else st
  {
    var log := if logged then [UploadLog, RecordSummary] else [];
    var write := if failed then [WriteStatus(Failed)] else [];
    NothingWritten(st, log, outcome, at);
    WrittenBoth(st, log, write, outcome, at);
    if failed { assert write[1..] == []; }
  }

  // The calls of processJob up to the promotion.
  function Calls(execution: seq<Effect>, failed: bool, logged: bool): seq<Effect> {
    execution + Ending(failed, logged)
  }

  lemma CallsFetchAlike(objects: set<Object>, j: JobId, execution: seq<Effect>, outcome: nat -> bool, failed: bool,
                        logged: bool)
    requires PlanAtHand(objects, j, execution, outcome, 0)
    ensures PlanAtHand(objects, j, Calls(execution, failed, logged), outcome, 0)
  {
    var made := Calls(execution, failed, logged);
    assert forall i: nat :: i < |made| && made[i].Download? ==> i < |execution| && made[i] == execution[i];
  }

  // What the job shows after them, if nobody else writes it.
  lemma CallsWrite(op: Operation, hooks: Hooks, st: Status, outcome: nat -> bool, logged: bool,
                   execution: seq<Effect>, err: Option<Effect>)
    requires Executed(FullScript(op, hooks), outcome, execution, err)
    ensures var made := Calls(execution, err.Some?, logged);
            && (err.None? ==> Known(op) && Written(st, made, outcome, 0) == Success(op))
            && (err.Some? && outcome(|made| - 1) ==> Written(st, made, outcome, 0) == Failed)
  {
    var before, ending := Written(st, execution, outcome, 0), Ending(err.Some?, logged);
    WrittenBoth(st, execution, ending, outcome, 0);
    ClosureWrites(before, outcome, |execution|, err.Some?, logged);
    assert |Calls(execution, err.Some?, logged)| == |execution| + |ending|;
    if err.None? { ExecutionWrites(op, hooks, outcome, execution, st); }
  }

  // The effects of one processJob call, in the order the code performs them, are steps of one worker from its claim to
  // idle; the promotion at the end may find a queued job or none. An apply needs its plan only if the schedule lets the
  // download succeed. Unless somebody else writes the job meanwhile, it ends with the success of its operation if there
  // was no error, and as FAILED if there was one and that write landed.
  lemma ProcessJobIsARun(s: State, w: nat, j: JobId, outcome: nat -> bool, logged: bool,
                         execution: seq<Effect>, err: Option<Effect>)
    returns (run: seq<Step>)
    requires w < |s.workers| && s.workers[w] == Busy(j, Preparing(0)) && j in s.table && j in s.tally
    requires PlanAtHand(s.objects, j, execution, outcome, 0)
    requires Executed(FullScript(s.table[j].operation, s.table[j].hooks), outcome, execution, err)
    ensures run == Steps(w, Calls(execution, err.Some?, logged), outcome, 0) + [Promote(w, None)]
    ensures Executes(s, run) && After(s, run).workers == s.workers[w := Idle] && j in After(s, run).table
    ensures err.None? ==> Known(s.table[j].operation) && After(s, run).table[j].status == Success(s.table[j].operation)
    ensures var made := Calls(execution, err.Some?, logged);
            err.Some? && outcome(|made| - 1) ==> After(s, run).table[j].status == Failed
  {
    var op, hooks := s.table[j].operation, s.table[j].hooks;
    var made := Calls(execution, err.Some?, logged);
    FullDrives(op, hooks);
    var end := WholeReaches(op, FullScript(op, hooks), outcome, logged, execution, err);
    CallsFetchAlike(s.objects, j, execution, outcome, err.Some?, logged);
    CallsWrite(op, hooks, s.table[j].status, outcome, logged, execution, err);
    var steps := Steps(w, made, outcome, 0);
    ReachingExecutes(s, w, j, made, outcome, 0, end);
    Release(After(s, steps), w);
    RunsCompose(s, steps, [Promote(w, None)]);
    run := steps + [Promote(w, None)];
  }
}
