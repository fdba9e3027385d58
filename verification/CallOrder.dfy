/** In which order a run makes its calls: what is left of its trace when the hooks are taken away, and where the hooks
    stand in it. */
module CallOrder {
  import opened Jobs
  import opened Execution
  import opened Script

  // The calls other than those of hooks.
  function Skeleton(made: seq<Effect>): seq<Effect> {
    if made == [] then [] else (if OfHook(made[0]) then [] else [made[0]]) + Skeleton(made[1..])
  }

  // The commands of the hooks run.
  function Commands(made: seq<Effect>): seq<string> {
    if made == [] then [] else (if made[0].Hook? then [made[0].command] else []) + Commands(made[1..])
  }

  // The calls made before the first call of e.
  function Until(made: seq<Effect>, e: Effect): seq<Effect> {
    if made == [] || made[0] == e then [] else [made[0]] + Until(made[1..], e)
  }

  // Every hook comes right after its announcement.
  predicate Announced(made: seq<Effect>) {
    forall i :: 0 <= i < |made| && made[i].Hook? ==> 0 < i && made[i - 1] == Announce(made[i].command)
  }

  lemma SkeletonOne(e: Effect, rest: seq<Effect>)
    ensures Skeleton([e] + rest) == (if OfHook(e) then [] else [e]) + Skeleton(rest)
    ensures Commands([e] + rest) == (if e.Hook? then [e.command] else []) + Commands(rest)
  {
    assert ([e] + rest)[1..] == rest;
  }

  lemma {:induction false} SkeletonBoth(a: seq<Effect>, b: seq<Effect>)
    ensures Skeleton(a + b) == Skeleton(a) + Skeleton(b) && Commands(a + b) == Commands(a) + Commands(b)
    decreases |a|
  {
    if a == [] {
      assert a + b == b;
    } else {
      SkeletonBoth(a[1..], b);
      SkeletonOne(a[0], a[1..] + b);
      assert a + b == [a[0]] + (a[1..] + b);
    }
  }

  lemma {:induction false} WithoutHooks(a: seq<Effect>)
    requires forall e :: e in a ==> !OfHook(e)
    ensures Skeleton(a) == a && Commands(a) == []
  {
    if a != [] { WithoutHooks(a[1..]); }
  }

  lemma {:induction false} OnlyHooks(hooks: seq<string>)
    ensures Skeleton(HookScript(hooks)) == [] && Commands(HookScript(hooks)) == hooks && Announced(HookScript(hooks))
    ensures forall e :: e in HookScript(hooks) ==> OfHook(e)
  {
    if hooks != [] {
      var one, rest := [Announce(hooks[0]), Hook(hooks[0])], HookScript(hooks[1..]);
      OnlyHooks(hooks[1..]);
      assert one[1..] == [Hook(hooks[0])] && one[1..][1..] == [];
      SkeletonBoth(one, rest);
      assert HookScript(hooks) == one + rest;
      forall i | 2 <= i < |one + rest| && (one + rest)[i].Hook?
        ensures (one + rest)[i - 1] == Announce((one + rest)[i].command)
      {
        assert (one + rest)[i] == rest[i - 2];
      }
    }
  }

  lemma {:induction false} UntilFirst(a: seq<Effect>, e: Effect, b: seq<Effect>)
    requires e !in a
    ensures Until(a + ([e] + b), e) == a
    decreases |a|
  {
    if a == [] {
      assert a + ([e] + b) == [e] + b;
    } else {
      UntilFirst(a[1..], e, b);
      assert (a + ([e] + b))[0] == a[0] && (a + ([e] + b))[1..] == a[1..] + ([e] + b);
    }
  }

  lemma UntilAfter(made: seq<Effect>, a: seq<Effect>, e: Effect)
    requires a + [e] <= made && e !in a
    ensures Until(made, e) == a
  {
    var b := made[|a| + 1..];
    assert made == a + ([e] + b);
    UntilFirst(a, e, b);
  }

  // ---------- a run that succeeds ----------

  lemma PlainCallsFollow(a: seq<Effect>, calls: seq<Effect>)
    requires Announced(a) && forall e :: e in calls ==> !OfHook(e)
    ensures Skeleton(a + calls) == Skeleton(a) + calls && Commands(a + calls) == Commands(a) && Announced(a + calls)
  {
    SkeletonBoth(a, calls);
    WithoutHooks(calls);
    assert forall i :: |a| <= i < |a + calls| ==> (a + calls)[i] in calls;
  }

  lemma HooksFollow(a: seq<Effect>, hooks: seq<string>)
    requires Announced(a)
    ensures var made := a + HookScript(hooks);
            Skeleton(made) == Skeleton(a) && Commands(made) == Commands(a) + hooks && Announced(made)
  {
    var b := HookScript(hooks);
    OnlyHooks(hooks);
    SkeletonBoth(a, b);
    forall i | |a| <= i < |a + b| && (a + b)[i].Hook? ensures 0 < i && (a + b)[i - 1] == Announce((a + b)[i].command) {
      assert (a + b)[i] == b[i - |a|];
    }
  }

  // Some calls, hooks, terraform and the status read, more hooks, and more calls.
  function Laid(start: seq<Effect>, pre: seq<string>, post: seq<string>, finish: seq<Effect>): seq<Effect> {
    start + HookScript(pre) + [Terraform, ReadStatus] + HookScript(post) + finish
  }

  predicate NoHookIn(calls: seq<Effect>) {
    forall e :: e in calls ==> !OfHook(e)
  }

  lemma LaidSkeleton(start: seq<Effect>, pre: seq<string>, post: seq<string>, finish: seq<Effect>)
    requires NoHookIn(start) && NoHookIn(finish)
    ensures var made := Laid(start, pre, post, finish);
            && Skeleton(made) == start + [Terraform, ReadStatus] + finish
            && Commands(made) == pre + post && Announced(made)
  {
    WithoutHooks(start);
    assert Announced(start) by {
      assert forall i :: 0 <= i < |start| ==> start[i] in start;
    }
    HooksFollow(start, pre);
    assert [] + pre == pre;
    PlainCallsFollow(start + HookScript(pre), [Terraform, ReadStatus]);
    HooksFollow(start + HookScript(pre) + [Terraform, ReadStatus], post);
    PlainCallsFollow(start + HookScript(pre) + [Terraform, ReadStatus] + HookScript(post), finish);
  }

  lemma Extends(a: seq<Effect>, b: seq<Effect>)
    ensures a <= a + b
  {
  }

  lemma LaidPrefixes(start: seq<Effect>, pre: seq<string>, post: seq<string>, finish: seq<Effect>)
    ensures var made := Laid(start, pre, post, finish);
            && start <= made && start + HookScript(pre) + [Terraform] <= made
            && start + HookScript(pre) + [Terraform] + [ReadStatus] <= made
            && start + HookScript(pre) + [Terraform, ReadStatus] + HookScript(post) <= made
            && (finish != [] ==>
                  start + HookScript(pre) + [Terraform, ReadStatus] + HookScript(post) + [finish[0]] <= made)
  {
    var upTo := start + HookScript(pre);
    Extends(start, HookScript(pre));
    Extends(upTo, [Terraform, ReadStatus]);
    Extends(upTo + [Terraform], [ReadStatus]);
    assert upTo + [Terraform] + [ReadStatus] == upTo + [Terraform, ReadStatus];
    Extends(upTo + [Terraform, ReadStatus], HookScript(post));
    Extends(upTo + [Terraform, ReadStatus] + HookScript(post), finish);
  }

  lemma CommandsBefore(start: seq<Effect>, pre: seq<string>)
    requires NoHookIn(start)
    ensures Commands(start + HookScript(pre)) == pre && Commands(start + HookScript(pre) + [Terraform]) == pre
    ensures forall e :: e in start + HookScript(pre) ==> e in start || OfHook(e)
  {
    OnlyHooks(pre);
    WithoutHooks(start);
    SkeletonBoth(start, HookScript(pre));
    SkeletonBoth(start + HookScript(pre), [Terraform]);
    WithoutHooks([Terraform]);
    assert [] + pre == pre && pre + [] == pre;
  }

  // The hooks run before terraform are the first ones; none runs between terraform and the status read.
  lemma LaidPreHooks(start: seq<Effect>, pre: seq<string>, post: seq<string>, finish: seq<Effect>)
    requires NoHookIn(start) && Terraform !in start && ReadStatus !in start
    ensures var made := Laid(start, pre, post, finish);
            Commands(Until(made, Terraform)) == pre && Commands(Until(made, ReadStatus)) == pre
  {
    var made, upTo := Laid(start, pre, post, finish), start + HookScript(pre);
    LaidPrefixes(start, pre, post, finish);
    CommandsBefore(start, pre);
    UntilAfter(made, upTo, Terraform);
    UntilAfter(made, upTo + [Terraform], ReadStatus);
  }

  // All hooks have run when the finish begins.
  lemma LaidPostHooks(start: seq<Effect>, pre: seq<string>, post: seq<string>, finish: seq<Effect>)
    requires NoHookIn(start) && NoHookIn(finish) && finish != [] && finish[0] !in start + [Terraform, ReadStatus]
    ensures Commands(Until(Laid(start, pre, post, finish), finish[0])) == pre + post
  {
    var all := start + HookScript(pre) + [Terraform, ReadStatus] + HookScript(post);
    LaidPrefixes(start, pre, post, finish);
    CommandsBefore(start, pre);
    OnlyHooks(post);
    LaidSkeleton(start, pre, post, []);
    assert Laid(start, pre, post, []) == all;
    assert finish[0] in finish && finish[0] !in all;
    UntilAfter(Laid(start, pre, post, finish), all, finish[0]);
  }

  // No hook runs before the start is over.
  lemma LaidStart(start: seq<Effect>, pre: seq<string>, post: seq<string>, finish: seq<Effect>)
    requires NoHookIn(start) && start != [] && start[|start| - 1] !in start[..|start| - 1]
    ensures Commands(Until(Laid(start, pre, post, finish), start[|start| - 1])) == []
  {
    var n := |start| - 1;
    LaidPrefixes(start, pre, post, finish);
    assert start == start[..n] + [start[n]];
    UntilAfter(Laid(start, pre, post, finish), start[..n], start[n]);
    WithoutHooks(start[..n]);
  }

  // ---------- what executeJob does ----------

  // How far a run got: that many calls besides hooks, and the join with the log reader once it is running.
  lemma {:induction false} SkeletonOfPrefix(full: seq<Effect>, k: nat)
    requires k <= |full|
    ensures Skeleton(full[..k]) <= Skeleton(full) && |Skeleton(full[..k])| <= k
  {
    SkeletonBoth(full[..k], full[k..]);
    assert full[..k] + full[k..] == full;
    FewerCalls(full[..k]);
  }

  lemma {:induction false} FewerCalls(made: seq<Effect>)
    ensures |Skeleton(made)| <= |made|
  {
    if made != [] { FewerCalls(made[1..]); }
  }

  lemma EarlyCalls(full: seq<Effect>, k: nat)
    requires 5 <= k <= |full| && NoHookIn(full[..5])
    ensures |Skeleton(full[..k])| >= 5
  {
    assert full[..k] == full[..5] + full[..k][5..];
    SkeletonBoth(full[..5], full[..k][5..]);
    WithoutHooks(full[..5]);
  }

  lemma Regroup<T>(a: seq<T>, b: seq<T>, c: seq<T>, pre: seq<T>, mid: seq<T>, post: seq<T>, finish: seq<T>)
    ensures a + (b + (c + (pre + (mid + post) + finish))) == a + (b + c) + pre + mid + post + finish
  {
  }

  lemma FullIsLaid(op: Operation, hooks: Hooks)
    requires Known(op)
    ensures FullScript(op, hooks) == Laid(Start(op), PreHooks(op, hooks), PostHooks(op, hooks), Finish(op))
  {
    HandlerShape(op, hooks);
    Regroup(PREPARATION, INITIALISATION, Fetching(op), HookScript(PreHooks(op, hooks)), [Terraform, ReadStatus],
            HookScript(PostHooks(op, hooks)), Finish(op));
  }

  lemma StartIs(op: Operation)
    ensures var setups := [Setup(EnsureBucket), Setup(GetSecrets), Setup(MakeWorkDir), Setup(NewRunner),
                           Setup(BackendConfig), Setup(TerraformFiles), Setup(TerraformInit)];
            && PREPARATION + INITIALISATION == setups
            && Start(op) == setups + if op.Apply? then [Download, CreatePlanFile, CopyPlanFile] else []
  {
    StartSplits(op);
  }

  lemma StartIsPlain(op: Operation)
    requires Known(op)
    ensures var start := Start(op);
            && NoHookIn(start) && start != [] && Terraform !in start && ReadStatus !in start
            && start[|start| - 1] == (if op.Apply? then CopyPlanFile else Setup(TerraformInit))
            && start[|start| - 1] !in start[..|start| - 1] && (Finish(op) + [JoinReader])[0] !in start
    ensures NoHookIn(Finish(op) + [JoinReader])
    ensures (Finish(op) + [JoinReader])[0] == if op.Apply? then WriteStatus(Applied) else Show
  {
    StartIs(op);
  }

  lemma FinishIsPlain(op: Operation)
    ensures NoHookIn(Finish(op))
  {
  }

  lemma KnownSkeleton(op: Operation, hooks: Hooks)
    requires Known(op)
    ensures Skeleton(FullScript(op, hooks))
         == PREPARATION + INITIALISATION + (Fetching(op) + [Terraform, ReadStatus] + Finish(op))
  {
    FullIsLaid(op, hooks);
    StartIsPlain(op);
    FinishIsPlain(op);
    LaidSkeleton(Start(op), PreHooks(op, hooks), PostHooks(op, hooks), Finish(op));
    StartSplits(op);
    Chain(PREPARATION + INITIALISATION, Fetching(op), [Terraform, ReadStatus], Finish(op));
  }

  lemma StartSplits(op: Operation)
    ensures Start(op) == PREPARATION + INITIALISATION + Fetching(op)
  {
  }

  lemma UnknownSkeleton(op: Operation, hooks: Hooks)
    requires !Known(op)
    ensures Skeleton(FullScript(op, hooks)) == PREPARATION + INITIALISATION + [RejectOperation]
  {
    assert FullScript(op, hooks) == PREPARATION + INITIALISATION + [RejectOperation];
    WithoutHooks(FullScript(op, hooks));
  }

  lemma HandlerCalls(op: Operation)
    requires Known(op)
    ensures Fetching(op) + [Terraform, ReadStatus] + Finish(op)
         == if op.Apply? then [Download, CreatePlanFile, CopyPlanFile, Terraform, ReadStatus, WriteStatus(Applied)]
            else [Terraform, ReadStatus, Show, ReadPlanFile, UploadPlan, RecordPlan, WriteStatus(Planned)]
  {
  }

  lemma SkeletonOfScript(op: Operation, hooks: Hooks)
    ensures Skeleton(FullScript(op, hooks))
         == [Setup(EnsureBucket), Setup(GetSecrets), Setup(MakeWorkDir), Setup(NewRunner),
             Setup(BackendConfig), Setup(TerraformFiles), Setup(TerraformInit)]
            + match op
              case Apply => [Download, CreatePlanFile, CopyPlanFile, Terraform, ReadStatus, WriteStatus(Applied)]
              case Unknown(_) => [RejectOperation]
              case _ => [Terraform, ReadStatus, Show, ReadPlanFile, UploadPlan, RecordPlan, WriteStatus(Planned)]
  {
    StartIs(op);
    if Known(op) {
      KnownSkeleton(op, hooks);
      HandlerCalls(op);
    } else {
      UnknownSkeleton(op, hooks);
    }
  }

  lemma Chain<T>(a: seq<T>, b: seq<T>, c: seq<T>, d: seq<T>)
    ensures a + b + c + d == a + (b + c + d)
  {
  }

  lemma BodyCalls(full: seq<Effect>, body: seq<Effect>) returns (n: nat)
    requires body <= full && |full| >= 5 && NoHookIn(full[..5])
    ensures n <= |Skeleton(full)| && Skeleton(body) == Skeleton(full)[..n] && (n <= 4 <==> |body| <= 4)
    ensures body == full ==> n == |Skeleton(full)|
  {
    n := |Skeleton(body)|;
    assert full[..|body|] == body;
    SkeletonOfPrefix(full, |body|);
    if |body| >= 5 { EarlyCalls(full, |body|); }
  }

  lemma CallsUpTo(full: seq<Effect>, calls: seq<Effect>, outcome: nat -> bool, trace: seq<Effect>, err: Option<Effect>)
    returns (n: nat)
    requires Executed(full, outcome, trace, err) && Skeleton(full) == calls && |full| >= 5 && NoHookIn(full[..5])
    ensures n <= |calls| && Skeleton(trace) == calls[..n] + (if n <= 4 then [] else [JoinReader])
    ensures err.None? ==> n == |calls|
  {
    if FailedEarly(full, outcome, trace, err) {
      n := BodyCalls(full, trace);
      assert calls[..n] + [] == calls[..n];
    } else {
      var bodyErr :| Joined(full, outcome, trace, err, bodyErr);
      var body := trace[..|trace| - 1];
      n := BodyCalls(full, body);
      SkeletonBoth(body, [JoinReader]);
      WithoutHooks([JoinReader]);
      assert trace == body + [JoinReader];
      assert Skeleton(trace) == calls[..n] + [JoinReader];
    }
  }

  // However a run goes, besides hooks it makes its operation's calls in their order, each once, up to the first that
  // fails; a run that comes to an end without an error has made them all.
  lemma CallsAreInOrder(op: Operation, hooks: Hooks, outcome: nat -> bool, trace: seq<Effect>, err: Option<Effect>)
    returns (n: nat)
    requires Executed(FullScript(op, hooks), outcome, trace, err)
    ensures var calls := [Setup(EnsureBucket), Setup(GetSecrets), Setup(MakeWorkDir), Setup(NewRunner),
                          Setup(BackendConfig), Setup(TerraformFiles), Setup(TerraformInit)]
              + match op
                case Apply => [Download, CreatePlanFile, CopyPlanFile, Terraform, ReadStatus, WriteStatus(Applied)]
                case Unknown(_) => [RejectOperation]
                case _ => [Terraform, ReadStatus, Show, ReadPlanFile, UploadPlan, RecordPlan, WriteStatus(Planned)];
            && n <= |calls| && Skeleton(trace) == calls[..n] + (if n <= 4 then [] else [JoinReader])
            && (err.None? ==> n == |calls|)
  {
    var full := FullScript(op, hooks);
    SkeletonOfScript(op, hooks);
    assert full[..5] == PREPARATION + [INITIALISATION[0]];
    n := CallsUpTo(full, Skeleton(full), outcome, trace, err);
  }

  lemma SucceedsOnlyIfKnown(op: Operation, hooks: Hooks, outcome: nat -> bool, trace: seq<Effect>)
    requires Executed(FullScript(op, hooks), outcome, trace, None)
    ensures Known(op) && trace == FullScript(op, hooks) + [JoinReader]
  {
    var full := FullScript(op, hooks);
    var bodyErr :| Joined(full, outcome, trace, None, bodyErr);
    assert trace == trace[..|trace| - 1] + [JoinReader];
    assert Returns(full[|full| - 1], outcome, |full| - 1);
  }

  lemma SuccessIsLaid(op: Operation, hooks: Hooks)
    requires Known(op)
    ensures FullScript(op, hooks) + [JoinReader]
         == Laid(Start(op), PreHooks(op, hooks), PostHooks(op, hooks), Finish(op) + [JoinReader])
  {
    FullIsLaid(op, hooks);
  }

  lemma HooksOfLaid(start: seq<Effect>, pre: seq<string>, post: seq<string>, finish: seq<Effect>)
    requires NoHookIn(start) && start != [] && start[|start| - 1] !in start[..|start| - 1]
    requires Terraform !in start && ReadStatus !in start
    requires NoHookIn(finish) && finish != [] && finish[0] !in start + [Terraform, ReadStatus]
    ensures var made := Laid(start, pre, post, finish);
            && Announced(made) && Commands(Until(made, start[|start| - 1])) == []
            && Commands(Until(made, Terraform)) == Commands(Until(made, ReadStatus)) == pre
            && Commands(Until(made, finish[0])) == Commands(made) == pre + post
  {
    LaidSkeleton(start, pre, post, finish);
    LaidPreHooks(start, pre, post, finish);
    LaidPostHooks(start, pre, post, finish);
    LaidStart(start, pre, post, finish);
  }

  // A run that succeeds has announced and run its operation's hooks: the first ones after everything that comes before
  // terraform, the last ones after the status read and before everything that follows.
  lemma HooksAreInOrder(op: Operation, hooks: Hooks, outcome: nat -> bool, trace: seq<Effect>)
    requires Executed(FullScript(op, hooks), outcome, trace, None)
    ensures Announced(trace)
    ensures match op
            case Plan =>
              && Commands(Until(trace, Setup(TerraformInit))) == []
              && Commands(Until(trace, Terraform)) == Commands(Until(trace, ReadStatus)) == hooks.prePlan
              && Commands(Until(trace, Show)) == Commands(trace) == hooks.prePlan + hooks.postPlan
            case Apply =>
              && Commands(Until(trace, CopyPlanFile)) == []
              && Commands(Until(trace, Terraform)) == Commands(Until(trace, ReadStatus)) == hooks.preApply
              && Commands(Until(trace, WriteStatus(Applied))) == Commands(trace) == hooks.preApply + hooks.postApply
            case Destroy =>
              && Commands(Until(trace, Setup(TerraformInit))) == []
              && Commands(Until(trace, Terraform)) == Commands(trace) == hooks.preDestroy
            case Unknown(_) => false
  {
    SucceedsOnlyIfKnown(op, hooks, outcome, trace);
    SuccessIsLaid(op, hooks);
    var start, finish := Start(op), Finish(op) + [JoinReader];
    StartIsPlain(op);
    HooksOfLaid(start, PreHooks(op, hooks), PostHooks(op, hooks), finish);
    if op.Destroy? { assert hooks.preDestroy + [] == hooks.preDestroy; }
  }
}
