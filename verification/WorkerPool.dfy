/** The worker's code for one claimed job, step by step, against the fixed script of effects. */
module WorkerPool {
  import opened Jobs
  import opened Execution
  import opened Script
  import opened CallOrder

  lemma {:induction false} SplitHooks(hooks: seq<string>, i: nat)
    requires i <= |hooks|
    ensures HookScript(hooks) == HookScript(hooks[..i]) + HookScript(hooks[i..])
  {
    if i == 0 {
      assert hooks[0..] == hooks;
    } else {
      SplitHooks(hooks[1..], i - 1);
      assert hooks[1..][..i - 1] == hooks[..i][1..] && hooks[1..][i - 1..] == hooks[i..];
    }
  }

  lemma OneMoreHook(hooks: seq<string>, i: nat)
    requires i < |hooks|
    ensures HookScript(hooks[..i + 1]) == HookScript(hooks[..i]) + [Announce(hooks[i]), Hook(hooks[i])]
  {
    SplitHooks(hooks[..i + 1], i);
    assert hooks[..i + 1][..i] == hooks[..i] && hooks[..i + 1][i..] == [hooks[i]];
    assert HookScript([hooks[i]]) == [Announce(hooks[i]), Hook(hooks[i])];
  }

  // One call of processJob. The environment is a schedule: whether each call returns nil, what status the
  // cancellation check reads, and whether anything was logged.
  class JobRun {
    const op: Operation
    const hooks: Hooks
    const outcome: nat -> bool
    const statusSeen: Status
    const logged: bool
    ghost const full: seq<Effect>   // the script of this job
    var trace: seq<Effect>

    constructor (op: Operation, hooks: Hooks, outcome: nat -> bool, statusSeen: Status, logged: bool)
      ensures this.op == op && this.hooks == hooks && this.outcome == outcome
      ensures this.statusSeen == statusSeen && this.logged == logged
      ensures full == FullScript(op, hooks) && trace == []
    {
      this.op, this.hooks, this.outcome, this.statusSeen, this.logged := op, hooks, outcome, statusSeen, logged;
      full := FullScript(op, hooks);
      trace := [];
    }

    // Everything so far followed the script and returned nil.
    ghost predicate OnTrack()
      reads this
    {
      trace <= full && forall i: nat :: i < |trace| ==> Returns(trace[i], outcome, i)
    }

    // The script calls for these effects next.
    ghost predicate Due(next: seq<Effect>)
      reads this
    {
      OnTrack() && trace + next <= full
    }

    // The last call made failed, and it was the first to do so.
    ghost predicate Stopped(err: Option<Effect>)
      reads this
    {
      err.Some? && Follows(full, outcome, 0, trace, err)
    }

    method Call(e: Effect) returns (err: Option<Effect>)
      requires Due([e])
      modifies this
      ensures trace == old(trace) + [e]
      ensures err.None? ==> OnTrack()
      ensures err.Some? ==> Stopped(err)
    {
      var ok := Returns(e, outcome, |trace|);
      trace := trace + [e];
      err := if ok then None else Some(e);
    }

    // Announce each hook, run it, stop at the first that fails.
    method RunHooks(commands: seq<string>) returns (err: Option<Effect>)
      requires Due(HookScript(commands))
      modifies this
      ensures err.None? ==> OnTrack() && trace == old(trace) + HookScript(commands)
      ensures err.Some? ==> Stopped(err)
      ensures |trace| >= |old(trace)|
    {
      err := None;
      var i := 0;
      while i < |commands|
        invariant 0 <= i <= |commands|
        invariant err.None? && OnTrack() && trace == old(trace) + HookScript(commands[..i])
      {
        OneMoreHook(commands, i);
        SplitHooks(commands, i + 1);
        assert trace + [Announce(commands[i]), Hook(commands[i])] == old(trace) + HookScript(commands[..i + 1]);
        assert old(trace) + HookScript(commands[..i + 1]) <= old(trace) + HookScript(commands);
        var _ := Call(Announce(commands[i]));
        err := Call(Hook(commands[i]));
        if err.Some? { return; }
        i := i + 1;
      }
      assert commands[..i] == commands;
    }
  
    // The terraform step, then the check whether the job was cancelled meanwhile: either way no error.
    method WithCancellationCheck() returns (err: Option<Effect>)
      requires Due([Terraform, ReadStatus])
      modifies this
      ensures err.None? ==> OnTrack() && trace == old(trace) + [Terraform, ReadStatus]
      ensures err.Some? ==> Stopped(err)
      ensures |trace| >= |old(trace)|
    {
      assert trace + [Terraform, ReadStatus] == trace + [Terraform] + [ReadStatus];
      err := Call(Terraform);
      if err.Some? { return; }
      err := Call(ReadStatus);
      if err.Some? { return; }
      if statusSeen == Cancelled {
        return None;
      }
      return None;
    }

    method WithHooks(pre: seq<string>, post: seq<string>) returns (err: Option<Effect>)
      requires Due(PipelineScript(pre, post))
      modifies this
      ensures err.None? ==> OnTrack() && trace == old(trace) + PipelineScript(pre, post)
      ensures err.Some? ==> Stopped(err)
      ensures |trace| >= |old(trace)|
    {
      ghost var step := [Terraform, ReadStatus];
      Parts(trace, HookScript(pre), step + HookScript(post), full);
      err := RunHooks(pre);
      if err.Some? { return; }
      Parts(trace, step, HookScript(post), full);
      err := WithCancellationCheck();
      if err.Some? { return; }
      err := RunHooks(post);
      assert old(trace) + HookScript(pre) + step + HookScript(post) == old(trace) + PipelineScript(pre, post);
    }

    // Show the plan, read its file, upload it, record it, and only then write PLANNED.
    method PublishPlan() returns (err: Option<Effect>)
      requires Due(PUBLICATION)
      modifies this
      ensures err.None? ==> OnTrack() && trace == old(trace) + PUBLICATION
      ensures err.Some? ==> Stopped(err)
      ensures |trace| >= |old(trace)|
    {
      ghost var before := trace;
      Parts(before, [Show], [ReadPlanFile, UploadPlan, RecordPlan, WriteStatus(Planned)], full);
      err := Call(Show);
      if err.Some? { return; }
      Parts(trace, [ReadPlanFile], [UploadPlan, RecordPlan, WriteStatus(Planned)], full);
      err := Call(ReadPlanFile);
      if err.Some? { return; }
      Parts(trace, [UploadPlan], [RecordPlan, WriteStatus(Planned)], full);
      err := Call(UploadPlan);
      if err.Some? { return; }
      Parts(trace, [RecordPlan], [WriteStatus(Planned)], full);
      err := Call(RecordPlan);
      if err.Some? { return; }
      err := Call(WriteStatus(Planned));
      assert before + [Show] + [ReadPlanFile] + [UploadPlan] + [RecordPlan] + [WriteStatus(Planned)]
          == before + PUBLICATION;
    }

    method HandlePlan() returns (err: Option<Effect>)
      requires op.Plan? && Due(HandlerScript(op, hooks))
      modifies this
      ensures err.None? ==> OnTrack() && trace == old(trace) + HandlerScript(op, hooks)
      ensures err.Some? ==> Stopped(err)
      ensures |trace| >= |old(trace)|
    {
      Parts(trace, PipelineScript(hooks.prePlan, hooks.postPlan), PUBLICATION, full);
      err := WithHooks(hooks.prePlan, hooks.postPlan);
      if err.Some? { return; }
      err := PublishPlan();
    }

    method HandleDestroy() returns (err: Option<Effect>)
      requires op.Destroy? && Due(HandlerScript(op, hooks))
      modifies this
      ensures err.None? ==> OnTrack() && trace == old(trace) + HandlerScript(op, hooks)
      ensures err.Some? ==> Stopped(err)
      ensures |trace| >= |old(trace)|
    {
      Parts(trace, PipelineScript(hooks.preDestroy, []), PUBLICATION, full);
      err := WithHooks(hooks.preDestroy, []);
      if err.Some? { return; }
      err := PublishPlan();
    }

    method FetchPlan() returns (err: Option<Effect>)
      requires Due(RETRIEVAL)
      modifies this
      ensures err.None? ==> OnTrack() && trace == old(trace) + RETRIEVAL
      ensures err.Some? ==> Stopped(err)
      ensures |trace| >= |old(trace)|
    {
      ghost var before := trace;
      Parts(before, [Download], [CreatePlanFile, CopyPlanFile], full);
      err := Call(Download);
      if err.Some? { return; }
      Parts(trace, [CreatePlanFile], [CopyPlanFile], full);
      err := Call(CreatePlanFile);
      if err.Some? { return; }
      err := Call(CopyPlanFile);
      assert before + [Download] + [CreatePlanFile] + [CopyPlanFile] == before + RETRIEVAL;
    }

    method HandleApply() returns (err: Option<Effect>)
      requires op.Apply? && Due(HandlerScript(op, hooks))
      modifies this
      ensures err.None? ==> OnTrack() && trace == old(trace) + HandlerScript(op, hooks)
      ensures err.Some? ==> Stopped(err)
      ensures |trace| >= |old(trace)|
    {
      ghost var pipeline := PipelineScript(hooks.preApply, hooks.postApply);
      Parts(trace, RETRIEVAL, pipeline + [WriteStatus(Applied)], full);
      err := FetchPlan();
      if err.Some? { return; }
      Parts(trace, pipeline, [WriteStatus(Applied)], full);
      err := WithHooks(hooks.preApply, hooks.postApply);
      if err.Some? { return; }
      err := Call(WriteStatus(Applied));
      assert old(trace) + RETRIEVAL + pipeline + [WriteStatus(Applied)] == old(trace) + HandlerScript(op, hooks);
    }

    method HandleOperation() returns (err: Option<Effect>)
      requires Due(HandlerScript(op, hooks))
      modifies this
      ensures err.None? ==> OnTrack() && trace == old(trace) + HandlerScript(op, hooks)
      ensures err.Some? ==> Stopped(err)
      ensures |trace| >= |old(trace)|
    {
      match op
      case Plan => err := HandlePlan();
      case Apply => err := HandleApply();
      case Destroy => err := HandleDestroy();
      case Unknown(_) => err := Call(RejectOperation);
    }

    // Bucket, secrets, working directory, terraform runner.
    method Prepare() returns (err: Option<Effect>)
      requires trace == [] && Due(PREPARATION)
      modifies this
      ensures err.None? ==> OnTrack() && trace == PREPARATION
      ensures err.Some? ==> Stopped(err) && |trace| <= |PREPARATION|
    {
      err := Call(Setup(EnsureBucket));
      if err.Some? { return; }
      err := Call(Setup(GetSecrets));
      if err.Some? { return; }
      err := Call(Setup(MakeWorkDir));
      if err.Some? { return; }
      err := Call(Setup(NewRunner));
    }

    // Backend configuration, module files, terraform init.
    method Initialise() returns (err: Option<Effect>)
      requires Due(INITIALISATION)
      modifies this
      ensures err.None? ==> OnTrack() && trace == old(trace) + INITIALISATION
      ensures err.Some? ==> Stopped(err)
      ensures |trace| > |old(trace)|
    {
      ghost var before := trace;
      Parts(before, [Setup(BackendConfig)], [Setup(TerraformFiles), Setup(TerraformInit)], full);
      err := Call(Setup(BackendConfig));
      if err.Some? { return; }
      Parts(trace, [Setup(TerraformFiles)], [Setup(TerraformInit)], full);
      err := Call(Setup(TerraformFiles));
      if err.Some? { return; }
      err := Call(Setup(TerraformInit));
      assert before + [Setup(BackendConfig)] + [Setup(TerraformFiles)] + [Setup(TerraformInit)]
          == before + INITIALISATION;
    }

    // The goroutine that runs terraform: its own error, and the operation's, which is remembered separately.
    method RunBody() returns (bodyErr: Option<Effect>, executeErr: Option<Effect>)
      requires full == FullScript(op, hooks) && trace == PREPARATION && OnTrack()
      modifies this
      ensures bodyErr.None? ==> OnTrack() && trace == full && executeErr.None?
      ensures bodyErr.Some? ==> Stopped(bodyErr) && (executeErr.None? || executeErr == bodyErr)
      ensures |trace| > |PREPARATION|
    {
      executeErr := None;
      Parts(trace, INITIALISATION, HandlerScript(op, hooks), full);
      bodyErr := Initialise();
      if bodyErr.Some? { return; }
      executeErr := HandleOperation();
      bodyErr := executeErr;
      assert PREPARATION + INITIALISATION + HandlerScript(op, hooks) == full;
    }

    // The log reader's goroutine ends too. The group's error is that of the goroutine that failed first; either will do
    // where both failed.
    method Wait(bodyErr: Option<Effect>) returns (waitErr: Option<Effect>)
      modifies this
      ensures trace == old(trace) + [JoinReader] && trace[..|trace| - 1] == old(trace)
      ensures bodyErr.Some? ==> waitErr == bodyErr
      ensures bodyErr.None? ==> waitErr == if outcome(|old(trace)|) then None else Some(JoinReader)
    {
      var readerFails := !outcome(|trace|);
      trace := trace + [JoinReader];
      waitErr := if bodyErr.Some? then bodyErr else if readerFails then Some(JoinReader) else None;
    }

    // n is how many of its operation's calls it makes.
    method ExecuteJob() returns (err: Option<Effect>, ghost n: nat)
      requires full == FullScript(op, hooks) && trace == []
      modifies this
      ensures Executed(full, outcome, trace, err)
      // Besides hooks it makes its operation's calls in this order, each once, up to the first that fails.
      ensures var calls := [Setup(EnsureBucket), Setup(GetSecrets), Setup(MakeWorkDir), Setup(NewRunner),
                            Setup(BackendConfig), Setup(TerraformFiles), Setup(TerraformInit)]
                + match op
                  case Apply => [Download, CreatePlanFile, CopyPlanFile, Terraform, ReadStatus, WriteStatus(Applied)]
                  case Unknown(_) => [RejectOperation]
                  case _ => [Terraform, ReadStatus, Show, ReadPlanFile, UploadPlan, RecordPlan, WriteStatus(Planned)];
              && n <= |calls| && Skeleton(trace) == calls[..n] + (if n <= 4 then [] else [JoinReader])
              && (err.None? ==> n == |calls|)
      ensures err.None? ==> Announced(trace) && match op
                case Plan =>
                  && Commands(Until(trace, Setup(TerraformInit))) == []
                  && Commands(Until(trace, Terraform)) == Commands(Until(trace, ReadStatus)) == hooks.prePlan
                  && Commands(Until(trace, Show)) == Commands(trace) == hooks.prePlan + hooks.postPlan
                case Apply =>
                  && Commands(Until(trace, CopyPlanFile)) == []
                  && Commands(Until(trace, Terraform)) == Commands(Until(trace, ReadStatus)) == hooks.preApply
                  && Commands(Until(trace, WriteStatus(Applied))) == Commands(trace) == hooks.preApply + hooks.postApply
                case Destroy =>
                  && Commands(Until(trace, Setup(TerraformInit))) == []
                  && Commands(Until(trace, Terraform)) == Commands(trace) == hooks.preDestroy
                case Unknown(_) => false
    {
      assert trace + PREPARATION <= full;
      err := Prepare();
      if err.Some? {
        n := CallsAreInOrder(op, hooks, outcome, trace, err);
        return;
      }
      var bodyErr, executeErr := RunBody();
      var waitErr := Wait(bodyErr);
      err := if waitErr.Some? && executeErr.None? then waitErr else executeErr;
      assert Joined(full, outcome, trace, err, bodyErr);
      n := CallsAreInOrder(op, hooks, outcome, trace, err);
      if err.None? { HooksAreInOrder(op, hooks, outcome, trace); }
    }

    // What executeJob did, the log if there is one, the failure write iff there was an error, and one promotion, last.
    method ProcessJob() returns (err: Option<Effect>, ghost execution: seq<Effect>)
      requires full == FullScript(op, hooks) && trace == []
      modifies this
      ensures Executed(full, outcome, execution, err)
      ensures trace == execution + (if logged then [UploadLog, RecordSummary] else [])
                       + (if err.Some? then [WriteStatus(Failed)] else []) + [PromoteNext]
    {
      ghost var n;
      err, n := ExecuteJob();
      execution := trace;
      if logged {
        trace := trace + [UploadLog];
        trace := trace + [RecordSummary];
      }
      if err.Some? {
        trace := trace + [WriteStatus(Failed)];
      }
      // deferred
      trace := trace + [PromoteNext];
      assert trace == execution + (if logged then [UploadLog, RecordSummary] else [])
                      + (if err.Some? then [WriteStatus(Failed)] else []) + [PromoteNext];
    }
  }

  lemma Parts(before: seq<Effect>, a: seq<Effect>, b: seq<Effect>, full: seq<Effect>)
    requires before + (a + b) <= full
    ensures before + a <= full && before + a + b <= full && before + a + b == before + (a + b)
  {
    assert before + a + b == before + (a + b);
    assert before + a <= before + a + b;
  }
}
