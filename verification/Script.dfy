/** The fixed script of a run, and which part of it a schedule of successes and failures lets happen. */
module Script {
  import opened Jobs
  import opened Execution

  // ---------- the fixed script of a run ----------

  const PREPARATION := [Setup(EnsureBucket), Setup(GetSecrets), Setup(MakeWorkDir), Setup(NewRunner)]
  const INITIALISATION := [Setup(BackendConfig), Setup(TerraformFiles), Setup(TerraformInit)]
  const PUBLICATION := [Show, ReadPlanFile, UploadPlan, RecordPlan, WriteStatus(Planned)]
  const RETRIEVAL := [Download, CreatePlanFile, CopyPlanFile]

  function HookScript(hooks: seq<string>): seq<Effect> {
    if hooks == [] then [] else [Announce(hooks[0]), Hook(hooks[0])] + HookScript(hooks[1..])
  }

  // Pre-hooks, the terraform step, the status read, post-hooks.
  function PipelineScript(pre: seq<string>, post: seq<string>): seq<Effect> {
    HookScript(pre) + ([Terraform, ReadStatus] + HookScript(post))
  }

  function HandlerScript(op: Operation, hooks: Hooks): seq<Effect> {
    match op
    case Plan => PipelineScript(hooks.prePlan, hooks.postPlan) + PUBLICATION
    case Apply => RETRIEVAL + (PipelineScript(hooks.preApply, hooks.postApply) + [WriteStatus(Applied)])
    case Destroy => PipelineScript(hooks.preDestroy, []) + PUBLICATION
    case Unknown(_) => [RejectOperation]
  }

  function FullScript(op: Operation, hooks: Hooks): seq<Effect> {
    PREPARATION + (INITIALISATION + HandlerScript(op, hooks))
  }

  function PreHooks(op: Operation, hooks: Hooks): seq<string> {
    match op
    case Plan => hooks.prePlan
    case Apply => hooks.preApply
    case _ => hooks.preDestroy
  }

  function PostHooks(op: Operation, hooks: Hooks): seq<string> {
    match op
    case Plan => hooks.postPlan
    case Apply => hooks.postApply
    case _ => []
  }

  function Finish(op: Operation): seq<Effect> {
    if op.Apply? then [WriteStatus(Applied)] else PUBLICATION
  }

  function Fetching(op: Operation): seq<Effect> {
    if op.Apply? then RETRIEVAL else []
  }

  // The handler's script, whatever the operation: an apply fetches its plan; hooks, terraform and the status read; the
  // status write, after publishing where there is something to publish.
  lemma HandlerShape(op: Operation, hooks: Hooks)
    requires Known(op)
    ensures HandlerScript(op, hooks)
         == Fetching(op) + (PipelineScript(PreHooks(op, hooks), PostHooks(op, hooks)) + Finish(op))
  {
    if !op.Apply? {
      var rest := PipelineScript(PreHooks(op, hooks), PostHooks(op, hooks)) + Finish(op);
      assert [] + rest == rest;
    }
  }

  // Everything before the first hook of a known operation.
  function Start(op: Operation): seq<Effect> {
    PREPARATION + (INITIALISATION + Fetching(op))
  }

  // ---------- a script under a schedule of outcomes ----------

  // outcome(n) says whether the n-th call of the run returns nil. Publishing cannot fail; the default branch
  // of the operation switch cannot succeed.
  predicate Returns(e: Effect, outcome: nat -> bool, at: nat) {
    e.Announce? || (outcome(at) && !e.RejectOperation?)
  }

  // The calls made are the script up to and including the first that fails; err is that call.
  ghost predicate Follows(script: seq<Effect>, outcome: nat -> bool, at: nat, made: seq<Effect>, err: Option<Effect>) {
    && |made| <= |script| && made == script[..|made|]
    && (forall i: nat :: i + 1 < |made| ==> Returns(made[i], outcome, at + i))
    && match err
       case None => made == script && (made != [] ==> Returns(made[|made| - 1], outcome, at + |made| - 1))
       case Some(e) => made != [] && made[|made| - 1] == e && !Returns(e, outcome, at + |made| - 1)
  }

  // A script and a schedule leave no choice.
  lemma FollowsIsUnique(script: seq<Effect>, outcome: nat -> bool, at: nat,
                        made: seq<Effect>, err: Option<Effect>, made': seq<Effect>, err': Option<Effect>)
    requires Follows(script, outcome, at, made, err) && Follows(script, outcome, at, made', err')
    ensures made == made' && err == err'
  {
    assert 0 < |made| <= |made'| ==> made[|made| - 1] == made'[|made| - 1];
    assert 0 < |made'| <= |made| ==> made'[|made'| - 1] == made[|made'| - 1];
  }

  // An error while preparing is returned at once.
  ghost predicate FailedEarly(full: seq<Effect>, outcome: nat -> bool, made: seq<Effect>, err: Option<Effect>) {
    |made| <= |PREPARATION| && err.Some? && Follows(full, outcome, 0, made, err)
  }

  // After that the script runs in one goroutine while another reads the log; the result is nil iff both return nil.
  ghost predicate Joined(full: seq<Effect>, outcome: nat -> bool, made: seq<Effect>, err: Option<Effect>,
                         bodyErr: Option<Effect>) {
    && |made| >= |PREPARATION| + 2 && made[|made| - 1] == JoinReader
    && Follows(full, outcome, 0, made[..|made| - 1], bodyErr)
    && (err.None? <==> bodyErr.None? && outcome(|made| - 1))
  }

  // What executeJob does.
  ghost predicate Executed(full: seq<Effect>, outcome: nat -> bool, made: seq<Effect>, err: Option<Effect>) {
    FailedEarly(full, outcome, made, err) || exists bodyErr :: Joined(full, outcome, made, err, bodyErr)
  }

  // What processJob does once executeJob has returned: the log, and the failure write iff there was an error.
  function Ending(failed: bool, logged: bool): seq<Effect> {
    (if logged then [UploadLog, RecordSummary] else []) + (if failed then [WriteStatus(Failed)] else [])
  }
}
