/** One claimed job's run: the effects it performs, in order, and the automaton its progress follows. */
module Execution {
  import opened Jobs

  datatype SetupPart =
    | EnsureBucket | GetSecrets | MakeWorkDir | NewRunner
    | BackendConfig | TerraformFiles | TerraformInit

  datatype Effect =
    | Setup(part: SetupPart)
    | Announce(command: string)      // publish ">>> Running hook: ..."
    | Hook(command: string)
    | Download | CreatePlanFile | CopyPlanFile
    | Terraform                      // plan, apply, or plan -destroy, by the job's operation
    | ReadStatus                     // the cancellation check's GetJob
    | Show | ReadPlanFile
    | UploadPlan | RecordPlan
    | WriteStatus(status: Status)
    | RejectOperation
    | JoinReader                     // the log-reading goroutine's outcome
    | UploadLog | RecordSummary
    | PromoteNext

  predicate OfHook(e: Effect) {
    e.Announce? || e.Hook?
  }

  // The setup call that comes after n others.
  function SetupCall(n: SetupsDone): SetupPart
    requires n < 7
  {
    match n
    case 0 => EnsureBucket
    case 1 => GetSecrets
    case 2 => MakeWorkDir
    case 3 => NewRunner
    case 4 => BackendConfig
    case 5 => TerraformFiles
    case _ => TerraformInit
  }

  // How many of the seven setup calls have returned.
  type SetupsDone = n: nat | n <= 7

  // Of creating the local plan file and copying into it.
  type CopiesDone = n: nat | n <= 2

  // Of the status read, showing the plan, and reading its file.
  type LooksDone = n: nat | n <= 3

  // How many of the two log steps (upload, summary) are still ahead.
  type LogsLeft = n: nat | n <= 2

  datatype Pc =
    | Preparing(setups: SetupsDone)          // claimed, terraform not yet run
    | Fetched(copies: CopiesDone)            // apply only: plan downloaded
    | Ran(looks: LooksDone)                  // terraform step succeeded
    | Uploaded                               // plan file uploaded
    | Recorded                               // plan path recorded in the row
    | Stored                                 // PLANNED or APPLIED written
    | Failing(wrote: bool, logs: LogsLeft)   // an error is being returned; FAILED is to be written
    | Closing(logs: LogsLeft)                // only the log steps and the promotion are left

  // The status a successful run of the operation ends with.
  function Success(op: Operation): Status
    requires Known(op)
  {
    if op.Apply? then Applied else Planned
  }

  // Where a worker goes when it performs effect e. `ok` says whether the call returned nil; `took` whether
  // a write reached the store (a write may take effect although its caller sees an error). Hooks run right before the
  // terraform step and right after the status read.
  function Next(op: Operation, pc: Pc, e: Effect, ok: bool, took: bool): Option<Pc> {
    var fail := Failing(false, 2);
    match pc
    case Preparing(n) =>
      if n < 7 then (if e == Setup(SetupCall(n)) then Some(if ok then Preparing(n + 1) else fail) else None)
      else if OfHook(e) && MakesPlan(op) then Some(if ok then pc else fail)
      else if e.Download? && op.Apply? then Some(if ok then Fetched(0) else fail)
      else if e.Terraform? && MakesPlan(op) then Some(if ok then Ran(0) else fail)
      else if e.RejectOperation? && op.Unknown? && !ok then Some(fail)
      else None
    case Fetched(n) =>
      if n == 0 then (if e.CreatePlanFile? then Some(if ok then Fetched(1) else fail) else None)
      else if n == 1 then (if e.CopyPlanFile? then Some(if ok then Fetched(2) else fail) else None)
      else if OfHook(e) && op.Apply? then Some(if ok then pc else fail)
      else if e.Terraform? && op.Apply? then Some(if ok then Ran(0) else fail)
      else None
    case Ran(n) =>
      if n == 0 then (if e.ReadStatus? then Some(if ok then Ran(1) else fail) else None)
      else if n == 1 && OfHook(e) && !op.Destroy? then Some(if ok then pc else fail)
      else if n == 1 && e == WriteStatus(Applied) && op.Apply? then Some(if ok then Stored else Failing(took, 2))
      else if n == 1 && e.Show? && MakesPlan(op) then Some(if ok then Ran(2) else fail)
      else if n == 2 && e.ReadPlanFile? then Some(if ok then Ran(3) else fail)
      else if n == 3 && e.UploadPlan? then Some(if ok then Uploaded else fail)
      else None
    case Uploaded =>
      if e.RecordPlan? then Some(if ok then Recorded else fail) else None
    case Recorded =>
      if e == WriteStatus(Planned) then Some(if ok then Stored else Failing(took, 2)) else None
    case Stored =>
      if e.JoinReader? then Some(if ok then Closing(2) else Failing(true, 2)) else None
    case Failing(wrote, logs) =>
      if e.JoinReader? then Some(pc)
      else if e.UploadLog? && logs == 2 then Some(Failing(wrote, 1))
      else if e.RecordSummary? && logs == 1 then Some(Failing(wrote, 0))
      else if e == WriteStatus(Failed) then Some(Closing(0))
      else None
    case Closing(logs) =>
      if e.UploadLog? && logs == 2 then Some(Closing(1))
      else if e.RecordSummary? && logs == 1 then Some(Closing(0))
      else None
  }

  // Claimed, and no status write of this run has reached the table yet.
  predicate BeforeFirstWrite(pc: Pc) {
    pc.Preparing? || pc.Fetched? || pc.Ran? || pc.Uploaded? || pc.Recorded? || (pc.Failing? && !pc.wrote)
  }

  predicate BeforeTerraform(pc: Pc) {
    pc.Preparing? || pc.Fetched?
  }

  predicate PcFits(op: Operation, pc: Pc) {
    match pc
    case Preparing(_) => true
    case Fetched(_) => op.Apply?
    case Ran(n) => Known(op) && (n > 1 ==> MakesPlan(op))
    case Uploaded => MakesPlan(op)
    case Recorded => MakesPlan(op)
    case Stored => Known(op)
    case Failing(wrote, _) => wrote ==> Known(op)
    case Closing(_) => true
  }

  // An upper bound on the state-changing steps a run at pc still has.
  function Remaining(pc: Pc): (n: nat)
    ensures 1 <= n <= 22
  {
    match pc
    case Preparing(n) => 22 - n
    case Fetched(n) => 14 - n
    case Ran(n) => 11 - n
    case Uploaded => 7
    case Recorded => 6
    case Stored => 5
    case Failing(_, logs) => 2 + logs
    case Closing(logs) => 1 + logs
  }
}
