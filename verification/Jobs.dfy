/** The rows of the jobs table and the vocabulary every other module shares. */
module Jobs {

  datatype Option<+T> = None | Some(value: T)

  // A job id is a UUID; Postgres orders UUIDs by their value, so the value is what is kept.
  type JobId = nat
  type ProjectId = string

  // Microseconds, the resolution of a Postgres timestamp.
  type Time = int

  datatype Status =
    | PendingPlan | Planning | Planned | Approved | Queued
    | Applying | Applied | Destroying | Destroyed | Failed | Cancelled

  // The operation column is free text; the three names the code compares with are singled out.
  datatype Operation = Plan | Apply | Destroy | Unknown(name: string)

  function OperationOf(text: string): Operation {
    if text == "plan" then Plan
    else if text == "apply" then Apply
    else if text == "destroy" then Destroy
    else Unknown(text)
  }

  predicate Known(op: Operation) {
    !op.Unknown?
  }

  // Plan and destroy runs produce a plan file and end in PLANNED.
  predicate MakesPlan(op: Operation) {
    op.Plan? || op.Destroy?
  }

  datatype Hooks = Hooks(prePlan: seq<string>, postPlan: seq<string>,
                         preApply: seq<string>, postApply: seq<string>,
                         preDestroy: seq<string>)

  // The names used in the object store.
  datatype Object =
    | PlanFile(job: JobId)              // jobs/<id>/tfplan
    | RunLog(job: JobId)                // jobs/<id>/run.log
    | ProjectState(project: ProjectId)  // projects/<id>/terraform.tfstate

  datatype Job = Job(project: ProjectId, operation: Operation, hooks: Hooks, status: Status,
                     createdAt: Time, planPath: Option<Object>, planSummary: Option<string>)

  type Table = map<JobId, Job>

  // The columns no statement of the program ever updates.
  predicate SameIdentity(a: Job, b: Job) {
    a.project == b.project && a.operation == b.operation && a.hooks == b.hooks && a.createdAt == b.createdAt
  }
}
