# Verification of the Terraform job orchestrator

This project models the orchestrator's job queue, its workers, its HTTP job handlers, its log broker and its log
stream in Dafny, and proves what they guarantee under every interleaving. Check it with
`dafny verify dfyconfig.toml`.

## What is modelled

**The job table.** `Jobs` has the rows, the eleven statuses of `internal/models/job.go`, and the object store's names.
`Queue` has the row updates and the orders the queries use. `Store` is a class with one method for each SQL statement
the core uses; each call is told what became of its statement (done, lost, or done although the reply was lost).
`Server` and `Daemon` are classes for the handlers that read a status, decide, and write unconditionally, and for
recovery and the timeout sweep. Handlers take what everybody else did between their read and their write as a
function on the table; `HandlerRefinement` shows that any run of the whole system can stand there. The daemon's loops
take such a function before each of their statements.

**A worker's run.** `WorkerPool.JobRun` performs `processJob` imperatively, call by call, with the code's early
returns, and records the calls it makes. `Script` has the fixed list of calls of each operation. `CallOrder` says which
calls a run makes, in which order, and where its hooks stand. `Execution` has the same run as an automaton with a stage
for every call, `RunRefinement` shows that every recorded run is a path of that automaton, and `PathOrder` that no path
skips or repeats a call.

**The whole system.** `Orchestrator` is a transition system: any number of workers, any number of requests between
their read and their write, sweeps, crashes at any point, restarts with recovery, a clock, and uploads by
somebody else. History variables count creations, claims, approvals, terraform applies and promotions. Claims and
promotions may take any eligible row, because overlapping `SKIP LOCKED` transactions can; a sweep goes by the clock of
the moment its statement began. `Transactions` models claims, promotions, single-row writes and the sweep as statements
that come to one row after the other, lock it, wait for it or pass it, and commit or fail; it shows that they act like
the atomic steps. `TransactionalSystem` puts workers, requests and history beside such a database and shows that the
transition system simulates the whole, so that what holds in every reachable state holds there too. `PromotionOrder`
derives the order of promotions from the statements.

**Logs.** `Broker` models the map of slices on the heap: backing arrays, spare capacity, in-place removal and closing.
`BrokerRuns` splits `Publish` into single sends under the read lock and interleaves them with everything else.
`EventStream` has the handler's output and a reader that follows sections 9.2.5 and 9.2.6 of the WHATWG HTML Living
Standard. `LogDelivery` puts the two together. `Summary` has the log summary.

## Where code and documentation disagree

The model follows the code.

- A job cancelled while a worker holds it is supposed to stay CANCELLED (`internal/daemon/worker_test.go:22`, `:123`).
  The check after the terraform step returns nil either way, so the run goes on and writes PLANNED or APPLIED:
  `Settled.MidFlightCancellationCanBeLost`. `Settled.FinalIffSettled` says exactly when a terminal status is final.
- Approving a planned job is documented as applying it (`TESTING.md:64`). A claim goes by the immutable operation, so
  an approved plan is planned again: `Safety.ApprovalNeverApplies`. An apply job is never PLANNED or APPROVED, no run
  uploads the plan file it downloads, and without an upload from outside it never runs terraform:
  `OutsidePlan.ApplyNeedsOutsidePlan`. With one it can succeed: `Witness.EveryOperationCanSucceed`.
- Two tests expect a project to refuse a second active job (`internal/db/queries_test.go:18`,
  `internal/api/server_test.go:108`). The handler queues it instead, and as it checks first and inserts later, two
  requests can even both insert PENDING_PLAN: `Credit.ConcurrentCreatesBothPending`. What does hold is
  `Credit.CreditBound`.
- `packages/db/src/schema/jobs.ts` omits QUEUED; the status domain here is that of `internal/models/job.go`.
- DESTROYED is declared and read, but nothing writes it: `Safety.StatusNamesOperation`.

## Reading the results

"Known operation" means plan, apply or destroy; a job may carry any other text, and a claim then leaves its status as
it was. A *stale* approval is one whose read said PLANNED but whose job has moved on before its write. `Reachable`
means reachable from an empty table by any run at all. Runs are finite sequences of steps of any length.

Some results need a condition; each condition is shown to be needed.

- *The credit bound* needs known operations: the claim of a job of unknown operation spends a credit nobody handed out
  (`Credit.ClaimSpends`).
- *Mutual exclusion* needs approvals that land fresh: `Exclusion.ApprovalKeepsExclusionIff` says exactly what one
  approval write does to it, `Exclusion.StaleApprovalBreaksExclusion` how two overlapping approvals break it.
- *Coming to rest* is exact in `ComingToRest.ComesToRestIff`. A job of unknown operation is the only obstacle: it keeps
  the system going if its workers die, or if their FAILED writes are lost, each by itself (`ComingToRest.GoesRound`).
  Where neither happens every run ends, whatever the operations (`Termination.SoundRunsEnd`).
- *Recovery* holds for good unless an approval read before the job was claimed is still to land:
  `Settled.OrphanStaysDownIff`.
- *First in, first out* needs promotions that do not overlap (`PromotionOrder.OverlapReverses`), and neither a sweep
  (`PromotionOrder.AbortedSweepReverses`) nor a single write (`PromotionOrder.FailedWriteReverses`) that locks a queued
  row, fails, and so gives the row back. With both it is proved from the statements, and
  `PromotionOrder.GivingBackKeepsOrderIff` says exactly when rows given back do no harm.
- *The stream round trip* needs lines without CR and LF: `EventStream.StreamRoundTripIff`. Terraform's progress output
  and hook commands of several lines can contain them.

A line a hook prints is published twice, by the hook's own reader and, as it is also written to the run's pipe, by the
reader of that pipe (`internal/daemon/worker_handlers.go:218-226`, `internal/daemon/worker_execute.go:43-54`). A job with
hooks therefore has several publishers, and `LogDelivery` allows any number of them.

## Model

| member | source | states |
|---|---|---|
| Queue.FirstExists | internal/db/queries_jobs.go:278-285 | every non-empty set of rows has a row that no other precedes in `created_at, id` (and so none older) |
| Queue.FirstIsUnique | internal/db/queries_jobs.go:283-283 | ordering by `created_at` and `id` leaves no ties |
| Queue.SweepInterval | internal/db/queries_jobs.go:338-338 | a timeout in nanoseconds becomes the whole seconds it contains, truncated toward zero, in microseconds |
| Store.JobStore.UpdateJobStatus | internal/db/queries_jobs.go:114-125 | the write is unconditional: the row gets the status whatever it showed, an absent id changes nothing |
| Store.JobStore.UpdateJobPlanResult | internal/db/queries_jobs.go:127-138 | sets path and summary of that row, nothing else |
| Store.JobStore.UpdateJobSummary | internal/db/queries_jobs.go:140-151 | sets the summary of that row, nothing else |
| Store.JobStore.CreateJob | internal/db/queries_jobs.go:185-222 | one new row with the given fields, no plan path and no summary, all others unchanged; an unknown project inserts nothing |
| Store.JobStore.ClaimNextJob | internal/db/queries_jobs.go:345-416 | takes a row that is oldest among the unlocked ones with the statuses and moves exactly it to PLANNING, APPLYING or DESTROYING by its operation, leaving the status of any other; no rows iff all are locked or there are none |
| Store.JobStore.PromoteNextJob | internal/db/queries_jobs.go:268-329 | takes the unlocked QUEUED row of the project that is oldest, and of the oldest the one with the least id, and makes exactly it PENDING_PLAN; no rows iff all are locked or there are none |
| Store.JobStore.FailTimedOutJobs | internal/db/queries_jobs.go:331-343 | exactly the QUEUED rows created more than the timeout ago, the nanoseconds cut down to whole seconds toward zero, become FAILED; the returned count is their number |
| Store.JobStore.FetchJobsByStatuses | internal/db/queries_jobs.go:60-112 | exactly the rows with the statuses, each once, oldest first |
| Store.ListOneMore | internal/db/queries_jobs.go:81-105 | appending the oldest row left keeps a listing complete and ordered |
| Store.JobStore.GetActiveJobForProject | internal/db/queries_jobs.go:224-266 | some job of the project that is PENDING_PLAN, PLANNING, PLANNED, APPROVED or APPLYING; no rows iff there is none |
| Store.JobStore.IsProjectActive | internal/db/queries_projects.go:11-34 | true iff some job of the project is none of APPLIED, DESTROYED, FAILED and CANCELLED; that is, locks it, waits in its queue, or is destroying |
| Store.LocksIff | internal/db/queries_jobs.go:228-241 | a status locks its project iff it keeps it active and is neither QUEUED nor DESTROYING: the query by exclusion and the query by inclusion differ in exactly these two |
| Store.JobStore.UnlockProjectState | internal/db/queries_projects.go:36-63 | cancels the job it found, on whatever the table has become, if it is one of the five locking statuses and its id is the lock's; refuses if only other jobs lock the project; succeeds without a write if none does; a failed read is an error |
| Server.ApiServer.HandleCreateJob | internal/api/handlers_jobs.go:24-52 | the new job carries the request's own operation text, is QUEUED iff the project was active when it was read, though the table may have changed since; every refusal and its effect |
| Server.ApiServer.HandleApproveJob | internal/api/handlers_jobs.go:93-114 | refuses unless the status read is PLANNED, then writes APPROVED over whatever is there by then |
| Server.ApiServer.HandleDiscardJob | internal/api/handlers_jobs.go:116-140 | refuses APPLYING, APPLIED, FAILED and CANCELLED, and from every other status writes CANCELLED over whatever is there by then |
| HandlerRefinement.WriteLandsOnWhateverIsThere | internal/api/handlers_jobs.go:96-106 | however long a request waits and whatever runs meanwhile, its write is possible and replaces the status then shown: the handlers' contracts, as steps of the transition system |
| HandlerRefinement.InsertGoesByTheRead | internal/api/handlers_jobs.go:34-45 | a creation inserts with the status its read called for, whatever has run meanwhile |
| HandlerRefinement.BeginsIff | internal/api/handlers_jobs.go:102-131 | from which statuses an approval, a discard, an unlock, a recovery and a claim can go on in the transition system: exactly those their code admits |
| HandlerRefinement.DropGivesUp | internal/api/handlers_jobs.go:102-106 | a request given up before its write changes nothing then, and never writes later |
| HandlerRefinement.WorkWrites | internal/db/queries_jobs.go:114-151 | a worker's writes do to the table what the store's statements do, its uploads add its plan file and its log, and nothing else it does changes either |
| Daemon.OrchestratorDaemon.RecoverJobs | internal/daemon/daemon.go:101-130 | one failure write for each job the fetch listed, with anything others do before each of them |
| Daemon.RecoveredRow | internal/daemon/daemon.go:115-127 | a row others leave alone is FAILED afterwards iff it was fetched and its write landed, and is otherwise unchanged |
| Daemon.RecoveredStaysDown | internal/daemon/daemon.go:121-126 | with discards and unlocks landing in between, a job whose write landed ends FAILED or CANCELLED |
| Daemon.RecoveryFailsTheOrphans | internal/daemon/daemon.go:101-130 | when its writes succeed, exactly the jobs in flight at the fetch end FAILED or CANCELLED, and no other row is touched |
| Daemon.OrchestratorDaemon.Sweep | internal/daemon/daemon.go:86-98 | one sweep a tick, a failed one skipped, with anything others do before each of them |
| Daemon.SweptRow | internal/daemon/daemon.go:90-96 | a row others leave alone is FAILED afterwards iff a successful sweep found it overdue, and is otherwise unchanged |
| Daemon.LastSweepLeavesNoneOverdue | internal/daemon/daemon.go:90-96 | right after a successful sweep nothing is overdue, whatever others did before |
| Daemon.OrchestratorDaemon.Start | internal/daemon/daemon.go:68-99 | the directory, then recovery, which may fail, then the sweeps, with the workers and everybody else writing throughout |
| Script.FollowsIsUnique | internal/daemon/worker_execute.go:48-101 | a script and a schedule of outcomes determine the calls made and the error |
| WorkerPool.JobRun.RunHooks | internal/daemon/worker_handlers.go:200-247 | hooks are announced and run in order up to the first failure |
| WorkerPool.JobRun.WithCancellationCheck | internal/daemon/worker_handlers.go:43-58 | the terraform step, then a status read whose answer changes nothing |
| WorkerPool.JobRun.WithHooks | internal/daemon/worker_handlers.go:31-41 | pre-hooks, the step, post-hooks, up to the first failure |
| WorkerPool.JobRun.HandlePlan | internal/daemon/worker_handlers.go:60-106 | the calls made are a prefix of the plan script up to the first failure; PLANNED is written only after upload and record |
| WorkerPool.JobRun.HandleApply | internal/daemon/worker_handlers.go:108-150 | the same for apply: download first, APPLIED last |
| WorkerPool.JobRun.HandleDestroy | internal/daemon/worker_handlers.go:152-198 | the same for destroy, which plans and has no post-hooks |
| WorkerPool.JobRun.ExecuteJob | internal/daemon/worker_execute.go:18-101 | for any schedule of outcomes: besides hooks the seven setup calls and then its operation's calls, in the order listed, each once, up to the first that fails; all of them if the result is nil, which takes both goroutines; hooks announced and run before terraform and after the status read |
| WorkerPool.JobRun.ProcessJob | internal/daemon/worker.go:87-131 | the run, the log steps iff something was logged, the FAILED write iff there was an error, and exactly one promotion, last |
| CallOrder.CallsAreInOrder | internal/daemon/worker_execute.go:19-100 | however a run goes, its calls besides hooks are the first n of the listed ones, and all of them when it ends without an error |
| CallOrder.HooksAreInOrder | internal/daemon/worker_handlers.go:31-41 | a run without an error has announced each hook right before running it, the pre-hooks after everything before terraform, the post-hooks after the status read and before everything that follows, a destroy none of these |
| PathOrder.PathsKeepTheOrder | internal/daemon/worker_handlers.go:60-198 | on every path of the automaton the calls besides hooks are an initial part of the listed ones: past the setup only after its seven calls, at the end only after all |
| RunRefinement.FullDrives | internal/daemon/worker_execute.go:84-93 | the script of every operation takes the automaton to its end, and a failure anywhere to the failure exit |
| RunRefinement.FollowingReaches | internal/daemon/worker_execute.go:84-100 | the calls a run makes take the automaton to its end, or to the failure exit iff there was an error |
| RunRefinement.ReachingExecutes | internal/daemon/worker_handlers.go:60-198 | whatever path the automaton admits a worker can take, with the plan at hand only where the schedule lets the download succeed; the job then shows the last status written |
| RunRefinement.ProcessJobIsARun | internal/daemon/worker.go:87-131 | every call of `processJob`, as the imperative model performs it, is a run of one worker from its claim to idle; undisturbed, it ends with the success of the operation if there was no error, and FAILED if there was one and that write landed |
| RunRefinement.RemainderEndsScript | internal/daemon/worker_handlers.go:60-198 | what a worker has left at each stage is the end of its job's script |
| RunRefinement.RemainderSucceeds | internal/daemon/worker_handlers.go:97-103 | what is left writes one status, the success of the operation; only an apply that has not fetched its plan still has to |
| Orchestrator.RunFixesIdentity | internal/db/queries_jobs.go:114-151 | no run changes a job's project, operation, hooks or creation time, and none deletes a job |
| Safety.StepKeepsConsistent | internal/daemon/worker_handlers.go:60-198 | the invariant tying statuses, operations, artefacts, counters, workers and pending writes is kept by every step |
| Safety.ReachableIsConsistent | internal/daemon/worker.go:63-131 | it holds in every reachable state |
| Safety.ApplyAtMostOnce | internal/daemon/worker_handlers.go:130-147 | over any run, crashes, stale writes and recovery included, `terraform apply` is started at most once a job, and only for apply jobs |
| Safety.AppliedWasApplied | internal/daemon/worker_handlers.go:130-147 | a job shown as APPLIED was handed to `terraform apply` exactly once |
| Safety.ClaimsBoundedByApprovals | internal/db/queries_jobs.go:362-367 | claims of a job with a known operation are at most one more than approval writes |
| Safety.PlannedHasArtefact | internal/daemon/worker_handlers.go:91-103 | a PLANNED or APPROVED job has its plan path recorded and that object is stored, stale approvals and repeated runs included |
| Safety.StatusNamesOperation | internal/db/queries_jobs.go:362-367 | PLANNING only for plan, APPLYING and APPLIED only for apply, DESTROYING only for destroy, DESTROYED never |
| Safety.ApprovalNeverApplies | internal/api/handlers_jobs.go:102-106 | whatever claims an APPROVED job plans it again |
| OutsidePlan.ApplyNeedsOutsidePlan | internal/daemon/worker_handlers.go:112-128 | an apply job runs terraform or is APPLIED only in runs where something outside the program uploads its plan file |
| Witness.EveryOperationCanSucceed | internal/daemon/worker_execute.go:84-93 | from an empty table a request, a claim and the calls of `processJob`, each returning nil, carry each operation to its success, an apply with exactly one terraform apply |
| Exclusion.StepKeepsExclusive | internal/db/queries_jobs.go:352-376 | discards, unlocks, sweeps, recoveries, crashes and worker steps keep at most one holder of a job; so do approvals that land while the job is still PLANNED |
| Exclusion.FreshRunKeepsExclusive | internal/db/queries_jobs.go:352-376 | runs whose approvals all land fresh keep at most one holder of a job |
| Exclusion.HeldApprovalIsClaimed | internal/api/handlers_jobs.go:102-106 | an approval write that lands on a job some worker holds lets every other worker come to hold it too, at the end of its own run and without any crash |
| Exclusion.ApprovalKeepsExclusionIff | internal/api/handlers_jobs.go:102-106 | with two workers or more, every continuation of an approval write whose later approvals are fresh keeps at most one holder iff nobody holds the job when the write lands |
| Exclusion.AtomicApprovalsExclude | internal/daemon/worker.go:75-82 | if each approval's read and write act as one step, at most one worker is between claiming a job of known operation and its first status write |
| Exclusion.StaleApprovalBreaksExclusion | internal/api/handlers_jobs.go:96-106 | from every PLANNED job, two overlapping approvals and two free workers end with both running it |
| PoolBound.UnknownClaimsBoundedByPool | internal/daemon/worker_execute.go:91-92 | in one life of the pool, given that status writes succeed, a job of unknown operation is claimed no more often than the pool has workers |
| Credit.ClaimSpends | internal/db/queries_jobs.go:352-376 | a claim of a job of unknown operation raises claimable jobs plus busy workers of its project by exactly one, any other claim leaves them as they are |
| Credit.StepSpends | internal/db/queries_jobs.go:268-329 | while its operations are known, no step raises claimable jobs plus busy workers of a project, except a direct creation or an approval, by one |
| Credit.CreditBound | internal/daemon/worker.go:87-104 | claimable jobs plus busy workers of a project whose operations are known never exceed its direct creations plus approval writes |
| Credit.OneCreditMeansSerial | internal/api/handlers_jobs.go:40-45 | with one direct creation and no approval, a project's jobs run strictly one at a time |
| Credit.ConcurrentCreatesBothPending | internal/api/handlers_jobs.go:34-45 | two requests that both read an idle project both insert PENDING_PLAN |
| QueueHistory.StepKeepsBalanced | internal/db/queries_jobs.go:268-343 | every step keeps the four ways out of the queue disjoint and complete |
| QueueHistory.QueueIsConserved | internal/db/queries_jobs.go:268-343 | per project: created QUEUED = still QUEUED + promoted + timed out + cancelled while QUEUED, nothing is promoted twice, and the last two piles show FAILED or CANCELLED and CANCELLED |
| QueueExits.QueueExitsAreFinal | internal/api/handlers_jobs.go:128-133 | a job cancelled while QUEUED shows CANCELLED for good, one that timed out FAILED or CANCELLED for good |
| QueueHistory.NeverRequeued | internal/api/handlers_jobs.go:40-45 | a job that has left QUEUED never returns to it, whatever stale writes land |
| QueueHistory.PromotionInOrderIff | internal/db/queries_jobs.go:278-285 | a project's promotions stay in order over every orderly continuation iff the promotion takes the first queued job; otherwise the same worker can promote the skipped job later |
| QueueHistory.PromotionIsFifo | internal/db/queries_jobs.go:278-292 | over runs whose promotions take the first queued row, a project's promotions are strictly increasing in `created_at, id` |
| PromotionOrder.StepKeepsOneInLine | internal/db/queries_jobs.go:277-292 | whatever else runs, a promotion that overlaps no other of its project is about to take, or has taken, the first queued row that no sweep and no write holds, and that is the row it commits |
| PromotionOrder.NonOverlappingPromotionsAreFifo | internal/db/queries_jobs.go:268-329 | over any run of statements with growing creation times, no two promotions of the project overlapping and no sweep or write giving back a queued row of it, the promotions commit in strictly increasing `created_at, id` |
| PromotionOrder.OverlapReverses | internal/db/queries_jobs.go:283-285 | from any queue of two or more, two overlapping promotions commit the second job before the first |
| PromotionOrder.AbortedSweepReverses | internal/db/queries_jobs.go:331-343 | so does a sweep that has locked the first job and is rolled back, with no two promotions overlapping |
| PromotionOrder.FailedWriteReverses | internal/db/queries_jobs.go:114-125 | so does a cancelling write that has locked the first job and fails |
| PromotionOrder.GivingBackKeepsOrderIff | internal/db/queries_jobs.go:277-292 | when a failing sweep or write gives rows back, every continuation of non-overlapping promotions stays in order iff no row given back comes before one already promoted, nor before one that an open promotion holds, and none that an open scan has passed comes before one it can still take |
| QueueHistory.WaitIsBounded | internal/db/queries_jobs.go:331-343 | with a sweep every period, nothing is QUEUED at an age above the whole seconds of the timeout plus the period |
| QueueHistory.BoundIsReached | internal/db/queries_jobs.go:335-336 | the comparison is strict: a job exactly as old as the timeout survives the sweep and can wait a whole period more |
| Settled.FinalIffSettled | internal/daemon/worker_handlers.go:48-56 | a terminal status stays for ever iff no worker on the job and no pending request can still write another |
| Settled.RunKeepsSettled | internal/api/handlers_jobs.go:128-133 | a terminal job without a worker and without a pending write never changes status again |
| Settled.UnsettledCanChange | internal/daemon/worker_handlers.go:48-56 | a terminal job some worker or request can still write has a run that changes its status |
| Settled.MidFlightCancellationCanBeLost | internal/daemon/worker_handlers.go:52-56 | a worker at any stage before its first write can overwrite CANCELLED with PLANNED or APPLIED |
| Settled.CanSucceed | internal/daemon/worker_handlers.go:60-198 | from every stage before the status write, what is left of the job's script, call by call, leads to its success |
| Settled.CanFail | internal/daemon/worker.go:122-127 | from every stage before the end a run can be marked FAILED |
| Settled.OrphanStaysDownIff | internal/daemon/daemon.go:110-127 | an orphan nobody works on that recovery fetched is, over every continuation whose recovery writes are not lost, never claimed again and FAILED or CANCELLED once they have landed, iff no approval of it is pending |
| Settled.CanGoIdle | internal/daemon/worker.go:122-130 | from every stage a run can end with the worker idle and nothing else changed, by a failing call and a lost FAILED write |
| Termination.StepBalances | internal/daemon/worker.go:69-130 | whatever the step, the measure afterwards, plus one if the step changed anything by itself, is at most the measure before plus what the step adds |
| Termination.RunBalances | internal/daemon/worker.go:69-130 | over every run of any steps, state-changing internal steps are paid for by the first state's measure, new requests, creations, approvals, and abandoned jobs of unknown operation |
| Termination.RunsEnd | internal/daemon/worker.go:69-130 | once creations and approvals stop, the state-changing steps of a run, with time passing and requests beginning, are at most the measure of its first state plus the requests begun, if no job of unknown operation is abandoned |
| Termination.SoundRunsEnd | internal/daemon/worker.go:122-127 | in particular if no worker dies and every status write lands, whatever the operations |
| ComingToRest.ComesToRestIff | internal/db/queries_jobs.go:362-367 | once creations and approvals stop, the state-changing steps still to come are bounded iff the pool is empty, or no job of unknown operation is claimable or waits in a project that still has a job to run |
| ComingToRest.BarrenRunsNeverAbandon | internal/daemon/worker_execute.go:91-92 | without such a job none ever becomes one, through crashes and lost writes |
| ComingToRest.CrashLoops | internal/daemon/worker.go:75-82 | a claim of an unknown operation whose worker dies leads back to where it began |
| ComingToRest.LostWriteLoops | internal/daemon/worker.go:122-127 | so does a run of one whose FAILED write is lost, with no crash |
| ComingToRest.GoesRound | internal/daemon/worker.go:69-130 | either loop alone goes on for any number of state-changing steps |
| ComingToRest.RestlessGoesOn | internal/daemon/worker.go:69-130 | while such a job is there and the pool is not empty, any number of state-changing steps can follow without a single crash, creation or approval |
| Transactions.StepKeepsSound | internal/db/queries_jobs.go:277-292 | a held row keeps matching its query, and no two statements hold the same row |
| Transactions.TransactionsRefineAtomicSteps | internal/db/queries_jobs.go:346-413 | every interleaving of statements, each coming to one row at a time, acts on the table like a sequence of atomic claims, promotions, sweeps of locked rows, writes and inserts |
| Transactions.CommittedClaimIsAClaim | internal/db/queries_jobs.go:352-376 | a committed claim is a claim step of the transition system |
| Transactions.CommittedPromotionIsAPromotion | internal/db/queries_jobs.go:277-292 | a committed promotion is a promotion step of the transition system |
| Transactions.CommittedSweepIsASweep | internal/db/queries_jobs.go:331-343 | a committed sweep that missed no overdue row is a sweep step of the transition system, at the time its statement began |
| Transactions.ClaimCommitsAreExclusive | internal/db/queries_jobs.go:346-413 | commits never claim a row twice unless something made it claimable again in between |
| Transactions.RollbackLeavesNoTrace | internal/db/queries_jobs.go:273-275 | after a transaction that is rolled back, whatever the others did meanwhile, the state is what the others' steps alone bring about |
| Transactions.SweepIsAtomicIff | internal/db/queries_jobs.go:331-343 | a committed sweep fails every overdue row of the table it commits to iff none escaped its snapshot |
| Transactions.SweepActsAtOnce | internal/db/queries_jobs.go:331-343 | beside any claims, promotions and writes, a sweep that locks row after row and rechecks each acts like one statement, if nothing is inserted overdue or requeued meanwhile |
| Transactions.OpenClaimsHoldTheOldest | internal/db/queries_jobs.go:353-360 | k claims open together on a quiet table with distinct times hold exactly the min(k, n) oldest of its n claimable rows |
| TransactionalSystem.ActIsSimulated | internal/db/queries_jobs.go:268-413 | whatever a worker, a request, the sweep or a statement does is a step of the transition system with the same workers, requests, history and table, or changes none of them, and the sweep misses no overdue row |
| TransactionalSystem.EveryStateIsReachable | internal/daemon/worker.go:63-131 | every state that workers and requests reach by way of interleaved statements is reachable in the transition system |
| Broker.WithoutRemoves | internal/pubsub/broker.go:31-38 | leaving takes out the channel itself and nothing else, and keeps the order of the others |
| Broker.LeaveUndoesJoin | internal/pubsub/broker.go:18-43 | unsubscribing undoes subscribing |
| Broker.LeavingAgainChangesNothing | internal/pubsub/broker.go:27-43 | a repeated or mismatched unsubscribe changes nothing |
| Broker.Append | internal/pubsub/broker.go:23-23 | `append` into spare capacity, or into a new array of any larger capacity |
| Broker.Remove | internal/pubsub/broker.go:34-34 | the in-place shift leaves the slice without the cell and the rest in order |
| Broker.LogBroker.constructor | internal/pubsub/broker.go:12-16 | a new broker is sound and has no subscribers |
| Broker.LogBroker.Subscribe | internal/pubsub/broker.go:18-25 | a fresh open channel goes to the end of its job's subscribers; other jobs' arrays stay their own |
| Broker.LogBroker.Unsubscribe | internal/pubsub/broker.go:27-43 | removes and closes exactly that channel, which is open until then; no empty entry remains |
| Broker.LogBroker.Publish | internal/pubsub/broker.go:45-57 | every subscriber of the job, and nobody else, gets the line unless a hundred are waiting |
| Broker.Channel.TrySend | internal/pubsub/broker.go:51-54 | sends iff fewer than a hundred lines are waiting, and drops otherwise |
| BrokerRuns.StepKeepsOrder | internal/pubsub/broker.go:18-57 | every interleaved step keeps open channels subscribed exactly once and publishers on the current subscribers |
| BrokerRuns.StepServes | internal/pubsub/broker.go:45-57 | every step keeps the account between what a publisher published for a channel, offered to it, and still owes it |
| BrokerRuns.NeverPanics | internal/pubsub/broker.go:33-54 | no send hits a closed channel and no channel is closed twice |
| BrokerRuns.PublishersNeverStall | internal/pubsub/broker.go:45-57 | a publisher under way can always go on |
| BrokerRuns.DeliveryIsInOrder | internal/pubsub/broker.go:45-57 | taken ++ waiting is exactly the offers that found room, in order; each publisher's offers are what it published for the job meanwhile, in its own order |
| BrokerRuns.NothingLostIffNeverFull | internal/pubsub/broker.go:51-54 | nothing offered is lost iff no offer found exactly a hundred lines waiting |
| BrokerRuns.NeverFullHearsEverybody | internal/pubsub/broker.go:45-57 | with a backlog that never fills and nobody sending, the subscriber has an interleaving of what all publishers published for the job meanwhile |
| BrokerRuns.SolePublisherIsHeard | internal/daemon/worker_execute.go:50-62 | with one publisher it has exactly the published lines |
| EventStream.StreamJobLogs | internal/api/handlers_jobs.go:77-90 | writes `data: `, the line and two line feeds for each line delivered, nothing else, until the channel closes, the client leaves or a write fails |
| EventStream.ReadTail | internal/api/handlers_jobs.go:86-86 | whatever a line contains, the reader is between two events after its frame and has received no more than the line |
| EventStream.StreamRoundTrip | internal/api/handlers_jobs.go:85-86 | lines free of CR and LF come back exactly, as messages, empty lines and leading blanks or colons included |
| EventStream.StreamRoundTripIff | internal/api/handlers_jobs.go:85-86 | the client reads back the lines iff none of them contains a CR or an LF |
| LogDelivery.ClientReadsWhatWasPublished | internal/api/handlers_jobs.go:74-91 | broker and stream together, with any number of publishers: the handler of a drained, never full channel has taken an interleaving of what was published, and its client reads exactly that iff no published line contains a CR or an LF |
| Summary.JoinSplit | internal/daemon/worker.go:134-140 | joining what was split gives the log back |
| Summary.TailIsSuffix | internal/daemon/worker.go:135-140 | the last pieces join to a suffix that starts the log or follows a newline |
| Summary.SummaryIsLongestSuffix | internal/daemon/worker.go:133-146 | the summary is the longest suffix of the log with at most 49 line feeds and at most 4000 bytes |

## Left out

- Object storage, secrets and terraform clients: each call is one that may succeed or fail; storage is the set of
  objects present, and nothing in the core deletes one.
- SQL text, scanning, request binding and routing: each statement is modelled by its effect on the table. A job's
  project is taken to exist, as its foreign key demands, so the joins with projects drop no row.
- A scan that locks a row and then finds that it no longer matches keeps the lock until its transaction ends; here it
  does not, which only lets other statements reach that row earlier.
- Writes of the plan path and the summary take no row lock in `Transactions`; no query selects by those columns.
- An insertion commits at the instant its creation time is taken.
- The `worker` loop is the change between idle and busy in the transition system; its one-second ticker is not modelled.
- Job ids are natural numbers, ordered like the UUIDs they stand for; times are whole microseconds.
- Statements come to one row after the other in `Transactions`, `TransactionalSystem` and `PromotionOrder` only;
  elsewhere each is one step, as `TransactionalSystem.ActIsSimulated` justifies.
- EveryStateIsReachable: takes the queue timeout to be non-negative, because with a negative one a row inserted behind
  the sweep would be overdue at once; a commit under way when its process dies counts as made before the death.
- A hook is one call that may fail; its output pipe, its process and the order of its two waits are not modelled.
- Which of two failed goroutines the group reports first: the model returns the body's error.
- Contexts: cancellation of a run in progress shows only as calls that fail; the five seconds of the promotion are
  not counted.
- The promotion's failure is the promotion that takes no row; the panic of a worker is its crash.
- A lost connection at a claim's commit is a claim followed by the worker's crash.
- Logs are bytes in `Summary` and characters in `EventStream`; UTF-8 decoding, and a summary cut inside a character,
  are not modelled.
- StreamJobLogs: leaves out what a failed write may have sent in part, because the connection is given up then.
- Go's scheduler and memory model: a step of the broker is atomic, and a writer waiting for the lock keeps no reader out.
- Retries of terraform init, generation of module, variable and backend files, the LOCK and UNLOCK HTTP handlers,
  listing jobs by project, authentication, the dashboard and the database schemas: they would only add easy members.
