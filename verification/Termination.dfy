/** Does the orchestrator come to rest once requests stop? A measure accounts for every step of every run; the one
    thing that can keep it going for ever is a job of unknown operation that is claimed and left unfinished. */
module Termination {
  import opened Jobs
  import opened Queue
  import opened Execution
  import opened Orchestrator
  import opened Safety
  import opened Counting
  import opened QueueHistory
  import PoolBound

  // ---------- the measure ----------

  // One run, from claim to promotion, takes at most this many state-changing steps.
  const RUN_WEIGHT := 23

  predicate Active(st: Status) {
    st.Queued? || Claimable(st)
  }

  // Worker v holds job j and has not yet closed its run.
  predicate Staffs(v: Worker, j: JobId) {
    Works(v, j) && !v.pc.Closing?
  }

  // The runs job j may still see: one, if its operation is known; one by each worker not yet on it, if not.
  predicate HasSlot(t: Table, workers: seq<Worker>, j: JobId, w: nat) {
    && j in t && Active(t[j].status)
    && if Known(t[j].operation) then w == 0 else w < |workers| && !Staffs(workers[w], j)
  }

  function Slots(t: Table, workers: seq<Worker>): set<(JobId, nat)> {
    set j, w: nat | j in t && w <= |workers| && HasSlot(t, workers, j, w) :: (j, w)
  }

  function WorkerWeight(v: Worker): nat {
    if v.Idle? then 0 else Remaining(v.pc)
  }

  function PoolWeight(workers: seq<Worker>): nat {
    if workers == [] then 0 else WorkerWeight(workers[0]) + PoolWeight(workers[1..])
  }

  function Measure(s: State): nat {
    RUN_WEIGHT * |Slots(s.table, s.workers)| + |InQueue(s.table)| + PoolWeight(s.workers) + |s.requests|
  }

  lemma {:induction false} PoolWeightOfUpdate(workers: seq<Worker>, w: nat, v: Worker)
    requires w < |workers|
    ensures PoolWeight(workers[w := v]) == PoolWeight(workers) - WorkerWeight(workers[w]) + WorkerWeight(v)
  {
    if w == 0 {
      assert workers[w := v][1..] == workers[1..];
    } else {
      PoolWeightOfUpdate(workers[1..], w - 1, v);
      assert workers[w := v][1..] == workers[1..][w - 1 := v];
    }
  }

  lemma {:induction false} FewerSlots(a: set<(JobId, nat)>, b: set<(JobId, nat)>, x: (JobId, nat))
    requires a <= b
    ensures |a| <= |b| && (x in b && x !in a ==> |a| + 1 <= |b|)
  {
    SubsetSize(a, b);
    if x in b && x !in a { SubsetSize(a, b - {x}); }
  }

  // ---------- what a step may add to it ----------

  // The steps that happen of themselves: not new requests, writes that revive or add a job, uploads or the clock.
  predicate Internal(s: State, step: Step) {
    match step
    case BeginCreate(_, _, _, _) => false
    case EndCreate(_, _) => false
    case Begin(_, _, _) => false
    case End(r) => r in s.requests && s.requests[r].Writing? && !s.requests[r].kind.Approve?
    case Tick(_) => false
    case Store(_) => false
    case _ => true
  }

  predicate SameVisible(s: State, t: State) {
    t.table == s.table && t.workers == s.workers && t.objects == s.objects && t.requests == s.requests
  }

  predicate Changes(s: State, step: Step)
    requires Enabled(s, step)
  {
    Internal(s, step) && !SameVisible(s, Perform(s, step))
  }

  // A worker leaves a job of unknown operation as claimable as it found it: it dies, or its FAILED write is lost.
  predicate Abandons(s: State, step: Step) {
    match step
    case Vanish(w) =>
      && w < |s.workers| && s.workers[w].Busy?
      && Staffs(s.workers[w], s.workers[w].job) && Unclaimed(s, s.workers[w].job)
    case Work(w, e, _, took, _) =>
      w < |s.workers| && s.workers[w].Busy? && e.WriteStatus? && !took && Unclaimed(s, s.workers[w].job)
    case _ => false
  }

  // Claimable, of unknown operation.
  predicate Unclaimed(s: State, j: JobId) {
    j in s.table && Claimable(s.table[j].status) && !Known(s.table[j].operation)
  }

  // What a step adds to the work ahead.
  function Cost(s: State, step: Step): nat {
    match step
    case BeginCreate(_, _, _, _) => 1
    case Begin(_, _, _) => 1
    case EndCreate(r, _) =>
      if r in s.requests && s.requests[r].Creating? && !Known(s.requests[r].operation)
      then RUN_WEIGHT * |s.workers| + 1 else RUN_WEIGHT + 1
    case End(r) => if r in s.requests && s.requests[r].Writing? && s.requests[r].kind.Approve? then RUN_WEIGHT else 0
    case _ => if Abandons(s, step) then RUN_WEIGHT else 0
  }

  function One(b: bool): nat {
    if b then 1 else 0
  }

  // ---------- each step balances ----------

  predicate Balances(s: State, step: Step)
    requires Enabled(s, step)
  {
    Measure(Perform(s, step)) + One(Changes(s, step)) <= Measure(s) + Cost(s, step)
  }

  // A status write that leaves the job neither queued nor claimable.
  lemma QuenchingBalances(t: Table, workers: seq<Worker>, j: JobId, job: Job)
    requires j in t && SameIdentity(t[j], job) && !Active(job.status)
    ensures Slots(t[j := job], workers) <= Slots(t, workers) && |Slots(t[j := job], workers)| <= |Slots(t, workers)|
    ensures |InQueue(t[j := job])| <= |InQueue(t)|
  {
    SubsetSize(Slots(t[j := job], workers), Slots(t, workers));
    assert InQueue(t[j := job]) == InQueue(t) - {j};
  }

  lemma SameStatusSameWork(t: Table, workers: seq<Worker>, j: JobId, job: Job)
    requires j in t && SameIdentity(t[j], job) && job.status == t[j].status
    ensures Slots(t[j := job], workers) == Slots(t, workers) && InQueue(t[j := job]) == InQueue(t)
  {
    assert forall k, w: nat :: HasSlot(t[j := job], workers, k, w) == HasSlot(t, workers, k, w);
  }

  // Going from v to next, a worker frees a slot of the unfinished job it held.
  predicate Frees(t: Table, v: Worker, next: Worker) {
    && v.Busy? && Staffs(v, v.job) && !Staffs(next, v.job)
    && v.job in t && Active(t[v.job].status) && !Known(t[v.job].operation)
  }

  lemma WorkerMovesSlot(t: Table, workers: seq<Worker>, w: nat, next: Worker)
    requires w < |workers|
    ensures |Slots(t, workers[w := next])| <= |Slots(t, workers)| + One(Frees(t, workers[w], next))
    ensures !Frees(t, workers[w], next) ==> Slots(t, workers[w := next]) <= Slots(t, workers)
  {
    var after, before := Slots(t, workers[w := next]), Slots(t, workers);
    assert forall j, x: nat :: x != w ==> HasSlot(t, workers[w := next], j, x) == HasSlot(t, workers, j, x);
    if Frees(t, workers[w], next) {
      SubsetSize(after, before + {(workers[w].job, w)});
    } else {
      SubsetSize(after, before);
    }
  }

  lemma ClaimBalances(s: State, w: nat, j: JobId)
    requires CanClaim(s, w, j)
    ensures Balances(s, Claim(w, j))
  {
    var t := AfterClaim(s, w, j);
    var job := t.table[j];
    PoolWeightOfUpdate(s.workers, w, Busy(j, Preparing(0)));
    WorkerMovesSlot(t.table, s.workers, w, Busy(j, Preparing(0)));
    if Known(job.operation) {
      QuenchingBalances(s.table, s.workers, j, job);
      assert HasSlot(s.table, s.workers, j, 0) && (j, 0) in Slots(s.table, s.workers);
      FewerSlots(Slots(t.table, t.workers), Slots(s.table, s.workers), (j, 0));
    } else {
      SameStatusSameWork(s.table, s.workers, j, job);
      assert HasSlot(s.table, s.workers, j, w) && (j, w) in Slots(s.table, s.workers);
      FewerSlots(Slots(t.table, t.workers), Slots(s.table, s.workers), (j, w));
    }
  }

  // A run step either leaves its worker where it is, or brings it closer to its end; it closes a run of unknown
  // operation only by writing FAILED.
  lemma RunMovesOn(op: Operation, pc: Pc, e: Effect, ok: bool, took: bool)
    requires Next(op, pc, e, ok, took).Some?
    ensures var next := Next(op, pc, e, ok, took).value;
            Remaining(next) < Remaining(pc) || (next == pc && (OfHook(e) || e.JoinReader?))
    ensures e.WriteStatus? ==> !Active(e.status)
    ensures PcFits(op, pc) && !Known(op) && !pc.Closing? && Next(op, pc, e, ok, took).value.Closing? ==> e.WriteStatus?
  {
  }

  lemma WorkSlots(s: State, w: nat, e: Effect, ok: bool, took: bool, text: string)
    requires Consistent(s) && CanWork(s, w, e, ok, took)
    ensures var t := AfterWork(s, w, e, ok, took, text);
            && |Slots(t.table, t.workers)| <= |Slots(s.table, s.workers)| + One(Abandons(s, Work(w, e, ok, took, text)))
            && |InQueue(t.table)| <= |InQueue(s.table)|
  {
    var t, v := AfterWork(s, w, e, ok, took, text), s.workers[w];
    var j := v.job;
    assert RunOk(j, v.pc, s.table[j], s.tally[j], s.objects);
    RunMovesOn(s.table[j].operation, v.pc, e, ok, took);
    assert t.table == s.table[j := t.table[j]];
    WorkerMovesSlot(t.table, s.workers, w, t.workers[w]);
    if took && e.WriteStatus? {
      QuenchingBalances(s.table, s.workers, j, t.table[j]);
    } else {
      SameStatusSameWork(s.table, s.workers, j, t.table[j]);
    }
  }

  lemma WorkMovesOn(s: State, w: nat, e: Effect, ok: bool, took: bool, text: string)
    requires CanWork(s, w, e, ok, took)
    ensures var t := AfterWork(s, w, e, ok, took, text);
            PoolWeight(t.workers) < PoolWeight(s.workers) || SameVisible(s, t)
    ensures PoolWeight(AfterWork(s, w, e, ok, took, text).workers) <= PoolWeight(s.workers)
  {
    var t, v := AfterWork(s, w, e, ok, took, text), s.workers[w];
    RunMovesOn(s.table[v.job].operation, v.pc, e, ok, took);
    PoolWeightOfUpdate(s.workers, w, t.workers[w]);
    if t.workers[w] == v {
      assert t.workers == s.workers && t.table == s.table && t.objects == s.objects;
    }
  }

  lemma WorkBalances(s: State, w: nat, e: Effect, ok: bool, took: bool, text: string)
    requires Consistent(s) && CanWork(s, w, e, ok, took)
    ensures Balances(s, Work(w, e, ok, took, text))
  {
    WorkSlots(s, w, e, ok, took, text);
    WorkMovesOn(s, w, e, ok, took, text);
  }

  lemma PromoteBalances(s: State, w: nat, next: Option<JobId>)
    requires CanPromote(s, w, next)
    ensures Balances(s, Promote(w, next))
  {
    var t := AfterPromote(s, w, next);
    PoolWeightOfUpdate(s.workers, w, Idle);
    WorkerMovesSlot(t.table, s.workers, w, Idle);
    if next.Some? {
      assert forall k, x: nat :: HasSlot(t.table, s.workers, k, x) == HasSlot(s.table, s.workers, k, x);
      assert Slots(t.table, s.workers) == Slots(s.table, s.workers);
      assert InQueue(t.table) == InQueue(s.table) - {next.value};
    }
  }

  lemma VanishBalances(s: State, w: nat)
    requires Consistent(s) && w < |s.workers|
    ensures Balances(s, Vanish(w))
  {
    var v := s.workers[w];
    PoolWeightOfUpdate(s.workers, w, Idle);
    WorkerMovesSlot(s.table, s.workers, w, Idle);
    if v.Busy? {
      assert RunOk(v.job, v.pc, s.table[v.job], s.tally[v.job], s.objects);
    } else {
      assert s.workers[w := Idle] == s.workers;
    }
  }

  lemma SweptSlots(t: Table, workers: seq<Worker>, now: Time, timeout: int)
    ensures |Slots(Swept(t, now, timeout), workers)| <= |Slots(t, workers)|
    ensures Expired(t, now, timeout) == {} ==> Swept(t, now, timeout) == t
    ensures Expired(t, now, timeout) != {} ==> |InQueue(Swept(t, now, timeout))| < |InQueue(t)|
  {
    var u, e := Swept(t, now, timeout), Expired(t, now, timeout);
    SubsetSize(Slots(u, workers), Slots(t, workers));
    assert InQueue(u) == InQueue(t) - e && e <= InQueue(t);
    if e == {} {
      forall j | j in t ensures u[j] == t[j] { assert j !in e; }
    } else {
      assert |e| > 0;
    }
  }

  lemma SweepBalances(s: State, at: Time)
    requires Enabled(s, Sweep(at))
    ensures Balances(s, Sweep(at))
  {
    SweptSlots(s.table, s.workers, at, s.timeout);
  }

  // Changing or adding one row moves only that row's slots.
  lemma OneRowsSlots(t: Table, workers: seq<Worker>, j: JobId, job: Job, own: set<(JobId, nat)>)
    requires forall w: nat :: HasSlot(t[j := job], workers, j, w) ==> (j, w) in own
    ensures |Slots(t[j := job], workers)| <= |Slots(t, workers)| + |own|
  {
    var u := t[j := job];
    forall k, w: nat | k in u && w <= |workers| && HasSlot(u, workers, k, w) ensures (k, w) in Slots(t, workers) + own {
      if k != j { assert HasSlot(t, workers, k, w); }
    }
    SubsetSize(Slots(u, workers), Slots(t, workers) + own);
  }

  lemma ApprovalFreesOneSlot(t: Table, workers: seq<Worker>, j: JobId)
    requires j in t && Known(t[j].operation)
    ensures |Slots(WithStatus(t, j, Approved), workers)| <= |Slots(t, workers)| + 1
    ensures |InQueue(WithStatus(t, j, Approved))| <= |InQueue(t)|
  {
    OneRowsSlots(t, workers, j, t[j].(status := Approved), {(j, 0)});
    assert InQueue(WithStatus(t, j, Approved)) == InQueue(t) - {j};
  }

  lemma ApprovalBalances(s: State, r: nat)
    requires Consistent(s) && CanEnd(s, r) && s.requests[r].kind.Approve?
    ensures Balances(s, End(r))
  {
    var j := s.requests[r].job;
    assert IntentOk(Approve, j, s.table[j], s.objects);
    assert |s.requests - {r}| == |s.requests| - 1;
    ApprovalFreesOneSlot(s.table, s.workers, j);
  }

  // An approval adds one run of a known operation; any other pending write adds none.
  lemma EndBalances(s: State, r: nat)
    requires Consistent(s) && CanEnd(s, r)
    ensures Balances(s, End(r))
  {
    var Writing(kind, j) := s.requests[r];
    if kind.Approve? {
      ApprovalBalances(s, r);
    } else {
      QuenchingBalances(s.table, s.workers, j, s.table[j].(status := Writes(kind)));
    }
  }

  lemma NewSlots(t: Table, workers: seq<Worker>, id: JobId, job: Job)
    ensures |Slots(t[id := job], workers)| <= |Slots(t, workers)| + if Known(job.operation) then 1 else |workers|
  {
    OneRowsSlots(t, workers, id, job, if Known(job.operation) then {(id, 0)} else OwnSlots(id, |workers|));
  }

  function OwnSlots(j: JobId, n: nat): (r: set<(JobId, nat)>)
    ensures |r| == n && forall w: nat :: (j, w) in r <==> w < n
  {
    if n == 0 then {} else
      var rest := OwnSlots(j, n - 1);
      assert (j, n - 1) !in rest;
      rest + {(j, n - 1)}
  }

  lemma CreateBalances(s: State, r: nat, id: JobId)
    requires Consistent(s) && CanCreate(s, r, id)
    ensures Balances(s, EndCreate(r, id))
  {
    var t := AfterCreate(s, r, id);
    NewSlots(s.table, s.workers, id, t.table[id]);
    assert InQueue(t.table) <= InQueue(s.table) + {id};
    SubsetSize(InQueue(t.table), InQueue(s.table) + {id});
  }

  lemma BeginBalances(s: State, step: Step)
    requires Enabled(s, step) && (step.BeginCreate? || step.Begin? || step.Drop? || step.Tick? || step.Store?)
    ensures Balances(s, step)
  {
  }

  // Whatever the step, the measure pays for it: after it, the measure, plus one if the step changed anything by itself,
  // is at most what it was before plus what the step adds.
  lemma StepBalances(s: State, step: Step)
    requires Consistent(s) && Enabled(s, step)
    ensures Balances(s, step)
  {
    match step
    case EndCreate(r, id) => CreateBalances(s, r, id);
    case End(r) => EndBalances(s, r);
    case Claim(w, j) => ClaimBalances(s, w, j);
    case Work(w, e, ok, took, text) => WorkBalances(s, w, e, ok, took, text);
    case Promote(w, next) => PromoteBalances(s, w, next);
    case Vanish(w) => VanishBalances(s, w);
    case Sweep(at) => SweepBalances(s, at);
    case _ => BeginBalances(s, step);
  }

  // ---------- whole runs ----------

  // How many steps of the run changed something by themselves.
  function Progress(s: State, run: seq<Step>): nat
    requires Executes(s, run)
    decreases |run|
  {
    if run == [] then 0 else One(Changes(s, run[0])) + Progress(Perform(s, run[0]), run[1..])
  }

  function Budget(s: State, run: seq<Step>): nat
    requires Executes(s, run)
    decreases |run|
  {
    if run == [] then 0 else Cost(s, run[0]) + Budget(Perform(s, run[0]), run[1..])
  }

  // No run makes more state-changing steps than it had measure to begin with and was given since: new requests,
  // approvals and creations, and jobs of unknown operation abandoned.
  lemma {:induction false} RunBalances(s: State, run: seq<Step>)
    requires Consistent(s) && Executes(s, run)
    ensures Measure(After(s, run)) + Progress(s, run) <= Measure(s) + Budget(s, run)
    decreases |run|
  {
    if run != [] {
      StepBalances(s, run[0]);
      StepKeepsConsistent(s, run[0]);
      RunBalances(Perform(s, run[0]), run[1..]);
    }
  }

  function Begins(run: seq<Step>): nat {
    if run == [] then 0 else One(run[0].Begin? || run[0].BeginCreate?) + Begins(run[1..])
  }

  // Nothing is created or approved any more. Time passes, requests may still begin, and everything internal goes on.
  predicate Undisturbed(s: State, step: Step) {
    && !step.EndCreate?
    && (step.End? && step.r in s.requests && s.requests[step.r].Writing? ==> !s.requests[step.r].kind.Approve?)
  }

  ghost predicate UndisturbedRun(s: State, run: seq<Step>)
    requires Executes(s, run)
    decreases |run|
  {
    run == [] || (Undisturbed(s, run[0]) && UndisturbedRun(Perform(s, run[0]), run[1..]))
  }

  ghost predicate NeverAbandons(s: State, run: seq<Step>)
    requires Executes(s, run)
    decreases |run|
  {
    run == [] || (!Abandons(s, run[0]) && NeverAbandons(Perform(s, run[0]), run[1..]))
  }

  lemma {:induction false} UndisturbedBudget(s: State, run: seq<Step>)
    requires Executes(s, run) && UndisturbedRun(s, run) && NeverAbandons(s, run)
    ensures Budget(s, run) == Begins(run)
    decreases |run|
  {
    if run != [] { UndisturbedBudget(Perform(s, run[0]), run[1..]); }
  }

  // Once creations and approvals stop, the state-changing steps of a run are bounded by the measure of its first state
  // and the requests begun since, whatever the jobs' operations, as long as no job of unknown operation is abandoned.
  lemma RunsEnd(s: State, run: seq<Step>)
    requires Reachable(s) && Executes(s, run) && UndisturbedRun(s, run) && NeverAbandons(s, run)
    ensures Progress(s, run) <= Measure(s) + Begins(run)
  {
    ReachableIsConsistent(s);
    RunBalances(s, run);
    UndisturbedBudget(s, run);
  }

  lemma {:induction false} SoundRunsNeverAbandon(s: State, run: seq<Step>)
    requires Executes(s, run) && PoolBound.SoundRun(run)
    ensures NeverAbandons(s, run)
    decreases |run|
  {
    if run != [] {
      assert PoolBound.SoundStep(run[0]);
      SoundRunsNeverAbandon(Perform(s, run[0]), run[1..]);
    }
  }

  // In particular they are when no worker dies and every status write lands.
  lemma SoundRunsEnd(s: State, run: seq<Step>)
    requires Reachable(s) && Executes(s, run) && UndisturbedRun(s, run) && PoolBound.SoundRun(run)
    ensures Progress(s, run) <= Measure(s) + Begins(run)
  {
    SoundRunsNeverAbandon(s, run);
    RunsEnd(s, run);
  }
}
