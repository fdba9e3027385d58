/** The queue over whole runs: every job that entered it is accounted for, promotion is first-in first-out,
    and no job waits longer than the timeout plus one sweep period. */
module QueueHistory {
  import opened Jobs
  import opened Queue
  import opened Execution
  import opened Orchestrator
  import opened Safety
  import QueueExits

  // ---------- conservation ----------

  function InQueue(t: Table): set<JobId> {
    set j | j in t && t[j].status == Queued
  }

  function Elements(ids: seq<JobId>): set<JobId> {
    set j | j in ids
  }

  predicate NoDuplicates(ids: seq<JobId>) {
    forall i, k :: 0 <= i < k < |ids| ==> ids[i] != ids[k]
  }

  // Four piles that share nothing and make up everything that was ever queued.
  ghost predicate Partition(whole: set<JobId>, a: set<JobId>, b: set<JobId>, c: set<JobId>, d: set<JobId>) {
    && whole == a + b + c + d
    && a !! b && a !! c && a !! d && b !! c && b !! d && c !! d
  }

  ghost predicate Balanced(s: State) {
    && s.ledger.enqueued <= s.table.Keys
    && NoDuplicates(s.ledger.promoted)
    && Partition(s.ledger.enqueued, InQueue(s.table), Elements(s.ledger.promoted), s.ledger.expired, s.ledger.withdrawn)
  }

  lemma EndKeepsBalanced(s: State, r: nat)
    requires Balanced(s) && CanEnd(s, r)
    ensures Balanced(AfterEnd(s, r))
  {
    var t := AfterEnd(s, r);
    assert InQueue(t.table) == InQueue(s.table) - {s.requests[r].job};
  }

  lemma CreateKeepsBalanced(s: State, r: nat, id: JobId)
    requires Balanced(s) && CanCreate(s, r, id)
    ensures Balanced(AfterCreate(s, r, id))
  {
    var t := AfterCreate(s, r, id);
    assert InQueue(t.table) == InQueue(s.table) + (if s.requests[r].queued then {id} else {});
  }

  lemma PromoteKeepsBalanced(s: State, w: nat, next: Option<JobId>)
    requires Balanced(s) && CanPromote(s, w, next)
    ensures Balanced(AfterPromote(s, w, next))
  {
    var t := AfterPromote(s, w, next);
    if next.Some? {
      assert InQueue(t.table) == InQueue(s.table) - {next.value};
      assert Elements(t.ledger.promoted) == Elements(s.ledger.promoted) + {next.value};
    }
  }

  lemma SweepKeepsBalanced(s: State, at: Time)
    requires Balanced(s)
    ensures Balanced(AfterSweep(s, at))
  {
    var t := AfterSweep(s, at);
    assert InQueue(t.table) == InQueue(s.table) - Expired(s.table, at, s.timeout);
  }

  lemma WorkKeepsBalanced(s: State, w: nat, e: Effect, ok: bool, took: bool, text: string)
    requires Consistent(s) && Balanced(s) && CanWork(s, w, e, ok, took)
    ensures Balanced(AfterWork(s, w, e, ok, took, text))
  {
    var j, t := s.workers[w].job, AfterWork(s, w, e, ok, took, text);
    assert RunOk(j, s.workers[w].pc, s.table[j], s.tally[j], s.objects);
    assert e.WriteStatus? ==> e.status != Queued;
    OutsideTheQueue(s.table, j, t.table);
    SameQueueIsBalanced(s, t);
  }

  lemma SameQueueIsBalanced(s: State, t: State)
    requires Balanced(s) && InQueue(t.table) == InQueue(s.table) && t.ledger == s.ledger && t.table.Keys == s.table.Keys
    ensures Balanced(t)
  {
  }

  // Steps that leave the queue and the ledger alone.
  lemma OtherStepKeepsBalanced(s: State, step: Step)
    requires Balanced(s) && Enabled(s, step)
    requires !step.EndCreate? && !step.End? && !step.Work? && !step.Promote? && !step.Sweep?
    ensures Balanced(Perform(s, step))
  {
    assert InQueue(Perform(s, step).table) == InQueue(s.table);
    SameQueueIsBalanced(s, Perform(s, step));
  }

  lemma OutsideTheQueue(t: Table, j: JobId, u: Table)
    requires j in t && t[j].status != Queued && u.Keys == t.Keys && u[j].status != Queued
    requires forall k :: k in t && k != j ==> u[k] == t[k]
    ensures InQueue(u) == InQueue(t)
  {
  }

  lemma StepKeepsBalanced(s: State, step: Step)
    requires Consistent(s) && Balanced(s) && Enabled(s, step)
    ensures Balanced(Perform(s, step))
  {
    match step
    case EndCreate(r, id) => CreateKeepsBalanced(s, r, id);
    case End(r) => EndKeepsBalanced(s, r);
    case Work(w, e, ok, took, text) => WorkKeepsBalanced(s, w, e, ok, took, text);
    case Promote(w, next) => PromoteKeepsBalanced(s, w, next);
    case Sweep(at) => SweepKeepsBalanced(s, at);
    case _ => OtherStepKeepsBalanced(s, step);
  }

  lemma {:induction false} RunKeepsBalanced(s: State, run: seq<Step>)
    requires Consistent(s) && Balanced(s) && Executes(s, run)
    ensures Balanced(After(s, run))
    decreases |run|
  {
    if run != [] {
      StepKeepsBalanced(s, run[0]);
      StepKeepsConsistent(s, run[0]);
      RunKeepsBalanced(Perform(s, run[0]), run[1..]);
    }
  }

  function Of(t: Table, ids: set<JobId>, p: ProjectId): set<JobId> {
    set j | j in ids && j in t && t[j].project == p
  }

  lemma OfSplits(t: Table, a: set<JobId>, b: set<JobId>, p: ProjectId)
    requires a !! b
    ensures |Of(t, a + b, p)| == |Of(t, a, p)| + |Of(t, b, p)|
  {
    assert Of(t, a + b, p) == Of(t, a, p) + Of(t, b, p);
  }

  lemma PilesAddUp(t: Table, whole: set<JobId>, a: set<JobId>, b: set<JobId>, c: set<JobId>, d: set<JobId>,
                   p: ProjectId)
    requires Partition(whole, a, b, c, d)
    ensures |Of(t, whole, p)| == |Of(t, a, p)| + |Of(t, b, p)| + |Of(t, c, p)| + |Of(t, d, p)|
  {
    var ab := a + b;
    var abc := ab + c;
    assert whole == abc + d && abc !! d && ab !! c;
    OfSplits(t, abc, d, p);
    OfSplits(t, ab, c, p);
    OfSplits(t, a, b, p);
  }

  lemma ReachableIsBalanced(s: State)
    requires Reachable(s)
    ensures Balanced(s)
  {
    var pool: nat, timeout: int, start: Time, run: seq<Step> :|
      Executes(Init(pool, timeout, start), run) && s == After(Init(pool, timeout, start), run);
    InitConsistent(pool, timeout, start);
    RunKeepsBalanced(Init(pool, timeout, start), run);
  }

  // Per project: jobs created QUEUED = still QUEUED + promoted + timed out + discarded while QUEUED, and no
  // job was promoted twice. Discarded ones show CANCELLED, timed out ones FAILED or CANCELLED.
  lemma QueueIsConserved(s: State, p: ProjectId)
    requires Reachable(s)
    ensures |Of(s.table, s.ledger.enqueued, p)|
         == |QueuedIn(s.table, p)| + |Of(s.table, Elements(s.ledger.promoted), p)|
          + |Of(s.table, s.ledger.expired, p)| + |Of(s.table, s.ledger.withdrawn, p)|
    ensures NoDuplicates(s.ledger.promoted)
    ensures forall j :: j in s.ledger.withdrawn ==> j in s.table && s.table[j].status.Cancelled?
    ensures forall j :: j in s.ledger.expired ==>
              j in s.table && (s.table[j].status.Failed? || s.table[j].status.Cancelled?)
  {
    forall j | j in s.ledger.withdrawn ensures j in s.table && s.table[j].status.Cancelled? {
      QueueExits.QueueExitsAreFinal(s, [], j);
    }
    forall j | j in s.ledger.expired
      ensures j in s.table && (s.table[j].status.Failed? || s.table[j].status.Cancelled?)
    {
      QueueExits.QueueExitsAreFinal(s, [], j);
    }
    ReachableIsBalanced(s);
    PilesAddUp(s.table, s.ledger.enqueued, InQueue(s.table), Elements(s.ledger.promoted), s.ledger.expired,
               s.ledger.withdrawn, p);
    assert Of(s.table, InQueue(s.table), p) == QueuedIn(s.table, p);
  }

  lemma WorkShrinksQueue(s: State, w: nat, e: Effect, ok: bool, took: bool, text: string)
    requires CanWork(s, w, e, ok, took)
    ensures InQueue(AfterWork(s, w, e, ok, took, text).table) <= InQueue(s.table)
  {
    assert e.WriteStatus? ==> e.status != Queued;
  }

  // Only a creation adds to the queue.
  lemma StepShrinksQueue(s: State, step: Step)
    requires Enabled(s, step)
    ensures InQueue(Perform(s, step).table) <= InQueue(s.table) + (if step.EndCreate? then {step.id} else {})
  {
    match step
    case Work(w, e, ok, took, text) => WorkShrinksQueue(s, w, e, ok, took, text);
    case _ =>
  }

  // A job that has left the queue never comes back to it.
  lemma {:induction false} NeverRequeued(s: State, run: seq<Step>, j: JobId)
    requires Executes(s, run) && j in s.table && s.table[j].status != Queued
    ensures j in After(s, run).table && After(s, run).table[j].status != Queued
    decreases |run|
  {
    if run != [] {
      var t := Perform(s, run[0]);
      IdentityIsFixed(s, run[0], j);
      StepShrinksQueue(s, run[0]);
      assert j !in InQueue(s.table);
      assert j !in InQueue(t.table);
      NeverRequeued(t, run[1..], j);
    }
  }

  // ---------- first in, first out ----------

  // A promotion that takes the first queued row of its project. `PromotionOrder` derives this for promotions that do
  // not overlap.
  predicate OrderlyPromotion(s: State, step: Step) {
    step.Promote? && step.next.Some? ==>
      step.w < |s.workers| && s.workers[step.w].Busy? && s.workers[step.w].job in s.table && step.next.value in s.table
      && IsFirst(s.table, step.next.value, QueuedIn(s.table, s.table[s.workers[step.w].job].project))
  }

  // A creation whose time stamp is later than that of every job of its project.
  predicate LaterCreation(s: State, step: Step) {
    step.EndCreate? && step.r in s.requests && s.requests[step.r].Creating? ==>
      forall j :: j in s.table && s.table[j].project == s.requests[step.r].project ==> s.table[j].createdAt < s.now
  }

  ghost predicate OrderlyRun(s: State, run: seq<Step>)
    requires Executes(s, run)
    decreases |run|
  {
    run == [] ||
      (OrderlyPromotion(s, run[0]) && LaterCreation(s, run[0]) && OrderlyRun(Perform(s, run[0]), run[1..]))
  }

  // The promotions of project p so far are in creation order, and whatever still waits was created later.
  ghost predicate Fifo(s: State, p: ProjectId) {
    var order := s.ledger.promoted;
    && (forall i :: 0 <= i < |order| ==> order[i] in s.table)
    && (forall i, k :: 0 <= i < k < |order| && s.table[order[i]].project == p && s.table[order[k]].project == p
          ==> Before(s.table, order[i], order[k]))
    && (forall i, q :: 0 <= i < |order| && s.table[order[i]].project == p && q in QueuedIn(s.table, p)
          ==> Before(s.table, order[i], q))
  }

  // The promotions so far and what still waits stay in order exactly when a promotion takes the first job.
  lemma PromotionKeepsFifoIff(s: State, w: nat, j: JobId)
    requires CanPromote(s, w, Some(j))
    requires Fifo(s, s.table[j].project)
    ensures Fifo(AfterPromote(s, w, Some(j)), s.table[j].project) <==> OrderlyPromotion(s, Promote(w, Some(j)))
  {
    var p, t := s.table[j].project, AfterPromote(s, w, Some(j));
    var order, n := t.ledger.promoted, |s.ledger.promoted|;
    assert order[n] == j && t.table[j].project == p;
    PromotionKeepsOrder(s, w, j);
    if Fifo(t, p) {
      forall q | q in QueuedIn(s.table, p) && q != j ensures Before(s.table, j, q) {
        assert q in QueuedIn(t.table, p);
        assert Before(t.table, order[n], q);
      }
    }
  }

  lemma PromotionKeepsOrder(s: State, w: nat, j: JobId)
    requires CanPromote(s, w, Some(j))
    ensures var t := AfterPromote(s, w, Some(j));
            && (forall a, b :: a in s.table && b in s.table ==> Before(s.table, a, b) == Before(t.table, a, b))
            && (forall p :: QueuedIn(t.table, p) == QueuedIn(s.table, p) - {j})
  {
    var t := AfterPromote(s, w, Some(j));
    forall p ensures QueuedIn(t.table, p) == QueuedIn(s.table, p) - {j} {}
  }

  // If nothing is promoted, no job's identity changes and the queue only loses jobs or gains later ones.
  lemma FifoAfter(s: State, t: State, p: ProjectId)
    requires Fifo(s, p) && s.table.Keys <= t.table.Keys && t.ledger.promoted == s.ledger.promoted
    requires forall j :: j in s.table ==> SameIdentity(s.table[j], t.table[j])
    requires forall q :: q in QueuedIn(t.table, p) && q in s.table ==> q in QueuedIn(s.table, p)
    requires forall q, j :: q in QueuedIn(t.table, p) && q !in s.table && j in s.table && s.table[j].project == p
               ==> s.table[j].createdAt < t.table[q].createdAt
    ensures Fifo(t, p)
  {
  }

  lemma PromoteKeepsFifo(s: State, w: nat, next: Option<JobId>, p: ProjectId)
    requires Fifo(s, p) && CanPromote(s, w, next) && OrderlyPromotion(s, Promote(w, next))
    ensures Fifo(AfterPromote(s, w, next), p)
  {
    if next.Some? {
      PromotionKeepsOrder(s, w, next.value);
      if s.table[next.value].project == p {
        PromotionKeepsFifoIff(s, w, next.value);
      } else {
        assert QueuedIn(AfterPromote(s, w, next).table, p) == QueuedIn(s.table, p);
      }
    }
  }

  lemma StepKeepsFifo(s: State, step: Step, p: ProjectId)
    requires Fifo(s, p) && Enabled(s, step)
    requires OrderlyPromotion(s, step) && LaterCreation(s, step)
    ensures Fifo(Perform(s, step), p)
  {
    if step.Promote? {
      PromoteKeepsFifo(s, step.w, step.next, p);
    } else {
      var t := Perform(s, step);
      StepShrinksQueue(s, step);
      forall j | j in s.table ensures j in t.table && SameIdentity(s.table[j], t.table[j]) {
        IdentityIsFixed(s, step, j);
      }
      forall q | q in QueuedIn(t.table, p) && q in s.table ensures q in QueuedIn(s.table, p) {
        assert q in InQueue(t.table);
        assert q in InQueue(s.table);
      }
      assert step.EndCreate? || forall q :: q in QueuedIn(t.table, p) ==> q in InQueue(t.table) && q in s.table;
      FifoAfter(s, t, p);
    }
  }

  lemma {:induction false} RunKeepsFifo(s: State, run: seq<Step>, p: ProjectId)
    requires Fifo(s, p) && Executes(s, run) && OrderlyRun(s, run)
    ensures Fifo(After(s, run), p)
    decreases |run|
  {
    if run != [] {
      StepKeepsFifo(s, run[0], p);
      RunKeepsFifo(Perform(s, run[0]), run[1..], p);
    }
  }

  // The promotions of project p so far are in creation order.
  ghost predicate InOrder(s: State, p: ProjectId) {
    var order := s.ledger.promoted;
    && (forall i :: 0 <= i < |order| ==> order[i] in s.table)
    && forall i, k :: 0 <= i < k < |order| && s.table[order[i]].project == p && s.table[order[k]].project == p
         ==> Before(s.table, order[i], order[k])
  }

  // Runs that promote and create nothing are orderly.
  lemma {:induction false} OrderlyMeanwhile(s: State, run: seq<Step>)
    requires Executes(s, run) && forall i :: 0 <= i < |run| ==> !run[i].Promote? && !run[i].EndCreate?
    ensures OrderlyRun(s, run)
    decreases |run|
  {
    if run != [] { OrderlyMeanwhile(Perform(s, run[0]), run[1..]); }
  }

  lemma {:induction false} OrderlyRunsCompose(s: State, a: seq<Step>, b: seq<Step>)
    requires Executes(s, a) && OrderlyRun(s, a) && Executes(After(s, a), b) && OrderlyRun(After(s, a), b)
    ensures Executes(s, a + b) && After(s, a + b) == After(After(s, a), b) && OrderlyRun(s, a + b)
    decreases |a|
  {
    if a == [] {
      assert a + b == b;
    } else {
      OrderlyRunsCompose(Perform(s, a[0]), a[1..], b);
      assert (a + b)[0] == a[0] && (a + b)[1..] == a[1..] + b;
    }
  }

  // A free worker can claim a job, fail it, and promote the first job of the queue behind it.
  lemma ServesAndPromotes(s: State, w: nat, j: JobId, q: JobId)
    requires CanClaim(s, w, j)
    requires q in QueuedIn(s.table, s.table[j].project) && IsFirst(s.table, q, QueuedIn(s.table, s.table[j].project))
    ensures Executes(s, FailFast(w, j) + [Promote(w, Some(q))]) && OrderlyRun(s, FailFast(w, j) + [Promote(w, Some(q))])
    ensures var t := After(s, FailFast(w, j) + [Promote(w, Some(q))]);
            && t.ledger.promoted == s.ledger.promoted + [q]
            && t.table.Keys == s.table.Keys && forall k :: k in s.table ==> SameIdentity(s.table[k], t.table[k])
  {
    FailsFast(s, w, j);
    OrderlyMeanwhile(s, FailFast(w, j));
    var u := After(s, FailFast(w, j));
    assert QueuedIn(u.table, s.table[j].project) == QueuedIn(s.table, s.table[j].project);
    Prepend(u, Promote(w, Some(q)), []);
    OrderlyRunsCompose(s, FailFast(w, j), [Promote(w, Some(q))]);
  }

  lemma SwappedIsOutOfOrder(t: Table, u: State, before: seq<JobId>, j: JobId, q: JobId)
    requires j in t && q in t && q != j && Before(t, q, j) && t[q].project == t[j].project
    requires u.ledger.promoted == before + [j] + [q] && u.table.Keys == t.Keys
    requires SameIdentity(t[j], u.table[j]) && SameIdentity(t[q], u.table[q])
    ensures !InOrder(u, t[j].project)
  {
    assert u.ledger.promoted[|before|] == j && u.ledger.promoted[|before| + 1] == q;
  }

  // After a promotion that skipped the first job, its worker can claim what it promoted, and the first job still waits.
  lemma SkippedJobStillWaits(s: State, w: nat, j: JobId) returns (q: JobId)
    requires Consistent(s) && CanPromote(s, w, Some(j)) && !OrderlyPromotion(s, Promote(w, Some(j)))
    ensures var p, t := s.table[j].project, AfterPromote(s, w, Some(j));
            && q in s.table && q != j && s.table[q].project == p && Before(s.table, q, j)
            && CanClaim(t, w, j) && t.table[j].project == p
            && q in QueuedIn(t.table, p) && IsFirst(t.table, q, QueuedIn(t.table, p))
  {
    q := FirstExists(s.table, QueuedIn(s.table, s.table[j].project));
    PromotionKeepsOrder(s, w, j);
    PromoteKeepsConsistent(s, w, Some(j));
  }

  // When a promotion skips the first job, the same worker can go on to promote that one later, out of order.
  lemma SkippedJobComesLater(s: State, w: nat, j: JobId) returns (run: seq<Step>)
    requires Consistent(s) && CanPromote(s, w, Some(j)) && !OrderlyPromotion(s, Promote(w, Some(j)))
    ensures var t := AfterPromote(s, w, Some(j));
            Executes(t, run) && OrderlyRun(t, run) && !InOrder(After(t, run), s.table[j].project)
  {
    var t := AfterPromote(s, w, Some(j));
    var q := SkippedJobStillWaits(s, w, j);
    run := FailFast(w, j) + [Promote(w, Some(q))];
    ServesAndPromotes(t, w, j, q);
    SwappedIsOutOfOrder(s.table, After(t, run), s.ledger.promoted, j, q);
  }

  // What a promotion does to first-in, first-out: the promotions of the project stay in order, now and over every
  // orderly continuation, iff it takes the first queued job.
  lemma PromotionInOrderIff(s: State, w: nat, j: JobId)
    requires Consistent(s) && CanPromote(s, w, Some(j)) && Fifo(s, s.table[j].project)
    ensures var t := AfterPromote(s, w, Some(j));
            OrderlyPromotion(s, Promote(w, Some(j)))
            <==> forall run :: Executes(t, run) && OrderlyRun(t, run) ==> InOrder(After(t, run), s.table[j].project)
  {
    var p, t := s.table[j].project, AfterPromote(s, w, Some(j));
    if OrderlyPromotion(s, Promote(w, Some(j))) {
      PromotionKeepsFifoIff(s, w, j);
      forall run | Executes(t, run) && OrderlyRun(t, run) ensures InOrder(After(t, run), p) {
        RunKeepsFifo(t, run, p);
      }
    } else {
      var run := SkippedJobComesLater(s, w, j);
    }
  }

  // Over any orderly run the promotions of a project are strictly increasing in (created_at, id).
  lemma PromotionIsFifo(pool: nat, timeout: int, start: Time, run: seq<Step>, i: nat, k: nat)
    requires Executes(Init(pool, timeout, start), run) && OrderlyRun(Init(pool, timeout, start), run)
    requires var s := After(Init(pool, timeout, start), run);
             && i < k < |s.ledger.promoted|
             && s.ledger.promoted[i] in s.table && s.ledger.promoted[k] in s.table
             && s.table[s.ledger.promoted[i]].project == s.table[s.ledger.promoted[k]].project
    ensures var s := After(Init(pool, timeout, start), run); Before(s.table, s.ledger.promoted[i], s.ledger.promoted[k])
  {
    var s := After(Init(pool, timeout, start), run);
    RunKeepsFifo(Init(pool, timeout, start), run, s.table[s.ledger.promoted[i]].project);
  }

  // ---------- bounded wait ----------

  function Slack(timeout: int): nat {
    if timeout < 0 then 0 else timeout
  }

  // Time never runs more than a period past the last sweep.
  predicate TimelyStep(s: State, step: Step, period: nat) {
    step.Tick? ==> s.now + step.d <= s.sweptAt + period
  }

  ghost predicate TimelyRun(s: State, run: seq<Step>, period: nat)
    requires Executes(s, run)
    decreases |run|
  {
    run == [] || (TimelyStep(s, run[0], period) && TimelyRun(Perform(s, run[0]), run[1..], period))
  }

  ghost predicate Fresh(s: State, period: nat) {
    && s.sweptAt <= s.now <= s.sweptAt + period
    && forall j :: j in s.table && s.table[j].status == Queued ==> s.sweptAt - Slack(s.timeout) <= s.table[j].createdAt
  }

  lemma StepKeepsFresh(s: State, step: Step, period: nat)
    requires Fresh(s, period) && Enabled(s, step) && TimelyStep(s, step, period)
    ensures Fresh(Perform(s, step), period) && Perform(s, step).timeout == s.timeout
  {
    if step.Sweep? {
      assert forall j :: j in s.table && AfterSweep(s, step.at).table[j].status == Queued ==>
          !TimedOut(s.table[j], step.at, s.timeout);
    } else {
      var t := Perform(s, step);
      StepShrinksQueue(s, step);
      forall j | j in InQueue(t.table) ensures s.sweptAt - Slack(s.timeout) <= t.table[j].createdAt {
        if j in s.table {
          IdentityIsFixed(s, step, j);
          assert j in InQueue(s.table);
        }
      }
      assert forall j :: j in t.table && t.table[j].status == Queued ==> j in InQueue(t.table);
    }
  }

  lemma {:induction false} RunKeepsFresh(s: State, run: seq<Step>, period: nat)
    requires Fresh(s, period) && Executes(s, run) && TimelyRun(s, run, period)
    ensures Fresh(After(s, run), period) && After(s, run).timeout == s.timeout
    decreases |run|
  {
    if run != [] {
      StepKeepsFresh(s, run[0], period);
      RunKeepsFresh(Perform(s, run[0]), run[1..], period);
    }
  }

  // With a sweep at least once every `period`, no job is QUEUED at an age above the timeout, cut down to whole
  // seconds, plus the period. A negative timeout counts as zero. Timeouts are in nanoseconds, ages in microseconds.
  lemma WaitIsBounded(pool: nat, nanos: int, seconds: nat, start: Time, period: nat, run: seq<Step>, j: JobId)
    requires if nanos < 0 then seconds == 0 else seconds * 1_000_000_000 <= nanos < (seconds + 1) * 1_000_000_000
    requires Executes(Init(pool, SweepInterval(nanos), start), run)
    requires TimelyRun(Init(pool, SweepInterval(nanos), start), run, period)
    requires var s := After(Init(pool, SweepInterval(nanos), start), run); j in s.table && s.table[j].status == Queued
    ensures var s := After(Init(pool, SweepInterval(nanos), start), run);
            s.now - s.table[j].createdAt <= seconds * 1_000_000 + period
  {
    RunKeepsFresh(Init(pool, SweepInterval(nanos), start), run, period);
  }

  // The bound is reached: a job exactly as old as the timeout survives the sweep and may wait a whole period more.
  lemma BoundIsReached(s: State, j: JobId, period: nat)
    requires Reachable(s) && j in InQueue(s.table) && s.timeout >= 0 && s.table[j].createdAt == s.now - s.timeout
    ensures Executes(s, [Sweep(s.now), Tick(period)]) && TimelyRun(s, [Sweep(s.now), Tick(period)], period)
    ensures var t := After(s, [Sweep(s.now), Tick(period)]);
            j in InQueue(t.table) && t.now - t.table[j].createdAt == Slack(s.timeout) + period
  {
    var pool: nat, timeout: int, start: Time, history: seq<Step> :|
      Executes(Init(pool, timeout, start), history) && s == After(Init(pool, timeout, start), history);
    SweepsArePast(Init(pool, timeout, start), history);
    SweepThenTick(s, period);
    assert !TimedOut(s.table[j], s.now, s.timeout);
  }

  lemma SweepThenTick(s: State, period: nat)
    requires s.sweptAt <= s.now
    ensures Executes(s, [Sweep(s.now), Tick(period)]) && TimelyRun(s, [Sweep(s.now), Tick(period)], period)
    ensures After(s, [Sweep(s.now), Tick(period)]) == AfterSweep(s, s.now).(now := s.now + period)
  {
    var u := AfterSweep(s, s.now);
    Prepend(u, Tick(period), []);
    Prepend(s, Sweep(s.now), [Tick(period)]);
    assert TimelyRun(u, [Tick(period)], period) by {
      assert [Tick(period)][1..] == [];
    }
    assert [Sweep(s.now), Tick(period)][1..] == [Tick(period)];
  }
}
