/** The statements that lock rows, interleaved in every way: ClaimNextJob and PromoteNextJob (SELECT ... FOR UPDATE
    SKIP LOCKED, UPDATE, COMMIT), single-row status writes, and the timeout sweep, one UPDATE that locks row after row.
    They refine atomic claims, promotions, writes and sweeps. */
module Transactions {
  import opened Jobs
  import opened Queue
  import opened Orchestrator
  import opened Counting

  datatype TxKind = ClaimTx | PromoteTx(project: ProjectId) | WriteTx(job: JobId, status: Status)

  datatype Tx =
    | Scanning(kind: TxKind, todo: set<JobId>)  // the matching rows of its snapshot it has not come to yet
    | Holding(kind: TxKind, job: JobId)         // row locked, its update pending
    | Missed(kind: TxKind)                      // no row

  // The sweep's UPDATE: the overdue rows of its snapshot still to be visited, and those it has locked and failed.
  datatype SweepTx = SweepTx(now: Time, timeout: int, todo: set<JobId>, held: set<JobId>)

  // The committed table, the open claims and promotions, and the sweep under way; the ticker runs one at a time.
  datatype Db = Db(table: Table, txs: map<nat, Tx>, sweep: Option<SweepTx>)

  predicate Matches(kind: TxKind, j: JobId, job: Job) {
    match kind
    case ClaimTx => Claimable(job.status)
    case PromoteTx(p) => job.project == p && job.status == Queued
    case WriteTx(k, _) => j == k
  }

  function Matching(kind: TxKind, t: Table): set<JobId> {
    set j | j in t && Matches(kind, j, t[j])
  }

  function Updated(kind: TxKind, t: Table, j: JobId): Table
    requires j in t
  {
    match kind
    case ClaimTx => Claimed(t, j)
    case PromoteTx(_) => WithStatus(t, j, PendingPlan)
    case WriteTx(_, st) => WithStatus(t, j, st)
  }

  // The row the scan comes to next, by the order of its query.
  predicate ComesNext(kind: TxKind, t: Table, j: JobId, todo: set<JobId>) {
    && todo <= t.Keys && j in todo
    && match kind
       case ClaimTx => NoOlder(t, j, todo)
       case PromoteTx(_) => IsFirst(t, j, todo)
       case WriteTx(_, _) => true
  }

  function Holders(s: Db): set<nat> {
    set x | x in s.txs && s.txs[x].Holding?
  }

  function TxLocked(s: Db): set<JobId> {
    set x | x in s.txs && s.txs[x].Holding? :: s.txs[x].job
  }

  function SweepLocked(s: Db): set<JobId> {
    if s.sweep.Some? then s.sweep.value.held else {}
  }

  function Locked(s: Db): set<JobId> {
    TxLocked(s) + SweepLocked(s)
  }

  function FailAll(t: Table, rows: set<JobId>): Table {
    map j | j in t :: if j in rows then t[j].(status := Failed) else t[j]
  }

  datatype DbStep =
    | Start(x: nat, kind: TxKind)
    | Lock(x: nat, job: JobId)
    | Skip(x: nat, job: JobId)            // the row is locked, or its newest version does not match any more
    | Miss(x: nat)
    | Commit(x: nat)
    | Rollback(x: nat)
    | Insert(job: JobId, row: Job)
    | SweepStart(now: Time, timeout: int)
    | SweepRow(job: JobId)                // waits while a transaction holds the row, then checks it again
    | SweepCommit
    | SweepAbort

  // Transaction x has come to row j.
  predicate At(s: Db, x: nat, j: JobId) {
    x in s.txs && s.txs[x].Scanning? && ComesNext(s.txs[x].kind, s.table, j, s.txs[x].todo)
  }

  predicate Possible(s: Db, step: DbStep) {
    match step
    case Start(x, _) => x !in s.txs
    case Lock(x, j) => At(s, x, j) && j !in Locked(s) && Matches(s.txs[x].kind, j, s.table[j])
    case Skip(x, j) =>
      At(s, x, j) && (!Matches(s.txs[x].kind, j, s.table[j]) || (j in Locked(s) && !s.txs[x].kind.WriteTx?))
    case Miss(x) => x in s.txs && s.txs[x].Scanning? && s.txs[x].todo == {}
    case Commit(x) => x in s.txs && s.txs[x].Holding? && s.txs[x].job in s.table
    case Rollback(x) => x in s.txs
    case Insert(j, _) => j !in s.table
    case SweepStart(_, _) => s.sweep.None?
    case SweepRow(j) => s.sweep.Some? && j in s.sweep.value.todo && j !in TxLocked(s)
    case SweepCommit => s.sweep.Some? && s.sweep.value.todo == {}
    case SweepAbort => s.sweep.Some?
  }

  // The sweep after its visit to row j, whose newest version is in table t.
  function Visited(w: SweepTx, t: Table, j: JobId): SweepTx {
    w.(todo := w.todo - {j}, held := if j in t && TimedOut(t[j], w.now, w.timeout) then w.held + {j} else w.held)
  }

  function Effect(s: Db, step: DbStep): Db {
    match step
    case Start(x, kind) => s.(txs := s.txs[x := Scanning(kind, Matching(kind, s.table))])
    case Lock(x, j) => if x in s.txs then s.(txs := s.txs[x := Holding(s.txs[x].kind, j)]) else s
    case Skip(x, j) =>
      if x in s.txs && s.txs[x].Scanning? then s.(txs := s.txs[x := s.txs[x].(todo := s.txs[x].todo - {j})]) else s
    case Miss(x) => if x in s.txs then s.(txs := s.txs[x := Missed(s.txs[x].kind)]) else s
    case Commit(x) =>
      if x in s.txs && s.txs[x].Holding? && s.txs[x].job in s.table
      then s.(table := Updated(s.txs[x].kind, s.table, s.txs[x].job), txs := s.txs - {x}) else s
    case Rollback(x) => s.(txs := s.txs - {x})
    case Insert(j, row) => s.(table := s.table[j := row])
    case SweepStart(now, timeout) => s.(sweep := Some(SweepTx(now, timeout, Expired(s.table, now, timeout), {})))
    case SweepRow(j) => if s.sweep.Some? then s.(sweep := Some(Visited(s.sweep.value, s.table, j))) else s
    case SweepCommit => s.(table := FailAll(s.table, SweepLocked(s)), sweep := None)
    case SweepAbort => s.(sweep := None)
  }

  function Step(s: Db, step: DbStep): Db
    requires Possible(s, step)
  {
    Effect(s, step)
  }

  // ---------- the locking invariant ----------

  ghost predicate Sound(s: Db) {
    && (forall x :: x in s.txs && s.txs[x].Holding? ==>
          s.txs[x].job in s.table && Matches(s.txs[x].kind, s.txs[x].job, s.table[s.txs[x].job]))
    && (forall x, y :: x in s.txs && y in s.txs && x != y && s.txs[x].Holding? && s.txs[y].Holding?
          ==> s.txs[x].job != s.txs[y].job)
    && (forall x :: x in s.txs && s.txs[x].Holding? ==> s.txs[x].job !in SweepLocked(s))
    && (s.sweep.Some? ==> SweepLocked(s) <= Expired(s.table, s.sweep.value.now, s.sweep.value.timeout))
  }

  lemma CommitKeepsSound(s: Db, x: nat)
    requires Sound(s) && Possible(s, Commit(x))
    ensures Sound(Step(s, Commit(x)))
  {
  }

  lemma SweepKeepsSound(s: Db, step: DbStep)
    requires Sound(s) && Possible(s, step)
    requires step.SweepStart? || step.SweepRow? || step.SweepCommit? || step.SweepAbort?
    ensures Sound(Step(s, step))
  {
    assert forall y :: y in s.txs && s.txs[y].Holding? ==> s.txs[y].job in TxLocked(s);
  }

  lemma StepKeepsSound(s: Db, step: DbStep)
    requires Sound(s) && Possible(s, step)
    ensures Sound(Step(s, step))
  {
    match step
    case Commit(x) => CommitKeepsSound(s, x);
    case Lock(_, _) => assert forall y :: y in s.txs && s.txs[y].Holding? ==> s.txs[y].job in TxLocked(s);
    case SweepStart(_, _) => SweepKeepsSound(s, step);
    case SweepRow(_) => SweepKeepsSound(s, step);
    case SweepCommit => SweepKeepsSound(s, step);
    case SweepAbort => SweepKeepsSound(s, step);
    case _ =>
  }

  // ---------- refinement ----------

  datatype Atomic =
    | Stutter
    | ClaimRow(job: JobId)
    | PromoteRow(project: ProjectId, job: JobId)
    | WriteRow(job: JobId, status: Status)
    | InsertRow(job: JobId, row: Job)
    | FailRows(rows: set<JobId>, now: Time, timeout: int)

  // Only commits and an insertion are visible.
  function Visible(s: Db, step: DbStep): Atomic
    requires Possible(s, step)
  {
    match step
    case Commit(x) => (match s.txs[x].kind
                       case ClaimTx => ClaimRow(s.txs[x].job)
                       case PromoteTx(p) => PromoteRow(p, s.txs[x].job)
                       case WriteTx(j, st) => WriteRow(j, st))
    case Insert(j, row) => InsertRow(j, row)
    case SweepCommit => FailRows(s.sweep.value.held, s.sweep.value.now, s.sweep.value.timeout)
    case _ => Stutter
  }

  // The atomic steps on the table, as the transition system takes them.
  predicate AtomicStep(t: Table, a: Atomic, u: Table) {
    match a
    case Stutter => u == t
    case ClaimRow(j) => j in t && Claimable(t[j].status) && u == Claimed(t, j)
    case PromoteRow(p, j) => j in QueuedIn(t, p) && u == WithStatus(t, j, PendingPlan)
    case WriteRow(j, st) => u == WithStatus(t, j, st)
    case InsertRow(j, row) => j !in t && u == t[j := row]
    case FailRows(rows, now, timeout) => rows <= Expired(t, now, timeout) && u == FailAll(t, rows)
  }

  lemma StepRefines(s: Db, step: DbStep)
    requires Sound(s) && Possible(s, step)
    ensures AtomicStep(s.table, Visible(s, step), Step(s, step).table)
  {
  }

  predicate Runs(s: Db, run: seq<DbStep>)
    decreases |run|
  {
    run == [] || (Possible(s, run[0]) && Runs(Step(s, run[0]), run[1..]))
  }

  function End(s: Db, run: seq<DbStep>): Db
    requires Runs(s, run)
    decreases |run|
  {
    if run == [] then s else End(Step(s, run[0]), run[1..])
  }

  function VisibleRun(s: Db, run: seq<DbStep>): seq<Atomic>
    requires Runs(s, run)
    decreases |run|
  {
    if run == [] then [] else [Visible(s, run[0])] + VisibleRun(Step(s, run[0]), run[1..])
  }

  ghost predicate AtomicRun(t: Table, run: seq<Atomic>, u: Table)
    decreases |run|
  {
    if run == [] then u == t
    else exists mid :: AtomicStep(t, run[0], mid) && AtomicRun(mid, run[1..], u)
  }

  // Every interleaving of transactions acts on the table like a sequence of atomic steps.
  lemma {:induction false} TransactionsRefineAtomicSteps(s: Db, run: seq<DbStep>)
    requires Sound(s) && Runs(s, run)
    ensures AtomicRun(s.table, VisibleRun(s, run), End(s, run).table) && Sound(End(s, run))
    decreases |run|
  {
    if run != [] {
      StepRefines(s, run[0]);
      StepKeepsSound(s, run[0]);
      TransactionsRefineAtomicSteps(Step(s, run[0]), run[1..]);
      assert VisibleRun(s, run)[1..] == VisibleRun(Step(s, run[0]), run[1..]);
      assert AtomicStep(s.table, VisibleRun(s, run)[0], Step(s, run[0]).table);
    }
  }

  // The atomic steps are those of the orchestrator: a committed claim is a claim some idle worker could make.
  lemma CommittedClaimIsAClaim(s: Db, x: nat, o: State, w: nat)
    requires Sound(s) && Possible(s, Commit(x)) && s.txs[x].kind.ClaimTx?
    requires o.table == s.table && s.txs[x].job in o.tally && w < |o.workers| && o.workers[w].Idle?
    ensures CanClaim(o, w, s.txs[x].job) && AfterClaim(o, w, s.txs[x].job).table == Step(s, Commit(x)).table
  {
  }

  lemma CommittedPromotionIsAPromotion(s: Db, x: nat, o: State, w: nat)
    requires Sound(s) && Possible(s, Commit(x)) && s.txs[x].kind.PromoteTx?
    requires o.table == s.table && w < |o.workers| && o.workers[w].Busy? && o.workers[w].pc.Closing?
    requires o.workers[w].job in o.table && o.table[o.workers[w].job].project == s.txs[x].kind.project
    ensures CanPromote(o, w, Some(s.txs[x].job))
    ensures AfterPromote(o, w, Some(s.txs[x].job)).table == Step(s, Commit(x)).table
  {
  }

  // A committed sweep that missed no overdue row is a sweep that began when its statement did.
  lemma CommittedSweepIsASweep(s: Db, o: State)
    requires Sound(s) && NoneEscapes(s) && Possible(s, SweepCommit)
    requires o.table == s.table && o.timeout == s.sweep.value.timeout && o.sweptAt <= s.sweep.value.now <= o.now
    ensures Enabled(o, Sweep(s.sweep.value.now))
    ensures AfterSweep(o, s.sweep.value.now).table == Step(s, SweepCommit).table
  {
    SweepIsAtomicIff(s);
  }

  // ---------- one claim per time a row becomes claimable ----------

  predicate ClaimsRow(s: Db, step: DbStep, j: JobId) {
    step.Commit? && step.x in s.txs && s.txs[step.x] == Holding(ClaimTx, j)
  }

  // A visible step other than a claim that leaves j claimable.
  predicate Revives(s: Db, step: DbStep, j: JobId)
    requires Possible(s, step)
  {
    match Visible(s, step)
    case PromoteRow(_, k) => k == j
    case WriteRow(k, st) => k == j && Claimable(st)
    case InsertRow(k, row) => k == j
    case _ => false
  }

  function Count(b: bool): nat { if b then 1 else 0 }

  function ClaimCommits(s: Db, run: seq<DbStep>, j: JobId): nat
    requires Runs(s, run)
    decreases |run|
  {
    if run == [] then 0 else Count(ClaimsRow(s, run[0], j)) + ClaimCommits(Step(s, run[0]), run[1..], j)
  }

  function Revivals(s: Db, run: seq<DbStep>, j: JobId): nat
    requires Runs(s, run)
    decreases |run|
  {
    if run == [] then 0 else Count(Revives(s, run[0], j)) + Revivals(Step(s, run[0]), run[1..], j)
  }

  predicate IsClaimable(t: Table, j: JobId) {
    j in t && Claimable(t[j].status)
  }

  predicate KnownRow(t: Table, j: JobId) {
    j in t ==> Known(t[j].operation)
  }

  lemma StepCountsClaims(s: Db, step: DbStep, j: JobId)
    requires Sound(s) && Possible(s, step) && KnownRow(s.table, j)
    ensures Count(ClaimsRow(s, step, j)) + Count(IsClaimable(Step(s, step).table, j))
         <= Count(IsClaimable(s.table, j)) + Count(Revives(s, step, j))
  {
  }

  // However the transactions overlap, commits never claim a row twice without it having been made claimable again.
  lemma {:induction false} ClaimCommitsAreExclusive(s: Db, run: seq<DbStep>, j: JobId)
    requires Sound(s) && Runs(s, run) && KnownRow(End(s, run).table, j)
    ensures ClaimCommits(s, run, j) + Count(IsClaimable(End(s, run).table, j))
         <= Count(IsClaimable(s.table, j)) + Revivals(s, run, j)
    decreases |run|
  {
    if run != [] {
      StepKeepsSound(s, run[0]);
      if j in s.table { RunKeepsOperation(s, run, j); }
      StepCountsClaims(s, run[0], j);
      ClaimCommitsAreExclusive(Step(s, run[0]), run[1..], j);
    }
  }

  lemma {:induction false} RunKeepsOperation(s: Db, run: seq<DbStep>, j: JobId)
    requires Runs(s, run) && j in s.table
    ensures j in End(s, run).table && End(s, run).table[j].operation == s.table[j].operation
    decreases |run|
  {
    if run != [] {
      assert j in Step(s, run[0]).table && Step(s, run[0]).table[j].operation == s.table[j].operation;
      RunKeepsOperation(Step(s, run[0]), run[1..], j);
    }
  }

  // ---------- rolling back ----------

  function Erase(s: Db, x: nat): Db {
    s.(txs := s.txs - {x})
  }

  predicate Concerns(step: DbStep, x: nat) {
    match step
    case Start(y, _) => y == x
    case Lock(y, _) => y == x
    case Skip(y, _) => y == x
    case Miss(y) => y == x
    case Commit(y) => y == x
    case Rollback(y) => y == x
    case _ => false
  }

  function Others(run: seq<DbStep>, x: nat): seq<DbStep> {
    if run == [] then [] else (if Concerns(run[0], x) then [] else [run[0]]) + Others(run[1..], x)
  }

  function Effects(s: Db, steps: seq<DbStep>): Db
    decreases |steps|
  {
    if steps == [] then s else Effects(Effect(s, steps[0]), steps[1..])
  }

  lemma StepErased(s: Db, step: DbStep, x: nat)
    requires Possible(s, step) && step != Commit(x)
    ensures Erase(Step(s, step), x) == if Concerns(step, x) then Erase(s, x) else Effect(Erase(s, x), step)
  {
    match step
    case SweepCommit => assert SweepLocked(Erase(s, x)) == SweepLocked(s);
    case Start(y, _) => TxsErased(s.txs, x, y, Step(s, step).txs);
    case Lock(y, _) => TxsErased(s.txs, x, y, Step(s, step).txs);
    case Skip(y, _) => TxsErased(s.txs, x, y, Step(s, step).txs);
    case Miss(y) => TxsErased(s.txs, x, y, Step(s, step).txs);
    case Commit(y) => assert s.txs - {y} - {x} == s.txs - {x} - {y};
    case Rollback(y) => assert s.txs - {y} - {x} == s.txs - {x} - {y};
    case _ =>
  }

  lemma TxsErased(txs: map<nat, Tx>, x: nat, y: nat, more: map<nat, Tx>)
    requires y in more && more == txs[y := more[y]]
    ensures more - {x} == if x == y then txs - {x} else (txs - {x})[y := more[y]]
  {
  }

  lemma {:induction false} RunErased(s: Db, run: seq<DbStep>, x: nat)
    requires Runs(s, run) && Commit(x) !in run
    ensures Erase(End(s, run), x) == Effects(Erase(s, x), Others(run, x))
    decreases |run|
  {
    if run != [] {
      assert run[0] in run && forall step :: step in run[1..] ==> step in run;
      StepErased(s, run[0], x);
      RunErased(Step(s, run[0]), run[1..], x);
      if !Concerns(run[0], x) {
        assert ([run[0]] + Others(run[1..], x))[1..] == Others(run[1..], x);
      } else {
        assert [] + Others(run[1..], x) == Others(run[1..], x);
      }
    }
  }

  // A transaction that comes and is rolled back, whatever the others do meanwhile, leaves no trace: the end is what
  // the others' steps alone bring about. What it can do is make others skip or wait for the row it held.
  lemma RollbackLeavesNoTrace(s: Db, run: seq<DbStep>, x: nat)
    requires Runs(s, run) && Commit(x) !in run
    requires x !in s.txs && x !in End(s, run).txs
    ensures End(s, run) == Effects(s, Others(run, x))
  {
    RunErased(s, run, x);
    assert Erase(s, x) == s && Erase(End(s, run), x) == End(s, run);
  }

  // ---------- the sweep acts at once ----------

  // A committed sweep fails every overdue row of the table it commits to iff none of them escaped its snapshot.
  lemma SweepIsAtomicIff(s: Db)
    requires Sound(s) && Possible(s, SweepCommit)
    ensures var w := s.sweep.value;
            Step(s, SweepCommit).table == Swept(s.table, w.now, w.timeout)
            <==> Expired(s.table, w.now, w.timeout) <= w.held
  {
    var w := s.sweep.value;
    var t, u := Step(s, SweepCommit).table, Swept(s.table, w.now, w.timeout);
    if t == u {
      forall j | j in Expired(s.table, w.now, w.timeout) ensures j in w.held {
        assert t[j] == u[j];
      }
    }
    if Expired(s.table, w.now, w.timeout) <= w.held {
      forall j | j in s.table ensures t[j] == u[j] {
        assert j in w.held <==> j in Expired(s.table, w.now, w.timeout);
      }
    }
  }

  // No row is born overdue, and none is put back into the queue.
  predicate NoneSlipsIn(s: Db, step: DbStep) {
    match step
    case Commit(x) => x in s.txs && s.txs[x].kind.WriteTx? ==> s.txs[x].kind.status != Queued
    case Insert(_, row) => s.sweep.Some? ==> !TimedOut(row, s.sweep.value.now, s.sweep.value.timeout)
    case _ => true
  }

  // Every overdue row is still to be visited or has been locked.
  ghost predicate NoneEscapes(s: Db) {
    s.sweep.Some? ==>
      var w := s.sweep.value; Expired(s.table, w.now, w.timeout) <= w.todo + w.held
  }

  lemma StepLetsNoneEscape(s: Db, step: DbStep)
    requires NoneEscapes(s) && Possible(s, step) && NoneSlipsIn(s, step)
    ensures NoneEscapes(Step(s, step))
  {
  }

  ghost predicate NoneSlipInto(s: Db, run: seq<DbStep>)
    requires Runs(s, run)
    decreases |run|
  {
    run == [] || (NoneSlipsIn(s, run[0]) && NoneSlipInto(Step(s, run[0]), run[1..]))
  }

  lemma {:induction false} RunLetsNoneEscape(s: Db, run: seq<DbStep>)
    requires Sound(s) && NoneEscapes(s) && Runs(s, run) && NoneSlipInto(s, run)
    ensures Sound(End(s, run)) && NoneEscapes(End(s, run))
    decreases |run|
  {
    if run != [] {
      StepKeepsSound(s, run[0]);
      StepLetsNoneEscape(s, run[0]);
      RunLetsNoneEscape(Step(s, run[0]), run[1..]);
    }
  }

  // So whatever claims, promotions and writes run beside it, a sweep acts like one statement on the table it commits
  // to: it waits for held rows, checks them again, and misses none.
  lemma SweepActsAtOnce(t: Table, run: seq<DbStep>)
    requires Runs(Db(t, map[], None), run) && NoneSlipInto(Db(t, map[], None), run)
    requires Possible(End(Db(t, map[], None), run), SweepCommit)
    ensures var s := End(Db(t, map[], None), run);
            Step(s, SweepCommit).table == Swept(s.table, s.sweep.value.now, s.sweep.value.timeout)
  {
    RunLetsNoneEscape(Db(t, map[], None), run);
    SweepIsAtomicIff(End(Db(t, map[], None), run));
  }

  // ---------- claims open together ----------

  predicate ClaimScan(step: DbStep) {
    match step
    case Start(_, kind) => kind.ClaimTx?
    case Lock(_, _) => true
    case Skip(_, _) => true
    case Miss(_) => true
    case _ => false
  }

  predicate DistinctTimes(t: Table) {
    forall a, b :: a in t && b in t && a != b ==> t[a].createdAt != t[b].createdAt
  }

  // The locked rows are claimable, and older than every claimable row left.
  ghost predicate Oldest(t: Table, locked: set<JobId>) {
    && locked <= Matching(ClaimTx, t)
    && forall a, b :: a in locked && b in Matching(ClaimTx, t) - locked ==> t[a].createdAt < t[b].createdAt
  }

  lemma OldestGrows(t: Table, locked: set<JobId>, j: JobId)
    requires DistinctTimes(t) && Oldest(t, locked) && j in t
    requires j in Matching(ClaimTx, t) - locked && NoOlder(t, j, Matching(ClaimTx, t) - locked)
    ensures Oldest(t, locked + {j})
  {
  }

  // A claim that scans still has every free row before it, and one that missed found all rows taken.
  predicate ClaimFits(t: Table, tx: Tx, locked: set<JobId>) {
    && tx.kind.ClaimTx?
    && (tx.Scanning? ==> tx.todo <= Matching(ClaimTx, t) <= tx.todo + locked)
    && (tx.Missed? ==> locked == Matching(ClaimTx, t))
  }

  // k open claims on table t hold one row each, the oldest.
  ghost predicate HoldsOldest(s: Db, t: Table) {
    && s.table == t && s.sweep.None?
    && (forall x :: x in s.txs ==> ClaimFits(t, s.txs[x], Locked(s)))
    && Oldest(t, Locked(s)) && |Locked(s)| == |Holders(s)|
  }

  lemma LockIsAdded(s: Db, x: nat, kind: TxKind, j: JobId)
    requires x in s.txs ==> !s.txs[x].Holding?
    ensures var u := s.(txs := s.txs[x := Holding(kind, j)]);
            Locked(u) == Locked(s) + {j} && Holders(u) == Holders(s) + {x}
  {
    var u := s.(txs := s.txs[x := Holding(kind, j)]);
    forall k | k in TxLocked(s) + {j} ensures k in TxLocked(u) {
      if k != j {
        var y :| y in s.txs && s.txs[y].Holding? && s.txs[y].job == k;
        assert u.txs[y] == s.txs[y];
      } else {
        assert u.txs[x].job == j;
      }
    }
  }

  lemma LocksAreKept(s: Db, x: nat, tx: Tx)
    requires !tx.Holding? && (x in s.txs ==> !s.txs[x].Holding?)
    ensures var u := s.(txs := s.txs[x := tx]); Locked(u) == Locked(s) && Holders(u) == Holders(s)
  {
    var u := s.(txs := s.txs[x := tx]);
    forall k | k in TxLocked(s) ensures k in TxLocked(u) {
      var y :| y in s.txs && s.txs[y].Holding? && s.txs[y].job == k;
      assert u.txs[y] == s.txs[y];
    }
  }

  lemma LockEffect(s: Db, x: nat, j: JobId, t: Table)
    requires HoldsOldest(s, t) && Possible(s, Lock(x, j))
    ensures Step(s, Lock(x, j)) == s.(txs := s.txs[x := Holding(ClaimTx, j)])
    ensures x !in Holders(s) && j !in Locked(s) && j in Matching(ClaimTx, t)
    ensures NoOlder(t, j, Matching(ClaimTx, t) - Locked(s))
    ensures forall y :: y in s.txs ==> !s.txs[y].Missed?
  {
    assert forall y :: y in s.txs ==> ClaimFits(t, s.txs[y], Locked(s));
  }

  lemma StillFits(t: Table, tx: Tx, locked: set<JobId>, j: JobId)
    requires ClaimFits(t, tx, locked) && !tx.Missed?
    ensures ClaimFits(t, tx, locked + {j})
  {
  }

  lemma HoldsOneMore(s: Db, x: nat, j: JobId, t: Table, u: Db)
    requires HoldsOldest(s, t) && (forall y :: y in s.txs ==> !s.txs[y].Missed?)
    requires u == s.(txs := s.txs[x := Holding(ClaimTx, j)])
    requires Locked(u) == Locked(s) + {j} && Holders(u) == Holders(s) + {x} && x !in Holders(s) && j !in Locked(s)
    requires Oldest(t, Locked(s) + {j})
    ensures HoldsOldest(u, t)
  {
    forall y | y in u.txs ensures ClaimFits(t, u.txs[y], Locked(u)) {
      if y != x {
        StillFits(t, s.txs[y], Locked(s), j);
      }
    }
  }

  lemma LockKeepsHoldsOldest(s: Db, x: nat, j: JobId, t: Table)
    requires HoldsOldest(s, t) && DistinctTimes(t) && Possible(s, Lock(x, j))
    ensures HoldsOldest(Step(s, Lock(x, j)), t)
  {
    LockEffect(s, x, j, t);
    OldestGrows(t, Locked(s), j);
    LockIsAdded(s, x, ClaimTx, j);
    HoldsOneMore(s, x, j, t, Step(s, Lock(x, j)));
  }

  lemma SameLocksHoldOldest(s: Db, x: nat, tx: Tx, t: Table)
    requires HoldsOldest(s, t) && ClaimFits(t, tx, Locked(s)) && !tx.Holding?
    requires x in s.txs ==> !s.txs[x].Holding?
    ensures HoldsOldest(s.(txs := s.txs[x := tx]), t)
  {
    LocksAreKept(s, x, tx);
  }

  lemma StartKeepsHoldsOldest(s: Db, x: nat, t: Table)
    requires HoldsOldest(s, t) && Possible(s, Start(x, ClaimTx))
    ensures HoldsOldest(Step(s, Start(x, ClaimTx)), t)
  {
    SameLocksHoldOldest(s, x, Scanning(ClaimTx, Matching(ClaimTx, s.table)), t);
  }

  lemma SkipKeepsHoldsOldest(s: Db, x: nat, j: JobId, t: Table)
    requires HoldsOldest(s, t) && Possible(s, Skip(x, j))
    ensures HoldsOldest(Step(s, Skip(x, j)), t)
  {
    assert ClaimFits(t, s.txs[x], Locked(s));
    SameLocksHoldOldest(s, x, s.txs[x].(todo := s.txs[x].todo - {j}), t);
  }

  lemma MissKeepsHoldsOldest(s: Db, x: nat, t: Table)
    requires HoldsOldest(s, t) && Possible(s, Miss(x))
    ensures HoldsOldest(Step(s, Miss(x)), t)
  {
    assert ClaimFits(t, s.txs[x], Locked(s));
    SameLocksHoldOldest(s, x, Missed(ClaimTx), t);
  }

  lemma ScanKeepsHoldsOldest(s: Db, step: DbStep, t: Table)
    requires HoldsOldest(s, t) && DistinctTimes(t) && Possible(s, step) && ClaimScan(step)
    ensures HoldsOldest(Step(s, step), t)
  {
    match step
    case Start(x, kind) => StartKeepsHoldsOldest(s, x, t);
    case Lock(x, j) => LockKeepsHoldsOldest(s, x, j, t);
    case Skip(x, j) => SkipKeepsHoldsOldest(s, x, j, t);
    case Miss(x) => MissKeepsHoldsOldest(s, x, t);
  }

  lemma {:induction false} ScansKeepHoldsOldest(s: Db, run: seq<DbStep>, t: Table)
    requires HoldsOldest(s, t) && DistinctTimes(t) && Runs(s, run)
    requires forall i :: 0 <= i < |run| ==> ClaimScan(run[i])
    ensures HoldsOldest(End(s, run), t)
    decreases |run|
  {
    if run != [] {
      var u := Step(s, run[0]);
      assert ClaimScan(run[0]);
      ScanKeepsHoldsOldest(s, run[0], t);
      assert HoldsOldest(u, t) && Runs(u, run[1..]);
      ScansKeepHoldsOldest(u, run[1..], t);
    }
  }

  // k claims that have all finished their scan on an otherwise quiet table hold exactly the min(k, n) oldest of
  // its n claimable rows, a different row each.
  lemma OpenClaimsHoldTheOldest(t: Table, run: seq<DbStep>)
    requires DistinctTimes(t) && Runs(Db(t, map[], None), run)
    requires forall i :: 0 <= i < |run| ==> ClaimScan(run[i])
    requires forall x :: x in End(Db(t, map[], None), run).txs ==> !End(Db(t, map[], None), run).txs[x].Scanning?
    ensures var s, n := End(Db(t, map[], None), run), |Matching(ClaimTx, t)|;
            && Locked(s) <= Matching(ClaimTx, t)
            && |Locked(s)| == |Holders(s)| == (if |s.txs| <= n then |s.txs| else n)
            && forall a, b :: a in Locked(s) && b in Matching(ClaimTx, t) - Locked(s) ==>
                 t[a].createdAt < t[b].createdAt
  {
    var start := Db(t, map[], None);
    assert Locked(start) == {} && Holders(start) == {};
    ScansKeepHoldsOldest(start, run, t);
    var s := End(start, run);
    if x :| x in s.txs && s.txs[x].Missed? {
      assert ClaimFits(t, s.txs[x], Locked(s));
      assert Holders(s) <= s.txs.Keys - {x};
      SubsetSize(Holders(s), s.txs.Keys);
    } else {
      assert Holders(s) == s.txs.Keys;
      SubsetSize(Locked(s), Matching(ClaimTx, t));
    }
  }
}
