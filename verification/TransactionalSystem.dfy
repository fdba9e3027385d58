/** The whole system with its statements as they are: workers, requests and history beside a database of open
    transactions. The transition system simulates it step by step, so what holds of every reachable state of that system
    holds of this one. */
module TransactionalSystem {
  import opened Jobs
  import opened Queue
  import opened Execution
  import opened Orchestrator
  import opened Safety
  import opened Transactions

  datatype System = System(o: State, txs: map<nat, Tx>, sweep: Option<SweepTx>)

  function View(c: System): Db {
    Db(c.o.table, c.txs, c.sweep)
  }

  datatype Act =
    | Hidden(statement: DbStep)                    // a statement begins, goes on, or fails
    | Aside(step: Step)                            // a step that writes no status
    | ClaimCommits(x: nat, w: nat)
    | PromoteCommits(x: nat, w: nat)
    | RequestCommits(x: nat, r: nat)
    | RunCommits(x: nat, w: nat, ok: bool, text: string)
    | Inserts(r: nat, id: JobId)
    | SweepCommits

  predicate IsHidden(c: System, step: DbStep) {
    && !step.Commit? && !step.Insert? && !step.SweepCommit?
    && (step.SweepStart? ==> step.now == c.o.now && step.timeout == c.o.timeout)
  }

  predicate WritesNoStatus(step: Step) {
    match step
    case BeginCreate(_, _, _, _) => true
    case Begin(_, _, _) => true
    case Drop(_) => true
    case Work(_, e, _, took, _) => !(e.WriteStatus? && took)
    case Promote(_, next) => next.None?
    case Vanish(_) => true
    case Tick(_) => true
    case Store(_) => true
    case _ => false
  }

  // Transaction x is about to commit an update of that kind.
  predicate Commits(c: System, x: nat, kind: TxKind) {
    x in c.txs && c.txs[x].Holding? && c.txs[x].kind == kind && c.txs[x].job in c.o.table
  }

  predicate Guard(c: System, act: Act) {
    match act
    case Hidden(step) => Possible(View(c), step) && IsHidden(c, step)
    case Aside(step) => Enabled(c.o, step) && WritesNoStatus(step)
    case ClaimCommits(x, w) => Commits(c, x, ClaimTx) && w < |c.o.workers| && c.o.workers[w].Idle?
    case PromoteCommits(x, w) =>
      && w < |c.o.workers| && c.o.workers[w].Busy? && c.o.workers[w].pc.Closing? && c.o.workers[w].job in c.o.table
      && Commits(c, x, PromoteTx(c.o.table[c.o.workers[w].job].project))
    case RequestCommits(x, r) =>
      && r in c.o.requests && c.o.requests[r].Writing?
      && Commits(c, x, WriteTx(c.o.requests[r].job, Writes(c.o.requests[r].kind)))
    case RunCommits(x, w, ok, _) =>
      && x in c.txs && c.txs[x].kind.WriteTx? && Commits(c, x, c.txs[x].kind)
      && w < |c.o.workers| && Works(c.o.workers[w], c.txs[x].kind.job)
      && CanWork(c.o, w, WriteStatus(c.txs[x].kind.status), ok, true)
    case Inserts(r, id) => CanCreate(c.o, r, id)
    case SweepCommits => Possible(View(c), SweepCommit)
  }

  // What the database makes of its own step.
  function Stored(c: System, step: DbStep): System {
    var d := Transactions.Effect(View(c), step);
    System(c.o.(table := d.table), d.txs, d.sweep)
  }

  function Claims(n: Tally): Tally {
    n.(claims := n.claims + 1)
  }

  // The database does its step; the process and the history move on with it.
  function Do(c: System, act: Act): System
    requires Guard(c, act) && c.o.tally.Keys == c.o.table.Keys
  {
    match act
    case Hidden(step) => Stored(c, step)
    case Aside(step) => c.(o := Perform(c.o, step))
    case ClaimCommits(x, w) =>
      var d, j := Stored(c, Commit(x)), c.txs[x].job;
      d.(o := d.o.(workers := d.o.workers[w := Busy(j, Preparing(0))], tally := d.o.tally[j := Claims(d.o.tally[j])]))
    case PromoteCommits(x, w) =>
      var d, j := Stored(c, Commit(x)), c.txs[x].job;
      d.(o := d.o.(workers := d.o.workers[w := Idle], ledger := d.o.ledger.(promoted := d.o.ledger.promoted + [j])))
    case RequestCommits(x, r) =>
      var d, j := Stored(c, Commit(x)), c.txs[x].job;
      d.(o := d.o.(requests := d.o.requests - {r},
                   tally := d.o.tally[j := Approvals(d.o.tally[j], c.o.requests[r].kind)],
                   ledger := if c.o.table[j].status == Queued
                             then d.o.ledger.(withdrawn := d.o.ledger.withdrawn + {j}) else d.o.ledger))
    case RunCommits(x, w, ok, _) =>
      var d, v, e := Stored(c, Commit(x)), c.o.workers[w], WriteStatus(c.txs[x].kind.status);
      d.(o := d.o.(workers := d.o.workers[w := Busy(v.job, Next(c.o.table[v.job].operation, v.pc, e, ok, true).value)]))
    case Inserts(r, id) =>
      var row := AfterCreate(c.o, r, id).table[id];
      var d := Stored(c, Insert(id, row));
      d.(o := AfterCreate(c.o, r, id).(table := d.o.table))
    case SweepCommits =>
      var d, w := Stored(c, SweepCommit), c.sweep.value;
      d.(o := d.o.(sweptAt := w.now, ledger := d.o.ledger.(expired := d.o.ledger.expired + w.held)))
  }

  // The step of the transition system an act stands for, if it is visible.
  function Image(c: System, act: Act): seq<Step>
    requires Guard(c, act)
  {
    match act
    case Hidden(_) => []
    case Aside(step) => [step]
    case ClaimCommits(x, w) => [Claim(w, c.txs[x].job)]
    case PromoteCommits(x, w) => [Promote(w, Some(c.txs[x].job))]
    case RequestCommits(_, r) => [End(r)]
    case RunCommits(x, w, ok, text) => [Work(w, WriteStatus(c.txs[x].kind.status), ok, true, text)]
    case Inserts(r, id) => [EndCreate(r, id)]
    case SweepCommits => [Sweep(c.sweep.value.now)]
  }

  // ---------- the invariant ----------

  ghost predicate SweepFits(c: System) {
    && c.o.sweptAt <= c.o.now && c.o.timeout >= 0
    && (c.sweep.Some? ==> c.sweep.value.timeout == c.o.timeout && c.o.sweptAt <= c.sweep.value.now <= c.o.now)
  }

  ghost predicate Fits(c: System) {
    Consistent(c.o) && Sound(View(c)) && NoneEscapes(View(c)) && SweepFits(c)
  }

  // Rewriting columns that no query looks at.
  lemma SameQueries(c: Db, t: Table)
    requires Sound(c) && NoneEscapes(c) && t.Keys == c.table.Keys
    requires forall j :: j in t ==> SameIdentity(c.table[j], t[j]) && t[j].status == c.table[j].status
    ensures Sound(c.(table := t)) && NoneEscapes(c.(table := t))
  {
  }

  lemma DatabaseStepFits(c: System, step: DbStep)
    requires Sound(View(c)) && NoneEscapes(View(c)) && Possible(View(c), step) && NoneSlipsIn(View(c), step)
    ensures Sound(View(Stored(c, step))) && NoneEscapes(View(Stored(c, step)))
  {
    StepKeepsSound(View(c), step);
    StepLetsNoneEscape(View(c), step);
  }

  // ---------- each act ----------

  ghost predicate Simulated(c: System, act: Act)
    requires Guard(c, act) && c.o.tally.Keys == c.o.table.Keys
  {
    var run, d := Image(c, act), Do(c, act);
    && Executes(c.o, run) && After(c.o, run) == d.o
    && Sound(View(d)) && NoneEscapes(View(d)) && SweepFits(d)
  }

  lemma HiddenIsSimulated(c: System, step: DbStep)
    requires Fits(c) && Guard(c, Hidden(step))
    ensures Simulated(c, Hidden(step))
  {
    DatabaseStepFits(c, step);
    assert c.o.(table := c.o.table) == c.o;
  }

  lemma AsideKeepsStatuses(o: State, step: Step)
    requires Enabled(o, step) && WritesNoStatus(step)
    ensures var u := Perform(o, step);
            && u.table.Keys == o.table.Keys && u.sweptAt == o.sweptAt && u.timeout == o.timeout && o.now <= u.now
            && forall j :: j in o.table ==>
                 SameIdentity(o.table[j], u.table[j]) && u.table[j].status == o.table[j].status
  {
  }

  lemma AsideIsSimulated(c: System, step: Step)
    requires Fits(c) && Guard(c, Aside(step))
    ensures Simulated(c, Aside(step))
  {
    AsideKeepsStatuses(c.o, step);
    var u := Perform(c.o, step);
    Prepend(c.o, step, []);
    SameQueries(View(c), u.table);
    assert View(Do(c, Aside(step))) == View(c).(table := u.table);
  }

  lemma ClaimIsSimulated(c: System, x: nat, w: nat)
    requires Fits(c) && Guard(c, ClaimCommits(x, w))
    ensures Simulated(c, ClaimCommits(x, w))
  {
    DatabaseStepFits(c, Commit(x));
    Prepend(c.o, Claim(w, c.txs[x].job), []);
  }

  lemma PromotionIsSimulated(c: System, x: nat, w: nat)
    requires Fits(c) && Guard(c, PromoteCommits(x, w))
    ensures Simulated(c, PromoteCommits(x, w))
  {
    DatabaseStepFits(c, Commit(x));
    Prepend(c.o, Promote(w, Some(c.txs[x].job)), []);
  }

  lemma RequestIsSimulated(c: System, x: nat, r: nat)
    requires Fits(c) && Guard(c, RequestCommits(x, r))
    ensures Simulated(c, RequestCommits(x, r))
  {
    DatabaseStepFits(c, Commit(x));
    assert Matches(c.txs[x].kind, c.txs[x].job, c.o.table[c.txs[x].job]);
    Prepend(c.o, End(r), []);
  }

  lemma RunWriteIsWork(c: System, x: nat, w: nat, ok: bool, text: string)
    requires Consistent(c.o) && Guard(c, RunCommits(x, w, ok, text)) && c.txs[x].kind.job == c.txs[x].job
    ensures var e := WriteStatus(c.txs[x].kind.status);
            && CanWork(c.o, w, e, ok, true)
            && AfterWork(c.o, w, e, ok, true, text) == Do(c, RunCommits(x, w, ok, text)).o
  {
    var j := c.txs[x].job;
    assert c.o.tally[j := c.o.tally[j]] == c.o.tally;
  }

  lemma RunWriteIsSimulated(c: System, x: nat, w: nat, ok: bool, text: string)
    requires Fits(c) && Guard(c, RunCommits(x, w, ok, text))
    ensures Simulated(c, RunCommits(x, w, ok, text))
  {
    assert Matches(c.txs[x].kind, c.txs[x].job, c.o.table[c.txs[x].job]);
    DatabaseStepFits(c, Commit(x));
    RunWriteIsWork(c, x, w, ok, text);
    Prepend(c.o, Work(w, WriteStatus(c.txs[x].kind.status), ok, true, text), []);
  }

  lemma InsertIsSimulated(c: System, r: nat, id: JobId)
    requires Fits(c) && Guard(c, Inserts(r, id))
    ensures Simulated(c, Inserts(r, id))
  {
    DatabaseStepFits(c, Insert(id, AfterCreate(c.o, r, id).table[id]));
    Prepend(c.o, EndCreate(r, id), []);
  }

  lemma SweepIsSimulated(c: System)
    requires Fits(c) && Guard(c, SweepCommits)
    ensures Simulated(c, SweepCommits)
  {
    DatabaseStepFits(c, SweepCommit);
    CommittedSweepIsASweep(View(c), c.o);
    assert c.sweep.value.held == Expired(c.o.table, c.sweep.value.now, c.o.timeout);
    Prepend(c.o, Sweep(c.sweep.value.now), []);
  }

  // Whatever a worker, a request, the sweep or the database does is a step of the transition system or hidden from it.
  lemma ActIsSimulated(c: System, act: Act)
    requires Fits(c) && Guard(c, act)
    ensures Simulated(c, act) && Fits(Do(c, act))
  {
    match act {
      case Hidden(step) => HiddenIsSimulated(c, step);
      case Aside(step) => AsideIsSimulated(c, step);
      case ClaimCommits(x, w) => ClaimIsSimulated(c, x, w);
      case PromoteCommits(x, w) => PromotionIsSimulated(c, x, w);
      case RequestCommits(x, r) => RequestIsSimulated(c, x, r);
      case RunCommits(x, w, ok, text) => RunWriteIsSimulated(c, x, w, ok, text);
      case Inserts(r, id) => InsertIsSimulated(c, r, id);
      case SweepCommits => SweepIsSimulated(c);
    }
    RunKeepsConsistent(c.o, Image(c, act));
  }

  // ---------- whole runs ----------

  ghost predicate Acts(c: System, acts: seq<Act>)
    decreases |acts|
  {
    acts == []
    || (c.o.tally.Keys == c.o.table.Keys && Guard(c, acts[0]) && Acts(Do(c, acts[0]), acts[1..]))
  }

  ghost function Finally(c: System, acts: seq<Act>): System
    requires Acts(c, acts)
    decreases |acts|
  {
    if acts == [] then c else Finally(Do(c, acts[0]), acts[1..])
  }

  lemma {:induction false} ActsAreARun(c: System, acts: seq<Act>) returns (run: seq<Step>)
    requires Fits(c) && Acts(c, acts)
    ensures Executes(c.o, run) && After(c.o, run) == Finally(c, acts).o && Fits(Finally(c, acts))
    decreases |acts|
  {
    if acts == [] {
      run := [];
    } else {
      ActIsSimulated(c, acts[0]);
      var rest := ActsAreARun(Do(c, acts[0]), acts[1..]);
      RunsCompose(c.o, Image(c, acts[0]), rest);
      run := Image(c, acts[0]) + rest;
    }
  }

  // Every state the system reaches, with its statements interleaved row by row, is one the transition system reaches.
  lemma EveryStateIsReachable(pool: nat, timeout: nat, start: Time, acts: seq<Act>)
    requires Acts(System(Init(pool, timeout, start), map[], None), acts)
    ensures Reachable(Finally(System(Init(pool, timeout, start), map[], None), acts).o)
  {
    var c := System(Init(pool, timeout, start), map[], None);
    InitConsistent(pool, timeout, start);
    var run := ActsAreARun(c, acts);
    assert Executes(Init(pool, timeout, start), run);
  }
}
