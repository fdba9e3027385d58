/** First in, first out, derived from the transactions: promotions of a project that do not overlap take its queue in
    order. What breaks the order: two promotions that overlap, and a statement that locks a queued row and gives it
    back. */
module PromotionOrder {
  import opened Jobs
  import opened Queue
  import opened Transactions

  predicate Promotes(s: Db, x: nat, p: ProjectId) {
    x in s.txs && s.txs[x].kind == PromoteTx(p)
  }

  // Rows on their way out of the queue: locked by a sweep or by a status write.
  function Taken(s: Db): set<JobId> {
    SweepLocked(s) + set x | x in s.txs && s.txs[x].Holding? && s.txs[x].kind.WriteTx? :: s.txs[x].job
  }

  function Line(s: Db, p: ProjectId): set<JobId> {
    QueuedIn(s.table, p) - Taken(s)
  }

  // The queued rows of p that a failing sweep or write unlocks.
  function GivenBack(s: Db, step: DbStep, p: ProjectId): set<JobId> {
    match step
    case SweepAbort => SweepLocked(s) * QueuedIn(s.table, p)
    case Rollback(x) =>
      if x in s.txs && s.txs[x].Holding? && s.txs[x].kind.WriteTx? then {s.txs[x].job} * QueuedIn(s.table, p) else {}
    case _ => {}
  }

  // Creation times grow, nothing is put back into the queue, and no queued row of p is given back.
  predicate Calm(s: Db, step: DbStep, p: ProjectId) {
    && GivenBack(s, step, p) == {}
    && match step
       case Commit(x) => x in s.txs && s.txs[x].kind.WriteTx? ==> s.txs[x].kind.status != Queued
       case Insert(_, row) => row.project == p ==>
         forall j :: j in s.table && s.table[j].project == p ==> s.table[j].createdAt < row.createdAt
       case _ => true
  }

  predicate Alone(s: Db, step: DbStep, p: ProjectId) {
    step.Start? && step.kind == PromoteTx(p) ==> forall x :: x in s.txs ==> !Promotes(s, x, p)
  }

  // ---------- one promotion ----------

  // A promotion has taken the first of the line, or whatever in line it will not see comes after all it may yet take.
  predicate InPlace(t: Table, tx: Tx, line: set<JobId>)
    requires line <= t.Keys
  {
    match tx
    case Scanning(_, todo) =>
      todo <= t.Keys && forall q, k :: q in line && q !in todo && k in todo && k in line ==> Before(t, k, q)
    case Holding(_, j) => j in line && IsFirst(t, j, line)
    case Missed(_) => true
  }

  predicate InLine(s: Db, tx: Tx, p: ProjectId) {
    InPlace(s.table, tx, Line(s, p))
  }

  ghost predicate OnlyOne(s: Db, p: ProjectId) {
    forall x, y :: Promotes(s, x, p) && Promotes(s, y, p) ==> x == y
  }

  // The promotions of p: never two at once, each in line.
  ghost predicate OneInLine(s: Db, p: ProjectId) {
    && OnlyOne(s, p)
    && (forall x :: Promotes(s, x, p) ==> InLine(s, s.txs[x], p))
  }

  // Rows keep their identity, and the queue and the line only lose rows or gain later ones.
  ghost predicate LineMovesOn(s: Db, t: Db, p: ProjectId) {
    && s.table.Keys <= t.table.Keys
    && (forall j :: j in s.table ==> SameIdentity(s.table[j], t.table[j]))
    && (forall q :: q in QueuedIn(t.table, p) && q in s.table ==> q in QueuedIn(s.table, p))
    && (forall q :: q in Line(t, p) && q in s.table ==> q in Line(s, p))
    && (forall q, k :: q in QueuedIn(t.table, p) && q !in s.table && k in s.table && s.table[k].project == p ==>
          s.table[k].createdAt < t.table[q].createdAt)
  }

  lemma RewritingMovesLineOn(s: Db, j: JobId, job: Job, t: Db, p: ProjectId)
    requires j in s.table && SameIdentity(s.table[j], job) && job.status != Queued
    requires t.table == s.table[j := job] && Taken(s) - {j} <= Taken(t)
    ensures LineMovesOn(s, t, p)
  {
  }

  lemma CommitMovesLineOn(s: Db, x: nat, p: ProjectId)
    requires Possible(s, Commit(x)) && Sound(s) && Calm(s, Commit(x), p)
    ensures LineMovesOn(s, Step(s, Commit(x)), p)
  {
    var t, tx := Step(s, Commit(x)), s.txs[x];
    forall j | j in Taken(s) - {tx.job} ensures j in Taken(t) {
      if j !in SweepLocked(s) {
        var y :| y in s.txs && s.txs[y].Holding? && s.txs[y].kind.WriteTx? && s.txs[y].job == j;
        assert y in t.txs && t.txs[y] == s.txs[y];
      }
    }
    RewritingMovesLineOn(s, tx.job, Updated(tx.kind, s.table, tx.job)[tx.job], t, p);
  }

  lemma SweepMovesLineOn(s: Db, p: ProjectId)
    requires Sound(s) && Possible(s, SweepCommit)
    ensures LineMovesOn(s, Step(s, SweepCommit), p)
  {
    var t := Step(s, SweepCommit);
    assert Taken(s) == Taken(t) + SweepLocked(s);
  }

  // Steps that leave the table alone free no queued row but those given back.
  lemma UnlockingMovesLineOn(s: Db, step: DbStep, p: ProjectId)
    requires Possible(s, step) && GivenBack(s, step, p) == {} && Step(s, step).table == s.table
    requires !step.Commit? && !step.SweepCommit?
    ensures LineMovesOn(s, Step(s, step), p)
  {
    var t := Step(s, step);
    forall j | j in Taken(s) && j in QueuedIn(s.table, p) ensures j in Taken(t) {
      if j in SweepLocked(s) {
        assert step.SweepAbort? ==> j in GivenBack(s, step, p);
      } else {
        var y :| y in s.txs && s.txs[y].Holding? && s.txs[y].kind.WriteTx? && s.txs[y].job == j;
        assert step == Rollback(y) ==> j in GivenBack(s, step, p);
        assert y in t.txs && t.txs[y] == s.txs[y];
      }
    }
  }

  lemma InsertMovesLineOn(s: Db, j: JobId, row: Job, p: ProjectId)
    requires Possible(s, Insert(j, row)) && Calm(s, Insert(j, row), p)
    ensures LineMovesOn(s, Step(s, Insert(j, row)), p)
  {
    assert Taken(Step(s, Insert(j, row))) == Taken(s);
  }

  lemma StepMovesLineOn(s: Db, step: DbStep, p: ProjectId)
    requires Sound(s) && Possible(s, step) && Calm(s, step, p)
    ensures LineMovesOn(s, Step(s, step), p)
  {
    match step
    case Commit(x) => CommitMovesLineOn(s, x, p);
    case SweepCommit => SweepMovesLineOn(s, p);
    case Insert(j, row) => InsertMovesLineOn(s, j, row, p);
    case _ => UnlockingMovesLineOn(s, step, p);
  }

  lemma StaysInLine(s: Db, t: Db, tx: Tx, p: ProjectId)
    requires LineMovesOn(s, t, p) && InLine(s, tx, p)
    requires tx.Holding? ==> tx.job in Line(t, p)
    ensures InLine(t, tx, p)
  {
  }

  // Whoever holds a queued row of p is its one promotion, or holds a row taken out of line.
  lemma WhoHoldsQueued(s: Db, y: nat, p: ProjectId)
    requires Sound(s) && y in s.txs && s.txs[y].Holding? && s.txs[y].job in QueuedIn(s.table, p)
    ensures Promotes(s, y, p) || s.txs[y].job in Taken(s)
  {
    assert Matches(s.txs[y].kind, s.txs[y].job, s.table[s.txs[y].job]);
  }

  lemma FreeMeansInLine(s: Db, x: nat, j: JobId, p: ProjectId)
    requires Sound(s) && OnlyOne(s, p) && Promotes(s, x, p) && s.txs[x].Scanning?
    ensures j in Line(s, p) <==> j in QueuedIn(s.table, p) && j !in Locked(s)
  {
    if j in QueuedIn(s.table, p) && j in TxLocked(s) {
      var y :| y in s.txs && s.txs[y].Holding? && s.txs[y].job == j;
      WhoHoldsQueued(s, y, p);
      assert y != x;
    }
    if j in Taken(s) && j !in SweepLocked(s) {
      var y :| y in s.txs && s.txs[y].Holding? && s.txs[y].kind.WriteTx? && s.txs[y].job == j;
      assert s.txs[y].job in TxLocked(s);
    }
  }

  // A lone promotion passes only rows that are out of line, and locks the first that is in it.
  lemma LocksTheFirst(s: Db, x: nat, j: JobId, p: ProjectId)
    requires Sound(s) && OneInLine(s, p) && Promotes(s, x, p) && Possible(s, Lock(x, j))
    ensures j in Line(s, p) && IsFirst(s.table, j, Line(s, p))
  {
    FreeMeansInLine(s, x, j, p);
  }

  lemma PassesTheTaken(s: Db, x: nat, j: JobId, p: ProjectId)
    requires Sound(s) && OneInLine(s, p) && Promotes(s, x, p) && Possible(s, Skip(x, j))
    ensures j !in Line(s, p)
  {
    FreeMeansInLine(s, x, j, p);
  }

  // A held row stays in line until its transaction ends.
  lemma HeldStaysInLine(s: Db, step: DbStep, x: nat, p: ProjectId)
    requires Sound(s) && OneInLine(s, p) && Possible(s, step) && Calm(s, step, p)
    requires Promotes(s, x, p) && s.txs[x].Holding? && !Concerns(step, x)
    ensures s.txs[x].job in Line(Step(s, step), p)
  {
    var t, j := Step(s, step), s.txs[x].job;
    assert j in TxLocked(s) && j !in SweepLocked(s);
    if step.Commit? {
      assert s.txs[step.x].job != j;
    }
    forall y | y in t.txs && t.txs[y].Holding? && t.txs[y].kind.WriteTx? ensures t.txs[y].job != j {
      assert y != x;
      assert !Concerns(step, y) ==> y in s.txs && s.txs[y] == t.txs[y];
    }
  }

  lemma OthersStayInLine(s: Db, step: DbStep, x: nat, p: ProjectId)
    requires Sound(s) && OneInLine(s, p) && Possible(s, step) && Calm(s, step, p)
    requires Promotes(s, x, p) && !Concerns(step, x)
    ensures Promotes(Step(s, step), x, p) && InLine(Step(s, step), s.txs[x], p)
    ensures Step(s, step).txs[x] == s.txs[x]
  {
    StepMovesLineOn(s, step, p);
    if s.txs[x].Holding? {
      HeldStaysInLine(s, step, x, p);
    }
    StaysInLine(s, Step(s, step), s.txs[x], p);
  }

  // What a promotion's own steps lock is no row taken out of line.
  lemma OwnStepTakesNothing(s: Db, step: DbStep, x: nat, p: ProjectId)
    requires Possible(s, step) && Concerns(step, x) && Promotes(Step(s, step), x, p)
    ensures Taken(Step(s, step)) == Taken(s) && Step(s, step).table == s.table
    ensures Promotes(s, x, p) || step == Start(x, PromoteTx(p))
  {
    var t := Step(s, step);
    assert forall y :: y != x ==> (y in t.txs <==> y in s.txs) && (y in s.txs ==> t.txs[y] == s.txs[y]);
  }

  // A transaction's own step keeps it in line, or ends it.
  lemma OwnStepInLine(s: Db, step: DbStep, x: nat, p: ProjectId)
    requires Sound(s) && OneInLine(s, p) && Possible(s, step) && Concerns(step, x)
    requires Promotes(Step(s, step), x, p)
    ensures InLine(Step(s, step), Step(s, step).txs[x], p)
    ensures Promotes(s, x, p) || step == Start(x, PromoteTx(p))
  {
    OwnStepTakesNothing(s, step, x, p);
    match step
    case Start(_, _) =>
    case Lock(_, j) => LocksTheFirst(s, x, j, p);
    case Skip(_, j) => PassesTheTaken(s, x, j, p);
    case Miss(_) =>
  }

  // The promotion that overlaps no other stays in line, whatever runs beside it; so what it commits is the first row no
  // sweep or write has taken.
  lemma StepKeepsOneInLine(s: Db, step: DbStep, p: ProjectId)
    requires Sound(s) && OneInLine(s, p) && Possible(s, step) && Calm(s, step, p) && Alone(s, step, p)
    ensures OneInLine(Step(s, step), p)
    ensures step.Commit? && Promotes(s, step.x, p) ==> IsFirst(s.table, s.txs[step.x].job, Line(s, p))
  {
    var t := Step(s, step);
    forall x | Promotes(t, x, p)
      ensures InLine(t, t.txs[x], p) && (Promotes(s, x, p) || step == Start(x, PromoteTx(p)))
    {
      if Concerns(step, x) {
        OwnStepInLine(s, step, x, p);
      } else {
        assert Promotes(s, x, p);
        OthersStayInLine(s, step, x, p);
      }
    }
  }

  // ---------- whole runs ----------

  function Gain(s: Db, step: DbStep, p: ProjectId): seq<JobId>
    requires Possible(s, step)
  {
    if step.Commit? && Promotes(s, step.x, p) then [s.txs[step.x].job] else []
  }

  // The jobs promoted in p, in the order of the commits.
  function Promoted(s: Db, run: seq<DbStep>, p: ProjectId): seq<JobId>
    requires Runs(s, run)
    decreases |run|
  {
    if run == [] then [] else Gain(s, run[0], p) + Promoted(Step(s, run[0]), run[1..], p)
  }

  ghost predicate CalmRun(s: Db, run: seq<DbStep>, p: ProjectId)
    requires Runs(s, run)
    decreases |run|
  {
    run == [] || (Calm(s, run[0], p) && Alone(s, run[0], p) && CalmRun(Step(s, run[0]), run[1..], p))
  }

  predicate Increasing(t: Table, order: seq<JobId>) {
    && (forall i :: 0 <= i < |order| ==> order[i] in t)
    && forall i, k :: 0 <= i < k < |order| ==> Before(t, order[i], order[k])
  }

  // What was promoted so far is in order and ahead of everything still in line.
  ghost predicate Ahead(s: Db, order: seq<JobId>, p: ProjectId) {
    && Increasing(s.table, order)
    && (forall i :: 0 <= i < |order| ==> s.table[order[i]].project == p && s.table[order[i]].status != Queued)
    && forall i, q :: 0 <= i < |order| && q in Line(s, p) ==> Before(s.table, order[i], q)
  }

  lemma LineMovesOnAhead(s: Db, t: Db, order: seq<JobId>, p: ProjectId)
    requires LineMovesOn(s, t, p) && Ahead(s, order, p)
    ensures Ahead(t, order, p)
  {
  }

  lemma CommitEffect(s: Db, x: nat, p: ProjectId)
    requires Sound(s) && Promotes(s, x, p) && Possible(s, Commit(x))
    ensures var t, j := Step(s, Commit(x)), s.txs[x].job;
            && t.table == WithStatus(s.table, j, PendingPlan) && j in s.table && s.table[j].project == p
            && Line(t, p) == Line(s, p) - {j} && (OneInLine(s, p) ==> j in Line(s, p))
  {
    var t := Step(s, Commit(x));
    assert forall y :: y in t.txs ==> t.txs[y] == s.txs[y];
    forall k ensures k in Taken(t) <==> k in Taken(s) {
      if k in Taken(s) && k !in SweepLocked(s) {
        var y :| y in s.txs && s.txs[y].Holding? && s.txs[y].kind.WriteTx? && s.txs[y].job == k;
        assert y in t.txs && t.txs[y].job == k;
      }
    }
    assert OneInLine(s, p) ==> InLine(s, s.txs[x], p);
  }

  // Taking the first of the line puts it behind everything taken before and ahead of everything left.
  lemma FirstGetsAhead(s: Db, t: Db, j: JobId, order: seq<JobId>, p: ProjectId)
    requires Ahead(s, order, p) && j in s.table && s.table[j].project == p && j in Line(s, p)
    requires IsFirst(s.table, j, Line(s, p))
    requires t.table == WithStatus(s.table, j, PendingPlan) && Line(t, p) == Line(s, p) - {j}
    ensures Ahead(t, order + [j], p)
  {
    assert forall a, b :: a in s.table && b in s.table ==> Before(s.table, a, b) == Before(t.table, a, b);
  }

  lemma CommitGetsAhead(s: Db, x: nat, order: seq<JobId>, p: ProjectId)
    requires Sound(s) && OneInLine(s, p) && Promotes(s, x, p) && Possible(s, Commit(x)) && Ahead(s, order, p)
    ensures Ahead(Step(s, Commit(x)), order + [s.txs[x].job], p)
  {
    assert InLine(s, s.txs[x], p);
    CommitEffect(s, x, p);
    FirstGetsAhead(s, Step(s, Commit(x)), s.txs[x].job, order, p);
  }

  lemma StepKeepsAhead(s: Db, step: DbStep, order: seq<JobId>, p: ProjectId)
    requires Sound(s) && OneInLine(s, p) && Ahead(s, order, p) && Possible(s, step) && Calm(s, step, p)
    ensures Ahead(Step(s, step), order + Gain(s, step, p), p)
  {
    if step.Commit? && Promotes(s, step.x, p) {
      CommitGetsAhead(s, step.x, order, p);
    } else {
      StepMovesLineOn(s, step, p);
      LineMovesOnAhead(s, Step(s, step), order, p);
      assert order + [] == order;
    }
  }

  lemma {:induction false} RunKeepsAhead(s: Db, run: seq<DbStep>, order: seq<JobId>, p: ProjectId)
    requires Sound(s) && OneInLine(s, p) && Ahead(s, order, p) && Runs(s, run) && CalmRun(s, run, p)
    ensures Ahead(End(s, run), order + Promoted(s, run, p), p)
    decreases |run|
  {
    if run == [] {
      assert order + [] == order;
    } else {
      var t, gain, rest := Step(s, run[0]), Gain(s, run[0], p), Promoted(Step(s, run[0]), run[1..], p);
      StepKeepsSound(s, run[0]);
      StepKeepsOneInLine(s, run[0], p);
      StepKeepsAhead(s, run[0], order, p);
      RunKeepsAhead(t, run[1..], order + gain, p);
      assert order + gain + rest == order + (gain + rest);
    }
  }

  // Over any run in which a project's promotions never overlap, its creation times grow and no sweep or write gives
  // back a queued row, the project's jobs are promoted in strictly increasing order of creation time and id, whatever
  // discards, timeouts and claims come between.
  lemma NonOverlappingPromotionsAreFifo(t: Table, run: seq<DbStep>, p: ProjectId)
    requires Runs(Db(t, map[], None), run) && CalmRun(Db(t, map[], None), run, p)
    ensures Increasing(End(Db(t, map[], None), run).table, Promoted(Db(t, map[], None), run, p))
  {
    var s := Db(t, map[], None);
    RunKeepsAhead(s, run, [], p);
    assert [] + Promoted(s, run, p) == Promoted(s, run, p);
  }

  // ---------- what breaks the order ----------

  lemma Onward(s: Db, step: DbStep, rest: seq<DbStep>, p: ProjectId)
    requires Possible(s, step) && Runs(Step(s, step), rest)
    ensures Runs(s, [step] + rest) && End(s, [step] + rest) == End(Step(s, step), rest)
    ensures Promoted(s, [step] + rest, p) == Gain(s, step, p) + Promoted(Step(s, step), rest, p)
    ensures Calm(s, step, p) && Alone(s, step, p) && CalmRun(Step(s, step), rest, p) ==> CalmRun(s, [step] + rest, p)
  {
    assert ([step] + rest)[1..] == rest;
  }

  lemma Regroup<T>(a: seq<T>, b: seq<T>, c: seq<T>)
    ensures a + (b + c) == a + b + c
  {
  }

  lemma {:induction false} RunsJoin(s: Db, a: seq<DbStep>, b: seq<DbStep>, p: ProjectId)
    requires Runs(s, a) && Runs(End(s, a), b)
    ensures Runs(s, a + b) && End(s, a + b) == End(End(s, a), b)
    ensures Promoted(s, a + b, p) == Promoted(s, a, p) + Promoted(End(s, a), b, p)
    decreases |a|
  {
    if a == [] {
      assert a + b == b;
    } else {
      var step, rest := a[0], a[1..];
      var t := Step(s, step);
      assert a + b == [step] + (rest + b);
      assert End(s, a) == End(t, rest) && Promoted(s, a, p) == Gain(s, step, p) + Promoted(t, rest, p);
      RunsJoin(t, rest, b, p);
      Onward(s, step, rest + b, p);
      Regroup(Gain(s, step, p), Promoted(t, rest, p), Promoted(End(t, rest), b, p));
    }
  }

  lemma TwoStarts(s: Db, p: ProjectId, x: nat, y: nat)
    requires s.txs == map[] && x != y
    ensures var run := [Start(x, PromoteTx(p)), Start(y, PromoteTx(p))];
            var scan := Scanning(PromoteTx(p), QueuedIn(s.table, p));
            Runs(s, run) && Promoted(s, run, p) == [] && End(s, run) == s.(txs := map[x := scan, y := scan])
  {
    var t := Step(s, Start(x, PromoteTx(p)));
    assert Matching(PromoteTx(p), s.table) == QueuedIn(s.table, p);
    Onward(t, Start(y, PromoteTx(p)), [], p);
    Onward(s, Start(x, PromoteTx(p)), [Start(y, PromoteTx(p))], p);
  }

  // Two open promotions of a project lock its first two jobs.
  lemma TwoLocks(s: Db, p: ProjectId, a: JobId, b: JobId, x: nat, y: nat)
    requires s.sweep.None? && x != y && a != b
    requires var scan := Scanning(PromoteTx(p), QueuedIn(s.table, p)); s.txs == map[x := scan, y := scan]
    requires a in QueuedIn(s.table, p) && b in QueuedIn(s.table, p)
    requires IsFirst(s.table, a, QueuedIn(s.table, p)) && IsFirst(s.table, b, QueuedIn(s.table, p) - {a})
    ensures var run := [Lock(x, a), Skip(y, a), Lock(y, b)];
            && Runs(s, run) && Promoted(s, run, p) == []
            && End(s, run) == s.(txs := map[x := Holding(PromoteTx(p), a), y := Holding(PromoteTx(p), b)])
  {
    var t := Step(s, Lock(x, a));
    assert TxLocked(t) == {a} by {
      assert t.txs[x].job == a;
    }
    var u := Step(t, Skip(y, a));
    Onward(u, Lock(y, b), [], p);
    Onward(t, Skip(y, a), [Lock(y, b)], p);
    Onward(s, Lock(x, a), [Skip(y, a), Lock(y, b)], p);
  }

  // Two promotions that overlap commit the first two jobs of any queue in the wrong order.
  lemma OverlapReverses(t: Table, p: ProjectId, a: JobId, b: JobId, x: nat, y: nat)
    requires x != y && a in QueuedIn(t, p) && b in QueuedIn(t, p) && a != b
    requires IsFirst(t, a, QueuedIn(t, p)) && IsFirst(t, b, QueuedIn(t, p) - {a})
    ensures var s := Db(t, map[], None);
            var starts, locks := [Start(x, PromoteTx(p)), Start(y, PromoteTx(p))], [Lock(x, a), Skip(y, a), Lock(y, b)];
            var run := starts + (locks + [Commit(y), Commit(x)]);
            Runs(s, run) && Promoted(s, run, p) == [b, a] && Before(t, a, b)
  {
    var s := Db(t, map[], None);
    var starts, locks := [Start(x, PromoteTx(p)), Start(y, PromoteTx(p))], [Lock(x, a), Skip(y, a), Lock(y, b)];
    TwoStarts(s, p, x, y);
    var u := End(s, starts);
    TwoLocks(u, p, a, b, x, y);
    var v := End(u, locks);
    Onward(Step(v, Commit(y)), Commit(x), [], p);
    Onward(v, Commit(y), [Commit(x)], p);
    RunsJoin(u, locks, [Commit(y), Commit(x)], p);
    RunsJoin(s, starts, locks + [Commit(y), Commit(x)], p);
  }

  // ---------- rows given back ----------

  predicate NoPromotion(s: Db, p: ProjectId) {
    forall x :: x in s.txs ==> !Promotes(s, x, p)
  }

  lemma LocksAndCommits(s: Db, x: nat, p: ProjectId, f: JobId)
    requires Possible(s, Lock(x, f)) && s.txs[x].kind == PromoteTx(p)
    ensures var run := [Lock(x, f), Commit(x)];
            && Runs(s, run) && CalmRun(s, run, p) && Promoted(s, run, p) == [f]
            && End(s, run) == s.(table := WithStatus(s.table, f, PendingPlan), txs := s.txs - {x})
  {
    var t := Step(s, Lock(x, f));
    Onward(t, Commit(x), [], p);
    Onward(s, Lock(x, f), [Commit(x)], p);
    assert t.txs - {x} == s.txs - {x};
  }

  lemma OnlyOneStays(s: Db, t: Db, p: ProjectId)
    requires OnlyOne(s, p) && forall y :: y in t.txs ==> y in s.txs && t.txs[y].kind == s.txs[y].kind
    ensures OnlyOne(t, p)
  {
    assert forall y :: Promotes(t, y, p) ==> Promotes(s, y, p);
  }

  lemma OnlyOneEnds(s: Db, t: Db, x: nat, p: ProjectId)
    requires OnlyOne(s, p) && Promotes(s, x, p) && t.txs == s.txs - {x}
    ensures NoPromotion(t, p)
  {
    assert forall y :: Promotes(t, y, p) ==> Promotes(s, y, p) && y != x;
  }

  // The next row to come to, when it is out of line.
  lemma PassesOne(s: Db, x: nat, p: ProjectId, g: JobId, todo: set<JobId>)
    requires Sound(s) && OnlyOne(s, p) && x in s.txs && s.txs[x] == Scanning(PromoteTx(p), todo)
    requires todo <= s.table.Keys && g in todo && IsFirst(s.table, g, todo) && g !in Line(s, p)
    ensures Possible(s, Skip(x, g)) && Calm(s, Skip(x, g), p) && Alone(s, Skip(x, g), p)
    ensures var t := Step(s, Skip(x, g));
            && t == s.(txs := s.txs[x := Scanning(PromoteTx(p), todo - {g})]) && t.txs - {x} == s.txs - {x}
            && Sound(t) && OnlyOne(t, p) && Line(t, p) == Line(s, p)
  {
    FreeMeansInLine(s, x, g, p);
    StepKeepsSound(s, Skip(x, g));
    OnlyOneStays(s, Step(s, Skip(x, g)), p);
    OwnStepTakesNothing(s, Skip(x, g), x, p);
  }

  lemma PassedIsOutOfLine(t: Table, line: set<JobId>, todo: set<JobId>, f: JobId, g: JobId)
    requires line <= t.Keys && todo <= t.Keys && f in t && g in t && f != g
    requires IsFirst(t, g, todo) && f in todo && IsFirst(t, f, line * todo)
    ensures g !in line
  {
    assert g in line ==> g in line * todo;
  }

  // A lone promotion goes on, past rows that are out of line, and commits the first in line of those it has not passed.
  lemma {:induction false} ScansToTheFirst(s: Db, x: nat, p: ProjectId, f: JobId, todo: set<JobId>)
    returns (run: seq<DbStep>)
    requires Sound(s) && OnlyOne(s, p) && x in s.txs && s.txs[x] == Scanning(PromoteTx(p), todo)
    requires todo <= s.table.Keys && f in todo && f in Line(s, p) && IsFirst(s.table, f, Line(s, p) * todo)
    ensures Runs(s, run) && CalmRun(s, run, p) && Promoted(s, run, p) == [f]
    ensures End(s, run) == s.(table := WithStatus(s.table, f, PendingPlan), txs := s.txs - {x})
    decreases |todo|
  {
    var g := FirstExists(s.table, todo);
    if g == f {
      FreeMeansInLine(s, x, f, p);
      LocksAndCommits(s, x, p, f);
      run := [Lock(x, f), Commit(x)];
    } else {
      PassedIsOutOfLine(s.table, Line(s, p), todo, f, g);
      PassesOne(s, x, p, g, todo);
      var rest := ScansToTheFirst(Step(s, Skip(x, g)), x, p, f, todo - {g});
      Onward(s, Skip(x, g), rest, p);
      run := [Skip(x, g)] + rest;
    }
  }

  // With no other promotion open, the first of the line can be promoted.
  lemma PromotesTheFirst(s: Db, x: nat, p: ProjectId, f: JobId) returns (run: seq<DbStep>)
    requires Sound(s) && NoPromotion(s, p) && x !in s.txs
    requires f in Line(s, p) && IsFirst(s.table, f, Line(s, p))
    ensures Runs(s, run) && CalmRun(s, run, p) && Promoted(s, run, p) == [f]
    ensures End(s, run) == s.(table := WithStatus(s.table, f, PendingPlan))
  {
    var start := Start(x, PromoteTx(p));
    var t := Step(s, start);
    assert Matching(PromoteTx(p), s.table) == QueuedIn(s.table, p);
    StepKeepsSound(s, start);
    StepKeepsOneInLine(s, start, p);
    OwnStepTakesNothing(s, start, x, p);
    assert Line(t, p) * QueuedIn(s.table, p) == Line(s, p);
    run := ScansToTheFirst(t, x, p, f, QueuedIn(s.table, p));
    Onward(s, start, run, p);
    assert t.txs - {x} == s.txs;
    run := [start] + run;
  }

  lemma {:induction false} FreshNumber(ids: set<nat>) returns (n: nat)
    ensures forall i :: i in ids ==> i < n
    decreases |ids|
  {
    if ids == {} {
      n := 0;
    } else {
      var i :| i in ids;
      var m := FreshNumber(ids - {i});
      assert forall k :: k in ids ==> k == i || k in ids - {i};
      n := if m <= i then i + 1 else m;
    }
  }

  predicate GivesBack(step: DbStep) {
    step.SweepAbort? || step.Rollback?
  }

  // A failing sweep or write returns to the line exactly the rows it gives back.
  lemma GivingBackEffect(s: Db, step: DbStep, p: ProjectId)
    requires Sound(s) && Possible(s, step) && GivesBack(step)
    ensures var t := Step(s, step);
            && t.table == s.table && Sound(t) && Line(t, p) == Line(s, p) + GivenBack(s, step, p)
            && t.txs == (if step.Rollback? then s.txs - {step.x} else s.txs)
  {
    var t := Step(s, step);
    StepKeepsSound(s, step);
    forall j | j in QueuedIn(s.table, p)
      ensures j in Taken(t) <==> j in Taken(s) && j !in GivenBack(s, step, p)
    {
      if y :| y in s.txs && s.txs[y].Holding? && s.txs[y].kind.WriteTx? && s.txs[y].job == j {
        assert y in t.txs ==> t.txs[y] == s.txs[y];
        assert j in TxLocked(s);
      }
    }
  }

  lemma {:induction false} CalmJoin(s: Db, a: seq<DbStep>, b: seq<DbStep>, p: ProjectId)
    requires Runs(s, a) && CalmRun(s, a, p) && Runs(End(s, a), b) && CalmRun(End(s, a), b, p)
    ensures Runs(s, a + b) && CalmRun(s, a + b, p)
    decreases |a|
  {
    if a == [] {
      assert a + b == b;
    } else {
      var t := Step(s, a[0]);
      CalmJoin(t, a[1..], b, p);
      Onward(s, a[0], a[1..] + b, p);
      assert a + b == [a[0]] + (a[1..] + b);
    }
  }

  // A calm run that leaves the promotions, those of order included, out of order.
  ghost predicate GoesWrong(t: Db, run: seq<DbStep>, order: seq<JobId>, p: ProjectId) {
    Runs(t, run) && CalmRun(t, run, p) && !Increasing(End(t, run).table, order + Promoted(t, run, p))
  }

  lemma GoesWrongLater(s: Db, a: seq<DbStep>, b: seq<DbStep>, order: seq<JobId>, p: ProjectId)
    requires Runs(s, a) && CalmRun(s, a, p) && GoesWrong(End(s, a), b, order + Promoted(s, a, p), p)
    ensures GoesWrong(s, a + b, order, p)
  {
    RunsJoin(s, a, b, p);
    CalmJoin(s, a, b, p);
    Regroup(order, Promoted(s, a, p), Promoted(End(s, a), b, p));
  }

  // However it goes on calmly, the promotions, those of order included, are in order.
  ghost predicate StaysInOrder(t: Db, order: seq<JobId>, p: ProjectId) {
    forall run :: Runs(t, run) && CalmRun(t, run, p) ==> Increasing(End(t, run).table, order + Promoted(t, run, p))
  }

  // A row in line that comes before a promoted one is promoted after it by some calm continuation.
  lemma LateRowIsPromoted(t: Db, order: seq<JobId>, i: nat, q: JobId, p: ProjectId) returns (run: seq<DbStep>)
    requires Sound(t) && NoPromotion(t, p) && i < |order| && order[i] in t.table && t.table[order[i]].status != Queued
    requires q in Line(t, p) && !Before(t.table, order[i], q)
    ensures GoesWrong(t, run, order, p)
  {
    var f := FirstExists(t.table, Line(t, p));
    var x := FreshNumber(t.txs.Keys);
    run := PromotesTheFirst(t, x, p, f);
    var all := order + [f];
    assert all[i] == order[i] && all[|order|] == f;
    assert !Before(t.table, order[i], f);
    assert Before(End(t, run).table, order[i], f) == Before(t.table, order[i], f);
  }

  // So it is if a promotion is open, which may be rolled back.
  lemma LateRowIsPromotedYet(t: Db, order: seq<JobId>, i: nat, q: JobId, p: ProjectId) returns (run: seq<DbStep>)
    requires Sound(t) && OnlyOne(t, p) && i < |order| && order[i] in t.table && t.table[order[i]].status != Queued
    requires q in Line(t, p) && !Before(t.table, order[i], q)
    ensures GoesWrong(t, run, order, p)
  {
    if x :| Promotes(t, x, p) {
      GivingBackEffect(t, Rollback(x), p);
      OnlyOneEnds(t, Step(t, Rollback(x)), x, p);
      var rest := LateRowIsPromoted(Step(t, Rollback(x)), order, i, q, p);
      Onward(t, Rollback(x), [], p);
      assert order + [] == order;
      GoesWrongLater(t, [Rollback(x)], rest, order, p);
      run := [Rollback(x)] + rest;
    } else {
      run := LateRowIsPromoted(t, order, i, q, p);
    }
  }

  // A promotion that holds a row commits it, and only then is an earlier row promoted.
  lemma HeldRowComesFirst(t: Db, x: nat, order: seq<JobId>, q: JobId, p: ProjectId) returns (run: seq<DbStep>)
    requires Sound(t) && OnlyOne(t, p) && Promotes(t, x, p) && t.txs[x].Holding? && t.txs[x].job in t.table
    requires q in Line(t, p) && q != t.txs[x].job && !Before(t.table, t.txs[x].job, q)
    ensures GoesWrong(t, run, order, p)
  {
    var j, u := t.txs[x].job, Step(t, Commit(x));
    CommitEffect(t, x, p);
    StepKeepsSound(t, Commit(x));
    OnlyOneEnds(t, u, x, p);
    var rest := LateRowIsPromoted(u, order + [j], |order|, q, p);
    Onward(t, Commit(x), [], p);
    assert [j] + [] == [j];
    GoesWrongLater(t, [Commit(x)], rest, order, p);
    run := [Commit(x)] + rest;
  }

  lemma CancelsOne(t: Db, r: JobId, p: ProjectId) returns (run: seq<DbStep>)
    requires r in t.table && r !in Locked(t)
    ensures Runs(t, run) && CalmRun(t, run, p) && Promoted(t, run, p) == []
    ensures End(t, run) == t.(table := WithStatus(t.table, r, Cancelled))
  {
    var y := FreshNumber(t.txs.Keys);
    var write := WriteTx(r, Cancelled);
    var t1 := Step(t, Start(y, write));
    assert Matching(write, t.table) == {r};
    assert TxLocked(t1) == TxLocked(t) by {
      assert forall x :: x in t.txs ==> t1.txs[x] == t.txs[x];
    }
    var t2 := Step(t1, Lock(y, r));
    assert t2.txs - {y} == t.txs;
    Onward(t2, Commit(y), [], p);
    Onward(t1, Lock(y, r), [Commit(y)], p);
    Onward(t, Start(y, write), [Lock(y, r), Commit(y)], p);
    run := [Start(y, write)] + [Lock(y, r), Commit(y)];
  }

  lemma CancellingLeavesLine(t: Db, r: JobId, p: ProjectId)
    requires Sound(t) && r in Line(t, p) && r !in Locked(t)
    ensures var u := t.(table := WithStatus(t.table, r, Cancelled));
            Sound(u) && Line(u, p) == Line(t, p) - {r} && Locked(u) == Locked(t)
  {
    var u := t.(table := WithStatus(t.table, r, Cancelled));
    assert Taken(u) == Taken(t) && Locked(u) == Locked(t);
    assert forall y :: y in t.txs && t.txs[y].Holding? ==> t.txs[y].job in TxLocked(t);
  }

  // The rows have left the line, and nothing else has moved.
  ghost predicate Cleared(t: Db, u: Db, rows: set<JobId>, p: ProjectId) {
    && Sound(u) && u.txs == t.txs && u.table.Keys == t.table.Keys && Line(u, p) == Line(t, p) - rows
    && Locked(u) == Locked(t) && forall j :: j in t.table ==> SameIdentity(t.table[j], u.table[j])
  }

  ghost predicate Clears(t: Db, run: seq<DbStep>, rows: set<JobId>, p: ProjectId) {
    Runs(t, run) && CalmRun(t, run, p) && Promoted(t, run, p) == [] && Cleared(t, End(t, run), rows, p)
  }

  lemma ClearedBoth(t: Db, u: Db, v: Db, a: set<JobId>, b: set<JobId>, p: ProjectId)
    requires Cleared(t, u, a, p) && Cleared(u, v, b, p)
    ensures Cleared(t, v, a + b, p)
  {
  }

  lemma ClearsBoth(t: Db, first: seq<DbStep>, rest: seq<DbStep>, a: set<JobId>, b: set<JobId>, p: ProjectId)
    requires Clears(t, first, a, p) && Clears(End(t, first), rest, b, p)
    ensures Clears(t, first + rest, a + b, p)
  {
    RunsJoin(t, first, rest, p);
    CalmJoin(t, first, rest, p);
    ClearedBoth(t, End(t, first), End(t, first + rest), a, b, p);
  }

  lemma CancellingClears(t: Db, r: JobId, p: ProjectId) returns (run: seq<DbStep>)
    requires Sound(t) && r in Line(t, p) && r !in Locked(t)
    ensures Clears(t, run, {r}, p)
  {
    run := CancelsOne(t, r, p);
    CancellingLeavesLine(t, r, p);
  }

  lemma NothingClears(t: Db, p: ProjectId)
    requires Sound(t)
    ensures Clears(t, [], {}, p)
  {
  }

  lemma RestIsFree(t: Db, u: Db, rows: set<JobId>, r: JobId, p: ProjectId)
    requires rows <= Line(t, p) && rows !! Locked(t) && r in rows && Cleared(t, u, {r}, p)
    ensures Sound(u) && rows - {r} <= Line(u, p) && (rows - {r}) !! Locked(u)
    ensures {r} + (rows - {r}) == rows && |rows - {r}| < |rows|
  {
    assert rows == {r} + (rows - {r});
  }

  // Rows nobody holds can leave the line by being cancelled.
  lemma {:induction false} CancelsAll(t: Db, rows: set<JobId>, p: ProjectId) returns (run: seq<DbStep>)
    requires Sound(t) && rows <= Line(t, p) && rows !! Locked(t)
    ensures Clears(t, run, rows, p)
    decreases |rows|
  {
    if rows == {} {
      NothingClears(t, p);
      run := [];
    } else {
      var r :| r in rows;
      var first := CancellingClears(t, r, p);
      var u, left := End(t, first), rows - {r};
      RestIsFree(t, u, rows, r, p);
      var rest := CancelsAll(u, left, p);
      ClearsBoth(t, first, rest, {r}, left, p);
      run := first + rest;
    }
  }

  lemma PromotionLeavesLine(s: Db, x: nat, f: JobId, p: ProjectId)
    requires OnlyOne(s, p) && Promotes(s, x, p) && f in Line(s, p)
    ensures var v := s.(table := WithStatus(s.table, f, PendingPlan), txs := s.txs - {x});
            NoPromotion(v, p) && Line(v, p) == Line(s, p) - {f}
  {
    var v := s.(table := WithStatus(s.table, f, PendingPlan), txs := s.txs - {x});
    OnlyOneEnds(s, v, x, p);
    assert forall y :: y in s.txs && y != x ==> y in v.txs && v.txs[y] == s.txs[y];
    assert Taken(v) == Taken(s);
  }

  // With nothing else in line, a scan that has passed row q commits a later one, and q is promoted only then.
  lemma ScanOvertakes(u: Db, x: nat, k: JobId, order: seq<JobId>, q: JobId, p: ProjectId) returns (run: seq<DbStep>)
    requires Sound(u) && OnlyOne(u, p) && Promotes(u, x, p) && u.txs[x].Scanning? && u.txs[x].todo <= u.table.Keys
    requires k in u.txs[x].todo && q !in u.txs[x].todo && Line(u, p) == {k, q} && !Before(u.table, k, q)
    ensures GoesWrong(u, run, order, p)
  {
    var scan := ScansToTheFirst(u, x, p, k, u.txs[x].todo);
    var v := End(u, scan);
    PromotionLeavesLine(u, x, k, p);
    TransactionsRefineAtomicSteps(u, scan);
    assert Before(v.table, k, q) == Before(u.table, k, q);
    var late := LateRowIsPromoted(v, order + [k], |order|, q, p);
    GoesWrongLater(u, scan, late, order, p);
    run := scan + late;
  }

  // A scan that has passed row q can still commit a later one, once what else is in line has been cancelled.
  lemma PassedRowComesLate(t: Db, x: nat, k: JobId, order: seq<JobId>, q: JobId, p: ProjectId)
    returns (run: seq<DbStep>)
    requires Sound(t) && OnlyOne(t, p) && Promotes(t, x, p) && t.txs[x].Scanning? && t.txs[x].todo <= t.table.Keys
    requires k in t.txs[x].todo && k in Line(t, p) && q in Line(t, p) && q !in t.txs[x].todo
    requires !Before(t.table, k, q)
    ensures GoesWrong(t, run, order, p)
  {
    var others := Line(t, p) - {k, q};
    forall j | j in others ensures j !in Locked(t) {
      FreeMeansInLine(t, x, j, p);
    }
    var cancels := CancelsAll(t, others, p);
    var u := End(t, cancels);
    OnlyOneStays(t, u, p);
    assert Line(u, p) == {k, q};
    var scan := ScanOvertakes(u, x, k, order, q, p);
    assert order + [] == order;
    GoesWrongLater(t, cancels, scan, order, p);
    run := cancels + scan;
  }

  // A promotion that has lost its place can commit a row ahead of an earlier one.
  lemma OutOfPlaceOvertakes(t: Db, x: nat, line: set<JobId>, order: seq<JobId>, p: ProjectId) returns (run: seq<DbStep>)
    requires Sound(t) && OnlyOne(t, p) && Promotes(t, x, p) && line <= Line(t, p)
    requires InPlace(t.table, t.txs[x], line) && !InPlace(t.table, t.txs[x], Line(t, p))
    ensures GoesWrong(t, run, order, p)
  {
    match t.txs[x]
    case Scanning(_, todo) =>
      var q, k :| q in Line(t, p) && q !in todo && k in todo && k in Line(t, p) && !Before(t.table, k, q);
      run := PassedRowComesLate(t, x, k, order, q, p);
    case Holding(_, j) =>
      var q :| q in Line(t, p) && q != j && !Before(t.table, j, q);
      run := HeldRowComesFirst(t, x, order, q, p);
  }

  lemma GoingWrong(t: Db, run: seq<DbStep>, order: seq<JobId>, p: ProjectId)
    requires GoesWrong(t, run, order, p)
    ensures !StaysInOrder(t, order, p)
  {
  }

  lemma StayingInOrder(t: Db, order: seq<JobId>, p: ProjectId)
    requires Sound(t) && OneInLine(t, p) && Ahead(t, order, p)
    ensures StaysInOrder(t, order, p)
  {
    forall run | Runs(t, run) && CalmRun(t, run, p)
      ensures Increasing(End(t, run).table, order + Promoted(t, run, p))
    {
      RunKeepsAhead(t, run, order, p);
    }
  }

  // What a failing sweep or write does to first-in, first-out: every calm continuation promotes in order iff no row
  // given back comes before one already promoted, and an open promotion keeps its place in the line so lengthened.
  lemma GivingBackKeepsOrderIff(s: Db, step: DbStep, order: seq<JobId>, p: ProjectId)
    requires Sound(s) && OneInLine(s, p) && Ahead(s, order, p) && Possible(s, step) && GivesBack(step)
    ensures var t, back := Step(s, step), GivenBack(s, step, p);
            StaysInOrder(t, order, p)
            <==> (forall i, q :: 0 <= i < |order| && q in back ==> Before(s.table, order[i], q))
                 && (forall x :: Promotes(s, x, p) ==> InPlace(s.table, s.txs[x], Line(s, p) + back))
  {
    var t, back := Step(s, step), GivenBack(s, step, p);
    GivingBackEffect(s, step, p);
    assert forall x :: Promotes(t, x, p) ==> Promotes(s, x, p) && t.txs[x] == s.txs[x];
    if i, q :| 0 <= i < |order| && q in back && !Before(s.table, order[i], q) {
      var run := LateRowIsPromotedYet(t, order, i, q, p);
      GoingWrong(t, run, order, p);
    } else if x :| Promotes(s, x, p) && !InPlace(s.table, s.txs[x], Line(s, p) + back) {
      assert InLine(s, s.txs[x], p);
      assert back == {} ==> Line(s, p) + back == Line(s, p);
      var run := OutOfPlaceOvertakes(t, x, Line(s, p), order, p);
      GoingWrong(t, run, order, p);
    } else {
      StayingInOrder(t, order, p);
    }
  }

  // Around a statement that holds the first queued row and fails, the second is promoted before the first.
  lemma ReversedAround(s: Db, step: DbStep, p: ProjectId, a: JobId, b: JobId, x: nat) returns (run: seq<DbStep>)
    requires Sound(s) && NoPromotion(s, p) && x !in s.txs && Possible(s, step) && GivesBack(step) && step != Rollback(x)
    requires a in QueuedIn(s.table, p) && b in QueuedIn(s.table, p) && a != b
    requires GivenBack(s, step, p) == {a} && Line(s, p) == QueuedIn(s.table, p) - {a}
    requires IsFirst(s.table, a, QueuedIn(s.table, p)) && IsFirst(s.table, b, QueuedIn(s.table, p) - {a})
    ensures Runs(s, run) && Promoted(s, run, p) == [b, a]
  {
    var first := PromotesTheFirst(s, x, p, b);
    var u := End(s, first);
    assert QueuedIn(u.table, p) == QueuedIn(s.table, p) - {b};
    var second := GivesBackAndPromotes(u, step, p, a, x);
    RunsJoin(s, first, second, p);
    run := first + second;
  }

  lemma GivesBackAndPromotes(u: Db, step: DbStep, p: ProjectId, a: JobId, x: nat) returns (run: seq<DbStep>)
    requires Sound(u) && NoPromotion(u, p) && x !in u.txs && Possible(u, step) && GivesBack(step)
    requires a in GivenBack(u, step, p) && IsFirst(u.table, a, QueuedIn(u.table, p))
    ensures Runs(u, run) && Promoted(u, run, p) == [a]
  {
    GivingBackEffect(u, step, p);
    var rest := PromotesTheFirst(Step(u, step), x, p, a);
    Onward(u, step, rest, p);
    run := [step] + rest;
  }

  // So a sweep that has locked an overdue row and is then rolled back breaks the order, without any two promotions
  // overlapping.
  lemma AbortedSweepReverses(t: Table, p: ProjectId, a: JobId, b: JobId, now: Time, timeout: int)
    returns (run: seq<DbStep>)
    requires a in QueuedIn(t, p) && b in QueuedIn(t, p) && a != b && TimedOut(t[a], now, timeout)
    requires IsFirst(t, a, QueuedIn(t, p)) && IsFirst(t, b, QueuedIn(t, p) - {a})
    ensures var s, sweep := Db(t, map[], None), [SweepStart(now, timeout), SweepRow(a)];
            Runs(s, sweep + run) && Promoted(s, sweep + run, p) == [b, a] && Before(t, a, b)
  {
    var s := Db(t, map[], None);
    var s1 := Step(s, SweepStart(now, timeout));
    var s2 := Step(s1, SweepRow(a));
    Onward(s1, SweepRow(a), [], p);
    Onward(s, SweepStart(now, timeout), [SweepRow(a)], p);
    run := ReversedAround(s2, SweepAbort, p, a, b, 0);
    RunsJoin(s, [SweepStart(now, timeout), SweepRow(a)], run, p);
  }

  // So does a discard that has locked the first row and then fails.
  lemma FailedWriteReverses(t: Table, p: ProjectId, a: JobId, b: JobId) returns (run: seq<DbStep>)
    requires a in QueuedIn(t, p) && b in QueuedIn(t, p) && a != b
    requires IsFirst(t, a, QueuedIn(t, p)) && IsFirst(t, b, QueuedIn(t, p) - {a})
    ensures var s, write := Db(t, map[], None), [Start(0, WriteTx(a, Cancelled)), Lock(0, a)];
            Runs(s, write + run) && Promoted(s, write + run, p) == [b, a] && Before(t, a, b)
  {
    var s := Db(t, map[], None);
    var s1 := Step(s, Start(0, WriteTx(a, Cancelled)));
    var s2 := Step(s1, Lock(0, a));
    Onward(s1, Lock(0, a), [], p);
    Onward(s, Start(0, WriteTx(a, Cancelled)), [Lock(0, a)], p);
    assert Taken(s2) == {a} by {
      assert s2.txs[0].job == a;
    }
    run := ReversedAround(s2, Rollback(0), p, a, b, 1);
    RunsJoin(s, [Start(0, WriteTx(a, Cancelled)), Lock(0, a)], run, p);
  }
}
