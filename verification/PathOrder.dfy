/** The automaton of a run keeps the order of its calls: on no path is one skipped or repeated. */
module PathOrder {
  import opened Jobs
  import opened Execution
  import opened Script
  import opened CallOrder
  import opened RunRefinement

  // No error yet, and the run not over.
  predicate OnTheWay(pc: Pc) {
    !pc.Failing? && !pc.Closing?
  }

  // How many calls besides hooks a run makes in all.
  function Milestones(op: Operation): nat {
    match op
    case Apply => 13
    case Unknown(_) => 8
    case _ => 14
  }

  // How many of them a run at pc has made.
  function Milestone(op: Operation, pc: Pc): (n: nat)
    requires OnTheWay(pc) && PcFits(op, pc)
    ensures n <= Milestones(op)
  {
    match pc
    case Preparing(n) => n
    case Fetched(n) => 8 + n
    case Ran(n) => if op.Apply? then 11 + n else 8 + n
    case Uploaded => 12
    case Recorded => 13
    case Stored => Milestones(op)
  }

  // The call that comes after n others.
  function CallAt(op: Operation, n: nat): Effect
    requires n < Milestones(op)
  {
    if n < 7 then Setup(SetupCall(n))
    else match op
      case Apply =>
        if n == 7 then Download else if n == 8 then CreatePlanFile else if n == 9 then CopyPlanFile
        else if n == 10 then Terraform else if n == 11 then ReadStatus else WriteStatus(Applied)
      case Unknown(_) => RejectOperation
      case _ =>
        if n == 7 then Terraform else if n == 8 then ReadStatus else if n == 9 then Show
        else if n == 10 then ReadPlanFile else if n == 11 then UploadPlan else if n == 12 then RecordPlan
        else WriteStatus(Planned)
  }

  // A call that returns is that of a hook, or the next one.
  lemma StepKeepsTheOrder(op: Operation, pc: Pc, e: Effect, ok: bool, took: bool)
    requires PcFits(op, pc) && Next(op, pc, e, ok, took).Some? && OnTheWay(Next(op, pc, e, ok, took).value)
    ensures var next := Next(op, pc, e, ok, took).value;
            && OnTheWay(pc) && PcFits(op, next)
            && if OfHook(e) then next == pc
               else
                 && Milestone(op, pc) < Milestones(op) && e == CallAt(op, Milestone(op, pc))
                 && Milestone(op, next) == Milestone(op, pc) + 1
  {
  }

  // An error is never forgotten.
  lemma {:induction false} StaysOnTheWay(op: Operation, pc: Pc, made: seq<Effect>, outcome: nat -> bool, at: nat,
                                         end: Pc)
    requires Reaches(op, pc, made, outcome, at, end) && OnTheWay(end)
    ensures OnTheWay(pc)
    decreases |made|
  {
    if made != [] {
      var ok := Returns(made[0], outcome, at);
      StaysOnTheWay(op, Next(op, pc, made[0], ok, ok).value, made[1..], outcome, at + 1, end);
    }
  }

  // The calls between two milestones.
  ghost predicate Between(op: Operation, calls: seq<Effect>, m: nat, n: nat) {
    && m <= n <= Milestones(op) && |calls| == n - m
    && forall i :: 0 <= i < |calls| ==> calls[i] == CallAt(op, m + i)
  }

  lemma OneCallFirst(op: Operation, e: Effect, rest: seq<Effect>, m: nat, k: nat, n: nat)
    requires Between(op, Skeleton(rest), k, n)
    requires if OfHook(e) then k == m else m < Milestones(op) && e == CallAt(op, m) && k == m + 1
    ensures Between(op, Skeleton([e] + rest), m, n)
  {
    assert ([e] + rest)[1..] == rest;
    assert Skeleton([e] + rest) == (if OfHook(e) then [] else [e]) + Skeleton(rest);
  }

  lemma {:induction false} PathFits(op: Operation, pc: Pc, made: seq<Effect>, outcome: nat -> bool, at: nat, end: Pc)
    requires PcFits(op, pc) && Reaches(op, pc, made, outcome, at, end)
    ensures PcFits(op, end)
    decreases |made|
  {
    if made != [] {
      var ok := Returns(made[0], outcome, at);
      PathFits(op, Next(op, pc, made[0], ok, ok).value, made[1..], outcome, at + 1, end);
    }
  }

  lemma {:induction false} PathSkeleton(op: Operation, pc: Pc, made: seq<Effect>, outcome: nat -> bool, at: nat,
                                        end: Pc)
    requires PcFits(op, pc) && PcFits(op, end) && OnTheWay(pc) && OnTheWay(end)
    requires Reaches(op, pc, made, outcome, at, end)
    ensures Between(op, Skeleton(made), Milestone(op, pc), Milestone(op, end))
    decreases |made|
  {
    if made != [] {
      var e, rest, ok := made[0], made[1..], Returns(made[0], outcome, at);
      var next := Next(op, pc, e, ok, ok).value;
      StaysOnTheWay(op, next, rest, outcome, at + 1, end);
      StepKeepsTheOrder(op, pc, e, ok, ok);
      PathSkeleton(op, next, rest, outcome, at + 1, end);
      OneCallFirst(op, e, rest, Milestone(op, pc), Milestone(op, next), Milestone(op, end));
      assert made == [e] + rest;
    }
  }

  // Whatever path a worker takes through the automaton, besides hooks it makes its operation's calls in their order and
  // skips none: before the download or terraform all seven setup calls, and by its status write all of them.
  lemma PathsKeepTheOrder(op: Operation, made: seq<Effect>, outcome: nat -> bool, end: Pc)
    requires Reaches(op, Preparing(0), made, outcome, 0, end) && OnTheWay(end)
    ensures var calls := [Setup(EnsureBucket), Setup(GetSecrets), Setup(MakeWorkDir), Setup(NewRunner),
                          Setup(BackendConfig), Setup(TerraformFiles), Setup(TerraformInit)]
              + match op
                case Apply => [Download, CreatePlanFile, CopyPlanFile, Terraform, ReadStatus, WriteStatus(Applied)]
                case Unknown(_) => [RejectOperation]
                case _ => [Terraform, ReadStatus, Show, ReadPlanFile, UploadPlan, RecordPlan, WriteStatus(Planned)];
            && Skeleton(made) <= calls && (end.Stored? <==> Skeleton(made) == calls)
            && (!end.Preparing? <==> |Skeleton(made)| > 7)
  {
    PathFits(op, Preparing(0), made, outcome, 0, end);
    PathSkeleton(op, Preparing(0), made, outcome, 0, end);
  }
}
