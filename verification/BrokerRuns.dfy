/** The log broker under interleaving: Publish is split into its sends, all under the read lock; Subscribe and
    Unsubscribe take the write lock, so no Publish is in progress when they run. */
module BrokerRuns {
  import opened Broker
  import opened Jobs

  // One line offered to a channel, and how many lines were waiting there.
  datatype Offer = Offer(publisher: nat, line: string, waiting: nat)

  // A channel with its history: what its reader took, what was offered to it, and the part of the log published
  // while it was subscribed: from since up to until, or up to now while it is open.
  datatype Channel = Channel(job: JobId, buffer: seq<string>, closed: bool, taken: seq<string>, offers: seq<Offer>,
                             since: nat, until: nat)

  datatype Publisher = Idle | Sending(job: JobId, line: string, targets: seq<nat>, next: nat)

  datatype Publication = Publication(publisher: nat, job: JobId, line: string)

  datatype State = State(
    registry: Registry<nat>,
    channels: map<nat, Channel>,
    publishers: seq<Publisher>,
    log: seq<Publication>,
    panics: nat)

  datatype Step =
    | Subscribe(job: JobId, channel: nat)
    | Unsubscribe(job: JobId, channel: nat)
    | Start(publisher: nat, job: JobId, line: string)
    | Send(publisher: nat)
    | Finish(publisher: nat)
    | Take(channel: nat)

  function Initial(publishers: nat): State {
    State(map[], map[], seq(publishers, _ => Idle), [], 0)
  }

  // The write lock is free to take.
  predicate NobodySends(s: State) {
    forall p :: 0 <= p < |s.publishers| ==> s.publishers[p].Idle?
  }

  // Publisher p is walking its targets and has not reached the end.
  predicate MidWalk(s: State, p: nat) {
    && p < |s.publishers| && s.publishers[p].Sending? && s.publishers[p].next < |s.publishers[p].targets|
    && s.publishers[p].targets[s.publishers[p].next] in s.channels
  }

  predicate WalkDone(s: State, p: nat) {
    p < |s.publishers| && s.publishers[p].Sending? && s.publishers[p].next == |s.publishers[p].targets|
  }

  predicate Enabled(s: State, step: Step) {
    match step
    case Subscribe(_, channel) => NobodySends(s) && channel !in s.channels
    case Unsubscribe(_, channel) => NobodySends(s) && channel in s.channels
    case Start(p, _, _) => p < |s.publishers| && s.publishers[p].Idle?
    case Send(p) => MidWalk(s, p)
    case Finish(p) => WalkDone(s, p)
    case Take(channel) => channel in s.channels && s.channels[channel].buffer != []
  }

  function Open(job: JobId, now: nat): Channel {
    Channel(job, [], false, [], [], now, now)
  }

  function OfferTo(c: Channel, p: nat, line: string): Channel {
    c.(buffer := Offered(c.buffer, line), offers := c.offers + [Offer(p, line, |c.buffer|)])
  }

  function CloseAt(c: Channel, now: nat): Channel {
    c.(closed := true, until := now)
  }

  function TakeOne(c: Channel): Channel
    requires c.buffer != []
  {
    c.(buffer := c.buffer[1..], taken := c.taken + [c.buffer[0]])
  }

  function Panic(closed: bool): nat {
    if closed then 1 else 0
  }

  function Perform(s: State, step: Step): State
    requires Enabled(s, step)
  {
    match step
    case Subscribe(job, channel) =>
      s.(registry := Joined(s.registry, job, channel), channels := s.channels[channel := Open(job, |s.log|)])
    case Unsubscribe(job, channel) =>
      if channel in SubscribersOf(s.registry, job) then
        s.(registry := Left(s.registry, job, channel),
           channels := s.channels[channel := CloseAt(s.channels[channel], |s.log|)],
           panics := s.panics + Panic(s.channels[channel].closed))
      else s.(registry := Left(s.registry, job, channel))
    case Start(p, job, line) =>
      s.(publishers := s.publishers[p := Sending(job, line, SubscribersOf(s.registry, job), 0)],
         log := s.log + [Publication(p, job, line)])
    case Send(p) =>
      var at := s.publishers[p];
      var channel := at.targets[at.next];
      s.(publishers := s.publishers[p := at.(next := at.next + 1)],
         channels := s.channels[channel := OfferTo(s.channels[channel], p, at.line)],
         panics := s.panics + Panic(s.channels[channel].closed))
    case Finish(p) => s.(publishers := s.publishers[p := Idle])
    case Take(channel) => s.(channels := s.channels[channel := TakeOne(s.channels[channel])])
  }

  predicate Executes(s: State, steps: seq<Step>)
    decreases |steps|
  {
    steps == [] || (Enabled(s, steps[0]) && Executes(Perform(s, steps[0]), steps[1..]))
  }

  function After(s: State, steps: seq<Step>): State
    requires Executes(s, steps)
    decreases |steps|
  {
    if steps == [] then s else After(Perform(s, steps[0]), steps[1..])
  }

  // ---------- histories ----------

  function Lines(offers: seq<Offer>): seq<string> {
    if offers == [] then [] else Lines(offers[..|offers| - 1]) + [offers[|offers| - 1].line]
  }

  // The lines that found room.
  function Kept(offers: seq<Offer>): seq<string> {
    if offers == [] then []
    else
      var last := offers[|offers| - 1];
      Kept(offers[..|offers| - 1]) + if last.waiting < 100 then [last.line] else []
  }

  function OffersBy(p: nat, offers: seq<Offer>): seq<string> {
    if offers == [] then []
    else
      var last := offers[|offers| - 1];
      OffersBy(p, offers[..|offers| - 1]) + if last.publisher == p then [last.line] else []
  }

  function PublishedBy(p: nat, job: JobId, log: seq<Publication>): seq<string> {
    if log == [] then []
    else
      var last := log[|log| - 1];
      PublishedBy(p, job, log[..|log| - 1]) + if last.publisher == p && last.job == job then [last.line] else []
  }

  // The line publisher p is still to offer to the channel.
  function Owed(at: Publisher, channel: nat): seq<string> {
    if at.Sending? && at.next <= |at.targets| && channel in at.targets[at.next..] then [at.line] else []
  }

  function PublisherAt(s: State, p: nat): Publisher {
    if p < |s.publishers| then s.publishers[p] else Idle
  }

  // The part of the log a channel was subscribed for.
  function Heard(log: seq<Publication>, c: Channel): seq<Publication> {
    var end := if c.closed then c.until else |log|;
    if c.since <= end <= |log| then log[c.since..end] else []
  }

  // ---------- the invariant ----------

  // A channel is subscribed exactly while it is open, and only to its own job.
  ghost predicate Placed(registry: Registry<nat>, channels: map<nat, Channel>) {
    && Sound(registry)
    && (forall job, channel :: channel in SubscribersOf(registry, job) ==>
          channel in channels && channels[channel].job == job && !channels[channel].closed)
    && (forall channel :: channel in channels && !channels[channel].closed ==>
          channel in SubscribersOf(registry, channels[channel].job))
  }

  // Under the read lock the registry does not change, so a publisher walks its job's current subscribers.
  predicate Walking(s: State) {
    forall p :: 0 <= p < |s.publishers| && s.publishers[p].Sending? ==>
      && s.publishers[p].targets == SubscribersOf(s.registry, s.publishers[p].job)
      && s.publishers[p].next <= |s.publishers[p].targets|
  }

  predicate Filled(c: Channel) {
    && c.taken + c.buffer == Kept(c.offers)
    && |c.buffer| <= BACKLOG
    && forall i :: 0 <= i < |c.offers| ==> c.offers[i].waiting <= BACKLOG
  }

  predicate Bounded(log: seq<Publication>, c: Channel) {
    c.since <= |log| && (c.closed ==> c.since <= c.until <= |log|)
  }

  // What p published for the channel's job while it was subscribed is what p offered to it, in order, and what it is
  // about to offer.
  predicate Served(log: seq<Publication>, channel: nat, c: Channel, p: nat, at: Publisher) {
    PublishedBy(p, c.job, Heard(log, c)) == OffersBy(p, c.offers) + Owed(at, channel)
  }

  ghost predicate Orderly(s: State) {
    && Placed(s.registry, s.channels) && Walking(s) && s.panics == 0
    && (forall channel :: channel in s.channels ==> Filled(s.channels[channel]))
    && (forall channel :: channel in s.channels ==> Bounded(s.log, s.channels[channel]))
  }

  predicate ServedBy(s: State, channel: nat, p: nat) {
    channel in s.channels ==> Served(s.log, channel, s.channels[channel], p, PublisherAt(s, p))
  }

  // ---------- histories grow at the end ----------

  lemma HistoriesExtend(offers: seq<Offer>, o: Offer, p: nat)
    ensures Kept(offers + [o]) == Kept(offers) + if o.waiting < BACKLOG then [o.line] else []
    ensures OffersBy(p, offers + [o]) == OffersBy(p, offers) + if o.publisher == p then [o.line] else []
  {
    assert (offers + [o])[..|offers|] == offers;
  }

  lemma LogExtends(log: seq<Publication>, e: Publication, since: nat, p: nat, job: JobId)
    requires since <= |log|
    ensures PublishedBy(p, job, (log + [e])[since..])
         == PublishedBy(p, job, log[since..]) + if e.publisher == p && e.job == job then [e.line] else []
  {
    assert (log + [e])[since..] == log[since..] + [e];
    assert (log[since..] + [e])[..|log[since..]|] == log[since..];
  }

  lemma OfferFills(c: Channel, p: nat, line: string)
    requires Filled(c)
    ensures Filled(OfferTo(c, p, line))
  {
    var o := Offer(p, line, |c.buffer|);
    HistoriesExtend(c.offers, o, p);
    assert c.taken + (c.buffer + [line]) == c.taken + c.buffer + [line];
  }

  lemma TakingFills(c: Channel)
    requires Filled(c) && c.buffer != []
    ensures Filled(TakeOne(c))
  {
    assert c.taken + [c.buffer[0]] + c.buffer[1..] == c.taken + c.buffer;
  }

  // ---------- every step keeps the invariant ----------

  lemma PlacedNewcomer(registry: Registry<nat>, channels: map<nat, Channel>, job: JobId, channel: nat, now: nat)
    requires Placed(registry, channels) && channel !in channels
    ensures Placed(Joined(registry, job, channel), channels[channel := Open(job, now)])
  {
    forall other, i | other in registry && 0 <= i < |registry[other]| ensures registry[other][i] != channel {
      assert registry[other][i] in SubscribersOf(registry, other);
    }
    JoinedIsSound(registry, job, channel);
    forall other, c
      ensures c in SubscribersOf(Joined(registry, job, channel), other)
         <==> c in SubscribersOf(registry, other) || (other == job && c == channel)
    {
      JoinedSubscribers(registry, job, channel, other, c);
    }
  }

  lemma SubscribeKeepsOrder(s: State, job: JobId, channel: nat)
    requires Orderly(s) && Enabled(s, Subscribe(job, channel))
    ensures Orderly(Perform(s, Subscribe(job, channel)))
  {
    PlacedNewcomer(s.registry, s.channels, job, channel, |s.log|);
  }

  lemma PlacedWithout(registry: Registry<nat>, channels: map<nat, Channel>, job: JobId, channel: nat, now: nat)
    requires Placed(registry, channels) && channel in channels
    ensures channel in SubscribersOf(registry, job) ==>
              Placed(Left(registry, job, channel), channels[channel := CloseAt(channels[channel], now)])
    ensures channel !in SubscribersOf(registry, job) ==> Placed(Left(registry, job, channel), channels)
  {
    if channel in SubscribersOf(registry, job) {
      LeftIsSound(registry, job, channel);
      forall other, c
        ensures c in SubscribersOf(Left(registry, job, channel), other)
                <==> c in SubscribersOf(registry, other) && c != channel
      {
        LeftSubscribers(registry, job, channel, other, c);
      }
    } else {
      LeavingAgainChangesNothing(registry, job, channel);
    }
  }

  lemma UnsubscribeKeepsOrder(s: State, job: JobId, channel: nat)
    requires Orderly(s) && Enabled(s, Unsubscribe(job, channel))
    ensures Orderly(Perform(s, Unsubscribe(job, channel)))
  {
    PlacedWithout(s.registry, s.channels, job, channel, |s.log|);
  }

  // Filling or emptying a channel does not move it.
  lemma PlacedInPlace(registry: Registry<nat>, channels: map<nat, Channel>, channel: nat, c: Channel)
    requires Placed(registry, channels) && channel in channels
    requires c.job == channels[channel].job && c.closed == channels[channel].closed
    ensures Placed(registry, channels[channel := c])
  {
  }

  lemma SendKeepsOrder(s: State, p: nat)
    requires Orderly(s) && Enabled(s, Send(p))
    ensures Orderly(Perform(s, Send(p)))
  {
    var at := s.publishers[p];
    var target := at.targets[at.next];
    assert target in SubscribersOf(s.registry, at.job);
    OfferFills(s.channels[target], p, at.line);
    PlacedInPlace(s.registry, s.channels, target, OfferTo(s.channels[target], p, at.line));
  }

  lemma StepKeepsOrder(s: State, step: Step)
    requires Orderly(s) && Enabled(s, step)
    ensures Orderly(Perform(s, step))
  {
    match step
    case Subscribe(job, channel) => SubscribeKeepsOrder(s, job, channel);
    case Unsubscribe(job, channel) => UnsubscribeKeepsOrder(s, job, channel);
    case Start(p, job, line) =>
    case Send(p) => SendKeepsOrder(s, p);
    case Finish(p) =>
    case Take(channel) =>
      TakingFills(s.channels[channel]);
      PlacedInPlace(s.registry, s.channels, channel, TakeOne(s.channels[channel]));
  }

  // ---------- every step serves every channel ----------

  // What publisher q has under way for the channel once publication e has begun.
  lemma StartOwes(e: Publication, targets: seq<nat>, channel: nat, q: nat, at: Publisher)
    requires e.publisher == q ==> at.Idle?
    ensures Owed(if e.publisher == q then Sending(e.job, e.line, targets, 0) else at, channel)
         == Owed(at, channel) + if e.publisher == q && channel in targets then [e.line] else []
  {
    assert targets[0..] == targets;
  }

  lemma StartIsHeard(log: seq<Publication>, e: Publication, c: Channel, q: nat)
    requires Bounded(log, c)
    ensures PublishedBy(q, c.job, Heard(log + [e], c))
         == PublishedBy(q, c.job, Heard(log, c))
            + if e.publisher == q && !c.closed && c.job == e.job then [e.line] else []
  {
    if c.closed {
      assert Heard(log + [e], c) == Heard(log, c);
    } else {
      LogExtends(log, e, c.since, q, c.job);
      assert Heard(log + [e], c) == (log + [e])[c.since..] && Heard(log, c) == log[c.since..];
    }
  }

  // A new publication owes its line to exactly the channels subscribed at that moment.
  lemma StartServes(log: seq<Publication>, e: Publication, targets: seq<nat>,
                    channel: nat, c: Channel, q: nat, at: Publisher)
    requires Bounded(log, c) && Served(log, channel, c, q, at)
    requires e.publisher == q ==> at.Idle?
    requires channel in targets <==> !c.closed && c.job == e.job
    ensures Served(log + [e], channel, c, q, if e.publisher == q then Sending(e.job, e.line, targets, 0) else at)
  {
    StartOwes(e, targets, channel, q, at);
    StartIsHeard(log, e, c, q);
  }

  // A send settles what the sender owed to its target.
  lemma SendServes(log: seq<Publication>, channel: nat, c: Channel, p: nat, at: Publisher)
    requires Served(log, channel, c, p, at)
    requires at.Sending? && at.next < |at.targets| && at.targets[at.next] == channel && Distinct(at.targets)
    ensures Served(log, channel, OfferTo(c, p, at.line), p, at.(next := at.next + 1))
  {
    HistoriesExtend(c.offers, Offer(p, at.line, |c.buffer|), p);
    assert at.targets[at.next..] == [channel] + at.targets[at.next + 1..];
  }

  // Other publishers' offers to the same channel do not count.
  lemma OthersSend(log: seq<Publication>, channel: nat, c: Channel, p: nat, line: string, q: nat, at: Publisher)
    requires Served(log, channel, c, q, at) && p != q
    ensures Served(log, channel, OfferTo(c, p, line), q, at)
  {
    HistoriesExtend(c.offers, Offer(p, line, |c.buffer|), q);
  }

  // A send leaves what is owed to the other channels.
  lemma SendLeavesOthers(at: Publisher, channel: nat)
    requires at.Sending? && at.next < |at.targets| && at.targets[at.next] != channel
    ensures Owed(at.(next := at.next + 1), channel) == Owed(at, channel)
  {
    assert at.targets[at.next..] == [at.targets[at.next]] + at.targets[at.next + 1..];
  }

  // What is served depends only on the offers, on what was published meanwhile, and on what is still owed.
  lemma ServedAlike(log: seq<Publication>, channel: nat, c: Channel, d: Channel, q: nat, at: Publisher, next: Publisher)
    requires Served(log, channel, c, q, at)
    requires d.job == c.job && d.offers == c.offers && Heard(log, d) == Heard(log, c)
    requires Owed(next, channel) == Owed(at, channel)
    ensures Served(log, channel, d, q, next)
  {
  }

  lemma SendServesAll(s: State, p: nat, channel: nat, q: nat)
    requires Enabled(s, Send(p)) && ServedBy(s, channel, q) && Distinct(s.publishers[p].targets)
    ensures ServedBy(Perform(s, Send(p)), channel, q)
  {
    var t := Perform(s, Send(p));
    var at := s.publishers[p];
    assert PublisherAt(t, q) == if p == q then at.(next := at.next + 1) else PublisherAt(s, q);
    if channel in s.channels {
      var c := s.channels[channel];
      if channel != at.targets[at.next] {
        SendLeavesOthers(at, channel);
        ServedAlike(s.log, channel, c, t.channels[channel], q, PublisherAt(s, q), PublisherAt(t, q));
      } else if p == q {
        SendServes(s.log, channel, c, p, at);
      } else {
        OthersSend(s.log, channel, c, p, at.line, q, PublisherAt(s, q));
      }
    }
  }

  lemma SubscribeServes(s: State, job: JobId, newcomer: nat, channel: nat, q: nat)
    requires Enabled(s, Subscribe(job, newcomer)) && ServedBy(s, channel, q)
    ensures ServedBy(Perform(s, Subscribe(job, newcomer)), channel, q)
  {
    assert Heard(s.log, Open(job, |s.log|)) == [];
  }

  lemma UnsubscribeServes(s: State, job: JobId, leaver: nat, channel: nat, q: nat)
    requires Enabled(s, Unsubscribe(job, leaver)) && ServedBy(s, channel, q)
    requires leaver in SubscribersOf(s.registry, job) ==> !s.channels[leaver].closed
    ensures ServedBy(Perform(s, Unsubscribe(job, leaver)), channel, q)
  {
    if channel in s.channels && !s.channels[channel].closed {
      var c := s.channels[channel];
      assert Heard(s.log, CloseAt(c, |s.log|)) == Heard(s.log, c);
      ServedAlike(s.log, channel, c, CloseAt(c, |s.log|), q, PublisherAt(s, q), PublisherAt(s, q));
    }
  }

  lemma StartServesAll(s: State, p: nat, job: JobId, line: string, channel: nat, q: nat)
    requires Enabled(s, Start(p, job, line)) && ServedBy(s, channel, q)
    requires channel in s.channels ==> Bounded(s.log, s.channels[channel])
    requires channel in s.channels ==>
               (channel in SubscribersOf(s.registry, job)
                <==> !s.channels[channel].closed && s.channels[channel].job == job)
    ensures ServedBy(Perform(s, Start(p, job, line)), channel, q)
  {
    if channel in s.channels {
      var e, targets := Publication(p, job, line), SubscribersOf(s.registry, job);
      StartServes(s.log, e, targets, channel, s.channels[channel], q, PublisherAt(s, q));
    }
  }

  lemma FinishServes(s: State, p: nat, channel: nat, q: nat)
    requires Enabled(s, Finish(p)) && ServedBy(s, channel, q)
    ensures ServedBy(Perform(s, Finish(p)), channel, q)
  {
    assert Owed(s.publishers[p], channel) == [] == Owed(Idle, channel);
    if channel in s.channels && p == q {
      ServedAlike(s.log, channel, s.channels[channel], s.channels[channel], q, s.publishers[p], Idle);
    }
  }

  lemma TakeServes(s: State, taker: nat, channel: nat, q: nat)
    requires Enabled(s, Take(taker)) && ServedBy(s, channel, q)
    ensures ServedBy(Perform(s, Take(taker)), channel, q)
  {
    if channel == taker {
      var c := s.channels[channel];
      ServedAlike(s.log, channel, c, TakeOne(c), q, PublisherAt(s, q), PublisherAt(s, q));
    }
  }

  lemma StepServes(s: State, step: Step, channel: nat, q: nat)
    requires Orderly(s) && Enabled(s, step) && ServedBy(s, channel, q)
    ensures ServedBy(Perform(s, step), channel, q)
  {
    match step
    case Subscribe(job, newcomer) => SubscribeServes(s, job, newcomer, channel, q);
    case Unsubscribe(job, leaver) => UnsubscribeServes(s, job, leaver, channel, q);
    case Start(p, job, line) => StartServesAll(s, p, job, line, channel, q);
    case Send(p) => SendServesAll(s, p, channel, q);
    case Finish(p) => FinishServes(s, p, channel, q);
    case Take(taker) => TakeServes(s, taker, channel, q);
  }

  lemma {:induction false} RunKeepsOrder(s: State, steps: seq<Step>, channel: nat, q: nat)
    requires Orderly(s) && Executes(s, steps) && ServedBy(s, channel, q)
    ensures Orderly(After(s, steps)) && ServedBy(After(s, steps), channel, q)
    decreases |steps|
  {
    if steps != [] {
      StepKeepsOrder(s, steps[0]);
      StepServes(s, steps[0], channel, q);
      RunKeepsOrder(Perform(s, steps[0]), steps[1..], channel, q);
    }
  }

  // ---------- what a subscriber can count on ----------

  ghost predicate Reachable(s: State) {
    exists publishers: nat, steps: seq<Step> ::
      Executes(Initial(publishers), steps) && s == After(Initial(publishers), steps)
  }

  lemma ReachableIsOrderly(s: State, channel: nat, q: nat)
    requires Reachable(s)
    ensures Orderly(s) && ServedBy(s, channel, q)
  {
    var publishers: nat, steps: seq<Step> :|
      Executes(Initial(publishers), steps) && s == After(Initial(publishers), steps);
    RunKeepsOrder(Initial(publishers), steps, channel, q);
  }

  // No send ever hits a closed channel and no channel is closed twice, whoever unsubscribes what and how often.
  lemma NeverPanics(s: State)
    requires Reachable(s)
    ensures s.panics == 0
  {
    ReachableIsOrderly(s, 0, 0);
  }

  // A publisher under way can always go on: nobody it still has to reach has left.
  lemma PublishersNeverStall(s: State, p: nat)
    requires Reachable(s) && p < |s.publishers| && s.publishers[p].Sending?
    ensures Enabled(s, Send(p)) || Enabled(s, Finish(p))
  {
    ReachableIsOrderly(s, 0, 0);
    var at := s.publishers[p];
    if at.next < |at.targets| { assert at.targets[at.next] in SubscribersOf(s.registry, at.job); }
  }

  // What p published for the channel's job while the channel was subscribed.
  function Meanwhile(s: State, channel: nat, p: nat): seq<string>
    requires channel in s.channels
  {
    PublishedBy(p, s.channels[channel].job, Heard(s.log, s.channels[channel]))
  }

  // What a reader took, followed by what waits for it, is exactly the offers that found fewer than a hundred lines
  // waiting, in the order they were made; and those a publisher made are what it published for the job while the
  // channel was subscribed, in its own order, up to the line it is delivering now.
  lemma DeliveryIsInOrder(s: State, channel: nat, p: nat)
    requires Reachable(s) && channel in s.channels
    ensures var c := s.channels[channel];
            && c.taken + c.buffer == Kept(c.offers)
            && Meanwhile(s, channel, p) == OffersBy(p, c.offers) + Owed(PublisherAt(s, p), channel)
  {
    ReachableIsOrderly(s, channel, p);
  }

  predicate NeverFull(c: Channel) {
    forall i :: 0 <= i < |c.offers| ==> c.offers[i].waiting != 100
  }

  lemma {:induction false} KeptOrDropped(offers: seq<Offer>)
    requires forall i :: 0 <= i < |offers| ==> offers[i].waiting <= BACKLOG
    ensures |Kept(offers)| <= |Lines(offers)| == |offers|
    ensures Kept(offers) == Lines(offers) <==> forall i :: 0 <= i < |offers| ==> offers[i].waiting != BACKLOG
  {
    if offers != [] {
      var n := |offers| - 1;
      KeptOrDropped(offers[..n]);
      assert forall i :: 0 <= i < n ==> offers[..n][i] == offers[i];
      assert Lines(offers)[..n] == Lines(offers[..n]);
      assert offers[n].waiting < BACKLOG ==> Kept(offers)[..|Kept(offers)| - 1] == Kept(offers[..n]);
    }
  }

  // Nothing offered to a subscriber is lost if and only if no offer ever found exactly a hundred lines waiting.
  lemma NothingLostIffNeverFull(s: State, channel: nat)
    requires Reachable(s) && channel in s.channels
    ensures var c := s.channels[channel];
            c.taken + c.buffer == Lines(c.offers) <==> forall i :: 0 <= i < |c.offers| ==> c.offers[i].waiting != 100
  {
    ReachableIsOrderly(s, channel, 0);
    KeptOrDropped(s.channels[channel].offers);
  }

  // The lines with tag p, in order.
  function Tagged(lines: seq<string>, tags: seq<nat>, p: nat): seq<string>
    requires |tags| == |lines|
  {
    if lines == [] then []
    else
      var n := |lines| - 1;
      Tagged(lines[..n], tags[..n], p) + if tags[n] == p then [lines[n]] else []
  }

  // The lines can be shared out among the publishers so that each one's are exactly what it published for the channel's
  // job meanwhile, in its own order.
  ghost predicate Interleaves(s: State, channel: nat, lines: seq<string>)
    requires channel in s.channels
  {
    exists tags: seq<nat> :: |tags| == |lines| && SharesOut(s, channel, lines, tags)
  }

  ghost predicate SharesOut(s: State, channel: nat, lines: seq<string>, tags: seq<nat>)
    requires channel in s.channels && |tags| == |lines|
  {
    forall p: nat :: Tagged(lines, tags, p) == Meanwhile(s, channel, p)
  }

  function Makers(offers: seq<Offer>): (tags: seq<nat>)
    ensures |tags| == |offers|
  {
    seq(|offers|, i requires 0 <= i < |offers| => offers[i].publisher)
  }

  lemma {:induction false} TaggedByMaker(offers: seq<Offer>, p: nat)
    ensures |Lines(offers)| == |offers|
    ensures Tagged(Lines(offers), Makers(offers), p) == OffersBy(p, offers)
  {
    if offers != [] {
      var n := |offers| - 1;
      TaggedByMaker(offers[..n], p);
      assert Makers(offers)[..n] == Makers(offers[..n]);
      assert Lines(offers)[..n] == Lines(offers[..n]);
    }
  }

  // With nobody sending and a reader that never let the backlog fill, what the reader has, or has waiting, is an
  // interleaving of what all the publishers published for its job since it subscribed: nothing is lost, nothing is
  // added, and each publisher's order is kept.
  lemma NeverFullHearsEverybody(s: State, channel: nat)
    requires Reachable(s) && channel in s.channels && NobodySends(s) && NeverFull(s.channels[channel])
    ensures Interleaves(s, channel, s.channels[channel].taken + s.channels[channel].buffer)
  {
    var c := s.channels[channel];
    NothingLostIffNeverFull(s, channel);
    TaggedByMaker(c.offers, 0);
    forall p: nat ensures Tagged(Lines(c.offers), Makers(c.offers), p) == Meanwhile(s, channel, p) {
      TaggedByMaker(c.offers, p);
      DeliveryIsInOrder(s, channel, p);
    }
    assert SharesOut(s, channel, Lines(c.offers), Makers(c.offers));
  }

  lemma {:induction false} OnlyOne(p: nat, offers: seq<Offer>)
    requires forall q: nat :: q != p ==> OffersBy(q, offers) == []
    ensures Lines(offers) == OffersBy(p, offers)
  {
    if offers != [] {
      var n := |offers| - 1;
      var last := offers[n].publisher;
      assert last != p ==> OffersBy(last, offers) == [];
      forall q: nat | q != p ensures OffersBy(q, offers[..n]) == [] {
        assert OffersBy(q, offers) == [];
      }
      OnlyOne(p, offers[..n]);
    }
  }

  ghost predicate OnlyPublisher(s: State, channel: nat, p: nat)
    requires channel in s.channels
  {
    forall q: nat :: q != p ==> Meanwhile(s, channel, q) == []
  }

  // With one publisher, idle again, and a reader that never let the backlog fill, the reader has, or has waiting,
  // exactly the lines published for its job since it subscribed.
  lemma SolePublisherIsHeard(s: State, channel: nat, p: nat)
    requires Reachable(s) && channel in s.channels
    requires NobodySends(s) && NeverFull(s.channels[channel]) && OnlyPublisher(s, channel, p)
    ensures s.channels[channel].taken + s.channels[channel].buffer == Meanwhile(s, channel, p)
  {
    var c := s.channels[channel];
    NothingLostIffNeverFull(s, channel);
    forall q: nat ensures OffersBy(q, c.offers) == Meanwhile(s, channel, q) {
      DeliveryIsInOrder(s, channel, q);
    }
    OnlyOne(p, c.offers);
  }
}
