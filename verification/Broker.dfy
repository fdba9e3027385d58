/** The in-memory log broker: for each job a slice of bounded channels, shared by every subscriber of that job. */
module Broker {
  import opened Jobs

  // ---------- the registry the slices represent ----------

  // The subscribers of each job, in the order they came. C is a channel.
  type Registry<C> = map<JobId, seq<C>>

  function SubscribersOf<C>(registry: Registry<C>, job: JobId): seq<C> {
    if job in registry then registry[job] else []
  }

  function Joined<C>(registry: Registry<C>, job: JobId, channel: C): Registry<C> {
    registry[job := SubscribersOf(registry, job) + [channel]]
  }

  // Everything but the first occurrence of x.
  function Without<C(==)>(s: seq<C>, x: C): seq<C> {
    if s == [] then [] else if s[0] == x then s[1..] else [s[0]] + Without(s[1..], x)
  }

  function Left<C(==)>(registry: Registry<C>, job: JobId, channel: C): Registry<C> {
    var rest := Without(SubscribersOf(registry, job), channel);
    if rest == [] then registry - {job} else registry[job := rest]
  }

  predicate Distinct<C(==)>(s: seq<C>) {
    forall i, k :: 0 <= i < k < |s| ==> s[i] != s[k]
  }

  predicate NoEmptyEntry<C>(registry: Registry<C>) {
    forall job :: job in registry ==> registry[job] != []
  }

  // The k-th of the others is the k-th or the next of all.
  lemma {:induction false} WithoutAt<C>(s: seq<C>, at: nat)
    requires at < |s| && Distinct(s)
    ensures Without(s, s[at]) == s[..at] + s[at + 1..]
  {
    if at == 0 {
      assert s[..0] + s[1..] == s[1..];
    } else {
      WithoutAt(s[1..], at - 1);
      assert [s[0]] + (s[1..][..at - 1] + s[1..][at..]) == s[..at] + s[at + 1..];
    }
  }

  lemma {:induction false} WithoutAbsent<C>(s: seq<C>, x: C)
    requires x !in s
    ensures Without(s, x) == s
  {
    if s != [] { WithoutAbsent(s[1..], x); }
  }

  lemma {:induction false} WithoutMembers<C>(s: seq<C>, x: C, y: C)
    requires y != x
    ensures y in Without(s, x) <==> y in s
  {
    if s != [] && s[0] != x {
      WithoutMembers(s[1..], x, y);
      assert s == [s[0]] + s[1..];
    } else if s != [] {
      assert s == [x] + s[1..];
    }
  }

  lemma CutIsDistinct<C>(s: seq<C>, at: nat)
    requires at < |s| && Distinct(s)
    ensures s[at] !in s[..at] + s[at + 1..] && Distinct(s[..at] + s[at + 1..])
  {
    var rest := s[..at] + s[at + 1..];
    assert forall k :: 0 <= k < |rest| ==> rest[k] == s[if k < at then k else k + 1];
  }

  // Leaving takes out the channel itself, at whatever place it stands, and nothing else.
  lemma WithoutRemoves<C>(s: seq<C>, x: C)
    requires Distinct(s)
    ensures x !in Without(s, x) && Distinct(Without(s, x))
    ensures forall y :: y != x ==> (y in Without(s, x) <==> y in s)
    ensures x in s ==> exists at :: 0 <= at < |s| && s[at] == x && Without(s, x) == s[..at] + s[at + 1..]
  {
    if x in s {
      var at :| 0 <= at < |s| && s[at] == x;
      WithoutAt(s, at);
      CutIsDistinct(s, at);
    } else {
      WithoutAbsent(s, x);
    }
    forall y | y != x ensures y in Without(s, x) <==> y in s { WithoutMembers(s, x, y); }
  }

  // Leaving undoes joining.
  lemma LeaveUndoesJoin<C>(registry: Registry<C>, job: JobId, channel: C)
    requires NoEmptyEntry(registry)
    requires channel !in SubscribersOf(registry, job) && Distinct(SubscribersOf(registry, job))
    ensures Left(Joined(registry, job, channel), job, channel) == registry
  {
    var subs := SubscribersOf(registry, job);
    WithoutAt(subs + [channel], |subs|);
    assert (subs + [channel])[..|subs|] + (subs + [channel])[|subs| + 1..] == subs;
  }

  // Leaving twice, or leaving a job the channel is not subscribed to, changes nothing.
  lemma LeavingAgainChangesNothing<C>(registry: Registry<C>, job: JobId, channel: C)
    requires NoEmptyEntry(registry) && Distinct(SubscribersOf(registry, job))
    ensures channel !in SubscribersOf(registry, job) ==> Left(registry, job, channel) == registry
    ensures Left(Left(registry, job, channel), job, channel) == Left(registry, job, channel)
  {
    if channel !in SubscribersOf(registry, job) { WithoutAbsent(SubscribersOf(registry, job), channel); }
    WithoutRemoves(SubscribersOf(registry, job), channel);
    var left := Left(registry, job, channel);
    assert channel !in SubscribersOf(left, job);
    WithoutAbsent(SubscribersOf(left, job), channel);
  }

  // ---------- the slices ----------

  const BACKLOG := 100

  // What waits in a channel after one more line is offered to it.
  function Offered(buffer: seq<string>, line: string): seq<string> {
    if |buffer| < BACKLOG then buffer + [line] else buffer
  }

  class Channel {
    var buffer: seq<string>
    var closed: bool

    constructor ()
      ensures buffer == [] && !closed
    {
      buffer, closed := [], false;
    }

    // Sending to a closed channel panics, and so does closing one.
    method TrySend(line: string) returns (sent: bool)
      requires !closed
      modifies this`buffer
      ensures sent <==> old(|buffer|) < 100
      ensures buffer == if sent then old(buffer) + [line] else old(buffer)
    {
      sent := |buffer| < BACKLOG;
      if sent { buffer := buffer + [line]; }
    }

    method Close()
      requires !closed
      modifies this`closed
      ensures closed
    {
      closed := true;
    }
  }

  // No channel is subscribed twice, to one job or to two.
  predicate Sound<C(==)>(registry: Registry<C>) {
    && NoEmptyEntry(registry)
    && (forall job :: job in registry ==> Distinct(registry[job]))
    && (forall job, other :: job in registry && other in registry && job != other ==>
          Apart(registry[job], registry[other]))
  }

  predicate Apart<C(==)>(s: seq<C>, t: seq<C>) {
    forall c :: c in s ==> c !in t
  }

  function Members<C(==)>(registry: Registry<C>): set<C> {
    set job, i | job in registry && 0 <= i < |registry[job]| :: registry[job][i]
  }

  lemma JoinedMembers<C>(registry: Registry<C>, job: JobId, channel: C)
    ensures Members(Joined(registry, job, channel)) == Members(registry) + {channel}
  {
    var joined := Joined(registry, job, channel);
    assert joined[job][|SubscribersOf(registry, job)|] == channel;
    forall c | c in Members(registry) ensures c in Members(joined) {
      var other, i :| other in registry && 0 <= i < |registry[other]| && registry[other][i] == c;
      assert joined[other][i] == c;
    }
  }

  lemma JoinedSubscribers<C>(registry: Registry<C>, job: JobId, channel: C, other: JobId, c: C)
    ensures SubscribersOf(Joined(registry, job, channel), other)
         == SubscribersOf(registry, other) + if other == job then [channel] else []
    ensures c in SubscribersOf(Joined(registry, job, channel), other)
       <==> c in SubscribersOf(registry, other) || (other == job && c == channel)
  {
  }

  lemma LeftSubscribers<C>(registry: Registry<C>, job: JobId, channel: C, other: JobId, c: C)
    requires Sound(registry)
    ensures c in SubscribersOf(Left(registry, job, channel), other)
       <==> c in SubscribersOf(registry, other) && !(other == job && c == channel)
  {
    WithoutRemoves(SubscribersOf(registry, job), channel);
  }

  lemma JoinedIsSound<C>(registry: Registry<C>, job: JobId, channel: C)
    requires Sound(registry) && channel !in Members(registry)
    ensures Sound(Joined(registry, job, channel))
  {
  }

  lemma LeftMembers<C>(registry: Registry<C>, job: JobId, channel: C)
    requires Sound(registry)
    ensures Members(Left(registry, job, channel))
         == if channel in SubscribersOf(registry, job) then Members(registry) - {channel} else Members(registry)
  {
    var subs := SubscribersOf(registry, job);
    var left := Left(registry, job, channel);
    WithoutRemoves(subs, channel);
    forall c | c in Members(left) ensures c in Members(registry) && !(c == channel && channel in subs) {
      var other, i :| other in left && 0 <= i < |left[other]| && left[other][i] == c;
      assert c in Without(subs, channel) || other != job;
      assert c in SubscribersOf(registry, other) && other in registry;
    }
    forall c | c in Members(registry) && !(c == channel && channel in subs) ensures c in Members(left) {
      var other, i :| other in registry && 0 <= i < |registry[other]| && registry[other][i] == c;
      assert c in SubscribersOf(left, other) && other in left;
    }
  }

  lemma LeftIsSound<C>(registry: Registry<C>, job: JobId, channel: C)
    requires Sound(registry)
    ensures Sound(Left(registry, job, channel))
  {
    WithoutRemoves(SubscribersOf(registry, job), channel);
  }

  ghost predicate AllOpen(channels: set<Channel>)
    reads channels
  {
    forall channel :: channel in channels ==> !channel.closed
  }

  // The first len cells of a backing array; the cells behind them are spare capacity.
  datatype Slice = Slice(cells: array<Channel?>, len: nat)

  ghost predicate Holds(slice: Slice, channels: seq<Channel>)
    reads slice.cells
  {
    && slice.len == |channels| <= slice.cells.Length
    && forall i :: 0 <= i < slice.len ==> slice.cells[i] == channels[i]
  }

  // append: into spare capacity when there is some, else into a larger array of whatever capacity the runtime picks.
  method Append(slice: Slice, channel: Channel, ghost channels: seq<Channel>) returns (longer: Slice)
    requires Holds(slice, channels)
    modifies slice.cells
    ensures Holds(longer, channels + [channel])
    ensures longer.cells == slice.cells || fresh(longer.cells)
  {
    if slice.len < slice.cells.Length {
      slice.cells[slice.len] := channel;
      return Slice(slice.cells, slice.len + 1);
    }
    var capacity: nat :| capacity > slice.len;
    var cells := new Channel?[capacity](_ => null);
    forall i | 0 <= i < slice.len { cells[i] := slice.cells[i]; }
    cells[slice.len] := channel;
    longer := Slice(cells, slice.len + 1);
  }

  // append(slice[:at], slice[at+1:]...): the cells behind at move one place down, in place.
  method Remove(slice: Slice, at: nat, ghost channels: seq<Channel>) returns (shorter: Slice)
    requires Holds(slice, channels) && at < slice.len
    modifies slice.cells
    ensures Holds(shorter, channels[..at] + channels[at + 1..]) && shorter.cells == slice.cells
  {
    var i := at;
    while i + 1 < slice.len
      invariant at <= i < slice.len
      invariant forall k :: 0 <= k < i ==> slice.cells[k] == channels[if k < at then k else k + 1]
      invariant forall k :: i < k < slice.len ==> slice.cells[k] == channels[k]
    {
      slice.cells[i] := slice.cells[i + 1];
      i := i + 1;
    }
    shorter := Slice(slice.cells, slice.len - 1);
  }

  class LogBroker {
    var subscribers: map<JobId, Slice>
    // What the slices mean.
    ghost var registry: Registry<Channel>

    ghost function Backing(): set<array<Channel?>>
      reads this
    {
      set job | job in subscribers :: subscribers[job].cells
    }

    ghost predicate OwnArrays()
      reads this
    {
      forall job, other :: job in subscribers && other in subscribers && job != other ==>
        subscribers[job].cells != subscribers[other].cells
    }

    ghost predicate Represents()
      reads this, Backing()
    {
      && subscribers.Keys == registry.Keys
      && forall job :: job in registry ==> Holds(subscribers[job], registry[job])
    }

    // Every entry has a backing array of its own, and none is empty.
    ghost predicate Intact()
      reads this, Backing()
    {
      OwnArrays() && Represents() && Sound(registry)
    }

    // Every subscribed channel is open.
    ghost predicate Valid()
      reads this, Backing(), Members(registry)
    {
      Intact() && AllOpen(Members(registry))
    }

    constructor ()
      ensures Valid() && registry == map[]
    {
      subscribers, registry := map[], map[];
    }

    // Storing a job's slice in the map.
    method Put(job: JobId, slice: Slice, ghost channels: seq<Channel>)
      requires OwnArrays() && subscribers.Keys == registry.Keys
      requires forall other :: other in registry && other != job ==> Holds(subscribers[other], registry[other])
      requires forall other :: other in subscribers && other != job ==> subscribers[other].cells != slice.cells
      requires Holds(slice, channels)
      modifies this
      ensures OwnArrays() && Represents()
      ensures registry == old(registry)[job := channels]
      ensures Backing() <= old(Backing()) + {slice.cells}
    {
      subscribers := subscribers[job := slice];
      registry := registry[job := channels];
    }

    method Enlist(job: JobId, channel: Channel)
      requires Intact() && channel !in Members(registry)
      modifies this, Backing()
      ensures Intact() && fresh(Backing() - old(Backing()))
      ensures registry == Joined(old(registry), job, channel)
    {
      ghost var channels := SubscribersOf(registry, job);
      var nil := new Channel?[0];
      var slice := if job in subscribers then subscribers[job] else Slice(nil, 0);
      var longer := Append(slice, channel, channels);
      Put(job, longer, channels + [channel]);
      JoinedIsSound(old(registry), job, channel);
    }

    method Subscribe(job: JobId) returns (channel: Channel)
      requires Valid()
      modifies this, Backing()
      ensures Valid() && fresh(Backing() - old(Backing()))
      ensures fresh(channel) && channel.buffer == [] && !channel.closed
      ensures registry == Joined(old(registry), job, channel)
    {
      ghost var members := Members(registry);
      channel := new Channel();
      assert channel !in members && AllOpen(members + {channel});
      JoinedMembers(registry, job, channel);
      Enlist(job, channel);
      assert AllOpen(members + {channel});
    }

    // The in-place part of leaving: afterwards the channel is in no slice.
    method Delist(job: JobId, at: nat, channel: Channel)
      requires Intact() && job in registry && at < |registry[job]| && registry[job][at] == channel
      modifies this, Backing()
      ensures Intact() && Backing() <= old(Backing())
      ensures registry == Left(old(registry), job, channel)
    {
      ghost var channels := registry[job];
      WithoutAt(channels, at);
      LeftIsSound(registry, job, channel);
      var shorter := Remove(subscribers[job], at, channels);
      if shorter.len == 0 {
        subscribers := subscribers - {job};
        registry := registry - {job};
      } else {
        Put(job, shorter, channels[..at] + channels[at + 1..]);
      }
    }

    method Unsubscribe(job: JobId, channel: Channel)
      requires Valid()
      modifies this, Backing(), channel`closed
      ensures Valid() && Backing() <= old(Backing())
      ensures registry == Left(old(registry), job, channel)
      ensures channel.closed <==> old(channel.closed || channel in SubscribersOf(registry, job))
    {
      if job in subscribers {
        var slice := subscribers[job];
        var i := 0;
        while i < slice.len && slice.cells[i] != channel
          invariant i <= slice.len && forall k :: 0 <= k < i ==> slice.cells[k] != channel
        {
          i := i + 1;
        }
        if i < slice.len {
          ghost var members := Members(registry);
          LeftMembers(registry, job, channel);
          Delist(job, i, channel);
          channel.Close();
          assert AllOpen(members - {channel});
          return;
        }
      }
      LeavingAgainChangesNothing(registry, job, channel);
    }

    // One line to every subscriber of the job: kept where fewer than a hundred are waiting, dropped elsewhere.
    method Publish(job: JobId, line: string)
      requires Valid()
      modifies (set channel | channel in SubscribersOf(registry, job))`buffer
      ensures Valid()
      ensures forall channel :: channel in SubscribersOf(registry, job) ==>
                channel.buffer
                == if old(|channel.buffer|) < 100 then old(channel.buffer) + [line] else old(channel.buffer)
    {
      if job in subscribers {
        ghost var channels := registry[job];
        var slice := subscribers[job];
        for i := 0 to slice.len
          invariant forall k :: 0 <= k < i ==> channels[k].buffer == Offered(old(channels[k].buffer), line)
          invariant forall k :: i <= k < |channels| ==> channels[k].buffer == old(channels[k].buffer)
        {
          assert channels[i] in Members(registry);
          var _ := slice.cells[i].TrySend(line);
        }
      }
    }
  }
}
