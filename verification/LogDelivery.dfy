/** From Publish to the client: the broker's channel and the event stream put together. */
module LogDelivery {
  import opened BrokerRuns
  import opened EventStream

  lemma {:induction false} TaggedMembers(lines: seq<string>, tags: seq<nat>, p: nat, x: string)
    requires |tags| == |lines|
    ensures x in Tagged(lines, tags, p) <==> exists i :: 0 <= i < |lines| && tags[i] == p && lines[i] == x
  {
    if lines != [] {
      var n := |lines| - 1;
      TaggedMembers(lines[..n], tags[..n], p, x);
      if i :| 0 <= i < |lines| && tags[i] == p && lines[i] == x && i < n {
        assert lines[..n][i] == x && tags[..n][i] == p;
      }
    }
  }

  // No line published for the channel's job meanwhile, by anybody, contains a CR or an LF.
  ghost predicate AllOneLine(s: State, channel: nat)
    requires channel in s.channels
  {
    forall p: nat, x :: x in Meanwhile(s, channel, p) ==> OneLine(x)
  }

  lemma InterleavedLines(s: State, channel: nat, lines: seq<string>)
    requires channel in s.channels && Interleaves(s, channel, lines)
    ensures AllOneLine(s, channel) <==> forall i :: 0 <= i < |lines| ==> OneLine(lines[i])
  {
    var tags: seq<nat> :| |tags| == |lines| && SharesOut(s, channel, lines, tags);
    forall p: nat, x
      ensures x in Meanwhile(s, channel, p) <==> exists i :: 0 <= i < |lines| && tags[i] == p && lines[i] == x
    {
      TaggedMembers(lines, tags, p, x);
      assert Tagged(lines, tags, p) == Meanwhile(s, channel, p);
    }
    if AllOneLine(s, channel) {
      forall i | 0 <= i < |lines| ensures OneLine(lines[i]) {
        assert lines[i] in Meanwhile(s, channel, tags[i]);
      }
    }
  }

  // However many publish to a job (terraform's log reader, its hooks' readers), once nobody is sending, a stream
  // handler that never let the backlog fill and has written all it took has taken an interleaving of what was
  // published since it subscribed; and its client reads back exactly that iff no published line contains a CR or an LF.
  lemma ClientReadsWhatWasPublished(s: State, channel: nat)
    requires Reachable(s) && channel in s.channels && s.channels[channel].buffer == []
    requires NobodySends(s) && NeverFull(s.channels[channel])
    ensures Interleaves(s, channel, s.channels[channel].taken)
    ensures Payloads(Decode(Frames(s.channels[channel].taken))) == s.channels[channel].taken <==> AllOneLine(s, channel)
  {
    var c := s.channels[channel];
    NeverFullHearsEverybody(s, channel);
    assert c.taken + c.buffer == c.taken;
    InterleavedLines(s, channel, c.taken);
    StreamRoundTripIff(c.taken);
  }
}
