/** The log stream: what handleStreamJobLogs writes, and what a client reads back from it by sections 9.2.5 and
    9.2.6 of the WHATWG HTML Living Standard. */
module EventStream {

  const CR := '\r'
  const LF := '\n'
  const BOM := '\U{FEFF}'

  // ---------- the writer ----------

  function Frame(line: string): string {
    "data: " + line + "\n\n"
  }

  function Frames(lines: seq<string>): string {
    if lines == [] then "" else Frame(lines[0]) + Frames(lines[1..])
  }

  datatype Ending = ChannelClosed | ClientGone | WriteFailed

  // The handler's loop. lines is what its channel delivers until it is closed; gone(i) says that the client's leaving
  // is noticed before the i-th line is, writes(i) that the i-th write succeeds.
  method StreamJobLogs(lines: seq<string>, gone: nat -> bool, writes: nat -> bool)
    returns (written: string, ending: Ending, delivered: nat)
    ensures delivered <= |lines| && written == Frames(lines[..delivered])
    ensures written == Concat(seq(delivered, i requires 0 <= i < delivered => "data: " + lines[i] + "\n\n"))
    ensures forall i :: 0 <= i < delivered ==> !gone(i) && writes(i)
    ensures match ending
            case ChannelClosed => delivered == |lines| && !gone(delivered)
            case ClientGone => gone(delivered)
            case WriteFailed => delivered < |lines| && !gone(delivered) && !writes(delivered)
  {
    written, delivered := "", 0;
    FramesAre(lines, 0);
    while delivered < |lines|
      invariant 0 <= delivered <= |lines| && written == Frames(lines[..delivered])
      invariant written == Concat(seq(delivered, i requires 0 <= i < delivered => "data: " + lines[i] + "\n\n"))
      invariant forall i :: 0 <= i < delivered ==> !gone(i) && writes(i)
    {
      if gone(delivered) {
        return written, ClientGone, delivered;
      }
      if !writes(delivered) {
        return written, WriteFailed, delivered;
      }
      written := written + Frame(lines[delivered]);
      FramesExtend(lines[..delivered], lines[delivered]);
      assert lines[..delivered + 1] == lines[..delivered] + [lines[delivered]];
      delivered := delivered + 1;
      FramesAre(lines, delivered);
    }
    ending := if gone(delivered) then ClientGone else ChannelClosed;
  }

  function Concat(pieces: seq<string>): string {
    if pieces == [] then "" else pieces[0] + Concat(pieces[1..])
  }

  lemma {:induction false} FramesAre(lines: seq<string>, n: nat)
    requires n <= |lines|
    ensures Frames(lines[..n]) == Concat(seq(n, i requires 0 <= i < n => "data: " + lines[i] + "\n\n"))
    decreases n
  {
    if n > 0 {
      var pieces, rest := seq(n, i requires 0 <= i < n => "data: " + lines[i] + "\n\n"), lines[1..];
      FramesAre(rest, n - 1);
      assert lines[..n][1..] == rest[..n - 1];
      assert pieces[1..] == seq(n - 1, i requires 0 <= i < n - 1 => "data: " + rest[i] + "\n\n");
    }
  }

  lemma {:induction false} FramesExtend(lines: seq<string>, line: string)
    ensures Frames(lines + [line]) == Frames(lines) + Frame(line)
  {
    if lines == [] {
      assert [line][1..] == [];
      assert Frames([line]) == Frame(line) + "";
    } else {
      assert (lines + [line])[1..] == lines[1..] + [line];
      FramesExtend(lines[1..], line);
      assert Frame(lines[0]) + (Frames(lines[1..]) + Frame(line)) == Frame(lines[0]) + Frames(lines[1..]) + Frame(line);
    }
  }

  // ---------- the reader ----------

  datatype Event = Event(eventType: string, data: string, lastEventId: string)

  // The buffers of section 9.2.6 and the events dispatched so far.
  datatype Reader = Reader(data: string, eventType: string, lastEventId: string, events: seq<Event>)

  const FRESH := Reader("", "", "", [])

  function IndexOf(c: char, s: string): (i: nat)
    ensures i <= |s| && (i < |s| ==> s[i] == c)
    ensures forall k :: 0 <= k < i ==> s[k] != c
  {
    if s == "" then 0 else if s[0] == c then 0 else 1 + IndexOf(c, s[1..])
  }

  predicate IsBreak(c: char) {
    c == CR || c == LF
  }

  // Where the first line ends: at the first CR or LF.
  function LineEnd(s: string): (i: nat)
    ensures i <= |s| && (i < |s| ==> IsBreak(s[i]))
    ensures forall k :: 0 <= k < i ==> !IsBreak(s[k])
  {
    if s == "" then 0 else if IsBreak(s[0]) then 0 else 1 + LineEnd(s[1..])
  }

  // A CR followed by an LF is one line break.
  function BreakLength(s: string, i: nat): (n: nat)
    requires i < |s|
    ensures 1 <= n && i + n <= |s|
  {
    if s[i] == CR && i + 1 < |s| && s[i + 1] == LF then 2 else 1
  }

  function ProcessField(r: Reader, field: string, value: string): Reader {
    if field == "data" then r.(data := r.data + value + [LF])
    else if field == "event" then r.(eventType := value)
    else if field == "id" && '\0' !in value then r.(lastEventId := value)
    else r
  }

  function Dispatch(r: Reader): Reader {
    if r.data == "" then r.(eventType := "")
    else
      var data := if r.data[|r.data| - 1] == LF then r.data[..|r.data| - 1] else r.data;
      var kind := if r.eventType == "" then "message" else r.eventType;
      Reader("", "", r.lastEventId, r.events + [Event(kind, data, r.lastEventId)])
  }

  function ProcessLine(r: Reader, line: string): Reader {
    if line == "" then Dispatch(r)
    else
      var colon := IndexOf(':', line);
      if colon == 0 then r
      else if colon == |line| then ProcessField(r, line, "")
      else
        var value := line[colon + 1..];
        ProcessField(r, line[..colon], if value != "" && value[0] == ' ' then value[1..] else value)
  }

  // A last line without a break, and whatever is still buffered at the end, is dropped.
  function Read(r: Reader, s: string): Reader
    decreases |s|
  {
    var i := LineEnd(s);
    if i == |s| then r else Read(ProcessLine(r, s[..i]), s[i + BreakLength(s, i)..])
  }

  function Decode(s: string): seq<Event> {
    Read(FRESH, if s != "" && s[0] == BOM then s[1..] else s).events
  }

  // ---------- one frame ----------

  predicate OneLine(line: string) {
    CR !in line && LF !in line
  }

  // What one line is dispatched as: a message under the identifier the reader holds.
  function Message(line: string, lastEventId: string): Event {
    Event("message", line, lastEventId)
  }

  function Messages(lines: seq<string>, lastEventId: string): (events: seq<Event>)
    ensures |events| == |lines| && forall i :: 0 <= i < |lines| ==> events[i] == Message(lines[i], lastEventId)
  {
    if lines == [] then [] else [Message(lines[0], lastEventId)] + Messages(lines[1..], lastEventId)
  }

  predicate Ends(ending: string, rest: string) {
    ending == [LF] || ending == [CR, LF] || (ending == [CR] && (rest == "" || rest[0] != LF))
  }

  lemma LineEndIs(s: string, n: nat)
    requires n < |s| && IsBreak(s[n]) && forall k :: 0 <= k < n ==> !IsBreak(s[k])
    ensures LineEnd(s) == n
  {
    var i := LineEnd(s);
    assert !(i < n) && !(n < i);
  }

  // One line and the break that ends it: LF, CR LF, or a CR that no LF follows.
  lemma ReadOne(r: Reader, line: string, ending: string, rest: string)
    requires OneLine(line) && Ends(ending, rest)
    ensures Read(r, line + (ending + rest)) == Read(ProcessLine(r, line), rest)
  {
    var s := line + (ending + rest);
    forall k | 0 <= k < |line| ensures !IsBreak(s[k]) { assert line[k] in line; }
    assert s[|line|] == ending[0];
    LineEndIs(s, |line|);
    assert BreakLength(s, |line|) == |ending|;
    assert s[..|line|] == line && s[|line| + |ending|..] == rest;
  }

  lemma DataLine(r: Reader, line: string)
    ensures ProcessLine(r, "data: " + line) == r.(data := r.data + line + [LF])
  {
    var s := "data: " + line;
    assert s[4] == ':' && forall k :: 0 <= k < 4 ==> s[k] != ':';
    assert IndexOf(':', s) == 4;
    assert s[..4] == "data" && s[5..] == " " + line && s[5..][1..] == line;
  }

  // The two LFs that end a frame.
  const END := "\n\n"

  lemma ReadUnbroken(r: Reader, text: string, more: string)
    requires OneLine(text)
    ensures Read(r, text + END + more) == Read(Dispatch(ProcessLine(r, text)), more)
  {
    assert text + END + more == text + ([LF] + ("" + ([LF] + more)));
    ReadOne(r, text, [LF], "" + ([LF] + more));
    ReadOne(ProcessLine(r, text), "", [LF], more);
  }

  lemma FrameText(line: string, more: string)
    ensures Frame(line) + more == "data: " + line + END + more
  {
  }

  lemma DataIsOneLine(line: string)
    requires OneLine(line)
    ensures OneLine("data: " + line)
  {
  }

  lemma FirstDataLine(r: Reader, line: string)
    requires r.data == ""
    ensures ProcessLine(r, "data: " + line) == r.(data := line + [LF])
  {
    DataLine(r, line);
    assert "" + line + [LF] == line + [LF];
  }

  lemma DispatchLine(r: Reader, line: string)
    requires r.data == line + [LF] && r.eventType == ""
    ensures Dispatch(r) == Reader("", "", r.lastEventId, r.events + [Message(line, r.lastEventId)])
  {
    assert r.data[..|r.data| - 1] == line;
  }

  // Reading an unbroken line's frame dispatches exactly that line.
  lemma ReadWholeFrame(r: Reader, line: string, more: string)
    requires r.data == "" && r.eventType == "" && OneLine(line)
    ensures Read(r, Frame(line) + more) == Read(r.(events := r.events + [Message(line, r.lastEventId)]), more)
  {
    FrameText(line, more);
    DataIsOneLine(line);
    ReadUnbroken(r, "data: " + line, more);
    FirstDataLine(r, line);
    DispatchLine(r.(data := line + [LF]), line);
  }

  lemma Prefixed(events: seq<Event>, first: Event, others: seq<Event>)
    ensures events + [first] + others == events + ([first] + others)
  {
  }

  lemma {:induction false} ReadAllFrames(r: Reader, lines: seq<string>)
    requires r.data == "" && r.eventType == "" && forall i :: 0 <= i < |lines| ==> OneLine(lines[i])
    ensures Read(r, Frames(lines)) == r.(events := r.events + Messages(lines, r.lastEventId))
    decreases |lines|
  {
    if lines == [] {
      assert r.events + [] == r.events;
    } else {
      var first := Message(lines[0], r.lastEventId);
      var next := r.(events := r.events + [first]);
      ReadWholeFrame(r, lines[0], Frames(lines[1..]));
      ReadAllFrames(next, lines[1..]);
      Prefixed(r.events, first, Messages(lines[1..], r.lastEventId));
    }
  }

  lemma FramesStartWithData(lines: seq<string>)
    ensures Frames(lines) != "" ==> Frames(lines)[0] == 'd'
  {
  }

  // Lines free of CR and LF come back exactly, empty lines and leading blanks or colons included.
  lemma StreamRoundTrip(lines: seq<string>)
    requires forall i :: 0 <= i < |lines| ==> OneLine(lines[i])
    ensures Decode(Frames(lines)) == Messages(lines, "")
  {
    FramesStartWithData(lines);
    ReadAllFrames(FRESH, lines);
    assert FRESH.events + Messages(lines, "") == Messages(lines, "");
  }

  // ---------- a line that contains a break never comes back ----------

  function Volume(lines: seq<string>): nat {
    if lines == [] then 0 else |lines[0]| + Volume(lines[1..])
  }

  lemma {:induction false} VolumeExtends(lines: seq<string>, line: string)
    ensures Volume(lines + [line]) == Volume(lines) + |line|
  {
    if lines == [] {
      assert [line][1..] == [];
    } else {
      assert (lines + [line])[1..] == lines[1..] + [line];
      VolumeExtends(lines[1..], line);
    }
  }

  function Payloads(events: seq<Event>): seq<string> {
    seq(|events|, i requires 0 <= i < |events| => events[i].data)
  }

  // All text received so far, dispatched or buffered.
  function Received(r: Reader): nat {
    Volume(Payloads(r.events)) + |r.data|
  }

  // Every line added to the buffer ends in an LF.
  predicate Buffered(r: Reader) {
    r.data == "" || r.data[|r.data| - 1] == LF
  }

  // A reader between two frames.
  predicate Idle(r: Reader) {
    r.data == "" && r.eventType == ""
  }

  // The LF that ends a buffered message.
  function Pending(r: Reader): nat {
    if r.data == "" then 0 else 1
  }

  lemma DispatchReceives(r: Reader)
    requires Buffered(r)
    ensures Idle(Dispatch(r)) && Received(Dispatch(r)) == Received(r) - Pending(r)
  {
    if r.data != "" {
      var data := r.data[..|r.data| - 1];
      var d := Dispatch(r);
      assert d.events[..|r.events|] == r.events && d.events[|r.events|].data == data;
      assert Payloads(d.events) == Payloads(r.events) + [data];
      VolumeExtends(Payloads(r.events), data);
    }
  }

  lemma LineReceives(r: Reader, line: string)
    requires Buffered(r) && line != ""
    ensures Buffered(ProcessLine(r, line)) && Received(ProcessLine(r, line)) <= Received(r) + |line|
    ensures Pending(r) <= Pending(ProcessLine(r, line))
  {
    assert ProcessLine(r, line).events == r.events;
  }

  lemma StepReceives(r: Reader, line: string)
    requires Buffered(r)
    ensures Buffered(ProcessLine(r, line))
    ensures Received(ProcessLine(r, line)) - Pending(ProcessLine(r, line)) <= Received(r) + |line| - Pending(r)
    ensures Received(Dispatch(ProcessLine(r, line))) <= Received(r) + |line| - Pending(r)
    ensures Idle(Dispatch(ProcessLine(r, line)))
  {
    if line == "" { DispatchReceives(r); } else { LineReceives(r, line); }
    DispatchReceives(ProcessLine(r, line));
  }

  // A text that is not one line, cut at its first break.
  lemma SplitAtBreak(text: string) returns (head: string, ending: string, tail: string)
    requires !OneLine(text)
    ensures text == head + ending + tail && OneLine(head) && Ends(ending, tail)
  {
    var i := LineEnd(text);
    if i == |text| {
      assert forall k :: 0 <= k < |text| ==> !IsBreak(text[k]);
      assert false;
    }
    var n := BreakLength(text, i);
    head, ending, tail := text[..i], text[i..i + n], text[i + n..];
    forall c | c in head ensures !IsBreak(c) {
      var k :| 0 <= k < |head| && head[k] == c;
      assert c == text[k];
    }
  }

  // Two LFs after a text that was cut: a CR at its end takes the first of them as its own.
  lemma ReadCut(r: Reader, head: string, ending: string, tail: string, more: string)
    requires OneLine(head) && Ends(ending, tail)
    ensures Read(r, head + ending + tail + END + more)
         == if ending == [CR] && tail == "" then Read(Dispatch(ProcessLine(r, head)), more)
            else Read(ProcessLine(r, head), tail + END + more)
  {
    var s := head + ending + tail + END + more;
    if ending == [CR] && tail == "" {
      assert s == head + ([CR, LF] + ("" + ([LF] + more)));
      ReadOne(r, head, [CR, LF], "" + ([LF] + more));
      ReadOne(ProcessLine(r, head), "", [LF], more);
    } else {
      var rest := tail + END + more;
      assert s == head + (ending + rest);
      assert rest[0] == if tail == "" then LF else tail[0];
      ReadOne(r, head, ending, rest);
    }
  }

  // Whatever the text before the two LFs says, the reader is idle after them and received no more than that text.
  lemma {:induction false} ReadTail(r: Reader, text: string, more: string) returns (next: Reader)
    requires Buffered(r)
    ensures Read(r, text + END + more) == Read(next, more)
    ensures Idle(next) && Received(next) <= Received(r) + |text| - Pending(r)
    decreases |text|
  {
    if OneLine(text) {
      ReadUnbroken(r, text, more);
      StepReceives(r, text);
      next := Dispatch(ProcessLine(r, text));
    } else {
      var head, ending, tail := SplitAtBreak(text);
      ReadCut(r, head, ending, tail, more);
      StepReceives(r, head);
      if ending == [CR] && tail == "" {
        next := Dispatch(ProcessLine(r, head));
      } else {
        next := ReadTail(ProcessLine(r, head), tail, more);
      }
    }
  }

  // A broken line loses at least its first break.
  lemma ReadBrokenFrame(r: Reader, line: string, more: string) returns (next: Reader)
    requires Idle(r) && !OneLine(line)
    ensures Read(r, Frame(line) + more) == Read(next, more)
    ensures Idle(next) && Received(next) < Received(r) + |line|
  {
    var head, ending, tail := SplitAtBreak(line);
    var q := r.(data := head + [LF]);
    FirstDataLine(r, head);
    FrameText(line, more);
    assert "data: " + (head + ending + tail) == "data: " + head + ending + tail;
    DataIsOneLine(head);
    ReadCut(r, "data: " + head, ending, tail, more);
    if ending == [CR] && tail == "" {
      DispatchReceives(q);
      next := Dispatch(q);
    } else {
      next := ReadTail(q, tail, more);
    }
  }

  lemma {:induction false} FramesReceive(r: Reader, lines: seq<string>) returns (last: Reader)
    requires Idle(r)
    ensures Read(r, Frames(lines)) == last && Idle(last)
    ensures Received(last) <= Received(r) + Volume(lines)
    ensures (exists i :: 0 <= i < |lines| && !OneLine(lines[i])) ==> Received(last) < Received(r) + Volume(lines)
    decreases |lines|
  {
    if lines == [] {
      last := r;
    } else {
      var next: Reader;
      var more := Frames(lines[1..]);
      if OneLine(lines[0]) {
        ReadWholeFrame(r, lines[0], more);
        next := r.(events := r.events + [Message(lines[0], r.lastEventId)]);
        assert Payloads(next.events) == Payloads(r.events) + [lines[0]];
        VolumeExtends(Payloads(r.events), lines[0]);
      } else {
        next := ReadBrokenFrame(r, lines[0], more);
      }
      last := FramesReceive(next, lines[1..]);
      if i :| 0 < i < |lines| && !OneLine(lines[i]) {
        assert lines[1..][i - 1] == lines[i];
      }
    }
  }

  // The client reads back the published lines exactly when none of them contains a CR or LF.
  lemma StreamRoundTripIff(lines: seq<string>)
    ensures Payloads(Decode(Frames(lines))) == lines <==> forall i :: 0 <= i < |lines| ==> OneLine(lines[i])
  {
    if forall i :: 0 <= i < |lines| ==> OneLine(lines[i]) {
      StreamRoundTrip(lines);
    } else {
      FramesStartWithData(lines);
      var last := FramesReceive(FRESH, lines);
      assert Payloads(FRESH.events) == [];
    }
  }
}
