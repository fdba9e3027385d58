/** The log summary: split at newlines, keep the last fifty pieces, join, keep the last four thousand bytes. */
module Summary {

  newtype byte = x: int | 0 <= x < 256

  const NEWLINE: byte := 10
  const SUMMARY_LINES := 50
  const SUMMARY_BYTES := 4000

  function Newlines(x: seq<byte>): nat {
    if x == [] then 0 else (if x[0] == NEWLINE then 1 else 0) + Newlines(x[1..])
  }

  // bytes.Split
  function Split(x: seq<byte>): (pieces: seq<seq<byte>>)
    ensures |pieces| == Newlines(x) + 1
  {
    if x == [] then [[]]
    else
      var rest := Split(x[1..]);
      if x[0] == NEWLINE then [[]] + rest else [[x[0]] + rest[0]] + rest[1..]
  }

  // bytes.Join
  function Join(pieces: seq<seq<byte>>): seq<byte> {
    if pieces == [] then []
    else if |pieces| == 1 then pieces[0]
    else pieces[0] + [NEWLINE] + Join(pieces[1..])
  }

  function ExtractSummary(x: seq<byte>): seq<byte> {
    var lines := Split(x);
    var start := if |lines| - SUMMARY_LINES < 0 then 0 else |lines| - SUMMARY_LINES;
    LastBytes(Join(lines[start..]))
  }

  function LastBytes(text: seq<byte>): seq<byte> {
    if |text| > SUMMARY_BYTES then text[|text| - SUMMARY_BYTES..] else text
  }

  predicate IsSuffix(s: seq<byte>, x: seq<byte>) {
    |s| <= |x| && s == x[|x| - |s|..]
  }

  // Joining what was split gives the text back.
  lemma {:induction false} JoinSplit(x: seq<byte>)
    ensures Join(Split(x)) == x
  {
    if x != [] {
      var rest := Split(x[1..]);
      JoinSplit(x[1..]);
      if x[0] == NEWLINE {
        assert ([[]] + rest)[1..] == rest;
      } else if |rest| > 1 {
        assert ([[x[0]] + rest[0]] + rest[1..])[1..] == rest[1..];
        assert [x[0]] + rest[0] + [NEWLINE] + Join(rest[1..]) == [x[0]] + (rest[0] + [NEWLINE] + Join(rest[1..]));
      }
    }
  }

  // The pieces from the k-th on join to a suffix of the text that starts the text or follows a newline.
  lemma {:induction false} TailIsSuffix(x: seq<byte>, k: nat) returns (at: nat)
    requires k < |Split(x)|
    ensures at <= |x| && Join(Split(x)[k..]) == x[at..]
    ensures Newlines(x[at..]) == |Split(x)| - 1 - k
    ensures if k == 0 then at == 0 else at > 0 && x[at - 1] == NEWLINE
  {
    if k == 0 {
      JoinSplit(x);
      assert Split(x)[0..] == Split(x) && x[0..] == x;
      at := 0;
    } else if x[0] == NEWLINE {
      assert Split(x)[k..] == Split(x[1..])[k - 1..];
      var rest := TailIsSuffix(x[1..], k - 1);
      assert x[1..][rest..] == x[rest + 1..];
      at := rest + 1;
    } else {
      assert Split(x)[k..] == Split(x[1..])[k..];
      var rest := TailIsSuffix(x[1..], k);
      assert x[1..][rest..] == x[rest + 1..];
      at := rest + 1;
    }
  }

  lemma {:induction false} LongerSuffixHasMore(x: seq<byte>, p: nat, q: nat)
    requires p <= q <= |x|
    ensures Newlines(x[p..]) >= Newlines(x[q..])
    decreases q - p
  {
    if p < q {
      assert x[p..][1..] == x[p + 1..];
      LongerSuffixHasMore(x, p + 1, q);
    }
  }

  // A suffix that reaches back over a newline has more newlines than what follows it.
  lemma ReachingBackCounts(x: seq<byte>, from: nat, at: nat)
    requires from < at <= |x| && x[at - 1] == NEWLINE
    ensures Newlines(x[from..]) >= Newlines(x[at..]) + 1
  {
    LongerSuffixHasMore(x, from, at - 1);
    assert x[at - 1..][1..] == x[at..];
  }

  // The last bytes of a suffix are a suffix with no more newlines.
  lemma CutSuffix(x: seq<byte>, at: nat) returns (from: nat)
    requires at <= |x|
    ensures at <= from <= |x| && LastBytes(x[at..]) == x[from..] && |x| - from <= SUMMARY_BYTES
    ensures Newlines(x[from..]) <= Newlines(x[at..])
    ensures from == at || |x| - from == SUMMARY_BYTES
  {
    from := if |x| - at > SUMMARY_BYTES then |x| - SUMMARY_BYTES else at;
    assert x[at..][from - at..] == x[from..];
    LongerSuffixHasMore(x, at, from);
  }

  // Where the summary starts: it fits, and starting any earlier would take a byte or a newline too many.
  lemma SummaryStart(x: seq<byte>) returns (from: nat)
    ensures from <= |x| && ExtractSummary(x) == x[from..]
    ensures Newlines(x[from..]) <= SUMMARY_LINES - 1 && |x| - from <= SUMMARY_BYTES
    ensures from == 0 || |x| - from == SUMMARY_BYTES
            || (x[from - 1] == NEWLINE && Newlines(x[from..]) == SUMMARY_LINES - 1)
  {
    var total := |Split(x)|;
    var at := TailIsSuffix(x, if total - SUMMARY_LINES < 0 then 0 else total - SUMMARY_LINES);
    from := CutSuffix(x, at);
  }

  lemma {:induction false} NewlinesAreTens(x: seq<byte>)
    ensures Newlines(x) == multiset(x)[10]
  {
    if x != [] {
      NewlinesAreTens(x[1..]);
      assert x == [x[0]] + x[1..];
    }
  }

  // The summary is the longest suffix of the log with at most 49 line feeds and at most 4000 bytes.
  lemma SummaryIsLongestSuffix(x: seq<byte>, s: seq<byte>)
    ensures var summary := ExtractSummary(x);
            && IsSuffix(summary, x) && multiset(summary)[10] <= 49 && |summary| <= 4000
            && (IsSuffix(s, x) && multiset(s)[10] <= 49 && |s| <= 4000 ==> |s| <= |summary|)
  {
    var from := SummaryStart(x);
    NewlinesAreTens(x[from..]);
    NewlinesAreTens(s);
    if IsSuffix(s, x) && Newlines(s) <= 49 && |s| <= 4000 && |s| > |x| - from && |x| - from < 4000 {
      ReachingBackCounts(x, |x| - |s|, from);
    }
  }
}
