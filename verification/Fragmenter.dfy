/** The child-log fragmenter: a machine that takes one byte at a time, and what
    holds of everything it sends. ProcessLog.dfy has the bulk writer. */
module Fragmenter {
  import opened Sequences
  import opened Utf8

  const LOG_FRAGMENT_SIZE: nat := 16 * 1024

  const NEWLINE: byte := 10

  /** Why a fragment was sent: a newline ended it, the buffer was full, or the
      process had ended. The receiver only sees the text. */
  datatype Ending = Newline | Split | Final

  datatype Fragment = Fragment(text: seq<byte>, ending: Ending)

  datatype Log = Log(pending: seq<byte>, sent: seq<Fragment>)

  const EMPTY := Log([], [])

  /** Between writes there is always room, and a newline is never held back. */
  predicate Ready(l: Log) {
    |l.pending| < LOG_FRAGMENT_SIZE && NEWLINE !in l.pending
  }

  // ------------------------------------------------------------- The machine

  /** The last rune start at or before i, or 0. */
  function LastStart(p: seq<byte>, i: nat): (last: nat)
    requires i < |p|
    ensures last <= i
    ensures last > 0 ==> RuneStart(p[last])
    ensures forall k | last < k <= i :: !RuneStart(p[k])
  {
    if i > 0 && !RuneStart(p[i]) then LastStart(p, i - 1) else i
  }

  /** How much of a full buffer to send: all of it, unless the last rune could
      still be completed. */
  function CutPoint(p: seq<byte>): (cut: nat)
    requires p != []
    ensures cut <= |p|
    ensures |p| >= 4 ==> cut >= |p| - 3
  {
    var last := LastStart(p, |p| - 1);
    if FullRune(p[last..]) then |p| else last
  }

  function Step(l: Log, b: byte): Log {
    var p := l.pending + [b];
    if b == NEWLINE then
      Log([], l.sent + [Fragment(l.pending, Newline)])
    else if |p| == LOG_FRAGMENT_SIZE then
      var cut := CutPoint(p);
      Log(p[cut..], l.sent + [Fragment(p[..cut], Split)])
    else
      Log(p, l.sent)
  }

  function Feed(l: Log, data: seq<byte>): Log
    decreases |data|
  {
    if data == [] then l else Feed(Step(l, data[0]), data[1..])
  }

  function Flushed(l: Log): Log {
    if l.pending == [] then l else Log([], l.sent + [Fragment(l.pending, Final)])
  }

  /** Everything a child writes before it exits, however it was chunked. */
  function Transcript(data: seq<byte>): seq<Fragment> {
    Flushed(Feed(EMPTY, data)).sent
  }

  // ------------------------------------------------- Chunking does not matter

  lemma {:induction false} FeedConcat(l: Log, a: seq<byte>, b: seq<byte>)
    ensures Feed(l, a + b) == Feed(Feed(l, a), b)
    decreases |a|
  {
    if a == [] {
      EmptyIsUnit(b);
    } else {
      FeedConcat(Step(l, a[0]), a[1..], b);
      CutInFirst(a, b, 1);
    }
  }

  /** Bytes that neither end a line nor fill the buffer are only kept. */
  lemma {:induction false} FeedQuiet(l: Log, a: seq<byte>)
    requires NEWLINE !in a && |l.pending| + |a| < LOG_FRAGMENT_SIZE
    ensures Feed(l, a) == Log(l.pending + a, l.sent)
    decreases |a|
  {
    if a == [] {
      EmptyIsUnit(l.pending);
    } else {
      FeedQuiet(Step(l, a[0]), a[1..]);
      ConcatAssoc(l.pending, [a[0]], a[1..]);
      assert [a[0]] + a[1..] == a;
    }
  }

  /** A chunk whose last byte is the first that may send something. */
  lemma FeedChunk(l: Log, chunk: seq<byte>)
    requires chunk != [] && |l.pending| + |chunk| <= LOG_FRAGMENT_SIZE
    requires NEWLINE !in chunk[..|chunk| - 1]
    ensures Feed(l, chunk)
         == Step(Log(l.pending + chunk[..|chunk| - 1], l.sent), chunk[|chunk| - 1])
    ensures l.pending + chunk == (l.pending + chunk[..|chunk| - 1]) + [chunk[|chunk| - 1]]
  {
    var init, last := chunk[..|chunk| - 1], chunk[|chunk| - 1];
    assert chunk == init + [last];
    FeedConcat(l, init, [last]);
    FeedQuiet(l, init);
    var mid := Feed(l, init);
    assert Feed(mid, [last]) == Feed(Step(mid, last), []);
    ConcatAssoc(l.pending, init, [last]);
  }

  /** One turn of the bulk loop: the first limit bytes of rest, of which only the
      last may send something. */
  lemma FeedTurn(l: Log, rest: seq<byte>, limit: nat)
    requires Ready(l) && 0 < limit <= |rest| && |l.pending| + limit <= LOG_FRAGMENT_SIZE
    requires NEWLINE !in rest[..limit - 1]
    ensures var kept := Log(l.pending + rest[..limit - 1], l.sent);
            && kept.pending + [rest[limit - 1]] == l.pending + rest[..limit]
            && Ready(Step(kept, rest[limit - 1]))
            && Feed(l, rest) == Feed(Step(kept, rest[limit - 1]), rest[limit..])
  {
    var chunk := rest[..limit];
    assert chunk[..limit - 1] == rest[..limit - 1];
    FeedChunk(l, chunk);
    SplitJoins(rest, limit);
    FeedConcat(l, chunk, rest[limit..]);
    FeedConserves(l, chunk);
  }

  // ------------------------------------------------------------ Conservation

  /** The bytes a fragment stands for. */
  function Source(f: Fragment): seq<byte> {
    if f.ending == Newline then f.text + [NEWLINE] else f.text
  }

  function Rebuilt(fs: seq<Fragment>): seq<byte> {
    if fs == [] then [] else Rebuilt(fs[..|fs| - 1]) + Source(fs[|fs| - 1])
  }

  lemma RebuiltSnoc(fs: seq<Fragment>, f: Fragment)
    ensures Rebuilt(fs + [f]) == Rebuilt(fs) + Source(f)
  {
  }

  lemma StepConserves(l: Log, b: byte)
    requires Ready(l)
    ensures Ready(Step(l, b))
    ensures Rebuilt(Step(l, b).sent) + Step(l, b).pending == Rebuilt(l.sent) + l.pending + [b]
  {
    var l', p := Step(l, b), l.pending + [b];
    ConcatAssoc(Rebuilt(l.sent), l.pending, [b]);
    if b == NEWLINE {
      RebuiltSnoc(l.sent, Fragment(l.pending, Newline));
      EmptyIsUnit(Rebuilt(l'.sent));
    } else if |p| == LOG_FRAGMENT_SIZE {
      var cut := CutPoint(p);
      RebuiltSnoc(l.sent, Fragment(p[..cut], Split));
      ConcatAssoc(Rebuilt(l.sent), p[..cut], p[cut..]);
      SplitJoins(p, cut);
      CutLeavesRoom(p);
    }
  }

  /** What a split keeps back is shorter than a code point's encoding, and
      nothing it handles is a newline. */
  lemma CutLeavesRoom(p: seq<byte>)
    requires |p| >= 4 && NEWLINE !in p
    ensures |p[CutPoint(p)..]| <= 3
    ensures NEWLINE !in p[..CutPoint(p)] && NEWLINE !in p[CutPoint(p)..]
  {
  }

  /** Nothing is lost, duplicated or reordered: what was sent, with its
      newlines put back, and what is pending spell the input. */
  lemma {:induction false} FeedConserves(l: Log, data: seq<byte>)
    requires Ready(l)
    ensures Ready(Feed(l, data))
    ensures Rebuilt(Feed(l, data).sent) + Feed(l, data).pending
         == Rebuilt(l.sent) + l.pending + data
    decreases |data|
  {
    if data == [] {
      EmptyIsUnit(Rebuilt(l.sent) + l.pending);
    } else {
      StepConserves(l, data[0]);
      FeedConserves(Step(l, data[0]), data[1..]);
      ConcatAssoc(Rebuilt(l.sent) + l.pending, [data[0]], data[1..]);
      assert [data[0]] + data[1..] == data;
    }
  }

  /** After the flush, the transcript alone spells the input. */
  lemma TranscriptConserves(data: seq<byte>)
    ensures Rebuilt(Transcript(data)) == data
  {
    var l := Feed(EMPTY, data);
    FeedConserves(EMPTY, data);
    EmptyIsUnit(data);
    EmptyIsUnit(Rebuilt(l.sent));
    EmptyIsUnit(Rebuilt(EMPTY.sent));
    RebuiltSnoc(l.sent, Fragment(l.pending, Final));
  }

  // ------------------------------------------------------------------ Bounds

  predicate WellSized(f: Fragment) {
    && NEWLINE !in f.text
    && match f.ending
       case Newline => |f.text| < 16384
       case Split => 16381 <= |f.text| <= 16384
       case Final => 0 < |f.text| < 16384
  }

  lemma StepBounds(l: Log, b: byte)
    requires Ready(l) && forall f | f in l.sent :: WellSized(f)
    ensures forall f | f in Step(l, b).sent :: WellSized(f)
  {
  }

  lemma {:induction false} FeedBounds(l: Log, data: seq<byte>)
    requires Ready(l) && forall f | f in l.sent :: WellSized(f)
    ensures forall f | f in Feed(l, data).sent :: WellSized(f)
    decreases |data|
  {
    if data != [] {
      StepConserves(l, data[0]);
      StepBounds(l, data[0]);
      FeedBounds(Step(l, data[0]), data[1..]);
    }
  }

  /** No fragment holds a newline or exceeds the limit, and a line is split
      only within three bytes of it, for arbitrary bytes. */
  lemma TranscriptBounds(data: seq<byte>)
    ensures forall f | f in Transcript(data) :: WellSized(f)
  {
    FeedBounds(EMPTY, data);
    FeedConserves(EMPTY, data);
  }

  // ------------------------------------------------------------- Short lines

  predicate NeverSplit(fs: seq<Fragment>) {
    forall f | f in fs :: f.ending != Split
  }

  /** Every stretch without a newline is shorter than the limit. */
  predicate ShortLines(s: seq<byte>) {
    forall i, j | 0 <= i <= j <= |s| && NEWLINE !in s[i..j] :: j - i < 16384
  }

  lemma SuffixSlice(a: seq<byte>, b: seq<byte>, i: nat, j: nat)
    requires i <= j <= |b|
    ensures (a + b)[|a| + i..|a| + j] == b[i..j]
  {
  }

  lemma FreeSlice(s: seq<byte>, i: nat, j: nat)
    requires i <= j <= |s|
    ensures NEWLINE !in s[i..j] <==> forall m | i <= m < j :: s[m] != NEWLINE
  {
  }

  lemma ShortLinesAfterNewline(line: seq<byte>, rest: seq<byte>)
    requires |line| < LOG_FRAGMENT_SIZE
    ensures ShortLines((line + [NEWLINE]) + rest) <==> ShortLines(rest)
  {
    var head := line + [NEWLINE];
    var s, k := head + rest, |head|;
    if ShortLines(s) {
      forall i, j | 0 <= i <= j <= |rest| && NEWLINE !in rest[i..j]
        ensures j - i < LOG_FRAGMENT_SIZE
      {
        SuffixSlice(head, rest, i, j);
        assert NEWLINE !in s[k + i..k + j];
      }
    }
    if ShortLines(rest) {
      forall i, j | 0 <= i <= j <= |s| && NEWLINE !in s[i..j]
        ensures j - i < LOG_FRAGMENT_SIZE
      {
        if i >= k {
          SuffixSlice(head, rest, i - k, j - k);
          assert NEWLINE !in rest[i - k..j - k];
        } else {
          FreeSlice(s, i, j);
          assert s[|line|] == NEWLINE;
        }
      }
    }
  }

  lemma StepSplitsIff(l: Log, b: byte, rest: seq<byte>)
    requires Ready(l)
    ensures NeverSplit(Step(l, b).sent) && ShortLines(Step(l, b).pending + rest)
       <==> NeverSplit(l.sent) && ShortLines((l.pending + [b]) + rest)
  {
    var p := l.pending + [b];
    if b == NEWLINE {
      NeverSplitSnoc(l.sent, Fragment(l.pending, Newline));
      ShortLinesAfterNewline(l.pending, rest);
      EmptyIsUnit(rest);
    } else if |p| == LOG_FRAGMENT_SIZE {
      NeverSplitSnoc(l.sent, Fragment(p[..CutPoint(p)], Split));
      CutInFirst(p, rest, |p|);
      WholeSlice(p);
      assert (p + rest)[0..|p|] == p;
    }
  }

  lemma {:induction false} FeedSplitsIff(l: Log, data: seq<byte>)
    requires Ready(l)
    ensures NeverSplit(Feed(l, data).sent) <==> NeverSplit(l.sent) && ShortLines(l.pending + data)
    decreases |data|
  {
    if data == [] {
      ReadyIsShort(l);
      EmptyIsUnit(l.pending);
    } else {
      StepConserves(l, data[0]);
      StepSplitsIff(l, data[0], data[1..]);
      FeedSplitsIff(Step(l, data[0]), data[1..]);
      ConcatAssoc(l.pending, [data[0]], data[1..]);
      assert [data[0]] + data[1..] == data;
    }
  }

  lemma ReadyIsShort(l: Log)
    requires Ready(l)
    ensures ShortLines(l.pending)
  {
  }

  lemma NeverSplitSnoc(fs: seq<Fragment>, f: Fragment)
    ensures NeverSplit(fs + [f]) <==> NeverSplit(fs) && f.ending != Split
  {
  }

  /** Lines arrive whole exactly when none reaches the limit. */
  lemma LinesArriveWholeIff(data: seq<byte>)
    ensures NeverSplit(Transcript(data)) <==> ShortLines(data)
  {
    var l := Feed(EMPTY, data);
    FeedSplitsIff(EMPTY, data);
    EmptyIsUnit(data);
    NeverSplitSnoc(l.sent, Fragment(l.pending, Final));
  }

  // ----------------------------------------------------------- Valid fragments

  predicate AllValid(fs: seq<Fragment>) {
    forall f | f in fs :: Valid(f.text)
  }

  /** Valid text may be cut before the last rune start of any part of it. */
  lemma LastStartKeepsValid(p: seq<byte>, rest: seq<byte>)
    requires p != [] && Valid(p + rest)
    ensures var last := LastStart(p, |p| - 1);
            Valid(p[..last]) && Valid(p[last..] + rest)
  {
    var last := LastStart(p, |p| - 1);
    if last == 0 {
      assert p[..0] == [] && p[0..] == p;
    } else {
      SplitJoins(p, last);
      ConcatAssoc(p[..last], p[last..], rest);
      CutAtRuneStart(p[..last], p[last..] + rest);
    }
  }

  /** A full buffer that valid text continues is cut between code points. */
  lemma CutKeepsValid(p: seq<byte>, rest: seq<byte>)
    requires p != [] && Valid(p + rest)
    ensures Valid(p[..CutPoint(p)]) && Valid(p[CutPoint(p)..] + rest)
  {
    var last := LastStart(p, |p| - 1);
    LastStartKeepsValid(p, rest);
    if FullRune(p[last..]) {
      FullTailIsChar(p[last..], rest);
      CharIsValid(p[last..]);
      ValidConcat(p[..last], p[last..]);
      SplitJoins(p, last);
      WholeSlice(p);
      EmptyIsUnit(rest);
    }
  }

  lemma StepKeepsValid(l: Log, b: byte, rest: seq<byte>)
    requires AllValid(l.sent) && Valid(l.pending + ([b] + rest))
    ensures AllValid(Step(l, b).sent) && Valid(Step(l, b).pending + rest)
  {
    var p := l.pending + [b];
    ConcatAssoc(l.pending, [b], rest);
    if b == NEWLINE {
      CutAtRuneStart(l.pending, [b] + rest);
      var c, more := FirstChar([b] + rest);
      CharSizeIsForced(c);
      assert c[0] == ([b] + rest)[0];
      CutInFirst([b], rest, 1);
      CutInFirst(c, more, 1);
      EmptyIsUnit(rest);
    } else if |p| == LOG_FRAGMENT_SIZE {
      CutKeepsValid(p, rest);
    }
  }

  lemma {:induction false} FeedKeepsValid(l: Log, data: seq<byte>)
    requires AllValid(l.sent) && Valid(l.pending + data)
    ensures AllValid(Feed(l, data).sent) && Valid(Feed(l, data).pending)
    decreases |data|
  {
    if data == [] {
      EmptyIsUnit(l.pending);
    } else {
      assert [data[0]] + data[1..] == data;
      StepKeepsValid(l, data[0], data[1..]);
      FeedKeepsValid(Step(l, data[0]), data[1..]);
    }
  }

  lemma {:induction false} RebuiltValid(fs: seq<Fragment>)
    requires AllValid(fs)
    ensures Valid(Rebuilt(fs))
  {
    if fs != [] {
      var f := fs[|fs| - 1];
      RebuiltValid(fs[..|fs| - 1]);
      CharIsValid([NEWLINE]);
      ValidConcat(f.text, [NEWLINE]);
      ValidConcat(Rebuilt(fs[..|fs| - 1]), Source(f));
    }
  }

  /** Every fragment is valid UTF-8 exactly when the whole output was: runes
      are never split, and invalid bytes are never hidden. */
  lemma TranscriptValid(data: seq<byte>)
    ensures AllValid(Transcript(data)) <==> Valid(data)
  {
    if Valid(data) {
      EmptyIsUnit(data);
      FeedKeepsValid(EMPTY, data);
    }
    if AllValid(Transcript(data)) {
      RebuiltValid(Transcript(data));
      TranscriptConserves(data);
    }
  }
}
