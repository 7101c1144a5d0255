/** The writer behind a child's stdout or stderr, as a bulk loop over an
    append-and-truncate buffer. */
module ProcessLog {
  import opened Sequences
  import opened Utf8
  import opened Fragmenter

  /** bytes.IndexByte: the first position of b, or -1. */
  function IndexByte(s: seq<byte>, b: byte): (i: int)
    ensures -1 <= i < |s|
    ensures i == -1 ==> b !in s
    ensures i >= 0 ==> s[i] == b && b !in s[..i]
  {
    if s == [] then -1
    else if s[0] == b then 0
    else
      var i := IndexByte(s[1..], b);
      if i < 0 then -1
      else assert s[..i + 1] == [s[0]] + s[1..][..i]; i + 1
  }

  /** bytes.TrimSuffix with a newline. */
  function TrimNewline(s: seq<byte>): seq<byte> {
    if s != [] && s[|s| - 1] == NEWLINE then s[..|s| - 1] else s
  }

  function Texts(fs: seq<Fragment>): (ts: seq<seq<byte>>)
    ensures |ts| == |fs| && forall i | 0 <= i < |fs| :: ts[i] == fs[i].text
  {
    if fs == [] then [] else Texts(fs[..|fs| - 1]) + [fs[|fs| - 1].text]
  }

  class Writer {
    var pending: seq<byte>
    /** The messages given to sendTelemetryLog, oldest first. */
    var messages: seq<seq<byte>>
    /** The same messages with the reason each was sent. */
    ghost var history: seq<Fragment>

    ghost predicate Valid()
      reads this
    {
      Ready(State()) && messages == Texts(history)
    }

    ghost function State(): Log
      reads this
    {
      Log(pending, history)
    }

    constructor ()
      ensures Valid() && State() == EMPTY
    {
      pending, messages, history := [], [], [];
    }

    method Emit(ghost ending: Ending)
      requires messages == Texts(history)
      modifies this
      ensures pending == []
      ensures history == old(history) + [Fragment(TrimNewline(old(pending)), ending)]
      ensures messages == Texts(history)
    {
      var line := TrimNewline(pending);
      history := history + [Fragment(line, ending)];
      messages := messages + [line];
      pending := [];
      assert history[..|history| - 1] == old(history);
    }

    /** Cuts the full buffer so that no rune that could still be completed is
        sent in two pieces. */
    method SplitFull()
      requires messages == Texts(history)
      requires |pending| == LOG_FRAGMENT_SIZE && NEWLINE !in pending
      modifies this
      ensures pending == old(pending)[CutPoint(old(pending))..]
      ensures history == old(history) + [Fragment(old(pending)[..CutPoint(old(pending))], Split)]
      ensures messages == Texts(history)
    {
      CutLeavesRoom(pending);
      WholeSlice(pending);
      var last := |pending| - 1;
      while last > 0 && !RuneStart(pending[last])
        invariant 0 <= last < |pending|
        invariant LastStart(pending, last) == LastStart(pending, |pending| - 1)
      {
        last := last - 1;
      }
      if !FullRune(pending[last..]) {
        var tail := pending[last..];
        pending := pending[..last];
        Emit(Split);
        pending := pending + tail;
      } else {
        Emit(Split);
      }
    }

    /** Writes data. However a child's output is cut into writes, the buffer and
        the messages are those of the one-byte machine. */
    method Write(data: seq<byte>) returns (size: nat)
      requires Valid()
      modifies this
      ensures Valid()
      ensures State() == Feed(old(State()), data)
      ensures size == |data|
    {
      size := |data|;
      var rest := data;
      ghost var start := State();
      while |rest| > 0
        invariant Valid()
        invariant Feed(State(), rest) == Feed(start, data)
      {
        var limit := if |rest| < LOG_FRAGMENT_SIZE - |pending| then |rest| else LOG_FRAGMENT_SIZE - |pending|;
        var newline := IndexByte(rest[..limit], NEWLINE);
        if newline >= 0 {
          assert rest[..limit][..newline] == rest[..newline];
          limit := newline + 1;
        }
        FeedTurn(State(), rest, limit);
        pending := pending + rest[..limit];
        rest := rest[limit..];
        if newline >= 0 {
          Emit(Newline);
        } else if |pending| == LOG_FRAGMENT_SIZE {
          SplitFull();
        }
      }
    }

    /** Sends what is left when the process has ended. */
    method Flush()
      requires Valid()
      modifies this
      ensures Valid()
      ensures State() == Flushed(old(State()))
    {
      if |pending| > 0 {
        Emit(Final);
      }
    }
  }

  /** Two writes are one write of both chunks, and a child whose output arrives
      in any two pieces leaves the transcript of the whole output. */
  method WriteInTwo(a: seq<byte>, b: seq<byte>) returns (messages: seq<seq<byte>>)
    ensures messages == Texts(Transcript(a + b))
  {
    FeedConcat(EMPTY, a, b);
    var log := new Writer();
    var _ := log.Write(a);
    var _ := log.Write(b);
    log.Flush();
    return log.messages;
  }
}
