/** Every fragment is cut where the bytes of the output say, and nowhere else. */
module FragmenterLaws {
  import opened Sequences
  import opened Utf8
  import opened Fragmenter

  /** More bytes could still make one encoded code point of t. */
  ghost predicate Incomplete(t: seq<byte>) {
    t != [] && exists c :: IsChar(c) && t < c
  }

  /** How much of a full buffer is sent: up to the one tail that is incomplete, or
      all of it if there is none. */
  ghost predicate CutOfFull(p: seq<byte>, cut: nat) {
    && cut <= |p|
    && if cut == |p| then forall m | 0 <= m < |p| :: !Incomplete(p[m..]) else Incomplete(p[cut..])
  }

  lemma IncompleteStartsOnce(t: seq<byte>)
    requires Incomplete(t)
    ensures RuneStart(t[0]) && forall i | 1 <= i < |t| :: !RuneStart(t[i])
  {
    var c :| IsChar(c) && t < c;
    CharStartsOnce(c);
    assert forall i | 0 <= i < |t| :: t[i] == c[i];
  }

  lemma IncompleteIsLast(p: seq<byte>, m: nat)
    requires m < |p| && Incomplete(p[m..])
    ensures m == LastStart(p, |p| - 1)
  {
    IncompleteStartsOnce(p[m..]);
    assert p[m..][0] == p[m];
    assert forall k | m < k < |p| :: p[k] == p[m..][k - m];
  }

  lemma CutPointIsForced(p: seq<byte>)
    requires p != []
    ensures CutOfFull(p, CutPoint(p))
  {
    var last := LastStart(p, |p| - 1);
    FullRuneMeaning(p[last..]);
    if CutPoint(p) == |p| {
      forall m | 0 <= m < |p|
        ensures !Incomplete(p[m..])
      {
        if Incomplete(p[m..]) {
          IncompleteIsLast(p, m);
        }
      }
    }
  }

  /** Why a fragment that stands at i ends where it does. */
  ghost predicate Justified(data: seq<byte>, i: nat, f: Fragment) {
    var j := i + |f.text|;
    && j <= |data| && f.text == data[i..j]
    && match f.ending
       case Newline => j < |data| && data[j] == NEWLINE
       case Final => j == |data|
       case Split =>
         && i + 16384 <= |data|
         && NEWLINE !in data[i..i + 16384]
         && CutOfFull(data[i..i + 16384], |f.text|)
  }

  /** Where the k-th fragment stands. */
  function Offset(fs: seq<Fragment>, k: nat): nat
    requires k <= |fs|
  {
    |Rebuilt(fs[..k])|
  }

  ghost predicate AllJustified(data: seq<byte>, fs: seq<Fragment>) {
    forall k: nat | k < |fs| :: Justified(data, Offset(fs, k), fs[k])
  }

  lemma SliceOfPrefix(a: seq<byte>, b: seq<byte>, i: nat, j: nat)
    requires i <= j <= |a|
    ensures (a + b)[i..j] == a[i..j]
  {
  }

  lemma StaysJustified(data: seq<byte>, more: seq<byte>, i: nat, f: Fragment)
    requires Justified(data, i, f) && f.ending != Final
    ensures Justified(data + more, i, f)
  {
    SliceOfPrefix(data, more, i, i + |f.text|);
    if f.ending == Split {
      SliceOfPrefix(data, more, i, i + 16384);
    }
  }

  /** One more fragment after others that stay justified. */
  lemma OneMoreJustified(data: seq<byte>, fs: seq<Fragment>, f: Fragment)
    requires AllJustified(data, fs) && Justified(data, |Rebuilt(fs)|, f)
    ensures AllJustified(data, fs + [f])
  {
    var all := fs + [f];
    forall k: nat | k < |all|
      ensures Justified(data, Offset(all, k), all[k])
    {
      CutInFirst(fs, [f], k);
      if k == |fs| {
        WholeSlice(fs);
      } else {
        assert Justified(data, Offset(fs, k), fs[k]);
      }
    }
  }

  lemma AllStayJustified(data: seq<byte>, more: seq<byte>, fs: seq<Fragment>)
    requires AllJustified(data, fs) && forall f | f in fs :: f.ending != Final
    ensures AllJustified(data + more, fs)
  {
    forall k: nat | k < |fs|
      ensures Justified(data + more, Offset(fs, k), fs[k])
    {
      StaysJustified(data, more, Offset(fs, k), fs[k]);
    }
  }

  lemma TailOfJoin(a: seq<byte>, b: seq<byte>)
    ensures (a + b)[|a|..|a| + |b|] == b
  {
  }

  /** What the machine has consumed, and what it has made of it. */
  ghost predicate Consumed(data: seq<byte>, l: Log) {
    && Ready(l) && Rebuilt(l.sent) + l.pending == data
    && AllJustified(data, l.sent)
    && forall f | f in l.sent :: f.ending != Final
  }

  lemma SplitIsJustified(data: seq<byte>, sent: seq<Fragment>, p: seq<byte>)
    requires data == Rebuilt(sent) + p && |p| == LOG_FRAGMENT_SIZE && NEWLINE !in p
    ensures Justified(data, |Rebuilt(sent)|, Fragment(p[..CutPoint(p)], Split))
  {
    var i := |Rebuilt(sent)|;
    TailOfJoin(Rebuilt(sent), p);
    CutPointIsForced(p);
    assert data[i..i + CutPoint(p)] == p[..CutPoint(p)];
  }

  lemma LineIsJustified(data: seq<byte>, sent: seq<Fragment>, pending: seq<byte>)
    requires data == (Rebuilt(sent) + pending) + [NEWLINE]
    ensures Justified(data, |Rebuilt(sent)|, Fragment(pending, Newline))
  {
    TailOfJoin(Rebuilt(sent), pending);
    SliceOfPrefix(Rebuilt(sent) + pending, [NEWLINE], |Rebuilt(sent)|, |Rebuilt(sent)| + |pending|);
  }

  lemma StepConsumes(data: seq<byte>, l: Log, b: byte)
    requires Consumed(data, l)
    ensures Consumed(data + [b], Step(l, b))
  {
    var p := l.pending + [b];
    StepConserves(l, b);
    AllStayJustified(data, [b], l.sent);
    ConcatAssoc(Rebuilt(l.sent), l.pending, [b]);
    if b == NEWLINE {
      LineIsJustified(data + [b], l.sent, l.pending);
      OneMoreJustified(data + [b], l.sent, Fragment(l.pending, Newline));
    } else if |p| == LOG_FRAGMENT_SIZE {
      SplitIsJustified(data + [b], l.sent, p);
      OneMoreJustified(data + [b], l.sent, Fragment(p[..CutPoint(p)], Split));
    }
  }

  lemma {:induction false} FeedConsumes(data: seq<byte>, l: Log, more: seq<byte>)
    requires Consumed(data, l)
    ensures Consumed(data + more, Feed(l, more))
    decreases |more|
  {
    if more == [] {
      EmptyIsUnit(data);
    } else {
      var b, rest := more[0], more[1..];
      StepConsumes(data, l, b);
      FeedConsumes(data + [b], Step(l, b), rest);
      ConcatAssoc(data, [more[0]], more[1..]);
      StartsWithFirst(more);
    }
  }

  /** Every fragment is a stretch of the output that ends at a newline; or at the
      end of the output; or, if the next 16384 bytes hold no newline, after all of
      them, unless their end could still be completed to one code point, and then
      right before that. */
  lemma EveryCutIsForced(data: seq<byte>, k: nat)
    requires k < |Transcript(data)|
    ensures Justified(data, Offset(Transcript(data), k), Transcript(data)[k])
  {
    var l := Feed(EMPTY, data);
    EmptyIsUnit(data);
    FeedConsumes([], EMPTY, data);
    if l.pending != [] {
      TailOfJoin(Rebuilt(l.sent), l.pending);
      OneMoreJustified(data, l.sent, Fragment(l.pending, Final));
    }
  }
}
