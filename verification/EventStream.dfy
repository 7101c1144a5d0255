/** Publishers and one stream handler around an EventQueue, step by step, and
    what the client is guaranteed to receive. */
module EventStream {
  import opened Wrappers
  import opened EventQueue
  import opened Sequences
  import Runs

  /** Where the handler is: blocked in its select, draining after a wake-up, past
      its last write but before its deferred close, or gone. */
  datatype Handler = Waiting | Draining | Leaving | Returned

  /** q and handler are the program's state; offered and written record every
      event enqueued and every event sent to the client, both in order. */
  datatype Stream = Stream(q: Queue, handler: Handler, offered: seq<Event>, written: seq<Event>)

  const START := Stream(EMPTY, Waiting, [], [])

  datatype Action =
    | Publish(event: Event)
    | Wake
    | Drain(next: Option<Event>, rest: Queue, sent: bool)
    | Leave
    | Close

  /** The handler after next has returned and, if it returned an event, after
      the attempt to write that event. */
  function Drained(s: Stream, next: Option<Event>, rest: Queue, sent: bool): Stream {
    if next == None then s.(q := rest, handler := Waiting)
    else
      Stream(
        rest,
        if !sent || next.value.kind == Shutdown then Leaving else Draining,
        s.offered,
        if sent then s.written + [next.value] else s.written)
  }

  ghost predicate Step(s: Stream, a: Action, s': Stream) {
    match a
    case Publish(e) =>
      s' == s.(q := Enqueued(s.q, e), offered := s.offered + [e])
    case Wake =>
      s.handler == Waiting && s.q.wake &&
      s' == s.(q := s.q.(wake := false), handler := Draining)
    case Drain(next, rest, sent) =>
      s.handler == Draining && Taken(s.q, next, rest) && s' == Drained(s, next, rest, sent)
    case Leave =>
      s.handler == Waiting && s' == s.(handler := Leaving)
    case Close =>
      s.handler == Leaving && s' == s.(q := s.q.(done := true), handler := Returned)
  }

  ghost predicate Next(s: Stream, s': Stream) {
    exists a :: Step(s, a, s')
  }

  predicate IsStart(s: Stream) {
    s == START
  }

  /** Any interleaving of any number of publishers with the handler. */
  ghost predicate Run(run: seq<Stream>) {
    Runs.IsRun(IsStart, Next, run)
  }

  /** The handler has not begun to return and the queue is not closed. */
  predicate Open(s: Stream) {
    !s.q.done && (s.handler == Waiting || s.handler == Draining)
  }

  // ------------------------------------------------------------- Invariants

  function Logs(es: seq<Event>): seq<Event> {
    if es == [] then []
    else
      var e := es[|es| - 1];
      Logs(es[..|es| - 1]) + if e.kind == Log then [e] else []
  }

  lemma {:induction false} LogsMembers(es: seq<Event>, e: Event)
    ensures e in Logs(es) <==> e in es && e.kind == Log
  {
    if es != [] {
      LogsMembers(es[..|es| - 1], e);
      assert es == es[..|es| - 1] + [es[|es| - 1]];
    }
  }

  predicate Bounded(q: Queue) {
    && |q.logs| <= MAX_LOGS
    && |q.states| <= MAX_STATES
    && (forall e | e in q.logs :: e.kind == Log)
    && (forall k | k in q.states :: q.states[k].kind != Log && Key(q.states[k]) == k)
  }

  predicate Alert(s: Stream) {
    s.handler == Waiting && !s.q.done && !IsIdle(s.q) ==> s.q.wake
  }

  /** While the stream is open no log is lost or overtaken. */
  predicate LogsKept(s: Stream) {
    && (Open(s) ==> Logs(s.written) + s.q.logs == Logs(s.offered))
    && Logs(s.written) <= Logs(s.offered)
  }

  predicate Closing(s: Stream) {
    && (s.handler == Returned ==> s.q.done)
    && (Open(s) ==> forall e | e in s.written :: e.kind != Shutdown)
  }

  /** The last event that satisfies p. */
  function Last(es: seq<Event>, p: Event -> bool): Option<Event> {
    if es == [] then None
    else if p(es[|es| - 1]) then Some(es[|es| - 1])
    else Last(es[..|es| - 1], p)
  }

  lemma LastSnoc(es: seq<Event>, e: Event, p: Event -> bool)
    ensures Last(es + [e], p) == if p(e) then Some(e) else Last(es, p)
  {
    CutInFirst(es, [e], |es|);
  }

  lemma {:induction false} LastCons(e: Event, es: seq<Event>, p: Event -> bool)
    ensures Last([e] + es, p)
         == if Last(es, p).Some? then Last(es, p) else if p(e) then Some(e) else None
  {
    if es == [] {
      EmptyIsUnit([e]);
      assert Last([e], p) == if p(e) then Some(e) else Last([], p) by {
        LastSnoc([], e, p);
        EmptyIsUnit([e]);
      }
    } else {
      var front, end := es[..|es| - 1], es[|es| - 1];
      assert [e] + es == ([e] + front) + [end];
      LastSnoc([e] + front, end, p);
      LastCons(e, front, p);
    }
  }

  /** Where it stands. */
  lemma {:induction false} LastPosition(es: seq<Event>, p: Event -> bool) returns (j: int)
    ensures Last(es, p).None? ==> j == -1
    ensures Last(es, p).Some? ==> 0 <= j < |es| && es[j] == Last(es, p).value && p(es[j])
    ensures forall i | j < i < |es| :: !p(es[i])
  {
    j := |es| - 1;
    if es != [] && !p(es[|es| - 1]) {
      j := LastPosition(es[..|es| - 1], p);
    }
  }

  function IsStateOf(key: string): Event -> bool {
    (e: Event) => e.kind != Log && Key(e) == key
  }

  /** The latest state offered for a key is pending or written, and nothing else
      is pending for it. */
  predicate StateKept(offered: seq<Event>, written: seq<Event>, states: map<string, Event>, key: string) {
    match Last(offered, IsStateOf(key))
    case None => key !in states
    case Some(e) => if key in states then states[key] == e else e in written
  }

  ghost predicate StatesKept(offered: seq<Event>, written: seq<Event>, states: map<string, Event>) {
    forall key :: StateKept(offered, written, states, key)
  }

  predicate Before(strict: bool, a: Event, b: Event) {
    if strict then a.time < b.time else a.time <= b.time
  }

  predicate Sorted(strict: bool, es: seq<Event>) {
    forall i, j | 0 <= i < j < |es| :: Before(strict, es[i], es[j])
  }

  /** What was written precedes what is pending. */
  predicate Ordered(strict: bool, written: seq<Event>, logs: seq<Event>, states: map<string, Event>) {
    && Sorted(strict, written)
    && Sorted(strict, logs)
    && (forall w, e | w in written && e in logs :: Before(strict, w, e))
    && (forall w, k | w in written && k in states :: Before(strict, w, states[k]))
  }

  ghost predicate KeepsOrder(offered: seq<Event>, written: seq<Event>, logs: seq<Event>, states: map<string, Event>) {
    forall strict: bool :: Sorted(strict, offered) ==> Ordered(strict, written, logs, states)
  }

  predicate Known(s: Stream) {
    && (forall w | w in s.written :: w in s.offered)
    && (forall e | e in s.q.logs :: e in s.offered)
    && (forall k | k in s.q.states :: s.q.states[k] in s.offered)
  }

  ghost predicate Inv(s: Stream) {
    && Bounded(s.q) && Alert(s) && LogsKept(s) && Closing(s) && Known(s)
    && (Open(s) ==> StatesKept(s.offered, s.written, s.q.states))
    && KeepsOrder(s.offered, s.written, s.q.logs, s.q.states)
  }

  // ------------------------------------------------------- Invariants are kept

  lemma SortedPrefix(strict: bool, es: seq<Event>, e: Event)
    requires Sorted(strict, es + [e])
    ensures Sorted(strict, es) && forall x | x in es :: Before(strict, x, e)
  {
    assert forall i | 0 <= i < |es| :: (es + [e])[i] == es[i];
    assert (es + [e])[|es|] == e;
  }

  lemma SortedSnoc(strict: bool, es: seq<Event>, e: Event)
    requires Sorted(strict, es) && forall x | x in es :: Before(strict, x, e)
    ensures Sorted(strict, es + [e])
  {
  }

  lemma PublishBasics(s: Stream, e: Event)
    requires Bounded(s.q) && Alert(s) && Known(s)
    ensures Bounded(Enqueued(s.q, e))
    ensures var s' := s.(q := Enqueued(s.q, e), offered := s.offered + [e]);
            Alert(s') && Known(s')
  {
    var q' := Enqueued(s.q, e);
    if q' != s.q && !q'.done {
      if e.kind == Log {
        assert q'.logs == s.q.logs + [e] && q'.states == s.q.states;
      } else {
        assert q'.states == s.q.states[Key(e) := e] && q'.logs == s.q.logs;
      }
    }
  }

  lemma LogsSnoc(es: seq<Event>, e: Event)
    ensures Logs(es + [e]) == if e.kind == Log then Logs(es) + [e] else Logs(es)
  {
    CutInFirst(es, [e], |es|);
    EmptyIsUnit(Logs(es));
  }

  lemma PublishKeepsLogs(s: Stream, e: Event)
    requires LogsKept(s)
    ensures LogsKept(s.(q := Enqueued(s.q, e), offered := s.offered + [e]))
  {
    LogsSnoc(s.offered, e);
    ConcatAssoc(Logs(s.written), s.q.logs, [e]);
  }

  lemma PublishKeepsStates(offered: seq<Event>, written: seq<Event>, q: Queue, e: Event)
    requires StatesKept(offered, written, q.states) && !Enqueued(q, e).done
    ensures StatesKept(offered + [e], written, Enqueued(q, e).states)
  {
    forall key: string
      ensures StateKept(offered + [e], written, Enqueued(q, e).states, key)
    {
      assert StateKept(offered, written, q.states, key);
      LastSnoc(offered, e, IsStateOf(key));
    }
  }

  lemma PublishOrders(strict: bool, written: seq<Event>, q: Queue, e: Event)
    requires Ordered(strict, written, q.logs, q.states)
    requires forall x | x in written || x in q.logs :: Before(strict, x, e)
    ensures Ordered(strict, written, Enqueued(q, e).logs, Enqueued(q, e).states)
  {
    var q' := Enqueued(q, e);
    SortedSnoc(strict, q.logs, e);
    assert forall x | x in q'.logs :: x in q.logs || x == e;
    assert forall k | k in q'.states :: (k in q.states && q'.states[k] == q.states[k]) || q'.states[k] == e;
  }

  lemma PublishKeepsOrder(s: Stream, e: Event)
    requires Known(s) && KeepsOrder(s.offered, s.written, s.q.logs, s.q.states)
    ensures KeepsOrder(s.offered + [e], s.written, Enqueued(s.q, e).logs, Enqueued(s.q, e).states)
  {
    forall strict: bool | Sorted(strict, s.offered + [e])
      ensures Ordered(strict, s.written, Enqueued(s.q, e).logs, Enqueued(s.q, e).states)
    {
      SortedPrefix(strict, s.offered, e);
      PublishOrders(strict, s.written, s.q, e);
    }
  }

  lemma PublishKeepsInv(s: Stream, e: Event)
    requires Inv(s)
    ensures Inv(s.(q := Enqueued(s.q, e), offered := s.offered + [e]))
  {
    PublishBasics(s, e);
    PublishKeepsLogs(s, e);
    PublishKeepsOrder(s, e);
    if !Enqueued(s.q, e).done && Open(s) {
      PublishKeepsStates(s.offered, s.written, s.q, e);
    }
  }

  /** rest is q without the pending event r. */
  predicate Removes(q: Queue, r: Event, rest: Queue) {
    && !q.done && !rest.done
    && IsPending(q, r)
    && if r.kind == Log then q.logs == [r] + rest.logs && rest.states == q.states
       else Key(r) in q.states && q.states[Key(r)] == r &&
            rest.logs == q.logs && rest.states == q.states - {Key(r)}
  }

  lemma TakenRemoves(q: Queue, r: Event, rest: Queue)
    requires Bounded(q) && Taken(q, Some(r), rest)
    ensures Removes(q, r, rest)
  {
  }

  lemma TakenNothing(q: Queue, rest: Queue)
    requires Taken(q, None, rest)
    ensures rest == q && (q.done || IsIdle(q))
  {
  }

  /** No pending event is strictly older than the one that is taken. */
  lemma TakenIsOldest(q: Queue, r: Event, rest: Queue)
    requires Taken(q, Some(r), rest)
    requires Sorted(false, q.logs)
    ensures forall e | e in rest.logs :: r.time <= e.time
    ensures forall k | k in rest.states :: r.time <= rest.states[k].time
  {
  }

  /** With distinct times in the history, what is taken is strictly older than
      all that stays. */
  lemma TakenPrecedes(strict: bool, s: Stream, r: Event, rest: Queue)
    requires Bounded(s.q) && Known(s) && Sorted(strict, s.q.logs) && Sorted(strict, s.offered)
    requires Taken(s.q, Some(r), rest) && Removes(s.q, r, rest)
    ensures forall e | e in rest.logs :: Before(strict, r, e)
    ensures forall k | k in rest.states :: Before(strict, r, rest.states[k])
  {
    TakenIsOldest(s.q, r, rest);
    if strict {
      forall e | e in rest.logs
        ensures Before(true, r, e)
      {
        if r.kind == Log {
          var i :| 0 <= i < |rest.logs| && rest.logs[i] == e;
          assert s.q.logs[0] == r && s.q.logs[i + 1] == e;
        } else {
          DistinctTimes(s.offered, r, e);
        }
      }
      forall k | k in rest.states
        ensures Before(true, r, rest.states[k])
      {
        DistinctTimes(s.offered, r, rest.states[k]);
      }
    }
  }

  lemma DistinctTimes(es: seq<Event>, a: Event, b: Event)
    requires Sorted(true, es) && a in es && b in es && a != b
    ensures a.time != b.time
  {
  }

  lemma RemovalBasics(s: Stream, r: Event, rest: Queue, sent: bool)
    requires Bounded(s.q) && Known(s) && Removes(s.q, r, rest)
    ensures Bounded(rest) && Known(Drained(s, Some(r), rest, sent))
  {
  }

  lemma SubsetSize<T>(a: set<T>, b: set<T>)
    requires a <= b
    ensures |a| <= |b|
  {
    assert b == a + (b - a);
  }

  lemma RemovalKeepsLogs(s: Stream, r: Event, rest: Queue, sent: bool)
    requires LogsKept(s) && Open(s) && Removes(s.q, r, rest)
    ensures LogsKept(Drained(s, Some(r), rest, sent))
  {
    LogsSnoc(s.written, r);
    if r.kind == Log {
      ConcatAssoc(Logs(s.written), [r], rest.logs);
    }
  }

  lemma RemovalKeepsStates(offered: seq<Event>, written: seq<Event>, q: Queue, r: Event, rest: Queue)
    requires StatesKept(offered, written, q.states) && Removes(q, r, rest)
    ensures StatesKept(offered, written + [r], rest.states)
  {
    forall key: string
      ensures StateKept(offered, written + [r], rest.states, key)
    {
      assert StateKept(offered, written, q.states, key);
    }
  }

  lemma RemovalNarrows(strict: bool, written: seq<Event>, q: Queue, r: Event, rest: Queue)
    requires Ordered(strict, written, q.logs, q.states) && Removes(q, r, rest)
    ensures Ordered(strict, written, rest.logs, rest.states)
  {
    if r.kind == Log {
      assert forall i | 0 <= i < |rest.logs| :: rest.logs[i] == q.logs[i + 1];
      assert forall e | e in rest.logs :: e in q.logs;
    } else {
      assert forall k | k in rest.states :: k in q.states && q.states[k] == rest.states[k];
    }
  }

  lemma WriteOrders(strict: bool, written: seq<Event>, r: Event, logs: seq<Event>, states: map<string, Event>)
    requires Ordered(strict, written, logs, states)
    requires forall w | w in written :: Before(strict, w, r)
    requires forall e | e in logs :: Before(strict, r, e)
    requires forall k | k in states :: Before(strict, r, states[k])
    ensures Ordered(strict, written + [r], logs, states)
  {
    SortedSnoc(strict, written, r);
  }

  lemma DrainKeepsOrder(s: Stream, r: Event, rest: Queue, sent: bool)
    requires Bounded(s.q) && Known(s) && Taken(s.q, Some(r), rest) && Removes(s.q, r, rest)
    requires KeepsOrder(s.offered, s.written, s.q.logs, s.q.states)
    ensures KeepsOrder(s.offered, if sent then s.written + [r] else s.written, rest.logs, rest.states)
  {
    forall strict: bool | Sorted(strict, s.offered)
      ensures Ordered(strict, if sent then s.written + [r] else s.written, rest.logs, rest.states)
    {
      TakenPrecedes(strict, s, r, rest);
      RemovalNarrows(strict, s.written, s.q, r, rest);
      WriteOrders(strict, s.written, r, rest.logs, rest.states);
    }
  }

  lemma DrainKeepsInv(s: Stream, next: Option<Event>, rest: Queue, sent: bool)
    requires Inv(s) && s.handler == Draining && Taken(s.q, next, rest)
    ensures Inv(Drained(s, next, rest, sent))
  {
    if next == None {
      TakenNothing(s.q, rest);
    } else {
      var r := next.value;
      TakenRemoves(s.q, r, rest);
      RemovalBasics(s, r, rest, sent);
      RemovalKeepsLogs(s, r, rest, sent);
      RemovalKeepsStates(s.offered, s.written, s.q, r, rest);
      DrainKeepsOrder(s, r, rest, sent);
    }
  }

  lemma StepKeepsInv(s: Stream, a: Action, s': Stream)
    requires Inv(s) && Step(s, a, s')
    ensures Inv(s')
  {
    match a
    case Publish(e) => PublishKeepsInv(s, e);
    case Drain(next, rest, sent) => DrainKeepsInv(s, next, rest, sent);
    case _ =>
  }

  lemma NextKeepsInv(s: Stream, s': Stream)
    requires Inv(s) && Next(s, s')
    ensures Inv(s')
  {
    var a :| Step(s, a, s');
    StepKeepsInv(s, a, s');
  }

  lemma RunKeepsInv(run: seq<Stream>, i: nat)
    requires Run(run) && i < |run|
    ensures Inv(run[i])
  {
    forall s, s' | Inv(s) && Next(s, s')
      ensures Inv(s')
    {
      NextKeepsInv(s, s');
    }
    Runs.Throughout(IsStart, Next, Inv, run, i);
  }

  // ------------------------------------------------------ What every run keeps

  /** The queue never holds more than its limits, whatever is offered. */
  lemma QueueIsBounded(run: seq<Stream>, i: nat)
    requires Run(run) && i < |run|
    ensures |run[i].q.logs| <= 10 && |run[i].q.states| <= 1024
  {
    RunKeepsInv(run, i);
  }

  /** Up to those limits nothing is refused: an open stream stays open, with what
      was enqueued pending, unless it is a log after 10 pending logs or a state of
      another instance beside 1024 pending states. */
  lemma OpenUntilFull(s: Stream, e: Event, s': Stream)
    requires Open(s) && Step(s, Publish(e), s')
    ensures Open(s') <==> if e.kind == Log then |s.q.logs| != 10 else Key(e) in s.q.states || |s.q.states| != 1024
    ensures Open(s') ==> IsPending(s'.q, e) && s'.q.wake
  {
  }

  /** Nobody waits to publish, and a closed subscriber takes nothing. */
  lemma PublishingNeverBlocks(s: Stream, e: Event) returns (s': Stream)
    ensures Step(s, Publish(e), s')
    ensures s'.offered == s.offered + [e] && s'.written == s.written && s'.handler == s.handler
    ensures s.q.done ==> s'.q == s.q
  {
    s' := s.(q := Enqueued(s.q, e), offered := s.offered + [e]);
  }

  lemma ClosedStepWritesNothing(s: Stream, s': Stream)
    requires s.q.done && Next(s, s')
    ensures s'.q.done && s'.written == s.written
  {
    var a :| Step(s, a, s');
  }

  /** Once the subscriber is closed, by an overflow or by its handler, nothing
      more is written. */
  lemma ClosedWritesNothing(run: seq<Stream>, i: nat, j: nat)
    requires Run(run) && i <= j < |run| && run[i].q.done
    ensures run[j].q.done && run[j].written == run[i].written
  {
    var written := run[i].written;
    var p := (s: Stream) => s.q.done && s.written == written;
    forall s, s' | Inv(s) && p(s) && Next(s, s')
      ensures p(s')
    {
      ClosedStepWritesNothing(s, s');
    }
    forall s, s' | Inv(s) && Next(s, s')
      ensures Inv(s')
    {
      NextKeepsInv(s, s');
    }
    Runs.FromThenOn(IsStart, Next, Inv, p, run, i, j);
  }

  /** A handler can always leave its select, and then closes its subscriber. */
  lemma HandlerCanLeave(s: Stream) returns (left: Stream, gone: Stream)
    requires s.handler == Waiting
    ensures Step(s, Leave, left) && Step(left, Close, gone)
    ensures gone.handler == Returned && gone.q.done && gone.written == s.written && gone.offered == s.offered
  {
    left := s.(handler := Leaving);
    gone := left.(q := s.q.(done := true), handler := Returned);
  }

  /** It leaves after a failed write, which sends nothing, and after a shutdown
      event, and otherwise goes on draining. */
  lemma WriteDecides(s: Stream, r: Event, rest: Queue, sent: bool, s': Stream)
    requires Step(s, Drain(Some(r), rest, sent), s')
    ensures s'.written == if sent then s.written + [r] else s.written
    ensures s'.handler == if sent && r.kind != Shutdown then Draining else Leaving
    ensures s'.offered == s.offered && s'.q == rest
  {
  }

  /** No lost wake-up: while the subscriber is open, a handler blocked in its
      select with something pending has a token to take. */
  lemma NoLostWakeup(run: seq<Stream>, i: nat)
    requires Run(run) && i < |run|
    requires !run[i].q.done && run[i].handler == Waiting && !IsIdle(run[i].q)
    ensures run[i].q.wake
  {
    RunKeepsInv(run, i);
  }

  /** Logs reach the client in the order they were enqueued: all of them while
      the stream is open, and a prefix of them whatever happens. */
  lemma LogsAreFifo(run: seq<Stream>, i: nat)
    requires Run(run) && i < |run|
    ensures Open(run[i]) ==> Logs(run[i].written) + run[i].q.logs == Logs(run[i].offered)
    ensures Logs(run[i].written) <= Logs(run[i].offered)
  {
    RunKeepsInv(run, i);
  }

  /** Events enqueued in the order of their times are written in that order. */
  lemma WrittenInTimeOrder(run: seq<Stream>, i: nat, strict: bool)
    requires Run(run) && i < |run| && Sorted(strict, run[i].offered)
    ensures Sorted(strict, run[i].written)
  {
    RunKeepsInv(run, i);
  }

  // --------------------------------------------------- What coalescing may drop

  /** places says where each element of a stands in b. */
  predicate Embeds(a: seq<Event>, b: seq<Event>, places: seq<nat>) {
    && |places| == |a|
    && (forall i | 0 <= i < |a| :: places[i] < |b| && b[places[i]] == a[i])
    && (forall i, j | 0 <= i < j < |a| :: places[i] < places[j])
  }

  ghost predicate Subsequence(a: seq<Event>, b: seq<Event>) {
    exists places :: Embeds(a, b, places)
  }

  function PlaceOf(es: seq<Event>, e: Event): (i: nat)
    requires e in es
    ensures i < |es| && es[i] == e
  {
    if es[0] == e then 0 else 1 + PlaceOf(es[1..], e)
  }

  lemma SortedSubsetEmbeds(a: seq<Event>, b: seq<Event>)
    requires Sorted(true, a) && Sorted(true, b)
    requires forall e | e in a :: e in b
    ensures Subsequence(a, b)
  {
    var places := seq(|a|, i requires 0 <= i < |a| => PlaceOf(b, a[i]));
    forall i, j | 0 <= i < j < |a|
      ensures places[i] < places[j]
    {
      assert Before(true, a[i], a[j]);
      assert forall k, l | 0 <= k < l < |b| :: b[k].time < b[l].time by {
        assert forall k, l | 0 <= k < l < |b| :: Before(true, b[k], b[l]);
      }
    }
    assert Embeds(a, b, places);
  }

  predicate Accounted(s: Stream, e: Event) {
    e in s.written || IsPending(s.q, e)
  }

  /** A later state of its instance took its place and is itself accounted for. */
  ghost predicate Superseded(s: Stream, p: nat)
    requires p < |s.offered|
  {
    s.offered[p].kind != Log &&
    exists j | p < j < |s.offered| ::
      s.offered[j].kind != Log && Key(s.offered[j]) == Key(s.offered[p]) && Accounted(s, s.offered[j])
  }

  /** While the stream is open, whatever the times, each event that was enqueued
      is written, or pending, or a state superseded by one enqueued later. */
  lemma OnlySupersededStatesDrop(run: seq<Stream>, i: nat, p: nat)
    requires Run(run) && i < |run| && Open(run[i]) && p < |run[i].offered|
    ensures Accounted(run[i], run[i].offered[p]) || Superseded(run[i], p)
  {
    RunKeepsInv(run, i);
    if run[i].offered[p].kind == Log {
      LogIsAccounted(run[i], run[i].offered[p]);
    } else {
      StateIsAccounted(run[i], p);
    }
  }

  lemma LogIsAccounted(s: Stream, e: Event)
    requires LogsKept(s) && Open(s) && e in s.offered && e.kind == Log
    ensures e in s.written || e in s.q.logs
  {
    LogsMembers(s.offered, e);
    LogsMembers(s.written, e);
  }

  lemma StateIsAccounted(s: Stream, p: nat)
    requires Bounded(s.q) && StatesKept(s.offered, s.written, s.q.states) && p < |s.offered| && s.offered[p].kind != Log
    ensures Accounted(s, s.offered[p]) || Superseded(s, p)
  {
    var key := Key(s.offered[p]);
    var j := LastPosition(s.offered, IsStateOf(key));
    assert IsStateOf(key)(s.offered[p]);
    assert StateKept(s.offered, s.written, s.q.states, key);
    assert Accounted(s, s.offered[j]);
  }

  /** With strictly increasing times the client sees the history in its order. */
  lemma WrittenIsSubsequence(run: seq<Stream>, i: nat)
    requires Run(run) && i < |run| && Sorted(true, run[i].offered)
    ensures Subsequence(run[i].written, run[i].offered)
  {
    RunKeepsInv(run, i);
    SortedSubsetEmbeds(run[i].written, run[i].offered);
  }

  // ----------------------------------------------- What a written event tells

  /** A later state of its instance took its place and is written or, by its
      time, after t. */
  ghost predicate Replaced(offered: seq<Event>, written: seq<Event>, p: nat, t: int)
    requires p < |offered|
  {
    offered[p].kind != Log &&
    exists j | p < j < |offered| ::
      offered[j].kind != Log && Key(offered[j]) == Key(offered[p]) && (offered[j] in written || t < offered[j].time)
  }

  ghost predicate CaughtUp(offered: seq<Event>, written: seq<Event>, w: Event) {
    forall p: nat | p < |offered| && offered[p].time < w.time ::
      offered[p] in written || Replaced(offered, written, p, w.time)
  }

  ghost predicate InOrderInv(s: Stream) {
    && Inv(s)
    && (Sorted(true, s.offered) ==> forall w | w in s.written :: CaughtUp(s.offered, s.written, w))
    && (forall k | 0 <= k < |s.written| - 1 :: s.written[k].kind != Shutdown)
  }

  lemma PublishStaysCaughtUp(offered: seq<Event>, written: seq<Event>, e: Event, w: Event)
    requires CaughtUp(offered, written, w) && w.time <= e.time
    ensures CaughtUp(offered + [e], written, w)
  {
    var all := offered + [e];
    forall p: nat | p < |all| && all[p].time < w.time
      ensures all[p] in written || Replaced(all, written, p, w.time)
    {
      assert all[p] == offered[p];
      if offered[p] !in written {
        var j :| p < j < |offered| && offered[j].kind != Log && Key(offered[j]) == Key(offered[p]) &&
          (offered[j] in written || w.time < offered[j].time);
        assert all[j] == offered[j];
      }
    }
  }

  lemma WriteStaysCaughtUp(offered: seq<Event>, written: seq<Event>, r: Event, w: Event)
    requires CaughtUp(offered, written, w)
    ensures CaughtUp(offered, written + [r], w)
  {
    forall p: nat | p < |offered| && offered[p].time < w.time
      ensures offered[p] in written + [r] || Replaced(offered, written + [r], p, w.time)
    {
      if offered[p] !in written {
        var j :| p < j < |offered| && offered[j].kind != Log && Key(offered[j]) == Key(offered[p]) &&
          (offered[j] in written || w.time < offered[j].time);
      }
    }
  }

  /** When r is taken, what else is pending is newer. */
  lemma PendingIsNewer(q: Queue, r: Event, rest: Queue, e: Event)
    requires Removes(q, r, rest)
    requires forall x | x in rest.logs :: Before(true, r, x)
    requires forall k | k in rest.states :: Before(true, r, rest.states[k])
    ensures IsPending(q, e) ==> e == r || r.time < e.time
  {
    if r.kind == Log {
      assert e in q.logs ==> e == r || e in rest.logs;
    } else if Key(e) != Key(r) && Key(e) in q.states {
      assert Key(e) in rest.states && rest.states[Key(e)] == q.states[Key(e)];
    }
    if Key(e) in rest.states && rest.states[Key(e)] == e {
      assert Before(true, r, rest.states[Key(e)]);
    }
    if e in rest.logs {
      assert Before(true, r, e);
    }
  }

  ghost predicate NewerStays(q: Queue, r: Event) {
    forall e | IsPending(q, e) :: e == r || r.time < e.time
  }

  lemma TakenCatchesUp(s: Stream, r: Event, rest: Queue)
    requires Inv(s) && Open(s) && Sorted(true, s.offered) && Taken(s.q, Some(r), rest) && Removes(s.q, r, rest)
    ensures CaughtUp(s.offered, s.written + [r], r)
  {
    assert Ordered(true, s.written, s.q.logs, s.q.states);
    TakenPrecedes(true, s, r, rest);
    forall e | IsPending(s.q, e)
      ensures e == r || r.time < e.time
    {
      PendingIsNewer(s.q, r, rest, e);
    }
    forall p: nat | p < |s.offered| && s.offered[p].time < r.time
      ensures s.offered[p] in s.written + [r] || Replaced(s.offered, s.written + [r], p, r.time)
    {
      OlderIsCaughtUp(s, r, p);
    }
  }

  lemma OlderIsCaughtUp(s: Stream, r: Event, p: nat)
    requires Inv(s) && Open(s) && NewerStays(s.q, r)
    requires p < |s.offered| && s.offered[p].time < r.time
    ensures s.offered[p] in s.written || Replaced(s.offered, s.written + [r], p, r.time)
  {
    if s.offered[p].kind == Log {
      LogIsAccounted(s, s.offered[p]);
    } else {
      StateIsAccounted(s, p);
      if !Accounted(s, s.offered[p]) {
        var j :| p < j < |s.offered| && s.offered[j].kind != Log && Key(s.offered[j]) == Key(s.offered[p]) &&
          Accounted(s, s.offered[j]);
        assert s.offered[j] in s.written + [r] || r.time < s.offered[j].time;
      }
    }
  }

  lemma StepKeepsOrderInv(s: Stream, a: Action, s': Stream)
    requires InOrderInv(s) && Step(s, a, s')
    ensures InOrderInv(s')
  {
    StepKeepsInv(s, a, s');
    match a
    case Publish(e) =>
      if Sorted(true, s'.offered) {
        SortedPrefix(true, s.offered, e);
        forall w | w in s.written
          ensures CaughtUp(s'.offered, s.written, w)
        {
          PublishStaysCaughtUp(s.offered, s.written, e, w);
        }
      }
    case Drain(next, rest, sent) =>
      if next.Some? && sent {
        DrainStaysCaughtUp(s, next.value, rest);
      } else if next == None {
        TakenNothing(s.q, rest);
      }
    case _ =>
  }

  lemma DrainStaysCaughtUp(s: Stream, r: Event, rest: Queue)
    requires InOrderInv(s) && s.handler == Draining && Taken(s.q, Some(r), rest)
    ensures Sorted(true, s.offered) ==> forall w | w in s.written + [r] :: CaughtUp(s.offered, s.written + [r], w)
    ensures forall k | 0 <= k < |s.written| :: s.written[k].kind != Shutdown
  {
    TakenRemoves(s.q, r, rest);
    if Sorted(true, s.offered) {
      forall w | w in s.written + [r]
        ensures CaughtUp(s.offered, s.written + [r], w)
      {
        if w in s.written {
          WriteStaysCaughtUp(s.offered, s.written, r, w);
        } else {
          TakenCatchesUp(s, r, rest);
        }
      }
    }
  }

  lemma RunKeepsOrderInv(run: seq<Stream>, i: nat)
    requires Run(run) && i < |run|
    ensures InOrderInv(run[i])
  {
    forall s, s' | InOrderInv(s) && Next(s, s')
      ensures InOrderInv(s')
    {
      var a :| Step(s, a, s');
      StepKeepsOrderInv(s, a, s');
    }
    Runs.Throughout(IsStart, Next, InOrderInv, run, i);
  }

  /** With strictly increasing times, once an event has been written, each event
      that was enqueued before it is written too, or was superseded by a state
      that is written or newer than it. */
  lemma WrittenEventsAreCaughtUp(run: seq<Stream>, i: nat, p: nat, q: nat)
    requires Run(run) && i < |run| && Sorted(true, run[i].offered)
    requires p < q < |run[i].offered| && run[i].offered[q] in run[i].written
    ensures var s := run[i];
      s.offered[p] in s.written || Replaced(s.offered, s.written, p, s.offered[q].time)
  {
    RunKeepsOrderInv(run, i);
    assert Before(true, run[i].offered[p], run[i].offered[q]);
    assert CaughtUp(run[i].offered, run[i].written, run[i].offered[q]);
  }

  /** A shutdown event is the last that a client is sent, after all logs that were
      enqueued before it and, of each instance, the last state before it unless
      one was enqueued after it. */
  lemma ShutdownComesLast(run: seq<Stream>, i: nat, p: nat, q: nat)
    requires Run(run) && i < |run| && Sorted(true, run[i].offered)
    requires p < q < |run[i].offered| && run[i].offered[q] in run[i].written && run[i].offered[q].kind == Shutdown
    requires run[i].offered[p].kind != Log ==>
      forall j | p < j < |run[i].offered| :: run[i].offered[j].kind == Log || Key(run[i].offered[j]) != Key(run[i].offered[p])
    ensures run[i].written[|run[i].written| - 1] == run[i].offered[q]
    ensures run[i].offered[p] in run[i].written
  {
    RunKeepsOrderInv(run, i);
    WrittenEventsAreCaughtUp(run, i, p, q);
  }

  // ------------------------------------------------------ A log waits its turn

  /** How many pending events are older than t. */
  function Ahead(q: Queue, t: int): nat {
    |OlderStates(q, t)| + OlderLogs(q.logs, t)
  }

  function OlderStates(q: Queue, t: int): set<string> {
    set k | k in q.states && q.states[k].time < t
  }

  function OlderLogs(es: seq<Event>, t: int): nat {
    if es == [] then 0 else (if es[0].time < t then 1 else 0) + OlderLogs(es[1..], t)
  }

  lemma {:induction false} OlderLogsSnoc(es: seq<Event>, e: Event, t: int)
    requires e.time >= t
    ensures OlderLogs(es + [e], t) == OlderLogs(es, t)
  {
    if es != [] {
      OlderLogsSnoc(es[1..], e, t);
      assert (es + [e])[1..] == es[1..] + [e];
    }
  }

  lemma {:induction false} OlderLogsBound(es: seq<Event>, t: int)
    ensures OlderLogs(es, t) <= |es|
  {
    if es != [] {
      OlderLogsBound(es[1..], t);
    }
  }

  /** A step that leaves a queued log queued writes at most one event, and then
      one of those that were ahead of the log. */
  lemma StepAdvancesLog(s: Stream, a: Action, s': Stream, log: Event)
    requires Inv(s) && Step(s, a, s') && Sorted(true, s'.offered)
    requires log in s.q.logs && log in s'.q.logs && !s'.q.done
    ensures |s'.written| + Ahead(s'.q, log.time) <= |s.written| + Ahead(s.q, log.time)
  {
    match a
    case Publish(e) =>
      SortedPrefix(true, s.offered, e);
      OlderLogsSnoc(s.q.logs, e, log.time);
      SubsetSize(OlderStates(s'.q, log.time), OlderStates(s.q, log.time));
    case Drain(next, rest, sent) =>
      if next.Some? {
        var r := next.value;
        TakenRemoves(s.q, r, rest);
        assert Ordered(true, s.written, s.q.logs, s.q.states);
        TakenPrecedes(true, s, r, rest);
        RemovalAdvances(s.q, r, rest, log);
      } else {
        TakenNothing(s.q, rest);
      }
    case Wake =>
    case Leave =>
  }

  lemma RemovalAdvances(q: Queue, r: Event, rest: Queue, log: Event)
    requires Removes(q, r, rest) && log in rest.logs && r.time < log.time
    ensures Ahead(rest, log.time) == Ahead(q, log.time) - 1
  {
    if r.kind == Log {
      assert q.logs[1..] == rest.logs;
    } else {
      assert Key(r) in OlderStates(q, log.time);
      assert OlderStates(rest, log.time) == OlderStates(q, log.time) - {Key(r)};
    }
  }

  /** However many events arrive meanwhile, a queued log is written after at
      most the events that were pending when it was enqueued. */
  lemma LogWaitsItsTurn(run: seq<Stream>, i: nat, j: nat, log: Event)
    requires Run(run) && i <= j < |run|
    requires forall k | i <= k <= j :: !run[k].q.done && log in run[k].q.logs
    requires Sorted(true, run[j].offered)
    ensures |run[j].written| - |run[i].written| <= Ahead(run[i].q, log.time) <= 1034
  {
    LogAdvances(run, i, j, log);
    RunKeepsInv(run, i);
    OlderLogsBound(run[i].q.logs, log.time);
    SubsetSize(OlderStates(run[i].q, log.time), run[i].q.states.Keys);
  }

  lemma {:induction false} LogAdvances(run: seq<Stream>, i: nat, j: nat, log: Event)
    requires Run(run) && i <= j < |run|
    requires forall k | i <= k <= j :: !run[k].q.done && log in run[k].q.logs
    requires Sorted(true, run[j].offered)
    ensures |run[j].written| + Ahead(run[j].q, log.time) <= |run[i].written| + Ahead(run[i].q, log.time)
    ensures Sorted(true, run[i].offered)
    decreases j - i
  {
    if i < j {
      LogAdvances(run, i + 1, j, log);
      RunKeepsInv(run, i);
      assert Next(run[i], run[i + 1]);
      var a :| Step(run[i], a, run[i + 1]);
      StepAdvancesLog(run[i], a, run[i + 1], log);
      if a.Publish? {
        SortedPrefix(true, run[i].offered, a.event);
      }
    }
  }
}
