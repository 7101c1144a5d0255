/** When coalescing is invisible to a client, and exactly when it is not. */
module ClientLaws {
  import opened Wrappers
  import opened EventQueue
  import opened EventStream
  import opened ClientState
  import opened Sequences
  import Runs

  // ------------------------------------------------------- Reversible histories

  /** es up to its last event about the instance; nothing if there is none. */
  function Upto(es: seq<Event>, id: string): seq<Event> {
    if es == [] then []
    else if Touches(es[|es| - 1], id) then es
    else Upto(es[..|es| - 1], id)
  }

  /** The logs, of any instance, since the last state of this one. */
  function LogsSince(es: seq<Event>, id: string): seq<Event> {
    if es == [] then []
    else
      var front, e := es[..|es| - 1], es[|es| - 1];
      if e.kind == Log then LogsSince(front, id) + [e]
      else if Touches(e, id) then []
      else LogsSince(front, id)
  }

  function IsStateTouch(id: string): Event -> bool {
    (e: Event) => e.kind != Log && Touches(e, id)
  }

  function LastState(es: seq<Event>, id: string): Option<Event> {
    Last(es, IsStateTouch(id))
  }

  function LastLog(es: seq<Event>, id: string): Option<Event> {
    LastTouch(Logs(es), id)
  }

  predicate AllBefore(es: seq<Event>, t: int) {
    forall e | e in es :: e.time < t
  }

  /** Whether next can send the last state and the last log of an instance in the
      other order than they were enqueued. A state that came last can go before
      that log if some log up to that one is no older than the state, and so
      makes the logs wait for it. A log that came last can go before that state
      if the state is newer than all logs from then up to that one. */
  predicate Reversible(es: seq<Event>, id: string) {
    CanReverse(LastTouch(es, id), LastState(es, id), LastLog(es, id), Upto(LogsSince(es, id), id), Upto(Logs(es), id))
  }

  /** since and logs end with log; since holds those after state. */
  predicate CanReverse(last: Option<Event>, state: Option<Event>, log: Option<Event>, since: seq<Event>, logs: seq<Event>) {
    && last.Some? && state.Some? && log.Some?
    && if last.value.kind == Log then AllBefore(since, state.value.time) else !AllBefore(logs, state.value.time)
  }

  /** ...and the two leave different things of the instance. */
  predicate Misled(es: seq<Event>, id: string) {
    Reversible(es, id) && Effect(LastState(es, id).value) != Effect(LastLog(es, id).value)
  }

  /** Which of the two was not enqueued last. */
  function Other(es: seq<Event>, id: string): Option<Event> {
    if LastTouch(es, id).Some? && LastTouch(es, id).value.kind == Log then LastState(es, id) else LastLog(es, id)
  }

  predicate Addressed(es: seq<Event>) {
    forall e | e in es :: e.kind != Shutdown ==> e.instance.Some?
  }

  // -------------------------------------------------- How they grow and split

  lemma UptoSnoc(es: seq<Event>, e: Event, id: string)
    ensures Upto(es + [e], id) == if Touches(e, id) then es + [e] else Upto(es, id)
  {
    CutInFirst(es, [e], |es|);
  }

  lemma LogsSinceSnoc(es: seq<Event>, e: Event, id: string)
    ensures LogsSince(es + [e], id)
         == if e.kind == Log then LogsSince(es, id) + [e] else if Touches(e, id) then [] else LogsSince(es, id)
  {
    CutInFirst(es, [e], |es|);
  }

  lemma {:induction false} LastConcat(a: seq<Event>, b: seq<Event>, p: Event -> bool)
    ensures Last(a + b, p) == if Last(b, p).Some? then Last(b, p) else Last(a, p)
  {
    if b == [] {
      EmptyIsUnit(a);
    } else {
      var front, e := b[..|b| - 1], b[|b| - 1];
      LastConcat(a, front, p);
      LastSnoc(a + front, e, p);
      ConcatAssoc(a, front, [e]);
      EndsWithLast(b);
    }
  }

  lemma {:induction false} UptoConcat(a: seq<Event>, b: seq<Event>, id: string)
    ensures Upto(a + b, id) == if Upto(b, id) != [] then a + Upto(b, id) else Upto(a, id)
  {
    if b == [] {
      EmptyIsUnit(a);
    } else {
      var front, e := b[..|b| - 1], b[|b| - 1];
      UptoConcat(a, front, id);
      UptoSnoc(a + front, e, id);
      ConcatAssoc(a, front, [e]);
      EndsWithLast(b);
    }
  }

  lemma {:induction false} UptoFacts(es: seq<Event>, id: string)
    ensures Upto(es, id) != [] <==> LastTouch(es, id).Some?
    ensures Upto(es, id) != [] ==> es != [] && Upto(es, id)[0] == es[0]
    ensures forall e | e in Upto(es, id) :: e in es
  {
    if es != [] && !Touches(es[|es| - 1], id) {
      UptoFacts(es[..|es| - 1], id);
    }
  }

  lemma {:induction false} LogsConcat(a: seq<Event>, b: seq<Event>)
    ensures Logs(a + b) == Logs(a) + Logs(b)
  {
    if b == [] {
      EmptyIsUnit(a);
      EmptyIsUnit(Logs(a));
    } else {
      var front, e := b[..|b| - 1], b[|b| - 1];
      LogsConcat(a, front);
      LogsSnoc(a + front, e);
      LogsSnoc(front, e);
      ConcatAssoc(a, front, [e]);
      ConcatAssoc(Logs(a), Logs(front), [e]);
      EndsWithLast(b);
    }
  }

  /** The last event that satisfies q is the last that satisfies p, if it does. */
  lemma {:induction false} LastNarrows(es: seq<Event>, p: Event -> bool, q: Event -> bool)
    requires forall e | e in es && p(e) :: q(e)
    requires Last(es, q).Some? && p(Last(es, q).value)
    ensures Last(es, p) == Last(es, q)
  {
    if !q(es[|es| - 1]) {
      assert !p(es[|es| - 1]);
      LastNarrows(es[..|es| - 1], p, q);
    }
  }

  // ------------------------------------------------------------- What comes last

  /** The last event about an instance that the client will have been sent once
      everything pending is written. */
  function Final(written: seq<Event>, logs: seq<Event>, states: map<string, Event>, id: string): Option<Event> {
    if id in states && AllBefore(Upto(logs, id), states[id].time) then Some(states[id])
    else LastTouch(written + logs, id)
  }

  predicate Expected(offered: seq<Event>, final: Option<Event>, id: string) {
    final == LastTouch(offered, id) || (Reversible(offered, id) && final == Other(offered, id))
  }

  /** Logs that passed a pending state were older. */
  predicate Passed(offered: seq<Event>, logs: seq<Event>, states: map<string, Event>, id: string) {
    id in states ==> forall e | e in LogsSince(offered, id) :: e in logs || e.time < states[id].time
  }

  predicate Faithful(offered: seq<Event>, written: seq<Event>, q: Queue, id: string) {
    || (id in q.states && q.states[id].kind == Shutdown)
    || (Expected(offered, Final(written, q.logs, q.states, id), id) && Passed(offered, q.logs, q.states, id))
  }

  ghost predicate AllFaithful(offered: seq<Event>, written: seq<Event>, q: Queue) {
    forall id: string :: Faithful(offered, written, q, id)
  }

  /** Carried by every run beside EventStream's invariant. */
  ghost predicate ClientInv(s: Stream) {
    Inv(s) && (Addressed(s.offered) && Open(s) ==> AllFaithful(s.offered, s.written, s.q))
  }

  lemma AddressedPrefix(es: seq<Event>, e: Event)
    requires Addressed(es + [e])
    ensures Addressed(es) && (e.kind != Shutdown ==> e.instance.Some?)
  {
    assert forall x | x in es :: x in es + [e];
    assert e in es + [e];
  }

  /** If pending logs make a new state wait until the instance's last one is
      written, that one is the history's last. */
  lemma LogGoesLast(logs: seq<Event>, written: seq<Event>, all: seq<Event>, t: int, id: string)
    requires Logs(written) + logs == all && !AllBefore(Upto(logs, id), t)
    ensures LastTouch(written + logs, id) == LastTouch(all, id) && LastTouch(all, id).Some?
    ensures !AllBefore(Upto(all, id), t)
  {
    UptoFacts(logs, id);
    LastConcat(written, logs, IsTouch(id));
    LastConcat(Logs(written), logs, IsTouch(id));
    UptoConcat(Logs(written), logs, id);
    var h :| h in Upto(logs, id) && h.time >= t;
    assert h in Upto(all, id);
  }

  lemma StateBecomesLast(offered: seq<Event>, e: Event, id: string)
    requires e.kind != Log && Touches(e, id)
    ensures LastTouch(offered + [e], id) == LastState(offered + [e], id) == Some(e)
    ensures Logs(offered + [e]) == Logs(offered) && LogsSince(offered + [e], id) == []
  {
    LastSnoc(offered, e, IsTouch(id));
    LastSnoc(offered, e, IsStateTouch(id));
    LogsSnoc(offered, e);
    LogsSinceSnoc(offered, e, id);
  }

  /** A state that takes its place in the queue. */
  lemma PublishStateStaysFaithful(offered: seq<Event>, written: seq<Event>, q: Queue, e: Event, id: string)
    requires Logs(written) + q.logs == Logs(offered) && e.kind != Log && Touches(e, id)
    ensures Faithful(offered + [e], written, q.(states := q.states[id := e]), id)
  {
    StateBecomesLast(offered, e, id);
    if !AllBefore(Upto(q.logs, id), e.time) {
      LogGoesLast(q.logs, written, Logs(offered), e.time, id);
    }
  }

  /** A log about the instance. */
  lemma PublishLogStaysFaithful(offered: seq<Event>, written: seq<Event>, q: Queue, e: Event, id: string)
    requires Faithful(offered, written, q, id) && e.kind == Log && Touches(e, id)
    requires id in q.states ==> Last(offered, IsStateOf(id)) == Some(q.states[id])
    requires id in q.states && q.states[id].kind != Shutdown ==> IsStateTouch(id)(q.states[id])
    ensures Faithful(offered + [e], written, q.(logs := q.logs + [e]), id)
  {
    var logs := q.logs + [e];
    LastSnoc(offered, e, IsTouch(id));
    LastSnoc(offered, e, IsStateTouch(id));
    LogsSnoc(offered, e);
    LastSnoc(Logs(offered), e, IsTouch(id));
    LogsSinceSnoc(offered, e, id);
    UptoSnoc(q.logs, e, id);
    UptoSnoc(LogsSince(offered, id), e, id);
    ConcatAssoc(written, q.logs, [e]);
    LastSnoc(written + q.logs, e, IsTouch(id));
    if id in q.states && q.states[id].kind != Shutdown {
      LastNarrows(offered, IsStateTouch(id), IsStateOf(id));
    }
  }

  /** An event about something else changes none of it. */
  lemma OtherKeepsLasts(es: seq<Event>, e: Event, id: string)
    requires !Touches(e, id)
    ensures LastTouch(es + [e], id) == LastTouch(es, id)
    ensures LastState(es + [e], id) == LastState(es, id) && LastLog(es + [e], id) == LastLog(es, id)
  {
    LastSnoc(es, e, IsTouch(id));
    LastSnoc(es, e, IsStateTouch(id));
    LogsSnoc(es, e);
    LastSnoc(Logs(es), e, IsTouch(id));
  }

  lemma OtherKeepsLogs(es: seq<Event>, e: Event, id: string)
    requires !Touches(e, id)
    ensures Upto(Logs(es + [e]), id) == Upto(Logs(es), id)
    ensures Upto(LogsSince(es + [e], id), id) == Upto(LogsSince(es, id), id)
  {
    LogsSnoc(es, e);
    LogsSinceSnoc(es, e, id);
    UptoSnoc(Logs(es), e, id);
    UptoSnoc(LogsSince(es, id), e, id);
  }

  /** Any other log. */
  lemma OtherLogStaysFaithful(offered: seq<Event>, written: seq<Event>, q: Queue, e: Event, id: string)
    requires Faithful(offered, written, q, id) && e.kind == Log && !Touches(e, id)
    ensures Faithful(offered + [e], written, q.(logs := q.logs + [e]), id)
  {
    OtherKeepsLasts(offered, e, id);
    OtherKeepsLogs(offered, e, id);
    LogsSinceSnoc(offered, e, id);
    OtherLogKeepsFinal(written, q, e, id);
  }

  lemma OtherLogKeepsFinal(written: seq<Event>, q: Queue, e: Event, id: string)
    requires !Touches(e, id)
    ensures Final(written, q.logs + [e], q.states, id) == Final(written, q.logs, q.states, id)
  {
    UptoSnoc(q.logs, e, id);
    ConcatAssoc(written, q.logs, [e]);
    LastSnoc(written + q.logs, e, IsTouch(id));
  }

  /** A state of another instance. */
  lemma OtherStateStaysFaithful(offered: seq<Event>, written: seq<Event>, q: Queue, e: Event, id: string)
    requires Faithful(offered, written, q, id) && e.kind != Log && !Touches(e, id) && Key(e) != id
    ensures Faithful(offered + [e], written, q.(states := q.states[Key(e) := e]), id)
  {
    OtherKeepsLasts(offered, e, id);
    OtherKeepsLogs(offered, e, id);
    LogsSinceSnoc(offered, e, id);
  }

  /** The token does not matter. */
  lemma TokenIsIrrelevant(offered: seq<Event>, written: seq<Event>, q: Queue, id: string)
    ensures forall wake :: Faithful(offered, written, q.(wake := wake), id) <==> Faithful(offered, written, q, id)
  {
  }

  lemma PublishStaysFaithful(s: Stream, e: Event, id: string)
    requires Inv(s) && Open(s) && Faithful(s.offered, s.written, s.q, id)
    requires Addressed(s.offered + [e]) && !Enqueued(s.q, e).done
    ensures Faithful(s.offered + [e], s.written, Enqueued(s.q, e), id)
  {
    AddressedPrefix(s.offered, e);
    TokenIsIrrelevant(s.offered + [e], s.written, Enqueued(s.q, e).(wake := s.q.wake), id);
    if Touches(e, id) {
      if e.kind == Log {
        assert StateKept(s.offered, s.written, s.q.states, id);
        PublishLogStaysFaithful(s.offered, s.written, s.q, e, id);
      } else {
        PublishStateStaysFaithful(s.offered, s.written, s.q, e, id);
      }
    } else if e.kind == Log {
      OtherLogStaysFaithful(s.offered, s.written, s.q, e, id);
    } else if Key(e) != id {
      OtherStateStaysFaithful(s.offered, s.written, s.q, e, id);
    }
  }

  /** A log is taken only if it is older than every state, a state only if the
      first log is not. */
  lemma TakenInTurn(q: Queue, r: Event, rest: Queue)
    requires Bounded(q) && Taken(q, Some(r), rest)
    ensures r.kind == Log ==> forall k | k in q.states :: r.time < q.states[k].time
    ensures r.kind != Log && q.logs != [] ==> r.time <= q.logs[0].time
  {
    if LogFirst(q) {
      assert r in q.logs;
    }
  }

  /** What will come last is settled: writing the pending events does not change
      it. */
  lemma LogKeepsFinal(written: seq<Event>, q: Queue, r: Event, rest: Queue, id: string)
    requires Removes(q, r, rest) && r.kind == Log && (id in q.states ==> r.time < q.states[id].time)
    ensures Final(written + [r], rest.logs, rest.states, id) == Final(written, q.logs, q.states, id)
  {
    ConcatAssoc(written, [r], rest.logs);
    UptoConcat([r], rest.logs, id);
    UptoSnoc([], r, id);
    EmptyIsUnit([r]);
  }

  lemma StateKeepsFinal(written: seq<Event>, q: Queue, r: Event, rest: Queue, id: string)
    requires Removes(q, r, rest) && r.kind != Log && (Touches(r, id) <==> Key(r) == id)
    requires q.logs != [] ==> r.time <= q.logs[0].time
    ensures Final(written + [r], rest.logs, rest.states, id) == Final(written, q.logs, q.states, id)
  {
    LastConcat(written, q.logs, IsTouch(id));
    LastConcat(written + [r], q.logs, IsTouch(id));
    LastSnoc(written, r, IsTouch(id));
    UptoFacts(q.logs, id);
  }

  lemma WriteKeepsFinal(s: Stream, r: Event, rest: Queue, id: string)
    requires Bounded(s.q) && Taken(s.q, Some(r), rest) && Removes(s.q, r, rest)
    requires r.kind != Shutdown && r.instance.Some?
    ensures Final(s.written + [r], rest.logs, rest.states, id) == Final(s.written, s.q.logs, s.q.states, id)
  {
    TakenInTurn(s.q, r, rest);
    if r.kind == Log {
      LogKeepsFinal(s.written, s.q, r, rest, id);
    } else {
      StateKeepsFinal(s.written, s.q, r, rest, id);
    }
  }

  lemma WriteStaysPassed(offered: seq<Event>, q: Queue, r: Event, rest: Queue, id: string)
    requires Bounded(q) && Taken(q, Some(r), rest) && Removes(q, r, rest) && Passed(offered, q.logs, q.states, id)
    ensures Passed(offered, rest.logs, rest.states, id)
  {
    TakenInTurn(q, r, rest);
    assert r.kind == Log ==> forall e | e in q.logs :: e == r || e in rest.logs;
  }

  lemma DrainStaysFaithful(s: Stream, r: Event, rest: Queue, id: string)
    requires Bounded(s.q) && Taken(s.q, Some(r), rest) && Removes(s.q, r, rest)
    requires r.kind != Shutdown && r.instance.Some? && Faithful(s.offered, s.written, s.q, id)
    ensures Faithful(s.offered, s.written + [r], rest, id)
  {
    if !(id in s.q.states && s.q.states[id].kind == Shutdown) {
      WriteKeepsFinal(s, r, rest, id);
      WriteStaysPassed(s.offered, s.q, r, rest, id);
    }
  }

  lemma PublishKeepsClientInv(s: Stream, e: Event)
    requires ClientInv(s)
    ensures ClientInv(s.(q := Enqueued(s.q, e), offered := s.offered + [e]))
  {
    PublishKeepsInv(s, e);
    if Addressed(s.offered + [e]) && Open(s) && !Enqueued(s.q, e).done {
      AddressedPrefix(s.offered, e);
      forall id: string
        ensures Faithful(s.offered + [e], s.written, Enqueued(s.q, e), id)
      {
        assert Faithful(s.offered, s.written, s.q, id);
        PublishStaysFaithful(s, e, id);
      }
    }
  }

  lemma DrainKeepsClientInv(s: Stream, next: Option<Event>, rest: Queue, sent: bool)
    requires ClientInv(s) && s.handler == Draining && Taken(s.q, next, rest)
    ensures ClientInv(Drained(s, next, rest, sent))
  {
    DrainKeepsInv(s, next, rest, sent);
    if next == None {
      TakenNothing(s.q, rest);
    } else if Open(Drained(s, next, rest, sent)) && Addressed(s.offered) {
      TakenRemoves(s.q, next.value, rest);
      forall id: string
        ensures Faithful(s.offered, s.written + [next.value], rest, id)
      {
        assert Faithful(s.offered, s.written, s.q, id);
        DrainStaysFaithful(s, next.value, rest, id);
      }
    }
  }

  lemma NextKeepsClientInv(s: Stream, s': Stream)
    requires ClientInv(s) && Next(s, s')
    ensures ClientInv(s')
  {
    var a :| Step(s, a, s');
    match a
    case Publish(e) => PublishKeepsClientInv(s, e);
    case Drain(next, rest, sent) => DrainKeepsClientInv(s, next, rest, sent);
    case Wake => WakeKeepsClientInv(s);
    case _ => StepKeepsInv(s, a, s');
  }

  lemma WakeKeepsClientInv(s: Stream)
    requires ClientInv(s) && s.handler == Waiting && s.q.wake
    ensures ClientInv(s.(q := s.q.(wake := false), handler := Draining))
  {
    var s' := s.(q := s.q.(wake := false), handler := Draining);
    StepKeepsInv(s, Wake, s');
    forall id: string | Addressed(s.offered) && Open(s)
      ensures Faithful(s.offered, s.written, s'.q, id)
    {
      assert Faithful(s.offered, s.written, s.q, id);
    }
  }

  lemma RunKeepsClientInv(run: seq<Stream>, i: nat)
    requires Run(run) && i < |run|
    ensures ClientInv(run[i])
  {
    forall s, s' | ClientInv(s) && Next(s, s')
      ensures ClientInv(s')
    {
      NextKeepsClientInv(s, s');
    }
    Runs.Throughout(IsStart, Next, ClientInv, run, i);
  }

  // ------------------------------------------------------------- It is current

  /** Open, and its handler sleeps with no wake-up token. */
  predicate Asleep(s: Stream) {
    Open(s) && s.handler == Waiting && !s.q.wake
  }

  /** Main result. From whatever the initial events gave, a client whose stream is
      asleep has exactly the instances that the whole history gives, unless next
      can have reversed the last log and the last state of one of them. */
  lemma SleepingHandlerLeftClientCurrent(run: seq<Stream>, i: nat, initial: Instances)
    requires Run(run) && i < |run| && Asleep(run[i]) && Addressed(run[i].offered)
    requires forall id: string :: !Misled(run[i].offered, id)
    ensures Reduced(initial, run[i].written) == Reduced(initial, run[i].offered)
  {
    RunKeepsClientInv(run, i);
    forall id: string
      ensures Entry(Reduced(initial, run[i].written), id) == Entry(Reduced(initial, run[i].offered), id)
    {
      EntryIsCurrent(run[i], initial, id);
    }
    SameEntries(Reduced(initial, run[i].written), Reduced(initial, run[i].offered));
  }

  lemma EntryIsCurrent(s: Stream, initial: Instances, id: string)
    requires ClientInv(s) && Asleep(s) && Addressed(s.offered) && !Misled(s.offered, id)
    ensures Entry(Reduced(initial, s.written), id) == Entry(Reduced(initial, s.offered), id)
  {
    assert Faithful(s.offered, s.written, s.q, id);
    EmptyIsUnit(s.written);
    assert LastTouch(s.written, id) == Final(s.written, s.q.logs, s.q.states, id);
    EntryFromLastTouch(initial, s.written, id);
    EntryFromLastTouch(initial, s.offered, id);
    LastIsStateOrLog(s.offered, id);
  }

  /** The last event about an instance is its last state or its last log. */
  lemma {:induction false} LastIsStateOrLog(es: seq<Event>, id: string)
    ensures LastTouch(es, id).Some? ==>
      LastTouch(es, id) == if LastTouch(es, id).value.kind == Log then LastLog(es, id) else LastState(es, id)
  {
    if es != [] {
      LastIsStateOrLog(es[..|es| - 1], id);
      LogsSnoc(es[..|es| - 1], es[|es| - 1]);
      LastSnoc(Logs(es[..|es| - 1]), es[|es| - 1], IsTouch(id));
    }
  }

  /** Enqueueing a before b fits their times: a state is newer than every log
      before it, and a log no older than the states of its instance before it.
      States, logs, and states and later logs of different instances are free. */
  predicate InTurn(a: Event, b: Event) {
    && (a.kind == Log && b.kind != Log ==> a.time < b.time)
    && (a.kind != Log && b.kind == Log && Key(a) == Key(b) ==> a.time <= b.time)
  }

  predicate Merged(es: seq<Event>) {
    forall i, j | 0 <= i < j < |es| :: InTurn(es[i], es[j])
  }

  lemma MergedPrefix(es: seq<Event>, e: Event)
    requires Merged(es + [e])
    ensures Merged(es) && forall x | x in es :: InTurn(x, e)
  {
    assert forall i | 0 <= i < |es| :: (es + [e])[i] == es[i];
    assert (es + [e])[|es|] == e;
  }

  /** In particular, a history whose logs and states are enqueued in turn misleads
      nobody. */
  lemma {:induction false} InTurnIsNotMisled(es: seq<Event>, id: string)
    requires Merged(es)
    ensures !Misled(es, id)
  {
    if es != [] {
      var front, e := es[..|es| - 1], es[|es| - 1];
      EndsWithLast(es);
      MergedPrefix(front, e);
      InTurnIsNotMisled(front, id);
      if !Touches(e, id) {
        OtherKeepsLasts(front, e, id);
        OtherKeepsLogs(front, e, id);
      } else {
        LastInTurnIsNotReversed(front, e, id);
      }
    }
  }

  lemma LastInTurnIsNotReversed(es: seq<Event>, e: Event, id: string)
    requires Touches(e, id) && forall x | x in es :: InTurn(x, e)
    ensures !Reversible(es + [e], id)
  {
    LastSnoc(es, e, IsTouch(id));
    LastSnoc(es, e, IsStateTouch(id));
    LogsSnoc(es, e);
    if e.kind == Log {
      LogsSinceSnoc(es, e, id);
      UptoSnoc(LogsSince(es, id), e, id);
      var j := LastPosition(es, IsStateTouch(id));
      assert j >= 0 ==> es[j] in es;
      assert e in Upto(LogsSince(es + [e], id), id);
    } else {
      UptoFacts(Logs(es), id);
      forall h | h in Upto(Logs(es), id)
        ensures h.time < e.time
      {
        LogsMembers(es, h);
      }
    }
  }

  // --------------------------------------------------------- When it is not

  /** Whether some run ends with s. */
  ghost predicate Reachable(s: Stream) {
    Runs.Reaches(Next, START, s)
  }

  lemma StepReaches(s: Stream, a: Action, s': Stream)
    requires Reachable(s) && Step(s, a, s')
    ensures Reachable(s')
  {
    assert Next(s, s');
    Runs.ReachesOn(Next, START, s, s');
  }

  lemma RunTo(s: Stream) returns (run: seq<Stream>)
    requires Reachable(s)
    ensures Run(run) && run[|run| - 1] == s
  {
    run := Runs.RunReaches(IsStart, Next, [START], s);
  }

  lemma ReachableInv(s: Stream)
    requires Reachable(s)
    ensures Inv(s)
  {
    var run := RunTo(s);
    RunKeepsInv(run, |run| - 1);
  }

  function Keys(es: seq<Event>): set<string> {
    set e | e in es && e.kind != Log :: Key(e)
  }

  /** A history that no client's queue can overflow with. */
  predicate Fits(es: seq<Event>) {
    |Logs(es)| <= 10 && |Keys(es)| <= 1024
  }

  predicate Plain(es: seq<Event>) {
    forall e | e in es :: e.kind != Shutdown && e.instance.Some?
  }

  lemma FitsPrefix(a: seq<Event>, b: seq<Event>)
    requires Fits(a + b)
    ensures Fits(a)
  {
    LogsConcat(a, b);
    assert forall e | e in a :: e in a + b;
    SubsetSize(Keys(a), Keys(a + b));
  }

  lemma PlainPrefix(a: seq<Event>, b: seq<Event>)
    requires Plain(a + b)
    ensures Plain(a) && Plain(b)
  {
    assert forall e | e in a || e in b :: e in a + b;
  }

  lemma PendingKeys(s: Stream, e: Event)
    requires Bounded(s.q) && Known(s) && e.kind != Log
    ensures s.q.states.Keys + {Key(e)} <= Keys(s.offered + [e])
  {
    forall k | k in s.q.states.Keys + {Key(e)}
      ensures k in Keys(s.offered + [e])
    {
      if k in s.q.states {
        assert s.q.states[k] in s.offered + [e];
      } else {
        assert e in s.offered + [e];
      }
    }
  }

  lemma FitsIsAccepted(s: Stream, e: Event)
    requires Inv(s) && Open(s) && Fits(s.offered + [e])
    ensures !Enqueued(s.q, e).done
  {
    if e.kind == Log {
      LogsSnoc(s.offered, e);
    } else {
      PendingKeys(s, e);
      SubsetSize(s.q.states.Keys + {Key(e)}, Keys(s.offered + [e]));
    }
  }

  lemma PublishOne(s: Stream, e: Event) returns (s': Stream)
    requires Reachable(s) && Open(s) && Fits(s.offered + [e])
    ensures Reachable(s') && Open(s')
    ensures s'.offered == s.offered + [e] && s'.written == s.written && s'.handler == s.handler
    ensures s.q.states.Keys <= s'.q.states.Keys && (e.kind != Log ==> Key(e) in s'.q.states.Keys)
  {
    ReachableInv(s);
    FitsIsAccepted(s, e);
    s' := s.(q := Enqueued(s.q, e), offered := s.offered + [e]);
    StepReaches(s, Publish(e), s');
  }

  /** A history can be enqueued without the handler doing anything. */
  lemma {:induction false} PublishAll(s: Stream, es: seq<Event>) returns (s': Stream)
    requires Reachable(s) && Open(s) && Fits(s.offered + es)
    ensures Reachable(s') && Open(s')
    ensures s'.offered == s.offered + es && s'.written == s.written && s'.handler == s.handler
    ensures Keys(es) <= s'.q.states.Keys
  {
    if es == [] {
      EmptyIsUnit(s.offered);
      s' := s;
    } else {
      var front, e := es[..|es| - 1], es[|es| - 1];
      EndsWithLast(es);
      ConcatAssoc(s.offered, front, [e]);
      FitsPrefix(s.offered + front, [e]);
      s' := PublishAll(s, front);
      s' := PublishOne(s', e);
      KeysSnoc(front, e);
    }
  }

  lemma KeysSnoc(es: seq<Event>, e: Event)
    ensures Keys(es + [e]) == Keys(es) + if e.kind == Log then {} else {Key(e)}
  {
    assert forall x | x in es + [e] :: x in es || x == e;
    assert forall x | x in es :: x in es + [e];
    assert e in es + [e];
  }

  lemma {:induction false} OldestExists(states: map<string, Event>) returns (key: string)
    requires states != map[]
    ensures Oldest(states, key)
    decreases |states|
  {
    key :| key in states;
    var rest := states - {key};
    assert rest.Keys == states.Keys - {key};
    if rest != map[] {
      var other := OldestExists(rest);
      if states[other].time < states[key].time {
        key := other;
      }
      assert forall k | k in states && k in rest :: states[other].time <= states[k].time;
    }
  }

  lemma SomethingIsTaken(q: Queue) returns (r: Event, rest: Queue)
    requires Bounded(q) && !q.done && !IsIdle(q)
    ensures Taken(q, Some(r), rest) && Removes(q, r, rest) && |rest.states| + |rest.logs| < |q.states| + |q.logs|
  {
    if LogFirst(q) {
      r, rest := q.logs[0], q.(logs := q.logs[1..]);
    } else {
      assert q.states == map[] ==> q.logs == [];
      var key := OldestExists(q.states);
      r, rest := q.states[key], q.(states := q.states - {key});
    }
    TakenRemoves(q, r, rest);
    TakenSplits(q, r, rest);
  }

  /** Everything pending can be written. */
  lemma {:induction false} DrainAll(s: Stream, id: string) returns (s': Stream)
    requires Reachable(s) && Open(s) && s.handler == Draining && Plain(s.offered)
    ensures Reachable(s') && Asleep(s') && IsIdle(s'.q) && s'.offered == s.offered
    ensures LastTouch(s'.written, id) == Final(s.written, s.q.logs, s.q.states, id)
    decreases |s.q.states| + |s.q.logs|
  {
    if IsIdle(s.q) {
      EmptyIsUnit(s.written);
      s' := FallAsleep(s);
    } else {
      s' := DrainOne(s, id);
      s' := DrainAll(s', id);
    }
  }

  lemma DrainOne(s: Stream, id: string) returns (s': Stream)
    requires Reachable(s) && Open(s) && s.handler == Draining && Plain(s.offered) && !IsIdle(s.q)
    ensures Reachable(s') && Open(s') && s'.handler == Draining && s'.offered == s.offered
    ensures |s'.q.states| + |s'.q.logs| < |s.q.states| + |s.q.logs|
    ensures Final(s'.written, s'.q.logs, s'.q.states, id) == Final(s.written, s.q.logs, s.q.states, id)
  {
    ReachableInv(s);
    var r, rest := SomethingIsTaken(s.q);
    assert r in s.offered;
    WriteKeepsFinal(s, r, rest, id);
    s' := Drained(s, Some(r), rest, true);
    StepReaches(s, Drain(Some(r), rest, true), s');
  }

  lemma FallAsleep(s: Stream) returns (s': Stream)
    requires Reachable(s) && Open(s) && s.handler == Draining && IsIdle(s.q)
    ensures Reachable(s') && Asleep(s') && IsIdle(s'.q) && s'.offered == s.offered && s'.written == s.written
  {
    s' := s.(handler := Waiting);
    StepReaches(s, Drain(None, s.q, true), s');
    if s.q.wake {
      var woken := s'.(q := s.q.(wake := false), handler := Draining);
      StepReaches(s', Wake, woken);
      s' := woken.(handler := Waiting);
      StepReaches(woken, Drain(None, woken.q, true), s');
    }
  }

  lemma WakeAndDrain(s: Stream, id: string) returns (s': Stream)
    requires Reachable(s) && Open(s) && s.handler == Waiting && Plain(s.offered)
    ensures Reachable(s') && Asleep(s') && IsIdle(s'.q) && s'.offered == s.offered
    ensures LastTouch(s'.written, id) == Final(s.written, s.q.logs, s.q.states, id)
  {
    ReachableInv(s);
    if s.q.wake {
      s' := s.(q := s.q.(wake := false), handler := Draining);
      StepReaches(s, Wake, s');
      s' := DrainAll(s', id);
    } else {
      EmptyIsUnit(s.written);
      s' := s;
    }
  }

  /** Where the history is cut: what is before was written before the rest was
      enqueued. */
  lemma {:induction false} CutAtState(es: seq<Event>, id: string) returns (j: nat)
    requires LastState(es, id).Some?
    ensures j < |es| && es[j] == LastState(es, id).value && Logs(es[j..]) == LogsSince(es, id)
  {
    var front, e := es[..|es| - 1], es[|es| - 1];
    if IsStateTouch(id)(e) {
      j := |es| - 1;
      assert es[j..] == [] + [e];
      LogsSnoc([], e);
    } else {
      j := CutAtState(front, id);
      EndsWithLast(es);
      CutInFirst(front, [e], j);
      LogsSnoc(front[j..], e);
    }
  }

  /** After es[..j] was written and es[j..] enqueued, the logs of es[j..] are
      pending, and the last state of the instance if it is among them. */
  lemma EnqueueAfter(es: seq<Event>, j: nat, id: string) returns (s: Stream)
    requires Plain(es) && Fits(es) && j <= |es|
    ensures Reachable(s) && Open(s) && s.handler == Waiting && s.offered == es && s.q.logs == Logs(es[j..])
    ensures forall e | e in es[j..] && e.kind != Log :: Key(e) in s.q.states
    ensures j == 0 ==> s.written == []
  {
    SplitJoins(es, j);
    FitsPrefix(es[..j], es[j..]);
    PlainPrefix(es[..j], es[j..]);
    Runs.ReachesItself(Next, START);
    EmptyIsUnit(es[..j]);
    s := PublishAll(START, es[..j]);
    if j > 0 {
      s := WakeAndDrain(s, id);
    }
    ReachableInv(s);
    EmptyIsUnit(Logs(s.written));
    var written := s.written;
    s := PublishAll(s, es[j..]);
    ReachableInv(s);
    LogsConcat(es[..j], es[j..]);
    SamePrefix(Logs(written), s.q.logs, Logs(es[j..]));
  }

  lemma SamePrefix(a: seq<Event>, b: seq<Event>, c: seq<Event>)
    requires a + b == a + c
    ensures b == c
  {
    assert b == (a + b)[|a|..] && c == (a + c)[|a|..];
  }

  lemma LastStateIsPending(s: Stream, id: string)
    requires Inv(s) && Open(s) && Plain(s.offered) && LastState(s.offered, id).Some? && id in s.q.states
    ensures s.q.states[id] == LastState(s.offered, id).value
  {
    assert StateKept(s.offered, s.written, s.q.states, id);
    assert s.q.states[id] in s.offered;
    LastNarrows(s.offered, IsStateTouch(id), IsStateOf(id));
  }

  /** A history that can be reversed for an instance is, in some run. */
  lemma Reverse(es: seq<Event>, id: string) returns (run: seq<Stream>)
    requires Plain(es) && Fits(es) && Reversible(es, id)
    ensures SettledRun(run, es) && LastTouch(run[|run| - 1].written, id) == Other(es, id)
  {
    var j := 0;
    if LastTouch(es, id).value.kind == Log {
      j := CutAtState(es, id);
    }
    var s := EnqueueAfter(es, j, id);
    ReverseFinal(es, j, s, id);
    s := WakeAndDrain(s, id);
    run := RunTo(s);
  }

  lemma ReverseFinal(es: seq<Event>, j: nat, s: Stream, id: string)
    requires Plain(es) && Reversible(es, id) && Reachable(s) && Open(s) && s.offered == es
    requires j < |es| && s.q.logs == Logs(es[j..]) && forall e | e in es[j..] && e.kind != Log :: Key(e) in s.q.states
    requires if LastTouch(es, id).value.kind == Log
             then es[j] == LastState(es, id).value && Logs(es[j..]) == LogsSince(es, id)
             else j == 0 && s.written == []
    ensures Final(s.written, s.q.logs, s.q.states, id) == Other(es, id)
  {
    ReachableInv(s);
    var i := LastPosition(es, IsStateTouch(id));
    assert i >= j ==> es[i] in es[j..];
    assert es[j] in es[j..];
    LastStateIsPending(s, id);
    WholeSlice(es);
    EmptyIsUnit(s.q.logs);
  }

  /** A run in which exactly es was enqueued and nothing is pending or lost. */
  ghost predicate SettledRun(run: seq<Stream>, es: seq<Event>) {
    Run(run) && Asleep(run[|run| - 1]) && run[|run| - 1].offered == es
  }

  /** Exactly when: whatever events without a shutdown were enqueued, as long as
      they cannot overflow the queue, every client whose stream is asleep is
      current, if and only if they mislead about no instance. */
  lemma CurrentIffNotMisled(es: seq<Event>, initial: Instances)
    requires Plain(es) && Fits(es)
    ensures (forall run: seq<Stream> | SettledRun(run, es) ::
               Reduced(initial, run[|run| - 1].written) == Reduced(initial, es))
       <==> forall id: string :: !Misled(es, id)
  {
    if id: string :| Misled(es, id) {
      var run := MisledRun(es, id, initial);
      assert SettledRun(run, es);
    } else {
      forall run: seq<Stream> | SettledRun(run, es)
        ensures Reduced(initial, run[|run| - 1].written) == Reduced(initial, es)
      {
        SleepingHandlerLeftClientCurrent(run, |run| - 1, initial);
      }
    }
  }

  /** A client that received both events ends with the wrong one. */
  lemma MisledRun(es: seq<Event>, id: string, initial: Instances) returns (run: seq<Stream>)
    requires Plain(es) && Fits(es) && Misled(es, id)
    ensures SettledRun(run, es)
    ensures Other(es, id).Some? && Entry(Reduced(initial, run[|run| - 1].written), id) == Effect(Other(es, id).value)
    ensures Entry(Reduced(initial, es), id) == Effect(LastTouch(es, id).value) != Effect(Other(es, id).value)
  {
    run := Reverse(es, id);
    EntryFromLastTouch(initial, run[|run| - 1].written, id);
    EntryFromLastTouch(initial, es, id);
    LastIsStateOrLog(es, id);
  }
}
