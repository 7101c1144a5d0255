/** The coalescing queue between the master and one event-stream client. */
module EventQueue {
  import opened Wrappers

  const MAX_LOGS: nat := 10

  const MAX_STATES: nat := 1024

  datatype Kind = Create | Update | Delete | Log | Shutdown

  /** An instance snapshot: its ID and everything else that is shown. */
  datatype Snapshot = Snapshot(id: string, shown: string)

  datatype Event = Event(kind: Kind, time: int, instance: Option<Snapshot>, logs: string)

  datatype Queue = Queue(states: map<string, Event>, logs: seq<Event>, wake: bool, done: bool)

  const EMPTY := Queue(map[], [], false, false)

  function Key(e: Event): string {
    if e.instance.Some? then e.instance.value.id else ""
  }

  predicate IsPending(q: Queue, e: Event) {
    e in q.logs || (Key(e) in q.states && q.states[Key(e)] == e)
  }

  predicate IsIdle(q: Queue) {
    q.states == map[] && q.logs == []
  }

  /** The queue after e is offered to it. An overflow closes the queue. */
  function Enqueued(q: Queue, e: Event): Queue {
    if q.done then q
    else if e.kind == Log then
      if |q.logs| == MAX_LOGS then q.(done := true)
      else q.(logs := q.logs + [e], wake := true)
    else if Key(e) !in q.states && |q.states| == MAX_STATES then q.(done := true)
    else q.(states := q.states[Key(e) := e], wake := true)
  }

  predicate Oldest(states: map<string, Event>, key: string) {
    key in states && forall k | k in states :: states[key].time <= states[k].time
  }

  /** The oldest log goes first if it is older than every state. */
  predicate LogFirst(q: Queue) {
    q.logs != [] && forall k | k in q.states :: q.logs[0].time < q.states[k].time
  }

  /** What one call of next may return, and the queue it leaves. Which of two
      equally old states goes first is left open: the source ranges over a map. */
  ghost predicate Taken(q: Queue, r: Option<Event>, q': Queue) {
    if q.done then r == None && q' == q
    else if LogFirst(q) then r == Some(q.logs[0]) && q' == q.(logs := q.logs[1..])
    else if q.states != map[] then
      exists key | Oldest(q.states, key) ::
        r == Some(q.states[key]) && q' == q.(states := q.states - {key})
    else r == None && q' == q
  }

  class Subscriber {
    var states: map<string, Event>
    var logs: seq<Event>
    /** Whether the one-slot wake channel holds a token. */
    var wake: bool
    /** Whether the done channel is closed. */
    var done: bool

    function State(): Queue
      reads this
    {
      Queue(states, logs, wake, done)
    }

    constructor ()
      ensures State() == EMPTY
    {
      states, logs, wake, done := map[], [], false, false;
    }

    method Close()
      modifies this
      ensures State() == old(State()).(done := true)
    {
      done := true;
    }

    method Enqueue(e: Event)
      modifies this
      ensures State() == Enqueued(old(State()), e)
    {
      if done {
        return;
      }
      if e.kind == Log {
        if |logs| == MAX_LOGS {
          Close();
          return;
        }
        logs := logs + [e];
      } else {
        var key := "";
        if e.instance.Some? {
          key := e.instance.value.id;
        }
        if key !in states && |states| == MAX_STATES {
          Close();
          return;
        }
        states := states[key := e];
      }
      wake := true;
    }

    method Next() returns (r: Option<Event>)
      modifies this
      ensures Taken(old(State()), r, State())
    {
      if done {
        return None;
      }
      var selected: Option<Event> := None;
      var key := "";
      var unseen := states.Keys;
      while unseen != {}
        invariant unseen <= states.Keys
        invariant selected.None? ==> unseen == states.Keys
        invariant selected.Some? ==> key in states && selected.value == states[key]
        invariant selected.Some? ==>
          forall k | k in states.Keys - unseen :: states[key].time <= states[k].time
      {
        var id :| id in unseen;
        unseen := unseen - {id};
        var e := states[id];
        if selected == None || e.time < selected.value.time {
          selected, key := Some(e), id;
        }
      }
      if |logs| > 0 && (selected == None || logs[0].time < selected.value.time) {
        r := Some(logs[0]);
        logs := logs[1..];
        return;
      }
      if selected.Some? {
        assert Oldest(states, key);
        states := states - {key};
        return selected;
      }
      return None;
    }
  }

  predicate WellKeyed(q: Queue) {
    forall k | k in q.states :: Key(q.states[k]) == k
  }

  /** The drain loop of handleSSE while nothing is enqueued; writes tells how many
      events can still be written. Unless it ends the stream, by a failed write or
      a shutdown event, it writes everything that was pending and nothing else. */
  method Drain(s: Subscriber, writes: nat) returns (written: seq<Event>, ended: bool)
    requires WellKeyed(s.State()) && !s.done
    modifies s
    ensures forall e | e in written :: IsPending(old(s.State()), e)
    ensures !ended ==> IsIdle(s.State()) && forall e | IsPending(old(s.State()), e) :: e in written
    ensures ended ==> |written| == writes || (written != [] && written[|written| - 1].kind == Shutdown)
  {
    written := [];
    while true
      invariant WellKeyed(s.State()) && !s.done && |written| <= writes
      invariant forall e | e in written :: IsPending(old(s.State()), e)
      invariant forall e | IsPending(s.State(), e) :: IsPending(old(s.State()), e)
      invariant forall e | IsPending(old(s.State()), e) :: e in written || IsPending(s.State(), e)
      decreases |s.states| + |s.logs|
    {
      ghost var before := s.State();
      var next := s.Next();
      if next == None {
        return written, false;
      }
      TakenSplits(before, next.value, s.State());
      if |written| == writes {
        return written, true;
      }
      written := written + [next.value];
      if next.value.kind == Shutdown {
        return written, true;
      }
    }
  }

  lemma TakenSplits(q: Queue, r: Event, q': Queue)
    requires WellKeyed(q) && !q.done && Taken(q, Some(r), q')
    ensures WellKeyed(q') && !q'.done && |q'.states| + |q'.logs| < |q.states| + |q.logs|
    ensures IsPending(q, r)
    ensures forall e | IsPending(q', e) :: IsPending(q, e)
    ensures forall e | IsPending(q, e) :: e == r || IsPending(q', e)
  {
    if LogFirst(q) {
      LogSplits(q, r, q');
    } else {
      var key :| Oldest(q.states, key) && r == q.states[key] && q' == q.(states := q.states - {key});
      StateSplits(q, key, q');
    }
  }

  lemma LogSplits(q: Queue, r: Event, q': Queue)
    requires q.logs != [] && r == q.logs[0] && q' == q.(logs := q.logs[1..])
    ensures forall e | IsPending(q', e) :: IsPending(q, e)
    ensures forall e | IsPending(q, e) :: e == r || IsPending(q', e)
  {
    assert q.logs == [r] + q'.logs;
  }

  lemma StateSplits(q: Queue, key: string, q': Queue)
    requires WellKeyed(q) && key in q.states && q' == q.(states := q.states - {key})
    ensures |q'.states| < |q.states|
    ensures forall e | IsPending(q', e) :: IsPending(q, e)
    ensures forall e | IsPending(q, e) :: e == q.states[key] || IsPending(q', e)
  {
    assert q'.states.Keys == q.states.Keys - {key};
  }
}
