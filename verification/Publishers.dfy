/** Which histories the program's publishers can enqueue. sendSSEEvent takes an
    event's time, then its snapshot under the instance's mutex, and enqueues it
    later; sendTelemetryLog does all three while it holds the mutex. */
module Publishers {
  import opened Wrappers
  import opened EventQueue
  import opened EventStream
  import opened ClientState
  import opened ClientLaws
  import opened Sequences

  /** An event, when the instance's mutex was held for it, and when it was
      enqueued, all by one clock. */
  datatype Sending = Sending(event: Event, from: int, until: int, enqueued: int)

  predicate Timed(s: Sending) {
    && s.from <= s.until
    && if s.event.kind == Log then s.from <= s.event.time <= s.enqueued <= s.until
       else s.event.time <= s.from && s.until <= s.enqueued
  }

  /** The mutex of an instance has one holder at a time. */
  predicate Apart(a: Sending, b: Sending) {
    Key(a.event) == Key(b.event) ==> a.until < b.from || b.until < a.from
  }

  predicate FromProgram(sends: seq<Sending>) {
    && (forall s | s in sends :: Timed(s))
    && (forall i, j | 0 <= i < j < |sends| :: sends[i].enqueued <= sends[j].enqueued && Apart(sends[i], sends[j]))
  }

  function Events(sends: seq<Sending>): (es: seq<Event>)
    ensures |es| == |sends| && forall i | 0 <= i < |sends| :: es[i] == sends[i].event
  {
    seq(|sends|, i requires 0 <= i < |sends| => sends[i].event)
  }

  /** A state that was enqueued before a log of its instance is older. */
  lemma StateBeforeLogIsOlder(sends: seq<Sending>, i: nat, j: nat)
    requires FromProgram(sends) && i < j < |sends|
    requires sends[i].event.kind != Log && sends[j].event.kind == Log
    requires Key(sends[i].event) == Key(sends[j].event)
    ensures sends[i].event.time < sends[j].event.time
  {
    assert sends[i] in sends && sends[j] in sends;
    assert Apart(sends[i], sends[j]);
  }

  lemma {:induction false} LastLogIsSince(es: seq<Event>, id: string)
    requires LastTouch(es, id).Some? && LastTouch(es, id).value.kind == Log
    ensures LastTouch(es, id).value in Upto(LogsSince(es, id), id)
  {
    var front, e := es[..|es| - 1], es[|es| - 1];
    if Touches(e, id) {
      UptoSnoc(LogsSince(front, id), e, id);
    } else {
      LastLogIsSince(front, id);
      UptoSnoc(LogsSince(front, id), e, id);
    }
  }

  /** So a log that came last is never sent before the last state: of what
      publishers enqueue, only a state that came last can be reversed. */
  lemma OnlyLastStatesAreReversed(sends: seq<Sending>, id: string)
    requires FromProgram(sends) && Plain(Events(sends)) && Reversible(Events(sends), id)
    ensures LastTouch(Events(sends), id) == LastState(Events(sends), id)
  {
    var es := Events(sends);
    LastIsStateOrLog(es, id);
    if LastTouch(es, id).value.kind == Log {
      LastLogIsSince(es, id);
      var n := LastPosition(es, IsTouch(id));
      var j := LastPosition(es, IsStateTouch(id));
      assert IsTouch(id)(es[j]);
      StateBeforeLogIsOlder(sends, j, n);
      assert false;
    }
  }

  /** And that does happen: a log, and an update whose time was taken before it
      and whose snapshot was taken after it. */
  lemma OutOfOrderTimesMislead(id: string, first: string, second: string)
    returns (sends: seq<Sending>, run: seq<Stream>)
    requires first != second
    ensures FromProgram(sends) && SettledRun(run, Events(sends))
    ensures var s := run[|run| - 1];
      && Entry(Reduced(map[], s.offered), id) == Some(Snapshot(id, second))
      && Entry(Reduced(map[], s.written), id) == Some(Snapshot(id, first))
  {
    var log := Event(Log, 2, Some(Snapshot(id, first)), "");
    var state := Event(Update, 1, Some(Snapshot(id, second)), "");
    sends := [Sending(log, 2, 2, 2), Sending(state, 3, 3, 4)];
    assert Events(sends) == [log, state];
    TwoAreReversible(log, state, id);
    run := MisledRun([log, state], id, map[]);
  }

  lemma TwoLasts(log: Event, state: Event, id: string)
    requires log.kind == Log && state.kind != Log && Touches(log, id) && Touches(state, id)
    ensures var es := [log] + [state];
      LastTouch(es, id) == LastState(es, id) == Some(state) && Logs(es) == [log] && LastLog(es, id) == Some(log)
  {
    LastSnoc([log], state, IsTouch(id));
    LastSnoc([log], state, IsStateTouch(id));
    LogsSnoc([log], state);
    LogsSnoc([], log);
    EmptyIsUnit([log]);
    LastSnoc([], log, IsTouch(id));
  }

  lemma TwoFit(log: Event, state: Event, id: string)
    requires log.kind == Log && state.kind != Log && Touches(log, id) && Touches(state, id)
    requires Logs([log, state]) == [log]
    ensures Plain([log, state]) && Fits([log, state])
  {
    assert Keys([log, state]) <= {Key(state)};
    SubsetSize(Keys([log, state]), {Key(state)});
  }

  /** A log and then a state of the same instance that is no newer. */
  lemma TwoAreReversible(log: Event, state: Event, id: string)
    requires log.kind == Log && state.kind != Log && Touches(log, id) && Touches(state, id) && state.time <= log.time
    ensures var es := [log, state];
      && Reversible(es, id) && Plain(es) && Fits(es)
      && LastTouch(es, id) == LastState(es, id) == Some(state) && LastLog(es, id) == Some(log)
  {
    assert [log, state] == [log] + [state];
    TwoLasts(log, state, id);
    TwoFit(log, state, id);
    UptoSnoc([], log, id);
    EmptyIsUnit([log]);
    assert log in Upto([log], id);
  }
}
