/** The reducer that the event-stream documentation gives to clients. */
module ClientState {
  import opened Wrappers
  import opened EventQueue
  import opened EventStream

  type Instances = map<string, Snapshot>

  /** applyInstanceEvent. */
  function Applied(state: Instances, e: Event): Instances {
    if e.kind == Shutdown || e.instance.None? then state
    else if e.kind == Delete then state - {e.instance.value.id}
    else state[e.instance.value.id := e.instance.value]
  }

  function Reduced(state: Instances, es: seq<Event>): Instances {
    if es == [] then state else Applied(Reduced(state, es[..|es| - 1]), es[|es| - 1])
  }

  predicate Touches(e: Event, id: string) {
    e.kind != Shutdown && e.instance.Some? && e.instance.value.id == id
  }

  /** The last event about an instance decides its entry. */
  lemma {:induction false} LastEventDecides(state: Instances, es: seq<Event>, id: string, last: nat)
    requires last < |es| && Touches(es[last], id)
    requires forall i | last < i < |es| :: !Touches(es[i], id)
    ensures id in Reduced(state, es) <==> es[last].kind != Delete
    ensures es[last].kind != Delete ==> Reduced(state, es)[id] == es[last].instance.value
  {
    if last < |es| - 1 {
      LastEventDecides(state, es[..|es| - 1], id, last);
    }
  }

  lemma {:induction false} UntouchedStays(state: Instances, es: seq<Event>, id: string)
    requires forall e | e in es :: !Touches(e, id)
    ensures id in Reduced(state, es) <==> id in state
    ensures id in state ==> Reduced(state, es)[id] == state[id]
  {
    if es != [] {
      assert !Touches(es[|es| - 1], id);
      UntouchedStays(state, es[..|es| - 1], id);
    }
  }

  function IsTouch(id: string): Event -> bool {
    (e: Event) => Touches(e, id)
  }

  function LastTouch(es: seq<Event>, id: string): Option<Event> {
    Last(es, IsTouch(id))
  }

  /** The entry of an instance, as Get would return it. */
  function Entry(state: Instances, id: string): Option<Snapshot> {
    if id in state then Some(state[id]) else None
  }

  /** What an event leaves of its instance. */
  function Effect(e: Event): Option<Snapshot> {
    if e.kind == Delete then None else e.instance
  }

  lemma EntryFromLastTouch(state: Instances, es: seq<Event>, id: string)
    ensures Entry(Reduced(state, es), id)
         == match LastTouch(es, id) case None => Entry(state, id) case Some(e) => Effect(e)
  {
    var last := LastPosition(es, IsTouch(id));
    if last < 0 {
      forall e | e in es
        ensures !Touches(e, id)
      {
        var i :| 0 <= i < |es| && es[i] == e;
        assert !IsTouch(id)(es[i]);
      }
      UntouchedStays(state, es, id);
    } else {
      assert forall i | last < i < |es| :: !IsTouch(id)(es[i]) && !Touches(es[i], id);
      LastEventDecides(state, es, id, last);
    }
  }

  /** Equal entries make equal maps. */
  lemma SameEntries(a: Instances, b: Instances)
    requires forall id: string :: Entry(a, id) == Entry(b, id)
    ensures a == b
  {
    assert forall id: string :: Entry(a, id) == Entry(b, id) ==> (id in a <==> id in b);
    assert a.Keys == b.Keys;
    assert forall id | id in a :: Entry(a, id) == Entry(b, id);
  }
}
