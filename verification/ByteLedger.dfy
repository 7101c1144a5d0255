/** A byte counter beside an unbounded ledger of what it should show, over any
    run of process starts and exits, snapshots and resets. */
module ByteLedger {
  import opened ByteCounter
  import opened Sequences
  import Runs

  datatype Entry = Start | Exit | Snapshot(value: uint64) | Reset

  /** counter and running are the program's state. The rest is the ledger, kept
      without looking at the counter: saved is the total that was loaded and
      entries all that happened since; last is what the running process last
      reported; due is the saved total and all bytes reported since the last
      reset, over all processes; surfaced is what the counter shows beyond that;
      own is the running process's part in those two; hidden is what the next
      snapshot will surface; clean tells that no reset met more bytes than a
      counter can show. */
  datatype Ledger = Ledger(
    counter: Counter, running: bool, saved: uint64, entries: seq<Entry>,
    last: nat, due: nat, surfaced: nat, own: nat, hidden: nat, clean: bool)

  function Opening(saved: uint64): Ledger {
    Ledger(Loaded(saved), false, saved, [], 0, saved, 0, 0, 0, true)
  }

  predicate IsOpening(l: Ledger) {
    l == Opening(l.saved)
  }

  /** Snapshots are applied only while a process runs, and a process never
      reports less than before. */
  predicate Allowed(l: Ledger, e: Entry) {
    match e
    case Start => !l.running
    case Exit => l.running
    case Snapshot(value) => l.running && l.last <= value
    case Reset => true
  }

  /** What a reset fails to forget: of the bytes that the total had no room to
      show, those of the running process, and what an earlier reset left. */
  function Unforgotten(l: Ledger): nat {
    if !l.running then 0
    else if l.hidden > 0 then l.hidden
    else if l.due + l.surfaced <= MAX then 0
    else Min(l.own, l.due + l.surfaced - MAX)
  }

  function Post(l: Ledger, e: Entry): Ledger {
    var l1 := l.(entries := l.entries + [e]);
    match e
    case Start => l1.(counter := Rebased(l.counter), running := true, last := 0, own := 0, hidden := 0)
    case Exit => l1.(running := false)
    case Snapshot(value) =>
      var newer := if l.last <= value then value - l.last else 0;
      l1.(counter := Applied(l.counter, value), last := value, due := l.due + newer,
          surfaced := l.surfaced + l.hidden, own := l.own + newer + l.hidden, hidden := 0)
    case Reset =>
      l1.(counter := Cleared(l.counter), due := 0, surfaced := 0, own := 0,
          hidden := Unforgotten(l), clean := l.clean && l.due + l.surfaced <= MAX)
  }

  ghost predicate Next(l: Ledger, l': Ledger) {
    exists e :: Allowed(l, e) && l' == Post(l, e)
  }

  ghost predicate Run(run: seq<Ledger>) {
    Runs.IsRun(IsOpening, Next, run)
  }

  // ---------------------------------------------------------- No wrap-around

  /** What makes the reset action's arithmetic exact. */
  predicate Sound(c: Counter) {
    c.base <= c.total && c.reset + (c.total - c.base) <= MAX
  }

  lemma NoWrap(c: Counter)
    requires Sound(c)
    ensures WrapSub(c.total, c.base) == c.total - c.base
    ensures Cleared(c).reset == c.reset + (c.total - c.base)
  {
  }

  /** Every operation keeps it, for arbitrary reported values and in any order,
      and a loaded counter starts with it. */
  lemma OperationsStaySound(c: Counter, value: uint64)
    requires Sound(c)
    ensures Sound(Applied(c, value)) && Sound(Cleared(c)) && Sound(Rebased(c))
    ensures Sound(Loaded(value))
  {
  }

  /** Applying a snapshot again changes nothing, even one below the offset. */
  lemma RepeatedSnapshot(c: Counter, value: uint64)
    ensures Applied(Applied(c, value), value) == Applied(c, value)
  {
  }

  // -------------------------------------------------------------- The ledger

  predicate Balanced(l: Ledger) {
    && Sound(l.counter)
    && l.last <= MAX
    && l.counter.total == Min(MAX, l.due + l.surfaced)
    && (l.running ==> l.own + l.hidden == l.last - l.counter.reset)
    && (l.running && l.hidden == 0 ==>
          l.own <= l.due + l.surfaced && l.counter.base == Min(MAX, l.due + l.surfaced - l.own))
    && (l.running && l.hidden > 0 ==> l.counter.base == l.due == l.surfaced == l.own == 0)
    && (l.clean ==> l.hidden == l.surfaced == 0)
  }

  lemma PostStaysBalanced(l: Ledger, e: Entry)
    requires Balanced(l) && Allowed(l, e)
    ensures Balanced(Post(l, e))
  {
  }

  lemma NextStaysBalanced(l: Ledger, l': Ledger)
    requires Balanced(l) && Next(l, l')
    ensures Balanced(l')
  {
    var e :| Allowed(l, e) && l' == Post(l, e);
    PostStaysBalanced(l, e);
  }

  lemma RunStaysBalanced(run: seq<Ledger>, i: nat)
    requires Run(run) && i < |run|
    ensures Balanced(run[i])
  {
    forall l, l' | Balanced(l) && Next(l, l')
      ensures Balanced(l')
    {
      NextStaysBalanced(l, l');
    }
    Runs.Throughout(IsOpening, Next, Balanced, run, i);
  }

  /** Main result: over every run, the shown total is the ledger's, cut off at
      the largest uint64. */
  lemma ShownTotal(run: seq<Ledger>, i: nat)
    requires Run(run) && i < |run|
    ensures run[i].counter.total == Min(0xFFFF_FFFF_FFFF_FFFF, run[i].due + run[i].surfaced)
  {
    RunStaysBalanced(run, i);
  }

  /** Conservation: if no reset met more than a counter can show, the total shown
      is exactly what is due, cut off at the largest uint64. */
  lemma ExactTotal(run: seq<Ledger>, i: nat)
    requires Run(run) && i < |run| && run[i].clean
    ensures run[i].counter.total == Min(MAX, run[i].due)
  {
    RunStaysBalanced(run, i);
  }

  /** A snapshot of a running process never falls below the reset offset, so it
      never takes the branch that discards the offset. */
  lemma SnapshotsClearTheOffset(run: seq<Ledger>, i: nat, value: uint64)
    requires Run(run) && i < |run| && Allowed(run[i], Snapshot(value))
    ensures value >= run[i].counter.reset
  {
    RunStaysBalanced(run, i);
  }

  // ------------------------------------------------- Nothing is counted twice

  /** The entries before the latest start. */
  function BeforeStart(es: seq<Entry>): (r: seq<Entry>)
    ensures |r| <= |es| && (es != [] ==> |r| < |es|)
  {
    if es == [] then []
    else if es[|es| - 1] == Start then es[..|es| - 1]
    else BeforeStart(es[..|es| - 1])
  }

  /** The sum, over all processes, of the last value each reported. */
  function Reported(es: seq<Entry>): nat
    decreases |es|
  {
    if es == [] then 0
    else match es[|es| - 1]
      case Snapshot(value) => value + Reported(BeforeStart(es))
      case _ => Reported(es[..|es| - 1])
  }

  predicate CountedOnce(l: Ledger) {
    Reset !in l.entries ==>
      && l.due == l.saved + Reported(l.entries)
      && (l.running ==> l.due == l.saved + Reported(BeforeStart(l.entries)) + l.last)
  }

  lemma NextCountsOnce(l: Ledger, l': Ledger)
    requires CountedOnce(l) && Next(l, l')
    ensures CountedOnce(l')
  {
  }

  /** Without resets, what is due is the saved total and, for each process, the
      last value it reported, once. */
  lemma EachProcessCountsOnce(run: seq<Ledger>, i: nat)
    requires Run(run) && i < |run| && Reset !in run[i].entries
    ensures run[i].due == run[i].saved + Reported(run[i].entries)
  {
    forall l, l' | CountedOnce(l) && Next(l, l')
      ensures CountedOnce(l')
    {
      NextCountsOnce(l, l');
    }
    Runs.Throughout(IsOpening, Next, CountedOnce, run, i);
  }

  // ---------------------------------------------------- Any list of entries

  /** The ledger after the entries. */
  function Replay(saved: uint64, es: seq<Entry>): Ledger {
    if es == [] then Opening(saved) else Post(Replay(saved, es[..|es| - 1]), es[|es| - 1])
  }

  predicate AllAllowed(saved: uint64, es: seq<Entry>) {
    es == [] || (AllAllowed(saved, es[..|es| - 1]) && Allowed(Replay(saved, es[..|es| - 1]), es[|es| - 1]))
  }

  lemma ReplaySnoc(saved: uint64, es: seq<Entry>, e: Entry)
    ensures Replay(saved, es + [e]) == Post(Replay(saved, es), e)
    ensures AllAllowed(saved, es + [e]) <==> AllAllowed(saved, es) && Allowed(Replay(saved, es), e)
  {
    CutInFirst(es, [e], |es|);
    WholeSlice(es);
  }

  lemma {:induction false} ReplayIsRun(saved: uint64, es: seq<Entry>) returns (run: seq<Ledger>)
    requires AllAllowed(saved, es)
    ensures Run(run) && run[|run| - 1] == Replay(saved, es)
  {
    if es == [] {
      run := [Opening(saved)];
    } else {
      run := ReplayIsRun(saved, es[..|es| - 1]);
      run := Extend(run, es[|es| - 1]);
    }
  }

  lemma PostAdds(l: Ledger, e: Entry)
    ensures Post(l, e).entries == l.entries + [e] && Post(l, e).saved == l.saved
    ensures e != Reset ==> Post(l, e).clean == l.clean
  {
  }

  lemma {:induction false} ReplayKeepsEntries(saved: uint64, es: seq<Entry>)
    ensures Replay(saved, es).entries == es && Replay(saved, es).saved == saved
    ensures Reset !in es ==> Replay(saved, es).clean
  {
    if es != [] {
      var front := es[..|es| - 1];
      ReplayKeepsEntries(saved, front);
      PostAdds(Replay(saved, front), es[|es| - 1]);
      SplitJoins(es, |es| - 1);
    }
  }

  // --------------------------------------------------------- Saturated resets

  /** The next snapshot after a reset of c shows only bytes that are newer than
      the last one. */
  predicate Forgets(c: Counter, last: nat, value: uint64)
    requires last <= value
  {
    Applied(Cleared(c), value).total == value - last
  }

  /** In any run, at any time while a process runs, a reset makes the counter
      forget what was reported so far exactly when the total shows all that the
      process reported beyond the offset; in terms of the ledger, when nothing
      is hidden and either the process has no part in the total or nothing was
      cut off. */
  lemma ResetForgetsIff(run: seq<Ledger>, i: nat, value: uint64)
    requires Run(run) && i < |run| && Allowed(run[i], Snapshot(value))
    ensures var l := run[i];
      && (Forgets(l.counter, l.last, value) <==> l.counter.total - l.counter.base == l.last - l.counter.reset)
      && (Forgets(l.counter, l.last, value) <==> l.hidden == 0 && (l.own == 0 || l.due + l.surfaced <= MAX))
  {
    RunStaysBalanced(run, i);
    NoWrap(run[i].counter);
  }

  /** A counter restored at the largest total: all the process reported before
      the reset comes back with the next snapshot, though nothing is due. */
  lemma SaturatedResetResurfaces(value: uint64) returns (run: seq<Ledger>)
    ensures Run(run)
    ensures run[|run| - 1].due == 0 && run[|run| - 1].counter.total == value
  {
    var l0 := Opening(MAX);
    run := [l0];
    run := Extend(run, Start);
    run := Extend(run, Snapshot(value));
    run := Extend(run, Reset);
    run := Extend(run, Snapshot(value));
  }

  lemma Extend(run: seq<Ledger>, e: Entry) returns (longer: seq<Ledger>)
    requires Run(run) && Allowed(run[|run| - 1], e)
    ensures Run(longer) && longer[|longer| - 1] == Post(run[|run| - 1], e)
  {
    var l := run[|run| - 1];
    assert Next(l, Post(l, e));
    Runs.OneMore(IsOpening, Next, run, Post(l, e));
    longer := run + [Post(l, e)];
  }
}
