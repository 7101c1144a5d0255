/** The byte counters under the lifecycle: whatever interleaving of operations,
    processes and telemetry a run takes, what reaches the counters is an allowed
    ledger history, so the ledger's laws hold of every instance. */
module LifecycleTraffic {
  import opened Wrappers
  import opened ByteCounter
  import opened Instance
  import opened Lifecycle
  import opened LifecycleProof
  import opened Sequences
  import Laws = LifecycleLaws
  import Ledger = ByteLedger
  import Runs

  function Posting(h: Happening, line: Line): seq<Ledger.Entry> {
    match h
    case Begun => [Ledger.Start]
    case Ended => [Ledger.Exit]
    case Reported(values, _, _) => [Ledger.Snapshot(ValueOf(values, line))]
    case Hushed => []
    case Zeroed => [Ledger.Reset]
  }

  /** The book as one counter's ledger has it. */
  function Entries(book: seq<Happening>, line: Line): seq<Ledger.Entry> {
    if book == [] then [] else Entries(book[..|book| - 1], line) + Posting(book[|book| - 1], line)
  }

  function LedgerOf(opening: Values, book: seq<Happening>, line: Line): Ledger.Ledger {
    Ledger.Replay(ValueOf(opening, line), Entries(book, line))
  }

  /** The book is an allowed history, the ledger that replays it has the
      instance's counter and knows whether it has a process, and that process has
      reported no less than the ledger last saw. */
  predicate Mirrors(opening: Values, book: seq<Happening>, c: Counter, reported: Option<uint64>, line: Line) {
    var ledger := LedgerOf(opening, book, line);
    && Ledger.AllAllowed(ValueOf(opening, line), Entries(book, line))
    && ledger.counter == c
    && (ledger.running <==> reported.Some?)
    && (ledger.running ==> ledger.last <= reported.value)
  }

  /** What the instance's process last reported. */
  function CommandReported(l: Life, line: Line): Option<uint64> {
    if l.f.cmd.Some? && l.f.cmd.value < |l.procs|
    then Some(ValueOf(l.procs[l.f.cmd.value].reported, line)) else None
  }

  predicate LineOk(l: Life, line: Line) {
    Mirrors(l.past.opening, l.past.book, CounterOf(l.f.traffic, line), CommandReported(l, line), line)
  }

  predicate TrafficInv(l: Life) {
    Inv(l) && forall line :: LineOk(l, line)
  }

  // ---------------------------------------------------- What each happening does

  lemma EntriesSnoc(book: seq<Happening>, h: Happening, line: Line)
    ensures Entries(book + [h], line) == Entries(book, line) + Posting(h, line)
  {
    CutInFirst(book, [h], |book|);
    WholeSlice(book);
  }

  lemma BookSnoc(opening: Values, book: seq<Happening>, h: Happening, line: Line, e: Ledger.Entry)
    requires Posting(h, line) == [e]
    ensures LedgerOf(opening, book + [h], line) == Ledger.Post(LedgerOf(opening, book, line), e)
    ensures Ledger.AllAllowed(ValueOf(opening, line), Entries(book + [h], line)) <==>
              && Ledger.AllAllowed(ValueOf(opening, line), Entries(book, line))
              && Ledger.Allowed(LedgerOf(opening, book, line), e)
  {
    EntriesSnoc(book, h, line);
    Ledger.ReplaySnoc(ValueOf(opening, line), Entries(book, line), e);
  }

  lemma BeginMirrors(opening: Values, book: seq<Happening>, c: Counter, line: Line)
    requires Mirrors(opening, book, c, None, line)
    ensures Mirrors(opening, book + [Begun], Rebased(c), Some(0), line)
  {
    BookSnoc(opening, book, Begun, line, Ledger.Start);
  }

  lemma EndMirrors(opening: Values, book: seq<Happening>, c: Counter, reported: uint64, line: Line)
    requires Mirrors(opening, book, c, Some(reported), line)
    ensures Mirrors(opening, book + [Ended], c, None, line)
  {
    BookSnoc(opening, book, Ended, line, Ledger.Exit);
  }

  lemma ReportMirrors(
      opening: Values, book: seq<Happening>, c: Counter, before: uint64, h: Happening, line: Line)
    requires h.Reported? && Mirrors(opening, book, c, Some(before), line) && before <= ValueOf(h.values, line)
    ensures Mirrors(opening, book + [h], Applied(c, ValueOf(h.values, line)), Some(ValueOf(h.values, line)), line)
  {
    BookSnoc(opening, book, h, line, Ledger.Snapshot(ValueOf(h.values, line)));
  }

  lemma HushMirrors(opening: Values, book: seq<Happening>, c: Counter, reported: Option<uint64>, line: Line)
    requires Mirrors(opening, book, c, reported, line)
    ensures Mirrors(opening, book + [Hushed], c, reported, line)
  {
    EntriesSnoc(book, Hushed, line);
    EmptyIsUnit(Entries(book, line));
  }

  lemma ZeroMirrors(opening: Values, book: seq<Happening>, c: Counter, reported: Option<uint64>, line: Line)
    requires Mirrors(opening, book, c, reported, line)
    ensures Mirrors(opening, book + [Zeroed], Cleared(c), reported, line)
  {
    BookSnoc(opening, book, Zeroed, line, Ledger.Reset);
  }

  // ------------------------------------------------------ What each step does

  /** l1 is what the program made of l, and more is what is added to the book. */
  predicate LineAfter(l: Life, more: seq<Happening>, l1: Life, line: Line) {
    Mirrors(l.past.opening, l.past.book + more, CounterOf(l1.f.traffic, line), CommandReported(l1, line), line)
  }

  /** Nothing that the counters depend on changed. */
  predicate Unposted(l: Life, l1: Life) {
    && l1.f.traffic == l.f.traffic && l1.f.cmd == l.f.cmd
    && |l1.procs| == |l.procs|
    && forall g: nat | g < |l.procs| :: l1.procs[g].reported == l.procs[g].reported
  }

  /** The instance has no command any more. */
  predicate Dropped(l: Life, l1: Life) {
    l1.f.traffic == l.f.traffic && l1.f.cmd == None
  }

  lemma DropKeepsLine(l: Life, l1: Life, line: Line)
    requires Inv(l) && LineOk(l, line) && Dropped(l, l1)
    ensures LineAfter(l, if l.f.cmd.Some? then [Ended] else [], l1, line)
  {
    EmptyIsUnit(l.past.book);
    if l.f.cmd.Some? {
      EndMirrors(l.past.opening, l.past.book, CounterOf(l.f.traffic, line), CommandReported(l, line).value, line);
    }
  }

  lemma UnpostedKeepsLine(l: Life, l1: Life, line: Line)
    requires LineOk(l, line) && Unposted(l, l1)
    ensures LineAfter(l, [], l1, line)
  {
    EmptyIsUnit(l.past.book);
  }

  lemma OperationPosts(l: Life, a: Action, down: bool)
    requires Inv(l) && Enabled(l, a) && IsOperation(a) && !a.ALaunch? && !a.APatch?
    ensures Unposted(l, Operate(l, a, down)) || Dropped(l, Operate(l, a, down))
  {
  }

  lemma WaitPosts(l: Life, a: Action)
    requires Enabled(l, a) && IsWait(a)
    ensures Unposted(l, Wait(l, a))
  {
  }

  lemma ProcessStepPosts(l: Life, a: Action)
    requires Enabled(l, a) && IsProcessStep(a)
    ensures Unposted(l, Update(l, a.g, Progressed(l, a)))
  {
  }

  lemma TelemetryPosts(l: Life, a: Action)
    requires Enabled(l, a) && (a.AHello? || a.AClear?)
    ensures Unposted(l, Report(l, a))
  {
  }

  lemma NoticePosts(l: Life, a: Action)
    requires Enabled(l, a) && IsNotice(a)
    ensures Unposted(l, Notify(l, a))
  {
  }

  lemma SettlePosts(l: Life, g: nat)
    requires Enabled(l, ASettle(g))
    ensures Unposted(l, Settle(l, g)) || Dropped(l, Settle(l, g))
  {
  }

  /** The process's own channel is the instance's. */
  lemma ServesIsCurrent(l: Life, g: nat)
    requires Inv(l) && g < |l.procs|
    ensures Serves(l, g) <==> Current(l, g)
  {
  }

  lemma SnapshotPosts(l: Life, g: nat, values: Values, tcps: nat, udps: nat, line: Line)
    requires Inv(l) && Enabled(l, ASnapshot(g, values, tcps, udps)) && Current(l, g)
    ensures ValueOf(l.procs[g].reported, line) <= ValueOf(values, line)
    ensures CommandReported(l, line) == Some(ValueOf(l.procs[g].reported, line))
    ensures CommandReported(Snapshot(l, g, values, tcps, udps), line) == Some(ValueOf(values, line))
    ensures CounterOf(Snapshot(l, g, values, tcps, udps).f.traffic, line)
         == Applied(CounterOf(l.f.traffic, line), ValueOf(values, line))
  {
  }

  lemma LateSnapshotKeepsLine(l: Life, g: nat, values: Values, tcps: nat, udps: nat, line: Line)
    requires Enabled(l, ASnapshot(g, values, tcps, udps)) && !Current(l, g) && LineOk(l, line)
    ensures LineAfter(l, [], Snapshot(l, g, values, tcps, udps), line)
  {
    EmptyIsUnit(l.past.book);
  }

  lemma SnapshotKeepsLine(l: Life, g: nat, values: Values, tcps: nat, udps: nat, line: Line)
    requires Inv(l) && LineOk(l, line) && Enabled(l, ASnapshot(g, values, tcps, udps))
    ensures LineAfter(l, if Serves(l, g) then [Reported(values, tcps, udps)] else [], Snapshot(l, g, values, tcps, udps), line)
  {
    ServesIsCurrent(l, g);
    if Current(l, g) {
      SnapshotPosts(l, g, values, tcps, udps, line);
      ReportMirrors(l.past.opening, l.past.book, CounterOf(l.f.traffic, line),
                    ValueOf(l.procs[g].reported, line), Reported(values, tcps, udps), line);
    } else {
      LateSnapshotKeepsLine(l, g, values, tcps, udps, line);
    }
  }

  lemma PatchKeepsLine(l: Life, restart: Option<bool>, reset: bool, line: Line)
    requires LineOk(l, line)
    ensures LineAfter(l, if reset && l.stored && !l.f.deleted then [Zeroed] else [], Patch(l, restart, reset), line)
  {
    EmptyIsUnit(l.past.book);
    ZeroMirrors(l.past.opening, l.past.book, CounterOf(l.f.traffic, line), CommandReported(l, line), line);
  }

  lemma LaunchPosts(l: Life, outcome: Outcome, line: Line)
    requires Inv(l) && l.op.Launching?
    ensures CommandReported(l, line) == None
    ensures CommandReported(Launch(l, outcome), line) == if outcome == Started then Some(0) else None
    ensures CounterOf(Launch(l, outcome).f.traffic, line) == Rebased(CounterOf(l.f.traffic, line))
  {
  }

  lemma LaunchKeepsLine(l: Life, outcome: Outcome, line: Line)
    requires Inv(l) && l.op.Launching? && LineOk(l, line)
    ensures LineAfter(l, if outcome == Started then [Begun] else [Begun, Ended], Launch(l, outcome), line)
  {
    var c, book := CounterOf(l.f.traffic, line), l.past.book;
    LaunchPosts(l, outcome, line);
    BeginMirrors(l.past.opening, book, c, line);
    EndMirrors(l.past.opening, book + [Begun], Rebased(c), 0, line);
    assert [Begun, Ended] == [Begun] + [Ended];
    ConcatAssoc(book, [Begun], [Ended]);
  }

  lemma ActedKeepsLine(l: Life, a: Action, down: bool, line: Line)
    requires Inv(l) && Enabled(l, a) && LineOk(l, line)
    ensures LineAfter(l, Happened(l, a, Acted(l, a, down).f), Acted(l, a, down), line)
  {
    if a.ASnapshot? {
      SnapshotKeepsLine(l, a.g, a.values, a.tcps, a.udps, line);
    } else if a.APatch? {
      PatchKeepsLine(l, a.restart, a.reset, line);
    } else if a.ALaunch? {
      LaunchKeepsLine(l, a.outcome, line);
    } else {
      PlainStepKeepsLine(l, a, down, line);
    }
  }

  lemma PlainStepKeepsLine(l: Life, a: Action, down: bool, line: Line)
    requires Inv(l) && Enabled(l, a) && LineOk(l, line)
    requires !a.ASnapshot? && !a.APatch? && !a.ALaunch?
    ensures LineAfter(l, Happened(l, a, Acted(l, a, down).f), Acted(l, a, down), line)
  {
    PlainStepPosts(l, a, down);
    PlainLine(l, a, Acted(l, a, down), line);
  }

  lemma PlainLine(l: Life, a: Action, l1: Life, line: Line)
    requires Inv(l) && LineOk(l, line) && !a.ASnapshot? && !a.APatch? && !a.ALaunch?
    requires Unposted(l, l1) || (Dropped(l, l1) && !a.AClear?)
    ensures LineAfter(l, Happened(l, a, l1.f), l1, line)
  {
    if Unposted(l, l1) {
      UnpostedKeepsLine(l, l1, line);
      if a.AClear? {
        HushMirrors(l.past.opening, l.past.book, CounterOf(l.f.traffic, line), CommandReported(l, line), line);
      }
    } else {
      DropKeepsLine(l, l1, line);
    }
  }

  lemma PlainStepPosts(l: Life, a: Action, down: bool)
    requires Inv(l) && Enabled(l, a) && !a.ASnapshot? && !a.APatch? && !a.ALaunch?
    ensures Unposted(l, Acted(l, a, down)) || (Dropped(l, Acted(l, a, down)) && !a.AClear?)
  {
    if IsOperation(a) {
      OperationPosts(l, a, down);
    } else if IsWait(a) {
      WaitPosts(l, a);
    } else if IsProcessStep(a) {
      ProcessStepPosts(l, a);
    } else if a.ASettle? {
      SettlePosts(l, a.g);
    } else if IsReport(a) {
      TelemetryPosts(l, a);
    } else {
      NoticePosts(l, a);
    }
  }

  lemma NextKeepsTraffic(l: Life, l': Life)
    requires TrafficInv(l) && Laws.Next(l, l')
    ensures TrafficInv(l')
  {
    if l' != l {
      var a, down :| Enabled(l, a) && l' == Do(l, a, down);
      DoKeepsInv(l, a, down);
      forall line
        ensures LineOk(l', line)
      {
        assert LineOk(l, line);
        ActedKeepsLine(l, a, down, line);
      }
    }
  }

  lemma InitialTraffic(l: Life)
    requires Initial(l)
    ensures TrafficInv(l)
  {
    InitialInv(l);
  }

  lemma RunKeepsTraffic(run: seq<Life>, i: nat)
    requires Laws.Run(run) && i < |run|
    ensures TrafficInv(run[i])
  {
    forall l | Initial(l)
      ensures TrafficInv(l)
    {
      InitialTraffic(l);
    }
    forall l, l' | TrafficInv(l) && Laws.Next(l, l')
      ensures TrafficInv(l')
    {
      NextKeepsTraffic(l, l');
    }
    Runs.Throughout(Initial, Laws.Next, TrafficInv, run, i);
  }

  // ------------------------------------------------------- What every run keeps

  /** The state of one counter after a run of the lifecycle is the last state of
      an allowed run of its ledger. */
  lemma LedgerRun(run: seq<Life>, i: nat, line: Line) returns (ledgers: seq<Ledger.Ledger>)
    requires Laws.Run(run) && i < |run|
    ensures Ledger.Run(ledgers)
    ensures ledgers[|ledgers| - 1] == LedgerOf(run[i].past.opening, run[i].past.book, line)
    ensures ledgers[|ledgers| - 1].counter == CounterOf(run[i].f.traffic, line)
    ensures ledgers[|ledgers| - 1].running <==> run[i].f.cmd.Some?
  {
    RunKeepsTraffic(run, i);
    assert LineOk(run[i], line);
    ledgers := Ledger.ReplayIsRun(ValueOf(run[i].past.opening, line), Entries(run[i].past.book, line));
  }

  /** Conservation under concurrency: each total is what its ledger says, cut off
      at the largest uint64, and exactly the bytes due if no reset met more than
      a counter can show. */
  lemma TotalsAreExact(run: seq<Life>, i: nat, line: Line)
    requires Laws.Run(run) && i < |run|
    ensures var total, ledger := CounterOf(run[i].f.traffic, line).total, LedgerOf(run[i].past.opening, run[i].past.book, line);
      && total == Min(MAX, ledger.due + ledger.surfaced)
      && (ledger.clean ==> total == Min(MAX, ledger.due))
  {
    var ledgers := LedgerRun(run, i, line);
    Ledger.ShownTotal(ledgers, |ledgers| - 1);
    if ledgers[|ledgers| - 1].clean {
      Ledger.ExactTotal(ledgers, |ledgers| - 1);
    }
  }

  lemma {:induction false} EntriesOf(book: seq<Happening>, line: Line)
    ensures Ledger.Reset in Entries(book, line) <==> Zeroed in book
  {
    if book != [] {
      EntriesOf(book[..|book| - 1], line);
      EndsWithLast(book);
    }
  }

  /** If the counters were never reset, that is the total the instance was made
      with and, once for each of its processes, the last value that reached it. */
  lemma TotalsCountEachProcessOnce(run: seq<Life>, i: nat, line: Line)
    requires Laws.Run(run) && i < |run| && Zeroed !in run[i].past.book
    ensures CounterOf(run[i].f.traffic, line).total
         == Min(MAX, ValueOf(run[i].past.opening, line) + Ledger.Reported(Entries(run[i].past.book, line)))
  {
    var ledgers := LedgerRun(run, i, line);
    var end := |ledgers| - 1;
    EntriesOf(run[i].past.book, line);
    Ledger.ReplayKeepsEntries(ValueOf(run[i].past.opening, line), Entries(run[i].past.book, line));
    Ledger.EachProcessCountsOnce(ledgers, end);
    Ledger.ExactTotal(ledgers, end);
  }
}
