/** What the program shows of what happened: over every run, the live figures are
    those last reported, every line of the running process is published, once and
    in order, and so is every snapshot taken for a state event. */
module LifecycleHistory {
  import opened Wrappers
  import opened Instance
  import opened Lifecycle
  import opened LifecycleProof
  import opened Sequences
  import Laws = LifecycleLaws
  import Traffic = LifecycleTraffic
  import Runs

  /** The processes whose lines were published. */
  function Shown(published: seq<Notice>): seq<nat> {
    if published == [] then []
    else
      var n := published[|published| - 1];
      Shown(published[..|published| - 1]) + if n.LogNotice? then [n.process] else []
  }

  /** Those whose lines were to be published. */
  function Heard(lines: seq<Output>): seq<nat> {
    if lines == [] then []
    else
      var o := lines[|lines| - 1];
      Heard(lines[..|lines| - 1]) + if o.heard then [o.process] else []
  }

  function Views(published: seq<Notice>): multiset<View> {
    if published == [] then multiset{}
    else
      var n := published[|published| - 1];
      Views(published[..|published| - 1]) + if n.StateNotice? then multiset{n.view} else multiset{}
  }

  /** The active sessions that were last reported since the launch. */
  function Figures(book: seq<Happening>): (nat, nat) {
    if book == [] then (0, 0)
    else match book[|book| - 1]
      case Reported(_, tcps, udps) => (tcps, udps)
      case Zeroed => Figures(book[..|book| - 1])
      case _ => (0, 0)
  }

  predicate LinesOk(l: Life) {
    Shown(l.published) == Heard(l.past.lines)
  }

  predicate ViewsOk(l: Life) {
    Views(l.published) + multiset(l.views) == multiset(l.past.taken)
  }

  predicate LiveOk(l: Life) {
    l.f.live == Live(0, 0, Figures(l.past.book).0, Figures(l.past.book).1)
  }

  predicate HistoryInv(l: Life) {
    Inv(l) && LinesOk(l) && ViewsOk(l) && LiveOk(l)
  }

  lemma PublishedSnoc(published: seq<Notice>, n: Notice)
    ensures Shown(published + [n]) == Shown(published) + if n.LogNotice? then [n.process] else []
    ensures Views(published + [n]) == Views(published) + if n.StateNotice? then multiset{n.view} else multiset{}
  {
    CutInFirst(published, [n], |published|);
    WholeSlice(published);
  }

  lemma HeardSnoc(lines: seq<Output>, o: Output)
    ensures Heard(lines + [o]) == Heard(lines) + if o.heard then [o.process] else []
  {
    CutInFirst(lines, [o], |lines|);
    WholeSlice(lines);
  }

  lemma FiguresSnoc(book: seq<Happening>, h: Happening)
    ensures Figures(book + [h]) == match h
      case Reported(_, tcps, udps) => (tcps, udps)
      case Zeroed => Figures(book)
      case _ => (0, 0)
  {
    CutInFirst(book, [h], |book|);
    WholeSlice(book);
  }

  // ------------------------------------------------------------------ Notices

  lemma QuietStepPublishesNothing(l: Life, a: Action, down: bool)
    requires Enabled(l, a) && !IsNotice(a)
    ensures Acted(l, a, down).published == l.published && Acted(l, a, down).views == l.views
  {
  }

  lemma NoticeKeepsLines(l: Life, a: Action, l': Life)
    requires LinesOk(l) && Enabled(l, a) && IsNotice(a)
    requires l'.published == Notify(l, a).published && l'.past == Remembered(l, a, l.f)
    ensures LinesOk(l')
  {
    EmptyIsUnit(Shown(l.published));
    EmptyIsUnit(Heard(l.past.lines));
    match a
    case ALog(g) =>
      PublishedSnoc(l.published, LogNotice(g));
      HeardSnoc(l.past.lines, Output(g, l.f.cmd == Some(g) && !l.f.deleted));
    case ATakeView =>
    case APublish(i) => PublishedSnoc(l.published, StateNotice(l.views[i]));
  }

  lemma TakeOut(views: seq<View>, i: nat)
    requires i < |views|
    ensures multiset(views) == multiset(views[..i] + views[i + 1..]) + multiset{views[i]}
  {
    assert views == (views[..i] + [views[i]]) + views[i + 1..];
  }

  lemma PublishKeepsViews(l: Life, i: nat)
    requires i < |l.views|
    ensures Views(Publish(l, i).published) + multiset(Publish(l, i).views) == Views(l.published) + multiset(l.views)
  {
    PublishedSnoc(l.published, StateNotice(l.views[i]));
    TakeOut(l.views, i);
  }

  lemma NoticeKeepsViews(l: Life, a: Action, l': Life)
    requires ViewsOk(l) && Enabled(l, a) && IsNotice(a)
    requires l'.published == Notify(l, a).published && l'.views == Notify(l, a).views
    requires l'.past == Remembered(l, a, l.f)
    ensures ViewsOk(l')
  {
    match a
    case ALog(g) => PublishedSnoc(l.published, LogNotice(g));
    case ATakeView =>
    case APublish(i) => PublishKeepsViews(l, i);
  }

  // ------------------------------------------------------------- Live figures

  /** The figures after a step, and what it adds to the book. */
  predicate LiveAfter(l: Life, more: seq<Happening>, f: Fields) {
    f.live == Live(0, 0, Figures(l.past.book + more).0, Figures(l.past.book + more).1)
  }

  lemma LiveUnchanged(l: Life, f: Fields)
    requires LiveOk(l) && f.live == l.f.live
    ensures LiveAfter(l, [], f)
  {
    EmptyIsUnit(l.past.book);
  }

  lemma CommandDropped(l: Life, f: Fields)
    requires Inv(l) && LiveOk(l) && f.cmd == None && f.live == IDLE
    ensures LiveAfter(l, if l.f.cmd.Some? then [Ended] else [], f)
  {
    EmptyIsUnit(l.past.book);
    FiguresSnoc(l.past.book, Ended);
  }

  lemma OperationKeepsLive(l: Life, a: Action, down: bool)
    requires Inv(l) && LiveOk(l) && Enabled(l, a) && IsOperation(a) && !a.ALaunch? && !a.APatch?
    ensures var f := Operate(l, a, down).f; (f.live == l.f.live && f.cmd == l.f.cmd) || (f.cmd == None && f.live == IDLE)
  {
  }

  lemma LaunchKeepsLive(l: Life, outcome: Outcome)
    requires LiveOk(l)
    ensures LiveAfter(l, if outcome == Started then [Begun] else [Begun, Ended], Launch(l, outcome).f)
  {
    var book := l.past.book;
    FiguresSnoc(book, Begun);
    FiguresSnoc(book + [Begun], Ended);
    assert [Begun, Ended] == [Begun] + [Ended];
    ConcatAssoc(book, [Begun], [Ended]);
  }

  lemma PatchKeepsLive(l: Life, restart: Option<bool>, reset: bool)
    requires LiveOk(l)
    ensures LiveAfter(l, if reset && l.stored && !l.f.deleted then [Zeroed] else [], Patch(l, restart, reset).f)
  {
    EmptyIsUnit(l.past.book);
    FiguresSnoc(l.past.book, Zeroed);
  }

  lemma ReportKeepsLive(l: Life, a: Action)
    requires Inv(l) && LiveOk(l) && Enabled(l, a) && IsReport(a)
    ensures LiveAfter(l, Happened(l, a, Report(l, a).f), Report(l, a).f)
  {
    EmptyIsUnit(l.past.book);
    match a
    case ASettle(g) => SettleKeepsLive(l, g);
    case AHello(g) =>
    case ASnapshot(g, values, tcps, udps) =>
      Traffic.ServesIsCurrent(l, g);
      FiguresSnoc(l.past.book, Reported(values, tcps, udps));
    case AClear(g) =>
      Traffic.ServesIsCurrent(l, g);
      FiguresSnoc(l.past.book, Hushed);
  }

  lemma SettleKeepsLive(l: Life, g: nat)
    requires Inv(l) && LiveOk(l) && Enabled(l, ASettle(g))
    ensures LiveAfter(l, if l.f.cmd.Some? && Settle(l, g).f.cmd == None then [Ended] else [], Settle(l, g).f)
  {
    if Settle(l, g).f == l.f {
      LiveUnchanged(l, l.f);
    } else {
      CommandDropped(l, Settle(l, g).f);
    }
  }

  lemma OtherKeepsLive(l: Life, a: Action, down: bool)
    requires Enabled(l, a) && (IsWait(a) || IsProcessStep(a) || IsNotice(a))
    ensures Acted(l, a, down).f == l.f
  {
  }

  lemma ActedKeepsLive(l: Life, a: Action, down: bool)
    requires Inv(l) && LiveOk(l) && Enabled(l, a)
    ensures LiveAfter(l, Happened(l, a, Acted(l, a, down).f), Acted(l, a, down).f)
  {
    if a.ALaunch? {
      LaunchKeepsLive(l, a.outcome);
    } else if a.APatch? {
      PatchKeepsLive(l, a.restart, a.reset);
    } else if IsOperation(a) {
      OperationKeepsLive(l, a, down);
      OperationLive(l, a, Operate(l, a, down).f);
    } else if IsReport(a) {
      ReportKeepsLive(l, a);
    } else {
      OtherKeepsLive(l, a, down);
      LiveUnchanged(l, l.f);
    }
  }

  lemma OperationLive(l: Life, a: Action, f: Fields)
    requires Inv(l) && LiveOk(l) && IsOperation(a) && !a.ALaunch? && !a.APatch?
    requires (f.live == l.f.live && f.cmd == l.f.cmd) || (f.cmd == None && f.live == IDLE)
    ensures LiveAfter(l, Happened(l, a, f), f)
  {
    if f.cmd == None && f.live == IDLE {
      CommandDropped(l, f);
    } else {
      LiveUnchanged(l, f);
    }
  }

  // -------------------------------------------------------------------- Runs

  lemma DoKeepsHistory(l: Life, a: Action, down: bool)
    requires HistoryInv(l) && Enabled(l, a)
    ensures HistoryInv(Do(l, a, down))
  {
    DoKeepsInv(l, a, down);
    ActedKeepsLive(l, a, down);
    if IsNotice(a) {
      OtherKeepsLive(l, a, down);
      NoticeKeepsLines(l, a, Do(l, a, down));
      NoticeKeepsViews(l, a, Do(l, a, down));
    } else {
      QuietStepPublishesNothing(l, a, down);
    }
  }

  lemma NextKeepsHistory(l: Life, l': Life)
    requires HistoryInv(l) && Laws.Next(l, l')
    ensures HistoryInv(l')
  {
    if l' != l {
      var a, down :| Enabled(l, a) && l' == Do(l, a, down);
      DoKeepsHistory(l, a, down);
    }
  }

  lemma InitialHistory(l: Life)
    requires Initial(l)
    ensures HistoryInv(l)
  {
    InitialInv(l);
  }

  lemma RunKeepsHistory(run: seq<Life>, i: nat)
    requires Laws.Run(run) && i < |run|
    ensures HistoryInv(run[i])
  {
    forall l | Initial(l)
      ensures HistoryInv(l)
    {
      InitialHistory(l);
    }
    forall l, l' | HistoryInv(l) && Laws.Next(l, l')
      ensures HistoryInv(l')
    {
      NextKeepsHistory(l, l');
    }
    Runs.Throughout(Initial, Laws.Next, HistoryInv, run, i);
  }

  /** The logs that are published are, in order, exactly the lines written while
      the writing process was the command of an instance that was not deleted,
      whether or not it was already being stopped. */
  lemma LinesArePublished(run: seq<Life>, i: nat)
    requires Laws.Run(run) && i < |run|
    ensures Shown(run[i].published) == Heard(run[i].past.lines)
  {
    RunKeepsHistory(run, i);
  }

  /** Each snapshot taken for a state event is published once or still waits. */
  lemma SnapshotsArePublished(run: seq<Life>, i: nat)
    requires Laws.Run(run) && i < |run|
    ensures Views(run[i].published) + multiset(run[i].views) == multiset(run[i].past.taken)
  {
    RunKeepsHistory(run, i);
  }

  /** The active sessions shown are those of the last snapshot that a process
      which serves sent since it was launched, and none after its telemetry or
      the process ended. */
  lemma LiveFiguresAreLastReported(run: seq<Life>, i: nat)
    requires Laws.Run(run) && i < |run|
    ensures (run[i].f.live.tcps, run[i].f.live.udps) == Figures(run[i].past.book)
  {
    RunKeepsHistory(run, i);
  }
}
