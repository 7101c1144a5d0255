/** One instance under concurrency: a lifecycle operation that holds
    lifecycleMu, a monitor and a telemetry goroutine per launched process, log
    writers, and senders of state events. Every critical section of the
    instance's mutex is one step, except that a start takes it in one step and
    releases it in another. */
module Lifecycle {
  import opened Wrappers
  import opened ByteCounter
  import opened Instance

  /** Where a process's monitor is: in Wait; past Wait, flushing the logs; past
      its critical section; or done, with the exited channel closed. */
  datatype Monitor = Waiting | Flushing | Settling | Closed

  /** A launched process and what belongs to it. probe is the registry name its
      telemetry goroutine has accepted but not yet applied; identities records
      every identity applied for it, and reported the last byte counts it sent. */
  datatype Process = Process(
    url: Url, exit: Option<bool>, killed: bool, stopClosed: bool,
    monitor: Monitor, probe: Option<string>, identities: set<string>, reported: Values)

  /** Which operation holds lifecycleMu. */
  datatype Task =
    | ForStart | ForStop | ForShutdown | ForRestart | ForFailed
    | ForPut(url: Url, role: string) | ForDelete

  datatype Op =
    | Free
    | Entered(task: Task)
    | StopEntry(task: Task)
    | Signalled(task: Task, process: nat, exited: Option<nat>)
    | ForceKilled(task: Task)
    | StopLast(task: Task)
    | Halted(task: Task)
    | StartEntry(task: Task)
    | Launching(task: Task)

  /** What a snapshot for a state event shows about processes: how many had been
      launched and which one the instance had. */
  datatype View = View(launched: nat, cmd: Option<nat>)

  datatype Notice = LogNotice(process: nat) | StateNotice(view: View)

  /** What matters to the figures shown: a launch began; the command was dropped,
      or the launch failed; the process that serves reported; its telemetry ended;
      the counters were reset. */
  datatype Happening = Begun | Ended | Reported(values: Values, tcps: nat, udps: nat) | Hushed | Zeroed

  /** A line that a process wrote, and whether it was then the command of an
      instance that was not deleted. */
  datatype Output = Output(process: nat, heard: bool)

  /** What happened, told without regard to what the program made of it: the
      totals the instance was made with, what mattered to its figures, all lines
      written, and all snapshots taken for state events. */
  datatype History = History(opening: Values, book: seq<Happening>, lines: seq<Output>, taken: seq<View>)

  /** stored tells whether the instance is in the master's map; views are
      snapshots not yet published; published are the events in order. */
  datatype Life = Life(
    f: Fields, stored: bool, procs: seq<Process>, op: Op,
    views: seq<View>, published: seq<Notice>, past: History)

  function Fresh(url: Url, role: string, restart: bool, saved: Values): Life {
    Life(Made(url, role, restart, saved), true, [], Free, [], [], History(saved, [], [], []))
  }

  predicate MutexFree(l: Life) {
    !l.op.Launching?
  }

  predicate Gone(p: Process) {
    p.exit.Some? || p.killed
  }

  predicate StopClosed(l: Life) {
    l.f.stopped.Some? && l.f.stopped.value < |l.procs| && l.procs[l.f.stopped.value].stopClosed
  }

  predicate Current(l: Life, g: nat) {
    TelemetryCurrent(l.f, g, StopClosed(l))
  }

  // ----------------------------------------------------- Lifecycle operations

  function Acquire(l: Life, task: Task): Life {
    l.(op := match task
             case ForStart => StartEntry(task)
             case ForStop => StopEntry(task)
             case ForShutdown => StopEntry(task)
             case ForRestart => StopEntry(task)
             case _ => Entered(task))
  }

  /** restartFailedInstance's eligibility test. */
  function CheckFailed(l: Life): Life {
    if l.stored && l.f.restart && l.f.status == Error && l.f.runtimeFailure && !l.f.deleted
    then l.(op := StopEntry(ForFailed))
    else l.(op := Free)
  }

  /** handlePutInstance up to the stop. */
  function CheckPut(l: Life, url: Url, role: string): Life {
    if !l.stored || l.f.deleted || l.f.url == url then l.(op := Free)
    else l.(op := StopEntry(ForPut(url, role)))
  }

  /** handleDeleteInstance up to the stop. */
  function CheckDelete(l: Life): Life {
    if !l.stored || l.f.deleted then l.(op := Free)
    else l.(f := l.f.(deleted := true), op := StopEntry(ForDelete))
  }

  function CloseStopped(l: Life): seq<Process> {
    if l.f.stopped.Some? && l.f.stopped.value < |l.procs|
    then var c := l.f.stopped.value; l.procs[c := l.procs[c].(stopClosed := true)]
    else l.procs
  }

  /** stopInstanceLocked's first section. */
  function StopBegin(l: Life, task: Task): Life {
    match StopFinds(l.f)
    case AlreadyStopped => l.(op := Halted(task))
    case NoProcess => l.(f := ResetStopped(l.f), stored := true, op := Halted(task))
    case HasProcess(g, exited) => l.(procs := CloseStopped(l), op := Signalled(task, g, exited))
  }

  function Kill(procs: seq<Process>, g: nat): seq<Process> {
    if g < |procs| then procs[g := procs[g].(killed := true)] else procs
  }

  /** stopInstanceLocked's second section. */
  function StopEnd(l: Life, task: Task): Life {
    l.(f := ResetStopped(l.f), stored := true, op := Halted(task))
  }

  /** What each operation does once stopInstanceLocked has returned. */
  function Proceed(l: Life, task: Task): Life {
    match task
    case ForRestart => l.(op := StartEntry(task))
    case ForFailed => l.(op := StartEntry(task))
    case ForPut(url, role) => l.(f := Replaced(l.f, url, role), stored := true, op := StartEntry(task))
    case ForDelete => l.(stored := false, op := Free)
    case _ => l.(op := Free)
  }

  /** startInstanceLocked takes the mutex and makes its tests. */
  function StartTests(l: Life, task: Task, down: bool): Life {
    match StartVerdict(l.f, down)
    case Refused => l.(op := Free)
    case Rejected => l.(f := l.f.(status := Error, runtimeFailure := false), op := Free)
    case Accepted => l.(op := Launching(task))
  }

  /** ...and, without having released it, launches a process. */
  function Launch(l: Life, outcome: Outcome): Life {
    l.(f := Launched(l.f, outcome, |l.procs|), stored := true, op := Free,
       procs := if outcome == Started
                then l.procs + [Process(l.f.url, None, false, false, Waiting, None, {}, NOTHING)]
                else l.procs)
  }

  /** handlePatchInstance. */
  function Patch(l: Life, restart: Option<bool>, reset: bool): Life {
    if l.stored && !l.f.deleted then l.(f := Patched(l.f, restart, reset)) else l
  }

  // ------------------------------------------------- Goroutines of a process

  function Update(l: Life, g: nat, p: Process): Life
    requires g < |l.procs|
  {
    l.(procs := l.procs[g := p])
  }

  /** monitorInstance's section. */
  function Settle(l: Life, g: nat): Life
    requires g < |l.procs| && l.procs[g].exit.Some?
  {
    var p := l.procs[g];
    Update(l, g, p.(monitor := Settling)).(f := Settled(l.f, g, p.stopClosed, p.exit.value))
  }

  /** applyTelemetryHello, for the entry that passed the test. */
  function Hello(l: Life, g: nat): Life
    requires g < |l.procs| && l.procs[g].probe.Some?
  {
    var p, name := l.procs[g], l.procs[g].probe.value;
    if Current(l, g)
    then Update(l, g, p.(probe := None, identities := p.identities + {name})).(f := l.f.(identity := name))
    else Update(l, g, p.(probe := None))
  }

  /** applyTelemetrySnapshot. */
  function Snapshot(l: Life, g: nat, values: Values, tcps: nat, udps: nat): Life
    requires g < |l.procs|
  {
    var sent := Update(l, g, l.procs[g].(reported := values));
    if Current(l, g) then sent.(f := Metered(l.f, values, tcps, udps)) else sent
  }

  /** clearActiveTelemetry. */
  function ClearActive(l: Life, g: nat): Life {
    if Current(l, g) then l.(f := l.f.(live := l.f.live.(tcps := 0, udps := 0))) else l
  }

  /** sendTelemetryLog, which publishes while it holds the mutex. */
  function WriteLog(l: Life, g: nat): Life {
    if !l.f.deleted && l.f.cmd == Some(g) then l.(published := l.published + [LogNotice(g)]) else l
  }

  /** The two halves of sendSSEEvent. */
  function TakeView(l: Life): Life {
    l.(views := l.views + [View(|l.procs|, l.f.cmd)])
  }

  function Publish(l: Life, i: nat): Life
    requires i < |l.views|
  {
    l.(views := l.views[..i] + l.views[i + 1..], published := l.published + [StateNotice(l.views[i])])
  }

  // ---------------------------------------------------------------- The steps

  datatype Action =
    | AAcquire(task: Task) | ACheck | AStopBegin | ASawExit | ATimeout | ANoChannel
    | AGiveUp | AStopEnd | AProceed | AStartTests | ALaunch(outcome: Outcome) | APatch(restart: Option<bool>, reset: bool)
    | AExit(g: nat, ok: bool) | AWaitReturns(g: nat) | ASettle(g: nat) | ACloseExited(g: nat)
    | AProbe(g: nat, name: string) | AHello(g: nat)
    | ASnapshot(g: nat, values: Values, tcps: nat, udps: nat) | AClear(g: nat)
    | ALog(g: nat) | ATakeView | APublish(i: nat)

  /** A PUT carries the scheme of a URL that normalizeInstanceURL accepted. */
  predicate TaskValid(task: Task) {
    task.ForPut? ==> task.url.Url? && SupportedRole(task.url.scheme) && task.role == task.url.scheme
  }

  predicate NoLess(a: Values, b: Values) {
    a.tcpRX <= b.tcpRX && a.tcpTX <= b.tcpTX && a.udpRX <= b.udpRX && a.udpTX <= b.udpTX
  }

  /** A process counts from zero and never reports less than before. */
  predicate Enabled(l: Life, a: Action) {
    match a
    case AAcquire(task) => l.op == Free && TaskValid(task)
    case ACheck => l.op.Entered?
    case AStopBegin => l.op.StopEntry?
    case ASawExit =>
      l.op.Signalled? && l.op.exited.Some? && l.op.exited.value < |l.procs| &&
      l.procs[l.op.exited.value].monitor == Closed
    case ATimeout => l.op.Signalled? && l.op.exited.Some?
    case ANoChannel => l.op.Signalled? && l.op.exited.None?
    case AGiveUp => l.op.ForceKilled?
    case AStopEnd => l.op.StopLast?
    case AProceed => l.op.Halted?
    case AStartTests => l.op.StartEntry?
    case ALaunch(_) => l.op.Launching?
    case APatch(_, _) => l.op == Free
    case AExit(g, _) => g < |l.procs| && l.procs[g].exit == None
    case AWaitReturns(g) => g < |l.procs| && l.procs[g].monitor == Waiting && l.procs[g].exit.Some?
    case ASettle(g) => MutexFree(l) && g < |l.procs| && l.procs[g].monitor == Flushing && l.procs[g].exit.Some?
    case ACloseExited(g) => g < |l.procs| && l.procs[g].monitor == Settling
    case AProbe(g, name) => MutexFree(l) && g < |l.procs| && name != ""
    case AHello(g) => MutexFree(l) && g < |l.procs| && l.procs[g].probe.Some?
    case ASnapshot(g, values, _, _) => MutexFree(l) && g < |l.procs| && NoLess(l.procs[g].reported, values)
    case AClear(g) => MutexFree(l) && g < |l.procs|
    case ALog(g) => MutexFree(l) && g < |l.procs|
    case ATakeView => MutexFree(l)
    case APublish(i) => i < |l.views|
  }

  predicate IsOperation(a: Action) {
    a.AAcquire? || a.ACheck? || a.AStopBegin? || a.AStopEnd? || a.AProceed? || a.AStartTests? || a.ALaunch? || a.APatch?
  }

  /** down tells whether the master's periodicDone channel is closed. */
  function Operate(l: Life, a: Action, down: bool): Life
    requires IsOperation(a) && Enabled(l, a)
  {
    match a
    case AAcquire(task) => Acquire(l, task)
    case ACheck =>
      (match l.op.task
       case ForFailed => CheckFailed(l)
       case ForPut(url, role) => CheckPut(l, url, role)
       case ForDelete => CheckDelete(l)
       case _ => l.(op := Free))
    case AStopBegin => StopBegin(l, l.op.task)
    case AStopEnd => StopEnd(l, l.op.task)
    case AProceed => Proceed(l, l.op.task)
    case AStartTests => StartTests(l, l.op.task, down)
    case ALaunch(outcome) => Launch(l, outcome)
    case APatch(restart, reset) => Patch(l, restart, reset)
  }

  /** The waits of stopInstanceLocked between its two sections. */
  predicate IsWait(a: Action) {
    a.ASawExit? || a.ATimeout? || a.ANoChannel? || a.AGiveUp?
  }

  function Wait(l: Life, a: Action): Life
    requires IsWait(a) && Enabled(l, a)
  {
    match a
    case ASawExit => l.(op := StopLast(l.op.task))
    case ATimeout => l.(procs := Kill(l.procs, l.op.process), op := ForceKilled(l.op.task))
    case ANoChannel => l.(procs := Kill(l.procs, l.op.process), op := StopLast(l.op.task))
    case AGiveUp => l.(op := StopLast(l.op.task))
  }

  /** Steps that change nothing but the state kept for one process. */
  predicate IsProcessStep(a: Action) {
    a.AExit? || a.AWaitReturns? || a.ACloseExited? || a.AProbe?
  }

  function Progressed(l: Life, a: Action): Process
    requires IsProcessStep(a) && Enabled(l, a)
  {
    match a
    case AExit(g, ok) => l.procs[g].(exit := Some(ok))
    case AWaitReturns(g) => l.procs[g].(monitor := Flushing)
    case ACloseExited(g) => l.procs[g].(monitor := Closed)
    case AProbe(g, name) =>
      l.procs[g].(probe := if l.f.identity == "" || l.f.identity == name then Some(name) else None)
  }

  /** Steps of a process's goroutines that may change the instance. */
  predicate IsReport(a: Action) {
    a.ASettle? || a.AHello? || a.ASnapshot? || a.AClear?
  }

  function Report(l: Life, a: Action): Life
    requires IsReport(a) && Enabled(l, a)
  {
    match a
    case ASettle(g) => Settle(l, g)
    case AHello(g) => Hello(l, g)
    case ASnapshot(g, values, tcps, udps) => Snapshot(l, g, values, tcps, udps)
    case AClear(g) => ClearActive(l, g)
  }

  predicate IsNotice(a: Action) {
    a.ALog? || a.ATakeView? || a.APublish?
  }

  function Notify(l: Life, a: Action): Life
    requires IsNotice(a) && Enabled(l, a)
  {
    match a
    case ALog(g) => WriteLog(l, g)
    case ATakeView => TakeView(l)
    case APublish(i) => Publish(l, i)
  }

  /** What the program does. */
  function Acted(l: Life, a: Action, down: bool): Life
    requires Enabled(l, a)
  {
    if IsOperation(a) then Operate(l, a, down)
    else if IsWait(a) then Wait(l, a)
    else if IsProcessStep(a) then Update(l, a.g, Progressed(l, a))
    else if IsReport(a) then Report(l, a)
    else Notify(l, a)
  }

  /** g is the process of an instance that nobody deletes, and nobody has begun
      to stop it. */
  predicate Serves(l: Life, g: nat) {
    !l.f.deleted && l.f.cmd == Some(g) && g < |l.procs| && !l.procs[g].stopClosed
  }

  /** What a step adds to the book; f are the fields after it. */
  function Happened(l: Life, a: Action, f: Fields): seq<Happening> {
    match a
    case ALaunch(outcome) => if outcome == Started then [Begun] else [Begun, Ended]
    case ASnapshot(g, values, tcps, udps) => if Serves(l, g) then [Reported(values, tcps, udps)] else []
    case AClear(g) => if Serves(l, g) then [Hushed] else []
    case APatch(_, reset) => if reset && l.stored && !l.f.deleted then [Zeroed] else []
    case _ => if l.f.cmd.Some? && f.cmd == None then [Ended] else []
  }

  function Remembered(l: Life, a: Action, f: Fields): History {
    l.past.(
      book := l.past.book + Happened(l, a, f),
      lines := if a.ALog? then l.past.lines + [Output(a.g, l.f.cmd == Some(a.g) && !l.f.deleted)] else l.past.lines,
      taken := if a.ATakeView? then l.past.taken + [View(|l.procs|, l.f.cmd)] else l.past.taken)
  }

  function Do(l: Life, a: Action, down: bool): Life
    requires Enabled(l, a)
  {
    var l' := Acted(l, a, down);
    l'.(past := Remembered(l, a, l'.f))
  }

  // -------------------------------------------------------------- Invariants

  /** What the fields say about each other at every release of the mutex. */
  predicate FieldsOk(f: Fields, launched: nat) {
    && (f.status == Running <==> f.cmd.Some?)
    && (f.cmd.Some? ==> f.cmd.value + 1 == launched && f.stopped == f.cmd && f.exited == f.cmd)
    && (f.cmd.Some? ==> UrlAccepted(f))
    && (f.stopped.Some? ==> f.stopped.value < launched)
    && (f.runtimeFailure ==> f.status == Error)
    && (f.status == Error && !f.runtimeFailure ==> !UrlAccepted(f))
    && (f.runtimeFailure ==> UrlAccepted(f))
    && (f.status != Running ==> f.live == IDLE)
  }

  predicate AtMostOne(s: set<string>) {
    forall a, b | a in s && b in s :: a == b
  }

  /** What a process and the instance's fields say about each other. */
  predicate ProcessOk(f: Fields, g: nat, p: Process) {
    && (f.cmd != Some(g) ==> Gone(p))
    && (p.monitor != Waiting ==> p.exit.Some?)
    && AtMostOne(p.identities)
    && (p.probe.Some? ==> p.probe.value != "")
    && (f.cmd == Some(g) ==>
          && p.url == f.url
          && p.identities == (if f.identity == "" then {} else {f.identity})
          && (p.probe.Some? && f.identity != "" ==> p.probe.value == f.identity))
  }

  predicate ProcessesOk(f: Fields, procs: seq<Process>) {
    forall g: nat | g < |procs| :: ProcessOk(f, g, procs[g])
  }

  /** The running process of a stop in progress. */
  predicate Stopping(l: Life) {
    l.f.cmd.Some? && l.f.cmd.value < |l.procs|
  }

  predicate OpOk(l: Life) {
    match l.op
    case Free => true
    case Entered(task) => TaskValid(task) && (task.ForFailed? || task.ForPut? || task.ForDelete?)
    case StopEntry(task) => StopTaskOk(l, task) &&
      (task == ForFailed ==> l.f.status == Error && l.f.runtimeFailure && l.f.restart)
    case Signalled(task, g, exited) => StopTaskOk(l, task) && task != ForFailed &&
      Stopping(l) && l.f.cmd == Some(g) && exited == Some(g) && l.procs[g].stopClosed
    case ForceKilled(task) => StopTaskOk(l, task) && task != ForFailed &&
      Stopping(l) && l.procs[l.f.cmd.value].stopClosed && l.procs[l.f.cmd.value].killed
    case StopLast(task) => StopTaskOk(l, task) && task != ForFailed &&
      Stopping(l) && l.procs[l.f.cmd.value].stopClosed && Gone(l.procs[l.f.cmd.value])
    case Halted(task) => StopTaskOk(l, task) && l.f.status == Stopped
    case StartEntry(task) => StartTaskOk(l, task)
    case Launching(task) => StartTaskOk(l, task) && l.f.status == Stopped && !l.f.deleted && UrlAccepted(l.f)
  }

  predicate StopTaskOk(l: Life, task: Task) {
    && TaskValid(task) && task != ForStart
    && (task.ForPut? || task.ForFailed? ==> l.stored && !l.f.deleted)
    && (task.ForDelete? ==> l.stored && l.f.deleted)
  }

  predicate StartTaskOk(l: Life, task: Task) {
    && TaskValid(task) && (task.ForStart? || task.ForRestart? || task.ForFailed? || task.ForPut?)
    && (!task.ForStart? ==> l.f.status == Stopped)
    && (task.ForPut? ==> l.stored && !l.f.deleted && l.f.url == task.url && l.f.role == task.role)
    && (task.ForFailed? ==> l.stored && !l.f.deleted)
  }

  /** A delete that has marked the instance and not yet removed it. */
  predicate Deleting(l: Life) {
    (l.op.StopEntry? || l.op.Signalled? || l.op.ForceKilled? || l.op.StopLast? || l.op.Halted?) &&
    l.op.task == ForDelete
  }

  /** An instance leaves the map only as deleted and stopped, and only a delete
      in progress keeps a deleted one there. */
  predicate RemovalOk(l: Life) {
    && (!l.stored ==> l.f.deleted && l.f.status == Stopped)
    && (l.stored && l.f.deleted ==> Deleting(l))
  }

  predicate Retires(v: View, g: nat) {
    g < v.launched && v.cmd != Some(g)
  }

  /** A snapshot that shows a process as gone stays right. */
  predicate ViewOk(cmd: Option<nat>, launched: nat, v: View) {
    v.launched <= launched && (cmd.Some? ==> !Retires(v, cmd.value))
  }

  /** No log of a process follows a state event that shows it as gone. */
  predicate LogsBeforeRetirement(published: seq<Notice>) {
    forall i: nat, j: nat | j < i < |published| && published[i].LogNotice? && published[j].StateNotice? ::
      !Retires(published[j].view, published[i].process)
  }

  predicate NoticesOk(cmd: Option<nat>, launched: nat, views: seq<View>, published: seq<Notice>) {
    && (forall i: nat | i < |views| :: ViewOk(cmd, launched, views[i]))
    && (forall i: nat | i < |published| && published[i].StateNotice? :: ViewOk(cmd, launched, published[i].view))
    && (forall i: nat | i < |published| && published[i].LogNotice? :: published[i].process < launched)
    && LogsBeforeRetirement(published)
  }

  predicate Inv(l: Life) {
    && FieldsOk(l.f, |l.procs|)
    && ProcessesOk(l.f, l.procs)
    && OpOk(l)
    && RemovalOk(l)
    && NoticesOk(l.f.cmd, |l.procs|, l.views, l.published)
  }
}
