/** What each lifecycle operation achieves. An operation that has begun always
    can end; and however processes, monitors, telemetry and log writers interleave
    with it, it ends with what was asked for, or refuses exactly when it should. */
module LifecycleEffects {
  import opened Wrappers
  import opened ByteCounter
  import opened Instance
  import opened Lifecycle
  import opened LifecycleProof
  import Laws = LifecycleLaws
  import Runs

  /** No operation, or one that holds the instance's mutex to launch a process. */
  predicate Resting(l: Life) {
    l.op == Free || l.op.Launching?
  }

  /** The steps of the operation that holds lifecycleMu, up to a launch. */
  predicate IsOwn(a: Action) {
    IsWait(a) || a.ACheck? || a.AStopBegin? || a.AStopEnd? || a.AProceed? || a.AStartTests?
  }

  /** Any step until the operation in progress rests; down tells whether the
      master shuts down. */
  ghost function Busy(down: bool): (Life, Life) -> bool {
    (l, l') => !Resting(l) && exists a :: Enabled(l, a) && l' == Do(l, a, down)
  }

  /** Only its own steps. */
  ghost function Alone(down: bool): (Life, Life) -> bool {
    (l, l') => exists a :: IsOwn(a) && Enabled(l, a) && l' == Do(l, a, down)
  }

  /** l' is where an operation for task that takes lifecycleMu in l may come to
      rest, whatever else happens meanwhile. */
  ghost predicate Ends(l: Life, task: Task, down: bool, l': Life) {
    && Enabled(l, AAcquire(task)) && Resting(l')
    && Runs.Reaches(Busy(down), Do(l, AAcquire(task), down), l')
  }

  /** ...and if nothing else happens. */
  ghost predicate EndsAlone(l: Life, task: Task, down: bool, l': Life) {
    && Enabled(l, AAcquire(task)) && Resting(l')
    && Runs.Reaches(Alone(down), Do(l, AAcquire(task), down), l')
  }

  // ---------------------------------------------------- Every operation can end

  lemma OneMore(s: Life, l: Life, a: Action, down: bool)
    requires Runs.Reaches(Alone(down), s, l) && IsOwn(a) && Enabled(l, a)
    ensures Runs.Reaches(Alone(down), s, Do(l, a, down))
  {
    assert Alone(down)(l, Do(l, a, down));
    Runs.ReachesOn(Alone(down), s, l, Do(l, a, down));
  }

  predicate InStop(op: Op) {
    op.StopEntry? || op.Signalled? || op.ForceKilled? || op.StopLast? || op.Halted?
  }

  /** The next step of a stop that gets no answer from its process. */
  function StopStep(op: Op): Action
    requires InStop(op)
  {
    match op
    case StopEntry(_) => AStopBegin
    case Signalled(_, _, exited) => if exited.Some? then ATimeout else ANoChannel
    case ForceKilled(_) => AGiveUp
    case StopLast(_) => AStopEnd
    case _ => AProceed
  }

  function Left(op: Op): nat {
    match op
    case Entered(_) => 7
    case StopEntry(_) => 6
    case Signalled(_, _, _) => 5
    case ForceKilled(_) => 4
    case StopLast(_) => 3
    case Halted(_) => 2
    case StartEntry(_) => 1
    case _ => 0
  }

  function OwnStep(op: Op): Action
    requires op != Free && !op.Launching?
  {
    if op.Entered? then ACheck else if op.StartEntry? then AStartTests else StopStep(op)
  }

  lemma OwnStepGetsOn(l: Life, down: bool)
    requires !Resting(l)
    ensures IsOwn(OwnStep(l.op)) && Enabled(l, OwnStep(l.op))
    ensures Left(Do(l, OwnStep(l.op), down).op) < Left(l.op)
  {
  }

  lemma {:induction false} CanRest(s: Life, l: Life, down: bool) returns (l': Life)
    requires Runs.Reaches(Alone(down), s, l)
    ensures Runs.Reaches(Alone(down), s, l') && Resting(l')
    decreases Left(l.op)
  {
    if Resting(l) {
      l' := l;
    } else {
      OwnStepGetsOn(l, down);
      OneMore(s, l, OwnStep(l.op), down);
      l' := CanRest(s, Do(l, OwnStep(l.op), down), down);
    }
  }

  /** Whatever it has to wait for, and without help from anybody. */
  lemma EveryOperationEnds(l: Life, task: Task, down: bool) returns (l': Life)
    requires l.op == Free && TaskValid(task)
    ensures EndsAlone(l, task, down, l')
  {
    var s := Do(l, AAcquire(task), down);
    Runs.ReachesItself(Alone(down), s);
    l' := CanRest(s, s, down);
  }

  // ------------------------------------------------------- What others may do

  /** What only operations change. */
  predicate Steady(l: Life, l': Life) {
    && l'.f.url == l.f.url && l'.f.role == l.f.role && l'.f.restart == l.f.restart
    && l'.f.deleted == l.f.deleted && l'.stored == l.stored && |l'.procs| == |l.procs|
  }

  lemma OthersAreSteady(l: Life, a: Action, down: bool)
    requires Enabled(l, a) && !IsOperation(a) && !IsWait(a)
    ensures Steady(l, Do(l, a, down)) && Do(l, a, down).op == l.op
  {
  }

  lemma BusyStepIsOwnOrSteady(l: Life, a: Action, down: bool)
    requires !Resting(l) && Enabled(l, a)
    ensures IsOwn(a) || (Steady(l, Do(l, a, down)) && Do(l, a, down).op == l.op)
  {
    if !IsOwn(a) {
      OthersAreSteady(l, a, down);
    }
  }

  /** The steps of a stop change nothing of it either, and keep the task. */
  lemma StopIsSteady(l: Life, a: Action, down: bool)
    requires Inv(l) && InStop(l.op) && !l.op.Halted? && IsOwn(a) && Enabled(l, a)
    ensures Steady(l, Do(l, a, down)) && InStop(Do(l, a, down).op) && Do(l, a, down).op.task == l.op.task
  {
  }

  // ---------------------------------------------------------------------- Stop

  predicate IsStopped(l: Life) {
    l.f.status == Stopped && l.f.cmd == None && !l.f.runtimeFailure && l.f.live == IDLE
  }

  predicate StopPart(l0: Life, task: Task, l: Life) {
    && Steady(l0, l)
    && ((InStop(l.op) && l.op.task == task) || (l.op == Free && IsStopped(l)))
  }

  lemma StopPartStays(l0: Life, task: Task, l: Life, a: Action, down: bool)
    requires Inv(l) && StopPart(l0, task, l) && (task == ForStop || task == ForShutdown)
    requires !Resting(l) && Enabled(l, a)
    ensures StopPart(l0, task, Do(l, a, down))
  {
    BusyStepIsOwnOrSteady(l, a, down);
    if IsOwn(a) && !l.op.Halted? {
      StopIsSteady(l, a, down);
    }
  }

  lemma StopNext(l0: Life, task: Task, a: Life, b: Life, down: bool)
    requires (task == ForStop || task == ForShutdown) && Inv(a) && StopPart(l0, task, a) && Busy(down)(a, b)
    ensures Inv(b) && StopPart(l0, task, b)
  {
    var step :| Enabled(a, step) && b == Do(a, step, down);
    DoKeepsInv(a, step, down);
    StopPartStays(l0, task, a, step, down);
  }

  /** A stop stops: nothing of the instance changes but that it is stopped, and
      every process it ever had has ended or was sent Kill. */
  lemma StopTakesEffect(run: seq<Life>, i: nat, task: Task, down: bool, l': Life)
    requires Laws.Run(run) && i < |run| && (task == ForStop || task == ForShutdown)
    requires Ends(run[i], task, down, l')
    ensures l'.op == Free && IsStopped(l') && Steady(run[i], l')
    ensures forall p | p in l'.procs :: Gone(p)
  {
    var l0 := run[i];
    Laws.RunKeepsInv(run, i);
    DoKeepsInv(l0, AAcquire(task), down);
    var p := l => Inv(l) && StopPart(l0, task, l);
    forall a, b | p(a) && Busy(down)(a, b)
      ensures p(b)
    {
      StopNext(l0, task, a, b, down);
    }
    Runs.ReachesKeeps(Busy(down), p, Do(l0, AAcquire(task), down), l');
    forall g: nat | g < |l'.procs|
      ensures Gone(l'.procs[g])
    {
      assert ProcessOk(l'.f, g, l'.procs[g]);
    }
  }

  /** A stop that saw its process end kills nobody. */
  lemma EndedProcessIsNotKilled(run: seq<Life>, i: nat, down: bool)
    requires Laws.Run(run) && i < |run| && run[i].op.Signalled?
    requires run[i].op.process < |run[i].procs| && run[i].procs[run[i].op.process].monitor == Closed
    ensures Enabled(run[i], ASawExit)
    ensures Do(run[i], ASawExit, down).procs == run[i].procs
    ensures Do(run[i], ASawExit, down).op == StopLast(run[i].op.task)
  {
    Laws.RunKeepsInv(run, i);
  }

  // ------------------------------------------------------------------- Restart

  /** The URL can be parsed, its scheme is a supported type, and the instance's. */
  predicate Startable(f: Fields) {
    && f.url.Url? && f.url.scheme == f.role
    && (f.role == "portal" || f.role == "vector" || f.role == "egress")
  }

  /** What a start half leaves that launches nothing. */
  predicate NotLaunched(l: Life, refused: bool) {
    && l.op == Free && l.f.cmd == None && !l.f.runtimeFailure
    && l.f.status == if refused then Stopped else Error
  }

  predicate RestartPart(l0: Life, down: bool, l: Life) {
    && Steady(l0, l)
    && (|| (InStop(l.op) && l.op.task == ForRestart)
        || l.op == StartEntry(ForRestart)
        || (l.op == Launching(ForRestart) && !down && !l0.f.deleted && Startable(l0.f))
        || (NotLaunched(l, down || l0.f.deleted) && (down || l0.f.deleted || !Startable(l0.f))))
  }

  lemma RestartPartStays(l0: Life, l: Life, a: Action, down: bool)
    requires Inv(l) && RestartPart(l0, down, l) && !Resting(l) && Enabled(l, a)
    ensures RestartPart(l0, down, Do(l, a, down))
  {
    BusyStepIsOwnOrSteady(l, a, down);
    if IsOwn(a) && InStop(l.op) && !l.op.Halted? {
      StopIsSteady(l, a, down);
    }
  }

  lemma RestartNext(l0: Life, a: Life, b: Life, down: bool)
    requires Inv(a) && RestartPart(l0, down, a) && Busy(down)(a, b)
    ensures Inv(b) && RestartPart(l0, down, b)
  {
    var step :| Enabled(a, step) && b == Do(a, step, down);
    DoKeepsInv(a, step, down);
    RestartPartStays(l0, a, step, down);
  }

  /** A restart stops and then starts: whatever its stop had to wait for, it gets
      to a launch exactly when the master is not shutting down, the instance is
      not deleted and its URL can be started. */
  lemma RestartLaunchesIff(run: seq<Life>, i: nat, down: bool, l': Life)
    requires Laws.Run(run) && i < |run| && Ends(run[i], ForRestart, down, l')
    ensures l'.op.Launching? <==> !down && !run[i].f.deleted && Startable(run[i].f)
    ensures Steady(run[i], l') && (!l'.op.Launching? ==> NotLaunched(l', down || run[i].f.deleted))
    ensures l'.op.Launching? ==> IsStopped(l')
  {
    var l0 := run[i];
    Laws.RunKeepsInv(run, i);
    DoKeepsInv(l0, AAcquire(ForRestart), down);
    var p := l => Inv(l) && RestartPart(l0, down, l);
    forall a, b | p(a) && Busy(down)(a, b)
      ensures p(b)
    {
      RestartNext(l0, a, b, down);
    }
    Runs.ReachesKeeps(Busy(down), p, Do(l0, AAcquire(ForRestart), down), l');
  }

  // --------------------------------------------------------------------- Start

  predicate StartPart(l0: Life, down: bool, l: Life) {
    && l.stored == l0.stored && l.procs == l0.procs
    && if l.op == StartEntry(ForStart) then l.f == l0.f
       else if l.op == Launching(ForStart) then
         l.f == l0.f && !down && !l0.f.deleted && Startable(l0.f) && l0.f.status == Stopped
       else
         && l.op == Free
         && if down || l0.f.deleted || l0.f.status != Stopped then l.f == l0.f
            else !Startable(l0.f) && l.f == l0.f.(status := Error, runtimeFailure := false)
  }

  lemma StartPartStays(l0: Life, l: Life, a: Action, down: bool)
    requires StartPart(l0, down, l) && IsOwn(a) && Enabled(l, a)
    ensures StartPart(l0, down, Do(l, a, down))
  {
  }

  /** An undisturbed start gets to a launch exactly when, besides, the instance is
      stopped; otherwise it changes nothing, except that a URL that cannot be
      started is an error. */
  lemma StartLaunchesIff(l: Life, down: bool, l': Life)
    requires EndsAlone(l, ForStart, down, l')
    ensures l'.op.Launching? <==> !down && !l.f.deleted && Startable(l.f) && l.f.status == Stopped
    ensures l'.procs == l.procs && l'.stored == l.stored
    ensures l'.f == if down || l.f.deleted || l.f.status != Stopped || Startable(l.f) then l.f
                    else l.f.(status := Error, runtimeFailure := false)
  {
    var p := m => StartPart(l, down, m);
    forall a, b | p(a) && Alone(down)(a, b)
      ensures p(b)
    {
      var step :| IsOwn(step) && Enabled(a, step) && b == Do(a, step, down);
      StartPartStays(l, a, step, down);
    }
    Runs.ReachesKeeps(Alone(down), p, Do(l, AAcquire(ForStart), down), l');
  }

  /** A launch adds exactly one process, the instance's command, if it succeeds;
      if it does not, it adds none and leaves a failure. */
  lemma LaunchTakesEffect(run: seq<Life>, i: nat, outcome: Outcome, down: bool)
    requires Laws.Run(run) && i < |run| && run[i].op.Launching?
    ensures var l, l' := run[i], Do(run[i], ALaunch(outcome), down);
      && l'.op == Free && l'.stored && l'.f.url == l.f.url && l'.f.role == l.f.role && l'.f.restart == l.f.restart
      && !l'.f.deleted && l'.f.identity == "" && l'.f.live == IDLE
      && if outcome == Started then
           && |l'.procs| == |l.procs| + 1 && l.procs <= l'.procs
           && l'.f.cmd == Some(|l.procs|) && l'.f.status == Running && !l'.f.runtimeFailure
           && var p := l'.procs[|l.procs|];
              p.url == l.f.url && p.exit == None && !p.killed && !p.stopClosed && p.monitor == Waiting && p.probe == None
         else l'.procs == l.procs && l'.f.cmd == None && l'.f.status == Error && l'.f.runtimeFailure
  {
    Laws.RunKeepsInv(run, i);
  }

  // ------------------------------------------------------------ Hourly restart

  predicate FailureStands(l: Life) {
    l.f.runtimeFailure && l.f.restart && l.stored
  }

  predicate FailedPart(l0: Life, down: bool, l: Life) {
    && Steady(l0, l) && l.procs == l0.procs
    && (|| (l.op == Entered(ForFailed) && l.f == l0.f)
        || (FailureStands(l0) && InStop(l.op) && l.op.task == ForFailed)
        || (FailureStands(l0) && l.op == StartEntry(ForFailed))
        || (FailureStands(l0) && l.op == Launching(ForFailed) && !down)
        || (l.op == Free && if FailureStands(l0) then down && IsStopped(l) else l.f == l0.f))
  }

  lemma FailedStopStays(l0: Life, l: Life, a: Action, down: bool)
    requires Inv(l) && FailedPart(l0, down, l) && InStop(l.op) && IsOwn(a) && Enabled(l, a)
    ensures FailedPart(l0, down, Do(l, a, down))
  {
  }

  lemma FailedPartStays(l0: Life, l: Life, a: Action, down: bool)
    requires Inv(l0) && l0.op == Free && Inv(l) && FailedPart(l0, down, l) && IsOwn(a) && Enabled(l, a)
    ensures FailedPart(l0, down, Do(l, a, down))
  {
    if InStop(l.op) {
      FailedStopStays(l0, l, a, down);
    } else {
      assert a == ACheck || a == AStartTests;
    }
  }

  lemma FailedNext(l0: Life, a: Life, b: Life, down: bool)
    requires Inv(l0) && l0.op == Free && Inv(a) && FailedPart(l0, down, a) && Alone(down)(a, b)
    ensures Inv(b) && FailedPart(l0, down, b)
  {
    var step :| IsOwn(step) && Enabled(a, step) && b == Do(a, step, down);
    DoKeepsInv(a, step, down);
    FailedPartStays(l0, a, step, down);
  }

  lemma FailedEnds(l: Life, down: bool, l': Life)
    requires Inv(l) && EndsAlone(l, ForFailed, down, l')
    ensures l'.op.Launching? <==> FailureStands(l) && !down
    ensures l'.procs == l.procs && Steady(l, l')
    ensures !FailureStands(l) ==> l'.f == l.f
  {
    DoKeepsInv(l, AAcquire(ForFailed), down);
    var p := m => Inv(m) && FailedPart(l, down, m);
    forall a, b | p(a) && Alone(down)(a, b)
      ensures p(b)
    {
      FailedNext(l, a, b, down);
    }
    Runs.ReachesKeeps(Alone(down), p, Do(l, AAcquire(ForFailed), down), l');
  }

  /** Undisturbed, the hourly restart gets to a launch exactly when a failure
      stands, a restart is wanted, the instance is in the map and the master is
      not shutting down; without such a failure it does nothing. */
  lemma HourlyRestartLaunchesIff(run: seq<Life>, i: nat, down: bool, l': Life)
    requires Laws.Run(run) && i < |run| && EndsAlone(run[i], ForFailed, down, l')
    ensures l'.op.Launching? <==> run[i].f.runtimeFailure && run[i].f.restart && run[i].stored && !down
    ensures l'.procs == run[i].procs && Steady(run[i], l')
    ensures !FailureStands(run[i]) ==> l'.f == run[i].f
  {
    Laws.RunKeepsInv(run, i);
    FailedEnds(run[i], down, l');
  }

  /** So a process that ends by itself is launched again by the hourly restart
      exactly when it failed... */
  lemma RelaunchedIffFailed(run: seq<Life>, i: nat, g: nat, l': Life)
    requires Laws.Run(run) && i < |run| && Enabled(run[i], ASettle(g)) && run[i].op == Free
    requires Serves(run[i], g) && run[i].f.restart
    requires EndsAlone(Do(run[i], ASettle(g), false), ForFailed, false, l')
    ensures l'.op.Launching? <==> run[i].procs[g].exit == Some(false)
  {
    Laws.RunKeepsInv(run, i);
    DoKeepsInv(run[i], ASettle(g), false);
    EndTakesEffect(run, i, g, false);
    FailedEnds(Do(run[i], ASettle(g), false), false, l');
  }

  /** ...and a launch that failed is tried again exactly when a restart is
      wanted. */
  lemma FailedLaunchIsRetriedIff(run: seq<Life>, i: nat, outcome: Outcome, l': Life)
    requires Laws.Run(run) && i < |run| && run[i].op.Launching? && outcome != Started
    requires EndsAlone(Do(run[i], ALaunch(outcome), false), ForFailed, false, l')
    ensures l'.op.Launching? <==> run[i].f.restart
  {
    Laws.RunKeepsInv(run, i);
    DoKeepsInv(run[i], ALaunch(outcome), false);
    LaunchTakesEffect(run, i, outcome, false);
    FailedEnds(Do(run[i], ALaunch(outcome), false), false, l');
  }

  // ----------------------------------------------------------------------- PUT

  /** The instance has the URL and type that a PUT asked for. */
  predicate HasUrl(l: Life, task: Task)
    requires task.ForPut?
  {
    l.f.url == task.url && l.f.role == task.role
  }

  predicate PutPart(l0: Life, task: Task, down: bool, l: Life)
    requires task.ForPut?
  {
    && l.stored && !l.f.deleted && l.f.restart == l0.f.restart && |l.procs| == |l0.procs|
    && (|| (l.op == Entered(task) && l.f.url == l0.f.url)
        || (InStop(l.op) && l.op.task == task)
        || (l.op == StartEntry(task) && HasUrl(l, task))
        || (l.op == Launching(task) && HasUrl(l, task) && !down)
        || (l.op == Free && HasUrl(l, task) && down && IsStopped(l)))
  }

  lemma PutPartStays(l0: Life, task: Task, l: Life, a: Action, down: bool)
    requires task.ForPut? && TaskValid(task) && l0.f.url != task.url
    requires Inv(l) && PutPart(l0, task, down, l) && !Resting(l) && Enabled(l, a)
    ensures PutPart(l0, task, down, Do(l, a, down))
  {
    BusyStepIsOwnOrSteady(l, a, down);
    if IsOwn(a) && InStop(l.op) && !l.op.Halted? {
      StopIsSteady(l, a, down);
    }
  }

  lemma PutNext(l0: Life, task: Task, a: Life, b: Life, down: bool)
    requires task.ForPut? && TaskValid(task) && l0.f.url != task.url && Inv(a) && PutPart(l0, task, down, a) && Busy(down)(a, b)
    ensures Inv(b) && PutPart(l0, task, down, b)
  {
    var step :| Enabled(a, step) && b == Do(a, step, down);
    DoKeepsInv(a, step, down);
    PutPartStays(l0, task, a, step, down);
  }

  /** A PUT of another URL on an instance in the map replaces its URL and type,
      and gets to a launch exactly when the master is not shutting down. */
  lemma PutReplacesAndLaunches(run: seq<Life>, i: nat, url: Url, role: string, down: bool, l': Life)
    requires Laws.Run(run) && i < |run| && Ends(run[i], ForPut(url, role), down, l')
    requires run[i].stored && run[i].f.url != url
    ensures l'.f.url == url && l'.f.role == role && l'.f.restart == run[i].f.restart
    ensures l'.stored && !l'.f.deleted && |l'.procs| == |run[i].procs|
    ensures l'.op.Launching? <==> !down
    ensures IsStopped(l')
  {
    var l0, task := run[i], ForPut(url, role);
    Laws.RunKeepsInv(run, i);
    DoKeepsInv(l0, AAcquire(task), down);
    var p := l => Inv(l) && PutPart(l0, task, down, l);
    forall a, b | p(a) && Busy(down)(a, b)
      ensures p(b)
    {
      PutNext(l0, task, a, b, down);
    }
    Runs.ReachesKeeps(Busy(down), p, Do(l0, AAcquire(task), down), l');
  }

  /** Nothing has changed but which operation waits. */
  predicate Untouched(l0: Life, task: Task, l: Life) {
    l.f == l0.f && l.procs == l0.procs && l.stored == l0.stored && (l.op == Entered(task) || l.op == Free)
  }

  lemma RefusedStays(l0: Life, task: Task, l: Life, a: Action, down: bool)
    requires Untouched(l0, task, l) && IsOwn(a) && Enabled(l, a)
    requires match task
             case ForPut(url, _) => !l0.stored || l0.f.url == url
             case ForDelete => !l0.stored
             case _ => false
    ensures Untouched(l0, task, Do(l, a, down))
  {
  }

  /** A PUT of the current URL, and a PUT or a DELETE on an instance that is not
      in the map, do nothing. */
  lemma RefusedDoesNothing(l: Life, task: Task, down: bool, l': Life)
    requires EndsAlone(l, task, down, l')
    requires match task
             case ForPut(url, _) => !l.stored || l.f.url == url
             case ForDelete => !l.stored
             case _ => false
    ensures l'.op == Free && l'.f == l.f && l'.procs == l.procs && l'.stored == l.stored
  {
    var p := m => Untouched(l, task, m);
    forall a, b | p(a) && Alone(down)(a, b)
      ensures p(b)
    {
      var step :| IsOwn(step) && Enabled(a, step) && b == Do(a, step, down);
      RefusedStays(l, task, a, step, down);
    }
    Runs.ReachesKeeps(Alone(down), p, Do(l, AAcquire(task), down), l');
  }

  // -------------------------------------------------------------------- DELETE

  predicate DeletePart(l0: Life, l: Life) {
    && l.f.url == l0.f.url && l.f.role == l0.f.role && l.f.restart == l0.f.restart && |l.procs| == |l0.procs|
    && (|| (l.op == Entered(ForDelete) && l.stored && !l.f.deleted)
        || (InStop(l.op) && l.op.task == ForDelete)
        || (l.op == Free && !l.stored && l.f.deleted && IsStopped(l)))
  }

  lemma DeletePartStays(l0: Life, l: Life, a: Action, down: bool)
    requires Inv(l) && DeletePart(l0, l) && !Resting(l) && Enabled(l, a)
    ensures DeletePart(l0, Do(l, a, down))
  {
    BusyStepIsOwnOrSteady(l, a, down);
    if IsOwn(a) && InStop(l.op) && !l.op.Halted? {
      StopIsSteady(l, a, down);
    }
  }

  lemma DeleteNext(l0: Life, a: Life, b: Life, down: bool)
    requires Inv(a) && DeletePart(l0, a) && Busy(down)(a, b)
    ensures Inv(b) && DeletePart(l0, b)
  {
    var step :| Enabled(a, step) && b == Do(a, step, down);
    DoKeepsInv(a, step, down);
    DeletePartStays(l0, a, step, down);
  }

  /** A DELETE on an instance in the map removes it, stopped and marked. */
  lemma DeleteRemoves(run: seq<Life>, i: nat, down: bool, l': Life)
    requires Laws.Run(run) && i < |run| && Ends(run[i], ForDelete, down, l') && run[i].stored
    ensures l'.op == Free && !l'.stored && l'.f.deleted && IsStopped(l')
    ensures forall p | p in l'.procs :: Gone(p)
  {
    var l0 := run[i];
    Laws.RunKeepsInv(run, i);
    DoKeepsInv(l0, AAcquire(ForDelete), down);
    var p := l => Inv(l) && DeletePart(l0, l);
    forall a, b | p(a) && Busy(down)(a, b)
      ensures p(b)
    {
      DeleteNext(l0, a, b, down);
    }
    Runs.ReachesKeeps(Busy(down), p, Do(l0, AAcquire(ForDelete), down), l');
    forall g: nat | g < |l'.procs|
      ensures Gone(l'.procs[g])
    {
      assert ProcessOk(l'.f, g, l'.procs[g]);
    }
  }

  // --------------------------------------------------------------------- PATCH

  predicate AllZero(c: Counters) {
    c.tcpRX.total == c.tcpTX.total == c.udpRX.total == c.udpTX.total == 0
  }

  /** A PATCH sets the restart policy it names and clears the totals it is to
      reset, on an instance in the map, and changes nothing else. */
  lemma PatchTakesEffect(run: seq<Life>, i: nat, restart: Option<bool>, reset: bool, down: bool)
    requires Laws.Run(run) && i < |run| && run[i].op == Free
    ensures var l, l' := run[i], Do(run[i], APatch(restart, reset), down);
      && l'.f == l.f.(restart := l'.f.restart, traffic := l'.f.traffic)
      && l'.procs == l.procs && l'.stored == l.stored && l'.op == Free
      && (l.stored && restart.Some? ==> l'.f.restart == restart.value)
      && (!l.stored || restart == None ==> l'.f.restart == l.f.restart)
      && (l.stored && reset ==> AllZero(l'.f.traffic))
      && (!l.stored || !reset ==> l'.f.traffic == l.f.traffic)
  {
    Laws.RunKeepsInv(run, i);
  }

  // ----------------------------------------------------- Goroutines of a process

  /** While no start holds the mutex, nothing keeps a process's goroutines and log
      writers, or a sender of a state event, from it. */
  lemma NobodyIsKeptOut(l: Life, g: nat, values: Values, tcps: nat, udps: nat, name: string)
    requires !l.op.Launching? && g < |l.procs|
    ensures Enabled(l, ALog(g)) && Enabled(l, AClear(g)) && Enabled(l, ATakeView)
    ensures NoLess(l.procs[g].reported, values) ==> Enabled(l, ASnapshot(g, values, tcps, udps))
    ensures name != "" ==> Enabled(l, AProbe(g, name))
    ensures forall i: nat | i < |l.views| :: Enabled(l, APublish(i))
  {
  }

  /** The monitor of a process that ended gets to close its exited channel. */
  lemma MonitorCanFinish(run: seq<Life>, i: nat, g: nat, down: bool)
    requires Laws.Run(run) && i < |run| && g < |run[i].procs| && run[i].procs[g].exit.Some? && !run[i].op.Launching?
    ensures var l := run[i];
      match l.procs[g].monitor
      case Waiting => Enabled(l, AWaitReturns(g)) && Do(l, AWaitReturns(g), down).procs[g].monitor == Flushing
      case Flushing => Enabled(l, ASettle(g)) && Do(l, ASettle(g), down).procs[g].monitor == Settling
      case Settling => Enabled(l, ACloseExited(g)) && Do(l, ACloseExited(g), down).procs[g].monitor == Closed
      case Closed => true
  {
  }

  /** A process that ended without having been told to takes the instance with
      it: stopped after success, failed otherwise. Nothing else of it changes, and
      nothing at all if the process was told to stop or is not the command. */
  lemma EndTakesEffect(run: seq<Life>, i: nat, g: nat, down: bool)
    requires Laws.Run(run) && i < |run| && Enabled(run[i], ASettle(g))
    ensures var l, l' := run[i], Do(run[i], ASettle(g), down);
      if !Serves(l, g) then l'.f == l.f
      else
        && l'.f.cmd == None && l'.f.live == IDLE && l'.f.traffic == l.f.traffic && Steady(l, l')
        && l'.f.status == (if l.procs[g].exit == Some(true) then Stopped else Error)
        && (l'.f.runtimeFailure <==> l.procs[g].exit == Some(false))
  {
    Laws.RunKeepsInv(run, i);
  }

  /** A process may end at any time, well or not. */
  lemma ExitIsKept(l: Life, g: nat, ok: bool, down: bool)
    requires g < |l.procs| && l.procs[g].exit == None
    ensures Enabled(l, AExit(g, ok))
    ensures Do(l, AExit(g, ok), down).procs[g].exit == Some(ok) && Do(l, AExit(g, ok), down).f == l.f
  {
  }

  /** Telemetry accepts a registry name unless the instance has another one, and
      names the instance by it if the process still serves. */
  lemma HelloTakesEffect(run: seq<Life>, i: nat, g: nat, name: string, down: bool)
    requires Laws.Run(run) && i < |run| && Enabled(run[i], AProbe(g, name))
    ensures var l := run[i]; var probed := Do(l, AProbe(g, name), down);
      && probed.f == l.f
      && (Enabled(probed, AHello(g)) <==> l.f.identity == "" || l.f.identity == name)
      && (Enabled(probed, AHello(g)) ==>
            Do(probed, AHello(g), down).f == if Serves(l, g) then l.f.(identity := name) else l.f)
  {
    Laws.RunKeepsInv(run, i);
  }
}
