/** The master: its map of instances, each with its lifecycle, and shutdown. */
module Supervisor {
  import opened Wrappers
  import opened ByteCounter
  import opened Instance
  import opened Lifecycle
  import opened LifecycleProof
  import Laws = LifecycleLaws
  import Runs

  /** Where shutdown is: not begun; ranging over the map, which must visit every
      listed instance that stays in it; waiting for the stops it spawned; or past
      the wait. */
  datatype Phase =
    | Serving
    | Visiting(listed: set<string>, visited: set<string>)
    | Awaiting
    | Finished

  /** lives holds every instance there ever was; IDs are not reused. down tells
      whether periodicDone is closed, and stopping holds the instances whose stop
      shutdown still waits for. */
  datatype System = System(down: bool, phase: Phase, stopping: set<string>, lives: map<string, Life>)

  predicate Start(s: System) {
    && !s.down && s.phase == Serving && s.stopping == {}
    && forall id | id in s.lives :: Initial(s.lives[id])
  }

  datatype Event =
    | Create(id: string, url: Url, role: string)
    | Act(id: string, action: Action)
    | BeginShutdown
    | Visit(id: string)
    | EndVisits
    | StopOne(id: string)
    | StoppedOne(id: string)
    | EndWait

  /** The steps of an instance that only shutdown's own goroutine takes. */
  predicate IsShutdownStep(l: Life, a: Action) {
    || a == AAcquire(ForShutdown)
    || (a == AProceed && l.op == Halted(ForShutdown))
  }

  predicate Step(s: System, e: Event, s': System) {
    match e
    case Create(id, url, role) =>
      id !in s.lives && s' == s.(lives := s.lives[id := Fresh(url, role, true, NOTHING)])
    case Act(id, a) =>
      id in s.lives && Enabled(s.lives[id], a) && !IsShutdownStep(s.lives[id], a) &&
      s' == s.(lives := s.lives[id := Do(s.lives[id], a, s.down)])
    case BeginShutdown =>
      s.phase == Serving &&
      s' == s.(down := true, phase := Visiting(set id | id in s.lives && s.lives[id].stored, {}))
    case Visit(id) =>
      s.phase.Visiting? && id in s.lives && id !in s.phase.visited &&
      s.lives[id].stored && MutexFree(s.lives[id]) &&
      s' == s.(phase := s.phase.(visited := s.phase.visited + {id}),
               stopping := if s.lives[id].f.status != Stopped && s.lives[id].f.cmd.Some?
                           then s.stopping + {id} else s.stopping)
    case EndVisits =>
      s.phase.Visiting? &&
      (forall id | id in s.phase.listed && id in s.lives && s.lives[id].stored :: id in s.phase.visited) &&
      s' == s.(phase := Awaiting)
    case StopOne(id) =>
      id in s.stopping && id in s.lives && s.lives[id].op == Free &&
      s' == s.(lives := s.lives[id := Acquire(s.lives[id], ForShutdown)])
    case StoppedOne(id) =>
      id in s.stopping && id in s.lives && s.lives[id].op == Halted(ForShutdown) &&
      s' == s.(lives := s.lives[id := Proceed(s.lives[id], ForShutdown)], stopping := s.stopping - {id})
    case EndWait =>
      s.phase == Awaiting && s.stopping == {} && s' == s.(phase := Finished)
  }

  ghost predicate Next(s: System, s': System) {
    exists e :: Step(s, e, s')
  }

  ghost predicate Run(run: seq<System>) {
    Runs.IsRun(Start, Next, run)
  }

  // -------------------------------------------------------------- Invariants

  /** No process of the instance is supervised, and none is being launched. */
  predicate Quiet(l: Life) {
    l.f.cmd == None && !l.op.Launching?
  }

  predicate LivesOk(s: System) {
    forall id | id in s.lives :: Inv(s.lives[id])
  }

  /** Once launches are refused, every instance is quiet, or shutdown waits for
      its stop, or shutdown is still to visit it. */
  predicate Covered(s: System, id: string)
    requires id in s.lives
  {
    || Quiet(s.lives[id])
    || id in s.stopping
    || (s.phase.Visiting? && id in s.phase.listed && id !in s.phase.visited && s.lives[id].stored)
  }

  predicate ShutdownOk(s: System) {
    && (s.phase != Serving <==> s.down)
    && (s.down ==> forall id | id in s.lives :: Covered(s, id))
    && (s.phase.Finished? ==> s.stopping == {})
  }

  predicate SystemInv(s: System) {
    LivesOk(s) && ShutdownOk(s)
  }

  lemma QuietOperates(l: Life, a: Action)
    requires Inv(l) && Quiet(l) && Enabled(l, a) && IsOperation(a)
    ensures Quiet(Operate(l, a, true)) && |Operate(l, a, true).procs| == |l.procs|
  {
  }

  lemma QuietReports(l: Life, a: Action)
    requires Quiet(l) && Enabled(l, a) && IsReport(a)
    ensures Quiet(Report(l, a)) && |Report(l, a).procs| == |l.procs|
  {
  }

  lemma QuietStays(l: Life, a: Action)
    requires Inv(l) && Quiet(l) && Enabled(l, a)
    ensures Quiet(Do(l, a, true)) && |Do(l, a, true).procs| == |l.procs|
  {
    if IsOperation(a) {
      QuietOperates(l, a);
    } else if IsReport(a) {
      QuietReports(l, a);
    }
  }

  lemma UnstoredStays(l: Life, a: Action, down: bool)
    requires Inv(l) && Enabled(l, a) && !Do(l, a, down).stored && l.stored
    ensures Quiet(Do(l, a, down))
  {
  }

  lemma ActKeepsInv(s: System, id: string, a: Action, s': System)
    requires SystemInv(s) && Step(s, Act(id, a), s')
    ensures SystemInv(s')
  {
    var l, l' := s.lives[id], s'.lives[id];
    DoKeepsInv(l, a, s.down);
    if s.down {
      if Quiet(l) {
        QuietStays(l, a);
      }
      if l.stored && !l'.stored {
        UnstoredStays(l, a, s.down);
      }
      forall k | k in s'.lives
        ensures Covered(s', k)
      {
        assert Covered(s, k);
      }
    }
  }

  lemma BeginKeepsInv(s: System, s': System)
    requires SystemInv(s) && Step(s, BeginShutdown, s')
    ensures SystemInv(s')
  {
    forall id | id in s'.lives
      ensures Covered(s', id)
    {
      assert Inv(s.lives[id]);
    }
  }

  lemma VisitKeepsInv(s: System, id: string, s': System)
    requires SystemInv(s) && Step(s, Visit(id), s')
    ensures SystemInv(s')
  {
    forall k | k in s'.lives && s'.down
      ensures Covered(s', k)
    {
      assert Covered(s, k) && Inv(s.lives[k]);
    }
  }

  lemma PhaseKeepsInv(s: System, e: Event, s': System)
    requires SystemInv(s) && Step(s, e, s') && (e.EndVisits? || e.EndWait?)
    ensures SystemInv(s')
  {
    forall k | k in s'.lives && s'.down
      ensures Covered(s', k)
    {
      assert Covered(s, k);
    }
  }

  lemma StopOneKeepsInv(s: System, id: string, s': System)
    requires SystemInv(s) && Step(s, StopOne(id), s')
    ensures SystemInv(s')
  {
    AcquireKeepsInv(s.lives[id], ForShutdown);
    forall k | k in s'.lives && s'.down
      ensures Covered(s', k)
    {
      assert Covered(s, k);
    }
  }

  lemma StoppedOneKeepsInv(s: System, id: string, s': System)
    requires SystemInv(s) && Step(s, StoppedOne(id), s')
    ensures SystemInv(s')
  {
    ProceedKeepsInv(s.lives[id]);
    assert Quiet(s'.lives[id]);
    forall k | k in s'.lives && s'.down
      ensures Covered(s', k)
    {
      assert Covered(s, k);
    }
  }

  lemma StepKeepsInv(s: System, e: Event, s': System)
    requires SystemInv(s) && Step(s, e, s')
    ensures SystemInv(s')
  {
    match e
    case Create(id, url, role) =>
      InitialInv(s'.lives[id]);
      forall k | k in s'.lives && s'.down
        ensures Covered(s', k)
      {
        assert k in s.lives ==> Covered(s, k);
      }
    case Act(id, a) => ActKeepsInv(s, id, a, s');
    case BeginShutdown => BeginKeepsInv(s, s');
    case Visit(id) => VisitKeepsInv(s, id, s');
    case EndVisits => PhaseKeepsInv(s, e, s');
    case StopOne(id) => StopOneKeepsInv(s, id, s');
    case StoppedOne(id) => StoppedOneKeepsInv(s, id, s');
    case EndWait => PhaseKeepsInv(s, e, s');
  }

  lemma StartInv(s: System)
    requires Start(s)
    ensures SystemInv(s)
  {
  }

  lemma NextKeepsInv(s: System, s': System)
    requires SystemInv(s) && Next(s, s')
    ensures SystemInv(s')
  {
    var e :| Step(s, e, s');
    StepKeepsInv(s, e, s');
  }

  lemma InvIsInductive()
    ensures forall s | Start(s) :: SystemInv(s)
    ensures forall s, s' | SystemInv(s) && Next(s, s') :: SystemInv(s')
  {
    forall s | Start(s)
      ensures SystemInv(s)
    {
      StartInv(s);
    }
    forall s, s' | SystemInv(s) && Next(s, s')
      ensures SystemInv(s')
    {
      NextKeepsInv(s, s');
    }
  }

  lemma RunKeepsInv(run: seq<System>, i: nat)
    requires Run(run) && i < |run|
    ensures SystemInv(run[i])
  {
    InvIsInductive();
    Runs.Throughout(Start, Next, SystemInv, run, i);
  }

  // ---------------------------------------------------------------- Shutdown

  /** No instance of s has more processes in s', and those new to s' have none. */
  predicate NoLaunch(s: System, s': System) {
    && (forall id | id in s.lives :: id in s'.lives && |s'.lives[id].procs| == |s.lives[id].procs|)
    && (forall id | id in s'.lives && id !in s.lives :: s'.lives[id].procs == [])
  }

  predicate AllQuiet(s: System) {
    s.down && forall id | id in s.lives :: Quiet(s.lives[id])
  }

  lemma FinishedIsQuiet(s: System)
    requires SystemInv(s) && s.phase.Finished?
    ensures AllQuiet(s)
  {
  }

  lemma QuietActs(s: System, id: string, a: Action, s': System)
    requires SystemInv(s) && AllQuiet(s) && Step(s, Act(id, a), s')
    ensures AllQuiet(s') && NoLaunch(s, s')
  {
    QuietStays(s.lives[id], a);
  }

  lemma QuietShutsDown(s: System, id: string, s': System)
    requires AllQuiet(s) && (Step(s, StopOne(id), s') || Step(s, StoppedOne(id), s'))
    ensures AllQuiet(s') && NoLaunch(s, s')
  {
    assert Quiet(s.lives[id]);
    assert Quiet(s'.lives[id]) && s'.lives[id].procs == s.lives[id].procs;
  }

  lemma QuietCreates(s: System, e: Event, s': System)
    requires AllQuiet(s) && Step(s, e, s') && !e.Act? && !e.StopOne? && !e.StoppedOne?
    ensures AllQuiet(s') && NoLaunch(s, s')
  {
  }

  lemma QuietLaunchesNothing(s: System, e: Event, s': System)
    requires SystemInv(s) && AllQuiet(s) && Step(s, e, s')
    ensures AllQuiet(s') && NoLaunch(s, s')
  {
    if e.Act? {
      QuietActs(s, e.id, e.action, s');
    } else if e.StopOne? || e.StoppedOne? {
      QuietShutsDown(s, e.id, s');
    } else {
      QuietCreates(s, e, s');
    }
  }

  lemma NextQuiet(s: System, s': System)
    requires SystemInv(s) && AllQuiet(s) && Next(s, s')
    ensures AllQuiet(s') && NoLaunch(s, s')
  {
    var e :| Step(s, e, s');
    QuietLaunchesNothing(s, e, s');
  }

  lemma QuietMeansGone(s: System)
    requires SystemInv(s) && AllQuiet(s)
    ensures forall id | id in s.lives :: forall p | p in s.lives[id].procs :: Gone(p)
  {
  }

  lemma FinishedStaysQuiet(run: seq<System>, i: nat, j: nat)
    requires Run(run) && i <= j < |run| && run[i].phase.Finished?
    ensures AllQuiet(run[j]) && NoLaunch(run[i], run[j])
  {
    InvIsInductive();
    RunKeepsInv(run, i);
    FinishedIsQuiet(run[i]);
    var end := run[i];
    var p := s => AllQuiet(s) && NoLaunch(end, s);
    forall s, s' | SystemInv(s) && p(s) && Next(s, s')
      ensures p(s')
    {
      NextQuiet(s, s');
    }
    Runs.FromThenOn(Start, Next, SystemInv, p, run, i, j);
  }

  /** Main result: in every interleaving, once shutdown's wait has returned,
      every process ever launched for any instance has exited or been sent Kill,
      and no later step, of whatever is still running, launches one. */
  lemma ShutdownLeavesNoChild(run: seq<System>, i: nat, j: nat)
    requires Run(run) && i <= j < |run| && run[i].phase.Finished?
    ensures forall id | id in run[j].lives :: forall p | p in run[j].lives[id].procs :: Gone(p)
    ensures NoLaunch(run[i], run[j])
  {
    FinishedStaysQuiet(run, i, j);
    RunKeepsInv(run, j);
    QuietMeansGone(run[j]);
  }

  // ------------------------------------------- Each instance runs its protocol

  lemma ActIsNext(l: Life, a: Action, down: bool)
    requires Enabled(l, a)
    ensures Laws.Next(l, Do(l, a, down))
  {
  }

  /** Shutdown's own steps are steps of the lifecycle too. */
  lemma StopIsNext(l: Life)
    ensures l.op == Free ==> Laws.Next(l, Acquire(l, ForShutdown))
    ensures l.op == Halted(ForShutdown) ==> Laws.Next(l, Proceed(l, ForShutdown))
  {
    if l.op == Free {
      ActIsNext(l, AAcquire(ForShutdown), true);
    } else if l.op == Halted(ForShutdown) {
      ActIsNext(l, AProceed, true);
    }
  }

  lemma InstanceStep(s: System, s': System, id: string)
    requires Next(s, s') && id in s.lives
    ensures id in s'.lives && Laws.Next(s.lives[id], s'.lives[id])
  {
    var e :| Step(s, e, s');
    if e.Act? {
      ActIsNext(s.lives[e.id], e.action, s.down);
    } else {
      StopIsNext(s.lives[id]);
    }
  }

  /** The history of one instance in a run of the master is a run of the
      instance, so every lifecycle law holds of it. */
  lemma {:induction false} InstanceRun(run: seq<System>, i: nat, id: string) returns (lives: seq<Life>)
    requires Run(run) && i < |run| && id in run[i].lives
    ensures Laws.Run(lives) && lives[|lives| - 1] == run[i].lives[id]
  {
    if i == 0 {
      lives := [run[0].lives[id]];
    } else if id in run[i - 1].lives {
      lives := InstanceRun(run, i - 1, id);
      InstanceStep(run[i - 1], run[i], id);
      Runs.OneMore(Initial, Laws.Next, lives, run[i].lives[id]);
      lives := lives + [run[i].lives[id]];
    } else {
      NewIsInitial(run[i - 1], run[i], id);
      lives := [run[i].lives[id]];
    }
  }

  lemma NewIsInitial(s: System, s': System, id: string)
    requires Next(s, s') && id !in s.lives && id in s'.lives
    ensures Initial(s'.lives[id])
  {
  }
}
