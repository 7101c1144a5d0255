/** Shutdown can always finish: from wherever the master is, whatever operations
    are in progress and however its children behave, there is a way to the end of
    shutdown's wait that needs no new instance and no process that ends. */
module SupervisorProgress {
  import opened Wrappers
  import opened ByteCounter
  import opened Instance
  import opened Lifecycle
  import opened Supervisor
  import Effects = LifecycleEffects
  import Runs

  ghost predicate Reaches(s0: System, s: System) {
    Runs.Reaches(Next, s0, s) && s.lives.Keys == s0.lives.Keys
  }

  lemma StepOn(s0: System, s: System, e: Event, s': System)
    requires Reaches(s0, s) && Step(s, e, s') && s'.lives.Keys == s.lives.Keys
    ensures Reaches(s0, s')
  {
    Runs.ReachesOn(Next, s0, s, s');
  }

  function WithLife(s: System, id: string, l: Life): System {
    s.(lives := s.lives[id := l])
  }

  lemma ActOn(s0: System, s: System, id: string, a: Action) returns (l: Life)
    requires Reaches(s0, s) && id in s.lives && Enabled(s.lives[id], a) && !IsShutdownStep(s.lives[id], a)
    ensures l == Do(s.lives[id], a, s.down) && Reaches(s0, WithLife(s, id, l))
  {
    l := Do(s.lives[id], a, s.down);
    StepOn(s0, s, Act(id, a), WithLife(s, id, l));
  }

  predicate StopsForShutdown(op: Op) {
    Effects.InStop(op) && op.task == ForShutdown
  }

  lemma OwnStepKeepsStop(l: Life, down: bool)
    requires !Effects.Resting(l) && l.op != Halted(ForShutdown)
    ensures !IsShutdownStep(l, Effects.OwnStep(l.op)) && Enabled(l, Effects.OwnStep(l.op))
    ensures StopsForShutdown(l.op) ==> StopsForShutdown(Do(l, Effects.OwnStep(l.op), down).op)
  {
  }

  /** The operation in progress for an instance can end, or can bring shutdown's
      own stop to where it returns. */
  lemma {:induction false} RestOne(s0: System, s: System, id: string) returns (l: Life)
    requires Reaches(s0, s) && id in s.lives
    ensures Reaches(s0, WithLife(s, id, l)) && (l.op == Free || l.op == Halted(ForShutdown))
    ensures StopsForShutdown(s.lives[id].op) ==> l.op == Halted(ForShutdown)
    decreases Effects.Left(s.lives[id].op)
  {
    l := s.lives[id];
    if l.op.Launching? {
      l := ActOn(s0, s, id, ALaunch(NoExecutable));
    } else if l.op == Free || l.op == Halted(ForShutdown) {
      SameLife(s, id);
    } else {
      OwnStepKeepsStop(l, s.down);
      Effects.OwnStepGetsOn(l, s.down);
      l := ActOn(s0, s, id, Effects.OwnStep(l.op));
      var between := WithLife(s, id, l);
      l := RestOne(s0, between, id);
      TwiceIsOnce(s, id, between.lives[id], l);
    }
  }

  lemma SameLife(s: System, id: string)
    requires id in s.lives
    ensures WithLife(s, id, s.lives[id]) == s
  {
    assert s.lives[id := s.lives[id]] == s.lives;
  }

  lemma TwiceIsOnce(s: System, id: string, l: Life, l': Life)
    ensures WithLife(WithLife(s, id, l), id, l') == WithLife(s, id, l')
  {
    assert s.lives[id := l][id := l'] == s.lives[id := l'];
  }

  // ---------------------------------------------------------------- The range

  function Unvisited(s: System): set<string>
    requires s.phase.Visiting?
  {
    set id | id in s.phase.listed && id in s.lives && id !in s.phase.visited
  }

  lemma VisitOne(s0: System, s: System, id: string) returns (s': System)
    requires Reaches(s0, s) && s.phase.Visiting? && id in Unvisited(s) && s.lives[id].stored
    ensures Reaches(s0, s') && s'.phase.Visiting? && |Unvisited(s')| < |Unvisited(s)|
  {
    s' := s;
    if s.lives[id].op.Launching? {
      var l := ActOn(s0, s, id, ALaunch(NoExecutable));
      s' := WithLife(s, id, l);
    }
    var visited := s'.(
      phase := s'.phase.(visited := s'.phase.visited + {id}),
      stopping := if s'.lives[id].f.status != Stopped && s'.lives[id].f.cmd.Some?
                  then s'.stopping + {id} else s'.stopping);
    StepOn(s0, s', Visit(id), visited);
    s' := visited;
    assert Unvisited(s') == Unvisited(s) - {id};
  }

  /** Every listed instance that stays in the map can be visited. */
  lemma {:induction false} VisitAll(s0: System, s: System) returns (s': System)
    requires Reaches(s0, s) && s.phase.Visiting?
    ensures Reaches(s0, s') && s'.phase == Awaiting
    decreases |Unvisited(s)|
  {
    if id :| id in Unvisited(s) && s.lives[id].stored {
      s' := VisitOne(s0, s, id);
      s' := VisitAll(s0, s');
    } else {
      s' := s.(phase := Awaiting);
      AllVisited(s);
      StepOn(s0, s, EndVisits, s');
    }
  }

  lemma AllVisited(s: System)
    requires s.phase.Visiting? && forall id | id in Unvisited(s) :: !s.lives[id].stored
    ensures forall id | id in s.phase.listed && id in s.lives && s.lives[id].stored :: id in s.phase.visited
  {
    var left := Unvisited(s);
    assert forall id | id in s.phase.listed && id in s.lives :: id in s.phase.visited || id in left;
  }

  // ----------------------------------------------------------------- The wait

  lemma StopOneMore(s0: System, s: System, id: string) returns (s': System)
    requires Reaches(s0, s) && s.phase == Awaiting && id in s.stopping && id in s.lives
    ensures Reaches(s0, s') && s'.phase == Awaiting && s'.stopping == s.stopping - {id}
  {
    var l := RestOne(s0, s, id);
    s' := WithLife(s, id, l);
    if l.op == Free {
      var begun := WithLife(s', id, Acquire(l, ForShutdown));
      StepOn(s0, s', StopOne(id), begun);
      l := RestOne(s0, begun, id);
      s' := WithLife(begun, id, l);
    }
    var done := WithLife(s', id, Proceed(l, ForShutdown)).(stopping := s'.stopping - {id});
    StepOn(s0, s', StoppedOne(id), done);
    s' := done;
  }

  lemma {:induction false} StopAll(s0: System, s: System) returns (s': System)
    requires Reaches(s0, s) && s.phase == Awaiting && s.stopping <= s.lives.Keys
    ensures Reaches(s0, s') && s'.phase == Finished
    decreases |s.stopping|
  {
    if s.stopping == {} {
      s' := s.(phase := Finished);
      StepOn(s0, s, EndWait, s');
    } else {
      var id :| id in s.stopping;
      s' := StopOneMore(s0, s, id);
      s' := StopAll(s0, s');
    }
  }

  // --------------------------------------------------------------- Main result

  predicate StoppingIsKnown(s: System) {
    s.stopping <= s.lives.Keys
  }

  lemma RunKnowsStopping(run: seq<System>, i: nat)
    requires Run(run) && i < |run|
    ensures StoppingIsKnown(run[i])
  {
    forall s, s' | StoppingIsKnown(s) && Next(s, s')
      ensures StoppingIsKnown(s')
    {
      var e :| Step(s, e, s');
    }
    Runs.Throughout(Start, Next, StoppingIsKnown, run, i);
  }

  lemma ReachedKnowsStopping(run: seq<System>, s: System)
    requires Run(run) && Runs.Reaches(Next, run[|run| - 1], s)
    ensures StoppingIsKnown(s)
  {
    var longer := Runs.RunReaches(Start, Next, run, s);
    RunKnowsStopping(longer, |longer| - 1);
  }

  predicate AllGone(s: System) {
    forall id | id in s.lives :: forall p | p in s.lives[id].procs :: Gone(p)
  }

  /** Main result: every run of the master can go on to the end of shutdown's
      wait, without a new instance and with all that there were; then every
      process has ended or was sent Kill. */
  lemma ShutdownCanFinish(run: seq<System>) returns (longer: seq<System>)
    requires Run(run)
    ensures Run(longer) && run <= longer
    ensures longer[|longer| - 1].phase == Finished
    ensures longer[|longer| - 1].lives.Keys == run[|run| - 1].lives.Keys
    ensures AllGone(longer[|longer| - 1])
  {
    var s0 := run[|run| - 1];
    Runs.ReachesItself(Next, s0);
    var s := s0;
    if s.phase == Serving {
      s := s0.(down := true, phase := Visiting(set id | id in s0.lives && s0.lives[id].stored, {}));
      StepOn(s0, s0, BeginShutdown, s);
    }
    if s.phase.Visiting? {
      s := VisitAll(s0, s);
    }
    if s.phase == Awaiting {
      ReachedKnowsStopping(run, s);
      s := StopAll(s0, s);
    }
    longer := Runs.RunReaches(Start, Next, run, s);
    ShutdownLeavesNoChild(longer, |longer| - 1, |longer| - 1);
  }

  /** The master keeps no instance from a step of its lifecycle, except the
      beginning and the end of shutdown's own stop. */
  lemma InstancesAreFree(s: System, id: string, a: Action) returns (s': System)
    requires id in s.lives && Enabled(s.lives[id], a) && !IsShutdownStep(s.lives[id], a)
    ensures Step(s, Act(id, a), s')
    ensures s'.lives == s.lives[id := Do(s.lives[id], a, s.down)]
    ensures s'.down == s.down && s'.phase == s.phase && s'.stopping == s.stopping
  {
    s' := s.(lives := s.lives[id := Do(s.lives[id], a, s.down)]);
  }

  /** A POST can always add an instance, which is then in the map, stopped, to be
      restarted after a failure, and without a process. */
  lemma CreateTakesEffect(s: System, id: string, url: Url, role: string) returns (s': System)
    requires id !in s.lives
    ensures Step(s, Create(id, url, role), s')
    ensures s'.lives.Keys == s.lives.Keys + {id} && forall k | k in s.lives :: s'.lives[k] == s.lives[k]
    ensures var l := s'.lives[id];
      && l.stored && l.f.url == url && l.f.role == role && l.f.status == Stopped && l.f.restart
      && !l.f.deleted && l.f.cmd == None && l.procs == [] && l.op == Free && Effects.AllZero(l.f.traffic)
  {
    s' := s.(lives := s.lives[id := Fresh(url, role, true, NOTHING)]);
  }
}
