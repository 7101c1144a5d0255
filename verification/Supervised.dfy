/** A supervised instance as an object: its record, its place in the master's map,
    its processes and the operation in progress, changed in place one critical
    section at a time. Each method takes the step of the lifecycle that it
    models, so whatever is done to the object is a run of the lifecycle. */
module Supervised {
  import opened Wrappers
  import opened ByteCounter
  import opened Instance
  import opened Lifecycle
  import opened LifecycleProof
  import Laws = LifecycleLaws
  import Runs

  class Child {
    const record: Record
    var stored: bool
    var procs: seq<Process>
    var op: Op
    var views: seq<View>
    var published: seq<Notice>
    var past: History

    function State(): Life
      reads this, record, record.traffic
    {
      Life(record.State(), stored, procs, op, views, published, past)
    }

    constructor (url: Url, role: string, restart: bool, saved: Values)
      ensures State() == Fresh(url, role, restart, saved)
      ensures fresh(record) && fresh(record.traffic)
    {
      record := new Record(url, role, restart, saved);
      stored, procs, op := true, [], Free;
      views, published := [], [];
      past := History(saved, [], [], []);
    }

    // -------------------------------------------------- Lifecycle operations

    /** Takes lifecycleMu. */
    method Acquire(task: Task)
      modifies this`op
      ensures State() == Lifecycle.Acquire(old(State()), task)
    {
      match task {
        case ForStart => op := StartEntry(task);
        case ForStop => op := StopEntry(task);
        case ForShutdown => op := StopEntry(task);
        case ForRestart => op := StopEntry(task);
        case ForFailed => op := Entered(task);
        case ForPut(_, _) => op := Entered(task);
        case ForDelete => op := Entered(task);
      }
    }

    method CheckFailed()
      modifies this`op
      ensures State() == Lifecycle.CheckFailed(old(State()))
    {
      var eligible := stored && record.restart && record.status == Error && record.runtimeFailure && !record.deleted;
      op := if eligible then StopEntry(ForFailed) else Free;
    }

    method CheckPut(url: Url, role: string)
      modifies this`op
      ensures State() == Lifecycle.CheckPut(old(State()), url, role)
    {
      op := Free;
      if stored && !record.deleted && record.url != url {
        op := StopEntry(ForPut(url, role));
      }
    }

    method CheckDelete()
      modifies this`op, record
      ensures State() == Lifecycle.CheckDelete(old(State()))
    {
      op := Free;
      if stored && !record.deleted {
        record.deleted := true;
        op := StopEntry(ForDelete);
      }
    }

    /** The stopped channel of the command is closed, once. */
    method StopBegin(task: Task)
      modifies this, record
      ensures State() == Lifecycle.StopBegin(old(State()), task)
    {
      var found := record.StopFirstLocked();
      match found {
        case AlreadyStopped => op := Halted(task);
        case NoProcess =>
          stored := true;
          op := Halted(task);
        case HasProcess(g, exited) =>
          if record.stopped.Some? && record.stopped.value < |procs| {
            var c := record.stopped.value;
            procs := procs[c := procs[c].(stopClosed := true)];
          }
          op := Signalled(task, g, exited);
      }
    }

    method StopEnd(task: Task)
      modifies this, record
      ensures State() == Lifecycle.StopEnd(old(State()), task)
    {
      record.ResetStoppedLocked();
      stored := true;
      op := Halted(task);
    }

    method Kill(g: nat)
      modifies this`procs
      ensures State() == old(State()).(procs := Lifecycle.Kill(old(procs), g))
    {
      if g < |procs| {
        procs := procs[g := procs[g].(killed := true)];
      }
    }

    method Proceed(task: Task)
      modifies this, record
      ensures State() == Lifecycle.Proceed(old(State()), task)
    {
      op := Free;
      match task {
        case ForRestart => op := StartEntry(task);
        case ForFailed => op := StartEntry(task);
        case ForPut(url, role) =>
          record.ReplaceLocked(url, role);
          stored := true;
          op := StartEntry(task);
        case ForDelete => stored := false;
        case _ =>
      }
    }

    method StartTests(task: Task, down: bool)
      modifies this, record
      ensures State() == Lifecycle.StartTests(old(State()), task, down)
    {
      var verdict := record.StartTestsLocked(down);
      op := if verdict == Accepted then Launching(task) else Free;
    }

    method Launch(outcome: Outcome)
      modifies this, record, record.traffic
      ensures State() == Lifecycle.Launch(old(State()), outcome)
    {
      var url := record.url;
      record.LaunchLocked(outcome, |procs|);
      if outcome == Started {
        procs := procs + [Process(url, None, false, false, Waiting, None, {}, NOTHING)];
      }
      stored := true;
      op := Free;
    }

    method Patch(restart: Option<bool>, reset: bool)
      modifies this, record, record.traffic
      ensures State() == Lifecycle.Patch(old(State()), restart, reset)
    {
      if stored && !record.deleted {
        record.PatchLocked(restart, reset);
      }
    }

    // ---------------------------------------------- Goroutines of a process

    method Settle(g: nat)
      requires g < |procs| && procs[g].exit.Some?
      modifies this, record
      ensures State() == Lifecycle.Settle(old(State()), g)
    {
      var _ := record.SettleLocked(g, procs[g].stopClosed, procs[g].exit.value);
      procs := procs[g := procs[g].(monitor := Settling)];
    }

    method StoppedIsClosed() returns (closed: bool)
      ensures closed == StopClosed(State())
    {
      closed := record.stopped.Some? && record.stopped.value < |procs| && procs[record.stopped.value].stopClosed;
    }

    method Hello(g: nat)
      requires g < |procs| && procs[g].probe.Some?
      modifies this, record
      ensures State() == Lifecycle.Hello(old(State()), g)
    {
      var closed := StoppedIsClosed();
      var p := procs[g].(probe := None);
      var current := record.ApplyHelloLocked(g, closed, procs[g].probe.value);
      if current {
        p := p.(identities := p.identities + {procs[g].probe.value});
      }
      procs := procs[g := p];
    }

    method Snapshot(g: nat, values: Values, tcps: nat, udps: nat)
      requires g < |procs|
      modifies this, record, record.traffic
      ensures State() == Lifecycle.Snapshot(old(State()), g, values, tcps, udps)
    {
      var closed := StoppedIsClosed();
      var _ := record.ApplySnapshotLocked(g, closed, values, tcps, udps);
      procs := procs[g := procs[g].(reported := values)];
    }

    method ClearActive(g: nat)
      modifies record
      ensures State() == Lifecycle.ClearActive(old(State()), g)
    {
      var closed := StoppedIsClosed();
      record.ClearActiveLocked(g, closed);
    }

    /** Publishes while the mutex is held. */
    method WriteLog(g: nat)
      modifies this`published
      ensures State() == Lifecycle.WriteLog(old(State()), g)
    {
      if !record.deleted && record.cmd == Some(g) {
        published := published + [LogNotice(g)];
      }
    }

    method TakeView()
      modifies this`views
      ensures State() == Lifecycle.TakeView(old(State()))
    {
      views := views + [View(|procs|, record.cmd)];
    }

    method Publish(i: nat)
      requires i < |views|
      modifies this`views, this`published
      ensures State() == Lifecycle.Publish(old(State()), i)
    {
      published := published + [StateNotice(views[i])];
      views := views[..i] + views[i + 1..];
    }

    // ------------------------------------------------------------- One step

    method Check(task: Task)
      requires op == Entered(task)
      modifies this`op, record
      ensures forall down :: State() == Lifecycle.Operate(old(State()), ACheck, down)
    {
      match task {
        case ForFailed => CheckFailed();
        case ForPut(url, role) => CheckPut(url, role);
        case ForDelete => CheckDelete();
        case _ => op := Free;
      }
    }

    method Operate(a: Action, down: bool)
      requires Enabled(State(), a) && IsOperation(a)
      modifies this, record, record.traffic
      ensures State() == Lifecycle.Operate(old(State()), a, down)
    {
      match a {
        case AAcquire(task) => Acquire(task);
        case ACheck => Check(op.task);
        case AStopBegin => StopBegin(op.task);
        case AStopEnd => StopEnd(op.task);
        case AProceed => Proceed(op.task);
        case AStartTests => StartTests(op.task, down);
        case ALaunch(outcome) => Launch(outcome);
        case APatch(restart, reset) => Patch(restart, reset);
      }
    }

    /** The waits of stopInstanceLocked between its two sections. */
    method Wait(a: Action)
      requires Enabled(State(), a) && IsWait(a)
      modifies this
      ensures State() == Lifecycle.Wait(old(State()), a)
    {
      match a {
        case ASawExit => op := StopLast(op.task);
        case ATimeout =>
          Kill(op.process);
          op := ForceKilled(op.task);
        case ANoChannel =>
          Kill(op.process);
          op := StopLast(op.task);
        case AGiveUp => op := StopLast(op.task);
      }
    }

    method StepProcess(a: Action)
      requires Enabled(State(), a) && IsProcessStep(a)
      modifies this`procs
      ensures State() == Lifecycle.Update(old(State()), a.g, Progressed(old(State()), a))
    {
      var p := procs[a.g];
      match a {
        case AExit(_, ok) => p := p.(exit := Some(ok));
        case AWaitReturns(_) => p := p.(monitor := Flushing);
        case ACloseExited(_) => p := p.(monitor := Closed);
        case AProbe(_, name) =>
          var matches := record.telemetryIdentity == "" || record.telemetryIdentity == name;
          p := p.(probe := if matches then Some(name) else None);
      }
      procs := procs[a.g := p];
    }

    method Report(a: Action)
      requires Enabled(State(), a) && IsReport(a)
      modifies this, record, record.traffic
      ensures State() == Lifecycle.Report(old(State()), a)
    {
      match a {
        case ASettle(g) => Settle(g);
        case AHello(g) => Hello(g);
        case ASnapshot(g, values, tcps, udps) => Snapshot(g, values, tcps, udps);
        case AClear(g) => ClearActive(g);
      }
    }

    method Notify(a: Action)
      requires Enabled(State(), a) && IsNotice(a)
      modifies this
      ensures State() == Lifecycle.Notify(old(State()), a)
    {
      match a {
        case ALog(g) => WriteLog(g);
        case ATakeView => TakeView();
        case APublish(i) => Publish(i);
      }
    }

    method Run(a: Action, down: bool)
      requires Enabled(State(), a)
      modifies this, record, record.traffic
      ensures State() == Acted(old(State()), a, down)
    {
      if IsOperation(a) {
        Operate(a, down);
      } else if IsWait(a) {
        Wait(a);
      } else if IsProcessStep(a) {
        StepProcess(a);
      } else if IsReport(a) {
        Report(a);
      } else {
        Notify(a);
      }
    }

    method Act(a: Action, down: bool)
      requires Enabled(State(), a)
      modifies this, record, record.traffic
      ensures State() == Do(old(State()), a, down)
    {
      var before := State();
      Run(a, down);
      past := Remembered(before, a, record.State());
    }
  }

  /** One thing that is tried, and whether the master is shutting down then. */
  datatype Attempt = Attempt(action: Action, down: bool)

  /** Makes an instance and then takes, in order, every attempted step that is
      possible when its turn comes. What results is a run of the lifecycle. */
  method Drive(url: Url, role: string, restart: bool, saved: Values, plan: seq<Attempt>)
    returns (child: Child, ghost run: seq<Life>)
    ensures fresh(child) && Laws.Run(run) && run[|run| - 1] == child.State()
    ensures Inv(child.State())
  {
    child := new Child(url, role, restart, saved);
    run := [child.State()];
    for i := 0 to |plan|
      invariant fresh(child) && fresh(child.record) && fresh(child.record.traffic)
      invariant Laws.Run(run) && run[|run| - 1] == child.State()
    {
      if Enabled(child.State(), plan[i].action) {
        ghost var before := child.State();
        child.Act(plan[i].action, plan[i].down);
        assert Laws.Next(before, child.State());
        Runs.OneMore(Initial, Laws.Next, run, child.State());
        run := run + [child.State()];
      }
    }
    Laws.RunKeepsInv(run, |run| - 1);
  }
}
