/** Every step keeps the lifecycle invariant. */
module LifecycleProof {
  import opened Wrappers
  import opened ByteCounter
  import opened Instance
  import opened Lifecycle

  /** An instance as it is created or loaded. */
  predicate Initial(l: Life) {
    l == Fresh(l.f.url, l.f.role, l.f.restart, l.past.opening)
  }

  lemma InitialInv(l: Life)
    requires Initial(l)
    ensures Inv(l)
  {
  }

  // ------------------------------------------------------- Parts that recur

  lemma NoticesAfterReset(cmd: Option<nat>, launched: nat, views: seq<View>, published: seq<Notice>)
    requires NoticesOk(cmd, launched, views, published)
    ensures NoticesOk(None, launched, views, published)
  {
  }

  // ---------------------------------------------------- Lifecycle operations

  lemma AcquireKeepsInv(l: Life, task: Task)
    requires Inv(l) && l.op == Free && TaskValid(task)
    ensures Inv(Acquire(l, task))
  {
  }

  lemma CheckFailedKeepsInv(l: Life)
    requires Inv(l) && l.op == Entered(ForFailed)
    ensures Inv(CheckFailed(l))
  {
  }

  lemma CheckPutKeepsInv(l: Life, url: Url, role: string)
    requires Inv(l) && l.op == Entered(ForPut(url, role))
    ensures Inv(CheckPut(l, url, role))
  {
  }

  lemma CheckDeleteKeepsInv(l: Life)
    requires Inv(l) && l.op == Entered(ForDelete)
    ensures Inv(CheckDelete(l))
  {
  }

  lemma CheckKeepsInv(l: Life, down: bool)
    requires Inv(l) && Enabled(l, ACheck)
    ensures Inv(Operate(l, ACheck, down))
  {
    match l.op.task
    case ForFailed => CheckFailedKeepsInv(l);
    case ForPut(url, role) => CheckPutKeepsInv(l, url, role);
    case ForDelete => CheckDeleteKeepsInv(l);
    case _ =>
  }

  lemma StopBeginKeepsInv(l: Life)
    requires Inv(l) && l.op.StopEntry?
    ensures Inv(StopBegin(l, l.op.task))
  {
  }

  lemma WaitKeepsInv(l: Life, a: Action)
    requires Inv(l) && Enabled(l, a) && IsWait(a)
    ensures Inv(Wait(l, a))
  {
  }

  lemma StopEndKeepsInv(l: Life)
    requires Inv(l) && l.op.StopLast?
    ensures Inv(StopEnd(l, l.op.task))
  {
  }

  lemma ProceedKeepsInv(l: Life)
    requires Inv(l) && l.op.Halted?
    ensures Inv(Proceed(l, l.op.task))
  {
  }

  lemma StartTestsKeepsInv(l: Life, down: bool)
    requires Inv(l) && l.op.StartEntry?
    ensures Inv(StartTests(l, l.op.task, down))
  {
  }

  lemma LaunchKeepsInv(l: Life, outcome: Outcome)
    requires Inv(l) && l.op.Launching?
    ensures Inv(Launch(l, outcome))
  {
  }

  lemma PatchKeepsInv(l: Life, restart: Option<bool>, reset: bool)
    requires Inv(l) && l.op == Free
    ensures Inv(Patch(l, restart, reset))
  {
  }

  // ------------------------------------------------- Goroutines of a process

  /** A change to one process that its operation does not depend on. */
  lemma UpdateKeepsInv(l: Life, g: nat, p: Process)
    requires Inv(l) && g < |l.procs| && ProcessOk(l.f, g, p)
    requires p.stopClosed == l.procs[g].stopClosed && p.killed == l.procs[g].killed
    requires l.procs[g].exit.Some? ==> p.exit.Some?
    ensures Inv(Update(l, g, p))
  {
  }

  lemma ProcessStepKeepsInv(l: Life, a: Action)
    requires Inv(l) && Enabled(l, a) && IsProcessStep(a)
    ensures Inv(Update(l, a.g, Progressed(l, a)))
  {
    assert ProcessOk(l.f, a.g, l.procs[a.g]);
    UpdateKeepsInv(l, a.g, Progressed(l, a));
  }

  /** The monitor acts only on its own process, and only if no stop has begun. */
  lemma SettleActsAlone(l: Life, g: nat)
    requires Inv(l) && MutexFree(l) && g < |l.procs| && l.procs[g].exit.Some?
    requires Settled(l.f, g, l.procs[g].stopClosed, l.procs[g].exit.value) != l.f
    ensures l.f.cmd == Some(g) && !l.f.deleted && !l.procs[g].stopClosed
    ensures l.op == Free || l.op.Entered? || l.op.StopEntry? || (l.op.StartEntry? && l.op.task == ForStart)
    ensures l.op.StopEntry? ==> l.op.task != ForFailed
  {
  }

  lemma SettleKeepsInv(l: Life, g: nat)
    requires Inv(l) && Enabled(l, ASettle(g))
    ensures Inv(Settle(l, g))
  {
    var p := l.procs[g];
    var f' := Settled(l.f, g, p.stopClosed, p.exit.value);
    assert ProcessOk(l.f, g, p);
    UpdateKeepsInv(l, g, p.(monitor := Settling));
    var l1 := Update(l, g, p.(monitor := Settling));
    if f' != l.f {
      SettleActsAlone(l, g);
      NoticesAfterReset(l.f.cmd, |l.procs|, l.views, l.published);
      forall h: nat | h < |l1.procs|
        ensures ProcessOk(f', h, l1.procs[h])
      {
        assert ProcessOk(l1.f, h, l1.procs[h]);
      }
    }
  }

  /** Applying the accepted name to the running process. */
  lemma NamingKeepsProcesses(f: Fields, procs: seq<Process>, g: nat, name: string)
    requires ProcessesOk(f, procs) && g < |procs| && f.cmd == Some(g) && procs[g].probe == Some(name)
    ensures var p := procs[g].(probe := None, identities := procs[g].identities + {name});
            ProcessesOk(f.(identity := name), procs[g := p])
  {
  }

  lemma HelloKeepsInv(l: Life, g: nat)
    requires Inv(l) && Enabled(l, AHello(g))
    ensures Inv(Hello(l, g))
  {
    if Current(l, g) {
      NamingKeepsProcesses(l.f, l.procs, g, l.procs[g].probe.value);
    } else {
      assert ProcessOk(l.f, g, l.procs[g]);
      UpdateKeepsInv(l, g, l.procs[g].(probe := None));
    }
  }

  lemma SnapshotKeepsInv(l: Life, g: nat, values: Values, tcps: nat, udps: nat)
    requires Inv(l) && g < |l.procs|
    ensures Inv(Snapshot(l, g, values, tcps, udps))
  {
    assert ProcessOk(l.f, g, l.procs[g]);
    UpdateKeepsInv(l, g, l.procs[g].(reported := values));
    if Current(l, g) {
      MeteringKeepsInv(Update(l, g, l.procs[g].(reported := values)), Metered(l.f, values, tcps, udps));
    }
  }

  /** While the command lives, only its figures and counters change. */
  lemma MeteringKeepsInv(l: Life, f: Fields)
    requires Inv(l) && l.f.cmd.Some? && f == l.f.(live := f.live, traffic := f.traffic)
    ensures Inv(l.(f := f))
  {
    forall g: nat | g < |l.procs|
      ensures ProcessOk(f, g, l.procs[g])
    {
      assert ProcessOk(l.f, g, l.procs[g]);
    }
  }

  lemma ClearActiveKeepsInv(l: Life, g: nat)
    requires Inv(l) && g < |l.procs|
    ensures Inv(ClearActive(l, g))
  {
    if Current(l, g) {
      MeteringKeepsInv(l, l.f.(live := l.f.live.(tcps := 0, udps := 0)));
      assert ClearActive(l, g) == l.(f := ClearActive(l, g).f);
    }
  }

  lemma LogKeepsInv(l: Life, g: nat)
    requires Inv(l) && g < |l.procs|
    ensures Inv(WriteLog(l, g))
  {
  }

  lemma TakeViewKeepsInv(l: Life)
    requires Inv(l)
    ensures Inv(TakeView(l))
  {
  }

  lemma PublishKeepsInv(l: Life, i: nat)
    requires Inv(l) && i < |l.views|
    ensures Inv(Publish(l, i))
  {
  }

  lemma ReportKeepsInv(l: Life, a: Action)
    requires Inv(l) && Enabled(l, a) && IsReport(a)
    ensures Inv(Report(l, a))
  {
    match a
    case ASettle(g) => SettleKeepsInv(l, g);
    case AHello(g) => HelloKeepsInv(l, g);
    case ASnapshot(g, values, tcps, udps) => SnapshotKeepsInv(l, g, values, tcps, udps);
    case AClear(g) => ClearActiveKeepsInv(l, g);
  }

  lemma NotifyKeepsInv(l: Life, a: Action)
    requires Inv(l) && Enabled(l, a) && IsNotice(a)
    ensures Inv(Notify(l, a))
  {
    match a
    case ALog(g) => LogKeepsInv(l, g);
    case ATakeView => TakeViewKeepsInv(l);
    case APublish(i) => PublishKeepsInv(l, i);
  }

  lemma OperateKeepsInv(l: Life, a: Action, down: bool)
    requires Inv(l) && Enabled(l, a) && IsOperation(a)
    ensures Inv(Operate(l, a, down))
  {
    match a
    case AAcquire(task) => AcquireKeepsInv(l, task);
    case ACheck => CheckKeepsInv(l, down);
    case AStopBegin => StopBeginKeepsInv(l);
    case AStopEnd => StopEndKeepsInv(l);
    case AProceed => ProceedKeepsInv(l);
    case AStartTests => StartTestsKeepsInv(l, down);
    case ALaunch(outcome) => LaunchKeepsInv(l, outcome);
    case APatch(restart, reset) => PatchKeepsInv(l, restart, reset);
  }

  lemma ActedKeepsInv(l: Life, a: Action, down: bool)
    requires Inv(l) && Enabled(l, a)
    ensures Inv(Acted(l, a, down))
  {
    if IsOperation(a) {
      OperateKeepsInv(l, a, down);
    } else if IsWait(a) {
      WaitKeepsInv(l, a);
    } else if IsProcessStep(a) {
      ProcessStepKeepsInv(l, a);
    } else if IsReport(a) {
      ReportKeepsInv(l, a);
    } else {
      NotifyKeepsInv(l, a);
    }
  }

  lemma PastIsIrrelevant(l: Life, past: History)
    requires Inv(l)
    ensures Inv(l.(past := past))
  {
  }

  lemma DoKeepsInv(l: Life, a: Action, down: bool)
    requires Inv(l) && Enabled(l, a)
    ensures Inv(Do(l, a, down))
  {
    ActedKeepsInv(l, a, down);
    PastIsIrrelevant(Acted(l, a, down), Do(l, a, down).past);
  }
}
