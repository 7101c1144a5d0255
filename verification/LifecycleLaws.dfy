/** What the lifecycle guarantees over every run of one instance. */
module LifecycleLaws {
  import opened Wrappers
  import opened Instance
  import opened Lifecycle
  import opened LifecycleProof
  import Runs

  ghost predicate Next(l: Life, l': Life) {
    l' == l || exists a, down :: Enabled(l, a) && l' == Do(l, a, down)
  }

  /** Any interleaving of operations, processes and goroutines of an instance. */
  ghost predicate Run(run: seq<Life>) {
    Runs.IsRun(Initial, Next, run)
  }

  lemma NextKeepsInv(l: Life, l': Life)
    requires Inv(l) && Next(l, l')
    ensures Inv(l')
  {
    if l' != l {
      var a, down :| Enabled(l, a) && l' == Do(l, a, down);
      DoKeepsInv(l, a, down);
    }
  }

  lemma InvIsInductive()
    ensures forall l | Initial(l) :: Inv(l)
    ensures forall l, l' | Inv(l) && Next(l, l') :: Inv(l')
  {
    forall l | Initial(l)
      ensures Inv(l)
    {
      InitialInv(l);
    }
    forall l, l' | Inv(l) && Next(l, l')
      ensures Inv(l')
    {
      NextKeepsInv(l, l');
    }
  }

  lemma RunKeepsInv(run: seq<Life>, i: nat)
    requires Run(run) && i < |run|
    ensures Inv(run[i])
  {
    InvIsInductive();
    Runs.Throughout(Initial, Next, Inv, run, i);
  }

  // ----------------------------------------------------------------- Coherence

  /** Whenever the mutex is free, the status, the process, the URL it was
      launched with, the failure flag and the live figures agree. In particular
      an error counts as a failure to retry exactly when the URL is one that can
      be started. */
  lemma StatusIsCoherent(run: seq<Life>, i: nat)
    requires Run(run) && i < |run|
    ensures var l := run[i];
      && (l.f.status == Running <==> l.f.cmd.Some?)
      && (l.f.cmd.Some? ==>
            && l.f.cmd.value + 1 == |l.procs| && l.f.exited.Some?
            && l.procs[l.f.cmd.value].url == l.f.url
            && l.f.url.Url? && l.f.url.scheme == l.f.role)
      && (l.f.runtimeFailure <==> l.f.status == Error && UrlAccepted(l.f))
      && (l.f.status != Running ==> l.f.live == IDLE)
  {
    RunKeepsInv(run, i);
    var l := run[i];
    if l.f.cmd.Some? {
      assert ProcessOk(l.f, l.f.cmd.value, l.procs[l.f.cmd.value]);
    }
  }

  /** Every process that was ever launched and is not the instance's command has
      exited or been sent Kill. */
  lemma NoStrayProcess(run: seq<Life>, i: nat, g: nat)
    requires Run(run) && i < |run| && g < |run[i].procs| && run[i].f.cmd != Some(g)
    ensures Gone(run[i].procs[g])
  {
    RunKeepsInv(run, i);
    assert ProcessOk(run[i].f, g, run[i].procs[g]);
  }

  // ------------------------------------------------------------------ Stopping

  /** A stop that signals a process always has its exited channel to wait for. */
  lemma StopAlwaysHasAChannel(run: seq<Life>, i: nat)
    requires Run(run) && i < |run|
    ensures !Enabled(run[i], ANoChannel)
  {
    RunKeepsInv(run, i);
  }

  /** Stop wins every race with the monitor: from the return of
      stopInstanceLocked until the start half of the same operation, the instance
      is stopped, has no process and no failure. */
  lemma StopWins(run: seq<Life>, i: nat)
    requires Run(run) && i < |run|
    requires run[i].op.Halted? || (run[i].op.StartEntry? && run[i].op.task != ForStart)
    ensures run[i].f.status == Stopped && run[i].f.cmd == None && !run[i].f.runtimeFailure
  {
    RunKeepsInv(run, i);
  }

  /** So the start half of a restart or a replacement is refused exactly when the
      master shuts down or the instance is deleted, and a replacement, whose URL
      was checked, is never rejected. */
  lemma StartHalfIsRefusedOnly(run: seq<Life>, i: nat, down: bool)
    requires Run(run) && i < |run| && run[i].op.StartEntry? && run[i].op.task != ForStart
    ensures StartVerdict(run[i].f, down) == Refused <==> down || run[i].f.deleted
    ensures run[i].op.task.ForPut? ==> StartVerdict(run[i].f, down) == if down then Refused else Accepted
  {
    RunKeepsInv(run, i);
  }

  // ------------------------------------------------------------------ Deletion

  /** l' differs from l at most in its event records, in the ends of processes
      launched before, and in which operation waits. */
  predicate Frozen(l: Life, l': Life) {
    !l'.stored && l'.f == l.f && |l'.procs| == |l.procs|
  }

  lemma RemovedOperates(l: Life, a: Action, down: bool)
    requires Inv(l) && !l.stored && Enabled(l, a) && IsOperation(a)
    ensures Frozen(l, Operate(l, a, down))
  {
  }

  lemma RemovedReports(l: Life, a: Action)
    requires Inv(l) && !l.stored && Enabled(l, a) && IsReport(a)
    ensures Frozen(l, Report(l, a))
  {
  }

  lemma RemovedElse(l: Life, a: Action, down: bool)
    requires Inv(l) && !l.stored && Enabled(l, a) && (IsWait(a) || IsProcessStep(a) || IsNotice(a))
    ensures Frozen(l, Do(l, a, down))
  {
  }

  lemma RemovedStays(l: Life, l': Life)
    requires Inv(l) && !l.stored && Next(l, l')
    ensures Frozen(l, l')
  {
    if l' != l {
      var a, down :| Enabled(l, a) && l' == Do(l, a, down);
      if IsOperation(a) {
        RemovedOperates(l, a, down);
      } else if IsReport(a) {
        RemovedReports(l, a);
      } else {
        RemovedElse(l, a, down);
      }
    }
  }

  /** Deletion is permanent: once the instance has left the map, no step of any
      pending operation or goroutine stores it again, changes any of its fields
      or launches a process, and it is stopped. */
  lemma DeletionIsPermanent(run: seq<Life>, i: nat, j: nat)
    requires Run(run) && i <= j < |run| && !run[i].stored
    ensures Frozen(run[i], run[j])
    ensures run[j].f.deleted && run[j].f.status == Stopped && run[j].f.cmd == None
  {
    InvIsInductive();
    var start := run[i];
    var p := l => Frozen(start, l);
    forall l, l' | Inv(l) && p(l) && Next(l, l')
      ensures p(l')
    {
      RemovedStays(l, l');
    }
    Runs.FromThenOn(Initial, Next, Inv, p, run, i, j);
    RunKeepsInv(run, j);
  }

  // ----------------------------------------------------------------- Isolation

  predicate Retired(l: Life, g: nat) {
    g < |l.procs| && l.f.cmd != Some(g)
  }

  /** From l to l', process g stays retired, keeps its identity record and has
      no log published. */
  predicate StillRetired(l: Life, l': Life, g: nat) {
    && Retired(l, g) && Retired(l', g)
    && l'.procs[g].identities == l.procs[g].identities
    && l.published <= l'.published
    && forall k | |l.published| <= k < |l'.published| :: l'.published[k] != LogNotice(g)
  }

  /** What a report of a retired process does to the instance: nothing. */
  lemma RetiredIsInert(l: Life, a: Action)
    requires Inv(l) && Enabled(l, a) && IsReport(a) && Retired(l, a.g)
    ensures Report(l, a) == Update(l, a.g, Report(l, a).procs[a.g])
    ensures Report(l, a).procs[a.g].identities == l.procs[a.g].identities
  {
  }

  lemma OperationStillRetired(l: Life, a: Action, down: bool, g: nat)
    requires Inv(l) && Retired(l, g) && Enabled(l, a) && IsOperation(a)
    ensures StillRetired(l, Operate(l, a, down), g)
  {
  }

  lemma WaitStillRetired(l: Life, a: Action, g: nat)
    requires Retired(l, g) && Enabled(l, a) && IsWait(a)
    ensures StillRetired(l, Wait(l, a), g)
  {
  }

  lemma ReportStillRetired(l: Life, a: Action, g: nat)
    requires Inv(l) && Retired(l, g) && Enabled(l, a) && IsReport(a)
    ensures StillRetired(l, Report(l, a), g)
  {
    if Retired(l, a.g) {
      RetiredIsInert(l, a);
    }
  }

  lemma NoticeStillRetired(l: Life, a: Action, g: nat)
    requires Retired(l, g) && Enabled(l, a) && IsNotice(a)
    ensures StillRetired(l, Notify(l, a), g)
  {
  }

  lemma ActedStillRetired(l: Life, a: Action, down: bool, g: nat)
    requires Inv(l) && Retired(l, g) && Enabled(l, a)
    ensures StillRetired(l, Acted(l, a, down), g)
  {
    if IsOperation(a) {
      OperationStillRetired(l, a, down, g);
    } else if IsWait(a) {
      WaitStillRetired(l, a, g);
    } else if IsReport(a) {
      ReportStillRetired(l, a, g);
    } else if IsNotice(a) {
      NoticeStillRetired(l, a, g);
    }
  }

  lemma RetiredWhateverPast(l: Life, l': Life, g: nat, past: History)
    requires StillRetired(l, l', g)
    ensures StillRetired(l, l'.(past := past), g)
  {
  }

  lemma NextStillRetired(l: Life, g: nat, l': Life)
    requires Inv(l) && Retired(l, g) && Next(l, l')
    ensures StillRetired(l, l', g)
  {
    if l' != l {
      var a, down :| Enabled(l, a) && l' == Do(l, a, down);
      ActedStillRetired(l, a, down, g);
      RetiredWhateverPast(l, Acted(l, a, down), g, l'.past);
    }
  }

  /** A retired process is never the command again, its identity record is
      closed, and no log of it is published any more. */
  lemma RetirementIsFinal(run: seq<Life>, i: nat, j: nat, g: nat)
    requires Run(run) && i <= j < |run| && Retired(run[i], g)
    ensures StillRetired(run[i], run[j], g)
  {
    InvIsInductive();
    var start := run[i];
    var p := l => StillRetired(start, l, g);
    forall l, l' | Inv(l) && p(l) && Next(l, l')
      ensures p(l')
    {
      NextStillRetired(l, g, l');
      StillRetiredChain(start, l, l', g);
    }
    Runs.FromThenOn(Initial, Next, Inv, p, run, i, j);
  }

  lemma StillRetiredChain(a: Life, b: Life, c: Life, g: nat)
    requires StillRetired(a, b, g) && StillRetired(b, c, g)
    ensures StillRetired(a, c, g)
  {
  }

  /** No process is ever given two identities. */
  lemma OneIdentityPerProcess(run: seq<Life>, i: nat, g: nat, a: string, b: string)
    requires Run(run) && i < |run| && g < |run[i].procs|
    requires a in run[i].procs[g].identities && b in run[i].procs[g].identities
    ensures a == b
  {
    RunKeepsInv(run, i);
    assert ProcessOk(run[i].f, g, run[i].procs[g]);
  }

  /** However senders and publishers interleave, no log of a process follows a
      state event whose snapshot shows that process as gone. */
  lemma LogsPrecedeRetirement(run: seq<Life>, i: nat, k: nat, m: nat, g: nat)
    requires Run(run) && i < |run| && k < m < |run[i].published|
    requires run[i].published[k].StateNotice? && Retires(run[i].published[k].view, g)
    ensures run[i].published[m] != LogNotice(g)
  {
    RunKeepsInv(run, i);
  }

  // ------------------------------------------------------------ Hourly restart

  /** However old the scan was, the hourly restart acts only while a failure
      stands and a restart is wanted, and finds no process to stop: it signals
      nothing, kills nothing and closes no stopped channel. */
  lemma HourlyRestartFindsNoProcess(run: seq<Life>, i: nat)
    requires Run(run) && i < |run| && run[i].op.StopEntry? && run[i].op.task == ForFailed
    ensures run[i].f.restart && run[i].f.runtimeFailure && run[i].f.status == Error && run[i].stored
    ensures StopFinds(run[i].f) == NoProcess
    ensures StopBegin(run[i], ForFailed).procs == run[i].procs
    ensures StopBegin(run[i], ForFailed).op == Halted(ForFailed)
  {
    RunKeepsInv(run, i);
  }

  lemma HourlyRestartNeverSignals(run: seq<Life>, i: nat)
    requires Run(run) && i < |run|
    requires run[i].op.Signalled? || run[i].op.ForceKilled? || run[i].op.StopLast?
    ensures run[i].op.task != ForFailed
  {
    RunKeepsInv(run, i);
  }

  /** While no operation holds lifecycleMu, an instance is in the map exactly when
      it is not deleted. */
  lemma StoredUnlessDeleted(run: seq<Life>, i: nat)
    requires Run(run) && i < |run| && run[i].op == Free
    ensures run[i].stored <==> !run[i].f.deleted
  {
    RunKeepsInv(run, i);
  }
}
