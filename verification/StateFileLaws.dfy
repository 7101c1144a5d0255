/** What the state file holds over every run of concurrent saves and changes. */
module StateFileLaws {
  import opened StateFile
  import Runs

  // --------------------------------------------------------- What saves promise

  /** The instance is not loaded yet, and another one is or may be launched first;
      or a save of the state file began before it was loaded and has not collected
      it. */
  predicate Exposed(s: State, path: string, id: string) {
    path == MAIN &&
    (|| (IsUnread(s.memory, id) && HasOther(s, id))
     || (SavesMain(s.saver) && id !in s.saver.floor && id !in s.saver.data))
  }

  predicate HasOther(s: State, id: string) {
    exists other | other in s.memory :: other != id && other in s.starters && s.memory[other].place != Removed
  }

  /** Nothing but the instance itself could cause a save, and it is not loaded. */
  lemma AloneIsQuiet(s: State, id: string)
    requires LoadingOk(s) && IsUnread(s.memory, id) && !HasOther(s, id)
    ensures s.saver == Idle && s.pending == 0 && Listed(s.memory) * s.starters == {} && Loading(s.memory)
  {
    assert forall other | other in s.memory && other in s.starters && other != id :: s.memory[other].place == Removed;
    assert id !in Listed(s.memory);
  }

  /** s' is later than s: memory grew, and no file reflects less of an instance
      that is not exposed. */
  predicate Later(s: State, s': State) {
    && Grows(s.memory, s'.memory)
    && (forall path | path in s.seen :: path in s'.seen && FileIsLater(s, s', path))
  }

  predicate FileIsLater(s: State, s': State, path: string) {
    forall id | id in Seen(s, path) && !Exposed(s, path, id) ::
      id in Seen(s', path) && !Exposed(s', path, id) && Seen(s, path)[id] <= Seen(s', path)[id]
  }

  /** Only a rename, or the removal of the file of an empty map, changes a file;
      a save that fails before that leaves every file as it was. */
  lemma OnlyCommitsChangeFiles(s: State, a: Action)
    requires Enabled(s, a) && a != Rename && a != Clear
    ensures Do(s, a).files == s.files && Do(s, a).seen == s.seen
  {
  }

  lemma CommitIsLater(s: State)
    requires Inv(s) && CanCommit(s)
    ensures Later(s, Committed(s, s.saver.data))
  {
    CommitReflectsFloor(s);
    forall path | path in s.seen
      ensures FileIsLater(s, Committed(s, s.saver.data), path)
    {
      if path == s.saver.path {
        CommittedFileIsLater(s);
      } else {
        OtherFileIsLater(s, path);
      }
    }
  }

  lemma OtherFileIsLater(s: State, path: string)
    requires s.saver != Idle && path != s.saver.path
    ensures FileIsLater(s, Committed(s, s.saver.data), path)
  {
    assert Seen(Committed(s, s.saver.data), path) == Seen(s, path);
  }

  lemma CommittedFileIsLater(s: State)
    requires Inv(s) && CanCommit(s) && s.saver.path in s.seen
    requires AtMost(s.saver.floor, Reflects(s.memory, s.saver.data))
    ensures FileIsLater(s, Committed(s, s.saver.data), s.saver.path)
  {
    var s', path := Committed(s, s.saver.data), s.saver.path;
    assert Seen(s', path) == Reflects(s.memory, s.saver.data);
    assert FileOk(s.memory, Get(s.files, path), s.seen[path]);
    forall id | id in Seen(s, path) && !Exposed(s, path, id)
      ensures id in s.saver.floor || id in s.saver.data
    {
      if path == MAIN && IsUnread(s.memory, id) && !HasOther(s, id) {
        AloneIsQuiet(s, id);
      }
    }
  }

  lemma ChangeExposesNone(s: State, a: Action, path: string, id: string)
    requires Inv(s) && Enabled(s, a) && IsChange(a) && id in s.memory && !Exposed(s, path, id)
    ensures !Exposed(Do(s, a), path, id)
  {
    if IsUnread(s.memory, id) && !HasOther(s, id) {
      AloneIsQuiet(s, id);
    }
  }

  lemma ChangeIsLater(s: State, a: Action)
    requires Inv(s) && Enabled(s, a) && IsChange(a)
    ensures Later(s, Do(s, a))
  {
    ChangeGrows(s, a);
    forall path | path in s.seen
      ensures FileIsLater(s, Do(s, a), path)
    {
      assert FileOk(s.memory, Get(s.files, path), s.seen[path]);
      forall id | id in Seen(s, path) && !Exposed(s, path, id)
        ensures !Exposed(Do(s, a), path, id)
      {
        ChangeExposesNone(s, a, path, id);
      }
    }
  }

  lemma SaveStepIsLater(s: State, a: Action)
    requires Inv(s) && Enabled(s, a) && !IsChange(a) && a != Rename && a != Clear
    ensures Later(s, Do(s, a))
  {
    OnlyCommitsChangeFiles(s, a);
    forall path | path in s.seen
      ensures FileIsLater(s, Do(s, a), path)
    {
      SaveStepExposesNone(s, a, path);
    }
  }

  lemma SaveStepExposesNone(s: State, a: Action, path: string)
    requires Inv(s) && Enabled(s, a) && !IsChange(a) && a != Rename && a != Clear && path in s.seen
    ensures forall id | id in s.seen[path] && !Exposed(s, path, id) :: !Exposed(Do(s, a), path, id)
  {
    assert Earlier(s.memory, s.seen[path]) by {
      assert FileOk(s.memory, Get(s.files, path), s.seen[path]);
    }
    if a.Begin? {
      forall id | id in s.seen[path] && !Exposed(s, path, id)
        ensures !Exposed(Begun(s, a.path), path, id)
      {
        BeginExposesNone(s, a.path, path, id);
      }
    } else if a.Collect? {
      assert Do(s, a) == WithData(s, Do(s, a).saver.data);
    }
  }

  lemma BeginExposesNone(s: State, path: string, other: string, id: string)
    requires LoadingOk(s) && Enabled(s, Begin(path)) && id in s.memory && !Exposed(s, other, id)
    ensures !Exposed(Begun(s, path), other, id)
  {
    if IsUnread(s.memory, id) && !HasOther(s, id) {
      AloneIsQuiet(s, id);
    }
  }

  lemma NextIsLater(s: State, s': State)
    requires Inv(s) && Next(s, s')
    ensures Later(s, s')
  {
    var a :| Enabled(s, a) && s' == Do(s, a);
    if IsChange(a) {
      ChangeIsLater(s, a);
    } else if a == Rename || a == Clear {
      CommitIsLater(s);
    } else {
      SaveStepIsLater(s, a);
    }
  }

  lemma GrowsChain(a: Memory, b: Memory, c: Memory)
    requires Grows(a, b) && Grows(b, c)
    ensures Grows(a, c)
  {
  }

  lemma LaterChain(a: State, b: State, c: State)
    requires Later(a, b) && Later(b, c)
    ensures Later(a, c)
  {
    GrowsChain(a.memory, b.memory, c.memory);
    forall path | path in a.seen
      ensures FileIsLater(a, c, path)
    {
      assert FileIsLater(a, b, path) && FileIsLater(b, c, path);
    }
  }

  lemma StaysItself(s: State)
    ensures Later(s, s)
  {
  }

  lemma RunGetsLater(run: seq<State>, i: nat, j: nat)
    requires Run(run) && i <= j < |run|
    ensures Later(run[i], run[j])
  {
    InvIsInductive();
    StaysItself(run[i]);
    var start := run[i];
    var p := s => Later(start, s);
    forall s, s' | Inv(s) && p(s) && Next(s, s')
      ensures p(s')
    {
      NextIsLater(s, s');
      LaterChain(start, s, s');
    }
    Runs.FromThenOn(Start, Next, Inv, p, run, i, j);
  }

  lemma FileTellsSeen(s: State, path: string)
    requires Inv(s) && (path == MAIN || path in s.seen)
    ensures FileOk(s.memory, File(s, path), Seen(s, path))
  {
  }

  /** The file at path still has the instance, at no earlier version, or it was
      removed. */
  predicate Keeps(s: State, s': State, path: string, id: string)
    requires id in File(s, path)
  {
    if id in File(s', path) then File(s, path)[id] <= File(s', path)[id] else IsRemoved(s'.memory, id)
  }

  /** Saves never go backward: over any concurrent saves and changes, the version
      of an instance in a file never falls, and an instance that is not exposed
      leaves the file only if it was removed. The file is the state file or one
      that was written since the start. */
  lemma SavesNeverGoBackward(run: seq<State>, i: nat, j: nat, path: string, id: string)
    requires Run(run) && i <= j < |run| && path in run[i].seen
    requires id in File(run[i], path) && !Exposed(run[i], path, id)
    ensures Keeps(run[i], run[j], path, id)
  {
    RunGetsLater(run, i, j);
    RunKeepsInv(run, i);
    RunKeepsInv(run, j);
    FileTellsSeen(run[i], path);
    FileTellsSeen(run[j], path);
    assert FileIsLater(run[i], run[j], path);
  }

  /** A file that reflects a removal never shows the instance again. */
  lemma RemovedStaysOut(run: seq<State>, i: nat, j: nat, path: string, id: string)
    requires Run(run) && i <= j < |run| && IsRemoved(run[i].memory, id)
    requires At(Seen(run[i], path), id) == run[i].memory[id].version
    ensures id !in File(run[i], path) && id !in File(run[j], path)
  {
    RunGetsLater(run, i, j);
    RunKeepsInv(run, i);
    RunKeepsInv(run, j);
    FileTellsSeen(run[i], path);
    FileTellsSeen(run[j], path);
    ReflectedIsNotExposed(run[i], path, id);
    assert FileIsLater(run[i], run[j], path);
  }

  lemma ReflectedIsNotExposed(s: State, path: string, id: string)
    requires Inv(s) && IsRemoved(s.memory, id) && At(Seen(s, path), id) == s.memory[id].version
    ensures id in Seen(s, path) && !Exposed(s, path, id)
  {
  }

  /** Once no save is pending or in progress and the last one to begin did not
      fail, the state file holds every change for which a save was scheduled. */
  lemma ScheduledChangesAreSaved(run: seq<State>, i: nat, id: string)
    requires Run(run) && i < |run| && id in run[i].owed
    requires run[i].pending == 0 && run[i].saver == Idle && !run[i].broken
    ensures if id in File(run[i], MAIN) then run[i].owed[id] <= File(run[i], MAIN)[id]
            else IsRemoved(run[i].memory, id)
  {
    RunKeepsInv(run, i);
    FileTellsSeen(run[i], MAIN);
  }

  /** What a file is compared with: a change makes an instance's version new, a
      removal is one and is final, and asking for a save makes one pending that
      owes all versions of that time. */
  lemma ChangesCount(s: State, a: Action)
    requires Enabled(s, a)
    ensures a.Load? || a.Change? ==> IsPresent(Do(s, a).memory, a.id) && s.memory[a.id].version < Do(s, a).memory[a.id].version
    ensures a.Add? ==> IsPresent(Do(s, a).memory, a.id) && 0 < Do(s, a).memory[a.id].version
    ensures a.Remove? ==> IsRemoved(Do(s, a).memory, a.id) && s.memory[a.id].version < Do(s, a).memory[a.id].version
    ensures a == Schedule ==> Do(s, a).pending == s.pending + 1
    ensures a == Schedule ==> forall id | id in s.memory && s.memory[id].place != Unread ::
              id in Do(s, a).owed && Do(s, a).owed[id] == s.memory[id].version
  {
  }

  /** Nothing but stateMu holds up a save that was asked for, and after the
      loading neither a backup nor a request. */
  lemma NobodyIsKeptOut(s: State, path: string, id: string)
    requires !Loading(s.memory)
    ensures Enabled(s, Schedule)
    ensures s.saver == Idle && (path != MAIN || s.pending > 0) ==> Enabled(s, Begin(path))
    ensures id !in s.memory ==> Enabled(s, Add(id))
    ensures IsPresent(s.memory, id) ==> Enabled(s, Change(id)) && Enabled(s, Remove(id))
  {
  }

  // ------------------------------------------------- Saves during the loading

  /** Whether s' can follow s, some steps later. */
  ghost predicate Reaches(s: State, s': State) {
    Runs.Reaches(Next, s, s')
  }

  lemma ReachesOn(s: State, s': State, a: Action)
    requires Reaches(s, s') && Enabled(s', a)
    ensures Reaches(s, Do(s', a))
  {
    assert Next(s', Do(s', a));
    Runs.ReachesOn(Next, s, s', Do(s', a));
  }

  lemma CollectOne(s0: State, s: State, id: string) returns (data: Content)
    requires Reaches(s0, s) && Enabled(s, Collect(id))
    ensures data == s.saver.data[id := Shown(s.memory[id])] && Reaches(s0, WithData(s, data))
  {
    data := s.saver.data[id := Shown(s.memory[id])];
    ReachesOn(s0, s, Collect(id));
  }

  lemma OneLess(listed: set<string>, data: Content, id: string, version: nat)
    requires id in listed && id !in data
    ensures |listed - data[id := version].Keys| < |listed - data.Keys|
  {
    assert listed - data[id := version].Keys == (listed - data.Keys) - {id};
  }

  /** A save in progress can collect all that is listed and nothing more. */
  lemma {:induction false} CollectAll(s0: State, s: State) returns (data: Content)
    requires Reaches(s0, s) && s.saver.Collecting?
    ensures Reaches(s0, WithData(s, data)) && RangeDone(WithData(s, data))
    ensures data.Keys <= s.saver.data.Keys + s.saver.listed
    decreases |s.saver.listed - s.saver.data.Keys|
  {
    if RangeDone(s) {
      data := s.saver.data;
    } else {
      var id :| id in s.saver.listed && IsPresent(s.memory, id) && id !in s.saver.data;
      OneLess(s.saver.listed, s.saver.data, id, Shown(s.memory[id]));
      data := CollectOne(s0, s, id);
      data := CollectAll(s0, WithData(s, data));
    }
  }

  /** Then it can end with the file replaced. */
  lemma Commits(s0: State, s: State)
    requires Reaches(s0, s) && CanCommit(s)
    ensures Reaches(s0, Committed(s, s.saver.data))
  {
    if s.saver.Encoded? {
      ReachesOn(s0, s, Rename);
    } else if s.saver.data == map[] {
      ReachesOn(s0, s, Clear);
    } else {
      ReachesOn(s0, s, Encode);
      ReachesOn(s0, Do(s, Encode), Rename);
    }
  }

  /** A save in progress that fails. */
  lemma GiveUp(s0: State, s: State) returns (s': State)
    requires Reaches(s0, s)
    ensures Reaches(s0, s') && s'.saver == Idle && s'.memory == s.memory && s'.starters == s.starters
  {
    s' := s;
    if s.saver.Collecting? {
      var data := CollectAll(s0, s);
      s' := WithData(s, data);
    }
    if s'.saver != Idle {
      ReachesOn(s0, s', Fail);
      s' := Do(s', Fail);
    }
  }

  /** A save in progress that succeeds without what came after it began. */
  lemma LeaveOut(s0: State, s: State, id: string) returns (s': State)
    requires Reaches(s0, s) && SavesMain(s.saver)
    requires id !in s.saver.data && (s.saver.Collecting? ==> id !in s.saver.listed)
    ensures Reaches(s0, s') && id !in File(s', MAIN) && s'.memory == s.memory
  {
    s' := s;
    if s.saver.Collecting? {
      var data := CollectAll(s0, s);
      s' := WithData(s, data);
    }
    Commits(s0, s');
    WriteOne(s'.files, MAIN, s'.saver.data);
    s' := Committed(s', s'.saver.data);
  }

  /** Some other instance that is launched is in the map, or is loaded first. */
  lemma LoadAnother(s0: State, s: State, id: string) returns (s': State)
    requires Reaches(s0, s) && IsUnread(s.memory, id) && HasOther(s, id)
    ensures Reaches(s0, s') && IsUnread(s'.memory, id) && Listed(s'.memory) * s'.starters != {}
  {
    s' := s;
    var other :| other in s.memory && other != id && other in s.starters && s.memory[other].place != Removed;
    if s.memory[other].place == Unread {
      ReachesOn(s0, s, Load(other));
      s' := Do(s, Load(other));
    }
    assert other in Listed(s'.memory) * s'.starters;
  }

  lemma BeginAnew(s0: State, s: State) returns (s': State)
    requires Reaches(s0, s) && s.saver == Idle && Listed(s.memory) * s.starters != {}
    ensures Reaches(s0, s') && s'.memory == s.memory
    ensures s'.saver == Collecting(MAIN, Listed(s.memory), map[], Versions(s.memory))
  {
    ReachesOn(s0, s, Schedule);
    ReachesOn(s0, Do(s, Schedule), Begin(MAIN));
    s' := Begun(Do(s, Schedule), MAIN);
  }

  /** From any state in which an instance is exposed, a save can drop it. */
  lemma ExposedIsDropped(s: State, id: string) returns (s': State)
    requires Inv(s) && Exposed(s, MAIN, id) && !IsRemoved(s.memory, id)
    ensures Reaches(s, s') && id !in File(s', MAIN) && !IsRemoved(s'.memory, id)
  {
    Runs.ReachesItself(Next, s);
    s' := s;
    if IsUnread(s.memory, id) && HasOther(s, id) {
      s' := LoadAnother(s, s, id);
      s' := GiveUp(s, s');
      s' := BeginAnew(s, s');
    }
    s' := LeaveOut(s, s', id);
  }

  lemma ExposedIsLost(run: seq<State>, path: string, id: string) returns (longer: seq<State>)
    requires Run(run) && id in File(run[|run| - 1], path) && !IsRemoved(run[|run| - 1].memory, id)
    requires Exposed(run[|run| - 1], path, id)
    ensures Run(longer) && run <= longer && !Keeps(run[|run| - 1], longer[|longer| - 1], path, id)
  {
    RunKeepsInv(run, |run| - 1);
    var s' := ExposedIsDropped(run[|run| - 1], id);
    longer := Runs.RunReaches(Start, Next, run, s');
  }

  lemma UnexposedIsKept(run: seq<State>, longer: seq<State>, path: string, id: string)
    requires run != [] && Run(longer) && run <= longer && path in run[|run| - 1].seen
    requires id in File(run[|run| - 1], path) && !Exposed(run[|run| - 1], path, id)
    ensures Keeps(run[|run| - 1], longer[|longer| - 1], path, id)
  {
    assert longer[|run| - 1] == run[|run| - 1];
    SavesNeverGoBackward(longer, |run| - 1, |longer| - 1, path, id);
  }

  /** Exactly when a file is safe. loadState launches instances while others are
      still to be loaded, and the monitor of one that ends at once saves the
      state. Such a save replaces the file by one without those others. So an
      instance that is in a file and not removed stays there in all that can
      follow if and only if it is not exposed. */
  lemma KeptIffNotExposed(run: seq<State>, path: string, id: string)
    requires Run(run) && path in run[|run| - 1].seen
    requires id in File(run[|run| - 1], path) && !IsRemoved(run[|run| - 1].memory, id)
    ensures (forall longer: seq<State> | Run(longer) && run <= longer ::
               Keeps(run[|run| - 1], longer[|longer| - 1], path, id))
       <==> !Exposed(run[|run| - 1], path, id)
  {
    if Exposed(run[|run| - 1], path, id) {
      var longer := ExposedIsLost(run, path, id);
      assert run <= longer;
    } else {
      forall longer: seq<State> | Run(longer) && run <= longer
        ensures Keeps(run[|run| - 1], longer[|longer| - 1], path, id)
      {
        UnexposedIsKept(run, longer, path, id);
      }
    }
  }

  /** For example, with two instances in the file, the first of them launched. */
  lemma LoadingCanDrop(first: string, second: string) returns (run: seq<State>)
    requires first != second
    ensures Run(run) && second in File(run[0], MAIN) && run[0].starters == {first}
    ensures second !in File(run[|run| - 1], MAIN) && !IsRemoved(run[|run| - 1].memory, second)
  {
    var memory := map[first := Cell(1, Unread), second := Cell(1, Unread)];
    var content := map[first := 1, second := 1];
    var s := State(memory, map[MAIN := content], Idle, 0, map[MAIN := content], map[], false, {first});
    assert Start(s);
    StartInv(s);
    assert first in s.memory && first in s.starters && s.memory[first].place != Removed;
    var s' := ExposedIsDropped(s, second);
    run := Runs.RunReaches(Start, Next, [s], s');
  }

  /** Beside instances that are never launched, it is safe from the start on. */
  lemma UnlaunchedIsHarmless(run: seq<State>, i: nat, id: string)
    requires Run(run) && i < |run| && id in File(run[0], MAIN) && run[0].starters <= {id}
    ensures Keeps(run[0], run[i], MAIN, id)
  {
    SavesNeverGoBackward(run, 0, i, MAIN, id);
  }
}
