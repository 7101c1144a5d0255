/** The state file: serialized saves, each of which collects the instances one by
    one while they go on changing, and then replaces the file in one rename; and
    the loading of the file, during which saves may already happen. */
module StateFile {
  import Runs

  /** Read from the file but not yet put into the map, in the map, or removed. */
  datatype Place = Unread | Present | Removed

  /** An instance and how often it has been changed. Removal is a change; IDs are
      not reused. */
  datatype Cell = Cell(version: nat, place: Place)

  type Memory = map<string, Cell>

  /** What a file holds: the version of each instance in it. */
  type Content = map<string, nat>

  /** Who holds stateMu: nobody; a save that is still collecting and must visit
      every listed instance that stays in the map; or a save about to rename.
      floor records what had been in the map when the save began. */
  datatype Saver =
    | Idle
    | Collecting(path: string, listed: set<string>, data: Content, floor: Content)
    | Encoded(path: string, data: Content, floor: Content)

  /** memory, files and saver are the program's state, and pending counts saves
      scheduled but not begun. The rest records history: seen, the version of
      each instance that each file reflects, for the state file and those written
      since the start; owed, the versions for which a save
      was scheduled; broken, whether the last save to begin has failed. starters
      are the instances whose process loadState launches; it never changes. */
  datatype State = State(
    memory: Memory, files: map<string, Content>, saver: Saver, pending: nat,
    seen: map<string, Content>, owed: Content, broken: bool, starters: set<string>)

  const MAIN := "gob/openctrl.gob"

  predicate IsPresent(m: Memory, id: string) {
    id in m && m[id].place == Present
  }

  predicate IsUnread(m: Memory, id: string) {
    id in m && m[id].place == Unread
  }

  predicate IsRemoved(m: Memory, id: string) {
    id in m && m[id].place == Removed
  }

  predicate Loading(m: Memory) {
    exists id | id in m :: IsUnread(m, id)
  }

  function Listed(m: Memory): set<string> {
    set id | id in m && m[id].place == Present
  }

  /** All that is or was in the map. */
  function Versions(m: Memory): Content {
    map id | id in m && m[id].place != Unread :: m[id].version
  }

  /** What an undisturbed save writes. */
  function Stored(m: Memory): Content {
    map id | id in m && m[id].place == Present :: m[id].version
  }

  function At(c: Content, id: string): nat {
    if id in c then c[id] else 0
  }

  /** A path without a file, or never written to, counts as empty. */
  function Get(files: map<string, Content>, path: string): Content {
    if path in files then files[path] else map[]
  }

  function File(s: State, path: string): Content {
    Get(s.files, path)
  }

  function Seen(s: State, path: string): Content {
    Get(s.seen, path)
  }

  /** The snapshot of an instance; one that has just been removed still shows its
      last state. */
  function Shown(c: Cell): nat {
    if c.place == Removed && c.version > 0 then c.version - 1 else c.version
  }

  /** What a file written from data reflects: an instance that was not collected
      had left the map, or was not in it when the save began. */
  function Reflects(m: Memory, data: Content): Content {
    map id | id in m :: if id in data then data[id] else if m[id].place == Removed then m[id].version else 0
  }

  /** Load resets what it puts into the map, which counts as a change. */
  datatype Action =
    | Load(id: string)
    | Add(id: string)
    | Change(id: string)
    | Remove(id: string)
    | Schedule
    | Begin(path: string)
    | Collect(id: string)
    | Encode
    | Clear
    | Rename
    | Fail

  /** Range may hand over any instance that was in the map at some point since it
      began, so also one that came or went meanwhile. Requests and backups begin
      after the loading; before that, only the end of a process that the loading
      launched causes a save. */
  predicate Enabled(s: State, a: Action) {
    match a
    case Load(id) => IsUnread(s.memory, id)
    case Add(id) => id !in s.memory && !Loading(s.memory)
    case Change(id) => IsPresent(s.memory, id)
    case Remove(id) => IsPresent(s.memory, id) && !Loading(s.memory)
    case Schedule => Loading(s.memory) ==> Listed(s.memory) * s.starters != {}
    case Begin(path) => s.saver == Idle && if path == MAIN then s.pending > 0 else !Loading(s.memory)
    case Collect(id) =>
      && s.saver.Collecting? && id !in s.saver.data
      && id in s.memory && s.memory[id].place != Unread
      && (id in s.saver.floor ==> id in s.saver.listed)
    case Encode => s.saver.Collecting? && RangeDone(s) && s.saver.data != map[]
    case Clear => s.saver.Collecting? && RangeDone(s) && s.saver.data == map[]
    case Rename => s.saver.Encoded?
    case Fail => s.saver.Encoded? || (s.saver.Collecting? && RangeDone(s))
  }

  predicate RangeDone(s: State)
    requires s.saver.Collecting?
  {
    forall id | id in s.saver.listed && IsPresent(s.memory, id) :: id in s.saver.data
  }

  /** The files once data has been written to path. Nothing at all is kept as no
      file. */
  function Written(files: map<string, Content>, path: string, data: Content): map<string, Content> {
    if data == map[] then files - {path} else files[path := data]
  }

  /** The save in progress has replaced the file at its path, or removed it. */
  function Committed(s: State, data: Content): State
    requires s.saver != Idle
  {
    s.(files := Written(s.files, s.saver.path, data),
       seen := s.seen[s.saver.path := Reflects(s.memory, data)],
       saver := Idle)
  }

  /** The save in progress has collected data. */
  function WithData(s: State, data: Content): State
    requires s.saver.Collecting?
  {
    s.(saver := Collecting(s.saver.path, s.saver.listed, data, s.saver.floor))
  }

  function Begun(s: State, path: string): State
    requires path == MAIN ==> s.pending > 0
  {
    var begun := s.(saver := Collecting(path, Listed(s.memory), map[], Versions(s.memory)));
    if path == MAIN then begun.(pending := s.pending - 1, broken := false) else begun
  }

  function Do(s: State, a: Action): State
    requires Enabled(s, a)
  {
    match a
    case Load(id) => s.(memory := s.memory[id := Cell(s.memory[id].version + 1, Present)])
    case Add(id) => s.(memory := s.memory[id := Cell(1, Present)])
    case Change(id) => s.(memory := s.memory[id := Cell(s.memory[id].version + 1, Present)])
    case Remove(id) => s.(memory := s.memory[id := Cell(s.memory[id].version + 1, Removed)])
    case Schedule => s.(pending := s.pending + 1, owed := Versions(s.memory))
    case Begin(path) => Begun(s, path)
    case Collect(id) => WithData(s, s.saver.data[id := Shown(s.memory[id])])
    case Encode => s.(saver := Encoded(s.saver.path, s.saver.data, s.saver.floor))
    case Clear => Committed(s, map[])
    case Rename => Committed(s, s.saver.data)
    case Fail => s.(saver := Idle, broken := s.broken || s.saver.path == MAIN)
  }

  ghost predicate Next(s: State, s': State) {
    exists a :: Enabled(s, a) && s' == Do(s, a)
  }

  /** Any files an earlier run left. What the main file lists is still to be
      loaded, unless it could not be read; then it counts as removed. */
  predicate Start(s: State) {
    && s.saver == Idle && s.pending == 0 && s.owed == map[] && !s.broken
    && s.seen == (if MAIN in s.files then map[MAIN := s.files[MAIN]] else map[])
    && Sane(s.memory) && Collected(s.memory, File(s, MAIN))
    && (forall id | id in s.memory :: s.memory[id].place != Present)
    && (forall id | id in s.memory && IsUnread(s.memory, id) :: At(File(s, MAIN), id) == s.memory[id].version)
    && (!Loading(s.memory) || forall id | id in File(s, MAIN) :: IsUnread(s.memory, id))
  }

  ghost predicate Run(run: seq<State>) {
    Runs.IsRun(Start, Next, run)
  }

  // -------------------------------------------------------------- Invariants

  predicate Sane(m: Memory) {
    forall id | id in m :: m[id].version > (if m[id].place == Removed then 1 else 0)
  }

  /** c holds earlier versions of instances... */
  predicate Earlier(m: Memory, c: Content) {
    forall id | id in c :: id in m && c[id] <= m[id].version
  }

  /** ...which have been in the map... */
  predicate Loaded(m: Memory, c: Content) {
    forall id | id in c :: id in m && m[id].place != Unread && c[id] <= m[id].version
  }

  /** ...or versions that were snapshots, and so never that of a removal. */
  predicate Collected(m: Memory, c: Content) {
    forall id | id in c :: id in m && 0 < c[id] <= Shown(m[id])
  }

  /** A file holds what it reflects, except that it leaves out instances that
      are removed or were not yet there. */
  predicate Shows(m: Memory, file: Content, seen: Content) {
    && (forall id | id in file :: id in seen && file[id] == seen[id])
    && (forall id | id in seen && id !in file ::
          seen[id] == 0 || (IsRemoved(m, id) && seen[id] == m[id].version))
  }

  predicate AtMost(a: Content, b: Content) {
    forall id | id in a :: a[id] <= At(b, id)
  }

  predicate FileOk(m: Memory, file: Content, seen: Content) {
    Earlier(m, seen) && Collected(m, file) && Shows(m, file, seen)
  }

  predicate FilesOk(m: Memory, files: map<string, Content>, seen: map<string, Content>) {
    && Sane(m)
    && (MAIN in files ==> MAIN in seen)
    && (forall path | path in seen :: FileOk(m, Get(files, path), seen[path]))
  }

  /** The save in progress misses nothing that was there when it began. */
  predicate Complete(m: Memory, chosen: set<string>, floor: Content) {
    forall id | id in floor :: id in chosen || IsRemoved(m, id)
  }

  /** The file to be replaced reflects no more than was there when the save began,
      or, of instances that came into the map since then, no removal. */
  predicate Replaceable(m: Memory, seen: Content, floor: Content) {
    forall id | id in seen :: if id in floor then seen[id] <= floor[id] else id in m && seen[id] <= Shown(m[id])
  }

  predicate ListedOk(m: Memory, listed: set<string>, floor: Content) {
    forall id | id in listed :: id in floor && id in m && floor[id] <= Shown(m[id])
  }

  predicate SaverOk(m: Memory, saver: Saver, seen: map<string, Content>) {
    saver != Idle ==>
      && Collected(m, saver.data)
      && Loaded(m, saver.floor)
      && Replaceable(m, Get(seen, saver.path), saver.floor)
      && (forall id | id in saver.data ::
            At(saver.floor, id) <= saver.data[id] && At(Get(seen, saver.path), id) <= saver.data[id])
      && Complete(m, if saver.Collecting? then saver.listed else saver.data.Keys, saver.floor)
      && (saver.Collecting? ==> ListedOk(m, saver.listed, saver.floor))
      && (saver.path != MAIN ==> forall id | id in Get(seen, saver.path) :: id in saver.floor)
  }

  predicate SavesMain(saver: Saver) {
    saver != Idle && saver.path == MAIN
  }

  predicate OwedOk(s: State) {
    && Loaded(s.memory, s.owed)
    && (forall id | id in s.owed :: s.owed[id] > 0)
    && (!s.broken ==>
          || s.pending > 0
          || AtMost(s.owed, if SavesMain(s.saver) then s.saver.floor else Seen(s, MAIN)))
  }

  /** While instances are loaded, only one that was launched can have caused a
      save. */
  predicate LoadingOk(s: State) {
    Loading(s.memory) && (s.saver != Idle || s.pending > 0) ==> Listed(s.memory) * s.starters != {}
  }

  predicate Inv(s: State) {
    && FilesOk(s.memory, s.files, s.seen)
    && SaverOk(s.memory, s.saver, s.seen)
    && OwedOk(s)
    && LoadingOk(s)
  }

  // ------------------------------------------------------- Invariants are kept

  /** From m to m', versions only grow, removal is final, the version of a removal
      is new, and what has been loaded stays so. */
  predicate Grows(m: Memory, m': Memory) {
    forall id | id in m :: id in m' &&
      match m'[id].place
      case Unread => m'[id] == m[id]
      case Present => m[id].place != Removed && m[id].version <= m'[id].version
      case Removed => m'[id] == m[id] || (m[id].place != Removed && m[id].version < m'[id].version)
  }

  lemma GrowthKeeps(m: Memory, m': Memory, c: Content)
    requires Grows(m, m')
    ensures Earlier(m, c) ==> Earlier(m', c)
    ensures Loaded(m, c) ==> Loaded(m', c)
    ensures Collected(m, c) ==> Collected(m', c)
  {
  }

  lemma GrowthKeepsFile(m: Memory, m': Memory, file: Content, seen: Content)
    requires FileOk(m, file, seen) && Grows(m, m')
    ensures FileOk(m', file, seen)
  {
    GrowthKeeps(m, m', seen);
    GrowthKeeps(m, m', file);
  }

  lemma GrowthKeepsFiles(m: Memory, m': Memory, files: map<string, Content>, seen: map<string, Content>)
    requires FilesOk(m, files, seen) && Grows(m, m') && Sane(m')
    ensures FilesOk(m', files, seen)
  {
    forall path | path in seen
      ensures FileOk(m', Get(files, path), seen[path])
    {
      GrowthKeepsFile(m, m', Get(files, path), seen[path]);
    }
  }

  lemma GrowthKeepsSaver(m: Memory, m': Memory, saver: Saver, seen: map<string, Content>)
    requires SaverOk(m, saver, seen) && Grows(m, m')
    ensures SaverOk(m', saver, seen)
  {
    if saver != Idle {
      GrowthKeeps(m, m', saver.data);
      GrowthKeeps(m, m', saver.floor);
    }
  }

  predicate IsChange(a: Action) {
    a.Load? || a.Add? || a.Change? || a.Remove?
  }

  lemma ChangeGrows(s: State, a: Action)
    requires Sane(s.memory) && Enabled(s, a) && IsChange(a)
    ensures Grows(s.memory, Do(s, a).memory) && Sane(Do(s, a).memory)
    ensures Do(s, a) == s.(memory := Do(s, a).memory)
  {
  }

  lemma ChangeKeepsLoading(s: State, a: Action)
    requires LoadingOk(s) && Enabled(s, a) && IsChange(a)
    ensures LoadingOk(Do(s, a))
  {
    var s' := Do(s, a);
    if Loading(s'.memory) {
      var id :| id in s'.memory && IsUnread(s'.memory, id);
      assert id in s.memory && IsUnread(s.memory, id);
      assert Listed(s.memory) * s.starters <= Listed(s'.memory) * s'.starters;
    }
  }

  lemma ChangeKeepsInv(s: State, a: Action)
    requires Inv(s) && Enabled(s, a) && IsChange(a)
    ensures Inv(Do(s, a))
  {
    var m' := Do(s, a).memory;
    ChangeGrows(s, a);
    GrowthKeepsFiles(s.memory, m', s.files, s.seen);
    GrowthKeepsSaver(s.memory, m', s.saver, s.seen);
    GrowthKeeps(s.memory, m', s.owed);
    ChangeKeepsLoading(s, a);
  }

  lemma LoadedIsAtMost(m: Memory, c: Content)
    requires Loaded(m, c)
    ensures AtMost(c, Versions(m))
  {
  }

  lemma BeginReplaces(m: Memory, files: map<string, Content>, seen: map<string, Content>, path: string)
    requires FilesOk(m, files, seen)
    ensures Replaceable(m, Get(seen, path), Versions(m))
    ensures !Loading(m) ==> forall id | id in Get(seen, path) :: id in Versions(m)
  {
    if path in seen {
      assert FileOk(m, Get(files, path), seen[path]);
    }
  }

  lemma BeginKeepsSaver(m: Memory, files: map<string, Content>, seen: map<string, Content>, path: string)
    requires FilesOk(m, files, seen) && (path != MAIN ==> !Loading(m))
    ensures SaverOk(m, Collecting(path, Listed(m), map[], Versions(m)), seen)
  {
    BeginReplaces(m, files, seen, path);
  }

  lemma BeginKeepsInv(s: State, path: string)
    requires Inv(s) && Enabled(s, Begin(path))
    ensures Inv(Begun(s, path))
  {
    LoadedIsAtMost(s.memory, s.owed);
    BeginKeepsSaver(s.memory, s.files, s.seen, path);
  }

  lemma ScheduleKeepsInv(s: State)
    requires Inv(s) && Enabled(s, Schedule)
    ensures Inv(Do(s, Schedule))
  {
  }

  lemma CollectKeepsInv(s: State, id: string)
    requires Inv(s) && Enabled(s, Collect(id))
    ensures Inv(Do(s, Collect(id)))
  {
    var data := s.saver.data[id := Shown(s.memory[id])];
    assert Collected(s.memory, data);
    assert At(Seen(s, s.saver.path), id) <= Shown(s.memory[id]);
  }

  lemma EncodeKeepsInv(s: State)
    requires Inv(s) && Enabled(s, Encode)
    ensures Inv(Do(s, Encode))
  {
  }

  lemma FailKeepsInv(s: State)
    requires Inv(s) && Enabled(s, Fail)
    ensures Inv(Do(s, Fail))
  {
  }

  lemma ReflectsIsShown(m: Memory, data: Content)
    requires Collected(m, data) && Sane(m)
    ensures FileOk(m, data, Reflects(m, data))
  {
  }

  /** Replacing or removing one file leaves the others. */
  lemma WriteOne(files: map<string, Content>, path: string, data: Content)
    ensures var written := Written(files, path, data);
      && Get(written, path) == data
      && (forall p | p != path :: Get(written, p) == Get(files, p))
      && (forall p | p in written :: p == path || p in files)
  {
  }

  lemma WriteKeepsFiles(
      m: Memory, files: map<string, Content>, seen: map<string, Content>,
      path: string, data: Content, files': map<string, Content>, reflected: Content)
    requires FilesOk(m, files, seen) && FileOk(m, data, reflected) && Get(files', path) == data
    requires forall p | p != path :: Get(files', p) == Get(files, p)
    requires MAIN in files' ==> MAIN == path || MAIN in files
    ensures FilesOk(m, files', seen[path := reflected])
  {
    forall p | p in seen[path := reflected]
      ensures FileOk(m, Get(files', p), seen[path := reflected][p])
    {
      if p != path {
        assert FileOk(m, Get(files, p), seen[p]);
      }
    }
  }

  lemma CommitKeepsFiles(s: State)
    requires FilesOk(s.memory, s.files, s.seen) && s.saver != Idle && Collected(s.memory, s.saver.data)
    ensures var s' := Committed(s, s.saver.data); FilesOk(s'.memory, s'.files, s'.seen)
  {
    var data, path := s.saver.data, s.saver.path;
    ReflectsIsShown(s.memory, data);
    WriteOne(s.files, path, data);
    WriteKeepsFiles(s.memory, s.files, s.seen, path, data, Committed(s, data).files, Reflects(s.memory, data));
  }

  /** A save in progress whose range is over. */
  predicate CanCommit(s: State) {
    s.saver != Idle && (s.saver.Collecting? ==> RangeDone(s))
  }

  /** It will reflect all that was there when it began. */
  lemma CommitReflectsFloor(s: State)
    requires SaverOk(s.memory, s.saver, s.seen) && CanCommit(s)
    ensures AtMost(s.saver.floor, Reflects(s.memory, s.saver.data))
  {
  }

  lemma CommitKeepsOwed(s: State)
    requires OwedOk(s) && CanCommit(s) && AtMost(s.saver.floor, Reflects(s.memory, s.saver.data))
    ensures OwedOk(Committed(s, s.saver.data))
  {
    var s' := Committed(s, s.saver.data);
    if s.saver.path == MAIN {
      assert Seen(s', MAIN) == Reflects(s.memory, s.saver.data);
    } else {
      assert Seen(s', MAIN) == Seen(s, MAIN);
    }
  }

  lemma CommitKeepsInv(s: State)
    requires Inv(s) && CanCommit(s)
    ensures Inv(Committed(s, s.saver.data))
  {
    CommitKeepsFiles(s);
    CommitReflectsFloor(s);
    CommitKeepsOwed(s);
  }

  lemma DoKeepsInv(s: State, a: Action)
    requires Inv(s) && Enabled(s, a)
    ensures Inv(Do(s, a))
  {
    if IsChange(a) {
      ChangeKeepsInv(s, a);
    } else {
      SaveStepKeepsInv(s, a);
    }
  }

  lemma SaveStepKeepsInv(s: State, a: Action)
    requires Inv(s) && Enabled(s, a) && !IsChange(a)
    ensures Inv(Do(s, a))
  {
    match a
    case Schedule => ScheduleKeepsInv(s);
    case Begin(path) => BeginKeepsInv(s, path);
    case Collect(id) => CollectKeepsInv(s, id);
    case Encode => EncodeKeepsInv(s);
    case Clear => CommitKeepsInv(s);
    case Rename => CommitKeepsInv(s);
    case Fail => FailKeepsInv(s);
  }

  lemma NextKeepsInv(s: State, s': State)
    requires Inv(s) && Next(s, s')
    ensures Inv(s')
  {
    var a :| Enabled(s, a) && s' == Do(s, a);
    DoKeepsInv(s, a);
  }

  lemma StartInv(s: State)
    requires Start(s)
    ensures Inv(s)
  {
  }

  lemma InvIsInductive()
    ensures forall s | Start(s) :: Inv(s)
    ensures forall s, s' | Inv(s) && Next(s, s') :: Inv(s')
  {
    forall s | Start(s)
      ensures Inv(s)
    {
      StartInv(s);
    }
    forall s, s' | Inv(s) && Next(s, s')
      ensures Inv(s')
    {
      NextKeepsInv(s, s');
    }
  }

  lemma RunKeepsInv(run: seq<State>, i: nat)
    requires Run(run) && i < |run|
    ensures Inv(run[i])
  {
    InvIsInductive();
    Runs.Throughout(Start, Next, Inv, run, i);
  }
}
