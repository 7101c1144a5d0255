/** The master's map and its files as an object, used by one goroutine at a time:
    loadState's loop, and saveStateToPath while nothing else changes. */
module StateStore {
  import opened StateFile
  import Runs

  /** Whether the file system obeys. */
  datatype Fault = NoFault | RemoveFails | WriteFails

  class Store {
    var memory: Memory
    var files: map<string, Content>
    /** How many saves were asked for and have not begun. */
    var pending: nat
    /** Those that are to be started, and whose process can be launched. */
    const starters: set<string>
    /** What happened so far, step by step. */
    ghost var run: seq<State>

    ghost function Now(): State
      requires run != []
      reads this
    {
      run[|run| - 1]
    }

    /** The history is a run of the concurrent model, so its laws hold. */
    ghost predicate Valid()
      reads this
    {
      Run(run) && Now().memory == memory && Now().files == files && Now().pending == pending && Now().starters == starters
    }

    constructor (memory: Memory, files: map<string, Content>, starters: set<string>)
      requires Start(Beginning(memory, files, starters))
      ensures Valid() && this.memory == memory && this.files == files && Now().saver == Idle
    {
      this.memory, this.files, this.starters, pending := memory, files, starters, 0;
      run := [Beginning(memory, files, starters)];
    }

    ghost method Took(a: Action)
      requires Run(run) && Enabled(Now(), a)
      modifies this`run
      ensures Run(run) && old(run) <= run && Now() == Do(old(Now()), a)
    {
      var s := Now();
      assert Next(s, Do(s, a));
      Runs.OneMore(Start, Next, run, Do(s, a));
      run := run + [Do(s, a)];
    }

    /** All that was read is reset, goes into the map and, if that is wanted, is
        launched, one after the other. */
    method LoadAll()
      requires Valid()
      modifies this`memory, this`run
      ensures Valid() && old(run) <= run && Now() == old(Now()).(memory := memory)
      ensures !Loading(memory)
      ensures memory == PlacedExcept(old(memory), {}, starters)
    {
      var unread := set id | id in memory && memory[id].place == Unread;
      while unread != {}
        invariant Valid() && old(run) <= run && Now() == old(Now()).(memory := memory)
        invariant forall id | id in unread :: IsUnread(old(memory), id)
        invariant memory == PlacedExcept(old(memory), unread, starters)
      {
        var id :| id in unread;
        PlaceOne(old(memory), unread, id, starters);
        LoadOne(id);
        unread := unread - {id};
      }
    }

    method LoadOne(id: string)
      requires Valid() && IsUnread(memory, id)
      modifies this`memory, this`run
      ensures Valid() && old(run) <= run && Now() == old(Now()).(memory := memory)
      ensures memory == old(memory)[id := Placed(old(memory)[id], id in starters)]
    {
      ResetOne(id);
      if id in starters {
        LaunchOne(id);
      }
    }

    method ResetOne(id: string)
      requires Valid() && IsUnread(memory, id)
      modifies this`memory, this`run
      ensures Valid() && old(run) <= run && Now() == old(Now()).(memory := memory)
      ensures memory == old(memory)[id := Cell(old(memory)[id].version + 1, Present)]
    {
      Took(Load(id));
      memory := memory[id := Cell(memory[id].version + 1, Present)];
    }

    method LaunchOne(id: string)
      requires Valid() && IsPresent(memory, id)
      modifies this`memory, this`run
      ensures Valid() && old(run) <= run && Now() == old(Now()).(memory := memory)
      ensures memory == old(memory)[id := Cell(old(memory)[id].version + 1, Present)]
    {
      Took(Change(id));
      memory := memory[id := Cell(memory[id].version + 1, Present)];
    }

    /** Success makes the file exactly what is in the map, or removes it if that is
        nothing; failure changes no file. */
    method SaveStateToPath(path: string, fault: Fault) returns (ok: bool)
      requires Valid() && Enabled(Now(), Begin(path))
      modifies this`files, this`pending, this`run
      ensures Valid() && old(run) <= run && Now().saver == Idle
      ensures files == if ok then Written(old(files), path, Stored(memory)) else old(files)
      ensures ok <==> if Stored(memory) == map[] then path !in old(files) || fault != RemoveFails else fault != WriteFails
      ensures fault == NoFault ==> ok
    {
      ghost var begun := Begun(Now(), path);
      Took(Begin(path));
      if path == MAIN {
        pending := pending - 1;
      }
      var persistent := Range(path, begun);
      ok := Replace(path, persistent, fault);
    }

    /** The loop over the map. */
    method Range(path: string, ghost begun: State) returns (persistent: Content)
      requires Valid() && Now() == begun && begun.saver == Collecting(path, Listed(memory), map[], Versions(memory))
      modifies this`run
      ensures Valid() && old(run) <= run && persistent == Stored(memory) && Now() == WithData(begun, persistent)
    {
      persistent := map[];
      var left := Listed(memory);
      while left != {}
        invariant left <= Listed(memory) && persistent == StoredExcept(memory, left)
        invariant Valid() && old(run) <= run && Now() == WithData(begun, persistent)
      {
        var id :| id in left;
        Collects(id);
        StoreOne(memory, left, id);
        left := left - {id};
        persistent := persistent[id := memory[id].version];
      }
    }

    ghost method Collects(id: string)
      requires Valid() && Enabled(Now(), Collect(id)) && IsPresent(memory, id)
      modifies this`run
      ensures Valid() && old(run) <= run
      ensures Now() == WithData(old(Now()), old(Now()).saver.data[id := memory[id].version])
    {
      Took(Collect(id));
    }

    /** What follows the loop. */
    method Replace(path: string, persistent: Content, fault: Fault) returns (ok: bool)
      requires Valid() && Now().saver.Collecting? && RangeDone(Now())
      requires Now().saver.path == path && Now().saver.data == persistent
      modifies this`files, this`run
      ensures Valid() && old(run) <= run && Now().saver == Idle
      ensures files == if ok then Written(old(files), path, persistent) else old(files)
      ensures ok <==> if persistent == map[] then path !in old(files) || fault != RemoveFails else fault != WriteFails
    {
      if |persistent| == 0 {
        ok := !(path in files && fault == RemoveFails);
        if ok {
          RemoveFile(path);
        } else {
          Abandon();
        }
      } else {
        ok := fault != WriteFails;
        if ok {
          WriteFile(path, persistent);
        } else {
          Abandon();
        }
      }
    }

    ghost method Abandon()
      requires Valid() && Enabled(Now(), Fail)
      modifies this`run
      ensures Valid() && old(run) <= run && Now().saver == Idle
    {
      Took(Fail);
    }

    method RemoveFile(path: string)
      requires Valid() && Enabled(Now(), Clear) && Now().saver.path == path
      modifies this`files, this`run
      ensures Valid() && old(run) <= run && Now().saver == Idle
      ensures files == old(files) - {path}
    {
      Took(Clear);
      files := files - {path};
    }

    /** To a temporary file, which is then renamed. */
    method WriteFile(path: string, persistent: Content)
      requires Valid() && Enabled(Now(), Encode) && Now().saver.path == path && Now().saver.data == persistent
      modifies this`files, this`run
      ensures Valid() && old(run) <= run && Now().saver == Idle
      ensures files == old(files)[path := persistent]
    {
      Encodes();
      Took(Rename);
      files := files[path := persistent];
    }

    ghost method Encodes()
      requires Valid() && Enabled(Now(), Encode)
      modifies this`run
      ensures Valid() && old(run) <= run
      ensures Now() == old(Now()).(saver := Encoded(old(Now()).saver.path, old(Now()).saver.data, old(Now()).saver.floor))
    {
      Took(Encode);
    }
  }

  /** What an undisturbed save has collected while left is still to be visited. */
  function StoredExcept(m: Memory, left: set<string>): Content {
    map id | id in m && m[id].place == Present && id !in left :: m[id].version
  }

  lemma StoreOne(m: Memory, left: set<string>, id: string)
    requires id in left && IsPresent(m, id)
    ensures StoredExcept(m, left - {id}) == StoredExcept(m, left)[id := m[id].version]
  {
  }

  function Beginning(memory: Memory, files: map<string, Content>, starters: set<string>): State {
    var seen := if MAIN in files then map[MAIN := files[MAIN]] else map[];
    State(memory, files, Idle, 0, seen, map[], false, starters)
  }

  /** Being reset is one change, being launched another. */
  function Placed(c: Cell, launched: bool): Cell {
    Cell(c.version + (if launched then 2 else 1), Present)
  }

  /** All of m has been loaded except unread. */
  function PlacedExcept(m: Memory, unread: set<string>, starters: set<string>): Memory {
    map id | id in m :: if m[id].place == Unread && id !in unread then Placed(m[id], id in starters) else m[id]
  }

  lemma PlaceOne(m: Memory, unread: set<string>, id: string, starters: set<string>)
    requires id in unread && IsUnread(m, id)
    ensures PlacedExcept(m, unread, starters)[id] == m[id]
    ensures PlacedExcept(m, unread - {id}, starters)
         == PlacedExcept(m, unread, starters)[id := Placed(m[id], id in starters)]
  {
  }
}
