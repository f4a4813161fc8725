/** Rewinding code to a checkpoint. The windows of changes after the target are collected
    newest window first and then undone from the back of that list, so windows are undone
    oldest first and only the changes within a window in reverse. */
module Rewind {
  import opened Wrappers
  import opened Patch
  import opened UndoLog
  import opened PatchEngine
  import opened States
  import Accounts
  import Checkpoints

  type Saved = Accounts.Saved

  // ---------------------------------------------------------------------------
  // Windows of applies, newest first
  // ---------------------------------------------------------------------------

  /** The list the service collects: windows newest first, each in the order recorded. */
  function Collected(windows: seq<seq<Applied>>): seq<Applied> {
    if windows == [] then [] else windows[0] + Collected(windows[1..])
  }

  /** The same changes in the order they happened. */
  function Chronological(windows: seq<seq<Applied>>): seq<Applied> {
    if windows == [] then [] else Chronological(windows[1..]) + windows[0]
  }

  predicate Touches(cfg: Config, window: seq<Applied>, path: string) {
    FirstBefore(cfg, window, path).Some?
  }

  /** What the path held when the newest window touching it began, or at the target when no
      window touches it. */
  function AtStartOfNewest(cfg: Config, disk: Disk, windows: seq<seq<Applied>>, path: string): string {
    if windows == [] then Read(disk, path)
    else if Touches(cfg, windows[0], path) then Read(Play(cfg, disk, Chronological(windows[1..])), path)
    else AtStartOfNewest(cfg, disk, windows[1..], path)
  }

  /** The applies after the target checkpoint, whose disk was `disk`. */
  ghost predicate Windows(cfg: Config, disk: Disk, windows: seq<seq<Applied>>) {
    var all := Chronological(windows);
    Genuine(cfg, disk, all) && WellPlaced(cfg, all) && FreshIDs(cfg, disk, all)
  }

  function Now(cfg: Config, disk: Disk, windows: seq<seq<Applied>>): Disk {
    Play(cfg, disk, Chronological(windows))
  }

  /** The disk after a code rewind that met no error. */
  function Rewound(cfg: Config, disk: Disk, windows: seq<seq<Applied>>): Disk {
    Restore(cfg, Now(cfg, disk, windows), Reversed(Collected(windows)))
  }

  // ---------------------------------------------------------------------------
  // Splitting histories
  // ---------------------------------------------------------------------------

  lemma {:induction false} PlayConcat(cfg: Config, disk: Disk, a: seq<Applied>, b: seq<Applied>)
    ensures Play(cfg, disk, a + b) == Play(cfg, Play(cfg, disk, a), b)
    ensures Genuine(cfg, disk, a + b) <==> Genuine(cfg, disk, a) && Genuine(cfg, Play(cfg, disk, a), b)
  {
    if b == [] {
      assert a + b == a;
    } else {
      assert (a + b)[..|a + b| - 1] == a + b[..|b| - 1];
      PlayConcat(cfg, disk, a, b[..|b| - 1]);
    }
  }

  lemma {:induction false} SameApplies(windows: seq<seq<Applied>>, a: Applied)
    ensures a in Collected(windows) <==> a in Chronological(windows)
  {
    if windows != [] {
      SameApplies(windows[1..], a);
    }
  }

  lemma OrdinaryInList(cfg: Config, ops: seq<Applied>, path: string)
    ensures Ordinary(cfg, ops, path) <==> !InDir(cfg, path) && forall a :: a in ops ==> path != Target(cfg, a) + ".tmp"
  {
  }

  lemma OrdinaryEverywhere(cfg: Config, windows: seq<seq<Applied>>, path: string)
    requires Ordinary(cfg, Chronological(windows), path)
    ensures Ordinary(cfg, Collected(windows), path) && Ordinary(cfg, Reversed(Collected(windows)), path)
  {
    OrdinaryInList(cfg, Chronological(windows), path);
    forall a | a in Collected(windows) ensures path != Target(cfg, a) + ".tmp" {
      SameApplies(windows, a);
    }
  }

  // ---------------------------------------------------------------------------
  // What a rewind restores
  // ---------------------------------------------------------------------------

  lemma {:induction false} NewestBackup(cfg: Config, disk: Disk, windows: seq<seq<Applied>>, path: string)
    requires Genuine(cfg, disk, Chronological(windows)) && WellPlaced(cfg, Chronological(windows))
    requires Ordinary(cfg, Chronological(windows), path)
    ensures match FirstBefore(cfg, Collected(windows), path)
      case Some(content) => AtStartOfNewest(cfg, disk, windows, path) == content
      case None => AtStartOfNewest(cfg, disk, windows, path) == Read(disk, path) == Read(Now(cfg, disk, windows), path)
  {
    if windows != [] {
      var older, newest := Chronological(windows[1..]), windows[0];
      var all := older + newest;
      assert all[..|older|] == older && all[|older|..] == newest;
      OrdinaryPrefix(cfg, all, path, |older|);
      WellPlacedPrefix(cfg, all, |older|);
      PlayConcat(cfg, disk, older, newest);
      FirstBeforeConcat(cfg, newest, Collected(windows[1..]), path);
      NewestBackup(cfg, disk, windows[1..], path);
      if Touches(cfg, newest, path) {
        FirstBackupIsOriginal(cfg, Play(cfg, disk, older), newest, path);
      } else {
        ReadPlayed(cfg, Play(cfg, disk, older), newest, path);
      }
    }
  }

  /** A code rewind leaves each file with the content it had when the newest window touching
      it began; a file no window touched keeps its content. */
  lemma RewindResult(cfg: Config, disk: Disk, windows: seq<seq<Applied>>, path: string)
    requires Windows(cfg, disk, windows) && Ordinary(cfg, Chronological(windows), path)
    ensures Read(Rewound(cfg, disk, windows), path) == AtStartOfNewest(cfg, disk, windows, path)
  {
    OrdinaryEverywhere(cfg, windows, path);
    ReadRestored(cfg, Now(cfg, disk, windows), Reversed(Collected(windows)), path);
    ReversedFirst(cfg, Collected(windows), path);
    NewestBackup(cfg, disk, windows, path);
  }

  /** For a touched file a caller can tell from the backups alone whether the rewind will
      bring it to its content at the target: exactly if the first backup in the newest window
      touching it equals the very first backup of it. */
  predicate SafeToRewind(cfg: Config, windows: seq<seq<Applied>>, path: string) {
    FirstBefore(cfg, Collected(windows), path) == FirstBefore(cfg, Chronological(windows), path)
  }

  lemma RewindMeetsIntentIff(cfg: Config, disk: Disk, windows: seq<seq<Applied>>, path: string)
    requires Windows(cfg, disk, windows) && Ordinary(cfg, Chronological(windows), path)
    ensures Read(Rewound(cfg, disk, windows), path) == Read(disk, path) <==> SafeToRewind(cfg, windows, path)
  {
    RewindResult(cfg, disk, windows, path);
    NewestBackup(cfg, disk, windows, path);
    FirstBackupIsOriginal(cfg, disk, Chronological(windows), path);
    SameTouched(cfg, windows, path);
  }

  lemma {:induction false} SameTouched(cfg: Config, windows: seq<seq<Applied>>, path: string)
    ensures FirstBefore(cfg, Collected(windows), path).Some? <==> FirstBefore(cfg, Chronological(windows), path).Some?
  {
    if windows != [] {
      SameTouched(cfg, windows[1..], path);
      FirstBeforeConcat(cfg, windows[0], Collected(windows[1..]), path);
      FirstBeforeConcat(cfg, Chronological(windows[1..]), windows[0], path);
    }
  }

  /** In particular it does when no two windows touch the file. */
  lemma {:induction false} OneWindowIsSafe(cfg: Config, windows: seq<seq<Applied>>, path: string)
    requires forall i, j :: 0 <= i < j < |windows| ==> !(Touches(cfg, windows[i], path) && Touches(cfg, windows[j], path))
    ensures SafeToRewind(cfg, windows, path)
  {
    if windows != [] {
      var older := windows[1..];
      OneWindowIsSafe(cfg, older, path);
      SameTouched(cfg, older, path);
      FirstBeforeConcat(cfg, windows[0], Collected(older), path);
      FirstBeforeConcat(cfg, Chronological(older), windows[0], path);
      if Touches(cfg, windows[0], path) {
        UntouchedEverywhere(cfg, older, path);
      }
    }
  }

  lemma {:induction false} UntouchedEverywhere(cfg: Config, windows: seq<seq<Applied>>, path: string)
    requires forall j :: 0 <= j < |windows| ==> !Touches(cfg, windows[j], path)
    ensures FirstBefore(cfg, Collected(windows), path).None? && FirstBefore(cfg, Chronological(windows), path).None?
  {
    if windows != [] {
      UntouchedEverywhere(cfg, windows[1..], path);
      FirstBeforeConcat(cfg, windows[0], Collected(windows[1..]), path);
      FirstBeforeConcat(cfg, Chronological(windows[1..]), windows[0], path);
    }
  }

  /** A configuration and two changes of one file, to show a rewind that misses its target. */
  function DemoConfig(): Config {
    Config("b", p => "w/" + p, p => p, p => true, p => None, (d, c) => (c, []))
  }

  const FIRST := Applied("p1", "f", "t", "", "one")
  const SECOND := Applied("p2", "f", "t", "one", "two")

  lemma DemoLists()
    ensures Chronological([[SECOND], [FIRST]]) == [FIRST, SECOND] && Collected([[SECOND], [FIRST]]) == [SECOND, FIRST]
  {
    assert [[SECOND], [FIRST]][1..] == [[FIRST]] && [[FIRST]][1..] == [];
    assert Chronological([[FIRST]]) == [] + [FIRST] == [FIRST];
    assert Collected([[FIRST]]) == [FIRST] + [] == [FIRST];
    assert [FIRST] + [SECOND] == [FIRST, SECOND] && [SECOND] + [FIRST] == [SECOND, FIRST];
  }

  lemma DemoIsPlaced()
    ensures WellPlaced(DemoConfig(), [FIRST, SECOND]) && Ordinary(DemoConfig(), [FIRST, SECOND], "w/f")
    ensures FreshIDs(DemoConfig(), map[], [FIRST, SECOND])
  {
    var cfg := DemoConfig();
    assert "w/f"[0] == 'w' && (cfg.dir + "/")[0] == 'b' && cfg.resolve("f") == "w/f";
    assert FIRST.id[1] != SECOND.id[1] && Sane(cfg, FIRST) && Sane(cfg, SECOND);
  }

  lemma DemoIsGenuine()
    ensures Windows(DemoConfig(), map[], [[SECOND], [FIRST]]) && Ordinary(DemoConfig(), [FIRST, SECOND], "w/f")
  {
    var cfg := DemoConfig();
    DemoLists();
    DemoIsPlaced();
    assert [FIRST, SECOND][..1] == [FIRST] && [FIRST][..0] == [] && cfg.resolve("f") == "w/f";
    assert Sane(cfg, FIRST) by { assert [FIRST, SECOND][0] == FIRST; }
    ReadAfter(cfg, map[], FIRST, "w/f");
    assert Play(cfg, map[], [FIRST]) == After(cfg, map[], FIRST);
    assert Genuine(cfg, map[], []) && Genuine(cfg, map[], [FIRST]) && Genuine(cfg, map[], [FIRST, SECOND]);
  }

  /** Two windows that change the same file: the rewind stops at the content between them. */
  lemma TwoWindowsMissTheTarget()
    ensures var cfg, windows := DemoConfig(), [[SECOND], [FIRST]];
      && Windows(cfg, map[], windows) && Ordinary(cfg, Chronological(windows), "w/f")
      && Read(map[], "w/f") == "" && Read(Rewound(cfg, map[], windows), "w/f") == "one"
  {
    var cfg, windows := DemoConfig(), [[SECOND], [FIRST]];
    DemoLists();
    DemoIsGenuine();
    assert cfg.resolve("f") == "w/f";
    assert FirstBefore(cfg, [SECOND, FIRST], "w/f") == Some("one");
    RewindResult(cfg, map[], windows, "w/f");
    NewestBackup(cfg, map[], windows, "w/f");
  }

  // ---------------------------------------------------------------------------
  // The service
  // ---------------------------------------------------------------------------

  /** The checkpoints listed before this one, if it is listed at all. */
  function Before(list: seq<Saved>, id: string): Option<seq<Saved>> {
    if list == [] then None
    else if list[0].id == id then Some([])
    else match Before(list[1..], id)
      case None => None
      case Some(rest) => Some([list[0]] + rest)
  }

  /** The windows recorded in these checkpoints. */
  ghost predicate RecordedIn(cfg: Config, list: seq<Saved>, windows: seq<seq<Applied>>) {
    |list| == |windows| && forall i :: 0 <= i < |list| ==> list[i].fileChanges == Records(cfg, windows[i])
  }

  lemma {:induction false} CollectedRecords(cfg: Config, list: seq<Saved>, windows: seq<seq<Applied>>)
    requires RecordedIn(cfg, list, windows)
    ensures Accounts.ChangesOf(list) == Records(cfg, Collected(windows))
  {
    if list != [] {
      CollectedRecords(cfg, list[1..], windows[1..]);
    }
  }

  datatype Request = Request(checkpointID: string, code: bool, conversation: bool)

  class Service {
    const engine: Option<Engine>
    var stateFile: Option<State>

    const saveFails: nat -> bool   // which attempts to save the state fail
    var saves: nat

    constructor (engine: Option<Engine>, stateFile: Option<State>, saveFails: nat -> bool)
      ensures this.engine == engine && this.stateFile == stateFile && this.saveFails == saveFails
    {
      this.engine, this.stateFile, this.saveFails, this.saves := engine, stateFile, saveFails, 0;
    }

    /** The loop that collects the changes recorded after the target. */
    method Collect(list: seq<Saved>, id: string) returns (found: bool, changes: seq<FileChange>)
      ensures found <==> Before(list, id).Some?
      ensures found ==> changes == Accounts.ChangesOf(Before(list, id).value)
    {
      changes, found := [], false;
      for k := 0 to |list|
        invariant !found
        invariant Before(list, id).Some? <==> Before(list[k..], id).Some?
        invariant Before(list, id).Some? ==>
          Accounts.ChangesOf(Before(list, id).value) == changes + Accounts.ChangesOf(Before(list[k..], id).value)
      {
        assert list[k..][1..] == list[k + 1..];
        if list[k].id == id {
          found := true;
          return;
        }
        changes := changes + list[k].fileChanges;
      }
      assert list[|list|..] == [];
    }

    /** One rollback of the loop below, of the last apply that is not undone yet. */
    method RollBackOne(
        engine: Engine, change: FileChange, ghost fits: bool, ghost start: Disk, ghost ops: seq<Applied>, ghost i: nat)
      returns (ok: bool)
      requires fits ==>
        && i < |ops| && change.patchID == ops[i].id
        && Explained(engine.cfg, start, ops) && Undoing(engine.cfg, start, engine.disk, ops, i + 1)
      modifies engine
      ensures old(engine.accesses) <= engine.accesses && (!ok && fits ==> engine.Failed(old(engine.accesses)))
      ensures ok && fits ==> Undoing(engine.cfg, start, engine.disk, ops, i)
    {
      ghost var before, a := engine.disk, if fits then ops[i] else Applied("", "", "", "", "");
      ok := engine.Rollback(change.patchID, a);
      if ok && fits {
        UndoOne(engine.cfg, start, before, ops, i);
      }
    }

    /** The loop that rolls the collected changes back, last to first. When they are the
        records of these applies and all of their backups are intact, then without an error
        the backups are restored in that order, and stay intact. */
    method RollBackAll(engine: Engine, changes: seq<FileChange>, ghost ops: seq<Applied>) returns (errors: nat)
      modifies engine
      ensures errors <= |changes| && old(engine.accesses) <= engine.accesses
      ensures errors > 0 && changes == Records(engine.cfg, ops) && Explained(engine.cfg, old(engine.disk), ops) ==>
        engine.Failed(old(engine.accesses))
      ensures errors == 0 && changes == Records(engine.cfg, ops) && Explained(engine.cfg, old(engine.disk), ops) ==>
        && engine.disk == Restore(engine.cfg, old(engine.disk), Reversed(ops))
        && Explained(engine.cfg, engine.disk, ops)
    {
      errors := 0;
      ghost var start := engine.disk;
      ghost var fits := changes == Records(engine.cfg, ops) && Explained(engine.cfg, start, ops);
      assert fits ==> Undoing(engine.cfg, start, engine.disk, ops, |changes|);
      for i := |changes| downto 0
        invariant errors <= |changes| - i && old(engine.accesses) <= engine.accesses
        invariant fits && errors > 0 ==> engine.Failed(old(engine.accesses))
        invariant fits && errors == 0 ==> Undoing(engine.cfg, start, engine.disk, ops, i)
      {
        ghost var tried := engine.accesses;
        var ok := RollBackOne(engine, changes[i], fits && errors == 0, start, ops, i);
        SomeFailJoin(engine.fails, old(engine.accesses), tried, engine.accesses);
        if !ok {
          errors := errors + 1;
        }
      }
      if fits && errors == 0 {
        UndoingEnds(engine.cfg, start, engine.disk, ops);
      }
    }

    /** Rewind to a checkpoint. `target` is what loading the checkpoint gave and `listed` the
        listing, newest first. A code rewind succeeds only without an error; if the changes
        listed before the target record these windows and the backups are intact, it has then
        restored the backups, windows oldest first. */
    method Rewind(target: Option<Saved>, listed: Option<seq<Saved>>, req: Request, ghost windows: seq<seq<Applied>>)
      returns (success: bool, ghost errors: nat, ghost saveFailed: bool)
      modifies this, if engine.Some? then {engine.value} else {}
      ensures var later := if target.Some? && listed.Some? then Before(listed.value, target.value.id) else None;
        && (success <==>
              && target.Some? && (req.code ==> engine.Some? && later.Some? && errors == 0)
              && (req.conversation ==> !saveFailed))
        && (success && req.code && RecordedIn(engine.value.cfg, later.value, windows)
            && Explained(engine.value.cfg, old(engine.value.disk), Collected(windows)) ==>
              && engine.value.disk == Restore(engine.value.cfg, old(engine.value.disk), Reversed(Collected(windows)))
              && Explained(engine.value.cfg, engine.value.disk, Collected(windows)))
      ensures
        && target.Some? && !success
        && (req.code ==>
              && engine.Some? && listed.Some? && Before(listed.value, target.value.id).Some?
              && RecordedIn(engine.value.cfg, Before(listed.value, target.value.id).value, windows)
              && Explained(engine.value.cfg, old(engine.value.disk), Collected(windows))) ==>
          (req.code && engine.value.Failed(old(engine.value.accesses))) || (req.conversation && saveFails(old(saves)))
      ensures !req.code && engine.Some? ==> engine.value.disk == old(engine.value.disk)
      ensures stateFile == if success && req.conversation then Some(target.value.state) else old(stateFile)
    {
      errors, saveFailed := 0, false;
      if target.None? {
        return false, 0, false;
      }
      if req.code {
        if engine.None? || listed.None? {
          return false, 0, false;
        }
        var found, changes := Collect(listed.value, target.value.id);
        if !found {
          return false, 0, false;
        }
        ghost var cfg, later := engine.value.cfg, Before(listed.value, target.value.id).value;
        if RecordedIn(cfg, later, windows) {
          CollectedRecords(cfg, later, windows);
        }
        var failed := RollBackAll(engine.value, changes, Collected(windows));
        errors := failed;
        if failed > 0 {
          return false, failed, false;
        }
      }
      if req.conversation {
        var saved := !saveFails(saves);
        saves, saveFailed := saves + 1, !saved;
        if !saved {
          return false, errors, true;
        }
        stateFile := Some(target.value.state);
      }
      success := true;
    }

    /** The whole request: load the checkpoint, list the checkpoints, rewind. With checkpoints
        saved at increasing times, the windows undone are those saved after the target. */
    method RewindTo(
        dir: Checkpoints.Directory, readable: bool, req: Request,
        ghost saves: seq<Checkpoints.Checkpoint>, ghost k: nat, ghost windows: seq<seq<Applied>>)
      returns (success: bool)
      requires Checkpoints.Proper(dir)
      modifies this, if engine.Some? then {engine.value} else {}
      ensures success ==> readable && exists name :: Loaded(dir, name, req.checkpointID)
      ensures success && req.code ==> engine.Some?
      ensures
        && success && req.code && SavedInOrder(dir, saves)
        && k < |saves| && saves[k].saved.id == req.checkpointID
        && RecordedIn(engine.value.cfg, Contents(Checkpoints.Reverse(saves[k + 1..])), windows)
        && Explained(engine.value.cfg, old(engine.value.disk), Collected(windows)) ==>
          engine.value.disk == Restore(engine.value.cfg, old(engine.value.disk), Reversed(Collected(windows)))
      ensures !success || !req.conversation ==> stateFile == old(stateFile)
    {
      if !readable {
        return false;
      }
      var target := Checkpoints.LoadCheckpoint(dir, req.checkpointID);
      var listing := Checkpoints.ListCheckpoints(dir);
      var listed := ContentsOf(listing);
      if SavedInOrder(dir, saves) && k < |saves| && saves[k].saved.id == req.checkpointID {
        Checkpoints.ListedNewestFirst(saves);
        Checkpoints.ListingUnique(dir, listing, Checkpoints.Reverse(saves));
        BeforeTarget(saves, k);
      }
      ghost var errors, saveFailed;
      success, errors, saveFailed :=
        Rewind(if target.Some? then Some(target.value.saved) else None, Some(listed), req, windows);
      if success {
        var name :| Checkpoints.Has(dir, name, target.value);
        assert Loaded(dir, name, req.checkpointID);
      }
    }

    /** Rewinding code twice in a row leaves every ordinary file as rewinding once does. */
    method RewindTwice(
        target: Option<Saved>, listed: Option<seq<Saved>>, req: Request,
        ghost windows: seq<seq<Applied>>, ghost path: string)
      returns (first: bool, second: bool)
      requires engine.Some? && req.code
      modifies this, engine.value
      ensures
        && first && second && target.Some? && listed.Some? && Before(listed.value, target.value.id).Some?
        && RecordedIn(engine.value.cfg, Before(listed.value, target.value.id).value, windows)
        && Explained(engine.value.cfg, old(engine.value.disk), Collected(windows))
        && Ordinary(engine.value.cfg, Collected(windows), path) ==>
          Read(engine.value.disk, path)
            == Read(Restore(engine.value.cfg, old(engine.value.disk), Reversed(Collected(windows))), path)
    {
      ghost var errors, saveFailed;
      first, errors, saveFailed := Rewind(target, listed, req, windows);
      second, errors, saveFailed := Rewind(target, listed, req, windows);
      if Ordinary(engine.value.cfg, Collected(windows), path) {
        RestoredAgain(engine.value.cfg, old(engine.value.disk), Collected(windows), path);
      }
    }
  }

  // ---------------------------------------------------------------------------
  // The listing and the target
  // ---------------------------------------------------------------------------

  ghost predicate Loaded(dir: Checkpoints.Directory, name: string, id: string) {
    name in dir && Checkpoints.Loads(dir, name) && dir[name].checkpoint.saved.id == id
  }

  /** The directory holds these checkpoints, saved at increasing times, ids of one length and
      all different. */
  ghost predicate SavedInOrder(dir: Checkpoints.Directory, saves: seq<Checkpoints.Checkpoint>) {
    && dir == Checkpoints.SaveAll(map[], saves)
    && (forall i, j :: 0 <= i < j < |saves| ==> saves[i].nanos < saves[j].nanos)
    && (forall i, j :: 0 <= i < |saves| && 0 <= j < |saves| ==> Checkpoints.Comparable(saves[i], saves[j]))
    && UniqueIDs(saves)
  }

  ghost predicate UniqueIDs(saves: seq<Checkpoints.Checkpoint>) {
    forall i, j :: 0 <= i < j < |saves| ==> saves[i].saved.id != saves[j].saved.id
  }

  function Contents(list: seq<Checkpoints.Checkpoint>): (contents: seq<Saved>)
    ensures |contents| == |list| && forall i :: 0 <= i < |list| ==> contents[i] == list[i].saved
  {
    seq(|list|, i requires 0 <= i < |list| => list[i].saved)
  }

  method ContentsOf(list: seq<Checkpoints.Checkpoint>) returns (contents: seq<Saved>)
    ensures contents == Contents(list)
  {
    contents := [];
    for i := 0 to |list|
      invariant contents == Contents(list[..i])
    {
      contents := contents + [list[i].saved];
    }
    assert list[..|list|] == list;
  }

  lemma NewestFirst(saves: seq<Checkpoints.Checkpoint>)
    requires saves != []
    ensures var n, list := |saves| - 1, Contents(Checkpoints.Reverse(saves));
      && list != [] && list[0] == saves[n].saved && list[1..] == Contents(Checkpoints.Reverse(saves[..n]))
      && list == [saves[n].saved] + Contents(Checkpoints.Reverse(saves[..n]))
  {
    ContentsCons(saves[|saves| - 1], Checkpoints.Reverse(saves[..|saves| - 1]));
  }

  lemma ContentsCons(c: Checkpoints.Checkpoint, rest: seq<Checkpoints.Checkpoint>)
    ensures Contents([c] + rest) == [c.saved] + Contents(rest)
  {
    var all := [c] + rest;
    forall i | 0 <= i < |all| ensures Contents(all)[i] == ([c.saved] + Contents(rest))[i] {
      assert all[i] == if i == 0 then c else rest[i - 1];
    }
  }

  /** Listed newest first, the checkpoints before the target are those saved after it. */
  lemma {:induction false} BeforeTarget(saves: seq<Checkpoints.Checkpoint>, k: nat)
    requires k < |saves| && UniqueIDs(saves)
    ensures Before(Contents(Checkpoints.Reverse(saves)), saves[k].saved.id) ==
      Some(Contents(Checkpoints.Reverse(saves[k + 1..])))
  {
    var n := |saves| - 1;
    var init, later := saves[..n], saves[k + 1..];
    NewestFirst(saves);
    if k == n {
      assert later == [] && Contents(Checkpoints.Reverse(later)) == [];
    } else {
      BeforeTarget(init, k);
      NewestFirst(later);
      assert later[..|later| - 1] == init[k + 1..] && later[|later| - 1] == saves[n];
    }
  }

  // ---------------------------------------------------------------------------
  // Undoing from the back
  // ---------------------------------------------------------------------------

  /** The names are in order and the backups there, for all of these applies. */
  ghost predicate Explained(cfg: Config, disk: Disk, ops: seq<Applied>) {
    (forall k :: 0 <= k < |ops| ==> Sane(cfg, ops[k])) && AllIntactIn(cfg, disk, ops)
  }

  lemma UndoOne(cfg: Config, start: Disk, before: Disk, ops: seq<Applied>, i: nat)
    requires i < |ops| && Explained(cfg, start, ops) && Undoing(cfg, start, before, ops, i + 1)
    ensures Undoing(cfg, start, Store(before, Target(cfg, ops[i]), ops[i].before), ops, i)
  {
    forall k | 0 <= k < |ops| ensures Intact(cfg, Store(before, Target(cfg, ops[i]), ops[i].before), ops[k]) {
      StoreKeepsIntact(cfg, before, ops[k], Target(cfg, ops[i]), ops[i].before);
    }
  }

  /** Restoring the same backups once more changes no file. */
  lemma RestoredAgain(cfg: Config, disk: Disk, ops: seq<Applied>, path: string)
    requires Ordinary(cfg, ops, path)
    ensures var once := Restore(cfg, disk, Reversed(ops));
      Read(Restore(cfg, once, Reversed(ops)), path) == Read(once, path)
  {
    ReadRestored(cfg, Restore(cfg, disk, Reversed(ops)), Reversed(ops), path);
    ReadRestored(cfg, disk, Reversed(ops), path);
  }

  /** The disk once the applies from position i on are undone, last to first. */
  function Undone(cfg: Config, disk: Disk, ops: seq<Applied>, i: nat): Disk
    requires i <= |ops|
    decreases |ops| - i
  {
    if i == |ops| then disk else Store(Undone(cfg, disk, ops, i + 1), Target(cfg, ops[i]), ops[i].before)
  }

  ghost predicate Undoing(cfg: Config, start: Disk, disk: Disk, ops: seq<Applied>, i: nat)
    requires i <= |ops|
  {
    disk == Undone(cfg, start, ops, i) && AllIntactIn(cfg, disk, ops)
  }

  lemma {:induction false} UndoneIsRestored(cfg: Config, disk: Disk, ops: seq<Applied>, i: nat)
    requires i <= |ops|
    ensures Undone(cfg, disk, ops, i) == Restore(cfg, disk, Reversed(ops[i..]))
    decreases |ops| - i
  {
    if i < |ops| {
      UndoneIsRestored(cfg, disk, ops, i + 1);
      var undo := Reversed(ops[i..]);
      assert undo[..|undo| - 1] == Reversed(ops[i + 1..]);
    }
  }

  lemma UndoingEnds(cfg: Config, start: Disk, disk: Disk, ops: seq<Applied>)
    requires Undoing(cfg, start, disk, ops, 0) && Explained(cfg, start, ops)
    ensures disk == Restore(cfg, start, Reversed(ops)) && Explained(cfg, disk, ops)
  {
    UndoneIsRestored(cfg, start, ops, 0);
    assert ops[0..] == ops;
  }

  predicate AllIntactIn(cfg: Config, disk: Disk, ops: seq<Applied>) {
    forall k :: 0 <= k < |ops| ==> Intact(cfg, disk, ops[k])
  }

  lemma AllIntact(cfg: Config, disk: Disk, windows: seq<seq<Applied>>)
    requires Windows(cfg, disk, windows)
    ensures Explained(cfg, Now(cfg, disk, windows), Collected(windows))
  {
    forall k | 0 <= k < |Collected(windows)|
      ensures Sane(cfg, Collected(windows)[k]) && Intact(cfg, Now(cfg, disk, windows), Collected(windows)[k])
    {
      var a, all := Collected(windows)[k], Chronological(windows);
      SameApplies(windows, a);
      var i :| 0 <= i < |all| && all[i] == a;
      PlayIsIntact(cfg, disk, all, i);
    }
  }
}
