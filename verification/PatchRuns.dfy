/** Runs of applies, dry runs and checkpoints over one tracker: the engine and the runtime share
    it, and between them no recorded change goes missing. */
module PatchRuns {
  import opened Wrappers
  import opened Patch
  import opened UndoLog
  import opened PatchEngine
  import Accounts
  import Checkpoints
  import Rewind
  import Runtime

  datatype Op =
    | Patching(cmd: Command, id: string, stamp: string)
    | Previewing(cmd: Command, id: string, stamp: string)
    | Checkpointing

  /** What an operation came to. */
  datatype Step = Wrote(a: Applied) | NothingWritten | Flushed(saved: bool)

  /** What has been recorded, what the checkpoints flushed and what still waits. */
  datatype Books = Books(recorded: seq<FileChange>, windows: seq<Accounts.Window>, pending: seq<FileChange>)

  function Book(cfg: Config, b: Books, s: Step): Books {
    match s
    case Wrote(a) => Books(b.recorded + [Recorded(cfg, a)], b.windows, b.pending + [Recorded(cfg, a)])
    case NothingWritten => b
    case Flushed(saved) => Books(b.recorded, b.windows + [Accounts.Window(b.pending, saved)], [])
  }

  function BookAll(cfg: Config, b: Books, steps: seq<Step>): Books {
    if steps == [] then b else Book(cfg, BookAll(cfg, b, steps[..|steps| - 1]), steps[|steps| - 1])
  }

  /** The applies that wrote their file, in order. */
  function Writes(steps: seq<Step>): seq<Applied> {
    if steps == [] then []
    else
      var last := steps[|steps| - 1];
      Writes(steps[..|steps| - 1]) + (if last.Wrote? then [last.a] else [])
  }

  /** An apply that wrote backed up what it found and wrote what the diff makes of it. Anything
      else leaves every file as it is, but for what a failed apply leaves behind of its own. */
  ghost predicate Came(engine: Engine, op: Op, before: Disk, s: Step, after: Disk) {
    match op
    case Patching(cmd, id, stamp) =>
      var target := engine.cfg.resolve(cmd.filePath);
      && !s.Flushed? && (cmd.dryRun ==> s.NothingWritten? && after == before)
      && (s.Wrote? ==>
            && s.a == Applied(id, cmd.filePath, stamp, Read(before, target), Read(after, target))
            && engine.cfg.parse(cmd.diff).Some?
            && s.a.after == engine.cfg.patch(engine.cfg.parse(cmd.diff).value, s.a.before).0
            && false !in engine.cfg.patch(engine.cfg.parse(cmd.diff).value, s.a.before).1)
      && (s.NothingWritten? ==>
            forall p :: p !in Scratch(engine.cfg, id, stamp, cmd.filePath) ==> Read(after, p) == Read(before, p))
    case Previewing(_, _, _) => s.NothingWritten? && after == before
    case Checkpointing => s.Flushed? && after == before
  }

  /** These operations came to these steps, from disk to disk. */
  ghost predicate Ran(engine: Engine, ops: seq<Op>, steps: seq<Step>, disks: seq<Disk>) {
    && |steps| == |ops| && |disks| == |ops| + 1
    && forall i :: 0 <= i < |ops| ==> Came(engine, ops[i], disks[i], steps[i], disks[i + 1])
  }

  ghost predicate AllSaved(steps: seq<Step>) {
    Flushed(false) !in steps
  }

  /** Each of these checkpoints carries the changes of its window. */
  ghost predicate HandedOver(checkpoints: seq<Accounts.Saved>, windows: seq<Accounts.Window>) {
    |checkpoints| == |windows| && forall i :: 0 <= i < |windows| ==> checkpoints[i].fileChanges == windows[i].changes
  }

  /** A saved checkpoint carries the changes of the window it adds; nothing else adds one. */
  ghost predicate HandsOver(
      saved: seq<Accounts.Saved>, saved': seq<Accounts.Saved>,
      windows: seq<Accounts.Window>, windows': seq<Accounts.Window>, s: Step)
  {
    && saved <= saved' && windows <= windows'
    && (!s.Flushed? ==> saved' == saved && windows' == windows)
    && (s.Flushed? ==> |windows'| == |windows| + 1 && windows'[|windows|].saved == s.saved)
    && (s == Flushed(false) ==> saved' == saved)
    && (s == Flushed(true) ==>
          |saved'| == |saved| + 1 && saved'[|saved|].fileChanges == windows'[|windows|].changes)
  }

  ghost predicate Handing(
      saved: seq<Accounts.Saved>, saved': seq<Accounts.Saved>,
      windows: seq<Accounts.Window>, windows': seq<Accounts.Window>, steps: seq<Step>)
  {
    && saved <= saved' && windows <= windows'
    && (AllSaved(steps) ==> HandedOver(saved'[|saved|..], windows'[|windows|..]))
  }

  lemma HandingOn(
      a: seq<Accounts.Saved>, b: seq<Accounts.Saved>, c: seq<Accounts.Saved>,
      u: seq<Accounts.Window>, v: seq<Accounts.Window>, w: seq<Accounts.Window>, steps: seq<Step>, s: Step)
    requires Handing(a, b, u, v, steps) && HandsOver(b, c, v, w, s)
    ensures Handing(a, c, u, w, steps + [s])
  {
    if AllSaved(steps + [s]) {
      AllSavedOn(steps, s);
      if s.Flushed? {
        assert c[|a|..] == b[|a|..] + [c[|b|]] && w[|u|..] == v[|u|..] + [w[|v|]];
      }
    }
  }

  lemma AllSavedOn(steps: seq<Step>, s: Step)
    ensures AllSaved(steps + [s]) <==> AllSaved(steps) && s != Flushed(false)
  {
    assert s in steps + [s] && forall x :: x in steps ==> x in steps + [s];
  }

  /** Every checkpoint among these steps was saved exactly if none of these attempts failed. */
  ghost predicate Attempted(fails: nat -> bool, from: nat, to: nat, steps: seq<Step>) {
    from <= to && (AllSaved(steps) <==> !SomeFail(fails, from, to))
  }

  lemma AttemptedOn(fails: nat -> bool, from: nat, mid: nat, to: nat, steps: seq<Step>, s: Step)
    requires Attempted(fails, from, mid, steps) && Attempted(fails, mid, to, [s])
    ensures Attempted(fails, from, to, steps + [s])
  {
    AllSavedOn(steps, s);
    AllSavedOn([], s);
    SomeFailJoin(fails, from, mid, to);
  }

  lemma RanOn(engine: Engine, ops: seq<Op>, steps: seq<Step>, disks: seq<Disk>, op: Op, s: Step, next: Disk)
    requires Ran(engine, ops, steps, disks) && Came(engine, op, disks[|ops|], s, next)
    ensures Ran(engine, ops + [op], steps + [s], disks + [next])
  {
  }

  ghost function BooksOf(runtime: Runtime.Runtime): Books
    reads runtime, runtime.tracker
  {
    Books(runtime.recorded, runtime.windows, runtime.tracker.changes)
  }

  /** Runtime, store and files between two operations. */
  datatype Desk = Desk(books: Books, checkpoints: seq<Accounts.Saved>, saves: nat, disk: Disk)

  ghost function DeskOf(runtime: Runtime.Runtime, engine: Engine): Desk
    reads runtime, runtime.store, runtime.tracker, engine
  {
    Desk(BooksOf(runtime), runtime.store.checkpoints, runtime.store.saves, engine.disk)
  }

  /** What one operation makes of it. */
  ghost predicate Done(engine: Engine, fails: nat -> bool, a: Desk, b: Desk, op: Op, s: Step) {
    && Came(engine, op, a.disk, s, b.disk) && b.books == Book(engine.cfg, a.books, s)
    && HandsOver(a.checkpoints, b.checkpoints, a.books.windows, b.books.windows, s)
    && Attempted(fails, a.saves, b.saves, [s])
  }

  /** What a sequence of operations makes of it: each came to its step, from disk to disk; the
      books are kept step by step; the checkpoints carry what they flushed; and one of them
      was not saved exactly if a save failed. */
  ghost predicate DoneAll(
      engine: Engine, fails: nat -> bool, a: Desk, b: Desk, ops: seq<Op>, steps: seq<Step>, disks: seq<Disk>)
  {
    && Ran(engine, ops, steps, disks) && disks[0] == a.disk && disks[|ops|] == b.disk
    && b.books == BookAll(engine.cfg, a.books, steps)
    && Handing(a.checkpoints, b.checkpoints, a.books.windows, b.books.windows, steps)
    && Attempted(fails, a.saves, b.saves, steps)
  }

  lemma DoneOn(engine: Engine, fails: nat -> bool, a: Desk, b: Desk, c: Desk,
               ops: seq<Op>, steps: seq<Step>, disks: seq<Disk>, op: Op, s: Step)
    requires DoneAll(engine, fails, a, b, ops, steps, disks) && Done(engine, fails, b, c, op, s)
    ensures DoneAll(engine, fails, a, c, ops + [op], steps + [s], disks + [c.disk])
  {
    RanOn(engine, ops, steps, disks, op, s, c.disk);
    HandingOn(a.checkpoints, b.checkpoints, c.checkpoints, a.books.windows, b.books.windows, c.books.windows, steps, s);
    AttemptedOn(fails, a.saves, b.saves, c.saves, steps, s);
    assert (steps + [s])[..|steps|] == steps;
  }

  lemma NoneDone(engine: Engine, fails: nat -> bool, a: Desk)
    ensures DoneAll(engine, fails, a, a, [], [], [a.disk])
  {
  }

  method PerformOne(runtime: Runtime.Runtime, engine: Engine, op: Op) returns (wrote: bool, ghost step: Step)
    requires runtime.tracker == engine.tracker
    modifies runtime`recorded, runtime`frontier, runtime`windows, runtime`marks
    modifies runtime.store`file, runtime.store`checkpoints, runtime.store`saves
    modifies engine, engine.tracker
    ensures wrote == step.Wrote?
    ensures Done(engine, runtime.store.faults.save, old(DeskOf(runtime, engine)), DeskOf(runtime, engine), op, step)
    ensures old(runtime.Accounted()) ==> runtime.Accounted()
  {
    match op
    case Patching(cmd, id, stamp) =>
      var r, noted;
      ghost var done;
      r, noted, done := engine.Apply(cmd, id, stamp);
      wrote := r.Ok? && r.value.success && !cmd.dryRun;
      step := if wrote then Wrote(done) else NothingWritten;
      if wrote {
        runtime.recorded := runtime.recorded + [Recorded(engine.cfg, done)];
      }
    case Previewing(cmd, id, stamp) =>
      var r := engine.DryRun(cmd, id, stamp);
      wrote, step := false, NothingWritten;
    case Checkpointing =>
      var saved := runtime.Checkpoint();
      wrote, step := false, Flushed(saved);
  }

  /** Over any sequence of operations: an apply whose diff cannot be parsed or has a hunk that
      does not fit the file as it is then writes nothing, and a dry run never does. */
  lemma MisfitsWriteNothing(engine: Engine, ops: seq<Op>, steps: seq<Step>, disks: seq<Disk>, i: nat)
    requires Ran(engine, ops, steps, disks) && i < |ops| && !ops[i].Checkpointing?
    ensures var diff, content := engine.cfg.parse(ops[i].cmd.diff), Read(disks[i], engine.cfg.resolve(ops[i].cmd.filePath));
      ops[i].Previewing? || ops[i].cmd.dryRun || diff.None? || false in engine.cfg.patch(diff.value, content).1 ==>
        steps[i] == NothingWritten
  {
    assert Came(engine, ops[i], disks[i], steps[i], disks[i + 1]);
  }

  lemma RecordsOn(cfg: Config, ops: seq<Applied>, a: Applied)
    ensures Records(cfg, ops + [a]) == Records(cfg, ops) + [Recorded(cfg, a)]
  {
  }

  /** Whatever the steps, what was recorded grew by the records of the applies that wrote. */
  lemma {:induction false} WritesAreRecorded(cfg: Config, b: Books, steps: seq<Step>)
    ensures BookAll(cfg, b, steps).recorded == b.recorded + Records(cfg, Writes(steps))
  {
    if steps == [] {
      assert Records(cfg, []) == [];
    } else {
      var init, last := steps[..|steps| - 1], steps[|steps| - 1];
      WritesAreRecorded(cfg, b, init);
      if last.Wrote? {
        RecordsOn(cfg, Writes(init), last.a);
      } else {
        assert Writes(init) + [] == Writes(init);
      }
    }
  }

  lemma OneMore(ops: seq<Op>, i: nat)
    requires i < |ops|
    ensures ops[..i + 1] == ops[..i] + [ops[i]]
  {
  }

  method PerformAll(runtime: Runtime.Runtime, engine: Engine, ops: seq<Op>)
    returns (wrote: seq<bool>, ghost steps: seq<Step>, ghost disks: seq<Disk>)
    requires runtime.tracker == engine.tracker
    modifies runtime`recorded, runtime`frontier, runtime`windows, runtime`marks
    modifies runtime.store`file, runtime.store`checkpoints, runtime.store`saves
    modifies engine, engine.tracker
    ensures DoneAll(
      engine, runtime.store.faults.save, old(DeskOf(runtime, engine)), DeskOf(runtime, engine), ops, steps, disks)
    ensures |wrote| == |ops| && forall i :: 0 <= i < |ops| ==> wrote[i] == steps[i].Wrote?
    ensures old(runtime.Accounted()) ==> runtime.Accounted()
  {
    wrote, steps, disks := [], [], [engine.disk];
    ghost var start, fails := DeskOf(runtime, engine), runtime.store.faults.save;
    ghost var now := start;
    NoneDone(engine, fails, start);
    for i := 0 to |ops|
      invariant now == DeskOf(runtime, engine) && DoneAll(engine, fails, start, now, ops[..i], steps, disks)
      invariant |wrote| == i && forall j :: 0 <= j < i ==> wrote[j] == steps[j].Wrote?
      invariant old(runtime.Accounted()) ==> runtime.Accounted()
    {
      ghost var before := now;
      OneMore(ops, i);
      var one;
      ghost var step;
      one, step := PerformOne(runtime, engine, ops[i]);
      now := DeskOf(runtime, engine);
      DoneOn(engine, fails, start, before, now, ops[..i], steps, disks, ops[i], step);
      wrote, steps, disks := wrote + [one], steps + [step], disks + [engine.disk];
    }
    assert ops[..|ops|] == ops;
  }

  /** Any sequence of applies, dry runs and checkpoints. In the end the saved checkpoints and
      the pending changes hold the records of all applies that wrote, in order, if and only if
      each checkpoint that failed to save had no changes to hand over. */
  method Perform(runtime: Runtime.Runtime, engine: Engine, ops: seq<Op>)
    returns (wrote: seq<bool>, pending: seq<FileChange>, ghost steps: seq<Step>, ghost disks: seq<Disk>)
    requires runtime.tracker == engine.tracker
    modifies runtime`recorded, runtime`frontier, runtime`windows, runtime`marks
    modifies runtime.store`file, runtime.store`checkpoints, runtime.store`saves
    modifies engine, engine.tracker
    ensures DoneAll(
      engine, runtime.store.faults.save, old(DeskOf(runtime, engine)), DeskOf(runtime, engine), ops, steps, disks)
    ensures |wrote| == |ops| && forall i :: 0 <= i < |ops| ==> wrote[i] == steps[i].Wrote?
    ensures pending == runtime.tracker.changes
    ensures old(runtime.Accounted()) ==>
      var all := old(runtime.recorded) + Records(engine.cfg, Writes(steps));
      (all == Accounts.ChangesOf(runtime.store.checkpoints) + pending <==> Accounts.NothingLost(runtime.windows))
  {
    wrote, steps, disks := PerformAll(runtime, engine, ops);
    pending := engine.tracker.GetPending();
    WritesAreRecorded(engine.cfg, old(BooksOf(runtime)), steps);
    if old(runtime.Accounted()) {
      Accounts.ConservedIff(runtime.recorded, runtime.windows, runtime.store.checkpoints, pending);
    }
  }

  // ---------------------------------------------------------------------------
  // Editing between checkpoints and then rewinding
  // ---------------------------------------------------------------------------

  /** The applies that wrote, checkpoint by checkpoint, newest first; those that no checkpoint
      flushed yet come first of all. */
  function Parts(steps: seq<Step>): (parts: seq<seq<Applied>>)
    ensures parts != []
  {
    if steps == [] then [[]]
    else
      var parts, last := Parts(steps[..|steps| - 1]), steps[|steps| - 1];
      match last
      case Wrote(a) => [parts[0] + [a]] + parts[1..]
      case NothingWritten => parts
      case Flushed(_) => [[]] + parts
  }

  lemma {:induction false} PartsAreWrites(steps: seq<Step>)
    ensures Rewind.Chronological(Parts(steps)) == Writes(steps)
    ensures Rewind.Chronological(Parts(steps)[1..]) + Parts(steps)[0] == Writes(steps)
  {
    if steps == [] {
      assert Parts(steps)[1..] == [] && Rewind.Chronological([]) == [];
    } else {
      PartsAreWrites(steps[..|steps| - 1]);
    }
  }

  /** What waits is the record of the first part, and each window that of its own part. */
  ghost predicate Recorder(cfg: Config, start: nat, b: Books, parts: seq<seq<Applied>>)
    requires parts != []
  {
    && b.pending == Records(cfg, parts[0]) && |b.windows| == start + |parts| - 1
    && forall i :: 1 <= i < |parts| ==> b.windows[|b.windows| - i].changes == Records(cfg, parts[i])
  }

  lemma RecorderOn(cfg: Config, start: nat, b: Books, parts: seq<seq<Applied>>, s: Step)
    requires parts != [] && Recorder(cfg, start, b, parts)
    ensures s.Wrote? ==> Recorder(cfg, start, Book(cfg, b, s), [parts[0] + [s.a]] + parts[1..])
    ensures s.Flushed? ==> Recorder(cfg, start, Book(cfg, b, s), [[]] + parts)
  {
    if s.Wrote? {
      RecordsOn(cfg, parts[0], s.a);
    } else if s.Flushed? {
      var next := Book(cfg, b, s);
      assert Records(cfg, []) == [];
      forall i | 1 <= i < |parts| + 1
        ensures next.windows[|next.windows| - i].changes == Records(cfg, ([[]] + parts)[i])
      {
        assert ([[]] + parts)[i] == parts[i - 1];
        if i > 1 {
          assert next.windows[|next.windows| - i] == b.windows[|b.windows| - (i - 1)];
        }
      }
    }
  }

  /** Starting from a checkpoint, each later one flushes the records of its part. */
  lemma {:induction false} PartsAreRecorded(cfg: Config, b: Books, steps: seq<Step>)
    requires b.pending == []
    ensures Recorder(cfg, |b.windows|, BookAll(cfg, b, steps), Parts(steps))
  {
    if steps == [] {
      assert Records(cfg, []) == [];
    } else {
      var n := |steps| - 1;
      PartsAreRecorded(cfg, b, steps[..n]);
      RecorderOn(cfg, |b.windows|, BookAll(cfg, b, steps[..n]), Parts(steps[..n]), steps[n]);
    }
  }

  /** No metadata was lost and no apply failed halfway. */
  ghost predicate Undisturbed(cfg: Config, steps: seq<Step>, disks: seq<Disk>)
    requires |disks| == |steps| + 1
  {
    forall i :: 0 <= i < |steps| ==>
      disks[i + 1] == if steps[i].Wrote? then After(cfg, disks[i], steps[i].a) else disks[i]
  }

  /** Then the disk is what playing the applies that wrote makes of the first one. */
  lemma {:induction false} RunsPlay(engine: Engine, ops: seq<Op>, steps: seq<Step>, disks: seq<Disk>)
    requires Ran(engine, ops, steps, disks) && Undisturbed(engine.cfg, steps, disks)
    ensures disks[|ops|] == Play(engine.cfg, disks[0], Writes(steps)) && Genuine(engine.cfg, disks[0], Writes(steps))
  {
    if ops != [] {
      var n := |ops| - 1;
      RunsPlay(engine, ops[..n], steps[..n], disks[..n + 1]);
      assert Came(engine, ops[n], disks[n], steps[n], disks[n + 1]);
      if steps[n].Wrote? {
        assert Writes(steps)[..|Writes(steps)| - 1] == Writes(steps[..n]);
      } else {
        assert Writes(steps) == Writes(steps[..n]);
      }
    }
  }

  lemma IntactInTheEnd(cfg: Config, disk: Disk, parts: seq<seq<Applied>>, last: seq<Applied>)
    requires var all := Rewind.Chronological(parts) + last; WellPlaced(cfg, all) && FreshIDs(cfg, disk, all)
    ensures Rewind.Explained(cfg, Play(cfg, disk, Rewind.Chronological(parts) + last), Rewind.Collected(parts))
  {
    var all, undone := Rewind.Chronological(parts) + last, Rewind.Collected(parts);
    forall k | 0 <= k < |undone| ensures Sane(cfg, undone[k]) && Intact(cfg, Play(cfg, disk, all), undone[k]) {
      Rewind.SameApplies(parts, undone[k]);
      assert undone[k] in all;
      var i :| 0 <= i < |all| && all[i] == undone[k];
      PlayIsIntact(cfg, disk, all, i);
    }
  }

  lemma {:induction false} TouchedSomewhere(cfg: Config, parts: seq<seq<Applied>>, path: string)
    ensures FirstBefore(cfg, Rewind.Collected(parts), path).Some? <==>
      exists k :: 0 <= k < |parts| && Rewind.Touches(cfg, parts[k], path)
  {
    if parts != [] {
      TouchedSomewhere(cfg, parts[1..], path);
      FirstBeforeConcat(cfg, parts[0], Rewind.Collected(parts[1..]), path);
      assert forall k :: 0 < k < |parts| ==> parts[k] == parts[1..][k - 1];
    }
  }

  /** The rewind of some parts, when other applies followed them. */
  lemma RewoundParts(cfg: Config, disk: Disk, parts: seq<seq<Applied>>, last: seq<Applied>, path: string)
    requires var all := Rewind.Chronological(parts) + last;
      Genuine(cfg, disk, all) && WellPlaced(cfg, all) && Ordinary(cfg, all, path)
    ensures var now, undone := Play(cfg, disk, Rewind.Chronological(parts) + last), Rewind.Collected(parts);
      Read(Restore(cfg, now, Reversed(undone)), path) ==
        if FirstBefore(cfg, undone, path).Some? then Rewind.AtStartOfNewest(cfg, disk, parts, path) else Read(now, path)
  {
    var older := Rewind.Chronological(parts);
    var all := older + last;
    assert all[..|older|] == older;
    OrdinaryPrefix(cfg, all, path, |older|);
    WellPlacedPrefix(cfg, all, |older|);
    Rewind.PlayConcat(cfg, disk, older, last);
    Rewind.OrdinaryEverywhere(cfg, parts, path);
    ReadRestored(cfg, Play(cfg, disk, all), Reversed(Rewind.Collected(parts)), path);
    ReversedFirst(cfg, Rewind.Collected(parts), path);
    Rewind.NewestBackup(cfg, disk, parts, path);
  }

  lemma ListedParts(cfg: Config, b: Books, steps: seq<Step>, later: seq<Checkpoints.Checkpoint>)
    requires b.pending == []
    requires var windows := BookAll(cfg, b, steps).windows;
      |b.windows| <= |windows| && HandedOver(Rewind.Contents(later), windows[|b.windows|..])
    ensures Rewind.RecordedIn(cfg, Rewind.Contents(Checkpoints.Reverse(later)), Parts(steps)[1..])
  {
    PartsAreRecorded(cfg, b, steps);
    var windows, list, parts := BookAll(cfg, b, steps).windows, Rewind.Contents(Checkpoints.Reverse(later)), Parts(steps);
    var n := |later|;
    assert |list| == n == |parts| - 1;
    forall i | 0 <= i < n ensures list[i].fileChanges == Records(cfg, parts[1..][i]) {
      assert list[i] == Rewind.Contents(later)[n - 1 - i];
      assert windows[|b.windows|..][n - 1 - i] == windows[|windows| - (i + 1)];
    }
  }

  /** Edits, previews and checkpoints after a target checkpoint, then a rewind to it. The
      checkpoints record the applies part by part, all backups are there, and the rewind gives
      each file touched in a part that was flushed the content it had when the newest such
      part began. It leaves all other files alone, edits that no checkpoint flushed included. */
  lemma RewindAfterEdits(
      engine: Engine, b: Books, ops: seq<Op>, steps: seq<Step>, disks: seq<Disk>,
      later: seq<Checkpoints.Checkpoint>, path: string)
    requires Ran(engine, ops, steps, disks) && Undisturbed(engine.cfg, steps, disks) && b.pending == []
    requires WellPlaced(engine.cfg, Writes(steps)) && FreshIDs(engine.cfg, disks[0], Writes(steps))
    requires Ordinary(engine.cfg, Writes(steps), path)
    requires var windows := BookAll(engine.cfg, b, steps).windows;
      |b.windows| <= |windows| && HandedOver(Rewind.Contents(later), windows[|b.windows|..])
    ensures var now, parts := disks[|ops|], Parts(steps)[1..];
      && Rewind.RecordedIn(engine.cfg, Rewind.Contents(Checkpoints.Reverse(later)), parts)
      && Rewind.Explained(engine.cfg, now, Rewind.Collected(parts))
      && Read(Restore(engine.cfg, now, Reversed(Rewind.Collected(parts))), path) ==
           if exists k :: 0 <= k < |parts| && Rewind.Touches(engine.cfg, parts[k], path)
           then Rewind.AtStartOfNewest(engine.cfg, disks[0], parts, path) else Read(now, path)
  {
    var parts, last := Parts(steps)[1..], Parts(steps)[0];
    RunsPlay(engine, ops, steps, disks);
    PartsAreWrites(steps);
    ListedParts(engine.cfg, b, steps, later);
    IntactInTheEnd(engine.cfg, disks[0], parts, last);
    RewoundParts(engine.cfg, disks[0], parts, last, path);
    TouchedSomewhere(engine.cfg, parts, path);
  }
}
