/** Applies as an undo log: what a sequence of rollbacks restores. */
module UndoLog {
  import opened Wrappers
  import opened Patch

  /** The disk after these applies, first to last. */
  function Play(cfg: Config, disk: Disk, ops: seq<Applied>): Disk {
    if ops == [] then disk
    else After(cfg, Play(cfg, disk, ops[..|ops| - 1]), ops[|ops| - 1])
  }

  /** The disk after restoring these backups, first to last. */
  function Restore(cfg: Config, disk: Disk, undo: seq<Applied>): Disk {
    if undo == [] then disk
    else
      var last := undo[|undo| - 1];
      Store(Restore(cfg, disk, undo[..|undo| - 1]), Target(cfg, last), last.before)
  }

  /** Each apply read and backed up what was really there. */
  predicate Genuine(cfg: Config, disk: Disk, ops: seq<Applied>) {
    ops == [] ||
    (var init, last := ops[..|ops| - 1], ops[|ops| - 1];
     Genuine(cfg, disk, init) && last.before == Read(Play(cfg, disk, init), Target(cfg, last)))
  }

  /** Unique ids of one length, sane names, no target that is another one's temporary file. */
  predicate WellPlaced(cfg: Config, ops: seq<Applied>) {
    && (forall i :: 0 <= i < |ops| ==> Sane(cfg, ops[i]))
    && (forall i, j :: 0 <= i < j < |ops| ==> ops[i].id != ops[j].id)
    && (forall i, j :: 0 <= i < |ops| && 0 <= j < |ops| ==>
          |ops[i].id| == |ops[j].id| && Target(cfg, ops[i]) != Target(cfg, ops[j]) + ".tmp")
  }

  /** A path that neither the backups nor anyone's temporary file can occupy. */
  predicate Ordinary(cfg: Config, ops: seq<Applied>, path: string) {
    !InDir(cfg, path) && forall i :: 0 <= i < |ops| ==> path != Target(cfg, ops[i]) + ".tmp"
  }

  /** The backed-up content of the first of these applies that touched the path. */
  function FirstBefore(cfg: Config, ops: seq<Applied>, path: string): Option<string> {
    if ops == [] then None
    else if Target(cfg, ops[0]) == path then Some(ops[0].before)
    else FirstBefore(cfg, ops[1..], path)
  }

  function LastBefore(cfg: Config, ops: seq<Applied>, path: string): Option<string> {
    if ops == [] then None
    else
      var last := ops[|ops| - 1];
      if Target(cfg, last) == path then Some(last.before) else LastBefore(cfg, ops[..|ops| - 1], path)
  }

  function Reversed(ops: seq<Applied>): (r: seq<Applied>)
    ensures |r| == |ops| && forall i :: 0 <= i < |ops| ==> r[i] == ops[|ops| - 1 - i]
  {
    seq(|ops|, i requires 0 <= i < |ops| => ops[|ops| - 1 - i])
  }

  // ---------------------------------------------------------------------------
  // Reading files through applies and rollbacks
  // ---------------------------------------------------------------------------

  lemma OrdinaryPrefix(cfg: Config, ops: seq<Applied>, path: string, n: nat)
    requires Ordinary(cfg, ops, path) && n <= |ops|
    ensures Ordinary(cfg, ops[..n], path) && Ordinary(cfg, ops[n..], path)
  {
  }

  lemma ReadAfter(cfg: Config, disk: Disk, a: Applied, path: string)
    requires Sane(cfg, a) && !InDir(cfg, path) && path != Target(cfg, a) + ".tmp"
    ensures Read(After(cfg, disk, a), path) == if path == Target(cfg, a) then a.after else Read(disk, path)
  {
    OwnBackupMatches(cfg, a);
  }

  lemma {:induction false} ReadRestored(cfg: Config, disk: Disk, undo: seq<Applied>, path: string)
    requires Ordinary(cfg, undo, path)
    ensures Read(Restore(cfg, disk, undo), path) ==
      match LastBefore(cfg, undo, path) case Some(content) => content case None => Read(disk, path)
  {
    if undo != [] {
      OrdinaryPrefix(cfg, undo, path, |undo| - 1);
      ReadRestored(cfg, disk, undo[..|undo| - 1], path);
    }
  }

  lemma {:induction false} ReadPlayed(cfg: Config, disk: Disk, ops: seq<Applied>, path: string)
    requires Ordinary(cfg, ops, path) && (forall i :: 0 <= i < |ops| ==> Sane(cfg, ops[i]))
    requires FirstBefore(cfg, ops, path).None?
    ensures Read(Play(cfg, disk, ops), path) == Read(disk, path)
  {
    if ops != [] {
      var n := |ops| - 1;
      OrdinaryPrefix(cfg, ops, path, n);
      FirstBeforeConcat(cfg, ops[..n], ops[n..], path);
      assert ops == ops[..n] + ops[n..];
      ReadPlayed(cfg, disk, ops[..n], path);
      ReadAfter(cfg, Play(cfg, disk, ops[..n]), ops[n], path);
    }
  }

  lemma {:induction false} FirstBeforeConcat(cfg: Config, a: seq<Applied>, b: seq<Applied>, path: string)
    ensures FirstBefore(cfg, a + b, path) ==
      if FirstBefore(cfg, a, path).Some? then FirstBefore(cfg, a, path) else FirstBefore(cfg, b, path)
  {
    if a == [] {
      assert a + b == b;
    } else {
      assert (a + b)[1..] == a[1..] + b;
      FirstBeforeConcat(cfg, a[1..], b, path);
    }
  }

  lemma {:induction false} ReversedFirst(cfg: Config, ops: seq<Applied>, path: string)
    ensures LastBefore(cfg, Reversed(ops), path) == FirstBefore(cfg, ops, path)
  {
    if ops != [] {
      assert Reversed(ops)[..|ops| - 1] == Reversed(ops[1..]);
      ReversedFirst(cfg, ops[1..], path);
    }
  }

  /** The first backup of a path holds what the path held before all of the applies. */
  lemma {:induction false} FirstBackupIsOriginal(cfg: Config, disk: Disk, ops: seq<Applied>, path: string)
    requires Genuine(cfg, disk, ops) && Ordinary(cfg, ops, path) && (forall i :: 0 <= i < |ops| ==> Sane(cfg, ops[i]))
    ensures FirstBefore(cfg, ops, path).Some? ==> FirstBefore(cfg, ops, path).value == Read(disk, path)
  {
    if ops != [] {
      var n := |ops| - 1;
      OrdinaryPrefix(cfg, ops, path, n);
      assert ops == ops[..n] + ops[n..];
      FirstBeforeConcat(cfg, ops[..n], ops[n..], path);
      FirstBackupIsOriginal(cfg, disk, ops[..n], path);
      if FirstBefore(cfg, ops[..n], path).None? {
        ReadPlayed(cfg, disk, ops[..n], path);
      }
    }
  }

  /** Rolling back in strict reverse order undoes any sequence of applies: every ordinary
      file reads as it did at the start, an absent file as empty. */
  lemma UndoInverse(cfg: Config, disk: Disk, ops: seq<Applied>, path: string)
    requires Genuine(cfg, disk, ops) && WellPlaced(cfg, ops) && Ordinary(cfg, ops, path)
    ensures Read(Restore(cfg, Play(cfg, disk, ops), Reversed(ops)), path) == Read(disk, path)
  {
    ReadRestored(cfg, Play(cfg, disk, ops), Reversed(ops), path);
    ReversedFirst(cfg, ops, path);
    FirstBackupIsOriginal(cfg, disk, ops, path);
    if FirstBefore(cfg, ops, path).None? {
      ReadPlayed(cfg, disk, ops, path);
    }
  }

  // ---------------------------------------------------------------------------
  // All backups stay intact
  // ---------------------------------------------------------------------------

  /** No file of an earlier life carries one of these ids. */
  predicate FreshIDs(cfg: Config, disk: Disk, ops: seq<Applied>) {
    forall i :: 0 <= i < |ops| ==> Backups(cfg, disk, ops[i].id) == {}
  }

  lemma AfterKeepsFresh(cfg: Config, disk: Disk, a: Applied, id: string)
    requires Sane(cfg, a) && Backups(cfg, disk, id) == {} && |id| == |a.id| && id != a.id
    ensures Backups(cfg, After(cfg, disk, a), id) == {}
  {
    OtherBackupDiffers(cfg, id, a);
    MetaNeverMatches(cfg, id, BackupOf(cfg, a));
    OutsideNeverMatches(cfg, id, Target(cfg, a));
    forall p | p in After(cfg, disk, a) ensures !Matches(cfg, id, p) {
      assert p in disk ==> (Matches(cfg, id, p) ==> p in Backups(cfg, disk, id));
    }
  }

  lemma AfterKeepsIntact(cfg: Config, disk: Disk, a: Applied, b: Applied)
    requires Intact(cfg, disk, a) && Sane(cfg, a) && Sane(cfg, b) && |a.id| == |b.id| && a.id != b.id
    ensures Intact(cfg, After(cfg, disk, b), a)
  {
    BackupKeepsIntact(cfg, disk, a, b);
    StoreKeepsIntact(cfg, WithBackup(cfg, disk, b.id, b.stamp, b.path, b.before), a, Target(cfg, b), b.after);
  }

  lemma {:induction false} PlayKeepsFresh(cfg: Config, disk: Disk, ops: seq<Applied>, id: string)
    requires WellPlaced(cfg, ops) && Backups(cfg, disk, id) == {}
    requires forall i :: 0 <= i < |ops| ==> |ops[i].id| == |id| && ops[i].id != id
    ensures Backups(cfg, Play(cfg, disk, ops), id) == {}
  {
    if ops != [] {
      PlayKeepsFresh(cfg, disk, ops[..|ops| - 1], id);
      AfterKeepsFresh(cfg, Play(cfg, disk, ops[..|ops| - 1]), ops[|ops| - 1], id);
    }
  }

  lemma WellPlacedPrefix(cfg: Config, ops: seq<Applied>, n: nat)
    requires WellPlaced(cfg, ops) && n <= |ops|
    ensures WellPlaced(cfg, ops[..n]) && WellPlaced(cfg, ops[n..])
  {
  }

  lemma PlayLastIsIntact(cfg: Config, disk: Disk, ops: seq<Applied>)
    requires WellPlaced(cfg, ops) && FreshIDs(cfg, disk, ops) && ops != []
    ensures Intact(cfg, Play(cfg, disk, ops), ops[|ops| - 1])
  {
    var n := |ops| - 1;
    WellPlacedPrefix(cfg, ops, n);
    PlayKeepsFresh(cfg, disk, ops[..n], ops[n].id);
    AfterIsIntact(cfg, Play(cfg, disk, ops[..n]), ops[n]);
  }

  lemma {:induction false} PlayIsIntact(cfg: Config, disk: Disk, ops: seq<Applied>, i: nat)
    requires WellPlaced(cfg, ops) && FreshIDs(cfg, disk, ops) && i < |ops|
    ensures Intact(cfg, Play(cfg, disk, ops), ops[i])
  {
    var n := |ops| - 1;
    var init := ops[..n];
    WellPlacedPrefix(cfg, ops, n);
    if i < n {
      PlayIsIntact(cfg, disk, init, i);
      AfterKeepsIntact(cfg, Play(cfg, disk, init), ops[i], ops[n]);
    } else {
      PlayLastIsIntact(cfg, disk, ops);
    }
  }
}
