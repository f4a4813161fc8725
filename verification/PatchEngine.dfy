/** The patch engine and its tracker as the objects they are, acting on the disk. */
module PatchEngine {
  import opened Wrappers
  import opened Texts
  import opened Patch
  import opened UndoLog

  class Tracker {
    var changes: seq<FileChange>

    constructor ()
      ensures changes == []
    {
      changes := [];
    }

    method Record(change: FileChange)
      modifies this
      ensures changes == old(changes) + [change]
    {
      changes := changes + [change];
    }

    method Flush() returns (flushed: seq<FileChange>)
      modifies this
      ensures flushed == old(changes) && changes == []
    {
      flushed := changes;
      changes := [];
    }

    method GetPending() returns (pending: seq<FileChange>)
      ensures pending == changes
    {
      pending := changes;
    }
  }

  datatype Command = Command(filePath: string, diff: string, dryRun: bool)

  datatype ApplyResult = ApplyResult(patchID: string, success: bool, failedHunks: nat, backupPath: string)

  class Engine {
    const cfg: Config
    const tracker: Tracker
    const fails: nat -> bool   // which accesses to the disk fail
    var disk: Disk
    var accesses: nat

    constructor (cfg: Config, disk: Disk, fails: nat -> bool)
      ensures this.cfg == cfg && this.disk == disk && this.fails == fails
      ensures fresh(tracker) && tracker.changes == []
    {
      this.cfg, this.disk, this.fails, this.accesses := cfg, disk, fails, 0;
      this.tracker := new Tracker();
    }

    method Access() returns (ok: bool)
      modifies this`accesses
      ensures accesses == old(accesses) + 1 && (ok <==> !fails(old(accesses)))
    {
      ok := !fails(accesses);
      accesses := accesses + 1;
    }

    /** An access to the disk failed since then. */
    ghost predicate Failed(since: nat)
      reads this
    {
      SomeFail(fails, since, accesses)
    }

    /** Replace a file through its temporary sibling. A failure may leave the sibling behind
        or take it away, and changes nothing else. */
    method WriteFile(filePath: string, content: string) returns (ok: bool)
      modifies this`disk, this`accesses
      ensures old(accesses) <= accesses && (ok <==> !Failed(old(accesses)))
      ensures ok ==> disk == Store(old(disk), cfg.resolve(filePath), content)
      ensures ok ==>
        && disk.Keys == old(disk).Keys + {cfg.resolve(filePath)} - {cfg.resolve(filePath) + ".tmp"}
        && disk[cfg.resolve(filePath)] == content
        && forall p :: p in disk && p != cfg.resolve(filePath) ==> disk[p] == old(disk)[p]
      ensures !ok ==> forall p :: p != cfg.resolve(filePath) + ".tmp" ==>
        (p in disk <==> p in old(disk)) && Read(disk, p) == Read(old(disk), p)
    {
      var abs := cfg.resolve(filePath);
      var temp := abs + ".tmp";
      var partial: string := *;
      var written := Access();
      if !written {
        disk := disk[temp := partial];
        assert fails(accesses - 1);
        return false;
      }
      disk := disk[temp := content];
      var renamed := Access();
      if !renamed {
        disk := disk - {temp};
        assert fails(accesses - 1);
        return false;
      }
      assert abs != temp;
      disk := (disk - {temp})[abs := content];
      ok := true;
    }

    /** Write the backup and its metadata; losing the metadata is only warned about. A write
        that fails may leave part of the file behind. */
    method CreateBackup(id: string, stamp: string, filePath: string, content: string) returns (ok: bool, noted: bool)
      modifies this`disk, this`accesses
      ensures old(accesses) < accesses && (ok <==> !fails(old(accesses)))
      ensures (ok ==> (noted <==> !Failed(old(accesses)))) && (!ok ==> !noted)
      ensures ok && noted ==> disk == WithBackup(cfg, old(disk), id, stamp, filePath, content)
      ensures ok && noted ==>
        var backup := cfg.dir + "/" + (id + "_" + stamp + "_" + cfg.basename(filePath) + ".bak");
        && backup in disk && disk[backup] == content
        && backup + ".meta" in disk
        && disk[backup + ".meta"] ==
             "patch_id: " + id + "\n" + ("file_path: " + filePath + "\n" + ("timestamp: " + stamp + "\n"))
      ensures var backup := BackupPath(cfg, id, stamp, filePath);
        && (ok ==> backup in disk && disk[backup] == content)
        && forall p :: p != backup && (p != backup + ".meta" || !ok) ==>
          (p in disk <==> p in old(disk)) && Read(disk, p) == Read(old(disk), p)
    {
      var backup := BackupPath(cfg, id, stamp, filePath);
      var partial: string, left: bool := *, *;
      ok := Access();
      noted := false;
      assert |backup + ".meta"| != |backup|;
      if ok {
        disk := disk[backup := content];
        noted := Access();
        assert !noted ==> fails(accesses - 1);
        if noted {
          disk := disk[backup + ".meta" := Metadata(id, filePath, stamp)];
        } else if left {
          disk := disk[backup + ".meta" := partial];
        }
      } else if left {
        disk := disk[backup := partial];
      }
    }

    method CountFailed(results: seq<bool>) returns (failed: nat)
      ensures failed == multiset(results)[false] && (failed == 0 <==> false !in results)
    {
      failed := 0;
      for i := 0 to |results|
        invariant failed == multiset(results[..i])[false]
      {
        assert results[..i + 1] == results[..i] + [results[i]];
        if !results[i] {
          failed := failed + 1;
        }
      }
      assert results[..|results|] == results;
    }

    /** Apply with backup. It succeeds exactly if every hunk fits. A change is recorded exactly
        when the file was written, with what the diff makes of it; then the disk is the undo
        log's next disk, provided the backup's metadata made it to disk. A dry run touches
        nothing, and a failed apply does not touch the file. */
    method Apply(cmd: Command, id: string, stamp: string)
      returns (r: Result<ApplyResult, string>, noted: bool, ghost done: Applied)
      modifies this, tracker
      ensures r.Ok? ==>
        && cfg.parse(cmd.diff).Some?
        && var fits := cfg.patch(cfg.parse(cmd.diff).value, Read(old(disk), cfg.resolve(cmd.filePath))).1;
        && (r.value.success <==> false !in fits) && r.value.failedHunks == multiset(fits)[false]
        && (r.value.success <==> r.value.failedHunks == 0)
        && r.value.patchID == id
        && r.value.backupPath ==
             if cmd.dryRun then "" else cfg.dir + "/" + (id + "_" + stamp + "_" + cfg.basename(cmd.filePath) + ".bak")
      ensures old(accesses) <= accesses && (!noted ==> Failed(old(accesses)))
      ensures !cfg.allowed(cmd.filePath) || cfg.parse(cmd.diff).None? ==> r.Err?
      ensures r.Err? ==> !cfg.allowed(cmd.filePath) || cfg.parse(cmd.diff).None? || Failed(old(accesses))
      ensures !cfg.allowed(cmd.filePath) || cmd.dryRun ==> disk == old(disk)
      ensures var wrote := r.Ok? && r.value.success && !cmd.dryRun;
        && (wrote <==> tracker.changes != old(tracker.changes))
        && (wrote ==>
              && done.id == id && done.stamp == stamp && done.path == cmd.filePath
              && done.before == Read(old(disk), cfg.resolve(cmd.filePath))
              && cfg.parse(cmd.diff).Some? && done.after == cfg.patch(cfg.parse(cmd.diff).value, done.before).0
              && false !in cfg.patch(cfg.parse(cmd.diff).value, done.before).1
              && tracker.changes == old(tracker.changes) + [FileChange(id, cmd.filePath, r.value.backupPath,
                   if done.before == "" then "create" else "modify")]
              && tracker.changes == old(tracker.changes) + [Recorded(cfg, done)]
              && Read(disk, cfg.resolve(cmd.filePath)) == done.after
              && (noted ==> disk == After(cfg, old(disk), done)))
        && (!wrote ==>
              forall p :: p !in Scratch(cfg, id, stamp, cmd.filePath) ==> Read(disk, p) == Read(old(disk), p))
    {
      done, noted := Applied("", "", "", "", ""), true;
      if !cfg.allowed(cmd.filePath) {
        return Err("invalid file path"), noted, done;
      }
      var abs := cfg.resolve(cmd.filePath);
      if abs in disk {
        var readable := Access();
        if !readable {
          return Err("failed to read file"), noted, done;
        }
      }
      var content := if abs in disk then disk[abs] else "";
      var backup := "";
      if !cmd.dryRun {
        var ok;
        ok, noted := CreateBackup(id, stamp, cmd.filePath, content);
        if !ok {
          return Err("failed to create backup"), noted, done;
        }
        backup := BackupPath(cfg, id, stamp, cmd.filePath);
      }
      var diff := cfg.parse(cmd.diff);
      if diff.None? {
        return Err("failed to parse diff"), noted, done;
      }
      var (text, results) := cfg.patch(diff.value, content);
      var failed := CountFailed(results);
      if !cmd.dryRun && failed == 0 {
        var ok := WriteFile(cmd.filePath, text);
        if !ok {
          return Err("failed to write file"), noted, done;
        }
        done := Applied(id, cmd.filePath, stamp, content, text);
        tracker.Record(FileChange(id, cmd.filePath, backup, if content == "" then "create" else "modify"));
      }
      r := Ok(ApplyResult(id, failed == 0, failed, backup));
    }

    method DryRun(cmd: Command, id: string, stamp: string) returns (r: Result<ApplyResult, string>)
      modifies this, tracker
      ensures old(accesses) <= accesses
      ensures r.Err? ==> !cfg.allowed(cmd.filePath) || cfg.parse(cmd.diff).None? || Failed(old(accesses))
      ensures disk == old(disk) && tracker.changes == old(tracker.changes)
      ensures r.Ok? ==>
        && cfg.parse(cmd.diff).Some?
        && var fits := cfg.patch(cfg.parse(cmd.diff).value, Read(disk, cfg.resolve(cmd.filePath))).1;
        && (r.value.success <==> false !in fits) && r.value.failedHunks == multiset(fits)[false]
        && (r.value.success <==> r.value.failedHunks == 0)
    {
      var noted;
      ghost var done;
      r, noted, done := Apply(cmd.(dryRun := true), id, stamp);
    }

    /** The path named by a backup's metadata. */
    method ParsePath(metadata: string) returns (path: string)
      ensures path == PathOf(metadata)
    {
      var lines := Split(metadata, '\n');
      path := "";
      for i := 0 to |lines|
        invariant PathIn(lines) == PathIn(lines[i..]) && path == ""
      {
        assert lines[i..][1..] == lines[i + 1..];
        if HasPrefix(lines[i], FILE_PATH) {
          return TrimPrefix(lines[i], FILE_PATH);
        }
      }
      assert lines[|lines|..] == [];
    }

    /** The fields named by a backup's metadata; a later line overrides an earlier one. */
    method ParseInfo(metadata: string) returns (info: BackupInfo)
      ensures info == InfoIn(Split(metadata, '\n'))
    {
      var lines := Split(metadata, '\n');
      info := BackupInfo("", "", "");
      for i := 0 to |lines|
        invariant info == InfoIn(lines[..i])
      {
        assert lines[..i + 1][..i] == lines[..i];
        var field := KeyValue(lines[i]);
        if field.Some? {
          var (key, value) := field.value;
          if key == "patch_id" {
            info := info.(patchID := value);
          } else if key == "file_path" {
            info := info.(filePath := value);
          } else if key == "timestamp" {
            info := info.(timestamp := value);
          }
        }
      }
      assert lines[..|lines|] == lines;
    }

    /** What a backup's metadata say, unless there are none or they cannot be read. */
    method ReadInfo(backup: string) returns (info: Option<BackupInfo>)
      modifies this`accesses
      ensures old(accesses) <= accesses
      ensures info.Some? ==> Describes(disk, backup, info.value)
      ensures info.None? && backup + ".meta" in disk ==> Failed(old(accesses))
    {
      info := None;
      if backup + ".meta" in disk {
        SomeFailOnce(fails, accesses);
        var readable := Access();
        if readable {
          var parsed := ParseInfo(disk[backup + ".meta"]);
          info := Some(parsed);
        }
      }
    }

    /** All backups with readable metadata. Every intact backup of an apply whose metadata can
        be read is listed with the id, the path and the time of that apply. */
    method ListBackups(ghost a: Applied) returns (list: map<string, BackupInfo>, ghost skipped: set<string>)
      modifies this`accesses
      ensures old(accesses) <= accesses
      ensures (exists p :: p in skipped && p + ".meta" in disk) ==> Failed(old(accesses))
      ensures forall p :: p in list ==> p in disk && IsBackup(cfg, p) && Describes(disk, p, list[p])
      ensures forall p :: p in disk && IsBackup(cfg, p) && p + ".meta" in disk ==> p in list || p in skipped
      ensures Sane(cfg, a) && Intact(cfg, disk, a) && BackupOf(cfg, a) !in skipped ==>
        BackupOf(cfg, a) in list && list[BackupOf(cfg, a)] == BackupInfo(a.id, a.path, a.stamp)
    {
      list, skipped := map[], {};
      var matches := set p | p in disk && IsBackup(cfg, p);
      var left := matches;
      while left != {}
        invariant left <= matches && old(accesses) <= accesses
        invariant (exists p :: p in skipped && p + ".meta" in disk) ==> Failed(old(accesses))
        invariant forall p :: p in list ==> p in matches && Describes(disk, p, list[p])
        invariant forall p :: p in matches - left && p + ".meta" in disk ==> p in list || p in skipped
        decreases left
      {
        var p :| p in left;
        ghost var tried := accesses;
        var info := ReadInfo(p);
        SomeFailJoin(fails, old(accesses), tried, accesses);
        if info.Some? {
          list := list[p := info.value];
        } else {
          skipped := skipped + {p};
        }
        left := left - {p};
      }
      if Sane(cfg, a) && Intact(cfg, disk, a) && BackupOf(cfg, a) !in skipped {
        IntactIsReadable(cfg, disk, a);
      }
    }

    /** This backup of the patch was written back to the file that its metadata names. */
    ghost predicate RestoredFrom(before: Disk, id: string, backup: string, after: Disk) {
      && backup in Backups(cfg, before, id) && backup + ".meta" in before && PathOf(before[backup + ".meta"]) != ""
      && after == Store(before, cfg.resolve(PathOf(before[backup + ".meta"])), before[backup])
    }

    predicate NamesNoPath(before: Disk, backup: string) {
      backup + ".meta" !in before || PathOf(before[backup + ".meta"]) == ""
    }

    /** Restore the backup found under a patch id. With an intact backup, success means that
        exactly its file got its old content back. */
    method Rollback(id: string, ghost a: Applied) returns (ok: bool)
      modifies this`disk, this`accesses
      ensures old(accesses) <= accesses
      ensures !ok && a.id == id && Sane(cfg, a) && Intact(cfg, old(disk), a) ==> Failed(old(accesses))
      ensures ok && a.id == id && Sane(cfg, a) && Intact(cfg, old(disk), a) ==>
        disk == Store(old(disk), Target(cfg, a), a.before)
      ensures ok ==> exists backup :: RestoredFrom(old(disk), id, backup, disk)
      ensures !ok ==>
        || Failed(old(accesses)) || Backups(cfg, old(disk), id) == {}
        || exists backup :: backup in Backups(cfg, old(disk), id) && NamesNoPath(old(disk), backup)
      ensures !ok && a.id == id && Sane(cfg, a) && Intact(cfg, old(disk), a) ==>
        forall p :: p != Target(cfg, a) + ".tmp" ==> Read(disk, p) == Read(old(disk), p)
    {
      var matches := Backups(cfg, disk, id);
      if matches == {} {
        return false;
      }
      var backup :| backup in matches;
      if backup + ".meta" !in disk {
        assert NamesNoPath(old(disk), backup);
        return false;
      }
      var readable := Access();
      if !readable {
        assert fails(accesses - 1);
        return false;
      }
      var filePath := ParsePath(disk[backup + ".meta"]);
      if a.id == id && Sane(cfg, a) && Intact(cfg, disk, a) {
        MetadataNamesPath(a.id, a.path, a.stamp);
      }
      if filePath == "" {
        assert NamesNoPath(old(disk), backup);
        return false;
      }
      ok := WriteFile(filePath, disk[backup]);
      assert ok ==> RestoredFrom(old(disk), id, backup, disk);
    }
  }

  /** This is what the metadata of a backup say. */
  predicate Describes(disk: Disk, backup: string, info: BackupInfo) {
    backup + ".meta" in disk && info == InfoIn(Split(disk[backup + ".meta"], '\n'))
  }

  lemma IntactIsReadable(cfg: Config, disk: Disk, a: Applied)
    requires Sane(cfg, a) && Intact(cfg, disk, a)
    ensures var backup := BackupOf(cfg, a);
      && backup in disk && IsBackup(cfg, backup) && backup + ".meta" in disk
      && InfoIn(Split(disk[backup + ".meta"], '\n')) == BackupInfo(a.id, a.path, a.stamp)
  {
    OwnBackupMatches(cfg, a);
    MatchIsBackup(cfg, a.id, BackupOf(cfg, a));
    MetadataRoundTrip(a.id, a.path, a.stamp);
    assert BackupOf(cfg, a) in Backups(cfg, disk, a.id);
  }

  /** The files an apply may leave behind without having changed its target. */
  function Scratch(cfg: Config, id: string, stamp: string, path: string): set<string> {
    {BackupPath(cfg, id, stamp, path), BackupPath(cfg, id, stamp, path) + ".meta", cfg.resolve(path) + ".tmp"}
  }

  /** The records these applies leave, in order. */
  function Records(cfg: Config, ops: seq<Applied>): (records: seq<FileChange>)
    ensures |records| == |ops|
    ensures forall i :: 0 <= i < |ops| ==> records[i] == Recorded(cfg, ops[i])
  {
    seq(|ops|, i requires 0 <= i < |ops| => Recorded(cfg, ops[i]))
  }

  /** The record an apply leaves with the tracker. */
  function Recorded(cfg: Config, a: Applied): FileChange {
    FileChange(a.id, a.path, BackupOf(cfg, a), if a.before == "" then "create" else "modify")
  }
}
