/** The patch engine: apply with backup, roll back, and the tracker of file changes.

    The disk is a map from absolute path to content. Path resolution, diff parsing and
    diff application are library functions, given by the configuration. */
module Patch {
  import opened Wrappers
  import opened Texts

  type Disk = map<string, string>

  datatype Diff = Diff(handle: int)

  /** `dir` is the backup directory, already joined to the work directory. */
  datatype Config = Config(
    dir: string,
    resolve: string -> string,                        // absolute path of a file
    basename: string -> string,
    allowed: string -> bool,                          // validatePath
    parse: string -> Option<Diff>,                    // PatchFromText
    patch: (Diff, string) -> (string, seq<bool>))     // PatchApply

  datatype FileChange = FileChange(patchID: string, filePath: string, backupPath: string, operation: string)

  /** A successful apply: what it did and the content it replaced. */
  datatype Applied = Applied(id: string, path: string, stamp: string, before: string, after: string)

  // ---------------------------------------------------------------------------
  // Files
  // ---------------------------------------------------------------------------

  /** An absent file reads as empty. */
  function Read(disk: Disk, path: string): string {
    if path in disk then disk[path] else ""
  }

  /** Write through a temporary file and a rename: the temporary file is gone afterwards. */
  function Store(disk: Disk, path: string, content: string): Disk {
    (disk - {path + ".tmp"})[path := content]
  }

  function BackupName(cfg: Config, id: string, stamp: string, path: string): string {
    id + "_" + stamp + "_" + cfg.basename(path) + ".bak"
  }

  function BackupPath(cfg: Config, id: string, stamp: string, path: string): string {
    cfg.dir + "/" + BackupName(cfg, id, stamp, path)
  }

  function Line(key: string, value: string): string {
    key + ": " + value
  }

  function Metadata(id: string, path: string, stamp: string): string {
    Line("patch_id", id) + "\n" + (Line("file_path", path) + "\n" + (Line("timestamp", stamp) + "\n"))
  }

  function WithBackup(cfg: Config, disk: Disk, id: string, stamp: string, path: string, content: string): Disk {
    var backup := BackupPath(cfg, id, stamp, path);
    disk[backup := content][backup + ".meta" := Metadata(id, path, stamp)]
  }

  function Target(cfg: Config, a: Applied): string {
    cfg.resolve(a.path)
  }

  /** The disk after a successful apply. */
  function After(cfg: Config, disk: Disk, a: Applied): Disk {
    Store(WithBackup(cfg, disk, a.id, a.stamp, a.path, a.before), Target(cfg, a), a.after)
  }

  // ---------------------------------------------------------------------------
  // Finding a backup and reading its metadata
  // ---------------------------------------------------------------------------

  /** `path` matches the pattern `dir/id_*.bak`; the star does not match a slash. */
  predicate Matches(cfg: Config, id: string, path: string) {
    && HasPrefix(path, cfg.dir + "/" + id + "_")
    && HasSuffix(path[|cfg.dir| + 1 + |id| + 1..], ".bak")
    && '/' !in path[|cfg.dir| + 1 + |id| + 1..]
  }

  function Backups(cfg: Config, disk: Disk, id: string): set<string> {
    set path | path in disk && Matches(cfg, id, path)
  }

  /** A file is taken for a backup of a patch if it lies directly in the backup directory and is
      named after the patch. */
  lemma MatchesIff(cfg: Config, id: string, path: string)
    ensures Matches(cfg, id, path) <==> exists star :: '/' !in star && path == cfg.dir + "/" + id + "_" + star + ".bak"
  {
    var head := cfg.dir + "/" + id + "_";
    if Matches(cfg, id, path) {
      var tail := path[|head|..];
      var star := tail[..|tail| - 4];
      assert tail == star + ".bak" && path == head + tail;
      assert path == cfg.dir + "/" + id + "_" + star + ".bak";
    }
    forall star | '/' !in star && path == cfg.dir + "/" + id + "_" + star + ".bak" ensures Matches(cfg, id, path) {
      assert path[..|head|] == head && path[|head|..] == star + ".bak";
    }
  }

  const FILE_PATH := "file_path: "

  /** The path named by the first `file_path: ` line, or "" when there is none. */
  function PathIn(lines: seq<string>): string {
    if lines == [] then ""
    else if HasPrefix(lines[0], FILE_PATH) then TrimPrefix(lines[0], FILE_PATH)
    else PathIn(lines[1..])
  }

  function PathOf(metadata: string): string {
    PathIn(Split(metadata, '\n'))
  }

  lemma MetadataLines(id: string, path: string, stamp: string)
    requires '\n' !in id && '\n' !in path && '\n' !in stamp
    ensures Split(Metadata(id, path, stamp), '\n') ==
      [Line("patch_id", id), Line("file_path", path), Line("timestamp", stamp), ""]
  {
    var l1, l2, l3 := Line("patch_id", id), Line("file_path", path), Line("timestamp", stamp);
    ThreeLines(l1, l2, l3);
    assert [l1] + ([l2] + [l3, ""]) == [l1, l2, l3, ""];
  }

  /** Rollback reads back the path the backup was made for. */
  lemma MetadataNamesPath(id: string, path: string, stamp: string)
    requires '\n' !in id && '\n' !in path && '\n' !in stamp
    ensures PathOf(Metadata(id, path, stamp)) == path
  {
    MetadataLines(id, path, stamp);
    var lines := Split(Metadata(id, path, stamp), '\n');
    assert lines[0][0] == 'p' && FILE_PATH[0] == 'f';
    assert PathIn(lines) == PathIn(lines[1..]);
    assert "file_path" + ": " == FILE_PATH && lines[1..][0] == FILE_PATH + path;
  }

  /** The path is what follows `file_path: ` on the first line that starts so. */
  lemma {:induction false} PathReads(lines: seq<string>, i: nat)
    requires i <= |lines| && forall k :: 0 <= k < i ==> !("file_path: " <= lines[k])
    requires i < |lines| ==> "file_path: " <= lines[i]
    ensures PathIn(lines) == if i < |lines| then lines[i][|"file_path: "|..] else ""
  {
    if i > 0 {
      PathReads(lines[1..], i - 1);
    }
  }

  datatype BackupInfo = BackupInfo(patchID: string, filePath: string, timestamp: string)

  function NoteLine(info: BackupInfo, line: string): BackupInfo {
    match KeyValue(line)
    case None => info
    case Some((key, value)) =>
      if key == "patch_id" then info.(patchID := value)
      else if key == "file_path" then info.(filePath := value)
      else if key == "timestamp" then info.(timestamp := value)
      else info
  }

  function InfoIn(lines: seq<string>): BackupInfo {
    if lines == [] then BackupInfo("", "", "")
    else NoteLine(InfoIn(lines[..|lines| - 1]), lines[|lines| - 1])
  }

  lemma InfoNotes(lines: seq<string>, line: string)
    ensures InfoIn(lines + [line]) == NoteLine(InfoIn(lines), line)
  {
    assert (lines + [line])[..|lines|] == lines;
  }

  lemma ThreeNotes(a: string, b: string, c: string)
    ensures InfoIn([a, b, c, ""]) == NoteLine(NoteLine(NoteLine(BackupInfo("", "", ""), a), b), c)
  {
    InfoNotes([], a);
    InfoNotes([a], b);
    InfoNotes([a, b], c);
    InfoNotes([a, b, c], "");
    assert [] + [a] == [a] && [a] + [b] == [a, b] && [a, b] + [c] == [a, b, c];
    assert [a, b, c] + [""] == [a, b, c, ""] && KeyValue("") == None;
  }

  lemma NoteField(info: BackupInfo, key: string, value: string)
    requires ':' !in key
    ensures NoteLine(info, Line(key, value)) ==
      if key == "patch_id" then info.(patchID := value)
      else if key == "file_path" then info.(filePath := value)
      else if key == "timestamp" then info.(timestamp := value)
      else info
  {
    KeyValueRoundTrip(key, value);
  }

  lemma KeyValueReads(line: string, key: string)
    requires ':' !in key
    ensures KeyValue(line).Some? && KeyValue(line).value.0 == key ==> key + ": " <= line
    ensures key + ": " <= line ==> KeyValue(line) == Some((key, line[|key| + 2..]))
  {
    if key + ": " <= line {
      KeyValueRoundTrip(key, line[|key| + 2..]);
      assert line == key + ": " + line[|key| + 2..];
    }
    var i := IndexOfColon(line);
    if i < |line| && line[..i] == key {
      assert line[..i + 2] == key + ": ";
    }
  }

  /** A listed field is what follows its key on the last line that starts with the key. */
  lemma {:induction false} FieldReads(lines: seq<string>, i: nat, key: string)
    requires key in {"patch_id", "file_path", "timestamp"}
    requires i <= |lines| && (i > 0 ==> key + ": " <= lines[i - 1])
    requires forall k :: i <= k < |lines| ==> !(key + ": " <= lines[k])
    ensures var info, value := InfoIn(lines), if i > 0 then lines[i - 1][|key| + 2..] else "";
      && (key == "patch_id" ==> info.patchID == value)
      && (key == "file_path" ==> info.filePath == value)
      && (key == "timestamp" ==> info.timestamp == value)
  {
    if lines != [] {
      KeyValueReads(lines[|lines| - 1], key);
      if i < |lines| {
        FieldReads(lines[..|lines| - 1], i, key);
      }
    }
  }

  /** The listing reads back all three fields, even when a path contains ": ". */
  lemma MetadataRoundTrip(id: string, path: string, stamp: string)
    requires '\n' !in id && '\n' !in path && '\n' !in stamp
    ensures InfoIn(Split(Metadata(id, path, stamp), '\n')) == BackupInfo(id, path, stamp)
  {
    MetadataLines(id, path, stamp);
    ThreeNotes(Line("patch_id", id), Line("file_path", path), Line("timestamp", stamp));
    NoteField(BackupInfo("", "", ""), "patch_id", id);
    NoteField(BackupInfo(id, "", ""), "file_path", path);
    NoteField(BackupInfo(id, path, ""), "timestamp", stamp);
  }

  // ---------------------------------------------------------------------------
  // Backups stay findable
  // ---------------------------------------------------------------------------

  predicate InDir(cfg: Config, path: string) {
    HasPrefix(path, cfg.dir + "/")
  }

  /** Single-line names, a file name without a slash, and a target outside the backups. */
  predicate Sane(cfg: Config, a: Applied) {
    && '\n' !in a.id && '\n' !in a.path && '\n' !in a.stamp && a.path != ""
    && '/' !in a.id && '/' !in a.stamp && '/' !in cfg.basename(a.path)
    && !InDir(cfg, Target(cfg, a))
  }

  function BackupOf(cfg: Config, a: Applied): string {
    BackupPath(cfg, a.id, a.stamp, a.path)
  }

  /** The backup of an apply is there, complete, and the only one found under its id. */
  predicate Intact(cfg: Config, disk: Disk, a: Applied) {
    var backup := BackupOf(cfg, a);
    && Backups(cfg, disk, a.id) == {backup}
    && disk[backup] == a.before
    && backup + ".meta" in disk && disk[backup + ".meta"] == Metadata(a.id, a.path, a.stamp)
  }

  lemma HeadAndTail(head: string, name: string)
    requires '/' !in name
    ensures var path := head + (name + ".bak");
      HasPrefix(path, head) && path[|head|..] == name + ".bak" && HasSuffix(name + ".bak", ".bak") && '/' !in name + ".bak"
  {
    assert forall c :: c in name + ".bak" ==> c in name || c in ".bak";
  }

  lemma OwnBackupMatches(cfg: Config, a: Applied)
    requires Sane(cfg, a)
    ensures Matches(cfg, a.id, BackupOf(cfg, a))
    ensures InDir(cfg, BackupOf(cfg, a)) && InDir(cfg, BackupOf(cfg, a) + ".meta")
  {
    var path, head := BackupOf(cfg, a), cfg.dir + "/" + a.id + "_";
    var name := a.stamp + "_" + cfg.basename(a.path);
    assert path == head + (name + ".bak");
    HeadAndTail(head, name);
    assert head[..|cfg.dir| + 1] == cfg.dir + "/" == path[..|cfg.dir| + 1];
    assert path[|cfg.dir| + 1 + |a.id| + 1..] == name + ".bak";
  }

  lemma MatchSays(cfg: Config, id: string, path: string)
    requires Matches(cfg, id, path)
    ensures var d := cfg.dir + "/";
      |path| >= |d| + |id| + 5 && path[..|d|] == d && path[|d|..|d| + |id|] == id && path[|path| - 1] == 'k'
  {
    var d := cfg.dir + "/";
    var rest := path[|d| + |id| + 1..];
    assert path[..|d| + |id| + 1] == d + id + "_";
    assert path[..|d|] == (d + id + "_")[..|d|];
    assert path[|d|..|d| + |id|] == (d + id + "_")[|d|..|d| + |id|];
    assert path[|path| - 1] == rest[|rest| - 1] == rest[|rest| - 4..][3];
  }

  /** A file that the pattern `*.bak` in the backup directory matches. */
  predicate IsBackup(cfg: Config, path: string) {
    var d := cfg.dir + "/";
    HasPrefix(path, d) && HasSuffix(path[|d|..], ".bak") && '/' !in path[|d|..]
  }

  lemma MatchIsBackup(cfg: Config, id: string, path: string)
    requires Matches(cfg, id, path) && '/' !in id
    ensures IsBackup(cfg, path)
  {
    var d := cfg.dir + "/";
    MatchSays(cfg, id, path);
    var name, rest := path[|d|..], path[|d| + |id| + 1..];
    assert path[..|d| + |id| + 1] == d + id + "_";
    assert name[..|id| + 1] == id + "_" && name[|id| + 1..] == rest;
    assert name == id + "_" + rest;
    assert name[|name| - 4..] == rest[|rest| - 4..];
  }

  lemma MetaNeverMatches(cfg: Config, id: string, path: string)
    ensures !Matches(cfg, id, path + ".meta")
  {
    var full := path + ".meta";
    assert full[|full| - 1] == 'a';
    if Matches(cfg, id, full) {
      MatchSays(cfg, id, full);
    }
  }

  lemma OtherBackupDiffers(cfg: Config, id: string, b: Applied)
    requires |id| == |b.id| && id != b.id
    ensures !Matches(cfg, id, BackupOf(cfg, b))
  {
    var path, d := BackupOf(cfg, b), cfg.dir + "/";
    assert path == d + b.id + ("_" + b.stamp + "_" + cfg.basename(b.path) + ".bak");
    assert path[|d|..|d| + |id|] == b.id;
    if Matches(cfg, id, path) {
      MatchSays(cfg, id, path);
    }
  }

  lemma OutsideNeverMatches(cfg: Config, id: string, path: string)
    requires !InDir(cfg, path)
    ensures !Matches(cfg, id, path) && !InDir(cfg, path + ".tmp")
  {
    if InDir(cfg, path + ".tmp") {
      PrefixEndsAtSlash(cfg.dir, path, ".tmp");
    }
    if Matches(cfg, id, path) {
      MatchSays(cfg, id, path);
    }
  }

  lemma StoreKeepsIntact(cfg: Config, disk: Disk, a: Applied, path: string, content: string)
    requires Intact(cfg, disk, a) && Sane(cfg, a) && !InDir(cfg, path)
    ensures Intact(cfg, Store(disk, path, content), a)
  {
    OwnBackupMatches(cfg, a);
    OutsideNeverMatches(cfg, a.id, path);
  }

  lemma BackupKeepsIntact(cfg: Config, disk: Disk, a: Applied, b: Applied)
    requires Intact(cfg, disk, a) && |a.id| == |b.id| && a.id != b.id
    ensures Intact(cfg, WithBackup(cfg, disk, b.id, b.stamp, b.path, b.before), a)
  {
    var next := WithBackup(cfg, disk, b.id, b.stamp, b.path, b.before);
    var mine, other := BackupOf(cfg, a), BackupOf(cfg, b);
    OtherBackupDiffers(cfg, a.id, b);
    MetaNeverMatches(cfg, a.id, other);
    assert mine in Backups(cfg, disk, a.id);
    assert Backups(cfg, next, a.id) == Backups(cfg, disk, a.id);
    if mine + ".meta" == other + ".meta" {
      CancelSuffix(mine, other, ".meta");
    }
    MetaNeverMatches(cfg, b.id, mine);
    assert mine + ".meta" != other;
  }

  lemma AfterIsIntact(cfg: Config, disk: Disk, a: Applied)
    requires Sane(cfg, a) && Backups(cfg, disk, a.id) == {}
    ensures Intact(cfg, After(cfg, disk, a), a)
  {
    var next := WithBackup(cfg, disk, a.id, a.stamp, a.path, a.before);
    var mine := BackupOf(cfg, a);
    OwnBackupMatches(cfg, a);
    MetaNeverMatches(cfg, a.id, mine);
    forall p | p in next && Matches(cfg, a.id, p) ensures p == mine {
      assert p in disk ==> p in Backups(cfg, disk, a.id);
    }
    assert Backups(cfg, next, a.id) == {mine};
    assert |mine + ".meta"| != |mine|;
    StoreKeepsIntact(cfg, next, a, Target(cfg, a), a.after);
  }
}
