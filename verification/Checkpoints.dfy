/** Checkpoint files: their names, the order of listing, and finding the latest. */
module Checkpoints {
  import opened Wrappers
  import opened Texts
  import opened Accounts

  /** A checkpoint with its timestamp. */
  datatype Checkpoint = Checkpoint(nanos: nat, saved: Saved)

  // ---------------------------------------------------------------------------
  // Byte-wise string order
  // ---------------------------------------------------------------------------

  predicate Less(a: string, b: string) {
    b != "" && (a == "" || a[0] < b[0] || (a[0] == b[0] && Less(a[1..], b[1..])))
  }

  lemma {:induction false} LessTotal(a: string, b: string)
    ensures Less(a, b) || a == b || Less(b, a)
    ensures !(Less(a, b) && Less(b, a)) && !Less(a, a)
  {
    if a != "" {
      LessTotal(a[1..], if b == "" then "" else b[1..]);
      LessTotal(a[1..], a[1..]);
      if b != "" && a[0] == b[0] && a[1..] == b[1..] {
        assert a == [a[0]] + a[1..] && b == [b[0]] + b[1..];
      }
    }
  }

  lemma {:induction false} LessTransitive(a: string, b: string, c: string)
    requires Less(a, b) && Less(b, c)
    ensures Less(a, c)
  {
    if a != "" && a[0] == b[0] && b[0] == c[0] {
      LessTransitive(a[1..], b[1..], c[1..]);
    }
  }

  /** Heads of equal length decide, and if they are equal the tails do. */
  lemma {:induction false} LessByParts(a: string, b: string, tail: string, tail': string)
    requires |a| == |b|
    ensures Less(a + tail, b + tail') <==> Less(a, b) || (a == b && Less(tail, tail'))
  {
    if a == "" {
      assert a + tail == tail && b + tail' == tail';
    } else {
      assert (a + tail)[1..] == a[1..] + tail && (b + tail')[1..] == b[1..] + tail';
      LessByParts(a[1..], b[1..], tail, tail');
      assert a == [a[0]] + a[1..] && b == [b[0]] + b[1..];
    }
  }

  // ---------------------------------------------------------------------------
  // File names
  // ---------------------------------------------------------------------------

  function Digit(d: nat): char
    requires d < 10
  {
    "0123456789"[d]
  }

  function Decimal(n: nat): (s: string)
    ensures |s| > 0
  {
    if n < 10 then [Digit(n)] else Decimal(n / 10) + [Digit(n % 10)]
  }

  function FileName(c: Checkpoint): string {
    Decimal(c.nanos) + "_" + c.saved.id + ".json"
  }

  lemma DigitOrder(a: nat, b: nat)
    requires a < 10 && b < 10
    ensures (Digit(a) < Digit(b) <==> a < b) && (Digit(a) == Digit(b) <==> a == b)
  {
  }

  /** Among numerals of one length, string order is numeric order. */
  lemma {:induction false} DecimalOrder(a: nat, b: nat)
    requires |Decimal(a)| == |Decimal(b)|
    ensures Less(Decimal(a), Decimal(b)) <==> a < b
    ensures Decimal(a) == Decimal(b) <==> a == b
  {
    DigitOrder(a % 10, b % 10);
    if a >= 10 {
      DecimalOrder(a / 10, b / 10);
      LessByParts(Decimal(a / 10), Decimal(b / 10), [Digit(a % 10)], [Digit(b % 10)]);
      assert Decimal(a)[..|Decimal(a)| - 1] == Decimal(a / 10) && Decimal(b)[..|Decimal(b)| - 1] == Decimal(b / 10);
    }
  }

  predicate Digits(s: string) {
    forall i :: 0 <= i < |s| ==> '0' <= s[i] <= '9'
  }

  /** The number a string of digits stands for. */
  function NumberIn(digits: string): nat
    requires Digits(digits)
  {
    if digits == "" then 0
    else NumberIn(digits[..|digits| - 1]) * 10 + (digits[|digits| - 1] as int - '0' as int)
  }

  lemma DigitReads(d: nat)
    requires d < 10
    ensures '0' <= Digit(d) <= '9' && Digit(d) as int - '0' as int == d
  {
  }

  lemma NumberOneMore(digits: string, d: nat)
    requires Digits(digits) && d < 10
    ensures Digits(digits + [Digit(d)]) && NumberIn(digits + [Digit(d)]) == NumberIn(digits) * 10 + d
  {
    DigitReads(d);
    var all := digits + [Digit(d)];
    assert all[..|all| - 1] == digits;
  }

  lemma {:induction false} DecimalReads(n: nat)
    ensures Digits(Decimal(n)) && NumberIn(Decimal(n)) == n && (n > 0 ==> Decimal(n)[0] != '0')
  {
    if n < 10 {
      NumberOneMore("", n);
      DigitReads(n);
      assert "" + [Digit(n)] == Decimal(n);
    } else {
      DecimalReads(n / 10);
      NumberOneMore(Decimal(n / 10), n % 10);
    }
  }

  /** The name of a checkpoint file: its time in nanoseconds, in digits, and its id. */
  lemma NameReads(c: Checkpoint) returns (digits: string)
    ensures FileName(c) == digits + "_" + c.saved.id + ".json"
    ensures Digits(digits) && NumberIn(digits) == c.nanos && (c.nanos > 0 ==> digits != "" && digits[0] != '0')
  {
    digits := Decimal(c.nanos);
    DecimalReads(c.nanos);
  }

  predicate Earlier(a: Checkpoint, b: Checkpoint) {
    a.nanos < b.nanos || (a.nanos == b.nanos && Less(a.saved.id, b.saved.id))
  }

  /** Timestamps with equally many digits, ids of one length. */
  predicate Comparable(a: Checkpoint, b: Checkpoint) {
    |Decimal(a.nanos)| == |Decimal(b.nanos)| && |a.saved.id| == |b.saved.id|
  }

  lemma NameLess(a: Checkpoint, b: Checkpoint)
    requires Comparable(a, b)
    ensures Less(FileName(a), FileName(b)) <==> Earlier(a, b)
  {
    var ta, tb := "_" + a.saved.id, "_" + b.saved.id;
    assert FileName(a) == Decimal(a.nanos) + (ta + ".json") && FileName(b) == Decimal(b.nanos) + (tb + ".json");
    DecimalOrder(a.nanos, b.nanos);
    LessByParts(Decimal(a.nanos), Decimal(b.nanos), ta + ".json", tb + ".json");
    LessByParts(ta, tb, ".json", ".json");
    LessByParts("_", "_", a.saved.id, b.saved.id);
    LessTotal(".json", ".json");
    LessTotal("_", "_");
  }

  /** File name order is order in time, then id. */
  lemma NameOrder(a: Checkpoint, b: Checkpoint)
    requires Comparable(a, b)
    ensures Less(FileName(a), FileName(b)) <==> Earlier(a, b)
    ensures FileName(a) == FileName(b) <==> a.nanos == b.nanos && a.saved.id == b.saved.id
  {
    NameLess(a, b);
    NameLess(b, a);
    LessTotal(FileName(a), FileName(b));
    LessTotal(a.saved.id, b.saved.id);
  }

  // ---------------------------------------------------------------------------
  // Listing a directory
  // ---------------------------------------------------------------------------

  datatype Node = Folder | Unreadable | Corrupt | Stored(checkpoint: Checkpoint)

  type Directory = map<string, Node>

  /** This file is taken for a checkpoint and can be read as one. Files that are named otherwise
      are passed over, whatever they hold: a crash may leave a whole one with `.tmp` after its
      name. */
  predicate Loads(dir: Directory, name: string)
    requires name in dir
  {
    HasSuffix(name, ".json") && dir[name].Stored?
  }

  predicate Has(dir: Directory, name: string, c: Checkpoint) {
    name in dir && HasSuffix(name, ".json") && dir[name] == Stored(c)
  }

  /** The names in descending order. */
  ghost predicate Descending(names: seq<string>) {
    forall i, j :: 0 <= i < j < |names| ==> Less(names[j], names[i])
  }

  /** `sort.Slice` with the order reversed: put each name in its place. */
  method SortDescending(names: set<string>) returns (sorted: seq<string>)
    ensures Descending(sorted) && forall x :: x in sorted <==> x in names
  {
    sorted := [];
    var left := names;
    while left != {}
      invariant left <= names && Descending(sorted)
      invariant forall x :: x in sorted <==> x in names - left
      decreases left
    {
      var x :| x in left;
      sorted := Insert(sorted, x);
      left := left - {x};
    }
  }

  method Insert(sorted: seq<string>, x: string) returns (r: seq<string>)
    requires Descending(sorted) && x !in sorted
    ensures Descending(r) && forall y :: y in r <==> y in sorted || y == x
  {
    var i := 0;
    while i < |sorted| && Less(x, sorted[i])
      invariant i <= |sorted|
      invariant forall k :: 0 <= k < i ==> Less(x, sorted[k])
    {
      i := i + 1;
    }
    r := sorted[..i] + [x] + sorted[i..];
    forall k | i <= k < |sorted| ensures Less(sorted[k], x) {
      LessTotal(x, sorted[i]);
      if k > i {
        LessTransitive(sorted[k], sorted[i], x);
      }
    }
  }

  /** The checkpoints that these files load as, in order. */
  function LoadAll(dir: Directory, names: seq<string>): seq<Checkpoint>
    requires forall i :: 0 <= i < |names| ==> names[i] in dir
  {
    if names == [] then []
    else
      var rest := LoadAll(dir, names[..|names| - 1]);
      var last := names[|names| - 1];
      if Loads(dir, last) then rest + [dir[last].checkpoint] else rest
  }

  /** Every checkpoint that loads is under its own name, and all names are comparable. */
  ghost predicate Proper(dir: Directory) {
    && (forall name :: name in dir && Loads(dir, name) ==> name == FileName(dir[name].checkpoint))
    && (forall a, b :: a in dir && b in dir && Loads(dir, a) && Loads(dir, b) ==>
          Comparable(dir[a].checkpoint, dir[b].checkpoint))
  }

  lemma NameEnds(c: Checkpoint)
    ensures HasSuffix(FileName(c), ".json")
  {
    var head := Decimal(c.nanos) + "_" + c.saved.id;
    assert FileName(c) == head + ".json" && (head + ".json")[|head|..] == ".json";
  }

  ghost predicate NewestFirst(list: seq<Checkpoint>) {
    forall i, j :: 0 <= i < j < |list| ==> Earlier(list[j], list[i])
  }

  /** Newest first, and each loadable checkpoint exactly once. */
  ghost predicate Listing(dir: Directory, list: seq<Checkpoint>) {
    && NewestFirst(list)
    && (forall c :: c in list <==> exists name :: Has(dir, name, c))
  }

  lemma {:induction false} LoadAllLists(dir: Directory, names: seq<string>)
    requires Proper(dir) && Descending(names) && forall i :: 0 <= i < |names| ==> names[i] in dir
    ensures var list := LoadAll(dir, names);
      && (forall c :: c in list <==> FileName(c) in names && dir[FileName(c)] == Stored(c))
      && NewestFirst(list)
  {
    if names != [] {
      var init, last := names[..|names| - 1], names[|names| - 1];
      LoadAllLists(dir, init);
      var rest := LoadAll(dir, init);
      if Loads(dir, last) {
        var c := dir[last].checkpoint;
        NameEnds(c);
        forall i | 0 <= i < |rest| ensures Earlier(c, rest[i]) {
          assert rest[i] in rest;
          var k :| 0 <= k < |init| && init[k] == FileName(rest[i]);
          assert Less(names[|names| - 1], names[k]);
          NameOrder(c, rest[i]);
        }
      }
    }
  }

  /** The listing: all loadable checkpoints, newest first; unreadable files are skipped. */
  method ListCheckpoints(dir: Directory) returns (list: seq<Checkpoint>)
    requires Proper(dir)
    ensures Listing(dir, list)
  {
    var names := SortDescending(dir.Keys);
    list := [];
    assert names[..0] == [];
    for k := 0 to |names|
      invariant forall i :: 0 <= i < |names| ==> names[i] in dir
      invariant list == LoadAll(dir, names[..k])
    {
      assert names[k] in names && names[..k + 1][..k] == names[..k];
      if HasSuffix(names[k], ".json") && dir[names[k]].Stored? {
        list := list + [dir[names[k]].checkpoint];
      }
    }
    assert names[..|names|] == names;
    NamesList(dir, names);
  }

  lemma NamesList(dir: Directory, names: seq<string>)
    requires Proper(dir) && Descending(names) && forall x :: x in names <==> x in dir
    requires forall i :: 0 <= i < |names| ==> names[i] in dir
    ensures Listing(dir, LoadAll(dir, names))
  {
    LoadAllLists(dir, names);
    forall c ensures c in LoadAll(dir, names) <==> exists name :: Has(dir, name, c) {
      HasUnderItsName(dir, c);
    }
  }

  lemma HasUnderItsName(dir: Directory, c: Checkpoint)
    requires Proper(dir)
    ensures (exists name :: Has(dir, name, c)) <==> FileName(c) in dir && dir[FileName(c)] == Stored(c)
  {
    NameEnds(c);
    if FileName(c) in dir && dir[FileName(c)] == Stored(c) {
      assert Has(dir, FileName(c), c);
    }
    if exists name :: Has(dir, name, c) {
      var name :| Has(dir, name, c);
      assert Loads(dir, name);
    }
  }

  /** Two listings of one directory are the same sequence. */
  lemma {:induction false} ListingUnique(dir: Directory, a: seq<Checkpoint>, b: seq<Checkpoint>)
    requires Listing(dir, a) && Listing(dir, b)
    ensures a == b
  {
    SameOrder(a, b);
  }

  lemma {:induction false} SameOrder(a: seq<Checkpoint>, b: seq<Checkpoint>)
    requires NewestFirst(a) && NewestFirst(b)
    requires forall c :: c in a <==> c in b
    ensures a == b
  {
    assert |a| > 0 <==> |b| > 0 by {
      assert |a| > 0 ==> a[0] in a;
      assert |b| > 0 ==> b[0] in b;
    }
    if |a| > 0 {
      assert a[0] in b && b[0] in a;
      if a[0] != b[0] {
        EarlierAsymmetric(a[0], b[0]);
      }
      TailMembers(a);
      TailMembers(b);
      SameOrder(a[1..], b[1..]);
      assert a == [a[0]] + a[1..] && b == [b[0]] + b[1..];
    }
  }

  lemma TailMembers(a: seq<Checkpoint>)
    requires a != [] && NewestFirst(a)
    ensures forall c :: c in a[1..] <==> c in a && c != a[0]
  {
    EarlierAsymmetric(a[0], a[0]);
    assert forall k :: 1 <= k < |a| ==> a[k] == a[1..][k - 1] && a[k] != a[0];
  }

  lemma EarlierAsymmetric(a: Checkpoint, b: Checkpoint)
    ensures !(Earlier(a, b) && Earlier(b, a))
  {
    LessTotal(a.saved.id, b.saved.id);
  }

  /** The newest of the stored checkpoints, or none when there are none. */
  ghost predicate IsLatest(dir: Directory, latest: Option<Checkpoint>) {
    match latest
    case None => forall name :: name in dir ==> !Loads(dir, name)
    case Some(c) =>
      && (exists name :: Has(dir, name, c))
      && forall name :: name in dir && Loads(dir, name) ==>
        dir[name].checkpoint == c || Earlier(dir[name].checkpoint, c)
  }

  lemma HeadIsLatest(dir: Directory, list: seq<Checkpoint>)
    requires Listing(dir, list)
    ensures IsLatest(dir, if list == [] then None else Some(list[0]))
  {
    assert |list| > 0 ==> list[0] in list;
    forall name | name in dir && Loads(dir, name)
      ensures |list| > 0 && (dir[name].checkpoint == list[0] || Earlier(dir[name].checkpoint, list[0]))
    {
      assert Has(dir, name, dir[name].checkpoint);
      assert dir[name].checkpoint in list;
    }
  }

  /** The latest is the head of the listing, and none exactly when the listing is empty. */
  lemma LatestIsHead(dir: Directory, latest: Option<Checkpoint>, list: seq<Checkpoint>)
    requires IsLatest(dir, latest) && Listing(dir, list)
    ensures latest == if list == [] then None else Some(list[0])
  {
    HeadIsLatest(dir, list);
    assert |list| > 0 ==> list[0] in list;
    if latest.Some? {
      assert latest.value in list;
      EarlierAsymmetric(latest.value, list[0]);
    }
  }

  lemma FirstLoaded(dir: Directory, names: seq<string>, k: nat)
    requires forall i :: 0 <= i < |names| ==> names[i] in dir
    requires k <= |names| && LoadAll(dir, names[..k]) == [] && (k < |names| ==> Loads(dir, names[k]))
    ensures var list := LoadAll(dir, names);
      if k < |names| then list != [] && list[0] == dir[names[k]].checkpoint else list == []
  {
    if k < |names| {
      assert names[..k + 1][..k] == names[..k];
      LoadAllGrows(dir, names, k + 1);
    } else {
      assert names[..k] == names;
    }
  }

  /** The first name that loads, if any, is the latest. */
  lemma FirstIsLatest(dir: Directory, names: seq<string>, k: nat)
    requires Proper(dir) && Descending(names) && forall x :: x in names <==> x in dir
    requires k <= |names| && LoadAll(dir, names[..k]) == []
    requires k < |names| ==> Loads(dir, names[k])
    ensures IsLatest(dir, if k < |names| then Some(dir[names[k]].checkpoint) else None)
  {
    assert forall i :: 0 <= i < |names| ==> names[i] in names;
    NamesList(dir, names);
    HeadIsLatest(dir, LoadAll(dir, names));
    FirstLoaded(dir, names, k);
  }

  /** The scan for the latest: the first file, by descending name, that loads. */
  method LoadLatest(dir: Directory) returns (latest: Option<Checkpoint>)
    requires Proper(dir)
    ensures IsLatest(dir, latest)
  {
    var names := SortDescending(dir.Keys);
    assert forall i :: 0 <= i < |names| ==> names[i] in names;
    for k := 0 to |names|
      invariant forall i :: 0 <= i < |names| ==> names[i] in dir
      invariant LoadAll(dir, names[..k]) == []
    {
      assert names[..k + 1][..k] == names[..k];
      if HasSuffix(names[k], ".json") && dir[names[k]].Stored? {
        FirstIsLatest(dir, names, k);
        return Some(dir[names[k]].checkpoint);
      }
    }
    FirstIsLatest(dir, names, |names|);
    latest := None;
  }

  lemma {:induction false} LoadAllGrows(dir: Directory, names: seq<string>, n: nat)
    requires n <= |names| && forall i :: 0 <= i < |names| ==> names[i] in dir
    ensures LoadAll(dir, names[..n]) <= LoadAll(dir, names)
  {
    if n < |names| {
      LoadAllGrows(dir, names[..|names| - 1], n);
      assert names[..|names| - 1][..n] == names[..n];
    } else {
      assert names[..n] == names;
    }
  }

  /** The search for a checkpoint by id: a file that loads and has it. */
  method LoadCheckpoint(dir: Directory, id: string) returns (found: Option<Checkpoint>)
    requires Proper(dir)
    ensures found.Some? ==> found.value.saved.id == id && exists name :: Has(dir, name, found.value)
    ensures found.None? ==> forall name :: name in dir && Loads(dir, name) ==> dir[name].checkpoint.saved.id != id
  {
    var left := dir.Keys;
    while left != {}
      invariant left <= dir.Keys
      invariant forall name :: name in dir && name !in left && Loads(dir, name) ==> dir[name].checkpoint.saved.id != id
      decreases left
    {
      var name :| name in left;
      if HasSuffix(name, ".json") && dir[name].Stored? && dir[name].checkpoint.saved.id == id {
        assert Has(dir, name, dir[name].checkpoint);
        return Some(dir[name].checkpoint);
      }
      left := left - {name};
    }
    found := None;
  }

  /** A saved checkpoint, written under its own name. */
  function Save(dir: Directory, c: Checkpoint): Directory {
    dir[FileName(c) := Stored(c)]
  }

  function SaveAll(dir: Directory, saves: seq<Checkpoint>): Directory {
    if saves == [] then dir else Save(SaveAll(dir, saves[..|saves| - 1]), saves[|saves| - 1])
  }

  function Reverse(s: seq<Checkpoint>): (r: seq<Checkpoint>)
    ensures |r| == |s| && forall i :: 0 <= i < |s| ==> r[i] == s[|s| - 1 - i]
  {
    if s == [] then [] else [s[|s| - 1]] + Reverse(s[..|s| - 1])
  }

  /** Saving a checkpoint newer than all others puts it at the head of the listing. */
  lemma NewestIsListedFirst(dir: Directory, c: Checkpoint, list: seq<Checkpoint>)
    requires Proper(dir) && Listing(dir, list) && Proper(Save(dir, c))
    requires forall d :: d in list ==> d.nanos < c.nanos && Comparable(c, d)
    ensures Listing(Save(dir, c), [c] + list)
  {
    var next := Save(dir, c);
    NameEnds(c);
    assert Has(next, FileName(c), c);
    forall d ensures d in [c] + list <==> exists name :: Has(next, name, d) {
      if d in list {
        var name :| Has(dir, name, d);
        assert Loads(dir, name);
        NameOrder(c, d);
        assert Has(next, name, d);
      } else if exists name :: Has(next, name, d) {
        var name :| Has(next, name, d);
        assert name != FileName(c) ==> Has(dir, name, d);
      }
    }
  }

  /** Checkpoints saved with increasing timestamps are listed in reverse order of saving. */
  lemma {:induction false} ListedNewestFirst(saves: seq<Checkpoint>)
    requires forall i, j :: 0 <= i < j < |saves| ==> saves[i].nanos < saves[j].nanos
    requires forall i, j :: 0 <= i < |saves| && 0 <= j < |saves| ==> Comparable(saves[i], saves[j])
    ensures Proper(SaveAll(map[], saves)) && Listing(SaveAll(map[], saves), Reverse(saves))
  {
    if saves != [] {
      var init, last := saves[..|saves| - 1], saves[|saves| - 1];
      ListedNewestFirst(init);
      forall name | name in SaveAll(map[], init)
        ensures var node := SaveAll(map[], init)[name]; node.Stored? && node.checkpoint in init && name == FileName(node.checkpoint)
      {
        SavedOnly(init, name);
      }
      ReverseMembers(init);
      NewestIsListedFirst(SaveAll(map[], init), last, Reverse(init));
    }
  }

  lemma {:induction false} SavedOnly(saves: seq<Checkpoint>, name: string)
    requires name in SaveAll(map[], saves)
    ensures var node := SaveAll(map[], saves)[name];
      node.Stored? && node.checkpoint in saves && name == FileName(node.checkpoint)
  {
    var last := saves[|saves| - 1];
    if name != FileName(last) {
      SavedOnly(saves[..|saves| - 1], name);
    }
  }

  lemma {:induction false} ReverseMembers(s: seq<Checkpoint>)
    ensures forall c :: c in Reverse(s) <==> c in s
  {
    if s != [] {
      ReverseMembers(s[..|s| - 1]);
      assert s == s[..|s| - 1] + [s[|s| - 1]];
    }
  }
}
