/** Renaming the definitions of an OpenAPI document: dots in their names become underscores,
    and the references that name them follow, in place, in the decoded document. */
module Normalize {
  import opened Wrappers

  // ---------------------------------------------------------------------------
  // Documents
  // ---------------------------------------------------------------------------

  /** A decoded mapping with string keys; assigned in place. */
  class Node {
    var entries: map<string, Value>

    constructor (entries: map<string, Value>)
      ensures this.entries == entries
    {
      this.entries := entries;
    }
  }

  /** A key of a mapping that has keys other than strings. */
  datatype Scalar = Str(text: string) | Plain(handle: int)

  /** A decoded value. A mapping with a key that is not a string, like an unquoted 200, is
      decoded to another type; such a mapping is never assigned to. Whatever is neither a
      string nor a sequence nor a mapping is only passed around. */
  datatype Value =
    | Text(text: string)
    | Other(handle: int)
    | Items(items: seq<Value>)
    | Mixture(mixture: map<Scalar, Value>)
    | Ref(node: Node)

  /** What a value looks like from its root, and which nodes it is made of. */
  datatype Tree =
    | Leaf(text: string)
    | Opaque(handle: int)
    | List(list: seq<Tree>)
    | Mixed(mixed: map<Scalar, Tree>)
    | Table(node: Node, entries: map<string, Tree>)

  /** The same without the nodes: what is written out. */
  datatype Shape =
    | LeafShape(text: string)
    | OpaqueShape(handle: int)
    | ListShape(list: seq<Shape>)
    | MixedShape(mixed: map<Scalar, Shape>)
    | TableShape(entries: map<string, Shape>)

  function ShapeOf(t: Tree): Shape {
    match t
    case Leaf(text) => LeafShape(text)
    case Opaque(handle) => OpaqueShape(handle)
    case List(list) => ListShape(seq(|list|, i requires 0 <= i < |list| => ShapeOf(list[i])))
    case Mixed(mixed) => MixedShape(map k | k in mixed :: ShapeOf(mixed[k]))
    case Table(_, entries) => TableShape(map k | k in entries :: ShapeOf(entries[k]))
  }

  ghost function Nodes(t: Tree): set<Node> {
    match t
    case Leaf(_) => {}
    case Opaque(_) => {}
    case List(list) => set i, n | 0 <= i < |list| && n in Nodes(list[i]) :: n
    case Mixed(mixed) => set k, n | k in mixed && n in Nodes(mixed[k]) :: n
    case Table(node, entries) => {node} + set k, n | k in entries && n in Nodes(entries[k]) :: n
  }

  /** No node occurs twice: a decoded document shares nothing. */
  ghost predicate Separate(t: Tree) {
    match t
    case Leaf(_) => true
    case Opaque(_) => true
    case List(list) =>
      && (forall i :: 0 <= i < |list| ==> Separate(list[i]))
      && (forall i, j :: 0 <= i < j < |list| ==> Nodes(list[i]) !! Nodes(list[j]))
    case Mixed(mixed) =>
      && (forall k :: k in mixed ==> Separate(mixed[k]))
      && (forall k, l :: k in mixed && l in mixed && k != l ==> Nodes(mixed[k]) !! Nodes(mixed[l]))
    case Table(node, entries) =>
      && (forall k :: k in entries ==> Separate(entries[k]) && node !in Nodes(entries[k]))
      && (forall k, l :: k in entries && l in entries && k != l ==> Nodes(entries[k]) !! Nodes(entries[l]))
  }

  /** In the current heap, this value is that tree. */
  ghost predicate Shows(v: Value, t: Tree)
    reads Nodes(t)
    decreases t
  {
    match t
    case Leaf(text) => v == Text(text)
    case Opaque(handle) => v == Other(handle)
    case List(list) =>
      v.Items? && |v.items| == |list| && forall i :: 0 <= i < |list| ==> Shows(v.items[i], list[i])
    case Mixed(mixed) =>
      v.Mixture? && v.mixture.Keys == mixed.Keys && forall k :: k in mixed ==> Shows(v.mixture[k], mixed[k])
    case Table(node, entries) =>
      v == Ref(node) && node.entries.Keys == entries.Keys && forall k :: k in entries ==> Shows(node.entries[k], entries[k])
  }

  // ---------------------------------------------------------------------------
  // Rewriting references
  // ---------------------------------------------------------------------------

  const REF := "$ref"

  function RewriteRef(t: Tree, refs: map<string, string>): Tree {
    if t.Leaf? && t.text in refs then Leaf(refs[t.text]) else t
  }

  /** Replace the string under every `$ref` key; below such a key nothing else is looked at,
      and nothing at all in a mapping with keys other than strings. */
  function Rewrite(t: Tree, refs: map<string, string>): Tree
    decreases t, 0
  {
    match t
    case Leaf(_) => t
    case Opaque(_) => t
    case List(list) => List(seq(|list|, i requires 0 <= i < |list| => Rewrite(list[i], refs)))
    case Mixed(_) => t
    case Table(node, entries) => Table(node, map k | k in entries :: RewriteEntry(k, entries[k], refs))
  }

  function RewriteEntry(key: string, t: Tree, refs: map<string, string>): Tree
    decreases t, 1
  {
    if key == REF then RewriteRef(t, refs) else Rewrite(t, refs)
  }

  lemma {:induction false} RewriteKeepsNodes(t: Tree, refs: map<string, string>)
    ensures Nodes(Rewrite(t, refs)) == Nodes(t)
    decreases t, 0
  {
    match t
    case Leaf(_) =>
    case Opaque(_) =>
    case Mixed(_) =>
    case List(list) =>
      var r := Rewrite(t, refs);
      forall i | 0 <= i < |list| ensures Nodes(r.list[i]) == Nodes(list[i]) {
        RewriteKeepsNodes(list[i], refs);
      }
    case Table(node, entries) =>
      var r := Rewrite(t, refs);
      forall k | k in entries ensures Nodes(r.entries[k]) == Nodes(entries[k]) {
        EntryKeepsNodes(k, entries[k], refs);
      }
  }

  lemma {:induction false} EntryKeepsNodes(key: string, t: Tree, refs: map<string, string>)
    ensures Nodes(RewriteEntry(key, t, refs)) == Nodes(t)
    decreases t, 1
  {
    RewriteKeepsNodes(t, refs);
  }

  // A mapping or a sequence of which only some entries have been rewritten.

  function EntriesDone(t: Tree, left: set<string>, refs: map<string, string>): Tree
    requires t.Table?
  {
    t.(entries := map k | k in t.entries :: if k in left then t.entries[k] else RewriteEntry(k, t.entries[k], refs))
  }

  function ItemsDone(t: Tree, n: nat, refs: map<string, string>): Tree
    requires t.List?
  {
    List(seq(|t.list|, i requires 0 <= i < |t.list| => if i < n then Rewrite(t.list[i], refs) else t.list[i]))
  }

  lemma EntriesDoneKeepsNodes(t: Tree, left: set<string>, refs: map<string, string>)
    requires t.Table? && Separate(t)
    ensures Nodes(EntriesDone(t, left, refs)) == Nodes(t)
    ensures forall k :: k in t.entries ==> Nodes(EntriesDone(t, left, refs).entries[k]) == Nodes(t.entries[k])
  {
    forall k | k in t.entries ensures Nodes(EntriesDone(t, left, refs).entries[k]) == Nodes(t.entries[k]) {
      EntryKeepsNodes(k, t.entries[k], refs);
    }
  }

  lemma EntriesDoneEnds(t: Tree, refs: map<string, string>)
    requires t.Table?
    ensures EntriesDone(t, t.entries.Keys, refs) == t && EntriesDone(t, {}, refs) == Rewrite(t, refs)
  {
    assert EntriesDone(t, t.entries.Keys, refs).entries == t.entries;
  }

  lemma EntriesDoneStep(t: Tree, left: set<string>, key: string, refs: map<string, string>)
    requires t.Table? && key in left && left <= t.entries.Keys
    ensures EntriesDone(t, left, refs).entries[key] == t.entries[key]
    ensures EntriesDone(t, left - {key}, refs) ==
      Table(t.node, EntriesDone(t, left, refs).entries[key := RewriteEntry(key, t.entries[key], refs)])
  {
  }

  lemma ItemsDoneEnds(t: Tree, refs: map<string, string>)
    requires t.List?
    ensures ItemsDone(t, 0, refs) == t && ItemsDone(t, |t.list|, refs) == Rewrite(t, refs)
  {
    assert ItemsDone(t, 0, refs).list == t.list;
  }

  lemma ItemsDoneKeepsNodes(t: Tree, n: nat, refs: map<string, string>)
    requires t.List?
    ensures forall i :: 0 <= i < |t.list| ==> Nodes(ItemsDone(t, n, refs).list[i]) == Nodes(t.list[i])
    ensures Nodes(ItemsDone(t, n, refs)) == Nodes(t)
  {
    forall i | 0 <= i < |t.list| ensures Nodes(ItemsDone(t, n, refs).list[i]) == Nodes(t.list[i]) {
      RewriteKeepsNodes(t.list[i], refs);
    }
  }

  /** The nodes below one entry are apart from the mapping and from every other entry. */
  ghost predicate Apart(node: Node, entries: map<string, Tree>, key: string)
    requires key in entries
  {
    && node !in Nodes(entries[key])
    && forall k :: k in entries && k != key ==> Nodes(entries[k]) !! Nodes(entries[key]) && node !in Nodes(entries[k])
  }

  lemma EntryToDo(t: Tree, left: set<string>, key: string, refs: map<string, string>)
    requires t.Table? && Separate(t) && key in left && left <= t.entries.Keys
    ensures var now := EntriesDone(t, left, refs);
      && Nodes(now) == Nodes(t) && now == Table(t.node, now.entries) && key in now.entries
      && Apart(t.node, now.entries, key) && t.entries[key] == now.entries[key] && Separate(now.entries[key])
      && EntriesDone(t, left - {key}, refs) ==
           Table(t.node, now.entries[key := RewriteEntry(key, now.entries[key], refs)])
  {
    EntriesDoneKeepsNodes(t, left, refs);
    EntriesDoneStep(t, left, key, refs);
  }

  /** The body of the loop over a mapping. */
  method RewriteOneEntry(
      node: Node, key: string, refs: map<string, string>, ghost now: map<string, Tree>, ghost t: Tree)
    requires Shows(Ref(node), Table(node, now)) && key in now && Apart(node, now, key)
    requires t.Table? && key in t.entries && t.entries[key] == now[key] && Separate(now[key])
    modifies Nodes(Table(node, now))
    ensures Shows(Ref(node), Table(node, now[key := RewriteEntry(key, now[key], refs)]))
    decreases t, 0
  {
    var value := node.entries[key];
    if key == REF {
      if value.Text? && value.text in refs {
        node.entries := node.entries[key := Text(refs[value.text])];
      }
    } else {
      RewriteRefs(value, refs, now[key]);
    }
    forall k | k in now && k != key
      ensures Shows(node.entries[k], now[k]) == old(Shows(node.entries[k], now[k]))
    {
      assert old(allocated(Nodes(now[k])));
    }
  }

  method RewriteKey(node: Node, key: string, refs: map<string, string>, ghost keys: set<string>, ghost t: Tree)
    requires t.Table? && Separate(t) && key in keys && keys <= t.entries.Keys
    requires Shows(Ref(node), EntriesDone(t, keys, refs))
    modifies Nodes(t)
    ensures Shows(Ref(node), EntriesDone(t, keys - {key}, refs))
    decreases t, 1
  {
    EntryToDo(t, keys, key, refs);
    RewriteOneEntry(node, key, refs, EntriesDone(t, keys, refs).entries, t);
  }

  method RewriteTable(node: Node, refs: map<string, string>, ghost t: Tree)
    requires t.Table? && Shows(Ref(node), t) && Separate(t)
    modifies Nodes(t)
    ensures Shows(Ref(node), Rewrite(t, refs))
    decreases t, 2
  {
    var keys := node.entries.Keys;
    ghost var now := t;
    assert now == EntriesDone(t, keys, refs) by {
      EntriesDoneEnds(t, refs);
    }
    while keys != {}
      invariant keys <= t.entries.Keys && now == EntriesDone(t, keys, refs) && Shows(Ref(node), now)
      decreases keys
    {
      var key :| key in keys;
      RewriteKey(node, key, refs, keys, t);
      keys := keys - {key};
      now := EntriesDone(t, keys, refs);
    }
    assert now == Rewrite(t, refs) by {
      EntriesDoneEnds(t, refs);
    }
  }

  method RewriteOneItem(items: seq<Value>, i: nat, refs: map<string, string>, ghost t: Tree)
    requires t.List? && Separate(t) && i < |items| == |t.list|
    requires Nodes(ItemsDone(t, i, refs)) == Nodes(t) == Nodes(ItemsDone(t, i + 1, refs))
    requires Shows(Items(items), ItemsDone(t, i, refs))
    modifies Nodes(t)
    ensures Shows(Items(items), ItemsDone(t, i + 1, refs))
    decreases t, 0
  {
    ghost var now, next := ItemsDone(t, i, refs), ItemsDone(t, i + 1, refs);
    ItemsDoneKeepsNodes(t, i, refs);
    ItemsDoneKeepsNodes(t, i + 1, refs);
    assert now.list[i] == t.list[i] && Shows(items[i], t.list[i]);
    RewriteRefs(items[i], refs, t.list[i]);
    forall k | 0 <= k < |items| && k != i
      ensures Shows(items[k], now.list[k]) == old(Shows(items[k], now.list[k]))
    {
      assert Nodes(now.list[k]) !! Nodes(t.list[i]);
      assert old(allocated(Nodes(now.list[k])));
    }
    assert forall k :: 0 <= k < |items| && k != i ==> next.list[k] == now.list[k];
  }

  method RewriteList(items: seq<Value>, refs: map<string, string>, ghost t: Tree)
    requires t.List? && Shows(Items(items), t) && Separate(t)
    modifies Nodes(t)
    ensures Shows(Items(items), Rewrite(t, refs))
    decreases t, 1
  {
    ItemsDoneKeepsNodes(t, 0, refs);
    ItemsDoneEnds(t, refs);
    for i := 0 to |items|
      invariant Nodes(ItemsDone(t, i, refs)) == Nodes(t) && Shows(Items(items), ItemsDone(t, i, refs))
    {
      ItemsDoneKeepsNodes(t, i + 1, refs);
      RewriteOneItem(items, i, refs, t);
    }
  }

  /** Rewrite the references in place: afterwards the value is the rewritten tree, made of the
      same nodes. */
  method RewriteRefs(v: Value, refs: map<string, string>, ghost t: Tree)
    requires Shows(v, t) && Separate(t)
    modifies Nodes(t)
    ensures Nodes(Rewrite(t, refs)) == Nodes(t) && Shows(v, Rewrite(t, refs))
    decreases t, 3
  {
    RewriteKeepsNodes(t, refs);
    if v.Ref? {
      RewriteTable(v.node, refs, t);
    } else if v.Items? {
      RewriteList(v.items, refs, t);
    }
  }

  // ---------------------------------------------------------------------------
  // What rewriting changes
  // ---------------------------------------------------------------------------

  datatype Step = Key(key: string) | Index(index: nat) | Any(scalar: Scalar)

  function Lookup(t: Tree, path: seq<Step>): Option<Tree> {
    if path == [] then Some(t)
    else match path[0]
      case Key(key) => if t.Table? && key in t.entries then Lookup(t.entries[key], path[1..]) else None
      case Index(i) => if t.List? && i < |t.list| then Lookup(t.list[i], path[1..]) else None
      case Any(k) => if t.Mixed? && k in t.mixed then Lookup(t.mixed[k], path[1..]) else None
  }

  /** The way goes through no `$ref` and no mapping with keys other than strings. */
  predicate Open(path: seq<Step>) {
    path == [] || (path[0] != Key(REF) && !path[0].Any? && Open(path[1..]))
  }

  /** The way ends at a `$ref` and is open up to there. */
  predicate AtRef(path: seq<Step>) {
    path == [Key(REF)] || (|path| > 1 && path[0] != Key(REF) && !path[0].Any? && AtRef(path[1..]))
  }

  /** Location by location: nothing appears or disappears; a string directly under a `$ref` is
      replaced if it is to be; what is deeper below a `$ref` or in a mapping with keys other
      than strings is as it was; all else is rewritten in turn, so that strings elsewhere are
      as they were. */
  lemma {:induction false} RewriteAt(t: Tree, refs: map<string, string>, path: seq<Step>)
    ensures Lookup(Rewrite(t, refs), path) ==
      match Lookup(t, path)
      case None => None
      case Some(x) => Some(if Open(path) then Rewrite(x, refs) else if AtRef(path) then RewriteRef(x, refs) else x)
    decreases |path|
  {
    if path != [] {
      match path[0]
      case Key(key) =>
        if t.Table? && key in t.entries && key != REF {
          RewriteAt(t.entries[key], refs, path[1..]);
        }
      case Index(i) =>
        if t.List? && i < |t.list| {
          RewriteAt(t.list[i], refs, path[1..]);
        }
      case Any(_) =>
    }
  }

  lemma {:induction false} RewriteNothing(t: Tree)
    ensures Rewrite(t, map[]) == t
  {
    match t
    case Leaf(_) =>
    case Opaque(_) =>
    case Mixed(_) =>
    case List(list) =>
      forall i | 0 <= i < |list| ensures Rewrite(list[i], map[]) == list[i] {
        RewriteNothing(list[i]);
      }
      assert Rewrite(t, map[]).list == list;
    case Table(node, entries) =>
      forall k | k in entries ensures RewriteEntry(k, entries[k], map[]) == entries[k] {
        RewriteNothing(entries[k]);
      }
      assert Rewrite(t, map[]).entries == entries;
  }

  // ---------------------------------------------------------------------------
  // Renaming definitions
  // ---------------------------------------------------------------------------

  const DEFINITIONS := "definitions"
  const PREFIX := "#/definitions/"

  function Rename(name: string): (renamed: string)
    ensures |renamed| == |name|
    ensures forall i :: 0 <= i < |name| ==> renamed[i] == if name[i] == '.' then '_' else name[i]
    ensures '.' !in renamed && (renamed == name <==> '.' !in name)
  {
    seq(|name|, i requires 0 <= i < |name| => if name[i] == '.' then '_' else name[i])
  }

  predicate HasDefinitions(t: Tree) {
    t.Table? && DEFINITIONS in t.entries && t.entries[DEFINITIONS].Table?
  }

  function Definitions(t: Tree): map<string, Tree>
    requires HasDefinitions(t)
  {
    t.entries[DEFINITIONS].entries
  }

  /** This reference names one of these definitions. */
  predicate Names(s: string, names: set<string>) {
    PREFIX <= s && s[|PREFIX|..] in names
  }

  /** The references to rewrite are those to definitions with a dot in their names. */
  ghost predicate RefsFor(refs: map<string, string>, names: set<string>) {
    && (forall s :: s in refs <==> Names(s, names) && '.' in s[|PREFIX|..])
    && (forall s :: s in refs ==> refs[s] == PREFIX + Rename(s[|PREFIX|..]))
  }

  /** For every new name, the definition that ended up under it: when several become the same
      name, the one the loop visited last. */
  ghost predicate Picks(pick: map<string, string>, names: set<string>) {
    && (forall n :: n in pick ==> pick[n] in names && Rename(pick[n]) == n)
    && (forall k :: k in names ==> Rename(k) in pick)
  }

  /** The renamed definitions under a node of their own, with all references rewritten. */
  function Normalized(t: Tree, node: Node, pick: map<string, string>, refs: map<string, string>): Tree
    requires HasDefinitions(t) && forall n :: n in pick ==> pick[n] in Definitions(t)
  {
    Rewrite(Renamed(t, node, pick), refs)
  }

  function Renamed(t: Tree, node: Node, pick: map<string, string>): Tree
    requires HasDefinitions(t) && forall n :: n in pick ==> pick[n] in Definitions(t)
  {
    Table(t.node, t.entries[DEFINITIONS := Table(node, Picked(Definitions(t), pick))])
  }

  function Picked(defs: map<string, Tree>, pick: map<string, string>): map<string, Tree>
    requires forall n :: n in pick ==> pick[n] in defs
  {
    map n | n in pick :: defs[pick[n]]
  }

  /** The loop over the definitions, in whatever order they come. */
  method RenameAll(defs: map<string, Value>)
    returns (renamed: map<string, Value>, refs: map<string, string>, ghost pick: map<string, string>)
    ensures Picks(pick, defs.Keys) && RefsFor(refs, defs.Keys)
    ensures renamed.Keys == pick.Keys && forall n :: n in pick ==> renamed[n] == defs[pick[n]]
  {
    renamed, refs, pick := map[], map[], map[];
    var left := defs.Keys;
    while left != {}
      invariant left <= defs.Keys
      invariant Picks(pick, defs.Keys - left) && RefsFor(refs, defs.Keys - left)
      invariant renamed.Keys == pick.Keys && forall n :: n in pick ==> renamed[n] == defs[pick[n]]
      decreases |left|
    {
      var k :| k in left;
      var newKey := Rename(k);
      assert (PREFIX + k)[|PREFIX|..] == k;
      forall s | PREFIX <= s && s[|PREFIX|..] == k ensures s == PREFIX + k {
        assert s == s[..|PREFIX|] + s[|PREFIX|..];
      }
      if newKey != k {
        refs := refs[PREFIX + k := PREFIX + newKey];
      }
      renamed := renamed[newKey := defs[k]];
      pick := pick[newKey := k];
      left := left - {k};
    }
  }

  lemma PickedIsSeparate(table: Tree, node: Node, pick: map<string, string>)
    requires table.Table? && Separate(table) && node !in Nodes(table) && Picks(pick, table.entries.Keys)
    ensures var picked := Table(node, Picked(table.entries, pick));
      Separate(picked) && Nodes(picked) <= Nodes(table) + {node}
  {
    assert forall k :: k in table.entries ==> Nodes(table.entries[k]) <= Nodes(table);
    assert forall m, n :: m in pick && n in pick && m != n ==> pick[m] != pick[n];
  }

  /** One entry of a mapping replaced by a tree of the same nodes and one more. */
  lemma ReplacedIsSeparate(table: Tree, key: string, node: Node, replacement: Tree)
    requires table.Table? && Separate(table) && node !in Nodes(table) && key in table.entries
    requires Separate(replacement) && Nodes(replacement) <= Nodes(table.entries[key]) + {node}
    ensures var replaced := Table(table.node, table.entries[key := replacement]);
      Separate(replaced) && Nodes(replaced) <= Nodes(table) + {node}
  {
    assert forall k :: k in table.entries ==> Nodes(table.entries[k]) <= Nodes(table);
    assert table.node in Nodes(table);
  }

  lemma RenamedIsSeparate(t: Tree, node: Node, pick: map<string, string>)
    requires Separate(t) && HasDefinitions(t) && node !in Nodes(t)
    requires Picks(pick, Definitions(t).Keys)
    ensures Separate(Renamed(t, node, pick)) && Nodes(Renamed(t, node, pick)) <= Nodes(t) + {node}
  {
    assert Nodes(t.entries[DEFINITIONS]) <= Nodes(t);
    PickedIsSeparate(t.entries[DEFINITIONS], node, pick);
    ReplacedIsSeparate(t, DEFINITIONS, node, Renamed(t, node, pick).entries[DEFINITIONS]);
  }

  /** A new mapping of values that are already there. */
  method NewTable(values: map<string, Value>, ghost trees: map<string, Tree>) returns (table: Node)
    requires values.Keys == trees.Keys && forall n :: n in trees ==> Shows(values[n], trees[n])
    ensures fresh(table) && Shows(Ref(table), Table(table, trees))
  {
    assert allocated(trees);
    table := new Node(values);
    forall n | n in trees ensures Shows(values[n], trees[n]) == old(Shows(values[n], trees[n])) {
      assert old(allocated(Nodes(trees[n])));
    }
  }

  /** Assign one entry of a mapping. */
  method SetEntry(node: Node, key: string, value: Value, ghost t: Tree, ghost tree: Tree)
    requires t.Table? && t.node == node && key in t.entries && Separate(t) && Shows(Ref(node), t)
    requires Shows(value, tree) && node !in Nodes(tree)
    modifies node
    ensures Shows(Ref(node), Table(node, t.entries[key := tree]))
  {
    node.entries := node.entries[key := value];
    assert Shows(value, tree) == old(Shows(value, tree)) by {
      assert old(allocated(Nodes(tree)));
    }
    forall k | k in t.entries && k != key
      ensures Shows(node.entries[k], t.entries[k]) == old(Shows(node.entries[k], t.entries[k]))
    {
      assert old(allocated(Nodes(t.entries[k])));
    }
  }

  lemma RootIsApart(t: Tree, table: Node, pick: map<string, string>)
    requires HasDefinitions(t) && Separate(t) && table !in Nodes(t) && Picks(pick, Definitions(t).Keys)
    ensures t.node !in Nodes(Table(table, Picked(Definitions(t), pick)))
  {
    assert Nodes(t.entries[DEFINITIONS]) <= Nodes(t) && t.node !in Nodes(t.entries[DEFINITIONS]);
    PickedIsSeparate(t.entries[DEFINITIONS], table, pick);
    assert t.node in Nodes(t);
  }

  /** Put the renamed definitions into the document, under a new node. */
  method ReplaceDefinitions(doc: Node, renamed: map<string, Value>, ghost t: Tree, ghost pick: map<string, string>)
    returns (table: Node)
    requires HasDefinitions(t) && Shows(Ref(doc), t) && Separate(t)
    requires Picks(pick, Definitions(t).Keys) && renamed.Keys == pick.Keys
    requires forall n :: n in pick ==> Shows(renamed[n], Definitions(t)[pick[n]])
    modifies doc
    ensures fresh(table) && Shows(Ref(doc), Renamed(t, table, pick))
  {
    assert allocated(Nodes(t));
    ghost var picked := Picked(Definitions(t), pick);
    table := NewTable(renamed, picked);
    assert Shows(Ref(doc), t) == old(Shows(Ref(doc), t));
    RootIsApart(t, table, pick);
    SetEntry(doc, DEFINITIONS, Ref(table), t, Table(table, picked));
  }

  /** What is found under `definitions` shows the definitions. */
  lemma DefinitionsShown(doc: Node, t: Tree)
    requires HasDefinitions(t) && Shows(Ref(doc), t)
    ensures DEFINITIONS in doc.entries && doc.entries[DEFINITIONS].Ref?
    ensures var defs := doc.entries[DEFINITIONS].node.entries;
      defs.Keys == Definitions(t).Keys && forall k :: k in defs ==> Shows(defs[k], Definitions(t)[k])
  {
    assert Shows(doc.entries[DEFINITIONS], t.entries[DEFINITIONS]);
  }

  /** The whole of it. Without a mapping of definitions the document stays as it is. */
  method NormalizeDocument(doc: Node, ghost t: Tree)
    returns (ghost after: Tree, ghost pick: map<string, string>, ghost refs: map<string, string>, ghost node: Node)
    requires Shows(Ref(doc), t) && Separate(t)
    modifies Nodes(t)
    ensures Shows(Ref(doc), after)
    ensures !HasDefinitions(t) ==> after == t
    ensures HasDefinitions(t) ==>
      && Picks(pick, Definitions(t).Keys) && RefsFor(refs, Definitions(t).Keys)
      && fresh(node) && after == Normalized(t, node, pick, refs)
  {
    after, pick, refs, node := t, map[], map[], doc;
    assert DEFINITIONS in doc.entries && doc.entries[DEFINITIONS].Ref? <==> HasDefinitions(t);
    if DEFINITIONS in doc.entries && doc.entries[DEFINITIONS].Ref? {
      var renamed, renaming;
      DefinitionsShown(doc, t);
      renamed, renaming, pick := RenameAll(doc.entries[DEFINITIONS].node.entries);
      assert Shows(Ref(doc), t) == old(Shows(Ref(doc), t)) by {
        assert old(allocated(Nodes(t)));
      }
      DefinitionsShown(doc, t);
      assert allocated(Nodes(t));
      var table := ReplaceDefinitions(doc, renamed, t, pick);
      RenamedIsSeparate(t, table, pick);
      refs, node, after := renaming, table, Normalized(t, table, pick, renaming);
      if |renaming| > 0 {
        RewriteRefs(Ref(doc), renaming, Renamed(t, table, pick));
      } else {
        RewriteNothing(Renamed(t, table, pick));
        assert renaming == map[];
      }
    }
  }

  // ---------------------------------------------------------------------------
  // What becomes of references
  // ---------------------------------------------------------------------------

  /** The definition a reference names, if it names one. */
  function Resolve(t: Tree, s: string): Option<Tree> {
    if HasDefinitions(t) && Names(s, Definitions(t).Keys) then Some(Definitions(t)[s[|PREFIX|..]]) else None
  }

  function Redirect(s: string, refs: map<string, string>): string {
    if s in refs then refs[s] else s
  }

  lemma DefinitionsAfter(t: Tree, node: Node, pick: map<string, string>, refs: map<string, string>)
    requires HasDefinitions(t) && Picks(pick, Definitions(t).Keys)
    ensures var after := Normalized(t, node, pick, refs);
      && HasDefinitions(after) && Definitions(after).Keys == pick.Keys
      && forall n :: n in pick ==> Definitions(after)[n] == RewriteEntry(n, Definitions(t)[pick[n]], refs)
  {
    assert |DEFINITIONS| != |REF|;
    var renamed := Renamed(t, node, pick);
    assert Rewrite(renamed, refs).entries[DEFINITIONS] == Rewrite(renamed.entries[DEFINITIONS], refs);
  }

  /** A reference to a definition resolves, after it was rewritten, to the definition picked
      for its new name, in rewritten form. */
  lemma ResolvesToPicked(t: Tree, node: Node, pick: map<string, string>, refs: map<string, string>, k: string)
    requires HasDefinitions(t) && k in Definitions(t)
    requires Picks(pick, Definitions(t).Keys) && RefsFor(refs, Definitions(t).Keys)
    ensures Redirect(PREFIX + k, refs) == PREFIX + Rename(k)
    ensures Resolve(Normalized(t, node, pick, refs), PREFIX + Rename(k)) ==
      Some(RewriteEntry(Rename(k), Definitions(t)[pick[Rename(k)]], refs))
  {
    assert (PREFIX + k)[|PREFIX|..] == k && (PREFIX + Rename(k))[|PREFIX|..] == Rename(k);
    DefinitionsAfter(t, node, pick, refs);
  }

  /** This is found, and it is written out like that tree. */
  predicate Reads(found: Option<Tree>, t: Tree) {
    found.Some? && ShapeOf(found.value) == ShapeOf(t)
  }

  /** Every reference to a definition still resolves to that definition, rewritten. */
  ghost predicate Preserved(t: Tree, node: Node, pick: map<string, string>, refs: map<string, string>)
    requires HasDefinitions(t) && Picks(pick, Definitions(t).Keys)
  {
    forall k :: k in Definitions(t) ==>
      Reads(Resolve(Normalized(t, node, pick, refs), Redirect(PREFIX + k, refs)),
            RewriteEntry(Rename(k), Definitions(t)[k], refs))
  }

  /** Definitions whose names become equal are written out the same once rewritten. */
  ghost predicate CollisionsAgree(t: Tree, refs: map<string, string>)
    requires HasDefinitions(t)
  {
    forall k, l :: k in Definitions(t) && l in Definitions(t) && Rename(k) == Rename(l) ==>
      ShapeOf(RewriteEntry(Rename(k), Definitions(t)[k], refs)) == ShapeOf(RewriteEntry(Rename(l), Definitions(t)[l], refs))
  }

  ghost function AnyPick(names: set<string>, k: string): (pick: map<string, string>)
    requires k in names
    ensures Picks(pick, names) && pick[Rename(k)] == k
  {
    var image := set l | l in names :: Rename(l);
    map n | n in image :: if n == Rename(k) then k else var l :| l in names && Rename(l) == n; l
  }

  /** References are preserved whatever order the definitions come in, exactly when colliding
      definitions agree; in particular when no two names become equal. */
  lemma PreservedIff(t: Tree, node: Node, refs: map<string, string>)
    requires HasDefinitions(t) && RefsFor(refs, Definitions(t).Keys)
    ensures (forall pick :: Picks(pick, Definitions(t).Keys) ==> Preserved(t, node, pick, refs)) <==> CollisionsAgree(t, refs)
  {
    var names := Definitions(t).Keys;
    if CollisionsAgree(t, refs) {
      forall pick | Picks(pick, names) ensures Preserved(t, node, pick, refs) {
        forall k | k in names
          ensures Reads(Resolve(Normalized(t, node, pick, refs), Redirect(PREFIX + k, refs)),
                        RewriteEntry(Rename(k), Definitions(t)[k], refs))
        {
          ResolvesToPicked(t, node, pick, refs, k);
        }
      }
    }
    if forall pick :: Picks(pick, names) ==> Preserved(t, node, pick, refs) {
      forall k, l | k in names && l in names && Rename(k) == Rename(l)
        ensures ShapeOf(RewriteEntry(Rename(k), Definitions(t)[k], refs)) ==
          ShapeOf(RewriteEntry(Rename(l), Definitions(t)[l], refs))
      {
        var pick := AnyPick(names, k);
        ResolvesToPicked(t, node, pick, refs, l);
        assert Preserved(t, node, pick, refs);
      }
    }
  }

  lemma InjectiveNamesPreserve(t: Tree, node: Node, pick: map<string, string>, refs: map<string, string>)
    requires HasDefinitions(t) && RefsFor(refs, Definitions(t).Keys) && Picks(pick, Definitions(t).Keys)
    requires forall k, l :: k in Definitions(t) && l in Definitions(t) && Rename(k) == Rename(l) ==> k == l
    ensures Preserved(t, node, pick, refs)
  {
    assert CollisionsAgree(t, refs);
    PreservedIff(t, node, refs);
  }

  /** Where a location of the renamed document was before: only names of definitions moved. */
  function Before(path: seq<Step>, pick: map<string, string>): seq<Step> {
    if |path| >= 2 && path[0] == Key(DEFINITIONS) && path[1].Key? && path[1].key in pick
    then [path[0], Key(pick[path[1].key])] + path[2..]
    else path
  }

  /** A location that the renamed document does not have: a definition not picked. */
  predicate Gone(path: seq<Step>, pick: map<string, string>) {
    |path| >= 2 && path[0] == Key(DEFINITIONS) && !(path[1].Key? && path[1].key in pick)
  }

  lemma RenamedAt(t: Tree, node: Node, pick: map<string, string>, path: seq<Step>)
    requires HasDefinitions(t) && Picks(pick, Definitions(t).Keys) && path != [] && path != [Key(DEFINITIONS)]
    ensures Lookup(Renamed(t, node, pick), path) ==
      if Gone(path, pick) then None else Lookup(t, Before(path, pick))
  {
    var renamed := Renamed(t, node, pick);
    if path[0] == Key(DEFINITIONS) {
      assert Lookup(renamed, path) == Lookup(renamed.entries[DEFINITIONS], path[1..]);
      if !Gone(path, pick) {
        var before := Before(path, pick);
        assert before[1..][1..] == path[2..] == path[1..][1..];
        assert Lookup(t, before) == Lookup(t.entries[DEFINITIONS], before[1..]);
      }
    }
  }

  lemma {:induction false} SameShapeRewritten(a: Tree, b: Tree, refs: map<string, string>)
    requires ShapeOf(a) == ShapeOf(b)
    ensures ShapeOf(Rewrite(a, refs)) == ShapeOf(Rewrite(b, refs))
    decreases a, 0
  {
    match a
    case Leaf(_) =>
    case Opaque(_) =>
    case Mixed(_) =>
    case List(list) =>
      SameLength(a, b);
      forall i | 0 <= i < |list| ensures ShapeOf(Rewrite(list[i], refs)) == ShapeOf(Rewrite(b.list[i], refs)) {
        SameShapeItem(a, b, i);
        SameShapeRewritten(list[i], b.list[i], refs);
      }
      ListRewritten(a, b, refs);
    case Table(_, entries) =>
      SameKeys(a, b);
      forall k | k in entries
        ensures k in b.entries && ShapeOf(RewriteEntry(k, entries[k], refs)) == ShapeOf(RewriteEntry(k, b.entries[k], refs))
      {
        SameShapeAt(a, b, k);
        SameShapeRewritten(entries[k], b.entries[k], refs);
      }
      TableRewritten(a, b, refs);
  }

  lemma SameKeys(a: Tree, b: Tree)
    requires ShapeOf(a) == ShapeOf(b) && a.Table?
    ensures b.Table? && a.entries.Keys == b.entries.Keys
  {
    assert a.entries.Keys == ShapeOf(a).entries.Keys == ShapeOf(b).entries.Keys == b.entries.Keys;
  }

  lemma SameLength(a: Tree, b: Tree)
    requires ShapeOf(a) == ShapeOf(b) && a.List?
    ensures b.List? && |b.list| == |a.list|
  {
    assert |a.list| == |ShapeOf(a).list| == |ShapeOf(b).list| == |b.list|;
  }

  lemma ListRewritten(a: Tree, b: Tree, refs: map<string, string>)
    requires a.List? && b.List? && |a.list| == |b.list|
    requires forall i :: 0 <= i < |a.list| ==> ShapeOf(Rewrite(a.list[i], refs)) == ShapeOf(Rewrite(b.list[i], refs))
    ensures ShapeOf(Rewrite(a, refs)) == ShapeOf(Rewrite(b, refs))
  {
    assert ShapeOf(Rewrite(a, refs)).list == ShapeOf(Rewrite(b, refs)).list;
  }

  lemma TableRewritten(a: Tree, b: Tree, refs: map<string, string>)
    requires a.Table? && b.Table? && a.entries.Keys == b.entries.Keys
    requires forall k :: k in a.entries ==>
      ShapeOf(RewriteEntry(k, a.entries[k], refs)) == ShapeOf(RewriteEntry(k, b.entries[k], refs))
    ensures ShapeOf(Rewrite(a, refs)) == ShapeOf(Rewrite(b, refs))
  {
    assert ShapeOf(Rewrite(a, refs)).entries == ShapeOf(Rewrite(b, refs)).entries;
  }

  lemma SameShapeItem(a: Tree, b: Tree, i: nat)
    requires ShapeOf(a) == ShapeOf(b) && a.List? && i < |a.list|
    ensures b.List? && i < |b.list| && ShapeOf(a.list[i]) == ShapeOf(b.list[i])
  {
    SameLength(a, b);
    assert ShapeOf(a.list[i]) == ShapeOf(a).list[i] == ShapeOf(b).list[i] == ShapeOf(b.list[i]);
  }

  lemma SameShapeAt(a: Tree, b: Tree, key: string)
    requires ShapeOf(a) == ShapeOf(b) && a.Table?
    ensures b.Table? && a.entries.Keys == b.entries.Keys
    ensures key in a.entries ==> ShapeOf(a.entries[key]) == ShapeOf(b.entries[key])
  {
    SameKeys(a, b);
    if key in a.entries {
      assert ShapeOf(a.entries[key]) == ShapeOf(a).entries[key] == ShapeOf(b).entries[key] == ShapeOf(b.entries[key]);
    }
  }

  /** The definitions whose names become equal are copies of each other. */
  ghost predicate CollisionsAreCopies(t: Tree)
    requires HasDefinitions(t)
  {
    forall k, l :: k in Definitions(t) && l in Definitions(t) && Rename(k) == Rename(l) ==>
      ShapeOf(Definitions(t)[k]) == ShapeOf(Definitions(t)[l])
  }

  lemma SameShapeEntries(key: string, a: Tree, b: Tree, refs: map<string, string>)
    requires ShapeOf(a) == ShapeOf(b)
    ensures ShapeOf(RewriteEntry(key, a, refs)) == ShapeOf(RewriteEntry(key, b, refs))
  {
    SameShapeRewritten(a, b, refs);
  }

  /** Names that become equal do no harm when their definitions are copies of each other. */
  lemma CopiesPreserve(t: Tree, node: Node, pick: map<string, string>, refs: map<string, string>)
    requires HasDefinitions(t) && RefsFor(refs, Definitions(t).Keys) && Picks(pick, Definitions(t).Keys)
    requires CollisionsAreCopies(t)
    ensures Preserved(t, node, pick, refs)
  {
    var defs := Definitions(t);
    forall k, l | k in defs && l in defs && Rename(k) == Rename(l)
      ensures ShapeOf(RewriteEntry(Rename(k), defs[k], refs)) == ShapeOf(RewriteEntry(Rename(l), defs[l], refs))
    {
      SameShapeEntries(Rename(k), defs[k], defs[l], refs);
    }
    assert CollisionsAgree(t, refs);
    PreservedIff(t, node, refs);
  }

  /** A `$ref` at the end of the way, in whatever kind of mapping. */
  predicate ToRef(path: seq<Step>) {
    path != [] && (path[|path| - 1] == Key(REF) || path[|path| - 1] == Any(Str(REF)))
  }

  lemma {:induction false} NotOpenToRef(path: seq<Step>)
    requires ToRef(path)
    ensures !Open(path)
  {
    if |path| > 1 {
      assert path[1..][|path| - 2] == path[|path| - 1];
      NotOpenToRef(path[1..]);
    }
  }

  /** The name of the definition that a reference is about. */
  function NameIn(s: string): string {
    if PREFIX <= s then s[|PREFIX|..] else ""
  }

  lemma ReferenceAt(t: Tree, node: Node, pick: map<string, string>, refs: map<string, string>, path: seq<Step>, s: string)
    requires HasDefinitions(t) && Picks(pick, Definitions(t).Keys)
    requires ToRef(path) && !Gone(path, pick) && Lookup(t, Before(path, pick)) == Some(Leaf(s))
    ensures Lookup(Normalized(t, node, pick, refs), path) == Some(Leaf(if AtRef(path) then Redirect(s, refs) else s))
  {
    assert path != [Key(DEFINITIONS)] by {
      assert |DEFINITIONS| != |REF|;
    }
    NotOpenToRef(path);
    RenamedAt(t, node, pick, path);
    RewriteAt(Renamed(t, node, pick), refs, path);
  }

  /** An old name resolves in the normalized document only if it is the new one as well. */
  lemma OldNames(t: Tree, node: Node, pick: map<string, string>, refs: map<string, string>, k: string)
    requires HasDefinitions(t) && k in Definitions(t)
    requires Picks(pick, Definitions(t).Keys) && RefsFor(refs, Definitions(t).Keys)
    ensures Resolve(Normalized(t, node, pick, refs), PREFIX + k).Some? <==> '.' !in k
    ensures '.' !in k ==> Redirect(PREFIX + k, refs) == PREFIX + k
  {
    assert (PREFIX + k)[|PREFIX|..] == k;
    DefinitionsAfter(t, node, pick, refs);
    assert k in pick ==> Rename(pick[k]) == k;
    assert '.' !in k ==> Rename(k) == k;
  }

  /** If colliding definitions agree, what was picked for a new name reads like every
      definition that takes it. */
  lemma PickedReads(t: Tree, node: Node, pick: map<string, string>, refs: map<string, string>, k: string)
    requires HasDefinitions(t) && k in Definitions(t) && CollisionsAgree(t, refs)
    requires Picks(pick, Definitions(t).Keys) && RefsFor(refs, Definitions(t).Keys)
    ensures Reads(Resolve(Normalized(t, node, pick, refs), Redirect(PREFIX + k, refs)),
                  RewriteEntry(Rename(k), Definitions(t)[k], refs))
  {
    ResolvesToPicked(t, node, pick, refs, k);
    assert Rename(pick[Rename(k)]) == Rename(k);
  }

  /** In the normalized document this reference resolves to that definition, rewritten. */
  predicate Follows(t: Tree, after: Tree, refs: map<string, string>, s: string, k: string)
    requires HasDefinitions(t) && k in Definitions(t)
  {
    Reads(Resolve(after, s), RewriteEntry(Rename(k), Definitions(t)[k], refs))
  }

  lemma FollowsIff(
      t: Tree, node: Node, pick: map<string, string>, refs: map<string, string>, s: string, reached: bool)
    requires HasDefinitions(t) && Names(s, Definitions(t).Keys) && CollisionsAgree(t, refs)
    requires Picks(pick, Definitions(t).Keys) && RefsFor(refs, Definitions(t).Keys)
    ensures var now := if reached then Redirect(s, refs) else s;
      Follows(t, Normalized(t, node, pick, refs), refs, now, NameIn(s)) <==> reached || '.' !in NameIn(s)
  {
    assert s == PREFIX + NameIn(s);
    PickedReads(t, node, pick, refs, NameIn(s));
    OldNames(t, node, pick, refs, NameIn(s));
  }

  /** Every reference of the normalized document, at whatever location: one that named no
      definition is as it was. If colliding definitions agree, one that named a definition
      resolves to it in rewritten form, exactly if it is within reach of the rewriting or the
      definition kept its name. */
  lemma EveryReferenceFollows(
      t: Tree, node: Node, pick: map<string, string>, refs: map<string, string>, path: seq<Step>, s: string)
    requires HasDefinitions(t) && RefsFor(refs, Definitions(t).Keys) && Picks(pick, Definitions(t).Keys)
    requires ToRef(path) && !Gone(path, pick) && Lookup(t, Before(path, pick)) == Some(Leaf(s))
    ensures var after, now := Normalized(t, node, pick, refs), if AtRef(path) then Redirect(s, refs) else s;
      && Lookup(after, path) == Some(Leaf(now))
      && (!Names(s, Definitions(t).Keys) ==> now == s)
      && (Names(s, Definitions(t).Keys) && CollisionsAgree(t, refs) ==>
            (Follows(t, after, refs, now, NameIn(s)) <==> AtRef(path) || '.' !in NameIn(s)))
  {
    ReferenceAt(t, node, pick, refs, path, s);
    if Names(s, Definitions(t).Keys) && CollisionsAgree(t, refs) {
      FollowsIff(t, node, pick, refs, s, AtRef(path));
    }
  }

  lemma {:induction false} AtFirstRef(path: seq<Step>)
    requires path != [] && path[|path| - 1] == Key("$ref")
    requires forall i :: 0 <= i < |path| - 1 ==> path[i] != Key("$ref") && !path[i].Any?
    ensures AtRef(path) && ToRef(path)
  {
    if |path| > 1 {
      AtFirstRef(path[1..]);
    } else {
      assert path == [Key("$ref")];
    }
  }

  /** As it is in a file: where a document refers to a definition, outside of mappings with keys
      other than strings and of what is itself under a reference, it now refers to the name
      with underscores for dots, and there is a definition of that name. */
  lemma DottedReferenceIsRewritten(
      t: Tree, node: Node, pick: map<string, string>, refs: map<string, string>, path: seq<Step>, k: string, n: string)
    requires t.Table? && "definitions" in t.entries && t.entries["definitions"].Table?
    requires k in t.entries["definitions"].entries && |n| == |k|
    requires forall i :: 0 <= i < |k| ==> n[i] == if k[i] == '.' then '_' else k[i]
    requires RefsFor(refs, t.entries["definitions"].entries.Keys) && Picks(pick, t.entries["definitions"].entries.Keys)
    requires path != [] && path[|path| - 1] == Key("$ref")
    requires forall i :: 0 <= i < |path| - 1 ==> path[i] != Key("$ref") && !path[i].Any?
    requires path[0] != Key("definitions") && Lookup(t, path) == Some(Leaf("#/definitions/" + k))
    ensures Lookup(Normalized(t, node, pick, refs), path) == Some(Leaf("#/definitions/" + n))
    ensures Lookup(Normalized(t, node, pick, refs), [Key("definitions"), Key(n)]).Some?
  {
    AtFirstRef(path);
    assert n == Rename(k);
    ReferenceAt(t, node, pick, refs, path, "#/definitions/" + k);
    ResolvesToPicked(t, node, pick, refs, k);
    DefinitionIsThere(Normalized(t, node, pick, refs), n);
  }

  lemma DefinitionIsThere(t: Tree, n: string)
    requires t.Table? && "definitions" in t.entries && t.entries["definitions"].Table?
    requires n in t.entries["definitions"].entries
    ensures Lookup(t, [Key("definitions"), Key(n)]) == Some(t.entries["definitions"].entries[n])
  {
    var table := t.entries["definitions"];
    assert [Key("definitions"), Key(n)][1..] == [Key(n)] && [Key(n)][1..] == [];
    assert Lookup(table.entries[n], []) == Some(table.entries[n]);
    assert Lookup(table, [Key(n)]) == Some(table.entries[n]);
  }

  lemma NamesWithoutDots(names: set<string>, pick: map<string, string>, refs: map<string, string>)
    requires (forall n :: n in names ==> '.' !in n) && Picks(pick, names) && RefsFor(refs, names)
    ensures refs == map[] && pick.Keys == names && forall n :: n in pick ==> pick[n] == n
  {
    assert forall n :: n in names ==> Rename(n) == n;
    assert forall s :: s !in refs;
  }

  lemma RenamedToItself(t: Tree, node: Node, pick: map<string, string>)
    requires HasDefinitions(t) && pick.Keys == Definitions(t).Keys && forall n :: n in pick ==> pick[n] == n
    ensures Renamed(t, node, pick) == t.(entries := t.entries[DEFINITIONS := Table(node, Definitions(t))])
  {
    assert Picked(Definitions(t), pick) == Definitions(t);
  }

  /** Normalizing again renames and rewrites nothing, with or without collisions. */
  lemma NormalizedTwice(
    t: Tree, node: Node, pick: map<string, string>, refs: map<string, string>,
    node': Node, pick': map<string, string>, refs': map<string, string>)
    requires HasDefinitions(t) && RefsFor(refs, Definitions(t).Keys) && Picks(pick, Definitions(t).Keys)
    requires var once := Normalized(t, node, pick, refs);
      HasDefinitions(once) && RefsFor(refs', Definitions(once).Keys) && Picks(pick', Definitions(once).Keys)
    ensures var once := Normalized(t, node, pick, refs);
      Normalized(once, node', pick', refs') == once.(entries := once.entries[DEFINITIONS := Table(node', Definitions(once))])
  {
    var once := Normalized(t, node, pick, refs);
    DefinitionsAfter(t, node, pick, refs);
    assert forall n :: n in pick ==> '.' !in Rename(pick[n]);
    NamesWithoutDots(Definitions(once).Keys, pick', refs');
    RenamedToItself(once, node', pick');
    RewriteNothing(Renamed(once, node', pick'));
  }
}
