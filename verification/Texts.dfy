/** The string operations the agent uses: splitting, prefixes, joining. */
module Texts {
  import opened Wrappers

  predicate HasPrefix(s: string, prefix: string) {
    prefix <= s
  }

  predicate HasSuffix(s: string, suffix: string) {
    |suffix| <= |s| && s[|s| - |suffix|..] == suffix
  }

  function TrimPrefix(s: string, prefix: string): string {
    if prefix <= s then s[|prefix|..] else s
  }

  /** Position of the first occurrence of c, or the length. */
  function IndexOf(s: string, c: char): (i: nat)
    ensures i <= |s| && c !in s[..i] && (i < |s| ==> s[i] == c)
  {
    if s == "" then 0 else if s[0] == c then 0
    else
      var i := IndexOf(s[1..], c);
      assert s[..1 + i] == [s[0]] + s[1..][..i];
      1 + i
  }

  /** `strings.Split` on a one-character separator: always at least one piece. */
  function Split(s: string, c: char): (pieces: seq<string>)
    ensures |pieces| > 0
    decreases |s|
  {
    var i := IndexOf(s, c);
    if i == |s| then [s] else [s[..i]] + Split(s[i + 1..], c)
  }

  lemma IndexOfUnique(s: string, c: char, i: nat)
    requires i <= |s| && c !in s[..i] && (i < |s| ==> s[i] == c)
    ensures IndexOf(s, c) == i
  {
    var j := IndexOf(s, c);
    assert forall k :: 0 <= k < i ==> s[k] == s[..i][k];
    assert forall k :: 0 <= k < j ==> s[k] == s[..j][k];
  }

  /** A piece without the separator comes back whole. */
  lemma SplitPiece(piece: string, sep: string, c: char, rest: string)
    requires c !in piece && |sep| == 1 && sep[0] == c
    ensures Split(piece + sep + rest, c) == [piece] + Split(rest, c)
  {
    var s := piece + sep + rest;
    assert s[..|piece|] == piece && s[|piece| + 1..] == rest;
    IndexOfUnique(s, c, |piece|);
  }

  lemma LastLine(line: string)
    requires '\n' !in line
    ensures Split(line + "\n", '\n') == [line, ""]
  {
    SplitPiece(line, "\n", '\n', "");
    assert line + "\n" + "" == line + "\n";
  }

  lemma ConsLine(line: string, rest: string, pieces: seq<string>)
    requires '\n' !in line && Split(rest, '\n') == pieces
    ensures Split(line + "\n" + rest, '\n') == [line] + pieces
  {
    SplitPiece(line, "\n", '\n', rest);
  }

  lemma ThreeLines(a: string, b: string, c: string)
    requires '\n' !in a && '\n' !in b && '\n' !in c
    ensures Split(a + "\n" + (b + "\n" + (c + "\n")), '\n') == [a] + ([b] + [c, ""])
  {
    LastLine(c);
    ConsLine(b, c + "\n", [c, ""]);
    ConsLine(a, b + "\n" + (c + "\n"), [b] + [c, ""]);
  }

  /** These pieces one after the other. */
  function Joined<T>(parts: seq<seq<T>>): seq<T> {
    if parts == [] then [] else parts[0] + Joined(parts[1..])
  }

  lemma {:induction false} JoinedConcat<T>(a: seq<seq<T>>, b: seq<seq<T>>)
    ensures Joined(a + b) == Joined(a) + Joined(b)
  {
    if a == [] {
      assert a + b == b;
    } else {
      assert (a + b)[0] == a[0] && (a + b)[1..] == a[1..] + b;
      JoinedConcat(a[1..], b);
      assert Joined(a) == a[0] + Joined(a[1..]);
    }
  }

  /** Each piece is there, after those before it and before those after it. */
  lemma JoinedAt<T>(parts: seq<seq<T>>, i: nat)
    requires i < |parts|
    ensures Joined(parts) == Joined(parts[..i]) + parts[i] + Joined(parts[i + 1..])
  {
    assert parts == parts[..i] + parts[i..] && parts[i..][0] == parts[i] && parts[i..][1..] == parts[i + 1..];
    JoinedConcat(parts[..i], parts[i..]);
  }

  function Ended(pieces: seq<string>, c: char): seq<string> {
    seq(|pieces|, i requires 0 <= i < |pieces| => pieces[i] + [c])
  }

  lemma EndedCons(piece: string, rest: seq<string>, c: char)
    ensures Joined(Ended([piece] + rest, c)) == piece + [c] + Joined(Ended(rest, c))
  {
    var all := Ended([piece] + rest, c);
    assert all[0] == piece + [c] && all[1..] == Ended(rest, c);
  }

  lemma {:induction false} PiecesHaveNone(s: string, c: char)
    ensures forall k :: 0 <= k < |Split(s, c)| ==> c !in Split(s, c)[k]
    decreases |s|
  {
    var i := IndexOf(s, c);
    if i < |s| {
      PiecesHaveNone(s[i + 1..], c);
    } else {
      assert s[..i] == s;
    }
  }

  lemma {:induction false} PiecesJoin(s: string, c: char)
    ensures Joined(Ended(Split(s, c), c)) == s + [c]
    decreases |s|
  {
    var i := IndexOf(s, c);
    if i < |s| {
      PiecesJoin(s[i + 1..], c);
      EndedCons(s[..i], Split(s[i + 1..], c), c);
      assert s + [c] == s[..i] + [c] + (s[i + 1..] + [c]);
    } else {
      EndedCons(s, [], c);
      assert [s] + [] == [s] && Ended([], c) == [];
    }
  }

  /** The pieces of a split are without the separator, and put together with one separator after
      each they are the string and one separator. */
  lemma SplitReads(s: string, c: char)
    ensures forall k :: 0 <= k < |Split(s, c)| ==> c !in Split(s, c)[k]
    ensures Joined(Ended(Split(s, c), c)) == s + [c]
  {
    PiecesHaveNone(s, c);
    PiecesJoin(s, c);
  }

  /** Position of the first ": ", or the length: the split point of `SplitN(line, ": ", 2)`. */
  function IndexOfColon(s: string): (i: nat)
    ensures i <= |s|
    ensures i < |s| ==> i + 1 < |s| && s[i] == ':' && s[i + 1] == ' '
    ensures forall j :: 0 <= j < i && j + 1 < |s| ==> !(s[j] == ':' && s[j + 1] == ' ')
  {
    if |s| < 2 then |s|
    else if s[0] == ':' && s[1] == ' ' then 0
    else
      var i := IndexOfColon(s[1..]);
      assert forall j :: 1 <= j < 1 + i && j + 1 < |s| ==> s[j] == s[1..][j - 1] && s[j + 1] == s[1..][j];
      1 + i
  }

  /** Key and value of a "key: value" line; a value may contain ": " itself. */
  function KeyValue(line: string): Option<(string, string)> {
    var i := IndexOfColon(line);
    if i == |line| then None else Some((line[..i], line[i + 2..]))
  }

  lemma KeyValueRoundTrip(key: string, value: string)
    requires ':' !in key
    ensures KeyValue(key + ": " + value) == Some((key, value))
  {
    var line := key + ": " + value;
    var i := IndexOfColon(line);
    assert line[|key|] == ':' && line[|key| + 1] == ' ';
    assert line[..|key|] == key && line[|key| + 2..] == value;
    assert forall k :: 0 <= k < |key| ==> line[k] == key[k];
  }

  lemma CancelSuffix(a: string, b: string, tail: string)
    requires a + tail == b + tail
    ensures a == b
  {
    assert a == (a + tail)[..|a|];
    assert b == (b + tail)[..|b|];
  }

  /** No path with this separator can start with a directory that it does not. */
  lemma PrefixEndsAtSlash(dir: string, s: string, tail: string)
    requires '/' !in tail
    requires dir + "/" <= s + tail
    ensures dir + "/" <= s
  {
    var d := dir + "/";
    assert d[|d| - 1] == '/';
    assert forall k :: 0 <= k < |tail| ==> tail[k] != '/';
    assert forall k :: |s| <= k < |s + tail| ==> (s + tail)[k] == tail[k - |s|];
    assert (s + tail)[|d| - 1] == '/';
    assert s[..|d|] == (s + tail)[..|d|];
  }
}
