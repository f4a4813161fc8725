/** The server's event frames and the client's line reader (Server-sent events, sections
    9.2.5 and 9.2.6 of the WHATWG HTML Living Standard). */
module Sse {
  import opened Wrappers
  import opened Texts

  datatype Message = Message(kind: string, data: string)

  // ---------------------------------------------------------------------------
  // Trimming white space
  // ---------------------------------------------------------------------------

  /** `unicode.IsSpace`. */
  predicate IsSpace(c: char) {
    c in "\t\n\r " || c as int == 0x0B || c as int == 0x0C || c as int == 0x85 || c as int == 0xA0 || c as int == 0x1680
    || 0x2000 <= c as int <= 0x200A || c as int in {0x2028, 0x2029, 0x202F, 0x205F, 0x3000}
  }

  /** White space, character by character. */
  lemma WhiteSpace(c: char)
    ensures IsSpace(c) <==>
      c in "\t\n\U{0B}\U{0C}\r \U{85}\U{A0}\U{1680}\U{2000}\U{2001}\U{2002}\U{2003}\U{2004}\U{2005}\U{2006}"
        + "\U{2007}\U{2008}\U{2009}\U{200A}\U{2028}\U{2029}\U{202F}\U{205F}\U{3000}"
  {
  }

  function TrimLeft(s: string): string {
    if s != "" && IsSpace(s[0]) then TrimLeft(s[1..]) else s
  }

  function TrimRight(s: string): string {
    if s != "" && IsSpace(s[|s| - 1]) then TrimRight(s[..|s| - 1]) else s
  }

  function Trim(s: string): string {
    TrimRight(TrimLeft(s))
  }

  predicate Tight(s: string) {
    s == "" || (!IsSpace(s[0]) && !IsSpace(s[|s| - 1]))
  }

  /** What a frame can carry: no line break and no white space around it. */
  predicate Clean(s: string) {
    '\n' !in s && Tight(s)
  }

  lemma {:induction false} TrimRightShape(s: string)
    ensures TrimRight(s) <= s && (TrimRight(s) != "" ==> !IsSpace(TrimRight(s)[|TrimRight(s)| - 1]))
    ensures forall i :: |TrimRight(s)| <= i < |s| ==> IsSpace(s[i])
  {
    if s != "" && IsSpace(s[|s| - 1]) {
      TrimRightShape(s[..|s| - 1]);
    }
  }

  lemma {:induction false} TrimLeftShape(s: string)
    ensures |TrimLeft(s)| <= |s| && TrimLeft(s) == s[|s| - |TrimLeft(s)|..]
    ensures TrimLeft(s) != "" ==> !IsSpace(TrimLeft(s)[0])
  {
    if s != "" && IsSpace(s[0]) {
      TrimLeftShape(s[1..]);
    }
  }

  /** A trimmed line has no space around it, and no line break if only its end had one. */
  lemma TrimIsClean(s: string)
    requires s != "" ==> '\n' !in s[..|s| - 1]
    ensures Clean(Trim(s))
  {
    var left := TrimLeft(s);
    TrimLeftShape(s);
    TrimRightShape(left);
    var t := Trim(s);
    if t != "" {
      assert t[|t| - 1] != '\n' && left[..|t|] == t;
      forall i | 0 <= i < |t| ensures t[i] != '\n' {
        assert t[i] == left[i] == s[|s| - |left| + i];
        if i < |t| - 1 {
          assert s[|s| - |left| + i] == s[..|s| - 1][|s| - |left| + i];
        }
      }
    }
  }

  lemma TrimTight(s: string)
    requires Tight(s)
    ensures Trim(s) == s && TrimRight(s) == s
  {
  }

  /** A field line as the server writes it, once the client has trimmed it and cut its name. */
  lemma FieldRoundTrip(name: string, value: string)
    requires |name| > 1 && !IsSpace(name[0]) && !IsSpace(name[|name| - 1]) && Clean(value)
    ensures HasPrefix(Trim(name + " " + value + "\n"), name)
    ensures Trim(TrimPrefix(Trim(name + " " + value + "\n"), name)) == value
  {
    var body := name + " " + value;
    var line := body + "\n";
    assert line[..|line| - 1] == body && IsSpace('\n');
    assert TrimLeft(line) == line && TrimRight(line) == TrimRight(body);
    if value == "" {
      assert body[..|body| - 1] == name && IsSpace(' ');
      TrimTight(name);
      assert Trim(line) == name;
    } else {
      assert body[|body| - 1] == value[|value| - 1];
      assert Trim(line) == body && body[|name|..] == " " + value;
      assert (" " + value)[1..] == value;
      TrimTight(value);
    }
  }

  // ---------------------------------------------------------------------------
  // Writing and reading
  // ---------------------------------------------------------------------------

  function Frame(m: Message): string {
    "event: " + m.kind + "\n" + ("data: " + m.data + "\n" + "\n")
  }

  function Frames(ms: seq<Message>): string {
    if ms == [] then "" else Frame(ms[0]) + Frames(ms[1..])
  }

  /** `ReadString('\n')`: a line with its line break, or nothing when the stream ends first. */
  function ReadLine(s: string): (r: Option<(string, string)>)
    ensures r.Some? ==> |r.value.1| < |s| && s == r.value.0 + r.value.1
    ensures r.Some? ==> r.value.0 != "" && '\n' !in r.value.0[..|r.value.0| - 1]
  {
    var i := IndexOf(s, '\n');
    if i == |s| then None
    else
      assert s[..i + 1][..i] == s[..i];
      Some((s[..i + 1], s[i + 1..]))
  }

  /** What the client makes of a stream that ends here. */
  function Parse(s: string): seq<Message>
    decreases |s|
  {
    match ReadLine(s)
    case None => []
    case Some((first, rest)) =>
      var line := Trim(first);
      if !HasPrefix(line, "event:") then Parse(rest)
      else
        var kind := Trim(TrimPrefix(line, "event:"));
        match ReadLine(rest)
        case None => []
        case Some((second, after)) =>
          var line := Trim(second);
          if HasPrefix(line, "data:") then [Message(kind, Trim(TrimPrefix(line, "data:")))] + Parse(after) else Parse(after)
  }

  predicate CleanMessage(m: Message) {
    Clean(m.kind) && Clean(m.data)
  }

  lemma ReadLineCut(line: string, rest: string)
    requires '\n' !in line
    ensures ReadLine(line + "\n" + rest) == Some((line + "\n", rest))
  {
    var s := line + "\n" + rest;
    assert s[..|line|] == line && s[|line|] == '\n';
    IndexOfUnique(s, '\n', |line|);
    assert s[..|line| + 1] == line + "\n" && s[|line| + 1..] == rest;
  }

  lemma ParseFields(kind: string, data: string, tail: string)
    requires '\n' !in kind && '\n' !in data
    requires HasPrefix(Trim(kind + "\n"), "event:") && HasPrefix(Trim(data + "\n"), "data:")
    ensures Parse(kind + "\n" + (data + "\n" + tail)) ==
      [Message(Trim(TrimPrefix(Trim(kind + "\n"), "event:")), Trim(TrimPrefix(Trim(data + "\n"), "data:")))] + Parse(tail)
  {
    ReadLineCut(kind, data + "\n" + tail);
    ReadLineCut(data, tail);
  }

  lemma ParseBlankLine(rest: string)
    ensures Parse("\n" + rest) == Parse(rest)
  {
    ReadLineCut("", rest);
    assert "" + "\n" + rest == "\n" + rest && "" + "\n" == "\n";
    assert Trim("\n") == "" by { assert "\n"[1..] == ""; }
  }

  lemma ParseFrame(m: Message, rest: string)
    requires CleanMessage(m)
    ensures Parse(Frame(m) + rest) == [m] + Parse(rest)
  {
    var kind, data := "event:" + " " + m.kind, "data:" + " " + m.data;
    assert "event: " + m.kind == kind && "data: " + m.data == data;
    assert Frame(m) + rest == kind + "\n" + (data + "\n" + ("\n" + rest));
    FieldRoundTrip("event:", m.kind);
    FieldRoundTrip("data:", m.data);
    ParseFields(kind, data, "\n" + rest);
    ParseBlankLine(rest);
  }

  /** What the client makes of a written event, letter by letter, and of what comes after it. */
  lemma EventIsRead(kind: string, data: string, rest: string)
    requires Clean(kind) && Clean(data)
    ensures Parse("event: " + kind + "\n" + ("data: " + data + "\n" + "\n") + rest) == [Message(kind, data)] + Parse(rest)
    ensures Frame(Message(kind, data)) == "event: " + kind + "\n" + ("data: " + data + "\n" + "\n")
  {
    ParseFrame(Message(kind, data), rest);
  }

  /** A line of any other kind is passed over. */
  lemma OtherLineIsSkipped(line: string, rest: string)
    requires '\n' !in line && !HasPrefix(Trim(line + "\n"), "event:")
    ensures Parse(line + "\n" + rest) == Parse(rest)
  {
    ReadLineCut(line, rest);
  }

  lemma {:induction false} ParseFrames(ms: seq<Message>)
    requires forall i :: 0 <= i < |ms| ==> CleanMessage(ms[i])
    ensures Parse(Frames(ms)) == ms
  {
    if ms != [] {
      ParseFrame(ms[0], Frames(ms[1..]));
      ParseFrames(ms[1..]);
    }
  }

  lemma {:induction false} ParsedAreClean(s: string)
    ensures forall i :: 0 <= i < |Parse(s)| ==> CleanMessage(Parse(s)[i])
    decreases |s|
  {
    match ReadLine(s)
    case None =>
    case Some((first, rest)) =>
      ParsedAreClean(rest);
      TrimIsClean(first);
      FieldIsClean(first, "event:");
      match ReadLine(rest)
      case None =>
      case Some((second, after)) =>
        ParsedAreClean(after);
        TrimIsClean(second);
        FieldIsClean(second, "data:");
  }

  lemma FieldIsClean(line: string, name: string)
    requires line != "" && '\n' !in line[..|line| - 1]
    ensures Clean(Trim(TrimPrefix(Trim(line), name)))
  {
    TrimIsClean(line);
    var t := Trim(line);
    var cut := TrimPrefix(t, name);
    assert forall c :: c in cut ==> c in t;
    assert cut != "" ==> forall c :: c in cut[..|cut| - 1] ==> c in cut;
    TrimIsClean(cut);
  }

  /** The client reads back exactly what the server sent if and only if every kind and every
      data is free of line breaks and of white space around it. */
  lemma RoundTripIff(ms: seq<Message>)
    ensures Parse(Frames(ms)) == ms <==> forall i :: 0 <= i < |ms| ==> CleanMessage(ms[i])
  {
    if forall i :: 0 <= i < |ms| ==> CleanMessage(ms[i]) {
      ParseFrames(ms);
    } else {
      ParsedAreClean(Frames(ms));
    }
  }

  lemma ReadLinePrefix(a: string, b: string)
    requires a <= b && ReadLine(a).Some?
    ensures ReadLine(b).Some? && ReadLine(b).value.0 == ReadLine(a).value.0 && ReadLine(a).value.1 <= ReadLine(b).value.1
  {
    var i := IndexOf(a, '\n');
    assert b[..i] == a[..i] && b[i] == a[i];
    IndexOfUnique(b, '\n', i);
  }

  /** Reading more of a stream only adds messages at the end. */
  lemma {:induction false} ParseIsMonotone(a: string, b: string)
    requires a <= b
    ensures Parse(a) <= Parse(b)
    decreases |a|
  {
    if ReadLine(a).Some? {
      ReadLinePrefix(a, b);
      var rest, rest' := ReadLine(a).value.1, ReadLine(b).value.1;
      ParseIsMonotone(rest, rest');
      if ReadLine(rest).Some? {
        ReadLinePrefix(rest, rest');
        ParseIsMonotone(ReadLine(rest).value.1, ReadLine(rest').value.1);
      }
    }
  }

  /** A connection cut at any character delivers whole messages only, from the front. */
  lemma CutStreamGivesPrefix(ms: seq<Message>, n: nat)
    requires n <= |Frames(ms)| && forall i :: 0 <= i < |ms| ==> CleanMessage(ms[i])
    ensures Parse(Frames(ms)[..n]) <= ms
  {
    ParseIsMonotone(Frames(ms)[..n], Frames(ms));
    ParseFrames(ms);
  }

  /** The client's reading loop. */
  method StreamEvents(body: string) returns (ms: seq<Message>)
    ensures ms == Parse(body)
  {
    ms := [];
    var rest := body;
    while true
      invariant Parse(body) == ms + Parse(rest)
      decreases |rest|
    {
      var read := ReadLine(rest);
      if read.None? {
        return;
      }
      var line := Trim(read.value.0);
      rest := read.value.1;
      if HasPrefix(line, "event:") {
        var kind := Trim(TrimPrefix(line, "event:"));
        read := ReadLine(rest);
        if read.None? {
          return;
        }
        line := Trim(read.value.0);
        rest := read.value.1;
        if HasPrefix(line, "data:") {
          ms := ms + [Message(kind, Trim(TrimPrefix(line, "data:")))];
        }
      }
    }
  }
}
