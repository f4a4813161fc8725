/** Rebuilding a model's answer from its stream: the provider assembles tool calls from
    fragments, the dispatcher adds up the chunks the provider sends. */
module Stream {
  import opened Wrappers
  import opened States

  /** A piece of a tool call; the server says which call by index. */
  datatype Fragment = Fragment(index: Option<int>, id: string, name: string, arguments: string)

  /** One message of the server's stream. Only the first choice is looked at. */
  datatype Packet = NoChoice | Choice(content: string, fragments: seq<Fragment>, finishReason: string)

  datatype Chunk = Chunk(content: string, toolCalls: seq<ToolCall>)

  // ---------------------------------------------------------------------------
  // What a stream says
  // ---------------------------------------------------------------------------

  predicate Finishes(p: Packet) {
    p.Choice? && p.finishReason != ""
  }

  /** How many packets are read, from position n on: up to the first that finishes the answer. */
  function Stop(stream: seq<Packet>, n: nat): (stop: nat)
    requires n <= |stream|
    ensures n <= stop <= |stream|
    ensures forall k :: n <= k < stop - 1 ==> !Finishes(stream[k])
    ensures stop < |stream| ==> n < stop && Finishes(stream[stop - 1])
    decreases |stream| - n
  {
    if n == |stream| then n else if Finishes(stream[n]) then n + 1 else Stop(stream, n + 1)
  }

  function Heard(stream: seq<Packet>): seq<Packet> {
    stream[..Stop(stream, 0)]
  }

  predicate Finished(stream: seq<Packet>) {
    var heard := Heard(stream);
    heard != [] && Finishes(heard[|heard| - 1])
  }

  function Text(packets: seq<Packet>): string {
    if packets == [] then ""
    else
      var last := packets[|packets| - 1];
      Text(packets[..|packets| - 1]) + (if last.Choice? then last.content else "")
  }

  function Fragments(packets: seq<Packet>): seq<Fragment> {
    if packets == [] then []
    else
      var last := packets[|packets| - 1];
      Fragments(packets[..|packets| - 1]) + (if last.Choice? then last.fragments else [])
  }

  function Indices(fragments: seq<Fragment>): set<int> {
    set f | f in fragments && f.index.Some? :: f.index.value
  }

  predicate For(f: Fragment, index: int) {
    f.index == Some(index)
  }

  function Arguments(fragments: seq<Fragment>, index: int): string {
    if fragments == [] then ""
    else
      var last := fragments[|fragments| - 1];
      Arguments(fragments[..|fragments| - 1], index) + (if For(last, index) then last.arguments else "")
  }

  /** The last non-empty id sent for a call, and likewise its last non-empty name. */
  function LastID(fragments: seq<Fragment>, index: int): string {
    if fragments == [] then ""
    else
      var last := fragments[|fragments| - 1];
      if For(last, index) && last.id != "" then last.id else LastID(fragments[..|fragments| - 1], index)
  }

  function LastName(fragments: seq<Fragment>, index: int): string {
    if fragments == [] then ""
    else
      var last := fragments[|fragments| - 1];
      if For(last, index) && last.name != "" then last.name else LastName(fragments[..|fragments| - 1], index)
  }

  function Assembled(fragments: seq<Fragment>, index: int): ToolCall {
    ToolCall(LastID(fragments, index), LastName(fragments, index), Arguments(fragments, index))
  }

  ghost predicate Distinct(numbers: seq<int>) {
    forall i, j :: 0 <= i < j < |numbers| ==> numbers[i] != numbers[j]
  }

  /** The calls are those of the fragments, each index once, in the order the indices say. */
  ghost predicate Lists(calls: seq<ToolCall>, order: seq<int>, fragments: seq<Fragment>) {
    && |calls| == |order|
    && Distinct(order)
    && (forall i :: i in order <==> i in Indices(fragments))
    && (forall k :: 0 <= k < |order| ==> calls[k] == Assembled(fragments, order[k]))
  }

  // ---------------------------------------------------------------------------
  // The provider
  // ---------------------------------------------------------------------------

  function Contents(chunks: seq<Chunk>): string {
    if chunks == [] then "" else Contents(chunks[..|chunks| - 1]) + chunks[|chunks| - 1].content
  }

  function Calls(chunks: seq<Chunk>): seq<ToolCall> {
    if chunks == [] then [] else Calls(chunks[..|chunks| - 1]) + chunks[|chunks| - 1].toolCalls
  }

  lemma SnocChunk(chunks: seq<Chunk>, c: Chunk)
    ensures Contents(chunks + [c]) == Contents(chunks) + c.content
    ensures Calls(chunks + [c]) == Calls(chunks) + c.toolCalls
  {
    assert (chunks + [c])[..|chunks|] == chunks;
  }

  lemma SnocFragment(fragments: seq<Fragment>, f: Fragment)
    ensures var all := fragments + [f];
      && Indices(all) == Indices(fragments) + (if f.index.Some? then {f.index.value} else {})
      && (forall i :: Arguments(all, i) == Arguments(fragments, i) + (if For(f, i) then f.arguments else ""))
      && (forall i :: LastID(all, i) == if For(f, i) && f.id != "" then f.id else LastID(fragments, i))
      && (forall i :: LastName(all, i) == if For(f, i) && f.name != "" then f.name else LastName(fragments, i))
  {
    var all := fragments + [f];
    assert all[..|fragments|] == fragments;
    forall i ensures i in Indices(all) <==> i in Indices(fragments) || f.index == Some(i) {
      if i in Indices(fragments) {
        var g :| g in fragments && g.index == Some(i);
        assert g in all;
      }
      assert f in all;
    }
  }

  ghost predicate Builds(builder: map<int, ToolCall>, fragments: seq<Fragment>) {
    && builder.Keys == Indices(fragments)
    && forall i :: i in builder ==> builder[i] == Assembled(fragments, i)
  }

  lemma {:induction false} UnseenIndex(fragments: seq<Fragment>, index: int)
    requires index !in Indices(fragments)
    ensures Assembled(fragments, index) == ToolCall("", "", "")
  {
    if fragments != [] {
      var last := fragments[|fragments| - 1];
      assert forall f :: f in fragments[..|fragments| - 1] ==> f in fragments;
      UnseenIndex(fragments[..|fragments| - 1], index);
      assert last in fragments;
    }
  }

  /** Merge one fragment into the calls under construction; one without an index is ignored. */
  method MergeOne(builder: map<int, ToolCall>, ghost seen: seq<Fragment>, f: Fragment)
    returns (merged: map<int, ToolCall>)
    requires Builds(builder, seen)
    ensures Builds(merged, seen + [f])
  {
    SnocFragment(seen, f);
    merged := builder;
    if f.index.Some? {
      var i := f.index.value;
      var call := ToolCall(f.id, f.name, "");
      if i in builder {
        call := builder[i];
      } else {
        UnseenIndex(seen, i);
      }
      call := call.(arguments := call.arguments + f.arguments);
      if f.id != "" {
        call := call.(id := f.id);
      }
      if f.name != "" {
        call := call.(name := f.name);
      }
      assert call == Assembled(seen + [f], i);
      merged := builder[i := call];
    }
  }

  /** The inner loop over one packet's fragments. */
  method Merge(builder: map<int, ToolCall>, ghost seen: seq<Fragment>, fragments: seq<Fragment>)
    returns (merged: map<int, ToolCall>)
    requires Builds(builder, seen)
    ensures Builds(merged, seen + fragments)
  {
    merged := builder;
    assert seen + fragments[..0] == seen;
    for k := 0 to |fragments|
      invariant Builds(merged, seen + fragments[..k])
    {
      merged := MergeOne(merged, seen + fragments[..k], fragments[k]);
      assert seen + fragments[..k + 1] == seen + fragments[..k] + [fragments[k]];
    }
    assert seen + fragments[..|fragments|] == seen + fragments;
  }

  /** Emit the finished calls; a Go map is visited in no particular order. */
  method Drain(builder: map<int, ToolCall>) returns (calls: seq<ToolCall>, ghost order: seq<int>)
    ensures |calls| == |order| && (forall i, j :: 0 <= i < j < |order| ==> order[i] != order[j])
    ensures forall i :: i in order <==> i in builder
    ensures builder == map[] ==> order == []
    ensures forall k :: 0 <= k < |order| ==> order[k] in builder && calls[k] == builder[order[k]]
  {
    calls, order := [], [];
    var left := builder.Items;
    while left != {}
      invariant left <= builder.Items && |calls| == |order|
      invariant builder == map[] ==> left == {} && order == []
      invariant forall i, j :: 0 <= i < j < |order| ==> order[i] != order[j]
      invariant forall i :: i in order <==> i in builder && (i, builder[i]) !in left
      invariant forall k :: 0 <= k < |order| ==> order[k] in builder && calls[k] == builder[order[k]]
      decreases left
    {
      var entry :| entry in left;
      assert entry == (entry.0, builder[entry.0]);
      calls, order, left := calls + [entry.1], order + [entry.0], left - {entry};
    }
  }

  lemma TextAndFragmentsGrow(stream: seq<Packet>, n: nat)
    requires n < |stream|
    ensures var p := stream[n];
      && Text(stream[..n + 1]) == Text(stream[..n]) + (if p.Choice? then p.content else "")
      && Fragments(stream[..n + 1]) == Fragments(stream[..n]) + (if p.Choice? then p.fragments else [])
  {
    assert stream[..n + 1][..n] == stream[..n];
  }

  /** Pass a piece of text on, unless it is empty. */
  method PassOn(chunks: seq<Chunk>, content: string) returns (more: seq<Chunk>)
    ensures Contents(more) == Contents(chunks) + content && Calls(more) == Calls(chunks)
  {
    more := chunks;
    if content != "" {
      SnocChunk(chunks, Chunk(content, []));
      more := chunks + [Chunk(content, [])];
    }
  }

  /** Send the finished calls in one chunk, if there are any. */
  method Finish(chunks: seq<Chunk>, builder: map<int, ToolCall>, ghost fragments: seq<Fragment>)
    returns (all: seq<Chunk>, ghost order: seq<int>)
    requires Calls(chunks) == [] && Builds(builder, fragments)
    ensures Contents(all) == Contents(chunks) && Lists(Calls(all), order, fragments)
  {
    var calls;
    calls, order := Drain(builder);
    all := chunks;
    if |builder| > 0 {
      SnocChunk(chunks, Chunk("", calls));
      all := chunks + [Chunk("", calls)];
      assert Calls(all) == [] + calls == calls;
    } else {
      assert builder == map[];
    }
  }

  /** The provider's side of a stream. Text is passed on as it comes; tool calls are sent in
      one chunk when a finish reason arrives, and not at all if the stream just ends. */
  method CallStream(stream: seq<Packet>) returns (chunks: seq<Chunk>, ghost order: seq<int>)
    ensures Contents(chunks) == Text(Heard(stream))
    ensures Finished(stream) ==> Lists(Calls(chunks), order, Fragments(Heard(stream)))
    ensures !Finished(stream) ==> Calls(chunks) == []
  {
    chunks, order := [], [];
    var builder: map<int, ToolCall> := map[];
    var n := 0;
    while n < |stream|
      invariant n <= |stream|
      invariant Stop(stream, 0) == Stop(stream, n) && (n > 0 ==> !Finishes(stream[n - 1]))
      invariant Contents(chunks) == Text(stream[..n]) && Calls(chunks) == []
      invariant Builds(builder, Fragments(stream[..n]))
    {
      var packet := stream[n];
      ghost var seen := Fragments(stream[..n]);
      TextAndFragmentsGrow(stream, n);
      n := n + 1;
      if packet.NoChoice? {
        assert seen + [] == seen && Text(stream[..n]) == Text(stream[..n - 1]);
        continue;
      }
      chunks := PassOn(chunks, packet.content);
      builder := Merge(builder, seen, packet.fragments);
      if packet.finishReason != "" {
        chunks, order := Finish(chunks, builder, Fragments(stream[..n]));
        return;
      }
    }
    assert stream[..n] == stream == Heard(stream);
  }

  // ---------------------------------------------------------------------------
  // The dispatcher
  // ---------------------------------------------------------------------------

  function Concat(deltas: seq<string>): string {
    if deltas == [] then "" else Concat(deltas[..|deltas| - 1]) + deltas[|deltas| - 1]
  }

  /** Add the chunks up; every non-empty piece of text is also a token event of its own. */
  method Consume(chunks: seq<Chunk>) returns (content: string, calls: seq<ToolCall>, tokens: seq<string>)
    ensures content == Contents(chunks) && calls == Calls(chunks)
    ensures Concat(tokens) == content && "" !in tokens
  {
    content, calls, tokens := "", [], [];
    assert chunks[..0] == [];
    for k := 0 to |chunks|
      invariant content == Contents(chunks[..k]) && calls == Calls(chunks[..k])
      invariant Concat(tokens) == content && "" !in tokens
    {
      SnocChunk(chunks[..k], chunks[k]);
      assert chunks[..k + 1] == chunks[..k] + [chunks[k]];
      if chunks[k].content != "" {
        content := content + chunks[k].content;
        assert (tokens + [chunks[k].content])[..|tokens|] == tokens;
        tokens := tokens + [chunks[k].content];
      }
      if |chunks[k].toolCalls| > 0 {
        calls := calls + chunks[k].toolCalls;
      }
    }
    assert chunks[..|chunks|] == chunks;
  }

  // ---------------------------------------------------------------------------
  // What is heard, in so many words
  // ---------------------------------------------------------------------------

  /** A stream is heard up to its first packet with a finish reason, that one included, and to
      its end if there is none. */
  lemma HeardUpToFinish(stream: seq<Packet>, n: nat)
    requires n <= |stream| && forall k :: 0 <= k < n ==> stream[k].NoChoice? || stream[k].finishReason == ""
    requires n < |stream| ==> stream[n].Choice? && stream[n].finishReason != ""
    ensures Heard(stream) == (if n < |stream| then stream[..n + 1] else stream) && (Finished(stream) <==> n < |stream|)
  {
    var stop := Stop(stream, 0);
    if n < |stream| {
      assert Finishes(stream[n]);
      assert stop == n + 1;
    } else {
      assert forall k :: 0 <= k < |stream| ==> !Finishes(stream[k]);
      assert stop == |stream| && stream[..stop] == stream;
    }
  }

  lemma Middle<T>(a: seq<T>, x: T, b: seq<T>)
    ensures b == [] ==> a + [x] + b == a + [x] && (a + [x])[..|a|] == a
    ensures b != [] ==> (a + [x] + b)[..|a| + |b|] == a + [x] + b[..|b| - 1] && (a + [x] + b)[|a| + |b|] == b[|b| - 1]
  {
  }

  /** Each packet's text and fragments are there, between those before it and those after it. */
  lemma {:induction false} PacketInOrder(a: seq<Packet>, p: Packet, b: seq<Packet>)
    ensures Text(a + [p] + b) == Text(a) + (if p.Choice? then p.content else "") + Text(b)
    ensures Fragments(a + [p] + b) == Fragments(a) + (if p.Choice? then p.fragments else []) + Fragments(b)
  {
    Middle(a, p, b);
    if b != [] {
      PacketInOrder(a, p, b[..|b| - 1]);
    }
  }

  /** So are a chunk's text and calls, a fragment's arguments for its own call, and a token. */
  lemma {:induction false} ChunkInOrder(a: seq<Chunk>, c: Chunk, b: seq<Chunk>)
    ensures Contents(a + [c] + b) == Contents(a) + c.content + Contents(b)
    ensures Calls(a + [c] + b) == Calls(a) + c.toolCalls + Calls(b)
  {
    Middle(a, c, b);
    if b != [] {
      ChunkInOrder(a, c, b[..|b| - 1]);
    }
  }

  lemma {:induction false} FragmentInOrder(a: seq<Fragment>, f: Fragment, b: seq<Fragment>, index: int)
    ensures Arguments(a + [f] + b, index) ==
      Arguments(a, index) + (if f.index == Some(index) then f.arguments else "") + Arguments(b, index)
  {
    Middle(a, f, b);
    if b != [] {
      FragmentInOrder(a, f, b[..|b| - 1], index);
    }
  }

  lemma {:induction false} TokenInOrder(a: seq<string>, token: string, b: seq<string>)
    ensures Concat(a + [token] + b) == Concat(a) + token + Concat(b)
  {
    Middle(a, token, b);
    if b != [] {
      TokenInOrder(a, token, b[..|b| - 1]);
    }
  }

  /** This fragment sends an id, or a name, for this call. */
  predicate SendsID(f: Fragment, index: int) {
    f.index == Some(index) && f.id != ""
  }

  predicate SendsName(f: Fragment, index: int) {
    f.index == Some(index) && f.name != ""
  }

  lemma {:induction false} LastIDReads(fragments: seq<Fragment>, index: int, n: nat)
    requires n <= |fragments| && (n > 0 ==> SendsID(fragments[n - 1], index))
    requires forall k :: n <= k < |fragments| ==> !SendsID(fragments[k], index)
    ensures LastID(fragments, index) == if n > 0 then fragments[n - 1].id else ""
  {
    if n < |fragments| {
      assert !SendsID(fragments[|fragments| - 1], index);
      LastIDReads(fragments[..|fragments| - 1], index, n);
    }
  }

  lemma {:induction false} LastNameReads(fragments: seq<Fragment>, index: int, n: nat)
    requires n <= |fragments| && (n > 0 ==> SendsName(fragments[n - 1], index))
    requires forall k :: n <= k < |fragments| ==> !SendsName(fragments[k], index)
    ensures LastName(fragments, index) == if n > 0 then fragments[n - 1].name else ""
  {
    if n < |fragments| {
      assert !SendsName(fragments[|fragments| - 1], index);
      LastNameReads(fragments[..|fragments| - 1], index, n);
    }
  }

  lemma SentFor(fragments: seq<Fragment>, index: int)
    ensures index in Indices(fragments) <==> exists n :: 0 <= n < |fragments| && fragments[n].index == Some(index)
  {
    if index in Indices(fragments) {
      var f :| f in fragments && f.index.Some? && f.index.value == index;
      var n :| 0 <= n < |fragments| && fragments[n] == f;
    }
  }

  /** A list of calls has one for each index that some fragment was sent with, and no other. Its
      arguments are those of the fragments with the index. */
  lemma IndexIsListedIff(calls: seq<ToolCall>, order: seq<int>, fragments: seq<Fragment>, index: int)
    requires Lists(calls, order, fragments)
    ensures index in order <==> exists n :: 0 <= n < |fragments| && fragments[n].index == Some(index)
    ensures forall i, j :: 0 <= i < j < |order| ==> order[i] != order[j]
    ensures forall i :: 0 <= i < |order| && order[i] == index ==> calls[i].arguments == Arguments(fragments, index)
  {
    SentFor(fragments, index);
  }

  /** The id and the name of a call are the last ones sent with its index that were not empty. */
  lemma CallIDReads(calls: seq<ToolCall>, order: seq<int>, fragments: seq<Fragment>, i: nat, n: nat)
    requires Lists(calls, order, fragments) && i < |order|
    requires n <= |fragments| && (n > 0 ==> SendsID(fragments[n - 1], order[i]))
    requires forall k :: n <= k < |fragments| ==> !SendsID(fragments[k], order[i])
    ensures calls[i].id == if n > 0 then fragments[n - 1].id else ""
  {
    LastIDReads(fragments, order[i], n);
  }

  lemma CallNameReads(calls: seq<ToolCall>, order: seq<int>, fragments: seq<Fragment>, i: nat, n: nat)
    requires Lists(calls, order, fragments) && i < |order|
    requires n <= |fragments| && (n > 0 ==> SendsName(fragments[n - 1], order[i]))
    requires forall k :: n <= k < |fragments| ==> !SendsName(fragments[k], order[i])
    ensures calls[i].name == if n > 0 then fragments[n - 1].name else ""
  {
    LastNameReads(fragments, order[i], n);
  }

  // ---------------------------------------------------------------------------
  // Streaming against the complete answer
  // ---------------------------------------------------------------------------

  /** These fragments are one call cut in any way: its arguments in pieces, its id and name
      sent with at least one of them, possibly repeated, and never something else. */
  ghost predicate Cut(fragments: seq<Fragment>, index: int, call: ToolCall) {
    && Arguments(fragments, index) == call.arguments
    && (forall f :: f in fragments && For(f, index) ==> f.id in {"", call.id} && f.name in {"", call.name})
    && (exists f :: f in fragments && For(f, index) && f.id == call.id)
    && (exists f :: f in fragments && For(f, index) && f.name == call.name)
  }

  /** The stream carries this answer, its calls numbered in any way and interleaved freely. */
  ghost predicate Carries(stream: seq<Packet>, content: string, calls: seq<ToolCall>, numbers: seq<int>) {
    var fragments := Fragments(Heard(stream));
    && Text(Heard(stream)) == content
    && |numbers| == |calls| && Distinct(numbers) && (forall n :: n in numbers <==> n in Indices(fragments))
    && forall k :: 0 <= k < |calls| ==> Cut(fragments, numbers[k], calls[k])
  }

  lemma {:induction false} LastIsTheOne(fragments: seq<Fragment>, index: int, id: string, name: string)
    requires forall f :: f in fragments && For(f, index) ==> f.id in {"", id} && f.name in {"", name}
    ensures LastID(fragments, index) in {"", id} && LastName(fragments, index) in {"", name}
    ensures (exists f :: f in fragments && For(f, index) && f.id == id) ==> LastID(fragments, index) == id
    ensures (exists f :: f in fragments && For(f, index) && f.name == name) ==> LastName(fragments, index) == name
  {
    if fragments != [] {
      var last, rest := fragments[|fragments| - 1], fragments[..|fragments| - 1];
      assert last in fragments && forall f :: f in rest ==> f in fragments;
      assert forall f :: f in fragments ==> f in rest || f == last;
      LastIsTheOne(rest, index, id, name);
    }
  }

  lemma CutReassembles(fragments: seq<Fragment>, index: int, call: ToolCall)
    requires Cut(fragments, index, call)
    ensures Assembled(fragments, index) == call
  {
    LastIsTheOne(fragments, index, call.id, call.name);
  }

  function Pick<T>(values: seq<T>, order: seq<int>): (picked: seq<T>)
    requires forall k :: 0 <= k < |order| ==> 0 <= order[k] < |values|
    ensures |picked| == |order| && forall k :: 0 <= k < |order| ==> picked[k] == values[order[k]]
  {
    seq(|order|, k requires 0 <= k < |order| => values[order[k]])
  }

  /** Each position below the bound occurs exactly once. */
  ghost predicate Permutation(order: seq<int>, bound: nat) {
    && (forall i, j :: 0 <= i < j < |order| ==> order[i] != order[j])
    && (forall k :: 0 <= k < |order| ==> 0 <= order[k] < bound)
    && (forall i :: 0 <= i < bound ==> i in order)
  }

  lemma DropLargest(order: seq<int>, p: nat, n: nat)
    requires Permutation(order, n + 1) && p < |order| && order[p] == n
    ensures Permutation(order[..p] + order[p + 1..], n)
  {
    var rest := order[..p] + order[p + 1..];
    forall i | 0 <= i < n ensures i in rest {
      assert i in order;
      var k :| 0 <= k < |order| && order[k] == i;
      assert i == if k < p then rest[k] else rest[k - 1];
    }
  }

  lemma TakeOut<T>(s: seq<T>, p: nat)
    requires p < |s|
    ensures multiset(s) == multiset(s[..p] + s[p + 1..]) + multiset{s[p]}
  {
    assert s == s[..p] + [s[p]] + s[p + 1..];
  }

  lemma PickWithout<T>(values: seq<T>, order: seq<int>, p: nat, n: nat)
    requires |values| == n + 1 && Permutation(order, n + 1) && p < |order| && order[p] == n
    requires Permutation(order[..p] + order[p + 1..], n)
    ensures var picked := Pick(values, order);
      Pick(values[..n], order[..p] + order[p + 1..]) == picked[..p] + picked[p + 1..]
  {
  }

  /** Picking every position once, in any order, gives the same multiset. */
  lemma {:induction false} PickedInAnyOrder<T>(values: seq<T>, order: seq<int>)
    requires Permutation(order, |values|)
    ensures multiset(Pick(values, order)) == multiset(values)
    decreases |values|
  {
    if values != [] {
      var n := |values| - 1;
      assert n in order;
      var p :| 0 <= p < |order| && order[p] == n;
      DropLargest(order, p, n);
      PickedInAnyOrder(values[..n], order[..p] + order[p + 1..]);
      PickWithout(values, order, p, n);
      TakeOut(Pick(values, order), p);
      TakeOut(values, n);
      assert values[..n] + values[n + 1..] == values[..n];
    }
  }

  function PositionOf(numbers: seq<int>, n: int): (k: int)
    requires n in numbers
    ensures 0 <= k < |numbers| && numbers[k] == n
  {
    if numbers[0] == n then 0 else 1 + PositionOf(numbers[1..], n)
  }

  /** Where each of these numbers stands among the others. */
  function Positions(order: seq<int>, numbers: seq<int>): (positions: seq<int>)
    requires forall k :: 0 <= k < |order| ==> order[k] in numbers
    ensures |positions| == |order|
    ensures forall k :: 0 <= k < |order| ==> 0 <= positions[k] < |numbers| && numbers[positions[k]] == order[k]
  {
    seq(|order|, k requires 0 <= k < |order| => PositionOf(numbers, order[k]))
  }

  lemma SameNumbers(order: seq<int>, numbers: seq<int>)
    requires Distinct(order) && Distinct(numbers)
    requires forall k :: 0 <= k < |order| ==> order[k] in numbers
    requires forall i :: 0 <= i < |numbers| ==> numbers[i] in order
    ensures Permutation(Positions(order, numbers), |numbers|)
  {
    var positions := Positions(order, numbers);
    forall i | 0 <= i < |numbers| ensures i in positions {
      assert numbers[i] in order;
      var k :| 0 <= k < |order| && order[k] == numbers[i];
      assert positions[k] == i;
    }
  }

  /** However an answer is cut into fragments, numbered and interleaved, once a finish reason
      arrives the streamed answer has the same text and the same calls as the complete one;
      only the order of the calls is free. */
  lemma StreamingRefinesSync(
    stream: seq<Packet>, content: string, calls: seq<ToolCall>, numbers: seq<int>,
    streamed: seq<ToolCall>, order: seq<int>)
    requires Carries(stream, content, calls, numbers) && Finished(stream)
    requires Lists(streamed, order, Fragments(Heard(stream)))
    ensures Text(Heard(stream)) == content && multiset(streamed) == multiset(calls)
  {
    var fragments := Fragments(Heard(stream));
    assert forall k :: 0 <= k < |order| ==> order[k] in order && order[k] in numbers;
    assert forall i :: 0 <= i < |numbers| ==> numbers[i] in numbers && numbers[i] in order;
    var positions := Positions(order, numbers);
    SameNumbers(order, numbers);
    forall k | 0 <= k < |order| ensures streamed[k] == calls[positions[k]] {
      CutReassembles(fragments, order[k], calls[positions[k]]);
    }
    assert streamed == Pick(calls, positions);
    PickedInAnyOrder(calls, positions);
  }

  /** The whole path from server packets to the response event. A stream that ends without a
      finish reason keeps its text but loses its calls. */
  method Respond(stream: seq<Packet>, ghost content: string, ghost calls: seq<ToolCall>, ghost numbers: seq<int>)
    returns (reply: string, toolCalls: seq<ToolCall>, tokens: seq<string>)
    requires Carries(stream, content, calls, numbers)
    ensures reply == content == Concat(tokens)
    ensures multiset(toolCalls) == multiset(calls) <==> Finished(stream) || calls == []
    ensures Finished(stream) || toolCalls == []
  {
    var chunks, order := CallStream(stream);
    reply, toolCalls, tokens := Consume(chunks);
    if Finished(stream) {
      StreamingRefinesSync(stream, content, calls, numbers, toolCalls, order);
    } else {
      assert calls != [] ==> calls[0] in multiset(calls);
    }
  }
}
