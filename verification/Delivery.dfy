/** From the event log to the client: the cursor over the log, the polling loop that writes
    frames, and what the client reads. */
module Delivery {
  import opened Sse

  /** An event as logged: its id, its type and its JSON text. */
  datatype Entry = Entry(id: string, kind: string, data: string)

  function AsMessage(e: Entry): Message {
    Message(e.kind, e.data)
  }

  function AsMessages(es: seq<Entry>): (ms: seq<Message>)
    ensures |ms| == |es| && forall i :: 0 <= i < |es| ==> ms[i] == AsMessage(es[i])
  {
    seq(|es|, i requires 0 <= i < |es| => AsMessage(es[i]))
  }

  /** The frames for these entries, as sent. */
  function Wire(es: seq<Entry>): string {
    Frames(AsMessages(es))
  }

  lemma Append(a: string, b: string, c: string)
    ensures a + b + c == a + (b + c)
  {
  }

  // ---------------------------------------------------------------------------
  // The cursor
  // ---------------------------------------------------------------------------

  /** The entries after the one with this id; all of them for the empty id. */
  function Since(log: seq<Entry>, after: string): seq<Entry> {
    if after == "" then log
    else if log == [] then []
    else if log[0].id == after then log[1..]
    else Since(log[1..], after)
  }

  /** The store's scan with its `startCollecting` flag. */
  method GetEventsSince(log: seq<Entry>, after: string) returns (result: seq<Entry>)
    ensures result == Since(log, after)
  {
    result := [];
    var collecting := after == "";
    for k := 0 to |log|
      invariant collecting ==> Since(log, after) == result + log[k..]
      invariant !collecting ==> result == [] && after != "" && Since(log, after) == Since(log[k..], after)
    {
      assert log[k..][1..] == log[k + 1..];
      if collecting {
        result := result + [log[k]];
      } else if log[k].id == after {
        collecting := true;
      }
    }
  }

  /** Where delivery starts: the beginning, just after the cursor's entry, or nowhere yet. */
  function From(log: seq<Entry>, after: string): (i: nat)
    ensures i <= |log|
    ensures Since(log, after) == log[i..]
    ensures after != "" && i > 0 && i < |log| ==> log[i - 1].id == after
    ensures after == "" ==> i == 0
  {
    if after == "" then 0
    else if log == [] then 0
    else if log[0].id == after then 1
    else
      var i := From(log[1..], after);
      assert log[1..][i..] == log[1 + i..];
      1 + i
  }

  /** The entry has an id, and no earlier entry has the same. */
  predicate FirstOfItsID(log: seq<Entry>, k: nat)
    requires k < |log|
  {
    log[k].id != "" && forall j :: 0 <= j < k ==> log[j].id != log[k].id
  }

  /** So it is for every entry from where delivery starts. */
  predicate Identified(log: seq<Entry>, initial: string) {
    forall k :: From(log, initial) <= k < |log| ==> FirstOfItsID(log, k)
  }

  lemma {:induction false} FromExtends(log: seq<Entry>, more: seq<Entry>, after: string)
    requires From(log, after) < |log|
    ensures From(log + more, after) == From(log, after)
  {
    if after != "" && log != [] {
      assert (log + more)[1..] == log[1..] + more;
      if log[0].id != after {
        FromExtends(log[1..], more, after);
      }
    }
  }

  /** A cursor that no entry has: nothing follows it. */
  lemma {:induction false} UnknownCursor(log: seq<Entry>, after: string)
    requires after != "" && forall i :: 0 <= i < |log| ==> log[i].id != after
    ensures Since(log, after) == []
  {
    if log != [] {
      assert forall i :: 0 <= i < |log| - 1 ==> log[1..][i] == log[i + 1];
      UnknownCursor(log[1..], after);
    }
  }

  /** A known cursor: what follows its first entry. */
  lemma {:induction false} KnownCursor(log: seq<Entry>, k: nat)
    requires k < |log| && log[k].id != "" && forall i :: 0 <= i < k ==> log[i].id != log[k].id
    ensures Since(log, log[k].id) == log[k + 1..] && Since(log, "") == log
  {
    SinceEntry(log, k);
  }

  lemma {:induction false} SinceExtends(log: seq<Entry>, more: seq<Entry>, after: string)
    ensures Since(log, after) != [] || after == "" ==> Since(log + more, after) == Since(log, after) + more
  {
    if after != "" && log != [] {
      assert (log + more)[1..] == log[1..] + more;
      if log[0].id != after {
        SinceExtends(log[1..], more, after);
      }
    }
  }

  lemma {:induction false} SinceEntry(log: seq<Entry>, k: nat)
    requires k < |log| && FirstOfItsID(log, k)
    ensures Since(log, log[k].id) == log[k + 1..]
  {
    if k > 0 {
      assert log[1..][k - 1] == log[k] && log[1..][k..] == log[k + 1..];
      assert forall j :: 0 <= j < k - 1 ==> log[1..][j] == log[j + 1];
      SinceEntry(log[1..], k - 1);
    }
  }

  /** The cursor after these entries were sent. */
  function Cursor(sent: seq<Entry>, initial: string): string {
    if sent == [] then initial else sent[|sent| - 1].id
  }

  lemma LastOf(log: seq<Entry>, initial: string)
    requires Since(log, initial) != []
    ensures From(log, initial) < |log| && Cursor(Since(log, initial), initial) == log[|log| - 1].id
  {
    var i, n := From(log, initial), |log|;
    assert log[i..][n - i - 1] == log[n - 1];
  }

  lemma LastSent(log: seq<Entry>, more: seq<Entry>, initial: string)
    requires Since(log, initial) != [] && Identified(log + more, initial)
    ensures log != [] && Cursor(Since(log, initial), initial) == (log + more)[|log| - 1].id
    ensures FirstOfItsID(log + more, |log| - 1)
  {
    LastOf(log, initial);
    FromExtends(log, more, initial);
    assert FirstOfItsID(log + more, |log| - 1);
  }

  /** Polling with the cursor of what was already sent continues where that ended. */
  lemma PollContinues(log: seq<Entry>, more: seq<Entry>, initial: string)
    requires Identified(log + more, initial)
    ensures var sent := Since(log, initial);
      sent + Since(log + more, Cursor(sent, initial)) == Since(log + more, initial)
  {
    var sent := Since(log, initial);
    if sent != [] {
      var n := |log|;
      LastSent(log, more, initial);
      SinceEntry(log + more, n - 1);
      SinceExtends(log, more, initial);
      assert (log + more)[n..] == more;
    }
  }

  // ---------------------------------------------------------------------------
  // A connection
  // ---------------------------------------------------------------------------

  class Connection {
    const initial: string
    var lastEventID: string
    var output: string
    ghost var sent: seq<Entry>

    ghost predicate Valid(log: seq<Entry>)
      reads this
    {
      sent == Since(log, initial) && lastEventID == Cursor(sent, initial)
    }

    /** Connect with a cursor and greet the client. */
    constructor (after: string, greeting: Message)
      ensures initial == lastEventID == after && sent == [] && output == Frame(greeting)
    {
      initial := after;
      lastEventID := after;
      output := Frame(greeting);
      sent := [];
    }

    /** Write one frame and move the cursor to its entry. */
    method WriteEvent(e: Entry)
      modifies this
      ensures sent == old(sent) + [e] && lastEventID == e.id
      ensures output == old(output) + Frame(AsMessage(e))
      ensures output == old(output) + ("event: " + e.kind + "\n" + ("data: " + e.data + "\n" + "\n"))
    {
      output := output + Frame(AsMessage(e));
      lastEventID := e.id;
      sent := sent + [e];
    }

    /** Write a frame for each new entry and move the cursor along. */
    method WriteEvents(events: seq<Entry>)
      modifies this
      ensures sent == old(sent) + events
      ensures output == old(output) + Wire(events)
      ensures lastEventID == Cursor(events, old(lastEventID))
    {
      for k := 0 to |events|
        invariant sent == old(sent) + events[..k]
        invariant output == old(output) + Wire(events[..k])
        invariant lastEventID == Cursor(events[..k], old(lastEventID))
      {
        WriteEvent(events[k]);
        OneMoreFrame(events, k);
        Append(old(output), Wire(events[..k]), Frame(AsMessage(events[k])));
      }
      assert events[..|events|] == events;
    }

    /** One poll of the log. However the log has grown since the last poll, the connection
        has then sent exactly what follows its initial cursor. */
    method Poll(log: seq<Entry>, ghost before: seq<Entry>)
      modifies this
      ensures sent == old(sent) + Since(log, old(lastEventID))
      ensures output == old(output) + Wire(Since(log, old(lastEventID)))
      ensures lastEventID == Cursor(Since(log, old(lastEventID)), old(lastEventID))
      ensures old(Valid(before)) && before <= log && Identified(log, initial) ==> Valid(log)
    {
      var events := GetEventsSince(log, lastEventID);
      WriteEvents(events);
      if old(Valid(before)) && before <= log && Identified(log, initial) {
        assert log == before + log[|before|..];
        PollContinues(before, log[|before|..], initial);
      }
    }
  }

  lemma OneMoreFrame(events: seq<Entry>, k: nat)
    requires k < |events|
    ensures Wire(events[..k + 1]) == Wire(events[..k]) + Frame(AsMessage(events[k]))
    ensures events[..k + 1] == events[..k] + [events[k]]
  {
    assert AsMessages(events[..k + 1]) == AsMessages(events[..k]) + [AsMessage(events[k])];
    FramesSnoc(AsMessages(events[..k]), AsMessage(events[k]));
  }

  lemma {:induction false} FramesSnoc(ms: seq<Message>, m: Message)
    ensures Frames(ms + [m]) == Frames(ms) + Frame(m)
  {
    if ms == [] {
      assert [m][1..] == [] && Frames([m]) == Frame(m) + "";
      assert [] + [m] == [m];
    } else {
      assert (ms + [m])[1..] == ms[1..] + [m];
      FramesSnoc(ms[1..], m);
    }
  }

  // ---------------------------------------------------------------------------
  // Any interleaving of appends and polls
  // ---------------------------------------------------------------------------

  /** How far the log had grown at each poll; between polls anything may be appended. */
  ghost predicate Polls(log: seq<Entry>, lengths: seq<nat>) {
    && (forall i :: 0 <= i < |lengths| ==> lengths[i] <= |log|)
    && (forall i, j :: 0 <= i < j < |lengths| ==> lengths[i] <= lengths[j])
  }

  /** Everything the polls deliver, the cursor moving along. */
  function Delivered(log: seq<Entry>, lengths: seq<nat>, initial: string): seq<Entry>
    requires forall i :: 0 <= i < |lengths| ==> lengths[i] <= |log|
  {
    if lengths == [] then []
    else
      var n := |lengths| - 1;
      var sent := Delivered(log, lengths[..n], initial);
      sent + Since(log[..lengths[n]], Cursor(sent, initial))
  }

  lemma PrefixIdentified(log: seq<Entry>, n: nat, initial: string)
    requires Identified(log, initial) && n <= |log|
    ensures Identified(log[..n], initial)
  {
    if From(log[..n], initial) < n {
      assert log == log[..n] + log[n..];
      FromExtends(log[..n], log[n..], initial);
      forall k | From(log[..n], initial) <= k < n ensures FirstOfItsID(log[..n], k) {
        assert FirstOfItsID(log, k);
      }
    }
  }

  lemma NextPoll(log: seq<Entry>, m: nat, n: nat, initial: string)
    requires Identified(log, initial) && m <= n <= |log|
    ensures var sent := Since(log[..m], initial);
      sent + Since(log[..n], Cursor(sent, initial)) == Since(log[..n], initial)
  {
    PrefixIdentified(log, n, initial);
    assert log[..n] == log[..m] + log[m..n];
    PollContinues(log[..m], log[m..n], initial);
  }

  /** Whatever the polls, the delivered entries are those after the initial cursor in the log
      as of the last poll: nothing is skipped, repeated or reordered. */
  lemma {:induction false} ExactlyOnce(log: seq<Entry>, lengths: seq<nat>, initial: string)
    requires Identified(log, initial) && Polls(log, lengths) && lengths != []
    ensures var last := lengths[|lengths| - 1];
      && Delivered(log, lengths, initial) == Since(log[..last], initial)
      && Delivered(log, lengths, initial) == log[..last][From(log[..last], initial)..]
  {
    var n := |lengths| - 1;
    if n == 0 {
      assert Delivered(log, lengths[..0], initial) == [];
      assert [] + Since(log[..lengths[0]], initial) == Since(log[..lengths[0]], initial);
    } else {
      assert lengths[..n][n - 1] == lengths[n - 1];
      ExactlyOnce(log, lengths[..n], initial);
      NextPoll(log, lengths[n - 1], lengths[n], initial);
    }
  }

  /** The client received the greeting and then these entries: the type of each as its type,
      the JSON text of each as its data. */
  ghost predicate Received(got: seq<Message>, greeting: Message, run: seq<Entry>) {
    && |got| == 1 + |run| && got[0] == greeting
    && forall i :: 0 <= i < |run| ==> got[1 + i].kind == run[i].kind && got[1 + i].data == run[i].data
  }

  /** End to end: the client sees exactly the run of the log that the cursor defines, after
      the greeting, as long as every type and JSON text is clean. A connection cut short has
      delivered a prefix of it. */
  lemma ClientSeesTheLog(log: seq<Entry>, lengths: seq<nat>, initial: string, greeting: Message, cut: nat)
    requires Identified(log, initial) && Polls(log, lengths) && lengths != [] && CleanMessage(greeting)
    requires forall i :: 0 <= i < |log| ==> Clean(log[i].kind) && Clean(log[i].data)
    ensures var last := lengths[|lengths| - 1];
      var run := log[..last][From(log[..last], initial)..];
      var body := Frame(greeting) + Wire(Delivered(log, lengths, initial));
      && Received(Parse(body), greeting, run)
      && (cut <= |body| ==> Parse(body[..cut]) <= Parse(body))
  {
    var run := Since(log[..lengths[|lengths| - 1]], initial);
    ExactlyOnce(log, lengths, initial);
    SinceIsClean(log, lengths[|lengths| - 1], initial);
    ClientReads(greeting, run, cut);
  }

  lemma SinceIsClean(log: seq<Entry>, n: nat, initial: string)
    requires n <= |log| && forall i :: 0 <= i < |log| ==> Clean(log[i].kind) && Clean(log[i].data)
    ensures var run := Since(log[..n], initial);
      forall i :: 0 <= i < |run| ==> CleanMessage(AsMessage(run[i]))
  {
    var k := From(log[..n], initial);
    assert forall i :: 0 <= i < n - k ==> log[..n][k..][i] == log[k + i];
  }

  lemma ClientReads(greeting: Message, run: seq<Entry>, cut: nat)
    requires CleanMessage(greeting) && forall i :: 0 <= i < |run| ==> CleanMessage(AsMessage(run[i]))
    ensures var body := Frame(greeting) + Wire(run);
      && Received(Parse(body), greeting, run)
      && (cut <= |body| ==> Parse(body[..cut]) <= Parse(body))
  {
    var ms := [greeting] + AsMessages(run);
    assert ms[0] == greeting && ms[1..] == AsMessages(run);
    ParseFrames(ms);
    assert Parse(Frame(greeting) + Wire(run)) == ms;
    if cut <= |Frames(ms)| {
      CutStreamGivesPrefix(ms, cut);
    }
  }

  lemma DeliveredTwice(log: seq<Entry>, initial: string, n: nat)
    requires n <= |log|
    ensures var sent := Since(log[..n], initial);
      Delivered(log, [n, n], initial) == sent + Since(log[..n], Cursor(sent, initial))
  {
    assert [n, n][..1] == [n] && [n][..0] == [];
    assert Delivered(log, [n], initial) == [] + Since(log[..n], initial) == Since(log[..n], initial);
  }

  lemma CursorAfter(log: seq<Entry>, initial: string, k: nat)
    requires From(log, initial) <= k < |log|
    ensures Cursor(Since(log[..k + 1], initial), initial) == log[k].id
  {
    FromOfPrefix(log, initial, k);
    var sent := Since(log[..k + 1], initial);
    assert sent == log[..k + 1][From(log, initial)..];
    assert |sent| == k + 1 - From(log, initial) && sent[|sent| - 1] == log[k];
  }

  /** Polling again at the same length sends what follows the last entry's id once more. */
  lemma PolledTwice(log: seq<Entry>, initial: string, k: nat)
    requires From(log, initial) <= k < |log|
    ensures Delivered(log, [k + 1, k + 1], initial) ==
      Since(log[..k + 1], initial) + Since(log[..k + 1], log[k].id)
  {
    DeliveredTwice(log, initial, k + 1);
    CursorAfter(log, initial, k);
  }

  lemma {:induction false} FromOfPrefix(log: seq<Entry>, initial: string, k: nat)
    requires From(log, initial) <= k < |log|
    ensures From(log[..k + 1], initial) == From(log, initial)
  {
    if initial != "" && log[0].id != initial {
      assert log[..k + 1][1..] == log[1..][..k];
      FromOfPrefix(log[1..], initial, k - 1);
    }
  }

  lemma {:induction false} SinceRepeats(log: seq<Entry>, after: string, j: nat)
    requires j < |log| - 1 && (after == "" || log[j].id == after)
    ensures Since(log, after) != []
  {
    if after != "" && log[0].id != after {
      assert log[1..][j - 1] == log[j];
      SinceRepeats(log[1..], after, j - 1);
    }
  }

  /** Whatever the polls, the delivered entries are those after the initial cursor. */
  ghost predicate AlwaysExact(log: seq<Entry>, initial: string) {
    forall lengths :: Polls(log, lengths) && lengths != [] ==>
      Delivered(log, lengths, initial) == Since(log[..lengths[|lengths| - 1]], initial)
  }

  /** Exactly if every entry to deliver has an id that no earlier entry has: an entry without
      an id sends the cursor back to the beginning, one with an id seen before back there. */
  lemma ExactIffIdentified(log: seq<Entry>, initial: string)
    ensures AlwaysExact(log, initial) <==> Identified(log, initial)
  {
    if Identified(log, initial) {
      forall lengths | Polls(log, lengths) && lengths != []
        ensures Delivered(log, lengths, initial) == Since(log[..lengths[|lengths| - 1]], initial)
      {
        ExactlyOnce(log, lengths, initial);
      }
    }
    if AlwaysExact(log, initial) {
      forall k | From(log, initial) <= k < |log| ensures FirstOfItsID(log, k) {
        ExactWhenPolledTwice(log, initial, k + 1);
        SecondPollIsSilent(log, initial, k);
        FirstIfSilent(log, k);
      }
    }
  }

  lemma ExactWhenPolledTwice(log: seq<Entry>, initial: string, n: nat)
    requires AlwaysExact(log, initial) && n <= |log|
    ensures Delivered(log, [n, n], initial) == Since(log[..n], initial)
  {
    var lengths: seq<nat> := [n, n];
    assert Polls(log, lengths) && lengths[|lengths| - 1] == n;
  }

  lemma NothingAdded(a: seq<Entry>, b: seq<Entry>)
    requires a + b == a
    ensures b == []
  {
    assert |a + b| == |a| + |b|;
  }

  lemma SecondPollIsSilent(log: seq<Entry>, initial: string, k: nat)
    requires From(log, initial) <= k < |log|
    requires Delivered(log, [k + 1, k + 1], initial) == Since(log[..k + 1], initial)
    ensures Since(log[..k + 1], log[k].id) == []
  {
    PolledTwice(log, initial, k);
    NothingAdded(Since(log[..k + 1], initial), Since(log[..k + 1], log[k].id));
  }

  lemma FirstIfSilent(log: seq<Entry>, k: nat)
    requires k < |log| && Since(log[..k + 1], log[k].id) == []
    ensures FirstOfItsID(log, k)
  {
    forall j | 0 <= j < k ensures log[j].id != log[k].id {
      if log[j].id == log[k].id {
        SinceRepeats(log[..k + 1], log[k].id, j);
      }
    }
  }
}
