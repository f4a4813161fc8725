/** What a run leaves behind, as plain values: the log and the history reduced from it, the
    commands it ran, and the file changes its checkpoints handed over. */
module Accounts {
  import opened Wrappers
  import opened States
  import Patch

  type FileChange = Patch.FileChange

  /** A checkpoint as saved: the state, and the file changes since the one before. */
  datatype Saved = Saved(id: string, state: State, fileChanges: seq<FileChange>)

  // ---------------------------------------------------------------------------
  // What the log says
  // ---------------------------------------------------------------------------

  /** Tokens and permission requests are logged for clients only; the reducer never sees them. */
  predicate ForClients(e: Event) {
    e.payload.LLMToken? || e.payload.PermissionRequest?
  }

  function Reducible(log: seq<Event>): seq<Event> {
    if log == [] then []
    else
      var last := log[|log| - 1];
      Reducible(log[..|log| - 1]) + (if ForClients(last) then [] else [last])
  }

  lemma {:induction false} ReducibleConcat(a: seq<Event>, b: seq<Event>)
    ensures Reducible(a + b) == Reducible(a) + Reducible(b)
  {
    if b == [] {
      assert a + b == a;
    } else {
      assert (a + b)[..|a + b| - 1] == a + b[..|b| - 1];
      ReducibleConcat(a, b[..|b| - 1]);
    }
  }

  lemma {:induction false} AllReducible(events: seq<Event>)
    requires forall i :: 0 <= i < |events| ==> !ForClients(events[i])
    ensures Reducible(events) == events
  {
    if events != [] {
      AllReducible(events[..|events| - 1]);
    }
  }

  /** The log grew, but only by what clients look at. */
  ghost predicate Quiet(before: seq<Event>, after: seq<Event>) {
    before <= after && Reducible(after[|before|..]) == []
  }

  lemma QuietTransitive(a: seq<Event>, b: seq<Event>, c: seq<Event>)
    requires Quiet(a, b) && Quiet(b, c)
    ensures Quiet(a, c)
  {
    ReducibleConcat(b[|a|..], c[|b|..]);
    assert c[|a|..] == b[|a|..] + c[|b|..];
  }

  lemma LogGrew(log: seq<Event>, start: nat, events: seq<Event>)
    requires start <= |log| && forall i :: 0 <= i < |events| ==> !ForClients(events[i])
    ensures Reducible((log + events)[start..]) == Reducible(log[start..]) + events
  {
    assert (log + events)[start..] == log[start..] + events;
    ReducibleConcat(log[start..], events);
    AllReducible(events);
  }

  function EventsOf(history: seq<(Event, string)>): (events: seq<Event>)
    ensures |events| == |history|
  {
    seq(|history|, i requires 0 <= i < |history| => history[i].0)
  }

  /** The commands these events queue, in order. */
  function CommandsOf(lib: Library, events: seq<Event>): seq<Command> {
    if events == [] then [] else Commands(lib, events[0]) + CommandsOf(lib, events[1..])
  }

  /** Memory went from one state to the other by reducing this history. */
  ghost predicate Reduces(lib: Library, before: State, history: seq<(Event, string)>, after: State) {
    before.context.Some? ==> after == Replay(lib, before, history)
  }

  // ---------------------------------------------------------------------------
  // Memory following the log
  // ---------------------------------------------------------------------------

  lemma EventsConcat(a: seq<(Event, string)>, b: seq<(Event, string)>)
    ensures EventsOf(a + b) == EventsOf(a) + EventsOf(b)
  {
  }

  lemma {:induction false} CommandsConcat(lib: Library, a: seq<Event>, b: seq<Event>)
    ensures CommandsOf(lib, a + b) == CommandsOf(lib, a) + CommandsOf(lib, b)
  {
    if a == [] {
      assert a + b == b;
    } else {
      assert (a + b)[1..] == a[1..] + b;
      CommandsConcat(lib, a[1..], b);
    }
  }

  /** The tool calls among these commands. */
  function Tools(cmds: seq<Command>): seq<Command> {
    if cmds == [] then [] else (if cmds[0].CallTool? then [cmds[0]] else []) + Tools(cmds[1..])
  }

  function ToolsRun(batches: seq<seq<Command>>): seq<Command> {
    if batches == [] then [] else ToolsRun(batches[..|batches| - 1]) + Tools(batches[|batches| - 1])
  }

  lemma {:induction false} ToolsConcat(a: seq<Command>, b: seq<Command>)
    ensures Tools(a + b) == Tools(a) + Tools(b)
  {
    if a == [] {
      assert a + b == b;
    } else {
      var first := if a[0].CallTool? then [a[0]] else [];
      ToolsConcat(a[1..], b);
      assert (a + b)[0] == a[0] && (a + b)[1..] == a[1..] + b;
      assert Tools(a + b) == first + (Tools(a[1..]) + Tools(b));
      assert Tools(a) == first + Tools(a[1..]);
    }
  }

  lemma {:induction false} AllTools(cmds: seq<Command>)
    requires forall i :: 0 <= i < |cmds| ==> cmds[i].CallTool?
    ensures Tools(cmds) == cmds
  {
    if cmds != [] {
      AllTools(cmds[1..]);
    }
  }

  lemma {:induction false} OnlyToolsFollow(lib: Library, events: seq<Event>)
    ensures Tools(CommandsOf(lib, events)) == CommandsOf(lib, events)
  {
    if events != [] {
      OnlyToolsFollow(lib, events[1..]);
      AllTools(Commands(lib, events[0]));
      ToolsConcat(Commands(lib, events[0]), CommandsOf(lib, events[1..]));
    }
  }

  /** Memory, the events reduced into it so far, the log, and the tool calls that were ever
      queued: those that were run and those that wait. */
  datatype Memory = Memory(state: State, applied: seq<(Event, string)>, log: seq<Event>, queued: seq<Command>)

  /** The calls that follow from a history, in order. */
  function QueuedBy(lib: Library, history: seq<(Event, string)>): seq<Command> {
    CommandsOf(lib, EventsOf(history))
  }

  /** Memory is the fold of this history, the calls that follow from it are queued or were run;
      and unless something failed, the history is exactly what was logged for the reducer. */
  ghost predicate Follows(
      lib: Library, a: Memory, b: Memory, history: seq<(Event, string)>, logged: seq<Event>, failed: bool) {
    && Reduces(lib, a.state, history, b.state)
    && b.queued == a.queued + QueuedBy(lib, history)
    && (!failed ==> EventsOf(history) == Reducible(logged))
  }

  /** From one memory to a later one nothing reduced or logged is taken back, and what was
      added to both belongs together. */
  ghost predicate Followed(lib: Library, a: Memory, b: Memory, failed: bool) {
    && a.applied <= b.applied && a.log <= b.log
    && Follows(lib, a, b, b.applied[|a.applied|..], b.log[|a.log|..], failed)
  }

  lemma FollowedBy(
      lib: Library, a: Memory, b: Memory, history: seq<(Event, string)>, logged: seq<Event>, failed: bool)
    requires a.applied <= b.applied && history == b.applied[|a.applied|..] && a.log <= b.log && logged == b.log[|a.log|..]
    requires Reduces(lib, a.state, history, b.state) && b.queued == a.queued + CommandsOf(lib, EventsOf(history))
    requires !failed ==> EventsOf(history) == Reducible(logged)
    ensures Followed(lib, a, b, failed)
  {
  }

  lemma Suffixes<T>(a: seq<T>, b: seq<T>, c: seq<T>)
    requires a <= b <= c
    ensures a <= c && c[|a|..] == b[|a|..] + c[|b|..]
  {
  }

  lemma QueuedJoin(lib: Library, h: seq<(Event, string)>, h': seq<(Event, string)>)
    ensures QueuedBy(lib, h + h') == QueuedBy(lib, h) + QueuedBy(lib, h')
  {
    EventsConcat(h, h');
    CommandsConcat(lib, EventsOf(h), EventsOf(h'));
  }

  lemma ReducesJoin(lib: Library, a: State, h: seq<(Event, string)>, b: State, h': seq<(Event, string)>, c: State)
    requires Reduces(lib, a, h, b) && Reduces(lib, b, h', c)
    ensures Reduces(lib, a, h + h', c)
  {
    if a.context.Some? {
      ReplayConcat(lib, a, h, h');
    }
  }

  lemma FollowsJoin(
      lib: Library, a: Memory, b: Memory, c: Memory, h: seq<(Event, string)>, l: seq<Event>, failed: bool,
      h': seq<(Event, string)>, l': seq<Event>, failed': bool)
    requires Follows(lib, a, b, h, l, failed) && Follows(lib, b, c, h', l', failed')
    ensures Follows(lib, a, c, h + h', l + l', failed || failed')
  {
    ReducesJoin(lib, a.state, h, b.state, h', c.state);
    CallsJoin(lib, a.queued, h, h');
    if !failed && !failed' {
      ToldJoin(h, l, h', l');
    }
  }

  lemma CallsJoin(lib: Library, calls: seq<Command>, h: seq<(Event, string)>, h': seq<(Event, string)>)
    ensures calls + QueuedBy(lib, h) + QueuedBy(lib, h') == calls + QueuedBy(lib, h + h')
  {
    QueuedJoin(lib, h, h');
  }

  lemma ToldJoin(h: seq<(Event, string)>, l: seq<Event>, h': seq<(Event, string)>, l': seq<Event>)
    requires EventsOf(h) == Reducible(l) && EventsOf(h') == Reducible(l')
    ensures EventsOf(h + h') == Reducible(l + l')
  {
    EventsConcat(h, h');
    ReducibleConcat(l, l');
  }

  lemma FollowedTransitive(lib: Library, a: Memory, b: Memory, c: Memory, failed: bool, failed': bool)
    requires Followed(lib, a, b, failed) && Followed(lib, b, c, failed')
    ensures Followed(lib, a, c, failed || failed')
  {
    Suffixes(a.applied, b.applied, c.applied);
    Suffixes(a.log, b.log, c.log);
    FollowsJoin(lib, a, b, c, b.applied[|a.applied|..], b.log[|a.log|..], failed,
                c.applied[|b.applied|..], c.log[|b.log|..], failed');
  }

  lemma FollowedSelf(lib: Library, a: Memory)
    ensures Followed(lib, a, a, false)
  {
    assert a.applied[|a.applied|..] == [] && a.log[|a.log|..] == [] && EventsOf([]) == [];
  }

  lemma {:induction false} VersionCounts(lib: Library, s: State, history: seq<(Event, string)>)
    requires s.context.Some?
    ensures Replay(lib, s, history).version == s.version + |history|
  {
    if history != [] {
      VersionCounts(lib, s, history[..|history| - 1]);
    }
  }

  /** Going back to an earlier point of a history forgets something unless it is the end; the
      versions tell. */
  lemma RecoverForgetsIff(lib: Library, s: State, history: seq<(Event, string)>, n: nat)
    requires s.context.Some? && n <= |history|
    ensures Replay(lib, s, history[..n]) == Replay(lib, s, history) <==> n == |history|
    ensures history[..n] == history <==> n == |history|
    ensures Replay(lib, s, history[..n]).version == Replay(lib, s, history).version <==> n == |history|
  {
    VersionCounts(lib, s, history);
    VersionCounts(lib, s, history[..n]);
    if n == |history| {
      assert history[..n] == history;
    }
  }

  /** What was reduced after going back as if it had not been: the same as if the rest of the
      history were still there only if there is no rest. */
  lemma GoneBackDiffers(lib: Library, s: State, history: seq<(Event, string)>, n: nat, e: Event, newID: string)
    requires s.context.Some? && n <= |history|
    ensures var here, there := Replay(lib, s, history), Replay(lib, s, history[..n]);
      Reduce(lib, here, e, newID) == Reduce(lib, there, e, newID) <==> n == |history|
  {
    RecoverForgetsIff(lib, s, history, n);
    var here, there := Replay(lib, s, history), Replay(lib, s, history[..n]);
    assert Reduce(lib, here, e, newID).version == here.version + 1;
    assert Reduce(lib, there, e, newID).version == there.version + 1;
  }

  /** The history of a run that answers a message and whose checkpoint cannot be saved: going
      back to the state file, saved when the message came in, forgets the answer. */
  lemma AnswerIsForgotten(lib: Library, now: Time)
    ensures var said := Event("e1", now, UserMessage("hello"));
      var answer := Event("e2", now, LLMResponse("hi", []));
      var history := [(said, "g1"), (answer, "")];
      && Messages(Replay(lib, NewState(now), history)) == [UserText("hello"), AssistantText("hi", [])]
      && Messages(Replay(lib, NewState(now), history[..1])) == [UserText("hello")]
      && FirstActive(Replay(lib, NewState(now), history).goals) == 1
      && FirstActive(Replay(lib, NewState(now), history[..1]).goals) == 0
      && Replay(lib, NewState(now), history[..1]).version < Replay(lib, NewState(now), history).version
  {
    var said, answer := Event("e1", now, UserMessage("hello")), Event("e2", now, LLMResponse("hi", []));
    var history := [(said, "g1"), (answer, "")];
    assert history[..1] == [(said, "g1")] && history[..1][..0] == [];
    assert Replay(lib, NewState(now), []) == NewState(now);
    var heard := Reduce(lib, NewState(now), said, "g1");
    assert Replay(lib, NewState(now), history[..1]) == heard;
    assert heard.goals == [NewGoal("g1", "hello")];
    assert Replay(lib, NewState(now), history) == Reduce(lib, heard, answer, "");
  }

  /** The log from here on is what was reduced, besides what is for clients only. */
  ghost predicate Tells(log: seq<Event>, start: nat, applied: seq<(Event, string)>) {
    start <= |log| && Reducible(log[start..]) == EventsOf(applied)
  }

  lemma FollowedStaysTold(lib: Library, a: Memory, b: Memory, start: nat)
    requires Followed(lib, a, b, false) && Tells(a.log, start, a.applied)
    ensures Tells(b.log, start, b.applied)
  {
    var h, l := b.applied[|a.applied|..], b.log[|a.log|..];
    assert b.applied == a.applied + h && b.log[start..] == a.log[start..] + l;
    EventsConcat(a.applied, h);
    ReducibleConcat(a.log[start..], l);
  }

  // ---------------------------------------------------------------------------
  // File changes handed over by checkpoints
  // ---------------------------------------------------------------------------

  /** The changes one checkpoint flushed, and whether the checkpoint was saved. */
  datatype Window = Window(changes: seq<FileChange>, saved: bool)

  function AllChanges(windows: seq<Window>): seq<FileChange> {
    if windows == [] then [] else AllChanges(windows[..|windows| - 1]) + windows[|windows| - 1].changes
  }

  function SavedChanges(windows: seq<Window>): seq<FileChange> {
    if windows == [] then []
    else
      var last := windows[|windows| - 1];
      SavedChanges(windows[..|windows| - 1]) + (if last.saved then last.changes else [])
  }

  function ChangesOf(list: seq<Saved>): seq<FileChange> {
    if list == [] then [] else list[0].fileChanges + ChangesOf(list[1..])
  }

  lemma {:induction false} ChangesSnoc(list: seq<Saved>, c: Saved)
    ensures ChangesOf(list + [c]) == ChangesOf(list) + c.fileChanges
  {
    if list == [] {
      assert [] + [c] == [c] && [c][1..] == [];
    } else {
      assert (list + [c])[1..] == list[1..] + [c];
      ChangesSnoc(list[1..], c);
    }
  }

  ghost predicate NothingLost(windows: seq<Window>) {
    forall i :: 0 <= i < |windows| && !windows[i].saved ==> windows[i].changes == []
  }

  lemma {:induction false} SavedAtMostAll(windows: seq<Window>)
    ensures |SavedChanges(windows)| <= |AllChanges(windows)|
    ensures |SavedChanges(windows)| == |AllChanges(windows)| <==> NothingLost(windows)
    ensures NothingLost(windows) ==> SavedChanges(windows) == AllChanges(windows)
  {
    if windows != [] {
      var init, last := windows[..|windows| - 1], windows[|windows| - 1];
      SavedAtMostAll(init);
      assert NothingLost(windows) <==> NothingLost(init) && (!last.saved ==> last.changes == []) by {
        assert forall i :: 0 <= i < |init| ==> init[i] == windows[i];
      }
    }
  }

  /** Saved checkpoints and pending changes hold every recorded change, in order, exactly
      when each checkpoint that failed to save had no changes to hand over. */
  lemma ConservedIff(recorded: seq<FileChange>, windows: seq<Window>, checkpoints: seq<Saved>, pending: seq<FileChange>)
    requires recorded == AllChanges(windows) + pending && SavedChanges(windows) == ChangesOf(checkpoints)
    ensures recorded == ChangesOf(checkpoints) + pending <==> NothingLost(windows)
  {
    SavedAtMostAll(windows);
    assert |recorded| == |AllChanges(windows)| + |pending|;
  }

  /** What else a run keeps on record: nothing of it is ever taken back. The marks say how many
      events had been reduced when each of the latest checkpoints was taken, the uses how often
      the model or a tool was called. */
  datatype Trail = Trail(
    origin: State, start: nat,
    checkpoints: seq<Saved>, marks: seq<nat>, recorded: seq<FileChange>, windows: seq<Window>,
    batches: seq<seq<Command>>, uses: nat, attempts: nat, saves: nat)

  predicate Extends(a: Trail, b: Trail) {
    && a.origin == b.origin && a.start == b.start
    && a.checkpoints <= b.checkpoints && a.marks <= b.marks
    && a.recorded <= b.recorded && a.windows <= b.windows && a.batches <= b.batches
    && a.uses <= b.uses && a.attempts <= b.attempts && a.saves <= b.saves
  }

  lemma ExtendsTransitive(a: Trail, b: Trail, c: Trail)
    requires Extends(a, b) && Extends(b, c)
    ensures Extends(a, c)
  {
  }

  // ---------------------------------------------------------------------------
  // States saved in checkpoints
  // ---------------------------------------------------------------------------

  /** This state is what the history makes of its origin. */
  ghost predicate Folds(lib: Library, origin: State, history: seq<(Event, string)>, s: State) {
    origin.context.Some? && s == Replay(lib, origin, history)
  }

  /** These checkpoints were taken at these points of the history, from `since` on and in
      order; if it was known what memory was made of, each holds the fold up to its point. */
  ghost predicate Marked(
      lib: Library, origin: State, history: seq<(Event, string)>, since: nat,
      checkpoints: seq<Saved>, marks: seq<nat>, sourced: bool)
  {
    && |checkpoints| == |marks|
    && (forall k :: 0 <= k < |marks| ==> since <= marks[k] <= |history|)
    && (forall k, l :: 0 <= k < l < |marks| ==> marks[k] <= marks[l])
    && (sourced ==> forall k :: 0 <= k < |marks| ==> Folds(lib, origin, history[..marks[k]], checkpoints[k].state))
  }

  lemma MarkedLater(
      lib: Library, origin: State, history: seq<(Event, string)>, later: seq<(Event, string)>, since: nat,
      checkpoints: seq<Saved>, marks: seq<nat>, sourced: bool)
    requires Marked(lib, origin, history, since, checkpoints, marks, sourced) && history <= later
    ensures Marked(lib, origin, later, since, checkpoints, marks, sourced)
  {
    forall k | 0 <= k < |marks| ensures later[..marks[k]] == history[..marks[k]] {
    }
  }

  lemma MarkedJoin(
      lib: Library, origin: State, mid: nat, history: seq<(Event, string)>, since: nat,
      a: seq<Saved>, m: seq<nat>, sourced: bool, b: seq<Saved>, n: seq<nat>, sourced': bool)
    requires since <= mid <= |history| && (sourced ==> sourced')
    requires Marked(lib, origin, history, since, a, m, sourced) && (forall k :: 0 <= k < |m| ==> m[k] <= mid)
    requires Marked(lib, origin, history, mid, b, n, sourced')
    ensures Marked(lib, origin, history, since, a + b, m + n, sourced)
  {
  }

  // ---------------------------------------------------------------------------
  // From one moment of a run to a later one
  // ---------------------------------------------------------------------------

  /** Which attempts to append, to save and to load the state fail. */
  datatype Faults = Faults(append: nat -> bool, save: nat -> bool, load: nat -> bool)

  /** A moment of a run. `durable` counts the reduced events that are safe on disk; `sourced`
      says that memory is the fold of its history and the state file of a part of it,
      `accounted` that windows and pending changes make up what was recorded. */
  datatype Moment = Moment(memory: Memory, kept: Trail, durable: int, sourced: bool, accounted: bool)

  /** What holds between any moment and a later one of the same run: memory follows the log,
      nothing on record is taken back, no window is lost unless a save failed, nothing is
      reduced without being logged or the other way around unless an append failed, and
      what was in order stays so, and each new checkpoint holds the fold of a part of the
      history. */
  ghost predicate Goes(lib: Library, faults: Faults, a: Moment, b: Moment, failed: bool) {
    && Followed(lib, a.memory, b.memory, failed)
    && Extends(a.kept, b.kept)
    && (SomeFail(faults.save, a.kept.saves, b.kept.saves) || NothingLost(b.kept.windows[|a.kept.windows|..]))
    && (a.memory.state.context.Some? ==>
          b.memory.state.context.Some? && (failed ==> SomeFail(faults.append, a.kept.attempts, b.kept.attempts)))
    && (a.sourced ==> b.sourced && a.durable <= b.durable)
    && (a.accounted ==> b.accounted)
    && NewlyMarked(lib, a, b)
  }

  /** The checkpoints saved between two moments. */
  ghost predicate NewlyMarked(lib: Library, a: Moment, b: Moment)
    requires Extends(a.kept, b.kept)
  {
    Marked(lib, b.kept.origin, b.memory.applied, |a.memory.applied|,
           b.kept.checkpoints[|a.kept.checkpoints|..], b.kept.marks[|a.kept.marks|..], a.sourced)
  }

  lemma NoneMarked(lib: Library, a: Moment, b: Moment)
    requires Extends(a.kept, b.kept) && b.kept.checkpoints == a.kept.checkpoints && b.kept.marks == a.kept.marks
    ensures NewlyMarked(lib, a, b)
  {
    assert b.kept.checkpoints[|a.kept.checkpoints|..] == [] && b.kept.marks[|a.kept.marks|..] == [];
  }

  /** A checkpoint that was saved, or not. */
  lemma OneMarked(lib: Library, a: Moment, b: Moment, ok: bool)
    requires b.memory == a.memory && Extends(a.kept, b.kept)
    requires |b.kept.checkpoints| == |a.kept.checkpoints| + (if ok then 1 else 0)
    requires b.kept.marks == a.kept.marks + (if ok then [|b.memory.applied|] else [])
    requires a.sourced && ok ==>
      Folds(lib, b.kept.origin, b.memory.applied, b.kept.checkpoints[|a.kept.checkpoints|].state)
    ensures NewlyMarked(lib, a, b)
  {
    var marks := b.kept.marks[|a.kept.marks|..];
    assert marks == if ok then [|b.memory.applied|] else [];
    assert b.memory.applied[..|b.memory.applied|] == b.memory.applied;
  }

  lemma NewlyMarkedJoin(lib: Library, a: Moment, b: Moment, c: Moment)
    requires Extends(a.kept, b.kept) && Extends(b.kept, c.kept) && (a.sourced ==> b.sourced)
    requires a.memory.applied <= b.memory.applied <= c.memory.applied
    requires NewlyMarked(lib, a, b) && NewlyMarked(lib, b, c)
    ensures NewlyMarked(lib, a, c)
  {
    var cps, marks := b.kept.checkpoints[|a.kept.checkpoints|..], b.kept.marks[|a.kept.marks|..];
    var cps', marks' := c.kept.checkpoints[|b.kept.checkpoints|..], c.kept.marks[|b.kept.marks|..];
    Suffixes(a.kept.checkpoints, b.kept.checkpoints, c.kept.checkpoints);
    Suffixes(a.kept.marks, b.kept.marks, c.kept.marks);
    MarkedLater(lib, c.kept.origin, b.memory.applied, c.memory.applied, |a.memory.applied|, cps, marks, a.sourced);
    MarkedJoin(lib, c.kept.origin, |b.memory.applied|, c.memory.applied, |a.memory.applied|,
               cps, marks, a.sourced, cps', marks', b.sourced);
  }

  lemma NothingLostJoin(a: seq<Window>, b: seq<Window>, c: seq<Window>)
    requires a <= b <= c && NothingLost(b[|a|..]) && NothingLost(c[|b|..])
    ensures NothingLost(c[|a|..])
  {
    Suffixes(a, b, c);
  }

  lemma GoesNowhere(lib: Library, faults: Faults, a: Moment)
    ensures Goes(lib, faults, a, a, false)
  {
    FollowedSelf(lib, a.memory);
    NoneMarked(lib, a, a);
    assert a.kept.windows[|a.kept.windows|..] == [];
  }

  /** One checkpoint on. */
  lemma SavedGoes(lib: Library, faults: Faults, a: Moment, b: Moment, w: Window)
    requires b.memory == a.memory && a.kept.saves < b.kept.saves && (w.saved || faults.save(b.kept.saves - 1))
    requires Extends(a.kept, b.kept) && b.kept.windows == a.kept.windows + [w]
    requires |b.kept.checkpoints| == |a.kept.checkpoints| + (if w.saved then 1 else 0)
    requires b.kept.marks == a.kept.marks + (if w.saved then [|b.memory.applied|] else [])
    requires a.sourced && w.saved ==>
      Folds(lib, b.kept.origin, b.memory.applied, b.kept.checkpoints[|a.kept.checkpoints|].state)
    requires (a.sourced ==> b.sourced && a.durable <= b.durable) && (a.accounted ==> b.accounted)
    ensures Goes(lib, faults, a, b, false)
  {
    FollowedSelf(lib, a.memory);
    OneMarked(lib, a, b, w.saved);
    assert b.kept.windows[|a.kept.windows|..] == [w];
  }

  /** Some events on, or an attempt to reduce some, without a checkpoint. */
  lemma StepGoes(lib: Library, faults: Faults, a: Moment, b: Moment, failed: bool)
    requires Followed(lib, a.memory, b.memory, failed)
    requires Extends(a.kept, b.kept) && b.kept.windows == a.kept.windows
    requires b.kept.checkpoints == a.kept.checkpoints && b.kept.marks == a.kept.marks
    requires a.memory.state.context.Some? ==>
      b.memory.state.context.Some? && (failed ==> SomeFail(faults.append, a.kept.attempts, b.kept.attempts))
    requires (a.sourced ==> b.sourced && a.durable <= b.durable) && (a.accounted ==> b.accounted)
    ensures Goes(lib, faults, a, b, failed)
  {
    NoneMarked(lib, a, b);
    assert b.kept.windows[|a.kept.windows|..] == [];
  }

  lemma GoesOn(lib: Library, faults: Faults, a: Moment, b: Moment, c: Moment, failed: bool, failed': bool)
    requires Goes(lib, faults, a, b, failed) && Goes(lib, faults, b, c, failed')
    ensures Goes(lib, faults, a, c, failed || failed')
  {
    FollowedTransitive(lib, a.memory, b.memory, c.memory, failed, failed');
    ExtendsTransitive(a.kept, b.kept, c.kept);
    NewlyMarkedJoin(lib, a, b, c);
    SomeFailJoin(faults.save, a.kept.saves, b.kept.saves, c.kept.saves);
    SomeFailJoin(faults.append, a.kept.attempts, b.kept.attempts, c.kept.attempts);
    if !SomeFail(faults.save, a.kept.saves, c.kept.saves) {
      NothingLostJoin(a.kept.windows, b.kept.windows, c.kept.windows);
    }
  }

  // ---------------------------------------------------------------------------
  // The rounds of a run
  // ---------------------------------------------------------------------------

  /** One round of the loop: what others ingested, how many events had been reduced then and
      what was queued, the commands run, their results, and how many checkpoints were taken. */
  datatype Round = Round(
    heard: seq<Event>, at: nat, queue: seq<Command>, batch: seq<Command>, events: seq<Event>, taken: nat)

  function HistoryOf(rounds: seq<Round>): seq<Event> {
    if rounds == [] then []
    else
      var last := rounds[|rounds| - 1];
      HistoryOf(rounds[..|rounds| - 1]) + (last.heard + last.events)
  }

  function BatchesOf(rounds: seq<Round>): seq<seq<Command>> {
    if rounds == [] then []
    else
      var last := rounds[|rounds| - 1];
      BatchesOf(rounds[..|rounds| - 1]) + (if last.batch == [] then [] else [last.batch])
  }

  /** How many commands these rounds ran. */
  function CommandsRun(rounds: seq<Round>): nat {
    if rounds == [] then 0 else CommandsRun(rounds[..|rounds| - 1]) + |rounds[|rounds| - 1].batch|
  }

  /** How many checkpoints were taken in them. */
  function CheckpointsTaken(rounds: seq<Round>): nat {
    if rounds == [] then 0 else CheckpointsTaken(rounds[..|rounds| - 1]) + rounds[|rounds| - 1].taken
  }

  lemma RoundOn(rounds: seq<Round>, last: Round)
    ensures HistoryOf(rounds + [last]) == HistoryOf(rounds) + (last.heard + last.events)
    ensures BatchesOf(rounds + [last]) == BatchesOf(rounds) + (if last.batch == [] then [] else [last.batch])
    ensures CommandsRun(rounds + [last]) == CommandsRun(rounds) + |last.batch|
    ensures CheckpointsTaken(rounds + [last]) == CheckpointsTaken(rounds) + last.taken
  {
    assert (rounds + [last])[..|rounds|] == rounds;
  }

  lemma HistoryOn(a: seq<(Event, string)>, b: seq<(Event, string)>, c: seq<(Event, string)>)
    requires a <= b <= c
    ensures a <= c && EventsOf(c[|a|..]) == EventsOf(b[|a|..]) + EventsOf(c[|b|..])
  {
    Suffixes(a, b, c);
    EventsConcat(b[|a|..], c[|b|..]);
  }

  // ---------------------------------------------------------------------------
  // What a log determines
  // ---------------------------------------------------------------------------

  /** Equal but for generated ids and the artifacts, which are filed under them. */
  ghost predicate SameButIDs(a: State, b: State) {
    && a.version == b.version && a.updatedAt == b.updatedAt && a.systemPrompt == b.systemPrompt
    && a.mode == b.mode && a.planContent == b.planContent && a.context == b.context
    && a.tasks == b.tasks && a.locks == b.locks
    && SameGoalsButIDs(a.goals, b.goals)
  }

  predicate SameGoal(g: Goal, h: Goal) {
    g.(id := "") == h.(id := "")
  }

  ghost predicate SameGoalsButIDs(a: seq<Goal>, b: seq<Goal>) {
    |a| == |b| && forall i :: 0 <= i < |a| ==> SameGoal(a[i], b[i])
  }

  /** The artifacts a history files, in order, each with the id it was given. */
  function Filed(lib: Library, s: State, history: seq<(Event, string)>): seq<Artifact>
    requires s.context.Some?
  {
    if history == [] then []
    else
      var init, (e, newID) := history[..|history| - 1], history[|history| - 1];
      var path := CreatedPath(lib, Messages(Replay(lib, s, init)) + Said(e.payload), e.payload);
      Filed(lib, s, init) + (if path.Some? then [NewArtifact(lib, newID, path.value, e.at)] else [])
  }

  function FileAll(artifacts: map<string, Artifact>, filed: seq<Artifact>): map<string, Artifact> {
    if filed == [] then artifacts
    else FileAll(artifacts, filed[..|filed| - 1])[filed[|filed| - 1].id := filed[|filed| - 1]]
  }

  /** A state's artifacts are those it started with and those its history filed. */
  lemma {:induction false} ArtifactsAreFiled(lib: Library, s: State, history: seq<(Event, string)>)
    requires s.context.Some?
    ensures Replay(lib, s, history).artifacts == FileAll(s.artifacts, Filed(lib, s, history))
  {
    if history != [] {
      var init := history[..|history| - 1];
      ArtifactsAreFiled(lib, s, init);
      FileOneMore(lib, Replay(lib, s, init), history[|history| - 1], s.artifacts, Filed(lib, s, init));
    }
  }

  lemma FileOneMore(
      lib: Library, s: State, last: (Event, string), artifacts: map<string, Artifact>, filed: seq<Artifact>)
    requires s.context.Some? && s.artifacts == FileAll(artifacts, filed)
    ensures var path := CreatedPath(lib, Messages(s) + Said(last.0.payload), last.0.payload);
      Reduce(lib, s, last.0, last.1).artifacts ==
        FileAll(artifacts, filed + (if path.Some? then [NewArtifact(lib, last.1, path.value, last.0.at)] else []))
  {
    var path := CreatedPath(lib, Messages(s) + Said(last.0.payload), last.0.payload);
    if path.Some? {
      assert (filed + [NewArtifact(lib, last.1, path.value, last.0.at)])[..|filed|] == filed;
    } else {
      assert filed + [] == filed;
    }
  }

  lemma SameGoalActive(g: Goal, h: Goal)
    requires SameGoal(g, h)
    ensures g.status == h.status && SameGoal(g.(status := Completed), h.(status := Completed))
  {
    assert g.status == g.(id := "").status && h.status == h.(id := "").status;
    assert g.(status := Completed).(id := "") == g.(id := "").(status := Completed);
    assert h.(status := Completed).(id := "") == h.(id := "").(status := Completed);
  }

  lemma {:induction false} SameFirstActive(a: seq<Goal>, b: seq<Goal>)
    requires SameGoalsButIDs(a, b)
    ensures FirstActive(a) == FirstActive(b)
  {
    if a != [] {
      SameGoalActive(a[0], b[0]);
      forall i | 0 <= i < |a| - 1 ensures SameGoal(a[1..][i], b[1..][i]) {
        assert a[1..][i] == a[i + 1] && b[1..][i] == b[i + 1];
      }
      SameFirstActive(a[1..], b[1..]);
    }
  }

  lemma SameWhenCompleted(a: seq<Goal>, b: seq<Goal>)
    requires SameGoalsButIDs(a, b)
    ensures SameGoalsButIDs(CompleteFirstActive(a), CompleteFirstActive(b))
  {
    SameFirstActive(a, b);
    var k := FirstActive(a);
    if k < |a| {
      SameGoalActive(a[k], b[k]);
    }
  }

  lemma SameWhenAdded(a: seq<Goal>, b: seq<Goal>, idA: string, idB: string, content: string)
    requires SameGoalsButIDs(a, b)
    ensures SameGoalsButIDs(a + [NewGoal(idA, content)], b + [NewGoal(idB, content)])
  {
    assert SameGoal(NewGoal(idA, content), NewGoal(idB, content));
  }

  lemma SameGoals(a: seq<Goal>, b: seq<Goal>, p: Payload, idA: string, idB: string)
    requires SameGoalsButIDs(a, b)
    ensures SameGoalsButIDs(GoalsAfter(a, p, idA), GoalsAfter(b, p, idB))
  {
    SameFirstActive(a, b);
    SameWhenCompleted(a, b);
    if p.UserMessage? {
      SameWhenAdded(a, b, idA, idB, p.content);
    }
  }

  /** One event reduced in two states that are the same but for ids. */
  lemma SameStep(lib: Library, a: State, b: State, e: Event, idA: string, idB: string)
    requires a.context.Some? && b.context.Some? && SameButIDs(a, b)
    ensures SameButIDs(Reduce(lib, a, e, idA), Reduce(lib, b, e, idB))
    ensures CreatedPath(lib, Messages(a) + Said(e.payload), e.payload) ==
      CreatedPath(lib, Messages(b) + Said(e.payload), e.payload)
  {
    SameGoals(a.goals, b.goals, e.payload, idA, idB);
  }

  /** The same artifacts in the same order, but for their ids. */
  ghost predicate SameFiled(x: seq<Artifact>, y: seq<Artifact>) {
    |x| == |y| && forall i :: 0 <= i < |x| ==> x[i].(id := "") == y[i].(id := "")
  }

  lemma SameFiledOn(
      lib: Library, x: seq<Artifact>, y: seq<Artifact>, path: Option<string>, at: Time, idA: string, idB: string)
    requires SameFiled(x, y)
    ensures SameFiled(x + (if path.Some? then [NewArtifact(lib, idA, path.value, at)] else []),
                      y + (if path.Some? then [NewArtifact(lib, idB, path.value, at)] else []))
  {
  }

  /** Two processes that reduce the same log reach the same state and file the same artifacts,
      but for the ids they generate on the way. */
  lemma {:induction false} LogDeterminesState(
      lib: Library, origin: State, a: seq<(Event, string)>, b: seq<(Event, string)>)
    requires origin.context.Some? && EventsOf(a) == EventsOf(b)
    ensures SameButIDs(Replay(lib, origin, a), Replay(lib, origin, b))
    ensures SameFiled(Filed(lib, origin, a), Filed(lib, origin, b))
  {
    if a != [] {
      var n := |a| - 1;
      var s, t, e := Replay(lib, origin, a[..n]), Replay(lib, origin, b[..n]), a[n].0;
      assert EventsOf(a[..n]) == EventsOf(a)[..n] == EventsOf(b)[..n] == EventsOf(b[..n]);
      assert EventsOf(a)[n] == e && EventsOf(b)[n] == b[n].0;
      LogDeterminesState(lib, origin, a[..n], b[..n]);
      SameStep(lib, s, t, e, a[n].1, b[n].1);
      SameFiledOn(lib, Filed(lib, origin, a[..n]), Filed(lib, origin, b[..n]),
                  CreatedPath(lib, Messages(s) + Said(e.payload), e.payload), e.at, a[n].1, b[n].1);
    }
  }
}
