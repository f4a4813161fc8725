/** The runtime as the object it is, on one thread: the loop of `Run`, the steps it is made
    of, and calls of `Ingest` between them. The reducer, the store, the model and the tools
    may fail at every call. `Interleaving` covers the calls of `Ingest` inside a step. */
module Runtime {
  import opened Wrappers
  import opened States
  import opened Accounts
  import Interleaving
  import PatchEngine
  import Reducing
  import Stream

  /** What the model has to say: nothing, an answer at once, or one in chunks. */
  datatype Answer = Unavailable | Whole(reply: string, calls: seq<ToolCall>) | Streamed(chunks: seq<Stream.Chunk>)

  /** How a tool call came out: the executor failed, or it reported a result. */
  datatype ToolReply = ExecutorError(error: string) | Reported(isError: bool, content: string, error: string)

  /** What the outside has in store for one command: the model's answer if it asks the model;
      else whether the arguments can be encoded, whether the user is asked for permission, which
      files the tool changes, and what comes of it. */
  datatype External = External(answer: Answer, encodes: bool, asks: bool, changes: seq<FileChange>, reply: ToolReply)

  /** What it has for each use, and each command. */
  type World = (nat, Command) -> External

  /** This is what the command produces then. */
  ghost predicate Replies(cmd: Command, x: External, p: Payload) {
    match cmd
    case CallLLM(_, _) =>
      (match x.answer
       case Unavailable => p.ErrorReport?
       case Whole(reply, calls) => p == LLMResponse(reply, calls)
       case Streamed(chunks) => p == LLMResponse(Stream.Contents(chunks), Stream.Calls(chunks)))
    case CallTool(id, name, arguments) =>
      if arguments.Some? && !x.encodes then p.ErrorReport?
      else
        (match x.reply
         case ExecutorError(error) => p == ToolResult(id, name, false, "", error)
         case Reported(true, content, error) => p == ToolResult(id, name, false, content, error)
         case Reported(false, content, _) => p == ToolResult(id, name, true, content, ""))
  }

  /** That is an answer as the interleaved model has them, and for the reducer. */
  lemma RepliesAnswer(cmd: Command, x: External, e: Event)
    requires Replies(cmd, x, e.payload)
    ensures Interleaving.Answers(cmd, e) && !ForClients(e)
  {
  }

  /** One event for each command, in order: what the outside had for it. */
  ghost predicate AnswerAll(world: World, from: nat, cmds: seq<Command>, events: seq<Event>) {
    |events| == |cmds| && forall i :: 0 <= i < |cmds| ==> Replies(cmds[i], world(from + i, cmds[i]), events[i].payload)
  }

  /** Unless reducing panicked, the events reduced are these; either they answer the commands, or
      they were lost. */
  ghost predicate Ran(
      world: World, from: nat, cmds: seq<Command>, reduced: seq<Event>, events: seq<Event>, ok: bool, failed: bool)
  {
    && (ok ==> reduced == events && (events == [] || AnswerAll(world, from, cmds, events)))
    && (!failed ==> ok && AnswerAll(world, from, cmds, events))
  }

  lemma AnswerOneMore(world: World, from: nat, cmds: seq<Command>, k: nat, events: seq<Event>, e: Event)
    requires k < |cmds| && AnswerAll(world, from, cmds[..k], events)
    requires Replies(cmds[k], world(from + k, cmds[k]), e.payload)
    ensures AnswerAll(world, from, cmds[..k + 1], events + [e])
  {
    forall i | 0 <= i < k ensures Replies(cmds[i], world(from + i, cmds[i]), events[i].payload) {
      assert cmds[..k][i] == cmds[i];
    }
  }

  lemma AllForReducer(world: World, from: nat, cmds: seq<Command>, events: seq<Event>)
    requires AnswerAll(world, from, cmds, events)
    ensures forall i :: 0 <= i < |events| ==> Interleaving.Answers(cmds[i], events[i]) && !ForClients(events[i])
  {
    forall i | 0 <= i < |events| ensures Interleaving.Answers(cmds[i], events[i]) && !ForClients(events[i]) {
      RepliesAnswer(cmds[i], world(from + i, cmds[i]), events[i]);
    }
  }

  /** The pieces of text in these token events. */
  function Deltas(log: seq<Event>): seq<string> {
    if log == [] then []
    else
      var last := log[|log| - 1].payload;
      Deltas(log[..|log| - 1]) + (if last.LLMToken? then [last.delta] else [])
  }

  ghost predicate TokensOnly(log: seq<Event>) {
    forall e :: e in log ==> e.payload.LLMToken?
  }

  /** These tokens were logged, one attempt each; none is missing unless an attempt failed. */
  ghost predicate Announced(
      before: seq<Event>, log: seq<Event>, fails: nat -> bool, from: nat, to: nat, tokens: seq<string>)
  {
    && before <= log && TokensOnly(log[|before|..]) && from <= to
    && (!SomeFail(fails, from, to) ==> Deltas(log[|before|..]) == tokens)
  }

  lemma NoneAnnounced(log: seq<Event>, fails: nat -> bool, from: nat)
    ensures Announced(log, log, fails, from, from, [])
  {
    assert log[|log|..] == [];
  }

  lemma OneMoreDelta(log: seq<Event>, e: Event)
    requires e.payload.LLMToken?
    ensures Deltas(log + [e]) == Deltas(log) + [e.payload.delta]
  {
    assert (log + [e])[..|log|] == log;
  }

  lemma OneMoreToken(tokens: seq<string>, k: nat)
    requires k <= |tokens|
    ensures k < |tokens| ==> tokens[..k + 1] == tokens[..k] + [tokens[k]]
    ensures k == |tokens| ==> tokens[..k] == tokens
  {
  }

  lemma AnnouncedOn(
      start: seq<Event>, before: seq<Event>, log: seq<Event>, fails: nat -> bool, from: nat, to: nat,
      tokens: seq<string>, token: string)
    requires Announced(start, before, fails, from, to, tokens)
    requires (log == before && fails(to)) ||
      (|log| == |before| + 1 && log == before + [log[|before|]] && log[|before|].payload == LLMToken(token))
    ensures Announced(start, log, fails, from, to + 1, tokens + [token])
  {
    SomeFailJoin(fails, from, to, to + 1);
    if log != before {
      var e := log[|before|];
      assert log[|start|..] == before[|start|..] + [e];
      OneMoreDelta(before[|start|..], e);
    } else {
      SomeFailOnce(fails, to);
    }
  }

  lemma {:induction false} TokensAreQuiet(log: seq<Event>)
    requires TokensOnly(log)
    ensures Reducible(log) == []
  {
    if log != [] {
      assert log[|log| - 1] in log && forall e :: e in log[..|log| - 1] ==> e in log;
      TokensAreQuiet(log[..|log| - 1]);
    }
  }

  /** The first k of these events are reduced, as this history, and their commands queued. */
  ghost predicate Progress(
      lib: Library, events: seq<Event>, k: nat, before: State, history: seq<(Event, string)>, now: State,
      earlier: seq<Command>, queue: seq<Command>)
    requires k <= |events|
  {
    && EventsOf(history) == events[..k] && Reduces(lib, before, history, now)
    && queue == earlier + CommandsOf(lib, events[..k])
  }

  lemma ProgressStep(
      lib: Library, events: seq<Event>, k: nat, before: State, history: seq<(Event, string)>, now: State,
      earlier: seq<Command>, queue: seq<Command>, newID: string)
    requires k < |events| && Progress(lib, events, k, before, history, now, earlier, queue) && !Panics(now, events[k])
    ensures Progress(lib, events, k + 1, before, history + [(events[k], newID)], Reduce(lib, now, events[k], newID),
                     earlier, queue + Commands(lib, events[k]))
  {
    ReducesOneMore(lib, before, history, now, events[k], newID);
    OneMoreEvent(events, k, history, newID);
    OneMoreCommands(lib, events, k, earlier);
  }

  lemma ReducesOneMore(
      lib: Library, before: State, history: seq<(Event, string)>, now: State, e: Event, newID: string)
    requires Reduces(lib, before, history, now) && !Panics(now, e)
    ensures Reduces(lib, before, history + [(e, newID)], Reduce(lib, now, e, newID))
  {
    assert (history + [(e, newID)])[..|history|] == history;
  }

  lemma OneMoreEvent(events: seq<Event>, k: nat, history: seq<(Event, string)>, newID: string)
    requires k < |events| && EventsOf(history) == events[..k]
    ensures EventsOf(history + [(events[k], newID)]) == events[..k + 1]
  {
    EventsConcat(history, [(events[k], newID)]);
    assert EventsOf([(events[k], newID)]) == [events[k]];
    assert events[..k + 1] == events[..k] + [events[k]];
  }

  lemma OneMoreCommands(lib: Library, events: seq<Event>, k: nat, earlier: seq<Command>)
    requires k < |events|
    ensures earlier + CommandsOf(lib, events[..k]) + Commands(lib, events[k]) == earlier + CommandsOf(lib, events[..k + 1])
  {
    var e := events[k];
    assert events[..k + 1] == events[..k] + [e] && [e][1..] == [];
    CommandsConcat(lib, events[..k], [e]);
    assert CommandsOf(lib, [e]) == Commands(lib, e) + [];
  }

  /** Reducing one event follows from a memory. */
  lemma OneReduced(lib: Library, a: Memory, b: Memory, e: Event, newID: string, failed: bool)
    requires !Panics(a.state, e) && b.state == Reduce(lib, a.state, e, newID)
    requires b.applied == a.applied + [(e, newID)] && a.log <= b.log
    requires b.queued == a.queued + Commands(lib, e)
    requires !failed ==> Reducible(b.log[|a.log|..]) == [e]
    ensures Followed(lib, a, b, failed)
  {
    var more := [(e, newID)];
    assert b.applied[|a.applied|..] == more && EventsOf(more) == [e] && more[..0] == [];
    assert [e][1..] == [] && CommandsOf(lib, [e]) == Commands(lib, e) + [] == Commands(lib, e);
  }

  /** So does reducing nothing, if nothing was logged for the reducer. */
  lemma NoneReduced(lib: Library, a: Memory, b: Memory, failed: bool)
    requires b.state == a.state && b.applied == a.applied && b.queued == a.queued && a.log <= b.log
    requires !failed ==> Reducible(b.log[|a.log|..]) == []
    ensures Followed(lib, a, b, failed)
  {
    assert b.applied[|a.applied|..] == [] && EventsOf([]) == [] && CommandsOf(lib, []) == [];
    assert a.queued + [] == a.queued;
  }

  lemma HeardOne(lib: Library, log: seq<Event>, e: Event, newID: string)
    requires !ForClients(e)
    ensures Reducible((log + [e])[|log|..]) == [e]
    ensures CommandsOf(lib, EventsOf([(e, newID)])) == Commands(lib, e)
  {
    LogGrew(log, |log|, [e]);
    assert log[|log|..] == [] && EventsOf([(e, newID)]) == [e] && [e][1..] == [];
    assert CommandsOf(lib, [e]) == Commands(lib, e) + [];
  }

  /** An attempt to ingest follows from a memory, whatever came of it. */
  lemma IngestFollows(lib: Library, a: Memory, b: Memory, e: Event, failed: bool)
    requires a.log <= b.log
    requires failed ==> b.state == a.state && b.applied == a.applied && b.queued == a.queued
    requires !failed ==>
      && !Panics(a.state, e) && !ForClients(e) && b.log == a.log + [e] && b.queued == a.queued + Commands(lib, e)
      && |b.applied| > |a.applied| && b.applied == a.applied + [(e, b.applied[|a.applied|].1)]
      && b.state == Reduce(lib, a.state, e, b.applied[|a.applied|].1)
    ensures Followed(lib, a, b, failed)
  {
    if failed {
      NoneReduced(lib, a, b, true);
    } else {
      HeardOne(lib, a.log, e, b.applied[|a.applied|].1);
      OneReduced(lib, a, b, e, b.applied[|a.applied|].1, false);
    }
  }

  lemma SplitFirst(events: seq<Event>)
    requires events != []
    ensures [events[0]] + events[1..] == events
  {
  }

  lemma QueuedCalls(run: seq<Command>, pending: seq<Command>, more: seq<Command>)
    requires Tools(more) == more
    ensures run + Tools(pending + more) == run + Tools(pending) + more
  {
    ToolsConcat(pending, more);
  }

  lemma RunCalls(batches: seq<seq<Command>>, taken: seq<Command>, cmds: seq<Command>, more: seq<Command>)
    requires Tools(cmds) == Tools(taken) && Tools(more) == more
    ensures ToolsRun(batches + [cmds]) + Tools(more) == ToolsRun(batches) + Tools(taken) + more
  {
    assert (batches + [cmds])[..|batches|] == batches;
  }

  // ---------------------------------------------------------------------------
  // The store
  // ---------------------------------------------------------------------------

  /** The event log, the state file and the checkpoints of a session. */
  class Store {
    const faults: Faults
    var log: seq<Event>
    var file: Option<State>
    var checkpoints: seq<Saved>
    var attempts: nat
    var saves: nat
    var loads: nat

    constructor (faults: Faults)
      ensures this.faults == faults && log == [] && file == None && checkpoints == []
    {
      this.faults := faults;
      log, file, checkpoints, attempts, saves, loads := [], None, [], 0, 0, 0;
    }

    /** A failed append may still have reached the file, unsynced. */
    method AppendEvent(e: Event) returns (ok: bool)
      modifies this`log, this`attempts
      ensures attempts == old(attempts) + 1 && (ok <==> !faults.append(old(attempts)))
      ensures ok ==> log == old(log) + [e]
      ensures !ok ==> log == old(log) || log == old(log) + [e]
    {
      ok := !faults.append(attempts);
      attempts := attempts + 1;
      var written: bool := *;
      if ok || written {
        log := log + [e];
      }
    }

    /** Append one by one, up to the first failure. */
    method AppendEvents(events: seq<Event>) returns (ok: bool)
      modifies this`log, this`attempts
      ensures old(attempts) <= attempts && (ok <==> !SomeFail(faults.append, old(attempts), attempts))
      ensures ok ==> log == old(log) + events
      ensures old(log) <= log <= old(log) + events
    {
      for k := 0 to |events|
        invariant log == old(log) + events[..k]
        invariant old(attempts) <= attempts && !SomeFail(faults.append, old(attempts), attempts)
      {
        var stored := AppendEvent(events[k]);
        assert events[..k + 1] == events[..k] + [events[k]];
        if !stored {
          assert faults.append(attempts - 1);
          return false;
        }
      }
      assert events[..|events|] == events;
      ok := true;
    }

    method SaveState(s: State) returns (ok: bool)
      modifies this`file, this`saves
      ensures saves == old(saves) + 1 && (ok <==> !faults.save(old(saves)))
      ensures file == if ok then Some(s) else old(file)
    {
      ok := !faults.save(saves);
      saves := saves + 1;
      if ok {
        file := Some(s);
      }
    }

    method SaveCheckpoint(c: Saved) returns (ok: bool)
      modifies this`checkpoints, this`saves
      ensures saves == old(saves) + 1 && (ok <==> !faults.save(old(saves)))
      ensures checkpoints == if ok then old(checkpoints) + [c] else old(checkpoints)
    {
      ok := !faults.save(saves);
      saves := saves + 1;
      if ok {
        checkpoints := checkpoints + [c];
      }
    }

    method LoadLatestState() returns (loaded: Result<Option<State>, string>)
      modifies this`loads
      ensures loads == old(loads) + 1 && (loaded.Ok? <==> !faults.load(old(loads)))
      ensures loaded.Ok? ==> loaded.value == file
    {
      loaded := if faults.load(loads) then Err("unreadable state") else Ok(file);
      loads := loads + 1;
    }
  }

  // ---------------------------------------------------------------------------
  // The runtime
  // ---------------------------------------------------------------------------

  datatype Config = Config(maxSteps: int, checkpointInterval: int, model: string)

  datatype Ingestion = Ingested | NotLogged | NotReduced | NotSaved

  datatype Outcome =
    | Finished | ShutDown | ShutDownUnsaved | OutOfSteps
    | NotRecovered | ReducerFailed | NoContext

  class Runtime {
    const lib: Library
    const config: Config
    const store: Store
    const tracker: PatchEngine.Tracker
    // The model and the tools, and how often they were used.
    const world: World
    var uses: nat

    var state: State
    var pending: seq<Command>

    // The state that the history starts from, the events reduced since, how many of them are
    // in the state file, and where in the log they start.
    ghost var origin: State
    ghost var applied: seq<(Event, string)>
    ghost var frontier: nat
    ghost var start: nat
    // Every change recorded with the tracker, and the windows that checkpoints flushed.
    ghost var recorded: seq<FileChange>
    ghost var windows: seq<Window>
    // Every batch of commands that was run.
    ghost var batches: seq<seq<Command>>
    // How many events had been reduced when each checkpoint was taken.
    ghost var marks: seq<nat>

    /** A new runtime over a store that may have seen others before. */
    constructor (
        lib: Library, config: Config, store: Store, tracker: PatchEngine.Tracker, world: World, now: Time)
      ensures this.lib == lib && this.config == config && this.store == store && this.tracker == tracker
      ensures this.world == world && uses == 0
      ensures state == NewState(now) && pending == [] && applied == [] && batches == []
      ensures Accounted() && Tells(store.log, start, applied) && (store.file.None? ==> Sourced())
    {
      this.lib, this.config, this.store, this.tracker, this.world, uses := lib, config, store, tracker, world, 0;
      state, pending := NewState(now), [];
      origin, applied, frontier, start := NewState(now), [], 0, |store.log|;
      recorded := ChangesOf(store.checkpoints) + tracker.changes;
      windows := [Window(ChangesOf(store.checkpoints), true)];
      batches, marks := [], [];
      new;
      assert store.log[start..] == [] && windows[..0] == [];
      assert [] + ChangesOf(store.checkpoints) == ChangesOf(store.checkpoints);
    }

    /** Memory is the fold of the reduced events, the state file the fold of a prefix of them. */
    ghost predicate Sourced()
      reads this, store
    {
      && origin.context.Some?
      && state == Replay(lib, origin, applied)
      && (store.file.Some? ==> frontier <= |applied| && store.file.value == Replay(lib, origin, applied[..frontier]))
    }

    /** Saved windows and pending changes account for all that was recorded. */
    ghost predicate Accounted()
      reads this, store, tracker
    {
      && recorded == AllChanges(windows) + tracker.changes
      && SavedChanges(windows) == ChangesOf(store.checkpoints)
    }

    ghost function Now(): Memory
      reads this, store
    {
      Memory(state, applied, store.log, ToolsRun(batches) + Tools(pending))
    }

    ghost function Kept(): Trail
      reads this, store
    {
      Trail(origin, start, store.checkpoints, marks, recorded, windows, batches, uses, store.attempts, store.saves)
    }

    /** How many reduced events are safe on disk. */
    ghost function Durable(): int
      reads this, store
    {
      if store.file.Some? then frontier else -1
    }

    ghost function Here(): Moment
      reads this, store, tracker
    {
      Moment(Now(), Kept(), Durable(), Sourced(), Accounted())
    }

    method SwapPendingCommands() returns (cmds: seq<Command>)
      modifies this`pending
      ensures cmds == old(pending) && pending == []
    {
      cmds := pending;
      pending := [];
    }

    method AppendPendingCommands(cmds: seq<Command>)
      modifies this`pending
      ensures pending == old(pending) + cmds
    {
      pending := pending + cmds;
    }

    /** Reduce one event into memory and queue its commands; a panic changes nothing. */
    method ApplyEvent(e: Event) returns (ok: bool)
      modifies this`state, this`pending, this`applied
      ensures ok <==> !Panics(old(state), e)
      ensures ok ==>
        && |applied| == |old(applied)| + 1 && applied == old(applied) + [(e, applied[|old(applied)|].1)]
        && state == Reduce(lib, old(state), e, applied[|old(applied)|].1)
      ensures pending == old(pending) + (if ok then Commands(lib, e) else [])
      ensures !ok ==> state == old(state) && applied == old(applied)
      ensures old(Sourced()) ==> ok && Sourced()
    {
      var current := state;
      if Panics(current, e) {
        return false;
      }
      var newID: string := *;
      state := Reduce(lib, current, e, newID);
      var cmds := Commands(lib, e);
      if |cmds| > 0 {
        AppendPendingCommands(cmds);
      }
      applied := applied + [(e, newID)];
      ok := true;
      assert applied[..|old(applied)|] == old(applied);
      assert frontier <= |old(applied)| ==> applied[..frontier] == old(applied)[..frontier];
    }

    /** Log an event, reduce it and save the state, all under the lock. */
    method Ingest(e: Event) returns (r: Ingestion)
      modifies this`state, this`pending, this`applied, this`frontier, store`log, store`attempts, store`file, store`saves
      ensures r == NotLogged <==> store.faults.append(old(store.attempts))
      ensures r == NotReduced <==> r != NotLogged && Panics(old(state), e)
      ensures r == NotSaved <==> r !in {NotLogged, NotReduced} && store.faults.save(old(store.saves))
      ensures store.attempts == old(store.attempts) + 1 && old(store.saves) <= store.saves
      ensures old(store.log) <= store.log <= old(store.log) + [e] && (r != NotLogged ==> store.log == old(store.log) + [e])
      ensures if r in {NotLogged, NotReduced}
        then state == old(state) && applied == old(applied) && pending == old(pending)
        else
          && |applied| == |old(applied)| + 1 && applied == old(applied) + [(e, applied[|old(applied)|].1)]
          && state == Reduce(lib, old(state), e, applied[|old(applied)|].1)
          && pending == old(pending) + Commands(lib, e)
      ensures store.file == if r == Ingested then Some(state) else old(store.file)
      ensures frontier == if r == Ingested then |applied| else old(frontier)
      ensures old(Sourced()) ==> Sourced()
    {
      var logged := store.AppendEvent(e);
      if !logged {
        return NotLogged;
      }
      var reduced := ApplyEvent(e);
      if !reduced {
        assert old(pending) + [] == old(pending);
        return NotReduced;
      }
      var ok := store.SaveState(state);
      if !ok {
        return NotSaved;
      }
      frontier := |applied|;
      assert applied[..frontier] == applied;
      r := Ingested;
    }

    /** Load the state file into memory, if there is one. What was reduced since it was saved
        is forgotten, and only that: memory stays as it is exactly when nothing was. */
    method Recover() returns (ok: bool)
      modifies this`state, this`origin, this`applied, this`frontier, this`start, store`loads
      ensures ok <==> !store.faults.load(old(store.loads))
      ensures state == if ok && store.file.Some? then store.file.value else old(state)
      ensures !ok || store.file.None? ==>
        applied == old(applied) && origin == old(origin) && start == old(start) && frontier == old(frontier)
      ensures old(Sourced()) ==> Sourced() && origin == old(origin) && start == old(start) && frontier == old(frontier)
      ensures old(Sourced()) && ok && store.file.Some? ==>
        && applied == old(applied)[..frontier]
        && (state == old(state) <==> store.file.value.version == old(state).version)
        && (state == old(state) <==> old(frontier) == |old(applied)|)
        && (applied == old(applied) <==> old(frontier) == |old(applied)|)
      ensures !old(Sourced()) && ok && store.file.Some? ==>
        origin == state && applied == [] && Tells(store.log, start, []) && (state.context.Some? ==> Sourced())
    {
      var loaded := store.LoadLatestState();
      if loaded.Err? {
        return false;
      }
      ok := true;
      if loaded.value.Some? {
        state := loaded.value.value;
        if old(Sourced()) {
          RecoverForgetsIff(lib, origin, applied, frontier);
          applied := applied[..frontier];
          assert applied[..frontier] == applied;
        } else {
          origin, applied, frontier, start := state, [], 0, |store.log|;
          assert store.log[start..] == [];
        }
      }
    }

    /** A conversation rewind: the target's state goes to the file, and memory stays. */
    method RewindConversation(target: State, ghost n: nat) returns (ok: bool)
      modifies this`frontier, store`file, store`saves
      ensures ok <==> !store.faults.save(old(store.saves))
      ensures store.file == if ok then Some(target) else old(store.file)
      ensures old(Sourced()) && n <= |applied| && target == Replay(lib, origin, applied[..n]) ==> Sourced()
    {
      ok := store.SaveState(target);
      if ok {
        frontier := n;
      }
    }

    /** A conversation rewind and then a message: the file ends up with what memory makes of the
        message. That is what the target makes of it exactly if the target was as recent as
        memory; else the message undoes the rewind. */
    method RewindThenIngest(target: State, ghost n: nat, e: Event) returns (rewound: bool, r: Ingestion)
      modifies this`state, this`pending, this`applied, this`frontier, store`log, store`attempts, store`file, store`saves
      ensures r == Ingested ==> |applied| == |old(applied)| + 1
      ensures
        && rewound && r == Ingested && old(Sourced())
        && n <= |old(applied)| && target == Replay(lib, origin, old(applied)[..n]) ==>
          var newID := applied[|old(applied)|].1;
          && store.file == Some(Reduce(lib, old(state), e, newID))
          && (store.file == Some(Reduce(lib, target, e, newID)) <==> target.version == old(state).version)
    {
      rewound := RewindConversation(target, n);
      r := Ingest(e);
      if old(Sourced()) && n <= |old(applied)| && target == Replay(lib, origin, old(applied)[..n]) && r == Ingested {
        RecoverForgetsIff(lib, origin, old(applied), n);
        GoneBackDiffers(lib, origin, old(applied), n, e, applied[|old(applied)|].1);
      }
    }

    /** The first active goal, if any. */
    method SelectGoal() returns (goal: Option<Goal>)
      ensures var i := FirstActive(state.goals);
        goal == if i < |state.goals| then Some(state.goals[i]) else None
    {
      for i := 0 to |state.goals|
        invariant FirstActive(state.goals) >= i
      {
        if state.goals[i].status == GoalStatus.Pending || state.goals[i].status == InProgress {
          return Some(state.goals[i]);
        }
      }
      goal := None;
    }

    /** Ask the model about a goal, given the conversation as it is; without a context this
        panics. */
    method Decide(goal: Goal) returns (cmds: Option<seq<Command>>)
      ensures cmds == if state.context.Some? then Some([CallLLM(config.model, Request(lib, state, goal))]) else None
    {
      if state.context.None? {
        return None;
      }
      var system := SystemText(Prompt(lib, state.systemPrompt, goal));
      cmds := Some([CallLLM(config.model, [system] + state.context.value.messages)]);
    }

    /** Log an event that only clients look at; a failure is only reported. */
    method Announce(e: Event)
      requires ForClients(e)
      modifies store`log, store`attempts
      ensures store.attempts == old(store.attempts) + 1
      ensures store.log == old(store.log) + [e] || (store.log == old(store.log) && store.faults.append(old(store.attempts)))
      ensures Quiet(old(store.log), store.log)
    {
      var ok := store.AppendEvent(e);
      ghost var more := store.log[|old(store.log)|..];
      assert more == [] || (more == [e] && more[..0] == []);
    }

    /** Log the tokens of a stream, one after the other. */
    method AnnounceTokens(tokens: seq<string>)
      modifies store`log, store`attempts
      ensures Announced(old(store.log), store.log, store.faults.append, old(store.attempts), store.attempts, tokens)
    {
      ghost var fails, log, tried := store.faults.append, store.log, store.attempts;
      NoneAnnounced(log, fails, tried);
      for k := 0 to |tokens|
        invariant Announced(log, store.log, fails, tried, store.attempts, tokens[..k])
      {
        ghost var before, attempts := store.log, store.attempts;
        var id: string, at: Time := *, *;
        Announce(Event(id, at, LLMToken(tokens[k])));
        AnnouncedOn(log, before, store.log, fails, tried, attempts, tokens[..k], tokens[k]);
        OneMoreToken(tokens, k);
      }
      OneMoreToken(tokens, |tokens|);
    }

    /** Stream an answer or, if no stream starts, ask for it at once. The response event carries
        exactly what the model answered, and of a stream what its chunks add up to. All that is
        logged on the way are the tokens, which spell the text; none is missing unless an append
        failed. */
    method ExecuteCallLLM(cmd: Command) returns (r: Result<Event, string>, ghost tokens: seq<string>)
      requires cmd.CallLLM?
      modifies this`uses, store`log, store`attempts
      ensures uses == old(uses) + 1
      ensures Announced(old(store.log), store.log, store.faults.append, old(store.attempts), store.attempts, tokens)
      ensures match world(old(uses), cmd).answer
        case Unavailable => r.Err? && store.log == old(store.log)
        case Whole(reply, calls) => r.Ok? && r.value.payload == LLMResponse(reply, calls) && store.log == old(store.log)
        case Streamed(chunks) =>
          && r.Ok? && r.value.payload == LLMResponse(Stream.Contents(chunks), Stream.Calls(chunks))
          && Stream.Concat(tokens) == r.value.payload.reply && "" !in tokens
    {
      var id: string, at: Time := *, *;
      var answer := world(uses, cmd).answer;
      uses, tokens := uses + 1, [];
      NoneAnnounced(store.log, store.faults.append, store.attempts);
      match answer
      case Unavailable =>
        r := Err("model call failed");
      case Whole(reply, calls) =>
        r := Ok(Event(id, at, LLMResponse(reply, calls)));
      case Streamed(chunks) =>
        var content, calls, heard := Stream.Consume(chunks);
        AnnounceTokens(heard);
        tokens := heard;
        r := Ok(Event(id, at, LLMResponse(content, calls)));
    }

    /** A permission request reaches the log, unless the append failed. */
    method AskUser()
      modifies store`log, store`attempts
      ensures store.attempts == old(store.attempts) + 1 && Quiet(old(store.log), store.log)
      ensures store.log == old(store.log) ==> store.faults.append(old(store.attempts))
      ensures store.log != old(store.log) ==>
        |store.log| == |old(store.log)| + 1 && store.log[|old(store.log)|].payload.PermissionRequest?
    {
      var id: string, at: Time, requestID: string := *, *, *;
      Announce(Event(id, at, PermissionRequest(requestID)));
    }

    /** File changes that a tool makes. */
    method RecordAll(changes: seq<FileChange>)
      modifies this`recorded, tracker
      ensures tracker.changes == old(tracker.changes) + changes && recorded == old(recorded) + changes
      ensures old(Accounted()) ==> Accounted()
    {
      for k := 0 to |changes|
        invariant tracker.changes == old(tracker.changes) + changes[..k] && recorded == old(recorded) + changes[..k]
      {
        tracker.Record(changes[k]);
        recorded := recorded + [changes[k]];
        assert changes[..k + 1] == changes[..k] + [changes[k]];
      }
      assert changes[..|changes|] == changes;
    }

    /** Run a tool. Whatever it does or fails to do, the result names its call; only arguments
        that cannot be encoded give an error instead, and then the tool is not run. A tool may
        change files and may ask the user for permission. */
    method ExecuteCallTool(cmd: Command) returns (r: Result<Event, string>)
      requires cmd.CallTool?
      modifies this`uses, this`recorded, store`log, store`attempts, tracker
      ensures uses == old(uses) + 1 && Quiet(old(store.log), store.log)
      ensures var x := world(old(uses), cmd);
        if cmd.arguments.Some? && !x.encodes
        then
          && r.Err? && store.log == old(store.log) && store.attempts == old(store.attempts)
          && tracker.changes == old(tracker.changes) && recorded == old(recorded)
        else
          && r.Ok? && store.attempts == old(store.attempts) + (if x.asks then 1 else 0)
          && (x.asks && !store.faults.append(old(store.attempts)) ==>
                |store.log| == |old(store.log)| + 1 && store.log[|old(store.log)|].payload.PermissionRequest?)
          && tracker.changes == old(tracker.changes) + x.changes && recorded == old(recorded) + x.changes
          && (match x.reply
              case ExecutorError(error) => r.value.payload == ToolResult(cmd.callID, cmd.toolName, false, "", error)
              case Reported(true, content, error) =>
                r.value.payload == ToolResult(cmd.callID, cmd.toolName, false, content, error)
              case Reported(false, content, _) =>
                r.value.payload == ToolResult(cmd.callID, cmd.toolName, true, content, ""))
      ensures old(Accounted()) ==> Accounted()
    {
      assert store.log[|store.log|..] == [];
      var x := world(uses, cmd);
      uses := uses + 1;
      if cmd.arguments.Some? && !x.encodes {
        return Err("marshal tool arguments");
      }
      if x.asks {
        AskUser();
      }
      RecordAll(x.changes);
      var id: string, at: Time := *, *;
      match x.reply
      case ExecutorError(error) =>
        r := Ok(Event(id, at, ToolResult(cmd.callID, cmd.toolName, false, "", error)));
      case Reported(isError, content, error) =>
        if isError {
          return Ok(Event(id, at, ToolResult(cmd.callID, cmd.toolName, false, content, error)));
        }
        r := Ok(Event(id, at, ToolResult(cmd.callID, cmd.toolName, true, content, "")));
    }

    method Execute(cmd: Command) returns (e: Event)
      modifies this`uses, this`recorded, store`log, store`attempts, tracker
      ensures uses == old(uses) + 1 && Replies(cmd, world(old(uses), cmd), e.payload)
      ensures Quiet(old(store.log), store.log) && Extends(old(Kept()), Kept())
      ensures old(Accounted()) ==> Accounted()
    {
      var r: Result<Event, string>;
      if cmd.CallLLM? {
        ghost var tokens;
        r, tokens := ExecuteCallLLM(cmd);
        TokensAreQuiet(store.log[|old(store.log)|..]);
      } else {
        r := ExecuteCallTool(cmd);
      }
      if r.Ok? {
        return r.value;
      }
      var id: string, at: Time, commandID: string := *, *, *;
      e := Event(id, at, ErrorReport(commandID, r.error));
    }

    /** Run the commands: one event for each, in order. */
    method ExecuteAll(cmds: seq<Command>) returns (events: seq<Event>)
      modifies this`uses, this`recorded, this`batches, store`log, store`attempts, tracker
      ensures uses == old(uses) + |cmds| && AnswerAll(world, old(uses), cmds, events) && batches == old(batches) + [cmds]
      ensures Quiet(old(store.log), store.log) && Extends(old(Kept()), Kept())
      ensures old(Accounted()) ==> Accounted()
    {
      events := [];
      batches := batches + [cmds];
      assert store.log[|store.log|..] == [];
      for k := 0 to |cmds|
        invariant uses == old(uses) + k && AnswerAll(world, old(uses), cmds[..k], events)
        invariant batches == old(batches) + [cmds]
        invariant Quiet(old(store.log), store.log) && Extends(old(Kept()), Kept())
        invariant old(Accounted()) ==> Accounted()
      {
        ghost var before, kept := store.log, Kept();
        var e := Execute(cmds[k]);
        QuietTransitive(old(store.log), before, store.log);
        ExtendsTransitive(old(Kept()), kept, Kept());
        AnswerOneMore(world, old(uses), cmds, k, events, e);
        events := events + [e];
      }
      assert cmds[..|cmds|] == cmds;
    }

    /** Run the commands and log what they produced; a failed append loses it all. */
    method Dispatch(cmds: seq<Command>) returns (events: seq<Event>, ok: bool)
      modifies this`uses, this`recorded, this`batches, store`log, store`attempts, tracker
      ensures batches == old(batches) + [cmds] && uses == old(uses) + |cmds|
      ensures old(store.log) <= store.log && Extends(old(Kept()), Kept())
      ensures ok ==> AnswerAll(world, old(uses), cmds, events) && Reducible(store.log[|old(store.log)|..]) == events
      ensures !ok ==> events == [] && SomeFail(store.faults.append, old(store.attempts), store.attempts)
      ensures old(Accounted()) ==> Accounted()
    {
      events := ExecuteAll(cmds);
      ghost var quiet := store.log;
      ok := true;
      if |events| > 0 {
        ok := store.AppendEvents(events);
      }
      if ok {
        assert store.log == quiet + events;
        AllForReducer(world, old(uses), cmds, events);
        LogGrew(quiet, |old(store.log)|, events);
      } else {
        events := [];
      }
    }

    ghost predicate Observed(
        events: seq<Event>, k: nat, before: State, earlier: seq<(Event, string)>, queue: seq<Command>)
      requires k <= |events|
      reads this
    {
      earlier <= applied && Progress(lib, events, k, before, applied[|earlier|..], state, queue, pending)
    }

    method ObserveOne(
        events: seq<Event>, k: nat, ghost before: State, ghost earlier: seq<(Event, string)>, ghost queue: seq<Command>)
      returns (ok: bool)
      requires k < |events| && Observed(events, k, before, earlier, queue)
      modifies this`state, this`pending, this`applied
      ensures ok <==> !Panics(old(state), events[k])
      ensures if ok then Observed(events, k + 1, before, earlier, queue) else Observed(events, k, before, earlier, queue)
      ensures old(Sourced()) ==> ok && Sourced()
      ensures if ok then old(state).context.Some? ==> state.context.Some? else state.context.None?
    {
      ghost var done, mid, waiting := applied[|earlier|..], state, pending;
      ok := ApplyEvent(events[k]);
      if ok {
        ghost var newID := applied[|applied| - 1].1;
        ProgressStep(lib, events, k, before, done, mid, queue, waiting, newID);
        assert applied[|earlier|..] == done + [(events[k], newID)];
      }
    }

    /** Reduce the events of one dispatch, in order, up to the first that panics. */
    method Observe(events: seq<Event>) returns (ok: bool)
      modifies this`state, this`pending, this`applied
      ensures old(applied) <= applied && Reduces(lib, old(state), applied[|old(applied)|..], state)
      ensures pending == old(pending) + CommandsOf(lib, EventsOf(applied[|old(applied)|..]))
      ensures ok ==> EventsOf(applied[|old(applied)|..]) == events
      ensures !ok ==> state.context.None?
      ensures old(Sourced()) ==> ok && Sourced()
      ensures old(state).context.Some? ==> ok
    {
      ghost var before, earlier, queue := state, applied, pending;
      assert events[..0] == [] && applied[|applied|..] == [];
      for k := 0 to |events|
        invariant Observed(events, k, before, earlier, queue)
        invariant old(Sourced()) ==> Sourced()
        invariant before.context.Some? ==> state.context.Some?
      {
        var reduced := ObserveOne(events, k, before, earlier, queue);
        if !reduced {
          return false;
        }
      }
      assert events[..|events|] == events;
      ok := true;
    }

    /** Save a copy of the state, then a checkpoint with the file changes made since the last
        one. Those changes leave the tracker whether or not the saves succeed. */
    method Checkpoint() returns (ok: bool)
      modifies this`frontier, this`windows, this`marks, store`file, store`checkpoints, store`saves, tracker
      ensures var stored := !store.faults.save(old(store.saves));
        && (ok <==> stored && !store.faults.save(old(store.saves) + 1))
        && store.file == (if stored then Some(state) else old(store.file))
        && frontier == (if stored then |applied| else old(frontier))
        && store.saves == old(store.saves) + (if stored then 2 else 1)
      ensures tracker.changes == [] && windows == old(windows) + [Window(old(tracker.changes), ok)]
      ensures ok ==>
        && |store.checkpoints| == |old(store.checkpoints)| + 1 && old(store.checkpoints) <= store.checkpoints
        && store.checkpoints[|old(store.checkpoints)|].state == state
        && store.checkpoints[|old(store.checkpoints)|].fileChanges == old(tracker.changes)
      ensures !ok ==> store.checkpoints == old(store.checkpoints)
      ensures marks == old(marks) + (if ok then [|applied|] else [])
      ensures old(Sourced()) ==> Sourced()
      ensures old(Accounted()) ==> Accounted()
    {
      var copy := state;
      var id: string := *;
      var fileChanges := tracker.Flush();
      ok := store.SaveState(copy);
      if ok {
        frontier := |applied|;
        assert applied[..frontier] == applied;
        ok := store.SaveCheckpoint(Saved(id, copy, fileChanges));
        ChangesSnoc(old(store.checkpoints), Saved(id, copy, fileChanges));
      }
      windows, marks := windows + [Window(fileChanges, ok)], marks + (if ok then [|applied|] else []);
      assert windows[..|windows| - 1] == old(windows);
    }

    /** The state is in the file, unless an attempt to save it since then failed. */
    ghost predicate Safe(since: nat)
      reads this, store
    {
      store.file == Some(state) || (since < store.saves && store.faults.save(store.saves - 1))
    }

    /** What holds when a run ends in this way. */
    ghost predicate Ended(outcome: Outcome, since: nat)
      reads this, store, tracker
    {
      && (outcome == Finished ==> pending == [] && FirstActive(state.goals) == |state.goals| && Safe(since))
      && (outcome == ShutDown ==> store.file == Some(state))
      && (outcome in {Finished, ShutDown, ShutDownUnsaved} ==> tracker.changes == [])
    }

    /** A checkpoint as a moment of the run. */
    method Save() returns (ok: bool)
      modifies this`frontier, this`windows, this`marks, store`file, store`checkpoints, store`saves, tracker
      ensures tracker.changes == [] && (ok ==> store.file == Some(state)) && |windows| == |old(windows)| + 1
      ensures Safe(old(store.saves))
      ensures Goes(lib, store.faults, old(Here()), Here(), false)
    {
      ok := Checkpoint();
      assert Now() == old(Now());
      SavedGoes(lib, store.faults, old(Here()), Here(), Window(old(tracker.changes), ok));
    }

    /** One ingest, for the history and the queue. */
    method IngestOne(e: Event) returns (ghost failed: bool)
      requires !ForClients(e)
      modifies this`state, this`pending, this`applied, this`frontier, store`log, store`attempts, store`file, store`saves
      ensures Followed(lib, old(Now()), Now(), failed)
      ensures store.attempts == old(store.attempts) + 1 && old(store.saves) <= store.saves
      ensures old(state).context.Some? ==> state.context.Some? && (failed <==> store.faults.append(old(store.attempts)))
      ensures !failed ==> |applied| == |old(applied)| + 1 && EventsOf(applied[|old(applied)|..]) == [e]
      ensures old(Sourced()) ==> Sourced() && old(Durable()) <= Durable()
    {
      var r := Ingest(e);
      failed := r in {NotLogged, NotReduced};
      AllTools(Commands(lib, e));
      QueuedCalls(ToolsRun(batches), old(pending), Commands(lib, e));
      IngestFollows(lib, old(Now()), Now(), e, failed);
    }

    /** One ingest by another thread. */
    method Hear(e: Event) returns (ghost failed: bool)
      requires !ForClients(e)
      modifies this`state, this`pending, this`applied, this`frontier, store`log, store`attempts, store`file, store`saves
      ensures Goes(lib, store.faults, old(Here()), Here(), failed)
      ensures !failed ==> |applied| == |old(applied)| + 1 && EventsOf(applied[|old(applied)|..]) == [e]
      ensures old(state).context.Some? && SomeFail(store.faults.append, old(store.attempts), store.attempts) ==> failed
    {
      failed := IngestOne(e);
      SomeFailOnce(store.faults.append, old(store.attempts));
      StepGoes(lib, store.faults, old(Here()), Here(), failed);
    }

    /** Events that other threads ingest between two turns. */
    method Listen(events: seq<Event>) returns (ghost failed: bool)
      requires forall i :: 0 <= i < |events| ==> !ForClients(events[i])
      modifies this`state, this`pending, this`applied, this`frontier, store`log, store`attempts, store`file, store`saves
      ensures Goes(lib, store.faults, old(Here()), Here(), failed)
      ensures old(applied) <= applied && (!failed ==> EventsOf(applied[|old(applied)|..]) == events)
      ensures old(state).context.Some? && SomeFail(store.faults.append, old(store.attempts), store.attempts) ==> failed
      decreases |events|
    {
      ghost var start := Here();
      if |events| == 0 {
        FollowedSelf(lib, Now());
        assert applied[|applied|..] == [];
        return false;
      }
      var first := Hear(events[0]);
      ghost var mid := Here();
      var rest := Listen(events[1..]);
      failed := first || rest;
      GoesOn(lib, store.faults, start, mid, Here(), first, rest);
      SomeFailJoin(store.faults.append, start.kept.attempts, mid.kept.attempts, store.attempts);
      HistoryOn(start.memory.applied, mid.memory.applied, applied);
      SplitFirst(events);
    }

    /** Run the commands and reduce what they produced; when that could not be logged, nothing
        is reduced. */
    method Step(cmds: seq<Command>) returns (ok: bool, ghost events: seq<Event>, ghost failed: bool)
      modifies this`state, this`pending, this`applied, this`uses, this`recorded, this`batches
      modifies store`log, store`attempts, tracker
      ensures batches == old(batches) + [cmds] && uses == old(uses) + |cmds|
      ensures old(store.log) <= store.log && Extends(old(Kept()), Kept())
      ensures old(applied) <= applied && Reduces(lib, old(state), applied[|old(applied)|..], state)
      ensures pending == old(pending) + CommandsOf(lib, EventsOf(applied[|old(applied)|..]))
      ensures ok ==>
        EventsOf(applied[|old(applied)|..]) == events && (events == [] || AnswerAll(world, old(uses), cmds, events))
      ensures !failed ==>
        && ok && AnswerAll(world, old(uses), cmds, events)
        && EventsOf(applied[|old(applied)|..]) == Reducible(store.log[|old(store.log)|..])
      ensures !ok ==> state.context.None?
      ensures old(state).context.Some? ==>
        ok && state.context.Some? && (failed ==> SomeFail(store.faults.append, old(store.attempts), store.attempts))
      ensures old(Sourced()) ==> Sourced()
      ensures old(Accounted()) ==> Accounted()
    {
      var produced, stored := Dispatch(cmds);
      ok := Observe(produced);
      events, failed := produced, !stored || !ok;
    }

    /** What a turn runs. */
    ghost function Due(): seq<Command>
      reads this
    {
      DueIn(lib, config.model, pending, state)
    }

    /** Memory as it was when these commands were still queued. */
    ghost function Before(taken: seq<Command>): Memory
      reads this, store
    {
      Now().(queued := ToolsRun(batches) + Tools(taken))
    }

    /** Run commands taken from the queue, or a request: memory follows the log. */
    method RunTaken(cmds: seq<Command>, ghost taken: seq<Command>)
      returns (ok: bool, ghost events: seq<Event>, ghost failed: bool)
      requires pending == [] && Tools(cmds) == Tools(taken)
      modifies this`state, this`pending, this`applied, this`uses, this`recorded, this`batches
      modifies store`log, store`attempts, tracker
      ensures batches == old(batches) + [cmds] && uses == old(uses) + |cmds|
      ensures Extends(old(Kept()), Kept()) && old(applied) <= applied
      ensures pending == CommandsOf(lib, EventsOf(applied[|old(applied)|..]))
      ensures Ran(world, old(uses), cmds, EventsOf(applied[|old(applied)|..]), events, ok, failed)
      ensures old(state).context.Some? ==>
        ok && state.context.Some? && (failed ==> SomeFail(store.faults.append, old(store.attempts), store.attempts))
      ensures Followed(lib, old(Before(taken)), Now(), failed)
      ensures old(Sourced()) ==> Sourced()
      ensures old(Accounted()) ==> Accounted()
    {
      ghost var before := Before(taken);
      ok, events, failed := Step(cmds);
      ghost var history := applied[|old(applied)|..];
      ghost var more := CommandsOf(lib, EventsOf(history));
      assert pending == more by {
        assert [] + more == more;
      }
      OnlyToolsFollow(lib, EventsOf(history));
      RunCalls(old(batches), taken, cmds, more);
      FollowedBy(lib, before, Now(), history, store.log[|old(store.log)|..], failed);
    }

    /** The same between moments. */
    method RunHere(cmds: seq<Command>, ghost taken: seq<Command>)
      returns (ok: bool, ghost events: seq<Event>, ghost failed: bool)
      requires pending == [] && Tools(cmds) == Tools(taken)
      modifies this`state, this`pending, this`applied, this`uses, this`recorded, this`batches
      modifies store`log, store`attempts, tracker
      ensures Worked(
        lib, store.faults, world, old(Here()).(memory := old(Before(taken))), Here(), cmds, events, ok, failed)
      ensures old(applied) <= applied && pending == CommandsOf(lib, EventsOf(applied[|old(applied)|..]))
      ensures old(state).context.Some? ==> ok
    {
      ok, events, failed := RunTaken(cmds, taken);
    }

    /** The same as a step of the run. */
    method Work(cmds: seq<Command>, ghost taken: seq<Command>)
      returns (left: Option<Outcome>, ghost events: seq<Event>, ghost failed: bool)
      requires pending == [] && cmds != [] && Tools(cmds) == Tools(taken)
      modifies this`state, this`pending, this`applied, this`uses, this`recorded, this`batches
      modifies store`log, store`attempts, tracker
      ensures Turned(world, old(Here()).(memory := old(Before(taken))), Here(), left, cmds, events, failed, 0)
      ensures old(applied) <= applied && pending == CommandsOf(lib, EventsOf(applied[|old(applied)|..]))
      ensures left in {None, Some(ReducerFailed)} && (old(state).context.Some? ==> left.None?)
      ensures Goes(lib, store.faults, old(Here()).(memory := old(Before(taken))), Here(), failed)
    {
      var ok;
      ghost var before := Here().(memory := Before(taken));
      ok, events, failed := RunHere(cmds, taken);
      left := if ok then None else Some(ReducerFailed);
      WorkedTurns(lib, store.faults, world, before, Here(), left, cmds, events, failed);
    }

    /** With nothing queued: a request about the first active goal, or the end of the run. */
    method NextRequest() returns (left: Option<Outcome>, cmds: seq<Command>)
      requires pending == []
      modifies this`frontier, this`windows, this`marks, store`file, store`checkpoints, store`saves, tracker
      ensures left.None? ==>
        && cmds == Due() == old(Due()) != [] && Tools(cmds) == [] && Here() == old(Here())
        && frontier == old(frontier) && store.file == old(store.file) && tracker.changes == old(tracker.changes)
      ensures left.Some? ==>
        && Due() == [] && Ended(left.value, old(store.saves)) && Goes(lib, store.faults, old(Here()), Here(), false)
        && left.value == if state.context.None? && FirstActive(state.goals) < |state.goals| then NoContext else Finished
      ensures left.Some? ==>
        Turned(world, old(Here()), Here(), left, [], [], false, if left == Some(Finished) then 1 else 0)
    {
      left := None;
      var goal := SelectGoal();
      if goal.None? {
        var saved := Save();
        NothingTurned(world, old(Here()), Here(), Some(Finished), 1);
        return Some(Finished), [];
      }
      var decision := Decide(goal.value);
      if decision.None? {
        GoesNowhere(lib, store.faults, Here());
        NothingTurned(world, Here(), Here(), Some(NoContext), 0);
        return Some(NoContext), [];
      }
      cmds := decision.value;
    }

    /** Take what is due, or end the run. */
    method TakeDue() returns (left: Option<Outcome>, cmds: seq<Command>)
      modifies this`pending, this`frontier, this`windows, this`marks, store`file, store`checkpoints, store`saves, tracker
      ensures pending == []
      ensures left.None? ==>
        && cmds == old(Due()) != [] && Tools(cmds) == Tools(old(pending))
        && Here().(memory := Before(old(pending))) == old(Here())
        && frontier == old(frontier) && store.file == old(store.file) && tracker.changes == old(tracker.changes)
      ensures left.Some? ==>
        && old(Due()) == [] && Ended(left.value, old(store.saves)) && Goes(lib, store.faults, old(Here()), Here(), false)
        && left.value == if state.context.None? && FirstActive(state.goals) < |state.goals| then NoContext else Finished
      ensures left.Some? ==>
        Turned(world, old(Here()), Here(), left, [], [], false, if left == Some(Finished) then 1 else 0)
    {
      left := None;
      cmds := SwapPendingCommands();
      if |cmds| == 0 {
        assert Here() == old(Here());
        left, cmds := NextRequest();
      }
    }

    /** One turn of the loop: run what is due, reduce what it produced and queue what follows
        from that. Says how the run ends if it does. */
    method Turn()
      returns (left: Option<Outcome>, ghost batch: seq<Command>, ghost events: seq<Event>, ghost failed: bool)
      modifies this, store, tracker
      ensures left.Some? ==> left.value in {Finished, ReducerFailed, NoContext} && Ended(left.value, old(store.saves))
      ensures left in {Some(Finished), Some(NoContext)} ==>
        old(Due()) == [] && state == old(state) && (left == Some(NoContext) ==> state.context.None?)
      ensures batch == old(Due())
      ensures left.None? ==>
        batch != [] && old(applied) <= applied && pending == CommandsOf(lib, EventsOf(applied[|old(applied)|..]))
      ensures Turned(
        world, old(Here()), Here(), left, batch, events, failed, if left == Some(Finished) then 1 else 0)
      ensures old(state).context.Some? && left.Some? ==> left.value == Finished
      ensures Goes(lib, store.faults, old(Here()), Here(), failed)
    {
      var cmds;
      batch := Due();
      left, cmds := TakeDue();
      if left.Some? {
        events, failed := [], false;
      } else {
        left, events, failed := Work(cmds, old(pending));
      }
    }

    /** A checkpoint after a turn. */
    method SaveAfter(
        ghost start: Moment, ghost left: Option<Outcome>, ghost batch: seq<Command>, ghost events: seq<Event>,
        ghost failed: bool)
      requires Goes(lib, store.faults, start, Here(), failed)
      requires Turned(world, start, Here(), left, batch, events, failed, 0)
      modifies this`frontier, this`windows, this`marks, store`file, store`checkpoints, store`saves, tracker
      ensures Goes(lib, store.faults, start, Here(), failed)
      ensures Turned(world, start, Here(), left, batch, events, failed, 1)
      ensures Safe(old(store.saves)) && tracker.changes == []
    {
      ghost var mid := Here();
      var ok := Save();
      GoesOn(lib, store.faults, start, mid, Here(), failed, false);
      TurnedSaved(world, start, mid, Here(), left, batch, events, failed);
    }

    /** A turn, and every few steps a checkpoint. */
    method TurnAndSave(step: nat)
      returns (left: Option<Outcome>, ghost batch: seq<Command>, ghost events: seq<Event>, ghost failed: bool)
      requires config.checkpointInterval != 0
      modifies this, store, tracker
      ensures left.Some? ==> Ended(left.value, old(store.saves))
      ensures left.None? && step % config.checkpointInterval == 0 ==> Safe(old(store.saves)) && tracker.changes == []
      ensures left.Some? ==> left.value in {Finished, ReducerFailed, NoContext}
      ensures batch == old(Due()) && (left.None? ==> batch != [])
      ensures Turned(
        world, old(Here()), Here(), left, batch, events, failed, Taken(config.checkpointInterval, step, left))
      ensures old(state).context.Some? && left.Some? ==> left.value == Finished
      ensures Goes(lib, store.faults, old(Here()), Here(), failed)
    {
      ghost var start := Here();
      left, batch, events, failed := Turn();
      if left.None? && step % config.checkpointInterval == 0 {
        SaveAfter(start, left, batch, events, failed);
      }
    }

    /** One step of the loop: a cancellation check, a turn, and every few steps a checkpoint. */
    method LoopStep(step: nat, cancelAt: nat)
      returns (left: Option<Outcome>, ghost batch: seq<Command>, ghost events: seq<Event>, ghost failed: bool)
      requires config.checkpointInterval != 0
      modifies this, store, tracker
      ensures left.Some? ==> Ended(left.value, old(store.saves))
      ensures left.None? && step % config.checkpointInterval == 0 ==> Safe(old(store.saves)) && tracker.changes == []
      ensures left in {Some(ShutDown), Some(ShutDownUnsaved)} <==> step >= cancelAt
      ensures left.Some? ==> left.value in {Finished, ShutDown, ShutDownUnsaved, ReducerFailed, NoContext}
      ensures batch == (if step >= cancelAt then [] else old(Due())) && (left.None? ==> batch != [])
      ensures Turned(
        world, old(Here()), Here(), left, batch, events, failed, Taken(config.checkpointInterval, step, left))
      ensures old(state).context.Some? && left.Some? ==> left.value !in {ReducerFailed, NoContext}
      ensures Goes(lib, store.faults, old(Here()), Here(), failed)
    {
      if step >= cancelAt {
        batch, events, failed := [], [], false;
        var ok := Save();
        left := Some(if ok then ShutDown else ShutDownUnsaved);
        NothingTurned(world, old(Here()), Here(), left, 1);
      } else {
        left, batch, events, failed := TurnAndSave(step);
      }
    }

    /** A step of the loop after what others ingested before it. */
    method OneRound(step: nat, cancelAt: nat, heard: seq<Event>)
      returns (left: Option<Outcome>, ghost round: Round, ghost failed: bool)
      requires config.checkpointInterval != 0
      requires forall j :: 0 <= j < |heard| ==> !ForClients(heard[j])
      modifies this, store, tracker
      ensures left.Some? ==> Ended(left.value, old(store.saves))
      ensures left.None? && step % config.checkpointInterval == 0 ==> Safe(old(store.saves)) && tracker.changes == []
      ensures left in {Some(ShutDown), Some(ShutDownUnsaved)} <==> step >= cancelAt
      ensures left.Some? ==> left.value in {Finished, ShutDown, ShutDownUnsaved, ReducerFailed, NoContext}
      ensures round.heard == heard && (left.None? ==> round.batch != [])
      ensures Asked(lib, config.model, old(Here()), Here(), round)
      ensures round.taken == Taken(config.checkpointInterval, step, left)
      ensures RoundCame(world, old(Here()), Here(), round, failed)
      ensures old(state).context.Some? && left.Some? ==> left.value !in {ReducerFailed, NoContext}
      ensures Goes(lib, store.faults, old(Here()), Here(), failed)
    {
      ghost var start := Here();
      failed := Listen(heard);
      ghost var mid, queue, batch, events, lost := Here(), pending, [], [], false;
      left, batch, events, lost := LoopStep(step, cancelAt);
      round := Round(
        heard, |mid.memory.applied|, queue, batch, events, Taken(config.checkpointInterval, step, left));
      GoesOn(lib, store.faults, start, mid, Here(), failed, lost);
      FollowedReduces(lib, start.memory, mid.memory, failed);
      AskedNow(lib, config.model, start, mid, Here(), round);
      TurnedRound(world, start, mid, Here(), left, round, failed, lost);
      failed := failed || lost;
    }

    /** One more round, after those so far. */
    method Advance(
        step: nat, cancelAt: nat, inbox: seq<seq<Event>>, ghost start: Moment, ghost before: seq<Round>, ghost broken: bool)
      returns (left: Option<Outcome>, ghost rounds: seq<Round>, ghost failed: bool)
      requires config.checkpointInterval != 0 && |before| == step && Regular(config.checkpointInterval, before)
      requires forall i, j :: 0 <= i < |inbox| && 0 <= j < |inbox[i]| ==> !ForClients(inbox[i][j])
      requires
        && Goes(lib, store.faults, start, Here(), broken)
        && Rounded(lib, world, config.model, start, Here(), before, inbox, broken)
      modifies this, store, tracker
      ensures |rounds| == step + 1
      ensures if left.None? then Regular(config.checkpointInterval, rounds)
        else EndedRegularly(config.checkpointInterval, left.value, rounds)
      ensures
        && Goes(lib, store.faults, start, Here(), failed)
        && Rounded(lib, world, config.model, start, Here(), rounds, inbox, failed)
      ensures left.Some? ==> Ended(left.value, old(store.saves))
      ensures left in {Some(ShutDown), Some(ShutDownUnsaved)} <==> step >= cancelAt
      ensures left.Some? ==> left.value in {Finished, ShutDown, ShutDownUnsaved, ReducerFailed, NoContext}
      ensures old(state).context.Some? && left.Some? ==> left.value !in {ReducerFailed, NoContext}
    {
      ghost var mid, round, lost := Here(), Round([], 0, [], [], [], 0), false;
      left, round, lost := OneRound(step, cancelAt, HeardBefore(inbox, step));
      ghost var now := Here();
      RoundGoes(lib, store.faults, world, config.model, start, mid, now, before, round, inbox, broken, lost);
      rounds, failed := before + [round], broken || lost;
      RegularOn(config.checkpointInterval, before, round, left);
    }

    /** The loop of `Run`. */
    method Loop(inbox: seq<seq<Event>>, cancelAt: nat)
      returns (outcome: Outcome, ghost rounds: seq<Round>, ghost failed: bool)
      requires config.checkpointInterval != 0
      requires forall i, j :: 0 <= i < |inbox| && 0 <= j < |inbox[i]| ==> !ForClients(inbox[i][j])
      modifies this, store, tracker
      ensures Ended(outcome, old(store.saves))
      ensures if outcome in {ShutDown, ShutDownUnsaved} then |rounds| == cancelAt + 1 else |rounds| <= cancelAt
      ensures outcome == OutOfSteps ==> |rounds| == (if config.maxSteps > 0 then config.maxSteps else 0)
      ensures EndedRegularly(config.checkpointInterval, outcome, rounds)
      ensures
        && Goes(lib, store.faults, old(Here()), Here(), failed)
        && Rounded(lib, world, config.model, old(Here()), Here(), rounds, inbox, failed)
      ensures outcome != NotRecovered && (old(state).context.Some? ==> outcome !in {ReducerFailed, NoContext})
    {
      ghost var start := Here();
      rounds, failed := [], false;
      GoesNowhere(lib, store.faults, start);
      NotRounded(lib, world, config.model, start, inbox);
      var step := 0;
      while step < config.maxSteps
        invariant 0 <= step <= (if config.maxSteps > 0 then config.maxSteps else 0)
        invariant |rounds| == step <= cancelAt && Regular(config.checkpointInterval, rounds)
        invariant
          && Goes(lib, store.faults, start, Here(), failed)
          && Rounded(lib, world, config.model, start, Here(), rounds, inbox, failed)
      {
        var left;
        left, rounds, failed := Advance(step, cancelAt, inbox, start, rounds, failed);
        if left.Some? {
          return left.value, rounds, failed;
        }
        step := step + 1;
      }
      outcome := OutOfSteps;
    }

    /** What the laws say at the end of a run. */
    lemma Conclude(base: Moment, failed: bool)
      requires Goes(lib, store.faults, base, Here(), failed)
      ensures !failed && Tells(base.memory.log, base.kept.start, base.memory.applied) ==> Tells(store.log, start, applied)
      ensures base.accounted ==>
        (recorded == ChangesOf(store.checkpoints) + tracker.changes <==> NothingLost(windows))
    {
      if !failed && Tells(base.memory.log, base.kept.start, base.memory.applied) {
        FollowedStaysTold(lib, base.memory, Now(), start);
      }
      if base.accounted {
        ConservedIff(recorded, windows, store.checkpoints, tracker.changes);
      }
    }

    /** Recovery as a step of the run. */
    method RecoverBase() returns (ok: bool)
      modifies this`state, this`origin, this`applied, this`frontier, this`start, store`loads
      ensures ok <==> !store.faults.load(old(store.loads))
      ensures Based(old(Here()), Here(), old(store.file), old(frontier), ok)
      ensures !ok ==> Here() == old(Here())
    {
      ok := Recover();
    }

    /** Recover, then loop, until the context is cancelled before step `cancelAt`. `base` is the
        moment after recovery: memory as loaded, and the part of the history that it is the
        fold of. From there on `Goes` holds, and unless an append failed the history of the
        run is, round by round, what others ingested and then one answer for each command
        that was run. */
    method Run(inbox: seq<seq<Event>>, cancelAt: nat)
      returns (outcome: Outcome, ghost base: Moment, ghost rounds: seq<Round>, ghost failed: bool)
      requires config.checkpointInterval != 0
      requires forall i, j :: 0 <= i < |inbox| && 0 <= j < |inbox[i]| ==> !ForClients(inbox[i][j])
      modifies this, store, tracker
      ensures Based(old(Here()), base, old(store.file), old(frontier), outcome != NotRecovered)
      ensures Goes(lib, store.faults, base, Here(), failed)
      ensures Rounded(lib, world, config.model, base, Here(), rounds, inbox, failed)
      ensures outcome == NotRecovered <==> store.faults.load(old(store.loads))
      ensures outcome == NotRecovered ==> Here() == old(Here()) && rounds == [] && !failed
      ensures outcome == OutOfSteps ==>
        |rounds| == (if config.maxSteps > 0 then config.maxSteps else 0)
      ensures Ended(outcome, old(store.saves))
      ensures if outcome in {ShutDown, ShutDownUnsaved} then |rounds| == cancelAt + 1 else |rounds| <= cancelAt
      ensures EndedRegularly(config.checkpointInterval, outcome, rounds)
      ensures base.memory.state.context.Some? ==> outcome !in {ReducerFailed, NoContext}
      ensures !failed && Tells(base.memory.log, base.kept.start, base.memory.applied) ==> Tells(store.log, start, applied)
      ensures old(Accounted()) ==>
        (recorded == ChangesOf(store.checkpoints) + tracker.changes <==> NothingLost(windows))
    {
      var recovered := RecoverBase();
      base, rounds, failed := Here(), [], false;
      if !recovered {
        GoesNowhere(lib, store.faults, base);
        NotRounded(lib, world, config.model, base, inbox);
        outcome := NotRecovered;
      } else {
        outcome, rounds, failed := Loop(inbox, cancelAt);
      }
      Conclude(base, failed);
    }
  }

  /** How many checkpoints a step takes: one if the run finishes there or is shut down, or goes
      on and the interval divides the step. */
  function Taken(interval: int, step: nat, left: Option<Outcome>): nat
    requires interval != 0
  {
    match left
    case None => if step % interval == 0 then 1 else 0
    case Some(outcome) => if outcome in {Finished, ShutDown, ShutDownUnsaved} then 1 else 0
  }

  /** Each of these rounds ran something, and then took a checkpoint if the interval divides its
      number. */
  ghost predicate Regular(interval: int, rounds: seq<Round>)
    requires interval != 0
  {
    forall i :: 0 <= i < |rounds| ==> rounds[i].batch != [] && rounds[i].taken == Taken(interval, i, None)
  }

  /** All rounds were regular or, unless the run is out of steps, all but the one it ended in;
      that took a checkpoint if the run finished or was shut down. */
  ghost predicate EndedRegularly(interval: int, outcome: Outcome, rounds: seq<Round>)
    requires interval != 0
  {
    if outcome in {OutOfSteps, NotRecovered} then Regular(interval, rounds)
    else
      && rounds != [] && Regular(interval, rounds[..|rounds| - 1])
      && rounds[|rounds| - 1].taken == Taken(interval, |rounds| - 1, Some(outcome))
  }

  lemma RegularOn(interval: int, rounds: seq<Round>, last: Round, left: Option<Outcome>)
    requires interval != 0 && Regular(interval, rounds) && last.taken == Taken(interval, |rounds|, left)
    ensures left.None? && last.batch != [] ==> Regular(interval, rounds + [last])
    ensures left.Some? && left.value !in {OutOfSteps, NotRecovered} ==>
      EndedRegularly(interval, left.value, rounds + [last])
  {
    assert (rounds + [last])[..|rounds|] == rounds;
  }

  /** What a round runs: the queued commands or, when there are none, one request about the
      first active goal. */
  ghost function DueIn(lib: Library, model: string, queue: seq<Command>, s: State): seq<Command> {
    var i := FirstActive(s.goals);
    if queue != [] then queue
    else if i < |s.goals| && s.context.Some? then [CallLLM(model, Request(lib, s, s.goals[i]))]
    else []
  }

  /** Commands in the queue are run as they are. Else, if a goal is open, the model is asked
      about the first that is: a system message with the goal, then all that was said. If none
      is, or there is no conversation, there is nothing to run. */
  lemma DueReads(lib: Library, model: string, queue: seq<Command>, s: State, i: nat)
    requires i <= |s.goals| && (i < |s.goals| ==> Reducing.Open(s.goals[i]))
    requires forall j :: 0 <= j < i ==> !Reducing.Open(s.goals[j])
    ensures var due := DueIn(lib, model, queue, s);
      && (queue != [] ==> due == queue)
      && (queue == [] && (i == |s.goals| || s.context.None?) ==> due == [])
      && (queue == [] && i < |s.goals| && s.context.Some? ==>
            && |due| == 1 && due[0].CallLLM? && due[0].model == model
            && Reducing.ReadsAsRequest(lib, s, s.goals[i], due[0].request))
  {
    Reducing.FirstOpen(s.goals, i);
    if i < |s.goals| {
      Reducing.RequestReads(lib, s, s.goals[i]);
    }
  }

  /** This round ran what was due in the state that this history comes to. */
  ghost predicate RanWhatWasDue(lib: Library, model: string, origin: State, history: seq<(Event, string)>, r: Round) {
    origin.context.Some? && r.batch != [] ==> r.batch == DueIn(lib, model, r.queue, Replay(lib, origin, history))
  }

  lemma RanSince(
      lib: Library, model: string, origin: State, h: seq<(Event, string)>, mid: State, h': seq<(Event, string)>, r: Round)
    requires Reduces(lib, origin, h, mid) && RanWhatWasDue(lib, model, mid, h', r)
    ensures RanWhatWasDue(lib, model, origin, h + h', r)
  {
    if origin.context.Some? {
      ReplayConcat(lib, origin, h, h');
    }
  }

  lemma SameSlice<T>(a: seq<T>, b: seq<T>, i: nat, j: nat)
    requires a <= b && i <= j <= |a|
    ensures b[i..j] == a[i..j]
  {
  }

  lemma SlicesJoin<T>(a: seq<T>, b: seq<T>, i: nat, j: nat)
    requires a <= b && i <= |a| <= j <= |b|
    ensures b[i..j] == a[i..] + b[|a|..j]
  {
  }

  /** This round began between two moments, when the history had come so far, and ran what was
      due then. */
  ghost predicate Asked(lib: Library, model: string, a: Moment, b: Moment, r: Round) {
    && |a.memory.applied| <= r.at <= |b.memory.applied|
    && RanWhatWasDue(lib, model, a.memory.state, b.memory.applied[|a.memory.applied|..r.at], r)
  }

  lemma RanNow(lib: Library, model: string, origin: State, history: seq<(Event, string)>, s: State, r: Round)
    requires Reduces(lib, origin, history, s) && (r.batch != [] ==> r.batch == DueIn(lib, model, r.queue, s))
    ensures RanWhatWasDue(lib, model, origin, history, r)
  {
  }

  lemma SliceOfPrefix<T>(a: seq<T>, b: seq<T>, i: nat)
    requires a <= b && i <= |a|
    ensures b[i..|a|] == a[i..]
  {
  }

  lemma FollowedReduces(lib: Library, a: Memory, b: Memory, failed: bool)
    requires Followed(lib, a, b, failed)
    ensures a.applied <= b.applied && Reduces(lib, a.state, b.applied[|a.applied|..], b.state)
  {
  }

  lemma AskedNow(lib: Library, model: string, a: Moment, b: Moment, c: Moment, r: Round)
    requires a.memory.applied <= b.memory.applied <= c.memory.applied && r.at == |b.memory.applied|
    requires Reduces(lib, a.memory.state, b.memory.applied[|a.memory.applied|..], b.memory.state)
    requires r.batch != [] ==> r.batch == DueIn(lib, model, r.queue, b.memory.state)
    ensures Asked(lib, model, a, c, r)
    ensures c.memory.applied[|a.memory.applied|..r.at] == b.memory.applied[|a.memory.applied|..]
  {
    SliceOfPrefix(b.memory.applied, c.memory.applied, |a.memory.applied|);
    RanNow(lib, model, a.memory.state, b.memory.applied[|a.memory.applied|..], b.memory.state, r);
  }

  lemma AskedLater(lib: Library, model: string, a: Moment, b: Moment, c: Moment, r: Round)
    requires Asked(lib, model, a, b, r) && b.memory.applied <= c.memory.applied
    ensures Asked(lib, model, a, c, r)
  {
    SameSlice(b.memory.applied, c.memory.applied, |a.memory.applied|, r.at);
  }

  lemma AskedFrom(lib: Library, model: string, a: Moment, b: Moment, c: Moment, r: Round)
    requires a.memory.applied <= b.memory.applied <= c.memory.applied && Asked(lib, model, b, c, r)
    requires Reduces(lib, a.memory.state, b.memory.applied[|a.memory.applied|..], b.memory.state)
    ensures Asked(lib, model, a, c, r)
  {
    var h, h' := b.memory.applied[|a.memory.applied|..], c.memory.applied[|b.memory.applied|..r.at];
    SlicesJoin(b.memory.applied, c.memory.applied, |a.memory.applied|, r.at);
    RanSince(lib, model, a.memory.state, h, b.memory.state, h', r);
  }

  /** This round got what the outside had for its commands, after those of earlier rounds. */
  ghost predicate RoundAnswered(world: World, uses: nat, earlier: seq<Round>, r: Round) {
    AnswerAll(world, uses + CommandsRun(earlier), r.batch, r.events)
  }

  /** This round began when what came of earlier rounds was reduced, and what it heard. */
  ghost predicate RoundDated(since: nat, applied: seq<(Event, string)>, earlier: seq<Round>, r: Round) {
    since <= r.at <= |applied| && EventsOf(applied[since..r.at]) == HistoryOf(earlier) + r.heard
  }

  lemma OneMoreRound(rounds: seq<Round>, last: Round, i: nat)
    requires i <= |rounds|
    ensures (rounds + [last])[..i] == rounds[..i] && (rounds + [last])[i] == if i < |rounds| then rounds[i] else last
    ensures i == |rounds| ==> rounds[..i] == rounds
  {
  }

  lemma RoundDatedLater(
      since: nat, before: seq<(Event, string)>, applied: seq<(Event, string)>, earlier: seq<Round>, r: Round)
    requires before <= applied && RoundDated(since, before, earlier, r)
    ensures RoundDated(since, applied, earlier, r)
  {
    SameSlice(before, applied, since, r.at);
  }

  lemma RoundDatedNow(
      since: nat, before: seq<(Event, string)>, applied: seq<(Event, string)>, earlier: seq<Round>, r: Round)
    requires since <= |before| && before <= applied && |before| <= r.at <= |applied|
    requires EventsOf(before[since..]) == HistoryOf(earlier) && EventsOf(applied[|before|..r.at]) == r.heard
    ensures RoundDated(since, applied, earlier, r)
  {
    SlicesJoin(before, applied, since, r.at);
    EventsConcat(before[since..], applied[|before|..r.at]);
  }

  lemma HistoryTold(
      a: seq<(Event, string)>, b: seq<(Event, string)>, c: seq<(Event, string)>, rounds: seq<Round>, last: Round)
    requires a <= b <= c && EventsOf(b[|a|..]) == HistoryOf(rounds) && EventsOf(c[|b|..]) == last.heard + last.events
    ensures a <= c && EventsOf(c[|a|..]) == HistoryOf(rounds + [last])
  {
    RoundOn(rounds, last);
    HistoryOn(a, b, c);
  }

  ghost predicate AllAnswered(world: World, uses: nat, rounds: seq<Round>) {
    forall i :: 0 <= i < |rounds| ==> RoundAnswered(world, uses, rounds[..i], rounds[i])
  }

  lemma AllAnsweredOn(world: World, uses: nat, rounds: seq<Round>, last: Round)
    requires AllAnswered(world, uses, rounds) && RoundAnswered(world, uses, rounds, last)
    ensures AllAnswered(world, uses, rounds + [last])
  {
    var all := rounds + [last];
    forall i | 0 <= i < |all| ensures RoundAnswered(world, uses, all[..i], all[i]) {
      OneMoreRound(rounds, last, i);
    }
  }

  ghost predicate AllDated(since: nat, applied: seq<(Event, string)>, rounds: seq<Round>) {
    forall i :: 0 <= i < |rounds| ==> RoundDated(since, applied, rounds[..i], rounds[i])
  }

  lemma AllDatedOn(
      since: nat, before: seq<(Event, string)>, applied: seq<(Event, string)>, rounds: seq<Round>, last: Round)
    requires AllDated(since, before, rounds) && since <= |before| && before <= applied
    requires |before| <= last.at <= |applied|
    requires EventsOf(before[since..]) == HistoryOf(rounds) && EventsOf(applied[|before|..last.at]) == last.heard
    ensures AllDated(since, applied, rounds + [last])
  {
    RoundDatedNow(since, before, applied, rounds, last);
    var all := rounds + [last];
    forall i | 0 <= i < |all| ensures RoundDated(since, applied, all[..i], all[i]) {
      OneMoreRound(rounds, last, i);
      if i < |rounds| {
        RoundDatedLater(since, before, applied, rounds[..i], rounds[i]);
      }
    }
  }

  /** Each command of these rounds got one answer, that of the model or its tool, and the
      history went on, round by round, by what was heard and the answers. */
  ghost predicate Went(world: World, a: Moment, b: Moment, rounds: seq<Round>) {
    && a.memory.applied <= b.memory.applied
    && EventsOf(b.memory.applied[|a.memory.applied|..]) == HistoryOf(rounds)
    && AllAnswered(world, a.kept.uses, rounds) && AllDated(|a.memory.applied|, b.memory.applied, rounds)
  }

  /** The same of one round. */
  ghost predicate WentOnce(world: World, a: Moment, b: Moment, r: Round) {
    && AnswerAll(world, a.kept.uses, r.batch, r.events)
    && a.memory.applied <= b.memory.applied && |a.memory.applied| <= r.at <= |b.memory.applied|
    && EventsOf(b.memory.applied[|a.memory.applied|..r.at]) == r.heard
    && EventsOf(b.memory.applied[|a.memory.applied|..]) == r.heard + r.events
  }

  /** What became of a turn: which commands it ran and what came of them, and how many
      checkpoints were taken. */
  ghost predicate Turned(
      world: World, a: Moment, b: Moment, left: Option<Outcome>, batch: seq<Command>, events: seq<Event>, failed: bool,
      taken: nat)
  {
    && b.kept.batches == a.kept.batches + (if batch == [] then [] else [batch])
    && b.kept.uses == a.kept.uses + |batch| && |b.kept.windows| == |a.kept.windows| + taken
    && a.memory.applied <= b.memory.applied
    && Ran(world, a.kept.uses, batch, EventsOf(b.memory.applied[|a.memory.applied|..]), events,
           left != Some(ReducerFailed), failed)
  }

  lemma NothingTurned(world: World, a: Moment, b: Moment, left: Option<Outcome>, taken: nat)
    requires b.memory.applied == a.memory.applied && b.kept.batches == a.kept.batches && b.kept.uses == a.kept.uses
    requires |b.kept.windows| == |a.kept.windows| + taken && left != Some(ReducerFailed)
    ensures Turned(world, a, b, left, [], [], false, taken)
  {
    assert b.memory.applied[|a.memory.applied|..] == [];
  }

  /** What running commands does between two moments: nothing but log, reduce and record. */
  ghost predicate Worked(
      lib: Library, faults: Faults, world: World, a: Moment, b: Moment, cmds: seq<Command>, events: seq<Event>,
      ok: bool, failed: bool)
  {
    && Followed(lib, a.memory, b.memory, failed) && Extends(a.kept, b.kept)
    && b.kept.batches == a.kept.batches + [cmds] && b.kept.uses == a.kept.uses + |cmds|
    && b.kept.windows == a.kept.windows && b.kept.checkpoints == a.kept.checkpoints && b.kept.marks == a.kept.marks
    && (a.memory.state.context.Some? ==>
          b.memory.state.context.Some? && (failed ==> SomeFail(faults.append, a.kept.attempts, b.kept.attempts)))
    && (a.sourced ==> b.sourced && a.durable <= b.durable) && (a.accounted ==> b.accounted)
    && Ran(world, a.kept.uses, cmds, EventsOf(b.memory.applied[|a.memory.applied|..]), events, ok, failed)
  }

  lemma WorkedTurns(
      lib: Library, faults: Faults, world: World, a: Moment, b: Moment, left: Option<Outcome>, cmds: seq<Command>,
      events: seq<Event>, failed: bool)
    requires Worked(lib, faults, world, a, b, cmds, events, left.None?, failed)
    requires cmds != [] && left in {None, Some(ReducerFailed)}
    ensures Turned(world, a, b, left, cmds, events, failed, 0) && Goes(lib, faults, a, b, failed)
  {
    StepGoes(lib, faults, a, b, failed);
  }

  lemma TurnedSaved(
      world: World, a: Moment, b: Moment, c: Moment, left: Option<Outcome>, batch: seq<Command>, events: seq<Event>,
      failed: bool)
    requires Turned(world, a, b, left, batch, events, failed, 0)
    requires c.memory == b.memory && c.kept.batches == b.kept.batches && c.kept.uses == b.kept.uses
    requires |c.kept.windows| == |b.kept.windows| + 1
    ensures Turned(world, a, c, left, batch, events, failed, 1)
  {
  }

  /** What became of a round. */
  ghost predicate RoundCame(world: World, a: Moment, b: Moment, r: Round, failed: bool) {
    Counts(a, b, r) && (!failed ==> WentOnce(world, a, b, r))
  }

  ghost predicate Counts(a: Moment, b: Moment, r: Round) {
    && b.kept.batches == a.kept.batches + (if r.batch == [] then [] else [r.batch])
    && b.kept.uses == a.kept.uses + |r.batch| && |b.kept.windows| == |a.kept.windows| + r.taken
  }

  /** A turn after what others ingested is a round. */
  lemma TurnedRound(
      world: World, a: Moment, b: Moment, c: Moment, left: Option<Outcome>, r: Round, failed: bool, failed': bool)
    requires Turned(world, b, c, left, r.batch, r.events, failed', r.taken)
    requires b.kept.batches == a.kept.batches && b.kept.uses == a.kept.uses && b.kept.windows == a.kept.windows
    requires a.memory.applied <= b.memory.applied && r.at == |b.memory.applied|
    requires !failed ==> EventsOf(b.memory.applied[|a.memory.applied|..]) == r.heard
    ensures RoundCame(world, a, c, r, failed || failed')
  {
    HistoryOn(a.memory.applied, b.memory.applied, c.memory.applied);
    SliceOfPrefix(b.memory.applied, c.memory.applied, |a.memory.applied|);
  }

  lemma WentOn(world: World, a: Moment, b: Moment, c: Moment, rounds: seq<Round>, last: Round)
    requires Went(world, a, b, rounds) && WentOnce(world, b, c, last)
    requires b.kept.uses == a.kept.uses + CommandsRun(rounds)
    ensures Went(world, a, c, rounds + [last])
  {
    HistoryTold(a.memory.applied, b.memory.applied, c.memory.applied, rounds, last);
    AllAnsweredOn(world, a.kept.uses, rounds, last);
    AllDatedOn(|a.memory.applied|, b.memory.applied, c.memory.applied, rounds, last);
  }

  /** Each of these rounds heard what came in before it and ran what was due then. */
  ghost predicate AllAsked(
      lib: Library, model: string, a: Moment, b: Moment, rounds: seq<Round>, inbox: seq<seq<Event>>)
  {
    forall i :: 0 <= i < |rounds| ==> rounds[i].heard == HeardBefore(inbox, i) && Asked(lib, model, a, b, rounds[i])
  }

  lemma AllAskedOn(
      lib: Library, model: string, a: Moment, b: Moment, c: Moment, rounds: seq<Round>, last: Round,
      inbox: seq<seq<Event>>)
    requires AllAsked(lib, model, a, b, rounds, inbox) && b.memory.applied <= c.memory.applied
    requires last.heard == HeardBefore(inbox, |rounds|) && Asked(lib, model, a, c, last)
    ensures AllAsked(lib, model, a, c, rounds + [last], inbox)
  {
    forall i | 0 <= i < |rounds| ensures Asked(lib, model, a, c, rounds[i]) {
      AskedLater(lib, model, a, b, c, rounds[i]);
    }
  }

  /** The batches, the commands and the checkpoints of these rounds are what was added. */
  ghost predicate Counted(a: Moment, b: Moment, rounds: seq<Round>) {
    && b.kept.batches == a.kept.batches + BatchesOf(rounds) && b.kept.uses == a.kept.uses + CommandsRun(rounds)
    && |b.kept.windows| == |a.kept.windows| + CheckpointsTaken(rounds)
  }

  lemma CountedOn(a: Moment, b: Moment, c: Moment, rounds: seq<Round>, last: Round)
    requires Counted(a, b, rounds) && Counts(b, c, last)
    ensures Counted(a, c, rounds + [last])
  {
    RoundOn(rounds, last);
  }

  /** What happened between two moments is these rounds: each heard what came in before it and
      ran what was due then; and unless something failed the history tells what it heard and
      what answers it got. */
  ghost predicate Rounded(
      lib: Library, world: World, model: string, a: Moment, b: Moment, rounds: seq<Round>, inbox: seq<seq<Event>>,
      failed: bool)
  {
    && Counted(a, b, rounds)
    && AllAsked(lib, model, a, b, rounds, inbox)
    && (!failed ==> Went(world, a, b, rounds))
  }

  /** One round on, from some rounds to one more. */
  lemma RoundedOn(
      lib: Library, world: World, model: string,
      a: Moment, b: Moment, c: Moment, rounds: seq<Round>, last: Round, inbox: seq<seq<Event>>,
      failed: bool, failed': bool)
    requires Rounded(lib, world, model, a, b, rounds, inbox, failed) && last.heard == HeardBefore(inbox, |rounds|)
    requires Followed(lib, a.memory, b.memory, failed) && Followed(lib, b.memory, c.memory, failed')
    requires RoundCame(world, b, c, last, failed') && Asked(lib, model, b, c, last)
    ensures Rounded(lib, world, model, a, c, rounds + [last], inbox, failed || failed')
  {
    CountedOn(a, b, c, rounds, last);
    FollowedReduces(lib, a.memory, b.memory, failed);
    FollowedReduces(lib, b.memory, c.memory, failed');
    AskedFrom(lib, model, a, b, c, last);
    AllAskedOn(lib, model, a, b, c, rounds, last, inbox);
    if !failed && !failed' {
      WentOn(world, a, b, c, rounds, last);
    }
  }

  /** The same with all that holds between moments of a run. */
  lemma RoundGoes(
      lib: Library, faults: Faults, world: World, model: string,
      a: Moment, b: Moment, c: Moment, rounds: seq<Round>, last: Round, inbox: seq<seq<Event>>,
      failed: bool, failed': bool)
    requires Goes(lib, faults, a, b, failed) && Goes(lib, faults, b, c, failed')
    requires Rounded(lib, world, model, a, b, rounds, inbox, failed) && last.heard == HeardBefore(inbox, |rounds|)
    requires RoundCame(world, b, c, last, failed') && Asked(lib, model, b, c, last)
    ensures Goes(lib, faults, a, c, failed || failed')
    ensures Rounded(lib, world, model, a, c, rounds + [last], inbox, failed || failed')
  {
    GoesOn(lib, faults, a, b, c, failed, failed');
    RoundedOn(lib, world, model, a, b, c, rounds, last, inbox, failed, failed');
  }

  /** This is one request to the model, about the first open goal of this state, and tells it all
      that was said. */
  ghost predicate AsksAbout(lib: Library, model: string, s: State, batch: seq<Command>) {
    && |batch| == 1 && batch[0].CallLLM? && batch[0].model == model
    && exists k: nat ::
      && k < |s.goals| && Reducing.Open(s.goals[k]) && (forall j :: 0 <= j < k ==> !Reducing.Open(s.goals[j]))
      && Reducing.ReadsAsRequest(lib, s, s.goals[k], batch[0].request)
  }

  lemma IdleRoundAsks(lib: Library, model: string, s: State)
    requires DueIn(lib, model, [], s) != []
    ensures AsksAbout(lib, model, s, DueIn(lib, model, [], s))
  {
    DueReads(lib, model, [], s, FirstActive(s.goals));
  }

  lemma IdleRoundAsked(lib: Library, model: string, origin: State, history: seq<(Event, string)>, r: Round)
    requires RanWhatWasDue(lib, model, origin, history, r) && origin.context.Some? && r.queue == [] && r.batch != []
    ensures AsksAbout(lib, model, Replay(lib, origin, history), r.batch)
  {
    IdleRoundAsks(lib, model, Replay(lib, origin, history));
  }

  /** A round of a run without failures that finds nothing queued asks the model once, and tells
      it all that was said so far: what the history makes of the start of the run, which is
      what earlier rounds heard and were answered, and what this round heard. */
  lemma RequestTellsTheHistory(
      lib: Library, world: World, model: string, a: Moment, b: Moment, rounds: seq<Round>, inbox: seq<seq<Event>>,
      i: nat)
    requires Rounded(lib, world, model, a, b, rounds, inbox, false) && a.memory.state.context.Some?
    requires i < |rounds| && rounds[i].queue == [] && rounds[i].batch != []
    ensures |a.memory.applied| <= rounds[i].at <= |b.memory.applied|
    ensures var history := b.memory.applied[|a.memory.applied|..rounds[i].at];
      && EventsOf(history) == HistoryOf(rounds[..i]) + rounds[i].heard
      && AsksAbout(lib, model, Replay(lib, a.memory.state, history), rounds[i].batch)
  {
    RoundIn(lib, world, model, a, b, rounds, inbox, i);
    IdleRoundAsked(lib, model, a.memory.state, b.memory.applied[|a.memory.applied|..rounds[i].at], rounds[i]);
  }

  lemma RoundIn(
      lib: Library, world: World, model: string, a: Moment, b: Moment, rounds: seq<Round>, inbox: seq<seq<Event>>,
      i: nat)
    requires Rounded(lib, world, model, a, b, rounds, inbox, false) && i < |rounds|
    ensures Asked(lib, model, a, b, rounds[i])
    ensures RoundDated(|a.memory.applied|, b.memory.applied, rounds[..i], rounds[i])
  {
  }

  lemma NotRounded(lib: Library, world: World, model: string, a: Moment, inbox: seq<seq<Event>>)
    ensures Rounded(lib, world, model, a, a, [], inbox, false)
  {
    assert a.memory.applied[|a.memory.applied|..] == [];
  }

  function HeardBefore(inbox: seq<seq<Event>>, i: nat): seq<Event> {
    if i < |inbox| then inbox[i] else []
  }

  /** The moment after recovery. Nothing on record has changed. If the state file was loaded,
      memory is what it held; when memory was the fold of its history before, it now is the
      fold of the part of it that had been saved, otherwise a new history starts from there. */
  ghost predicate Based(before: Moment, base: Moment, file: Option<State>, frontier: nat, recovered: bool) {
    var loaded := recovered && file.Some?;
    && base.memory.log == before.memory.log && base.memory.queued == before.memory.queued
    && base.accounted == before.accounted
    && base.kept == before.kept.(origin := base.kept.origin, start := base.kept.start)
    && (!loaded ==> base == before)
    && (loaded ==> base.memory.state == file.value)
    && (before.sourced ==> base.sourced && base.kept == before.kept && base.durable == before.durable)
    && (before.sourced && loaded ==>
          frontier <= |before.memory.applied| && base.memory.applied == before.memory.applied[..frontier])
    && (!before.sourced && loaded ==>
          && base.memory.applied == [] && base.kept.origin == file.value && Tells(base.memory.log, base.kept.start, [])
          && (file.value.context.Some? ==> base.sourced))
  }
}
