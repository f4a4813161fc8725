/** The runtime as two threads over shared memory and disk: the `Run` loop and the calls
    of `Ingest`, cut at every lock boundary, with store failures and crashes at any point.

    `Ingest` holds the runtime lock from its log append to its state save, so the `Run`
    thread cannot touch memory meanwhile; it can still reach the store between those
    steps. A state save is the four steps of `atomicWrite`, under the store lock. */
module Interleaving {
  import opened Wrappers
  import opened States

  // ---------------------------------------------------------------------------
  // The system
  // ---------------------------------------------------------------------------

  /** A file on disk: `Cached` content survives the process but not yet a power loss. */
  datatype Content = Absent | Torn | Cached(cached: State) | Durable(durable: State)

  /** What the renames so far have put on disk. */
  datatype Disk = Disk(file: Content, checkpoints: seq<State>)

  /** How far a state save has come. */
  datatype Phase = Begin | Partial | Filled | Flushed

  datatype RunPC =
    | Stopped(clean: bool)                          // clean: the last checkpoint's state save went through
    | Recovering(loaded: Option<State>, clean: bool)  // state.json read, memory not yet set
    | Top                                           // head of the loop
    | Deciding                                      // no pending commands; about to select a goal
    | Asking(goal: Goal)                            // a goal was selected; about to read messages
    | Executing(todo: seq<Command>, produced: seq<Event>)
    | Applying(events: seq<Event>)
    | Reduced(base: State, event: Event, rest: seq<Event>)     // reducer input read, result not yet written
    | Queueing(cmds: seq<Command>, after: seq<Event>)          // state written, commands not yet queued
    | Checkpointing(last: bool)
    | Saving(copy: State, phase: Phase, last: bool)
    | Recording(copy: State, last: bool)

  datatype IngestPC = Quiet | Logged(message: Event) | Ingested(phase: Phase)

  datatype System = System(
    live: bool,                          // false from a crash until the next recovery
    mem: State, pending: seq<Command>,   // Runtime.state and Runtime.pendingCommands
    run: RunPC, ingest: IngestPC,
    log: seq<Event>, file: Content, temp: Content, checkpoints: seq<State>,
    past: seq<Disk>,                     // what was on disk before each rename, oldest first
    requests: seq<seq<Message>>,         // every conversation sent to the model in this run
    paired: bool,                        // the run started from a state whose open calls are queued
    lost: seq<string>)                   // calls of this run whose result never reached the reducer

  /** A crash may come with a power loss. Directories are never synced, so that may take back
      the latest renames of the state file and of checkpoints. */
  datatype Loss = Nothing | Power(renames: nat)

  datatype Action =
    | Load | Recover
    | Swap | Select | Ask(model: string)
    | Execute(outcome: Event) | Emit(token: Event) | Persist(stored: nat, ok: bool)
    | Read | Write(newID: string) | Queue | EndApply(save: bool)
    | Shutdown | GiveUp
    | Copy | SaveStep | SaveFail | Record(ok: bool)
    | IngestLog(message: Event) | IngestApply(id: string) | IngestSaveStep | IngestSaveFail
    | Crash(now: Time, loss: Loss)

  function Initial(now: Time): System {
    System(true, NewState(now), [], Stopped(true), Quiet, [], Absent, Absent, [], [], [], true, [])
  }

  /** The runtime lock is free for the `Run` thread. */
  predicate Unlocked(s: System) {
    s.ingest == Quiet
  }

  /** The store lock: held by whichever thread is in the middle of a state save. */
  predicate RunSaving(s: System) {
    s.run.Saving? && s.run.phase != Begin
  }

  predicate IngestSaving(s: System) {
    s.ingest.Ingested? && s.ingest.phase != Begin
  }

  /** `Ingest` is only ever called with a user message or a system prompt. */
  predicate FromUser(e: Event) {
    e.payload.UserMessage? || e.payload.SystemPrompt?
  }

  /** What running a command can produce: its own result, or an error event. */
  predicate Answers(cmd: Command, outcome: Event) {
    outcome.payload.ErrorReport? ||
    (if cmd.CallLLM? then outcome.payload.LLMResponse?
     else outcome.payload.ToolResult? && outcome.payload.callID == cmd.callID)
  }

  predicate Enabled(s: System, a: Action) {
    match a
    case Load => s.run.Stopped? && !IngestSaving(s) && s.file != Torn
    case Recover => s.run.Recovering? && Unlocked(s)
    case Swap => s.run == Top && Unlocked(s)
    case Select => s.run == Deciding && Unlocked(s)
    case Ask(_) => s.run.Asking? && Unlocked(s)
    case Execute(outcome) => s.run.Executing? && s.run.todo != [] && Answers(s.run.todo[0], outcome)
    case Emit(token) =>
      s.run.Executing? && s.run.todo != [] && !IngestSaving(s) && (token.payload.LLMToken? || token.payload.PermissionRequest?)
    case Persist(stored, ok) =>
      && s.run.Executing? && s.run.todo == [] && !IngestSaving(s)
      && stored <= |s.run.produced| && (ok ==> stored == |s.run.produced|)
    case Read => s.run.Applying? && s.run.events != [] && Unlocked(s)
    case Write(_) => s.run.Reduced? && Unlocked(s) && !Panics(s.run.base, s.run.event)
    case Queue => s.run.Queueing? && Unlocked(s)
    case EndApply(_) => s.run.Applying? && s.run.events == []
    case Shutdown => s.run == Top
    case GiveUp => s.run == Top
    case Copy => s.run.Checkpointing? && Unlocked(s)
    case SaveStep => s.run.Saving? && !IngestSaving(s)
    case SaveFail => s.run.Saving? && !IngestSaving(s)
    case Record(_) => s.run.Recording? && !IngestSaving(s)
    case IngestLog(e) => s.live && s.ingest == Quiet && FromUser(e) && !RunSaving(s)
    case IngestApply(_) => s.ingest.Logged? && !Panics(s.mem, s.ingest.message)
    case IngestSaveStep => s.ingest.Ingested? && !RunSaving(s)
    case IngestSaveFail => s.ingest.Ingested? && !RunSaving(s)
    case Crash(_, loss) => loss.Power? ==> loss.renames <= |s.past|
  }

  /** One step of `atomicWrite`: create the temporary file, fill it, sync it, rename it. */
  function NextPhase(phase: Phase): Phase {
    match phase
    case Begin => Partial
    case Partial => Filled
    case _ => Flushed
  }

  function OnDisk(s: System): Disk {
    Disk(s.file, s.checkpoints)
  }

  function WriteTemp(s: System, content: State, phase: Phase): System {
    match phase
    case Begin => s.(temp := Torn)
    case Partial => s.(temp := Cached(content))
    case Filled => s.(temp := match s.temp case Cached(c) => Durable(c) case t => t)
    case Flushed => s.(file := s.temp, temp := Absent, past := s.past + [OnDisk(s)])
  }

  function AfterCheckpoint(last: bool, saved: bool): RunPC {
    if last then Stopped(saved) else Top
  }

  /** The commands in the queue are exactly the calls not yet answered, in order. */
  predicate OpenCallsQueued(state: State, pending: seq<Command>) {
    && AnswersFollowCalls(Messages(state))
    && Called(Messages(state)) == Answered(Messages(state)) + CommandIDs(pending)
  }

  function Do(lib: Library, s: System, a: Action): System
    requires Enabled(s, a)
  {
    match a
    case Load =>
      var loaded := match s.file case Durable(f) => Some(f) case Cached(f) => Some(f) case _ => None;
      s.(run := Recovering(loaded, s.run.clean))
    case Recover =>
      var mem := if s.run.loaded.Some? then s.run.loaded.value else s.mem;
      s.(mem := mem, live := true, run := Top, requests := [], lost := [], paired := OpenCallsQueued(mem, s.pending))
    case Swap =>
      if s.pending != [] then s.(pending := [], run := Executing(s.pending, [])) else s.(run := Deciding)
    case Select =>
      var i := FirstActive(s.mem.goals);
      if i < |s.mem.goals| then s.(run := Asking(s.mem.goals[i])) else s.(run := Checkpointing(true))
    case Ask(model) =>
      var request := Request(lib, s.mem, s.run.goal);
      s.(requests := s.requests + [request], run := Executing([CallLLM(model, request)], []))
    case Execute(outcome) =>
      var cmd := s.run.todo[0];
      s.(run := Executing(s.run.todo[1..], s.run.produced + [outcome]),
         lost := if cmd.CallTool? && outcome.payload.ErrorReport? then s.lost + [cmd.callID] else s.lost)
    case Emit(token) => s.(log := s.log + [token])
    case Persist(stored, ok) =>
      if ok then s.(log := s.log + s.run.produced, run := Applying(s.run.produced))
      else s.(log := s.log + s.run.produced[..stored], run := Applying([]), lost := s.lost + ResultIDs(s.run.produced))
    case Read => s.(run := Reduced(s.mem, s.run.events[0], s.run.events[1..]))
    case Write(newID) =>
      s.(mem := Reduce(lib, s.run.base, s.run.event, newID), run := Queueing(Commands(lib, s.run.event), s.run.rest))
    case Queue => s.(pending := s.pending + s.run.cmds, run := Applying(s.run.after))
    case EndApply(save) => s.(run := if save then Checkpointing(false) else Top)
    case Shutdown => s.(run := Checkpointing(true))
    case GiveUp => s.(run := Stopped(false))
    case Copy => s.(run := Saving(s.mem, Begin, s.run.last))
    case SaveStep =>
      var n := WriteTemp(s, s.run.copy, s.run.phase);
      n.(run := if s.run.phase == Flushed then Recording(s.run.copy, s.run.last)
                else Saving(s.run.copy, NextPhase(s.run.phase), s.run.last))
    case SaveFail => s.(run := AfterCheckpoint(s.run.last, false))
    case Record(ok) =>
      var n := if ok then s.(checkpoints := s.checkpoints + [s.run.copy], past := s.past + [OnDisk(s)]) else s;
      n.(run := AfterCheckpoint(s.run.last, true))
    case IngestLog(e) => s.(log := s.log + [e], ingest := Logged(e))
    case IngestApply(id) =>
      s.(mem := Reduce(lib, s.mem, s.ingest.message, id), pending := s.pending + Commands(lib, s.ingest.message),
         ingest := Ingested(Begin))
    case IngestSaveStep =>
      var n := WriteTemp(s, s.mem, s.ingest.phase);
      n.(ingest := if s.ingest.phase == Flushed then Quiet else Ingested(NextPhase(s.ingest.phase)))
    case IngestSaveFail => s.(ingest := Quiet)
    case Crash(now, loss) =>
      var d, temp := AfterLoss(s, loss), if loss.Power? then PowerLoss(s.temp) else s.temp;
      System(false, NewState(now), [], Stopped(false), Quiet, s.log, d.file, temp, d.checkpoints,
             s.past[..|s.past| - Undone(loss)], [], false, [])
  }

  function Undone(loss: Loss): nat {
    if loss.Power? then loss.renames else 0
  }

  function AfterLoss(s: System, loss: Loss): Disk
    requires Undone(loss) <= |s.past|
  {
    if Undone(loss) > 0 then s.past[|s.past| - Undone(loss)]
    else if loss.Power? then OnDisk(s).(file := PowerLoss(s.file))
    else OnDisk(s)
  }

  /** Content that was never synced is not there after a power loss. */
  function PowerLoss(c: Content): Content {
    if c.Cached? then Torn else c
  }

  /** The states a run passes through, one action at a time from a fresh runtime. */
  ghost predicate Execution(lib: Library, trace: seq<System>, actions: seq<Action>, now: Time) {
    && |trace| == |actions| + 1 && trace[0] == Initial(now)
    && forall i :: 0 <= i < |actions| ==> Enabled(trace[i], actions[i]) && trace[i + 1] == Do(lib, trace[i], actions[i])
  }

  /** The steps of `atomicWrite`. */
  predicate Save(a: Action) {
    a.SaveStep? || a.IngestSaveStep?
  }

  // ---------------------------------------------------------------------------
  // Every state held anywhere is well formed: the reducer never panics, goals stay disciplined
  // ---------------------------------------------------------------------------

  predicate Good(state: State) {
    state.context.Some? && Disciplined(state.goals)
  }

  predicate GoodContent(c: Content) {
    (c.Cached? ==> Good(c.cached)) && (c.Durable? ==> Good(c.durable))
  }

  ghost predicate GoodPast(past: seq<Disk>) {
    forall d :: d in past ==> GoodContent(d.file)
  }

  ghost predicate AllGood(s: System) {
    && Good(s.mem) && GoodContent(s.file) && GoodContent(s.temp) && GoodPast(s.past)
    && match s.run
       case Recovering(loaded, _) => loaded.Some? ==> Good(loaded.value)
       case Reduced(base, _, _) => Good(base)
       case Saving(copy, _, _) => Good(copy)
       case Recording(copy, _) => Good(copy)
       case _ => true
  }

  lemma ReduceGood(lib: Library, state: State, e: Event, newID: string)
    requires Good(state)
    ensures Good(Reduce(lib, state, e, newID))
  {
    GoalsStayDisciplined(state.goals, e.payload, newID);
  }

  lemma ReduceStepKeepsGood(lib: Library, s: System, a: Action)
    requires Enabled(s, a) && AllGood(s) && (a.Write? || a.IngestApply?)
    ensures AllGood(Do(lib, s, a))
  {
    match a
    case Write(newID) => ReduceGood(lib, s.run.base, s.run.event, newID);
    case IngestApply(id) => ReduceGood(lib, s.mem, s.ingest.message, id);
  }

  lemma GoodPastGrows(s: System)
    requires AllGood(s)
    ensures GoodPast(s.past + [OnDisk(s)])
  {
  }

  lemma RunSaveKeepsGood(lib: Library, s: System)
    requires Enabled(s, SaveStep) && AllGood(s)
    ensures AllGood(Do(lib, s, SaveStep))
  {
    var n := Do(lib, s, SaveStep);
    GoodPastGrows(s);
    assert n.mem == s.mem && (n.run.Saving? || n.run.Recording?) && n.run.copy == s.run.copy;
    assert n.past == s.past || n.past == s.past + [OnDisk(s)];
  }

  lemma IngestSaveKeepsGood(lib: Library, s: System)
    requires Enabled(s, IngestSaveStep) && AllGood(s)
    ensures AllGood(Do(lib, s, IngestSaveStep))
  {
    var n := Do(lib, s, IngestSaveStep);
    GoodPastGrows(s);
    assert n.mem == s.mem && n.run == s.run;
    assert n.past == s.past || n.past == s.past + [OnDisk(s)];
  }

  lemma RecordKeepsGood(lib: Library, s: System, ok: bool)
    requires Enabled(s, Record(ok)) && AllGood(s)
    ensures AllGood(Do(lib, s, Record(ok)))
  {
    GoodPastGrows(s);
  }

  lemma RecoverKeepsGood(lib: Library, s: System)
    requires Enabled(s, Recover) && AllGood(s)
    ensures AllGood(Do(lib, s, Recover))
  {
  }

  lemma CrashKeepsGood(lib: Library, s: System, now: Time, loss: Loss)
    requires Enabled(s, Crash(now, loss)) && AllGood(s)
    ensures AllGood(Do(lib, s, Crash(now, loss)))
  {
    if Undone(loss) > 0 {
      assert AfterLoss(s, loss) in s.past;
    }
  }

  /** The steps that neither reduce nor rename nor write a state, nor change the process. */
  predicate Plain(a: Action) {
    !a.Write? && !a.IngestApply? && !Save(a) && !a.Record? && !a.Recover? && !a.Crash?
  }

  lemma PlainStepLeaves(lib: Library, s: System, a: Action)
    requires Enabled(s, a) && Plain(a)
    ensures var n := Do(lib, s, a);
      && n.mem == s.mem && n.live == s.live && n.temp == s.temp && OnDisk(n) == OnDisk(s) && n.past == s.past
  {
  }

  lemma PlainStepKeepsGood(lib: Library, s: System, a: Action)
    requires Enabled(s, a) && AllGood(s) && Plain(a)
    ensures AllGood(Do(lib, s, a))
  {
    PlainStepLeaves(lib, s, a);
  }

  // ---------------------------------------------------------------------------
  // The state file is always whole
  // ---------------------------------------------------------------------------

  predicate TempHolds(temp: Content, content: State, phase: Phase) {
    match phase
    case Begin => true
    case Partial => temp == Torn
    case Filled => temp == Cached(content)
    case Flushed => temp == Durable(content)
  }

  predicate Whole(c: Content) {
    c.Absent? || c.Durable?
  }

  ghost predicate WholePast(past: seq<Disk>) {
    forall d :: d in past ==> Whole(d.file)
  }

  ghost predicate Storage(s: System) {
    && Whole(s.file) && WholePast(s.past)
    && !(RunSaving(s) && IngestSaving(s))
    && (s.run.Saving? ==> TempHolds(s.temp, s.run.copy, s.run.phase))
    && (s.ingest.Ingested? ==> TempHolds(s.temp, s.mem, s.ingest.phase))
    && (s.ingest.Logged? ==> FromUser(s.ingest.message))
  }

  lemma PastGrows(s: System)
    requires Storage(s)
    ensures WholePast(s.past + [OnDisk(s)])
  {
  }

  lemma RunSaveKeepsStorage(lib: Library, s: System)
    requires Enabled(s, SaveStep) && Storage(s)
    ensures Storage(Do(lib, s, SaveStep))
  {
    PastGrows(s);
  }

  lemma IngestSaveKeepsStorage(lib: Library, s: System)
    requires Enabled(s, IngestSaveStep) && Storage(s)
    ensures Storage(Do(lib, s, IngestSaveStep))
  {
    PastGrows(s);
  }

  lemma RecordKeepsStorage(lib: Library, s: System, ok: bool)
    requires Enabled(s, Record(ok)) && Storage(s)
    ensures Storage(Do(lib, s, Record(ok)))
  {
    PastGrows(s);
  }

  lemma CrashKeepsStorage(lib: Library, s: System, now: Time, loss: Loss)
    requires Enabled(s, Crash(now, loss)) && Storage(s)
    ensures Storage(Do(lib, s, Crash(now, loss)))
  {
    if Undone(loss) > 0 {
      assert AfterLoss(s, loss) in s.past;
    }
  }

  /** A step that renames nothing and writes no state. */
  lemma OtherStepKeepsStorage(lib: Library, s: System, a: Action)
    requires Enabled(s, a) && !Save(a) && !a.Record? && !a.Crash? && Storage(s)
    ensures Storage(Do(lib, s, a))
  {
    var n := Do(lib, s, a);
    assert n.file == s.file && n.temp == s.temp && n.past == s.past;
    assert n.run.Saving? ==> n.run == s.run || n.run.phase == Begin;
    assert n.ingest.Ingested? ==> (n.ingest == s.ingest && n.mem == s.mem) || n.ingest.phase == Begin;
    assert n.ingest.Logged? ==> n.ingest == s.ingest || FromUser(n.ingest.message);
  }

  lemma StepKeepsStorage(lib: Library, s: System, a: Action)
    requires Enabled(s, a) && Storage(s)
    ensures Storage(Do(lib, s, a))
  {
    match a
    case Record(ok) => RecordKeepsStorage(lib, s, ok);
    case Crash(now, loss) => CrashKeepsStorage(lib, s, now, loss);
    case SaveStep => RunSaveKeepsStorage(lib, s);
    case IngestSaveStep => IngestSaveKeepsStorage(lib, s);
    case _ => OtherStepKeepsStorage(lib, s, a);
  }

  // ---------------------------------------------------------------------------
  // The durable frontier
  // ---------------------------------------------------------------------------

  function Highest(checkpoints: seq<State>): (v: int)
    requires checkpoints != []
    ensures forall c :: c in checkpoints ==> c.version <= v
  {
    var last := checkpoints[|checkpoints| - 1].version;
    if |checkpoints| == 1 then last
    else
      var rest := Highest(checkpoints[..|checkpoints| - 1]);
      if rest < last then last else rest
  }

  /** No checkpoint is newer than this version. */
  predicate Above(checkpoints: seq<State>, version: int) {
    checkpoints != [] ==> Highest(checkpoints) <= version
  }

  lemma HighestAfter(checkpoints: seq<State>, c: State)
    ensures Highest(checkpoints + [c]) ==
      if checkpoints != [] && Highest(checkpoints) > c.version then Highest(checkpoints) else c.version
  {
    assert (checkpoints + [c])[..|checkpoints|] == checkpoints;
  }

  /** No checkpoint on disk is newer than the state file. */
  predicate InStep(d: Disk) {
    d.checkpoints != [] ==> d.file.Durable? && Above(d.checkpoints, d.file.durable.version)
  }

  ghost predicate InStepPast(past: seq<Disk>) {
    forall d :: d in past ==> InStep(d)
  }

  ghost predicate Frontier(s: System) {
    && InStep(OnDisk(s)) && InStepPast(s.past)
    && (s.live ==> Above(s.checkpoints, s.mem.version))
    && (!s.live ==> (s.run.Stopped? || s.run.Recovering?) && s.ingest == Quiet)
    && match s.run
       case Recovering(loaded, _) => if loaded.Some? then Above(s.checkpoints, loaded.value.version) else s.checkpoints == []
       case Reduced(base, _, _) => Above(s.checkpoints, base.version)
       case Saving(copy, _, _) => Above(s.checkpoints, copy.version) && copy.version <= s.mem.version
       case Recording(copy, _) =>
         && Above(s.checkpoints, copy.version) && copy.version <= s.mem.version
         && s.file.Durable? && copy.version <= s.file.durable.version
       case _ => true
  }

  lemma ReduceStepKeepsFrontier(lib: Library, s: System, a: Action)
    requires Enabled(s, a) && Storage(s) && Frontier(s) && (a.Write? || a.IngestApply?)
    ensures Frontier(Do(lib, s, a))
  {
  }

  lemma InStepPastGrows(s: System)
    requires Frontier(s)
    ensures InStepPast(s.past + [OnDisk(s)])
  {
  }

  lemma RunSaveKeepsFrontier(lib: Library, s: System)
    requires Enabled(s, SaveStep) && Storage(s) && Frontier(s)
    ensures Frontier(Do(lib, s, SaveStep))
  {
    var n := Do(lib, s, SaveStep);
    InStepPastGrows(s);
    assert n.checkpoints == s.checkpoints && n.mem == s.mem && n.live == s.live && n.ingest == s.ingest;
    if s.run.phase == Flushed {
      assert n.file == Durable(s.run.copy) && n.run == Recording(s.run.copy, s.run.last);
    } else {
      assert n.file == s.file && n.past == s.past && n.run == Saving(s.run.copy, NextPhase(s.run.phase), s.run.last);
    }
  }

  lemma IngestSaveKeepsFrontier(lib: Library, s: System)
    requires Enabled(s, IngestSaveStep) && Storage(s) && Frontier(s)
    ensures Frontier(Do(lib, s, IngestSaveStep))
  {
    var n := Do(lib, s, IngestSaveStep);
    InStepPastGrows(s);
    assert n.checkpoints == s.checkpoints && n.mem == s.mem && n.live == s.live && n.run == s.run && s.live;
    if s.ingest.phase == Flushed {
      assert n.file == Durable(s.mem);
    } else {
      assert n.file == s.file && n.past == s.past;
    }
  }

  lemma RecordKeepsFrontier(lib: Library, s: System, ok: bool)
    requires Enabled(s, Record(ok)) && Storage(s) && Frontier(s)
    ensures Frontier(Do(lib, s, Record(ok)))
  {
    InStepPastGrows(s);
    HighestAfter(s.checkpoints, s.run.copy);
  }

  lemma RecoverKeepsFrontier(lib: Library, s: System)
    requires Enabled(s, Recover) && Storage(s) && Frontier(s)
    ensures Frontier(Do(lib, s, Recover))
  {
  }

  lemma CrashKeepsFrontier(lib: Library, s: System, now: Time, loss: Loss)
    requires Enabled(s, Crash(now, loss)) && Storage(s) && Frontier(s)
    ensures Frontier(Do(lib, s, Crash(now, loss)))
  {
    if Undone(loss) > 0 {
      assert AfterLoss(s, loss) in s.past;
    }
  }

  lemma PlainStepKeepsFrontier(lib: Library, s: System, a: Action)
    requires Enabled(s, a) && Storage(s) && Frontier(s) && Plain(a)
    ensures Frontier(Do(lib, s, a))
  {
    var n := Do(lib, s, a);
    PlainStepLeaves(lib, s, a);
    assert n.run.Reduced? ==> n.run == s.run || n.run.base == s.mem;
    assert n.run.Saving? ==> n.run == s.run || n.run.copy == s.mem;
    assert n.run.Recording? ==> n.run == s.run;
  }

  // ---------------------------------------------------------------------------
  // Tool calls and their answers
  // ---------------------------------------------------------------------------

  /** Calls on their way: a command being run, or a result not yet reduced. */
  function InFlight(run: RunPC): seq<string> {
    match run
    case Executing(todo, produced) => ResultIDs(produced) + CommandIDs(todo)
    case Applying(events) => ResultIDs(events)
    case Reduced(_, event, rest) => ResultID(event) + ResultIDs(rest)
    case Queueing(_, after) => ResultIDs(after)
    case _ => []
  }

  function Waiting(s: System): seq<string> {
    CommandIDs(s.pending) + (if s.run.Queueing? then CommandIDs(s.run.cmds) else [])
  }

  /** What becomes of the calls an assistant made, read off a system. */
  datatype Ledger = Ledger(
    called: seq<string>, answered: seq<string>, follows: bool,
    inFlight: seq<string>, waiting: seq<string>, lost: seq<string>)

  function LedgerOf(s: System): Ledger {
    Ledger(Called(Messages(s.mem)), Answered(Messages(s.mem)), AnswersFollowCalls(Messages(s.mem)),
           InFlight(s.run), Waiting(s), s.lost)
  }

  /** Answered, in flight and waiting calls, in this order, are all the calls ever made. */
  predicate InOrder(l: Ledger) {
    l.called == l.answered + l.inFlight + l.waiting && l.follows
  }

  /** Every call is answered, in flight, waiting or lost, and only once. */
  predicate Conserved(l: Ledger) {
    multiset(l.called) == multiset(l.answered) + multiset(l.inFlight) + multiset(l.waiting) + multiset(l.lost)
  }

  predicate Sound(l: Ledger) {
    Conserved(l) && (l.lost == [] ==> InOrder(l))
  }

  /** The reducer answers the first call in flight, or adds calls at the end. */
  lemma SoundAfterWrite(l: Ledger, n: Ledger, results: seq<string>, calls: seq<string>)
    requires Sound(l)
    requires n.called == l.called + calls && n.answered == l.answered + results
    requires l.inFlight == results + n.inFlight && n.waiting == l.waiting + calls && n.lost == l.lost
    requires l.lost == [] && n.answered <= n.called ==> n.follows
    ensures Sound(n)
  {
    if l.lost == [] {
      assert n.called == n.answered + n.inFlight + n.waiting;
    }
  }

  /** The conversation grows without a call or an answer. */
  lemma SoundAfterTalk(l: Ledger, n: Ledger)
    requires Sound(l) && n == l.(follows := n.follows)
    requires l.follows && l.answered <= l.called ==> n.follows
    ensures Sound(n)
  {
    if l.lost == [] {
      assert l.called == l.answered + (l.inFlight + l.waiting);
    }
  }

  /** Some of the calls in flight are lost. */
  lemma SoundAfterLoss(l: Ledger, n: Ledger, before: seq<string>, dropped: seq<string>, after: seq<string>)
    requires Sound(l)
    requires l.inFlight == before + dropped + after && n.inFlight == before + after && n.lost == l.lost + dropped
    requires n.called == l.called && n.answered == l.answered && n.follows == l.follows && n.waiting == l.waiting
    ensures Sound(n)
  {
    if dropped == [] {
      assert l.inFlight == n.inFlight && n.lost == l.lost;
    }
  }

  /** Queued calls take flight together, when nothing else is in flight. */
  lemma SoundAfterTakeOff(l: Ledger, n: Ledger)
    requires Sound(l) && l.inFlight == [] && n == l.(inFlight := l.waiting, waiting := [])
    ensures Sound(n)
  {
    assert l.answered + l.inFlight + l.waiting == n.answered + n.inFlight + n.waiting;
  }

  /** A conversation in which each call has been answered exactly once, in order. */
  predicate FullyAnswered(request: seq<Message>) {
    Called(request) == Answered(request) && AnswersFollowCalls(request)
  }

  /** The system message put in front changes nothing about that. */
  lemma RequestCounts(lib: Library, s: State, goal: Goal)
    ensures FullyAnswered(Request(lib, s, goal)) <==> FullyAnswered(Messages(s))
  {
    SystemMessageCounts(SystemText(Prompt(lib, s.systemPrompt, goal)), Messages(s));
  }

  predicate SameCalls(a: State, b: State) {
    Called(Messages(a)) == Called(Messages(b)) && Answered(Messages(a)) == Answered(Messages(b))
  }

  predicate Pairing(s: System) {
    && (s.paired ==> Sound(LedgerOf(s)))
    && (s.run.Reduced? ==> SameCalls(s.run.base, s.mem))
    && (s.run.Reduced? && s.paired && s.lost == [] ==> AnswersFollowCalls(Messages(s.run.base)))
    && (s.run.Deciding? || s.run.Asking? ==> s.pending == [])
    && (s.paired && s.lost == [] ==> AllAnswered(s.requests))
  }

  predicate AllAnswered(requests: seq<seq<Message>>) {
    forall r :: r in requests ==> FullyAnswered(r)
  }

  lemma ReducedFlight(base: State, e: Event, rest: seq<Event>, cmds: seq<Command>)
    ensures InFlight(Reduced(base, e, rest)) == ResultID(e) + InFlight(Queueing(cmds, rest))
  {
  }

  lemma QueuedWaiting(a: seq<string>, b: seq<string>)
    ensures a + b == (a + []) + b
  {
  }

  lemma WrittenPairing(s: System, mem: State, cmds: seq<Command>)
    requires s.run.Reduced? && Pairing(s)
    requires var (base, e) := (Messages(s.run.base), s.run.event);
      && Called(Messages(mem)) == Called(base) + CommandIDs(cmds)
      && Answered(Messages(mem)) == Answered(base) + ResultID(e)
      && (AnswersFollowCalls(base) && Answered(Messages(mem)) <= Called(Messages(mem)) ==> AnswersFollowCalls(Messages(mem)))
    ensures Pairing(s.(mem := mem, run := Queueing(cmds, s.run.rest)))
  {
    var n := s.(mem := mem, run := Queueing(cmds, s.run.rest));
    if s.paired {
      var l, m := LedgerOf(s), LedgerOf(n);
      ReducedFlight(s.run.base, s.run.event, s.run.rest, cmds);
      assert s.run == Reduced(s.run.base, s.run.event, s.run.rest);
      QueuedWaiting(CommandIDs(s.pending), CommandIDs(cmds));
      SoundAfterWrite(l, m, ResultID(s.run.event), CommandIDs(cmds));
    }
  }

  lemma IngestedPairing(s: System, mem: State)
    requires s.ingest.Logged? && Pairing(s)
    requires Called(Messages(mem)) == Called(Messages(s.mem)) && Answered(Messages(mem)) == Answered(Messages(s.mem))
    requires AnswersFollowCalls(Messages(s.mem)) && Answered(Messages(mem)) <= Called(Messages(mem)) ==>
      AnswersFollowCalls(Messages(mem))
    ensures Pairing(s.(mem := mem, ingest := Ingested(Begin)))
  {
    var n := s.(mem := mem, ingest := Ingested(Begin));
    if s.paired {
      SoundAfterTalk(LedgerOf(s), LedgerOf(n));
    }
  }

  lemma Regroup(a: seq<string>, b: seq<string>, c: seq<string>)
    ensures a + (b + c) == a + b + c && a + [] == a && a + b + [] == a + b
  {
  }

  lemma ExecutedInFlight(todo: seq<Command>, produced: seq<Event>, outcome: Event)
    requires todo != [] && Answers(todo[0], outcome)
    ensures var dropped := if outcome.payload.ErrorReport? then CommandID(todo[0]) else [];
      && InFlight(Executing(todo, produced)) == ResultIDs(produced) + ResultID(outcome) + dropped + CommandIDs(todo[1..])
      && InFlight(Executing(todo[1..], produced + [outcome])) == ResultIDs(produced) + ResultID(outcome) + CommandIDs(todo[1..])
  {
    ResultIDsConcat(produced, [outcome]);
    assert ResultIDs([outcome]) == ResultID(outcome);
    Regroup(ResultIDs(produced), ResultID(outcome), CommandIDs(todo[1..]));
    Regroup(ResultIDs(produced), CommandID(todo[0]), CommandIDs(todo[1..]));
  }

  lemma ExecutedPairing(s: System, outcome: Event)
    requires s.run.Executing? && s.run.todo != [] && Answers(s.run.todo[0], outcome) && Pairing(s)
    ensures var dropped := if outcome.payload.ErrorReport? then CommandID(s.run.todo[0]) else [];
      Pairing(s.(run := Executing(s.run.todo[1..], s.run.produced + [outcome]), lost := s.lost + dropped))
  {
    var dropped := if outcome.payload.ErrorReport? then CommandID(s.run.todo[0]) else [];
    var n := s.(run := Executing(s.run.todo[1..], s.run.produced + [outcome]), lost := s.lost + dropped);
    var done, left := ResultIDs(s.run.produced), CommandIDs(s.run.todo[1..]);
    ExecutedInFlight(s.run.todo, s.run.produced, outcome);
    if s.paired {
      SoundAfterLoss(LedgerOf(s), LedgerOf(n), done + ResultID(outcome), dropped, left);
    }
  }

  lemma DroppedPairing(s: System)
    requires s.run.Executing? && s.run.todo == [] && Pairing(s)
    ensures Pairing(s.(run := Applying([]), lost := s.lost + ResultIDs(s.run.produced)))
  {
    var n := s.(run := Applying([]), lost := s.lost + ResultIDs(s.run.produced));
    assert InFlight(s.run) == [] + ResultIDs(s.run.produced) + [];
    assert InFlight(n.run) == [] + [];
    if s.paired {
      SoundAfterLoss(LedgerOf(s), LedgerOf(n), [], ResultIDs(s.run.produced), []);
    }
  }

  lemma SwappedPairing(s: System)
    requires s.run == Top && Pairing(s)
    ensures Pairing(s.(pending := [], run := Executing(s.pending, [])))
  {
    var n := s.(pending := [], run := Executing(s.pending, []));
    assert InFlight(n.run) == CommandIDs(s.pending) == Waiting(s);
    assert InFlight(s.run) == Waiting(n) == [];
    if s.paired {
      SoundAfterTakeOff(LedgerOf(s), LedgerOf(n));
    }
  }

  /** Steps that change neither memory nor what is lost, and keep calls where they are. */
  lemma SamePairing(s: System, n: System)
    requires Pairing(s) && s.paired == n.paired && s.lost == n.lost && s.requests == n.requests && s.mem == n.mem
    requires InFlight(n.run) == InFlight(s.run) && Waiting(n) == Waiting(s)
    requires n.run.Reduced? ==> s.run.Reduced? || n.run.base == n.mem
    requires n.run.Reduced? && s.run.Reduced? ==> n.run == s.run
    requires n.run.Deciding? || n.run.Asking? ==> n.pending == []
    ensures Pairing(n)
  {
    assert LedgerOf(n) == LedgerOf(s);
  }

  lemma WritePairing(lib: Library, s: System, newID: string)
    requires Enabled(s, Write(newID)) && Pairing(s)
    ensures Pairing(Do(lib, s, Write(newID)))
  {
    var mem, cmds := Reduce(lib, s.run.base, s.run.event, newID), Commands(lib, s.run.event);
    ReduceExtendsConversation(lib, s.run.base, s.run.event, newID);
    WrittenPairing(s, mem, cmds);
    assert Do(lib, s, Write(newID)) == s.(mem := mem, run := Queueing(cmds, s.run.rest));
  }

  lemma IngestPairing(lib: Library, s: System, id: string)
    requires Enabled(s, IngestApply(id)) && Storage(s) && Pairing(s)
    ensures Pairing(Do(lib, s, IngestApply(id)))
  {
    var mem := Reduce(lib, s.mem, s.ingest.message, id);
    ReduceExtendsConversation(lib, s.mem, s.ingest.message, id);
    IngestedPairing(s, mem);
    assert s.pending + Commands(lib, s.ingest.message) == s.pending;
    assert Do(lib, s, IngestApply(id)) == s.(mem := mem, ingest := Ingested(Begin));
  }

  lemma PersistedPairing(lib: Library, s: System, stored: nat, ok: bool)
    requires Enabled(s, Persist(stored, ok)) && Pairing(s)
    ensures Pairing(Do(lib, s, Persist(stored, ok)))
  {
    if !ok {
      DroppedPairing(s.(log := s.log + s.run.produced[..stored]));
    } else {
      StoredPairing(s);
      assert Do(lib, s, Persist(stored, ok)) == s.(log := s.log + s.run.produced, run := Applying(s.run.produced));
    }
  }

  lemma StoredPairing(s: System)
    requires s.run.Executing? && s.run.todo == [] && Pairing(s)
    ensures Pairing(s.(log := s.log + s.run.produced, run := Applying(s.run.produced)))
  {
    assert ResultIDs(s.run.produced) + [] == ResultIDs(s.run.produced);
    SamePairing(s, s.(log := s.log + s.run.produced, run := Applying(s.run.produced)));
  }

  lemma SwapPairing(lib: Library, s: System)
    requires Enabled(s, Swap) && Pairing(s)
    ensures Pairing(Do(lib, s, Swap))
  {
    if s.pending != [] {
      SwappedPairing(s);
    } else {
      SamePairing(s, Do(lib, s, Swap));
    }
  }

  lemma QueuedPairing(lib: Library, s: System)
    requires Enabled(s, Queue) && Pairing(s)
    ensures Pairing(Do(lib, s, Queue))
  {
    EnqueuedPairing(s);
    assert Do(lib, s, Queue) == s.(pending := s.pending + s.run.cmds, run := Applying(s.run.after));
  }

  lemma EnqueuedPairing(s: System)
    requires s.run.Queueing? && Pairing(s)
    ensures Pairing(s.(pending := s.pending + s.run.cmds, run := Applying(s.run.after)))
  {
    var n := s.(pending := s.pending + s.run.cmds, run := Applying(s.run.after));
    CommandIDsConcat(s.pending, s.run.cmds);
    assert Waiting(n) == Waiting(s) + [] == Waiting(s);
    SamePairing(s, n);
  }

  lemma ReadPairing(lib: Library, s: System)
    requires Enabled(s, Read) && Pairing(s)
    ensures Pairing(Do(lib, s, Read))
  {
    SamePairing(s, Do(lib, s, Read));
  }

  lemma RecoverPairing(lib: Library, s: System)
    requires Enabled(s, Recover) && Pairing(s)
    ensures Pairing(Do(lib, s, Recover))
  {
    var n := Do(lib, s, Recover);
    assert InFlight(n.run) == [] && Waiting(n) == CommandIDs(n.pending);
    if n.paired {
      var l := LedgerOf(n);
      assert l.called == l.answered + l.waiting;
    }
  }

  lemma AskPairing(lib: Library, s: System, model: string)
    requires Enabled(s, Ask(model)) && Pairing(s)
    ensures Pairing(Do(lib, s, Ask(model)))
  {
    assert InFlight(s.run) == [] && Waiting(s) == [];
    var request := Request(lib, s.mem, s.run.goal);
    RequestCounts(lib, s.mem, s.run.goal);
    assert s.paired && s.lost == [] ==> FullyAnswered(request);
    assert CommandIDs([CallLLM(model, request)]) == [];
    SamePairing(s, Do(lib, s, Ask(model)).(requests := s.requests));
  }

  lemma ExecutePairing(lib: Library, s: System, outcome: Event)
    requires Enabled(s, Execute(outcome)) && Pairing(s)
    ensures Pairing(Do(lib, s, Execute(outcome)))
  {
    var dropped := if outcome.payload.ErrorReport? then CommandID(s.run.todo[0]) else [];
    ExecutedPairing(s, outcome);
    assert s.lost + [] == s.lost;
    assert Do(lib, s, Execute(outcome)) ==
      s.(run := Executing(s.run.todo[1..], s.run.produced + [outcome]), lost := s.lost + dropped);
  }

  /** The `Run` thread holds no call and is not about to ask the model. */
  predicate Idle(run: RunPC) {
    run.Stopped? || run.Recovering? || run.Top? || run.Checkpointing? || run.Saving? || run.Recording?
  }

  /** The same calls are on their way, and nothing else about them has changed. */
  predicate SameWork(s: System, n: System) {
    && s.paired == n.paired && s.lost == n.lost && s.requests == n.requests && s.mem == n.mem && s.pending == n.pending
    && (n.run == s.run || (Idle(s.run) && Idle(n.run)))
  }

  lemma IdlePairing(s: System, n: System)
    requires Pairing(s) && SameWork(s, n)
    ensures Pairing(n)
  {
    assert Idle(s.run) ==> InFlight(s.run) == [];
    assert Idle(n.run) ==> InFlight(n.run) == [];
    SamePairing(s, n);
  }

  /** The steps of the `Run` thread between its rounds. */
  predicate Between(a: Action) {
    a.Load? || a.Shutdown? || a.GiveUp? || a.Copy? || a.SaveStep? || a.SaveFail? || a.Record?
  }

  lemma BetweenIsIdle(lib: Library, s: System, a: Action)
    requires Enabled(s, a) && Between(a)
    ensures SameWork(s, Do(lib, s, a))
  {
  }

  /** The steps that leave the `Run` thread where it is. */
  predicate Aside(a: Action) {
    a.Emit? || a.IngestLog? || a.IngestSaveStep? || a.IngestSaveFail?
  }

  lemma AsideIsIdle(lib: Library, s: System, a: Action)
    requires Enabled(s, a) && Aside(a)
    ensures SameWork(s, Do(lib, s, a))
  {
  }

  lemma SelectedPairing(s: System, n: System)
    requires Pairing(s) && s.run == Deciding && (n.run.Asking? || n.run.Checkpointing?) && n == s.(run := n.run)
    ensures Pairing(n)
  {
    assert InFlight(s.run) == [] && InFlight(n.run) == [];
    SamePairing(s, n);
  }

  lemma AppliedPairing(s: System, n: System)
    requires Pairing(s) && s.run == Applying([]) && (n.run.Top? || n.run.Checkpointing?) && n == s.(run := n.run)
    ensures Pairing(n)
  {
    assert InFlight(s.run) == [] && InFlight(n.run) == [];
    SamePairing(s, n);
  }

  lemma QuietPairing(lib: Library, s: System, a: Action)
    requires Enabled(s, a) && Pairing(s) && (Between(a) || Aside(a))
    ensures Pairing(Do(lib, s, a))
  {
    if Between(a) {
      BetweenIsIdle(lib, s, a);
    } else {
      AsideIsIdle(lib, s, a);
    }
    IdlePairing(s, Do(lib, s, a));
  }

  lemma StepKeepsPairing(lib: Library, s: System, a: Action)
    requires Enabled(s, a) && Storage(s) && Pairing(s)
    ensures Pairing(Do(lib, s, a))
  {
    match a
    case Write(newID) => WritePairing(lib, s, newID);
    case IngestApply(id) => IngestPairing(lib, s, id);
    case Execute(outcome) => ExecutePairing(lib, s, outcome);
    case Persist(stored, ok) => PersistedPairing(lib, s, stored, ok);
    case Swap => SwapPairing(lib, s);
    case Queue => QueuedPairing(lib, s);
    case Read => ReadPairing(lib, s);
    case Recover => RecoverPairing(lib, s);
    case Ask(model) => AskPairing(lib, s, model);
    case Crash(_, _) =>
    case Select => SelectedPairing(s, Do(lib, s, a));
    case EndApply(_) => AppliedPairing(s, Do(lib, s, a));
    case _ => QuietPairing(lib, s, a);
  }

  // ---------------------------------------------------------------------------
  // A run that did not start paired never gets its calls in order
  // ---------------------------------------------------------------------------

  predicate Honest(s: System) {
    s.live && s.lost == [] && InOrder(LedgerOf(s)) ==> s.paired
  }

  /** If the calls are in order now, they were. */
  predicate OrderFrom(s: System, n: System) {
    n.lost == [] && InOrder(LedgerOf(n)) ==> s.lost == [] && InOrder(LedgerOf(s))
  }

  /** Calls that only move on. */
  lemma MovedOrder(s: System, n: System)
    requires n.mem == s.mem && n.lost == s.lost
    requires InFlight(s.run) + Waiting(s) == InFlight(n.run) + Waiting(n)
    ensures OrderFrom(s, n)
  {
    var l, m := LedgerOf(s), LedgerOf(n);
    Regroup(l.answered, l.inFlight, l.waiting);
    Regroup(m.answered, m.inFlight, m.waiting);
  }

  /** What users say neither calls nor answers. */
  lemma {:induction false} UserMessagesCount(base: seq<Message>, mem: seq<Message>)
    requires base <= mem && forall i :: |base| <= i < |mem| ==> mem[i].role == UserRole
    ensures Called(mem) == Called(base) && Answered(mem) == Answered(base)
    ensures AnswersFollowCalls(base) ==> AnswersFollowCalls(mem)
    decreases |mem|
  {
    if |mem| > |base| {
      UserMessagesCount(base, mem[..|mem| - 1]);
    } else {
      assert mem == base;
    }
    if AnswersFollowCalls(base) {
      FollowsSaysPrefix(base);
    }
  }

  lemma FollowsSaysPrefix(messages: seq<Message>)
    requires AnswersFollowCalls(messages)
    ensures Answered(messages) <= Called(messages)
  {
  }

  /** A write read backwards: it cannot put calls in order. */
  lemma OrderBeforeWrite(l: Ledger, n: Ledger, results: seq<string>, calls: seq<string>)
    requires n.called == l.called + calls && n.answered == l.answered + results
    requires l.inFlight == results + n.inFlight && n.waiting == l.waiting + calls
    requires InOrder(n) && l.follows
    ensures InOrder(l)
  {
    var all := l.answered + l.inFlight + l.waiting;
    assert l.called + calls == all + calls;
    assert l.called == (l.called + calls)[..|l.called|] && all == (all + calls)[..|all|];
  }

  lemma WrittenOrder(s: System, n: System, cmds: seq<Command>)
    requires s.run.Reduced? && Ahead(s.run.base, s.mem)
    requires n.run == Queueing(cmds, s.run.rest) && n.pending == s.pending && n.lost == s.lost
    requires Called(Messages(n.mem)) == Called(Messages(s.run.base)) + CommandIDs(cmds)
    requires Answered(Messages(n.mem)) == Answered(Messages(s.run.base)) + ResultID(s.run.event)
    requires AnswersFollowCalls(Messages(n.mem)) ==> AnswersFollowCalls(Messages(s.run.base))
    ensures OrderFrom(s, n)
  {
    if n.lost == [] && InOrder(LedgerOf(n)) {
      UserMessagesCount(Messages(s.run.base), Messages(s.mem));
      ReducedFlight(s.run.base, s.run.event, s.run.rest, cmds);
      QueuedWaiting(CommandIDs(s.pending), CommandIDs(cmds));
      assert s.run == Reduced(s.run.base, s.run.event, s.run.rest);
      OrderBeforeWrite(LedgerOf(s), LedgerOf(n), ResultID(s.run.event), CommandIDs(cmds));
    }
  }

  lemma WriteOrder(lib: Library, s: System, newID: string)
    requires Enabled(s, Write(newID)) && Overlap(s)
    ensures OrderFrom(s, Do(lib, s, Write(newID)))
  {
    ReduceExtendsConversation(lib, s.run.base, s.run.event, newID);
    WrittenOrder(s, Do(lib, s, Write(newID)), Commands(lib, s.run.event));
  }

  lemma IngestOrder(lib: Library, s: System, id: string)
    requires Enabled(s, IngestApply(id)) && Storage(s)
    ensures OrderFrom(s, Do(lib, s, IngestApply(id)))
  {
    var n, e := Do(lib, s, IngestApply(id)), s.ingest.message;
    ReduceExtendsConversation(lib, s.mem, e, id);
    assert Commands(lib, e) == [] && ResultID(e) == [] && CommandIDs([]) == [];
    assert s.pending + [] == s.pending;
    Regroup(Called(Messages(s.mem)), [], []);
    Regroup(Answered(Messages(s.mem)), [], []);
  }

  lemma ExecuteOrder(lib: Library, s: System, outcome: Event)
    requires Enabled(s, Execute(outcome))
    ensures OrderFrom(s, Do(lib, s, Execute(outcome)))
  {
    var n := Do(lib, s, Execute(outcome));
    var done, left := ResultIDs(s.run.produced) + ResultID(outcome), CommandIDs(s.run.todo[1..]);
    ExecutedInFlight(s.run.todo, s.run.produced, outcome);
    if n.lost == [] {
      Regroup(done, [], []);
      assert InFlight(s.run) == done + [] + left == InFlight(n.run);
      MovedOrder(s, n);
    }
  }

  lemma PersistOrder(lib: Library, s: System, stored: nat, ok: bool)
    requires Enabled(s, Persist(stored, ok))
    ensures OrderFrom(s, Do(lib, s, Persist(stored, ok)))
  {
    var n := Do(lib, s, Persist(stored, ok));
    Regroup(ResultIDs(s.run.produced), [], []);
    if n.lost == [] {
      assert !ok ==> ResultIDs(s.run.produced) == [] && s.lost == [];
      MovedOrder(s, n);
    }
  }

  lemma SwapOrder(lib: Library, s: System)
    requires Enabled(s, Swap)
    ensures OrderFrom(s, Do(lib, s, Swap))
  {
    var n, queued := Do(lib, s, Swap), CommandIDs(s.pending);
    assert InFlight(s.run) == [] && Waiting(s) == queued + [] == queued;
    if s.pending != [] {
      assert InFlight(n.run) == [] + queued == queued && Waiting(n) == [] + [];
    }
    MovedOrder(s, n);
  }

  lemma QueueOrder(lib: Library, s: System)
    requires Enabled(s, Queue)
    ensures OrderFrom(s, Do(lib, s, Queue))
  {
    var n := Do(lib, s, Queue);
    CommandIDsConcat(s.pending, s.run.cmds);
    assert InFlight(n.run) == InFlight(s.run) && Waiting(n) == Waiting(s);
    MovedOrder(s, n);
  }

  /** The steps of the `Run` thread that neither start nor end its hold on any call. */
  predicate Passing(a: Action) {
    a.Read? || a.Ask? || a.Select? || a.EndApply?
  }

  lemma PassingOrder(lib: Library, s: System, a: Action)
    requires Enabled(s, a) && Passing(a)
    ensures OrderFrom(s, Do(lib, s, a))
  {
    var n := Do(lib, s, a);
    if a.Ask? {
      assert n.run.todo[1..] == [] && CommandIDs(n.run.todo) == [];
    }
    assert InFlight(n.run) == InFlight(s.run);
    MovedOrder(s, n);
  }

  lemma IdleOrder(s: System, n: System)
    requires SameWork(s, n)
    ensures OrderFrom(s, n)
  {
    assert Idle(s.run) ==> InFlight(s.run) == [];
    assert Idle(n.run) ==> InFlight(n.run) == [];
    MovedOrder(s, n);
  }

  lemma RestOrder(lib: Library, s: System, a: Action)
    requires Enabled(s, a) && (Passing(a) || Between(a) || Aside(a))
    ensures OrderFrom(s, Do(lib, s, a))
  {
    if Passing(a) {
      PassingOrder(lib, s, a);
    } else {
      if Between(a) {
        BetweenIsIdle(lib, s, a);
      } else {
        AsideIsIdle(lib, s, a);
      }
      IdleOrder(s, Do(lib, s, a));
    }
  }

  lemma RecoverIsHonest(lib: Library, s: System)
    requires Enabled(s, Recover)
    ensures Honest(Do(lib, s, Recover))
  {
    var n := Do(lib, s, Recover);
    if InOrder(LedgerOf(n)) {
      SettledLedger(n.mem, n.pending, LedgerOf(n));
    }
  }

  lemma StepOrder(lib: Library, s: System, a: Action)
    requires Enabled(s, a) && !a.Recover? && !a.Crash? && Storage(s) && Pairing(s) && Overlap(s)
    ensures OrderFrom(s, Do(lib, s, a))
  {
    match a
    case Write(newID) => WriteOrder(lib, s, newID);
    case IngestApply(id) => IngestOrder(lib, s, id);
    case Execute(outcome) => ExecuteOrder(lib, s, outcome);
    case Persist(stored, ok) => PersistOrder(lib, s, stored, ok);
    case Swap => SwapOrder(lib, s);
    case Queue => QueueOrder(lib, s);
    case _ => RestOrder(lib, s, a);
  }

  lemma StepLeavesStart(lib: Library, s: System, a: Action)
    requires Enabled(s, a) && !a.Recover? && !a.Crash?
    ensures Do(lib, s, a).live == s.live && Do(lib, s, a).paired == s.paired
  {
  }

  lemma StepKeepsHonest(lib: Library, s: System, a: Action)
    requires Enabled(s, a) && Storage(s) && Pairing(s) && Overlap(s) && Honest(s)
    ensures Honest(Do(lib, s, a))
  {
    if a.Recover? {
      RecoverIsHonest(lib, s);
    } else if !a.Crash? {
      StepOrder(lib, s, a);
      StepLeavesStart(lib, s, a);
    }
  }

  // ---------------------------------------------------------------------------
  // Restarting a run: the saved state is paired with the queue
  // ---------------------------------------------------------------------------

  predicate Resumable(s: System) {
    s.paired && s.lost == [] ==>
      match s.run
      case Stopped(clean) => clean && s.file.Durable? ==> OpenCallsQueued(s.file.durable, s.pending)
      case Recovering(loaded, clean) => clean && loaded.Some? ==> OpenCallsQueued(loaded.value, s.pending)
      case Saving(copy, _, _) => OpenCallsQueued(copy, s.pending)
      case Recording(copy, _) =>
        OpenCallsQueued(copy, s.pending) && s.file.Durable? && OpenCallsQueued(s.file.durable, s.pending)
      case _ => true
  }

  lemma SettledLedger(mem: State, pending: seq<Command>, l: Ledger)
    requires InOrder(l) && l.inFlight == [] && l.waiting == CommandIDs(pending) + []
    requires l.called == Called(Messages(mem)) && l.answered == Answered(Messages(mem))
    requires l.follows == AnswersFollowCalls(Messages(mem))
    ensures OpenCallsQueued(mem, pending)
  {
    Regroup(l.answered, [], []);
    Regroup(CommandIDs(pending), [], []);
  }

  lemma QuietMemoryIsReady(s: System)
    requires Sound(LedgerOf(s)) && s.lost == [] && InFlight(s.run) == [] && !s.run.Queueing?
    ensures OpenCallsQueued(s.mem, s.pending)
  {
    SettledLedger(s.mem, s.pending, LedgerOf(s));
  }

  lemma RunSaveKeepsResumable(lib: Library, s: System)
    requires Enabled(s, SaveStep) && Storage(s) && Resumable(s)
    ensures Resumable(Do(lib, s, SaveStep))
  {
    var n := Do(lib, s, SaveStep);
    assert n.pending == s.pending && n.paired == s.paired && n.lost == s.lost;
    if s.run.phase == Flushed {
      assert n.file == Durable(s.run.copy) && n.run == Recording(s.run.copy, s.run.last);
    } else {
      assert n.run == Saving(s.run.copy, n.run.phase, s.run.last);
    }
  }

  lemma IngestSaveKeepsResumable(lib: Library, s: System)
    requires Enabled(s, IngestSaveStep) && Storage(s) && Pairing(s) && Resumable(s)
    ensures Resumable(Do(lib, s, IngestSaveStep))
  {
    var n := Do(lib, s, IngestSaveStep);
    assert n.run == s.run && n.pending == s.pending && n.paired == s.paired && n.lost == s.lost;
    if s.ingest.phase == Flushed {
      assert n.file == Durable(s.mem);
      if s.paired && s.lost == [] && (s.run.Stopped? || s.run.Recording?) {
        QuietMemoryIsReady(s);
      }
    } else {
      assert n.file == s.file;
    }
  }

  lemma CopyKeepsResumable(lib: Library, s: System)
    requires Enabled(s, Copy) && Pairing(s)
    ensures Resumable(Do(lib, s, Copy))
  {
    if s.paired && s.lost == [] {
      QuietMemoryIsReady(s);
    }
  }

  /** The `Run` thread is where a restart is prepared. */
  predicate Settling(run: RunPC) {
    run.Stopped? || run.Recovering? || run.Saving? || run.Recording?
  }

  lemma StopKeepsResumable(lib: Library, s: System, a: Action)
    requires Enabled(s, a) && Storage(s) && Resumable(s) && (a.Load? || a.GiveUp? || a.SaveFail? || a.Record?)
    ensures Resumable(Do(lib, s, a))
  {
    var n := Do(lib, s, a);
    assert n.pending == s.pending && n.paired == s.paired && n.lost == s.lost && n.file == s.file;
  }

  lemma IngestKeepsResumable(lib: Library, s: System, id: string)
    requires Enabled(s, IngestApply(id)) && Storage(s) && Resumable(s)
    ensures Resumable(Do(lib, s, IngestApply(id)))
  {
    assert Do(lib, s, IngestApply(id)).pending == s.pending + [] == s.pending;
  }

  /** A step that does not end up there, or leaves everything there as it is. */
  predicate Elsewhere(s: System, n: System) {
    || !Settling(n.run) || !n.paired
    || (n.run == s.run && n.pending == s.pending && n.file == s.file && n.paired == s.paired && n.lost == s.lost)
  }

  lemma RestIsElsewhere(lib: Library, s: System, a: Action)
    requires Enabled(s, a) && !Save(a) && !a.Copy? && !a.Load? && !a.GiveUp? && !a.SaveFail? && !a.Record?
    requires !a.IngestApply?
    ensures Elsewhere(s, Do(lib, s, a))
  {
  }

  lemma ElsewhereKeepsResumable(s: System, n: System)
    requires Resumable(s) && Elsewhere(s, n)
    ensures Resumable(n)
  {
  }

  lemma RestKeepsResumable(lib: Library, s: System, a: Action)
    requires Enabled(s, a) && Storage(s) && Resumable(s) && !Save(a) && !a.Copy?
    ensures Resumable(Do(lib, s, a))
  {
    if a.IngestApply? {
      IngestKeepsResumable(lib, s, a.id);
    } else if a.Load? || a.GiveUp? || a.SaveFail? || a.Record? {
      StopKeepsResumable(lib, s, a);
    } else {
      RestIsElsewhere(lib, s, a);
      ElsewhereKeepsResumable(s, Do(lib, s, a));
    }
  }

  /** A run that follows a cleanly stopped, faultless one starts paired. */
  lemma RecoverStaysPaired(lib: Library, s: System)
    requires Enabled(s, Recover) && Pairing(s) && Resumable(s)
    requires s.run.clean && s.paired && s.lost == []
    ensures Do(lib, s, Recover).paired
  {
    QuietMemoryIsReady(s);
  }

  // ---------------------------------------------------------------------------
  // Messages ingested while the reducer works
  // ---------------------------------------------------------------------------

  /** Everything in memory is still there: what was said, the goals and the system prompt. */
  predicate Keeps(before: State, after: State) {
    && Messages(before) <= Messages(after) && OnlyAdvances(before.goals, after.goals)
    && after.systemPrompt == before.systemPrompt
  }

  predicate FromRun(events: seq<Event>) {
    forall e :: e in events ==> e.payload.LLMResponse? || e.payload.ToolResult? || e.payload.ErrorReport?
  }

  /** What memory holds beyond the reducer's input is what users said since it was read. */
  predicate Ahead(base: State, mem: State) {
    && Messages(base) <= Messages(mem)
    && (forall i :: |Messages(base)| <= i < |Messages(mem)| ==> Messages(mem)[i].role == UserRole)
    && (Messages(mem) == Messages(base) ==> mem.goals == base.goals)
  }

  predicate Overlap(s: System) {
    match s.run
    case Executing(_, produced) => FromRun(produced)
    case Applying(events) => FromRun(events)
    case Reduced(base, event, rest) => FromRun([event]) && FromRun(rest) && Ahead(base, s.mem)
    case Queueing(_, after) => FromRun(after)
    case Saving(copy, _, _) => Ahead(copy, s.mem)
    case _ => true
  }

  lemma IngestKeepsOverlap(lib: Library, s: System, id: string)
    requires Enabled(s, IngestApply(id)) && Storage(s) && Overlap(s)
    ensures Overlap(Do(lib, s, IngestApply(id)))
  {
  }

  lemma EventStepKeepsOverlap(lib: Library, s: System, a: Action)
    requires Enabled(s, a) && Overlap(s) && (a.Execute? || a.Persist? || a.Read? || a.Write? || a.Queue?)
    ensures Overlap(Do(lib, s, a))
  {
  }

  lemma OtherRunsOn(lib: Library, s: System, a: Action)
    requires Enabled(s, a) && !a.IngestApply?
    requires !(a.Execute? || a.Persist? || a.Read? || a.Write? || a.Queue?)
    ensures var n := Do(lib, s, a);
      && (n.run.Reduced? ==> n.run == s.run && n.mem == s.mem)
      && (n.run.Executing? && n.run != s.run ==> n.run.produced == [])
      && (n.run.Applying? || n.run.Queueing? ==> n.run == s.run)
  {
  }

  lemma OtherSavesOn(lib: Library, s: System, a: Action)
    requires Enabled(s, a) && !a.IngestApply?
    requires !(a.Execute? || a.Persist? || a.Read? || a.Write? || a.Queue?)
    ensures var n := Do(lib, s, a);
      n.run.Saving? ==> n.mem == s.mem && ((s.run.Saving? && n.run.copy == s.run.copy) || n.run.copy == s.mem)
  {
  }

  lemma StepKeepsOverlap(lib: Library, s: System, a: Action)
    requires Enabled(s, a) && Overlap(s) && !a.IngestApply?
    ensures Overlap(Do(lib, s, a))
  {
    if a.Execute? || a.Persist? || a.Read? || a.Write? || a.Queue? {
      EventStepKeepsOverlap(lib, s, a);
    } else {
      OtherRunsOn(lib, s, a);
      OtherSavesOn(lib, s, a);
    }
  }

  // ---------------------------------------------------------------------------
  // What is on disk was handed to a save
  // ---------------------------------------------------------------------------

  predicate Carries(c: Content, x: State) {
    c == Cached(x) || c == Durable(x)
  }

  ghost predicate EverOnDisk(past: seq<Disk>, x: State) {
    exists d :: d in past && (Carries(d.file, x) || x in d.checkpoints)
  }

  /** This state is on disk, was, or is on its way there. */
  ghost predicate OnRecord(s: System, x: State) {
    || Carries(s.file, x) || Carries(s.temp, x) || x in s.checkpoints || EverOnDisk(s.past, x)
    || ((s.run.Saving? || s.run.Recording?) && s.run.copy == x)
  }

  /** A checkpoint takes its copy, or `Ingest` writes the state. */
  predicate HandsToSave(a: Action) {
    a == Copy || a == IngestSaveStep
  }

  lemma PastRecords(s: System, x: State)
    requires EverOnDisk(s.past + [OnDisk(s)], x)
    ensures OnRecord(s, x)
  {
    var d :| d in s.past + [OnDisk(s)] && (Carries(d.file, x) || x in d.checkpoints);
    if d in s.past {
      assert EverOnDisk(s.past, x);
    }
  }

  lemma RunSaveRecords(lib: Library, s: System, x: State)
    requires Enabled(s, SaveStep) && OnRecord(Do(lib, s, SaveStep), x)
    ensures OnRecord(s, x)
  {
    var n := Do(lib, s, SaveStep);
    assert n.past == s.past || n.past == s.past + [OnDisk(s)];
    if EverOnDisk(n.past, x) && n.past != s.past {
      PastRecords(s, x);
    }
  }

  lemma IngestSaveRecords(lib: Library, s: System, x: State)
    requires Enabled(s, IngestSaveStep) && OnRecord(Do(lib, s, IngestSaveStep), x)
    ensures OnRecord(s, x) || x == s.mem
  {
    var n := Do(lib, s, IngestSaveStep);
    assert n.past == s.past || n.past == s.past + [OnDisk(s)];
    if EverOnDisk(n.past, x) && n.past != s.past {
      PastRecords(s, x);
    }
  }

  lemma RecordRecords(lib: Library, s: System, ok: bool, x: State)
    requires Enabled(s, Record(ok)) && OnRecord(Do(lib, s, Record(ok)), x)
    ensures OnRecord(s, x)
  {
    var n := Do(lib, s, Record(ok));
    if EverOnDisk(n.past, x) && n.past != s.past {
      PastRecords(s, x);
    }
  }

  lemma CrashRecords(lib: Library, s: System, now: Time, loss: Loss, x: State)
    requires Enabled(s, Crash(now, loss)) && OnRecord(Do(lib, s, Crash(now, loss)), x)
    ensures OnRecord(s, x)
  {
    var n := Do(lib, s, Crash(now, loss));
    if EverOnDisk(n.past, x) {
      var d :| d in n.past && (Carries(d.file, x) || x in d.checkpoints);
      assert d in s.past;
    } else if Undone(loss) > 0 && !Carries(n.temp, x) {
      assert AfterLoss(s, loss) in s.past;
    }
  }

  lemma OtherStepRecords(lib: Library, s: System, a: Action, x: State)
    requires Enabled(s, a) && !Save(a) && !a.Record? && !a.Crash? && OnRecord(Do(lib, s, a), x)
    ensures OnRecord(s, x) || (x == s.mem && a == Copy)
  {
    var n := Do(lib, s, a);
    assert n.temp == s.temp && OnDisk(n) == OnDisk(s) && n.past == s.past;
    assert n.run.Saving? ==> n.run == s.run || a == Copy;
    assert n.run.Recording? ==> n.run == s.run;
  }

  /** A step puts no other state on its way to disk than the one in memory. */
  lemma StepRecords(lib: Library, s: System, a: Action, x: State)
    requires Enabled(s, a) && OnRecord(Do(lib, s, a), x)
    ensures OnRecord(s, x) || (x == s.mem && HandsToSave(a))
  {
    match a
    case Record(ok) => RecordRecords(lib, s, ok, x);
    case Crash(now, loss) => CrashRecords(lib, s, now, loss, x);
    case SaveStep => RunSaveRecords(lib, s, x);
    case IngestSaveStep => IngestSaveRecords(lib, s, x);
    case _ => OtherStepRecords(lib, s, a, x);
  }
}
