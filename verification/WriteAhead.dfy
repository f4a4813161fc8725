/** The interleaved runtime and its log: what is reduced was logged before, so that every state
    in memory or on disk is the fold of logged events; what a step does to the disk; and what
    the model is asked about. */
module WriteAhead {
  import opened Wrappers
  import opened States
  import opened Interleaving
  import Reducing
  import RuntimeSafety

  // ---------------------------------------------------------------------------
  // The log
  // ---------------------------------------------------------------------------

  /** The log never loses anything. A token or a permission request, the results of a batch and
      an ingested message are added at its end, in that order and once; a failed append of
      results may still have added some; nothing else is logged. */
  lemma LogStep(lib: Library, s: System, a: Action)
    requires Enabled(s, a)
    ensures var n := Do(lib, s, a);
      match a
      case Emit(token) => n.log == s.log + [token]
      case IngestLog(message) => n.log == s.log + [message]
      case Persist(_, true) => n.log == s.log + s.run.produced
      case Persist(_, false) => s.log <= n.log && n.log <= s.log + s.run.produced
      case _ => n.log == s.log
  {
    if a.Persist? && a.ok {
      assert s.run.produced[..a.stored] == s.run.produced;
    }
  }

  lemma LogStepAt(lib: Library, trace: seq<System>, actions: seq<Action>, now: Time, i: nat)
    requires Execution(lib, trace, actions, now) && i < |actions|
    ensures trace[i].log <= trace[i + 1].log
  {
    RuntimeSafety.StepOf(lib, trace, actions, now, i);
    LogExtends(lib, trace[i], actions[i]);
  }

  function LogsOf(trace: seq<System>): (logs: seq<seq<Event>>)
    ensures |logs| == |trace| && forall i :: 0 <= i < |trace| ==> logs[i] == trace[i].log
  {
    seq(|trace|, i requires 0 <= i < |trace| => trace[i].log)
  }

  lemma {:induction false} GrowsOn(logs: seq<seq<Event>>, i: nat, j: nat)
    requires i <= j < |logs| && forall k :: 0 < k < |logs| ==> logs[k - 1] <= logs[k]
    ensures logs[i] <= logs[j]
    decreases j
  {
    if i < j {
      GrowsOn(logs, i, j - 1);
    }
  }

  lemma LogOnlyGrows(lib: Library, trace: seq<System>, actions: seq<Action>, now: Time, i: nat, j: nat)
    requires Execution(lib, trace, actions, now) && i <= j < |trace|
    ensures trace[i].log <= trace[j].log
  {
    forall k | 0 < k < |trace| ensures LogsOf(trace)[k - 1] <= LogsOf(trace)[k] {
      LogStepAt(lib, trace, actions, now, k - 1);
    }
    GrowsOn(LogsOf(trace), i, j);
  }

  /** Events on their way to the reducer. */
  function ToReduce(run: RunPC): seq<Event> {
    match run
    case Applying(events) => events
    case Reduced(_, e, rest) => [e] + rest
    case Queueing(_, rest) => rest
    case _ => []
  }

  ghost predicate Logs(log: seq<Event>, events: seq<Event>) {
    forall e :: e in events ==> e in log
  }

  ghost predicate Ahead(s: System) {
    Logs(s.log, ToReduce(s.run)) && (s.ingest.Logged? ==> s.ingest.message in s.log)
  }

  lemma ToReduceStep(lib: Library, s: System, a: Action)
    requires Enabled(s, a)
    ensures var n := Do(lib, s, a);
      || n.run == s.run || ToReduce(n.run) == []
      || (a == Read && ToReduce(n.run) == ToReduce(s.run))
      || (a.Write? && ToReduce(n.run) == ToReduce(s.run)[1..])
      || (a == Queue && ToReduce(n.run) == ToReduce(s.run))
      || (a.Persist? && a.ok && ToReduce(n.run) == s.run.produced)
  {
    if a.Read? {
      assert s.run.events == [s.run.events[0]] + s.run.events[1..];
    }
  }

  lemma MessageStep(lib: Library, s: System, a: Action)
    requires Enabled(s, a) && Do(lib, s, a).ingest.Logged?
    ensures Do(lib, s, a).ingest == s.ingest || a == IngestLog(Do(lib, s, a).ingest.message)
  {
  }

  lemma StepKeepsAhead(lib: Library, s: System, a: Action)
    requires Enabled(s, a) && Ahead(s)
    ensures Ahead(Do(lib, s, a))
  {
    var n := Do(lib, s, a);
    LogStep(lib, s, a);
    ToReduceStep(lib, s, a);
    if n.ingest.Logged? {
      MessageStep(lib, s, a);
    }
    assert s.log <= n.log;
  }

  // ---------------------------------------------------------------------------
  // What was logged is reduced
  // ---------------------------------------------------------------------------

  predicate AtReducing(run: RunPC) {
    run.Applying? || run.Reduced? || run.Queueing?
  }

  /** The event a step of the run writes into memory, if it does. */
  function WrittenBy(s: System, a: Action): seq<Event> {
    if a.Write? && s.run.Reduced? then [s.run.event] else []
  }

  function WrittenBetween(trace: seq<System>, actions: seq<Action>, i: nat, j: nat): seq<Event>
    requires i <= j <= |actions| < |trace|
  {
    if i == j then [] else WrittenBetween(trace, actions, i, j - 1) + WrittenBy(trace[j - 1], actions[j - 1])
  }

  lemma ReducingStep(lib: Library, s: System, a: Action)
    requires Enabled(s, a) && AtReducing(s.run) && AtReducing(Do(lib, s, a).run)
    ensures WrittenBy(s, a) + ToReduce(Do(lib, s, a).run) == ToReduce(s.run)
  {
    ToReduceStep(lib, s, a);
    if a.Write? {
      assert ToReduce(s.run)[0] == s.run.event;
    }
  }

  /** This step takes what it writes off the front of what is to be reduced. */
  ghost predicate Link(trace: seq<System>, actions: seq<Action>, k: nat)
    requires k < |actions| < |trace|
  {
    WrittenBy(trace[k], actions[k]) + ToReduce(trace[k + 1].run) == ToReduce(trace[k].run)
  }

  lemma TakenOff(written: seq<Event>, now: seq<Event>, left: seq<Event>, before: seq<Event>)
    requires now + left == before
    ensures written + now + left == written + before
  {
  }

  lemma {:induction false} WrittenInOrder(trace: seq<System>, actions: seq<Action>, i: nat, j: nat)
    requires i <= j <= |actions| < |trace| && forall k :: i <= k < j ==> Link(trace, actions, k)
    ensures WrittenBetween(trace, actions, i, j) + ToReduce(trace[j].run) == ToReduce(trace[i].run)
    decreases j
  {
    if i < j {
      WrittenInOrder(trace, actions, i, j - 1);
      assert Link(trace, actions, j - 1);
      TakenOff(WrittenBetween(trace, actions, i, j - 1), WrittenBy(trace[j - 1], actions[j - 1]),
               ToReduce(trace[j].run), ToReduce(trace[j - 1].run));
    }
  }

  lemma LinkAt(lib: Library, trace: seq<System>, actions: seq<Action>, now: Time, k: nat)
    requires Execution(lib, trace, actions, now) && k < |actions|
    requires AtReducing(trace[k].run) && AtReducing(trace[k + 1].run)
    ensures Link(trace, actions, k)
  {
    RuntimeSafety.StepOf(lib, trace, actions, now, k);
    ReducingStep(lib, trace[k], actions[k]);
  }

  lemma PersistStarts(lib: Library, s: System, a: Action)
    requires Enabled(s, a) && a.Persist? && a.ok
    ensures ToReduce(Do(lib, s, a).run) == s.run.produced
  {
  }

  lemma PersistedAt(lib: Library, trace: seq<System>, actions: seq<Action>, now: Time, i: nat)
    requires Execution(lib, trace, actions, now) && i < |actions| && actions[i].Persist? && actions[i].ok
    ensures trace[i].run.Executing? && ToReduce(trace[i + 1].run) == trace[i].run.produced
  {
    RuntimeSafety.StepOf(lib, trace, actions, now, i);
    PersistStarts(lib, trace[i], actions[i]);
  }

  /** Once the results of a batch are logged they are written into memory one by one, in order
      and each once: as long as the run is at it, what it has written and what it has still to
      reduce make up the results. It only goes on when there is nothing more to reduce. */
  lemma ResultsAreReduced(lib: Library, trace: seq<System>, actions: seq<Action>, now: Time, i: nat, j: nat)
    requires Execution(lib, trace, actions, now) && i < j < |trace|
    requires actions[i].Persist? && actions[i].ok && forall k :: i < k <= j ==> AtReducing(trace[k].run)
    ensures trace[i].run.Executing?
    ensures WrittenBetween(trace, actions, i + 1, j) + ToReduce(trace[j].run) == trace[i].run.produced
    ensures j < |actions| && actions[j].EndApply? ==> WrittenBetween(trace, actions, i + 1, j) == trace[i].run.produced
  {
    PersistedAt(lib, trace, actions, now, i);
    forall k | i + 1 <= k < j ensures Link(trace, actions, k) {
      LinkAt(lib, trace, actions, now, k);
    }
    WrittenInOrder(trace, actions, i + 1, j);
    if j < |actions| && actions[j].EndApply? {
      RuntimeSafety.StepOf(lib, trace, actions, now, j);
      assert ToReduce(trace[j].run) == [];
    }
  }

  // ---------------------------------------------------------------------------
  // Every state is the fold of logged events
  // ---------------------------------------------------------------------------

  /** This state is what a history of logged events makes of a new one. */
  ghost predicate Stems(lib: Library, x: State, log: seq<Event>) {
    exists now: Time, history: seq<(Event, string)> :: StemsBy(lib, x, log, now, history)
  }

  ghost predicate StemsBy(lib: Library, x: State, log: seq<Event>, now: Time, history: seq<(Event, string)>) {
    x == Replay(lib, NewState(now), history) && forall k :: 0 <= k < |history| ==> history[k].0 in log
  }

  lemma StemsLater(lib: Library, x: State, log: seq<Event>, later: seq<Event>)
    requires Stems(lib, x, log) && log <= later
    ensures Stems(lib, x, later)
  {
    var now, history :| StemsBy(lib, x, log, now, history);
    assert StemsBy(lib, x, later, now, history);
  }

  lemma NewStems(lib: Library, now: Time, log: seq<Event>)
    ensures Stems(lib, NewState(now), log)
  {
    assert StemsBy(lib, NewState(now), log, now, []);
  }

  lemma ReducedStems(lib: Library, x: State, log: seq<Event>, e: Event, newID: string)
    requires Stems(lib, x, log) && e in log && !Panics(x, e)
    ensures Stems(lib, Reduce(lib, x, e, newID), log)
  {
    var now, history :| StemsBy(lib, x, log, now, history);
    var more := history + [(e, newID)];
    assert more[..|history|] == history;
    assert StemsBy(lib, Reduce(lib, x, e, newID), log, now, more);
  }

  /** Memory, and what memory is about to become. */
  ghost predicate AllStem(lib: Library, s: System) {
    && Stems(lib, s.mem, s.log)
    && (s.run.Reduced? ==> Stems(lib, s.run.base, s.log))
    && (s.run.Recovering? && s.run.loaded.Some? ==> Stems(lib, s.run.loaded.value, s.log))
  }

  lemma AllStemLater(lib: Library, s: System, n: System)
    requires AllStem(lib, s) && s.log <= n.log && n.mem == s.mem
    requires n.run.Reduced? ==> n.run == s.run || n.run.base == s.mem
    requires n.run.Recovering? ==> n.run == s.run
    ensures AllStem(lib, n)
  {
    StemsLater(lib, s.mem, s.log, n.log);
    if s.run.Reduced? {
      StemsLater(lib, s.run.base, s.log, n.log);
    }
    if s.run.Recovering? && s.run.loaded.Some? {
      StemsLater(lib, s.run.loaded.value, s.log, n.log);
    }
  }

  lemma ReducingStems(lib: Library, s: System, a: Action)
    requires Enabled(s, a) && AllStem(lib, s) && Ahead(s) && (a.Write? || a.IngestApply?)
    ensures AllStem(lib, Do(lib, s, a))
  {
    match a
    case Write(newID) =>
      assert s.run.event in ToReduce(s.run);
      ReducedStems(lib, s.run.base, s.log, s.run.event, newID);
    case IngestApply(id) =>
      ReducedStems(lib, s.mem, s.log, s.ingest.message, id);
  }

  predicate Other(a: Action) {
    !a.Write? && !a.IngestApply? && !a.Crash? && !a.Load? && !a.Recover?
  }

  lemma OtherLeavesMemory(lib: Library, s: System, a: Action)
    requires Enabled(s, a) && Other(a)
    ensures Do(lib, s, a).mem == s.mem
  {
  }

  lemma OtherLeavesRun(lib: Library, s: System, a: Action)
    requires Enabled(s, a) && Other(a)
    ensures var n := Do(lib, s, a);
      (n.run.Reduced? ==> n.run == s.run || n.run.base == s.mem) && (n.run.Recovering? ==> n.run == s.run)
  {
  }

  lemma RecoveryStems(lib: Library, s: System, a: Action)
    requires Enabled(s, a) && AllStem(lib, s) && (a == Load || a == Recover || a.Crash?)
    requires a == Load && Carried(s.file).Some? ==> Stems(lib, Carried(s.file).value, s.log)
    ensures AllStem(lib, Do(lib, s, a))
  {
    if a.Crash? {
      NewStems(lib, a.now, s.log);
    }
  }

  lemma StepStems(lib: Library, s: System, a: Action)
    requires Enabled(s, a) && AllStem(lib, s) && Ahead(s)
    requires a == Load && Carried(s.file).Some? ==> Stems(lib, Carried(s.file).value, s.log)
    ensures AllStem(lib, Do(lib, s, a))
  {
    if a.Write? || a.IngestApply? {
      ReducingStems(lib, s, a);
    } else if a == Load || a == Recover || a.Crash? {
      RecoveryStems(lib, s, a);
    } else {
      OtherLeavesMemory(lib, s, a);
      OtherLeavesRun(lib, s, a);
      LogExtends(lib, s, a);
      AllStemLater(lib, s, Do(lib, s, a));
    }
  }

  lemma LogExtends(lib: Library, s: System, a: Action)
    requires Enabled(s, a)
    ensures s.log <= Do(lib, s, a).log
  {
    LogStep(lib, s, a);
  }

  function Carried(c: Content): Option<State> {
    match c
    case Durable(x) => Some(x)
    case Cached(x) => Some(x)
    case _ => None
  }

  /** Whatever was saved before stems from the log. */
  lemma SavedStems(
      lib: Library, trace: seq<System>, actions: seq<Action>, now: Time, i: nat, x: State)
    requires Execution(lib, trace, actions, now) && i < |trace|
    requires forall j :: 0 <= j < i ==> Stems(lib, trace[j].mem, trace[j].log)
    requires OnRecord(trace[i], x)
    ensures Stems(lib, x, trace[i].log)
  {
    RuntimeSafety.RecordedWasSaved(lib, trace, actions, now, i, x);
    var j: nat :| j < i && trace[j].mem == x && HandsToSave(actions[j]);
    LogOnlyGrows(lib, trace, actions, now, j, i);
    StemsLater(lib, x, trace[j].log, trace[i].log);
  }

  lemma {:induction false} StemmedSoFar(lib: Library, trace: seq<System>, actions: seq<Action>, now: Time, i: nat)
    requires Execution(lib, trace, actions, now) && i < |trace|
    ensures Ahead(trace[i]) && AllStem(lib, trace[i])
    ensures forall j :: 0 <= j < i ==> Stems(lib, trace[j].mem, trace[j].log)
  {
    if i == 0 {
      NewStems(lib, now, []);
    } else {
      var s, a := trace[i - 1], actions[i - 1];
      StemmedSoFar(lib, trace, actions, now, i - 1);
      RuntimeSafety.StepOf(lib, trace, actions, now, i - 1);
      StepKeepsAhead(lib, s, a);
      if a == Load && Carried(s.file).Some? {
        SavedStems(lib, trace, actions, now, i - 1, Carried(s.file).value);
      }
      StepStems(lib, s, a);
    }
  }

  /** Everything is logged before it is reduced, so at any time, after any crashes, memory, the
      state file and every checkpoint is what some history of logged events makes of a new
      state; and no step takes anything out of the log. */
  lemma EveryStateStemsFromTheLog(lib: Library, trace: seq<System>, actions: seq<Action>, now: Time, i: nat, x: State)
    requires Execution(lib, trace, actions, now) && i < |trace|
    requires x == trace[i].mem || OnRecord(trace[i], x)
    ensures Stems(lib, x, trace[i].log)
    ensures forall e :: e in ToReduce(trace[i].run) ==> e in trace[i].log
    ensures trace[i].ingest.Logged? ==> trace[i].ingest.message in trace[i].log
    ensures i + 1 < |trace| ==> trace[i].log <= trace[i + 1].log
  {
    StemmedSoFar(lib, trace, actions, now, i);
    if OnRecord(trace[i], x) {
      SavedStems(lib, trace, actions, now, i, x);
    }
    if i + 1 < |trace| {
      LogOnlyGrows(lib, trace, actions, now, i, i + 1);
    }
  }

  // ---------------------------------------------------------------------------
  // The disk
  // ---------------------------------------------------------------------------

  /** What has been on disk after each rename, up to now. */
  function DisksOf(s: System): seq<Disk> {
    s.past + [OnDisk(s)]
  }

  /** A rename puts one thing more on disk: the temporary file as the state file, or the copy of
      a checkpoint. A power loss goes back by as many renames as it takes away. Nothing else
      changes what is on disk. */
  lemma DiskStep(lib: Library, s: System, a: Action)
    requires Enabled(s, a) && Storage(s)
    ensures var was, now := DisksOf(s), DisksOf(Do(lib, s, a));
      if a == Record(true) then now == was + [Disk(s.file, s.checkpoints + [s.run.copy])]
      else if a.Crash? && a.loss.Power? then now == was[..|was| - a.loss.renames]
      else now == was || (Save(a) && now == was + [Disk(s.temp, s.checkpoints)])
  {
    if Plain(a) {
      PlainStepLeaves(lib, s, a);
    } else if a.Crash? {
      CrashDisks(lib, s, a.now, a.loss);
    } else if !Save(a) && !a.Record? {
      NoRename(lib, s, a);
    }
  }

  lemma NoRename(lib: Library, s: System, a: Action)
    requires Enabled(s, a) && (a.Write? || a.IngestApply? || a.Recover?)
    ensures DisksOf(Do(lib, s, a)) == DisksOf(s)
  {
  }

  lemma CrashDisks(lib: Library, s: System, now: Time, loss: Loss)
    requires Enabled(s, Crash(now, loss)) && Whole(s.file)
    ensures var was := DisksOf(s);
      DisksOf(Do(lib, s, Crash(now, loss))) == if loss.Power? then was[..|was| - loss.renames] else was
  {
  }

  ghost predicate NoPowerLoss(actions: seq<Action>, i: nat, j: nat)
    requires i <= j <= |actions|
  {
    forall k :: i <= k < j ==> !(actions[k].Crash? && actions[k].loss.Power?)
  }

  /** While no power is lost nothing on disk is taken back: checkpoints stay, and so does a state
      file once there is one. */
  lemma {:induction false} DiskOnlyGrows(
      lib: Library, trace: seq<System>, actions: seq<Action>, now: Time, i: nat, j: nat)
    requires Execution(lib, trace, actions, now) && i <= j < |trace| && NoPowerLoss(actions, i, j)
    ensures DisksOf(trace[i]) <= DisksOf(trace[j]) && trace[i].checkpoints <= trace[j].checkpoints
    ensures trace[i].file.Durable? ==> trace[j].file.Durable?
    decreases j
  {
    if i < j {
      DiskOnlyGrows(lib, trace, actions, now, i, j - 1);
      RuntimeSafety.StepOf(lib, trace, actions, now, j - 1);
      DiskStep(lib, trace[j - 1], actions[j - 1]);
      DiskStepGrows(lib, trace[j - 1], actions[j - 1]);
    }
  }

  lemma DiskStepGrows(lib: Library, s: System, a: Action)
    requires Enabled(s, a) && Storage(s) && !(a.Crash? && a.loss.Power?)
    ensures var n := Do(lib, s, a); s.checkpoints <= n.checkpoints && (s.file.Durable? ==> n.file.Durable?)
  {
    DiskStep(lib, s, a);
    var n := Do(lib, s, a);
    assert DisksOf(n)[|DisksOf(n)| - 1] == OnDisk(n) && DisksOf(s)[|DisksOf(s)| - 1] == OnDisk(s);
    if Save(a) {
      RenamesDurable(lib, s, a);
    }
  }

  lemma RenamesDurable(lib: Library, s: System, a: Action)
    requires Enabled(s, a) && Storage(s) && Save(a)
    ensures Do(lib, s, a).file == s.file || Do(lib, s, a).file.Durable?
  {
  }

  // ---------------------------------------------------------------------------
  // What comes after a checkpoint
  // ---------------------------------------------------------------------------

  predicate InCheckpoint(run: RunPC) {
    run.Checkpointing? || run.Saving? || run.Recording?
  }

  /** Whether this checkpoint is the last of its run. */
  predicate IsLast(run: RunPC)
    requires InCheckpoint(run)
  {
    run.last
  }

  /** A checkpoint is the last one exactly when it is taken because the run is shut down or finds
      no open goal; one taken after events were reduced is not. */
  lemma CheckpointBegins(lib: Library, s: System, a: Action)
    requires Enabled(s, a) && !InCheckpoint(s.run) && InCheckpoint(Do(lib, s, a).run)
    ensures a == Shutdown || a == Select || a == EndApply(true)
    ensures IsLast(Do(lib, s, a).run) <==> a == Shutdown || a == Select
  {
  }

  lemma CheckpointStep(lib: Library, s: System, a: Action)
    requires Enabled(s, a) && InCheckpoint(s.run)
    ensures var n := Do(lib, s, a);
      if InCheckpoint(n.run) then IsLast(n.run) == IsLast(s.run)
      else
        || (a == SaveFail && n.run == (if IsLast(s.run) then Stopped(false) else Top))
        || (a.Record? && n.run == (if IsLast(s.run) then Stopped(true) else Top))
        || (a.Crash? && n.run == Stopped(false))
  {
  }

  predicate SameEnd(s: System, n: System) {
    InCheckpoint(s.run) && InCheckpoint(n.run) && IsLast(n.run) == IsLast(s.run)
  }

  lemma {:induction false} SameEnds(trace: seq<System>, i: nat, j: nat)
    requires i <= j < |trace| && InCheckpoint(trace[i].run)
    requires forall k :: i < k <= j ==> SameEnd(trace[k - 1], trace[k])
    ensures InCheckpoint(trace[j].run) && IsLast(trace[j].run) == IsLast(trace[i].run)
    decreases j
  {
    if i < j {
      SameEnds(trace, i, j - 1);
      assert SameEnd(trace[j - 1], trace[j]);
    }
  }

  lemma StaysLastAt(lib: Library, trace: seq<System>, actions: seq<Action>, now: Time, k: nat)
    requires Execution(lib, trace, actions, now) && 0 < k < |trace|
    requires InCheckpoint(trace[k - 1].run) && InCheckpoint(trace[k].run)
    ensures SameEnd(trace[k - 1], trace[k])
  {
    RuntimeSafety.StepOf(lib, trace, actions, now, k - 1);
    CheckpointStep(lib, trace[k - 1], actions[k - 1]);
  }

  lemma CheckpointStaysLast(lib: Library, trace: seq<System>, actions: seq<Action>, now: Time, i: nat, j: nat)
    requires Execution(lib, trace, actions, now) && i <= j < |trace|
    requires forall k :: i <= k <= j ==> InCheckpoint(trace[k].run)
    ensures IsLast(trace[j].run) == IsLast(trace[i].run)
  {
    forall k | i < k <= j ensures SameEnd(trace[k - 1], trace[k]) {
      StaysLastAt(lib, trace, actions, now, k);
    }
    SameEnds(trace, i, j);
  }

  /** What a checkpoint leads to, whatever `Ingest` does meanwhile and whether or not its saves
      go through: after a shutdown, or when no goal is open, the run stops, cleanly exactly if
      its state was saved; after events were reduced the loop goes on, unless the process crashed. */
  lemma CheckpointLeadsTo(
      lib: Library, trace: seq<System>, actions: seq<Action>, now: Time, i: nat, j: nat)
    requires Execution(lib, trace, actions, now) && i < j < |actions|
    requires !InCheckpoint(trace[i].run) && !InCheckpoint(trace[j + 1].run)
    requires forall k :: i < k <= j ==> InCheckpoint(trace[k].run)
    ensures actions[i] == Shutdown || actions[i] == Select || actions[i] == EndApply(true)
    ensures actions[j].Crash? || actions[j] == SaveFail || actions[j].Record?
    ensures trace[j + 1].run ==
      if actions[j].Crash? then Stopped(false) else if actions[i] == EndApply(true) then Top else Stopped(actions[j].Record?)
  {
    RuntimeSafety.StepOf(lib, trace, actions, now, i);
    RuntimeSafety.StepOf(lib, trace, actions, now, j);
    CheckpointBegins(lib, trace[i], actions[i]);
    CheckpointStaysLast(lib, trace, actions, now, i + 1, j);
    CheckpointStep(lib, trace[j], actions[j]);
  }

  // ---------------------------------------------------------------------------
  // Requests
  // ---------------------------------------------------------------------------

  /** This goal is the first open one. */
  predicate IsFirstOpen(goals: seq<Goal>, k: nat, goal: Goal) {
    k < |goals| && goals[k] == goal && Reducing.Open(goal) && forall l :: 0 <= l < k ==> !Reducing.Open(goals[l])
  }

  ghost predicate FirstOpenIs(goals: seq<Goal>, goal: Goal) {
    exists k: nat :: IsFirstOpen(goals, k, goal)
  }

  /** A goal is selected if one is open, and it is the first; with none open the run stops after
      a checkpoint. */
  lemma SelectsFirstOpen(lib: Library, s: System)
    requires Enabled(s, Select)
    ensures var n := Do(lib, s, Select);
      if forall k :: 0 <= k < |s.mem.goals| ==> !Reducing.Open(s.mem.goals[k]) then n.run == Checkpointing(true)
      else n.run.Asking? && FirstOpenIs(s.mem.goals, n.run.goal)
  {
    var k := FirstActive(s.mem.goals);
    if k < |s.mem.goals| {
      assert Reducing.Open(s.mem.goals[k]);
      assert IsFirstOpen(s.mem.goals, k, s.mem.goals[k]);
    } else {
      assert forall l :: 0 <= l < k ==> !Reducing.Open(s.mem.goals[l]);
    }
  }

  /** At step j a goal was selected, and since then the run has waited to ask about it. */
  ghost predicate SelectedAt(trace: seq<System>, actions: seq<Action>, i: nat, j: nat, goal: Goal)
    requires i < |trace| == |actions| + 1
  {
    && j < i && actions[j] == Select && FirstOpenIs(trace[j].mem.goals, goal)
    && forall l :: j < l <= i ==> trace[l].run == Asking(goal)
  }

  /** A run that is about to ask has just selected the goal, or was about to ask before. */
  ghost predicate Chosen(trace: seq<System>, actions: seq<Action>, i: nat)
    requires i < |trace| == |actions| + 1 && trace[i].run.Asking?
  {
    && i > 0
    && if actions[i - 1] == Select then FirstOpenIs(trace[i - 1].mem.goals, trace[i].run.goal)
       else trace[i - 1].run == trace[i].run
  }

  lemma SelectedLater(trace: seq<System>, actions: seq<Action>, i: nat, j: nat, goal: Goal)
    requires 0 < i < |trace| == |actions| + 1
    requires SelectedAt(trace, actions, i - 1, j, goal) && trace[i].run == Asking(goal)
    ensures SelectedAt(trace, actions, i, j, goal)
  {
  }

  lemma {:induction false} ChosenWasSelected(trace: seq<System>, actions: seq<Action>, i: nat) returns (j: nat)
    requires i < |trace| == |actions| + 1 && trace[i].run.Asking?
    requires forall k :: 0 <= k < |trace| && trace[k].run.Asking? ==> Chosen(trace, actions, k)
    ensures SelectedAt(trace, actions, i, j, trace[i].run.goal)
  {
    assert Chosen(trace, actions, i);
    if actions[i - 1] == Select {
      j := i - 1;
    } else {
      j := ChosenWasSelected(trace, actions, i - 1);
      SelectedLater(trace, actions, i, j, trace[i].run.goal);
    }
  }

  lemma AskingWasSelected(
      lib: Library, trace: seq<System>, actions: seq<Action>, now: Time, i: nat) returns (j: nat)
    requires Execution(lib, trace, actions, now) && i < |trace| && trace[i].run.Asking?
    ensures SelectedAt(trace, actions, i, j, trace[i].run.goal)
  {
    forall k | 0 <= k < |trace| && trace[k].run.Asking? ensures Chosen(trace, actions, k) {
      AskingStep(lib, trace, actions, now, k);
    }
    j := ChosenWasSelected(trace, actions, i);
  }

  lemma AskingStep(lib: Library, trace: seq<System>, actions: seq<Action>, now: Time, i: nat)
    requires Execution(lib, trace, actions, now) && i < |trace| && trace[i].run.Asking?
    ensures Chosen(trace, actions, i)
  {
    RuntimeSafety.StepOf(lib, trace, actions, now, i - 1);
    if actions[i - 1] == Select {
      SelectsFirstOpen(lib, trace[i - 1]);
    } else {
      AskingStays(lib, trace[i - 1], actions[i - 1]);
    }
  }

  lemma AskingStays(lib: Library, s: System, a: Action)
    requires Enabled(s, a) && a != Select && Do(lib, s, a).run.Asking?
    ensures s.run == Do(lib, s, a).run
  {
  }

  /** This request goes out: it is recorded, and is what the run executes next. */
  ghost predicate Sent(s: System, n: System, model: string, request: seq<Message>) {
    n.run == Executing([CallLLM(model, request)], []) && n.requests == s.requests + [request]
  }

  /** Every request to the model is about the goal that was the first open one when the run
      selected it, just before, and tells the whole conversation as it is when it is sent. */
  lemma RequestIsAboutFirstOpen(
      lib: Library, trace: seq<System>, actions: seq<Action>, now: Time, i: nat, model: string)
    returns (j: nat, goal: Goal, request: seq<Message>)
    requires Execution(lib, trace, actions, now) && i < |actions| && actions[i] == Ask(model)
    ensures SelectedAt(trace, actions, i, j, goal) && Sent(trace[i], trace[i + 1], model, request)
    ensures Reducing.ReadsAsRequest(lib, trace[i].mem, goal, request)
  {
    RuntimeSafety.StepOf(lib, trace, actions, now, i);
    goal := trace[i].run.goal;
    j := AskingWasSelected(lib, trace, actions, now, i);
    request := Request(lib, trace[i].mem, goal);
    Reducing.RequestReads(lib, trace[i].mem, goal);
  }
}
