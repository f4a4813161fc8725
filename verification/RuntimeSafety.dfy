/** What holds in every state of every execution of the interleaved runtime. */
module RuntimeSafety {
  import opened Wrappers
  import opened States
  import opened Interleaving

  ghost predicate Invariant(s: System) {
    AllGood(s) && Storage(s) && Frontier(s) && Pairing(s) && Resumable(s) && Overlap(s) && Honest(s)
  }

  lemma InitialInvariant(now: Time)
    ensures Invariant(Initial(now))
  {
    assert LedgerOf(Initial(now)) == Ledger([], [], true, [], [], []);
  }

  lemma DiskStepFrontier(lib: Library, s: System, a: Action)
    requires Enabled(s, a) && Storage(s) && Frontier(s) && !Plain(a) && !a.Write? && !a.IngestApply?
    ensures Frontier(Do(lib, s, a))
  {
    match a
    case SaveStep => RunSaveKeepsFrontier(lib, s);
    case IngestSaveStep => IngestSaveKeepsFrontier(lib, s);
    case Record(ok) => RecordKeepsFrontier(lib, s, ok);
    case Recover => RecoverKeepsFrontier(lib, s);
    case Crash(now, loss) => CrashKeepsFrontier(lib, s, now, loss);
  }

  lemma StepFrontier(lib: Library, s: System, a: Action)
    requires Enabled(s, a) && Storage(s) && Frontier(s)
    ensures Frontier(Do(lib, s, a))
  {
    if Plain(a) {
      PlainStepKeepsFrontier(lib, s, a);
    } else if a.Write? || a.IngestApply? {
      ReduceStepKeepsFrontier(lib, s, a);
    } else {
      DiskStepFrontier(lib, s, a);
    }
  }

  lemma StepGood(lib: Library, s: System, a: Action)
    requires Enabled(s, a) && AllGood(s)
    ensures AllGood(Do(lib, s, a))
  {
    match a
    case SaveStep => RunSaveKeepsGood(lib, s);
    case IngestSaveStep => IngestSaveKeepsGood(lib, s);
    case Record(ok) => RecordKeepsGood(lib, s, ok);
    case Crash(now, loss) => CrashKeepsGood(lib, s, now, loss);
    case Recover => RecoverKeepsGood(lib, s);
    case Write(_) => ReduceStepKeepsGood(lib, s, a);
    case IngestApply(_) => ReduceStepKeepsGood(lib, s, a);
    case _ => PlainStepKeepsGood(lib, s, a);
  }

  lemma StepResumable(lib: Library, s: System, a: Action)
    requires Enabled(s, a) && Storage(s) && Pairing(s) && Resumable(s)
    ensures Resumable(Do(lib, s, a))
  {
    match a
    case SaveStep => RunSaveKeepsResumable(lib, s);
    case IngestSaveStep => IngestSaveKeepsResumable(lib, s);
    case Copy => CopyKeepsResumable(lib, s);
    case _ => RestKeepsResumable(lib, s, a);
  }

  lemma StepOverlap(lib: Library, s: System, a: Action)
    requires Enabled(s, a) && Storage(s) && Overlap(s)
    ensures Overlap(Do(lib, s, a))
  {
    if a.IngestApply? {
      IngestKeepsOverlap(lib, s, a.id);
    } else {
      StepKeepsOverlap(lib, s, a);
    }
  }

  lemma StepInvariant(lib: Library, s: System, a: Action)
    requires Enabled(s, a) && Invariant(s)
    ensures Invariant(Do(lib, s, a))
  {
    StepGood(lib, s, a);
    StepKeepsStorage(lib, s, a);
    StepFrontier(lib, s, a);
    StepKeepsPairing(lib, s, a);
    StepResumable(lib, s, a);
    StepOverlap(lib, s, a);
    StepKeepsHonest(lib, s, a);
  }

  lemma {:induction false} Reachable(lib: Library, trace: seq<System>, actions: seq<Action>, now: Time, i: nat)
    requires Execution(lib, trace, actions, now) && i < |trace|
    ensures Invariant(trace[i])
  {
    if i == 0 {
      InitialInvariant(now);
    } else {
      Reachable(lib, trace, actions, now, i - 1);
      StepInvariant(lib, trace[i - 1], actions[i - 1]);
    }
  }

  /** One step of an execution. */
  lemma StepOf(lib: Library, trace: seq<System>, actions: seq<Action>, now: Time, i: nat)
    requires Execution(lib, trace, actions, now) && i < |actions|
    ensures Enabled(trace[i], actions[i]) && trace[i + 1] == Do(lib, trace[i], actions[i])
    ensures Storage(trace[i])
  {
    Reachable(lib, trace, actions, now, i);
  }

  // ---------------------------------------------------------------------------
  // Main results
  // ---------------------------------------------------------------------------

  lemma LossBreaksOrder(l: Ledger)
    requires Sound(l)
    ensures l.lost == [] <==> l.called == l.answered + l.inFlight + l.waiting
    ensures l.lost == [] ==> l.follows
  {
    if l.called == l.answered + l.inFlight + l.waiting {
      assert multiset(l.answered + l.inFlight + l.waiting) ==
        multiset(l.answered) + multiset(l.inFlight) + multiset(l.waiting);
      var kept := multiset(l.answered) + multiset(l.inFlight) + multiset(l.waiting);
      forall x ensures x !in multiset(l.lost) {
        assert multiset(l.called)[x] == kept[x] + multiset(l.lost)[x];
      }
      assert |multiset(l.lost)| == |l.lost| && multiset(l.lost) == multiset{};
    }
  }

  /** In a run that starts with every open call queued, under any interleaving with `Ingest`
      and any store failures, no call is duplicated or forgotten: each is answered, in
      flight, waiting, or known to be lost. Answered, in-flight and waiting calls are
      together all calls in the order they were made exactly when none was lost, that is
      when no append of tool results failed and no tool call ended in an error event. */
  lemma ToolCallPairing(lib: Library, trace: seq<System>, actions: seq<Action>, now: Time, i: nat)
    requires Execution(lib, trace, actions, now) && i < |trace| && trace[i].paired
    ensures var s := trace[i]; var messages := Messages(s.mem);
      && multiset(Called(messages)) ==
           multiset(Answered(messages)) + multiset(InFlight(s.run)) + multiset(Waiting(s)) + multiset(s.lost)
      && (s.lost == [] <==> Called(messages) == Answered(messages) + InFlight(s.run) + Waiting(s))
      && (s.lost == [] ==> AnswersFollowCalls(messages))
  {
    Reachable(lib, trace, actions, now, i);
    LossBreaksOrder(LedgerOf(trace[i]));
  }

  /** As long as no call was lost, each call of the conversation sent with a request to the
      model has been answered exactly once, in order, and after it was made, if and only if
      the run started with every open call queued. */
  lemma RequestsAreFullyAnswered(
      lib: Library, trace: seq<System>, actions: seq<Action>, now: Time, i: nat, model: string)
    requires Execution(lib, trace, actions, now) && i < |actions| && actions[i] == Ask(model) && trace[i].lost == []
    ensures var request := Request(lib, trace[i].mem, trace[i].run.goal);
      && trace[i + 1].run == Executing([CallLLM(model, request)], [])
      && (FullyAnswered(request) <==> trace[i].paired)
  {
    Reachable(lib, trace, actions, now, i);
    var s := trace[i];
    var l := LedgerOf(s);
    RequestCounts(lib, s.mem, s.run.goal);
    assert l.inFlight == [] && l.waiting == [] && l.answered + [] + [] == l.answered;
    if s.paired {
      ToolCallPairing(lib, trace, actions, now, i);
    }
  }

  /** A crash, and a new process that recovers. */
  function Restarted(lib: Library, s: System, now: Time, loss: Loss): System
    requires Enabled(s, Crash(now, loss)) && AfterLoss(s, loss).file.Durable?
  {
    Do(lib, Do(lib, Do(lib, s, Crash(now, loss)), Load), Recover)
  }

  lemma RestartedFromFile(lib: Library, s: System, now: Time, loss: Loss)
    requires Enabled(s, Crash(now, loss)) && AfterLoss(s, loss).file.Durable?
    ensures var r := Restarted(lib, s, now, loss);
      && r.mem == AfterLoss(s, loss).file.durable && r.pending == [] && r.run == Top && r.ingest == Quiet
      && r.lost == [] && r.requests == [] && (r.paired <==> FullyAnswered(Messages(r.mem)))
  {
    var f := AfterLoss(s, loss).file.durable;
    assert CommandIDs([]) == [] && Answered(Messages(f)) + [] == Answered(Messages(f));
  }

  /** From the head of the loop to the first request. */
  function Asked(lib: Library, s: System, model: string): System
    requires s.run == Top && s.pending == [] && Unlocked(s) && FirstActive(s.mem.goals) < |s.mem.goals|
  {
    Do(lib, Do(lib, Do(lib, s, Swap), Select), Ask(model))
  }

  lemma FirstRequest(lib: Library, s: System, model: string)
    requires s.run == Top && s.pending == [] && Unlocked(s) && FirstActive(s.mem.goals) < |s.mem.goals|
    ensures Asked(lib, s, model).requests ==
      s.requests + [Request(lib, s.mem, s.mem.goals[FirstActive(s.mem.goals)])]
  {
  }

  /** A crash while the saved state has an open call: the queue is gone, so the next run is not
      paired, and its first request has a call without an answer. */
  lemma CrashOrphansCalls(lib: Library, s: System, now: Time, loss: Loss, model: string)
    requires Enabled(s, Crash(now, loss)) && AfterLoss(s, loss).file.Durable?
    requires var f := AfterLoss(s, loss).file.durable;
      Called(Messages(f)) != Answered(Messages(f)) && FirstActive(f.goals) < |f.goals|
    ensures var f, r := AfterLoss(s, loss).file.durable, Restarted(lib, s, now, loss);
      && !r.paired && r.lost == [] && r.mem == f && r.run == Top && r.pending == [] && Unlocked(r)
      && var request := Request(lib, f, f.goals[FirstActive(f.goals)]);
      Asked(lib, r, model).requests == [request] && !FullyAnswered(request)
  {
    var f, r := AfterLoss(s, loss).file.durable, Restarted(lib, s, now, loss);
    RestartedFromFile(lib, s, now, loss);
    FirstRequest(lib, r, model);
    RequestCounts(lib, f, f.goals[FirstActive(f.goals)]);
  }

  /** Nothing goes wrong: no crash, no failed save, no abandoned loop and no lost call. */
  predicate Faultless(s: System, a: Action) {
    match a
    case Crash(_, _) => false
    case GiveUp => false
    case SaveFail => false
    case Persist(_, ok) => ok
    case Execute(outcome) =>
      s.run.Executing? && s.run.todo != [] && s.run.todo[0].CallTool? ==> !outcome.payload.ErrorReport?
    case _ => true
  }

  predicate Stoppable(run: RunPC) {
    (run.Stopped? || run.Recovering?) ==> run.clean
  }

  lemma FaultlessStep(lib: Library, s: System, a: Action)
    requires Enabled(s, a) && Faultless(s, a) && !a.Recover?
    requires s.paired && s.lost == [] && Stoppable(s.run)
    ensures var n := Do(lib, s, a); n.paired && n.lost == [] && Stoppable(n.run)
  {
  }

  /** Over a whole session of runs and restarts without a fault, every run starts paired and
      no call is ever lost, so the two results above hold in all of its states. */
  lemma {:induction false} SessionStaysPaired(lib: Library, trace: seq<System>, actions: seq<Action>, now: Time, i: nat)
    requires Execution(lib, trace, actions, now) && i < |trace|
    requires forall k :: 0 <= k < i ==> Faultless(trace[k], actions[k])
    ensures trace[i].paired && trace[i].lost == [] && Stoppable(trace[i].run)
  {
    if i > 0 {
      SessionStaysPaired(lib, trace, actions, now, i - 1);
      Reachable(lib, trace, actions, now, i - 1);
      if actions[i - 1].Recover? {
        RecoverStaysPaired(lib, trace[i - 1]);
      } else {
        FaultlessStep(lib, trace[i - 1], actions[i - 1]);
      }
    }
  }

  /** This state was in memory when a checkpoint copied it or an ingest wrote it. */
  ghost predicate WasSaved(trace: seq<System>, actions: seq<Action>, i: nat, x: State)
    requires i <= |actions| < |trace|
  {
    exists j :: 0 <= j < i && trace[j].mem == x && HandsToSave(actions[j])
  }

  lemma {:induction false} RecordedWasSaved(
      lib: Library, trace: seq<System>, actions: seq<Action>, now: Time, i: nat, x: State)
    requires Execution(lib, trace, actions, now) && i < |trace| && OnRecord(trace[i], x)
    ensures WasSaved(trace, actions, i, x)
  {
    if i > 0 {
      StepOf(lib, trace, actions, now, i - 1);
      StepRecords(lib, trace[i - 1], actions[i - 1], x);
      if OnRecord(trace[i - 1], x) {
        RecordedWasSaved(lib, trace, actions, now, i - 1, x);
      } else {
        assert trace[i - 1].mem == x && HandsToSave(actions[i - 1]);
      }
    } else {
      NothingOnRecord(now, x);
    }
  }

  lemma NothingOnRecord(now: Time, x: State)
    ensures !OnRecord(Initial(now), x)
  {
  }

  /** In every state, including right after a crash at any point of a save, and after a power
      loss that takes back the latest renames, the state file is absent or one whole state, and
      no checkpoint is newer; all of them were in memory when they were handed to a save. */
  lemma DurableFrontier(lib: Library, trace: seq<System>, actions: seq<Action>, now: Time, i: nat)
    requires Execution(lib, trace, actions, now) && i < |trace|
    ensures trace[i].file.Absent? || trace[i].file.Durable?
    ensures trace[i].file.Durable? ==> WasSaved(trace, actions, i, trace[i].file.durable)
    ensures forall c :: c in trace[i].checkpoints ==>
      WasSaved(trace, actions, i, c) && trace[i].file.Durable? && c.version <= trace[i].file.durable.version
  {
    Reachable(lib, trace, actions, now, i);
    if trace[i].file.Durable? {
      RecordedWasSaved(lib, trace, actions, now, i, trace[i].file.durable);
    }
    forall c | c in trace[i].checkpoints ensures WasSaved(trace, actions, i, c) {
      RecordedWasSaved(lib, trace, actions, now, i, c);
    }
  }

  /** The reducer never panics, goals stay disciplined and a run never fails to recover. */
  lemma NeverPanics(lib: Library, trace: seq<System>, actions: seq<Action>, now: Time, i: nat)
    requires Execution(lib, trace, actions, now) && i < |trace|
    ensures var s := trace[i];
      && (s.run.Reduced? ==> !Panics(s.run.base, s.run.event))
      && (s.ingest.Logged? ==> !Panics(s.mem, s.ingest.message))
      && Disciplined(s.mem.goals)
      && (s.run.Stopped? && !IngestSaving(s) ==> Enabled(s, Load))
  {
    Reachable(lib, trace, actions, now, i);
  }

  /** The `Run` thread can take its next step, whatever comes of it. */
  ghost predicate RunMoves(s: System) {
    Begins(s) && Works(s) && Saves(s)
  }

  ghost predicate Begins(s: System) {
    match s.run
    case Stopped(_) => !IngestSaving(s) ==> Enabled(s, Load)
    case Recovering(_, _) => Unlocked(s) ==> Enabled(s, Recover)
    case Top => Enabled(s, Shutdown) && Enabled(s, GiveUp) && (Unlocked(s) ==> Enabled(s, Swap))
    case Deciding => Unlocked(s) ==> Enabled(s, Select)
    case Asking(_) => Unlocked(s) ==> forall model :: Enabled(s, Ask(model))
    case _ => true
  }

  ghost predicate Works(s: System) {
    match s.run
    case Executing(todo, produced) =>
      if todo != [] then forall outcome :: Answers(todo[0], outcome) ==> Enabled(s, Execute(outcome))
      else
        !IngestSaving(s) ==>
          Enabled(s, Persist(|produced|, true)) && forall n: nat :: n <= |produced| ==> Enabled(s, Persist(n, false))
    case Applying(events) =>
      if events != [] then Unlocked(s) ==> Enabled(s, Read) else Enabled(s, EndApply(true)) && Enabled(s, EndApply(false))
    case Reduced(_, _, _) => Unlocked(s) ==> forall id :: Enabled(s, Write(id))
    case Queueing(_, _) => Unlocked(s) ==> Enabled(s, Queue)
    case _ => true
  }

  ghost predicate Saves(s: System) {
    match s.run
    case Checkpointing(_) => Unlocked(s) ==> Enabled(s, Copy)
    case Saving(_, _, _) => !IngestSaving(s) ==> Enabled(s, SaveStep) && Enabled(s, SaveFail)
    case Recording(_, _) => !IngestSaving(s) ==> Enabled(s, Record(true)) && Enabled(s, Record(false))
    case _ => true
  }

  /** So can the thread in `Ingest`; a message may come in whenever it can have both locks. */
  ghost predicate IngestMoves(s: System) {
    match s.ingest
    case Quiet => s.live && !RunSaving(s) ==> forall e :: FromUser(e) ==> Enabled(s, IngestLog(e))
    case Logged(_) => forall id :: Enabled(s, IngestApply(id))
    case Ingested(_) => !RunSaving(s) ==> Enabled(s, IngestSaveStep) && Enabled(s, IngestSaveFail)
  }

  lemma BeginsNotStuck(s: System)
    requires Whole(s.file)
    ensures Begins(s)
  {
  }

  lemma ReducedNotStuck(s: System)
    requires s.run.Reduced? && s.run.base.context.Some?
    ensures Works(s)
  {
  }

  lemma WorksNotStuck(s: System)
    requires !s.run.Reduced?
    ensures Works(s)
  {
  }

  lemma SavesNotStuck(s: System)
    ensures Saves(s)
  {
  }

  lemma RunNotStuck(s: System)
    requires AllGood(s) && Whole(s.file)
    ensures RunMoves(s)
  {
    BeginsNotStuck(s);
    SavesNotStuck(s);
    if s.run.Reduced? {
      ReducedNotStuck(s);
    } else {
      WorksNotStuck(s);
    }
  }

  lemma IngestNotStuck(s: System)
    requires s.mem.context.Some?
    ensures IngestMoves(s)
  {
  }

  lemma CrashAnywhere(s: System, now: Time, n: nat)
    ensures Enabled(s, Crash(now, Nothing)) && (n <= |s.past| ==> Enabled(s, Crash(now, Power(n))))
  {
  }

  lemma KnownOf(lib: Library, trace: seq<System>, actions: seq<Action>, now: Time, i: nat)
    requires Execution(lib, trace, actions, now) && i < |trace|
    ensures AllGood(trace[i]) && Storage(trace[i])
  {
    Reachable(lib, trace, actions, now, i);
  }

  /** No reachable state is stuck: each thread can take its next step as soon as it can have the
      lock it needs, a failure is as possible as a success wherever the store can fail, and the
      process may crash at any point, with or without a power loss. The threads never wait for
      each other's locks at once. */
  lemma NeverStuck(lib: Library, trace: seq<System>, actions: seq<Action>, now: Time, i: nat)
    requires Execution(lib, trace, actions, now) && i < |trace|
    ensures RunMoves(trace[i]) && IngestMoves(trace[i])
    ensures !(RunSaving(trace[i]) && IngestSaving(trace[i]))
    ensures forall at: Time :: Enabled(trace[i], Crash(at, Nothing))
    ensures forall at: Time, n: nat :: n <= |trace[i].past| ==> Enabled(trace[i], Crash(at, Power(n)))
  {
    KnownOf(lib, trace, actions, now, i);
    RunNotStuck(trace[i]);
    IngestNotStuck(trace[i]);
    forall at: Time, n: nat
      ensures Enabled(trace[i], Crash(at, Nothing)) && (n <= |trace[i].past| ==> Enabled(trace[i], Crash(at, Power(n))))
    {
      CrashAnywhere(trace[i], at, n);
    }
  }

  /** A step that cannot take anything from memory. */
  predicate LeavesMemory(s: System, a: Action)
    requires Enabled(s, a)
  {
    match a
    case Write(_) => Messages(s.mem) == Messages(s.run.base) && s.mem.systemPrompt == s.run.base.systemPrompt
    case Recover => s.run.loaded.Some? ==> Keeps(s.mem, s.run.loaded.value)
    case IngestApply(_) =>
      s.ingest.message.payload.SystemPrompt? ==> s.ingest.message.payload.prompt == s.mem.systemPrompt
    case Crash(_, _) => Messages(s.mem) == [] && s.mem.goals == [] && s.mem.systemPrompt == ""
    case _ => true
  }

  /** Which steps keep all that is in memory, and so all that was ever ingested into it: a
      reducer write exactly when neither a message nor another system prompt came in since
      its input was read; a recovery exactly when the state it loaded has it all, which
      `RecoverKeepsMemoryIff` traces to what came in since the load; an ingest unless it sets
      another prompt; a crash when there was nothing; all others always. */
  lemma StepKeepsMemoryIff(lib: Library, trace: seq<System>, actions: seq<Action>, now: Time, i: nat)
    requires Execution(lib, trace, actions, now) && i < |actions|
    ensures Keeps(trace[i].mem, trace[i + 1].mem) <==> LeavesMemory(trace[i], actions[i])
  {
    var s, a := trace[i], actions[i];
    Reachable(lib, trace, actions, now, i);
    if a.Write? {
      WriteKeepsIff(lib, s, a.newID);
    } else if a.IngestApply? {
      IngestKeepsIff(lib, s, a.id);
    } else {
      OtherStepKeepsIff(lib, s, a);
    }
  }

  lemma IngestKeepsIff(lib: Library, s: System, id: string)
    requires Enabled(s, IngestApply(id)) && AllGood(s) && Storage(s)
    ensures Keeps(s.mem, Do(lib, s, IngestApply(id)).mem) <==> LeavesMemory(s, IngestApply(id))
  {
    GoalsStayDisciplined(s.mem.goals, s.ingest.message.payload, id);
    ReduceExtendsConversation(lib, s.mem, s.ingest.message, id);
  }

  lemma OtherStepKeepsIff(lib: Library, s: System, a: Action)
    requires Enabled(s, a) && !a.Write? && !a.IngestApply?
    ensures Keeps(s.mem, Do(lib, s, a).mem) <==> LeavesMemory(s, a)
  {
    if !a.Recover? && !a.Crash? {
      assert Do(lib, s, a).mem == s.mem;
    }
  }

  lemma WriteKeepsIff(lib: Library, s: System, newID: string)
    requires Enabled(s, Write(newID)) && Ahead(s.run.base, s.mem) && Good(s.run.base) && FromRun([s.run.event])
    ensures Keeps(s.mem, Do(lib, s, Write(newID)).mem) <==>
      Messages(s.mem) == Messages(s.run.base) && s.mem.systemPrompt == s.run.base.systemPrompt
  {
    ReducedKeepsIff(lib, s.run.base, s.mem, s.run.event, newID);
  }

  /** Memory against the reduction of what it was ahead of. */
  lemma ReducedKeepsIff(lib: Library, base: State, mem: State, e: Event, newID: string)
    requires Good(base) && Ahead(base, mem) && FromRun([e])
    ensures Keeps(mem, Reduce(lib, base, e, newID)) <==>
      Messages(mem) == Messages(base) && mem.systemPrompt == base.systemPrompt
  {
    assert e in [e];
    GrownFromBase(Messages(base), Messages(mem), Said(e.payload));
    GoalsStayDisciplined(base.goals, e.payload, newID);
    assert Messages(Reduce(lib, base, e, newID)) == Messages(base) + Said(e.payload);
  }

  /** A conversation grown by user messages is not a prefix of one grown otherwise. */
  lemma GrownFromBase(base: seq<Message>, before: seq<Message>, said: seq<Message>)
    requires base <= before && forall k :: |base| <= k < |before| ==> before[k].role == UserRole
    requires forall m :: m in said ==> m.role != UserRole
    ensures before <= base + said <==> before == base
  {
    if before != base {
      assert before[|base|].role == UserRole;
      assert said != [] ==> said[0] in said && (base + said)[|base|] == said[0];
    }
  }

  /** Left alone, the read, write and queue steps of one event are one reduction of memory. */
  lemma UninterruptedApply(lib: Library, s: System, newID: string)
    requires s.run.Applying? && s.run.events != [] && Unlocked(s) && !Panics(s.mem, s.run.events[0])
    ensures Enabled(s, Read) && Enabled(Do(lib, s, Read), Write(newID))
    ensures Enabled(Do(lib, Do(lib, s, Read), Write(newID)), Queue)
    ensures var e := s.run.events[0];
      Do(lib, Do(lib, Do(lib, s, Read), Write(newID)), Queue) ==
        s.(mem := Reduce(lib, s.mem, e, newID), pending := s.pending + Commands(lib, e), run := Applying(s.run.events[1..]))
  {
  }

  // ---------------------------------------------------------------------------
  // Messages that are lost although they were logged and saved
  // ---------------------------------------------------------------------------

  /** These steps lead from one state to the other. */
  predicate Leads(lib: Library, s: System, actions: seq<Action>, n: System)
    decreases |actions|
  {
    if actions == [] then n == s
    else Enabled(s, actions[0]) && Leads(lib, Do(lib, s, actions[0]), actions[1..], n)
  }

  lemma LeadsOne(lib: Library, s: System, a: Action)
    requires Enabled(s, a)
    ensures Leads(lib, s, [a], Do(lib, s, a))
  {
    assert [a][1..] == [];
  }

  lemma {:induction false} LeadsOn(
      lib: Library, s: System, first: seq<Action>, m: System, second: seq<Action>, n: System)
    requires Leads(lib, s, first, m) && Leads(lib, m, second, n)
    ensures Leads(lib, s, first + second, n)
    decreases |first|
  {
    if first == [] {
      assert first + second == second;
    } else {
      var all, next := first + second, Do(lib, s, first[0]);
      LeadsOn(lib, next, first[1..], m, second, n);
      HeadAndRest(first, second);
      assert Leads(lib, next, all[1..], n);
    }
  }

  lemma HeadAndRest(first: seq<Action>, second: seq<Action>)
    requires first != []
    ensures (first + second)[0] == first[0] && (first + second)[1..] == first[1..] + second
  {
  }

  lemma LeadsOneMore(lib: Library, s: System, first: seq<Action>, m: System, a: Action)
    requires Leads(lib, s, first, m) && Enabled(m, a)
    ensures Leads(lib, s, first + [a], Do(lib, m, a))
  {
    LeadsOne(lib, m, a);
    LeadsOn(lib, s, first, m, [a], Do(lib, m, a));
  }

  /** A message said while the runtime lock is free, and not yet saved. */
  function Heard(lib: Library, s: System, said: Event, id: string): System
    requires !Panics(s.mem, said)
  {
    s.(log := s.log + [said], mem := Reduce(lib, s.mem, said, id), ingest := Ingested(Begin))
  }

  lemma HearingLeads(lib: Library, s: System, said: Event, id: string)
    requires Good(s.mem) && s.ingest == Quiet && s.live && !RunSaving(s) && said.payload.UserMessage?
    ensures Leads(lib, s, [IngestLog(said)] + [IngestApply(id)], Heard(lib, s, said, id))
    ensures Messages(Heard(lib, s, said, id).mem) == Messages(s.mem) + [UserText(said.payload.content)]
  {
    var logged := Do(lib, s, IngestLog(said));
    LeadsOne(lib, s, IngestLog(said));
    LeadsOneMore(lib, s, [IngestLog(said)], logged, IngestApply(id));
    assert s.pending + Commands(lib, said) == s.pending;
  }

  /** The state in memory put into the state file. */
  function Saved(s: System): System {
    s.(file := Durable(s.mem), temp := Absent, past := s.past + [OnDisk(s)], ingest := Quiet)
  }

  const SAVING := [IngestSaveStep] + [IngestSaveStep] + [IngestSaveStep] + [IngestSaveStep]

  lemma SavingLeads(lib: Library, s: System)
    requires s.ingest == Ingested(Begin) && !RunSaving(s)
    ensures Leads(lib, s, SAVING, Saved(s))
  {
    var a := IngestSaveStep;
    var s1 := Do(lib, s, a);
    LeadsOne(lib, s, a);
    var s2 := Do(lib, s1, a);
    LeadsOneMore(lib, s, [a], s1, a);
    var s3 := Do(lib, s2, a);
    LeadsOneMore(lib, s, [a] + [a], s2, a);
    LeadsOneMore(lib, s, [a] + [a] + [a], s3, a);
  }

  /** A message said, logged and saved. */
  lemma SaidAndSaved(lib: Library, s: System, said: Event, id: string)
    requires Good(s.mem) && s.ingest == Quiet && s.live && !RunSaving(s) && said.payload.UserMessage?
    ensures var saved := Saved(Heard(lib, s, said, id));
      && Leads(lib, s, [IngestLog(said)] + [IngestApply(id)] + SAVING, saved)
      && Messages(saved.mem) == Messages(s.mem) + [UserText(said.payload.content)]
      && saved.file == Durable(saved.mem) && said in saved.log && saved.run == s.run && saved.ingest == Quiet
  {
    var heard := Heard(lib, s, said, id);
    HearingLeads(lib, s, said, id);
    SavingLeads(lib, heard);
    LeadsOn(lib, s, [IngestLog(said)] + [IngestApply(id)], heard, SAVING, Saved(heard));
  }

  /** A message ingested while an event is being reduced: it is logged and saved, but after the
      write memory is what it would have been had nobody spoken. */
  lemma IngestDuringReduceIsDropped(lib: Library, s: System, said: Event, id: string, newID: string)
    requires Invariant(s) && s.run.Reduced? && s.ingest == Quiet && s.live && said.payload.UserMessage?
    ensures var saved := Saved(Heard(lib, s, said, id));
      && Leads(lib, s, [IngestLog(said)] + [IngestApply(id)] + SAVING, saved)
      && Messages(saved.mem) == Messages(s.mem) + [UserText(said.payload.content)]
      && saved.file == Durable(saved.mem) && said in saved.log
      && Enabled(saved, Write(newID)) && Enabled(s, Write(newID))
      && Do(lib, saved, Write(newID)).mem == Do(lib, s, Write(newID)).mem
  {
    SaidAndSaved(lib, s, said, id);
  }

  /** The same between the two steps of a recovery: afterwards memory is what was loaded. */
  lemma IngestDuringRecoveryIsDropped(lib: Library, s: System, said: Event, id: string)
    requires Invariant(s) && s.run.Recovering? && s.run.loaded.Some? && s.ingest == Quiet && s.live
    requires said.payload.UserMessage?
    ensures var saved := Saved(Heard(lib, s, said, id));
      && Leads(lib, s, [IngestLog(said)] + [IngestApply(id)] + SAVING, saved)
      && Messages(saved.mem) == Messages(s.mem) + [UserText(said.payload.content)]
      && saved.file == Durable(saved.mem) && said in saved.log
      && Enabled(saved, Recover) && Do(lib, saved, Recover).mem == s.run.loaded.value
  {
    SaidAndSaved(lib, s, said, id);
  }

  /** One event reduced without a disturbance. */
  function AfterReducing(lib: Library, s: System, newID: string): System
    requires s.run.Applying? && s.run.events != [] && !Panics(s.mem, s.run.events[0])
  {
    var e := s.run.events[0];
    s.(mem := Reduce(lib, s.mem, e, newID), pending := s.pending + Commands(lib, e), run := Applying(s.run.events[1..]))
  }

  lemma ReducingLeads(lib: Library, s: System, newID: string)
    requires s.run.Applying? && s.run.events != [] && Unlocked(s) && !Panics(s.mem, s.run.events[0])
    ensures Leads(lib, s, [Read] + [Write(newID)] + [Queue], AfterReducing(lib, s, newID))
  {
    var read := Do(lib, s, Read);
    LeadsOne(lib, s, Read);
    LeadsOneMore(lib, s, [Read], read, Write(newID));
    LeadsOneMore(lib, s, [Read] + [Write(newID)], Do(lib, read, Write(newID)), Queue);
  }

  const GIVING_UP := [EndApply(true)] + [Copy] + [SaveFail] + [GiveUp]

  /** A checkpoint that cannot be saved, and the end of the run. */
  lemma GivingUpLeads(lib: Library, s: System)
    requires s.run == Applying([]) && s.ingest == Quiet
    ensures Leads(lib, s, GIVING_UP, s.(run := Stopped(false)))
  {
    var s1 := Do(lib, s, EndApply(true));
    LeadsOne(lib, s, EndApply(true));
    var s2 := Do(lib, s1, Copy);
    LeadsOneMore(lib, s, [EndApply(true)], s1, Copy);
    var s3 := Do(lib, s2, SaveFail);
    LeadsOneMore(lib, s, [EndApply(true)] + [Copy], s2, SaveFail);
    LeadsOneMore(lib, s, [EndApply(true)] + [Copy] + [SaveFail], s3, GiveUp);
  }

  /** The recovery of the next run. */
  lemma RecoveringLeads(lib: Library, s: System) returns (n: System)
    requires s.run.Stopped? && s.ingest == Quiet && s.file.Durable?
    ensures Leads(lib, s, [Load] + [Recover], n)
    ensures n.mem == s.file.durable && n.run == Top && n.log == s.log
  {
    var loaded := Do(lib, s, Load);
    LeadsOne(lib, s, Load);
    LeadsOneMore(lib, s, [Load], loaded, Recover);
    n := Do(lib, loaded, Recover);
  }

  /** An answer that is reduced in the last step of a run whose checkpoint cannot be saved: the
      next run recovers the state before it, though the answer is in the log. */
  lemma UnsavedAnswerIsForgotten(lib: Library, s: System, newID: string) returns (n: System)
    requires s.run.Applying? && |s.run.events| == 1 && s.run.events[0].payload.LLMResponse?
    requires Good(s.mem) && s.ingest == Quiet && s.file == Durable(s.mem) && s.run.events[0] in s.log
    ensures var reduced := AfterReducing(lib, s, newID);
      && Leads(lib, s, [Read] + [Write(newID)] + [Queue], reduced)
      && |Messages(reduced.mem)| == |Messages(s.mem)| + 1
      && Leads(lib, reduced, GIVING_UP + ([Load] + [Recover]), n)
    ensures n.mem == s.mem && n.run == Top && s.run.events[0] in n.log
  {
    var reduced := AfterReducing(lib, s, newID);
    ReducingLeads(lib, s, newID);
    GivingUpLeads(lib, reduced);
    n := RecoveringLeads(lib, reduced.(run := Stopped(false)));
    LeadsOn(lib, reduced, GIVING_UP, reduced.(run := Stopped(false)), [Load] + [Recover], n);
  }

  /** No message came in between these steps. */
  ghost predicate NothingSaid(trace: seq<System>, actions: seq<Action>, i: nat, j: nat)
    requires i <= j <= |actions| < |trace|
  {
    forall k :: i < k < j && actions[k].IngestApply? && trace[k].ingest.Logged? ==>
      !trace[k].ingest.message.payload.UserMessage?
  }

  lemma NothingSaidOn(trace: seq<System>, actions: seq<Action>, i: nat, j: nat)
    requires i < j < |actions| < |trace|
    ensures NothingSaid(trace, actions, i, j + 1) <==>
      NothingSaid(trace, actions, i, j) &&
      (actions[j].IngestApply? && trace[j].ingest.Logged? ==> !trace[j].ingest.message.payload.UserMessage?)
  {
  }

  lemma RecoveryStarts(lib: Library, s: System)
    requires Enabled(s, Load)
    ensures Do(lib, s, Load).mem == s.mem && Do(lib, s, Load).run.Recovering?
  {
  }

  lemma {:induction false} RecoveryWaits(
      lib: Library, trace: seq<System>, actions: seq<Action>, now: Time, i: nat, j: nat)
    requires Execution(lib, trace, actions, now) && i < j < |trace| && actions[i] == Load
    requires forall k :: i < k < j ==> !actions[k].Recover? && !actions[k].Crash?
    ensures trace[j].run == trace[i + 1].run && trace[j].run.Recovering? && Ahead(trace[i].mem, trace[j].mem)
    ensures Messages(trace[j].mem) == Messages(trace[i].mem) <==> NothingSaid(trace, actions, i, j)
  {
    var k := j - 1;
    StepOf(lib, trace, actions, now, k);
    if k == i {
      RecoveryStarts(lib, trace[i]);
    } else {
      RecoveryWaits(lib, trace, actions, now, i, k);
      NothingSaidOn(trace, actions, i, k);
      WaitingStep(lib, trace[k], actions[k], trace[i].mem);
    }
  }

  lemma WaitingLeaves(lib: Library, s: System, a: Action)
    requires Enabled(s, a) && s.run.Recovering? && !a.Recover? && !a.Crash?
    ensures Do(lib, s, a).run == s.run && (!a.IngestApply? ==> Do(lib, s, a).mem == s.mem)
  {
  }

  lemma IngestAhead(lib: Library, base: State, mem: State, e: Event, id: string)
    requires FromUser(e) && !Panics(mem, e) && Ahead(base, mem)
    ensures var n := Reduce(lib, mem, e, id);
      && Ahead(base, n)
      && |Messages(n)| == |Messages(mem)| + (if e.payload.UserMessage? then 1 else 0)
      && (e.payload.SystemPrompt? ==> Messages(n) == Messages(mem))
  {
  }

  lemma WaitingStep(lib: Library, s: System, a: Action, base: State)
    requires Enabled(s, a) && s.run.Recovering? && !a.Recover? && !a.Crash? && Storage(s) && Ahead(base, s.mem)
    ensures var n := Do(lib, s, a);
      && n.run == s.run && Ahead(base, n.mem)
      && if a.IngestApply? && s.ingest.message.payload.UserMessage?
         then |Messages(n.mem)| > |Messages(s.mem)| else Messages(n.mem) == Messages(s.mem)
  {
    WaitingLeaves(lib, s, a);
    if a.IngestApply? {
      IngestAhead(lib, base, s.mem, s.ingest.message, a.id);
    }
  }

  /** A recovery in a process whose memory was in the state file when it was read keeps all of
      memory exactly if neither a message nor another system prompt came in since; with no
      state file it always does. */
  lemma RecoverKeepsMemoryIff(
      lib: Library, trace: seq<System>, actions: seq<Action>, now: Time, i: nat, j: nat)
    requires Execution(lib, trace, actions, now) && i < j < |actions| && actions[i] == Load && actions[j] == Recover
    requires forall k :: i < k < j ==> !actions[k].Recover? && !actions[k].Crash?
    ensures trace[i].file == Durable(trace[i].mem) ==>
      (Keeps(trace[j].mem, trace[j + 1].mem) <==>
         NothingSaid(trace, actions, i, j) && trace[j].mem.systemPrompt == trace[i].mem.systemPrompt)
    ensures trace[i].file == Absent ==> trace[j + 1].mem == trace[j].mem
  {
    RecoveryWaits(lib, trace, actions, now, i, j);
  }

  // ---------------------------------------------------------------------------
  // What a checkpoint leaves in the file
  // ---------------------------------------------------------------------------

  /** The rename that ends a checkpoint's save leaves all of memory in the state file exactly if
      neither a message nor another system prompt came in since the checkpoint took its copy. */
  lemma SaveKeepsMemoryIff(lib: Library, trace: seq<System>, actions: seq<Action>, now: Time, i: nat)
    requires Execution(lib, trace, actions, now) && i < |actions|
    requires actions[i] == SaveStep && trace[i].run.phase == Flushed
    ensures trace[i + 1].file == Durable(trace[i].run.copy) && trace[i + 1].mem == trace[i].mem
    ensures Keeps(trace[i].mem, trace[i + 1].file.durable) <==>
      Messages(trace[i].mem) == Messages(trace[i].run.copy)
      && trace[i].mem.systemPrompt == trace[i].run.copy.systemPrompt
  {
    Reachable(lib, trace, actions, now, i);
  }

  /** The copy a checkpoint took put into the state file. */
  function CheckpointSaved(s: System): System
    requires s.run.Saving?
  {
    s.(file := Durable(s.run.copy), temp := Absent, past := s.past + [OnDisk(s)],
       run := Recording(s.run.copy, s.run.last))
  }

  const COPYING := [SaveStep] + [SaveStep] + [SaveStep] + [SaveStep]

  lemma CopyingLeads(lib: Library, s: System)
    requires s.run.Saving? && s.run.phase == Begin && s.ingest == Quiet
    ensures Leads(lib, s, COPYING, CheckpointSaved(s))
  {
    var a := SaveStep;
    var s1 := Do(lib, s, a);
    LeadsOne(lib, s, a);
    var s2 := Do(lib, s1, a);
    LeadsOneMore(lib, s, [a], s1, a);
    var s3 := Do(lib, s2, a);
    LeadsOneMore(lib, s, [a] + [a], s2, a);
    LeadsOneMore(lib, s, [a] + [a] + [a], s3, a);
  }

  /** A message ingested after a checkpoint took its copy: its own save has the message, and the
      checkpoint's save then puts a state without it in the file. */
  lemma IngestDuringCheckpointLeavesTheFile(lib: Library, s: System, said: Event, id: string)
    requires Invariant(s) && s.run.Saving? && s.run.phase == Begin && s.ingest == Quiet && s.live
    requires said.payload.UserMessage?
    ensures var saved := Saved(Heard(lib, s, said, id)); var over := CheckpointSaved(saved);
      && Leads(lib, s, [IngestLog(said)] + [IngestApply(id)] + SAVING, saved) && Leads(lib, saved, COPYING, over)
      && Messages(saved.mem) == Messages(s.mem) + [UserText(said.payload.content)]
      && saved.file == Durable(saved.mem) && said in saved.log
      && over.mem == saved.mem && over.file == Durable(s.run.copy) && !Keeps(over.mem, s.run.copy)
  {
    var saved := Saved(Heard(lib, s, said, id));
    SaidAndSaved(lib, s, said, id);
    CopyingLeads(lib, saved);
    assert |Messages(s.run.copy)| <= |Messages(s.mem)| < |Messages(saved.mem)|;
  }
}
