/** What one event does to a state, part by part, and what becomes of goals over a history. */
module Reducing {
  import opened Wrappers
  import opened States

  // ---------------------------------------------------------------------------
  // The conversation
  // ---------------------------------------------------------------------------

  /** One message more, at the end, of this role and with these contents. */
  ghost predicate Adds(before: seq<Message>, after: seq<Message>, role: Role, content: string, calls: seq<ToolCall>) {
    && |after| == |before| + 1 && before <= after
    && after[|before|].role == role && after[|before|].content == content && after[|before|].toolCalls == calls
  }

  /** A user message and a response are added as they are, but that an empty response becomes a
      blank; a tool result is added under its call's id and name, a failed one as its error;
      nothing else is said. */
  lemma MessageIsAdded(lib: Library, s: State, e: Event, newID: string)
    requires s.context.Some?
    ensures var before, after := Messages(s), Messages(Reduce(lib, s, e, newID));
      match e.payload
      case UserMessage(content) => Adds(before, after, UserRole, content, [])
      case LLMResponse("", calls) => Adds(before, after, AssistantRole, " ", calls)
      case LLMResponse(reply, calls) => Adds(before, after, AssistantRole, reply, calls)
      case ToolResult(id, name, true, output, _) =>
        Adds(before, after, ToolRole, output, []) && after[|before|].toolCallID == id && after[|before|].toolName == name
      case ToolResult(id, name, false, _, error) =>
        Adds(before, after, ToolRole, "Error: " + error, [])
        && after[|before|].toolCallID == id && after[|before|].toolName == name
      case _ => after == before
  {
  }

  /** The system prompt is what such an event last set; the time is the event's; the version
      counts; all else but conversation, goals and artifacts is as it was. */
  lemma OnlyTheseChange(lib: Library, s: State, e: Event, newID: string)
    requires s.context.Some?
    ensures var n := Reduce(lib, s, e, newID);
      && n.version == s.version + 1 && n.updatedAt == e.at
      && (match e.payload case SystemPrompt(prompt) => n.systemPrompt == prompt case _ => n.systemPrompt == s.systemPrompt)
      && n.mode == s.mode && n.planContent == s.planContent && n.tasks == s.tasks && n.locks == s.locks
      && n.context == Some(s.context.value.(messages := Messages(n)))
  {
  }

  // ---------------------------------------------------------------------------
  // Commands
  // ---------------------------------------------------------------------------

  /** A response queues one call for each of its tool calls, in order. Arguments that are
      missing or cannot be decoded become an empty object. Nothing else queues anything. */
  lemma OnlyResponsesQueue(lib: Library, e: Event)
    ensures match e.payload
      case LLMResponse(_, calls) =>
        && |Commands(lib, e)| == |calls|
        && forall i :: 0 <= i < |calls| ==>
          var cmd, decoded := Commands(lib, e)[i], lib.decodeArguments(calls[i].arguments);
          && cmd.CallTool? && cmd.callID == calls[i].id && cmd.toolName == calls[i].name
          && (calls[i].arguments == "" || decoded.Err? ==> cmd.arguments == Some(map[]))
          && (calls[i].arguments != "" && decoded.Ok? ==> cmd.arguments == decoded.value)
      case _ => Commands(lib, e) == []
  {
  }

  // ---------------------------------------------------------------------------
  // Artifacts
  // ---------------------------------------------------------------------------

  /** Which call of this list an id finds: the first that has it. */
  predicate IsCall(calls: seq<ToolCall>, c: nat, id: string) {
    c < |calls| && calls[c].id == id && forall d :: 0 <= d < c ==> calls[d].id != id
  }

  /** An assistant message in which it finds one, with none later. */
  ghost predicate IsCaller(messages: seq<Message>, m: nat, id: string) {
    && m < |messages| && messages[m].role == AssistantRole && (exists c: nat :: IsCall(messages[m].toolCalls, c, id))
    && forall l, d :: m < l < |messages| && messages[l].role == AssistantRole && 0 <= d < |messages[l].toolCalls| ==>
      messages[l].toolCalls[d].id != id
  }

  lemma {:induction false} FoundInList(calls: seq<ToolCall>, id: string)
    ensures FindIn(calls, id).Some? ==> exists c: nat :: IsCall(calls, c, id) && FindIn(calls, id) == Some(calls[c])
    ensures FindIn(calls, id).None? ==> forall d :: 0 <= d < |calls| ==> calls[d].id != id
  {
    if calls != [] && calls[0].id != id {
      FoundInList(calls[1..], id);
      if FindIn(calls, id).Some? {
        var c: nat :| IsCall(calls[1..], c, id) && FindIn(calls[1..], id) == Some(calls[1..][c]);
        assert forall d :: 0 < d < c + 1 ==> calls[d] == calls[1..][d - 1];
        assert IsCall(calls, c + 1, id);
      } else {
        assert forall d :: 0 < d < |calls| ==> calls[d] == calls[1..][d - 1];
      }
    } else if calls != [] {
      assert IsCall(calls, 0, id);
    }
  }

  /** The call an id finds in a conversation. */
  ghost predicate Finds(messages: seq<Message>, id: string, call: ToolCall) {
    exists m: nat, c: nat ::
      IsCaller(messages, m, id) && IsCall(messages[m].toolCalls, c, id) && messages[m].toolCalls[c] == call
  }

  lemma CallerOn(messages: seq<Message>, m: nat, id: string)
    requires messages != [] && IsCaller(messages[..|messages| - 1], m, id)
    requires var last := messages[|messages| - 1];
      last.role == AssistantRole ==> forall d :: 0 <= d < |last.toolCalls| ==> last.toolCalls[d].id != id
    ensures IsCaller(messages, m, id)
  {
    var init := messages[..|messages| - 1];
    assert init[m] == messages[m];
    forall l, d | m < l < |messages| && messages[l].role == AssistantRole && 0 <= d < |messages[l].toolCalls|
      ensures messages[l].toolCalls[d].id != id
    {
      assert l < |init| ==> init[l] == messages[l];
    }
  }

  lemma {:induction false} FoundInConversation(messages: seq<Message>, id: string)
    ensures FindCall(messages, id).Some? ==> Finds(messages, id, FindCall(messages, id).value)
    ensures FindCall(messages, id).None? ==>
      forall m, d :: 0 <= m < |messages| && messages[m].role == AssistantRole && 0 <= d < |messages[m].toolCalls| ==>
        messages[m].toolCalls[d].id != id
  {
    if messages != [] {
      var n := |messages| - 1;
      var init, last := messages[..n], messages[n];
      FoundInList(last.toolCalls, id);
      if last.role == AssistantRole && FindIn(last.toolCalls, id).Some? {
        var c: nat :| IsCall(last.toolCalls, c, id) && FindIn(last.toolCalls, id) == Some(last.toolCalls[c]);
        assert IsCaller(messages, n, id);
      } else {
        FoundInConversation(init, id);
        if FindCall(init, id).Some? {
          var m: nat, c: nat :|
            IsCaller(init, m, id) && IsCall(init[m].toolCalls, c, id) && init[m].toolCalls[c] == FindCall(init, id).value;
          CallerOn(messages, m, id);
          assert init[m] == messages[m];
        } else {
          forall m, d | 0 <= m < |messages| && messages[m].role == AssistantRole && 0 <= d < |messages[m].toolCalls|
            ensures messages[m].toolCalls[d].id != id
          {
            assert m < n ==> init[m] == messages[m];
          }
        }
      }
    }
  }

  /** It finds at most one. */
  lemma FindsOne(messages: seq<Message>, id: string, call: ToolCall)
    requires Finds(messages, id, call)
    ensures FindCall(messages, id) == Some(call)
  {
    var m: nat, c: nat :| IsCaller(messages, m, id) && IsCall(messages[m].toolCalls, c, id) && messages[m].toolCalls[c] == call;
    FoundInConversation(messages, id);
    var other := FindCall(messages, id).value;
    var m': nat, c': nat :|
      IsCaller(messages, m', id) && IsCall(messages[m'].toolCalls, c', id) && messages[m'].toolCalls[c'] == other;
    assert m == m';
    assert c == c';
  }

  lemma ResultFindsNothing(messages: seq<Message>, result: Message, id: string)
    requires result.role == ToolRole
    ensures FindCall(messages + [result], id) == FindCall(messages, id)
  {
    assert (messages + [result])[..|messages|] == messages;
  }

  /** An artifact is filed if and only if a `create_file` succeeded whose call the conversation
      has, with a path in its arguments; it is a file of that path. */
  lemma ArtifactIsFiledIff(lib: Library, s: State, e: Event, newID: string)
    requires s.context.Some? && newID !in s.artifacts
    ensures var after := Reduce(lib, s, e, newID).artifacts;
      && (newID in after <==>
            e.payload.ToolResult? && e.payload.toolName == "create_file" && e.payload.success
            && exists call :: Finds(Messages(s), e.payload.callID, call)
                 && lib.decodePath(call.arguments).Some? && lib.decodePath(call.arguments).value != "")
      && (newID !in after ==> after == s.artifacts)
      && (newID in after ==>
            && after == s.artifacts[newID := after[newID]] && after[newID].id == newID && after[newID].kind == "file"
            && after[newID].name == lib.basename(after[newID].path) && after[newID].createdAt == e.at
            && exists call :: Finds(Messages(s), e.payload.callID, call)
                 && lib.decodePath(call.arguments) == Some(after[newID].path))
  {
    if e.payload.ToolResult? {
      var id := e.payload.callID;
      ResultFindsNothing(Messages(s), ToolText(e.payload), id);
      FoundInConversation(Messages(s), id);
      forall call | Finds(Messages(s), id, call) ensures FindCall(Messages(s), id) == Some(call) {
        FindsOne(Messages(s), id, call);
      }
    }
  }

  // ---------------------------------------------------------------------------
  // Goals
  // ---------------------------------------------------------------------------

  /** A `task_complete` that succeeded, or an answer that calls nothing and says something. */
  predicate FinishesGoal(p: Payload) {
    || (p.ToolResult? && p.toolName == "task_complete" && p.success)
    || (p.LLMResponse? && p.toolCalls == [] && p.reply != "" && p.reply != " ")
  }

  predicate Open(g: Goal) {
    g.status == Pending || g.status == InProgress
  }

  /** An open goal with none before it is completed exactly by an event that finishes goals, and
      nothing but its status changes then; otherwise, and every other goal, is as it was. */
  lemma GoalIsCompletedIff(lib: Library, s: State, e: Event, newID: string, i: nat)
    requires s.context.Some? && i < |s.goals| && Open(s.goals[i]) && forall j :: 0 <= j < i ==> !Open(s.goals[j])
    ensures var after := Reduce(lib, s, e, newID).goals;
      && |after| >= |s.goals|
      && (after[i].status == Completed <==> FinishesGoal(e.payload))
      && after[i] == s.goals[i].(status := if FinishesGoal(e.payload) then Completed else s.goals[i].status)
      && forall j :: 0 <= j < |s.goals| && j != i ==> after[j] == s.goals[j]
  {
    FirstOpen(s.goals, i);
  }

  lemma FirstOpen(goals: seq<Goal>, i: nat)
    requires i <= |goals| && (i < |goals| ==> Open(goals[i])) && forall j :: 0 <= j < i ==> !Open(goals[j])
    ensures FirstActive(goals) == i
  {
  }

  /** A goal is added exactly for a user message when none is open; it is what the user said,
      and pending. With none open nothing else changes a goal. */
  lemma GoalIsAddedIff(lib: Library, s: State, e: Event, newID: string)
    requires s.context.Some?
    ensures var after, closed := Reduce(lib, s, e, newID).goals, forall j :: 0 <= j < |s.goals| ==> !Open(s.goals[j]);
      && (|after| > |s.goals| <==> e.payload.UserMessage? && closed)
      && (|after| > |s.goals| ==>
            && |after| == |s.goals| + 1 && s.goals == after[..|s.goals|]
            && after[|s.goals|].id == newID && after[|s.goals|].description == e.payload.content
            && after[|s.goals|].status == Pending && after[|s.goals|].kind == UserRequest)
      && (|after| <= |s.goals| ==> |after| == |s.goals| && (closed ==> after == s.goals))
  {
    if forall j :: 0 <= j < |s.goals| ==> !Open(s.goals[j]) {
      FirstOpen(s.goals, |s.goals|);
    }
  }

  lemma KeptSoFar(lib: Library, s: State, history: seq<(Event, string)>)
    requires s.context.Some? && Disciplined(s.goals)
    ensures Disciplined(Replay(lib, s, history).goals) && |s.goals| <= |Replay(lib, s, history).goals|
  {
    HistoryOnlyGrows(lib, s, history);
  }

  lemma GoalsAreKept(lib: Library, s: State, history: seq<(Event, string)>, k: nat)
    requires s.context.Some? && Disciplined(s.goals) && k <= |history|
    ensures var goals := Replay(lib, s, history[..k]).goals;
      Disciplined(goals) && |s.goals| <= |goals| <= |Replay(lib, s, history).goals|
  {
    var first, rest := history[..k], history[k..];
    SplitReplay(lib, s, history, k);
    KeptSoFar(lib, s, first);
    KeptSoFar(lib, Replay(lib, s, first), rest);
  }

  lemma SplitReplay(lib: Library, s: State, history: seq<(Event, string)>, k: nat)
    requires s.context.Some? && k <= |history|
    ensures Replay(lib, s, history) == Replay(lib, Replay(lib, s, history[..k]), history[k..])
  {
    SplitAt(history, k);
    ReplayConcat(lib, s, history[..k], history[k..]);
  }

  lemma SplitAt(history: seq<(Event, string)>, k: nat)
    requires k <= |history|
    ensures history[..k] + history[k..] == history
  {
  }

  /** A session starts with nothing said and nothing to do; its version counts its history. */
  lemma NewIsEmpty(lib: Library, now: Time, history: seq<(Event, string)>)
    ensures var s := NewState(now);
      && s.goals == [] && s.tasks == map[] && s.artifacts == map[] && s.locks == map[] && s.updatedAt == now
      && s.systemPrompt == "" && s.mode == "" && s.context.Some? && s.context.value.messages == []
    ensures Replay(lib, NewState(now), history).version == |history|
  {
    HistoryOnlyGrows(lib, NewState(now), history);
  }

  /** This event of a history finished goals when goal i was already there. */
  ghost predicate Finished(lib: Library, s: State, history: seq<(Event, string)>, i: nat, k: nat)
    requires s.context.Some?
  {
    k < |history| && FinishesGoal(history[k].0.payload) && i < |Replay(lib, s, history[..k]).goals|
  }

  lemma FinishedOn(lib: Library, s: State, history: seq<(Event, string)>, i: nat, k: nat)
    requires s.context.Some? && history != [] && k < |history|
    ensures k < |history| - 1 ==>
      (Finished(lib, s, history, i, k) <==> Finished(lib, s, history[..|history| - 1], i, k))
  {
    if k < |history| - 1 {
      assert history[..|history| - 1][..k] == history[..k];
    }
  }

  ghost predicate EverFinished(lib: Library, s: State, history: seq<(Event, string)>, i: nat)
    requires s.context.Some?
  {
    exists k: nat :: Finished(lib, s, history, i, k)
  }

  lemma EverFinishedOn(lib: Library, s: State, history: seq<(Event, string)>, i: nat)
    requires s.context.Some? && history != []
    ensures var n := |history| - 1;
      EverFinished(lib, s, history, i) <==> EverFinished(lib, s, history[..n], i) || Finished(lib, s, history, i, n)
  {
    var n := |history| - 1;
    forall k: nat | k < n ensures Finished(lib, s, history, i, k) <==> Finished(lib, s, history[..n], i, k) {
      FinishedOn(lib, s, history, i, k);
    }
    if EverFinished(lib, s, history, i) {
      var k: nat :| Finished(lib, s, history, i, k);
    }
    if EverFinished(lib, s, history[..n], i) {
      var k: nat :| Finished(lib, s, history[..n], i, k);
      assert Finished(lib, s, history, i, k);
    }
  }

  lemma CompletedStep(lib: Library, m: State, e: Event, newID: string, i: nat)
    requires m.context.Some? && Disciplined(m.goals) && i < |m.goals|
    ensures i < |Reduce(lib, m, e, newID).goals|
    ensures Reduce(lib, m, e, newID).goals[i].status == Completed <==>
      m.goals[i].status == Completed || FinishesGoal(e.payload)
  {
    GoalsStayDisciplined(m.goals, e.payload, newID);
    if m.goals[i].status == Pending {
      GoalIsCompletedIff(lib, m, e, newID, i);
    }
  }

  lemma NewIsOpen(lib: Library, m: State, e: Event, newID: string, i: nat)
    requires m.context.Some? && |m.goals| <= i < |Reduce(lib, m, e, newID).goals|
    ensures Reduce(lib, m, e, newID).goals[i].status == Pending
  {
    GoalIsAddedIff(lib, m, e, newID);
  }

  lemma NotYetThere(lib: Library, s: State, history: seq<(Event, string)>, i: nat)
    requires s.context.Some? && Disciplined(s.goals) && |Replay(lib, s, history).goals| <= i
    ensures !EverFinished(lib, s, history, i)
  {
    forall k: nat ensures !Finished(lib, s, history, i, k) {
      if k < |history| {
        GoalsAreKept(lib, s, history, k);
      }
    }
  }

  /** Over any history a goal is completed exactly if it was at the start, or an event that
      finishes goals came when it was there. */
  lemma {:induction false} GoalIsCompletedOnce(lib: Library, s: State, history: seq<(Event, string)>, i: nat)
    requires s.context.Some? && Disciplined(s.goals) && i < |Replay(lib, s, history).goals|
    ensures Replay(lib, s, history).goals[i].status == Completed <==>
      (i < |s.goals| && s.goals[i].status == Completed) || EverFinished(lib, s, history, i)
    decreases |history|
  {
    if history == [] {
      assert !EverFinished(lib, s, history, i);
    } else {
      var n := |history| - 1;
      var init, e, newID := history[..n], history[n].0, history[n].1;
      var m := Replay(lib, s, init);
      assert Replay(lib, s, history) == Reduce(lib, m, e, newID);
      KeptSoFar(lib, s, init);
      EverFinishedOn(lib, s, history, i);
      assert Finished(lib, s, history, i, n) <==> FinishesGoal(e.payload) && i < |m.goals|;
      if i < |m.goals| {
        GoalIsCompletedOnce(lib, s, init, i);
        CompletedStep(lib, m, e, newID, i);
      } else {
        NewIsOpen(lib, m, e, newID, i);
        NotYetThere(lib, s, init, i);
      }
    }
  }

  /** This event of a history said what goal i is about, when all goals before it were closed. */
  ghost predicate Raised(lib: Library, s: State, history: seq<(Event, string)>, i: nat, k: nat)
    requires s.context.Some?
  {
    && k < |history| && history[k].0.payload.UserMessage?
    && var goals := Replay(lib, s, history[..k]).goals;
    |goals| == i && forall j :: 0 <= j < i ==> goals[j].status == Completed
  }

  /** And each goal added comes from a user message, said when all goals before were completed. */
  lemma {:induction false} GoalIsRaisedOnce(lib: Library, s: State, history: seq<(Event, string)>, i: nat)
    returns (k: nat)
    requires s.context.Some? && Disciplined(s.goals) && |s.goals| <= i < |Replay(lib, s, history).goals|
    ensures Raised(lib, s, history, i, k)
    ensures Replay(lib, s, history).goals[i].description == history[k].0.payload.content
    decreases |history|
  {
    var n := |history| - 1;
    var init, last := history[..n], history[n];
    var m := Replay(lib, s, init);
    GoalsAreKept(lib, s, history, n);
    GoalsStayDisciplined(m.goals, last.0.payload, last.1);
    GoalIsAddedIff(lib, m, last.0, last.1);
    if i < |m.goals| {
      k := GoalIsRaisedOnce(lib, s, init, i);
      assert init[..k] == history[..k] && init[k] == history[k];
    } else {
      k := n;
      assert forall j :: 0 <= j < |m.goals| ==> !Open(m.goals[j]);
    }
  }

  // ---------------------------------------------------------------------------
  // The request
  // ---------------------------------------------------------------------------

  /** This is what the model is sent about a goal: a system message, which without a system
      prompt is the default prompt for the goal and else the prompt, the goal and its status;
      then everything said. */
  ghost predicate ReadsAsRequest(lib: Library, s: State, goal: Goal, request: seq<Message>) {
    && |request| == 1 + |Messages(s)| && request[1..] == Messages(s)
    && request[0].role == SystemRole && request[0].toolCalls == []
    && (s.systemPrompt == "" ==> request[0].content == lib.defaultPrompt(goal.description))
    && (s.systemPrompt != "" ==>
          var status := if goal.status == Pending then "pending" else "in_progress";
          request[0].content == s.systemPrompt + "\n\nCurrent Goal: " + goal.description
            + " (Status: " + status + "). Use 'task_complete' when done.")
  }

  lemma RequestReads(lib: Library, s: State, goal: Goal)
    requires Open(goal)
    ensures ReadsAsRequest(lib, s, goal, Request(lib, s, goal))
  {
  }
}
