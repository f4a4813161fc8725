/** The runtime state as plain values, and the reducer as a function on them.

    `StateHeap` proves that the pointer-based `Clone` and `reducer` of the agent
    compute these values; the run-level modules reason about the function. */
module States {
  import opened Wrappers

  type Time = int

  /** An opaque Go `any`: only its identity matters. */
  datatype Any = Any(handle: int)

  datatype ToolCall = ToolCall(id: string, name: string, arguments: string)

  datatype Role = SystemRole | UserRole | AssistantRole | ToolRole

  datatype Message = Message(
    id: string, role: Role, content: string, toolCalls: seq<ToolCall>,
    toolCallID: string, toolName: string, tokenCount: int, timestamp: Time)

  datatype GoalType = UserRequest | SubTask | Recovery

  datatype GoalStatus = Pending | InProgress | Completed | Failed | Cancelled

  datatype Goal = Goal(
    id: string, kind: GoalType, description: string, priority: int, status: GoalStatus,
    sourceEventID: string, deadline: Option<Time>, maxSteps: int, stepsUsed: int,
    createdAt: Time, updatedAt: Time)

  datatype TaskConstraints = TaskConstraints(
    maxSteps: int, maxTokens: int, timeout: int, allowedTools: Option<seq<string>>, policyLevel: string)

  datatype TaskError = TaskError(code: string, message: string, details: Any)

  datatype TaskStats = TaskStats(steps: int, tokensUsed: int, toolCalls: int, duration: int)

  datatype TaskResult = TaskResult(
    status: string, summary: string, artifacts: Option<seq<string>>, error: Option<TaskError>, stats: TaskStats)

  datatype Task = Task(
    id: string, goalID: string, parentID: string, kind: string, description: string,
    inputs: Option<map<string, Any>>, status: string, constraints: TaskConstraints,
    result: Option<TaskResult>, createdAt: Time, startedAt: Option<Time>, endedAt: Option<Time>)

  datatype Artifact = Artifact(
    id: string, kind: string, name: string, path: string, content: Option<seq<int>>,
    metadata: Option<map<string, string>>, size: int, taskID: string, goalID: string, createdAt: Time)

  datatype Lock = Lock(resource: string, owner: string, kind: string, acquiredAt: Time, expiresAt: Time)

  datatype Context = Context(
    messages: seq<Message>, totalTokens: int, maxTokens: int, reserveOutput: int,
    lastCompactionAt: Option<Time>, compactionCount: int)

  datatype State = State(
    version: int, updatedAt: Time, systemPrompt: string, mode: string, planContent: string,
    goals: seq<Goal>, tasks: map<string, Task>, artifacts: map<string, Artifact>,
    locks: map<string, Lock>, context: Option<Context>)

  datatype Payload =
    | SystemPrompt(prompt: string)
    | UserMessage(content: string)
    | LLMResponse(reply: string, toolCalls: seq<ToolCall>)
    | ToolResult(callID: string, toolName: string, success: bool, output: string, error: string)
    | ErrorReport(commandID: string, message: string)
    | LLMToken(delta: string)
    | PermissionRequest(requestID: string)

  datatype Event = Event(id: string, at: Time, payload: Payload)

  datatype Command =
    | CallLLM(model: string, request: seq<Message>)
    | CallTool(callID: string, toolName: string, arguments: Option<map<string, Any>>)

  /** What the runtime takes from elsewhere: JSON decoding, `filepath.Base`, a fixed text. */
  datatype Library = Library(
    decodeArguments: string -> Result<Option<map<string, Any>>, string>,
    decodePath: string -> Option<string>,
    basename: string -> string,
    defaultPrompt: string -> string)         // the prompt for a goal when no system prompt is set

  function NewState(now: Time): State {
    State(0, now, "", "", "", [], map[], map[], map[], Some(Context([], 0, 0, 0, None, 0)))
  }

  // ---------------------------------------------------------------------------
  // The reducer
  // ---------------------------------------------------------------------------

  predicate Active(g: Goal) {
    g.status == Pending || g.status == InProgress
  }

  /** Index of the first pending or in-progress goal, or the length when there is none. */
  function FirstActive(goals: seq<Goal>): (i: nat)
    ensures i <= |goals|
    ensures i < |goals| ==> Active(goals[i])
    ensures forall j :: 0 <= j < i ==> !Active(goals[j])
  {
    if goals == [] then 0
    else if Active(goals[0]) then 0
    else
      var i := FirstActive(goals[1..]);
      assert forall j :: 1 <= j < 1 + i ==> goals[j] == goals[1..][j - 1];
      1 + i
  }

  function CompleteFirstActive(goals: seq<Goal>): seq<Goal> {
    var i := FirstActive(goals);
    if i == |goals| then goals else goals[i := goals[i].(status := Completed)]
  }

  function FindIn(calls: seq<ToolCall>, id: string): Option<ToolCall> {
    if calls == [] then None
    else if calls[0].id == id then Some(calls[0])
    else FindIn(calls[1..], id)
  }

  /** The call with this id in the latest assistant message that has one. */
  function FindCall(messages: seq<Message>, id: string): Option<ToolCall> {
    if messages == [] then None
    else
      var last := messages[|messages| - 1];
      var here := if last.role == AssistantRole then FindIn(last.toolCalls, id) else None;
      if here.Some? then here else FindCall(messages[..|messages| - 1], id)
  }

  function DecodeArguments(lib: Library, arguments: string): Option<map<string, Any>> {
    if arguments == "" then Some(map[])
    else match lib.decodeArguments(arguments)
      case Ok(args) => args
      case Err(_) => Some(map[])
  }

  function ToolCommands(lib: Library, calls: seq<ToolCall>): (cmds: seq<Command>)
    ensures |cmds| == |calls|
    ensures forall i :: 0 <= i < |calls| ==>
      cmds[i] == CallTool(calls[i].id, calls[i].name, DecodeArguments(lib, calls[i].arguments))
  {
    seq(|calls|, i requires 0 <= i < |calls| =>
      CallTool(calls[i].id, calls[i].name, DecodeArguments(lib, calls[i].arguments)))
  }

  function UserText(content: string): Message {
    Message("", UserRole, content, [], "", "", 0, 0)
  }

  function AssistantText(reply: string, calls: seq<ToolCall>): Message {
    Message("", AssistantRole, if reply == "" then " " else reply, calls, "", "", 0, 0)
  }

  function ToolText(p: Payload): Message
    requires p.ToolResult?
  {
    Message("", ToolRole, if p.success then p.output else "Error: " + p.error, [], p.callID, p.toolName, 0, 0)
  }

  function NewGoal(id: string, content: string): Goal {
    Goal(id, UserRequest, content, 0, Pending, "", None, 0, 0, 0, 0)
  }

  function NewArtifact(lib: Library, id: string, path: string, at: Time): Artifact {
    Artifact(id, "file", lib.basename(path), path, None, None, 0, "", "", at)
  }

  predicate AnswersDirectly(p: Payload)
    requires p.LLMResponse?
  {
    p.toolCalls == [] && p.reply != "" && p.reply != " "
  }

  /** The messages an event adds to the conversation: one, or none. */
  function Said(p: Payload): (ms: seq<Message>)
    ensures |ms| <= 1
  {
    match p
    case UserMessage(content) => [UserText(content)]
    case LLMResponse(reply, calls) => [AssistantText(reply, calls)]
    case ToolResult(_, _, _, _, _) => [ToolText(p)]
    case _ => []
  }

  function GoalsAfter(goals: seq<Goal>, p: Payload, newID: string): seq<Goal> {
    match p
    case UserMessage(content) =>
      if FirstActive(goals) == |goals| then goals + [NewGoal(newID, content)] else goals
    case LLMResponse(_, _) =>
      if AnswersDirectly(p) then CompleteFirstActive(goals) else goals
    case ToolResult(_, name, success, _, _) =>
      if name == "task_complete" && success then CompleteFirstActive(goals) else goals
    case _ => goals
  }

  /** A successful `create_file` records the path its call asked for, if one can be found. */
  function CreatedPath(lib: Library, messages: seq<Message>, p: Payload): Option<string> {
    if p.ToolResult? && p.toolName == "create_file" && p.success then
      match FindCall(messages, p.callID)
      case None => None
      case Some(call) =>
        match lib.decodePath(call.arguments)
        case Some(path) => if path != "" then Some(path) else None
        case None => None
    else None
  }

  function ArtifactsAfter(
    lib: Library, artifacts: map<string, Artifact>, path: Option<string>, at: Time, newID: string): map<string, Artifact>
  {
    if path.Some? then artifacts[newID := NewArtifact(lib, newID, path.value, at)] else artifacts
  }

  /** A message-bearing event needs the context window; without one the reducer panics. */
  predicate Panics(s: State, e: Event) {
    s.context.None? && Said(e.payload) != []
  }

  function Messages(s: State): seq<Message> {
    if s.context.Some? then s.context.value.messages else []
  }

  /** `newID` stands for the one identifier the reducer may generate. */
  function Reduce(lib: Library, s: State, e: Event, newID: string): State
    requires !Panics(s, e)
  {
    var messages := Messages(s) + Said(e.payload);
    s.(version := s.version + 1,
       updatedAt := e.at,
       systemPrompt := if e.payload.SystemPrompt? then e.payload.prompt else s.systemPrompt,
       goals := GoalsAfter(s.goals, e.payload, newID),
       artifacts := ArtifactsAfter(lib, s.artifacts, CreatedPath(lib, messages, e.payload), e.at, newID),
       context := if s.context.Some? then Some(s.context.value.(messages := messages)) else None)
  }

  function Commands(lib: Library, e: Event): seq<Command> {
    if e.payload.LLMResponse? then ToolCommands(lib, e.payload.toolCalls) else []
  }

  // ---------------------------------------------------------------------------
  // Tool calls and their answers, read off the conversation
  // ---------------------------------------------------------------------------

  function CallIDs(calls: seq<ToolCall>): (ids: seq<string>)
    ensures |ids| == |calls|
  {
    seq(|calls|, i requires 0 <= i < |calls| => calls[i].id)
  }

  /** Ids of the tool calls the assistant made, in conversation order. */
  function Called(messages: seq<Message>): seq<string> {
    if messages == [] then []
    else
      var last := messages[|messages| - 1];
      Called(messages[..|messages| - 1]) + (if last.role == AssistantRole then CallIDs(last.toolCalls) else [])
  }

  /** Ids of the tool calls answered by a tool message, in conversation order. */
  function Answered(messages: seq<Message>): seq<string> {
    if messages == [] then []
    else
      var last := messages[|messages| - 1];
      Answered(messages[..|messages| - 1]) + (if last.role == ToolRole then [last.toolCallID] else [])
  }

  /** No tool message precedes the call it answers, and answers come in call order. */
  predicate AnswersFollowCalls(messages: seq<Message>) {
    messages == [] ||
    (AnswersFollowCalls(messages[..|messages| - 1]) && Answered(messages) <= Called(messages))
  }

  /** The id of the call a command makes, if it is a tool call. */
  function CommandID(cmd: Command): seq<string> {
    if cmd.CallTool? then [cmd.callID] else []
  }

  function CommandIDs(cmds: seq<Command>): seq<string> {
    if cmds == [] then [] else CommandID(cmds[0]) + CommandIDs(cmds[1..])
  }

  /** The id of the call an event answers, if it is a tool result. */
  function ResultID(e: Event): seq<string> {
    if e.payload.ToolResult? then [e.payload.callID] else []
  }

  function ResultIDs(events: seq<Event>): seq<string> {
    if events == [] then [] else ResultID(events[0]) + ResultIDs(events[1..])
  }

  lemma {:induction false} CommandIDsConcat(a: seq<Command>, b: seq<Command>)
    ensures CommandIDs(a + b) == CommandIDs(a) + CommandIDs(b)
  {
    if a == [] {
      assert a + b == b;
    } else {
      assert (a + b)[1..] == a[1..] + b;
      CommandIDsConcat(a[1..], b);
    }
  }

  lemma {:induction false} ResultIDsConcat(a: seq<Event>, b: seq<Event>)
    ensures ResultIDs(a + b) == ResultIDs(a) + ResultIDs(b)
  {
    if a == [] {
      assert a + b == b;
    } else {
      assert (a + b)[1..] == a[1..] + b;
      ResultIDsConcat(a[1..], b);
    }
  }

  /** The commands queued for a response carry exactly its call ids, in order. */
  lemma {:induction false} ToolCommandsCarryCallIDs(lib: Library, calls: seq<ToolCall>)
    ensures CommandIDs(ToolCommands(lib, calls)) == CallIDs(calls)
  {
    if calls != [] {
      ToolCommandsCarryCallIDs(lib, calls[1..]);
      assert ToolCommands(lib, calls)[1..] == ToolCommands(lib, calls[1..]);
      assert CallIDs(calls) == [calls[0].id] + CallIDs(calls[1..]);
    } else {
      assert ToolCommands(lib, calls) == [] && CallIDs(calls) == [];
    }
  }

  lemma SaidCounts(messages: seq<Message>, p: Payload)
    ensures Called(messages + Said(p)) == Called(messages) + (if p.LLMResponse? then CallIDs(p.toolCalls) else [])
    ensures Answered(messages + Said(p)) == Answered(messages) + (if p.ToolResult? then [p.callID] else [])
  {
    var all := messages + Said(p);
    if Said(p) == [] {
      assert all == messages;
    } else {
      assert all[..|all| - 1] == messages;
    }
  }

  /** One event's effect on the conversation: it is extended by at most one message, which
      adds to `Called` exactly what it queues as commands and to `Answered` exactly the
      result it carries. */
  lemma ReduceExtendsConversation(lib: Library, s: State, e: Event, newID: string)
    requires !Panics(s, e)
    ensures var n := Reduce(lib, s, e, newID);
      && n.version == s.version + 1
      && Messages(s) <= Messages(n) && |Messages(n)| <= |Messages(s)| + 1
      && (s.context.Some? <==> n.context.Some?)
      && Called(Messages(n)) == Called(Messages(s)) + CommandIDs(Commands(lib, e))
      && Answered(Messages(n)) == Answered(Messages(s)) + ResultID(e)
      && (AnswersFollowCalls(Messages(s)) && Answered(Messages(n)) <= Called(Messages(n)) ==> AnswersFollowCalls(Messages(n)))
      && (AnswersFollowCalls(Messages(n)) ==> AnswersFollowCalls(Messages(s)))
  {
    var n := Reduce(lib, s, e, newID);
    SaidCounts(Messages(s), e.payload);
    if e.payload.LLMResponse? {
      ToolCommandsCarryCallIDs(lib, e.payload.toolCalls);
    }
    assert Messages(n) == Messages(s) + Said(e.payload);
    if Said(e.payload) == [] {
      assert Messages(n) == Messages(s);
    } else {
      assert Messages(n)[..|Messages(n)| - 1] == Messages(s);
    }
  }

  // ---------------------------------------------------------------------------
  // Requests to the model
  // ---------------------------------------------------------------------------

  function StatusName(status: GoalStatus): string {
    match status
    case Pending => "pending"
    case InProgress => "in_progress"
    case Completed => "completed"
    case Failed => "failed"
    case Cancelled => "cancelled"
  }

  function Prompt(lib: Library, systemPrompt: string, goal: Goal): string {
    if systemPrompt == "" then lib.defaultPrompt(goal.description)
    else
      systemPrompt + "\n\nCurrent Goal: " + goal.description + " (Status: " + StatusName(goal.status)
      + "). Use 'task_complete' when done."
  }

  function SystemText(content: string): Message {
    Message("", SystemRole, content, [], "", "", 0, 0)
  }

  /** What is sent to the model for a goal: a system message with the goal, then everything said. */
  function Request(lib: Library, s: State, goal: Goal): seq<Message> {
    [SystemText(Prompt(lib, s.systemPrompt, goal))] + Messages(s)
  }

  /** The system message neither calls nor answers. */
  lemma {:induction false} SystemMessageCounts(first: Message, messages: seq<Message>)
    requires first.role == SystemRole
    ensures Called([first] + messages) == Called(messages) && Answered([first] + messages) == Answered(messages)
    ensures AnswersFollowCalls([first] + messages) <==> AnswersFollowCalls(messages)
  {
    var all := [first] + messages;
    if messages == [] {
      assert all == [first] && all[..0] == [];
    } else {
      assert all[..|all| - 1] == [first] + messages[..|messages| - 1];
      SystemMessageCounts(first, messages[..|messages| - 1]);
    }
  }

  // ---------------------------------------------------------------------------
  // Goal discipline
  // ---------------------------------------------------------------------------

  /** All goals but the last are completed; the last is pending or completed. */
  predicate Disciplined(goals: seq<Goal>) {
    && (forall i :: 0 <= i < |goals| - 1 ==> goals[i].status == Completed)
    && (goals != [] ==> goals[|goals| - 1].status in {Pending, Completed})
  }

  /** Goals are never dropped, reordered or reopened: each old goal is untouched, or went
      from active to completed with everything else unchanged. */
  predicate OnlyAdvances(before: seq<Goal>, after: seq<Goal>) {
    && |before| <= |after|
    && forall i :: 0 <= i < |before| ==>
      after[i] == before[i] || (Active(before[i]) && after[i] == before[i].(status := Completed))
  }

  function Replay(lib: Library, s: State, history: seq<(Event, string)>): State
    requires s.context.Some?
    ensures Replay(lib, s, history).context.Some?
  {
    if history == [] then s
    else
      var last := history[|history| - 1];
      Reduce(lib, Replay(lib, s, history[..|history| - 1]), last.0, last.1)
  }

  lemma GoalsStayDisciplined(goals: seq<Goal>, p: Payload, newID: string)
    requires Disciplined(goals)
    ensures Disciplined(GoalsAfter(goals, p, newID))
    ensures OnlyAdvances(goals, GoalsAfter(goals, p, newID))
  {
    var i := FirstActive(goals);
    if i < |goals| {
      assert i == |goals| - 1;
    }
  }

  /** In every state reachable from a new one, at most one goal is active, it is the last
      one, and that is the goal `selectGoal` returns. */
  lemma {:induction false} GoalDiscipline(lib: Library, now: Time, history: seq<(Event, string)>)
    ensures var goals := Replay(lib, NewState(now), history).goals;
      && Disciplined(goals)
      && (FirstActive(goals) < |goals| ==> FirstActive(goals) == |goals| - 1)
      && (forall i :: 0 <= i < |goals| && Active(goals[i]) ==> i == FirstActive(goals))
  {
    if history != [] {
      var last := history[|history| - 1];
      GoalDiscipline(lib, now, history[..|history| - 1]);
      GoalsStayDisciplined(Replay(lib, NewState(now), history[..|history| - 1]).goals, last.0.payload, last.1);
    }
  }

  lemma {:induction false} ReplayConcat(lib: Library, s: State, a: seq<(Event, string)>, b: seq<(Event, string)>)
    requires s.context.Some?
    ensures Replay(lib, s, a + b) == Replay(lib, Replay(lib, s, a), b)
  {
    if b == [] {
      assert a + b == a;
    } else {
      assert (a + b)[..|a + b| - 1] == a + b[..|b| - 1];
      ReplayConcat(lib, s, a, b[..|b| - 1]);
    }
  }

  /** Over any further events a conversation only grows and goals only advance. */
  lemma {:induction false} HistoryOnlyGrows(lib: Library, s: State, history: seq<(Event, string)>)
    requires s.context.Some? && Disciplined(s.goals)
    ensures var n := Replay(lib, s, history);
      && Messages(s) <= Messages(n)
      && OnlyAdvances(s.goals, n.goals) && Disciplined(n.goals)
      && n.version == s.version + |history|
  {
    if history != [] {
      var last := history[|history| - 1];
      var m := Replay(lib, s, history[..|history| - 1]);
      HistoryOnlyGrows(lib, s, history[..|history| - 1]);
      ReduceExtendsConversation(lib, m, last.0, last.1);
      GoalsStayDisciplined(m.goals, last.0.payload, last.1);
    }
  }
}
