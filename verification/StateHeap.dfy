/** The agent's state as Go lays it out in memory, with `Clone` and the reducer working on
    it in place. `*T` and Go maps are `Ref`s, slices are arrays, nil is null. The `...Stands`
    predicates say that a structure stands for a plain value of `States` and that all of its
    storage lies in a given set of objects. */
module StateHeap {
  import opened Wrappers
  import opened States

  class Ref<T> {
    var v: T

    constructor (v: T)
      ensures this.v == v
    {
      this.v := v;
    }
  }

  type Slice<T> = array?<T>
  type Table<T> = Ref?<map<string, T>>

  datatype GoalRec = GoalRec(
    id: string, kind: GoalType, description: string, priority: int, status: GoalStatus,
    sourceEventID: string, deadline: Ref?<Time>, maxSteps: int, stepsUsed: int,
    createdAt: Time, updatedAt: Time)

  datatype MessageRec = MessageRec(
    id: string, role: Role, content: string, toolCalls: Slice<ToolCall>,
    toolCallID: string, toolName: string, tokenCount: int, timestamp: Time)

  datatype ConstraintsRec = ConstraintsRec(
    maxSteps: int, maxTokens: int, timeout: int, allowedTools: Slice<string>, policyLevel: string)

  datatype ResultRec = ResultRec(
    status: string, summary: string, artifacts: Slice<string>, error: Ref?<TaskError>, stats: TaskStats)

  datatype TaskRec = TaskRec(
    id: string, goalID: string, parentID: string, kind: string, description: string,
    inputs: Table<Any>, status: string, constraints: ConstraintsRec, result: Ref?<ResultRec>,
    createdAt: Time, startedAt: Ref?<Time>, endedAt: Ref?<Time>)

  datatype ArtifactRec = ArtifactRec(
    id: string, kind: string, name: string, path: string, content: Slice<int>,
    metadata: Table<string>, size: int, taskID: string, goalID: string, createdAt: Time)

  datatype ContextRec = ContextRec(
    messages: Slice<MessageRec>, totalTokens: int, maxTokens: int, reserveOutput: int,
    lastCompactionAt: Ref?<Time>, compactionCount: int)

  datatype StateRec = StateRec(
    version: int, updatedAt: Time, systemPrompt: string, mode: string, planContent: string,
    goals: Slice<GoalRec>, tasks: Table<Ref?<TaskRec>>, artifacts: Table<Ref?<ArtifactRec>>,
    locks: Table<Ref?<Lock>>, context: Ref?<ContextRec>)

  // ---------------------------------------------------------------------------
  // What a structure stands for, and the storage it has
  // ---------------------------------------------------------------------------

  predicate PointerStands<T(==)>(p: Ref?<T>, repr: set<object>, value: Option<T>)
    reads repr
  {
    if p == null then value == None else p in repr && value == Some(p.v)
  }

  predicate SliceStands<T(==)>(a: Slice<T>, repr: set<object>, value: Option<seq<T>>)
    reads repr
  {
    if a == null then value == None else a in repr && value == Some(a[..])
  }

  predicate GoalStands(g: GoalRec, repr: set<object>, value: Goal)
    reads repr
  {
    && PointerStands(g.deadline, repr, value.deadline)
    && value == Goal(g.id, g.kind, g.description, g.priority, g.status, g.sourceEventID, value.deadline,
                     g.maxSteps, g.stepsUsed, g.createdAt, g.updatedAt)
  }

  /** A nil slice of calls stands for no calls. */
  predicate MessageStands(m: MessageRec, repr: set<object>, value: Message)
    reads repr
  {
    && (if m.toolCalls == null then value.toolCalls == [] else SliceStands(m.toolCalls, repr, Some(value.toolCalls)))
    && value == Message(m.id, m.role, m.content, value.toolCalls, m.toolCallID, m.toolName, m.tokenCount, m.timestamp)
  }

  predicate ResultStands(p: Ref?<ResultRec>, repr: set<object>, value: Option<TaskResult>)
    reads repr
  {
    if p == null then value == None
    else
      && p in repr && value.Some? && var r := p.v;
      && PointerStands(r.error, repr, value.value.error) && SliceStands(r.artifacts, repr, value.value.artifacts)
      && value.value == TaskResult(r.status, r.summary, value.value.artifacts, value.value.error, r.stats)
  }

  /** A task's storage, but for its list of allowed tools, which lies in `shared`. */
  predicate TaskStands(t: TaskRec, repr: set<object>, shared: set<object>, value: Task)
    reads repr, shared
  {
    && PointerStands(t.inputs, repr, value.inputs)
    && SliceStands(t.constraints.allowedTools, shared, value.constraints.allowedTools)
    && ResultStands(t.result, repr, value.result)
    && PointerStands(t.startedAt, repr, value.startedAt) && PointerStands(t.endedAt, repr, value.endedAt)
    && value == Task(t.id, t.goalID, t.parentID, t.kind, t.description, value.inputs, t.status,
                     TaskConstraints(t.constraints.maxSteps, t.constraints.maxTokens, t.constraints.timeout,
                                     value.constraints.allowedTools, t.constraints.policyLevel),
                     value.result, t.createdAt, value.startedAt, value.endedAt)
  }

  predicate ArtifactStands(a: ArtifactRec, repr: set<object>, value: Artifact)
    reads repr
  {
    && SliceStands(a.content, repr, value.content) && PointerStands(a.metadata, repr, value.metadata)
    && value == Artifact(a.id, a.kind, a.name, a.path, value.content, value.metadata, a.size, a.taskID, a.goalID, a.createdAt)
  }

  predicate GoalsStand(a: Slice<GoalRec>, repr: set<object>, value: seq<Goal>)
    reads repr
  {
    if a == null then value == []
    else a in repr && |value| == a.Length && forall i :: 0 <= i < a.Length ==> GoalStands(a[i], repr - {a}, value[i])
  }

  predicate MessagesStand(a: Slice<MessageRec>, repr: set<object>, value: seq<Message>)
    reads repr
  {
    if a == null then value == []
    else a in repr && |value| == a.Length && forall i :: 0 <= i < a.Length ==> MessageStands(a[i], repr - {a}, value[i])
  }

  /** The keys that count: nil entries stand for nothing. */
  ghost predicate Filled<T, V>(m: map<string, Ref?<T>>, value: map<string, V>) {
    forall k :: k in value <==> k in m && m[k] != null
  }

  ghost predicate TasksIn(
      m: map<string, Ref?<TaskRec>>, repr: set<object>, shared: set<object>, value: map<string, Task>)
    reads repr, shared
  {
    Filled(m, value) && forall k :: k in value ==> m[k] in repr && TaskStands(m[k].v, repr, shared, value[k])
  }

  ghost predicate TasksStand(m: Table<Ref?<TaskRec>>, repr: set<object>, shared: set<object>, value: map<string, Task>)
    reads repr, shared
  {
    if m == null then value == map[] else m in repr && TasksIn(m.v, repr - {m}, shared, value)
  }

  ghost predicate ArtifactsIn(m: map<string, Ref?<ArtifactRec>>, repr: set<object>, value: map<string, Artifact>)
    reads repr
  {
    Filled(m, value) && forall k :: k in value ==> m[k] in repr && ArtifactStands(m[k].v, repr, value[k])
  }

  ghost predicate ArtifactsStand(m: Table<Ref?<ArtifactRec>>, repr: set<object>, value: map<string, Artifact>)
    reads repr
  {
    if m == null then value == map[] else m in repr && ArtifactsIn(m.v, repr - {m}, value)
  }

  ghost predicate LocksIn(m: map<string, Ref?<Lock>>, repr: set<object>, value: map<string, Lock>)
    reads repr
  {
    Filled(m, value) && forall k :: k in value ==> m[k] in repr && m[k].v == value[k]
  }

  ghost predicate LocksStand(m: Table<Ref?<Lock>>, repr: set<object>, value: map<string, Lock>)
    reads repr
  {
    if m == null then value == map[] else m in repr && LocksIn(m.v, repr - {m}, value)
  }

  predicate ContextStands(p: Ref?<ContextRec>, repr: set<object>, value: Option<Context>)
    reads repr
  {
    if p == null then value == None
    else
      && p in repr && value.Some? && var c := p.v;
      && MessagesStand(c.messages, repr - {p}, value.value.messages)
      && PointerStands(c.lastCompactionAt, repr - {p}, value.value.lastCompactionAt)
      && value.value == Context(value.value.messages, c.totalTokens, c.maxTokens, c.reserveOutput,
                                value.value.lastCompactionAt, c.compactionCount)
  }

  /** The storage of a state, part by part; the allowed tools of its tasks are apart. */
  datatype Storage = Storage(
    goals: set<object>, tasks: set<object>, artifacts: set<object>, locks: set<object>, context: set<object>)
  {
    ghost function All(): set<object> {
      goals + tasks + artifacts + locks + context
    }

    ghost predicate Disjoint() {
      goals !! tasks !! artifacts !! locks !! context
    }
  }

  ghost predicate StateStands(s: StateRec, st: Storage, shared: set<object>, value: State)
    reads st.All(), shared
  {
    && st.Disjoint()
    && GoalsStand(s.goals, st.goals, value.goals)
    && TasksStand(s.tasks, st.tasks, shared, value.tasks)
    && ArtifactsStand(s.artifacts, st.artifacts, value.artifacts)
    && LocksStand(s.locks, st.locks, value.locks)
    && ContextStands(s.context, st.context, value.context)
    && value == State(s.version, s.updatedAt, s.systemPrompt, s.mode, s.planContent, value.goals, value.tasks,
                      value.artifacts, value.locks, value.context)
  }

  // A structure stands for one value only, whatever storage it is said to have.

  lemma OneGoals(a: Slice<GoalRec>, r: set<object>, value: seq<Goal>, r': set<object>, value': seq<Goal>)
    requires GoalsStand(a, r, value) && GoalsStand(a, r', value')
    ensures value == value'
    ensures a != null ==>
      |value| == a.Length && forall i :: 0 <= i < a.Length ==>
        value[i].id == a[i].id && value[i].description == a[i].description && value[i].status == a[i].status
  {
    if a != null {
      forall i | 0 <= i < a.Length ensures value[i] == value'[i] {
        assert GoalStands(a[i], r - {a}, value[i]) && GoalStands(a[i], r' - {a}, value'[i]);
      }
    }
  }

  lemma OneMessages(a: Slice<MessageRec>, r: set<object>, value: seq<Message>, r': set<object>, value': seq<Message>)
    requires MessagesStand(a, r, value) && MessagesStand(a, r', value')
    ensures value == value'
    ensures a != null ==>
      |value| == a.Length && forall i :: 0 <= i < a.Length ==>
        value[i].role == a[i].role && value[i].content == a[i].content && value[i].toolCallID == a[i].toolCallID
  {
    if a != null {
      forall i | 0 <= i < a.Length ensures value[i] == value'[i] {
        assert MessageStands(a[i], r - {a}, value[i]) && MessageStands(a[i], r' - {a}, value'[i]);
      }
    }
  }

  lemma OneTask(t: TaskRec, r: set<object>, s: set<object>, value: Task, r': set<object>, s': set<object>, value': Task)
    requires TaskStands(t, r, s, value) && TaskStands(t, r', s', value')
    ensures value == value'
  {
  }

  lemma OneTasks(
      m: Table<Ref?<TaskRec>>, r: set<object>, s: set<object>, value: map<string, Task>,
      r': set<object>, s': set<object>, value': map<string, Task>)
    requires TasksStand(m, r, s, value) && TasksStand(m, r', s', value')
    ensures value == value'
  {
    if m != null {
      assert value.Keys == value'.Keys;
      forall k | k in value ensures value[k] == value'[k] {
        OneTask(m.v[k].v, r - {m}, s, value[k], r' - {m}, s', value'[k]);
      }
    }
  }

  lemma OneArtifacts(
      m: Table<Ref?<ArtifactRec>>, r: set<object>, value: map<string, Artifact>,
      r': set<object>, value': map<string, Artifact>)
    requires ArtifactsStand(m, r, value) && ArtifactsStand(m, r', value')
    ensures value == value'
  {
    if m != null {
      assert value.Keys == value'.Keys;
      forall k | k in value ensures value[k] == value'[k] {
        assert ArtifactStands(m.v[k].v, r - {m}, value[k]) && ArtifactStands(m.v[k].v, r' - {m}, value'[k]);
      }
    }
  }

  lemma OneLocks(
      m: Table<Ref?<Lock>>, r: set<object>, value: map<string, Lock>, r': set<object>, value': map<string, Lock>)
    requires LocksStand(m, r, value) && LocksStand(m, r', value')
    ensures value == value'
  {
    if m != null {
      assert value.Keys == value'.Keys;
    }
  }

  lemma OneContext(p: Ref?<ContextRec>, r: set<object>, value: Option<Context>, r': set<object>, value': Option<Context>)
    requires ContextStands(p, r, value) && ContextStands(p, r', value')
    ensures value == value'
  {
    if p != null {
      OneMessages(p.v.messages, r - {p}, value.value.messages, r' - {p}, value'.value.messages);
    }
  }

  lemma OneState(
      s: StateRec, st: Storage, shared: set<object>, value: State, st': Storage, shared': set<object>, value': State)
    requires StateStands(s, st, shared, value) && StateStands(s, st', shared', value')
    ensures value == value'
  {
    OneGoals(s.goals, st.goals, value.goals, st'.goals, value'.goals);
    OneTasks(s.tasks, st.tasks, shared, value.tasks, st'.tasks, shared', value'.tasks);
    OneArtifacts(s.artifacts, st.artifacts, value.artifacts, st'.artifacts, value'.artifacts);
    OneLocks(s.locks, st.locks, value.locks, st'.locks, value'.locks);
    OneContext(s.context, st.context, value.context, st'.context, value'.context);
  }

  // ---------------------------------------------------------------------------
  // Clone
  // ---------------------------------------------------------------------------

  method CopyPointer<T>(p: Ref?<T>) returns (q: Ref?<T>, ghost own: set<object>)
    ensures fresh(own) && (q == null <==> p == null) && (q != null ==> q in own && q.v == p.v)
  {
    q, own := null, {};
    if p != null {
      q := new Ref(p.v);
      own := {q};
    }
  }

  method CopySlice<T(0)>(a: Slice<T>) returns (b: Slice<T>, ghost own: set<object>)
    ensures fresh(own) && (b == null <==> a == null) && (b != null ==> b in own && b[..] == a[..])
  {
    b, own := null, {};
    if a != null {
      var copy := new T[a.Length];
      for i := 0 to a.Length
        invariant forall j :: 0 <= j < i ==> copy[j] == a[j]
      {
        copy[i] := a[i];
      }
      assert copy[..] == a[..];
      b, own := copy, {copy};
    }
  }

  method CopyTable<T>(m: Table<T>) returns (n: Table<T>, ghost own: set<object>)
    ensures fresh(own) && (n == null <==> m == null) && (n != null ==> n in own && n.v == m.v)
  {
    n, own := null, {};
    if m != null {
      var copy := new Ref(map[]);
      var keys := m.v.Keys;
      while keys != {}
        invariant keys <= m.v.Keys
        invariant copy.v == map k | k in m.v && k !in keys :: m.v[k]
        decreases keys
      {
        var k :| k in keys;
        copy.v := copy.v[k := m.v[k]];
        keys := keys - {k};
      }
      assert copy.v == m.v;
      n, own := copy, {copy};
    }
  }

  method CloneGoal(g: GoalRec, ghost repr: set<object>, ghost value: Goal) returns (c: GoalRec, ghost own: set<object>)
    requires GoalStands(g, repr, value)
    ensures fresh(own) && GoalStands(c, own, value)
  {
    var d;
    d, own := CopyPointer(g.deadline);
    c := g.(deadline := d);
  }

  method CloneMessage(m: MessageRec, ghost repr: set<object>, ghost value: Message)
    returns (c: MessageRec, ghost own: set<object>)
    requires MessageStands(m, repr, value)
    ensures fresh(own) && MessageStands(c, own, value)
  {
    var calls;
    calls, own := CopySlice(m.toolCalls);
    c := m.(toolCalls := calls);
  }

  /** Every object of the clone is new except its `AllowedTools` slice, which is the
      original's own slice: a write through one is seen through the other. */
  method CloneTask(t: TaskRec, ghost repr: set<object>, ghost shared: set<object>, ghost value: Task)
    returns (c: TaskRec, ghost own: set<object>)
    requires TaskStands(t, repr, shared, value)
    ensures fresh(own) && TaskStands(c, own, shared, value)
    ensures c.constraints.allowedTools == t.constraints.allowedTools
  {
    var inputs;
    inputs, own := CopyTable(t.inputs);
    var result: Ref?<ResultRec> := null;
    if t.result != null {
      var e, ownE := CopyPointer(t.result.v.error);
      var a, ownA := CopySlice(t.result.v.artifacts);
      result := new Ref(t.result.v.(error := e, artifacts := a));
      own := own + ownE + ownA + {result};
    }
    var s, ownS := CopyPointer(t.startedAt);
    var e, ownE := CopyPointer(t.endedAt);
    own := own + ownS + ownE;
    c := t.(inputs := inputs, result := result, startedAt := s, endedAt := e);
    assert old(allocated(shared));
  }

  method CloneArtifact(a: ArtifactRec, ghost repr: set<object>, ghost value: Artifact)
    returns (c: ArtifactRec, ghost own: set<object>)
    requires ArtifactStands(a, repr, value)
    ensures fresh(own) && ArtifactStands(c, own, value)
  {
    var content, ownC := CopySlice(a.content);
    var metadata, ownM := CopyTable(a.metadata);
    own := ownC + ownM;
    c := a.(content := content, metadata := metadata);
  }

  /** `make` and an element-by-element loop: a nil slice becomes an empty one. */
  method CloneGoals(a: Slice<GoalRec>, ghost repr: set<object>, ghost value: seq<Goal>)
    returns (c: array<GoalRec>, ghost own: set<object>)
    requires GoalsStand(a, repr, value)
    ensures fresh(own) && GoalsStand(c, own, value)
  {
    var n := if a == null then 0 else a.Length;
    c := new GoalRec[n];
    ghost var inner: set<object> := {};
    for i := 0 to n
      invariant fresh(inner) && c !in inner
      invariant forall j :: 0 <= j < i ==> GoalStands(c[j], inner, value[j])
    {
      assert old(allocated(repr)) && GoalStands(a[i], repr - {a}, value[i]) == old(GoalStands(a[i], repr - {a}, value[i]));
      var g, more := CloneGoal(a[i], repr - {a}, value[i]);
      c[i] := g;
      inner := inner + more;
    }
    own := inner + {c};
    assert own - {c} == inner;
  }

  method CloneMessages(a: Slice<MessageRec>, ghost repr: set<object>, ghost value: seq<Message>)
    returns (c: array<MessageRec>, ghost own: set<object>)
    requires MessagesStand(a, repr, value)
    ensures fresh(own) && MessagesStand(c, own, value)
  {
    var n := if a == null then 0 else a.Length;
    c := new MessageRec[n];
    ghost var inner: set<object> := {};
    for i := 0 to n
      invariant fresh(inner) && c !in inner
      invariant forall j :: 0 <= j < i ==> MessageStands(c[j], inner, value[j])
    {
      assert old(allocated(repr)) && MessageStands(a[i], repr - {a}, value[i]) == old(MessageStands(a[i], repr - {a}, value[i]));
      var m, more := CloneMessage(a[i], repr - {a}, value[i]);
      c[i] := m;
      inner := inner + more;
    }
    own := inner + {c};
    assert own - {c} == inner;
  }

  method CloneTaskPointer(p: Ref<TaskRec>, ghost repr: set<object>, ghost shared: set<object>, ghost value: Task)
    returns (q: Ref<TaskRec>, ghost own: set<object>)
    requires TaskStands(p.v, repr, shared, value)
    ensures fresh(own) && q in own && TaskStands(q.v, own, shared, value)
  {
    var task;
    task, own := CloneTask(p.v, repr, shared, value);
    q := new Ref(task);
    TaskGrows(task, own, {q}, shared, value);
    own := own + {q};
  }

  lemma TaskGrows(t: TaskRec, repr: set<object>, more: set<object>, shared: set<object>, value: Task)
    requires TaskStands(t, repr, shared, value)
    ensures TaskStands(t, repr + more, shared, value)
  {
  }

  lemma TasksGrow(
    m: map<string, Ref?<TaskRec>>, repr: set<object>, shared: set<object>, value: map<string, Task>,
    k: string, q: Ref<TaskRec>, more: set<object>, v: Task)
    requires TasksIn(m, repr, shared, value) && q in more && TaskStands(q.v, more, shared, v)
    ensures TasksIn(m[k := q], repr + more, shared, value[k := v])
  {
    TaskGrows(q.v, more, repr, shared, v);
    assert more + repr == repr + more;
    forall l | l in value ensures TaskStands(m[l].v, repr + more, shared, value[l]) {
      TaskGrows(m[l].v, repr, more, shared, value[l]);
    }
  }

  /** The entries whose keys were visited. */
  function Visited<V>(value: map<string, V>, left: set<string>): map<string, V> {
    map k | k in value && k !in left :: value[k]
  }

  lemma VisitedOneMore<V>(value: map<string, V>, left: set<string>, k: string)
    requires k in left
    ensures Visited(value, left - {k}) == if k in value then Visited(value, left)[k := value[k]] else Visited(value, left)
  {
  }

  lemma VisitedEnds<V>(value: map<string, V>, all: set<string>)
    ensures Visited(value, {}) == value
    ensures value.Keys <= all ==> Visited(value, all) == map[]
  {
  }

  /** Put a clone of one task under its key. */
  method CloneTaskEntry(
    copied: map<string, Ref?<TaskRec>>, ghost inner: set<object>, ghost done: map<string, Task>,
    k: string, p: Ref<TaskRec>, ghost repr: set<object>, ghost shared: set<object>, ghost value: Task)
    returns (out: map<string, Ref?<TaskRec>>, ghost more: set<object>)
    requires TasksIn(copied, inner, shared, done) && TaskStands(p.v, repr, shared, value)
    ensures fresh(more) && TasksIn(out, inner + more, shared, done[k := value])
  {
    assert allocated(inner) && allocated(shared) && allocated(copied);
    var q;
    q, more := CloneTaskPointer(p, repr, shared, value);
    assert TasksIn(copied, inner, shared, done) == old(TasksIn(copied, inner, shared, done));
    TasksGrow(copied, inner, shared, done, k, q, more, value);
    out := copied[k := q];
  }

  /** The loops over tables leave nil entries out. */
  method CloneTaskEntries(
      from: map<string, Ref?<TaskRec>>, ghost repr: set<object>, ghost shared: set<object>,
      ghost value: map<string, Task>)
    returns (copied: map<string, Ref?<TaskRec>>, ghost own: set<object>)
    requires TasksIn(from, repr, shared, value)
    ensures fresh(own) && TasksIn(copied, own, shared, value)
  {
    var keys := from.Keys;
    copied, own := map[], {};
    VisitedEnds(value, keys);
    while keys != {}
      invariant keys <= from.Keys && fresh(own)
      invariant TasksIn(from, repr, shared, value)
      invariant TasksIn(copied, own, shared, Visited(value, keys))
      decreases keys
    {
      var k :| k in keys;
      VisitedOneMore(value, keys, k);
      if from[k] != null {
        ghost var more;
        copied, more := CloneTaskEntry(copied, own, Visited(value, keys), k, from[k], repr, shared, value[k]);
        own := own + more;
      }
      keys := keys - {k};
    }
    VisitedEnds(value, {});
  }

  method CloneTasks(
      m: Table<Ref?<TaskRec>>, ghost repr: set<object>, ghost shared: set<object>, ghost value: map<string, Task>)
    returns (n: Ref<map<string, Ref?<TaskRec>>>, ghost own: set<object>)
    requires TasksStand(m, repr, shared, value)
    ensures fresh(own) && TasksStand(n, own, shared, value)
  {
    var copied;
    copied, own := CloneTaskEntries(if m == null then map[] else m.v, if m == null then {} else repr - {m}, shared, value);
    assert allocated(own) && allocated(copied) && allocated(shared);
    label Copied:
    n := new Ref(copied);
    assert TasksIn(copied, own, shared, value) == old@Copied(TasksIn(copied, own, shared, value));
    assert own + {n} - {n} == own;
    own := own + {n};
  }

  method CloneArtifactPointer(p: Ref<ArtifactRec>, ghost repr: set<object>, ghost value: Artifact)
    returns (q: Ref<ArtifactRec>, ghost own: set<object>)
    requires ArtifactStands(p.v, repr, value)
    ensures fresh(own) && q in own && ArtifactStands(q.v, own, value)
  {
    var artifact;
    artifact, own := CloneArtifact(p.v, repr, value);
    q := new Ref(artifact);
    ArtifactGrows(artifact, own, {q}, value);
    own := own + {q};
  }

  lemma ArtifactGrows(a: ArtifactRec, repr: set<object>, more: set<object>, value: Artifact)
    requires ArtifactStands(a, repr, value)
    ensures ArtifactStands(a, repr + more, value)
  {
  }

  lemma ArtifactsGrow(
    m: map<string, Ref?<ArtifactRec>>, repr: set<object>, value: map<string, Artifact>,
    k: string, q: Ref<ArtifactRec>, more: set<object>, v: Artifact)
    requires ArtifactsIn(m, repr, value) && q in more && ArtifactStands(q.v, more, v)
    ensures ArtifactsIn(m[k := q], repr + more, value[k := v])
  {
    ArtifactGrows(q.v, more, repr, v);
    assert more + repr == repr + more;
    forall l | l in value ensures ArtifactStands(m[l].v, repr + more, value[l]) {
      ArtifactGrows(m[l].v, repr, more, value[l]);
    }
  }

  method CloneArtifactEntry(
    copied: map<string, Ref?<ArtifactRec>>, ghost inner: set<object>, ghost done: map<string, Artifact>,
    k: string, p: Ref<ArtifactRec>, ghost repr: set<object>, ghost value: Artifact)
    returns (out: map<string, Ref?<ArtifactRec>>, ghost more: set<object>)
    requires ArtifactsIn(copied, inner, done) && ArtifactStands(p.v, repr, value)
    ensures fresh(more) && ArtifactsIn(out, inner + more, done[k := value])
  {
    assert allocated(inner) && allocated(copied);
    var q;
    q, more := CloneArtifactPointer(p, repr, value);
    assert ArtifactsIn(copied, inner, done) == old(ArtifactsIn(copied, inner, done));
    ArtifactsGrow(copied, inner, done, k, q, more, value);
    out := copied[k := q];
  }

  method CloneArtifactEntries(
      from: map<string, Ref?<ArtifactRec>>, ghost repr: set<object>, ghost value: map<string, Artifact>)
    returns (copied: map<string, Ref?<ArtifactRec>>, ghost own: set<object>)
    requires ArtifactsIn(from, repr, value)
    ensures fresh(own) && ArtifactsIn(copied, own, value)
  {
    var keys := from.Keys;
    copied, own := map[], {};
    VisitedEnds(value, keys);
    while keys != {}
      invariant keys <= from.Keys && fresh(own)
      invariant ArtifactsIn(from, repr, value)
      invariant ArtifactsIn(copied, own, Visited(value, keys))
      decreases keys
    {
      var k :| k in keys;
      VisitedOneMore(value, keys, k);
      if from[k] != null {
        ghost var more;
        copied, more := CloneArtifactEntry(copied, own, Visited(value, keys), k, from[k], repr, value[k]);
        own := own + more;
      }
      keys := keys - {k};
    }
    VisitedEnds(value, {});
  }

  method CloneArtifacts(m: Table<Ref?<ArtifactRec>>, ghost repr: set<object>, ghost value: map<string, Artifact>)
    returns (n: Ref<map<string, Ref?<ArtifactRec>>>, ghost own: set<object>)
    requires ArtifactsStand(m, repr, value)
    ensures fresh(own) && ArtifactsStand(n, own, value)
  {
    var copied;
    copied, own := CloneArtifactEntries(if m == null then map[] else m.v, if m == null then {} else repr - {m}, value);
    assert allocated(own) && allocated(copied);
    label Copied:
    n := new Ref(copied);
    assert ArtifactsIn(copied, own, value) == old@Copied(ArtifactsIn(copied, own, value));
    assert own + {n} - {n} == own;
    own := own + {n};
  }

  method CloneLocks(m: Table<Ref?<Lock>>, ghost repr: set<object>, ghost value: map<string, Lock>)
    returns (n: Ref<map<string, Ref?<Lock>>>, ghost own: set<object>)
    requires LocksStand(m, repr, value)
    ensures fresh(own) && LocksStand(n, own, value)
  {
    var from := if m == null then map[] else m.v;
    var copied, keys := map[], from.Keys;
    own := {};
    VisitedEnds(value, keys);
    while keys != {}
      invariant keys <= from.Keys && fresh(own)
      invariant LocksIn(from, repr, value)
      invariant LocksIn(copied, own, Visited(value, keys))
      decreases keys
    {
      var k :| k in keys;
      VisitedOneMore(value, keys, k);
      if from[k] != null {
        assert allocated(own) && allocated(copied);
        var lock := new Ref(from[k].v);
        copied := copied[k := lock];
        own := own + {lock};
      }
      keys := keys - {k};
    }
    VisitedEnds(value, {});
    assert allocated(own);
    n := new Ref(copied);
    assert own + {n} - {n} == own;
    own := own + {n};
  }

  method CloneContext(p: Ref?<ContextRec>, ghost repr: set<object>, ghost value: Option<Context>)
    returns (q: Ref?<ContextRec>, ghost own: set<object>)
    requires ContextStands(p, repr, value)
    ensures fresh(own) && ContextStands(q, own, value)
    ensures q != null ==> q.v.messages != null
  {
    q, own := null, {};
    if p != null {
      var messages, ownM := CloneMessages(p.v.messages, repr - {p}, value.value.messages);
      var at, ownA := CopyPointer(p.v.lastCompactionAt);
      MessagesGrow(messages, ownM, ownA, value.value.messages);
      q := new Ref(p.v.(messages := messages, lastCompactionAt := at));
      own := ownM + ownA + {q};
      assert own - {q} == ownM + ownA;
    }
  }

  lemma MessagesGrow(a: Slice<MessageRec>, repr: set<object>, more: set<object>, value: seq<Message>)
    requires MessagesStand(a, repr, value) && a !in more
    ensures MessagesStand(a, repr + more, value)
  {
    if a != null {
      assert repr + more - {a} == (repr - {a}) + more;
    }
  }

  /** A deep copy: apart from the slices in `shared` all of its storage is new, and it stands
      for the same value. */
  method CloneState(s: StateRec, ghost st: Storage, ghost shared: set<object>, ghost value: State)
    returns (c: StateRec, ghost own: Storage)
    requires StateStands(s, st, shared, value)
    ensures fresh(own.All()) && StateStands(c, own, shared, value)
    ensures c.goals != null && c.artifacts != null && (c.context != null ==> c.context.v.messages != null)
  {
    var goals, ownG := CloneGoals(s.goals, st.goals, value.goals);
    label Goals:
    var tasks, artifacts, locks, ownT, ownA, ownL := CloneTables(s, st, shared, value);
    label Tables:
    var context, ownC := CloneContext(s.context, st.context, value.context);
    assert GoalsStand(goals, ownG, value.goals) == old@Goals(GoalsStand(goals, ownG, value.goals)) by {
      assert old@Goals(allocated(ownG));
    }
    assert TablesStand(tasks, artifacts, locks, ownT, ownA, ownL, shared, value) ==
      old@Tables(TablesStand(tasks, artifacts, locks, ownT, ownA, ownL, shared, value)) by {
      assert old@Tables(allocated(ownT) && allocated(ownA) && allocated(ownL) && allocated(shared));
    }
    c := s.(goals := goals, tasks := tasks, artifacts := artifacts, locks := locks, context := context);
    own := Storage(ownG, ownT, ownA, ownL, ownC);
  }

  ghost predicate TablesStand(
    tasks: Table<Ref?<TaskRec>>, artifacts: Table<Ref?<ArtifactRec>>, locks: Table<Ref?<Lock>>,
    ownT: set<object>, ownA: set<object>, ownL: set<object>, shared: set<object>, value: State)
    reads ownT, ownA, ownL, shared
  {
    && TasksStand(tasks, ownT, shared, value.tasks)
    && ArtifactsStand(artifacts, ownA, value.artifacts)
    && LocksStand(locks, ownL, value.locks)
  }

  method CloneTables(s: StateRec, ghost st: Storage, ghost shared: set<object>, ghost value: State)
    returns (
      tasks: Table<Ref?<TaskRec>>, artifacts: Table<Ref?<ArtifactRec>>, locks: Table<Ref?<Lock>>,
      ghost ownT: set<object>, ghost ownA: set<object>, ghost ownL: set<object>)
    requires TablesStand(s.tasks, s.artifacts, s.locks, st.tasks, st.artifacts, st.locks, shared, value)
    ensures fresh(ownT + ownA + ownL) && ownT !! ownA !! ownL
    ensures TablesStand(tasks, artifacts, locks, ownT, ownA, ownL, shared, value)
    ensures artifacts != null
  {
    tasks, ownT := CloneTasks(s.tasks, st.tasks, shared, value.tasks);
    label Tasks:
    artifacts, ownA := CloneArtifacts(s.artifacts, st.artifacts, value.artifacts);
    label Artifacts:
    locks, ownL := CloneLocks(s.locks, st.locks, value.locks);
    assert TasksStand(tasks, ownT, shared, value.tasks) == old@Tasks(TasksStand(tasks, ownT, shared, value.tasks)) by {
      assert old@Tasks(allocated(ownT) && allocated(shared));
    }
    assert ArtifactsStand(artifacts, ownA, value.artifacts) == old@Artifacts(ArtifactsStand(artifacts, ownA, value.artifacts)) by {
      assert old@Artifacts(allocated(ownA));
    }
  }

  // ---------------------------------------------------------------------------
  // The reducer's loops over the clone
  // ---------------------------------------------------------------------------

  /** Index of the first active goal, or the length. */
  method FindActive(goals: array<GoalRec>, ghost repr: set<object>, ghost value: seq<Goal>) returns (i: nat)
    requires GoalsStand(goals, repr, value)
    ensures i == FirstActive(value)
  {
    i := 0;
    while i < goals.Length
      invariant i <= goals.Length
      invariant FirstActive(value) == i + FirstActive(value[i..])
    {
      assert GoalStands(goals[i], repr - {goals}, value[i]) && value[i..][1..] == value[i + 1..];
      if goals[i].status == Pending || goals[i].status == InProgress {
        return;
      }
      i := i + 1;
    }
  }

  method CompleteActiveGoal(goals: array<GoalRec>, ghost repr: set<object>, ghost value: seq<Goal>)
    requires GoalsStand(goals, repr, value)
    modifies goals
    ensures GoalsStand(goals, repr, CompleteFirstActive(value))
  {
    var i := FindActive(goals, repr, value);
    if i < goals.Length {
      assert GoalStands(goals[i], repr - {goals}, value[i]);
      goals[i] := goals[i].(status := Completed);
    }
  }

  /** `append` on a full slice: the elements move to new storage. */
  method AppendTo<T(0)>(a: array<T>, x: T) returns (b: array<T>)
    ensures fresh(b) && b[..] == a[..] + [x]
  {
    b := new T[a.Length + 1](i reads a requires 0 <= i < a.Length + 1 => if i < a.Length then a[i] else x);
  }

  method AppendGoal(
      goals: array<GoalRec>, newID: string, content: string, ghost repr: set<object>, ghost value: seq<Goal>)
    returns (out: array<GoalRec>)
    requires GoalsStand(goals, repr, value)
    ensures fresh(out) && GoalsStand(out, repr + {out}, value + [NewGoal(newID, content)])
  {
    assert allocated(repr);
    out := AppendTo(goals, GoalRec(newID, UserRequest, content, 0, Pending, "", null, 0, 0, 0, 0));
    assert GoalsStand(goals, repr, value) == old(GoalsStand(goals, repr, value));
    forall i | 0 <= i < out.Length ensures GoalStands(out[i], repr + {out} - {out}, (value + [NewGoal(newID, content)])[i]) {
      if i < goals.Length {
        assert out[i] == goals[i] && GoalStands(goals[i], repr - {goals}, value[i]);
      }
    }
  }

  /** The goal part of the reducer, on the clone's own goal slice. */
  method ReduceGoals(goals: array<GoalRec>, p: Payload, newID: string, ghost repr: set<object>, ghost value: seq<Goal>)
    returns (out: array<GoalRec>, ghost own: set<object>)
    requires GoalsStand(goals, repr, value)
    modifies goals
    ensures fresh(own - repr) && GoalsStand(out, own, GoalsAfter(value, p, newID))
  {
    out, own := goals, repr;
    match p
    case UserMessage(content) =>
      var i := FindActive(goals, repr, value);
      if i == goals.Length {
        out := AppendGoal(goals, newID, content, repr, value);
        own := repr + {out};
      }
    case LLMResponse(reply, calls) =>
      if |calls| == 0 && reply != "" && reply != " " {
        CompleteActiveGoal(goals, repr, value);
      }
    case ToolResult(_, name, success, _, _) =>
      if name == "task_complete" && success {
        CompleteActiveGoal(goals, repr, value);
      }
    case _ =>
  }

  /** The call with this id in one slice of calls. */
  method SearchCalls(calls: Slice<ToolCall>, id: string) returns (found: Option<ToolCall>)
    ensures found == FindIn(if calls == null then [] else calls[..], id)
  {
    found := None;
    if calls != null {
      assert calls[0..] == calls[..];
      for j := 0 to calls.Length
        invariant FindIn(calls[..], id) == FindIn(calls[j..], id)
      {
        assert calls[j..][1..] == calls[j + 1..];
        if calls[j].id == id {
          return Some(calls[j]);
        }
      }
    }
  }

  /** The backwards search for the call that a `create_file` result answers. */
  method SearchCall(messages: array<MessageRec>, id: string, ghost repr: set<object>, ghost value: seq<Message>)
    returns (found: Option<ToolCall>)
    requires MessagesStand(messages, repr, value)
    ensures found == FindCall(value, id)
  {
    var i := messages.Length;
    assert value[..i] == value;
    while i > 0
      invariant i <= messages.Length
      invariant FindCall(value, id) == FindCall(value[..i], id)
    {
      i := i - 1;
      assert value[..i + 1][..i] == value[..i] && MessageStands(messages[i], repr - {messages}, value[i]);
      if messages[i].role == AssistantRole {
        var here := SearchCalls(messages[i].toolCalls, id);
        if here.Some? {
          return here;
        }
      }
    }
    found := None;
  }

  /** The tool commands a response gives rise to, built in order. */
  method QueueCalls(lib: Library, calls: array<ToolCall>) returns (cmds: seq<Command>)
    ensures cmds == ToolCommands(lib, calls[..])
  {
    cmds := [];
    for i := 0 to calls.Length
      invariant |cmds| == i
      invariant forall j :: 0 <= j < i ==>
        cmds[j] == CallTool(calls[j].id, calls[j].name, DecodeArguments(lib, calls[j].arguments))
    {
      var args := Some(map[]);
      if calls[i].arguments != "" {
        match lib.decodeArguments(calls[i].arguments)
        case Ok(decoded) => args := decoded;
        case Err(_) =>
      }
      cmds := cmds + [CallTool(calls[i].id, calls[i].name, args)];
    }
  }

  /** The path a successful `create_file` asked for, looked up in the conversation. */
  method LookupPath(
      lib: Library, messages: array<MessageRec>, p: Payload, ghost repr: set<object>, ghost value: seq<Message>)
    returns (path: Option<string>)
    requires MessagesStand(messages, repr, value)
    ensures path == CreatedPath(lib, value, p)
  {
    path := None;
    if p.ToolResult? && p.toolName == "create_file" && p.success {
      var call := SearchCall(messages, p.callID, repr, value);
      if call.Some? {
        var decoded := lib.decodePath(call.value.arguments);
        if decoded.Some? && decoded.value != "" {
          path := decoded;
        }
      }
    }
  }

  /** An event whose tool calls, if it is a response, are in this slice. */
  predicate Carried(p: Payload, calls: array<ToolCall>)
    reads calls
  {
    p.LLMResponse? ==> p.toolCalls == calls[..]
  }

  /** The message an event adds. A response's calls are not copied: the message holds the
      event's own slice. */
  method MessageFor(p: Payload, calls: array<ToolCall>) returns (m: Option<MessageRec>)
    requires Carried(p, calls)
    ensures m.None? <==> Said(p) == []
    ensures m.Some? ==> MessageStands(m.value, {calls}, Said(p)[0])
  {
    match p
    case UserMessage(content) =>
      m := Some(MessageRec("", UserRole, content, null, "", "", 0, 0));
    case LLMResponse(reply, _) =>
      m := Some(MessageRec("", AssistantRole, if reply == "" then " " else reply, calls, "", "", 0, 0));
    case ToolResult(callID, name, success, output, error) =>
      m := Some(MessageRec("", ToolRole, if success then output else "Error: " + error, null, callID, name, 0, 0));
    case _ =>
      m := None;
  }

  method AppendMessage(context: Ref<ContextRec>, m: MessageRec, ghost borrowed: set<object>, ghost said: Message,
      ghost repr: set<object>, ghost value: Context)
    returns (messages: array<MessageRec>, ghost own: set<object>)
    requires ContextStands(context, repr, Some(value)) && context.v.messages != null
    requires MessageStands(m, borrowed, said) && context !in borrowed
    modifies context
    ensures (forall o :: o in own && o !in repr + borrowed ==> fresh(o)) && context.v.messages == messages
    ensures ContextStands(context, own, Some(value.(messages := value.messages + [said])))
  {
    assert allocated(repr) && allocated(borrowed);
    ghost var old_ := context.v.messages;
    messages := AppendTo(context.v.messages, m);
    own := repr + borrowed + {messages};
    forall i | 0 <= i < messages.Length
      ensures MessageStands(messages[i], own - {context} - {messages}, (value.messages + [said])[i])
    {
      if i < old_.Length {
        assert messages[i] == old_[i] && MessageStands(old_[i], repr - {context} - {old_}, value.messages[i]);
      }
    }
    context.v := context.v.(messages := messages);
  }

  function SaidIn(value: Option<Context>, p: Payload): Option<Context> {
    if value.Some? then Some(value.value.(messages := value.value.messages + Said(p))) else None
  }

  /** The conversation part of the reducer, on the clone's own window. */
  method Say(lib: Library, context: Ref?<ContextRec>, p: Payload, calls: array<ToolCall>,
      ghost repr: set<object>, ghost value: Option<Context>)
    returns (path: Option<string>, ghost own: set<object>)
    requires ContextStands(context, repr, value) && Carried(p, calls) && calls !in repr
    requires if context == null then Said(p) == [] else context.v.messages != null
    modifies context
    ensures forall o :: o in own && o !in repr + {calls} ==> fresh(o)
    ensures ContextStands(context, own, SaidIn(value, p))
    ensures path == if value.None? then None else CreatedPath(lib, value.value.messages + Said(p), p)
  {
    path, own := None, repr;
    var m := MessageFor(p, calls);
    if m.Some? {
      var messages;
      messages, own := AppendMessage(context, m.value, {calls}, Said(p)[0], repr, value.value);
      path := LookupPath(lib, messages, p, own - {context}, value.value.messages + Said(p));
    } else if context != null {
      assert value.value.messages + Said(p) == value.value.messages;
    }
  }

  /** The artifact part of the reducer, on the clone's own table. */
  method RecordArtifact(lib: Library, artifacts: Ref<map<string, Ref?<ArtifactRec>>>, path: Option<string>, at: Time, newID: string,
      ghost repr: set<object>, ghost value: map<string, Artifact>)
    returns (ghost own: set<object>)
    requires ArtifactsStand(artifacts, repr, value)
    modifies artifacts
    ensures fresh(own - repr) && ArtifactsStand(artifacts, own, ArtifactsAfter(lib, value, path, at, newID))
  {
    own := repr;
    if path.Some? {
      assert allocated(repr) && allocated(artifacts.v);
      ghost var before := artifacts.v;
      var artifact := new Ref(ArtifactRec(newID, "file", lib.basename(path.value), path.value, null, null, 0, "", "", at));
      assert ArtifactsIn(before, repr - {artifacts}, value) == old(ArtifactsIn(artifacts.v, repr - {artifacts}, value));
      ArtifactsGrow(before, repr - {artifacts}, value, newID, artifact, {artifact}, NewArtifact(lib, newID, path.value, at));
      own := repr + {artifact};
      assert own - {artifacts} == (repr - {artifacts}) + {artifact};
      artifacts.v := artifacts.v[newID := artifact];
      assert ArtifactsIn(artifacts.v, own - {artifacts}, value[newID := NewArtifact(lib, newID, path.value, at)]);
    }
  }

  lemma ReducedParts(lib: Library, value: State, e: Event, newID: string)
    requires !Panics(value, e)
    ensures var next := Reduce(lib, value, e, newID); var p := e.payload;
      && next.context == SaidIn(value.context, p) && next.goals == GoalsAfter(value.goals, p, newID)
      && next.artifacts == ArtifactsAfter(lib, value.artifacts,
           if value.context.None? then None else CreatedPath(lib, value.context.value.messages + Said(p), p), e.at, newID)
  {
  }

  /** What the reducer writes: the window, the goal slice and the artifact table. */
  method MutateParts(
      lib: Library, n: StateRec, e: Event, newID: string, calls: array<ToolCall>, ghost st: Storage,
      ghost value: State)
    returns (goals: array<GoalRec>, ghost ownG: set<object>, ghost ownA: set<object>, ghost ownC: set<object>)
    requires st.Disjoint() && n.goals != null && n.artifacts != null && (n.context != null ==> n.context.v.messages != null)
    requires GoalsStand(n.goals, st.goals, value.goals) && ArtifactsStand(n.artifacts, st.artifacts, value.artifacts)
    requires ContextStands(n.context, st.context, value.context)
    requires Carried(e.payload, calls) && calls !in st.All() && !Panics(value, e)
    modifies n.goals, n.artifacts, n.context
    ensures fresh(ownG - st.goals) && fresh(ownA - st.artifacts)
    ensures forall o :: o in ownC && o !in st.context + {calls} ==> fresh(o)
    ensures ownG !! ownA !! ownC
    ensures var next := Reduce(lib, value, e, newID);
      && GoalsStand(goals, ownG, next.goals) && ArtifactsStand(n.artifacts, ownA, next.artifacts)
      && ContextStands(n.context, ownC, next.context)
  {
    assert n.context != null ==> n.context in st.context;
    assert n.goals in st.goals && n.artifacts in st.artifacts && allocated(st.goals) && allocated(st.artifacts);
    ReducedParts(lib, value, e, newID);
    var path;
    path, ownC := Say(lib, n.context, e.payload, calls, st.context, value.context);
    assert GoalsStand(n.goals, st.goals, value.goals) == old(GoalsStand(n.goals, st.goals, value.goals));
    label Said:
    goals, ownG := ReduceGoals(n.goals, e.payload, newID, st.goals, value.goals);
    assert ArtifactsStand(n.artifacts, st.artifacts, value.artifacts) == old(ArtifactsStand(n.artifacts, st.artifacts, value.artifacts));
    label Aimed:
    ownA := RecordArtifact(lib, n.artifacts, path, e.at, newID, st.artifacts, value.artifacts);
    ghost var said, aims := SaidIn(value.context, e.payload), GoalsAfter(value.goals, e.payload, newID);
    assert ContextStands(n.context, ownC, said) == old@Said(ContextStands(n.context, ownC, said)) by {
      assert old@Said(allocated(ownC)) && n.goals !in ownC && n.artifacts !in ownC;
    }
    assert GoalsStand(goals, ownG, aims) == old@Aimed(GoalsStand(goals, ownG, aims)) by {
      assert old@Aimed(allocated(ownG)) && n.artifacts !in ownG;
    }
  }

  /** Apply an event to a state whose storage may be written. */
  method Mutate(lib: Library, n: StateRec, e: Event, newID: string, calls: array<ToolCall>,
      ghost st: Storage, ghost shared: set<object>, ghost value: State)
    returns (m: StateRec, ghost own: Storage)
    requires StateStands(n, st, shared, value) && shared !! st.All()
    requires n.goals != null && n.artifacts != null && (n.context != null ==> n.context.v.messages != null)
    requires Carried(e.payload, calls) && calls !in st.All() && !Panics(value, e)
    modifies n.goals, n.artifacts, n.context
    ensures forall o :: o in own.All() && o !in st.All() + {calls} ==> fresh(o)
    ensures StateStands(m, own, shared, Reduce(lib, value, e, newID))
  {
    assert allocated(st.tasks) && allocated(st.locks) && allocated(shared);
    var goals, ownG, ownA, ownC := MutateParts(lib, n, e, newID, calls, st, value);
    assert TasksStand(n.tasks, st.tasks, shared, value.tasks) == old(TasksStand(n.tasks, st.tasks, shared, value.tasks));
    assert LocksStand(n.locks, st.locks, value.locks) == old(LocksStand(n.locks, st.locks, value.locks));
    m := n.(version := n.version + 1, updatedAt := e.at, goals := goals);
    if e.payload.SystemPrompt? {
      m := m.(systemPrompt := e.payload.prompt);
    }
    own := Storage(ownG, st.tasks, ownA, st.locks, ownC);
    PartsStand(m, own, shared, Reduce(lib, value, e, newID));
  }

  lemma PartsStand(m: StateRec, own: Storage, shared: set<object>, value: State)
    requires own.Disjoint()
    requires GoalsStand(m.goals, own.goals, value.goals) && TasksStand(m.tasks, own.tasks, shared, value.tasks)
    requires ArtifactsStand(m.artifacts, own.artifacts, value.artifacts) && LocksStand(m.locks, own.locks, value.locks)
    requires ContextStands(m.context, own.context, value.context)
    requires m.version == value.version && m.updatedAt == value.updatedAt && m.systemPrompt == value.systemPrompt
    requires m.mode == value.mode && m.planContent == value.planContent
    ensures StateStands(m, own, shared, value)
  {
  }

  /** Clone, then write the clone. */
  method CloneAndMutate(lib: Library, s: StateRec, e: Event, newID: string, calls: array<ToolCall>,
      ghost st: Storage, ghost shared: set<object>, ghost value: State)
    returns (m: Option<StateRec>, ghost own: Storage)
    requires StateStands(s, st, shared, value) && Carried(e.payload, calls)
    ensures m.None? <==> Panics(value, e)
    ensures m.Some? ==> StateStands(m.value, own, shared, Reduce(lib, value, e, newID))
    ensures m.Some? ==> forall o :: o in own.All() && o != calls ==> fresh(o)
  {
    assert allocated(shared);
    var n;
    n, own := CloneState(s, st, shared, value);
    if n.context == null && |Said(e.payload)| > 0 {
      return None, own;
    }
    var reduced;
    reduced, own := Mutate(lib, n, e, newID, calls, own, shared, value);
    m := Some(reduced);
  }

  /** The reducer on memory. It modifies nothing that was there before; all storage of the new
      state is new, except that a response's message holds the event's own slice of calls and
      that lists of allowed tools are shared; and the new state stands for the reduced value.
      A missing context window is the one way to panic. */
  method Reducer(lib: Library, s: StateRec, e: Event, newID: string, calls: array<ToolCall>,
      ghost st: Storage, ghost shared: set<object>, ghost value: State)
    returns (r: Result<StateRec, string>, cmds: seq<Command>, ghost own: Storage)
    requires StateStands(s, st, shared, value) && Carried(e.payload, calls)
    ensures r.Err? <==> Panics(value, e)
    ensures r.Ok? ==> StateStands(r.value, own, shared, Reduce(lib, value, e, newID)) && cmds == Commands(lib, e)
    ensures r.Ok? ==> forall o :: o in own.All() && o != calls ==> fresh(o)
  {
    cmds := [];
    if e.payload.LLMResponse? {
      cmds := QueueCalls(lib, calls);
    }
    var m;
    m, own := CloneAndMutate(lib, s, e, newID, calls, st, shared, value);
    r := if m.Some? then Ok(m.value) else Err("reducer panic");
  }

  // ---------------------------------------------------------------------------
  // Snapshots
  // ---------------------------------------------------------------------------

  /** The states a history passes through, up to n events. */
  ghost function PassedThrough(lib: Library, value: State, history: seq<(Event, string)>, n: nat): (states: seq<State>)
    requires value.context.Some? && n <= |history|
    ensures |states| == n + 1 && forall i :: 0 <= i <= n ==> states[i] == Replay(lib, value, history[..i])
    ensures states[n].context.Some?
  {
    seq(n + 1, i requires 0 <= i <= n => Replay(lib, value, history[..i]))
  }

  lemma ReplayOneMore(lib: Library, value: State, history: seq<(Event, string)>, n: nat)
    requires value.context.Some? && n < |history|
    ensures Replay(lib, value, history[..n + 1]) ==
      Reduce(lib, Replay(lib, value, history[..n]), history[n].0, history[n].1)
  {
    var more := history[..n + 1];
    assert more[..n] == history[..n] && more[n] == history[n];
  }

  lemma SeqOneMore(a: seq<State>, b: seq<State>, x: State)
    requires |b| == |a| + 1 && b[|a|] == x && forall i :: 0 <= i < |a| ==> b[i] == a[i]
    ensures b == a + [x]
  {
  }

  lemma OneMoreState(lib: Library, value: State, history: seq<(Event, string)>, n: nat)
    requires value.context.Some? && n < |history|
    ensures var states := PassedThrough(lib, value, history, n);
      PassedThrough(lib, value, history, n + 1) ==
        states + [Reduce(lib, Replay(lib, value, history[..n]), history[n].0, history[n].1)]
  {
    ReplayOneMore(lib, value, history, n);
    SeqOneMore(PassedThrough(lib, value, history, n), PassedThrough(lib, value, history, n + 1),
               Reduce(lib, Replay(lib, value, history[..n]), history[n].0, history[n].1));
  }

  /** Every snapshot stands for the value it had, with storage in `all`. */
  ghost predicate AllStand(
      kept: seq<StateRec>, storages: seq<Storage>, all: set<object>, shared: set<object>, values: seq<State>)
    reads all, shared
  {
    && |kept| == |storages| == |values|
    && forall i :: 0 <= i < |kept| ==> storages[i].All() <= all && StateStands(kept[i], storages[i], shared, values[i])
  }

  lemma AllStandMore(
    kept: seq<StateRec>, storages: seq<Storage>, all: set<object>, shared: set<object>, values: seq<State>,
    next: StateRec, own: Storage, value: State)
    requires AllStand(kept, storages, all, shared, values) && StateStands(next, own, shared, value)
    ensures AllStand(kept + [next], storages + [own], all + own.All(), shared, values + [value])
  {
  }

  /** Reduce the latest snapshot into one more; the others stand for what they did. */
  method ReduceLatest(lib: Library, kept: seq<StateRec>, e: Event, newID: string, calls: array<ToolCall>,
      ghost storages: seq<Storage>, ghost all: set<object>, ghost shared: set<object>, ghost values: seq<State>,
      ghost grown: seq<State>)
    returns (more: seq<StateRec>, ghost moreStorages: seq<Storage>, ghost moreAll: set<object>)
    requires kept != [] && AllStand(kept, storages, all, shared, values) && Carried(e.payload, calls)
    requires !Panics(values[|values| - 1], e) && grown == values + [Reduce(lib, values[|values| - 1], e, newID)]
    ensures AllStand(more, moreStorages, moreAll, shared, grown) && kept <= more
  {
    var i := |kept| - 1;
    assert allocated(all) && allocated(shared);
    var r, cmds, own := Reducer(lib, kept[i], e, newID, calls, storages[i], shared, values[i]);
    assert AllStand(kept, storages, all, shared, values) == old(AllStand(kept, storages, all, shared, values));
    AllStandMore(kept, storages, all, shared, values, r.value, own, Reduce(lib, values[i], e, newID));
    more, moreStorages, moreAll := kept + [r.value], storages + [own], all + own.All();
  }

  /** The calls of every response are in its slice. */
  ghost predicate AllCarried(history: seq<(Event, string)>, slices: seq<array<ToolCall>>, arrays: set<object>)
    reads arrays
  {
    && |slices| == |history|
    && forall i :: 0 <= i < |history| ==> slices[i] in arrays && Carried(history[i].0.payload, slices[i])
  }

  /** Reduce a history one event after the other, keeping every intermediate state: at the end
      each snapshot still stands for the replay of its own prefix of the history, whatever was
      reduced after it. */
  method Snapshots(lib: Library, s: StateRec, history: seq<(Event, string)>, slices: seq<array<ToolCall>>, n: nat,
      ghost arrays: set<object>, ghost st: Storage, ghost shared: set<object>, ghost value: State)
    returns (kept: seq<StateRec>, ghost storages: seq<Storage>, ghost all: set<object>)
    requires AllStand([s], [st], st.All(), shared, [value]) && value.context.Some?
    requires AllCarried(history, slices, arrays) && n <= |history|
    ensures AllStand(kept, storages, all, shared, PassedThrough(lib, value, history, n))
    ensures kept != [] && kept[0] == s
  {
    if n == 0 {
      assert PassedThrough(lib, value, history, 0) == [value];
      return [s], [st], st.All();
    }
    assert allocated(arrays);
    kept, storages, all := Snapshots(lib, s, history, slices, n - 1, arrays, st, shared, value);
    assert AllCarried(history, slices, arrays) == old(AllCarried(history, slices, arrays));
    OneMoreState(lib, value, history, n - 1);
    ghost var values, grown := PassedThrough(lib, value, history, n - 1), PassedThrough(lib, value, history, n);
    kept, storages, all := ReduceLatest(
      lib, kept, history[n - 1].0, history[n - 1].1, slices[n - 1], storages, all, shared, values, grown);
  }
}

