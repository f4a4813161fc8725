# A model of the agent server

The repository is an agent server: a runtime that folds events into a state, asks a language
model what to do, runs tools, and keeps everything on disk so that a session survives a crash
and can be rewound. This project models the parts of it whose correctness spans whole runs and
several components, and proves what those parts are for.

| module | what it models |
|---|---|
| `States` | the state as a plain value and the reducer as a function on it (packages/agent/pkg/runtime/reducer.go, packages/agent/pkg/types/state.go) |
| `Reducing` | what one event does to a state, part by part and in so many words, and what becomes of goals over a history |
| `StateHeap` | the same state as Go lays it out in memory: pointers, slices and maps; `Clone` and the reducer as methods on that memory |
| `Interleaving`, `RuntimeSafety` | `Run` and `Ingest` as two threads over memory and disk, cut at every lock boundary and at every step of `atomicWrite`, with store failures and crashes anywhere |
| `WriteAhead` | the same two threads and their log: what is reduced was logged before, what a step does to the disk, and what the model is asked about |
| `Accounts` | what a run leaves behind as values: the log and the history reduced from it, the commands run, the file changes handed over by checkpoints |
| `Runtime` | the `Runtime` object and its store on one thread: every method of the loop, with `Ingest` between steps |
| `Stream` | the assembly of tool calls from a chunked answer, and the dispatcher that adds the chunks up |
| `Patch`, `UndoLog`, `PatchEngine` | the patch engine: backups with metadata, in-place writes through a temporary file, rollback, the tracker of file changes |
| `PatchRuns` | applies, dry runs and checkpoints in any sequence over one tracker, and a rewind after them |
| `Rewind` | `SessionService.Rewind` over the checkpoint listing |
| `Checkpoints` | names of checkpoint files, their listing, and the search for the latest |
| `Sse`, `Delivery` | the event log cursor, the polling connection that writes Server-sent events, and the line reader of the command line client |
| `Sessions` | the life of a session as concurrent steps of `Create`, `Message`, `Cancel` and the runs |
| `Permissions` | tool execution with the user's approval as concurrent calls and responses |
| `Normalize` | the OpenAPI definition renamer of the Go SDK, in place on the decoded document |
| `Wrappers`, `Texts` | shared result types; strings, lines and fields |

The three concurrent protocols are state machines: `Interleaving.Do`, `Sessions.Do` and
`Permissions.Do` take one atomic step each, `Enabled` says when, and a theorem about `Execution`
ranges over every interleaving. On a single thread, an object that the source updates in place is a
class or an array that methods modify, and each such method is proved against a function or a
predicate on values. In `Accounts`, `Goes` is the relation between any moment of a run and a later
one; every method of the loop is proved to keep it, and so is the run as a whole.

## What is taken as given

Generated ids are values never produced before; clocks, the model, tools, and failures of the
store are arbitrary at every call. A file system is a map from resolved path to content, and an
absent file reads as empty, as `readFile` has it (packages/agent/pkg/patch/apply.go:147-159). Synced content
survives a power loss; renames may not, since no directory is ever synced: a power loss may take back
the latest renames of the state file and of checkpoints, in the order they were made.
Diff parsing and application, path validation, JSON decoding of arguments and `filepath.Base` are
functions given from outside. JSON is a codec: what is encoded decodes to the same value, on one
line. An opaque Go `any` is an identity.

## What does not hold

Some things one might expect of the code are false; each is stated as a lemma with the input
that shows it, and beside it stands the exact condition.

- A code rewind does not undo changes in reverse chronological order, although the comment at
  packages/agent/pkg/api/service/session.go:358-359 asks for it: the windows are undone oldest
  first. `TwoWindowsMissTheTarget` shows a file that ends up with the content between two
  checkpoints; `RewindMeetsIntentIff` says exactly when the result is right.
- What is ingested while `applyEvent` is reducing is dropped from memory, though it was logged and
  saved: `IngestDuringReduceIsDropped`; `StepKeepsMemoryIff` says for every step when it keeps all
  of memory.
- The same happens between the two steps of a recovery: `IngestDuringRecoveryIsDropped`. If the file
  held memory when it was read, the recovery keeps memory exactly if neither a message nor another
  system prompt came in since: `RecoverKeepsMemoryIff`.
- What is ingested between a checkpoint's copy and its save stays in memory, but the older copy
  replaces the file that had it: `IngestDuringCheckpointLeavesTheFile`. The save leaves all of memory
  in the file exactly if neither a message nor another system prompt came in since the copy was
  taken: `SaveKeepsMemoryIff`.
- `Task.Clone` shares the slice of allowed tools with the original (`CloneTask`), and a new
  assistant message shares the event's slice of tool calls (`Reducer`).
- A run whose last checkpoint cannot be saved leaves memory ahead of the state file, and the next
  run starts by forgetting those events: `UnsavedAnswerIsForgotten`, and `AnswerIsForgotten` for what
  such a history loses. `Recover` forgets nothing exactly if file and memory have the same version.
- A conversation rewind changes the state file only. A message ingested before the next run writes
  memory over it: `RewindThenIngest` says that the file then holds what the message makes of the
  target exactly if target and memory had the same version.
- After a crash that finds an open call in the saved state, the next run asks the model with a call
  that has no answer: `CrashOrphansCalls`. Without lost calls a request is fully answered exactly
  if its run started with every open call queued: `RequestsAreFullyAnswered`.
- An answer whose stream ends without a finish reason keeps its text and loses its tool calls
  (`Respond`).
- A message accepted before `Create` has marked the session as running gives it two runs
  (`HastyMessageDoubles`; without one there is at most one, `SingleRunner`).
- Cancelling does not always last: `CancelIsFinalIff` says that no later step starts a run exactly
  if none is left, or all that is left of one is to write that it failed or was cancelled, and
  otherwise how the session comes to run again.
- A permission request is announced before it is registered, so an immediate answer is refused
  (`EarlyAnswerIsLost`); a response is found exactly while its call is registered
  (`ResponseIsFoundIff`).
- Two definitions whose names become equal replace one another in map order. References are
  preserved exactly if such definitions are written out the same once rewritten (`PreservedIff`).
- A reference below a `$ref` key or inside a mapping with a key that is not a string is not
  rewritten; it follows its definition exactly if the definition kept its name
  (`EveryReferenceFollows`).
- A cursor over event ids is not exact by itself: every schedule of polls delivers each entry once
  exactly if each entry to deliver has an id that no earlier one has (`ExactIffIdentified`). The
  server generates the id of every event.

## Model

| member | source | states |
|---|---|---|
| `States.ReduceExtendsConversation` | packages/agent/pkg/runtime/reducer.go:65-221 | one event extends the conversation by at most one message, adds to the calls made exactly the calls it queues as commands, and to the calls answered exactly the result it carries |
| `States.ToolCommandsCarryCallIDs` | packages/agent/pkg/runtime/reducer.go:135-155 | the commands queued for a response carry exactly its call ids, in order |
| `States.FirstActive` | packages/agent/pkg/runtime/runtime.go:226-241 | the position is an active goal and no earlier goal is active, or there is no active goal |
| `States.GoalsStayDisciplined` | packages/agent/pkg/runtime/reducer.go:80-182 | every event keeps all goals but the last completed, and drops, reorders or reopens none |
| `States.GoalDiscipline` | packages/agent/pkg/runtime/runtime.go:226-241 | after any history from a new state at most one goal is active, and it is the one goal selection returns |
| `States.HistoryOnlyGrows` | packages/agent/pkg/runtime/reducer.go:65-221 | over any history the old conversation stays a prefix, goals only advance, and the version counts the events |
| `States.ReplayConcat` | packages/agent/pkg/runtime/runtime.go:210-224 | replaying a history from a saved intermediate state gives the state of replaying it all |
| `Reducing.MessageIsAdded` | packages/agent/pkg/runtime/reducer.go:80-182 | a user message and a response are added at the end as they are, an empty response as a blank; a tool result is added under its call id and name, a failed one as its error; no other event adds a message |
| `Reducing.OnlyTheseChange` | packages/agent/pkg/runtime/reducer.go:53-80 | every event counts the version up and sets the time; only a system prompt event sets the prompt; mode, plan, tasks and locks are never touched |
| `Reducing.OnlyResponsesQueue` | packages/agent/pkg/runtime/reducer.go:135-155 | a response queues one command for each of its calls, in order, with its id, name and decoded arguments, an empty object when they are missing or cannot be decoded; nothing else queues anything |
| `Reducing.FoundInConversation` | packages/agent/pkg/runtime/reducer.go:184-217 | a call found by its id is the first with that id in the latest assistant message that has one; none is found only if no assistant message has it |
| `Reducing.ArtifactIsFiledIff` | packages/agent/pkg/runtime/reducer.go:183-217 | an artifact is filed if and only if a `create_file` succeeded whose call is in the conversation with a path that is not empty; it is a file of that path |
| `Reducing.GoalIsCompletedIff` | packages/agent/pkg/runtime/reducer.go:109-182 | the first open goal is completed if and only if the event is a successful `task_complete` result or a response without calls whose text is neither empty nor a blank; no other goal changes |
| `Reducing.GoalIsAddedIff` | packages/agent/pkg/runtime/reducer.go:80-108 | a goal is added if and only if the event is a user message and none is open; it is pending and is what the user said |
| `Reducing.GoalIsCompletedOnce` | packages/agent/pkg/runtime/reducer.go:65-221 | over any history a goal is completed in the end if and only if it was already, or an event that finishes goals came once it was there |
| `Reducing.GoalIsRaisedOnce` | packages/agent/pkg/runtime/reducer.go:65-221 | over any history each goal added is what a user message said when no goal was open |
| `Reducing.NewIsEmpty` | packages/agent/pkg/types/state.go:36-48 | a session starts with nothing said and nothing to do, and its version counts its history |
| `Reducing.RequestReads` | packages/agent/pkg/runtime/runtime.go:267-319 | a request is the system message, the default prompt for the goal or the prompt followed by the goal and the name of its status, and then exactly the conversation |
| `StateHeap.CloneGoal` | packages/agent/pkg/types/state.go:104-111 | the clone stands for the same goal and owns no old object |
| `StateHeap.CloneMessage` | packages/agent/pkg/types/state.go:207-217 | the clone stands for the same message and owns no old object |
| `StateHeap.CloneTask` | packages/agent/pkg/types/state.go:114-153 | the clone stands for an equal task record; all of its storage is new except the slice of allowed tools, which is the original's own |
| `StateHeap.CloneArtifact` | packages/agent/pkg/types/state.go:156-177 | the clone stands for the same artifact and owns no old object |
| `StateHeap.CloneTasks` | packages/agent/pkg/types/state.go:73-78 | the new table stands for the same tasks, nil entries left out, in storage that is new but for the shared slices |
| `StateHeap.CloneContext` | packages/agent/pkg/types/state.go:180-204 | the new window stands for the same conversation and owns no old object |
| `StateHeap.CloneState` | packages/agent/pkg/types/state.go:51-101 | a deep copy: the clone stands for the same state, part by part in separate new storage |
| `StateHeap.ReduceGoals` | packages/agent/pkg/runtime/reducer.go:80-182 | in place on the clone's goal slice, the goals become those the event leaves |
| `StateHeap.SearchCall` | packages/agent/pkg/runtime/reducer.go:184-217 | the backwards search finds the call with this id in the latest assistant message that has one |
| `StateHeap.Reducer` | packages/agent/pkg/runtime/reducer.go:54-221 | modifies nothing that was there before; the new state stands for the reduced value in storage that is new but for the event's slice of calls and shared slices; it fails exactly when a message meets a missing context window |
| `StateHeap.Snapshots` | packages/agent/pkg/runtime/reducer.go:63-68 | however many events are reduced, each earlier snapshot still stands for the replay of its own prefix of the history |
| `StateHeap.OneState` | packages/agent/pkg/types/state.go:51-101 | a structure in memory stands for one state only, whatever storage it is said to have |
| `Interleaving.StepKeepsStorage` | packages/agent/pkg/store/fs_store.go:245-279 | each step keeps the state file absent or whole, now and before each rename, and the temporary file as far as the save has come |
| `Interleaving.StepRecords` | packages/agent/pkg/store/fs_store.go:245-333 | no step puts another state on its way to disk than the one in memory, and only a checkpoint's copy and an ingest's save put that |
| `Interleaving.StepKeepsPairing` | packages/agent/pkg/runtime/runtime.go:121-188 | each step keeps every call answered, in flight, waiting or known lost, once each, in order while none is lost |
| `Interleaving.RecoverStaysPaired` | packages/agent/pkg/runtime/runtime.go:104-108 | after a clean stop a restart finds exactly the unanswered calls of the loaded state in its queue |
| `RuntimeSafety.StepInvariant` | packages/agent/pkg/runtime/runtime.go:104-346 | every enabled step of either thread, a failure or a crash keeps the whole invariant |
| `RuntimeSafety.ToolCallPairing` | packages/agent/pkg/runtime/dispatcher.go:124-176 | in every state of a run that started paired, answered, in-flight, waiting and lost calls are together the calls made; in order, answered before in flight before waiting, exactly when none is lost |
| `RuntimeSafety.RequestsAreFullyAnswered` | packages/agent/pkg/runtime/runtime.go:267-319 | at every request to the model, as long as no call was lost, each call of the conversation sent has been answered exactly once, in order and after it was made, if and only if the run started with every open call queued; the request is the system message for the goal and then the conversation |
| `RuntimeSafety.CrashOrphansCalls` | packages/agent/pkg/runtime/runtime.go:210-224 | after a crash with an open call in the state file the next run starts unpaired, and its first request has a call without an answer |
| `RuntimeSafety.SessionStaysPaired` | packages/agent/pkg/runtime/runtime.go:104-224 | over a session of runs and restarts without a fault every run starts paired and loses no call |
| `RuntimeSafety.DurableFrontier` | packages/agent/pkg/store/fs_store.go:245-333 | in every interleaving, at every crash point, and after a power loss that takes back the latest renames, the state file is absent or one whole state, at least as new as every checkpoint; it and every checkpoint were in memory when a checkpoint copied or an ingest saved them |
| `RuntimeSafety.NeverPanics` | packages/agent/pkg/runtime/reducer.go:53-61 | in every reachable state the reducer's next input has a context window, goals are disciplined, and a stopped run can load the state file |
| `RuntimeSafety.NeverStuck` | packages/agent/pkg/runtime/runtime.go:104-346 | in every reachable state each thread can take its next step as soon as it can have the lock it needs, with a failure as possible as a success wherever the store can fail; the process may crash at any point, with or without a power loss; the two threads are never both in the middle of a save |
| `RuntimeSafety.StepKeepsMemoryIff` | packages/agent/pkg/runtime/reducer.go:15-35 | for every step of every execution, exactly when it keeps all of memory, messages, goals and system prompt: a write of `applyEvent` if neither a message nor another prompt came in since its read, an ingest unless it sets another prompt, a recovery if the loaded state has it all, all others but a crash always |
| `RuntimeSafety.RecoverKeepsMemoryIff` | packages/agent/pkg/runtime/runtime.go:210-224 | over every execution, a recovery whose file held memory when it was read keeps memory exactly if neither a message nor another system prompt was ingested since; without a file it always does |
| `RuntimeSafety.SaveKeepsMemoryIff` | packages/agent/pkg/runtime/runtime.go:321-346 | over every execution, the rename that ends a checkpoint's save puts its copy in the file, and that has all of memory exactly if neither a message nor another system prompt came in since the copy was taken |
| `RuntimeSafety.IngestDuringReduceIsDropped` | packages/agent/pkg/runtime/reducer.go:15-35 | a message ingested, logged and saved during a reduction is gone from memory after the write |
| `RuntimeSafety.IngestDuringRecoveryIsDropped` | packages/agent/pkg/runtime/runtime.go:210-224 | a message ingested, logged and saved between the two steps of a recovery is gone from memory after it |
| `RuntimeSafety.IngestDuringCheckpointLeavesTheFile` | packages/agent/pkg/runtime/runtime.go:321-346 | a message ingested after a checkpoint took its copy is in the file after its own save, and no longer after the checkpoint's save, while memory keeps it |
| `RuntimeSafety.UnsavedAnswerIsForgotten` | packages/agent/pkg/runtime/runtime.go:202-224 | an answer reduced in the last step of a run whose checkpoint fails is in the log, and gone from memory once the next run has recovered |
| `RuntimeSafety.UninterruptedApply` | packages/agent/pkg/runtime/reducer.go:15-35 | left alone, the three critical sections of `applyEvent` amount to one reduction of memory |
| `WriteAhead.LogStep` | packages/agent/pkg/runtime/dispatcher.go:51-57 | the log never loses anything; a token, an ingested message, and the results of a batch in order and once are all that is ever appended |
| `WriteAhead.EveryStateStemsFromTheLog` | packages/agent/pkg/store/fs_store.go:79-123 | in every interleaving, after any crashes and power losses, memory, the state file, each checkpoint and whatever is on its way to disk is the fold of a history of logged events; what waits to be reduced has been logged |
| `WriteAhead.ResultsAreReduced` | packages/agent/pkg/runtime/runtime.go:121-188 | once the results of a batch are logged they are written into memory in order and each once: at any time until the run goes on, those written and those still to be reduced make up the results, and it goes on only when all are written |
| `WriteAhead.DiskStep` | packages/agent/pkg/store/fs_store.go:245-333 | a rename adds the temporary file as state file or the copy of a checkpoint to what has been on disk, a power loss takes the latest renames away, and nothing else changes it |
| `WriteAhead.DiskOnlyGrows` | packages/agent/pkg/store/fs_store.go:245-333 | over any stretch without a power loss checkpoints are only added and a state file stays one |
| `WriteAhead.CheckpointLeadsTo` | packages/agent/pkg/runtime/runtime.go:112-208 | what a checkpoint leads to, whatever comes in meanwhile and whether or not it can be saved: after a shutdown or with no open goal the run stops, cleanly exactly if the state was saved; after a turn the loop goes on |
| `WriteAhead.SelectsFirstOpen` | packages/agent/pkg/runtime/runtime.go:149-165 | the run selects the first open goal, and with none open goes to its last checkpoint |
| `WriteAhead.RequestIsAboutFirstOpen` | packages/agent/pkg/runtime/runtime.go:267-319 | in every interleaving each request is about the goal that was the first open one when the run selected it just before, tells the whole conversation as it is when sent, and is what the run executes next |
| `Accounts.LogDeterminesState` | packages/agent/pkg/runtime/reducer.go:65-221 | two replays of one log agree on the whole state but for generated ids, and file the same artifacts in the same order but for their ids |
| `Accounts.ArtifactsAreFiled` | packages/agent/pkg/runtime/reducer.go:183-217 | a state's artifacts are those it started with and, filed over them one by one, those its history created |
| `Accounts.ConservedIff` | packages/agent/pkg/runtime/runtime.go:321-346 | saved checkpoints and pending changes hold every recorded change, in order, exactly when each checkpoint that failed to save had no changes |
| `Accounts.LogGrew` | packages/agent/pkg/store/fs_store.go:79-94 | appending reducible events extends what the log tells the reducer by exactly them |
| `Accounts.FollowedTransitive` | packages/agent/pkg/runtime/runtime.go:104-188 | if memory follows the log from one moment to a second and from there to a third, it does so from the first to the third: the history is the fold, the calls that follow from it are queued or were run, and it is what was logged for the reducer unless something failed |
| `Accounts.GoesOn` | packages/agent/pkg/runtime/runtime.go:104-188 | the whole relation between moments of a run composes: nothing on record is taken back, windows are lost only if a save failed, log and history part only if an append failed, and each checkpoint saved in between holds the fold of the history up to its point, points in order |
| `Accounts.NewlyMarkedJoin` | packages/agent/pkg/runtime/runtime.go:321-346 | checkpoints saved over two stretches of a run, each holding the fold of the history up to its point, do so over both, in order |
| `Accounts.FollowedStaysTold` | packages/agent/pkg/runtime/runtime.go:104-224 | a history that was what the log tells the reducer stays so as long as no append fails |
| `Accounts.RecoverForgetsIff` | packages/agent/pkg/runtime/runtime.go:210-224 | going back to an earlier point of a history changes the state, and its version, exactly if it is not its end |
| `Accounts.GoneBackDiffers` | packages/agent/pkg/runtime/reducer.go:65-221 | reducing an event after going back gives the same as reducing it without going back exactly if nothing was gone back over |
| `Accounts.AnswerIsForgotten` | packages/agent/pkg/runtime/runtime.go:202-224 | the history of a message and its answer: going back to the state saved with the message forgets the answer and leaves the goal open, at an older version |
| `Runtime.Store.AppendEvents` | packages/agent/pkg/store/fs_store.go:85-94 | success appends all events in order; a failure leaves a prefix of them |
| `Runtime.Runtime.constructor` | packages/agent/pkg/runtime/runtime.go:82-94 | a new runtime is in step with what its log holds from then on and accounts for all file changes |
| `Runtime.Runtime.ApplyEvent` | packages/agent/pkg/runtime/reducer.go:15-35 | reduces the event and queues exactly its commands, or changes nothing when the reducer panics; keeps memory the fold of its history |
| `Runtime.Runtime.Ingest` | packages/agent/pkg/runtime/runtime.go:249-265 | says how far it came and why: the log gained the event or its append failed, memory and queue went on by exactly this event or stayed, and the state file holds the new state exactly on success |
| `Runtime.Runtime.Recover` | packages/agent/pkg/runtime/runtime.go:210-224 | memory becomes the saved state, the fold of the part of the history that was saved; it changes nothing exactly if file and memory have the same version, that is if all of the history was saved |
| `Runtime.Runtime.RewindThenIngest` | packages/agent/pkg/api/service/session.go:407-415 | after a conversation rewind and an ingest the file holds what memory made of the message, which is what the target makes of it exactly if target and memory had the same version |
| `Runtime.Runtime.SelectGoal` | packages/agent/pkg/runtime/runtime.go:226-241 | returns the first pending or in-progress goal, or none when there is none |
| `Runtime.Runtime.Decide` | packages/agent/pkg/runtime/runtime.go:267-319 | one request: the system message made of the prompt and the goal, then the conversation as it is; without a context window it cannot |
| `Runtime.Runtime.ExecuteCallLLM` | packages/agent/pkg/runtime/dispatcher.go:62-112 | an error exactly when neither a stream nor an answer is to be had; else the response is the answer word for word, or of a stream the text and calls its chunks add up to; all that is logged on the way are tokens, which spell the text, none missing unless an append failed |
| `Runtime.Runtime.ExecuteCallTool` | packages/agent/pkg/runtime/dispatcher.go:124-176 | an error exactly when the arguments cannot be encoded, and then nothing was run, logged or changed; else the result carries the id and name of the call, is a success with the content exactly when the tool reported no error, and has its error otherwise; the tracker gains exactly the changes the tool made |
| `Runtime.Runtime.Dispatch` | packages/agent/pkg/runtime/dispatcher.go:13-60 | one event per command, in order, each the answer of the model or the tool to that command; what the log gained for the reducer is exactly the events returned; on a failed append none is returned |
| `Runtime.AllForReducer` | packages/agent/pkg/runtime/dispatcher.go:13-60 | such answers are what the interleaved model takes as outcomes of the commands, and none is for clients only |
| `Runtime.Runtime.Observe` | packages/agent/pkg/runtime/runtime.go:133-138 | memory becomes the fold of exactly these events, and the commands that follow from them are queued in order |
| `Runtime.Runtime.Checkpoint` | packages/agent/pkg/runtime/runtime.go:321-346 | success adds a checkpoint with the state, its point in the history and exactly the changes since the last flush; failure says which of the two saves failed; success or not, the changes leave the tracker |
| `Runtime.Runtime.Turn` | packages/agent/pkg/runtime/runtime.go:119-188 | one turn runs exactly what is due, the queued commands or one request for the first active goal, reduces one answer for each and leaves queued what follows from them; it finishes only when nothing is due; and it goes on from the moment before as `Goes` says |
| `Runtime.Runtime.TurnAndSave` | packages/agent/pkg/runtime/runtime.go:139-187 | after a turn in every step that the interval divides, the state is in the file and no change is pending, unless the save failed |
| `Runtime.Runtime.Run` | packages/agent/pkg/runtime/runtime.go:104-208 | from the moment after recovery on nothing logged, reduced, checkpointed or recorded is taken back; each checkpoint saved holds the fold of the history up to its point; round by round the run hears what others ingested and runs what is due in the state the history has come to; the history is what was heard and one answer for each command, the one the model or tool gave, and equals what was logged for the reducer, unless an append failed; each call queued is run once or still waits; changes are conserved exactly if no window that failed to save had any; a checkpoint is taken after each turn in a step that the interval divides and when the run finishes or is shut down, and at no other time; a finished run has nothing left to do and its state in the file, unless its last save failed |
| `Runtime.DueReads` | packages/agent/pkg/runtime/runtime.go:119-170 | what is due is the queue; if that is empty, one request to the configured model about the first open goal with the whole conversation; if none is open or there is no conversation, nothing |
| `Runtime.RoundGoes` | packages/agent/pkg/runtime/runtime.go:104-188 | rounds compose with one more: what was due, heard and answered, and all that holds between moments of a run |
| `Runtime.RequestTellsTheHistory` | packages/agent/pkg/runtime/runtime.go:267-319 | over a run without failures, a round that finds nothing queued asks the model once, about the first open goal and with the whole conversation that results from what earlier rounds heard and were answered and what this round heard |
| `Stream.MergeOne` | packages/agent/pkg/llm/openai/provider.go:211-240 | the builder holds for each index seen the joined arguments and the last non-empty id and name |
| `Stream.CallStream` | packages/agent/pkg/llm/openai/provider.go:190-259 | the chunks add up to the text up to the finish, and to each assembled call once, in some order; to no call when the stream ends without a finish reason |
| `Stream.Consume` | packages/agent/pkg/runtime/dispatcher.go:82-111 | content and calls are the sums over the chunks, and the tokens logged on the way spell the content |
| `Stream.HeardUpToFinish` | packages/agent/pkg/llm/openai/provider.go:190-259 | a stream is heard up to its first packet with a finish reason, and to its end if there is none |
| `Stream.PacketInOrder` | packages/agent/pkg/llm/openai/provider.go:190-259 | the text and the fragments of each packet stand between those of earlier and of later packets |
| `Stream.ChunkInOrder` | packages/agent/pkg/runtime/dispatcher.go:82-111 | so do the text and the calls of each chunk |
| `Stream.FragmentInOrder` | packages/agent/pkg/llm/openai/provider.go:211-240 | so do the arguments of each fragment among those of its index |
| `Stream.IndexIsListedIff` | packages/agent/pkg/llm/openai/provider.go:244-252 | the calls sent have each index once that some fragment was sent with, and no other, with the joined arguments of its fragments |
| `Stream.CallIDReads` | packages/agent/pkg/llm/openai/provider.go:211-240 | the id of a call is the last one sent with its index that was not empty |
| `Stream.CallNameReads` | packages/agent/pkg/llm/openai/provider.go:211-240 | so is its name |
| `Stream.StreamingRefinesSync` | packages/agent/pkg/llm/openai/provider.go:195-259 | a complete answer cut, numbered and interleaved in any way and then finished is rebuilt: the same text, the same multiset of calls |
| `Stream.PickedInAnyOrder` | packages/agent/pkg/llm/openai/provider.go:244-252 | visiting the builder's entries once each in any order gives the same multiset of calls |
| `Stream.Respond` | packages/agent/pkg/runtime/dispatcher.go:62-112 | provider and dispatcher together rebuild the text always, and the calls exactly when a finish reason came or there were none |
| `Patch.MetadataNamesPath` | packages/agent/pkg/patch/rollback.go:15-43 | rollback reads back the path written into the metadata, for any single-line path |
| `Patch.MetadataRoundTrip` | packages/agent/pkg/patch/rollback.go:93-109 | the listing reads back id, path and time, also when the path contains the separator |
| `Patch.PathReads` | packages/agent/pkg/patch/rollback.go:31-43 | the path is what follows the key on the first line that starts with it, or nothing |
| `Patch.FieldReads` | packages/agent/pkg/patch/rollback.go:93-109 | a listed field is what follows its key on the last line that starts with it |
| `Texts.SplitReads` | packages/agent/pkg/patch/rollback.go:31-43 | the lines of a text are without line breaks, and joined again with one after each they are the text and one line break |
| `Patch.MatchesIff` | packages/agent/pkg/patch/rollback.go:12-20 | a file is taken for a backup of a patch if and only if it lies directly in the backup directory and is named after the patch |
| `Patch.AfterIsIntact` | packages/agent/pkg/patch/apply.go:189-216 | after an apply under a fresh id, its backup and metadata are complete and the only match for its id |
| `Patch.BackupKeepsIntact` | packages/agent/pkg/patch/apply.go:196-210 | a later backup under another id of the same length changes neither the match nor the content of an earlier one |
| `UndoLog.FirstBackupIsOriginal` | packages/agent/pkg/patch/apply.go:16-99 | the first backup of a file in any sequence of applies holds what the file held before all of them |
| `UndoLog.UndoInverse` | packages/agent/pkg/patch/rollback.go:12-61 | rolling any sequence of applies back in strict reverse order restores every ordinary file, an absent one to empty |
| `UndoLog.PlayIsIntact` | packages/agent/pkg/patch/apply.go:189-216 | after any sequence of applies with distinct ids every one of their backups is still intact |
| `PatchEngine.Tracker.Flush` | packages/agent/pkg/patch/tracker.go:40-47 | hands over all recorded changes in order and forgets them |
| `PatchEngine.Engine.WriteFile` | packages/agent/pkg/patch/apply.go:162-186 | success replaces the file and leaves no temporary file; failure changes nothing but the temporary file |
| `PatchEngine.Engine.Apply` | packages/agent/pkg/patch/apply.go:16-99 | succeeds exactly when no hunk fails, and counts those that do; fails with an error only if the path is not allowed, the diff cannot be parsed or an access to the disk failed; records a change exactly when it wrote the file, which then holds what the parsed diff makes of the content it had, under the path of its backup; the disk is the undo log's next disk unless the metadata was lost; otherwise no file but scratch files changed |
| `PatchEngine.Engine.DryRun` | packages/agent/pkg/patch/apply.go:102-105 | says success exactly when no hunk would fail, counts those that would, changes no file and records nothing |
| `PatchEngine.Engine.ParsePath` | packages/agent/pkg/patch/rollback.go:31-43 | the loop returns the path of the first path line, or nothing |
| `PatchEngine.Engine.ListBackups` | packages/agent/pkg/patch/rollback.go:64-126 | lists only backups with metadata, skips none but unreadable ones, and names the id, path and time of every intact backup it could read |
| `PatchEngine.Engine.Rollback` | packages/agent/pkg/patch/rollback.go:12-61 | success writes a backup of the patch back to the file that its metadata names; it fails only if there is no backup, a backup names no path or an access failed; with an intact backup, success means that exactly its file has its old content again |
| `PatchRuns.Perform` | packages/agent/pkg/patch/tracker.go:32-55 | over any sequence of applies, dry runs and checkpoints, what the saved checkpoints and the tracker hold is exactly the records of the applies that wrote, in order, if and only if each checkpoint that failed to save had no changes; each apply that wrote backed up what it found |
| `PatchRuns.MisfitsWriteNothing` | packages/agent/pkg/patch/apply.go:51-96 | over any sequence of operations an apply or dry run whose diff cannot be parsed or has a hunk that does not fit the file as it is then writes nothing |
| `PatchRuns.WritesAreRecorded` | packages/agent/pkg/patch/apply.go:74-96 | whatever the steps, what was recorded grew by one record for each apply that wrote |
| `PatchRuns.PartsAreRecorded` | packages/agent/pkg/runtime/runtime.go:321-346 | each checkpoint flushes exactly the records of the applies since the one before |
| `PatchRuns.RewindAfterEdits` | packages/agent/pkg/api/service/session.go:356-390 | end to end: after edits between checkpoints, the checkpoints record them part by part, every backup is there, and the rewind gives each file touched by a flushed part its content when the newest such part began and leaves all others, unflushed edits included |
| `Rewind.RewindResult` | packages/agent/pkg/api/service/session.go:362-390 | a code rewind leaves each file with the content it had when the newest window touching it began; other files are untouched |
| `Rewind.RestoredAgain` | packages/agent/pkg/api/service/session.go:362-390 | restoring the same backups once more changes no ordinary file |
| `Rewind.AllIntact` | packages/agent/pkg/patch/apply.go:189-216 | after the applies of all windows each of their backups is there for the rewind |
| `Rewind.RewindMeetsIntentIff` | packages/agent/pkg/api/service/session.go:358-390 | a file is back at its content at the target exactly when the first backup in the newest window touching it equals its very first backup after the target |
| `Rewind.OneWindowIsSafe` | packages/agent/pkg/api/service/session.go:358-390 | that is so for every file that no two later windows touch |
| `Rewind.TwoWindowsMissTheTarget` | packages/agent/pkg/api/service/session.go:362-382 | with one file changed in two windows the rewind stops at the content between them |
| `Rewind.Service.Collect` | packages/agent/pkg/api/service/session.go:358-372 | collects exactly the changes of the checkpoints listed before the target, or finds no target |
| `Rewind.Service.RollBackAll` | packages/agent/pkg/api/service/session.go:378-390 | without an error the disk is the one with every backup restored, last change first |
| `Rewind.Service.Rewind` | packages/agent/pkg/api/service/session.go:325-419 | succeeds exactly when target and listing are found, no rollback fails and the state is saved; a code rewind whose windows the listing records then leaves exactly the restored disk with all backups intact; the state file becomes the checkpoint's state exactly on a successful conversation rewind |
| `Rewind.Service.RewindTo` | packages/agent/pkg/api/service/session.go:325-419 | the same from the directory: with checkpoints saved at increasing times, the windows undone are exactly those of the checkpoints saved after the target |
| `Rewind.Service.RewindTwice` | packages/agent/pkg/api/service/session.go:325-419 | two code rewinds in a row leave every ordinary file as one does |
| `Rewind.BeforeTarget` | packages/agent/pkg/api/service/session.go:358-372 | in a listing newest first the checkpoints before the target are those saved after it |
| `Checkpoints.DecimalOrder` | packages/agent/pkg/store/fs_store.go:324 | among timestamps with equally many digits, string order is numeric order |
| `Checkpoints.NameReads` | packages/agent/pkg/store/fs_store.go:320-333 | a checkpoint file is named by its time in nanoseconds, in decimal digits without a leading zero, and its id |
| `Checkpoints.NameOrder` | packages/agent/pkg/store/fs_store.go:320-333 | file name order is order in time, then id, and equal names mean the same time and id |
| `Checkpoints.LoadAllLists` | packages/agent/pkg/store/fs_store.go:412-435 | loading files by descending name gives each readable `.json` checkpoint exactly once, newest first |
| `Checkpoints.ListCheckpoints` | packages/agent/pkg/store/fs_store.go:401-436 | the listing is newest first and holds exactly the readable checkpoints in files named `.json`, whatever else lies there, a whole temporary file left by a crash included |
| `Checkpoints.ListingUnique` | packages/agent/pkg/store/fs_store.go:401-436 | a directory has only one such listing |
| `Checkpoints.LoadLatest` | packages/agent/pkg/store/fs_store.go:335-369 | returns a checkpoint that loads and that no other is later than, or none when none loads |
| `Checkpoints.LoadCheckpoint` | packages/agent/pkg/store/fs_store.go:371-398 | a checkpoint with this id that can be loaded, or none when there is none |
| `Checkpoints.LatestIsHead` | packages/agent/pkg/store/fs_store.go:335-436 | that latest checkpoint is the head of the listing, and there is none exactly when the listing is empty |
| `Checkpoints.ListedNewestFirst` | packages/agent/pkg/store/fs_store.go:320-333 | checkpoints saved with increasing timestamps are listed in exactly the reverse order of saving |
| `Sse.RoundTripIff` | packages/cli/internal/client/client.go:199-226 | the client reads back exactly what the server wrote if and only if every type and datum has no line break and no white space around it |
| `Sse.EventIsRead` | packages/cli/internal/client/client.go:199-226 | a frame is the event line, the data line and a blank line, and what is clean in it is read back as one event of that type and data, whatever follows |
| `Sse.OtherLineIsSkipped` | packages/cli/internal/client/client.go:199-226 | a line that is not an event line is skipped |
| `Sse.WhiteSpace` | packages/cli/internal/client/client.go:199-226 | what is trimmed off a line: white space, character by character |
| `Sse.ParseIsMonotone` | packages/cli/internal/client/client.go:199-226 | reading more of a stream only adds events at the end |
| `Sse.CutStreamGivesPrefix` | packages/cli/internal/client/client.go:199-226 | a stream cut at any character yields whole events only, from the front |
| `Sse.StreamEvents` | packages/cli/internal/client/client.go:175-229 | the reading loop returns what the stream parses to |
| `Delivery.GetEventsSince` | packages/agent/pkg/store/fs_store.go:147-241 | the scan returns what follows the first entry with this id, everything for the empty id, nothing for an unknown one |
| `Delivery.From` | packages/agent/pkg/store/fs_store.go:147-164 | delivery starts at a position of the log: its beginning, just after the cursor's entry, or its end |
| `Delivery.UnknownCursor` | packages/agent/pkg/store/fs_store.go:147-164 | a cursor that is not empty and no entry has: nothing follows it |
| `Delivery.KnownCursor` | packages/agent/pkg/store/fs_store.go:147-164 | a cursor is followed by exactly what comes after the first entry that has it |
| `Delivery.PollContinues` | packages/agent/pkg/api/handler/session.go:291-307 | polling a grown log with the last id sent continues exactly where sending ended |
| `Delivery.Connection.WriteEvents` | packages/agent/pkg/api/handler/session.go:295-303 | writes one frame per event in order, its type on the event line and its JSON on the data line, and leaves the cursor at the last one |
| `Delivery.Connection.Poll` | packages/agent/pkg/api/handler/session.go:289-308 | after each poll the connection has sent exactly what follows its initial cursor in the log so far |
| `Delivery.ExactlyOnce` | packages/agent/pkg/api/handler/session.go:265-309 | for any interleaving of appends and polls the entries delivered are one gap-free run of the log, from just after the initial cursor to the end as of the last poll, if each of them has an id that no earlier entry has |
| `Delivery.ClientSeesTheLog` | packages/agent/pkg/api/handler/session.go:275-303 | end to end the client receives the greeting and then that run of the log, the type of each entry as its type and the JSON as its data, and a prefix of it when the connection is cut anywhere |
| `Delivery.ExactIffIdentified` | packages/agent/pkg/api/handler/session.go:289-308 | every schedule of polls is exact if and only if each entry to deliver has a non-empty id that no earlier entry has |
| `Sessions.StepKeepsExclusive` | packages/agent/pkg/api/service/session.go:152-233 | every step but a message accepted before `Create` marked the session keeps at most one run, and none at rest |
| `Sessions.SingleRunner` | packages/agent/pkg/api/service/session.go:97-233 | without such a message every interleaving has at most one run, and none while the status is idle, completed or error |
| `Sessions.MessageStartsIff` | packages/agent/pkg/api/service/session.go:152-192 | a message starts a run exactly in a session that is idle or completed, and otherwise changes nothing |
| `Sessions.StatusIsHowItEnded` | packages/agent/pkg/api/service/session.go:205-233 | in every interleaving without an early message, the first status written after a run ended is how it ended: completed, failed or cancelled |
| `Sessions.FinalStatusIsTheLastRuns` | packages/agent/pkg/api/service/session.go:205-233 | a session that reads completed or failed has a run that ended so, and no run has written a status since that one wrote it |
| `Sessions.NoRunAfterFailure` | packages/agent/pkg/api/service/session.go:205-233 | once a run that failed or was cancelled has written its status in a created session, no later step starts a run; after one that completed a message does |
| `Sessions.NeverStuck` | packages/agent/pkg/api/service/session.go:83-233 | whatever the state, a message or a cancellation can come, each run can go on, end in any of the three ways and write its status, and `Create` can go on or lose its prompt until it has returned |
| `Sessions.HastyMessageDoubles` | packages/agent/pkg/api/service/session.go:83-114 | after any such message `Create` goes on to a second run, and the status reads completed while one of them is going |
| `Sessions.DeadIsFinal` | packages/agent/pkg/api/service/session.go:194-202 | a session at rest that failed, was cancelled or lost its prompt never runs again |
| `Sessions.CancelIsFinalIff` | packages/agent/pkg/api/service/session.go:152-233 | after cancelling no step of any continuation starts a run, and none is ever about to begin or under way, exactly if `Create` has nothing left to launch and what is left of other runs only has to write a status that no message restarts; for a created session, if it has no run or one that failed or was cancelled is ending |
| `Sessions.FailedCreateIsDead` | packages/agent/pkg/api/service/session.go:99-110 | a prompt that cannot be ingested leaves a session that reads running, unless someone cancelled it meanwhile, and never will |
| `Permissions.SendKeepsValid` | packages/agent/pkg/runtime/permission/manager.go:43-57 | a response sent keeps every call's channel at the first response accepted for its request |
| `Permissions.ApprovedIff` | packages/agent/pkg/tool/executor.go:66-103 | a call that was asked about gets past the question exactly when its wait returned an approval, which was the first response accepted for its own request |
| `Permissions.PolicyDecides` | packages/agent/pkg/tool/executor.go:50-103 | over every execution, by the policy a call started with: a denied or unknown one or one whose policy failed never proceeds; one to be confirmed with a callback proceeds only if the first response accepted for its request approved; an allowed one, or one to be confirmed without a callback, is never announced and never refused |
| `Permissions.HandledIff` | packages/agent/pkg/tool/executor.go:96-115 | a call has reached its handler exactly if it was dispatched and the handler was found |
| `Permissions.AnnouncedIff` | packages/agent/pkg/tool/executor.go:66-85 | a request is in the event log exactly if a call that has it was announced and logged |
| `Permissions.NeverStuck` | packages/agent/pkg/runtime/permission/manager.go:25-77 | in every reachable state each call that is not over can take its next step, a wait can end at any time without a decision, and a response can come at any time for any request |
| `Permissions.DecisionIsFinal` | packages/agent/pkg/runtime/permission/manager.go:60-77 | what a waiter returned never changes, whatever is responded later |
| `Permissions.LateApprovalIsIgnored` | packages/agent/cmd/gm/main.go:249-280 | a call that timed out, was cancelled or was denied never reaches its handler, even if an approval is accepted afterwards |
| `Permissions.ResponseIsFoundIff` | packages/agent/pkg/runtime/permission/manager.go:43-77 | a response to a call that was asked about is found exactly while the call is registered, from its registration until it has left its wait; otherwise nothing changes |
| `Permissions.LateResponseIsRefused` | packages/agent/pkg/runtime/permission/manager.go:43-77 | once a call has left its wait, another response for its request finds nothing and changes nothing |
| `Permissions.EarlyAnswerIsLost` | packages/agent/cmd/gm/main.go:236-254 | an answer between the announcement and the registration finds no request and changes nothing |
| `Normalize.RewriteRefs` | packages/sdk/go/cmd/normalize_openapi/main.go:68-87 | in place, the document becomes the rewritten tree, made of the same nodes, and nothing outside it changes |
| `Normalize.RewriteAt` | packages/sdk/go/cmd/normalize_openapi/main.go:68-87 | location by location: only strings directly under a `$ref` are replaced, nothing appears or disappears, and what is deeper below a `$ref` or inside a mapping with keys other than strings stays |
| `Normalize.RenameAll` | packages/sdk/go/cmd/normalize_openapi/main.go:35-46 | every new name holds one of the definitions that take it, every definition's new name is there, and exactly the references to dotted names are to be rewritten |
| `Normalize.NormalizeDocument` | packages/sdk/go/cmd/normalize_openapi/main.go:35-50 | the document becomes the normalized tree, or stays as it is when it has no mapping of definitions |
| `Normalize.EveryReferenceFollows` | packages/sdk/go/cmd/normalize_openapi/main.go:68-87 | every reference at every location: one that named no definition is as it was; when colliding definitions agree, one that named a definition resolves to it in rewritten form exactly if it is within reach of the rewriting or the definition kept its name |
| `Normalize.DottedReferenceIsRewritten` | packages/sdk/go/cmd/normalize_openapi/main.go:35-87 | a `$ref` within reach that read `#/definitions/` and a name reads `#/definitions/` and the name with an underscore for each dot, and there is a definition of that name |
| `Normalize.PreservedIff` | packages/sdk/go/cmd/normalize_openapi/main.go:36-46 | references are preserved whatever the order of definitions, exactly when definitions whose names become equal are written out the same once rewritten |
| `Normalize.CopiesPreserve` | packages/sdk/go/cmd/normalize_openapi/main.go:36-46 | in particular when definitions whose names become equal are copies of each other |
| `Normalize.InjectiveNamesPreserve` | packages/sdk/go/cmd/normalize_openapi/main.go:36-46 | and when no two names become equal |
| `Normalize.NormalizedTwice` | packages/sdk/go/cmd/normalize_openapi/main.go:35-50 | normalizing again changes nothing but the node that holds the definitions, collisions or not |

## Left out

- HTTP routing and the other handlers, the terminal interface, configuration, the tool registry and policy precedence: members without state across calls.
- The inside of JSON, diff application, id generation, clocks and regular expressions; a log line torn by a crash in the middle of an append; typed decoding of the log, which keeps only base fields of some events (packages/agent/pkg/store/fs_store.go:231-233).
- Liveness: a message ingested between the last goal selection and the status write can wait for the next message, so only safety is claimed.
- The order in which the text of one token and its log entry become visible to a client: the tokens of a stream are logged in order, all after the loop that adds them up.
- The wording of the default system prompt, which is a function given from outside; token counts, and the compaction fields of the context window, which no modelled operation changes.
- The 64-bit width of versions and step counters.
- The objects behind `Interleaving`, `Sessions` and `Permissions` as memory: they are the state of a machine, one step per critical section or map and channel operation. The unsynchronised write of the status in `Create` counts as one step.
- Events as memory: `StateHeap` treats an event as a value except for its slice of tool calls.
- Several sessions sharing one patch engine and tracker (packages/agent/cmd/gm/main.go:282-284): file changes of another session would be flushed into this one's checkpoints; the model has one session.
- Files written by `create_file`, by the shell, or by `write_file` on a new or empty target: they bypass the tracker and are outside every rewind claim.
- Backup ids or directories that contain wildcards of the glob pattern, ids of different lengths, and ids used twice.
- The preview of a backup's first lines in the listing.
- `Delete` of a session beyond cancelling its context.
- Saving a rule when a response says always: it affects later policy checks, which are an input here.
- The frame written when the session context ends, and an event whose JSON encoding fails, which the connection skips.
- Interleaving.RecoverStaysPaired: assumes that the run before stopped after a successful state save, because a run that was abandoned leaves the file behind its queue.
- RuntimeSafety.DurableFrontier: a power loss that takes renames in different directories back out of order, as a file system without ordered metadata may.
- The order of log and memory when an ingest falls between the append of a dispatch's events and their reduction: the log then has the events first and memory the message, and no theorem relates the two orders.
- PatchRuns.RewindAfterEdits: is about runs in which no metadata was lost and no apply failed halfway, because a lost metadata file makes its rollback fail and a failed apply leaves a backup that no record names.
- PatchRuns.Perform: runs applies and checkpoints on one thread, as one session does between two steps of its loop.
- Normalize.NormalizeDocument: starts from the decoded document, in which each alias has become a copy and merge keys are resolved, and ends before it is written out.
- Rewind.RewindResult: covers files changed after the target by `Apply` alone, with metadata written for every backup, and the tracker flushed.
- UndoLog.UndoInverse: speaks of files outside the backup directory and of paths that are not another target's temporary file, because the engine itself writes those.
- Checkpoints.NameOrder: for ids of one length and timestamps with equally many digits, because names compare as strings.
- Runtime.Runtime.Run: other threads ingest only between turns; what an ingest inside a turn can do is the subject of `RuntimeSafety`.
- Sessions.SingleRunner: requires that no message is accepted before `Create` marks the session, because the property is false otherwise.
