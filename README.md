# Gaia task dispatch, modelled in Dafny

This project models the task-dispatch backend of Gaia Code in three parts.

- **Scheduler.** `AgentManager` keeps a registry of tasks and a pool of three agents. A greedy assignment pass hands the pending tasks, best priority first, to the idle agents. The pass runs again whenever a task is created, completed or fails.
- **Worker pipeline.** `SubAgent.executeTask` runs one task in three steps: it creates a git branch, runs Claude, and commits.
- **Process supervisor.** `ClaudeCodeTool` spawns the Claude command-line program. It feeds it the task description and answers its confirmation prompts and permission dialogs blindly.

The repository has two copies of the tool and of the worker: a backend copy and an older gaia-manager copy. Both are modelled.

Modules:

- `Scheduling` (scheduling.dfy) describes the registry as values.
  - Each JavaScript `Map` becomes a `map` plus its insertion order, a `seq`.
  - Every operation is a function returning the new registry and the effects.
  - An effect is a socket broadcast or a hand-off of a task to an agent's worker.
  - The lemmas state what the manager promises: pairing, priority order, one-to-one assignment, saturation, coherence, the cascade on release, and at most three running tasks.
- `Manager` (manager.dfy) holds the class `AgentManager`.
  - Its fields are the two registries and the effect trace.
  - Each method, the `while` loop of `assignPendingTasks` included, is proved equal to the `Scheduling` function for the same operation.
  - Each public method (the constructor, `CreateTask`, `AssignPendingTasks`, the two handlers and `Settle`) also keeps the registry well formed and carries the coherence invariant forward. The helpers `AssignInTurn` and `Release` state only their equality with `Pair` and `Finish`.
- `Worker` (worker.dfy) and `SimpleWorker` (simple_worker.dfy) model the two copies of `SubAgent`.
  - The git calls and the Claude run are collaborator outcomes passed in as parameters.
  - Each run returns its result, the collaborator calls it made and the `agent:progress` records it emitted.
- `Supervisor` (supervisor.dfy) and `SimpleSupervisor` (simple_supervisor.dfy) model the two copies of `ClaudeCodeTool`.
  - The child process is abstract: a stdin write trace of `(delayMs, payload)` pairs plus the `killed` and `stdinWritable` flags.
  - The 300 ms and 600 ms `setTimeout` writes and the 100 ms retry are delay labels on the writes.
  - The 2000 ms interval is an explicit `OnTick` event.
  - Each copy has a `TaskRun` class for what one `executeTask` call keeps in its closure: the output and error buffers, the interval and the promise.
- `ProcessOutcome` (process_outcome.dfy) decides how the tool's promise settles when the child closes or fails to start. It also proves that the rejection message keeps both the exit code and the whole of stderr.
- `Strings` and `Wrappers` are helpers: substring containment, ASCII lower-casing, decimal rendering and `Option`.

Collaborators are parameters:

- the uuid of a new task (`freshId`) and the timestamps (`now`, `clock`);
- whether the wrapper script exists;
- what `stdin.write` returned;
- the child's exit code;
- how each git call and the Claude run end.

## Model

| member | source | states |
|---|---|---|
| Manager.AgentManager.constructor | backend/agents/manager.js:6-14 | a new manager has no task and the idle agents agent-1, agent-2 and agent-3, in that order; the registry is well formed, coherent and saturated |
| Manager.AgentManager.InitializeAgents | backend/agents/manager.js:16-26 | the loop sets agent-1 … agent-count idle, in that order; Map.set keeps the position of an existing key; nothing is broadcast |
| Scheduling.AgentNames | backend/agents/manager.js:16-26 | the names are `agent-1` … `agent-count`, in that order and pairwise distinct |
| Scheduling.ConstructorBuildsInitial | backend/agents/manager.js:6-26 | initialising three agents on empty maps yields exactly the initial registry |
| Scheduling.Initial | backend/agents/manager.js:6-14 | the initial registry is coherent, has no task, and its pool order is agent-1, agent-2, agent-3 |
| Scheduling.NewTask | backend/agents/manager.js:30-39 | a new task is pending with no agent and no result, and carries the id, description and creation time; a missing priority becomes medium |
| Manager.AgentManager.CreateTask | backend/agents/manager.js:28-49 | stores the task under the fresh id, broadcasts task:created, runs one pass and returns the id; the registry stays well formed and coherence is preserved |
| Scheduling.Create | backend/agents/manager.js:28-49 | the id is appended to the task order and added to the keys; the first effect is task:created for the new task |
| Scheduling.CreateWellFormed | backend/agents/manager.js:28-49 | creating a task with a fresh id keeps the registry well formed |
| Scheduling.CreatePreservesCoherence | backend/agents/manager.js:28-49 | creating a task keeps a coherent registry coherent and leaves it saturated |
| Scheduling.CreateRecordsTask | backend/agents/manager.js:28-49 | after creation the task is stored either as created or as dispatched by the pass that followed |
| Scheduling.FirstTaskGoesToFirstAgent | backend/agents/manager.js:28-94 | on a fresh manager the first task goes at once to agent-1, which is then working on it |
| Scheduling.FirstTaskIsReported | backend/agents/manager.js:162-168 | after that, getAgentStatus reports agent-1 working on the task |
| Manager.AgentManager.AssignPendingTasks | backend/agents/manager.js:51-94 | a pass equals Pass of the old registry; the registry stays well formed; from a coherent registry the result is coherent and saturated |
| Manager.AgentManager.AssignInTurn | backend/agents/manager.js:66-93 | the while loop that shifts both lists equals the recursive pairing Pair, in both state and effects |
| Scheduling.PendingTasks | backend/agents/manager.js:53-54 | the list holds exactly the pending stored tasks |
| Scheduling.PendingTasksInOrder | backend/agents/manager.js:53-54 | the pending tasks come in creation order: an earlier entry's id comes before a later entry's id in the Map's insertion order |
| Scheduling.IdleAgents | backend/agents/manager.js:61-63 | the list holds exactly the idle pooled agents |
| Scheduling.IdleAgentsInOrder | backend/agents/manager.js:61-63 | the idle agents come in pool order, so the first idle agent in the pool is offered first |
| Scheduling.SortByPriority | backend/agents/manager.js:53-58 | the sort is a permutation of its input, and the result is ordered by rank high < medium < low |
| Scheduling.SortKeepsCreationOrder | backend/agents/manager.js:53-58 | the sort is stable: the tasks of each priority keep their creation order |
| Scheduling.QueueTiesGoToOldest | backend/agents/manager.js:53-58 | within one priority the queue lists tasks in the registry's creation order, so a tie goes to the older task |
| Scheduling.SortIsGroupedByPriority | backend/agents/manager.js:53-58 | the sorted queue is the high tasks, then the medium, then the low, each in creation order |
| Scheduling.QueueHeadHasTopPriority | backend/agents/manager.js:53-58 | no pending task has a better rank than the head of the queue |
| Scheduling.Pair | backend/agents/manager.js:66-93 | a pass keeps both insertion orders and every key, and emits three effects per pairing, min(#queue, #idle) pairings in all |
| Scheduling.Pass | backend/agents/manager.js:51-94 | a pass keeps both orders and both key sets |
| Scheduling.PairOnlyDispatches | backend/agents/manager.js:66-78 | a pass changes a task only from pending to in-progress, and an agent only from idle to working |
| Scheduling.PairAssigns | backend/agents/manager.js:66-78 | the i-th queued task becomes in-progress, assigned to the i-th idle agent, and that agent works on it, for every i < min(#queue, #idle) |
| Scheduling.PairEffects | backend/agents/manager.js:79-92 | round i broadcasts task:updated, then agent:updated, then hands the task to the agent's worker |
| Scheduling.PassPairsOneToOne | backend/agents/manager.js:51-94 | a pass makes exactly min(#pending, #idle) hand-offs; no task gets two agents and no agent two tasks |
| Scheduling.PassSaturates | backend/agents/manager.js:66 | after a pass, either no task is pending or no agent is idle |
| Scheduling.PassEmptiesQueue | backend/agents/manager.js:66 | when there are at least as many idle agents as pending tasks, no task stays pending |
| Scheduling.PassFillsPool | backend/agents/manager.js:66 | when more tasks are pending than agents are idle, no agent stays idle |
| Scheduling.PassDispatchesBestFirst | backend/agents/manager.js:53-78 | no task a pass leaves pending has a better rank than one it dispatched |
| Scheduling.LeftPendingIsQueuedLater | backend/agents/manager.js:53-78 | a task still pending after a pass sits in the queue behind every dispatched task |
| Scheduling.PassWellFormed | backend/agents/manager.js:51-94 | a pass keeps the registry well formed |
| Scheduling.PassPreservesCoherence | backend/agents/manager.js:66-78 | a pass keeps the invariant: unassigned iff pending, and an in-progress task's agent is working on exactly it |
| Scheduling.AtMostThreeRunning | backend/agents/manager.js:13 | with the three-agent pool, a coherent registry has at most three tasks in progress |
| Scheduling.InProgressAtMostAgents | backend/agents/manager.js:66-78 | in a coherent registry the in-progress tasks are no more than the agents |
| Manager.AgentManager.HandleTaskCompletion | backend/agents/manager.js:96-125 | an unknown id changes nothing; otherwise equals Complete (task completed with its result and time, agent idled, both broadcast, pass rerun); the registry stays well formed and coherent |
| Manager.AgentManager.HandleTaskError | backend/agents/manager.js:127-156 | an unknown id changes nothing; otherwise equals Fail (task failed with the message and time, agent idled, both broadcast, pass rerun); the registry stays well formed and coherent |
| Manager.AgentManager.Release | backend/agents/manager.js:104-124 | storing the settled task, idling its agent, broadcasting both and running a pass equals Finish |
| Manager.AgentManager.Settle | backend/agents/manager.js:88-92 | the promise continuation routes a fulfilment to the completion handler and a rejection to the error handler, equal to OnSettled |
| Scheduling.Complete | backend/agents/manager.js:96-125 | completion keeps every key; an unknown id changes nothing and broadcasts nothing |
| Scheduling.Fail | backend/agents/manager.js:127-156 | failure keeps every key; an unknown id changes nothing and broadcasts nothing |
| Scheduling.FreeAgent | backend/agents/manager.js:106-118 | the assigned agent, if any, becomes idle with no current task; tasks and orders are unchanged |
| Scheduling.Freed | backend/agents/manager.js:100-118 | the settled task is stored, its agent idled, and the registry stays well formed |
| Scheduling.CompleteRecordsResult | backend/agents/manager.js:100-104 | after completion the task is completed, with the result and the completion time |
| Scheduling.FailRecordsError | backend/agents/manager.js:131-135 | after an error the task is failed, with the error message and the completion time |
| Scheduling.SettleWellFormed | backend/agents/manager.js:96-156 | completing or failing a task keeps the registry well formed |
| Scheduling.SettlePreservesCoherence | backend/agents/manager.js:96-156 | settling an in-progress (or unknown) task keeps the registry coherent and saturated |
| Scheduling.CompletionCascades | backend/agents/manager.js:96-125 | when a task completes, its agent takes the head of the queue at once if a task waits, and otherwise stays idle |
| Scheduling.ReleasedAgentTakesHead | backend/agents/manager.js:106-124 | when the pool is full and a task waits, the released agent gets the head of the queue |
| Scheduling.ReleasedAgentRests | backend/agents/manager.js:106-124 | when nothing is queued, the released agent stays idle |
| Scheduling.WaitingWorkMeansNoIdle | backend/agents/manager.js:66 | in a saturated registry with a queued task, no agent is idle |
| Scheduling.ClaudeExitFailureIsRecordedAsCompleted | backend/agents/manager.js:88-92 | a non-zero exit of Claude is recorded as completed, not failed, with a failed result whose error carries the process's stderr |
| Manager.AgentManager.GetTasks | backend/agents/manager.js:158-160 | the i-th entry is the i-th task created; every stored task appears, and only stored tasks |
| Scheduling.GetTasks | backend/agents/manager.js:158-160 | one entry per key, in insertion order; every stored task is listed, and only stored tasks |
| Manager.AgentManager.GetAgentStatus | backend/agents/manager.js:162-168 | one view per pooled agent, in pool order, with its id and status |
| Scheduling.GetAgentStatus | backend/agents/manager.js:162-168 | one view per pooled agent, in pool order, with its id and status |
| Scheduling.AgentStatusIsLive | backend/agents/manager.js:162-168 | in a coherent registry an agent reports a task iff it is working, and that task is the live, in-progress task assigned to it |
| Manager.AgentManager.GetAgent | backend/agents/manager.js:170-173 | a handle comes back exactly when the id is pooled |
| Scheduling.GetAgent | backend/agents/manager.js:170-173 | a handle comes back exactly when the id is pooled, and it is that agent |
| Supervisor.ClaudeCodeTool.constructor | backend/agents/tools/claudeCodeTool.js:6-24 | the mode is fixed once: direct exactly when the wrapper script does not exist; no process yet |
| Supervisor.Command | backend/agents/tools/claudeCodeTool.js:86-94 | direct mode spawns `claude ask`; wrapped mode spawns `node <script>` |
| Supervisor.ClaudeCodeTool.SendInput | backend/agents/tools/claudeCodeTool.js:45-82 | returns false and writes nothing when there is no process, it was killed, or its stdin is not writable; otherwise writes the line and returns true, with one retry at +100 ms when the write was refused |
| Supervisor.InputWrites | backend/agents/tools/claudeCodeTool.js:66-77 | one write of `input + '\n'` at once; a second write of the same payload at +100 ms exactly when the first was refused |
| Supervisor.ClaudeCodeTool.ExecuteTask | backend/agents/tools/claudeCodeTool.js:84-166 | spawns the mode's command and records the child; in direct mode writes the description once and leaves stdin open; in wrapped mode writes nothing yet; the interval is running |
| Supervisor.TaskRun.OnStdout | backend/agents/tools/claudeCodeTool.js:105-150 | appends the chunk to the output and issues exactly the writes ChunkWrites gives for the chunk |
| Supervisor.ChunkAnswers | backend/agents/tools/claudeCodeTool.js:113-149 | the exact writes of each chunk: the description first when the wrapper's prompt matches (never in direct mode); then, for a permission dialog, exactly `\n` at 0, `y\n` at 300 and down-arrow-Enter at 600 ms; for another confirmation prompt, exactly `yes\n` at 0 and `\n` at 300 ms; for anything else, nothing more |
| Supervisor.DialogGetsNoYes | backend/agents/tools/claudeCodeTool.js:119-149 | a permission dialog matches the generic pattern too, yet gets no generic `yes` answer: the only `yes` line it can cause is the description itself |
| Supervisor.DialogAlsoMatchesPrompt | backend/agents/tools/claudeCodeTool.js:119-139 | every permission dialog also matches the generic pattern, so the `return` after the dialog answer is what keeps `yes` from also being sent |
| Supervisor.CreateDialogScenario | backend/agents/tools/claudeCodeTool.js:122-139 | the chunk `Do you want to create [Y/n]` gets exactly the three-write dialog answer, in either mode |
| Supervisor.TaskRun.OnStderr | backend/agents/tools/claudeCodeTool.js:152-156 | a stderr chunk is appended to the error buffer and nothing else changes |
| Supervisor.TaskRun.OnTick | backend/agents/tools/claudeCodeTool.js:167-180 | while the interval runs, a tick sends the dialog answer exactly when the whole output holds a pending-dialog phrase |
| Supervisor.TickWrites | backend/agents/tools/claudeCodeTool.js:167-180 | a tick writes the three-write dialog answer iff the output contains `needs your permission`, `Do you want to create` or `❯ Yes`, and nothing otherwise |
| Supervisor.RescanKeepsFiring | backend/agents/tools/claudeCodeTool.js:105-107 | output only grows, so once a tick fires it fires on every later tick |
| Supervisor.RescanCatchesAnySplit | backend/agents/tools/claudeCodeTool.js:105-180 | whatever output came before, once the two halves of a pending phrase have arrived (cut at a character boundary), the next tick answers with the dialog writes |
| Supervisor.RescanCatchesSplitPhrase | backend/agents/tools/claudeCodeTool.js:105-180 | an instance: `needs your` and ` permission` each escape the per-chunk dialog check, and the tick over their concatenation answers |
| Supervisor.TaskRun.OnClose | backend/agents/tools/claudeCodeTool.js:182-197 | clears the interval, drops the tool's process, and settles the promise, once, as CloseOutcome says |
| Supervisor.TaskRun.OnError | backend/agents/tools/claudeCodeTool.js:199-203 | settles the promise, once, with the spawn-failure rejection |
| Supervisor.SettleOnce | backend/agents/tools/claudeCodeTool.js:182-203 | the first settlement wins; later ones change nothing |
| ProcessOutcome.CloseOutcome | backend/agents/tools/claudeCodeTool.js:182-197 | resolves iff the exit code is 0, with the whole output; otherwise rejects with `Claude process exited with code ` followed by the code and ending with the whole stderr |
| ProcessOutcome.SpawnFailure | backend/agents/tools/claudeCodeTool.js:199-203 | rejects with `Failed to start Claude process: ` followed by the error message and nothing else |
| ProcessOutcome.SpawnMessageRoundTrip | backend/agents/tools/claudeCodeTool.js:189-202 | the error text can be read back exactly from a spawn-failure message; a spawn failure never reads as an exit message, and an exit message never reads as a spawn failure |
| ProcessOutcome.ExitMessageRoundTrip | backend/agents/tools/claudeCodeTool.js:189-195 | the exit code and the stderr text can be read back exactly from the rejection message |
| SimpleSupervisor.ClaudeCodeTool.constructor | gaia-manager/backend/agents/tools/claudeCodeTool.js:6-17 | direct mode exactly when the wrapper script does not exist |
| SimpleSupervisor.ClaudeCodeTool.ExecuteTask | gaia-manager/backend/agents/tools/claudeCodeTool.js:19-62 | spawns the mode's command; in direct mode writes the description and then ends stdin; in wrapped mode writes nothing yet |
| SimpleSupervisor.TaskRun.WriteDescriptionAndEnd | gaia-manager/backend/agents/tools/claudeCodeTool.js:58-62 | the description is the only write before stdin is ended |
| SimpleSupervisor.ChunkWrites | gaia-manager/backend/agents/tools/claudeCodeTool.js:38-52 | the bootstrap prompt gets the description first, on every match; a prompt matching the pattern gets exactly one immediate `yes\n` |
| SimpleSupervisor.TaskRun.OnStdout | gaia-manager/backend/agents/tools/claudeCodeTool.js:38-52 | appends the chunk and writes what ChunkWrites gives; in direct mode every such write comes after stdin was ended |
| SimpleSupervisor.NewerToolAnswersOlderPrompts | gaia-manager/backend/agents/tools/claudeCodeTool.js:48 | every prompt this copy answers, the backend copy answers too |
| SimpleSupervisor.TaskRun.OnStderr | gaia-manager/backend/agents/tools/claudeCodeTool.js:54-56 | a stderr chunk is appended to the error buffer |
| SimpleSupervisor.TaskRun.OnClose | gaia-manager/backend/agents/tools/claudeCodeTool.js:64-70 | settles the promise, once, as CloseOutcome says |
| SimpleSupervisor.TaskRun.OnError | gaia-manager/backend/agents/tools/claudeCodeTool.js:72-74 | settles the promise, once, with the spawn-failure rejection |
| Worker.UpdateProgress | backend/agents/subAgent.js:57-66 | the record carries the worker's agent id, the given task id, the message, the level and the timestamp; the level is info unless given |
| Worker.BranchName | backend/agents/subAgent.js:18 | `task-` followed by the first eight characters of the id, or the whole id when it is shorter |
| Worker.PipelineResult | backend/agents/subAgent.js:29-40 | success iff branch, Claude and commit all succeed, carrying the branch name and `Task completed successfully on branch <name>`; otherwise a failure carrying the first failing step's message |
| Worker.ProcessWithClaude | backend/agents/subAgent.js:43-55 | passes the Claude outcome on unchanged, after announcing the run and reporting the answer, at error level on a rejection |
| Worker.ExecuteTask | backend/agents/subAgent.js:12-41 | never rejects: the result is PipelineResult; the calls are the plan branch → Claude → commit, cut after the first failing step; the records are Trace |
| Worker.CallsFollowPlan | backend/agents/subAgent.js:19-27 | Claude runs only after the branch was created, and the commit only after Claude resolved |
| Worker.TraceStamps | backend/agents/subAgent.js:57-66 | every record carries the worker's agent id and its own timestamp; the first announces the task at info level; a run has 2 records when the branch fails and 5 otherwise |
| Worker.TraceEndsWithVerdict | backend/agents/subAgent.js:34-40 | a failed run ends with an error-level `Task error: <message>` record; a successful one ends with the commit report and has only info records |
| SimpleWorker.ProcessWithClaude | gaia-manager/backend/agents/subAgent.js:43-55 | passes the Claude outcome on unchanged, after announcing it and reporting the answer |
| SimpleWorker.ExecuteTask | gaia-manager/backend/agents/subAgent.js:12-41 | never rejects: the same result and call order as the backend copy; the records are this copy's Trace |
| SimpleWorker.TraceShape | gaia-manager/backend/agents/subAgent.js:12-67 | every record carries the worker's agent id and the i-th timestamp, and the first announces the task; a run that fails at the branch leaves only that start record, a later failure leaves four records, and a run succeeds iff it leaves five ending with the commit report; the catch adds no record |

## Left out

- Console logging, `logActivity`, and the tool's own `agent:progress` and `claude:output` events are not modelled. They are output only and change no state.
- Real time, timer scheduling and concurrency are not modelled. A delayed write is recorded when its handler runs, labelled with its delay. The interval is an explicit tick. Interleaved promise callbacks are not modelled: completion and error are discrete calls.
- The confirmation regular expressions are modelled as a list of literal alternatives, matched after ASCII lower-casing. No other JavaScript regex semantics are modelled.
- Only the priorities high, medium and low are modelled. The source does not validate priority; any other value makes the comparator return NaN, and the resulting order is unspecified.
- Manager.AgentManager.CreateTask: requires the id to be fresh. The source draws a uuid and assumes it never collides.
- Manager.AgentManager.GetAgent: returns the agent's id as its handle. The `SubAgent` object and its `io`/`gitTool` wiring are not modelled.
- Scheduling.GetAgentStatus: a `currentTask` id that has no entry in the task map is reported as no task. JavaScript would report `undefined`.
- An exception thrown inside the manager's `.then` continuation would reach its `.catch` and be handled as a task error. Such an exception is not modelled: the continuations are total here.
- A rejection value without a `message` property is not modelled; every rejection carries a string message.
- The git tool and the Claude process are not part of this model. They appear only as outcomes passed in as parameters.
- Supervisor.ClaudeCodeTool.SendInput: the delayed `setTimeout` writes read `this.claudeProcess` when they fire. These are the 100 ms retry (backend/agents/tools/claudeCodeTool.js:72-74) and the 300 ms and 600 ms writes (lines 129-136, 146-148 and 177-178). One that fires after close finds the field null, so the source would throw a TypeError there. The model records each delayed write on the child that was current when it was scheduled. The interval itself is cleared on close and never fires afterwards.
- Supervisor.ClaudeCodeTool.SendInput: a `stdin.write` that throws, which the source catches and answers with false, is not modelled. The write is taken to return normally, accepted or not.
- Supervisor.TaskRun.OnStdout: the handlers write through `this.claudeProcess`, not through the child they were attached to. The model writes to the run's own child, which is the same object as long as one tool runs one task at a time, as each agent's tool does. Two overlapping runs of one tool, where the second would redirect the first run's answers, are not modelled.
- Supervisor.RescanCatchesSplitPhrase: stdout chunks are modelled as already-decoded strings. The source decodes each Buffer chunk on its own (backend/agents/tools/claudeCodeTool.js:106), so a chunk boundary inside a multibyte character such as the three bytes of `❯` turns both halves into U+FFFD, and neither the chunk check nor the rescan then finds `❯ Yes`. Such a split is not modelled; Supervisor.RescanCatchesAnySplit covers splits at character boundaries only.
- ProcessOutcome.CloseOutcome: the exit code is `Option<nat>`. Node reports a negative close code after a spawn failure (for instance -2 after ENOENT); that code is not modelled, and cannot be observed, because the 'error' handler has already settled the promise and SettleOnce ignores the later close.
- SimpleSupervisor.TaskRun.OnStdout: in direct mode, an answer written after `stdin.end()` makes Node emit a write-after-end error. The model records the write with the index at which stdin was ended, and does not model the error.
- The wrapper script itself (`ask_claude.js`) is not part of this model. Its prompt text appears only as the bootstrap phrase.
- The model follows the code on these points:
  - the wrapped-mode bootstrap write has no once-only flag, so every matching chunk resends the description;
  - only `sendInput` retries a refused write;
  - a worker whose Claude run exits non-zero resolves with a failed result, so the manager records the task as completed, not failed (see `Scheduling.ClaudeExitFailureIsRecordedAsCompleted`).
