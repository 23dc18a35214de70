# rullama: verified models

This project models the agent runtime of the rullama command-line client and three parts of its
development server in Dafny, and proves what they keep, over every input, every run and every
interleaving. `dafny verify dfyconfig.toml` checks all of it.

| file | models | main results |
|---|---|---|
| `Mdap.dfy` | MDAP subtask loop | the loop computes the recursive evaluation of the dependency graph, whatever the order; what ends it early |
| `AgentProtocol.dfy`, `TaskAgent.dfy` | the task agent's run | every run follows one protocol; call and token limits; all exits agree |
| `TaskConversation.dfy` | the task agent's conversation | the provider is shown a well-formed history if and only if no call was skipped |
| `TaskReport.dfy` | the task agent's log | each event's part of the conversation; a finished run has exactly the ending that its events justify; tokens, marks, skips and deletion |
| `CrashResume.dfy` | checkpoints over crashes | how often a tool call can be executed, over runs cut anywhere |
| `SessionBudget.dfy` | N agents on one budget | overshoot of the cap is at most one call per agent |
| `FileLocks.dfy` | N agents on one lock table | exclusion, one lock at a time, no deadlock |
| `ToolLoop.dfy`, `Chat.dfy` | worker and orchestrator loops | at every provider call each tool use is answered once, and nothing else is |
| `Streaming.dfy` | streaming with tool continuation | returned text against broadcast text; histories along the tool chain |
| `MessageQueue.dfy`, `QueueDrain.dfy` | priority queue and its drain | four lanes; retry budget; the fate of each message, also with arrivals and overlapping drains |
| `PlanMode.dfy` | plan mode | the main context is never lost; when the two transcripts agree |
| `AgentPool.dfy` | agent pool | exact capacity bound for k callers; each handle is removed once |
| `SpawnTree.dfy` | agent process tree | depth limit and absence of cycles under concurrent spawns and clean-ups |
| `TemplateRendering.dfy` | command templates | for which arguments, and for which templates, the replacement order cannot be observed |
| `PercentDecoding.dfy` | percent decoding | exactly which encodings it inverts, and conversely |
| `RangeStreaming.dfy` | range requests | headers, chunk loop, tiling |
| `Watcher.dfy` | debounced rebuild | no edit is lost unless a build log kills the task; builds alternate with outcomes; quiet is reached |
| `Utf8.dfy` | cutting text at byte offsets | a cut panics exactly inside a character |

How the models are made:

- The provider, tool executor, voter, validation, stores, file system, clock and lock manager are
  parameters or events with arbitrary answers. Only what the call sites rely on is required of
  them: a granted lock is compatible with the locks held, a successful checkpoint load returns what
  is stored, a passed budget check means the total was within the cap, a clean read returns between
  one and the requested number of bytes until the end of the file.
- Code that updates fields in place is a class or a method with loops, proved equal to a reference
  function; the theorems are about that function. The task agent is proved to follow the protocol
  `AgentProtocol.Next`, whose runs the crash, budget and lock theorems range over.
- Each critical section under an async lock is one atomic step; steps of different agents, callers
  or threads interleave in every order, and agents can be killed between any two steps.
- Token counts, retry counts and iteration counts are unbounded naturals; byte positions and ranges
  are 64-bit, with absence of overflow proved.

Where the code does not keep what one would expect, the exact condition is proved:

- Clearing plan mode empties the plan state before it opens the database. If that fails, the live
  transcript keeps what the plan state lost; the two agree afterwards exactly if there was nothing
  to clear (`StepKeepsSafe`, `FailedClearDesyncs`). Trying to leave plan mode brings them together again.
- The text returned by a streamed turn lacks what a continuation showed before it failed, and
  nothing else (`ReturnedIsBroadcast`). `StreamEnd` is sent once per stream of the chain that neither
  fails nor is cut off by a panic, and once more after an explicit end (`EndCount`).
- A failed delivery with retries left is given up if and only if it finds the queue full; that and
  using up its tries are the only ways for an accepted message to be given up (`FateInEveryRun`,
  `FullQueueDrops`). A delivery that panics leaves its message in no queue (`ProcessQueuedMessages`).
- Several functions cut text at a fixed byte offset, which panics when the offset lies inside a
  character (`Utf8.SplitsIff`). Leaving plan mode with an openable database succeeds exactly if the
  answer to be summed up has no character across byte 500; otherwise planning goes on with the main
  context still saved, and trying again does not help (`ExitRestoresEntry`, `ExitCanPanic`). A round
  of the worker's tools panics exactly at the first successful result with a character across byte
  200 (`RoundPanicsIff`, `ToolLoop.PreviewCanPanic`). A streamed turn panics exactly if informative
  messages are logged and some continuation returns text with a character across byte 100
  (`ReadFailsIff`, `Streaming.PreviewCanPanic`). Giving up a queued message panics likewise at byte
  50, after the message is gone (`RequeueMessage`). The build task dies exactly of a failed build
  whose log has a character across the 2048th byte from its end, and from then on edits are lost
  (`DiesIff`, `DeadForever`, `EditCanBeLost`).
- A tool call skipped on resumption gets no result, and the history shown to the provider is then
  never well formed again (`CallsSeeWellFormed`).
- Template rendering can depend on the iteration order of a hash map, for two reasons. A value can
  begin another key's placeholder; that key's value then matters unless it is its own placeholder
  (`NoInterference`). And a literal can begin a placeholder that the value of the hole of another key
  behind it completes: with a = "b" and b = "x" the template `{{{{a}}}}` becomes `x` or `{{b}}`
  (`BracesAroundHole`). Each condition is exact with respect to the other: arguments render every
  template without such literals alike in all orders if and only if no two of them interfere
  (`OrderUnobservableIff`), and a template is rendered alike by all arguments that do not interfere
  if and only if it has no such literal (`TemplateSafeIff`, with every string read as a template by
  `TokensExist`).
- A blob response announces the right length exactly for non-empty files, and `bytes=-N` means the
  bytes 0 to N, unlike section 14.1.2 of RFC 9110 (`GetBlob`, `ParseWritten`).
- The pool's capacity check and its insertion are two steps; k callers can exceed the limit by
  exactly k - 1 (`PoolBounded`, `BoundIsReached`).

## Model

| member | source | states |
|---|---|---|
| Mdap.InputExtends | apps/cli/src/agents/orchestrator.rs:742-748 | gathering one more dependency adds its value to the input if it succeeded and changes nothing otherwise |
| Mdap.GatherInput | apps/cli/src/agents/orchestrator.rs:742-748 | a subtask's input is its own state overridden by the values of its successful dependencies; it panics exactly when such a value meets a state that is neither null nor an object |
| Mdap.EvalIgnoresRank | apps/cli/src/agents/orchestrator.rs:726-820 | the recursive evaluation does not depend on the certificate that the graph is acyclic |
| Mdap.OrderIrrelevant | apps/cli/src/agents/orchestrator.rs:726-820 | any two dependency orders of the same subtasks give the same result map |
| Mdap.MeaningSolves | apps/cli/src/agents/orchestrator.rs:739-802 | the recursive evaluation is a fixed point of voting on gathered inputs |
| Mdap.VoteIsFinal | apps/cli/src/agents/orchestrator.rs:742-778 | when all earlier subtasks are recorded, a subtask's input and vote in the loop are those in the recursive evaluation |
| Mdap.InputIsInput | apps/cli/src/agents/orchestrator.rs:742-748 | the gathered input is the subtask's own state when no dependency has a result, and otherwise an object with those results over the state's own fields |
| Mdap.ExecuteSubtasks | apps/cli/src/agents/orchestrator.rs:735-820 | the loop's map equals the recursive evaluation and the rest is counted as failed: each subtask was voted on its own state overridden by its dependencies' results, and the vote is what is recorded; if a subtask's input panics or, with fail-fast, one fails, the first such subtask is the outcome |
| Mdap.EndIsOrderIrrelevant | apps/cli/src/agents/orchestrator.rs:796-800 | whether the loop ends early is the same for every dependency order |
| TemplateRendering.RenderTemplate | apps/cli/src/commands/parser.rs:81-91 | the result is the fold of the replacements in some order of all arguments, and simultaneous substitution whenever neither arguments nor template literals interfere |
| TemplateRendering.ReplaceFills | apps/cli/src/commands/parser.rs:85-88 | one whole-string replacement fills exactly the holes of that name, when the placeholder cannot begin in a literal |
| TemplateRendering.FillsAll | apps/cli/src/commands/parser.rs:81-91 | replacing one argument after the other, in any order, fills all holes at once and leaves holes without argument alone |
| TemplateRendering.OrderUnobservableIff | apps/cli/src/commands/parser.rs:85-88 | for brace-free keys: no template whose literals begin nothing completable can tell two iteration orders apart if and only if no value can begin the placeholder of another key, keys bound to their own placeholder excepted |
| TemplateRendering.TemplateSafeIff | apps/cli/src/commands/parser.rs:85-88 | for brace-free keys and any template: no arguments that do not interfere can tell two orders apart if and only if no literal begins a placeholder that the value of the hole behind it could complete |
| TemplateRendering.TokensExist | apps/cli/src/commands/parser.rs:85-88 | every string can be read as holes and literals that spell no placeholder |
| TemplateRendering.BracesAroundHole | apps/cli/src/commands/parser.rs:84-88 | a concrete template with extra braces whose rendering depends on the order under arguments that do not interfere |
| TemplateRendering.PlainTextIsFilledAtOnce | apps/cli/src/commands/parser.rs:84-88 | if in every value and every literal each `{` is followed by another character than `{`, every order fills all holes at once |
| TemplateRendering.PlaceholderAsValue | apps/cli/src/commands/parser.rs:85-88 | a concrete pair of arguments whose order of replacement shows |
| AgentProtocol.RunsAreCoherent | apps/cli/src/agents/task_agent.rs:565-719 | a held or wanted lock is always the one the current tool call requires, and a call being handled is not a completed one |
| AgentProtocol.RunsWithinLimits | apps/cli/src/agents/task_agent.rs:361-480 | at most max - 1 provider calls (none for 0); an agent overshoots its token limit by at most its last call and then only closes down |
| AgentProtocol.ExitsAgree | apps/cli/src/agents/task_agent.rs:386-434 | on every way out task state, status, result flag and the single broadcast result agree, and the agent is unregistered without a lock; aborted runs announced nothing |
| AgentProtocol.HistoryOnlyGrows | apps/cli/src/agents/task_agent.rs:292-302 | the conversation starts with what was there and the task's description, and nothing in it is ever changed or lost |
| TaskReport.HistoryStep | apps/cli/src/agents/task_agent.rs:292-793 | what each event adds to the conversation: description, help, answers with tools, results, refusals, feedback, and nothing else |
| TaskReport.EndingIsJustified | apps/cli/src/agents/task_agent.rs:380-563 | a finished run ends with timeout, iteration limit, token budget, session budget or success if and only if just that happened, and a success has the text of the last answer |
| TaskReport.RunsAreMeasured | apps/cli/src/agents/task_agent.rs:361-490 | every answer's tokens are counted once and, with a session, reported once unless they broke the agent's own limit; the iteration limit is hit after exactly as many iterations as it says |
| TaskReport.TaskCountsIterations | apps/cli/src/agents/task_agent.rs:371-375 | the task's iteration count goes along with that of the run |
| TaskReport.AbortsAreReported | apps/cli/src/agents/task_agent.rs:462-464 | an aborted run returns an error that the registration, the provider or the executor reported |
| TaskReport.StepIsConfigured | apps/cli/src/agents/task_agent.rs:377-384 | timeouts and validations happen only as configured; the status names the file waited for |
| TaskReport.MarksFollowSuccess | apps/cli/src/agents/task_agent.rs:671-700 | a call is marked exactly if it just ended without error and there is a store |
| TaskReport.SkipsAreKnown | apps/cli/src/agents/task_agent.rs:568-579 | a call is skipped exactly if its id was in the checkpoint or marked since |
| TaskReport.OnlySuccessDeletes | apps/cli/src/agents/task_agent.rs:507-512 | the checkpoint is deleted by successful runs with a store, and by no others |
| TaskConversation.CallsSeeWellFormed | apps/cli/src/agents/task_agent.rs:542-793 | with an executor that labels its results and answers that bring none, the history at every provider call is well formed if and only if no call was skipped before |
| TaskAgent.TaskAgent.Execute | apps/cli/src/agents/task_agent.rs:247-807 | a run of the object follows the protocol with the answers it was given, continues the conversation with the task's description, and its fields agree with the outcome it returns |
| TaskAgent.TaskAgent.Iterate | apps/cli/src/agents/task_agent.rs:361-563 | one iteration counts once, extends the log, and either ends the run or returns to the top with iterations left |
| TaskAgent.TaskAgent.HandleCall | apps/cli/src/agents/task_agent.rs:565-793 | a tool call is skipped, refused its lock, or run under the lock it requires, marked if it succeeded, and unlocked: exactly these events are added, depending only on the outside's answers |
| TaskAgent.TaskAgent.Complete | apps/cli/src/agents/task_agent.rs:811-934 | a completion ends the run in success exactly unless validation rejects it, in which case the feedback is appended and the loop goes on |
| TaskAgent.TaskAgent.FailAgent | apps/cli/src/agents/task_agent.rs:937-965 | the shared failure path ends the run with the given reason, in the order task, broadcast, registration, locks |
| CrashResume.ExecutionsBounded | apps/cli/src/agents/task_agent.rs:568-579 | until the checkpoint is deleted, error-free executions of a call are at most one, plus runs that could not load, plus executions not followed by a successful mark |
| CrashResume.MemoryIsDurable | apps/cli/src/agents/task_agent.rs:684-700 | the completed calls a run remembers are always stored |
| CrashResume.MarkedIsNotRepeated | apps/cli/src/agents/task_agent.rs:323-344 | a marked call is executed again only by a run that could not load the checkpoint or has no store |
| CrashResume.StoredIsNotRepeated | apps/cli/src/agents/task_agent.rs:568-579 | after a successful load nothing the checkpoint listed is executed in that run |
| CrashResume.DeletionForgets | apps/cli/src/agents/task_agent.rs:507-512 | after a deletion no run finds a checkpoint until some call is marked again |
| SessionBudget.OvershootBounded | apps/cli/src/agents/task_agent.rs:482-490 | in every interleaving the recorded total is at most the cap plus the sum over all agents of their largest call |
| SessionBudget.TotalIsReported | apps/cli/src/agents/task_agent.rs:482-484 | the total is the sum of all reports of all agents |
| SessionBudget.FailedCheckIsLast | apps/cli/src/agents/task_agent.rs:482-490 | in every run, no provider call and no recording follows a failed budget check |
| FileLocks.ToolsRunUnderTheirLock | apps/cli/src/agents/task_agent.rs:581-620 | a tool runs exactly while the agent holds the lock the table names for it |
| FileLocks.ToolsRunProtected | apps/cli/src/agents/task_agent.rs:588-719 | in every interleaving nobody holds a conflicting lock while a tool runs |
| FileLocks.ListedToolsAreIsolated | apps/cli/src/agents/task_agent.rs:1138-1165 | told from the arguments: in every interleaving nobody else holds a lock on the file named by `path`, or by `file_path` without it, while a listed writer runs on it; nobody holds it for writing while a listed reader does; all other calls, `append_to_file` and those naming no file among them, run without a lock |
| FileLocks.ReadersShare | apps/cli/src/agents/task_agent.rs:1153-1155 | readers of one file do not exclude each other |
| FileLocks.WritersAlone | apps/cli/src/agents/task_agent.rs:588-719 | no file ever has a writer beside another holder |
| FileLocks.OneLockAtATime | apps/cli/src/agents/task_agent.rs:588-719 | an agent holds at most one lock, none while waiting, and gives back each one it got |
| FileLocks.NoChains | apps/cli/src/agents/task_agent.rs:588-596 | an agent that blocks another is not itself waiting |
| FileLocks.CanStep | apps/cli/src/agents/task_agent.rs:361-807 | an agent that is neither over nor waiting always has a next step |
| FileLocks.NoDeadlock | apps/cli/src/agents/task_agent.rs:588-719 | while some agent is not done, some agent can step without a lock being refused |
| ToolLoop.Execute | apps/cli/src/agents/worker.rs:30-167 | the loop's result, history and provider calls are those of the reference semantics, errors and panics included |
| ToolLoop.PerformTurn | apps/cli/src/agents/worker.rs:69-163 | one iteration asks the provider and appends its message and the tool results in order, up to the first error or uncuttable preview |
| ToolLoop.RoundPanicsIff | apps/cli/src/agents/worker.rs:138-142 | a round of the worker panics exactly if a successful result has a character across byte 200 and the executor did not fail before |
| ToolLoop.NoPreviewNoPanic | apps/cli/src/agents/orchestrator.rs:376-446 | the orchestrator, which prints no previews, never panics there |
| ToolLoop.PreviewCanPanic | apps/cli/src/agents/worker.rs:138-142 | a concrete result that stops the worker and not the orchestrator |
| ToolLoop.OrchestratorExecute | apps/cli/src/agents/orchestrator.rs:253-446 | the same loop with `task_` tools handed to the task manager |
| ToolLoop.TurnIsExplained | apps/cli/src/agents/worker.rs:69-163 | told from the blocks of the answer: the turn ends with the provider's text, or every tool-use block is executed in order and answered by its own result, up to the first that fails |
| ToolLoop.RunIsExplained | apps/cli/src/agents/worker.rs:51-166 | every provider call gets the history that the turn before left, and result, status, text and iterations are those of the last turn |
| ToolLoop.DispatchSeparates | apps/cli/src/agents/orchestrator.rs:381-390 | an orchestrator's run does not depend on what the executor would answer to tools named `task_`, nor on what the task manager would answer to others |
| ToolLoop.HistoriesWellFormed | apps/cli/src/agents/worker.rs:51-166 | at every provider call, and after a run without error, each message with k tool uses is followed at once by its k results in order, and there are no other results |
| ToolLoop.TurnKeepsWellFormed | apps/cli/src/agents/worker.rs:111-163 | a turn that goes on keeps this exactly if the provider's own message brings no result |
| ToolLoop.CallsBounded | apps/cli/src/agents/worker.rs:51-66 | at most max provider calls; a failed run made all of them; reported iterations count the calls |
| ToolLoop.AgentsKeepHistoriesWellFormed | apps/cli/src/agents/orchestrator.rs:275-446 | worker and orchestrator show the provider only well-formed histories, whatever well-formed history they start from |
| Chat.WellFormedRound | apps/cli/src/agents/worker.rs:111-163 | a message followed by results is well formed if and only if it brings no result and they are exactly the results of its tool uses |
| Chat.ResultsAreCalls | apps/cli/src/agents/worker.rs:111-163 | in a well-formed history the ids answered by results, in order, are the ids of the tool uses, each once |
| Chat.UsesAreBlocks | apps/cli/src/agents/worker.rs:196-211 | the tool uses of a message are those of all its tool-use blocks, in order |
| Chat.CompletesIff | apps/cli/src/agents/worker.rs:72-108 | a turn ends exactly if the provider says so or the answer has no tool-use block |
| Streaming.Session.StreamWithToolExecution | apps/cli/src/agent/process.rs:1697-1976 | result, broadcasts and provider requests are those of the reference semantics |
| Streaming.Session.StreamContinuation | apps/cli/src/agent/process.rs:1986-2028 | the continuation streams with the tool call and its result appended |
| Streaming.ReadFailsIff | apps/cli/src/agent/process.rs:1912-1961 | a stream fails exactly if an error comes before its end or hand-over, panics exactly if a continuation behind it returns text that cannot be cut, and else returns the text of its chunks |
| Streaming.ReadText | apps/cli/src/agent/process.rs:1747-1750 | viewers are shown all words up to where reading ends, also when the turn fails or panics |
| Streaming.ReturnedIsBroadcast | apps/cli/src/agent/process.rs:1910-1937 | for turns that neither fail nor panic, broadcast text is returned text plus what a failed continuation had shown; equal if and only if that is nothing |
| Streaming.HistoryAtDepth | apps/cli/src/agent/process.rs:2002-2027 | continuation d is requested with the starting history and exactly the first d exchanges |
| Streaming.RequestEndsWithResult | apps/cli/src/agent/process.rs:2002-2027 | each continuation is requested with the call just executed and, behind it, the output of that very call |
| Streaming.EveryRequestWellFormed | apps/cli/src/agent/process.rs:2002-2027 | every request of a turn shows a history in which each tool use has exactly one result, right behind it |
| Streaming.WordsCanBeLost | apps/cli/src/agent/process.rs:1910-1937 | a concrete turn whose viewers see words that the caller does not get |
| Streaming.PreviewCanPanic | apps/cli/src/agent/process.rs:1917-1921 | a concrete turn that panics after viewers saw all its words |
| Streaming.EndCount | apps/cli/src/agent/process.rs:1939-1973 | how often the end of the stream is announced, panics included |
| Streaming.ToolsAreAnnounced | apps/cli/src/agent/process.rs:1751-1895 | viewers learn of each call for this program when it starts, whether it failed, and that its result is processed; calls for other servers are not announced |
| Streaming.ErrorsAreShown | apps/cli/src/agent/process.rs:1928-1961 | viewers are shown exactly the streams' own errors and one for each failed continuation |
| MessageQueue.LanesMakeDeque | apps/cli/src/agent/message_queue.rs:221-239 | an ordered deque is System, High, Normal and Low lane in sequence |
| MessageQueue.InsertAppendsToLane | apps/cli/src/agent/message_queue.rs:125-140 | insertion appends to the message's lane and leaves the others alone |
| MessageQueue.InsertKeepsOrder | apps/cli/src/agent/message_queue.rs:221-229 | insertion keeps the deque ordered by priority |
| MessageQueue.FrontOfFirstLane | apps/cli/src/agent/message_queue.rs:148-157 | the front is the head of the first non-empty lane |
| MessageQueue.Queue.Push | apps/cli/src/agent/message_queue.rs:125-140 | a full queue refuses; otherwise the message is inserted, and a save error is reported although it is |
| MessageQueue.Queue.Pop | apps/cli/src/agent/message_queue.rs:148-157 | takes the front |
| MessageQueue.Queue.RequeueMessage | apps/cli/src/agent/message_queue.rs:165-178 | one more retry at the tail of the lane, or discarded when exhausted, or refused when full; logging the discarded message panics exactly at a character across byte 50 |
| MessageQueue.Queue.Drain | apps/cli/src/agent/message_queue.rs:202-210 | hands out the whole deque in order and leaves it empty |
| MessageQueue.Queue.ByPriority | apps/cli/src/agent/message_queue.rs:213-218 | returns one lane |
| MessageQueue.Queue.FindInsertPosition | apps/cli/src/agent/message_queue.rs:221-229 | finds the first message of lower priority |
| QueueDrain.ProcessQueuedMessages | apps/cli/src/agent/process.rs:1573-1687 | a drain is a series of successful attempts ended by the empty queue, the first failure, or a panic that loses the message being delivered |
| QueueDrain.AttemptSpends | apps/cli/src/agent/process.rs:1660-1682 | every delivery attempt strictly lowers the retry budget of the lanes at and above its priority, and no other |
| QueueDrain.Settles | apps/cli/src/agent/process.rs:1573-1687 | after as many attempts as that budget no message of the priority or above is left, whatever failed |
| QueueDrain.FateOfEachMessage | apps/cli/src/agent/message_queue.rs:165-178 | without arrivals each message is queued with its failures counted, or delivered before using up its tries, or discarded after exactly its allowed failures |
| QueueDrain.FateInEveryRun | apps/cli/src/agent/process.rs:1577-1672 | with arrivals and overlapping drains too, an accepted message is queued, in flight or delivered before using up its tries, or given up; the latter if and only if it used all its tries or a failed delivery found the queue full |
| QueueDrain.FullQueueDrops | apps/cli/src/agent/message_queue.rs:165-178 | a concrete run in which a full queue drops a message with retries left |
| QueueDrain.FatesExclusive | apps/cli/src/agent/message_queue.rs:165-178 | no message has two fates |
| QueueDrain.EveryRunAccounted | apps/cli/src/agent/process.rs:1577-1672 | with arrivals and overlapping drains, accepted messages are exactly those queued, in flight, delivered and discarded |
| QueueDrain.NeverOverfull | apps/cli/src/agent/message_queue.rs:125-140 | on every run the queue holds at most its maximum, and an arrival is accepted exactly while it holds fewer |
| Utf8.SplitsIff | apps/cli/src/agent/plan_mode.rs:340-344 | a text longer than n bytes cannot be cut there exactly if byte n lies inside one of its characters |
| Utf8.WidthIsShortest | apps/cli/src/agent/plan_mode.rs:340-344 | a character takes the fewest bytes that can hold its code |
| PlanMode.AgentState.EnterPlanMode | apps/cli/src/agent/plan_mode.rs:23-85 | the new state, also when the database cannot be opened |
| PlanMode.AgentState.ExitPlanMode | apps/cli/src/agent/plan_mode.rs:91-146 | the new state and the summary, also when the database cannot be opened or the summary cannot be cut |
| PlanMode.AgentState.ProcessPlanModeInput | apps/cli/src/agent/plan_mode.rs:152-265 | question and streamed answer go to the live and the plan transcript alike |
| PlanMode.AgentState.ClearPlanMode | apps/cli/src/agent/plan_mode.rs:368-395 | the plan state is emptied first, the live transcript only if the database opens |
| PlanMode.StepKeepsSafe | apps/cli/src/agent/plan_mode.rs:23-395 | each step keeps the main context safe; exactly when the two transcripts agree afterwards |
| PlanMode.MainContextNeverLost | apps/cli/src/agent/plan_mode.rs:32-38 | on every run, with storage failing anywhere, the context saved while planning is the one of the last entry |
| PlanMode.ExitRestoresEntry | apps/cli/src/agent/plan_mode.rs:98-145 | leaving restores messages, history and status of the entry; a failed attempt stays and keeps them; an attempt succeeds if and only if the database opens and the summary can be cut |
| PlanMode.ExitCanPanic | apps/cli/src/agent/plan_mode.rs:326-344 | a concrete plan after which planning cannot be left although the database opens |
| PlanMode.SummaryIsSummary | apps/cli/src/agent/plan_mode.rs:326-350 | the summary is the last long answer if it looks like a plan, cut after exactly 500 bytes; it cannot be made exactly if a character stands across that byte |
| PlanMode.SpokenUntilEnd | apps/cli/src/agent/plan_mode.rs:205-250 | the answer is made of all words before the end or the first error of the stream |
| PlanMode.InSyncWithoutFailedClear | apps/cli/src/agent/plan_mode.rs:152-265 | the plan state's transcript is the live one without its leading system message, unless a clear failed |
| PlanMode.FailedClearDesyncs | apps/cli/src/agent/plan_mode.rs:368-395 | a concrete run where a failed clear drives them apart |
| AgentPool.AgentPool.StopAgent | apps/cli/src/agents/pool.rs:127-138 | removes the agent and leaves it without locks |
| AgentPool.AgentPool.RemoveFinished | apps/cli/src/agents/pool.rs:200-216 | collects the results of those listed agents that are still in the pool |
| AgentPool.AgentPool.ScanFinished | apps/cli/src/agents/pool.rs:188-199 | lists exactly the finished agents of the pool |
| AgentPool.AgentPool.ShutdownAll | apps/cli/src/agents/pool.rs:238-244 | empties the pool and leaves its agents without locks |
| AgentPool.PoolBounded | apps/cli/src/agents/pool.rs:63-103 | with k callers the pool never holds more than max + k - 1 agents |
| AgentPool.BoundIsReached | apps/cli/src/agents/pool.rs:69-103 | some interleaving reaches that bound |
| AgentPool.EveryRunRemovesOnce | apps/cli/src/agents/pool.rs:127-244 | every spawned agent is in the pool or was removed in exactly one way; no result is handed out twice |
| AgentPool.RemovalIsFinal | apps/cli/src/agents/pool.rs:127-156 | on every run, how an agent was removed is the same in every later state, and it never returns to the pool |
| AgentPool.OthersKeepLocks | apps/cli/src/agents/pool.rs:127-244 | an agent loses a lock only by giving it back, by being stopped, or in a shutdown |
| SpawnTree.Registry.BeginSpawn | apps/cli/src/agent/spawn.rs:89-101 | a child is accepted exactly when its parent's depth, read from the metadata, is below the limit, which is the step the protocol allows |
| SpawnTree.Registry.AgentDepth | apps/cli/src/agent/spawn.rs:91 | following the parent links computes the depth |
| SpawnTree.Registry.FinishSpawn | apps/cli/src/agent/spawn.rs:128-142 | metadata is written, and removed again when the process does not start; a failed write abandons the child; the forest stays sound |
| SpawnTree.CleanUpShrinksDepth | apps/cli/src/agent/spawn.rs:349-359 | a clean-up never increases the depth of another agent |
| SpawnTree.DepthNeverExceeded | apps/cli/src/agent/spawn.rs:79-142 | in every interleaving all live agents are within the depth limit, although the depth that was read may be stale |
| SpawnTree.UnbornParentIsTooDeep | apps/cli/src/agent/spawn.rs:89-128 | spawning below an agent that has no metadata yet would break the limit |
| SpawnTree.NoCycles | apps/cli/src/agent/spawn.rs:264-291 | no agent is its own ancestor |
| SpawnTree.DepthIsDistance | apps/cli/src/agent/spawn.rs:89-101 | the depth of an agent is the number of parent links up to its root |
| SpawnTree.LinesAreShort | apps/cli/src/agent/spawn.rs:79-101 | in every reachable forest a line of live agents, each the parent of the one before, has at most six members |
| SpawnTree.LivesUntilCleanUp | apps/cli/src/agent/spawn.rs:128-142 | a child stays live below its parent until it is cleaned up |
| SpawnTree.GoneForGood | apps/cli/src/agent/spawn.rs:349-359 | an agent that was cleaned up never comes back |
| Watcher.DevWatcher.PumpStep | services/dev-server/src/watcher.rs:40-51 | the pump does the one step it can, or is blocked |
| Watcher.DevWatcher.TaskStep | services/dev-server/src/watcher.rs:53-81 | the build loop does the one step it can, or is blocked |
| Watcher.NoEditLost | services/dev-server/src/watcher.rs:40-81 | whenever all is quiet, a build has started after each creation, change or removal of a `.rs`, `.wgsl` or `.toml` file |
| Watcher.NoEditNoBuild | services/dev-server/src/watcher.rs:91-103 | without such an edit nothing is built or announced |
| Watcher.BroadcastIsTold | services/dev-server/src/watcher.rs:63-79 | on every run viewers are told the start of each build and its outcome, a rebuild exactly if it succeeded |
| Watcher.BroadcastsAlternate | services/dev-server/src/watcher.rs:63-79 | each build start is followed by exactly one outcome before the next start, except for the build the task dies of |
| Watcher.NotStuck | services/dev-server/src/watcher.rs:40-62 | until all is quiet pump or build loop can step, even with the channel full, while the build task lives |
| Watcher.SettlesAfterLastEvent | services/dev-server/src/watcher.rs:53-81 | after the last file event a bounded number of steps follows on any schedule, and when none is left all is quiet and the last edit is built, or the build task is dead |
| Watcher.DiesIff | services/dev-server/src/watcher.rs:141-149 | the build task dies exactly of a failed build whose log cannot be cut to its last 2048 bytes |
| Watcher.DeadForever | services/dev-server/src/watcher.rs:53-81 | once it is dead nothing is built or announced any more |
| Watcher.EditCanBeLost | services/dev-server/src/watcher.rs:141-149 | a concrete run that loses an edit in this way |
| PercentDecoding.UrlencodingDecode | services/dev-server/src/api.rs:378-397 | the index loop computes the reference decoding |
| PercentDecoding.PercentDecode | services/dev-server/src/dist.rs:134-155 | the variant with a fast path computes the same on all inputs |
| PercentDecoding.UnchangedIff | services/dev-server/src/dist.rs:135-137 | decoding leaves a string alone exactly if no complete escape begins in it |
| PercentDecoding.DecodeInvertsIff | services/dev-server/src/api.rs:378-406 | decoding inverts an encoding, byte by byte plain or escaped in either hex case, if and only if no plain `%` in it starts a complete escape |
| PercentDecoding.DecodeInvertsEscaping | services/dev-server/src/api.rs:378-406 | in particular every encoding whose plain bytes are other than `%` |
| PercentDecoding.DecodeReadsAnEncoding | services/dev-server/src/api.rs:383-395 | every input, malformed escapes included, is an encoding of what it decodes to |
| PercentDecoding.HexDigit | services/dev-server/src/dist.rs:157-164 | both hex digits of a nibble are read back as it |
| PercentDecoding.OnlyHexDigits | services/dev-server/src/api.rs:399-406 | only the sixteen digits, in both cases, have a value |
| PercentDecoding.HexDigits | services/dev-server/src/api.rs:399-406 | the value of each digit is its position |
| PercentDecoding.EscapeValue | services/dev-server/src/api.rs:384-390 | an escape stands for its first digit times sixteen plus its second |
| RangeStreaming.ParseWritten | services/dev-server/src/api.rs:294-309 | every written range is read as the range it denotes, clipped to the file, and refused exactly when it is empty or too large for 64 bits |
| RangeStreaming.ParseU64Iff | services/dev-server/src/api.rs:298-303 | a bound is a decimal number of at most 64 bits, with or without a plus sign |
| RangeStreaming.ParseRange | services/dev-server/src/api.rs:294-309 | an accepted range satisfies start <= end < size |
| RangeStreaming.StreamChunks | services/dev-server/src/api.rs:255-273 | any pattern of short reads delivers the whole window, a failed read an initial part of it; no empty or oversized chunk |
| RangeStreaming.GetBlob | services/dev-server/src/api.rs:225-292 | the body is the selected part; Content-Length is right exactly for non-empty files |
| RangeStreaming.TilesRebuildFile | services/dev-server/src/api.rs:225-292 | the responses for ranges tiling a file concatenate to the file |

## Left out

- Process spawning, sockets, HTTP routing and headers other than those modelled, the Vite proxy, the cloud worker and the web interface: foreign calls with nothing to prove.
- `FileLockManager`, `SessionBudget`, the workflow store, the voter, `topological_sort`, `get_agent_depth` and the message types are framework code that is not part of this model; only their use is. Both readings of the depth of an agent whose parent is gone are covered.
- Mdap.ExecuteSubtasks: decomposition, composition and metrics are left out.
- TaskAgent.TaskAgent.Execute: the working set, analytics, context retrieval and the message store are left out; texts of error messages are reduced to their reasons; overflow of the 64-bit token counter is not modelled. On an error exit the agent stays registered, as in the original, and nothing is claimed about it.
- CrashResume.ExecutionsBounded: runs of one task are one after the other; two processes working on the same task at the same time are not modelled.
- ToolLoop.HistoriesWellFormed: the executor is assumed to label each result with the id of its call (the original passes the executor's label on), and the provider to bring no results of its own; `TurnKeepsWellFormed` shows that the latter is needed.
- Streaming.Session.StreamWithToolExecution: truncation of long tool outputs, outcome recording for learning and the system prompt are left out; the stream of the provider is a finite tree.
- QueueDrain.Settles: a statement without new arrivals; with arrivals a bound on the attempts does not hold, but the accounting and the fate of each message do (`EveryRunAccounted`, `FateInEveryRun`). `FateInEveryRun` asks that the message's id is accepted only once.
- MessageQueue.Queue.RequeueMessage: partial writes of the persisted copy are left out.
- PlanMode.AgentState.ExitPlanMode: the broadcasts to viewers are left out. Main-mode input and history clearing while planning are not steps of the model.
- AgentPool.AgentPool.StopAgent: aborting is asynchronous; the locks are gone when the call returns, and the model lets an aborted agent take locks afterwards.
- SpawnTree.Registry.BeginSpawn: the parent is an agent that has had metadata at some time; `UnbornParentIsTooDeep` shows that the limit does not hold otherwise; the answer of the framework for a parent that is gone is a parameter, and stale sockets of agents with the same id are left out.
- SpawnTree.DepthNeverExceeded: session ids are fresh, numbered in the order of their generation; reusing the id of an agent that is gone is not modelled.
- Watcher.NoEditLost: time is counted in steps; the 300 ms pause is a state of the build loop.
- RangeStreaming.GetBlob: the file does not change while it is streamed.
- PercentDecoding.UrlencodingDecode: the replacement of invalid UTF-8 after decoding is left out.
