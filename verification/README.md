# agent-loop: verified model of the runtime's core

A Dafny model of the agent-loop runtime: the workflow scheduler, the protocols by which
callers, runs and processes share work, the loop of one agent task with its re-execution
from events, the fan-in, budget and event-log accounting, and two text algorithms. Each
module follows one component of the source and proves what that component promises of
every input, every run and every interleaving.

- `Graph`, `Workflow`, `HandBackBudget`, `Scheduler`, `SchedulerSteps`, `SchedulerRuns`,
  `SchedulerHistory`, `SchedulerLoop`: `compileWorkflow`, `cyclic`, `closure` and `runStages`.
  The scheduler is a step relation against an arbitrary environment; `RunStages` is the
  loop itself, on an array of stage states, proved to take only such steps.
- `Semaphores`, `RunSlots`, `CostGate`, `Lease`: the concurrency and ownership protocols.
  The source's atomic sections are methods of a class, each proved equal to a function of
  the state; those functions are the steps of a system of any number of callers, and the
  theorems are invariants over all runs of it.
- `AgentLoop`, `AgentShape`, `AgentTrace`, `Recording`, `Fidelity`: the agent loop with tool
  rounds, rejected answers and compaction; the shape of what it sends; how each request, the
  answer and each failure follow from the records; the events it leaves; and a simulation of
  the original by its copy. The same loop runs against live models and tools
  (any replies, any outcomes) and against recorded ones.
- `FanIn`, `ToolRounds`, `Budget`, `SubAgents`, `TaskReuse`, `SubAgentLedger`: parallel
  stages and tool calls, the budget manager, and sub-agent accounting: one task, the reuse of
  recorded outputs, and any number of tasks and stages at once.
- `EventLog`, `EventStream`, `Core`, `RunStatus`: the event log, a client's stream of it, and
  replay against the stored status.
- `Thinking`, `Splitter`: the incremental reasoning splitter and the document splitter.
- `Wrappers`, `Collections`: `Option`, `Result`, and facts about sequences and sets.

`dafny verify dfyconfig.toml` checks the whole project.

## Where the code does less than it says

Each of these is proved, with the exact condition under which the promise holds.

- Re-execution (`Fidelity.ReExecutionIsFaithful`): a copy reproduces its original exactly if
  every tool result survives being recorded. A failed call with an empty error message is
  replayed as an empty output (`runtime/reexecute.go:172`), and an output that JSON stores
  in another form comes back in that form.
- Streamed replies (`Thinking.DeltasAddUp`): the deltas agree with the whole reply exactly if
  the reply, without leading white space, is not a lone closing tag, which the hold-back
  test catches first (`model/openai/openai.go:262`).
- Replay (`RunStatus.TerminalStatusIsReplayed`): the events disagree with a terminal status
  exactly between its write and its event, and after a late launch has emitted `queued` over
  it. In the second case replay can reject a succeeded run for good
  (`RunStatus.LateLaunchUnrecordsSuccess`, `RunStatus.RejectedForGood`).
- Succeeded and canceled runs (`RunStatus.ClosedIsLeftOnlyByLateLaunch`): `createRun` stores a
  run before `launch` claims it, so a call that resumes and finishes it in between is undone
  by the launch; a finished run can be left exactly while such a launch is still to come or
  has begun.
- Final statuses (`Lease.FinalWriteByLiveOwner`, `Lease.UnansweredWriteMayMiss`): the writer is
  the live owner when it was told so less than a lease ago, whether or not its closing
  renewal was answered. Past the lease of the last answered renewal there is no such promise,
  because `stillLeased` answers true without an answer.
- Up-front reservations (`TaskReuse.ToRunIsExact`): a delegated task with the stage, agent and
  prompt of one of the stage's own steps can take the output that step was counted on to
  reuse. `toRun` is what the stage's agents miss, in every order of takes, exactly if each key
  that the steps share with delegated tasks has no recorded output, or one for every take of
  it; and where delegated tasks come only from agents that run, exactly if for each such key
  this holds or no step with another key has to run (`TaskReuse.ToRunIsExactWhenCaused`).
- The sub-agent count and its limit (`SubAgentLedger.CountIsExact`,
  `SubAgentLedger.StageIsExact`): an agent whose output was taken from it runs without a
  reservation. The count is exact throughout a run exactly if no stage's agents miss more
  often than it counted, which for a stage in all its runs is the condition above; otherwise
  the records can pass the limit (`SubAgentLedger.RecordsMayPassLimit`).

## Model

| member | source | states |
|---|---|---|
| Graph.Closure | runtime/workflow.go:280-294 | the breadth-first search returns exactly the nodes reachable from i, each once and in ascending order |
| Graph.Cyclic | runtime/workflow.go:240-270 | the three-colour search answers true exactly when some path returns to its start |
| Graph.Visit | runtime/workflow.go:246-261 | one visit of the search: it finds a cycle, or finishes the node and all it reaches, after everything they depend on |
| Graph.ReachesInverse | runtime/workflow.go:272-278 | a reaches b over the dependencies if and only if b reaches a over the dependents |
| Graph.AcyclicHasSource | runtime/workflow.go:358-375 | among any unfinished stages of an acyclic workflow one depends on none of the others, so the loop is never stuck |
| Workflow.CompileWorkflow | runtime/workflow.go:126-238 | compilation succeeds exactly for workflows with named, distinct, well-formed stages, known and acyclic dependencies and hand-backs to ancestors, and the plan is that workflow's: its dependencies are those listed, by name, or each stage's predecessor |
| Workflow.ResolveDeps | runtime/workflow.go:194-208 | the dependency and dependent lists are those listed, or each stage's predecessor when none lists any, and are inverse to each other |
| Workflow.ResolveHandBacks | runtime/workflow.go:220-237 | hand-backs are accepted exactly when their pattern compiles, their target is the stage or an ancestor, and their limit is not negative |
| Workflow.HandBackResetsItsStage | runtime/workflow.go:224-230 | an accepted hand-back's target has the stage that handed back among its descendants, so the reset includes it |
| SchedulerLoop.RunStages | runtime/workflow.go:333-433 | the loop ends for any order and content of results, makes only the steps of the scheduler and returns its final state; it returns a failure exactly if a result it took was an error, a hand-back past the limit or a stalled one, and says it stopped exactly if one matched its stop pattern; otherwise every stage is settled |
| SchedulerRuns.ReturnSettles | runtime/workflow.go:372-375 | on a return without failure or stop every stage is done, its output matches neither its hand-back nor its stop pattern, and its last execution began from its dependencies' final outputs and its last feedback |
| SchedulerRuns.ReachableStateIsOrderly | runtime/workflow.go:353-432 | in every reachable state, failed, stopped and with resets due, a running or done stage has all dependencies done, and without a failure the stages in flight are exactly the running ones |
| SchedulerRuns.FeedbackOnlyToDoneStages | runtime/workflow.go:424-426 | feedback changes only under a stage that is done, so no running stage's input changes |
| SchedulerRuns.RunsEnd | runtime/workflow.go:353-432 | every run has at most 3n(1 + sum of hand-back limits) steps and at most n(1 + sum of limits) stage starts |
| SchedulerHistory.RunsGoAsTheirResults | runtime/workflow.go:387-431 | told from the results taken alone: a run has failed with the first result that fails it, has stopped exactly if an output before that hands nothing back and matches its stop pattern, which is then still its stage's output, each stage's output is the last one taken from it, and its feedback the last output handed back to it |
| SchedulerHistory.StartsWait | runtime/workflow.go:357-371 | stages start only while no result has failed or stopped the run, and after a hand-back only once its reset is made |
| SchedulerLoop.StartStages | runtime/workflow.go:358-371 | one pass over the stages starts exactly those that are pending with all dependencies done |
| SchedulerLoop.TakeOutput | runtime/workflow.go:394-431 | taking an output counts hand-backs, fails past the limit or on a detected loop, hands back, stops or goes on, in that order |
| SchedulerLoop.ResetStages | runtime/workflow.go:376-381 | a reset makes pending exactly the descendants of the stages that were handed work back |
| Semaphores.Semaphores.Join | policy/concurrency.go:36-46 | the locked section of Acquire: the key's one semaphore, made with this limit if there was none, has one more user |
| Semaphores.Semaphores.Leave | policy/concurrency.go:59-65 | leaving takes a user away, and the key out of the map when it was the last |
| Semaphores.HoldersWithinLimit | policy/concurrency.go:32-65 | in every reachable state the map holds exactly the keys in use, all calls of a key share its one semaphore, and however the calls that asked for a key with a positive limit came to proceed, each holds that semaphore and they are within the limit asked for by the call that found the key unused |
| Semaphores.CapIsLimitInForce | policy/concurrency.go:18-19 | a semaphore's size is the limit of the last call that found its key unused, through any number of deletions and other callers' limits |
| Semaphores.WaitsOnlyForRoom | policy/concurrency.go:47-57 | a waiting call can go on exactly when its key has fewer holders than the limit, and giving back and leaving never block |
| Semaphores.IdleForgetsAll | policy/concurrency.go:59-72 | with no call under way no key is remembered |
| RunSlots.NoDeadlock | runtime/orchestrator.go:696-733 | in every reachable state with a waiting run, some run executes or gives slots back, or some waiting run's next acquire can proceed |
| RunSlots.QueueDrains | runtime/orchestrator.go:682-733 | without arrivals the runs make at most a computed number of steps in any order, and another step is possible exactly until every run is done |
| RunSlots.ExecutingWithinLimits | runtime/orchestrator.go:698-727 | in every reachable state the runs that execute with slots are within the process's limit, those of a tenant within the limit per tenant, and those of a tenant's named workflow within the limit per workflow |
| RunSlots.RunsAreArrivals | runtime/orchestrator.go:698-710 | the runs of a state are those that arrived, each with its tenant and workflow |
| RunSlots.ExecutesWithoutSlotsOnlyAfterContextEnds | runtime/orchestrator.go:682-690 | only a run whose context ended while it waited executes without slots |
| RunSlots.DoneHasExecuted | runtime/orchestrator.go:682-690 | no run is done without having executed |
| CostGate.CostGate.Look | runtime/orchestrator.go:1668-1685 | a look at the gate tells the answer, names the open question to wait for, or opens one |
| CostGate.CostGate.Settle | runtime/orchestrator.go:1691-1703 | the asker's end frees the gate and closes its channel; only an answer is kept: an approval is no error, and a refusal is an error with its status, for the asker too |
| CostGate.OneAsksTheOthersWait | runtime/orchestrator.go:1669-1685 | at most one caller asks, and every waiter can go on or has that asker to wait for |
| CostGate.AllWaitersWake | runtime/orchestrator.go:1691-1697 | however asking ends, every caller that waited can go on |
| CostGate.SameAnswerForAll | runtime/orchestrator.go:1679-1702 | all callers told an answer, then or later, are told the same one, and nobody is asked again |
| CostGate.ToldTheVerdict | runtime/orchestrator.go:1698-1702 | whoever is told an answer is told the verdict with which some asker came back: nothing for an approval, its status for a refusal |
| CostGate.AnsweredIsTold | runtime/orchestrator.go:1679-1702 | who looks once there is an answer, and the asker who got it, is told it |
| CostGate.AsksCounted | runtime/orchestrator.go:1649-1651 | a human is asked once, and once more for each asker that ended with its own error |
| CostGate.StepProgresses | runtime/orchestrator.go:1669-1678 | each step but an arrival lets a caller return or leaves the woken ones less to do |
| CostGate.NotStuck | runtime/orchestrator.go:1669-1678 | while a caller is inside, some caller can go on without its context ending |
| Lease.MemStore.ClaimRun | store/store.go:517-530 | a claim is granted exactly when the run is unowned, the claimant's own or expired, and then sets owner and expiry only |
| Lease.MemStore.RenewLeases | store/store.go:532-544 | renewal answers and extends exactly the runs asked about that the owner holds, with their cancel requests |
| Lease.MemStore.UpdateRun | store/store.go:505-515 | an update keeps owner, expiry and cancel request whatever the caller's copy holds |
| Lease.MemStore.ReleaseRun | store/store.go:546-554 | a release frees the run only for its owner |
| Lease.StillLeased | runtime/orchestrator.go:2505-2517 | the closing check is true exactly when the lease was not lost before and the store says the run is held or does not answer |
| Lease.OwnershipPasses | store/store.go:517-554 | an owner is replaced only after it released the run or its lease expired |
| Lease.DisplacedIsNotTold | store/store.go:532-544 | an owner that lost the run is told that it holds it by no renewal, until it claims it again |
| Lease.OwnsExactlyForTheLease | store/store.go:524-527 | an owner keeps the run whatever other processes do until a given time, exactly if that time is within its lease |
| Lease.StatusIsLastWritten | store/store.go:505-515 | whoever owns the run meanwhile, its stored status is the one written last |
| Lease.CancelStaysAsked | store/store.go:532-544 | a run says that its cancellation was asked for exactly if it was, so every later granted renewal reports it |
| Lease.ReleasedIsFree | store/store.go:546-554 | a run its owner released is free for any claim |
| Lease.FinalWriteByLiveOwner | runtime/orchestrator.go:962-995 | over all orders of claims, renewals, releases, updates and clock steps, a final status written less than a lease after the writer was last told it holds the run, its closing renewal answered or not, is written by the one live owner |
| Lease.UnansweredWriteMayMiss | runtime/orchestrator.go:2510-2514 | after an unanswered closing renewal, from the end of its lease on, a process may write although another owns the run |
| RunStatus.Replay | runtime/replay.go:16-57 | replay accepts exactly a non-empty, strictly rising event list whose last recorded status is the stored one, and names each failure |
| RunStatus.TerminalStatusIsReplayed | runtime/orchestrator.go:983-1009 | for every interleaving of launch, resume, cancel and execution, a late launch included, a terminal status is accepted by replay exactly when its writer has emitted its event and no launch has emitted queued since it was written |
| RunStatus.StatusIsLastWritten | runtime/orchestrator.go:983-995 | for every interleaving the stored status is the one written last |
| RunStatus.StatusesAreEmittedOnce | runtime/orchestrator.go:983-1009 | every status written, and queued for each launch, is emitted once or about to be |
| RunStatus.LateLaunchUnrecordsSuccess | runtime/orchestrator.go:337-375 | a run resumed and finished before createRun launches it, whose launch is then stopped, is free and succeeded while its last event says queued |
| RunStatus.RejectedForGood | runtime/orchestrator.go:447-454 | replay rejects such a succeeded or canceled run whatever calls follow |
| RunStatus.ClosedForGood | runtime/orchestrator.go:447-454 | no call leaves succeeded or canceled, when the creating call launched the run first |
| RunStatus.ClosedIsLeftOnlyByLateLaunch | runtime/orchestrator.go:334-375 | otherwise a succeeded or canceled run can be left exactly while the launch of its creating call is to come or has begun |
| EventLog.MemStore.Append | store/store.go:847-886 | appended events are only numbered, keep the log gapless per run and per session, and reach every subscription to their run with room |
| EventLog.MemStore.ListRunEvents | store/store.go:888-902 | the query returns the tenant's events of the run after the number, in order, up to the limit |
| EventLog.MemStore.Subscribe | store/store.go:921-950 | a subscription's channel holds the events after the number and has room for 256 more |
| EventLog.NumberedFromOne | store/store.go:861-868 | the events of a run, and of a session, are numbered 1, 2, 3 and so on without gaps |
| EventLog.LaterIsTail | store/store.go:888-902 | a query after any number, negative or in the future, selects exactly the tail of the run's events |
| EventLog.LaterSelects | store/store.go:888-902 | a query gives exactly the events of its tenant and run after its number, in the order of the log |
| EventStream.DrainHistory | api/server.go:815-825 | history is handled whole, and ends the stream exactly when its last event ends the run |
| EventStream.StreamInOrder | api/server.go:811-861 | whatever is appended meanwhile, a stream handles its run's events after Last-Event-ID with strictly increasing numbers, and skips none unless its channel dropped one |
| EventStream.CaughtUpExactlyWithoutLoss | api/server.go:827-861 | a live stream with nothing left to receive has handled every event after Last-Event-ID exactly if its channel dropped none of them |
| EventStream.EndsWithTheRun | api/server.go:881-890 | a stream ends by itself only with an event that ends the run, and once live never goes past one |
| AgentLoop.RunAgentLoop | runtime/orchestrator.go:1379-1422 | the loop, turn by turn, is the function whose answer, failures, requests and shape are proved below, for any turn limit |
| AgentLoop.CompactTask | runtime/compaction.go:195-247 | compaction cuts before the latest tool round when the task is over its limit and has earlier replies, asks once, and replaces the older rounds by the summary |
| AgentLoop.RunToolCalls | runtime/orchestrator.go:1763-1925 | calls that run one at a time give one message each, refused ones without being executed, and fail the task exactly when one ends with a fatal error |
| AgentShape.RequestsAreShaped | runtime/orchestrator.go:1379-1420 | after any tool rounds, rejections and compactions, every list sent keeps its prefix up to the prompt and goes on in rounds: each tool-call reply followed at once by one result per call in call order, and no result elsewhere |
| AgentShape.CompactionShortens | runtime/compaction.go:195-247 | each compaction keeps the prefix, puts one summary for the older rounds, keeps the latest tool round verbatim and strictly shortens the list |
| AgentShape.SummaryCarriesReply | runtime/compaction.go:195-247 | the summary is the summarizer's trimmed reply, which is the last thing recorded |
| AgentTrace.TasksGoAsRecorded | runtime/orchestrator.go:1379-1422 | told from records and messages alone: each turn asks with the messages the one before left, after the compaction that was due; goes on with one result per call, saying what the call gave, or with the reason of a rejection; and the task ends with an answer, a fatal call, a failed model call or compaction, or after its last turn |
| AgentTrace.AnswerIsLastReply | runtime/orchestrator.go:1400-1420 | an answer is the content of the last message, the model's, without calls and not rejected, and the last record is that reply to all messages before it |
| AgentTrace.CutsWhenDue | runtime/compaction.go:195-217 | compaction cuts exactly when the messages after the prompt are over the limit and a reply stands before a later tool round, and then before the latest round |
| AgentShape.ResultsAnswer | runtime/orchestrator.go:1909-1925 | the messages of one reply's calls answer them one for one, in order |
| Recording.Replayer.constructor | model/fixture.go:80-90 | the replayer holds, per request, the recorded replies in recorded order |
| Recording.Replayer.Chat | model/fixture.go:98-111 | a request gets the first unused reply to an identical one and takes only that; without one it gets none |
| Recording.Replayer.Remaining | model/fixture.go:114-122 | the number of responses never requested |
| Recording.ToolReplay.Execute | runtime/reexecute.go:157-176 | a call gets the first unused result for its tool and input, as the error or output it was recorded as |
| Recording.RecordedOutputs | runtime/reexecute.go:83-133 | what re-execution collects is the fold of the events over started requests and scheduled inputs, and fails exactly when a request or response is missing |
| Recording.CollectEmitted | runtime/reexecute.go:83-133 | from the events of a task it collects exactly the model exchanges and tool results of that task, in order |
| Recording.OthersIgnored | runtime/reexecute.go:89-129 | other events, wherever they stand, change nothing |
| Recording.CollectsWhatIsStored | runtime/reexecute.go:83-133 | collecting fails exactly if some model call's request or response is not stored, and otherwise pairs each response with the request its step was last started with, and each result with the input its step was last scheduled with, in order |
| Fidelity.ReExecutionIsFaithful | runtime/reexecute.go:18-28 | the same loop, run against the records of any task that ended with an answer, sends the same requests in order, builds the same messages, gives the same answer and leaves no response unused, if and only if every tool result survived being recorded |
| Fidelity.EventsRecreate | runtime/reexecute.go:83-133 | what a task's events give back is the recorded environment that theorem speaks of |
| Fidelity.ReplayedMessage | runtime/reexecute.go:157-176 | a replayed result gives the model the original message exactly if the output is stored as it is or the error says something |
| Fidelity.SimRound | runtime/orchestrator.go:1379-1420 | one turn run again makes the same requests, and the same messages exactly if the turn's tool results survived recording |
| Fidelity.SilentErrorIsLost | runtime/reexecute.go:165-175 | an error without a message is replayed as an empty output |
| Fidelity.FatalErrorsReplayed | runtime/reexecute.go:167-171 | an error that failed the task fails the copy's too exactly if it is a budget's, the loop detector's or a pause |
| FanIn.RunParallelStage | runtime/orchestrator.go:1082-1126 | for every arrival order, with any results from agents cancelled by a failure, the stage succeeds exactly when its policy bears the agents' failures; its text has one line for each success in step order, and its error is that of the first failure to arrive under fail-fast, and otherwise of the first in step order unless a quorum is missed |
| FanIn.TakeResults | runtime/orchestrator.go:1082-1104 | the stage is ended by the first failure that its policy does not bear, and by no other |
| FanIn.SortRestoresOrder | runtime/orchestrator.go:1111 | sorting what arrived puts the item of index k in place k, whatever the order of arrival |
| FanIn.CollectToolResults | runtime/orchestrator.go:1912-1925 | tool results come out in call order, or as the error of the first failed call in that order, for every arrival order |
| Budget.BudgetManager.Reserve | policy/policy.go:235-250 | a reservation is made exactly when no limit is exceeded with it, and otherwise changes no run's usage |
| Budget.BudgetManager.Commit | policy/policy.go:275-285 | usage that happened is always recorded, and exceeding a limit is reported |
| Budget.CheckLimits | policy/policy.go:306-326 | usage passes exactly when every limit that is set is kept |
| Budget.ReleaseUndoesReserve | policy/policy.go:252-272 | a release undoes the reservation it is for, and no release makes usage negative |
| ToolRounds.FinishRound | runtime/orchestrator.go:1846-1925 | calls that ran at once, ended in any order, give the messages, or the failure, that running them one at a time with the same ends gives |
| ToolRounds.ParallelRoundIsShaped | runtime/orchestrator.go:1909-1925 | after such a round the list of messages is what the loop's own turn makes of it, and keeps its shape |
| SubAgents.RunTask | runtime/orchestrator.go:1171-1221 | on every path, reused, refused, retried, without a record or canceled in a backoff, the count changes by exactly the records created less the reservation the caller says it made, and never below none; the answer is the reused output or that of the first attempt that answers, and a task fails only after an attempt that may not be retried |
| SubAgents.RunAttempts | runtime/orchestrator.go:1181-1221 | all attempts but the last failed and might be retried; the last answers, or is not retried for the number of attempts, its error, its context or the budget |
| SubAgents.AttemptTask | runtime/orchestrator.go:1229-1243 | an attempt turns its reservation into a record, or gives it back |
| TaskReuse.CompletedTasks.Take | runtime/orchestrator.go:578-591 | a take gives the oldest recorded output of its key and removes only that |
| TaskReuse.TakesGiveRecorded | runtime/orchestrator.go:578-591 | the takes of a key get its recorded outputs one after the other, each once, and then nothing |
| TaskReuse.CompletedTasks.ToRun | runtime/orchestrator.go:594-611 | the count is the number of takes, in step order, that would find nothing |
| TaskReuse.MissesInAnyOrder | runtime/orchestrator.go:593-611 | the stage's takes fail equally often in every order |
| TaskReuse.ToRunIsExact | runtime/orchestrator.go:1050-1052 | the up-front reservation is the number of the stage's own takes that fail, in every order of these and the delegated takes, exactly if each key they share has no recorded output or one for every take of it |
| TaskReuse.ToRunIsExactWhenCaused | runtime/orchestrator.go:1356-1358 | in the orders where delegated takes come only after a take of the stage that found nothing, exactly if for each shared key this holds or no step with another key has to run |
| TaskReuse.ToRunIsNeverMore | runtime/orchestrator.go:1050-1052 | in no order do fewer of the stage's own takes fail than were reserved for |
| TaskReuse.DelegatedTakeMayMiss | runtime/orchestrator.go:1356-1358 | an agent that runs may delegate another step's prompt, and the delegated task takes that step's output |
| SubAgentLedger.CountIsDueLessUnpaid | runtime/orchestrator.go:1171-1243 | for any interleaving of stages and tasks the count is earlier sub-agents, records and reservations without a record, less the misses that no stage had reserved for and no release has made up, and never passes the limit |
| SubAgentLedger.LedgerIsWhatHappened | runtime/orchestrator.go:1171-1243 | the ledger's records are those created in the run, and its takes those made, in order |
| SubAgentLedger.CountIsExact | runtime/orchestrator.go:1171-1243 | the count is exact throughout a run if and only if no stage's agents missed more often than it counted, and then the records never pass the limit |
| SubAgentLedger.StageMisses | runtime/orchestrator.go:1044-1075 | each stage reserves what its agents would miss when it counts, and they miss what the order of all takes since makes of it: never less once all have taken, never more where the outputs suffice |
| SubAgentLedger.EnoughOutputsKeepCount | runtime/orchestrator.go:1050-1052 | with outputs that suffice for every stage the count is exact throughout, however many stages and tasks run at once and however their agents end |
| SubAgentLedger.StageIsExact | runtime/orchestrator.go:1050-1052 | a stage that could reserve leaves the count exact in every run with given takes of others exactly if each shared key has no recorded output or one for every take of it |
| SubAgentLedger.DelegatingStageIsExact | runtime/orchestrator.go:1356-1358 | where others take only after an agent of the stage missed, exactly if for each shared key that holds or no step with another key has to run |
| SubAgentLedger.CountIsRecordsInTheEnd | runtime/orchestrator.go:1171-1243 | when all tasks have ended and all agents have taken, the count is the records created, less what agents ran on without a reservation |
| SubAgentLedger.RecordsMayPassLimit | runtime/orchestrator.go:1171-1181 | a delegated task takes a step's output, the step's agent runs without a reservation, and two records are created under a limit of one |
| Thinking.DeltasAddUp | model/openai/openai.go:248-283 | for every chunking, the deltas carry the reasoning of the whole reply, and its trimmed content if and only if the left-trimmed reply is not a lone closing tag |
| Thinking.ReasoningIsSplitOff | model/openai/openai.go:499-509 | a reply that opens with a think tag, some text and its first closing tag has that text as reasoning and the rest as content, both trimmed |
| Thinking.LoneCloseIsDropped | model/openai/openai.go:499-509 | a reply that opens with a closing tag has no reasoning and the rest as content |
| Thinking.OthersAreContent | model/openai/openai.go:499-509 | a reply that opens with no tag, or has no closing one, is all content |
| Thinking.StreamReply | model/openai/openai.go:255-283 | pushing the chunks one by one and flushing gives the stream that theorem speaks of |
| Thinking.LeadingThink.Push | model/openai/openai.go:255-274 | a push holds back while the reply may still begin with a tag, and then splits or lets through all it held |
| Thinking.FeedAgrees | model/openai/openai.go:248-283 | after every chunk, what was emitted and is held determines the whole reply's split for whatever follows |
| Splitter.Split | tool/memory/memory.go:265-304 | parts are non-empty, trimmed, valid UTF-8 of at most max bytes or one longer rune, together hold every character that is not white space in order, and a text that fits becomes one part |
| Splitter.FindCut | tool/memory/memory.go:277-286 | the cut is the last blank of the first max bytes, else the last rune start there, else the end of the first rune |
| Splitter.CutAtBoundary | tool/memory/memory.go:279-285 | a valid text cut anywhere but inside a rune gives two valid texts |
| Splitter.ParagraphsKeep | tool/memory/memory.go:274 | cutting into paragraphs loses nothing but the breaks |
| Splitter.NonSpaceOfParts | tool/memory/memory.go:263-265 | what the parts hold besides white space is what their concatenation holds |

## Left out

- HTTP routing, authentication, OpenAPI, the console and the commands: plumbing.
- Network model providers and the MCP client, apart from splitting reasoning from content: foreign protocols.
- The PostgreSQL store, migrations and sealing: the in-memory store is the store that is modelled.
- JSON, JSON Schema, regular expressions, hashes and ids: uninterpreted functions and predicates. JSON documents are compared in compact form; a tool key is the pair of name and input; ids are fresh numbers.
- Logging, metrics, tracing, redaction and idle warnings: they change no result.
- Timeouts and backoff lengths: a context may end whenever it is waited on; only leases have a clock.
- Roles, visibility, tool policies, limit defaults and configuration checks: small tables. A workflow's stage fields other than names, dependencies, stop patterns and hand-backs are one flag, `fieldsOk`.
- Embeddings and their ranking: floating point.
- Per-agent outputs of a parallel stage in the workflow variables, and rendering prompts from them: stage outputs are kept by stage index.
- Integer widths: sequence numbers, counters and sizes are unbounded.
- SchedulerLoop.RunStages: what a stage answers is the environment's choice; the error texts are fixed, and the loop detector is a choice made with each hand-back.
- Workflow.CompileWorkflow: says when compilation fails, not with which message.
- Semaphores.HoldersWithinLimit: a release func is called once per acquisition, as its callers do; a second call would receive from the channel again.
- RunSlots.NoDeadlock: a slot is a count of holders per key, which `Semaphores` justifies; that executing runs end is the environment's choice. The acquiring loop itself is not a method, because it blocks between its steps.
- CostGate.OneAsksTheOthersWait: callers below the threshold never reach the gate and are not modelled; the loop around the wait is the sequence of a caller's steps.
- Lease.FinalWriteByLiveOwner: one run and one lease length for all processes, and owner names are distinct and not empty; a process that gives up may do so at any time, which covers failed renewals.
- RunStatus.TerminalStatusIsReplayed: store calls succeed and one process works on the run; replay reads events and status in one state.
- EventStream.StreamInOrder: events of the run belong to the tenant that asks; visibility filtering, deltas and heartbeats change no sequence number.
- EventLog.MemStore.Append: event ids, times and correlation ids are not modelled.
- AgentLoop.RunAgentLoop: tool calls run one at a time; a round of parallel calls is one such round (`ToolRounds.FinishRound`), but their limits and approvals are not modelled, nor images, budgets, retries of a tool call, artifacts, delegation and the loop detector.
- AgentLoop.RunToolCalls: calls run one at a time, which a parallel round comes down to (`ToolRounds.FinishRound`); approvals, retries, tool budgets and the loop detector are outcomes of a call or not modelled.
- AgentShape.RequestsAreShaped: a task's loop runs its calls one at a time, and one round of parallel calls is `ToolRounds.ParallelRoundIsShaped`; a reply's message is the model's and carries the calls the reply asks for, as the provider builds it; a request whose call fails is not recorded.
- Fidelity.ReExecutionIsFaithful: one task of one attempt; session compaction, images and copied history are the same prefix on both sides.
- FanIn.RunParallelStage: no agent pauses and the stage's own context does not end.
- Splitter.Split: carriage returns before line feeds are already removed by the caller.
- Thinking.DeltasAddUp: white space is the four characters that the incremental splitter trims.
- SubAgentLedger.CountIsExact: usage other than sub-agents is not kept; another limit may refuse a task at any time, and a stage whose reservation is refused is one that never reserves.
- SubAgentLedger.StageIsExact: the takes of other tasks may come at any moment, from any task; which agent delegates which is modelled only by the order in `TaskReuse.Caused`.
