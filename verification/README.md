# gobot: verified models of its protocols and durable state

gobot is a chat agent. Its hard part is a set of small concurrent protocols and durable state machines, and this
project models those in Dafny and proves what they are for: over every interleaving, every run, every input.

| file | what it models |
|---|---|
| `McpTransport.dfy`, `McpSafety.dfy`, `McpDelivery.dfy`, `McpOutcomes.dfy`, `McpServer.dfy` | the MCP stdio transport: callers sharing one subprocess pipe, one reader per transport generation, an admission token, teardown from any goroutine, cancellable writes and waits |
| `SessionLock.dfy` | the reference-counted table of session locks |
| `CheckpointStore.dfy`, `SessionHistory.dfy`, `SessionManager.dfy` | the checkpoint table with its pruning, and turns and background compactions over it; together they refine one register per session |
| `Messages.dfy`, `Compaction.dfy`, `PairedCompaction.dfy` | messages, the in-place marking of what a compaction keeps, and what it does to call/answer pairing |
| `Approval.dfy` | human approval: a waiter and its callbacks meeting through a stored status and a live channel |
| `TelegramPolling.dfy` | polling generations, their channels and the update offset |
| `CronJobs.dfy`, `CronSchedule.dfy`, `CronReconcile.dfy` | the scheduler's polls, timing and accounting, and the reconciliation of file-defined jobs |
| `ToolLoop.dfy`, `Idempotency.dfy` | the tool-call loop with reflection, and at-most-once execution of side-effecting tools |
| `Wrappers.dfy` | `Option` |

How to read it. A concurrent protocol is a `State`, an `Action` per atomic section of the source, `Enabled` and `Next`;
`Steps` is a finite run and `Reachable` a state some run from `Init` leads to. `Inv` is the inductive invariant, the
`...Keeps` lemmas say which step keeps which part of it, and the theorems under "whole runs" are about every reachable
state. Objects whose methods update fields are classes. A method that is one critical section or one channel operation
is proved to change the fields as the step of the same name does; a method that runs several steps is tied to the run by
a lemma (`TurnIsARun` and `CompactIsARun` for the two bodies under the session lock, `BatchSteps` for the loop over a
fetched batch, `SelectIsAStep` for the select of the lock, the pointwise lemmas for a poll). Loops over arrays and lists are methods with invariants, proved against specification
functions that the lemmas then reason about. Every lemma is proved without automatic induction.

Model calls, tools, SQL statements, pipes and clocks are parameters or nondeterministic steps: a step's `ok`, `acked`
or similar argument says whether the outside operation succeeded, and the theorems hold for all choices. Go channels of
capacity 1 are optional values; SQL tables are sequences or maps of rows with atomic transactions; times are integers.

## Where the code and its description differ

The model follows the code. Each of these has a lemma with a concrete input and one that says exactly when it happens,
named in that order.

- `deregister` is keyed by id alone while ids restart per generation, so a late caller of an old transport generation
  can remove the entry of a live caller: `LiveCallerCanLoseItsEntry`, `DeregisterStealsExactlyAcrossGenerations`.
- A comment in `CompactMessages` promises that at least one message is dropped; it can drop none: `NothingToDrop`,
  `ShrinksExactly`.
- Compaction pairs calls and answers by id, so unnamed calls and ids used twice can be split from their answers:
  `UnnamedCallsAreSplit`, `RepeatedIdsAreSplit`, `CompactionPairedExactly`. With named and unique ids pairing always
  survives (`CompactionKeepsPairing`).
- The budget compaction cuts by count, and the cut can fall on a tool answer: `BudgetCutSplits`,
  `BudgetCompactionPairedExactly`.
- A thread that was completed restarts at iteration 1 above surviving rows, so its next turn can be lost to the
  following load: `CompletedTurnIsLost`, `CompletedThreadLosesTurnExactly`.
- The next time of an "every" job wraps around 64 bits and the job then never starts again: `OverflowWitness`,
  `EveryNextIsLaterExactly`, `OverflowStopsForever`.
- Without a dispatcher a due job is counted as run but as neither success nor failure:
  `UndispatchedIsUnbooked`, `BalanceKeptExactly`.
- An "at" job whose instant has passed when it is first polled never runs: `LateAtJob`,
  `AtJobStartsExactly`, `LateAtJobNeverStarts`.
- Skipping a snapshot by its fingerprint can leave the job list stale after an incomplete snapshot or a failed write:
  `ShortcutCanBeStale`, `ShortcutRefinesExactly`. So can an edit that keeps name, size and modification time, which is
  all the fingerprint reads; `ShortcutRefines` says exactly when.
- The TTL of an idempotency record counts from the start of the second it was stored in, so it can be up to a second
  short: `TTLCanBeShort`, `TTLIsShortExactly`, `RunsAgainExactly`.

## Model

| member | source | states |
|---|---|---|
| `McpSafety.InvKeeps` | internal/app/tool_mcp.go:107-435 | every atomic step of callers, stoppers, writers and readers keeps the transport invariant |
| `McpSafety.DeliveredLineIsOwn` | internal/app/tool_mcp.go:231-243 | over every run a caller is given a line only if it carries the id of its own request and was read by the reader of the generation that request was registered on |
| `McpSafety.NoReaderAtAttach` | internal/app/tool_mcp.go:137-146 | over every run, when a generation is about to be attached the readers of all earlier ones have ended and nothing is registered |
| `McpSafety.OneReaderNeverStuck` | internal/app/tool_mcp.go:205-259 | at most one reader is live, it is the newest, and its send or its end is never blocked |
| `McpSafety.OneSendPerRequest` | internal/app/tool_mcp.go:242-255 | each registration gets at most one send on its channel |
| `McpSafety.ClosedMeansNeverDelivered` | internal/app/tool_mcp.go:421-435 | a caller told "transport closed" had no reply delivered before and gets none in any continuation |
| `McpSafety.WaiterOfEndedReaderReturns` | internal/app/tool_mcp.go:421-435 | once its reader has ended a waiter can return; it reports "transport closed" exactly if nothing was sent to it, and otherwise returns what was sent |
| `McpSafety.WireFollowsLifecycle` | internal/app/tool_mcp.go:301-332 | per generation the written lines are initialize with id 1, the initialized notification only after that generation answered id 1, then requests with strictly rising ids |
| `McpSafety.WritesNeverOverlap` | internal/app/tool_mcp.go:398-419 | two goroutines never have a write in progress at once, cancelled writes included |
| `McpSafety.DeregisterStealsExactlyAcrossGenerations` | internal/app/tool_mcp.go:261-265 | deregister removes somebody else's entry exactly if the caller's generation is no longer attached and its id is in use |
| `McpSafety.LiveCallerCanLoseItsEntry` | internal/app/tool_mcp.go:261-265 | a run after which the response to a waiting caller is dropped |
| `McpDelivery.WaiterReachableExactly` | internal/app/tool_mcp.go:189-265 | over every run a caller still waiting on the attached generation, with its reader scanning, is registered exactly if no caller of an earlier generation deregistered its id since it registered |
| `McpDelivery.NeverRegained` | internal/app/tool_mcp.go:189-299 | once a request is answered, let go of or left behind by its generation, it stays so in every continuation |
| `McpOutcomes.OutcomesHaveCauses` | internal/app/tool_mcp.go:421-435 | over every run each outcome a caller was given was decided by a step of its own: the reply in its channel, a cancellation, or the end of the reader with nothing in the channel |
| `McpOutcomes.ReplyIsReturned` | internal/app/tool_mcp.go:423-424 | over every run a waiting caller whose channel holds a reply can take it and is then told exactly that reply |
| `McpOutcomes.TakenRepliesAreReported` | internal/app/tool_mcp.go:421-435 | over every run a reply taken out of the channel of a call is what its caller is told |
| `McpOutcomes.OneReportPerRequest` | internal/app/tool_mcp.go:334-359 | each request is reported at most once |
| `McpOutcomes.GreetingIsUsed` | internal/app/tool_mcp.go:301-332 | the handshake goes on, with that reply, exactly if the reply to initialize is a line |
| `McpOutcomes.CancelIsTold` | internal/app/tool_mcp.go:425-426 | a waiting caller can be cancelled at any time and is told so |
| `McpOutcomes.CallGetsItsReply` | internal/app/tool_mcp.go:334-359 | on a transport that is up, a call that nothing disturbs writes its line, is told the line that answers it, and leaves the transport free |
| `McpOutcomes.CallStartsTransport` | internal/app/tool_mcp.go:137-186 | on a transport that is down it first starts one: initialize, the notification and its own line, in that order |
| `McpOutcomes.DownMeansRestart` | internal/app/tool_mcp.go:137-146 | a call tears down and launches anew exactly if nothing is attached or its reader has ended |
| `McpOutcomes.EndOfReaderIsNoticed` | internal/app/tool_mcp.go:245-259 | when a reader ends its transport counts as down and every registered caller, and no other, has something to take |
| `McpOutcomes.FailedWriteTearsDown` | internal/app/tool_mcp.go:398-419 | a write that fails or is cancelled takes the transport down and joins its reader before the caller is let go |
| `McpOutcomes.OperationIsBounded` | internal/app/tool_mcp.go:128-435 | over every run a call, start or stop takes at most 21 steps of its goroutine after the first |
| `McpOutcomes.OperationNeverStuck` | internal/app/tool_mcp.go:128-435 | and until it is over it has a next step, except while another goroutine tears down or the reader to join has not ended |
| `McpServer.MCPServer.Attach` | internal/app/tool_mcp.go:189-203 | a new generation with an empty pending map, ids restarted |
| `McpServer.MCPServer.Detach` | internal/app/tool_mcp.go:273-299 | hands over the generation to join and clears the fields |
| `McpServer.MCPServer.Register` | internal/app/tool_mcp.go:362-372 | registers the next id, or refuses when nothing runs |
| `McpServer.MCPServer.Deregister` | internal/app/tool_mcp.go:261-265 | removes the entry of an id, whoever it belongs to |
| `McpServer.MCPServer.Route` | internal/app/tool_mcp.go:231-243 | takes the entry out and keeps channel and line for the send |
| `McpServer.MCPServer.FinishReader` | internal/app/tool_mcp.go:245-259 | marks the transport dead only if it is still this reader's, and tries every pending channel once |
| `SessionLock.OneHolderPerKey` | internal/agent/lock_metrics.go:78-165 | over every run with timeouts and cancellations, clients of one key share one lock object and at most one of them is inside |
| `SessionLock.EntryExactlyWhileUsed` | internal/agent/lock_metrics.go:101-109 | the map has an entry for a key exactly as long as some client refers to a lock of that key |
| `SessionLock.UnlockNeverBlocks` | internal/agent/lock_metrics.go:155-165 | tokens in the channel plus clients inside is always one, so Unlock's send is always possible |
| `SessionLock.InvKeeps` | internal/agent/lock_metrics.go:78-165 | every step keeps reference counts equal to the number of clients, table and lock objects in agreement, and exclusion |
| `SessionLock.LockTable.AcquireLock` | internal/agent/lock_metrics.go:78-98 | gives the key's lock object, made with its token on first use, with one more reference |
| `SessionLock.LockTable.Release` | internal/agent/lock_metrics.go:101-109 | one reference less; the entry goes with the last |
| `SessionLock.LockTable.AwaitLock` | internal/agent/lock_metrics.go:112-152 | the select: takes the token, gives up once the context or timer fired even if the token is there, or waits |
| `SessionLock.SelectIsAStep` | internal/agent/lock_metrics.go:122-151 | each outcome of the select is an enabled step of the protocol with the same effect, both steps are possible outcomes, and it waits exactly if there is no token and nothing has fired |
| `SessionLock.ClientsLeave` | internal/agent/lock_metrics.go:101-165 | over every run a client that has acquired a lock object always has a step, and each brings it closer to leaving |
| `SessionLock.UncontendedTurn` | internal/agent/lock_metrics.go:78-165 | a client alone on its key gets in and leaves the table as it found it |
| `SessionLock.LockTable.Unlock` | internal/agent/lock_metrics.go:155-165 | puts the token back |
| `CheckpointStore.NewestIsNewest` | internal/context/manager.go:240-257 | LoadLatest's query finds the row that is newer than every other row of the thread, and none exactly if there is none |
| `CheckpointStore.PruneKeepsNewest` | internal/context/manager.go:184-202 | pruning changes no thread's newest row and touches no other thread |
| `CheckpointStore.PruneBounds` | internal/context/manager.go:189-202 | after a prune exactly ten rows of the thread remain, or all if there were fewer |
| `CheckpointStore.SaveThenLoad` | internal/context/manager.go:145-287 | a save is what the next load returns exactly if no higher iteration is stored; ids stay unique, other threads are unaffected, at most ten rows remain |
| `CheckpointStore.CompletedThreadLosesTurnExactly` | internal/agent/session_history.go:16-37 | the first turn after CompleteThread is what the next load returns exactly if the thread had not got past iteration 1 |
| `CheckpointStore.CompletedTurnIsLost` | internal/agent/session_history.go:16-37 | two turns, completion and a third turn after which the second is loaded |
| `CheckpointStore.CheckpointManager.CreateThread` | internal/context/manager.go:122-140 | replaces the thread row by a fresh active one |
| `CheckpointStore.CheckpointManager.SaveSnapshot` | internal/context/manager.go:145-215 | insert and prune commit together or not at all, and which row the next load then finds |
| `CheckpointStore.CheckpointManager.UpdateSessionTokens` | internal/context/manager.go:309-325 | writes estimate and stamp of an existing thread row, nothing otherwise |
| `SessionHistory.LatestIsTheRegister` | internal/agent/session_history.go:357-483 | over every interleaving of turns, failures and background compactions LoadLatest returns the last committed snapshot, its iteration is the number of committed turns, and every commit was made on the then current history |
| `SessionHistory.CompactionKeepsTheNewest` | internal/agent/session_history.go:428-455 | every committed compaction replaced a history over the budget and longer than N by one summary and the newest N messages unchanged, N being summaryTurns or 20, losing no turn from the count |
| `SessionHistory.StampOnlyAfterCommit` | internal/agent/session_history.go:458-483 | a new last_compacted_at is written only when the compacted snapshot is the session's latest, with the estimate of that snapshot |
| `SessionHistory.TokensFollowTheTurn` | internal/agent/session_history.go:266-291 | after an acknowledged turn the token estimate becomes that of the session's latest history and the compaction stamp stays |
| `SessionHistory.OneWorkerPerSession` | internal/agent/agent.go:244-258 | two clients are never in the middle of the same session |
| `SessionHistory.InvKeeps` | internal/agent/session_history.go:16-483 | every step keeps the refinement between stores and register log, and that every session with a checkpoint has its thread row |
| `SessionManager.RunTurn` | internal/agent/session_history.go:16-311 | what a turn does to the store for every combination of failures, completed threads included: load, next iteration, prune and token update on success, no new row otherwise |
| `SessionManager.TurnIsARun` | internal/agent/session_history.go:66-106 | whatever fails, the store after a turn is the store after a run of the protocol's steps, so the register theorems are about it |
| `SessionManager.CompactSessionLocked` | internal/agent/session_history.go:375-483 | exactly when a compaction is published, what it publishes, and that the stamp follows the snapshot |
| `SessionManager.CompactIsARun` | internal/agent/session_history.go:428-483 | and so is the store after a compaction |
| `Compaction.ApplyKeepLastAssistants` | internal/agent/compaction.go:70-87 | marks exactly the last n model turns and the user turn right before each |
| `Compaction.RecentAreTheLast` | internal/agent/compaction.go:70-87 | the protected assistants are the last n model turns of the history, or all if there are fewer |
| `Compaction.NetIsTheLastTurns` | internal/agent/compaction.go:79-82 | the safety net is those turns and, where one is directly preceded by a user turn, that turn |
| `Compaction.BuildToolCallMap` | internal/agent/compaction.go:100-113 | maps exactly the called ids, each to the last message that calls it |
| `Compaction.CompleteChainsBackward` | internal/agent/compaction.go:115-129 | adds exactly the last callers of marked answers |
| `Compaction.CompleteChainsForward` | internal/agent/compaction.go:131-158 | adds exactly the answers to calls of marked turns |
| `Compaction.ApplyToolChainConsistency` | internal/agent/compaction.go:89-98 | the marks end up closed |
| `Compaction.TwoPassesClose` | internal/agent/compaction.go:89-158 | one backward and one forward pass reach a set in which answers of kept calls are kept and a kept answer has a kept call if it has any |
| `Compaction.TwoPassesAreLeast` | internal/agent/compaction.go:89-158 | with unique call ids that set is the least closed superset of the first marks |
| `Compaction.CompletedIsChained` | internal/agent/compaction.go:89-158 | what is kept, said without passes and for any ids: marked messages, the last callers of marked answers, and answers to calls of either |
| `Compaction.ChainedWhenUnique` | internal/agent/compaction.go:89-158 | with unique ids the last caller is the caller |
| `Compaction.CompactMessages` | internal/agent/compaction.go:18-68 | when it triggers; dropped plus returned is the input's length; the newest keepN messages are marked, or maxN - 1 if keepN is not below maxN, exactly those if nothing else is tied to them; the marks are the completion of these and the safety net |
| `Compaction.OutputIsSubsequence` | internal/agent/compaction.go:56-68 | the output is the input at rising marked positions, all of them except possibly the first, and that only if it is a model turn |
| `Compaction.NewestAndNetAreKept` | internal/agent/compaction.go:33-54 | the newest keepN (clamped) messages and the safety net are among the marks |
| `Compaction.StripKeepsCallers` | internal/agent/compaction.go:160-196 | the strip never takes the last call of an answer that is sent on |
| `Compaction.OutputAnswersHaveCalls` | internal/agent/compaction.go:53-68 | an answer in the output whose call exists in the history has a call in the output |
| `Compaction.OutputCallsHaveAnswers` | internal/agent/compaction.go:53-68 | every answer to a call in the output is in the output |
| `Compaction.ShrinksExactly` | internal/agent/compaction.go:33-68 | a message is dropped exactly if some message is not tied to a protected one or the history opens with a model turn nobody answers |
| `Compaction.NothingToDrop` | internal/agent/compaction.go:33-39 | a paired history over the limit of which nothing is dropped |
| `PairedCompaction.CompactionPairedExactly` | internal/agent/compaction.go:33-68 | for any ids, unnamed and repeated ones included: a history in which each turn's calls are answered right behind it stays one exactly if every turn is sent on with all of its answers or none |
| `PairedCompaction.NamedPairedExactly` | internal/agent/compaction.go:33-68 | if every call has an id, exactly if no answer is kept without its own turn |
| `PairedCompaction.KeptTurnsAreLast` | internal/agent/compaction.go:41-98 | the kept model turns are always the last ones of the history |
| `PairedCompaction.StripSends` | internal/agent/compaction.go:160-196 | the strip takes away exactly a leading model turn that made no named call |
| `PairedCompaction.CompactionKeepsPairing` | internal/agent/compaction.go:53-68 | with unique non-empty call ids, a history in which each turn's calls are answered right behind it stays one under compaction and strip |
| `PairedCompaction.TurnAfterCompaction` | internal/agent/session_history.go:66-83 | a successful turn run on a compacted history leaves a paired history behind whenever the compaction did |
| `PairedCompaction.UnnamedCallsAreSplit` | internal/agent/compaction.go:104-109 | a history with an unnamed call of which only the answer is kept |
| `PairedCompaction.RepeatedIdsAreSplit` | internal/agent/compaction.go:104-109 | a history with a repeated id of which an answer is kept without its own call |
| `PairedCompaction.BudgetCompactionPairedExactly` | internal/agent/session_history.go:441-454 | what a budget compaction publishes is paired exactly if the oldest kept message is not a tool answer |
| `PairedCompaction.SummaryPairedExactly` | internal/agent/session_history.go:156-171 | the same of a threshold summarisation with any number of kept messages |
| `PairedCompaction.BudgetCutSplits` | internal/agent/session_history.go:441-454 | a history over the budget whose cut falls on a tool answer |
| `PairedCompaction.SuffixPairedExactly` | internal/agent/session_history.go:441-442 | the end of a paired history is paired exactly if it does not begin with an answer |
| `Approval.InvKeeps` | internal/agent/hitl.go:88-304 | every step of waiters and callbacks keeps: one registered channel per waiter, every answer has a source, no decision is lost |
| `Approval.NoLostDecision` | internal/agent/hitl.go:210-235 | a waiter in the blocking wait with a recorded decision has mail, or a callback in flight is going to fill that very channel |
| `Approval.AnswerComesFromACallback` | internal/agent/hitl.go:238-262 | over every run a request is answered yes or no only if a callback for its id said so before |
| `Approval.AnswersHaveCauses` | internal/agent/hitl.go:109-141 | over every run each answer has its cause: a decision on record or in the channel at that moment, or a failed read, a failed send or an expiry |
| `Approval.MailIsTheAnswer` | internal/agent/hitl.go:212-231 | a receive from a channel that holds a decision ends the request with that decision |
| `Approval.MailDecides` | internal/agent/hitl.go:210-235 | over every run a waiter whose channel holds a decision ends with that decision unless it expires |
| `Approval.FailureIsReported` | internal/agent/hitl.go:217-233 | an expiry, a failed read and a failed send end the request with a failure |
| `Approval.AskedAndAnswered` | internal/agent/hitl.go:88-141 | a request that nothing disturbs is asked, recorded, and answered as the callback said |
| `Approval.PendingIsNotAskedAgain` | internal/agent/hitl.go:113-118 | a request already delivered is waited for without asking again |
| `Approval.EveryStepIsProgress` | internal/agent/hitl.go:88-304 | every step of a request or a callback after its first brings it closer to its end |
| `Approval.RequestNeverStuck` | internal/agent/hitl.go:88-235 | until it has ended a request always has a next step |
| `Approval.OneWaiterPerRequest` | internal/agent/hitl.go:172-189 | at most one waiter per request id at a time |
| `Approval.DecisionStays` | internal/context/manager.go:383-391 | a stored decision stays a decision in every continuation and is changed only by another callback for the same request |
| `Approval.DecidedIsNotAskedAgain` | internal/agent/hitl.go:102-141 | once a decision is recorded, no identical request that is not asking yet ever sends the buttons, in any continuation |
| `Approval.DecidedIsReused` | internal/agent/hitl.go:109-118 | and it is answered with the recorded decision, unless a callback for the same request changed it |
| `Approval.HITLManager.RegisterWaiter` | internal/agent/hitl.go:172-181 | a new channel for the id, or refusal if one is pending |
| `Approval.HITLManager.ReleaseWaiter` | internal/agent/hitl.go:183-189 | removes the entry only if it is still the caller's channel |
| `Approval.HITLManager.SaveHITLApproval` | internal/context/manager.go:372-396 | the guarded upsert: decisions are never replaced by "sending" or "pending" |
| `Approval.HITLManager.FindWaiter` | internal/agent/hitl.go:264-280 | the channel registered for the id, or none |
| `Approval.HITLManager.NotifyWaiter` | internal/agent/hitl.go:299-304 | the channel found holds a decision afterwards, the first one if it was full |
| `TelegramPolling.InvKeeps` | internal/app/telegram.go:109-204 | every step of subscribers, Stop and workers keeps the generation and offset invariants |
| `TelegramPolling.OneOpenGeneration` | internal/app/telegram.go:129-151 | at most one generation is not closed, it is the newest, and only its worker runs |
| `TelegramPolling.SubscriberIsAnswered` | internal/app/telegram.go:129-151 | over every run a subscriber waits exactly for a cancelled open generation, is refused exactly for a start with the breaker open, and otherwise joins the one open generation, made if there is none and started if asked for |
| `TelegramPolling.ChannelsCloseOnce` | internal/app/telegram.go:171-188 | the start and output channels are closed at most once and nothing is handled after the outputs are closed |
| `TelegramPolling.UpdatesHandledOnce` | internal/app/telegram.go:190-204 | handled update ids strictly rise over all generations |
| `TelegramPolling.CancelledWorkerAdvances` | internal/app/telegram.go:171-204 | a cancelled worker stays cancelled and begins no fetch; every step of its own brings it closer to closing up, except for the batch a fetch under way may still bring |
| `TelegramPolling.CancelledWorkerNeverStuck` | internal/app/telegram.go:171-204 | until it has ended it always has a step of its own |
| `TelegramPolling.CancelledWorkerIsBounded` | internal/app/telegram.go:190-204 | over every run after a cancellation the worker gets at most one more batch, only from a fetch already under way, and takes at most as many steps as its distance from the end plus that batch's size |
| `TelegramPolling.FetchOutlastsStop` | internal/app/telegram.go:191-202 | a run in which a worker cancelled inside its fetch handles what the fetch brings |
| `TelegramPolling.BatchSteps` | internal/app/telegram.go:196-202 | the protocol's steps through a batch handle exactly the unseen updates and move the offset past them |
| `TelegramPolling.RoundOfPolling` | internal/app/telegram.go:190-204 | a round of polling that nothing disturbs handles exactly the unseen updates and polls on |
| `TelegramPolling.SubscribedPolls` | internal/app/telegram.go:171-188 | with nothing open, a subscription that starts leads to a polling worker |
| `TelegramPolling.UnseenRises` | internal/app/telegram.go:196-202 | the handled part of any batch rises from the offset, the new offset is above the whole batch |
| `TelegramPolling.TgAPI.AcquireGeneration` | internal/app/telegram.go:129-151 | wait, refuse, join or make a generation, starting it at most once |
| `TelegramPolling.TgAPI.HandleBatch` | internal/app/telegram.go:196-202 | handles exactly the unseen updates and moves the offset past them |
| `CronSchedule.Scheduler.IdentifyDueJobs` | internal/cron/scheduler.go:335-366 | marks every job by its own rule, lists exactly the due ones, and reports "unchanged" only if nothing changed |
| `CronSchedule.Scheduler.Reschedule` | internal/cron/scheduler.go:204-211 | without a dispatcher each due job gets its next time and nothing else changes |
| `CronSchedule.Scheduler.Book` | internal/cron/scheduler.go:220-228 | books the results in arrival order |
| `CronSchedule.Scheduler.Poll` | internal/cron/scheduler.go:183-233 | one poll does to every job what the per-job rule says, whatever the arrival order, and a successful write keeps disk and memory equal |
| `CronSchedule.DueInExact` | internal/cron/scheduler.go:335-366 | the due list names each due job once, in order, with that job's own fields |
| `CronSchedule.FanOutFinishes` | internal/cron/scheduler.go:368-387 | the channel contents the concurrent dispatches can leave are exactly the lists with one result per due job |
| `CronSchedule.BookedPointwise` | internal/cron/scheduler.go:220-228 | each result changes its own job and no other |
| `CronSchedule.FinishOrderIrrelevant` | internal/cron/scheduler.go:220-228 | the list after a poll does not depend on the order in which dispatches finish |
| `CronSchedule.StartsExactly` | internal/cron/scheduler.go:339-364 | a job starts at a poll exactly if it is enabled and its stored next time is positive and not after the poll |
| `CronSchedule.DisabledJobRests` | internal/cron/scheduler.go:340-342 | a disabled job is left as it is by every run, whatever its kind and stored next time |
| `CronSchedule.EveryStartsExactly` | internal/cron/scheduler.go:140-145 | an "every" job starts next at exactly the first poll that comes the interval after the end of its last run |
| `CronSchedule.EveryFirstStartExactly` | internal/cron/scheduler.go:140-145 | and first at exactly the first poll that comes the interval after the first poll |
| `CronSchedule.CronStartsExactly` | internal/cron/scheduler.go:147-165 | a cron job starts next at exactly the first poll at or after the time its expression gives for the end of its last run |
| `CronSchedule.UnusableNeverStarts` | internal/cron/scheduler.go:121-165 | a job without a usable schedule never starts once it is unscheduled |
| `CronSchedule.StartsApart` | internal/cron/scheduler.go:213-230 | over every run with a nondecreasing clock no job starts again before its last dispatch finished, and starts of an "every" job are at least the interval apart, counted from that end |
| `CronSchedule.EveryNextIsLaterExactly` | internal/cron/scheduler.go:140-145 | after a run the next time of an "every" job is later than completion exactly if the sum fits 64 bits |
| `CronSchedule.OverflowStopsForever` | internal/cron/scheduler.go:140-145 | if it does not fit the job never starts again |
| `CronSchedule.OverflowWitness` | internal/cron/scheduler.go:140-145 | a job whose next time wraps below zero |
| `CronSchedule.AtJobStartsExactly` | internal/cron/scheduler.go:133-138 | an unscheduled "at" job starts at exactly the first poll at or after its instant, and only if an earlier poll came before that instant |
| `CronSchedule.LateAtJobNeverStarts` | internal/cron/scheduler.go:133-138 | an "at" job whose instant has passed at the first poll never starts in any run |
| `CronSchedule.LateAtJob` | internal/cron/scheduler.go:133-138 | such a job |
| `CronSchedule.AtJobStartsOnce` | internal/cron/scheduler.go:133-138 | hence at most once and never before its instant |
| `CronSchedule.RestartRepeatsExactly` | internal/cron/scheduler.go:212-230 | after a start and a restart, before the next regular time, any job starts once more exactly if the write after the dispatch was lost |
| `CronSchedule.AtStartsAcrossRestarts` | internal/cron/scheduler.go:183-233 | over every run with restarts an "at" job starts at most once, and once more per restart that brought back an older state |
| `CronSchedule.Scheduler.Restart` | internal/cron/scheduler.go:80-90 | a new process begins with what is on disk |
| `CronSchedule.StartsAreBooked` | internal/cron/scheduler.go:217-230 | over every run RunCount grows by the number of starts, and with a dispatcher each start is booked as the failure or success its dispatch was |
| `CronSchedule.LastRunIsLatestStart` | internal/cron/scheduler.go:351-354 | LastRunAtMS is the time of the latest start |
| `CronSchedule.BalanceKeptExactly` | internal/cron/scheduler.go:204-230 | a balanced account stays balanced exactly if there is a dispatcher or nothing was started |
| `CronSchedule.UndispatchedIsUnbooked` | internal/cron/scheduler.go:204-211 | a balanced job that is due once without a dispatcher |
| `CronSchedule.JobsRunAlone` | internal/cron/scheduler.go:183-233 | in a run of the whole list every job makes its own run |
| `CronSchedule.AccountsBalance` | internal/cron/scheduler.go:183-233 | RunCount equals SuccessCount plus FailureCount for every job after any run with a dispatcher, if it did before |
| `CronReconcile.UpdateStored` | internal/cron/cron.go:152-164 | the first stored job with the id takes the new definition in place and keeps its run state; found exactly if there is one |
| `CronReconcile.Append` | internal/cron/cron.go:166-168 | adds a job in the spare room of the slice or in a new array, leaving what was there |
| `CronReconcile.MergeModularJobs` | internal/cron/cron.go:144-170 | the loops compute the merge in place on the slice they are given, and mark the snapshot jobs in place |
| `CronReconcile.ReconcileModularJobs` | internal/cron/cron.go:173-187 | the merge works on a slice made here: it computes the reconciliation, and the stored list keeps every element |
| `CronReconcile.MergePlaces` | internal/cron/cron.go:153-164 | a stored place keeps id and run state; the first place with an id takes the definition of the last snapshot entry for it, all others stay |
| `CronReconcile.ReconciledIds` | internal/cron/cron.go:173-187 | the ids afterwards are the snapshot's and those of stored jobs the files do not own, or of all stored jobs for an incomplete snapshot |
| `CronReconcile.ReconciledUnique` | internal/cron/cron.go:144-187 | unique stored ids stay unique even if the snapshot repeats an id |
| `CronReconcile.SurvivorsKeepState` | internal/cron/cron.go:144-187 | a surviving job keeps its run state and changes its definition only to what the last file for its id says |
| `CronReconcile.AddedAsDefined` | internal/cron/cron.go:166-187 | an added job's id was not stored before; it has the run state of its first file and the definition of its last |
| `CronReconcile.ReconcileIdempotent` | internal/cron/cron.go:144-187 | reconciling twice equals reconciling once |
| `CronReconcile.SettledExactly` | internal/cron/cron.go:144-187 | which lists a complete snapshot leaves alone |
| `CronReconcile.AbsorbedStays` | internal/cron/scheduler.go:294-297 | a list that a complete snapshot leaves alone is still left alone after polls changed its run states |
| `CronReconcile.StaysSettledExactly` | internal/cron/cron.go:144-187 | after reconciling a snapshot a list settled with some files is still settled with them exactly if the snapshot says of every job what those files say, and lacks none if complete |
| `CronReconcile.ChangesNothingExactly` | internal/cron/cron.go:144-187 | and reconciling it changes nothing under the same condition |
| `CronReconcile.AbsorbedKeptExactly` | internal/cron/scheduler.go:183-319 | a reload, reconciliation, failed snapshot or poll keeps the list in agreement with the recorded snapshot exactly if what it reconciles without recording repeats that snapshot |
| `CronReconcile.ShortcutRefines` | internal/cron/scheduler.go:281-298 | over every run of such steps skipping a snapshot by fingerprint gives what reconciling it would exactly if the snapshot repeats the recorded one |
| `CronReconcile.ShortcutRefinesExactly` | internal/cron/scheduler.go:281-319 | and after the first step that is not of that kind it does not, even for the recorded snapshot |
| `CronReconcile.ShortcutCanBeStale` | internal/cron/scheduler.go:281-319 | a job file that comes with an incomplete snapshot and goes again leaves its job listed |
| `CronReconcile.UnwrittenIsDirty` | internal/cron/scheduler.go:235-319 | over every run a list whose definitions are not on disk is marked dirty, and while it is the file is not read back over it |
| `CronReconcile.DirtyUntilWritten` | internal/cron/scheduler.go:281-319 | a dirty list stays dirty until it is written, and the first event that writes puts all of it on disk |
| `CronReconcile.ModularStore.ReconcileSnapshot` | internal/cron/scheduler.go:300-319 | the dirty test compares the unchanged old list with the new one; the fingerprint is recorded only for complete snapshots that reached the disk |
| `CronReconcile.ModularStore.ReloadModularJobs` | internal/cron/scheduler.go:281-298 | skips exactly on an unchanged committed fingerprint |
| `ToolLoop.RunToolWithHooks` | internal/app/runner_tools.go:97-125 | an invocation ends the run exactly on a failing pre-tool hook, a cancelled, timed-out or denied tool, or any failure in a cron session; otherwise its text is the override, the tool's answer or the failure report |
| `ToolLoop.ProcessToolCalls` | internal/app/runner_tools.go:30-61 | the answers of a turn in order, or none from the first invocation that ends the run, and the invocations made |
| `ToolLoop.HandleTerminalResponse` | internal/app/runner_reflection.go:28-85 | a reply without calls ends the run unless the critic is heard within its rounds and asks for a correction |
| `ToolLoop.Run` | internal/app/runner.go:133-191 | the loop computes the reference run |
| `ToolLoop.RunTraces` | internal/app/runner.go:152-190 | every run, however it ends, goes through turns asked with the whole history so far, whose tool messages say what the invocation of that very call gave or which carry the critic's correction, and ends for exactly the reason its result names |
| `ToolLoop.AbortedExactly` | internal/app/runner_tools.go:97-118 | a run is aborted exactly if an invocation it made had a failing pre-tool hook, a cancelled, timed-out or denied tool, or any failed tool in a cron session |
| `ToolLoop.RunExtends` | internal/app/runner.go:152-183 | a successful run returns its input extended by complete turns and one last reply without calls, within MaxToolIterations chat turns and MaxReflectionRounds corrections |
| `ToolLoop.RunKeepsPairing` | internal/app/runner.go:133-191 | over a paired history it returns a paired history that ends in a model turn without calls |
| `Messages.PairedCallsAnswered` | internal/app/runner_tools.go:30-61 | in a paired history the k-th call of a turn is answered, with its id, k places behind it |
| `Messages.PairedAnswersCalled` | internal/app/runner_tools.go:30-61 | and every tool message is such an answer |
| `ToolLoop.InvocationsNumbered` | internal/app/runner_tools.go:42-50 | over every run, however it ends, invocations are numbered one by one; only the last can have ended the run, and it has exactly if the result is a tool abort |
| `ToolLoop.RunSucceeds` | internal/app/runner.go:152-190 | if nothing fails and the provider stops calling tools early enough to leave room for the corrections, the run succeeds |
| `Idempotency.IdempotencyStore.Check` | internal/context/idempotency.go:70-118 | found, not found with deletion of an expired row, mismatch, or error |
| `Idempotency.IdempotencyStore.Store` | internal/context/idempotency.go:123-132 | inserts unless the key exists |
| `Idempotency.ExecuteToolCall` | internal/app/runner_tools.go:200-230 | only side-effecting tools with a store are guarded; unhashable parameters are refused there |
| `Idempotency.RunsExactly` | internal/app/runner_tools.go:200-230 | the tool runs exactly if the table can be read and has no row for the key or an expired one with the same parameters; whenever it answers, the caller gets that answer, stored or not |
| `Idempotency.LaterCallsGetTheFirstResult` | internal/app/runner_tools.go:213-221 | over every sequential run, after a recorded execution and within the TTL of its second the same call gets the first result and other parameters get an error, both without running the tool |
| `Idempotency.RunsAgainOnlyAfterTTL` | internal/context/idempotency.go:106-111 | a tool runs again for a recorded key only after the TTL of the recorded second |
| `Idempotency.RunsAgainExactly` | internal/context/idempotency.go:88-117 | after a recorded execution, exactly when the next call for that key runs its tool again, whatever calls lie between |
| `Idempotency.TTLIsShortExactly` | internal/context/idempotency.go:106-132 | after a recorded execution some continuation of the run executes the tool again within the (non-negative) TTL of the real time of storing exactly if that time was not a whole second |
| `Idempotency.TTLCanBeShort` | internal/context/idempotency.go:106-132 | two recorded executions of one key less than the TTL apart |
| `Idempotency.StuckRowDisarms` | internal/context/idempotency.go:107-111 | an expired row that could not be deleted keeps new results from being stored, so the tool runs again; with the deletion it does not |
| `Idempotency.KeyInjective` | internal/app/runner_tools.go:178-178 | for one session the key string determines run, turn and number of the call, and with hashes of one length all its parts |
| `Idempotency.KeysOfDifferentRunsDiffer` | internal/app/runner_tools.go:178-178 | keys of runs with different invocation ids differ, whatever the session |
| `Idempotency.InvocationsHaveDistinctKeys` | internal/app/runner_tools.go:30-61 | in every run of the tool loop two different invocations have different keys |
| `Idempotency.OnlyOwnRowsAreFound` | internal/app/runner_tools.go:175-230 | over any number of runs with distinct invocation ids a cached answer was given by a replay of the same invocation, and no call is refused for different parameters |

## Left out

- HTTP providers, Google, Gmail and Telegram client calls, browser tools, tracing, commands, reports and the dashboard: plumbing over libraries.
- The circuit breaker: it lives in a library; here "open" is a parameter of acquiring a generation.
- Cron expressions: their library is a function that answers "never" or a later time.
- Lock metrics, log lines and latency counters: they affect no decision.
- JSON, SHA-256, checksums and the floating-point token estimate: values, hashes and estimates are abstract; a checksum mismatch is a failed load.
- When threshold summarisation runs, consolidation, journal writes and TTL pruning of messages before a turn: model-dependent or clock-dependent text handling.
- `CompleteThread` inside the register refinement: threads there are never completed; the lemma on completed threads says why.
- `CleanupExpired` of the idempotency table: it compares local times with UTC rows.
- Concurrent calls with one idempotency key: runs of the table are sequential; within one run of the tool loop keys are distinct anyway.
- Unparsable `created_at` values: rows written by the store always parse.
- Go's 64-bit counters for runs, iterations, request ids and update ids: unbounded here; only the scheduler's time arithmetic wraps.
- File locks and atomic file writes: a write succeeds or leaves the file as it was.
- Message names, timestamps and result truncation: no decision modelled here reads them.
- Partial pipe writes: a line lands as a whole or not at all.
- Reload of `jobs.json` by size and time: in the reconciliation runs it is an event that brings any list.
- Steps merged into one: the receive after `done` in `await`, a token read with its write-back, and the status row read with its decision.
- `ToolLoop.Run`: the system prompt, the rubric and memory search are left out; whether a rubric exists is part of the `reflects` parameter.
- `PairedCompaction.TurnAfterCompaction`: hooks and pruning, which may come before the compaction, are not part of it; for summarisation see `SummaryPairedExactly`.
- `SessionManager.RunTurn`: the runner's result is a parameter.
