# Verified models of the Gateway coordination layer and three agent loops

Dafny models of the parts of the repository where state, time and interleaving meet, with proofs over whole
runs. `dafny verify dfyconfig.toml` checks everything.

## What is modelled

**Durable events and live delivery** (`EventLog`, `Delivery`, `DeliveryTheorems`, `DeliveryCalls`, `Store`,
`WebSocket`). The event table prunes every workspace to its newest events; a replay reads it from a cursor;
connections hold a bounded queue; an acknowledgement moves a durable cursor. `EventLog` relates the pruned table
to the log that was never pruned. `Delivery` is a state machine of whole calls (trust, revoke, connect, publish,
drain, ack, request, close, restart) with one inductive invariant; `DeliveryTheorems` holds what follows for all
runs, and `DeliveryCalls` says of every call what it changes and what it leaves alone. `Store` and `WebSocket`
are the classes with the source's fields. Connect, publish, drain, receive and close of these classes are each
shown to perform exactly one action of the state machine, the publish loop included, and so is a revocation in
the store; the theorems about runs are theorems about these objects. The model is atomic per call; the source
takes its lock around the append and around the registry lookup separately, and finer interleavings of connect
and publish can skip, repeat or reorder events.

**Mutating requests** (`Requests`, `Router`). `Requests` interleaves any number of dispatches at the grain of
one store transaction, with failing handlers, kills and recoveries. `Router` is the dispatch method run alone
and the proof that it is the uninterrupted run of that protocol.

**Approvals** (`Approvals`, `ApprovalRuns`, `Coordinator`). The compare-and-set on the durable row and the in-memory waiter are
separate steps of separate threads; request, wait, timeout, decide, cancel, confirm and restart interleave.
`ApprovalRuns` follows whole requests through it. `Coordinator` is the class with its registry of waiters.

**Artifacts** (`Artifacts`, `ArtifactTheorems`, `Transfers`). Single-use grants over a directory of files; each
transfer is a thread of transactions and file operations that may fail or crash anywhere. `Transfers` is the
service class, tied to the same steps.

**Access tokens** (`AccessTokens`): one-time use of a jti over a table that is swept daily.

**Frames** (`Framing`): the bounded WebSocket codec of RFC 6455 sections 5.2 and 5.3, on bytes.

**Scheduler** (`TaskQueues`): tasks compare equal when their priorities do, so `list.remove` may take out another
task; the queue still never loses a runnable one.

**Agent loops** (`AgentLoops`, `ClosedLoops`, `Executors`). The multi-turn loop, the observe-act-verify loop and the
plan executor, each a class whose loops compute a run semantics that the safety, budget and termination results
are about. Providers, tools, planners, screens, hooks and policies are arbitrary functions of the iteration.

**Settings** (`SettingsSchema`, `SettingsRoundTrip`, `SettingsChecks`): validation of an arbitrary JSON-like value,
the dictionary that is written back, and what is refused, ignored and filled in.

## How to read it

Ghost fields and the `history`, `delivered`, `drained`, `trace`, `started`, `recorded` components record the past;
no action branches on them. An action that is not enabled leaves a state machine as it is. `None` or `Err`
stands for a raised exception. Identifiers from uuid4 are parameters, taken to be new where the source
relies on it. Clocks are parameters; a result that needs a clock that does not go back says so.

Where the code and its documentation disagree the model follows the code:

- The gap test of a replay works on global sequence numbers, so a reconnect can be refused although nothing of
  its workspace was pruned (`GapRefusalCanBeSpurious`); `GapRefusalIsExactIff` says when it means what it says. A
  cursor of zero is never refused, pruned or not (`ZeroIsNeverRefused`).
- A replay that is cut by `min(replay_limit, max_pending)` is not reported as a gap; the events behind the cut
  are never sent on that connection (`TruncationLosesAnEvent`, `StoredConnectSafeIff`).
- A connect that fails on a bad `max_pending` or replay limit leaves its session row open, because only store
  errors are caught there (`FailedConnectStaysOpenIff`).
- A download grant for fewer bytes than the artifact has is spent without a download (`DownloadIff`).
- A tool call that is reached with the cancel flag set is meant to get a cancelled result. The result message has
  both a result and an error, which its type refuses (`providers/contracts.py`, line 124), so the run raises and the
  batch stays unanswered (`CancelledCallRaises`, `BatchAnsweredIff`).
- The message callback of the agent loop never gets the tool results (`CallbackSeesAllButResults`); its zero-progress
  test cannot fire, because calls are recorded without a summary (`ZeroProgressNeverFires`); the second check of
  `turn_count` in a turn can never hold (`SecondTurnCheckIsDead`), and the method leaves it out.
- The executor's loop allows three attempts of a step, but the third is never reached (`AttemptsBounds`).
- The closed loop records only successful executes, so within a run its repeat bound holds for all executes
  (`RunsAreSafe`) but over several runs it does not (`RepeatsAcrossCallsIff`); the dangerous-action check is made for
  write actions only (`DangerNeedsHookIff`); a safety policy that raises does not deny (`PolicyStopsIff`). Its
  documentation speaks of `close_window`, the table of dangerous kinds has `window_close` (`CloseWindow`).
- The settings round trip loses the voice fields: `to_dict` writes them and `validate_settings` never reads them
  (`RoundTripIff`).

## Model

| member | source | states |
|---|---|---|
| EventLog.AppendedSelects | gateway/store.py:235-255 | one append leaves the written workspace its newest `event_retention` events and every other workspace what it had |
| EventLog.AppendRefines | gateway/store.py:235-255 | append keeps the table a pruning of the unbounded log: every workspace holds exactly its newest min(retention, n) events, sequence numbers strictly increase and are never reused |
| EventLog.NewestIsTrue | gateway/store.py:263-269 | the newest retained sequence of a workspace is the newest it ever had |
| EventLog.ReplayIsFullHistory | gateway/store.py:257-279 | for a positive cursor a replay is the first `limit` events of the full history above it, or is refused; a cursor below a pruned event is always refused |
| EventLog.ReplayOutcome | gateway/store.py:257-279 | every replay, for any cursor and any limit: which of the three errors is raised and when; otherwise the rows are the first `limit` retained ones of the workspace above the cursor, in order |
| EventLog.ReplayCompleteIff | gateway/store.py:257-279 | a replay holds everything above its cursor iff the limit did not cut it and, for a cursor of zero, nothing was pruned |
| EventLog.GapRefusalIff | gateway/store.py:263-274 | exactly which cursors within the history are refused; none of them as ahead of history |
| EventLog.GapRefusalCanBeSpurious | gateway/store.py:270-274 | a refusal although nothing was pruned above the cursor: sequence numbers are global, the gap test is per workspace |
| EventLog.GapRefusalIsExactIff | gateway/store.py:263-274 | over all positive cursors within the history, a refusal means something above the cursor was pruned, and conversely, iff the workspace has no rows or its oldest retained number directly follows the last pruned one (is at most 2 while nothing was pruned) |
| EventLog.ZeroIsNeverRefused | gateway/store.py:257-279 | a cursor that is not positive is accepted for every usable limit, pruned or not |
| Delivery.StepKeeps | gateway/websocket.py:50-123 | every call keeps: retained log, sessions of active devices only, queues within `max_pending`, each queue and what was drained from it an exact window of the history, cursors within the history |
| Delivery.RunKeeps | gateway/websocket.py:142-209 | the same over any sequence of trust, revoke, connect, publish, drain, ack, request, close and restart |
| Delivery.HighestWithinNewest | gateway/websocket.py:58-84 | the highest sequence a connection can acknowledge is within the history of its workspace |
| DeliveryTheorems.ReachableOk | gateway/websocket.py:126-209 | every state reachable from an empty store satisfies the invariant |
| DeliveryTheorems.OpenConnectionSeesHistoryIff | gateway/websocket.py:142-209 | while a connection is open, drained followed by pending is the whole workspace history above its start cursor, in order, without gap or repeat, iff its replay was untruncated; its queue never exceeds `max_pending` |
| DeliveryTheorems.FailedConnectStaysOpenIff | gateway/websocket.py:142-174 | for a new id of an active device, a failed connect leaves its session row open iff it failed on the queue bound or the replay limit |
| DeliveryTheorems.CursorNeverDecreases | gateway/store.py:281-301 | a stored cursor never moves back over any run |
| DeliveryTheorems.StoredCursorIsNeverAhead | gateway/store.py:257-301 | reconnecting from the stored cursor is never refused as ahead of history, and the exact condition under which it is refused at all |
| DeliveryTheorems.RevokedForever | gateway/websocket.py:110-123 | after a revocation, over any run: no drain yields an event, no request passes, no connect succeeds |
| DeliveryTheorems.OpenSessionsAreTrusted | gateway/store.py:201-233 | in every reachable state open sessions belong to active devices, and revoking closes all of the device |
| DeliveryTheorems.AtLeastOnce | gateway/websocket.py:58-84 | over whole runs with any number of reconnects, connections, revocations and restarts: every event at or below the stored cursor has been drained to a device whose successful connects are from its cursor or below with untruncated replays |
| DeliveryTheorems.CoverageIff | gateway/websocket.py:50-84 | from any reachable state: at-least-once holds in all careful futures iff every open connection of the device covers the history |
| DeliveryTheorems.StoredConnectSafeIff | gateway/websocket.py:142-174 | connecting from the stored cursor keeps at-least-once in all careful futures iff whatever this connect does not send was drained to the device before |
| DeliveryTheorems.StoredConnectUntruncatedIff | gateway/websocket.py:142-174 | so with nothing above the cursor drained before, iff the replay was not cut by `min(replay_limit, max_pending)` |
| DeliveryTheorems.TruncatedMisses | gateway/websocket.py:158-170 | a truncated replay misses an event above its cursor |
| DeliveryTheorems.LossIsReachable | gateway/websocket.py:67-84 | any connection that does not cover the history can lead its device to acknowledge past an event it never got |
| DeliveryTheorems.TruncationLosesAnEvent | gateway/websocket.py:158-170 | a concrete run: two events, a queue of one, the second event is skipped for good |
| DeliveryCalls.ConnectOutcome | gateway/websocket.py:142-174 | every connect: who is refused and why, what a failure leaves behind, and what a new connection holds, starting at the cursor the client names or else at the stored one |
| DeliveryCalls.PublishOutcome | gateway/websocket.py:186-209 | every publication: a connection of the workspace gets the event if its queue has room and is closed with its session iff it has none; nothing else changes |
| DeliveryCalls.DrainOutcome | gateway/websocket.py:58-65 | every drain: a connection that passes hands out the front of its queue, min(limit, queue) events, keeps the rest and has exactly those delivered; any other is closed |
| DeliveryCalls.DrainCatchesUp | gateway/websocket.py:58-65 | at any point of any run a passing drain whose limit covers the queue empties it; then all the connection was to send is delivered, and that is the whole history above its start cursor iff its replay was untruncated |
| DeliveryCalls.DeliveredIff | gateway/websocket.py:58-65 | over any run, an event is delivered to a device iff some drain of one of its connections returned it |
| DeliveryCalls.AckOutcome | gateway/websocket.py:67-85 | every acknowledgement: it moves the cursor iff it is neither below the cursor nor above the last event the connection handed out |
| DeliveryCalls.EndOutcome | gateway/websocket.py:87-123 | other requests pass without a change or close their connection; a close takes the connection and its session, a restart all of them, and nothing else |
| DeliveryCalls.RevokeOutcome | gateway/store.py:201-214 | a revocation takes the device and its sessions, and nothing else |
| Store.GatewayStore.constructor | gateway/store.py:20-34 | an empty store with a positive retention satisfies its invariant |
| Store.GatewayStore.TrustDevice | gateway/store.py:176-184 | inserts an active device; a known id and a known key fingerprint are refused |
| Store.GatewayStore.RevokeDevice | gateway/store.py:201-214 | deactivates the device, closes every session of it and deletes every refresh token of it, no other |
| Store.GatewayStore.PutRefreshToken | gateway/store.py:391-399 | stores a token for a known device, over an older one of the same hash |
| Store.GatewayStore.PopRefreshToken | gateway/store.py:401-412 | returns a token once |
| Store.GatewayStore.OpenConnection | gateway/store.py:216-226 | opens a session for an active device only |
| Store.GatewayStore.CloseConnection | gateway/store.py:228-233 | closes one session, leaves the others |
| Store.GatewayStore.AppendEvent | gateway/store.py:235-255 | returns the next sequence; each workspace then retains exactly the newest events of its full history |
| Store.GatewayStore.EventsAfter | gateway/store.py:257-279 | for a positive cursor: refusal, or the first `limit` events of the full history above it |
| Store.GatewayStore.SetCursor | gateway/store.py:281-293 | no cursor ever decreases; a smaller one is refused |
| Store.GatewayStore.PutOperation | gateway/store.py:303-313 | inserts an operation row once |
| Store.GatewayStore.UpdateOperation | gateway/store.py:315-324 | a terminal status is only set on an unfinished operation, so it is set once |
| Store.GatewayStore.RecoverUncertain | gateway/store.py:354-371 | row by row: every unfinished operation, pending request and pending approval becomes interrupted and every session is closed; rows with an outcome are as they were; the count is that of the operations |
| Store.GatewayStore.ConsumeAccessJti | gateway/store.py:414-423 | succeeds iff the jti has no row of the last day; then it is recorded and exactly the older rows are swept, otherwise nothing changes |
| Store.GatewayStore.DecideApproval | gateway/store.py:437-457 | accepted iff the row is pending, of that workspace and, for a person's decision, before its deadline; decided rows never change |
| Store.GatewayStore.ReserveRequest | gateway/store.py:512-520 | inserts a pending row once |
| Store.GatewayStore.CacheResponse | gateway/store.py:522-532 | completes a pending row only |
| Store.GatewayStore.ConsumeArtifactGrant | gateway/store.py:545-551 | succeeds once per grant |
| AccessTokens.SucceedsIff | gateway/store.py:414-423 | with a clock that does not go back, a use of a jti succeeds iff that jti had no success in the preceding 86400 seconds |
| AccessTokens.SuccessesAreADayApart | gateway/store.py:414-423 | two successes of one jti are more than 86400 seconds apart |
| AccessTokens.ClockSetBack | gateway/store.py:414-423 | a run in which a clock that is set back lets a jti succeed twice within a minute |
| WebSocket.GatewayConnection.Shutdown | gateway/websocket.py:87-94 | clears the queue, closes the session row, leaves the registry, once |
| WebSocket.GatewayConnection.Close | gateway/websocket.py:87-94 | is the protocol action of closing a connection |
| WebSocket.GatewayConnection.Enqueue | gateway/websocket.py:50-56 | appends below the bound, disconnects at it, ignores a closed connection |
| WebSocket.GatewayConnection.Preload | gateway/websocket.py:158-170 | enqueueing a replay no longer than `max_pending` item by item never overflows: the queue is the replay, the connection stays open |
| WebSocket.GatewayConnection.AssertActive | gateway/websocket.py:110-123 | passes iff open, device active and authorization valid, and says which of the three failed; a connection that fails is closed |
| WebSocket.GatewayConnection.TakePending | gateway/websocket.py:58-65 | hands out min(limit, queue) events from the front, keeps the rest in order, and raises the highest delivered sequence to their maximum |
| WebSocket.GatewayConnection.Drain | gateway/websocket.py:58-65 | is exactly the drain action of the protocol; what it returns and what it keeps is what was queued, and its length is min(limit, queue) |
| WebSocket.GatewayConnection.Receive | gateway/websocket.py:67-85 | the answer to every envelope; an acknowledgement is exactly the ack action; other requests reach the router iff the connection passes its check |
| WebSocket.GatewayConnection.MoveCursor | gateway/websocket.py:74-84 | acknowledged iff neither above what was delivered nor below the cursor, which then moves; exactly the ack action |
| WebSocket.GatewayWebSocketRuntime.Connect | gateway/websocket.py:142-174 | is exactly the connect action, with its four failures |
| WebSocket.GatewayWebSocketRuntime.Admit | gateway/websocket.py:142-174 | session row, replay, queue and registration of a trusted device, as the connect action does them |
| WebSocket.GatewayWebSocketRuntime.Enroll | gateway/websocket.py:149-174 | a new connection object with the replay in its queue, registered; the store is untouched |
| WebSocket.GatewayWebSocketRuntime.OfferTo | gateway/websocket.py:196-203 | one target of a publication: enqueued, skipped or disconnected |
| WebSocket.GatewayWebSocketRuntime.PublishNow | gateway/websocket.py:189-209 | serving the snapshot of connections one by one is exactly the atomic publish action |
| WebSocket.GatewayWebSocketRuntime.Close | gateway/websocket.py:180-184 | every registered connection is closed and its session with it, no other |
| WebSocket.GatewayWebSocketRuntime.RevokedView | gateway/store.py:201-214 | a revocation in the store is the revoke action for every connection of the runtime |
| Requests.AtMostOnce | gateway/router.py:48-79 | under every interleaving of dispatches, failures, kills and recoveries: a handler starts at most once per (device, workspace, request id), all normal returns carry the same response, `replay_denied` is unreachable |
| Requests.OutcomesAreAbsorbing | gateway/store.py:354-363 | completed and interrupted rows never change, no row disappears |
| Requests.RecoveryIsFinal | gateway/store.py:354-363 | after a recovery, over any run: every row that was pending is interrupted for good, every other row keeps its outcome |
| Requests.AnswerIsReturned | gateway/router.py:68-79 | an answer always goes to its caller, and into its row iff that is still pending |
| Requests.SecondLookup | gateway/router.py:56-67 | a dispatch that missed the row starts the handler iff it still can reserve it; otherwise its second lookup ends it, and it returns iff the faster one has completed |
| Requests.LateDispatch | gateway/router.py:48-67 | a dispatch whose key another one reserved, before its first lookup or between its two, never starts the handler over any run and returns only with the completed response |
| Requests.LateBegin | gateway/router.py:48-55 | a dispatch that begins on a reserved key ends at once, and returns iff the row is completed |
| Requests.FailedIsNeverReplayed | gateway/router.py:68-79 | after a failed or killed handler nobody ever answers for the key or starts it again |
| Requests.DeathIsFinal | gateway/router.py:68-79 | a handler that fails or is killed: its dispatch raises, nothing is stored, and over every later run nobody starts it again or returns for its key |
| Router.GatewayRouter.Register | gateway/router.py:31-36 | a route is accepted once, under an official namespace |
| Router.ValidTypeIff | gateway/contracts.py:38-43 | the valid types are an official namespace, a dot and a name that is not empty, in one way only |
| Router.GatewayRouter.Dispatch | gateway/router.py:38-79 | error cases, read-only routes, mutating routes without a store, and for a mutating request with one the row, the result and whether the handler ran |
| Router.DispatchFollowsProtocol | gateway/router.py:38-79 | the dispatch method is the uninterrupted run of the interleaved protocol |
| Approvals.WaitIsSound | gateway/approvals.py:53-104 | under every interleaving and restart: a wait that returned true has an allow of its approval committed in its workspace before the deadline, no other decision of it ever commits, and no result list has two elements |
| Approvals.ConfirmIsSound | gateway/service.py:208-233 | a granted confirmation comes after the allow and while its operation was running |
| Approvals.GrantsAreTraced | gateway/service.py:208-233 | every granted confirmation is one of those `ConfirmIsSound` speaks about |
| ApprovalRuns.ConfirmedIsGrantedIff | gateway/service.py:207-233 | from any state: after an operation was started, a request decided and waited for, and the operation finished or not, the confirmation grants iff the decision was an allow in time and the request names a running operation of its workspace; the grant is logged iff it does |
| Approvals.ReturnIff | gateway/approvals.py:53-75 | when exactly a wait returns true: the row it read was allowed for the very request and the decider had delivered its answer before |
| ApprovalRuns.UndisturbedIsGrantedIff | gateway/approvals.py:31-94 | from any state, a new request that is decided and then waited for is granted iff the decision was to allow and came before the deadline |
| ApprovalRuns.UnansweredIsExpired | gateway/approvals.py:31-75 | a request that nobody decides: its wait times out as false and leaves the row expired |
| ApprovalRuns.CancelledIsRefused | gateway/approvals.py:53-104 | an approval cancelled while its wait blocks: the wait wakes up refused, the row is cancelled |
| ApprovalRuns.RestartEndsWaits | gateway/approvals.py:26-75 | over every run after a restart: no wait and no confirmation of an approval requested before it is granted, and a new wait for it is refused at once |
| Approvals.RecoveryIsInterruption | gateway/store.py:354-371 | the recovery update is a series of interrupt decisions over any list with every pending row, in any order |
| ApprovalRuns.RecoveryInterruptsPending | gateway/store.py:354-371 | the interrupt steps of the protocol interrupt exactly the pending rows, which is what the one update does |
| Approvals.RunKeeps | gateway/approvals.py:31-115 | the protocol invariant holds in every reachable state |
| Coordinator.DurableApprovalCoordinator.Request | gateway/approvals.py:31-51 | a pending row and a fresh waiter, or nothing; the deadline is the later of the timeout and a hundredth of a second from now |
| Coordinator.DurableApprovalCoordinator.Wait | gateway/approvals.py:53-75 | the verdict from the waiter and the row, the expiry of an unsignalled wait, and that the waiter is gone |
| Coordinator.DurableApprovalCoordinator.DecideOn | gateway/approvals.py:77-94 | only an accepted decision signals, and only the waiter of that approval |
| Coordinator.DurableApprovalCoordinator.CancelOn | gateway/approvals.py:96-104 | the row is cancelled if pending; the waiter is signalled without a result |
| Coordinator.DurableApprovalCoordinator.Close | gateway/approvals.py:106-112 | every approval with a waiter and a row is cancelled if pending and its waiter signalled without a result; no other row or waiter changes |
| Coordinator.GrantedIff | gateway/approvals.py:53-94 | of the row functions behind the calls: one decision on a fresh row and its answer give a granting verdict iff it was an allow before the deadline |
| Framing.EncodeServerFrame | gateway/framing.py:53-66 | growing the frame step by step yields the encoding; which payloads are refused, and how |
| Framing.DecodeAccepts | gateway/framing.py:18-50 | every single masked frame of RFC 6455 section 5.2 within the bounds is accepted, whatever its reserved bits and length form, and yields its payload |
| Framing.DecodeOnlyAccepts | gateway/framing.py:18-50 | every accepted frame has that layout |
| Framing.RoundTrip | gateway/framing.py:18-66 | masking an encoded server frame as in RFC 6455 section 5.3 decodes to its opcode and payload, for every opcode, admissible payload and key |
| Framing.ReencodeIff | gateway/framing.py:18-66 | re-encoding and re-masking an accepted frame gives its bytes back iff its RSV bits are zero and its length form is the shortest |
| Framing.PrefixFree | gateway/framing.py:18-50 | no accepted frame is a proper prefix of another |
| Framing.OversizedIff | gateway/framing.py:18-50 | a frame is refused as oversized iff it is a masked text frame whose long length exceeds the limit |
| Framing.Opcodes | gateway/framing.py:18-50 | the four opcodes, and that a control frame is told by its top bit |
| TaskQueues.AppendAndSort | agent/task_queue.py:95-98 | append and stable sort put a new task in its place by (priority, creation time, submission) and lose nothing |
| TaskQueues.RemoveEqualTakes | agent/task_queue.py:27-38 | what `list.remove` takes out of an ordered queue: the first task of the given priority, which is the given one or due before it; everything else stays, in order |
| TaskQueues.RemoveEqualMayTakeAnother | agent/task_queue.py:27-38 | it can take out another task than the one asked for |
| TaskQueues.TaskQueue.Submit | agent/task_queue.py:77-102 | the queue is the stable sort with the new, runnable task |
| TaskQueues.TaskQueue.Cancel | agent/task_queue.py:104-116 | cancels iff the task is known and not finished; touches no other task |
| TaskQueues.TaskQueue.PendingCount | agent/task_queue.py:142-144 | counting on the queue alone counts all pending tasks |
| TaskQueues.TaskQueue.NextTask | agent/task_queue.py:170-176 | the least runnable task by (priority, creation, submission), or none iff slots are full or nothing is runnable |
| TaskQueues.TaskQueue.Dispatch | agent/task_queue.py:146-160 | starts the due-most runnable task, each task at most once, and although the removal may take another task out no runnable task leaves the queue |
| TaskQueues.TaskQueue.FinishTask | agent/task_queue.py:178-212 | final status and result, and one slot freed |
| AgentLoops.WellFormedConcat | agent/runtime.py:215-224 | well-formed conversations compose |
| AgentLoops.ResultsFollow | agent/runtime.py:304-413 | in a well-formed conversation each tool-call message is followed by one result per call, same ids, same order |
| AgentLoops.LoopDetector.CheckLoop | agent/runtime.py:92-138 | the three window tests for every threshold, index errors included |
| AgentLoops.CheckNeverFailsIff | agent/runtime.py:92-138 | the check raises on no history iff max_consecutive is not negative and is 1 or max_oscillating is at least 3 |
| AgentLoops.DetectsIff | agent/runtime.py:92-138 | every check that does not raise finds a loop iff the newest calls are all alike, two calls took turns three times, or a call with one result summary was recorded often enough |
| AgentLoops.LoopDetector.CheckZeroProgress | agent/runtime.py:122-138 | fires iff some call with the same summary is recorded often enough |
| AgentLoops.DuplicateToolCallIds | agent/runtime.py:577-584 | lists exactly the ids that occur twice, each once |
| AgentLoops.EveryProviderCallIsWellFormed | agent/runtime.py:201-470 | the conversation of every provider call is well formed, whichever mix of success, error and exception the tools showed before; a batch with a cancelled call is followed by no further provider call |
| AgentLoops.BatchAnsweredIff | agent/runtime.py:331-413 | a batch past the loop check gets a result for every call iff no call is reached with the cancel flag set and none aborts; otherwise the run ends with the exception |
| AgentLoops.CancelledCallRaises | agent/runtime.py:331-352 | the flag set while the provider answers with one tool call: the run raises and the call stays unanswered |
| AgentLoops.SecondTurnCheckIsDead | agent/runtime.py:226-264 | past the budget check the second check of the turn count cannot hold |
| AgentLoops.TurnEndsIff | agent/runtime.py:226-470 | every turn: when it goes on, and for each way to halt exactly when it halts that way |
| AgentLoops.TurnSays | agent/runtime.py:226-470 | every turn: what it adds to the conversation, guidance, answer, tool calls and one result per call with what became of it |
| AgentLoops.TurnCounts | agent/runtime.py:226-320 | every turn: what it counts and records; a failed provider call does not count |
| AgentLoops.TurnShows | agent/runtime.py:226-270 | what the provider is shown, memory context first, and when it is asked at all |
| AgentLoops.ConversationGrows | agent/runtime.py:201-470 | no run rewrites the conversation it was given, it only adds to its end |
| AgentLoops.BudgetsHold | agent/runtime.py:226-301 | turn and tool-batch counters never pass their limits, at any point of any run |
| AgentLoops.Terminates | agent/runtime.py:226-284 | the run halts within turns left plus ticks left iterations, if a failed provider call takes time |
| AgentLoops.FrozenClockNeverHalts | agent/runtime.py:270-284 | the hypothesis is needed: calls that fail in no time repeat forever |
| AgentLoops.CallbackSeesAllButResults | agent/runtime.py:219-224 | the message callback gets every added message except the tool results, in order |
| AgentLoops.ZeroProgressNeverFires | agent/runtime.py:304-320 | the loop records calls without summaries, so the zero-progress test never fires in it |
| AgentLoops.AgentLoop.ExecuteTools | agent/runtime.py:331-413 | one result per call in order, with what its tool returned, reported or raised, unless a call ends the run: its tool aborts, or it is reached with the cancel flag set |
| AgentLoops.AgentLoop.ToolBatch | agent/runtime.py:300-470 | a turn with tool calls, from counting the batch to the steering check |
| AgentLoops.AgentLoop.DoTurn | agent/runtime.py:226-470 | one iteration is exactly one step of the turn semantics |
| AgentLoops.AgentLoop.Run | agent/runtime.py:201-470 | the loop halts exactly where the turn semantics halts, with its conversation, and keeps the properties above |
| AgentLoops.TurnMeasure | agent/runtime.py:226-284 | a turn that goes on used up a turn, or gave it back because its provider call failed |
| ClosedLoops.BoundedHistoryAgrees | computer_control/closed_loop.py:125-169 | the bounded history tells the length of the last run as well as the whole one |
| ClosedLoops.DetectorIsExactIff | computer_control/closed_loop.py:142-165 | the detector answers for the whole history, whatever it was, iff its threshold fits its history |
| ClosedLoops.LoopDetector.CheckLoop | computer_control/closed_loop.py:142-165 | finds a loop iff the last max_repeats records are alike; for 1 <= max_repeats <= max_history that is the exact answer for everything recorded |
| ClosedLoops.LoopDetector.Record | computer_control/closed_loop.py:137-140 | the bounded list stays the newest part of everything recorded |
| ClosedLoops.GateOk | computer_control/closed_loop.py:564-616 | a cleared gate has the approval of the hook, no refusal, and no policy denial |
| ClosedLoops.RunsGrow | computer_control/closed_loop.py:622-648 | recording after a negative loop check keeps every run of equal records within the threshold |
| ClosedLoops.RoundIsSound | computer_control/closed_loop.py:525-716 | one iteration: at most one execute, behind its own gate; what is recorded; how the step counter moves |
| ClosedLoops.RoundsAreSound | computer_control/closed_loop.py:510-731 | executes, gates, records and step counter, from any point of a run on |
| ClosedLoops.RunsAreSafe | computer_control/closed_loop.py:510-731 | every run: at most min(max_steps - step, max_retries + 1) executes, no write executes without its own clearance, and for 1 <= max_repeats <= max_history no more than max_repeats executes alike follow one another, failed ones and every outcome included, counted on from what was recorded before |
| ClosedLoops.RoundEndsIff | computer_control/closed_loop.py:525-716 | every iteration: its action is executed iff nothing stands against it, then as its last event; and for each way to end exactly when it ends that way |
| ClosedLoops.RunEnds | computer_control/closed_loop.py:510-731 | every run: how many iterations are tried again, what each costs, and exactly why the run ends where it does |
| ClosedLoops.RoundsRepeat | computer_control/closed_loop.py:622-716 | the bound on executes alike from any point of a run on |
| ClosedLoops.RepeatsAcrossCallsIff | computer_control/closed_loop.py:510-731 | over every series of runs the bound on executes alike holds between resets iff no execute may fail or nothing can be executed: failing executes are not recorded |
| ClosedLoops.FailuresAreUnbounded | computer_control/closed_loop.py:622-648 | the input: runs whose only execute fails pile up executes alike beyond any bound |
| ClosedLoops.SuccessfulCallsAreBounded | computer_control/closed_loop.py:510-731 | over any series of runs without a failing execute the bound holds between resets |
| ClosedLoops.DangerNeedsHookIff | computer_control/closed_loop.py:564-586 | a dangerous action that is executed had the approval of the hook iff it is a write action |
| ClosedLoops.PolicyStopsIff | computer_control/closed_loop.py:588-611 | with approving hooks the policy stops a write action iff it denies; raising does not |
| ClosedLoops.CloseWindow | computer_control/closed_loop.py:172-191 | `close_window` is not a dangerous kind, `window_close` is |
| ClosedLoops.VisionComputerAgent.Approve | computer_control/closed_loop.py:564-616 | the gate of a write action, event by event |
| ClosedLoops.VisionComputerAgent.Act | computer_control/closed_loop.py:618-695 | loop check, execute, record and verdict of one iteration |
| ClosedLoops.VisionComputerAgent.Round | computer_control/closed_loop.py:525-716 | one iteration, from the cancellation check on |
| ClosedLoops.VisionComputerAgent.Run | computer_control/closed_loop.py:510-731 | the loop computes exactly the rounds that `RunsAreSafe` is about |
| Executors.AnalyzeError | agent/error_handler.py:64-148 | from the second attempt on, and when the analysis fails, a replan is forced; a critical step is replanned instead of skipped; otherwise the analysis decides |
| Executors.AttemptsBounds | agent/executor.py:261-341 | a step is called at most twice itself and once as a fix, although the loop allows three attempts; done means its own or its fix's call returned, or it was skipped and not critical |
| Executors.StepOutcome | agent/executor.py:261-341 | the whole course of a step, case by case: calls made and how it ends, for every mix of cancellation, failure, analysis and fix |
| Executors.StepsBounds | agent/executor.py:247-344 | the same for all steps of a plan |
| Executors.PlanningsAreSound | agent/executor.py:229-358 | every execution: at most three plans, calls bounded, and success only if every critical step of the last plan had its own or its fix's call return normally |
| Executors.ExecutionEndsIff | agent/executor.py:229-358 | from the trace alone: aborted, or stopped by the handler, iff it ends in a failed call on which that was decided; cancelled iff it stands before a cancelled step; successful iff every step of the last plan is done; given up only after the last replan |
| Executors.AgentExecutor.RunStep | agent/executor.py:261-341 | the attempt loop computes the course of the step that `StepOutcome` lists |
| Executors.AgentExecutor.RunPlan | agent/executor.py:247-344 | the step loop computes the plan semantics |
| Executors.AgentExecutor.Execute | agent/executor.py:229-358 | the replan loop computes the whole execution, which is sound and ends as `ExecutionEndsIff` says |
| Artifacts.SingleUse | gateway/artifacts.py:112-187 | over every run with crashes and failures at any point: a grant yields at most one successful transfer, of its own kind, by its own device and workspace, within its size, on a ticket checked before it expired |
| Artifacts.CutOffIsFinal | gateway/artifacts.py:112-158 | a transfer that fails or is cut off by a crash after its grant was spent leaves files and rows as they are, and over every later run no transfer on that grant succeeds |
| ArtifactTheorems.ArtifactsAreWriteOnce | gateway/artifacts.py:112-144 | with the service's way of issuing grants no stored file is ever changed or removed |
| ArtifactTheorems.ReissueOverwritesIff | gateway/artifacts.py:56-86 | in every state the service reaches, an upload grant for a given id lets an upload change a stored file iff that id is stored with other bytes |
| ArtifactTheorems.DownloadsReturnTheUpload | gateway/artifacts.py:112-158 | every successful download returns the bytes of the only successful upload of its artifact, presented by the same device in the same workspace, of the same type |
| ArtifactTheorems.DownloadIff | gateway/artifacts.py:88-158 | a download that has spent its grant succeeds iff the grant covers the whole artifact; no download grant exists for an empty artifact |
| ArtifactTheorems.ReissueOverwrites | gateway/artifacts.py:56-86 | a reached state and a grant with which a stored file changes |
| Transfers.ArtifactTransferService.Issue | gateway/artifacts.py:56-86 | when a grant is issued, and that row and ticket match; otherwise nothing changes |
| Transfers.ArtifactTransferService.IssueForDownload | gateway/artifacts.py:88-110 | succeeds iff the caller owns the stored artifact and the capped grant is issuable; the grant is for at most its size |
| Transfers.ArtifactTransferService.Verify | gateway/artifacts.py:166-187 | accepts iff the claims are those of the unused row, and owner, operation and expiry fit |
| Transfers.ArtifactTransferService.UploadBytes | gateway/artifacts.py:112-144 | which error when, nothing changed before the grant is spent, and after that exactly what `Uploaded` says of files, temporary files, rows and grant |
| Transfers.ArtifactTransferService.DownloadBytes | gateway/artifacts.py:146-158 | success, content and the spent grant, in terms of the stored file |
| Transfers.UploadFollowsProtocol | gateway/artifacts.py:112-144 | the upload method, on success and on every failure, is the uninterrupted run of the interleaved transfer steps |
| Transfers.DownloadFollowsProtocol | gateway/artifacts.py:146-158 | likewise for the download method, refused tickets included |
| Transfers.IssuedIsAcceptedIff | gateway/artifacts.py:56-187 | any ticket for a grant just issued is accepted iff it is unaltered, its bearer and operation are the ones it was issued for, and it has not expired |
| Transfers.UploadedIsDownloadedIff | gateway/artifacts.py:56-187 | from any state: grant, upload, download grant, download; the bytes come back iff both grants can be issued, both tickets are used in time and the data is not empty and within both limits |
| SettingsSchema.ReadModelRoles | config/schema.py:343-362 | the loop over the roles computes the validation |
| SettingsSchema.ReadPreferred | config/schema.py:404-414 | likewise for the preferred models |
| SettingsSchema.ReadOverrides | config/schema.py:417-455 | likewise for the override map |
| SettingsSchema.ReadProviders | config/schema.py:458-483 | likewise for the provider map |
| SettingsSchema.WriteSettings | config/schema.py:185-211 | filling the dictionary entry by entry yields the written form |
| SettingsRoundTrip.ReadAfterWrite | config/schema.py:185-265 | every storable settings value is read back as it was, up to the voice fields |
| SettingsRoundTrip.ValidatedIsStorable | config/schema.py:217-265 | whatever validation returns is storable and has default voice fields |
| SettingsRoundTrip.RoundTrip | config/schema.py:185-265 | whatever was accepted once is written and read back unchanged, over arbitrary override and provider maps |
| SettingsRoundTrip.RoundTripIff | config/schema.py:185-265 | for an arbitrary settings value the round trip is exact iff it is storable and its voice fields are the defaults |
| SettingsRoundTrip.OverrideRead | config/schema.py:114-119 | an override is read back from the dictionary that omits its unset capabilities |
| SettingsRoundTrip.OverridesDictRead | config/schema.py:417-455 | the whole override map is read back, whatever its ids |
| SettingsRoundTrip.ProvidersDictRead | config/schema.py:458-483 | the whole provider map is read back |
| SettingsRoundTrip.NothingSecretIsWritten | config/schema.py:59-62 | no key at any depth of what storable settings are written to is a secret slot |
| SettingsChecks.SecretFieldIff | config/schema.py:59-62 | a name is a secret slot iff it contains one of the four markers, in whatever case |
| SettingsChecks.AcceptedIsClean | config/schema.py:217-483 | what is accepted has no secret slot among its keys nor at any depth of the three objects that are read |
| SettingsChecks.OtherKeysAreIgnoredIff | config/schema.py:217-265 | a key the validator does not know is ignored, whatever it holds, unless it is a secret slot or no text |
| SettingsChecks.EmptyReadsDefaults | config/schema.py:137-265 | the empty dictionary reads as the defaults, field by field |
| SettingsChecks.NullIsMissingIff | config/schema.py:268-362 | null stands for a missing value in the optional fields and is refused in the others |
| SettingsChecks.OverlayIff | config/schema.py:268-340 | which values the system name and the camera index take, and what they are kept as |

## Left out

- Store.GatewayStore: SQLite itself, schema migration, runtime status, device names and keys, token scopes and expiry, timestamps that no branch reads, JSON encoding; a table is a map and a transaction one method.
- WebSocket.GatewayConnection.Receive: envelope parsing and the ping timestamp; `heartbeat`, which closes a stale peer, is the close action at a time of the clock's choosing.
- WebSocket.GatewayWebSocketRuntime.PublishNow: runs while nothing else does; connects and drains that overlap a publication are outside the model.
- Router.GatewayRouter.Dispatch: runs alone, so the branch for a lost reservation is in `Requests` (the Recheck action) and not in this method; the handler is represented by what it answers.
- Router.GatewayRouter.Register: the handler objects themselves and the other envelope checks, which are constant for the route probe.
- Requests.AtMostOnce: rows are never deleted by the source either, so a key is at most once forever; the response is an opaque text.
- Approvals.ConfirmIsSound: the operation row is read in one step after the wait; the tool call that follows a confirmation is outside the model.
- Coordinator.DurableApprovalCoordinator.Wait: the blocking itself; the method takes a waiter that is not signalled as timed out, and `Approvals` has the interleaved form.
- Coordinator.DurableApprovalCoordinator.Request: the truncation of the reason text, which no branch reads.
- Artifacts.SingleUse: HMAC and base64; a ticket is its claims or rejected, so the result does not rest on the signature.
- Transfers.ArtifactTransferService.DownloadBytes: runs alone, so the grant cannot be spent by another transfer after its checks; `Artifacts` interleaves the two.
- Transfers.ArtifactTransferService.UploadBytes: runs alone, likewise; digest computation and partial writes inside the temporary file; a failing write is a Fail step of `Artifacts`.
- Transfers.ArtifactTransferService.IssueForDownload: parsing of the identifier as a UUID; the empty text stands for every identifier that does not parse.
- ArtifactTheorems.ArtifactsAreWriteOnce: holds for upload grants with fresh ids and download grants from `issue_download`, which is how gateway/service.py issues them; `ReissueOverwritesIff` says what `issue` with a given id does instead.
- AccessTokens.SucceedsIff: signature and expiry of the token, which live outside the repository's gateway module.
- Framing.DecodeAccepts: fragmented frames, which the decoder rejects, and the text decoding of payloads, which other code does.
- TaskQueues.TaskQueue.Dispatch: the condition variable and the start of the worker thread; `start`, `stop` and the status listings.
- TaskQueues.TaskQueue.FinishTask: the completion callback and the printed lines; a print that raised after the bookkeeping would run the failure branch as well and free the slot twice.
- AgentLoops.Terminates: needs a failed provider call to take at least one tick, see `FrozenClockNeverHalts`; liveness of providers and tools is assumed by taking their results as given.
- AgentLoops.AgentLoop.Run: step and latency records, and argument parsing of tool calls.
- ClosedLoops.VisionComputerAgent.Run: phases, step callback, correction history and log texts; capture and staleness are part of an iteration's given answers.
- Executors.AgentExecutor.Execute: spoken and printed texts, context injection into parameters, the summary; planner, tools and error analyst are given functions of plan, step and attempt.
- SettingsSchema.ReadOverrides: which message a rejection carries, which depends on the order of the mapping.
- SettingsRoundTrip.RoundTrip: floats and lists are one value `Other`; case folding beyond ASCII letters and the Kelvin sign cannot produce an ASCII letter on its own and is the identity.
- The coordinate validator, the default reasoner and verifier of the closed loop, the latency, observation, subagent and steering modules of the agent, and the in-memory approval gate: each is a single computation or a wrapper, with no state that the properties above depend on.
