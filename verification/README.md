# A verified model of ocpp-go's dispatchers, registry, lifecycle and code generator

This project models the concurrent core of the OCPP-J library and the graph and
tag algorithms of its code generator, and proves what they promise.

**Dispatchers.** The server and the client dispatcher each run one pump
goroutine that races senders, websocket read goroutines, timers, caller
contexts, disconnects, Pause/Resume, Stop and (on the server) Start. They are
modelled as step systems (`ServerStack`, `ClientStack`): a step is one operation
the source performs under one lock, or one channel operation, with the
goroutine-local work that follows it. The server system includes restarts, the
connect handlers still owed to registered connections, and the central-system
facade with its callback queue. Invariants are proved step by step, one clause
per lemma, and the results are stated over every run (`ServerTrace`,
`ClientRuns`). The rule behind them is section 4.1.1 (Synchronicity) of the
OCPP-J 1.6 specification: no new CALL before the previous one was answered or
timed out. Where a promise needs a condition on the moment of a step, the
condition is shown to be the weakest one by driving the system, from any
reachable state that violates it, into a broken one (`ServerDrive`,
`ServerWeakest`, `ServerRestarts`).

**Shared objects.** The request queue, the queue map, the pending state and the
callback queue are classes whose methods are the locked operations
(`RequestQueues`, `PendingState`, `CallbackQueues`). They refine the functions
the steps are made of: `Fifo` is the queue of both dispatchers and of the class,
and the map with the objects it handed out is the heap of `QueueStore`.

**Websocket layer and charge point.** `Registry` is the server's connection
registry with its transition gate, `SocketTeardown` the teardown of one socket
(a send on a closed channel is a reachable panic in the model, and is proved
unreachable), `Lifecycle` the Start/Stop generations of the charge point.

**Code generator.** `CycleDetection`, `Reachability`, `Deduplication` and
`Placement` are the graph algorithms over the intermediate representation of
`SchemaGraph`; `Spelling` is the choice of a reference's package; `Tags`,
`BaseTags`, `Overrides` and `ComposeGap` are the validator tags, what they
accept against what the schema accepts, and the governed overrides composed
onto them.

`dafny verify dfyconfig.toml` checks the whole project.

## Assumptions

- Message ids are distinct and non-empty; a request is named by client and id.
- Bundles carry a call, data and payload; the default queue, queue map and state are used.
- Peers answer only requests whose write succeeded. User callbacks return.
- Network writes, timers and caller contexts are events that may happen or not, at
  any time; the two-second wait of a client deletion may time out at any time.
- The server dispatcher's Start is called again only after Stop has returned. Two
  pumps would otherwise share the dispatcher's fields. "Stop" is the call that
  found the dispatcher running; one that finds it stopped returns at once.
- The client dispatcher is modelled for one Start-to-Stop generation.
- The validators behave as those of go-playground/validator v9: a nil slice is a
  zero value and an empty one is not, and a value behind a non-nil pointer counts
  as present.

## Where the code decides

- The connect handler of a registered connection runs after the socket's pumps
  have started (ws/server.go:556-560), so `CreateClient` can land inside the
  disconnect of that connection, or of a later one. When it makes a queue after
  the removal and before the pending slot is cleared, wake-ups can be lost, a
  CALL written twice and two CALLs be outstanding. `ServerWeakest.OrderingIsWeakest`
  shows that this is exactly the landing to avoid.
- The wait of `DeleteClientAndWait` can end while the pump is still writing for
  that client (ocppj/dispatcher.go:788-792). That breaks the rule too
  (`ServerScenes.TimeoutCanLeaveTwo`); a timeout at any other moment of the
  pump, in particular during a slow write to another client, does not.
- A send that looked its queue up before the stop drain and tests the running flag
  after the next Start is accepted into a queue nobody serves
  (ocppj/dispatcher.go:830-839). `ServerRestarts.CleanIsWeakest` shows that this is
  exactly what strands an accepted request.
- A response that completes its request after the pump has exited posts to a
  channel of capacity one that nobody reads any more (ocppj/dispatcher.go:1303).
  The stop drain does not empty it, so one such response blocks its read goroutine
  until the next Start when a token posted before the exit is still there. Stop
  does not wait for it. The deadlock result is an if-and-only-if with this guard.
- A ready token does cross a restart, since its channel is made once
  (ocppj/dispatcher.go:681); it can do no more than make the pump look at a queue.
- ocppj/state.go:59-66 reports a stale request for the empty id when nothing is
  pending; `PendingState.ClientState.GetPendingRequest` states exactly that.
- The base tags and the schema disagree on some inputs (`BaseTags.Blind`): a given
  zero is refused by `required` though the schema admits it, or excused by
  `omitempty` though the schema does not; a missing required boolean is not noticed.
- internal/codegen/overrides.go:1092-1096 says that composition cannot fail after
  the checks. A second tighten of a token behind `dive` that an earlier row replaced
  is looked up in scope 0, passes the checks, and is refused by the composition
  (`ComposeGap.CheckedRowCanFail`, and `Overrides.FailsOnlyBehindDive` for the
  exact circumstances). The table is rejected either way.
- internal/codegen/emit.go:85-87 qualifies a dated array of shared references twice
  and a reserved enum not at all; `Spelling.MessageSpelling` says for which shapes.

## Model

| member | source | states |
|---|---|---|
| QueueStore.PopOk | ocppj/queue.go:106-118 | popping keeps every queue consistent, takes exactly the front request and nothing else, and that request had not been taken before |
| QueueStore.DrainOk | ocppj/queue.go:68-74 | draining takes exactly what the queue holds, each request once, none of them taken before |
| QueueStore.PushOk | ocppj/queue.go:76-84 | a request is pushed to one place of one queue of its own client |
| ServerOwnership.OwnOnPump | ocppj/dispatcher.go:845-1112 | every pump step keeps: a request has an owner exactly when it left its queue, the pump holds exactly the requests it popped and not yet cancelled, and notifications equal owners that told |
| ServerOwnership.OwnOnWorld | ocppj/dispatcher.go:1258-1305 | every step of senders, read goroutines, disconnects, timers, Stop and Start keeps the same |
| ServerOwnership.PathOnPump | ocppj/dispatcher.go:1258-1275 | in a pump step the owner of any request stays or moves one stage along its own path |
| ServerOwnership.PathOnWorld | ocppj/server.go:350-380 | the same for every other step: a response never takes a request a cancel owns, nor the reverse |
| ServerPhase.PhaseOnPump | ocppj/dispatcher.go:872-917 | the pump drains only after the running flag fell, and the queue map is empty from the detach on |
| ServerPhase.PhaseOnWorld | ocppj/dispatcher.go:688-764 | nobody holds the read lock across a send once Stop has the write lock, no queue is created after that, and Start finds the map empty |
| ServerSection.SecOnPump | ocppj/dispatcher.go:1073-1190 | while the pump dispatches for a client it owns that client's pending slot or the queue is gone for good; a written, uncompleted request holds the slot |
| ServerSection.SecOnWorld | ocppj/dispatcher.go:775-841 | no other goroutine breaks that in an ordered step: no queue created between queue removal and slot clearing of a disconnect, no delete wait timed out while the pump dispatches for that client, no Start over an outstanding CALL |
| ServerSection.NoneOutstanding | ocppj/dispatcher.go:1149-1166 | when a write succeeds, every earlier CALL of that client on the current connection has been completed |
| ServerFifo.FifoOnPump | ocppj/dispatcher.go:1115-1190 | every pump step keeps the written positions strictly ascending and not beyond the front |
| ServerFifo.WrittenInPushOrder | ocppj/queue.go:76-118 | hence the written requests of a session are a repetition-free subsequence of the pushed ones |
| ServerTokens.TokenOnPump | ocppj/dispatcher.go:954-1100 | an active timeout context was made for the recorded dispatched id, or none is recorded |
| ServerTokens.TokenOnWorld | ocppj/dispatcher.go:1212-1244 | posting timeout and cancel tokens keeps them tied to a written request whose context fired |
| ServerTokens.TokenCompletesItsOwn | ocppj/dispatcher.go:954-1070 | whatever the pump completes on a timeout or cancel token is the request whose context the token names, and it had been written |
| ServerFacade.FacadeOnPump | ocpp1.6/central_system.go:908-928 | pump steps keep: an awaited callback whose queue was removed has its disconnect drain ahead, and no awaited callback has a settled owner |
| ServerFacade.FacadeOnWorld | internal/callbackqueue/callbackqueue.go:50-121 | so do sends that register under the callbacks mutex, dequeues, disconnect drains and everything else |
| ServerStop.StopOnPump | ocppj/dispatcher.go:872-917 | the stop drain loses no accepted request: it stays in a held queue or gets an owner |
| ServerStop.StopOnWorld | ocppj/dispatcher.go:823-841 | a send that can still be accepted aims at a queue somebody answers for, across clean restarts too |
| ServerStop.NoCallbackStranded | ocpp1.6/central_system.go:856-928 | a registered callback's request is in its client's live queue, or has one owner that will dequeue it, or is covered by a disconnect or stop drain in progress, and it was not called |
| ServerStop.QuiescentMeansCalled | ocpp1.6/central_system.go:81-93 | once pump, owners and disconnects are done, every callback that was ever registered has been called exactly once |
| ServerStop.StopAccounts | ocppj/dispatcher.go:715-733 | when Stop returns, an accepted request of a client that was not deleted is with a response handler or a fired cancel, with its notification count, and no queue and no pending slot is left |
| ServerStop.PumpIsGone | ocppj/dispatcher.go:872-917 | after Stop returned no pump step exists, so none can refill the queue map |
| ServerStop.WorldKeepsMapEmpty | ocppj/dispatcher.go:757-764 | after Stop returned no CreateClient or other step refills it, and the next Start finds it empty |
| ServerPending.PendingOnPump | ocppj/dispatcher.go:1147-1166 | a pending slot of a live client belongs to a request in its live queue or to a completer that clears it next |
| ServerPending.PendingOnWorld | ocppj/server.go:426-441 | a slot left without a queue belongs to a disconnect that still has to clear it |
| ServerWake.WakeOnPump | ocppj/dispatcher.go:918-1112 | every pump step keeps the wake-up condition of every client, stale ready tokens included |
| ServerWake.WakeOnWorld | ocppj/dispatcher.go:1285-1305 | so does every other ordered step, delete waits that time out included |
| ServerWake.AnswerIsUsable | ocppj/dispatcher.go:1001-1005 | the ready token of the answer that clears the slot is not dropped as stale |
| ServerWake.NoLostWakeUp | ocppj/dispatcher.go:918-1112 | a live queue with work and nothing pending has a usable token, a goroutine about to post one, a delete token left behind, or the pump at work for it |
| ServerProgress.NoWaitCycle | ocppj/dispatcher.go:858-867 | the wait-for graph over pump, Stop, senders, callers of TryQueue, connect handlers, disconnects, responders and callback owners has no cycle |
| ServerMoves.PumpMoves | ocppj/dispatcher.go:868-1112 | outside its select the pump always has a step: it waits for neither lock |
| ServerDelete.DeleteOnWorld | ocppj/dispatcher.go:775-793 | a disconnect waiting for the pump of this generation has its token buffered, received, or the drain under way |
| ServerProgress.Progress | ocppj/dispatcher.go:1285-1305 | from an active goroutine the wait-for graph leads to one that can move, without any timer, if and only if it is not a response posting to the full ready channel after the pump's exit |
| ServerProgress.StuckStays | ocppj/dispatcher.go:872-917 | no step but the next Start helps such a response: once the pump has exited nothing empties the ready channel |
| ServerSection.AtMostOneOutstanding | ocppj/dispatcher.go:1065-1112 | in every ordered run, restarts included, two uncompleted CALLs written to one client over its current connection are the same CALL |
| ServerOwnership.AtMostOneNotification | ocppj/dispatcher.go:1258-1305 | in every run a request is owned exactly when it left its queue and has fired at most one notification |
| ServerOwnership.SingleWinner | ocppj/dispatcher.go:1246-1275 | in every run whoever took a request is never replaced, and response and cancel never both own it |
| ServerStop.CallbacksNeverStranded | ocpp1.6/central_system.go:645-671 | in every run with clean restarts every registered callback is accounted for, even when its send races the disconnect or Stop |
| ServerFacade.CallbacksAreConserved | internal/callbackqueue/callbackqueue.go:80-121 | in every run a callback that was ever registered is either still registered or was called, exactly once: none is lost, none called twice |
| ServerTrace.RegistrationIsForGood | internal/callbackqueue/callbackqueue.go:50-74 | a callback once registered stays accounted for through the rest of the run |
| ServerStop.StopAccountsInRun | ocppj/dispatcher.go:715-733 | in every run with clean restarts, when Stop has returned, every accepted request of a client not deleted has one owner |
| ServerStop.EmptyAfterStop | ocppj/dispatcher.go:738-764 | in every run the queue map is empty from Stop's return until the next Start |
| ServerFifo.FifoInRun | ocppj/queue.go:76-118 | in every ordered run each session's written requests ascend in push order without repetition |
| ServerWake.WakeUpInRun | ocppj/dispatcher.go:918-1112 | in every ordered run no wake-up is lost |
| ServerPending.PendingInRun | ocppj/state.go:145-164 | in every ordered run a live client's pending request is queued or about to be cleared |
| ServerGenerations.TokensInRun | ocppj/dispatcher.go:954-1070 | in every run a timeout or cancel token completes its own written request or nothing, and was posted by a watcher of the pump that receives it |
| ServerProgress.NeverDeadlocks | ocppj/dispatcher.go:700-733 | in every run every goroutine in progress reaches one that can move along the wait-for graph, if and only if it is not a response stuck behind the exited pump |
| ServerProgress.StuckUntilStart | ocppj/dispatcher.go:1296-1304 | in every run a response stuck behind the exited pump stays so until the next Start |
| ServerRestarts.StuckIsReachable | ocppj/dispatcher.go:1296-1304 | a run with one late response reaches that state: the token posted before the exit is still buffered |
| ServerWeakest.OrderingIsWeakest | ws/server.go:553-560 | at the end of any ordered run a CreateClient is ordered if and only if no ordered continuation loses a wake-up of that client |
| ServerWeakest.LateCreateLosesWakeUp | ocppj/dispatcher.go:757-764 | from every reachable state in which a queue is created inside the window of its client's disconnect, wherever the pump, senders and readers are, an ordered continuation leaves the pump asleep over work of that client |
| ServerDrive.PumpHome | ocppj/dispatcher.go:868-1112 | from every point of its loop the pump can be brought back to its select, with every write failing, without adding an answer, a sender or a request to the late queue |
| ServerWeakest.WakeUpCanBeLost | ws/server.go:553-560 | such a landing is reachable: the first connection is torn down before its connect handler has run |
| ServerScenes.CallCanBeWrittenTwice | ws/server.go:553-560 | a concrete run with a late CreateClient writes the same CALL twice |
| ServerScenes.TwoCanBeOutstanding | ws/server.go:553-560 | a run in which the handler owed to an earlier connection lands in a later disconnect has two CALLs outstanding on one connection |
| ServerScenes.TimeoutCanLeaveTwo | ocppj/dispatcher.go:788-792 | a run in which the delete wait times out during a write to that client has two CALLs outstanding on one connection |
| ServerGenerations.NoTokenCrosses | ocppj/dispatcher.go:1205-1244 | in every run with restarts, what a pump receives on its timeout and cancel channels was posted by a watcher this very pump spawned |
| ServerGenerations.GenOnPump | ocppj/dispatcher.go:688-733 | pump steps keep: the dispatcher's fields are those of the living pump's generation, watchers hold that generation's channels, and the pump knows queues and requests made since its Start only |
| ServerGenerations.GenOnWorld | ocppj/dispatcher.go:688-698 | so do late posts by watchers of earlier generations, Stop's join and Start |
| ServerGenerations.NoRequestCrosses | ocppj/dispatcher.go:738-756 | in every run a request left over from before a Start, whatever its sender was told, is never written after it |
| ServerGenerations.CrossingReadyInRun | ocppj/dispatcher.go:1005-1021 | a ready token of an earlier generation changes no queue, pending slot, owner or recorded dispatch, and no timeout of one |
| ServerRestarts.CleanIsWeakest | ocppj/dispatcher.go:823-841 | with unbounded queues a Start after a clean run is clean if and only if no continuation strands an accepted request |
| ServerRestarts.StraddlingStrands | ocppj/dispatcher.go:823-841 | whenever a send straddles a Start, a continuation accepts its request, and registers its callback, in a queue nobody serves |
| ServerRestarts.StraddleIsReachable | ocppj/dispatcher.go:823-841 | such a send is reachable |
| ClientOwnership.OwnOnPump | ocppj/dispatcher.go:255-385 | every pump step keeps: owned exactly when taken, one owner, one notification, including the final discard of refused sends |
| ClientOwnership.OwnOnWorld | ocppj/dispatcher.go:484-505 | so does every step of senders, read goroutines, Pause, Resume, the timer and Stop |
| ClientDispatch.DispatchOnPump | ocppj/dispatcher.go:387-430 | a written, uncompleted request holds the pending slot, a request is written only as the unwritten front, and written positions ascend |
| ClientDispatch.DispatchOnWorld | ocppj/dispatcher.go:239-253 | no other step breaks that |
| ClientDispatch.WakeOnPump | ocppj/dispatcher.go:272-385 | the pump keeps: not ready means in flight or a ready flag coming, and a queue with work has a wake-up |
| ClientDispatch.WakeOnWorld | ocppj/dispatcher.go:432-505 | Pause, Resume, coalesced ready flags and completions keep it too |
| ClientRuns.AtMostOneOutstanding | ocppj/dispatcher.go:363-383 | in every run two written, uncompleted requests are the same and hold the pending slot |
| ClientRuns.AtMostOneNotification | ocppj/dispatcher.go:484-505 | in every run exactly the taken requests are owned, and each notified at most once |
| ClientRuns.SingleWinner | ocppj/client.go:345-367 | in every run the winner of a request is never replaced, and a told owner never changes |
| ClientRuns.WrittenInPushOrder | ocppj/dispatcher.go:387-430 | in every run requests are written in push order, none twice |
| ClientRuns.NoLostWakeUp | ocppj/dispatcher.go:272-385 | in every run an unpaused queue with work and nothing pending has a ready flag, a Resume under way, or a ready pump with a token, a sender about to post one or its guard ahead |
| ClientRuns.PendingNeverOrphaned | ocppj/state.go:48-87 | while running, the pending request is queued or its completer clears the slot next |
| ClientRuns.StopAccounts | ocppj/dispatcher.go:291-322 | when Stop returns, every accepted request went to one response handler or one fired cancel and the pending slot is free |
| RequestQueues.FifoQueue.Push | ocppj/queue.go:76-84 | refines the push of the step systems, or fails exactly at capacity |
| RequestQueues.FifoQueue.PopIf | ocppj/queue.go:106-118 | refines their pop, exactly when there is a front and the predicate holds of it |
| RequestQueues.FifoQueue.Peek | ocppj/queue.go:86-93 | the oldest untaken element |
| RequestQueues.FifoQueue.Pop | ocppj/queue.go:95-104 | takes the oldest untaken element, if any |
| RequestQueues.FifoQueue.DrainAll | ocppj/queue.go:68-74 | refines their drain: every untaken element in push order, none left |
| RequestQueues.FifoQueue.IsEmpty | ocppj/queue.go:132-136 | everything pushed was taken |
| RequestQueues.FifoQueue.IsFull | ocppj/queue.go:126-130 | a bounded queue holds exactly its capacity |
| RequestQueues.FifoQueueMap.Get | ocppj/queue.go:200-205 | a client is found exactly while the step system's map knows it, and what is found is the object behind its reference |
| RequestQueues.FifoQueueMap.GetOrCreate | ocppj/queue.go:207-216 | refines the heap's GetOrCreate: a client keeps its object, a new one is fresh and empty, and every earlier object is untouched |
| RequestQueues.FifoQueueMap.Remove | ocppj/queue.go:218-222 | refines the heap's Remove: the client is unknown, and its queue object lives on with everything it holds |
| RequestQueues.FifoQueueMap.DrainAll | ocppj/queue.go:192-198 | refines the heap's Detach: the whole map at once, every object untouched |
| RequestQueues.PushTo | ocppj/dispatcher.go:827-833 | a push to the object a sender found, in the map or not, is the heap's push to that queue |
| RequestQueues.PopFrom | ocppj/dispatcher.go:1258-1275 | a completer wins exactly when its request is in front of the object it found, in the map or not, and is then the heap's pop |
| RequestQueues.DrainFrom | ocppj/dispatcher.go:895-904 | the stop drain of a detached object is the heap's drain |
| PendingState.ClientState.AddPendingRequest | ocppj/state.go:48-57 | an occupied slot and its payload are left alone |
| PendingState.ClientState.GetPendingRequest | ocppj/state.go:59-66 | found exactly for the pending id, or for the empty id when nothing is pending |
| PendingState.ClientState.DeletePendingRequest | ocppj/state.go:68-75 | clears the slot exactly when it holds that id |
| PendingState.ServerState.AddPendingRequest | ocppj/state.go:145-152 | one client's slot is filled if free, all others unchanged |
| PendingState.ServerState.DeletePendingRequest | ocppj/state.go:154-164 | one client's slot is cleared if it holds that id, all others unchanged |
| PendingState.ServerState.HasPendingRequests | ocppj/state.go:192-203 | true exactly when some client has something pending |
| PendingState.ServerState.ClearClientPendingRequest | ocppj/state.go:205-211 | clears one client's slot and no other |
| PendingState.ServerState.Pend | ocppj/dispatcher.go:1151-1153 | making a request pending refines the slots of the step system |
| PendingState.ServerState.Unpend | ocppj/dispatcher.go:1270-1273 | so does clearing the slot of a completed request |
| PendingState.ServerState.UnpendClient | ocppj/server.go:433 | and clearing the slot of a disconnected client |
| CallbackQueues.CallbackQueue.BeginTry | internal/callbackqueue/callbackqueue.go:50-54 | takes the mutex for the send, as the step system's send begins |
| CallbackQueues.CallbackQueue.EndTry | internal/callbackqueue/callbackqueue.go:54-74 | registers exactly when the send succeeded under a fresh non-empty id, never overwrites, and releases the mutex |
| CallbackQueues.CallbackQueue.Register | internal/callbackqueue/callbackqueue.go:50-74 | refines the registration step of the step system |
| CallbackQueues.CallbackQueue.Dequeue | internal/callbackqueue/callbackqueue.go:80-99 | hands out and removes exactly that callback |
| CallbackQueues.CallbackQueue.Settle | internal/callbackqueue/callbackqueue.go:80-99 | refines the dequeue step: a callback comes out exactly when it is registered |
| CallbackQueues.CallbackQueue.DrainAll | internal/callbackqueue/callbackqueue.go:105-121 | returns every callback of the client once and removes nobody else's |
| CallbackQueues.CallbackQueue.DrainClient | ocpp1.6/central_system.go:81-93 | refines the disconnect's drain: exactly the client's registered callbacks come out |
| Registry.InvStep | ws/server.go:577-647 | every critical section keeps: one occupant per id, one eviction per id, gate equals transitions in progress, no suppression |
| Registry.InvOnInstall | ws/server.go:631-647 | after an eviction nobody is registered, so the replacement is never refused for that |
| Registry.InvOnDisconnect | ws/server.go:684-699 | a live socket is always the current one: the first suppression branch is not taken |
| Registry.InvOnRecheck | ws/server.go:700-715 | nobody registers before the leaving socket fires: the second suppression branch is not taken |
| Registry.RegistryIsExclusive | ws/server.go:586-647 | in every run at most one socket per id is registered or inside its disconnect, and the gate is the number of transitions |
| Registry.OneDisconnectEach | ws/server.go:665-715 | in every run a socket that tears down fires exactly one disconnect |
| SocketTeardown.InvStep | ws/websocket.go:394-424 | every step keeps the flags in line with writePump and nobody inside a send after the channels are closed |
| SocketTeardown.TeardownIsSafe | ws/websocket.go:500-519 | in every run cleanup begins at most once, and nobody sends on or closes a closed channel or uses a nil connection |
| SocketTeardown.CallIsServed | ws/websocket.go:570-660 | a writer or closer blocked in its select can go on, or writePump can |
| SocketTeardown.ReaderReleased | ws/websocket.go:500-505 | whoever a waiting cleanup waits for can leave at once |
| SocketTeardown.NoNewReader | ws/websocket.go:394-424 | while cleanup waits no step adds a reader |
| SocketTeardown.CleanupGetsTheLock | ws/websocket.go:500-519 | so a waiting cleanup reaches the write lock in at most as many reader steps as there are readers |
| Lifecycle.InvOnCaller | ocpp1.6/charge_point.go:748-904 | Start, Stop and StopCtx keep: only the current generation's handler is live, on the current channels, with its done channel open |
| Lifecycle.InvOnHandler | ocpp1.6/charge_point.go:646-704 | the handler's stop, clear and exit keep it too |
| Lifecycle.GenerationsAreSafe | ocpp1.6/charge_point.go:748-904 | over every call sequence no channel is closed twice, at most one handler is live, and no clear removes a later generation's callback |
| Lifecycle.JoinIsServed | ocpp1.6/charge_point.go:770-777 | a join returns at once or waits for a live handler that was told to stop and has an enabled step |
| SchemaGraph.HopsNames | internal/codegen/walk.go:308-339 | the hops the cycle search follows and the names the reach search follows are the same references |
| CycleDetection.CycleSearch.Visit | internal/codegen/walk.go:258-287 | finishes a name and everything it leads to, with a topological order as witness, or returns a genuine cycle |
| CycleDetection.CycleSearch.Report | internal/codegen/walk.go:262-276 | the chain is a closed walk and each pointer is that of a reference from one of its names to the next |
| CycleDetection.DetectCycles | internal/codegen/walk.go:244-299 | reports nothing exactly when the reference graph is acyclic, and a genuine cycle otherwise |
| Reachability.ComputeReach | internal/codegen/walk.go:84-120 | exactly the names a walk of one or more references from the two roots reaches, sorted, without duplicates |
| Names.ListingUnique | internal/codegen/walk.go:114-119 | a set of names has one sorted listing |
| Names.Sorted | internal/codegen/walk.go:114-119 | the collected keys of a map become that listing |
| Deduplication.Deduplicate | internal/codegen/walk.go:136-183 | succeeds exactly when same-named definitions agree pairwise, with one merged definition per name, sorted, with its files |
| Deduplication.VerdictOrderFree | internal/codegen/walk.go:136-183 | the verdict does not depend on input order |
| Deduplication.OutputOrderFree | internal/codegen/walk.go:185-217 | for definitions as the reader builds them neither does the output |
| Placement.ComputePlacement | internal/codegen/placement.go:20-66 | fails exactly when a candidate is reached by no message; otherwise places every candidate by its reach count |
| Placement.TypesClosed | internal/codegen/placement.go:8-19 | a types-homed definition refers only to types-homed or reserved definitions |
| Placement.MessageLocal | internal/codegen/placement.go:8-19 | a message-homed definition is referred to only from that message's own file |
| Spelling.TypesSpelling | internal/codegen/emit.go:68-76 | inside types every reference is bare and its target is emitted there: types depends on no block package |
| Spelling.MessageSpelling | internal/codegen/emit.go:77-89 | in a message's file the spelling is found in the package it names if and only if it is not a dated array of shared references or a reserved enum |
| Tags.AppendAccepts | internal/codegen/mapping.go:170-171 | appending a token can only reject more, in whichever scope it lands |
| Tags.ReplaceAccepts | internal/codegen/mapping.go:172-185 | replacing a bound by a tighter one of its family can only reject more |
| Tags.RenderedNumber | internal/codegen/mapping.go:80-86 | a rendered whole-number bound is read back as that number |
| BaseTags.BaseTagsMeanTheSchema | internal/codegen/mapping.go:64-155 | on every input, missing or given, the base tags and the schema agree if and only if the tags are not blind to it |
| BaseTags.RequiredZeroIsRefused | internal/codegen/mapping.go:73-74 | a required number with minimum 0 refuses a given 0 the schema admits |
| BaseTags.OptionalEmptyIsAccepted | internal/codegen/mapping.go:75-77 | an optional text with minimum length 1 lets the empty text through |
| BaseTags.MissingBooleanIsAccepted | internal/codegen/mapping.go:67-72 | a missing required boolean is not noticed |
| BaseTags.NumbersAreSeen | internal/codegen/mapping.go:249-261 | the pointer rule leaves the tags blind to a given number only when it is 0, and then exactly when the property is required and admits it or is optional with a positive minimum |
| BaseTags.BaseIsScoped | internal/codegen/mapping.go:64-155 | every base list has at most one dive and one token per family and scope |
| BaseTags.TagTextRoundTrip | internal/codegen/overrides.go:1404-1412 | splitting a rendered validate fragment gives back its tokens |
| BaseTags.MappingIsBase | internal/codegen/overrides.go:1369-1389 | the mapping the loader judges is the list the emitter starts from |
| BaseTags.EmittedTagsGuardTheSchema | internal/codegen/mapping.go:360-416 | from facets to emitted tags: with any accepted override table the emitted list is well-scoped and accepts an input only if the schema does or the base tags were blind to it |
| Overrides.ApplyTagOverride | internal/codegen/mapping.go:162-189 | composes one row: append, or replace the first occurrence, or fail |
| Overrides.BaseFamilyOwners | internal/codegen/overrides.go:902-915 | every family of the base list gets its first token in each scope as owner |
| Overrides.TightenIsTight | internal/codegen/overrides.go:669-749 | a tighten accepted on the rounded float64 values is a strictly tighter bound of the same family, for every order-keeping rounding |
| Overrides.ComposeFails | internal/codegen/overrides.go:1092-1101 | a row that passed every check fails to compose if and only if it tightens a token that is gone from the list |
| Overrides.FailsOnlyBehindDive | internal/codegen/overrides.go:969-976 | and then an earlier row of the same target tightened that same base token and found it behind a dive |
| ComposeGap.CheckedRowCanFail | internal/codegen/overrides.go:1092-1101 | the concrete pair of rows that does it |
| Overrides.RowKeeps | internal/codegen/overrides.go:1045-1106 | an accepted row keeps one token per family and scope and only strengthens |
| Overrides.ApplySecondPassChecks | internal/codegen/overrides.go:1045-1106 | the loop computes the row-by-row verdict, with every rejection path |
| Overrides.AcceptedOnlyStrengthen | internal/codegen/overrides.go:995-1106 | any number of accepted rows leaves each property stricter than its base tags and well-scoped |
| Overrides.ComposeTargetTags | internal/codegen/overrides.go:1288-1308 | the report's loop computes the unchecked fold |
| Overrides.FoldsAgree | internal/codegen/mapping.go:392-400 | for accepted rows the loader's, the report's and the emitter's folds succeed with the same lists |
| Overrides.GovernedTags | internal/codegen/overrides.go:1272-1308 | for every property the emitted list is the reported one, stricter than the base, with one dive and one token per family and scope at most |

## Left out

- ServerSection.SecOnWorld: stated for ordered steps; `ServerWeakest.OrderingIsWeakest` shows the condition on CreateClient to be the weakest, `ServerScenes` has runs that break the promises without it.
- ServerPending.PendingOnWorld: stated for ordered steps, as SecOnWorld.
- ServerWake.WakeOnWorld: stated for ordered steps, as SecOnWorld.
- ServerSection.AtMostOneOutstanding: stated for ordered runs. The condition on a delete wait that times out is sufficient: a timeout while the pump dispatches for that client does harm only if the disconnect, the reconnect and the write all get through before the pump moves on, and a sender blocked on the full request channel while it holds the callbacks mutex prevents that. The condition on Start (no CALL outstanding) is sufficient too: a surviving connection whose connect handler already ran gets no queue, so nothing is written to it.
- ServerFifo.FifoInRun: stated for ordered runs, as AtMostOneOutstanding.
- ServerWake.WakeUpInRun: stated for ordered runs, as AtMostOneOutstanding.
- ServerPending.PendingInRun: stated for ordered runs, as AtMostOneOutstanding.
- ServerRestarts.CleanIsWeakest: for unbounded queues, the default; a bounded queue that is full refuses the straddling send, so the condition is then only sufficient.
- BaseTags.BaseTagsMeanTheSchema: the contents of objects, patterns and formats are not validator tags and are not modelled; a required object is judged by its own fields.
- Deduplication.OutputOrderFree: says nothing about the text of the error, which does name the first conflict in input order.
- Start called before Stop has returned, which gives the server dispatcher two pumps on the same fields.
- Restarts of the client dispatcher.
- JSON encoding, payload parsing and struct validation: payloads are opaque.
- Per-message facade methods, handler setters and action switches of the four facades; the 2.0.1 twins of the central system and charge point.
- HTTP upgrade, TLS, authentication, subprotocol negotiation and the websocket library itself.
- Real clocks, reconnect back-off, ping and pong handling.
- Panic recovery, logging and the Errors() channels.
- The client facade's deadlock freedom: a handler that sends during timeout delivery can close a lock cycle, as the source documents.
- Custom dispatcher, queue, queue-map or state implementations, and malformed bundles.
- Rendering of Go source, files, YAML and manifests, naming transforms, collision checks, and the wording of errors in the code generator.
- The first pass over override rows beyond the tag vocabulary (record completeness, dates, reachability), and the sort of the rows, which is taken as done.
