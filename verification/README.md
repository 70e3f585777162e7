# Verification of the SignalR client's connection protocol

This project models the parts of the SignalR C++ client (and of the scripts its sample server ships) whose correctness
depends on interleaving, re-entrancy or long runs, and proves what they keep.

* **Connection protocol** (`Protocol*.dfy`, `Transport.dfy`, `Frames.dfy`): `start`, `stop`, `shutdown`, `reconnect` and
  `try_reconnect` as atomic steps over the state, the lock, the start-completed event, the cancellation tokens, the
  transport pointer and the receive loops of every transport. Any number of calls of `stop` and `reconnect` may be
  pending. One inductive invariant (`ProtocolInvariant.Inv`) carries the results of `ProtocolTheorems.dfy`. On it rest
  three others: where the URL of a reconnect comes from (`ProtocolUrls.dfy`), where a reconnect and a stop lead
  (`ProtocolEndings.dfy`), and that what is processed is what the sockets delivered (`ProtocolDeliveries.dfy`).
  `StartFailures.dfy` is about starts that cannot succeed any more. `ProtocolShapes.dfy`, `ProtocolRuns.dfy` and
  `ProtocolScenarios.dfy` hold what the proofs share: what steps leave alone, how runs are put together, pieces of runs.
* **What a later generation can overtake** (`StaleReconnect.dfy`, `StrayFrames.dfy`, `LateSteps.dfy`): the situations in
  which the protocol fails its own claims, each with the exact condition and with a run that reaches it.
* **The same code in its own form**: `ConnectionImpl.dfy` and `WebsocketTransport.dfy` are classes whose methods update
  the fields; each method leaves them in the state that the matching step of the protocol computes.
* **Reconnect window** (`ReconnectWindow.dfy`, and `ReconnectAttempts.dfy` for its meaning in the protocol), **hub
  invocations** (`HubMessages.dfy`, `CallbackManager.dfy`, `CallbackIds.dfy`, `HubInvocations.dfy`,
  `HubConnection.dfy`) and the **case-insensitive maps** (`CaseInsensitive.dfy`).
* **Sample scripts**: `jQuery.Callbacks` with what its flags promise (`JQueryCallbackLaws.dfy`), `Deferred` and `when` (`JQuery*.dfy`) and the transport fallback of the
  JavaScript client (`TransportFallback.dfy`, `InitHandler.dfy`); the machines are values, the closures are classes.

## Step granularity and assumptions

* A generation is one successful call of `start`. Copies of a token source share one cancelled flag. A chain of
  continuations notices cancellation only at its token-guarded continuations.
* Changing the state and then setting the event (136 and 145, 163-164 and 165, 617 and 628 of `connection_impl.cpp`) are
  two steps, and so are a `shutdown` that finds the connection disconnected (457, 483) and the continuation of its `stop`
  (421-426), which may run much later.
* The results of `ProtocolTheorems` are about `Proper` runs, all steps of which are `Timely`: `reconnect` takes a
  connected connection away only on behalf of the current generation, `start` is called only when the task of the start
  before it is settled, and a `stop` that found the connection disconnected does not resume while another one is
  disconnecting it. Each of these three conditions is exact: a step from a reachable world is harmless if and only if it
  is timely (see below). Frames may be processed whenever they arrive, those of earlier generations too.
* A callback's token check and its body are one step, except where the body blocks: `reconnect` takes the lock, waits for
  the event, runs the user callback and goes on in steps of their own. The check at 219 is therefore separated from the
  lock at 519.
* Lines 110-120 of `websocket_transport.cpp` are one step, and so are the check at 169 and the next `receive()`. The
  library itself never cancels a `receive()` task. Negotiation, dialling, requests and received frames have arbitrary
  outcomes at arbitrary times.
* The clock does not go backwards and a sleep lasts at least as long as asked.
* `weak_ptr.lock()` is a check of an alive flag; of the destructors only the order of event and shutdown is modelled.
* jQuery handlers do not throw. Lists that fire inside each other may interleave in any order in the model of a deferred,
  of which a single thread allows only some. For the transport fallback one call of `start` is modelled, after the page
  has loaded.

## Results that are not what the source says

* **A stale reconnect ruins a later connection.** `error_callback` checks its token at 219, `reconnect` takes the lock at
  519, and a start that fails on its own does not cancel its token. A call left behind by a failed start can therefore
  take a later, healthy connection to reconnecting; its attempt then meets a live receive loop, "transport already
  connected" is thrown out of `try_reconnect`, nobody sets the event, and every later `stop` waits for good.
  `StaleReconnect.HarmlessIffOwnGeneration` proves that a call is harmless if and only if the generation whose callback
  made it is still the current one; `StaleReconnect.StaleCallHappens` constructs such a run from a new connection.
* **A start that comes early loses its event.** A failing start sets the state at 164 and the event at 165. A `start`
  in between has its own event set by the old chain, so that a `stop` does not wait for it and meets a connecting
  connection. `LateSteps.StartHarmlessIffSettled`: harmless if and only if the task of the start before it is settled;
  `LateSteps.EarlyStartHappens` is a run that gets there.
* **A stop that found nothing to stop can end the next one.** Its continuation (421-426) runs later and nulls the
  transport if another `stop` is disconnecting by then; that one, or the next one after a restart, meets a null pointer.
  `LateSteps.ResumeHarmlessIff`: harmless if and only if the state is not disconnecting;
  `LateSteps.LateStopHappens` is a run that gets there.
* **Frames of failed starts are not ignored.** A late frame is ignored if and only if its generation was ended by a stop
  (`StrayFrames.IgnoredIffStopped`, and for whole runs `StrayFrames.StoppedFramesIgnored`). `StrayFrames.OwnUrlIff`
  proves that the URL of a reconnect holds the latest "C" and "G" of its own generation if and only if no frame of an
  earlier start that failed on its own came later and carried something else; in
  `StrayFrames.WrongUrlHappens` a connection whose last message is "1" reconnects from message "9" of a failed start.
* **The reconnect recursion is bounded if and only if the delay is not zero**, and `set_reconnect_delay` accepts zero
  (`ReconnectWindow.BoundedIff`).
* **`callback_manager` keeps an older callback with the same id** (`HubInvocations.InsertKeepsIffNoClash`): an invocation
  that is still pending 2^32 registrations later makes the new one unregistered (`HubInvocations.ClashHappens`).
* **`Callbacks.empty` does not reset the firing index**: of the entries added after it in the same handler exactly those at
  positions below the turns already taken are not called (`JQueryCallbacks.EmptySkips`, with the run
  `JQueryCallbacks.EmptyHappens`).
* **A transport that throws keeps its timeout**, which can start a later transport twice
  (`TransportFallback.InOrderIff`, `TransportFallback.ThrowRepeats`).

## Model

| member | source | states |
|---|---|---|
| ProtocolKeepTransport.KeepStep | src/signalrclient/connection_impl.cpp:76-727 | Every timely step of every thread keeps the one invariant over state, lock, event, tokens, transport, chains, tasks and receive loops |
| ProtocolTheorems.NoFaults | src/signalrclient/connection_impl.cpp:481-488 | In every world that timely steps reach none of the "internal error" branches (136, 617), the asserts (87, 488), a null transport (128, 494, 509, 596, 672) or "already connected" has occurred |
| ProtocolTheorems.OnlyEdges | src/signalrclient/connection_impl.cpp:815-835 | Over every interleaving the state takes only the edges of the connection's state diagram, although 164 and 490 are unconditional exchanges |
| ProtocolTheorems.ConnectNeverThrows | src/signalrclient/connection_impl.cpp:658-672 | Every `connect` of an attempt goes to the transport of the current generation and finds its loop token cancelled; the first one meets the token its constructor cancelled |
| ProtocolTheorems.TransportAgrees | src/signalrclient/connection_impl.cpp:86-91 | The pointer is null whenever `start` is admitted, and is the current transport in every state in which it is dereferenced |
| ProtocolTheorems.OneAttempt | src/signalrclient/connection_impl.cpp:562-594 | At most one reconnect is in its attempt phase; then the state is reconnecting (or connected, about to signal) and the event is unset |
| ProtocolTheorems.SupersededExits | src/signalrclient/connection_impl.cpp:567-589 | A reconnect superseded by a stop, with or without a restart, leaves without touching the event, the state or a transport |
| ProtocolTheorems.LossNotForgotten | src/signalrclient/connection_impl.cpp:212-236 | While connected and not being stopped, a lost receive loop is about to report its error or a reconnect for it is pending |
| ProtocolEndings.KeepEnds | src/signalrclient/connection_impl.cpp:483-509 | Every timely step keeps the third invariant: a reconnecting connection is pursued, a closing stop has cut every loop of its transport and so was every generation that connected and was stopped, and the connection token is that of the current generation |
| ProtocolEndings.ReconnectingIsPursued | src/signalrclient/connection_impl.cpp:646-654 | While the connection is reconnecting, a reconnect of its generation is under way or a stop is about to end it |
| ProtocolEndings.AtRest | src/signalrclient/connection_impl.cpp:646-654 | A connection for which nothing is left to do is connected or disconnected, never in between |
| ProtocolEndings.GivingUpDisconnects | src/signalrclient/connection_impl.cpp:652-654 | A reconnect that gives up, undisturbed, leaves the connection disconnected, without a transport, and no loop running |
| ProtocolEndings.StoppedTransportIsDead | src/signalrclient/connection_impl.cpp:509 | Once a stop waits for its transport no loop of it has a live token, and none of a generation that connected and was stopped ever has again |
| ProtocolEndings.CancelledIsStopping | src/signalrclient/connection_impl.cpp:466-490 | A generation whose token is cancelled is disconnected, or a stop that holds the lock or closes sees to that |
| ProtocolEndings.NoStopIsLost | src/signalrclient/connection_impl.cpp:409-470 | A call of `stop` goes on until 421-426, unless another one is disconnecting when it takes the lock: then it leaves and changes nothing |
| ProtocolEndings.NoDialAfterStop | src/signalrclient/connection_impl.cpp:660-672 | A stopped generation dials no more in any run, neither in its start nor in an attempt |
| ProtocolEndings.TokenIsOwn | src/signalrclient/connection_impl.cpp:91-108 | The connection token is never one of an earlier generation, and is there whenever a request or a URL uses it |
| ProtocolDeliveries.KeepDeliveries | src/signalrclient/connection_impl.cpp:187-209 | Every step, whosever frames arrive, keeps the fourth invariant |
| ProtocolDeliveries.ProcessedInOrder | src/signalrclient/connection_impl.cpp:187-209 | While it is not stopped, exactly the frames the transport of the current generation handed on were processed for it, in order and each once, and each loop handed on a prefix of what its socket was sent |
| ProtocolDeliveries.OnlyInitReleases | src/signalrclient/connection_impl.cpp:326-334 | A start connects only after its transport handed on an object without "I", with an array "M", a textual "C" and the number 1 in "S"; such a frame of the current generation releases its start |
| StartFailures.FailureEndsStart | src/signalrclient/connection_impl.cpp:212-287 | When the dial of a waiting start is refused, its loop is lost or its timer fires, the start waits no longer and no run connects it; after a stop the timer lets it run into its cancellation instead |
| StartFailures.StopEndsStart | src/signalrclient/connection_impl.cpp:104-125 | A start that is stopped before its request is sent is connected by no run |
| ProtocolUrls.KeepUrls | src/signalrclient/connection_impl.cpp:187-209 | Every step, whosever frames arrive, keeps the second invariant: the cursor is the fold of all frames processed since `start`, each of the current generation or of an earlier start that failed, and every pending URL is the fold of those before it was built |
| StrayFrames.AttemptUsesLatest | src/signalrclient/connection_impl.cpp:596-602 | The URL of an attempt, first or repeated, holds the token of its generation, the last accepted "C" and the last textual "G" of all frames processed from `start` to the building of the URL, and its generation has handed on no frame since |
| StrayFrames.OwnUrlIff | src/signalrclient/connection_impl.cpp:596-597 | These are the latest ones of its own generation if and only if no frame of an earlier start that failed on its own overrode them before the URL was built |
| StrayFrames.WrongUrlHappens | src/signalrclient/connection_impl.cpp:189-209 | A run from a new connection in which a reconnect resumes from a message of the failed start before it |
| StrayFrames.StoppedFramesIgnored | src/signalrclient/connection_impl.cpp:189-202 | Once a generation is stopped, no run processes another frame of it |
| StrayFrames.IgnoredIffStopped | src/signalrclient/connection_impl.cpp:148-202 | A late frame of an earlier generation changes nothing the connection keeps if its token is cancelled; otherwise its start has failed and it is processed like an own one |
| ProtocolTheorems.SettlesTruly | src/signalrclient/connection_impl.cpp:131-168 | `start` succeeds only into a connection connected with its own transport, and fails only from connecting into a disconnected one without a transport, in which it then sets the event |
| ProtocolTheorems.SettlesOnce | src/signalrclient/connection_impl.cpp:94-170 | A settled start task never changes again, however the run goes on |
| ProtocolTheorems.TimerReleaseNeverConnects | src/signalrclient/connection_impl.cpp:242-258 | A connect request released by the timer after a cancellation never leads to connected |
| ProtocolTheorems.ChainMovesBounded | src/signalrclient/connection_impl.cpp:94-170 | In every run, whatever fails in it, a chain makes at most nine moves, and it is settled exactly when its rank is used up |
| ProtocolTheorems.ChainSetsEvent | src/signalrclient/connection_impl.cpp:104-168 | An unsettled chain can always run to its end and set the event, in a bounded number of steps that never need the lock |
| ProtocolTheorems.AttemptMovesOn | src/signalrclient/connection_impl.cpp:602-655 | Every own step of a reconnect attempt other than a repetition needs no lock, and sets the event or comes closer to setting it, whatever its outcome; where giving up leads is `ProtocolEndings.GivingUpDisconnects` |
| ProtocolTheorems.AttemptSetsEvent | src/signalrclient/connection_impl.cpp:602-655 | An attempt can always run to its end and set the event without the lock, whatever it is waiting for |
| ProtocolTheorems.EventCanBeSet | src/signalrclient/connection_impl.cpp:472-480 | From every reachable world of a started connection at most nine steps without the lock set the event, so no wait at 475 or 524 can deadlock |
| ProtocolTheorems.WaitersAwaitAGeneration | src/signalrclient/connection_impl.cpp:518-528 | Whoever holds the lock across steps is a pending `stop` or `reconnect` of a connection that was started, and waits at 475 or 524 unless the event is set |
| ProtocolTheorems.HolderReleases | src/signalrclient/connection_impl.cpp:483-491 | Once the event is set, the holder releases the lock by its own next steps |
| ProtocolTheorems.DestructorCompletes | src/signalrclient/connection_impl.cpp:46-74 | When nobody owns the connection, its destructor finds the lock free, an admissible state and a transport that is not inside `connect` |
| ProtocolTheorems.DestructorMustSignal | src/signalrclient/connection_impl.cpp:50-58 | If the event is then unset, only a reconnect that cannot get hold of the connection would set it, so the destructor must |
| LateSteps.StartHarmlessIffSettled | src/signalrclient/connection_impl.cpp:163-166 | A `start` in the disconnected state is harmless if and only if the task of the start before it is settled; otherwise a `stop` can meet a connecting connection |
| LateSteps.EarlyStartHappens | src/signalrclient/connection_impl.cpp:163-166 | A concrete run in which a `start` comes between the exchange of the state and the setting of the event |
| LateSteps.ResumeHarmlessIff | src/signalrclient/connection_impl.cpp:421-426 | The continuation of a `stop` that found the connection disconnected is harmless if and only if nobody is disconnecting then; otherwise a run dereferences a null transport |
| LateSteps.LateStopHappens | src/signalrclient/connection_impl.cpp:455-460 | A concrete run in which it resumes while a later `stop` is disconnecting |
| StaleReconnect.HarmlessIffOwnGeneration | src/signalrclient/connection_impl.cpp:512-540 | A call of `reconnect` that takes a connected connection away is harmless if and only if its origin is the current generation; otherwise a run ends in "already connected" and a wedged connection |
| StaleReconnect.StaleCallHappens | src/signalrclient/connection_impl.cpp:212-236 | A concrete run from a new connection reaches a stale call that ruins it |
| StaleReconnect.WedgedForGood | src/signalrclient/connection_impl.cpp:472-480 | A wedged connection stays so in every run, and a `stop` that waits in it never wakes |
| StaleReconnect.ThrowsOnLiveLoop | src/signalrclient/connection_impl.cpp:658-672 | An attempt that finds a live loop throws and leaves the connection wedged |
| StaleReconnect.ThrowsOnDeadLoop | src/signalrclient/connection_impl.cpp:512-656 | A stale call that finds a dead loop replaces it, and then the rightful call throws and wedges the connection |
| Transport.OneLiveLoop | src/signalrclient/websocket_transport.cpp:44-97 | In every run of a transport at most one receive loop has an uncancelled token |
| Transport.HandsFramesInOrder | src/signalrclient/websocket_transport.cpp:144-174 | What a loop handed on is a prefix of what its socket was sent, each frame once; the error callback fires at most once |
| Transport.NothingAfterEnded | src/signalrclient/websocket_transport.cpp:190-232 | After the error callback a loop hands nothing on and fires nothing, in any continuation of the run |
| Transport.SilentOnceCancelled | src/signalrclient/websocket_transport.cpp:105-120 | A loop cancelled while a receive is pending fires neither callback again |
| Transport.NoReceiveOnceCancelled | src/signalrclient/websocket_transport.cpp:166-173 | A loop cancelled while it handles a frame calls `receive()` no more |
| Transport.DisconnectStopsAll | src/signalrclient/websocket_transport.cpp:105-139 | After `disconnect` every loop is cancelled, and none receives another frame or a failure of its socket (a loop that is past its receive may still hand on or report); the client that is closed is the one the live loop receives from |
| Frames.FoldIsLatest | src/signalrclient/connection_impl.cpp:297-335 | Folding the frames gives exactly the last accepted "C" and the last textual "G" |
| ConnectionImpl.ConnectionImpl.constructor | src/signalrclient/connection_impl.cpp:38-44 | A new object is in the initial state of the protocol |
| ConnectionImpl.ConnectionImpl.ChangeState | src/signalrclient/connection_impl.cpp:815-824 | Changes the state if and only if it is the expected one, and says so |
| ConnectionImpl.ConnectionImpl.ExchangeState | src/signalrclient/connection_impl.cpp:826-835 | Changes the state unconditionally and returns the old one |
| ConnectionImpl.ConnectionImpl.BeginStart | src/signalrclient/connection_impl.cpp:79-92 | Admitted only when disconnected; a fresh token source, event reset and cleared cursors, earlier generations stay cancelled as they were |
| ConnectionImpl.ConnectionImpl.CompleteStart | src/signalrclient/connection_impl.cpp:136-145 | The completion of a start, telling whether the state was the expected one |
| ConnectionImpl.ConnectionImpl.FailStart | src/signalrclient/connection_impl.cpp:163-165 | Null transport, disconnected, event set: the two steps of the protocol together |
| ConnectionImpl.ConnectionImpl.EnterShutdown | src/signalrclient/connection_impl.cpp:453-473 | The three outcomes of `shutdown` under the lock; cancels exactly the current generation |
| ConnectionImpl.ConnectionImpl.CommitShutdown | src/signalrclient/connection_impl.cpp:483-491 | Goes to disconnecting unless the connection is disconnected, and releases the lock |
| ConnectionImpl.ConnectionImpl.FinishStop | src/signalrclient/connection_impl.cpp:421-426 | Nulls the transport only out of disconnecting |
| ConnectionImpl.ConnectionImpl.ClaimReconnect | src/signalrclient/connection_impl.cpp:531-540 | Takes a connected connection to reconnecting and copies the token under the lock |
| ConnectionImpl.ConnectionImpl.ResumeReconnect | src/signalrclient/connection_impl.cpp:562-594 | Goes on only with a token that is not cancelled in the reconnecting state, resetting the event only then |
| ConnectionImpl.ConnectionImpl.CompleteReconnect | src/signalrclient/connection_impl.cpp:617-628 | The completion of a reconnect, telling whether the state was the expected one |
| ConnectionImpl.ConnectionImpl.ProcessResponse | src/signalrclient/connection_impl.cpp:297-341 | One frame has the effect of the fold's step; releases the connect request exactly for an object without "I", with an array "M", a textual "C" and the number 1 in "S" |
| ConnectionImpl.ConnectionImpl.ProcessResponses | src/signalrclient/connection_impl.cpp:292-350 | The frames of one generation leave exactly the latest cursor |
| ConnectionImpl.ConnectionImpl.Destroy | src/signalrclient/connection_impl.cpp:46-74 | In a world nobody owns it ends disconnected, having cancelled the generation and used its transport, without waiting |
| WebsocketTransport.WebsocketTransport.constructor | src/signalrclient/websocket_transport.cpp:19-27 | The token starts cancelled |
| WebsocketTransport.WebsocketTransport.BeginConnect | src/signalrclient/websocket_transport.cpp:44-91 | Throws if and only if the current loop token is live; otherwise starts a loop with a fresh token and client |
| WebsocketTransport.WebsocketTransport.EndConnect | src/signalrclient/websocket_transport.cpp:93-96 | Stores the token of the new loop, whatever its dial did meanwhile |
| WebsocketTransport.WebsocketTransport.Disconnect | src/signalrclient/websocket_transport.cpp:105-139 | Cancels the live loop, if any; none is live afterwards |
| WebsocketTransport.WebsocketTransport.OnDialled | src/signalrclient/websocket_transport.cpp:73-91 | Enters the loop, or cancels its token and fails the connect task |
| WebsocketTransport.WebsocketTransport.ReceiveLoop | src/signalrclient/websocket_transport.cpp:144-157 | The loop receives from the client current at its entry |
| WebsocketTransport.WebsocketTransport.OnReceived | src/signalrclient/websocket_transport.cpp:162-174 | Hands on the next frame of the socket and goes on only if not cancelled |
| WebsocketTransport.WebsocketTransport.OnFailed | src/signalrclient/websocket_transport.cpp:190-232 | Cancels the token and fires the error callback once |
| ReconnectWindow.AttemptsBounded | src/signalrclient/connection_impl.cpp:658-727 | For a positive delay d and a window w at most 1 + w / d connect attempts are made; the recursion ends because each repetition uses up window |
| ReconnectWindow.BoundIsReached | src/signalrclient/connection_impl.cpp:696-727 | A server that stays down is dialled exactly that often |
| ReconnectWindow.ResultIsLastAttempt | src/signalrclient/connection_impl.cpp:676-690 | The result is that of the last attempt, and every attempt before it failed and was repeated |
| ReconnectWindow.BoundedIff | src/signalrclient/connection_impl.cpp:799-803 | For a delay and a window that are not negative some bound on the repetitions exists if and only if the delay is not zero |
| ReconnectAttempts.ConnectsBounded | src/signalrclient/connection_impl.cpp:658-727 | In every run of the protocol whose repetitions pass the tests of `try_reconnect` with a positive delay d and a window w, one reconnect connects at most 1 + w / d times, however its steps interleave with others |
| CallbackIds.DecimalIsInjective | src/signalrclient/callback_manager.cpp:84-90 | Printing an id loses nothing, negative ids included |
| CallbackIds.IdsRepeat | src/signalrclient/callback_manager.h:29 | Two registrations get the same id if and only if their numbers differ by a multiple of 2^32 |
| CallbackIds.ConsecutiveIdsDistinct | src/signalrclient/callback_manager.cpp:84-90 | Any 2^32 consecutive ids are pairwise distinct |
| CallbackManager.CallbackManager.GetCallbackId | src/signalrclient/callback_manager.cpp:84-90 | The n-th call returns the decimal form of the wrapped counter |
| CallbackManager.CallbackManager.RegisterCallback | src/signalrclient/callback_manager.cpp:21-32 | Registers under the next id unless an older callback holds it |
| CallbackManager.CallbackManager.InvokeCallback | src/signalrclient/callback_manager.cpp:36-59 | Calls exactly the registered callback once and keeps or drops it as asked; tells whether there was one |
| CallbackManager.CallbackManager.RemoveCallback | src/signalrclient/callback_manager.cpp:61-68 | Drops exactly that id |
| CallbackManager.CallbackManager.Clear | src/signalrclient/callback_manager.cpp:70-82 | Every registered callback is called exactly once, and none stays registered |
| CallbackManager.CallbackManager.Destroy | src/signalrclient/callback_manager.cpp:15-18 | The same with the arguments given at construction |
| HubMessages.UnregistersOnlyCompleted | src/signalrclient/hub_connection_impl.cpp:163-181 | A message that unregisters its callback always completes the invocation, and so does every clear, whatever its reason; only progress without "R" does not |
| HubMessages.ReactSays | src/signalrclient/hub_connection_impl.cpp:306-347 | What each combination of "R", "P", "E", "H" and "D" makes of an invocation |
| HubMessages.RouteGoes | src/signalrclient/hub_connection_impl.cpp:126-171 | Which field names the invocation ("I", or that of "P"), the proxy ("H") and the event ("M"), and when a message is malformed or discarded |
| HubInvocations.Keep | src/signalrclient/hub_connection_impl.cpp:126-248 | Every concurrent step without an id clash keeps every uncompleted invocation in somebody's hands |
| HubInvocations.Conserved | src/signalrclient/hub_connection_impl.cpp:183-248 | An uncompleted invocation is always about to be registered, registered, or being called back, in every run without a clash and so in every run of at most 2^32 invocations |
| HubInvocations.BoundedIsClashless | src/signalrclient/callback_manager.cpp:21-32 | A run of at most 2^32 invocations meets no clash |
| HubInvocations.InsertKeepsIffNoClash | src/signalrclient/callback_manager.cpp:28 | An insertion registers its invocation if and only if no older callback holds the id, and then only one registered a multiple of 2^32 earlier can |
| HubInvocations.ClashHappens | src/signalrclient/callback_manager.cpp:84-90 | A run in which the first invocation stays pending for 2^32 registrations and the next one is not registered |
| HubInvocations.NoneLeftWhenDestroyed | src/signalrclient/callback_manager.cpp:15-18 | Once the manager is destroyed every invocation ever made is complete |
| HubInvocations.FirstCompletionIsFinal | src/signalrclient/hub_connection_impl.cpp:188-197 | The first completion (result, error, send failure, clear) is never replaced, whatever follows |
| HubInvocations.ProgressCompletesNothing | src/signalrclient/hub_connection_impl.cpp:314-324 | A progress message without "R" completes and unregisters nothing, neither on receipt nor when its callback runs, whatever other threads do between; then the "D" of its "P", or null, is reported |
| HubInvocations.MessageIsAnswered | src/signalrclient/hub_connection_impl.cpp:306-347 | When the callback of a received message runs, after whatever other threads did, an incomplete invocation completes with "R"; without it with the hub error of "E" and "D" if "H" is true, with the error of "E", or with null; progress is reported instead |
| HubInvocations.CompletionHasCause | src/signalrclient/hub_connection_impl.cpp:188-246 | Every completion has a step in the run that says just that: its failed request, a message that names its id, or a clear, with its reason, that found it registered |
| HubInvocations.ClearFailsRegistered | src/signalrclient/callback_manager.cpp:70-82 | A clear fails exactly the registered invocations that were not complete, with its reason, and none stays registered |
| HubInvocations.FailedSendIsForgotten | src/signalrclient/hub_connection_impl.cpp:238-246 | An invocation whose request failed is complete and no longer registered |
| HubInvocations.ReplyCompletes | src/signalrclient/hub_connection_impl.cpp:306-347 | Any other message with a registered id unregisters it, and once its callback has run, whatever happened between, its invocation is complete: with what the fields of the message say unless it was complete before |
| HubConnection.AllInvocations | src/signalrclient/callback_manager.cpp:70-82 | In whatever order `clear` calls, the invocations called are all that were registered |
| HubConnection.ErrorsAll | src/signalrclient/hub_connection_impl.cpp:326-344 | Running the callbacks of a clear one by one fails exactly the invocations that were not complete, independent of their order |
| HubConnection.HubConnection.Register | src/signalrclient/hub_connection_impl.cpp:190-192 | The n-th invocation is registered under the n-th id, unless an older callback holds it |
| HubConnection.HubConnection.SendFailed | src/signalrclient/hub_connection_impl.cpp:238-246 | Completes the invocation unless it is complete, and unregisters it |
| HubConnection.HubConnection.InvokeCallback | src/signalrclient/hub_connection_impl.cpp:163-181 | Runs the callback of the invocation the message names, which completes with what the fields say or reports progress; stays registered only for progress |
| HubConnection.HubConnection.ProcessMessage | src/signalrclient/hub_connection_impl.cpp:126-161 | Routes a message by its fields to an invocation, to the proxy that "H" names in whatever case with the event "M", or to nobody; everything else is unchanged |
| HubConnection.HubConnection.ClearWith | src/signalrclient/callback_manager.cpp:70-82 | Every pending invocation fails with the reason and none stays registered |
| HubConnection.HubConnection.Stop | src/signalrclient/hub_connection_impl.cpp:120-124 | The same on `stop` |
| HubConnection.HubConnection.Reconnecting | src/signalrclient/hub_connection_impl.cpp:270-286 | The same when the connection is lost, if the object is alive |
| CaseInsensitive.Equals | src/signalrclient/case_insensitive_comparison_utils.h:17-33 | The loop says equal if and only if the upper-cased names are equal |
| CaseInsensitive.Hash | src/signalrclient/case_insensitive_comparison_utils.h:38-48 | The hash is a function of the upper-cased name, under wrapping 64-bit arithmetic |
| CaseInsensitive.FunctorsAgree | src/signalrclient/case_insensitive_comparison_utils.h:15-49 | Equality is an equivalence, and equal names have equal hashes |
| CaseInsensitive.Inserted | src/signalrclient/hub_connection_impl.cpp:91 | A bucket table with one more entry means the map with one more upper-cased key |
| CaseInsensitive.NameMap.Search | src/signalrclient/hub_connection_impl.cpp:143 | Looking through one bucket finds an entry of the name in some case, or nothing exactly if there is none |
| CaseInsensitive.NameMap.Find | src/signalrclient/hub_connection_impl.cpp:143 | Looking through the bucket of the hash finds exactly what a map keyed by upper-cased names holds |
| CaseInsensitive.NameMap.Insert | src/signalrclient/hub_connection_impl.cpp:91 | Inserts into that map unless the name is there in some case |
| CaseInsensitive.Proxies.CreateHubProxy | src/signalrclient/hub_connection_impl.cpp:71-93 | The error cases, and one distinct proxy for each upper-cased name |
| CaseInsensitive.Proxies.SameProxyIffSameUpper | src/signalrclient/hub_connection_impl.cpp:83-92 | Two names get the same proxy if and only if they differ at most in case |
| JQueryCallbacks.Keep | samples/SignalRServer/Scripts/jquery-1.10.2.js:3054-3178 | `add`, `remove`, `disable`, `lock` and nested fires from within handlers keep the bookkeeping of a firing |
| JQueryCallbacks.LoopStaysInList | samples/SignalRServer/Scripts/jquery-1.10.2.js:3061-3066 | In every run the firing index stays in the list and the loop can always go on or end |
| JQueryCallbacks.EveryEntryOnce | samples/SignalRServer/Scripts/jquery-1.10.2.js:3083-3133 | At any moment of a round every entry due in it was called, is pending or was removed before its turn, never two of these; calls are in list order, none twice |
| JQueryCallbacks.RoundIsComplete | samples/SignalRServer/Scripts/jquery-1.10.2.js:3054-3079 | A round that exhausts the list has called exactly the entries not removed before their turn |
| JQueryCallbacks.FiresInOrder | samples/SignalRServer/Scripts/jquery-1.10.2.js:3167-3178 | On a repeatable list the rounds are begun in the order of the fires, and all have been when nothing fires |
| JQueryCallbacks.EmptySkips | samples/SignalRServer/Scripts/jquery-1.10.2.js:3140-3144 | Of the entries added after an `empty` in a handler the round calls exactly those behind the turns taken so far, so all of them if and only if none was added or no entry that had its turn was left in the list |
| JQueryCallbacks.EmptyHappens | samples/SignalRServer/Scripts/jquery-1.10.2.js:3140-3144 | A concrete run in which a handler empties the list and adds two handlers, of which the first is not called |
| JQueryCallbackLaws.PushAdds | samples/SignalRServer/Scripts/jquery-1.10.2.js:3087-3099 | After `add` the list has what it had and what was added; a unique one has each handler once |
| JQueryCallbackLaws.PushAll | samples/SignalRServer/Scripts/jquery-1.10.2.js:3087-3099 | Without `unique` every handler is added, in order, however often it is there |
| JQueryCallbackLaws.UniqueHoldsOnce | samples/SignalRServer/Scripts/jquery-1.10.2.js:3091-3093 | In no run does a unique list hold a handler twice |
| JQueryCallbackLaws.OnceFiresOnce | samples/SignalRServer/Scripts/jquery-1.10.2.js:3167-3178 | A once list takes at most one fire, and begins it at once |
| JQueryCallbackLaws.EveryFireIsTaken | samples/SignalRServer/Scripts/jquery-1.10.2.js:3167-3178 | A repeatable list takes every fire until it is locked or disabled |
| JQueryCallbackLaws.HandlersGetLastFire | samples/SignalRServer/Scripts/jquery-1.10.2.js:3054-3060 | Handlers get the data of the fire that began their round, and a memory list that was fired remembers the last one |
| JQueryCallbackLaws.LateHandlersAreCalled | samples/SignalRServer/Scripts/jquery-1.10.2.js:3101-3109 | Handlers added to an idle list that remembers a fire are called at once with its data, they and no others; without memory nothing is called |
| JQueryCallbackLaws.FalseEndsRound | samples/SignalRServer/Scripts/jquery-1.10.2.js:3061-3066 | With `stopOnFalse` a handler that returns false ends the round: nothing is called, not even what is added, until another fire begins |
| JQueryCallbackLaws.FalseIsIgnored | samples/SignalRServer/Scripts/jquery-1.10.2.js:3061-3066 | Without it the round goes on |
| JQueryCallbackLaws.DisabledForGood | samples/SignalRServer/Scripts/jquery-1.10.2.js:3146-3149 | A disabled list calls nothing and takes neither fires nor handlers |
| JQueryCallbackLaws.LockedTakesNoFire | samples/SignalRServer/Scripts/jquery-1.10.2.js:3155-3161 | A locked list takes no other fire and drops the queued ones; it keeps its handlers exactly if it remembers a fire |
| JQueryCallbacks.WithoutKeeps | samples/SignalRServer/Scripts/jquery-1.10.2.js:3114-3133 | Removing keeps exactly the entries of other functions, in order |
| JQueryCallbacks.Spliced | samples/SignalRServer/Scripts/jquery-1.10.2.js:3118-3129 | One splice at the next occurrence keeps what the loop has achieved and where the turn is |
| JQueryCallbacks.Callbacks.AddAll | samples/SignalRServer/Scripts/jquery-1.10.2.js:3083-3112 | `add` on the closure variables does the step of the machine and keeps its invariant |
| JQueryCallbacks.Callbacks.InArray | samples/SignalRServer/Scripts/jquery-1.10.2.js:3118 | The first position of the function from there on, or -1 if there is none |
| JQueryCallbacks.Callbacks.SpliceAll | samples/SignalRServer/Scripts/jquery-1.10.2.js:3118-3129 | The splicing loop removes all occurrences and leaves the index just behind what remains of the entries that had their turn |
| JQueryCallbacks.Callbacks.RemoveAll | samples/SignalRServer/Scripts/jquery-1.10.2.js:3114-3133 | `remove` does the step of the machine and keeps its invariant |
| JQueryCallbacks.Callbacks.FireAll | samples/SignalRServer/Scripts/jquery-1.10.2.js:3167-3178 | So does `fireWith` |
| JQueryCallbacks.Callbacks.NextHandler | samples/SignalRServer/Scripts/jquery-1.10.2.js:3061-3062 | The loop calls the entry at the index |
| JQueryCallbacks.Callbacks.HandlerReturned | samples/SignalRServer/Scripts/jquery-1.10.2.js:3062-3066 | Going on after a handler, or ending the round when it returned false |
| JQueryCallbacks.Callbacks.FinishFire | samples/SignalRServer/Scripts/jquery-1.10.2.js:3067-3078 | The end of a round with its queued fires, its memory or its disabling |
| JQueryDeferred.FirstSettleDecides | samples/SignalRServer/Scripts/jquery-1.10.2.js:3194-3279 | When nothing fires, the first `resolveWith` or `rejectWith` has decided: the state left pending once, every handler of that side ran exactly once, in order, with its arguments, whenever it was added, and none of the other side ran |
| JQueryDeferred.NeverTwoOutcomes | samples/SignalRServer/Scripts/jquery-1.10.2.js:3251-3259 | The same for every moment of every run, for the handlers called so far |
| JQueryDeferred.SettledBeforeHandlers | samples/SignalRServer/Scripts/jquery-1.10.2.js:3253-3258 | All outside code after a settling finds the state set, the other list disabled and further settling and notifying without effect |
| JQueryDeferred.NotifiesInOrder | samples/SignalRServer/Scripts/jquery-1.10.2.js:3199 | Before a settling no notification is lost: their rounds are begun in order, and all of them have been when none is being fired |
| JQueryDeferred.Keep | samples/SignalRServer/Scripts/jquery-1.10.2.js:3244-3267 | Every step of the three lists keeps the invariant of the deferred |
| JQueryDeferredObject.DeferredObject.constructor | samples/SignalRServer/Scripts/jquery-1.10.2.js:3194-3267 | The three lists, with the own handlers added first |
| JQueryDeferredObject.DeferredObject.SettleWith | samples/SignalRServer/Scripts/jquery-1.10.2.js:3266 | Settling on the closure variables does the step of the machine and keeps its invariant |
| JQueryDeferredObject.DeferredObject.AddHandlers | samples/SignalRServer/Scripts/jquery-1.10.2.js:3249 | So does adding handlers |
| JQueryDeferredObject.DeferredObject.CallHandler | samples/SignalRServer/Scripts/jquery-1.10.2.js:3253-3258 | So does a call of the next handler; an own one sets the state, disables the other list or locks the progress list |
| JQueryWhen.ResolvesExactlyWhenAllDid | samples/SignalRServer/Scripts/jquery-1.10.2.js:3282-3331 | For any mix of plain, settled and pending inputs, at rest the master resolved if and only if every promise did, and rejected if and only if one did |
| JQueryWhen.NeverEarly | samples/SignalRServer/Scripts/jquery-1.10.2.js:3294-3304 | At any moment a resolved master has every input's value in its position (a plain one itself, of a promise its single argument, undefined for none, an array of several), and it is rejected as soon as a fail handler ran, with the arguments of the first one |
| JQueryWhen.NoticesInPosition | samples/SignalRServer/Scripts/jquery-1.10.2.js:3295-3300 | The master is notified once for each progress, with what the last progress of each input said in its position |
| JQueryWhen.Keep | samples/SignalRServer/Scripts/jquery-1.10.2.js:3294-3323 | Every handler and loop step keeps `remaining` equal to the number of inputs not dealt with |
| JQueryWhen.WhenCall.Call | samples/SignalRServer/Scripts/jquery-1.10.2.js:3283-3330 | After the call every handler of an already settled promise has run and the closure satisfies the invariant |
| JQueryWhen.WhenCall.Subscribe | samples/SignalRServer/Scripts/jquery-1.10.2.js:3313-3322 | The loop subscribes to every promise and counts every plain value |
| JQueryWhen.WhenCall.RunHandler | samples/SignalRServer/Scripts/jquery-1.10.2.js:3294-3317 | A handler does the step of the machine and keeps its invariant |
| TransportFallback.TriedInOrder | samples/SignalRServer/Scripts/jquery.signalR-2.2.0.js:553-640 | For transports that do not throw and any order of events the transports are tried in order, each at most once, and "no transport" comes only after all of them failed |
| TransportFallback.OneStartRequest | samples/SignalRServer/Scripts/jquery.signalR-2.2.0.js:1095-1116 | At most one start request is issued in any run, even if transports throw |
| TransportFallback.NoFallbackAfterRequest | samples/SignalRServer/Scripts/jquery.signalR-2.2.0.js:1118-1150 | After the start request no further transport is started, and none that does not throw falls back |
| TransportFallback.NeverHangs | samples/SignalRServer/Scripts/jquery.signalR-2.2.0.js:1052-1087 | A start that is still connecting has a start request under way, or a live last attempt whose timeout is set |
| TransportFallback.FailureFallsBack | samples/SignalRServer/Scripts/jquery.signalR-2.2.0.js:1129-1133 | A failure before the start request starts the next transport, or stops the connection if there is none; a timeout does the same |
| TransportFallback.ConnectingIsUnfailed | samples/SignalRServer/Scripts/jquery.signalR-2.2.0.js:1118-1150 | For transports that do not throw, a connecting start stands on a transport that has not failed, before its start request and while it is in flight |
| TransportFallback.FailureDuringStart | samples/SignalRServer/Scripts/jquery.signalR-2.2.0.js:1134-1145 | A transport that fails while the start request is in flight stops the connection: no continuation connects |
| TransportFallback.FailedRequest | samples/SignalRServer/Scripts/jquery.signalR-2.2.0.js:1421-1455 | So does a start request that fails |
| TransportFallback.DisconnectedForGood | samples/SignalRServer/Scripts/jquery.signalR-2.2.0.js:899-935 | A stopped connection stays disconnected and starts no other transport, whatever is reported |
| TransportFallback.SilentOnceStopped | samples/SignalRServer/Scripts/jquery.signalR-2.2.0.js:1089-1093 | Once the handler is stopped nothing falls back, no start request is issued and "no transport" is not reported |
| TransportFallback.CanConnect | samples/SignalRServer/Scripts/jquery.signalR-2.2.0.js:1095-1116 | A connecting start connects if its last attempt reports init, unless it has, and the start request succeeds |
| TransportFallback.ConnectedBySuccess | samples/SignalRServer/Scripts/jquery.signalR-2.2.0.js:588-634 | A connected connection had exactly one start request, which succeeded, and a later failure of a transport does not undo it |
| TransportFallback.InOrderIff | samples/SignalRServer/Scripts/jquery.signalR-2.2.0.js:587-639 | With throwing transports the order holds if and only if no step falls back from an attempt that is not the last one while another transport can be started |
| TransportFallback.ThrowRepeats | samples/SignalRServer/Scripts/jquery.signalR-2.2.0.js:636-639 | A concrete run in which a throwing transport makes the next one start twice |
| InitHandler.InitHandler.constructor | samples/SignalRServer/Scripts/jquery.signalR-2.2.0.js:1043-1049 | A new start is at its first transport |
| InitHandler.InitHandler.Initialize | samples/SignalRServer/Scripts/jquery.signalR-2.2.0.js:553-640 | Exhausted, aborted or starting the transport at the index |
| InitHandler.InitHandler.OnFailed | samples/SignalRServer/Scripts/jquery.signalR-2.2.0.js:1076-1086 | A failure does the step of the machine and keeps its invariant |
| InitHandler.InitHandler.OnTimeout | samples/SignalRServer/Scripts/jquery.signalR-2.2.0.js:1064-1070 | So does a timeout |
| InitHandler.InitHandler.OnInit | samples/SignalRServer/Scripts/jquery.signalR-2.2.0.js:1095-1116 | So does an init, which issues the start request if and only if it is the first and nothing was stopped |
| InitHandler.InitHandler.Stop | samples/SignalRServer/Scripts/jquery.signalR-2.2.0.js:1089-1093 | So does the stop of the handler |

## Left out

* HTTP and WebSocket input and output, `web_request`, `http_sender`, `default_websocket_client` and `request_sender`:
  their results are arbitrary outcomes of steps.
* JSON parsing and URI encoding: a small datatype of frames and messages, and the reconnect URL as the tuple of its
  changing inputs.
* The calls of `message_received` for the messages inside a frame: frames are modelled up to the fields that the
  connection itself keeps.
* Logging, trace levels, client configuration, the facades `connection`, `hub_connection` and `hub_proxy`, `send`,
  `ensure_disconnected`, `adapt_url` and the connection data that the start of a hub connection builds: single branches
  or formatting.
* Reference counting, thread-pool scheduling, spurious wake-ups and the timeouts of 60 seconds that only log.
- ProtocolTheorems.NoFaults: does not cover runs with untimely steps, for which it is false; `StaleReconnect` and `LateSteps` prove exactly when such a step does harm.
- ProtocolTheorems.EventCanBeSet: states that the event can always be set without the lock, and `ChainMovesBounded` and `AttemptMovesOn` that no outcome leads away from it; that a scheduler does run those steps is not modelled.
- ReconnectWindow.BoundedIff: does not cover negative delays and windows, because their conversion belongs to the `utility::datetime` library, which is not part of this model.
- ReconnectAttempts.ConnectsBounded: the protocol has no clock; the hypothesis `Timed` ties the repetitions of a run to the clock readings of `ReconnectWindow`.
- StrayFrames.AttemptUsesLatest: the query string, the connection data and the base URL, which do not change while a connection lives, are not part of the URL tuple.
- Transport.HandsFramesInOrder: two `receive()` calls of one socket are taken to deliver frames in the order they were sent.
- HubInvocations.NoneLeftWhenDestroyed: relies on whoever invokes or handles a message keeping the object alive meanwhile.
- HubConnection.HubConnection.ProcessMessage: is about one thread; the interleavings are those of `HubInvocations`.
- CaseInsensitive.Hash: `size_t` is taken to have 64 bits; `std::toupper` and `std::hash` are arbitrary functions.
- JQueryDeferred.FirstSettleDecides: `then`, which builds chains of deferreds, is not modelled, and a promise does not give access to `remove` or `empty`.
- JQueryCallbacks.EveryEntryOnce: is about rounds of `add`, `remove`, `disable` and `lock`; what `empty` does instead is `EmptySkips`.
- JQueryWhen.ResolvesExactlyWhenAllDid: a call with a single promise returns that promise and is excluded by `Single`; the contexts of the handlers are not modelled.
- TransportFallback.TriedInOrder: assumes one `start`; a user who restarts the connection inside a state handler of `stop` is not modelled, and neither is when the promise of the start settles.
* The rest of jQuery, the other JavaScript transports, the samples and the test hosts.
