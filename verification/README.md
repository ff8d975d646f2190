# DecentEthereum: the publish/subscribe delivery protocol

This project models how events of an Ethereum chain reach subscribers through the DecentEthereum
enclave, and proves what a subscriber can rely on in every interleaving of the threads involved. The
path is: the host's pusher asks Geth for the block at its cursor and pushes the header into the enclave;
the blockchain manager records the block's number and dispatches the block's logs to the event manager's
listeners; the subscriber service's own listeners learn of event managers and keep a backlog of their
notifications; a subscriber listens, gets the backlog in a first response, and then gets its queue with
every heartbeat.

`dafny verify dfyconfig.toml` checks everything.

## How the model is laid out

Values and functions say what each step does; classes are tied to them.

| file | content |
|---|---|
| `Eth.dfy` | bytes, addresses, topics, logs, history entries, queue items |
| `Abi.dfy` | address words and the registration decoder |
| `Service.dfy` | the subscriber service as a value, its handlers, and the service as a fold over logs |
| `ServiceHistory.dfy` | what the fold means, read off the history alone |
| `Sessions.dfy` | one subscriber: listener, queue, messages, and the streams it should get |
| `Pusher.dfy` | cursor, push attempt and ticking task, with their classes |
| `System.dfy` | all threads as one transition system; a run is a sequence of enabled actions |
| `ServiceSafety.dfy`, `Conservation.dfy`, `Numbers.dfy`, `Handover.dfy` | the four parts of the invariant |
| `Runs.dfy` | the invariant holds in every reachable state |
| `Guarantees.dfy` | the theorems about reachable states |
| `Origins.dfy` | which logs everything received comes from |
| `Messages.dfy` | what a session is sent, read when, and what follows a failure |
| `Blocks.dfy` | a block contributes its logs, in order, to the history |
| `Loss.dfy` | exactly which logs a session can lose |
| `Progress.dfy` | the pushing thread is never stuck, and a log's dispatch is bounded |
| `Isolation.dfy` | a run is, for the others, a run without a given subscriber, if others hear what it throws on |
| `IsolationLimits.dfy` | and only then |
| `Counterexamples.dfy` | runs in which the code does less than expected |
| `Scenarios.dfy` | a failed heartbeat and a registration, step by step |
| `PubsubService.dfy`, `BlockchainManager.dfy`, `SubscriberHandler.dfy`, `ReceiptSubscriber.dfy` | the classes and methods of the enclave |

`System.State` holds the service, the last validated number, the block being processed, the sessions, the
dispatched logs (`history`), and the pusher. `missed[i]` is the set of sessions whose callback is owed for
log `i`; it empties while the log is dispatched and stays non-empty only when a callback threw. The steps
are as fine as the code's critical sections: a registration callback is three steps (map, queue, listener)
with other threads in between; a subscription is lookup, listen, two reads in either order, send; a
heartbeat is drain, read number, send, or fail and cancel. The monitor mutex is modelled by letting the
number be read only while no block is being processed.

`Stream` is what a session's callback appended for the logs of the history, `Ideal` what it would append if
none was missed, `Received` the sent batches, the batch in flight and the queue together. `CutsOff` says
that somebody's callback throws on a log: the log is malformed, and a listener of the service or a pub/sub
session hears it. The fields `looked`, `within`, `baseLen`, `numberLast` and `mark` of sessions and messages
only record what happened; no step depends on them. `Replay` is an event manager's notifications, each
repeated once per registration of it before; `Once` has each once.

## Assumptions about code that is not part of this model

- The event manager is a table of listeners with fresh ids (`CallService(k)` names a service listener by
  its position, `CallSession(s)` a subscription by its session). For each log of a block in turn it calls
  the listeners that were live when the log's turn came and whose address equals the log's and whose topics
  are a positional prefix of the log's topics. The order of the listeners of one log is left open.
- A `Listen` by a subscription and a `Cancel` by a heartbeat wait for the log being dispatched, not for the
  block. Both take effect from the next log on. A `Listen` by a callback takes effect with the next log of
  the same block or with the next block; `Config.seesRest` is the choice, and lemmas that depend on it say so.
- The parser of notification data is an arbitrary function `Config.decodeMsg`, None where it throws. An
  exception in a callback ends the processing of the block; its number stays set.
- The monitor calls the validation callback once per accepted header, within the call. Nothing is assumed
  about the order of numbers: `ordered` and `strict` record whether they never fell and always rose, and
  `HonestOrder` derives both from the pusher. A header that is fetched twice, because its processing threw,
  may be accepted twice.
- The copy of a backlog is atomic. The code takes it under the store's mutex, which is not the mutex that
  the appender holds (SubscriberService.hpp lines 191-196 and 246).
- A failed emitter is not called again.
- The hashes of the three event signatures differ (`Config.Valid`).

## Findings

- The number in the first response can be older than events in the same response, because the order in
  which the arguments at SubscriberHandler.hpp lines 211-217 are evaluated is open:
  `FirstResponseCanBeStale`. `FirstResponse` gives the exact condition, `NumberAfterSnapshot` the order
  that meets it.
- An event manager that is registered twice has its notifications in the backlog twice: `BacklogCanRepeat`.
  `BacklogExact` gives the exact condition for the backlog, `LiveAgainstBacklog` and
  `HandoverRebuildsBacklog` that for the hand-over. Nothing is lost by it (`NothingLost`).
- An event can be live and never be in the backlog, if new listeners wait for the next block and the
  subscriber listens within the block that registers its event manager: `LiveCanBeUnrecorded`. Such a hand-over
  fails the same exact condition.
- A log on which somebody's callback throws cuts off every callback still owed for it and all later logs of
  its block. A receipt session can lose such a log, and is never given it later: `ReceiptCanBeLost` is a run,
  `CanLose` the exact condition, `LostForever` the permanence. A pub/sub session lacks nothing it wants from
  the dispatched logs (`DeliveryComplete`).
- The host does not compare the header that Geth returns with the block that was asked for, so any header that
  the enclave accepts can be pushed in its place: `AnyHeaderCanBePushed`. `SequenceExact` gives the exact
  condition. The monitor's own validation of the header is not modelled and may reject it (`Reject`).
- A subscriber's callback can end the processing of a block for everybody: `FailureCanSpread` is a run, for an
  event manager whose new listeners wait for the next block. `IsolatedExactly` gives the exact condition for
  failure isolation, `SeesRestShares` shows that with the other choice it always holds.

## Model

| member | source | states |
|---|---|---|
| Abi.PadInjective | include/DecentEthereum/Trusted/Pubsub/SubscriberService.hpp:441-455 | two addresses have the same 32-byte word only if they are equal |
| Abi.DeployTopicIdentifiesContract | include/DecentEthereum/Trusted/Pubsub/SubscriberService.hpp:420-427 | the deploy filter of a contract selects a deploy log exactly when it was emitted by and names that contract |
| Abi.RegistrationRoundTrip | include/DecentEthereum/Trusted/Pubsub/SubscriberService.hpp:297-320 | the data begins with the ABI encoding of two addresses exactly when the decoder returns them and the padding is zero; what follows is ignored |
| Abi.AddressToAbiAddress | include/DecentEthereum/Trusted/Pubsub/SubscriberService.hpp:441-455 | the array filled by the two loops is the padded address |
| Service.FoldShape | include/DecentEthereum/Trusted/Pubsub/SubscriberService.hpp:264-439 | for every history: before deployment the service owns just the deploy listener and nothing is stored; afterwards that listener is cancelled, one registration listener is live, every other is a past listener, and map values, backlog keys and past listeners fit together |
| Service.DueByKind | include/DecentEthereum/Trusted/Pubsub/SubscriberService.hpp:264-439 | exactly which service callbacks a log causes |
| ServiceHistory.DeployedMeaning | include/DecentEthereum/Trusted/Pubsub/SubscriberService.hpp:384-412 | deployed exactly when the history has a deploy log; registrations are heard exactly from there on |
| ServiceHistory.StepMeaning | include/DecentEthereum/Trusted/Pubsub/SubscriberService.hpp:290-344 | a log changes map, queues and past listeners exactly when it is a registration after deployment |
| ServiceHistory.PastListenersCount | include/DecentEthereum/Trusted/Pubsub/SubscriberService.hpp:336-344 | an event manager has one past listener per registration naming it |
| ServiceHistory.LookupMeaning | include/DecentEthereum/Trusted/Pubsub/SubscriberService.hpp:163-174 | the lookup returns the event manager of the publisher's last registration |
| ServiceHistory.BacklogMeaning | include/DecentEthereum/Trusted/Pubsub/SubscriberService.hpp:204-262 | the backlog is the manager's notifications in order, each once per registration before it; registrations before deployment and notifications before registration have no effect |
| ServiceHistory.BacklogOnce | include/DecentEthereum/Trusted/Pubsub/SubscriberService.hpp:328-344 | the backlog has each event once exactly when no notification came after two registrations of its manager, and never has less |
| ServiceHistory.FreshEventManagers | include/DecentEthereum/Trusted/Pubsub/SubscriberService.hpp:328-344 | each event is stored once when a manager is registered at most once |
| ServiceHistory.BacklogGrows | include/DecentEthereum/Trusted/Pubsub/SubscriberService.hpp:328-334 | later logs, registering again included, never discard a backlog entry or a queue, nor the deployed flag |
| Sessions.StreamSource | include/DecentEthereum/Trusted/Pubsub/SubscriberHandler.hpp:31-67 | whatever is in a stream comes from a wanted log |
| Sessions.StreamDeliver | include/DecentEthereum/Trusted/Pubsub/SubscriberHandler.hpp:52-61 | a callback run for one session adds its items to that session's stream only |
| Sessions.HeartbeatConserves | include/DecentEthereum/Trusted/Pubsub/SubscriberHandler.hpp:126-158 | drain, number read, send, failure and cancel move items along without loss, repetition or reordering |
| Pusher.BlockReceiver.RecvBlock | include/DecentEthereum/Untrusted/BlockReceiver.hpp:32-32 | the receiver's contract: it finishes or throws |
| Pusher.HostBlockService.SetUpdSvcStartBlock | include/DecentEthereum/Untrusted/HostBlockService.hpp:61-64 | sets the cursor and nothing else |
| Pusher.HostBlockService.BindReceiver | include/DecentEthereum/Untrusted/HostBlockService.hpp:83-86 | replaces the receiver and nothing else |
| Pusher.HostBlockService.PushBlock | include/DecentEthereum/Untrusted/HostBlockService.hpp:88-102 | throws without a receiver or when the receiver throws; otherwise the receiver has the header |
| Pusher.HostBlockService.TryPushNewBlock | include/DecentEthereum/Untrusted/HostBlockService.hpp:111-140 | there is nothing to push unless Geth reached the cursor and served a header; then the attempt throws exactly without a receiver or with a throwing one; the cursor moves, by one modulo 2^64, exactly when a block went through, and every other outcome changes nothing |
| Pusher.BlockUpdatorServiceTask.Tick | include/DecentEthereum/Untrusted/HostBlockServiceTasks.hpp:48-81 | a tick throws exactly without an updator, or when a header was served and there is no receiver or it throws; cursor and interval stay then; a push ends the delay, nothing to push begins it, and an interval that is on is kept |
| Pusher.CatchUp | include/DecentEthereum/Untrusted/HostBlockServiceTasks.hpp:48-81 | at a steady height the next height + 1 - cursor ticks push the missing blocks in order without delay, and from then on ticks only wait |
| Pusher.CatchUpEnds | include/DecentEthereum/Untrusted/HostBlockService.hpp:124-139 | there is a tick that pushes nothing exactly when the height is below 2^64 - 1 |
| ServiceSafety.AppendMore | include/DecentEthereum/Trusted/Pubsub/SubscriberService.hpp:245-253 | one more callback for a log stores one more copy of its event |
| ServiceSafety.PartialMalformed | include/DecentEthereum/Trusted/Pubsub/SubscriberService.hpp:210-222 | a malformed log changes nothing of the service in whatever order its callbacks run |
| ServiceSafety.ServiceCallback | include/DecentEthereum/Trusted/Pubsub/SubscriberService.hpp:264-439 | running any owed callback keeps the service at the fold plus the callbacks run so far |
| ServiceSafety.ServiceRegStep | include/DecentEthereum/Trusted/Pubsub/SubscriberService.hpp:322-344 | so does each single step of a registration callback |
| ServiceSafety.ServiceThrow | include/DecentEthereum/Trusted/Pubsub/SubscriberService.hpp:297-312 | a service callback throws only on malformed data, and the service is then still the fold |
| Conservation.ConservationClient | include/DecentEthereum/Trusted/Pubsub/SubscriberHandler.hpp:162-231 | every step of a subscription or heartbeat keeps received equal to the stream since the Listen |
| Conservation.ConservationDispatch | include/DecentEthereum/Trusted/Pubsub/SubscriberHandler.hpp:86-99 | so does every step of a log's dispatch, and only a malformed log leaves callbacks owed |
| Numbers.PushHost | include/DecentEthereum/Untrusted/HostBlockService.hpp:111-140 | every step of the pushing thread keeps the cursor at start plus the number of pushes and, with an honest Geth, the pushed headers consecutive and the numbers in order |
| Numbers.NumbersDispatch | include/DecentEthereum/Trusted/BlockchainMgr.hpp:116-138 | dispatch keeps every message's number, mark and order facts |
| Handover.OriginLookup | include/DecentEthereum/Trusted/Pubsub/SubscriberHandler.hpp:184-194 | a lookup at any step, also within a registration, yields the manager of the publisher's last registration; only while a log is dispatched may that log be disregarded |
| Handover.BacklogIsLive | include/DecentEthereum/Trusted/Pubsub/SubscriberHandler.hpp:196-217 | the backlog grows by the live stream exactly when each notification since the Listen came after one registration: for every history with nothing live but unrecorded, and, where registrations are visible from the next block on, for every history whose block numbers rise |
| Handover.LookupRegistered | include/DecentEthereum/Trusted/Pubsub/SubscriberHandler.hpp:184-208 | a manager that can be looked up has been registered, so a past listener sees what the subscriber sees |
| Runs.InvReachable | include/DecentEthereum/Trusted/BlockchainMgr.hpp:116-174 | the whole invariant holds after every run |
| Guarantees.ServiceRefinesFold | include/DecentEthereum/Trusted/Pubsub/SubscriberService.hpp:153-412 | between logs, in every interleaving, deployed flag, map, backlogs and listener table are what the history says |
| Guarantees.BacklogExact | include/DecentEthereum/Trusted/Pubsub/SubscriberService.hpp:225-253 | in every interleaving a backlog has each event once exactly when no notification came after two registrations |
| Guarantees.PastStoreAlwaysFound | include/DecentEthereum/Trusted/Pubsub/SubscriberService.hpp:231-244 | the branch for a missing past event store is never taken |
| Guarantees.ServiceOnlyGrows | include/DecentEthereum/Trusted/Pubsub/SubscriberService.hpp:328-334 | no single step resets the deployed flag, removes a queue, or drops or reorders a backlog entry |
| Guarantees.MapNeverAhead | include/DecentEthereum/Trusted/Pubsub/SubscriberService.hpp:322-334 | at every step a mapped event manager has a queue, except that of a registration between its first two steps |
| Guarantees.DeliveryConserved | include/DecentEthereum/Trusted/Pubsub/SubscriberHandler.hpp:134-157 | sent, in flight and queued together are the matching logs since the Listen, in order and once each, less the log under way and logs on which somebody's callback threw |
| Guarantees.DeliveryComplete | include/DecentEthereum/Trusted/ReceiptSubscriber.hpp:37-145 | between logs, and at every step once cancelled, a pub/sub session has received all it wants whatever was malformed, and a receipt session every matching log unless somebody's callback threw on one |
| Guarantees.FailureLosesLastBatch | include/DecentEthereum/Trusted/Pubsub/SubscriberHandler.hpp:153-157 | at every step after a failed heartbeat, sent batches, last drained batch and queue are every matching log from Listen to Cancel, so the latter two are all that was not sent; for receipts if none of those logs was cut off |
| Guarantees.CancelledIsFinal | include/DecentEthereum/Trusted/ReceiptSubscriber.hpp:140-144 | no action changes a cancelled session any more |
| Guarantees.HonestOrder | include/DecentEthereum/Untrusted/HostBlockService.hpp:111-140 | in every reachable state the cursor is start plus the number of pushes; with an honest Geth the headers that went through are start, start + 1, ... without gap or repetition, numbers never fall, and they always rise while no processing throws |
| Guarantees.SequenceExact | include/DecentEthereum/Untrusted/HostBlockService.hpp:130-138 | a push keeps the headers consecutive exactly when Geth's header is that of the block at the cursor |
| Guarantees.HeartbeatSound | include/DecentEthereum/Trusted/BlockchainMgr.hpp:158-174 | where block numbers never fall, no heartbeat, pub/sub or receipt, reports a number below the block of something in it |
| Guarantees.OneHeartbeatLag | include/DecentEthereum/Trusted/Pubsub/SubscriberHandler.hpp:134-151 | where block numbers rise, everything a session ever receives of a block up to the number of heartbeat k is, at its own position, in heartbeats up to k + 1 |
| Guarantees.LagOfLog | include/DecentEthereum/Trusted/BlockchainMgr.hpp:158-174 | so is every matching log of a block up to that number, at the position after the matching logs before it; only a log on which somebody's callback threw may be missing |
| Guarantees.FirstResponse | include/DecentEthereum/Trusted/Pubsub/SubscriberHandler.hpp:210-218 | where block numbers rise, the first response's number covers its events exactly when the snapshot holds nothing stored after the number was read |
| Guarantees.NumberAfterSnapshot | include/DecentEthereum/Trusted/Pubsub/SubscriberHandler.hpp:211-217 | where block numbers never fall, a first response whose number was read after its snapshot never reports a number below one of its events |
| Guarantees.EndToEndOrder | include/DecentEthereum/Trusted/Pubsub/SubscriberHandler.hpp:52-61 | with an honest Geth block numbers never fall along a backlog or along what one subscriber is sent |
| Guarantees.SnapshotIsPrefix | include/DecentEthereum/Trusted/Pubsub/SubscriberService.hpp:181-198 | the snapshot is a prefix of the backlog no shorter than the backlog at the Listen |
| Guarantees.LiveIsRecorded | include/DecentEthereum/Trusted/Pubsub/SubscriberHandler.hpp:196-208 | where new listeners see the rest of their block, no event is live without a past listener to store it |
| Guarantees.LiveAgainstBacklog | include/DecentEthereum/Trusted/Pubsub/SubscriberHandler.hpp:196-228 | between logs, if block numbers rise or nothing is live but unrecorded, live delivery is the backlog since the Listen exactly when each notification since came after a single registration |
| Guarantees.HandoverRebuildsBacklog | include/DecentEthereum/Trusted/Pubsub/SubscriberHandler.hpp:196-228 | under the same hypotheses, snapshot plus live stream less the overlap that the lemma names is the whole backlog exactly when each notification since the Listen came after a single registration |
| Guarantees.SubscriberKnowsAll | include/DecentEthereum/Trusted/Pubsub/SubscriberHandler.hpp:134-228 | where block numbers rise and each notification since the Listen came after a single registration, at every step each backlog entry of a block up to the number in heartbeat k is in the first response at its own position, or in heartbeats up to k + 1 at its position less the backlog's length at the Listen |
| Guarantees.NothingLost | include/DecentEthereum/Trusted/Pubsub/SubscriberHandler.hpp:196-228 | where block numbers rise, however often a manager is registered: each of its notifications of a block up to heartbeat k's number is, if recorded before the Listen, in the first response at its backlog position, and if dispatched since, in heartbeats up to k + 1 at its live position |
| Guarantees.FreshManagerHandsOver | include/DecentEthereum/Trusted/Pubsub/SubscriberHandler.hpp:196-228 | where new listeners see the rest of their block, the condition of the hand-over holds for every manager registered at most once |
| Guarantees.HandoverWithinOneLog | include/DecentEthereum/Trusted/Pubsub/SubscriberHandler.hpp:196-228 | under the condition of the hand-over, while a log is dispatched live stream and backlog differ by nothing or by that log's event at the end of either |
| Origins.Routing | include/DecentEthereum/Trusted/Pubsub/SubscriberHandler.hpp:72-101 | everything a pub/sub session receives is the parsed message, with the block number, of a notify log of the manager that the publisher's last registration named at the lookup, in the logs' order and each once; no well-formed one is left out; only a lookup while a log was dispatched may have disregarded that log |
| Origins.ReceiptOrigins | include/DecentEthereum/Trusted/ReceiptSubscriber.hpp:37-62 | everything a receipt session receives is block number, topics and data of a log of the requested contract and topics, in the logs' order and each once; none is left out unless somebody's callback threw on it |
| Messages.ReceiptListener | include/DecentEthereum/Trusted/ReceiptSubscriber.hpp:71-101 | a receipt subscription is due for exactly the logs of the requested contract whose first topics are the requested ones |
| Messages.EventListener | include/DecentEthereum/Trusted/Pubsub/SubscriberHandler.hpp:72-101 | a pub/sub subscription is due for exactly the notify logs of the manager it looked up |
| Messages.WhoMayBegin | include/DecentEthereum/Trusted/Pubsub/SubscriberHandler.hpp:184-194 | a subscription can begin exactly for a publisher with a non-zero event manager, a receipt subscription whenever no log is being dispatched |
| Messages.WhoWaits | include/DecentEthereum/Trusted/Pubsub/SubscriberHandler.hpp:134-157 | only reading the number waits for the block, only Listen and Cancel for the log; no other step of a session waits |
| Messages.ResponseFirst | include/DecentEthereum/Trusted/Pubsub/SubscriberHandler.hpp:210-228 | no pub/sub session has, or can begin, a heartbeat before its response was sent |
| Messages.ResponseThenHeartbeat | include/DecentEthereum/Trusted/Pubsub/SubscriberHandler.hpp:210-228 | after a response that was sent, the session's own steps send one heartbeat with the queue's contents and the last validated number |
| Messages.NoEmitter | include/DecentEthereum/Trusted/Pubsub/SubscriberHandler.hpp:218-228 | after a response that was not sent the listener stays for ever, the session makes no step, and nothing is ever sent |
| Messages.Heartbeat | include/DecentEthereum/Trusted/Pubsub/SubscriberHandler.hpp:134-151 | between blocks a heartbeat empties the queue into one message with the last validated number and changes nothing else |
| Messages.HeartbeatOrigin | include/DecentEthereum/Trusted/Pubsub/SubscriberHandler.hpp:136-149 | in every run each heartbeat sent holds the whole queue as it was at its drain and the number that was the last validated one at a later step between blocks |
| Messages.ResponseOrigin | include/DecentEthereum/Trusted/Pubsub/SubscriberHandler.hpp:210-217 | in every run each first response holds the whole backlog as it was when copied and the number that was the last validated one when read, between blocks |
| Messages.FailedHeartbeat | include/DecentEthereum/Trusted/Pubsub/SubscriberHandler.hpp:153-157 | a heartbeat that fails and cancels sends nothing and makes the session, and no other, due for no log |
| Messages.AfterCancel | include/DecentEthereum/Trusted/ReceiptSubscriber.hpp:140-144 | in every continuation after the Cancel the session has received what it had, is owed no callback and is due for no log |
| Blocks.WhatMoves | include/DecentEthereum/Untrusted/HostBlockService.hpp:111-140 | cursor and pushed headers change exactly when a block's processing ends normally, the last validated number exactly when one begins |
| Blocks.HostMay | include/DecentEthereum/Trusted/BlockchainMgr.hpp:116-120 | Geth may answer anything, the monitor may reject a header or accept it with any logs, and a block that is through may still end with an exception |
| Blocks.PlannedStep | include/DecentEthereum/Trusted/BlockchainMgr.hpp:171-174 | a step inside a block only moves logs from the front of what is left into the history |
| Blocks.BlockContributes | include/DecentEthereum/Trusted/BlockchainMgr.hpp:158-174 | in every interleaving a block adds a prefix of its logs to the history, and all of them, in order, if its processing ends normally |
| Loss.ThrowExact | include/DecentEthereum/Trusted/Pubsub/SubscriberHandler.hpp:38-50 | while a log is dispatched a throw is possible exactly when it is malformed and the service or a pub/sub session hears it, and its dispatch then ends no other way |
| Loss.CanLose | include/DecentEthereum/Trusted/ReceiptSubscriber.hpp:37-62 | some interleaving costs a receipt session a log exactly when the log is malformed and the service or a pub/sub session hears it |
| Loss.LostIsMissing | include/DecentEthereum/Trusted/ReceiptSubscriber.hpp:116-144 | a session that lost a log has not received every matching log; between logs any other has |
| Loss.LostForever | include/DecentEthereum/Trusted/ReceiptSubscriber.hpp:37-62 | a lost log is never made up for by a later step |
| Progress.NeverStuck | include/DecentEthereum/Trusted/BlockchainMgr.hpp:116-120 | in every reachable state the pushing thread has a step that changes the state |
| Progress.DispatchBounded | include/DecentEthereum/Trusted/BlockchainMgr.hpp:171-174 | however the other threads interleave, the dispatch of a log takes at most one step more than the callbacks and registration steps left |
| Progress.FinishLog | include/DecentEthereum/Trusted/BlockchainMgr.hpp:171-174 | the dispatch of a well-formed log can always be carried to its end |
| Progress.PushBlock | include/DecentEthereum/Untrusted/HostBlockService.hpp:111-140 | from any state between blocks the next header can be pushed through, whatever number it carries and whatever well-formed logs its block holds; it adds exactly these |
| Isolation.PastThrowsToo | include/DecentEthereum/Trusted/Pubsub/SubscriberHandler.hpp:38-50 | where a subscriber's callback throws, a past listener of the service owes the same throw |
| Isolation.ThrowMatched | include/DecentEthereum/Trusted/Pubsub/SubscriberHandler.hpp:38-50 | the others can make the step that a session's throw makes exactly when one of them hears the log as well |
| Isolation.StepWithout | include/DecentEthereum/Trusted/Pubsub/SubscriberHandler.hpp:153-157 | an action of a system with a session is at most one action of the system without it, unless the session throws on a log that nobody else hears |
| Isolation.RunWithout | include/DecentEthereum/Trusted/Pubsub/SubscriberHandler.hpp:153-157 | for every run in which the session throws only on logs that another one hears there is one without the session, on the same blocks, that ends in the same service, history and other sessions |
| IsolationLimits.UnendedCutOff | include/DecentEthereum/Trusted/BlockchainMgr.hpp:171-174 | after every run, each block that was begun and left without an end was cut off by its last dispatched log |
| IsolationLimits.IsolatedExactly | include/DecentEthereum/Trusted/Pubsub/SubscriberHandler.hpp:153-157 | a run has a counterpart without a session, on the same blocks and with the same end for everybody else, if and only if another one hears every log on which the session throws |
| Isolation.SeesRestShares | include/DecentEthereum/Trusted/Pubsub/SubscriberHandler.hpp:184-208 | where new listeners see the rest of their block, every run is such a run |
| Counterexamples.FirstResponseCanBeStale | include/DecentEthereum/Trusted/Pubsub/SubscriberHandler.hpp:211-217 | a run whose first response reports a block before that of its event |
| Counterexamples.AnyHeaderCanBePushed | include/DecentEthereum/Untrusted/HostBlockService.hpp:130-138 | for every header a run in which it is pushed in place of the first block, out of sequence unless it is that block's |
| Counterexamples.ReceiptCanBeLost | include/DecentEthereum/Trusted/ReceiptSubscriber.hpp:37-62 | a run in which a receipt session never gets a log that its filter selects, nor anybody the next log of the block |
| Counterexamples.FailureCanSpread | include/DecentEthereum/Trusted/Pubsub/SubscriberHandler.hpp:38-50 | a run in which a subscriber alone hears a malformed notification and its throw ends the block before the last log, and one without it on the same blocks in which that log is dispatched; the first has no counterpart |
| Counterexamples.LiveCanBeUnrecorded | include/DecentEthereum/Trusted/Pubsub/SubscriberHandler.hpp:196-217 | a run in which a subscriber has an event that is not in the backlog |
| Scenarios.FailedHeartbeatRun | include/DecentEthereum/Trusted/ReceiptSubscriber.hpp:104-145 | a run in which one of two sessions fails and cancels: a later log reaches only the other |
| Scenarios.RegistrationSteps | include/DecentEthereum/Trusted/Pubsub/SubscriberService.hpp:322-344 | a registration first names the manager in the map, then gives it a queue, then listens to it, and each step can be seen |
| Counterexamples.BacklogCanRepeat | include/DecentEthereum/Trusted/Pubsub/SubscriberService.hpp:336-344 | a run in which a notification is in the backlog twice |
| PubsubService.PubsubServiceStore.Start | include/DecentEthereum/Trusted/Pubsub/SubscriberService.hpp:153-161 | installs the deploy listener on the padded contract address |
| PubsubService.PubsubServiceStore.GetEventMgrAddr | include/DecentEthereum/Trusted/Pubsub/SubscriberService.hpp:163-174 | the mapped address, or the zero address |
| PubsubService.PubsubServiceStore.GetPastEvents | include/DecentEthereum/Trusted/Pubsub/SubscriberService.hpp:181-198 | the backlog's contents, or nothing |
| PubsubService.PubsubServiceStore.NotifyPastEventHandler | include/DecentEthereum/Trusted/Pubsub/SubscriberService.hpp:204-262 | appends to the one manager's queue, or throws and changes nothing |
| PubsubService.PubsubServiceStore.EmplaceQueue | include/DecentEthereum/Trusted/Pubsub/SubscriberService.hpp:328-334 | adds an empty queue unless the manager has one |
| PubsubService.PubsubServiceStore.RegEventHandler | include/DecentEthereum/Trusted/Pubsub/SubscriberService.hpp:290-356 | map, queue and listener of a registration; no listener when the event manager has gone; a throw changes nothing |
| PubsubService.PubsubServiceStore.DeployEventHandler | include/DecentEthereum/Trusted/Pubsub/SubscriberService.hpp:384-412 | flag set, own listener cancelled, registration listener installed |
| BlockchainManager.BlockchainMgr.constructor | include/DecentEthereum/Trusted/BlockchainMgr.hpp:71-110 | starts the service: the fold of no logs |
| BlockchainManager.BlockchainMgr.DispatchLog | include/DecentEthereum/Trusted/BlockchainMgr.hpp:171-174 | one log takes the service one step of the fold, and throws exactly when it is malformed and somebody of the service listens |
| BlockchainManager.BlockchainMgr.CheckEvents | include/DecentEthereum/Trusted/BlockchainMgr.hpp:171-174 | dispatches the block's logs one fold step each, up to and including the first that is malformed and has a listener of the service due at its turn; it throws exactly when there is one |
| BlockchainManager.BlockchainMgr.OnHeaderValidated | include/DecentEthereum/Trusted/BlockchainMgr.hpp:158-200 | the number is set even where dispatch throws; it returns exactly if receipts came, no log throws and the plan was refreshed; the logs dispatched are those up to the first that throws |
| BlockchainManager.BlockchainMgr.AppendBlock | include/DecentEthereum/Trusted/BlockchainMgr.hpp:116-120 | a rejected header changes nothing; an accepted one is as above |
| BlockchainManager.BlockchainMgr.GetLastValidatedBlkNum | include/DecentEthereum/Trusted/BlockchainMgr.hpp:134-138 | the last validated number |
| SubscriberHandler.NotifyEventHandler | include/DecentEthereum/Trusted/Pubsub/SubscriberHandler.hpp:31-67 | appends the event to the private queue, or throws and changes nothing |
| SubscriberHandler.EmitterHandler | include/DecentEthereum/Trusted/Pubsub/SubscriberHandler.hpp:126-158 | a heartbeat empties the queue; its contents are sent with the current number, or nothing is sent and this listener and no other is cancelled; the result is that of the session's steps, which listens exactly while its listener is there |
| SubscriberHandler.RespondState | include/DecentEthereum/Trusted/Pubsub/SubscriberHandler.hpp:210-218 | without interference both evaluation orders send the same response |
| SubscriberHandler.SubReq | include/DecentEthereum/Trusted/Pubsub/SubscriberHandler.hpp:161-231 | nothing happens without an event manager; otherwise a listener on it with an empty private queue, the response with number and backlog, and an emitter, the session then waiting for heartbeats, exactly when the response was sent |
| ReceiptSubscriber.SubscribedReceiptHandler | include/DecentEthereum/Trusted/ReceiptSubscriber.hpp:37-68 | appends block number, all topics in order, and data |
| ReceiptSubscriber.ParseTopics | include/DecentEthereum/Trusted/ReceiptSubscriber.hpp:178-193 | succeeds exactly when every topic has 32 bytes, and returns them in order |
| ReceiptSubscriber.ReceiptSubReq | include/DecentEthereum/Trusted/ReceiptSubscriber.hpp:148-220 | listener with the requested filter and emitter exactly for a well-formed request, otherwise no change |
| ReceiptSubscriber.SubscribedReceiptEmitter | include/DecentEthereum/Trusted/ReceiptSubscriber.hpp:104-145 | as the pub/sub heartbeat: queue emptied and sent with the current number, or nothing sent and the listener cancelled |

## Left out

- BlockchainManager.BlockchainMgr.DispatchLog: calls the service's listeners only, in the order of their
  ids; the callbacks of subscriptions, any order, and interleaving are the business of `System`.
- Isolation.RunWithout: asks that whenever the session throws another one hears the log as well;
  `IsolatedExactly` proves that no other run has a counterpart.
- BlockchainManager.BlockchainMgr.GetLastValidatedBlkNum: the mutex that keeps the read outside a block is not
  in the class, which runs alone; in `System` the number can only be read while no block is processed.
- GetMonitorSecState: the security state is opaque library data; only its place before the send, and that
  it may throw there (`Fail`), matter.
- The monitor itself (validation, difficulty, phases, receipts trie) and the bootstrap-plan refresh, of
  which only a possible exception after the last log is kept (`End(false)`).
- A failed fetch of receipts is a block without logs whose processing then throws (`Begin([])`, `End(false)`).
- OnHeaderConfirmed and status logging: they change nothing that delivery depends on.
- Logging, sockets, TLS, RLP and JSON encoding, the enclave boundary, keys and certificates, raw transactions.
- The parsing of request dictionaries: requests arrive as their fields.
- The memory-model question of copying a backlog while it is appended to.
- HostBlockStatusLogTask: display only. PushBlock by number is not used by the pusher.
