# Market data hub: a verified model

A Dafny model of the hub that takes WebSocket subscriptions from downstream consumers, keeps one
upstream Coinbase connection subscribed to what they want, folds the incoming events into
per-topic snapshots and fans them out to bounded per-consumer queues. Check it with
`dafny verify dfyconfig.toml`.

## How it is built

Two layers describe the same system.

* **The mutable services and handlers.** `ConnectionRegistry`, `BoundedQueue`, `PubSubBroker`,
  `SnapshotStore`, `CoinbaseClient` and, above them, `HubRuntime` are classes with loops and frames.
  Each service carries a ghost `model`, the value it stands for, and its `Repr`.
* **The transition system.** `Hub` has a state (registry relation, broker, client with the queue of
  tasks waiting for `_ws_lock`, store, and one program counter per consumer), labelled steps and runs.
  The methods of `HubRuntime` change the state exactly as the step of that name does, and `RunOn`
  takes the task on to its next suspension (`Settle`). `Perform` does both for any step that can
  happen; by `SuspendedIffWhole` sequences of its calls lead exactly to the reachable states in which
  every task is suspended.

| file | subject |
|---|---|
| `Names.dfy`, `MapSum.dfy` | identifiers with Python's string order, `sorted`; sums over maps |
| `Registry.dfy` | subscriptions and reference counts |
| `Snapshot.dfy` | events, rows, folds, the store |
| `Queue.dfy`, `Broker.dfy` | bounded queues with their history, fan-out, conservation |
| `Client.dfy`, `Coinbase.dfy` | `_topics`, the `_ws_lock` queue, the wire; as values and as a class |
| `Backoff.dfy` | reconnect delays |
| `Hub.dfy` | states, steps, runs |
| `HubInvariant.dfy`, `HubData.dfy` | what every step keeps: control plane, data plane |
| `HubRuns.dfy`, `HubRollback.dfy`, `HubQuiesce.dfy` | theorems over runs: demand and the venue, rollback and leaks, waiting |
| `HubEffects.dfy` | what each message of a consumer changes, and what its pump hands on |
| `HubRecovery.dfy` | how the hub gets back upstream |
| `HubHistory.dfy` | bounds, rows and the histories, told by the run alone |
| `HubExamples.dfy` | runs that happen |
| `Runtime.dfy` | the handlers over the services |

## Steps and assumptions

* The locks of registry and broker and the client's `_lock` are never held across a suspension, so
  they never make a task wait. Between network reads and writes, a handler or the reconnect loop
  suspends only while others hold or wait for `_ws_lock` and inside `ws.send`.
* A step takes a task to its next suspension or to its next request for `_ws_lock`. Acquiring an
  `asyncio.Lock` that is free and that nobody waits for does not suspend: then `running` is set, and
  the only step that can follow is the turn of that task. So a cleanup with nobody before it and no
  open socket goes through all its topics with no other step in between.
* `ws.send` on an open socket may suspend. One that was begun fails only if the socket is no longer
  open at its end.
* `asyncio.Lock` serves its waiters in order, as its documentation says.
* Messages of one consumer and its cleanup run one after another. The time the cleanup waits for the
  cancelled pump is a stretch in which that consumer does nothing.
* A pump ends with an exception only inside `websocket.send_json`. A pump that is cancelled there,
  or while it waits, ends as cancelled.
* A connecting consumer has an identifier that neither a running task nor the registry has
  (app/main.py:121 draws a UUID).
* A failed connect still waits for the lock to set `_ws` to None, and is a step of its own.
* `failed`, `exposed`, `abandoned` and `since` are history: steps write them and never read them.

## Where the code does less than its documentation says

* The cleanup does not run for every end of a connection, as docs/SYSTEM_ARCHITECTURE.md:357 says. If
  the pump's `websocket.send_json` has raised (app/main.py:131), awaiting the pump raises again
  (app/main.py:170-171) and line 172 is not reached. `NothingLeaksIff` shows that this is exactly when
  something is left behind, `AbandonedHolds` that it is left for ever, `FailedPumpLeaks` gives a run.
* A rolled-back first subscribe stays in `_topics` (docs/TOPICS.md:160 says local demand stays
  consistent with upstream). `RollbackConsistentIff` gives the exact case, `RollbackLeavesTopic` a run.
* A subscribe whose turn comes while there is no open socket is acknowledged, not refused as the same
  paragraph says: `RefusedIffSendRaises`.
* The loop of `_cleanup_ws_consumer` reads the counts once and then may suspend between topics, so it
  can discard a topic somebody has subscribed meanwhile. `DisconnectExposes` says which topics that
  can befall, `LostIffListed` exactly when a wanted topic can be lost, `StaleCleanupTakesWantedTopic`
  gives a run on an open socket, and `LostWhileWanted` and `LostTopicIsSilent` say what follows:
  nothing repairs it until nobody wants the topic any more.

## Model

| member | source | states |
|---|---|---|
| Names.TextLeByPosition | app/registry/connection_registry.py:132-139 | the order of `sorted`: a prefix comes first, otherwise the smaller character at the first difference |
| Registry.CountPositive | app/registry/connection_registry.py:154-164 | a reference count key exists, and is positive, exactly when some consumer holds the topic |
| Registry.CountsRemove | app/registry/connection_registry.py:158-164 | taking out a held pair is one decrement; the decrement always finds a key of at least one and drops it at zero |
| Registry.PairsCountedTwice | app/registry/connection_registry.py:145-150 | the sum of the reference counts equals the sum of the consumers' topic-set sizes |
| Registry.StatusFindsTopics | app/main.py:305-310 | looking a consumer up in the listed rows finds exactly its sorted topics, and nothing for an unknown one |
| Registry.RowsListAll | app/registry/connection_registry.py:132-142 | the rows are one per registered consumer, in the order of the identifiers, each with exactly its topics in order |
| Registry.StatusTotals | app/registry/connection_registry.py:143-151 | the active topics a status lists are the held ones, each once and in order, and its pair total counts the held pairs |
| Registry.ConnectionRegistry.RegisterConsumer | app/registry/connection_registry.py:43-62 | refuses exactly a registered id; otherwise adds a consumer without topics and keeps the counts right |
| Registry.ConnectionRegistry.UnregisterConsumer | app/registry/connection_registry.py:64-80 | removes the consumer and all its pairs; the decrement loop leaves the counts of the remaining relation |
| Registry.ConnectionRegistry.Subscribe | app/registry/connection_registry.py:82-102 | refuses exactly an unknown consumer; otherwise adds the pair, idempotently, with the counts right |
| Registry.ConnectionRegistry.Unsubscribe | app/registry/connection_registry.py:104-121 | removes the pair, idempotently, with the counts right |
| Registry.ConnectionRegistry.GetStatus | app/registry/connection_registry.py:123-152 | consumers, counts, pair total and sorted rows describe the one relation; the active topics are the wanted ones, sorted and without duplicates |
| Snapshot.LastSomeIsLast | app/cache/snapshot_store.py:67-72 | the last non-null value of a field is the value at the last position that has one |
| Snapshot.RowIsHistory | app/cache/snapshot_store.py:61-80 | a row is its history: last non-null price, bid and ask, and the maximum receive time |
| Snapshot.FoldConcat | app/cache/snapshot_store.py:61-80 | folding a concatenated history is a right-biased merge of the two folds |
| Snapshot.InterleavingIrrelevant | app/cache/snapshot_store.py:50-80 | histories with the same events per topic give the same store |
| Snapshot.StoreOnlyAdvances | app/cache/snapshot_store.py:55-59 | rows are never removed and their update time never goes back |
| Snapshot.SameInstant | app/cache/snapshot_store.py:74-76 | an instant has one UTC value however it is written, and later instants have later ones |
| Snapshot.ReadTellsHistory | app/cache/snapshot_store.py:105-136 | of the events applied for a topic, a read tells the last known trade, bid and ask, the mid between them if both are known, the latest receive time, and stale exactly if every event is older than the threshold; without events it is None |
| Snapshot.SnapshotStore.ApplyEvent | app/cache/snapshot_store.py:50-80 | in-place merge of one event: the row of its topic changes as the fold does, no other row changes, and the rows stay the fold of the history |
| Snapshot.SnapshotStore.GetSnapshot | app/cache/snapshot_store.py:82-93 | None exactly if no event of the topic was applied; otherwise what the read tells of those events at the time of reading |
| Snapshot.SnapshotStore.ListSnapshots | app/cache/snapshot_store.py:95-103 | one snapshot for each topic with events, in topic order, each telling what a read of it tells |
| Snapshot.SnapshotsForCoversStore | app/cache/snapshot_store.py:95-103 | the listing has one snapshot per key, in the order of the keys |
| Queue.TakeMoves | app/pubsub/broker.py:110-112 | a read or a drop takes the oldest item; with a bound, fewer than that many newer items are behind it |
| Queue.PutMoves | app/pubsub/broker.py:110-121 | a put drops the oldest item exactly when the bound is reached, and never touches what was read |
| Queue.LossyStream | app/pubsub/broker.py:97-134 | for any mix of puts and reads the queue is the last items put, reads are an in-order subsequence, every put is read, dropped or queued, the bound holds |
| Broker.PublishIsolated | app/pubsub/broker.py:81-91 | a publish is exactly one put on every current subscriber's queue and nothing on any other |
| Broker.FanOutOrderFree | app/pubsub/broker.py:87-91 | delivering in any order of the subscribers gives the same queues |
| Broker.PublishAccounts | app/pubsub/broker.py:110-121 | the put and drop counters stay in agreement with the queues' histories through a fan-out |
| Broker.Conservation | app/pubsub/broker.py:63-134 | puts counted = items read + dropped + still queued + discarded with removed queues |
| Broker.PubSubBroker.constructor | app/pubsub/broker.py:37-44 | an empty broker with the configured bound |
| Broker.RemoveKeeps | app/pubsub/broker.py:63-79 | removal detaches the consumer from every topic, nobody else from any, and leaves no empty bucket |
| Broker.PubSubBroker.SubscribeConsumer | app/pubsub/broker.py:46-51 | attaches the pair; a queue object that exists is never replaced |
| Broker.PubSubBroker.UnsubscribeConsumer | app/pubsub/broker.py:53-61 | detaches the pair; an emptied bucket is deleted, the queue stays |
| Broker.PubSubBroker.RemoveConsumer | app/pubsub/broker.py:63-79 | the loop over the buckets takes the consumer out of all of them and drops its queue |
| Broker.PubSubBroker.Publish | app/pubsub/broker.py:81-91 | for any iteration order, the queues, the counters and nothing else change as one fan-out; with the configured bound, as `HubHistory.QueueAfter` says of each queue |
| Broker.PubSubBroker.EnqueueDropOldest | app/pubsub/broker.py:97-134 | drop-oldest put; the retry after a full queue is never needed, whatever the maximum size |
| Client.TopicChangeKeeps | app/ingestion/coinbase_client.py:115-125 | changing `_topics` and queueing the frame in one step keeps the agreement with the wire |
| Client.AttachKeeps | app/ingestion/coinbase_client.py:134-136 | setting `_ws` and queueing the resync leaves no topic out and none over, whatever is queued before it |
| Client.RetireKeeps | app/ingestion/coinbase_client.py:215-223 | a frame sent on the open socket, or one without effect on a missing or closed one, keeps the agreement |
| Client.BeforeResyncSubset | app/ingestion/coinbase_client.py:147-156 | between the connect and the resync what is queued subscribes only a subset of `_topics` |
| Coinbase.CoinbaseClient.SubscribeTopic | app/ingestion/coinbase_client.py:115-119 | the mutable client takes the step of `Client.SubscribeTopic`; with the lock free it goes on at once |
| Coinbase.CoinbaseClient.UnsubscribeTopic | app/ingestion/coinbase_client.py:121-125 | the mutable client takes the step of `Client.UnsubscribeTopic`; with the lock free it goes on at once |
| Coinbase.CoinbaseClient.SetWsTurn | app/ingestion/coinbase_client.py:134-156 | the socket is set and the sorted topics are queued, or the socket is cleared and closed |
| Coinbase.CoinbaseClient.SendBegins | app/ingestion/coinbase_client.py:215-221 | a send suspends exactly when there is an open socket; otherwise nothing happens |
| Backoff.DelaysBackOff | app/ingestion/coinbase_client.py:140-184 | every delay lies between 0.8 of the first one and the cap; a connect resets the raw delay, each failure doubles it up to the cap, eight times at most; below the cap delays strictly increase for every jitter |
| Backoff.DelaysScale | app/ingestion/coinbase_client.py:177-179 | every delay is the raw delay times the random factor drawn for it, up to the cap |
| Backoff.AttemptCounts | app/ingestion/coinbase_client.py:154-176 | the attempt counter is the number of failures since the last connect |
| Backoff.RunLoop | app/ingestion/coinbase_client.py:140-184 | the loop's attempt counter yields exactly those delays |
| HubInvariant.ReachableHolds | app/main.py:138-172 | the control-plane invariant holds in every reachable state |
| HubInvariant.SubscribeKeeps | app/main.py:206-229 | the subscribe handler keeps the whole control-plane invariant |
| HubInvariant.UnsubscribeKeeps | app/main.py:279-289 | the unsubscribe handler keeps the whole control-plane invariant |
| HubInvariant.DisconnectKeeps | app/main.py:168-172 | the end of a connection, with its cleanup up to the first request for the lock or without any, keeps the whole control-plane invariant |
| HubInvariant.LockTurnKeeps | app/ingestion/coinbase_client.py:215-223 | every turn of the lock, with every outcome of a send, keeps the whole control-plane invariant |
| HubInvariant.SuspendedIffWhole | app/ingestion/coinbase_client.py:215-223 | the reachable states in which every task is suspended are exactly those reached by steps each taken on to its suspension, so that a task that finds the lock free is never interrupted |
| HubRuns.WireAgreement | app/ingestion/coinbase_client.py:153-156 | in every reachable state: with the resync queued on an open socket, the queued frames turn the subscribed set into `_topics`; before it, into a subset; with nothing queued the sets are equal |
| HubRuns.WireFollowsDemand | app/ingestion/coinbase_client.py:80-81 | with nothing queued on an open, resynced socket the venue serves every wanted topic not exposed to a stale cleanup, and nothing but wanted topics and rolled-back leftovers |
| HubRuns.ServedWhileWanted | app/main.py:285-289 | over any run, a topic in `_topics` that no suspended cleanup lists stays there as long as it is wanted |
| HubRuns.LostWhileWanted | app/main.py:225-229 | over any run, a wanted topic that has left `_topics` stays out as long as it is wanted |
| HubRuns.DisconnectExposes | app/main.py:312-319 | where a disconnect has come to its suspension, its cleanup lists exactly: nothing, if nobody waits for the lock and there is no open socket; otherwise the topics the consumer was the last to hold, except the first of them in order |
| HubRuns.LostIffListed | app/main.py:315-319 | a wanted topic in `_topics` can be lost while still wanted if and only if a suspended cleanup lists it |
| HubExamples.StaleCleanupTakesWantedTopic | app/main.py:315-319 | for any two consumers and two topics in order, such a state is reached from the start, on an open and resynced socket with the cleanup inside `ws.send` |
| HubEffects.ConnectStartsEmpty | app/main.py:121-136 | a new consumer starts with no topic, no place in a bucket, no queue and no pump, and nothing else changes |
| HubEffects.SubscribeGainsPair | app/main.py:209-223 | registry and broker gain the pair and nothing else; no queue changes, a first one is empty |
| HubEffects.SubscribeGoesUpstream | app/main.py:225-248 | exactly the first subscriber of a topic adds it to `_topics` and queues its frame; any other is acknowledged at once with `queue_ready` set |
| HubEffects.UnsubscribeLosesPair | app/main.py:282-283 | registry and broker lose the pair and nothing else; no queue changes |
| HubEffects.UnsubscribeGoesUpstream | app/main.py:285-289 | exactly the last holder of a topic takes it out of `_topics` and queues its frame |
| HubEffects.UnheldIsUnheard | app/pubsub/broker.py:81-91 | over any run without its subscribe of a topic, a consumer that does not hold it does not come to, and nothing of it is put on its queue |
| HubEffects.UnsubscribeStopsStream | app/main.py:279-289 | over any run after an unsubscribe, until the consumer subscribes the topic again, nothing of it is put on its queue |
| HubEffects.DisconnectForgets | app/main.py:312-313 | registry and broker forget the consumer that leaves and nobody else |
| HubEffects.AcknowledgedIsReady | app/main.py:248 | in every reachable state whoever holds a topic, other than by a first subscribe still on its way, has a queue and a pump, or one that can start |
| HubEffects.DeliversAll | app/main.py:129-132 | in any state between steps a pump that has not failed can hand on everything queued, in order, touching no other queue |
| HubEffects.EventCanReach | app/main.py:124-132 | an event of a topic in `_topics` can be handed next to any acknowledged subscriber whose pump has not failed |
| HubRollback.RollbackIsExact | app/main.py:206-246 | over any run of other tasks in between, a refused first subscribe takes out the pair it added and nothing else, in registry, broker and queues |
| HubRollback.RollbackConsistentIff | app/main.py:230-233 | after a rollback `_topics` agrees with demand on the topic if and only if just before it the topic was in `_topics` exactly when somebody else held it; a topic in `_topics` stays there as a leftover |
| HubExamples.RollbackLeavesTopic | app/ingestion/coinbase_client.py:117-119 | such a leftover is reached from the start |
| HubRollback.RefusedIffSendRaises | app/ingestion/coinbase_client.py:215-223 | a first subscribe is refused exactly when its begun send raises; without an open socket it is acknowledged and nothing is sent |
| HubRollback.RegistryAndBrokerAgree | app/main.py:210-223 | in every reachable state registry and broker hold the same pairs, holders have queues, queues belong to registered consumers |
| HubRollback.HandlersAndPumpsFindTheirs | app/main.py:124-132 | no handler meets an unknown consumer, no pump finds its queue missing, the queue a pump took is the broker's, and only a pump that took one delivers or fails |
| HubRollback.NothingUnaccounted | app/pubsub/broker.py:97-134 | conservation in every reachable state |
| HubRollback.DemandIsServed | app/main.py:225-229 | in every reachable state a wanted topic is in `_topics`, unless its first subscribe met a cleanup that listed it |
| HubRollback.WhyUpstream | app/main.py:287-289 | in every reachable state a topic in `_topics` is wanted, about to be discarded by a cleanup, or left by a rolled-back first subscribe |
| HubHistory.ExposedIffMet | app/main.py:225-229 | a topic counts as exposed exactly if its last first subscribe in the run met an unfinished cleanup that listed it |
| HubHistory.FailedIffLeft | app/main.py:230-233 | a topic counts as a leftover exactly if a first subscribe of it was refused in the run and it has been in `_topics` ever since |
| HubRollback.NothingLeaksIff | app/main.py:168-172 | once every task has ended, whoever is left in registry and broker are exactly the consumers that disconnected after their pump had failed; registry, counts, buckets and queues are empty if and only if there was none; `_topics` has nothing beyond what is held but rolled-back first subscribes |
| HubRollback.AbandonedHolds | app/main.py:168-172 | over any run, a consumer whose task ended without its cleanup stays registered with all its topics, which so stay wanted |
| HubExamples.FailedPumpLeaks | app/main.py:124-132 | such a leak is reached from the start: with every task ended a consumer is still registered, counted and subscribed, and its topic is served upstream |
| HubQuiesce.CanAlwaysComeToRest | app/main.py:168-172 | from every reachable state some run ends every task |
| HubQuiesce.TurnComes | app/ingestion/coinbase_client.py:215-223 | over any run, whatever else happens in it, a handler or the reconnect loop waiting behind `i` others has had its turn once the lock has turned `2 * (i + 1)` times |
| HubQuiesce.TurnsRunOut | app/ingestion/coinbase_client.py:134-136 | over any run in which nobody asks for the lock anew, with any outcome of the sends, it turns at most `Potential` times; while anybody waits it can turn, and when nobody does every handler has returned and every cleanup has ended |
| HubRecovery.SocketIsGivenUp | app/ingestion/coinbase_client.py:158-171 | the receive loop may end, or a connect fail; in any run after that, once the lock has made two turns for everybody waiting and two more, `_ws` has been None and the loop without a connection |
| HubRecovery.ResyncEnds | app/ingestion/coinbase_client.py:156-169 | after its resync the loop receives, or leaves exactly if the send raised |
| HubRecovery.RecoveryIsPossible | app/ingestion/coinbase_client.py:143-169 | from every reachable state some run without consumer steps, in which nobody loses a subscription, leads to an open, resynced socket with nothing waiting, where the venue has exactly `_topics` and every wanted topic that was not exposed |
| HubData.SnapshotPlusDeltas | app/ingestion/coinbase_client.py:248-260 | for a consumer whose queue dropped nothing since its subscribe, the events read or queued since then, applied to the row as of the subscribe, give the current row |
| HubEffects.DeltasSinceSubscribe | app/main.py:206-258 | over any run from a subscribe on in which the consumer holds the topic throughout, the events it has read or still has queued since, if none was dropped, applied to the row as of the subscribe give the row at the end |
| HubData.StreamNeverAhead | app/ingestion/coinbase_client.py:253-260 | whatever is queued or was ever delivered, to consumers still connected or gone, has a row at least as recent |
| HubData.OnlyWantedIsPut | app/ingestion/coinbase_client.py:248-251 | an event enters a queue only if its topic is in `_topics` and the consumer holds it, exactly once |
| HubData.RowsOnlyAdvance | app/cache/snapshot_store.py:55-59 | over any run rows are never removed and update times never decrease |
| HubHistory.StoreIsHistory | app/ingestion/coinbase_client.py:242-258 | the snapshot store is the fold of the events of the run whose topic was in `_topics` when they arrived |
| HubData.QueueNeverReplaced | app/pubsub/broker.py:46-61 | over any run without its own disconnect, a consumer keeps one and the same queue |
| HubHistory.QueuesAreBounded | app/pubsub/broker.py:38-50 | after any run every queue there ever was has the configured bound and keeps to it |
| HubHistory.QueueAfter | app/pubsub/broker.py:81-134 | a step puts an event on a queue exactly if it is a dispatch of a topic in `_topics` its consumer holds, dropping the oldest item exactly at the configured bound; a read takes the oldest; no other step touches it |
| HubData.LostTopicIsSilent | app/ingestion/coinbase_client.py:248-251 | over any run in which a wanted topic that has left `_topics` stays wanted, its row does not change and nothing of it is put on any queue, old or new |
| Runtime.HubRuntime.HandleSubscribe | app/main.py:206-229 | the handler's reads and calls, up to where it suspends or ends, have exactly the effect of the subscribe step |
| Runtime.HubRuntime.HandleUnsubscribe | app/main.py:279-289 | the handler's reads and calls, up to where it suspends or ends, have exactly the effect of the unsubscribe step |
| Runtime.HubRuntime.HandleDisconnect | app/main.py:168-172 | awaiting a failed pump ends the task; otherwise status lookup, unregistration, removal and the loop, as far as it goes without suspending, have exactly the effect of the disconnect step |
| Runtime.HubRuntime.ContinueCleanup | app/main.py:316-319 | the cleanup loop from one request for the lock to the next, or to its end |
| Runtime.HubRuntime.RunOn | app/ingestion/coinbase_client.py:215-223 | a task that finds the lock free goes on, turn after turn, to where it suspends or ends |
| Runtime.HubRuntime.RollBack | app/main.py:232-233 | broker first, then registry: exactly the rollback of the step |
| Runtime.HubRuntime.LockTurn | app/ingestion/coinbase_client.py:215-223 | one turn of `_ws_lock` with the handler or the reconnect loop going on has exactly the effect of the step |
| Runtime.HubRuntime.Dispatch | app/ingestion/coinbase_client.py:248-260 | still-wanted check, snapshot, then fan-out |
| Runtime.HubRuntime.PumpStarts | app/main.py:124-128 | the pump takes the queue object of its consumer, once |
| Runtime.HubRuntime.PumpReads | app/main.py:129-131 | reading the queue object the pump took is reading the broker's queue, and the pump is then delivering |
| Runtime.HubRuntime.DeliveryEnds | app/main.py:131-132 | the delivery returns, or raises and leaves a failed pump behind |
| Runtime.HubRuntime.Perform | app/main.py:138-172 | any step that can happen in a reachable state, with what its task does before it suspends, is performed by the classes and leads to a reachable state |

## Left out

- Routing, WebSocket transport, JSON and Pydantic validation, logging: a control message is an already decoded subscribe or unsubscribe, and an acknowledgement is the handler's going back to receiving.
- The topic pattern check (app/main.py:194-204): a subscribe step has a valid topic.
- Message parsing in the Coinbase client (app/ingestion/coinbase_client.py:267-358): dispatch starts from a decoded event.
- MCP server and tools, REST status routes and settings: read-only views over the state modelled here.
- Task cancellation in the middle of a send, `stop()` and process shutdown.
- Floating-point rounding and NaN: prices are reals. The wall clock is a parameter of the snapshot reads, and the connection ages of `get_status` are not modelled.
- Exceptions inside `apply_event` and `publish` (app/ingestion/coinbase_client.py:253-262), which the modelled operations do not raise.
- EnqueueDropOldest: the body of the retry branch is not modelled, because the branch is proved never to be taken.
- RunLoop: models the delays of the failed iterations only; the connection itself is in the hub's steps, and the loop ends with the list of iterations instead of with `stop`.
- CanAlwaysComeToRest: says that a run to rest exists. That waiting ends in every run is `TurnComes` and `TurnsRunOut`, as far as the lock keeps turning: a `ws.send` that never returns is not excluded.
