# Producers coordinator and performance metrics, modelled in Dafny

This project models two parts of the RabbitMQ Stream Java client.

**The producers coordinator.** It hands producers and tracking consumers ("agents") to
pooled broker connections ("clients"). Registration asks the locator for the stream's
metadata. Depending on the answer, it fails with "stream does not exist" or with an
illegal-state error, or it binds the agent to the first client on the leader that has a
free slot, opening a new client when none has room. A producer gets the lowest free
publisher id of its client. Each registration returns a cleanup callback. The callback frees
the agent's slot and closes the client once its last slot is gone. A client shutdown affects
every agent of that client; a metadata update affects only the client's agents on one stream.
Each affected agent is marked unavailable and then recovered one by one. Recovery retries
the leader lookup within an attempt budget. An open agent whose leader is found is bound
again and signalled running. A closed agent whose leader is found is left alone. When the
lookup gives up, a producer is closed after stream deletion and a tracking consumer stays
unavailable.

The coordinator's source is not part of this model; its behaviour is taken from its unit test.

- `CoordinatorModel` states the coordinator as pure functions over a `State` value: the
  pool, the agents, the next client id and the locator's answer counters.
- `CoordinatorInvariants` proves that every operation keeps the coordinator invariant.
- `CoordinatorProperties` proves what each operation does.
- `CoordinatorScenarios` replays the connection-loss test step by step, and the two tests
  where recovery runs out of attempts (after a shutdown and after a metadata update).
- `CoordinatorMetadataScenario` replays the test where a metadata update moves one
  stream's leader and its agents are redistributed to a client on the new leader.
- `CoordinatorPacking` computes where the x-th attachment of a kind lands when agents are
  registered in turn on one broker: client `Pos(x)`, slot `Slot(x)`, and `Needed(k)`
  clients, the ceiling of k over the capacity.
- `CoordinatorGrowth` proves that registration and newest-first cleanup keep the pool on
  one broker packed that way, and replays the test where the pool grows and shrinks with
  the number of producers and tracking consumers, for any capacities large enough.
- `ProducersCoordinator.Coordinator` is the imperative coordinator. Its fields are updated
  in place, and its loops are proved to compute the functions of `CoordinatorModel`.
- `ClientFactories` models the client factory that redials until the connected node
  advertises the expected host and port.

**The performance tool's reporter.** `PerformanceMetrics` covers the metrics suffix taken
from the registry's first meter key, and the table of reported meters with the choice
between message-rate and byte-rate formatting. It also covers `checkActivity`, the
once-a-second console report and its per-interval rates, and the closing summary, whose
duration is clamped to at least one second. `PerformanceMetrics.Reporter` holds the fields
that `checkActivity` and the report task update.

The locator is a script: for each stream, a list of answers whose last answer repeats, like
a stubbed mock. A stream without a script has no metadata. Back-off delays become attempt
budgets: `recoveryAttempts` for a client shutdown and `topologyUpdateAttempts` for a
metadata update.

A producer closed during recovery is not bound again: its `setClient` count stays at 1
(lines 254, 292 and 415 of the coordinator test), so recovery leaves a closed agent unbound.

## Model

| member | source | states |
|---|---|---|
| CoordinatorModel.Classify | src/test/java/com/rabbitmq/stream/impl/ProducersCoordinatorTest.java:135-161 | No metadata entry, or an answer with the stream-does-not-exist code, fails with "stream does not exist". Any other non-OK answer, or an OK answer without a leader, fails with an illegal state. An OK answer with a leader yields that leader. |
| CoordinatorModel.LookupLeader | src/test/java/com/rabbitmq/stream/impl/ProducersCoordinatorTest.java:237-244 | The lookup changes nothing but the locator's answer counters. |
| CoordinatorProperties.LookupLeaderSpec | src/test/java/com/rabbitmq/stream/impl/ProducersCoordinatorTest.java:237-244 | The lookup consumes between 0 and `attempts` answers of its stream and none of other streams. Every answer before the last one was an illegal state. It returns a leader iff the last answer named one. When it gives up, either the budget is spent or the last answer said the stream does not exist. |
| CoordinatorModel.FirstFit | src/test/java/com/rabbitmq/stream/impl/ProducersCoordinatorTest.java:517-532 | The chosen client is connected to the broker and has room for the kind. Every earlier client lacks one of the two. The result is the pool size when no client fits. |
| CoordinatorModel.LowestFreeId | src/test/java/com/rabbitmq/stream/impl/ProducersCoordinatorTest.java:523-525 | In a client with room, the chosen publisher id is below the capacity and unused, and every lower id is in use. |
| CoordinatorModel.CoversRange | src/test/java/com/rabbitmq/stream/impl/ProducersCoordinatorTest.java:517-529 | A set holding every id below k has at least k elements, so a client with room has a free id below its capacity. |
| CoordinatorModel.IndexOfClient | src/test/java/com/rabbitmq/stream/impl/ProducersCoordinatorTest.java:281-282 | Returns the position of the client with the id, or the pool size when no client has it. |
| CoordinatorModel.AffectedUpToSpec | src/test/java/com/rabbitmq/stream/impl/ProducersCoordinatorTest.java:402-421 | The recovery snapshot holds exactly the agents bound to the client, restricted to one stream for a metadata update. Each appears once, in handle order. |
| CoordinatorModel.AffectedUpToMembers | src/test/java/com/rabbitmq/stream/impl/ProducersCoordinatorTest.java:402-421 | An agent below the bound is in the snapshot exactly when it is bound to the client (and to the stream, when one is given). |
| CoordinatorModel.AffectedUpToSorted | src/test/java/com/rabbitmq/stream/impl/ProducersCoordinatorTest.java:402-421 | The snapshot is strictly increasing, so no agent is recovered twice. |
| CoordinatorModel.Attach | src/test/java/com/rabbitmq/stream/impl/ProducersCoordinatorTest.java:164-173 | Binding keeps the number of agents and the answer counters, and keeps every publisher id below the capacity. |
| CoordinatorModel.Recover | src/test/java/com/rabbitmq/stream/impl/ProducersCoordinatorTest.java:281-297 | Recovery keeps the number of agents and keeps every publisher id below the capacity. |
| CoordinatorModel.RecoverAll | src/test/java/com/rabbitmq/stream/impl/ProducersCoordinatorTest.java:281-297 | Recovering the snapshot in turn keeps the number of agents and keeps every publisher id below the capacity. |
| CoordinatorInvariants.InitInv | src/test/java/com/rabbitmq/stream/impl/ProducersCoordinatorTest.java:114-120 | The empty coordinator satisfies the invariant. Under the invariant, pooled clients are non-empty, within both capacities and have distinct ids; every slot holds a registered agent of its kind that is bound to that client; and an agent bound to a pooled client holds a slot there. |
| CoordinatorInvariants.AttachInv | src/test/java/com/rabbitmq/stream/impl/ProducersCoordinatorTest.java:164-173 | Binding an unbound agent keeps the invariant. |
| CoordinatorInvariants.RegisterInv | src/test/java/com/rabbitmq/stream/impl/ProducersCoordinatorTest.java:135-173 | Registration keeps the invariant, whether it fails or succeeds. |
| CoordinatorInvariants.CleanupInv | src/test/java/com/rabbitmq/stream/impl/ProducersCoordinatorTest.java:561-575 | Every cleanup keeps the invariant, including a repeated cleanup and one whose client is already gone. |
| CoordinatorInvariants.RecoverInv | src/test/java/com/rabbitmq/stream/impl/ProducersCoordinatorTest.java:281-297 | Recovering a detached agent keeps the invariant. |
| CoordinatorInvariants.RecoverAllInv | src/test/java/com/rabbitmq/stream/impl/ProducersCoordinatorTest.java:281-297 | Recovering distinct detached agents in turn keeps the invariant. |
| CoordinatorInvariants.ShutdownInv | src/test/java/com/rabbitmq/stream/impl/ProducersCoordinatorTest.java:281-297 | The shutdown listener keeps the invariant. |
| CoordinatorInvariants.MetadataUpdateInv | src/test/java/com/rabbitmq/stream/impl/ProducersCoordinatorTest.java:403-426 | The metadata listener keeps the invariant. |
| CoordinatorProperties.AttachBinds | src/test/java/com/rabbitmq/stream/impl/ProducersCoordinatorTest.java:164-173 | The agent is bound to the first-fit client, which is on the requested broker, and holds a slot there. Its kind, stream and open flag are kept, its setClient count grows by one, and every other agent is unchanged. |
| CoordinatorProperties.AttachPool | src/test/java/com/rabbitmq/stream/impl/ProducersCoordinatorTest.java:530-559 | A client is opened iff no client on the broker has room. The new client gets the next client id, and every other client is unchanged. |
| CoordinatorProperties.AttachMembers | src/test/java/com/rabbitmq/stream/impl/ProducersCoordinatorTest.java:530-559 | The chosen client's attachments become its old attachments (none for a new client) plus the agent. |
| CoordinatorProperties.RegisterOutcome | src/test/java/com/rabbitmq/stream/impl/ProducersCoordinatorTest.java:135-173 | One locator answer is consumed. Registration fails with "stream does not exist" iff there is no metadata or the code says so, and with an illegal state iff the answer is otherwise not OK or has no leader; a failure changes neither pool nor agents. On success, the new handle is the agent count and the earlier agents are kept. The new agent has the given kind and stream, was bound once, and holds a slot in a client on the leader. |
| CoordinatorProperties.EmptyIffNoMembers | src/test/java/com/rabbitmq/stream/impl/ProducersCoordinatorTest.java:561-575 | A client has no slots in use iff it has no attachments. |
| CoordinatorProperties.CleanupOutcome | src/test/java/com/rabbitmq/stream/impl/ProducersCoordinatorTest.java:561-575 | Cleanup unbinds the agent. If the agent was its client's last attachment, the client leaves the pool. Otherwise the client keeps its id and broker, loses exactly this agent (a producer's publisher id is freed), and every other client is unchanged. |
| CoordinatorProperties.CleanupPoolWf | src/test/java/com/rabbitmq/stream/impl/ProducersCoordinatorTest.java:577-578 | Cleanup keeps every publisher id below the capacity. |
| CoordinatorProperties.LowestFreeIdIs | src/test/java/com/rabbitmq/stream/impl/ProducersCoordinatorTest.java:580-588 | An unused id below which every id is in use is the lowest free id. |
| CoordinatorProperties.RegisterTakesLowestId | src/test/java/com/rabbitmq/stream/impl/ProducersCoordinatorTest.java:580-591 | Registering on a first-fit client with room binds the producer once to that client under its lowest free id, and opens no client. |
| CoordinatorProperties.FreedSlot | src/test/java/com/rabbitmq/stream/impl/ProducersCoordinatorTest.java:577-578 | Cleaning up a producer removes exactly its publisher id from its client. |
| CoordinatorProperties.FreedId | src/test/java/com/rabbitmq/stream/impl/ProducersCoordinatorTest.java:577-578 | After a publisher id is freed, the client has room, the freed id is unused, and every lower id stays in use. |
| CoordinatorProperties.FreedIdReused | src/test/java/com/rabbitmq/stream/impl/ProducersCoordinatorTest.java:577-591 | A producer is cleaned up on a client that survives, is the first with room, and has every lower id in use. The next producer registered on that broker is bound once to the same client under the freed publisher id, and the client count does not change. |
| CoordinatorProperties.SingleAttachment | src/test/java/com/rabbitmq/stream/impl/ProducersCoordinatorTest.java:170-171 | Under the invariant, an agent is attached to at most one client. |
| CoordinatorProperties.SinglePublisherId | src/test/java/com/rabbitmq/stream/impl/ProducersCoordinatorTest.java:523-525 | Under the invariant, a producer holds one publisher id in its client. |
| CoordinatorProperties.NodesAtMostClients | src/test/java/com/rabbitmq/stream/impl/ProducersCoordinatorTest.java:531-532 | There are never more connected nodes than clients, and there are none iff there is no client. |
| CoordinatorProperties.RecoverOutcome | src/test/java/com/rabbitmq/stream/impl/ProducersCoordinatorTest.java:281-297 | Recovering one agent has one of three outcomes. An open agent whose leader is found is bound again, its setClient and running counts growing by one. The agent is left as it was, either because it is closed or because it is a tracking consumer whose lookup gave up. A producer whose lookup gave up is closed after stream deletion. Every other agent is unchanged. |
| CoordinatorProperties.RecoverAllOutcome | src/test/java/com/rabbitmq/stream/impl/ProducersCoordinatorTest.java:281-297 | Every agent of the snapshot ends in one of the recovery outcomes, and agents outside it are unchanged. An open agent whose leader is found ends bound to a client of the final pool that is connected to that leader. |
| CoordinatorProperties.PausedAgents | src/test/java/com/rabbitmq/stream/impl/ProducersCoordinatorTest.java:281-286 | Exactly the affected agents are marked unavailable (unbound, unavailable count plus one) before any recovery. |
| CoordinatorProperties.PauseRecoverOutcome | src/test/java/com/rabbitmq/stream/impl/ProducersCoordinatorTest.java:281-297 | After pausing and recovering the snapshot, every affected agent was signalled unavailable once and ended in a recovery outcome, resumed ones on a pooled client of their leader. Every other agent is unchanged. |
| CoordinatorProperties.ShutdownOutcome | src/test/java/com/rabbitmq/stream/impl/ProducersCoordinatorTest.java:281-337 | After a client's shutdown, no client with its id is left in the pool. Every agent bound to it was signalled unavailable once and then recovered: bound again to a pooled client of its leader, left alone, or disposed. No other agent is touched. |
| CoordinatorProperties.MetadataUpdateOutcome | src/test/java/com/rabbitmq/stream/impl/ProducersCoordinatorTest.java:403-426 | After a metadata update for a stream, only that client's agents on that stream are signalled unavailable and recovered, resumed ones on a pooled client of their new leader. The client is closed exactly when all its members were on that stream; otherwise it keeps its position, its broker and, apart from that stream's agents, exactly its members. |
| CoordinatorProperties.RecoverAllExtends | src/test/java/com/rabbitmq/stream/impl/ProducersCoordinatorTest.java:403-426 | Recovery never closes a client or moves it to another broker: every client keeps its position, id and broker, new clients get fresh ids, and only the recovered agents join clients. |
| CoordinatorProperties.UpdatedClient | src/test/java/com/rabbitmq/stream/impl/ProducersCoordinatorTest.java:403-426 | A client that lost some agents is gone from any later pool exactly when those were all its members; otherwise it keeps its position, broker and other members. |
| CoordinatorScenarios.ShutdownRecovery | src/test/java/com/rabbitmq/stream/impl/ProducersCoordinatorTest.java:232-296 | Three registrations are followed by a shutdown, with the locator failing twice during recovery. The open producer and the tracking consumer are bound twice, unavailable once and running once. The closed producer is bound once, unavailable once and never running. One client on one node remains. |
| CoordinatorScenarios.LookupExhausted | src/test/java/com/rabbitmq/stream/impl/ProducersCoordinatorTest.java:304-307 | Once the locator's scripted leaders are used up, a lookup queries it `attempts` times and gives up without a leader, whatever the budget. |
| CoordinatorScenarios.ProducerGaveUp | src/test/java/com/rabbitmq/stream/impl/ProducersCoordinatorTest.java:327-330 | A paused producer whose lookup gives up is closed after stream deletion once, and is neither bound again nor signalled running. |
| CoordinatorScenarios.TrackerGaveUp | src/test/java/com/rabbitmq/stream/impl/ProducersCoordinatorTest.java:331-334 | A paused tracking consumer whose lookup gives up is left unavailable: it is neither bound again, signalled running, nor closed. |
| CoordinatorScenarios.RecoveredNone | src/test/java/com/rabbitmq/stream/impl/ProducersCoordinatorTest.java:327-336 | Recovering both paused agents with a locator that never names a leader ends with no client, the producer closed and the tracking consumer parked. |
| CoordinatorScenarios.ShutdownPaused | src/test/java/com/rabbitmq/stream/impl/ProducersCoordinatorTest.java:324-325 | The shutdown of the only client empties the pool and marks both of its agents unavailable before recovering them. |
| CoordinatorScenarios.MetadataPaused | src/test/java/com/rabbitmq/stream/impl/ProducersCoordinatorTest.java:486 | A metadata update for the only stream detaches both agents, which closes their client, and marks them unavailable before recovering them. |
| CoordinatorScenarios.RecoveryExhausted | src/test/java/com/rabbitmq/stream/impl/ProducersCoordinatorTest.java:299-337 | A producer and a tracking consumer, registered closed since the test never stubs `isOpen`, share one client on one node. After a shutdown, or after a metadata update for their stream as in the test at lines 461-498, with no leader ever named again, each is unavailable once and bound only once. The producer is closed after stream deletion and never running. The tracking consumer is never running nor closed. No client and no node remain. |
| CoordinatorProperties.LookupFindsLeaderFrom | src/test/java/com/rabbitmq/stream/impl/ProducersCoordinatorTest.java:237-244 | The lookup returns the leader that the script names among the answers not yet consumed of the stream, within the attempt budget. |
| CoordinatorProperties.OutcomeSettled | src/test/java/com/rabbitmq/stream/impl/ProducersCoordinatorTest.java:327-334 | When the script names a leader for every remaining answer, an open agent is resumed and a closed one is left as it was. When it never names one, a producer is closed after stream deletion and a tracking consumer is left as it was. |
| CoordinatorMetadataScenario.RegisteredFive | src/test/java/com/rabbitmq/stream/impl/ProducersCoordinatorTest.java:390-401 | The five registrations of the test (moving producer, fixed producer, closed producer, moving and fixed tracking consumers) all land on one client, each bound once. |
| CoordinatorMetadataScenario.Redistributed | src/test/java/com/rabbitmq/stream/impl/ProducersCoordinatorTest.java:403-426 | The metadata update for the moving stream ends in the state where its agents are recovered against the new leader. |
| CoordinatorMetadataScenario.MovedOnce | src/test/java/com/rabbitmq/stream/impl/ProducersCoordinatorTest.java:403-426 | Afterwards the open moving agents are unavailable once, bound twice (now to a client on the new leader) and running once. The closed producer is unavailable once, bound once and never running. The fixed agents are unchanged. Two clients on two nodes remain. |
| CoordinatorMetadataScenario.MetadataRecovery | src/test/java/com/rabbitmq/stream/impl/ProducersCoordinatorTest.java:339-426 | From an empty coordinator, the five registrations share one client, each bound once. After the update, only the moving stream's agents were touched: the open ones were rebound once to a new client and signalled running, and the closed producer was not rebound. Two clients on two nodes remain. |
| CoordinatorPacking.PosOf | src/test/java/com/rabbitmq/stream/impl/ProducersCoordinatorTest.java:523-525 | Attachment q * capacity + r, for r below the capacity, is slot r of client q: a producer's publisher id is its position modulo the capacity. |
| CoordinatorPacking.NeededIsCeil | src/test/java/com/rabbitmq/stream/impl/ProducersCoordinatorTest.java:531-532 | k attachments of one kind need the ceiling of k over the capacity clients. |
| CoordinatorGrowth.InitPacked | src/test/java/com/rabbitmq/stream/impl/ProducersCoordinatorTest.java:114-120 | The empty coordinator is packed on any broker, with no agent of either kind. |
| CoordinatorGrowth.PoolSize | src/test/java/com/rabbitmq/stream/impl/ProducersCoordinatorTest.java:531-532 | A packed pool has as many clients as the more numerous kind needs: the larger of the two ceilings of count over capacity. |
| CoordinatorGrowth.PackedCounts | src/test/java/com/rabbitmq/stream/impl/ProducersCoordinatorTest.java:531-532 | A packed pool reports that client count, and one connected node unless it is empty. |
| CoordinatorGrowth.RegisterProducerPacked | src/test/java/com/rabbitmq/stream/impl/ProducersCoordinatorTest.java:517-529 | Registering a producer on a packed broker succeeds with the next handle. The producer is bound once to client Pos(k) under publisher id Slot(k), the earlier agents are kept, and the pool stays packed with the producer appended. |
| CoordinatorGrowth.RegisterTrackerPacked | src/test/java/com/rabbitmq/stream/impl/ProducersCoordinatorTest.java:544-554 | Registering a tracking consumer on a packed broker succeeds with the next handle. It is bound once to client Pos(k), the earlier agents are kept, and the pool stays packed with the consumer appended. |
| CoordinatorGrowth.RegisterProducersPacked | src/test/java/com/rabbitmq/stream/impl/ProducersCoordinatorTest.java:517-529 | Registering k producers in turn hands out the next k handles and keeps the pool packed with them appended. |
| CoordinatorGrowth.RegisterTrackersPacked | src/test/java/com/rabbitmq/stream/impl/ProducersCoordinatorTest.java:544-554 | Registering k tracking consumers in turn hands out the next k handles and keeps the pool packed with them appended. |
| CoordinatorGrowth.CleanupLastProducer | src/test/java/com/rabbitmq/stream/impl/ProducersCoordinatorTest.java:595-598 | The cleanup callback of the newest producer keeps the pool packed without it, closing its client when nothing is left there. Every other agent is unchanged. |
| CoordinatorGrowth.CleanupLastTracker | src/test/java/com/rabbitmq/stream/impl/ProducersCoordinatorTest.java:561-568 | The cleanup callback of the newest tracking consumer keeps the pool packed without it, closing its client when nothing is left there. Every other agent is unchanged. |
| CoordinatorGrowth.CleanupNewestProducers | src/test/java/com/rabbitmq/stream/impl/ProducersCoordinatorTest.java:593-598 | Running the cleanup callbacks of the k newest producers, newest first, keeps the pool packed without them. |
| CoordinatorGrowth.CleanupNewestTrackers | src/test/java/com/rabbitmq/stream/impl/ProducersCoordinatorTest.java:561-575 | Running the cleanup callbacks of the k newest tracking consumers, newest first, keeps the pool packed without them. |
| CoordinatorGrowth.ReplaceProducer | src/test/java/com/rabbitmq/stream/impl/ProducersCoordinatorTest.java:577-591 | When a producer's client keeps another attachment, running its cleanup callback and registering a new producer binds the new one once to the same client under the same publisher id. The client count does not change, and the pool stays packed with the new handle in the old one's place. |
| CoordinatorGrowth.FillFromEmpty | src/test/java/com/rabbitmq/stream/impl/ProducersCoordinatorTest.java:508-532 | From an empty coordinator, registering n producers whose leader is one broker yields n agents, the ceiling of n over the capacity clients, and one connected node (none when n is 0). |
| CoordinatorGrowth.FillTrackersFromEmpty | src/test/java/com/rabbitmq/stream/impl/ProducersCoordinatorTest.java:535-559 | From an empty coordinator, registering n tracking consumers whose leader is one broker yields n agents, the ceiling of n over the capacity clients, and one connected node (none when n is 0). |
| CoordinatorGrowth.ProducersPhase | src/test/java/com/rabbitmq/stream/impl/ProducersCoordinatorTest.java:508-532 | capacity + capacity / 5 producers take two clients on one node, and producer 10 gets publisher id 10. |
| CoordinatorGrowth.TrackersPhase | src/test/java/com/rabbitmq/stream/impl/ProducersCoordinatorTest.java:535-559 | Adding 2 * capacity + capacity / 5 tracking consumers needs a third client, still on one node. |
| CoordinatorGrowth.FreeThirdPhase | src/test/java/com/rabbitmq/stream/impl/ProducersCoordinatorTest.java:561-570 | Cleaning up the capacity / 5 newest tracking consumers frees the third client. |
| CoordinatorGrowth.FreeTrackersPhase | src/test/java/com/rabbitmq/stream/impl/ProducersCoordinatorTest.java:572-575 | Cleaning up the other tracking consumers leaves the producers' two clients. |
| CoordinatorGrowth.ShrinkProducersPhase | src/test/java/com/rabbitmq/stream/impl/ProducersCoordinatorTest.java:577-601 | Producer 10 is replaced by a producer bound once under publisher id 10, with two clients left. Cleaning up the capacity / 5 + 19 newest producers then leaves one client on one node. |
| CoordinatorGrowth.FreeProducersPhase | src/test/java/com/rabbitmq/stream/impl/ProducersCoordinatorTest.java:593-601 | Cleaning up the capacity / 5 + 19 newest producers of a broker that holds producers alone leaves one client on one node. |
| CoordinatorGrowth.GrowToThree | src/test/java/com/rabbitmq/stream/impl/ProducersCoordinatorTest.java:500-559 | From an empty coordinator, the producers take two clients and the tracking consumers a third, all on one node. |
| CoordinatorGrowth.ShrinkToTwo | src/test/java/com/rabbitmq/stream/impl/ProducersCoordinatorTest.java:500-575 | Continuing the run, freeing the tracking consumers brings the pool back to the producers' two clients. |
| CoordinatorGrowth.GrowShrink | src/test/java/com/rabbitmq/stream/impl/ProducersCoordinatorTest.java:500-602 | The whole test: one node throughout; two clients after the producers, three after the tracking consumers, two after cleaning up a fifth of a client of consumers and after cleaning up the rest. The replacing producer gets the next handle and producer 10's publisher id, is bound once, and leaves two clients. One client remains after the capacity / 5 + 19 newest producers are cleaned up. |
| ProducersCoordinator.FreePublisherId | src/test/java/com/rabbitmq/stream/impl/ProducersCoordinatorTest.java:523-525 | The counting loop returns the lowest unused publisher id below the capacity. |
| ProducersCoordinator.Coordinator.constructor | src/test/java/com/rabbitmq/stream/impl/ProducersCoordinatorTest.java:114-120 | A new coordinator is empty and satisfies the invariant. |
| ProducersCoordinator.Coordinator.FindClient | src/test/java/com/rabbitmq/stream/impl/ProducersCoordinatorTest.java:517-532 | The search loop returns the first client on the broker with room. |
| ProducersCoordinator.Coordinator.IndexOf | src/test/java/com/rabbitmq/stream/impl/ProducersCoordinatorTest.java:281-282 | The search loop returns the position of the client with the id. |
| ProducersCoordinator.Coordinator.Snapshot | src/test/java/com/rabbitmq/stream/impl/ProducersCoordinatorTest.java:403-421 | The loop collects exactly the affected agents, in handle order. |
| ProducersCoordinator.Coordinator.ClientCount | src/test/java/com/rabbitmq/stream/impl/ProducersCoordinatorTest.java:531-532 | Returns the number of pooled clients, which is never below the number of connected nodes and is zero exactly when no node is connected. |
| ProducersCoordinator.Coordinator.NodesConnected | src/test/java/com/rabbitmq/stream/impl/ProducersCoordinatorTest.java:277-278 | The loop counts the distinct brokers, which are never more than the clients and zero iff there is no client. |
| ProducersCoordinator.Coordinator.Query | src/test/java/com/rabbitmq/stream/impl/ProducersCoordinatorTest.java:237-244 | One locator answer is consumed. |
| ProducersCoordinator.Coordinator.LookupLeader | src/test/java/com/rabbitmq/stream/impl/ProducersCoordinatorTest.java:237-244 | The retry loop ends in the state and with the result of the lookup function. |
| ProducersCoordinator.Coordinator.Attach | src/test/java/com/rabbitmq/stream/impl/ProducersCoordinatorTest.java:164-173 | The in-place binding equals the binding function. |
| ProducersCoordinator.Coordinator.Register | src/test/java/com/rabbitmq/stream/impl/ProducersCoordinatorTest.java:135-173 | Registration in place equals the registration function and keeps the invariant. |
| ProducersCoordinator.Coordinator.Cleanup | src/test/java/com/rabbitmq/stream/impl/ProducersCoordinatorTest.java:561-598 | The cleanup callback in place equals the cleanup function and keeps the invariant. |
| ProducersCoordinator.Coordinator.PauseAll | src/test/java/com/rabbitmq/stream/impl/ProducersCoordinatorTest.java:281-286 | The loop marks exactly the snapshot's agents unavailable. |
| ProducersCoordinator.Coordinator.Recover | src/test/java/com/rabbitmq/stream/impl/ProducersCoordinatorTest.java:281-297 | Recovery in place equals the recovery function. |
| ProducersCoordinator.Coordinator.RecoverAll | src/test/java/com/rabbitmq/stream/impl/ProducersCoordinatorTest.java:281-297 | The loop over the snapshot equals recovering it in turn. |
| ProducersCoordinator.Coordinator.OnShutdown | src/test/java/com/rabbitmq/stream/impl/ProducersCoordinatorTest.java:281-297 | The shutdown listener in place equals the shutdown function and keeps the invariant. |
| ProducersCoordinator.Coordinator.OnMetadataUpdate | src/test/java/com/rabbitmq/stream/impl/ProducersCoordinatorTest.java:403-426 | The metadata listener in place equals the metadata-update function and keeps the invariant. |
| ClientFactories.FirstMatch | src/test/java/com/rabbitmq/stream/impl/ProducersCoordinatorTest.java:175-230 | The kept connection is the first one within the budget that advertises the expected node. Every earlier connection advertised another identity. |
| ClientFactories.ConnectToAdvertisedNode | src/test/java/com/rabbitmq/stream/impl/ProducersCoordinatorTest.java:175-230 | The dial loop keeps the first matching connection. The factory was called once per connection up to and including it, or budget times when none matched. |
| ClientFactories.MismatchThenMatch | src/test/java/com/rabbitmq/stream/impl/ProducersCoordinatorTest.java:175-202 | A mismatch followed by a match keeps the second connection, so the factory is called twice. |
| ClientFactories.MatchFirst | src/test/java/com/rabbitmq/stream/impl/ProducersCoordinatorTest.java:204-230 | A match on the first connection keeps it, so the factory is called once. |
| ClientFactories.NeverMatches | src/test/java/com/rabbitmq/stream/impl/ProducersCoordinatorTest.java:175-230 | A node that never advertises the expected identity exhausts the budget. |
| PerformanceMetrics.ContainsSplit | src/main/java/com/rabbitmq/stream/perf/DefaultPerformanceMetrics.java:185-198 | A dot-free pattern occurs in a name followed by a suffix iff it occurs in the name or in the suffix, because the suffix is empty or starts with a dot. |
| PerformanceMetrics.IndexOfChar | src/main/java/com/rabbitmq/stream/perf/DefaultPerformanceMetrics.java:118 | Returns the first position of the character, or -1 exactly when it does not occur. |
| PerformanceMetrics.MetricsSuffix | src/main/java/com/rabbitmq/stream/perf/DefaultPerformanceMetrics.java:117-119 | The suffix is empty iff the key has no dot. The key splits into a dot-free head and the suffix, and a non-empty suffix starts with the first dot. |
| PerformanceMetrics.Meters | src/main/java/com/rabbitmq/stream/perf/DefaultPerformanceMetrics.java:137-169 | The report covers published, confirmed and consumed, plus written and read bytes iff byte rates are included. Each name is the registry name plus the suffix, and the captions are distinct. |
| PerformanceMetrics.FormatsAgree | src/main/java/com/rabbitmq/stream/perf/DefaultPerformanceMetrics.java:184-207 | In the summary, the byte meters use the byte rate and the others the message rate. The console report picks the byte rate for the byte meters, and agrees with the summary on every meter iff the suffix does not contain "bytes". |
| PerformanceMetrics.MessageMeter | src/main/java/com/rabbitmq/stream/perf/DefaultPerformanceMetrics.java:184-195 | A meter whose name and caption lack "bytes" is reported as a message rate, except that the console report uses a byte rate when the suffix contains "bytes". |
| PerformanceMetrics.ByteMeter | src/main/java/com/rabbitmq/stream/perf/DefaultPerformanceMetrics.java:197-207 | A meter whose name and caption end in "bytes" is reported as a byte rate in both reports. |
| PerformanceMetrics.QuotSpec | src/main/java/com/rabbitmq/stream/perf/DefaultPerformanceMetrics.java:192 | Java's long division by a positive divisor rounds a non-negative dividend down, and negating the dividend negates the quotient. |
| PerformanceMetrics.Rate | src/main/java/com/rabbitmq/stream/perf/DefaultPerformanceMetrics.java:192 | An interval rate exists iff the interval lasts at least a millisecond; a shorter one makes the division throw. |
| PerformanceMetrics.RateBounds | src/main/java/com/rabbitmq/stream/perf/DefaultPerformanceMetrics.java:192 | A growing count over a positive interval yields `1000 * delta / millis` rounded down. An unchanged count yields 0. |
| PerformanceMetrics.SummaryMillis | src/main/java/com/rabbitmq/stream/perf/DefaultPerformanceMetrics.java:291-292 | The summary duration is at least 1000 ms. It is exactly one second when the run was shorter, and the elapsed milliseconds otherwise. |
| PerformanceMetrics.SummaryRateBounds | src/main/java/com/rabbitmq/stream/perf/DefaultPerformanceMetrics.java:291-304 | The summary rate of a count is that rate rounded down, and never exceeds the count. |
| PerformanceMetrics.Summary | src/main/java/com/rabbitmq/stream/perf/DefaultPerformanceMetrics.java:294-314 | The summary has one line per meter, in report order, with the meter's caption and its summary format. |
| PerformanceMetrics.SummaryLines | src/main/java/com/rabbitmq/stream/perf/DefaultPerformanceMetrics.java:291-314 | Each summary line's rate is its meter's count per second over the clamped duration, rounded down. |
| PerformanceMetrics.ActivityStep | src/main/java/com/rabbitmq/stream/perf/DefaultPerformanceMetrics.java:385-404 | There is activity iff either count differs from the recorded one. Without activity the recorded counts are unchanged; either way they end equal to the current counts. |
| PerformanceMetrics.ActivityIdempotent | src/main/java/com/rabbitmq/stream/perf/DefaultPerformanceMetrics.java:385-404 | A second check with the same counts finds no activity and changes nothing. |
| PerformanceMetrics.Record | src/main/java/com/rabbitmq/stream/perf/DefaultPerformanceMetrics.java:253-259 | Recording the current counts keeps every meter recorded before. |
| PerformanceMetrics.RecordValue | src/main/java/com/rabbitmq/stream/perf/DefaultPerformanceMetrics.java:253-259 | After recording, each meter's last value is its current count. |
| PerformanceMetrics.RecordUntouched | src/main/java/com/rabbitmq/stream/perf/DefaultPerformanceMetrics.java:253-259 | Recording the earlier meters leaves a later meter's last value as it was. |
| PerformanceMetrics.TickOutcomes | src/main/java/com/rabbitmq/stream/perf/DefaultPerformanceMetrics.java:239-277 | A run reports iff a count moved and the interval lasts at least a millisecond. Each line carries the meter's caption, its console format and its rate against the last value, and afterwards every last value is the current count. A quiet run only counts itself. An aborted run moves the tick time and records the counts, but touches no meter value and not the report count. |
| PerformanceMetrics.QuietAfterReport | src/main/java/com/rabbitmq/stream/perf/DefaultPerformanceMetrics.java:239-277 | A run right after another one, with the same counts, reports nothing. |
| PerformanceMetrics.Reporter.constructor | src/main/java/com/rabbitmq/stream/perf/DefaultPerformanceMetrics.java:117-119 | The reporter takes its suffix from the first meter key, and both activity counts start at 0. |
| PerformanceMetrics.Reporter.Start | src/main/java/com/rabbitmq/stream/perf/DefaultPerformanceMetrics.java:231-235 | The first tick is the start time, the report count is 1, and each meter's last value is its count at start. |
| PerformanceMetrics.Reporter.CheckActivity | src/main/java/com/rabbitmq/stream/perf/DefaultPerformanceMetrics.java:385-404 | The in-place check returns the activity and updates both fields as the activity step does, and nothing else. |
| PerformanceMetrics.Reporter.ReportMeters | src/main/java/com/rabbitmq/stream/perf/DefaultPerformanceMetrics.java:247-260 | The loop over the meters yields the report lines and records every current count. When the interval is under a millisecond, it stops at the first meter and leaves the state unchanged. |
| PerformanceMetrics.Reporter.Tick | src/main/java/com/rabbitmq/stream/perf/DefaultPerformanceMetrics.java:239-277 | One run of the report task in place equals the tick function and keeps every meter tracked. |

## Left out

- The coordinator's own source file is not part of this model. Its behaviour follows from
  its unit test, and whatever the test leaves open is the model's choice. The lowest free
  publisher id is one such choice; the test only requires that a freed id is reused.
- The values of the per-client capacity constants are configuration parameters, with at
  most 256 producers per client.
- CoordinatorGrowth.GrowShrink: the test's capacities are not fixed. The replay holds for
  every configuration with at least 30 producers and 5 tracking consumers per client,
  which includes 256 producers per client; smaller capacities are not covered.
- Timers, the scheduled executor and back-off delays are replaced by attempt budgets.
  Recovery runs sequentially, one agent after the other, in handle order.
- Mockito mocks, the latches and the JSON `toString` check are not modelled. Neither is the
  address resolver, which the test sets to the identity.
- Declaring and deleting publishers on the broker is not modelled; the test stubs both to
  succeed.
- ClientFactories.ConnectToAdvertisedNode: the factory is modelled on its own and not wired
  into the coordinator's client creation. The redial delay is not modelled, and redials
  are bounded by a budget. Closing the connections that advertised another node is not
  modelled.
- PerformanceMetrics.Rate: Java `long` overflow of `1000 * (current - last)` is not
  modelled; integers are unbounded.
- PerformanceMetrics.Reporter.Tick: the activity counts and the meter counts are separate
  parameters, because the source reads them from the registry at different moments. The
  latency percentiles, chunk size, memory report and printed text are not modelled.
- `formatByteRate`, latency conversion and percentile formatting use floating point and
  `String.format`, and are not modelled.
- The Micrometer and Dropwizard registries, the latency timers, `offset` and
  `maybeSetSummaryFile` (summary-file I/O) are not modelled.
- The client integration test and the confirmation status holder carry no logic of the
  modelled core.
