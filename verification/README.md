# Verified model of the Woven relay core

Woven is a realtime relay. One worker owns all state and executes one command at a time: connections join
sessions, subscribe to nested spaces, own positioned entities and publish messages that are routed to bounded
per-connection queues. This project models that core in Dafny, together with the protocols at its edges, and
proves what its many redundant tables have in common after every command and over whole runs.

Check everything with `dafny verify dfyconfig.toml`.

## How the model is laid out

- `Model`, `Sequences`, `Ordering`: identifiers, descriptors, messages, and sequence helpers.
- `Queue` specifies the outbound queue as three plain sequences; `OutboundQueue` is the class with an order
  deque and a map that refines it, and `QueueLaws` says when a message is taken and what it displaces.
- `Spatial`, `Routing`, `CellIndex`: the grid, the distance test, the incremental index and the recipients;
  `RoutingLaws` says the same by coordinates alone.
- `RateLimit`, `RatePolicy`, `Cache`, `Sweeping`: publish budgets and the state cache. `Budgets` ties the budgets
  in the tables of the core to the slot machine of `RateLimit`, command by command, `ConnectionBudgets` does so for
  the budget a connection has for itself, and `RateRefusals` shows that nobody is refused early.
- `SessionGraph` holds the tables and the invariant `Inv` over them. `Cascade` and `Removing` treat removal,
  `Commands` the effect of each command, `CommandInvariants` and `MemberInvariants` that each keeps `Inv`,
  `Epochs` the order of states over runs, `GraphLoops` the loops over the tables.
- `Checks`, `CoreSteps`, `Outcomes`, `Publishing`, `Fanout`, `PublishPipeline` and the class `Core.WovenCore`
  put the commands together. Each method of the class but the removal of a session ensures `Valid()`, that is
  `Inv`, and that the new state is later than the old one. `Anchors` and `AdvanceWitness` treat the advance that
  fails after its change.
- `CommandLaws` says when each command goes through, by tables and grant maps, and what it changes; `RemovalLaws`
  what cascades, departures and advances take. `PublishEffects` and `Delivery` say what an accepted publish leaves
  on record and in every queue.
- `Admission` specifies the admission state of a session, `AdmissionInvariants` proves capacity and fairness,
  `AdmissionAnswers` says when each answer is given, and `AdmissionController` is the class with its queue and
  index. `Ledger`, `Rosters` and `AdmittedCore` bind its leases to connections; `Teardown` removes a whole session, `AdmissionWitness` configures admission too late.
- `Managed` and `Checkpoint` are the revisioned configuration, its export and its restoration, `ManagedLaws` says
  when each request is carried out or recognised as a repetition, and `Reachability` shows that restoring accepts
  what requests can produce; `Hex` encodes the verifiers.
- `Framing`, `FrameReaders` and `ChunkRuns` are the two incremental frame readers and their runs; `ToolGateway` is
  the optimistic tool.

Instants and durations are naturals in nanoseconds on one clock, identifiers and counters are naturals, and
coordinates are exact reals. Structures that Rust owns by value are values here, and each class keeps the
tables of its object in one record; an ordered map that is iterated is visited in arbitrary order unless its
order can be observed, so the results hold for every order.

What the code does differently from what one might expect is kept. Advancing a space epoch is not atomic:
emptying the space can take the space itself, and the call then fails after the change; the input and the exact
condition on the tables are given. A refused publish keeps the budget it spent and may have swept expired state.
A tool call dropped after its command was queued can block the tool until its context changes or the core drops
the key, and with several contexts or a dropped key one revision can be handed out twice; both runs and the exact
condition are given. Admission configured for a session that already has members leaves those without a lease.

## Model

| member | source | states |
|---|---|---|
| `Queue.PushKeepsBounds` | crates/woven-core/src/queue.rs:95-180 | a push keeps all four capacities, lanes by class and distinct keys; it is refused exactly when a replaceable message has no key; nothing but the pushed message is added |
| `Queue.RunBounded` | crates/woven-core/src/queue.rs:25-39 | after any sequence of pushes, pops, purges and drains on a validated configuration every bound still holds |
| `Queue.ActivityExplainsGrowth` | crates/woven-core/src/core.rs:2775-2794 | over any batch of pushes, growth of the queue is the number of queued messages minus the critical evictions, by the counters reported to the publisher |
| `Queue.CriticalFifo` | crates/woven-core/src/queue.rs:105-124 | accepted critical messages leave in the order they were accepted: for every class that purges spare and drains take or leave whole, delivered plus queued is the accepted sequence |
| `Queue.CriticalConserved` | crates/woven-core/src/queue.rs:182-201 | every accepted critical message is delivered, purged on request or still queued, the right number of times; none is evicted |
| `Queue.LatestHoldsLastPush` | crates/woven-core/src/queue.rs:126-170 | a value held under a key is the last one pushed with that key |
| `QueueLaws.LatestTakenExactly` | crates/woven-core/src/queue.rs:126-170 | a keyed replaceable push is the last value of the lane afterwards if and only if the lane has capacity and its key was held, or the queue had room, or a value or a best-effort message could be evicted; otherwise it is dropped and nothing changes |
| `QueueLaws.LatestAdded` | crates/woven-core/src/queue.rs:155-159 | a new key with room in lane and queue is the old lane followed by the message |
| `QueueLaws.LatestReplaced` | crates/woven-core/src/queue.rs:131-137 | a held key is replaced: the other values in their order, then the message |
| `QueueLaws.LatestCrowded` | crates/woven-core/src/queue.rs:139-156 | without room exactly the oldest value goes, or the oldest best-effort message when there is no value |
| `QueueLaws.CriticalTaken` | crates/woven-core/src/queue.rs:105-124 | a critical message is appended while its lane has room, at the cost of the oldest value, or of the oldest best-effort message when there is no value, only when the queue is full |
| `QueueLaws.CriticalRefused` | crates/woven-core/src/queue.rs:105-109 | a full critical lane refuses, raises the flag and changes nothing else |
| `QueueLaws.BestEffortTaken` | crates/woven-core/src/queue.rs:172-180 | appended if and only if lane and queue have room |
| `QueueLaws.PopTakesFirst` | crates/woven-core/src/queue.rs:182-190 | a pop takes exactly the first of critical, latest and best effort, and nothing only from an empty queue |
| `OutboundQueues.InStepCovers` | crates/woven-core/src/queue.rs:161-170 | order deque and map hold the same distinct keys, so every key of the map is in the deque |
| `OutboundQueues.RotateOut` | crates/woven-core/src/queue.rs:228-238 | one rotation of a deque is a stable partition into eligible messages and the rest in their old order |
| `OutboundQueues.RotateOutKeyed` | crates/woven-core/src/queue.rs:239-258 | the rotation over order deque and map keeps the two in step and is a stable partition of the values |
| `OutboundQueues.DrainMatchingEverything` | crates/woven-core/src/queue.rs:223-278 | draining with an always-true predicate is the plain drain |
| `OutboundQueues.OutboundQueue.PushCritical` | crates/woven-core/src/queue.rs:105-124 | the deque-and-map queue does what the three plain sequences do: capacity, eviction order, slow-consumer flag |
| `OutboundQueues.OutboundQueue.PushLatest` | crates/woven-core/src/queue.rs:126-170 | refines the specification whose laws are QueueLaws.LatestTakenExactly and its cases: replacement moves a key to the back; eviction takes the oldest value, then the oldest best-effort message |
| `OutboundQueues.OutboundQueue.PushBestEffort` | crates/woven-core/src/queue.rs:172-180 | dropped when its lane or the queue is full, appended otherwise |
| `OutboundQueues.OutboundQueue.Push` | crates/woven-core/src/queue.rs:95-103 | dispatch by class refines the specification, whose laws are those of QueueLaws, and keeps the queue valid |
| `OutboundQueues.OutboundQueue.Pop` | crates/woven-core/src/queue.rs:182-190 | critical first, then latest values by age, then best effort |
| `OutboundQueues.OutboundQueue.Purge` | crates/woven-core/src/queue.rs:192-201 | all lanes lose exactly the selected messages; the result is the number discarded |
| `OutboundQueues.OutboundQueue.DrainMatching` | crates/woven-core/src/queue.rs:223-270 | returns the eligible messages in class order and keeps the rest in order |
| `OutboundQueues.OutboundQueue.Drain` | crates/woven-core/src/queue.rs:272-278 | returns everything in leaving order and empties the queue |
| `Spatial.GridCoordinateExact` | crates/woven-core/src/core.rs:2416-2422 | a coordinate has exactly one cell, the one whose bounds contain it, and is refused exactly when that cell is outside the 64-bit range |
| `Spatial.ScaledDistanceIsExact` | crates/woven-core/src/core.rs:2541-2582 | the overflow-safe scaled distance test equals the plain one over exact reals |
| `Spatial.NeighbourNotLost` | crates/woven-core/src/core.rs:2506-2539 | two values within the radius lie in cells no further apart than the rounded-up radius in cells |
| `Spatial.WithinImpliesNear` | crates/woven-core/src/core.rs:2379-2422 | positions within the interest radius always lie in near cells |
| `Routing.RadiusInNearCells` | crates/woven-core/src/core.rs:2474-2504 | every positioned entity within the radius is indexed in a near cell |
| `Routing.RoutingRecipients` | crates/woven-core/src/core.rs:2424-2504 | grid routing with exact distance returns exactly the subscribed owners that a linear scan of all positioned entities would; broadcast, topic and critical messages go to all subscribers |
| `Routing.CoarseReachesMore` | crates/woven-core/src/core.rs:2474-2504 | without exact distance nobody within the radius is missed |
| `RoutingLaws.RoutedExactly` | crates/woven-core/src/core.rs:2424-2504 | by coordinates alone: a subscriber gets a message if and only if it is critical, the space is no grid, or it owns an entity of the space within the interest radius of the sender, for all spaces without coarse routing |
| `RoutingLaws.CoarseIsClose` | crates/woven-core/src/core.rs:2474-2539 | coarse routing takes nobody whose entities are all farther on some axis than the radius and two cells |
| `CellIndex.RemoveFromCell` | crates/woven-core/src/core.rs:469-480 | removing an entity keeps the two cell maps exact inverses and drops empty cells |
| `CellIndex.Reindex` | crates/woven-core/src/core.rs:1671-1683 | moving an entity between cells keeps the two maps exact inverses |
| `CellIndex.InsertIntoCell` | crates/woven-core/src/core.rs:482-485 | adding an entity that had no cell keeps the two maps exact inverses |
| `RateLimit.ForgettingUnobservable` | crates/woven-core/src/core.rs:366-398 | under one policy, dropping expired or unretained budgets on leave, join and prune is unobservable: the admitted publishes are those of a limiter that is never forgotten |
| `RateLimit.FewerThanTwoBudgets` | crates/woven-core/src/core.rs:309-398 | however the policy changes, an interval no longer than the shortest window holds at most two of the largest budgets less one admitted publishes, through all leaves, rejoins and prunings |
| `RateLimit.BoundReached` | crates/woven-core/src/core.rs:314-340 | the bound is tight: a run that reaches it |
| `RateRefusals.RefusedMeansSpent` | crates/woven-core/src/core.rs:309-398 | nobody is refused early: a refused publish of a member follows as many admitted ones, within the window up to it, as the policy in force allows, through all changes of policy, leaves, rejoins and prunings |
| `RateRefusals.RetryExactly` | crates/woven-core/src/core.rs:333-337 | a publish is admitted again exactly when the time named by the refusal has passed |
| `ConnectionBudgets.SpendExactly` | crates/woven-core/src/core.rs:1486-1521 | the own budget of the connection is charged whatever follows, a session budget only with access, and a publish passes exactly if both admit it and it has access |
| `ConnectionBudgets.CommandMovesOwn` | crates/woven-core/src/core.rs:314-340 | no command but its own publishes moves the own budget of a connection, and an accepted publish is an admitted one |
| `ConnectionBudgets.OwnPublishesBounded` | crates/woven-core/src/core.rs:309-340 | over any run, a window of the own budget of a connection holds at most two budgets less one of accepted publishes, into whatever sessions |
| `Budgets.JoinMovesSlot` | crates/woven-core/src/core.rs:1103-1131 | a join moves the budget in the tables as the slot machine does, joining another session at most prunes it |
| `Budgets.LeaveMovesSlot` | crates/woven-core/src/core.rs:2219-2266 | leaving moves the budget as the slot machine does, leaving another session does not touch it |
| `Budgets.SpendMovesSlot` | crates/woven-core/src/core.rs:1491-1521 | charging a publish is the publish of the slot machine and is admitted only if the slot admits it |
| `Budgets.EffectKeepsAccount` | crates/woven-core/src/core.rs:628-1479 | every other command leaves memberships and budgets of the connection alone |
| `Budgets.RatedMovesSlot` | crates/woven-core/src/core.rs:644-662 | setting the policy moves the budget in the tables as the slot machine does, that of another session does not show |
| `Budgets.PublishedKeepsAccount` | crates/woven-core/src/core.rs:1666-1760 | after the charge a publish touches no budget, not even through the consumers it loses |
| `Budgets.CommandMovesSlot` | crates/woven-core/src/core.rs:309-398 | every command moves the budget by at most one event of the slot machine, under the policy in force, and an accepted publish is an admitted one |
| `Budgets.AcceptedPublishesBounded` | crates/woven-core/src/core.rs:309-398 | over any run of the core in which the session stays limited, by whatever changing policies, an interval no longer than the shortest window holds at most two of the largest budgets less one accepted publishes of a connection into the session |
| `Cache.InMemoryCacheService.Put` | crates/woven-core/src/cache.rs:132-149 | stores the entry, resets its clock and returns what it replaced |
| `Cache.InMemoryCacheService.Evict` | crates/woven-core/src/cache.rs:152-154 | removes one entry and returns it |
| `Cache.InMemoryCacheService.SweepExpired` | crates/woven-core/src/cache.rs:157-162 | removes exactly the expired entries and counts them |
| `Cache.SumBytes` | crates/woven-core/src/cache.rs:165-170 | adding up entry by entry, in any order, gives the sum of the stored payload lengths |
| `Cache.InMemoryCacheService.ByteLength` | crates/woven-core/src/cache.rs:165-170 | the sum of the stored payload lengths |
| `Cache.ByteLenPut` | crates/woven-core/src/cache.rs:132-170 | the total length changes by the new payload minus the replaced one |
| `Cascade.ComputeCascade` | crates/woven-core/src/core.rs:2268-2293 | the fixpoint loop terminates and yields the least set closed under anchor removed, parent space removed and entity in removed space, whatever order it visits |
| `Cascade.ClosureIsLeast` | crates/woven-core/src/core.rs:2273-2293 | the closure by rounds is the least closed set above its seed |
| `Cascade.LeastClosedUnique` | crates/woven-core/src/core.rs:2273-2293 | there is only one such set, so the iteration order cannot matter |
| `Removing.RemoveKeepsInv` | crates/woven-core/src/core.rs:2295-2376 | removing a closed set keeps every table consistent: no parent, anchor, subscription, queued message, value or sequence names anything that went |
| `Removing.NoSaturation` | crates/woven-core/src/core.rs:2354-2362 | the saturating subtraction of owned entities never saturates |
| `RemovalLaws.RemovalLeavesRest` | crates/woven-core/src/core.rs:2310-2376 | a removal takes exactly what would otherwise name a space or entity that is gone: values, sequences, subscriptions and queued messages stay if and only if their space and entity do, and each space that goes leaves its epoch |
| `RemovalLaws.UnlinkedConnection` | crates/woven-core/src/core.rs:2243-2266 | leaving takes one membership with its subscriptions and queued messages; its budget stays if and only if a policy was ever in force |
| `RemovalLaws.UnlinkedSession` | crates/woven-core/src/core.rs:2219-2250 | leaving takes the member with its subscriptions and sequences and nothing else of the session |
| `RemovalLaws.DetachTakesOwned` | crates/woven-core/src/core.rs:2226-2242 | no entity of the leaver is left and every entity left is as it was |
| `RemovalLaws.AdvanceSets` | crates/woven-core/src/core.rs:904-955 | an advance that does not fail sets exactly the epoch asked for, leaves the space empty with its subscribers, takes exactly the spaces with a chain back and leaves all others as they were |
| `RemovalLaws.AdvancedKeys` | crates/woven-core/src/core.rs:949-953 | exactly the values and sequences of other spaces that still name what is there survive an advance |
| `RemovalLaws.AdvancedQueue` | crates/woven-core/src/core.rs:920-947 | exactly the messages to the space, or naming something that went with it, leave the queues |
| `RemovalLaws.RateLimitEffects` | crates/woven-core/src/core.rs:644-662 | a policy is in force for its session only and no spent budget changes |
| `GraphLoops.RemoveEntitiesAndAnchoredSpaces` | crates/woven-core/src/core.rs:2268-2376 | the imperative removal over all tables and connections is the specified cascade |
| `GraphLoops.RetireSpaces` | crates/woven-core/src/core.rs:2329-2339 | each removed space leaves a tombstone with its last epoch |
| `GraphLoops.CountLost` | crates/woven-core/src/core.rs:2295-2308 | the per-owner counters are the true numbers of removed entities |
| `CommandInvariants.InstallKeepsInv` | crates/woven-core/src/core.rs:840-882 | installing an accepted space keeps all invariants |
| `CommandInvariants.AcyclicIsWellFounded` | crates/woven-core/src/core.rs:884-902 | the parent relation stays acyclic: following parents leads out of every set of spaces |
| `CommandInvariants.AdvanceKeepsInv` | crates/woven-core/src/core.rs:904-955 | emptying a space and moving its epoch leaves no message, value, sequence or entity of the old epoch |
| `MemberInvariants.JoinKeepsInv` | crates/woven-core/src/core.rs:1087-1131 | joining keeps members, memberships and the retained-limiter cap consistent |
| `MemberInvariants.DetachKeepsInv` | crates/woven-core/src/core.rs:2219-2266 | leaving removes every trace of the membership and keeps all invariants |
| `MemberInvariants.SubscribeKeepsInv` | crates/woven-core/src/core.rs:1146-1189 | the two subscription tables stay inverse |
| `MemberInvariants.UnsubscribeKeepsInv` | crates/woven-core/src/core.rs:1191-1227 | no message of the space stays queued for the connection |
| `MemberInvariants.SpawnKeepsInv` | crates/woven-core/src/core.rs:1229-1294 | a fresh entity of the right epoch; the owned counter stays the true count |
| `MemberInvariants.MoveKeepsInv` | crates/woven-core/src/core.rs:1296-1350 | positions and cell index stay in agreement |
| `MemberInvariants.TransitionKeepsInv` | crates/woven-core/src/core.rs:1446-1477 | an entity in its new space leaves no scoped message, value or sequence behind |
| `MemberInvariants.DisconnectKeepsInv` | crates/woven-core/src/core.rs:2108-2159 | losing a transport leaves a consistent graph without the connection |
| `Fanout.FanoutKeepsInv` | crates/woven-core/src/core.rs:1712-1748 | fan-out queues messages only for subscribers of their space, at its current epoch |
| `Fanout.SoundNeverRefused` | crates/woven-core/src/queue.rs:126-129 | a validated message always has the key its queue demands |
| `Fanout.LosesExactly` | crates/woven-core/src/core.rs:1753-1758 | exactly the overflowed consumers are gone afterwards, and no session is |
| `Epochs.EpochNeverReused` | crates/woven-core/src/core.rs:840-955 | over any run, whatever sessions are dropped, a space and epoch pair that has gone never comes back unless its session had gone and returned |
| `Epochs.LaterRun` | crates/woven-core/src/core.rs:862-873 | as long as a session is there the epoch floors of its spaces never fall, whatever other sessions are dropped |
| `Epochs.IdentifiersGrow` | crates/woven-core/src/core.rs:957-981 | over any run connection and entity identifiers are never handed out twice |
| `Epochs.LaterIsOnward` | crates/woven-core/src/core.rs:840-955 | commands that keep all sessions and those that drop one are both steps of such runs |
| `Epochs.AdvanceLater` | crates/woven-core/src/core.rs:904-955 | advancing an epoch is later even when the cascade takes the space itself |
| `Anchors.AdvanceFailsExactly` | crates/woven-core/src/core.rs:934-949 | an accepted advance errs, after having removed the space, if and only if a chain of parent spaces and anchors leads from the space back to an anchor inside it |
| `Anchors.RemovedExactlyByChain` | crates/woven-core/src/core.rs:2268-2293 | emptying a space takes exactly the spaces from which such a chain leads back into it |
| `Anchors.RootsAdvance` | crates/woven-core/src/core.rs:904-955 | a space without a parent always advances |
| `Anchors.AnchorInsideFails` | crates/woven-core/src/core.rs:934-949 | a space whose own anchor has moved into it never advances |
| `AdvanceWitness.AdvanceIsNotAtomic` | crates/woven-core/src/core.rs:904-955 | a run of ten accepted commands to a consistent state in which advancing a space is accepted, removes the space and reports that it does not exist |
| `Publishing.PlannedIncreases` | crates/woven-core/src/core.rs:1597-1605 | within a batch the messages under one key carry strictly increasing sequences, and the plan holds at least the sequence of each |
| `Publishing.PlannedIsOk` | crates/woven-core/src/core.rs:1762-1828 | a validated batch names only current scopes, carries the keys its lanes need, and every planned sequence exceeds the stored one |
| `PublishEffects.AuthorizedBatch` | crates/woven-core/src/core.rs:1548-1596 | every verdict but a rejection, or too many emissions, lets through exactly the batch it describes |
| `PublishEffects.ValidExactly` | crates/woven-core/src/core.rs:1762-1828 | a message is valid if and only if it fits its channel, the payload limits, the keys of its class and a current scope, and is newer than what is stored and planned |
| `PublishEffects.PlansExactly` | crates/woven-core/src/core.rs:1597-1611 | a batch is planned if and only if each message fits and is newer than what is stored, consumed, or earlier in the batch under its key |
| `PublishEffects.CommitRecords` | crates/woven-core/src/core.rs:1684-1690 | every message of an accepted batch is on record under its key, and no other sequence changes |
| `PublishEffects.RecordedIsStale` | crates/woven-core/src/core.rs:1816-1826 | what is on record is refused the next time |
| `PublishEffects.PutAllRemembers` | crates/woven-core/src/core.rs:1691-1710 | under each key the last stateful message of the batch is stored, for as long as its channel says; every other value stays |
| `Publishing.ProjectCapacity` | crates/woven-core/src/core.rs:1851-1895 | the projected entry and byte counts of a batch, repeated keys included, are exactly those after the commit |
| `Publishing.CommitState` | crates/woven-core/src/core.rs:1684-1710 | the byte counter kept by difference is the sum of the stored lengths |
| `Publishing.CommitOk` | crates/woven-core/src/core.rs:1684-1710 | the committed session respects every limit and stays consistent |
| `PublishPipeline.SpendsOnlyBudgets` | crates/woven-core/src/core.rs:1491-1521 | charging a publish changes the two budgets of its publisher and nothing else |
| `PublishPipeline.SpentHasAccess` | crates/woven-core/src/core.rs:1491-1521 | a publish that both budgets admitted still passes every access check |
| `PublishPipeline.PlanPublish` | crates/woven-core/src/core.rs:1523-1650 | the answer is that of the first failing check in the order of the code, or a plan that can be committed without any further failure; only checks after the messages were found valid have swept expired state |
| `PublishPipeline.AppendDurable` | crates/woven-core/src/core.rs:1644-1665 | the outbox never refuses a record halfway through a batch |
| `PublishPipeline.WritePlan` | crates/woven-core/src/core.rs:1666-1710 | position, index, sequences and values are written as planned |
| `PublishPipeline.FanoutMessages` | crates/woven-core/src/core.rs:1712-1748 | message by message, recipients as routed, nothing further to a consumer that overflowed; what that delivers is Delivery.FanoutDelivers |
| `Delivery.ReadableIsReceivable` | crates/woven-core/src/core.rs:2705-2719 | a message may be queued for a connection exactly if its principal may read namespace, session, space and channel, by the four grant maps |
| `Delivery.FanoutDelivers` | crates/woven-core/src/core.rs:1712-1752 | over a whole batch, a connection is dropped if and only if its critical lane was full for a critical message that was for it; otherwise its queue was offered exactly what is for it, in order, and nothing else of it changes |
| `Delivery.CriticalArrive` | crates/woven-core/src/core.rs:1733-1750 | whoever is not dropped has every critical message of the batch that is for it at the end of its critical lane |
| `Delivery.UnreadableAddsNothing` | crates/woven-core/src/core.rs:1724-1750 | to whom nothing is routed that it may read, nothing is added |
| `Delivery.LossesKeepStanding` | crates/woven-core/src/core.rs:1753-1758 | the losses that follow take from the queues of the others exactly what names a space or entity that went |
| `Delivery.PublishReaches` | crates/woven-core/src/core.rs:1486-1760 | an accepted publish is delivered as above to every connection of the core, message by message, in the session as committed, with its sequences on record and its values stored |
| `Delivery.PublishReaching` | crates/woven-core/src/core.rs:1486-1760 | the publish of the core, together with what it means for every connection |
| `PublishPipeline.PublishIn` | crates/woven-core/src/core.rs:1486-1760 | all or nothing: an error is that of the first failing check, from the budgets through the proposal itself, the verdict, the batch and the limits, and leaves journal, queues, positions, cells, sequences and unexpired state unchanged, and the budgets as charged; success means that no check failed, and is the planned commit, its fan-out and the loss of exactly the overflowed consumers; what that delivers is Delivery.PublishReaches |
| `PublishPipeline.LoseConnection` | crates/woven-core/src/core.rs:2108-2159 | leaves every session in any order, then forgets the connection |
| `Core.WovenCore.ProvisionSession` | crates/woven-core/src/core.rs:628-638 | a new empty session, or an error and no change |
| `Core.WovenCore.SetSessionRateLimit` | crates/woven-core/src/core.rs:644-662 | the ceiling changes for the session and all its limiters; spent budget survives |
| `Core.WovenCore.InstallSpace` | crates/woven-core/src/core.rs:840-902 | the first failing check, or the space with its tombstone lifted |
| `Core.WovenCore.AdvanceSpaceEpoch` | crates/woven-core/src/core.rs:904-955 | the specified outcome, including the error after mutation |
| `Core.WovenCore.TransportConnected` | crates/woven-core/src/core.rs:957-981 | a connection id never used before |
| `Core.WovenCore.Authenticate` | crates/woven-core/src/core.rs:983-1012 | once per connection, never as principal zero |
| `Core.WovenCore.JoinSession` | crates/woven-core/src/core.rs:1087-1131 | membership or a limit error; expired budgets are pruned either way |
| `Core.WovenCore.LeaveSession` | crates/woven-core/src/core.rs:1133-1144 | members only; the cascade and every trace of the membership |
| `Core.WovenCore.TransportLost` | crates/woven-core/src/core.rs:2108-2159 | detached from all sessions and forgotten |
| `Core.WovenCore.SubscribeTo` | crates/woven-core/src/core.rs:1146-1189 | idempotent subscription within the limit |
| `Core.WovenCore.UnsubscribeFrom` | crates/woven-core/src/core.rs:1191-1227 | afterwards the connection is not subscribed |
| `Core.WovenCore.SpawnEntity` | crates/woven-core/src/core.rs:1229-1294 | a new entity id in the space at the epoch the caller named |
| `Core.WovenCore.UpdateEntityPosition` | crates/woven-core/src/core.rs:1296-1350 | accepted exactly when owner, access and the space allow; the cell follows |
| `Core.WovenCore.RemoveEntity` | crates/woven-core/src/core.rs:1352-1372 | owner only; the entity with everything that depends on it |
| `Core.WovenCore.TransitionEntity` | crates/woven-core/src/core.rs:1374-1479 | both ends checked; a transition to the same place changes nothing |
| `Core.WovenCore.PublishAt` | crates/woven-core/src/core.rs:1486-1760 | the all-or-nothing publish on the live tables; when accepted, every connection that is not lost has exactly what was routed to it and readable by the four grant maps, and only consumers with a full critical lane are lost |
| `Core.WovenCore.DrainOutboundForSpaces` | crates/woven-core/src/core.rs:2002-2021 | only messages of the given spaces leave |
| `CommandLaws.JoinAnswers` | crates/woven-core/src/core.rs:1087-1131 | a join goes through if and only if the connection has authenticated, may read namespace and session, the session exists, and it is a member already or has fewer memberships and kept budgets than allowed |
| `CommandLaws.JoinEffects` | crates/woven-core/src/core.rs:1103-1131 | membership on both sides, the budgets that still matter are kept, a missing one is opened unspent, and nothing else changes |
| `CommandLaws.LeaveAnswers` | crates/woven-core/src/core.rs:1133-1144 | accepted exactly from members |
| `CommandLaws.SubscribeAnswers` | crates/woven-core/src/core.rs:1146-1189 | accepted exactly with the right to read namespace, session and space, membership, and a subscription already held or room for one of an installed space |
| `CommandLaws.SubscribeEffects` | crates/woven-core/src/core.rs:1177-1188 | both sides know of the subscription and nothing else changes |
| `CommandLaws.UnsubscribeEffects` | crates/woven-core/src/core.rs:1205-1226 | both sides lose the subscription, the queue loses exactly the messages of the space |
| `CommandLaws.ValidatesExactly` | crates/woven-core/src/model.rs:180-256 | a descriptor is valid exactly with nonzero identifiers, another space as its parent, a positive scale, proper bounds in three dimensions only, and a grid of its own dimension with positive sizes |
| `CommandLaws.InstallAnswers` | crates/woven-core/src/core.rs:840-902 | accepted exactly for a valid descriptor of an unknown space with room, beyond the last epoch it had, and with its anchor in its parent space |
| `CommandLaws.InstallEffects` | crates/woven-core/src/core.rs:874-881 | one space without subscribers more, one tombstone less |
| `CommandLaws.AdvanceAnswers` | crates/woven-core/src/core.rs:904-925 | accepted exactly for an installed space and a larger epoch |
| `CommandLaws.SpawnAnswers` | crates/woven-core/src/core.rs:1229-1277 | accepted exactly with the right to write, membership, subscription, the current epoch, and room at connection and session |
| `CommandLaws.SpawnEffects` | crates/woven-core/src/core.rs:1277-1294 | one entity more, owned by the caller, in the space at its epoch, at no position, under an identifier that is used up |
| `CommandLaws.RepositionAnswers` | crates/woven-core/src/core.rs:1296-1330 | only the owner, with the right to write and a subscription where the entity is |
| `CommandLaws.PlaceAnswers` | crates/woven-core/src/model.rs:244-256 | a position is taken exactly if it has the dimension of the space, lies within its bounds and its cell is in range |
| `CommandLaws.PlaceEffects` | crates/woven-core/src/core.rs:1330-1350 | nothing but the position of the entity and its place in the index changes |
| `CommandLaws.RemoveAnswers` | crates/woven-core/src/core.rs:1352-1372 | only the owner, as a member |
| `CommandLaws.TransitionAnswers` | crates/woven-core/src/core.rs:1374-1445 | accepted exactly with the right to write and subscriptions at both ends, both at their current epochs, from the owner of an entity that is at the source |
| `CommandLaws.TransitionEffects` | crates/woven-core/src/core.rs:1446-1477 | the entity is in its new space, in no cell; exactly the values and sequences that concern it where it was are gone |
| `CommandLaws.TransitionQueues` | crates/woven-core/src/core.rs:1452-1477 | exactly the messages that concern the entity where it was leave the queues |
| `CommandLaws.PublishAnswers` | crates/woven-core/src/core.rs:1486-1521 | access takes the right to write namespace, session, space and channel, membership and a subscription |
| `CommandLaws.PlacePublishedAnswers` | crates/woven-core/src/core.rs:1612-1643 | a position may go with a publish exactly if it is a spatial one that the own entity of the publisher may take |
| `Core.WovenCore.SweepExpiredState` | crates/woven-core/src/core.rs:2047-2057 | every session loses exactly its expired values and its byte counter follows |
| `Core.WovenCore.PopJournalRecord` | crates/woven-core/src/journal.rs:63-66 | records leave in order |
| `Admission.DropKeepsNewest` | crates/woven-core/src/admission.rs:732-751 | pruning keeps all live tickets and, of the finished ones, the newest 1024 |
| `AdmissionInvariants.SettleOk` | crates/woven-core/src/admission.rs:778-801 | after applying a pending decrease and promoting, the decrease lies strictly below occupancy and nobody waits beside a free slot |
| `AdmissionInvariants.PromoteOk` | crates/woven-core/src/admission.rs:787-801 | offers go to the longest waiting, within capacity |
| `AdmissionInvariants.ExpireOk` | crates/woven-core/src/admission.rs:670-725 | expiry keeps all invariants, the limit and the active leases |
| `AdmissionInvariants.RequestJoinOk` | crates/woven-core/src/admission.rs:288-350 | direct admission only when nobody waits; a repeated request gets its one live ticket; limit and revision are kept |
| `AdmissionAnswers.JoinAnswers` | crates/woven-core/src/admission.rs:288-350 | exactly when each answer is given, on the state after expiry: a lease below the limit to whoever is not queued, a ticket to whoever is queued with this key or finds the queue enabled and with room, and a refusal of the queue only with the queue disabled |
| `AdmissionAnswers.JoinEffects` | crates/woven-core/src/admission.rs:321-350 | an admission is a new lease, a new ticket waits behind all others, any other answer changes nothing |
| `AdmissionAnswers.JoinedOnce` | crates/woven-core/src/admission.rs:304-320 | a queued principal has exactly one live ticket, and it is the one answered |
| `AdmissionAnswers.ExpireExactly` | crates/woven-core/src/admission.rs:670-725 | exactly the overdue tickets expire and the overdue reservations go; otherwise only waiting tickets change, by being offered a slot |
| `AdmissionAnswers.PruneExactly` | crates/woven-core/src/admission.rs:732-751 | what pruning drops: tickets finished a minute ago, and the oldest beyond the bound |
| `AdmissionInvariants.CancelOk` | crates/woven-core/src/admission.rs:367-388 | a cancelled ticket is never live again; leases are untouched |
| `AdmissionAnswers.CancelAnswers` | crates/woven-core/src/admission.rs:367-388 | exactly a live ticket is withdrawn, and no other one ends |
| `AdmissionAnswers.BeatExactly` | crates/woven-core/src/admission.rs:357-365 | a heartbeat counts exactly for a waiting ticket |
| `AdmissionInvariants.ClaimOk` | crates/woven-core/src/admission.rs:390-415 | claiming swaps an offer for a fresh lease: occupancy does not move |
| `AdmissionAnswers.ClaimAnswers` | crates/woven-core/src/admission.rs:390-415 | a claim succeeds if and only if the ticket was offered a slot; otherwise the answer names its state and nothing changes |
| `AdmissionAnswers.ClaimEffects` | crates/woven-core/src/admission.rs:400-415 | a successful claim is a new lease in the name of the ticket, which is finished by it |
| `AdmissionInvariants.ReleaseOk` | crates/woven-core/src/admission.rs:445-472 | exactly the released lease goes; the freed slot is settled at once |
| `AdmissionAnswers.ReleaseEffects` | crates/woven-core/src/admission.rs:445-472 | a place is reserved exactly when its lease was lost unexpectedly and the policy grants a grace |
| `AdmissionInvariants.RollbackOk` | crates/woven-core/src/admission.rs:420-443 | rolling back the lease just claimed always releases it, even if its ticket was pruned |
| `AdmissionInvariants.ResumeOk` | crates/woven-core/src/admission.rs:474-504 | resuming swaps a reservation for its lease: occupancy does not move |
| `AdmissionAnswers.ResumeAnswers` | crates/woven-core/src/admission.rs:474-504 | a place is resumed exactly while it is reserved for this principal, as the same lease |
| `AdmissionInvariants.ApplyCapacityOk` | crates/woven-core/src/admission.rs:506-520 | a newer update is the limit in force, an older one changes nothing |
| `AdmissionAnswers.CapacityEffects` | crates/woven-core/src/admission.rs:506-520 | a newer capacity below occupancy waits, any other is in force at once |
| `AdmissionInvariants.QueueOnlyAdvances` | crates/woven-core/src/admission.rs:645-668 | over any run the position of a waiting ticket is at least one and never increases |
| `AdmissionControllers.OccupancyExact` | crates/woven-core/src/admission.rs:615-624 | no count is clamped and the three-way sum stays within 32 bits |
| `AdmissionControllers.ReportPosition` | crates/woven-core/src/admission.rs:645-668 | counting through the queue gives the number of waiting tickets up to this one |
| `AdmissionControllers.PruneTerminal` | crates/woven-core/src/admission.rs:732-751 | the loop that drops old tickets is the specified pruning and keeps the index exact |
| `AdmissionControllers.ExpireEach` | crates/woven-core/src/admission.rs:684-707 | marking tickets one by one, in any order, expires exactly those due and keeps the index exact |
| `AdmissionControllers.PromoteFront` | crates/woven-core/src/admission.rs:787-801 | popping the queue front is promoting the longest waiting |
| `AdmissionControllers.AdmissionController.RequestJoinAt` | crates/woven-core/src/admission.rs:288-350 | queue, index and ticket table stay in agreement through a join, whose answers are those of AdmissionAnswers.JoinAnswers |
| `AdmissionControllers.AdmissionController.HeartbeatAt` | crates/woven-core/src/admission.rs:357-365 | refreshes a waiting ticket and reports its true position |
| `AdmissionControllers.AdmissionController.MaintainAt` | crates/woven-core/src/admission.rs:728-730 | expiry without client traffic |
| `AdmissionControllers.AdmissionController.CancelAt` | crates/woven-core/src/admission.rs:367-388 | the specified cancellation on the live tables |
| `AdmissionControllers.AdmissionController.ClaimOfferAt` | crates/woven-core/src/admission.rs:390-415 | the specified claim on the live tables |
| `AdmissionControllers.AdmissionController.RollbackClaimAt` | crates/woven-core/src/admission.rs:420-443 | the specified rollback on the live tables |
| `AdmissionControllers.AdmissionController.ReleaseAt` | crates/woven-core/src/admission.rs:445-472 | the specified release on the live tables |
| `AdmissionControllers.AdmissionController.ResumeAt` | crates/woven-core/src/admission.rs:474-504 | the specified resumption on the live tables |
| `AdmissionControllers.AdmissionController.ApplyCapacityAt` | crates/woven-core/src/admission.rs:506-520 | the specified capacity update on the live tables |
| `Ledgers.LeasesAccounted` | crates/woven-core/src/core.rs:707-831 | at every session with admission the active leases are exactly, each once, the leases held pending or bound, and the bound ones are exactly those of members |
| `Ledgers.HeldLeaseBinds` | crates/woven-core/src/core.rs:1049-1085 | the lease a connection holds always passes its own binding checks |
| `Ledgers.RequestIn` | crates/woven-core/src/core.rs:707-774 | what the connection already has is repeated, otherwise the controller decides, unless its ticket belongs to another connection; a grant is held pending, a ticket remembered, and nothing else changes; the books stay balanced |
| `Ledgers.KnownExactly` | crates/woven-core/src/core.rs:718-745 | the controller is asked exactly for holders without lease or ticket, while tickets, pending leases and memberships are fewer than allowed |
| `Ledgers.BindsExactly` | crates/woven-core/src/core.rs:1049-1085 | the binding checks pass exactly for the lease the connection holds |
| `Ledgers.RollbackAt` | crates/woven-core/src/core.rs:809-823 | a claim whose join failed is undone completely |
| `Ledgers.LoseHolder` | crates/woven-core/src/core.rs:2108-2159 | a lost connection gives back every lease and ticket; all others keep what they have; at every controller its bound lease is released as lost unexpectedly, a pending one as given back, its ticket is cancelled, and nothing else happens |
| `Rosters.JoinOutcomeRoster` | crates/woven-core/src/core.rs:1087-1131 | a successful join adds one membership, a refused one none |
| `Rosters.PublishedRoster` | crates/woven-core/src/core.rs:1712-1758 | a publish takes exactly the lost consumers off the roster |
| `AdmittedCores.AdmittedCore.ConfigureAdmission` | crates/woven-core/src/core.rs:667-690 | a controller for a provisioned session that has none; the books still balance if and only if nobody was a member before |
| `AdmissionWitness.ConfiguredTooLate` | crates/woven-core/src/core.rs:667-690 | a reached, consistent state with a member after which configuring admission leaves books that do not balance |
| `AdmittedCores.AdmittedCore.RequestAdmission` | crates/woven-core/src/core.rs:707-774 | the answer in every case, and what the ledger takes down; an admitted connection holds the lease it is told about |
| `AdmittedCores.RequestAnswers` | crates/woven-core/src/core.rs:707-717 | admission may be asked for by whoever could read the session |
| `AdmittedCores.LeaseExactly` | crates/woven-core/src/core.rs:1049-1085 | a connection may join on exactly the lease it holds |
| `AdmittedCores.AdmittedCore.JoinWithAdmission` | crates/woven-core/src/core.rs:1049-1085 | on the lease the connection holds, a join of the core decides: a pending lease becomes the bound lease of a member, or nothing happens to the ledger |
| `AdmittedCores.AdmittedCore.AdmitAndJoin` | crates/woven-core/src/managed.rs:737-755 | the answer is that of the request unless a granted lease meets a refused join; admitted means bound and member; whoever may ask and is refused has no pending lease, and memberships and bound leases are as before |
| `AdmittedCores.AdmittedCore.ClaimOffer` | crates/woven-core/src/core.rs:776-831 | the answer in every case: an own offered ticket whose join goes through becomes a membership; a failed join leaves leases and memberships as before the claim |
| `AdmittedCores.AdmittedCore.TouchTicket` | crates/woven-core/src/core.rs:802-808 | heartbeat and cancellation of the own ticket are those of the controller and move no lease; any other changes nothing |
| `AdmittedCores.AdmittedCore.MaintainAdmission` | crates/woven-core/src/core.rs:834-838 | every controller expires what is due, in any order, and no lease moves |
| `AdmittedCores.AdmittedCore.ApplySessionCapacity` | crates/woven-core/src/core.rs:693-705 | a newer update is in force at its controller, an older one changes nothing, no lease moves and no other controller is touched |
| `AdmittedCores.AdmittedCore.JoinSession` | crates/woven-core/src/core.rs:1025-1035 | a session with admission cannot be joined without a lease |
| `AdmittedCores.AdmittedCore.LeaveSession` | crates/woven-core/src/core.rs:1133-1144 | membership and bound lease go together, the lease as given back on purpose |
| `AdmittedCores.AdmittedCore.TransportLost` | crates/woven-core/src/core.rs:2108-2173 | no lease or ticket of the connection survives, and each controller did exactly what that takes |
| `AdmittedCores.AdmittedCore.PublishAt` | crates/woven-core/src/core.rs:1753-1758 | the consumers a publish drops lose their leases like any lost connection; an accepted publish is delivered as on the core alone |
| `AdmittedCores.AdmittedCore.LoseScoped` | crates/woven-core/src/managed.rs:413-420 | exactly the memberships of the given connections go, whether or not some of them are gone already |
| `AdmittedCores.AdmittedCore.DeleteScope` | crates/woven-core/src/managed.rs:402-429 | session, controller, leases and tickets of the scope are gone, exactly the memberships of its connections go, every other session and controller only moved on; tables and books are consistent if and only if every member of the session was among those connections |
| `Core.WovenCore.RemoveSession` | crates/woven-core/src/managed.rs:421-422 | the session is taken off the core; the tables stay consistent if and only if nobody was a member |
| `Teardown.DropExactly` | crates/woven-core/src/managed.rs:413-422 | dropping a session keeps every table consistent if and only if nobody is a member of it |
| `Teardown.DropKeepsLedger` | crates/woven-core/src/managed.rs:421-427 | forgetting a controller together with all leases and tickets held there keeps the books balanced |
| `ManagedScopes.PutIn` | crates/woven-core/src/managed.rs:449-519 | creates, repeats or refuses; configuration invariants and credentials stay as required; a new session has its two system spaces and the configured limit, and nobody and nothing in it |
| `ManagedScopes.SystemInstalls` | crates/woven-core/src/managed.rs:521-543 | installing the two system spaces of a new scope passes every check, so configuring a new scope cannot fail |
| `ManagedScopes.BuildSystemSession` | crates/woven-core/src/managed.rs:521-543 | the new session is installed step by step |
| `ManagedScopes.PatchIn` | crates/woven-core/src/managed.rs:559-621 | accepted only forward in revision; every other scope is untouched, and of the patched session nothing but the publish limit changes |
| `ManagedScopes.ChangeScope` | crates/woven-core/src/managed.rs:590-620 | an accepted patch is never stale for its controller: the limit in force becomes the configured one; of the session nothing but its publish limit changes, which mirrors the new configuration |
| `ManagedScopes.PatchedMirrors` | crates/woven-core/src/managed.rs:590-610 | with the new limit the session mirrors the patched scope: no limit without a tick, and otherwise exactly that many publishes a second |
| `ManagedScopes.GrownMirrors` | crates/woven-core/src/managed.rs:660-694 | with the new space the session mirrors the grown scope |
| `ManagedScopes.ClientsKeepMirrors` | crates/woven-core/src/managed.rs:521-694 | whatever clients do, every live session keeps exactly the two system spaces and the spaces of its scope, with the limit of its scope |
| `Rosters.RootsStay` | crates/woven-core/src/core.rs:2268-2293 | no cascade takes a space without a parent |
| `Rosters.DisconnectServes` | crates/woven-core/src/core.rs:2108-2159 | losing a connection leaves every session its limit, and of its spaces takes none without a parent and changes none |
| `ManagedScopes.PutSpaceIn` | crates/woven-core/src/managed.rs:623-694 | one space per revision step, within the cap, repeatable; the session gains exactly that space |
| `ManagedScopes.DeleteIn` | crates/woven-core/src/managed.rs:402-429 | the scope is retired for good in the configuration; session and controller go, the credential stays on record |
| `ManagedScopes.ProgressRun` | crates/woven-core/src/managed.rs:367-429 | over any run revisions never decrease, retired scopes never revive and credentials never change |
| `ManagedScopes.ClientsKeepLimits` | crates/woven-core/src/admission.rs:774-785 | whatever the client commands of the core do, each controller keeps the configured capacity and its revision at most the scope revision |
| `ManagedScopes.LimitsOverRuns` | crates/woven-core/src/managed.rs:590-620 | at every moment of any run that mixes requests and clients, exactly the scopes that are not retired have a controller, and it enforces the configured capacity |
| `ManagedScopes.RetiredStaysAway` | crates/woven-core/src/managed.rs:402-429 | over such runs a session that has gone never returns |
| `ManagedScopes.RetiredIsRefused` | crates/woven-core/src/managed.rs:449-519 | a retired key is never provisioned again, whatever is asked for |
| `ManagedScopes.ManagedEpochNeverReused` | crates/woven-core/src/managed.rs:402-429 | on a managed core a space and epoch pair that has gone never comes back, not even through the deletion of its scope |
| `ManagedScopes.DeletedTogether` | crates/woven-core/src/managed.rs:402-429 | the configuration, sessions and controllers after a deletion on the core are what the delete request leaves |
| `ManagedScopes.RetriesAreIdempotent` | crates/woven-core/src/managed.rs:449-694 | repeating an accepted put, patch or space request is answered without a change |
| `ManagedLaws.PutAnswers` | crates/woven-core/src/managed.rs:449-519 | a scope is created exactly for an unused key above the boundary, under a credential of its own, while there is room; a repetition is recognised exactly by the same configuration and credential |
| `ManagedLaws.PatchAnswers` | crates/woven-core/src/managed.rs:559-590 | a live scope is changed exactly by a newer revision, by the next one right after a migration |
| `ManagedLaws.PutSpaceAnswers` | crates/woven-core/src/managed.rs:623-660 | a live scope takes a space exactly at its next revision, under an unused identifier, while there is room and its session can install it |
| `ManagedLaws.DeleteAnswers` | crates/woven-core/src/managed.rs:402-412 | a deletion goes through exactly at the revision on record |
| `Hex.VerifierRoundTrip` | crates/woven-core/src/managed_checkpoint.rs:656-673 | every nonzero verifier survives being written and read back |
| `Hex.TextCanonical` | crates/woven-core/src/managed_checkpoint.rs:656-673 | only the canonical lowercase text of a verifier is accepted |
| `Hex.DecodeVerifier` | crates/woven-core/src/managed_checkpoint.rs:656-673 | the decoding loop is the specification |
| `Checkpoints.DescriptorRoundTrip` | crates/woven-core/src/managed_checkpoint.rs:145-203 | a managed space survives export and restore |
| `Checkpoints.IntoScopeSound` | crates/woven-core/src/managed_checkpoint.rs:224-292 | whatever entry is accepted satisfies the invariant that every request keeps |
| `Checkpoints.IntoScopeComplete` | crates/woven-core/src/managed_checkpoint.rs:224-292 | every reachable scope is read back exactly |
| `Checkpoints.ReadScopesComplete` | crates/woven-core/src/managed_checkpoint.rs:371-400 | reading the exported scopes succeeds and yields the same scopes |
| `Checkpoints.ExportRestores` | crates/woven-core/src/managed_checkpoint.rs:297-431 | every reachable configuration is exported as a checkpoint that a fresh core with the same administrator and configuration accepts, yielding the same scopes |
| `Checkpoints.RestoreSound` | crates/woven-core/src/managed_checkpoint.rs:342-431 | a checkpoint from anywhere is only accepted if its scopes satisfy the invariants of the configuration and all limits |
| `Reachability.ScopeMade` | crates/woven-core/src/managed.rs:449-694 | every scope within the invariant, above the migration boundary, is produced by accepted requests: a put, one request per space, a patch or a delete as its last mutation says |
| `Reachability.LeadsKeeps` | crates/woven-core/src/managed.rs:367-429 | whatever accepted requests produce from a new core satisfies the checks of a restore |
| `Reachability.RestoresExactlyTheReachable` | crates/woven-core/src/managed_checkpoint.rs:224-431 | with no scope from below a migration boundary, some checkpoint restores a set of scopes if and only if some sequence of accepted requests to a new core produces it |
| `Checkpoints.BuildAll` | crates/woven-core/src/managed_checkpoint.rs:402-422 | once the checkpoint is read, no construction step can fail |
| `Checkpoints.RestoreIn` | crates/woven-core/src/managed_checkpoint.rs:342-431 | taken over completely or not at all; every live scope then has its session with exactly its spaces and limit and nobody and nothing in it, and an empty controller at its capacity and revision |
| `Checkpoints.RestoredAnew` | crates/woven-core/src/managed_checkpoint.rs:402-422 | the sessions built mirror their scopes and start anew, and so do their controllers |
| `Checkpoints.SourcesAgree` | crates/woven-core/src/managed_checkpoint.rs:297-431 | two configurations with the same scopes have sessions with the same limits and spaces |
| `Checkpoints.RestartRoundTrip` | crates/woven-core/src/managed_checkpoint.rs:297-431 | export, restart, restore, export: the second checkpoint is the first, and every live session is back with the same limit and the same spaces, empty |
| `Checkpoints.ManagedCore.Put` | crates/woven-core/src/managed.rs:449-519 | the put request on the live configuration; a new session is furnished and empty |
| `Checkpoints.ManagedCore.Patch` | crates/woven-core/src/managed.rs:559-621 | the patch request on the live configuration; the session then has exactly the limit of its scope, and nothing else of it changed |
| `Checkpoints.ManagedCore.PutSpace` | crates/woven-core/src/managed.rs:623-694 | the space request on the live configuration; the session gains exactly that space |
| `Checkpoints.ManagedCore.Delete` | crates/woven-core/src/managed.rs:402-429 | the delete request on the live configuration |
| `Checkpoints.ManagedCore.ExportCheckpoint` | crates/woven-core/src/managed_checkpoint.rs:297-337 | the export is always restorable |
| `Checkpoints.ManagedCore.RestoreCheckpoint` | crates/woven-core/src/managed_checkpoint.rs:342-431 | restore on a fresh core, with every session, space, limit and controller back |
| `Framing.PrefixRoundTrip` | crates/woven-protocol/src/codec.rs:193-208 | every length written as a little-endian prefix is read back as itself, and accepted exactly from eight bytes up to the frame limit |
| `Framing.ParseAppend` | crates/woven-client-rust/src/stream.rs:17-42 | parsing does not depend on where the stream was cut |
| `Framing.ParseKeepsBytes` | crates/woven-client-rust/src/stream.rs:17-42 | no byte is lost, repeated or reordered |
| `Framing.FramesWellFormed` | crates/woven-protocol/src/codec.rs:193-208 | every frame handed on carries its own length and respects the limit |
| `Framing.RestIsPartial` | crates/woven-client-rust/src/stream.rs:17-42 | what stays buffered is an incomplete frame, shorter than the limit |
| `Framing.RunParsesWholeStream` | crates/woven-client-rust/src/stream.rs:17-42 | however reads and cancelled calls split the stream, frames, rest and first framing error are those of the whole stream |
| `FrameReaders.StreamReadState.Recv` | crates/woven-client-rust/src/stream.rs:17-42 | one receive call keeps what it took when dropped; a bad prefix is reported again without reading on; the buffer stays within the frame limit |
| `FrameReaders.ChunksConcatenate` | crates/woven-client-ts/src/client.ts:1183-1211 | two chunks in a row are as good as one |
| `FrameReaders.ChunkReader.Take` | crates/woven-client-ts/src/client.ts:1157-1161 | hands out the first pending envelope that matches, the others keep their order |
| `ChunkRuns.TakeReads` | crates/woven-client-ts/src/client.ts:1157-1161 | a take hands out the earliest matching envelope of the whole stream that was not handed out before |
| `ChunkRuns.RunReads` | crates/woven-client-ts/src/client.ts:1149-1238 | over any run of chunks and takes, whatever the matchers, the decoded envelopes are those of the whole stream, each is handed out at most once, the others are pending in stream order, and a failed chunk got as far as the stream allows |
| `ChunkRuns.InOrder` | crates/woven-client-ts/src/client.ts:1149-1238 | takes that accept anything hand out in stream order: handed out and pending together are the decoded stream |
| `FrameReaders.ErrorIsFinal` | crates/woven-client-ts/src/client.ts:1183-1238 | what stopped the reader stops it whatever else the chunk holds |
| `FrameReaders.ChunkReader.IngestChunk` | crates/woven-client-ts/src/client.ts:1183-1238 | the frames of buffer and chunk together, in order, as far as they fit and decode, with the buffer within the frame limit and at most 64 pending |
| `ToolGateway.OnceExactlyWhenClean` | crates/woven-inference-tools/src/lib.rs:228-266 | no revision can be handed out twice, at any point of a run, if and only if every publish taken for a present caller was for the next revision with nobody else about to store |
| `ToolGateway.CleanRunsInStep` | crates/woven-inference-tools/src/lib.rs:243-262 | in such runs completed calls got the revisions 2, 3 and so on, each once, in order |
| `ToolGateway.OneContextIsClean` | crates/woven-core/src/core.rs:424-431 | with one context whose key the core keeps, the sequence check alone makes every run such a run, and the stored number is the revision or one ahead, whatever calls are dropped and whenever |
| `ToolGateway.RacersExclude` | crates/woven-inference-tools/src/lib.rs:228-266 | of calls with the same context and number at most one is ever published, over any run that keeps the key |
| `ToolGateway.WedgedWhileRemembered` | crates/woven-inference-tools/src/lib.rs:243-262 | over any run in the same context that keeps the key, a wedged tool completes nothing |
| `ToolGateway.WedgedExactlyBy` | crates/woven-transport/src/lib.rs:249-259 | a step wedges the tool if and only if it drops a caller whose publish was taken and not stored, or the worker takes a publish whose caller was dropped while it was queued |
| `ToolGateway.UndisturbedCall` | crates/woven-inference-tools/src/lib.rs:228-266 | an undisturbed call with the current revision completes if and only if the other checks pass and the core stores no number of its context beyond the revision |
| `ToolGateway.ForgettingUnwedges` | crates/woven-core/src/core.rs:1464-1468 | a wedged tool completes again once the core drops the key, and in another context |
| `ToolGateway.TwoContextsDuplicate` | crates/woven-inference-tools/src/lib.rs:228-266 | a run in which two contexts are both given revision 2 |
| `ToolGateway.ForgottenKeyDuplicates` | crates/woven-core/src/core.rs:1464-1468 | a run in which a dropped key lets revision 2 be given out twice |
| `ToolGateway.CoreTakesOnlyNewer` | crates/woven-core/src/core.rs:1816-1826 | the core accepts only sequences newer than the stored one |

## Left out

- FlatBuffers encoding and decoding: only the length prefix is modelled; decoding a frame is a parameter.
- Rounding of IEEE-754 numbers: positions and distances are exact reals, the cell range check is kept.
- The authenticator and the channel authorities: their verdicts are parameters of the commands.
- Registration of channels: the channels are given when the core is created.
- Reports of a command (cleanup summaries and the counters of a publish other than the queue activity) and usage counters.
- Session snapshots, lookups and other commands that only read.
- The rate of admission requests per managed connection, four a second: an extra refusal before any of the modelled steps.
- Exhaustion of 64-bit identifiers beyond the guard in the join request; identifiers are unbounded.
- Cancelling all tickets of a principal, which repeats the modelled cancellation.
- Granting a new managed space to connected clients, and the credentials of managed clients: grants are data of the connection.
- Core.WovenCore: one record holds all tables, so sharing and updates of parts in place are not visible; the order in which a command touches different tables is not observable either.
- Ledgers.LeasesAccounted: stated for sessions whose admission was configured before anybody joined; otherwise the books do not balance, as ConfigureAdmission states.
- AdmittedCores.AdmittedCore.DeleteScope: the connections of the scope are a parameter; that managed clients are granted their own session only, so that they cover its members, is not modelled.
- RoutingLaws.RoutedExactly: exact for spaces without coarse routing; coarse routing is bounded from both sides by Routing.CoarseReachesMore and RoutingLaws.CoarseIsClose.
- Budgets.AcceptedPublishesBounded: stated for sessions that stay limited; without a policy there is no bound.
- ManagedScopes.LimitsOverRuns: configuration and core with the ledger are two objects; the run is stated over their common state.
- ToolGateway.OneContextIsClean: nobody but the tool publishes under its key, and queued commands may be worked off in any order.
- Other commands of the core do not change who is connected, authenticated or a member; they are not repeated on the core with the ledger.
- FrameReaders.StreamReadState.Recv: a read delivers between one byte and what fits; when the reads given to a call run out, the call counts as dropped.
- Time-outs, promises, the datagram lane, transports, HTTP routes, metrics, the command line, inference providers and the load tester.
