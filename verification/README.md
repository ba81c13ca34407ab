# Verified model of the Temporal s2s-proxy

The s2s-proxy sits between two Temporal clusters and relays their replication streams. This
project models the parts of it whose correctness is not visible from any single function, and
proves what they promise over all inputs, all interleavings or all runs.

- **Replication routing.** A receiver reads the task stream of one source shard, regroups the
  tasks by target shard and hands each group to the target's sender. The sender renumbers the
  tasks into its own contiguous proxy ID space and remembers the originals in a growing ring;
  a target acknowledgement is turned back into one acknowledgement per source shard, and the
  receiver sends the minimum over its targets upstream. An acknowledgement W says "everything
  strictly below W is done". `IdLog`, `IdRing`, `Delivery`, `StreamSender`, `StreamReceiver` and
  `AckAggregation` model the pieces; `SenderProtocol` interleaves the two goroutines of a sender;
  `RoutingSystem` puts one source, any number of targets, the traffic of other sources and the
  relays between proxies together and proves that no acknowledgement overtakes unfinished work
  while relayed watermarks are in line; `RelayWatermarks` proves that condition exact.
- **Shard ownership and peer streams.** `ShardOwnership` is the register/evict protocol between
  nodes; `PeerStreams` is the reconciler that opens and prunes streams to peer proxies, and
  `ReceiverLifecycle` follows the receivers of one key over time.
- **Mux pool.** `MuxPool` is the connect loop, the session table and the dial table.
- **Stream forwarding and shard remapping.** `StreamForwarder`, `ShardRemap`.
- **Payload protection.** `Sealing` (payloads, failures, interceptor nesting) and `KeyRegistry`.
- **Renaming and counting.** `Renaming`, `StreamCounter`.

## How the model is built

An object that the source updates in place is a class with the same fields; each method is one
critical section (or one call) and is specified by a function on a value. A protocol is a state
machine `Enabled`/`Next` over those same functions, `IsRun(states, actions)` is a run of it, and
each theorem is about every state of every run. `Replay` methods drive the classes through an
arbitrary run, so the machines are not a second, independent description. The outside world
(whether a send succeeds, who accepts a delivery, what a clock says, whether a key opens) enters
as parameters or as nondeterministic steps.

Properties that the code does not have in full are stated exactly:

- `IdRing.Ring.Append` survives a gap in proxy IDs if and only if the filled gap does not leave
  the array exactly full; the sender never leaves a gap, so its ring is always sound.
- A relay between proxies remembers the watermark of every message, task batches included, and
  hands it to targets that register later. End-to-end safety therefore fails in general:
  `RelayWatermarks.RelayCanOvertake` gives a run for any two targets and any two IDs. It holds in
  every run whose relayed watermarks are in line, that is, exceed neither the source's watermark
  nor any ID waiting behind them (`RoutingSystem.AcksNeverOvertakeWork`). From every state in
  which no other target holds the aggregated minimum down, every continuation stays safe if and
  only if the watermark is in line (`RelayWatermarks.RelayIsSafeIffInLine`). The direct
  receiver's own watermarks are always in line.
- At most one owner per shard holds in every run in which each broadcast is stamped later than the
  registrations by which other nodes still hold the shard; from every settled state a takeover can
  leave two owners if and only if its broadcast is stamped no later than the owner's registration
  (`ShardOwnership.TwoOwnersIffStampedLate`).
- The second delete of an unregistration asks no question. When it finds the shard held, what it
  removes is always a registration made after the first delete
  (`ShardOwnership.SecondDeleteHitsNewer`), and from every state there is a run in which it does
  (`ReRegisteredIsLost`).
- A running receiver keeps its shutdown handle if and only if no stream is ensured before the
  previous one has opened and no receiver ends after a newer one was registered
  (`ReceiverLifecycle.AlwaysStoppableIffTidy`).
- Turning a watermark into a per-shard maximum is safe for every watermark if and only if no task
  is queued below an earlier value of its source (`SenderProtocol.MaximumIsSafeIffOrdered`).
- Upstream acknowledgements never fall if and only if no send is clamped below the previous one
  (`AckAggregation.MonotoneIffNeverClampedBelow`), which the source contract rules out;
  `EarlyAckCanFall` is a run without that contract.
- A failure chain survives the crossing if and only if none of its failures already carried
  readable attributes with the proxy's own marker (`Sealing.ChainRoundTrips`).
- `LCM` is the least common multiple if and only if the product fits 32 bits.
- Renaming and renaming back is the identity if and only if no unmapped name lies in the range of
  the mapping.
- The stream observer panics if and only if an index outside the table overflows its growth. The
  comment in the source says the table grows to 125% of the index; the code grows it to 9/8.

## Model

| member | source | states |
|---|---|---|
| `IdLog.Covered` | proxy/proxy_streams.go:97-107 | the number of ring entries a watermark covers, its own proxy ID included, never more than there are |
| `IdLog.AckMapIsShardMaximum` | proxy/proxy_streams.go:109-123 | the aggregated map has exactly the real source shards of the covered entries, each with its largest task, and every level is an entry of that shard |
| `IdLog.ShardMaximumIsUnique` | proxy/proxy_streams.go:109-123 | no other map has that property |
| `IdRing.Slot` | proxy/proxy_streams.go:53-55 | wrap-around index arithmetic stays inside the array |
| `IdRing.DoublingsAreSparse` | proxy/proxy_streams.go:46-62 | two capacities reached by doubling are equal or a factor of two apart, which pins down when filling a gap ends on a full array |
| `IdRing.Ring.constructor` | proxy/proxy_streams.go:38-43 | an empty ring of at least one slot |
| `IdRing.Ring.EnsureCapacity` | proxy/proxy_streams.go:45-62 | there is room afterwards and the contents are unchanged, although the array may be a new one read from another head |
| `IdRing.Ring.Push` | proxy/proxy_streams.go:87-92 | the unchecked write appends exactly when the array has room, and otherwise destroys the head |
| `IdRing.Ring.FillGap` | proxy/proxy_streams.go:75-84 | one hole per missing proxy ID; the array ends exactly full iff the new size is a doubling of the capacity |
| `IdRing.Ring.Append` | proxy/proxy_streams.go:65-93 | for any proxy ID: it is found at its own index with holes at the skipped ones and the earlier entries before them, and the ring survives iff it does not overrun |
| `IdRing.Ring.AggregateUpTo` | proxy/proxy_streams.go:95-124 | the per-shard maximum of the covered prefix and its length |
| `IdRing.Ring.Discard` | proxy/proxy_streams.go:126-137 | drops a prefix and moves the first proxy ID by as much; negative and oversized counts included |
| `IdRing.Do` | proxy/proxy_streams.go:65-137 | one contiguous operation on the array ring changes and answers what it does on a plain sequence |
| `IdRing.RunRing` | proxy/proxy_streams.go:45-137 | every run of contiguous operations on the array ring, across doublings and wrap-around, answers like a plain sequence |
| `Delivery.SendRound` | proxy/proxy_streams.go:837-864 | one pass sends every accepting unsent shard once, and the remaining count is the number of unsent shards |
| `Delivery.DeliverAll` | proxy/proxy_streams.go:822-873 | over all rounds, the shards sent are exactly those some round accepts, each once; the loop completes iff that is all of them, else it stops at the shutdown |
| `StreamSender.Sender.constructor` | proxy/proxy_streams.go:208-237 | the sender starts with an empty ring and no IDs issued |
| `StreamSender.Sender.Allocate` | proxy/proxy_streams.go:480-485 | the next proxy ID always continues the ring, so no append meets a gap |
| `StreamSender.Sender.Rewrite` | proxy/proxy_streams.go:470-507 | every task keeps its place and body and gets the next proxy ID, as raw ID too exactly if it had one; the watermark is one past the last ID, or the one ID an empty batch takes |
| `StreamSender.Sender.RewriteTasks` | proxy/proxy_streams.go:479-493 | the loop gives each task the next proxy ID, body and presence of the raw ID kept, and records each original in order |
| `StreamSender.RecordMeans` | proxy/proxy_streams.go:478-506 | what a batch leaves in the ring: behind the earlier entries every original ID of this source in order, or the watermark of an empty batch, one entry per proxy ID issued |
| `StreamSender.Sender.Aggregate` | proxy/proxy_streams.go:300-302 | the first critical section of an acknowledgement |
| `StreamSender.Sender.RecordAck` | proxy/proxy_streams.go:340-343 | remembers the level forwarded to one source, and touches nothing else |
| `StreamSender.Sender.Remember` | proxy/proxy_streams.go:340-343 | remembers the levels taken by their sources over the earlier ones |
| `StreamSender.Sender.Discard` | proxy/proxy_streams.go:418-423 | drops covered entries and keeps the ring continued by the next proxy ID |
| `StreamSender.Sender.NoteSent` | proxy/proxy_streams.go:516-520 | the keepalive watermark is the last one sent |
| `StreamSender.Sender.Forward` | proxy/proxy_streams.go:306-416 | each level goes to its source once accepted; fresh levels, and only they, are remembered, and only for the sources that took them |
| `StreamSender.Sender.HandleAck` | proxy/proxy_streams.go:292-423 | the levels are the per-shard maximum of the covered entries, or the previous levels if none is real; each goes once to every source that accepts; the covered prefix leaves the ring iff every source took its level before a shutdown, and otherwise the ring is untouched; afterwards the remembered level of a source is the new one iff it took it |
| `StreamSender.Sender.ForwardAndDiscard` | proxy/proxy_streams.go:292-423 | the three critical sections in turn have the effect of the specification of one acknowledgement |
| `StreamSender.LevelsForward` | proxy/proxy_streams.go:300-306 | which levels an acknowledgement forwards: the per-shard maximum of the covered entries if one of them is real, else the previous levels |
| `StreamSender.AfterAckMeans` | proxy/proxy_streams.go:340-423 | the state after an acknowledgement, source by source and entry by entry, shutdown included |
| `SenderProtocol.StepKeepsInv` | proxy/proxy_streams.go:274-555 | every critical section or send of either goroutine keeps the joint invariant of ring, history, pending acknowledgement and wire |
| `SenderProtocol.RunKeepsInv` | proxy/proxy_streams.go:274-555 | the invariant holds in every state of every interleaving |
| `SenderProtocol.FreshLevelsWitnessed` | proxy/proxy_streams.go:300-302 | every aggregated level is a value recorded at a proxy ID the target has reached |
| `SenderProtocol.ForwardedIsSettled` | proxy/proxy_streams.go:306-343 | when every level is forwarded, every covered entry is acknowledged to its source at or above its value |
| `SenderProtocol.OrderPreventsOvertaking` | proxy/proxy_streams.go:300-423 | in any state whose levels are recorded values the target has reached, queue order of a source means that no level forwarded for it exceeds an unacknowledged task of it |
| `SenderProtocol.AcksNeverOvertake` | proxy/proxy_streams.go:300-423 | in every interleaving, no level forwarded for a source exceeds the original ID of a task of it that the target has not acknowledged, given queue order of that source alone |
| `SenderProtocol.OrderedIsSafe` | proxy/proxy_streams.go:95-124 | in queue order, the per-shard maximum is safe at every watermark |
| `SenderProtocol.DisorderIsUnsafe` | proxy/proxy_streams.go:95-124 | any task recorded behind a larger value of its source is acknowledged too early at the watermark that reaches the larger value |
| `SenderProtocol.MaximumIsSafeIffOrdered` | proxy/proxy_streams.go:95-124 | for a recorded history, the per-shard maximum is a sound inverse of the renumbering at every watermark iff the history is in queue order |
| `SenderProtocol.NothingLostUnacknowledged` | proxy/proxy_streams.go:300-423 | every real entry ever removed from the ring has had an acknowledgement at or above its ID forwarded to its source |
| `SenderProtocol.AggregationSurvives` | proxy/proxy_streams.go:300-423 | appends between aggregation and discard leave the aggregated prefix in place |
| `SenderProtocol.DiscardRemovesWhatWasAggregated` | proxy/proxy_streams.go:418-423 | a discard removes exactly the entries its own acknowledgement aggregated, whatever was appended meanwhile |
| `SenderProtocol.ShutdownDiscardsNothing` | proxy/proxy_streams.go:311-316 | once the acknowledgement loop has ended nothing more is discarded |
| `SenderProtocol.TopIsLargestWatermark` | proxy/proxy_streams.go:292-302 | the acknowledged mark in every safety claim is the largest watermark the target has sent |
| `SenderProtocol.RunRemembersLevels` | proxy/proxy_streams.go:340-343 | in every interleaving the remembered level of a source is the one forwarded to it last, and every source forwarded to is remembered |
| `SenderProtocol.IdleAckRepeatsLevels` | proxy/proxy_streams.go:359-416 | an acknowledgement that covers no real entry repeats, for every source ever forwarded to, the level forwarded last |
| `SenderProtocol.HandlingIsARun` | proxy/proxy_streams.go:292-423 | one call that handles an acknowledgement is a run of the protocol: aggregate, one forward per source that took its level, then discard or end, with the same final state and the same levels forwarded |
| `SenderProtocol.LastSentIsLastHigh` | proxy/proxy_streams.go:516-520 | in every run the keepalive watermark is that of the last message sent |
| `SenderProtocol.KeepaliveRepeats` | proxy/proxy_streams.go:526-549 | a keepalive has no tasks and repeats the watermark of the message before it |
| `SenderProtocol.KeepaliveIff` | proxy/proxy_streams.go:526-533 | the send loop may send one iff it is between messages and the last watermark sent is positive |
| `SenderProtocol.StreamStaysWellFormed` | proxy/proxy_streams.go:447-549 | over the whole run, keepalives included: IDs rise, watermarks never fall, each ID is below its own watermark and not below any earlier one |
| `SenderProtocol.StepOnlyAdds` | proxy/proxy_streams.go:478-506 | history only grows, by exactly what the step records |
| `SenderProtocol.RewriteIds` | proxy/proxy_streams.go:470-507 | the sender object emits the wire message the protocol step says |
| `SenderProtocol.Do` | proxy/proxy_streams.go:274-555 | the sender object takes every step of the protocol |
| `SenderProtocol.Replay` | proxy/proxy_streams.go:274-555 | the sender object driven through any run emits and forwards exactly what the run says |
| `StreamReceiver.PositionsAreRouted` | proxy/proxy_streams.go:717-724 | a task is in a target's share iff it has raw info with both names and the hash of namespace and workflow, in that order, names that target |
| `StreamReceiver.ShareSelects` | proxy/proxy_streams.go:717-724 | a target's share is the message's tasks whose namespace and workflow hash to it, in source order, each once |
| `StreamReceiver.NamedTaskIsShared` | proxy/proxy_streams.go:717-724 | a task with both names is in the share of the shard its namespace and workflow hash to |
| `StreamReceiver.SharedTaskIsNamed` | proxy/proxy_streams.go:717-724 | and a task in a share is of that kind |
| `StreamReceiver.GroupByTarget` | proxy/proxy_streams.go:715-724 | the grouping loop partitions the routable tasks: groups are exactly the nonempty shares, and a task is in a group iff its namespace and workflow hash to that target |
| `StreamReceiver.LastIsRoutable` | proxy/proxy_streams.go:848-848 | the last task of a group has raw info, so its watermark can be read |
| `StreamReceiver.Pack` | proxy/proxy_streams.go:842-853 | a delivered message carries one whole group and the watermark of its last task |
| `StreamReceiver.Route` | proxy/proxy_streams.go:713-873 | routing conserves tasks: each delivered message is a whole share with the watermark one past its last task, goes once to the shard its workflows hash to, and when the loop completes, which is exactly when all targets accepted, every task with both names has been delivered |
| `AckAggregation.StepKeepsInv` | proxy/proxy_streams.go:966-1061 | each step of either goroutine keeps the acknowledgement invariant under the source contract |
| `AckAggregation.UpstreamAcksMonotoneAndBounded` | proxy/proxy_streams.go:978-1055 | in every run: levels sent upstream never fall; computed ones are at most every known target's level and the last source watermark; keepalives repeat an earlier computed level |
| `AckAggregation.SendsAreOfTheirTime` | proxy/proxy_streams.go:978-1055 | the targets known and the watermark a sent level is compared with are those of the moment it was sent |
| `AckAggregation.RunRemembersLast` | proxy/proxy_streams.go:1028-1034 | whatever the source does, the remembered acknowledgement is the last one sent |
| `AckAggregation.KeepaliveIff` | proxy/proxy_streams.go:1038-1042 | the receiver may repeat an acknowledgement iff it is between two and has sent one |
| `AckAggregation.MonotoneIffNeverClampedBelow` | proxy/proxy_streams.go:996-1003 | with no assumption at all, levels never fall iff no send is clamped below the previous one |
| `AckAggregation.EarlyAckCanFall` | proxy/proxy_streams.go:998-1003 | a run in which an acknowledgement before the first watermark makes the levels fall |
| `AckAggregation.Aggregator.constructor` | proxy/proxy_streams.go:599-694 | no target known, nothing sent |
| `AckAggregation.Aggregator.SetHigh` | proxy/proxy_streams.go:729-732 | the last source watermark, and nothing else, changes |
| `AckAggregation.Aggregator.TakeAck` | proxy/proxy_streams.go:982-995 | the loop finds the minimum over all targets, read together with the source watermark |
| `AckAggregation.Aggregator.SendUp` | proxy/proxy_streams.go:996-1034 | sent is the minimum, or the source watermark where that is positive and smaller; nothing is sent below the last minimum; and what is remembered of it |
| `AckAggregation.Replay` | proxy/proxy_streams.go:966-1061 | the object driven through any run sends exactly the levels the run says |
| `RoutingSystem.Enqueue` | proxy/proxy_streams.go:822-873 | delivering a group to its queue keeps a target's line in order |
| `RoutingSystem.Insert` | proxy/intra_proxy_router.go:391-433 | a watermark slipped in anywhere keeps the line in order if it exceeds no ID behind it |
| `RoutingSystem.DirectPushIsInLine` | proxy/proxy_streams.go:743-752 | the watermarks the direct receiver remembers, of empty batches only, are always in line |
| `RoutingSystem.Dequeue` | proxy/proxy_streams.go:452-507 | taking the front batch into the ring keeps the line in order |
| `RoutingSystem.GroupFits` | proxy/proxy_streams.go:715-724 | a group inherits the source stream's order and bounds |
| `RoutingSystem.LineIsOrdered` | proxy/proxy_streams.go:478-506 | a target's line in order means its sender records the source in queue order |
| `RoutingSystem.WaitingIsNotBelow` | proxy/proxy_streams.go:822-873 | no forwarded level exceeds a task that is still queued or undelivered |
| `RoutingSystem.BelowLevelIsDone` | proxy/proxy_streams.go:300-343 | a routed task below a level forwarded by its target was recorded, every recorded copy of it is acknowledged in proxy ID space, and none waits |
| `RoutingSystem.DoneKept` | proxy/proxy_streams.go:274-1061 | acknowledged tasks stay acknowledged, even when IDs repeat |
| `RoutingSystem.SendUpIsSafe` | proxy/proxy_streams.go:978-1028 | an aggregated level is safe for every task of every known target |
| `RoutingSystem.AggregatorMeetsContract` | proxy/proxy_streams.go:729-732 | in the system a positive watermark always precedes the first acknowledgement, so the receiver's contract is met |
| `RoutingSystem.StepKeepsBase` | proxy/proxy_streams.go:274-1061 | every step, late relays included, keeps the part of the invariant that does not depend on queue order |
| `RoutingSystem.ReceiveKeepsLines` | proxy/proxy_streams.go:713-752 | receiving a message keeps all lines in order and all sends safe |
| `RoutingSystem.QueueingKeepsLines` | proxy/proxy_streams.go:767-873 | so does delivering a group, or pushing a watermark of any earlier empty batch at any time |
| `RoutingSystem.RelayKeepsLines` | proxy/intra_proxy_router.go:391-451 | so does a relayed watermark of any earlier batch, task batches included, at any position of the queue, if it is in line |
| `RoutingSystem.ConsumeKeepsLines` | proxy/proxy_streams.go:452-507 | so does a sender taking a batch |
| `RoutingSystem.SenderStepKeepsLines` | proxy/proxy_streams.go:274-555 | so does every other sender step, traffic of other sources included |
| `RoutingSystem.AggregatorKeepsLines` | proxy/proxy_streams.go:966-1061 | so do taking, sending and repeating acknowledgements, with duplicated and reordered levels |
| `RoutingSystem.InitialInv` | proxy/proxy_streams.go:599-694 | the system invariant holds initially, for any set of targets |
| `RoutingSystem.RunKeepsInv` | proxy/proxy_streams.go:274-1061 | it holds in every state of every run whose relayed watermarks are in line |
| `RoutingSystem.AcksNeverOvertakeWork` | proxy/proxy_streams.go:978-1028 | end to end: in every interleaving whose relayed watermarks are in line, whenever acknowledgement A has gone upstream, every routed task of the source below A whose target was known then has been acknowledged by that target, in all its copies |
| `RoutingSystem.SendersRecordInOrder` | proxy/proxy_streams.go:470-507 | in every such run every sender records the source in queue order, as a consequence of the source's promise alone, and so forwards no level past an unacknowledged task |
| `RoutingSystem.UpstreamIsMonotone` | proxy/proxy_streams.go:978-1055 | end to end: in every run, late relays included, upstream levels never fall and stay bounded |
| `RoutingSystem.RoutedIsReceived` | proxy/proxy_streams.go:713-724 | the tasks the safety claims speak of are exactly those of any received message that have both names, at the target they hash to |
| `RoutingSystem.GroupsAreRouted` | proxy/proxy_streams.go:842-853 | the batches the system queues are the shares of the receiver, task by task, with the watermark of the last one |
| `RoutingSystem.WatermarksAreRemembered` | proxy/proxy_streams.go:743-752 | the direct receiver may push exactly the watermarks of the empty messages received |
| `RoutingSystem.RelaysRememberAll` | proxy/intra_proxy_router.go:300-306 | a relay may push exactly the watermarks of the batches queued so far, task batches included |
| `RoutingSystem.ReturnedIsForwarded` | proxy/proxy_streams.go:336-343 | the receiver may take up exactly the levels the senders have forwarded for its source |
| `RelayWatermarks.TakeBatches` | proxy/proxy_streams.go:452-520 | a running sender can take any number of batches from its queue while nothing else moves |
| `RelayWatermarks.FullAckReaches` | proxy/proxy_streams.go:300-302 | a target that acknowledges everything acknowledges at least the last value of the source |
| `RelayWatermarks.OvertakenIsAcknowledged` | proxy/proxy_streams.go:300-423 | from any state with a watermark queued ahead of a smaller waiting ID, a run sends an acknowledgement past that ID |
| `RelayWatermarks.LateRelayOvertakes` | proxy/intra_proxy_router.go:391-451 | a relayed watermark that is not in line has a continuation, with no further late watermark, that acknowledges a waiting task |
| `RelayWatermarks.RelayIsSafeIffInLine` | proxy/intra_proxy_router.go:300-306 | when the target's sender runs and no other target holds the minimum down, a relayed watermark keeps every continuation safe iff it is in line |
| `RelayWatermarks.RelayCanOvertake` | proxy/intra_proxy_router.go:391-451 | for any two targets of a cluster and any two IDs, a run in which the relayed watermark of the larger task's batch overtakes the smaller task |
| `ShardOwnership.ShardManager.constructor` | proxy/shard_manager.go:178-206 | a node owns nothing at first |
| `ShardOwnership.ShardManager.AddLocalShard` | proxy/shard_manager.go:1051-1060 | the shard is held with the current time, whatever was there |
| `ShardOwnership.ShardManager.UnregisterFirst` | proxy/shard_manager.go:512-519 | the first delete happens iff the registration is held with exactly the expected time, and every other registration keeps its own |
| `ShardOwnership.ShardManager.RemoveLocalShard` | proxy/shard_manager.go:1062-1068 | the second delete is unconditional |
| `ShardOwnership.ShardManager.NotifyRegister` | proxy/shard_manager.go:1005-1016 | a register message evicts iff the local registration is strictly older, and names that registration |
| `ShardOwnership.LostIff` | proxy/shard_manager.go:512-523 | a node loses a shard iff an unregistration names the very registration it holds or a second delete runs; a registration is replaced only by a new one |
| `ShardOwnership.SecondDeletesAreOwed` | proxy/shard_manager.go:518-523 | in every run each successful first delete owes exactly one second delete, and there is no other |
| `ShardOwnership.SecondDeleteHitsNewer` | proxy/shard_manager.go:1062-1068 | in every run, when a pending second delete finds the shard held, the registration it removes was made after the first delete |
| `ShardOwnership.ReRegisteredIsLost` | proxy/shard_manager.go:512-523 | from every state, registering between the two deletes of one unregistration loses the new registration |
| `ShardOwnership.DoomedKept` | proxy/shard_manager.go:484-523 | a registration made before another node's stays pursued by a pending broadcast, message or eviction |
| `ShardOwnership.StepKeepsInv` | proxy/shard_manager.go:484-523 | every step keeps the ownership invariant |
| `ShardOwnership.RunKeepsInv` | proxy/shard_manager.go:484-523 | it holds in every state of every run whose broadcasts are stamped later than the earlier registrations by which other nodes still hold the shard |
| `ShardOwnership.OwnerIsNewest` | proxy/shard_manager.go:1001-1016 | at quiescence an owner's registration was made after every one of another node |
| `ShardOwnership.AtMostOneOwner` | proxy/shard_manager.go:880-951 | for any number of nodes and any reordering of messages, no two nodes hold a shard at quiescence, under that condition on broadcast stamps alone |
| `ShardOwnership.SharedClockSuffices` | proxy/shard_manager.go:885-890 | one shared, strictly increasing clock meets the condition |
| `ShardOwnership.LateStampKeepsBoth` | proxy/shard_manager.go:1005-1016 | a takeover whose broadcast is stamped no later than the owner's registration can settle with two owners |
| `ShardOwnership.EarlyStampLeavesOne` | proxy/shard_manager.go:1005-1016 | a takeover stamped later never does |
| `ShardOwnership.TwoOwnersIffStampedLate` | proxy/shard_manager.go:1005-1016 | from every settled state of a cluster of any size, a takeover can settle with two owners iff its broadcast is stamped no later than the owner's registration |
| `ShardOwnership.SkewedClocksKeepTwoOwners` | proxy/shard_manager.go:885-890 | for every cluster, every two nodes and all stamps with the second broadcast late, a run that settles with two owners |
| `ShardOwnership.Do` | proxy/shard_manager.go:484-523 | the manager objects take every step of the protocol, the eviction decision included |
| `ShardOwnership.Replay` | proxy/shard_manager.go:484-523 | the manager objects driven through any run end with the run's registries |
| `PeerStreams.DirectionsAreDisjoint` | proxy/intra_proxy_router.go:857-882 | disjoint local and remote shards give disjoint desired sets |
| `PeerStreams.BuildDesired` | proxy/intra_proxy_router.go:857-882 | the nested loops build exactly the pairs of a local and a remote shard of different clusters, in both directions, each receiver with a peer that has its source |
| `PeerStreams.AddLocal` | proxy/intra_proxy_router.go:859-868 | one local shard contributes exactly its pairs with every peer |
| `PeerStreams.AddPeer` | proxy/intra_proxy_router.go:861-866 | one peer contributes exactly its pairs with that shard |
| `PeerStreams.PruneSurvivors` | proxy/intra_proxy_router.go:892-913 | exactly which receivers and senders survive a prune, although closing a key drops both directions, and that every receiver left has its own shutdown handle and no handle is left over |
| `PeerStreams.WantedSurviveIff` | proxy/intra_proxy_router.go:769-793 | a wanted stream is lost iff its key was also an unwanted stream of the other direction |
| `PeerStreams.OneMoreEnsured` | proxy/intra_proxy_router.go:886-889 | ensuring one more receiver adds that receiver at its peer and changes no sender |
| `PeerStreams.PeerManager.constructor` | proxy/intra_proxy_router.go:63-81 | no peers at first |
| `PeerStreams.PeerManager.RegisterSender` | proxy/intra_proxy_router.go:453-478 | a cross-cluster sender is added, a same-cluster one is ignored |
| `PeerStreams.PeerManager.UnregisterSender` | proxy/intra_proxy_router.go:480-493 | one sender of one peer is removed |
| `PeerStreams.PeerManager.EnsureStream` | proxy/intra_proxy_router.go:603-649 | an established receiver is kept, otherwise a new one and its shutdown handle are installed together |
| `PeerStreams.PeerManager.ReceiverOpened` | proxy/intra_proxy_router.go:246-253 | the receiver becomes established if it is still the registered one, and otherwise nothing changes |
| `PeerStreams.PeerManager.ReceiverEnded` | proxy/intra_proxy_router.go:652-661 | an ending goroutine removes receiver and shutdown handle of its key, whoever is registered there |
| `PeerStreams.PeerManager.CloseShard` | proxy/intra_proxy_router.go:769-793 | closing a key removes receiver, shutdown handle and sender of that key |
| `PeerStreams.PeerManager.CloseEach` | proxy/intra_proxy_router.go:900-912 | closing a list of keys closes exactly those |
| `PeerStreams.PeerManager.Check` | proxy/intra_proxy_router.go:892-913 | collecting and closing in two passes equals the prune of both directions |
| `PeerStreams.PeerManager.PruneAll` | proxy/intra_proxy_router.go:915-925 | every peer is pruned, whatever state the lock was taken in |
| `PeerStreams.PeerManager.EnsureAll` | proxy/intra_proxy_router.go:886-889 | exactly the wanted receivers at peers that can be dialled are added |
| `PeerStreams.PrunedSurvive` | proxy/intra_proxy_router.go:892-913 | ensuring and then pruning leaves exactly the surviving streams |
| `PeerStreams.PeerManager.Reconcile` | proxy/intra_proxy_router.go:841-926 | a peer that has the source shard is chosen for every wanted receiver, and at every peer the streams left are exactly the wanted ones among the old and the newly opened, less those whose key was also an unwanted stream of the other direction |
| `PeerStreams.PeerManager.ReconcilePeer` | proxy/intra_proxy_router.go:915-919 | the same exact survivors for one named peer, leaving the streams of all others |
| `ReceiverLifecycle.StoppableIffTidy` | proxy/intra_proxy_router.go:603-661 | when every running receiver has its own shutdown handle, a step keeps that iff it neither replaces an unopened receiver nor ends one behind a newer registration |
| `ReceiverLifecycle.RunKeepsInv` | proxy/intra_proxy_router.go:603-661 | in every run the registered receiver is running and handles are not reused |
| `ReceiverLifecycle.AlwaysStoppableIffTidy` | proxy/intra_proxy_router.go:603-661 | in every run, every receiver could be stopped at all times iff every step was of that kind |
| `ReceiverLifecycle.CloseStopsAll` | proxy/intra_proxy_router.go:769-793 | closing the key then leaves no receiver running |
| `ReceiverLifecycle.StaleEndOrphans` | proxy/intra_proxy_router.go:652-661 | from every state with a registered receiver: close, reconnect, and let the old goroutine end, and the new receiver runs without a handle; the next reconciliation starts a second stream beside it |
| `ReceiverLifecycle.Do` | proxy/intra_proxy_router.go:603-661 | the manager object takes every step of that machine |
| `ReceiverLifecycle.Replay` | proxy/intra_proxy_router.go:603-661 | the manager object driven through any run registers the run's receiver |
| `MuxPool.DialTable.constructor` | transport/grpcutil/multi_client_conn.go:54-77 | nothing can be dialled at first |
| `MuxPool.DialTable.Update` | transport/grpcutil/multi_client_conn.go:79-102 | the loop rebuilds the dial table with exactly the sessions given |
| `MuxPool.MuxManager.DialRegistered` | transport/grpcutil/multi_client_conn.go:131-143 | the client's dialer reaches a session iff it is registered with the manager, and that very session |
| `MuxPool.DialableIffStillOpen` | transport/mux/multi_mux_manager.go:105-130 | in every run, an ID can be dialled iff it was issued and its close callback has not run |
| `MuxPool.MuxManager.constructor` | transport/mux/multi_mux_manager.go:62-88 | no sessions, no IDs issued |
| `MuxPool.MuxManager.AddConnection` | transport/mux/multi_mux_manager.go:105-121 | while live, a session is registered under a new ID and can be dialled at once; after the lifetime ended nothing changes |
| `MuxPool.MuxManager.Unregister` | transport/mux/multi_mux_manager.go:123-130 | the session is gone from both tables |
| `MuxPool.IdsKept` | transport/mux/multi_mux_manager.go:105-130 | every step keeps the two tables equal and IDs unused |
| `MuxPool.BalanceKept` | transport/mux/provider.go:102-159 | every step moves exactly the permits it takes or gives back |
| `MuxPool.RunKeepsInv` | transport/mux/provider.go:90-209 | both hold in every state of every run |
| `MuxPool.PermitsAreConserved` | transport/mux/provider.go:102-180 | permits held are muxes, closing muxes, the attempt in flight, drained, probing and (after the lifetime only) kept ones; muxes never exceed the capacity, no release exceeds what is held, and a close callback always finds its mux |
| `MuxPool.HeldIsTakenLessGiven` | transport/mux/provider.go:102-180 | in every run the permits held are those taken by the loop, by draining and by probes, less those given back |
| `MuxPool.LoopLastsAsLongAsLifetime` | transport/mux/provider.go:102-159 | the connect loop never ends while the lifetime lasts, which is until it is ended |
| `MuxPool.PoolCanFill` | transport/mux/provider.go:102-159 | the bound is tight: for every capacity a run reaches any number of muxes up to it |
| `MuxPool.DialTableAgrees` | transport/mux/multi_mux_manager.go:90-130 | after every step the dial table has exactly the registered muxes, and no ID is ever issued twice |
| `MuxPool.Replay` | transport/mux/multi_mux_manager.go:105-130 | the manager and table objects driven through any run end with the run's tables |
| `StreamForwarder.LaneStepKeeps` | proxy/admin_stream_transfer.go:41-58 | no receive, hand-over, send or stop of one direction loses or reorders what was read |
| `StreamForwarder.RunKeepsInv` | proxy/admin_stream_transfer.go:105-308 | the invariant of both directions and the latch holds in every interleaving |
| `StreamForwarder.SentIsPrefixOfReceived` | proxy/admin_stream_transfer.go:165-308 | each side has been sent an in-order, duplicate-free prefix of what came from the other |
| `StreamForwarder.VisitErrorWasHanded` | proxy/admin_stream_transfer.go:192-199 | in every run the error is set iff a VisitError was handed to the source direction's loop |
| `StreamForwarder.ErrorIffVisitErrorEndedSource` | proxy/admin_stream_transfer.go:105-163 | Run returns an error iff the stream could not be opened or a VisitError was handed over and ended the source direction, and which of the two |
| `StreamForwarder.ShutdownIsPrompt` | proxy/admin_stream_transfer.go:41-58 | once the latch is set each direction sends at most what it is sending and one message more |
| `StreamForwarder.LatchedRunCanFinish` | proxy/admin_stream_transfer.go:176-184 | from every state with the latch set, at most one step ends either direction, leaving the other as it is |
| `StreamForwarder.ForwardLoop` | proxy/admin_stream_transfer.go:176-229 | a loop sends everything before the value that ends it, and ends for the reason that value gives |
| `Sealing.PositionsPick` | interceptor/encryptor.go:315-322 | the collected indices are exactly the unsealed payloads, in order |
| `Sealing.Gather` | interceptor/encryptor.go:315-322 | the gathering loop collects those payloads with those indices |
| `Sealing.Scatter` | interceptor/encryptor.go:333-336 | the results land at those indices and nowhere else |
| `Sealing.SealUnlessSealed` | interceptor/encryptor.go:313-340 | a position-preserving pointwise map; it fails iff there is something to seal and the codec fails |
| `Sealing.SealPayloads` | interceptor/encryptor.go:182-186 | with the encryptor's own test it seals each payload on its own |
| `Sealing.SealIsIdempotentAndOpens` | interceptor/encryptor.go:313-359 | sealing twice is sealing once, and opening undoes sealing for every payload that was not the proxy's |
| `Sealing.EachPayloadIsSealed` | interceptor/encryptor.go:342-359 | of an outgoing message every payload is sealed in its place, save those the proxy sealed (its encoding, a key ID and a wrapped key) or in a configured encoding |
| `Sealing.FailureMessage.constructor` | interceptor/failure.go:24-28 | the failure as given |
| `Sealing.FailureMessage.Encode` | interceptor/failure.go:24-35 | in place: message and stack trace move into attributes with the proxy's marker unless there are attributes already, and only the placeholder is left |
| `Sealing.FailureMessage.Restore` | interceptor/failure.go:46-69 | in place: only marked, opened and readable attributes are put back; any others stay as they came |
| `Sealing.OneRoundTrips` | interceptor/failure.go:24-69 | one failure comes back unchanged iff it carried no attributes marked as the proxy's |
| `Sealing.ChainRoundTrips` | interceptor/failure.go:24-77 | the same for cause chains of any depth, in every configuration |
| `Sealing.EncodedTextIsSealed` | interceptor/failure.go:24-35 | with failures encoded, no text of any failure in a chain without prior attributes crosses unsealed |
| `Sealing.OnlyOurEncodingIsRestored` | interceptor/failure.go:46-62 | attributes without the marker, still sealed or unreadable stay exactly as they came |
| `Sealing.OutgoingIsHidden` | interceptor/encryptor.go:183-186 | every payload of every failure in a chain of any depth, attributes included, is sealed, the proxy's or in a configured encoding, and nothing else changes |
| `Sealing.FailuresGoOut` | interceptor/encryptor.go:161-230 | each failure of a message is encoded and then sealed |
| `Sealing.NothingLeavesUnsealed` | interceptor/encryptor.go:161-230 | with encryption on, no payload and no failure of an outgoing message leaves unsealed |
| `Sealing.InterceptorHides` | interceptor/encryptor.go:161-230 | so it is for the interceptor itself: the request when forwarding and the reply when reversed, with the other side opened and restored |
| `Sealing.RefusedIff` | interceptor/encryptor.go:162-170 | construction is refused iff encryption has no vault or failure encoding has no encryption |
| `Sealing.NoVaultChangesNothing` | interceptor/encryptor.go:199-203 | without a vault request and reply pass unchanged |
| `Sealing.ChainOfVisitors` | interceptor/failure.go:79-90 | the outer interceptor sees the request first and the reply last |
| `Sealing.NestingOrdersTheVisits` | interceptor/encryptor.go:183-229 | in both settings of Reverse, encode runs before seal and restore after open |
| `Sealing.PayloadsRoundTrip` | interceptor/encryptor.go:183-192 | sealing and opening a payload list gives it back |
| `Sealing.MessageRoundTrips` | interceptor/encryptor.go:161-230 | a whole message comes back, between any two configurations with a vault |
| `Sealing.FacingProxiesAreTransparent` | interceptor/encryptor.go:161-230 | a proxy and its reversed peer are together invisible: the server sees the client's request and the client the server's reply |
| `ShardRemap.Wrap32` | common/common.go:64-69 | 32-bit wrap-around: in range, congruent modulo 2^32, the identity inside the range |
| `ShardRemap.RemKeepsDivisors` | common/common.go:55-57 | a truncated remainder step keeps the common divisors, whatever the signs |
| `ShardRemap.GCD` | common/common.go:47-59 | terminates with the greatest common divisor up to sign for all nonzero inputs, positive for positive ones, zero if either is zero |
| `ShardRemap.Bezout` | common/common.go:47-59 | a common divisor that is an integer combination exists |
| `ShardRemap.ProductOverGcdIsLcm` | common/common.go:64-69 | the product over the gcd divides every common multiple |
| `ShardRemap.LcmIsUnique` | common/common.go:64-69 | there is one least common multiple |
| `ShardRemap.LCM` | common/common.go:64-69 | with 32-bit wrap-around, the result is the least common multiple iff the product fits |
| `ShardRemap.RemapTo` | proxy/admin_stream_transfer.go:342-343 | a presented shard maps to exactly one shard of a count that divides the presented one, the one the workflow hashes to |
| `ShardRemap.RemapAgreesWithDirectHash` | proxy/admin_stream_transfer.go:327-343 | for both clusters: hashing to the least common multiple and remapping equals hashing directly |
| `ShardRemap.MapsToCongruentShard` | proxy/admin_stream_transfer.go:481-488 | mapping to no more shards gives one shard, congruent to the given one and in range |
| `ShardRemap.MapShardIDUnique` | proxy/admin_stream_transfer.go:481-488 | panics iff the target count is the larger one |
| `ShardRemap.RemapStream` | proxy/admin_stream_transfer.go:326-343 | with the computed LCM, for every workflow the panic is unreachable and the stream goes to the workflow's own shard |
| `Renaming.NewStaticBiMap` | collect/bimap.go:31-51 | succeeds iff all keys are distinct and all values are distinct; the two maps are then mutual inverses holding exactly the pairs |
| `Renaming.HoldsIsInverse` | collect/bimap.go:31-51 | two maps built from the same pairs invert each other |
| `Renaming.TranslateIndexedFields` | interceptor/reflection.go:260-277 | every field is found under its mapped name, or its own if unmapped, and none is invented; the flag says whether any name was mapped |
| `Renaming.BackAndForth` | collect/bimap.go:53-72 | a name comes back iff it is mapped or outside the range |
| `Renaming.StraylessRestored` | interceptor/reflection.go:260-277 | without stray names every field map is restored |
| `Renaming.StrayIsMoved` | interceptor/reflection.go:260-277 | an unmapped name in the range is never there after the round trip |
| `Renaming.RenamingRoundTrips` | interceptor/reflection.go:260-277 | renaming and renaming back restores the map iff no unmapped name lies in the range |
| `Renaming.RenameAndBack` | interceptor/reflection.go:260-277 | the same of the loop itself, run in both directions |
| `KeyRegistry.KeyService.constructor` | encryption/vault/registry.go:28-30 | no key is open at first |
| `KeyRegistry.KeyService.Create` | encryption/vault/registry.go:28-30 | a successful call opens one new key, a failing one none |
| `KeyRegistry.KeyService.Close` | encryption/vault/registry.go:66-75 | that key, and no other, is closed |
| `KeyRegistry.Builder.constructor` | encryption/vault/registry.go:46-47 | nothing opened yet |
| `KeyRegistry.Builder.CreateKEKs` | encryption/vault/registry.go:134-170 | opens the policy's own key, then its decrypt-only keys, succeeding iff all open; whatever was opened, also on failure, is remembered |
| `KeyRegistry.Builder.NsOptions` | encryption/vault/registry.go:109-132 | the policy's own key wraps for the default or its namespace, the others only decrypt |
| `KeyRegistry.Builder.AddPolicy` | encryption/vault/registry.go:87-104 | one more policy of the plan: its options follow, or the plan as a whole cannot open |
| `KeyRegistry.Builder.AddFixed` | encryption/vault/registry.go:79-94 | default first, then replication if configured |
| `KeyRegistry.Builder.AddOverrides` | encryption/vault/registry.go:96-106 | then the overrides in order |
| `KeyRegistry.Builder.ToOptions` | encryption/vault/registry.go:78-107 | succeeds iff every key of the plan opens; the builder remembers exactly what is open either way |
| `KeyRegistry.Builder.CloseOpened` | encryption/vault/registry.go:66-76 | closes every remembered key and no other |
| `KeyRegistry.OpenPrefix` | encryption/vault/registry.go:78-107 | the plan opens policy by policy |
| `KeyRegistry.KeysAppearInOrder` | encryption/vault/registry.go:134-170 | every opened key appears in exactly one option, in the order of opening |
| `KeyRegistry.PolicyWrapsWithItsOwnKey` | encryption/vault/registry.go:120-125 | each policy wraps with the key of its own URI |
| `KeyRegistry.DecryptKeysFollow` | encryption/vault/registry.go:126-131 | the decrypt-only keys of every policy follow its own in order, and only decrypt |
| `KeyRegistry.WrappingKeysArePolicies` | encryption/vault/registry.go:109-132 | every key that wraps is a policy's own |
| `KeyRegistry.ConfiguredKeysWrap` | encryption/vault/registry.go:78-107 | the default policy's key is the default, replication's wraps for `$replication` if configured, and every override's for its namespace, each with its own URI |
| `KeyRegistry.OnlyConfiguredKeysWrap` | encryption/vault/registry.go:78-107 | there is one default key, and no other namespace gets a key |
| `KeyRegistry.CreateRegistry` | encryption/vault/registry.go:46-62 | succeeds iff every key opens and the registry accepts; a success closes nothing, a failure leaves open exactly what was open before |
| `StreamCounter.GrowthFitsIff` | proxy/replication_stream_observer.go:46-53 | growing in 32 bits gives nine eighths of the successor and reaches the index iff nine times the successor fits |
| `StreamCounter.Observer.constructor` | proxy/replication_stream_observer.go:31-39 | 1024 zero counters |
| `StreamCounter.Observer.ReportStreamValue` | proxy/replication_stream_observer.go:40-56 | a report panics (leaving the lock held) iff its index is outside the table and nine times its successor overflows; otherwise only its own counter changes, with 32-bit wrap-around, and growth keeps all others |
| `StreamCounter.OneMoreReport` | proxy/replication_stream_observer.go:40-56 | one report keeps every counter equal to the sum of its reports |
| `StreamCounter.Run` | proxy/replication_stream_observer.go:40-56 | over any run: no panic iff each report applies to the table the earlier ones left, and then every counter is the 32-bit sum of its reports across all growths |

## Left out

- gRPC, yamux, TLS, memberlist gossip and key services: foreign; their outcomes are parameters or nondeterministic steps.
- `MapShardID` and the workflow hash: foreign; the first is modelled by its modular contract, the second is an arbitrary function (`Placement`) or a number.
- The payload codec and vault: foreign; `Lawful` and `Encodes` state their contract. Errors of the vault are modelled in `SealUnlessSealed` but not in the composed interceptors. `NewKEKRegistry` is an accept/refuse parameter. The metadata keys and the placeholder text of the codec library are stand-ins.
- 64-bit overflow of task IDs, message priority and watermark timestamps.
- Wall-clock backoff, keepalive timing and liveness: a timer tick is a step that may happen at any time.
- Stream reconnects: the routing theorems are about one stream incarnation per source and target.
- RoutingSystem.AcksNeverOvertakeWork: says nothing about targets that have never acknowledged, because the receiver takes the minimum over known targets only; and it needs the relayed watermarks in line, because it is false otherwise (`RelayCanOvertake`).
- RelayWatermarks.RelayIsSafeIffInLine: asks that the target's sender still runs, that no candidate is pending and that no other known target's level is below the watermark, since any of these can hide a late watermark for good; a watermark above the source's own is covered while no group is undelivered.
- StreamSender.Sender.HandleAck: handles one acknowledgement with the send loop quiet; `SenderProtocol.HandlingIsARun` places it among the runs of the interleaved form, which `SenderProtocol` is about.
- Tasks and failure chains are values: the in-place update of shared task objects is not modelled; a single failure message is (`FailureMessage`).
- ShardOwnership.AtMostOneOwner: needs every register broadcast delivered and its stamp ahead of the registrations it has to displace; `TwoOwnersIffStampedLate` shows that it must. Zero owners is possible. Unregister broadcasts and the merging of remote node states do not affect ownership and are left out.
- PeerStreams.PeerManager.ReceiverEnded: a peer's maps are a value under its name, so a goroutine holding on to the maps of a closed peer is not modelled, and neither is closing a whole peer.
- MuxPool.PermitsAreConserved: drained permits are never given back, and the session's close callback runs once. A second client listener, health checks and the server side of a session are left out.
- `createRegistry` takes the overrides sorted by name; the model takes any listing of them without repetition.
- `PrintActiveStreams`, debug snapshots, the stream tracker, metrics, logging, configuration parsing, pass-through services, generated visitors and the reflection walk: thin, repetitive or observability only.
