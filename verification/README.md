# Malstrom: a verified model of rescaling, snapshots and event time

Malstrom is a stream processor. Records flow through graphs of operators on several workers, keyed state lives on
the worker that owns the key, and the cluster can change its size while records keep flowing. This project models
the parts of `malstrom-core` that make this safe and proves them in Dafny. `dafny verify dfyconfig.toml` checks
everything.

Where the program updates something in place there is a class whose methods are proved equal to a function of the
old state; what the program promises is then proved about those functions, for every input, every run and every
interleaving. Runs are sequences of states related by possible steps, or sequences of steps applied to a start
state in which a step that is not possible changes nothing.

## Modules

* Rescaling. `Router` (routing, whitelist, buffer, hand-over, quorum as functions of one worker's state),
  `Distributor` (the same as objects updated in place), `Cluster` (n workers, a FIFO channel per pair, one stateful
  operator behind each distributor), `LocalInvariant`, `LocalSteps`, `PairInvariant` and `ClusterInvariant` (what
  every step keeps), `RescaleSafety`, `RescaleFold` and `RescaleProgress` (what follows), `Handshake`, `Completion`
  and `RescaleConservation` (what holds however packets are delivered), `RescaleEnds` (no run is ever stuck),
  `RescaleRaces` (what goes wrong without A3).
* Alignment. `OperatorIo` (`Output::send`, `Input::recv`), `Alignment` and `AlignmentProgress` (any number of edges,
  any schedule), `Dag` (any operator graph fed by one root; completion of a snapshot by reference count),
  `DagProgress` (it can always be completed), `Reconfigure` (completion of a reconfiguration by reference count),
  `ConsistentCut` and `EpochPromise` (barriers and epochs across workers), `CutProgress` and `EpochProgress` (that
  they get through).
* State. `StatefulOp` (the operator and the per-key fold it must agree with), `Handover` (moving a key between two
  chains of operators), `Pipeline` (a chain under any schedule), `Recovery` and `RecoveryProgress` (crashes and
  restarts), `Source` (the partitions of a stateful source).
* Coordination. `WatchMap`, `Coordinator`, `CoordinatorRounds` (how a request is carried out), and `LateRemoval`
  (exactly when adding workers is safe).
* Event time and partitioning. `EventTime`, `Partitioners`.

## Assumptions and findings

Three assumptions about the environment of a rescale are written into the model.

* A1: channels are reliable and FIFO, and only one rescale is under way. The rescale message reaches each worker at
  any time, and again as long as the router is not Normal.
* A2: all workers start on the same set. `perform_reconfig_all` builds added workers with the already enlarged set
  (`coordinator.rs:364-367`, `479-481`). The model has both kinds of workers (`Config.late`), and every theorem holds
  for every configuration unless it says otherwise. `RescaleSafety.SingleOwnerIff` shows what late workers cost: a
  key has a single owner in all runs if and only if its new owner was not built with the enlarged set. So scaling
  down is safe, and so is scaling up for every key that does not move to an added worker; for one that does,
  `RescaleSafety.TwoOwners` gives the run.
* A3: what a worker sends past Interrogate is received only by workers past Interrogate (`Cluster.Gate`, part of
  `IsRun`). The code does not establish this, because a larger version bypasses `add_keys`
  (`message_router.rs:42-44`) and because nothing stops an early Acquire. `RescaleRaces` shows what happens without
  it: with a larger version a key is handled by two workers (`UngatedTwoOwners`), and with any versions, equal ones
  included, a worker can put a key it has just been given on its own whitelist and panic (`EarlyAcquirePanics`). The
  gate is stated by phase, because the first configuration version and the initial version are both 0. Conservation,
  the quorum and the emptiness of channels to leaving workers do not need it (`IsUngatedRun`).

Other places where the code does less than its documentation or its names suggest:

* `StatefulSourcePartitionOp::on_rescale` tests `!wid == ctx.worker_id`, which is the bitwise complement of the
  id. `Source.ReachesAllIff` states for which workers a connection is created: with ids below 2^63 for none
  (`Source.NoneIsAdded`). So a worker that is added never learns that another worker's partition has finished, and
  never ends time (`Source.AddedWorkerNeverEnds`).
* A worker that leaves and returns before its former connection has been read to the end is taken off the watch list
  by its old `Removed` message, and a snapshot is committed without it (`LateRemoval.CommitWithoutAWorker`, from a
  coordinator that starts with nothing). `LateRemoval.SafeToScaleIff` is the exact condition, for every state between
  operations that a clean run leads to: a request for another number of workers is safe if and only if it adds no
  worker with such an unread message, or some worker has completed its execution, in which case the request never
  ends and nothing is committed any more. The theorems about whole runs assume clean requests (`Coordinator.Clean`).
* An operator that has discarded its state leaves nothing in a Collect, so stale state at the receiver survives an
  Acquire. `Handover.TakesOverIff` gives the exact condition; single ownership implies it.
* `Input::recv` returns the merged epoch on every inbound epoch, also when it has not changed; a test is named
  `emit_epoch_on_change`. The model follows the code.
* A comment in `finished.rs:49-51` says a remote that does not exist counts as upgraded; the code's `unwrap_or(false)`
  says the opposite, and the model follows the code.
* On-time records are strictly increasing under `limit_out_of_orderness(b)` exactly if `b <= 0`
  (`EventTime.SortsIff`).
* Minimal shuffling by `rendezvous_select` needs the order of the options to be kept (`Partitioners.OrderMatters`).

## Model

Paths are relative to the root of the repository.

| member | source | states |
|---|---|---|
| RescaleSafety.SingleOwnerIff | malstrom-core/src/keyed/distributed/message_router/collect.rs:48-142 | For each key: in every state of every run it is with one worker or in exactly one Acquire from its old to its new owner, and queued state comes before any record of it, if and only if its new owner was not built with the enlarged set, whatever becomes of other keys |
| RescaleSafety.TwoOwners | malstrom-core/src/coordinator/coordinator.rs:364-367 | If a key's new owner starts with the enlarged set, one record at each of the two owners suffices for both to hold the key |
| RescaleRaces.UngatedTwoOwners | malstrom-core/src/keyed/distributed/message_router.rs:42-44 | Without the assumption on delivery, a third worker that is ahead makes the new owner process a key the old owner still has, if the new version is larger |
| RescaleRaces.EarlyAcquirePanics | malstrom-core/src/keyed/distributed/message_router/interrogate.rs:38-45 | Without it and with any versions, a worker that is given a key before it interrogates whitelists the key and panics when it has to send it to itself |
| RescaleSafety.HolderIsOwner | malstrom-core/src/keyed/distributed/message_router/collect.rs:48-86 | Whoever has state, a collection or queued records of a key is its current owner; the new owner has it only once nothing of it is in transit |
| RescaleSafety.TransitAlone | malstrom-core/src/keyed/distributed/message_router/collect.rs:101-112 | An Acquire goes from the old to the new owner and while it is on its way no worker has the key |
| RescaleSafety.WhitelistExact | malstrom-core/src/keyed/distributed/message_router/interrogate.rs:38-100 | At the step to collecting the whitelist has every departing key with state or queued records downstream, and only departing keys, whose new owners are connected; late workers included |
| RescaleSafety.NeverPanics | malstrom-core/src/keyed/distributed.rs:219-241 | In every valid configuration, scale-ups included, routing never names a worker that is not connected and every Acquire has a client, so no `expect` fails |
| RescaleSafety.BoundedForwarding | malstrom-core/src/keyed/distributed/message_router/finished.rs:30-65 | A record crosses the network at most three times, release from a buffer included; one whose key stays crosses at most once and is never buffered |
| Handshake.Quorum | malstrom-core/src/keyed/distributed/message_router/finished.rs:78-90 | Nobody is Normal again before every other worker has finished collecting, however packets are delivered and whichever workers are late |
| Handshake.NothingForLeaving | malstrom-core/src/keyed/distributed/message_router/finished.rs:84-90 | From the moment a leaving worker is Normal again no channel to it holds data or state, now or ever, however packets are delivered |
| RescaleSafety.LeavingHoldsNothing | malstrom-core/src/keyed/distributed/message_router/finished.rs:84-90 | From that moment on it holds none of the keys |
| RescaleFold.RescaleIsInvisible | malstrom-core/src/keyed/distributed/message_router/collect.rs:94-142 | For each key whose new owner is not late: at each moment of each run the only copy of its state, wherever it is, is the fold over the records of the key handled anywhere so far |
| RescaleFold.RescaleCompletes | malstrom-core/src/keyed/distributed/message_router/finished.rs:67-94 | When everyone is Normal again and no operator has work queued, each key's state is at its new owner and is that fold, and nobody else has any |
| RescaleConservation.RescaleConserves | malstrom-core/src/keyed/distributed.rs:176-241 | In every run of any configuration, however packets are delivered, until the first panic: every record that entered is, counted with multiplicity, in exactly one of: handled, queued for operators, in a channel, in a buffer |
| RescaleConservation.GatedConserves | malstrom-core/src/keyed/distributed/message_router/collect.rs:101-133 | With timely delivery there is no panic, so every rescale of every valid configuration conserves all records in every state |
| RescaleConservation.BufferIsForCurrent | malstrom-core/src/keyed/distributed/message_router/collect.rs:64-84 | In the same runs buffered records all have the key being collected, and without a collection the buffer is empty, so dropping the router loses nothing |
| RescaleProgress.HandedOverInOrder | malstrom-core/src/keyed/distributed/message_router/collect.rs:101-112 | Each key handed over comes from the whitelist, once, as one Acquire directly followed by the records that arrived meanwhile, oldest first |
| RescaleProgress.FinishedMeansAll | malstrom-core/src/keyed/distributed/message_router/collect.rs:121-130 | When collecting ends exactly the whitelisted keys have been handed over and the only Upgrade is last on every channel |
| RescaleProgress.OpenCountsDown | malstrom-core/src/keyed/distributed/message_router/collect.rs:94-142 | Whitelist size plus collection in progress drops by one per completed collection and never rises |
| RescaleProgress.CollectionEnds | malstrom-core/src/keyed/distributed/message_router/collect.rs:94-142 | In every fair schedule, with records and control packets arriving at any time and keys picked in any order, collecting ends after one fair stretch more than there are keys on the whitelist |
| Completion.NormalIff | malstrom-core/src/keyed/distributed/message_router/finished.rs:78-90 | In every run, gated or not: a turn in the last phase makes the router Normal on the new set with the new version, tells the operators and keeps exactly the connections to new workers if every other worker has finished collecting and no upgrade or answer between the two is still to be taken; otherwise it changes nothing |
| RescaleEnds.NeverStuck | malstrom-core/src/keyed/distributed/message_router.rs:86-125 | Every run of every valid configuration can be continued to a state in which all workers are Normal on the new set with the new version |
| ClusterInvariant.StepKeeps | malstrom-core/src/keyed/distributed.rs:86-173 | Every step of any worker keeps the invariant from which the cluster theorems follow |
| LocalInvariant.RouteSound | malstrom-core/src/keyed/distributed/message_router/interrogate.rs:57-77 | Where a record may be sent, in each phase, and that a worker passes on downstream only what it may hold |
| LocalSteps.StartCollectPhaseKeeps | malstrom-core/src/keyed/distributed/message_router/interrogate.rs:79-100 | An interrogation that has ended has reported every departing key, so the whitelist is complete |
| Distributor.CollectRouter.RouteMessage | malstrom-core/src/keyed/distributed/message_router/collect.rs:48-86 | The method in place equals the routing function of the collect phase, buffering included |
| Distributor.CollectRouter.SetAndEmitCollect | malstrom-core/src/keyed/distributed/message_router/collect.rs:136-142 | Starts the collection of the last whitelisted key if none is in progress and changes nothing otherwise |
| Distributor.CollectRouter.HandOver | malstrom-core/src/keyed/distributed/message_router/collect.rs:102-112 | Appends the Acquire and all buffered records, in order, to the new owner's channel, and empties the buffer |
| Distributor.CollectRouter.Lifecycle | malstrom-core/src/keyed/distributed/message_router/collect.rs:94-134 | One turn in place equals the collect phase's turn as a function, including the broadcast of the Upgrade |
| Distributor.Distributor.HandleRecord | malstrom-core/src/keyed/distributed.rs:176-241 | Routing and sending a local or remote record in place equals the function the theorems are about |
| Distributor.Distributor.HandleRemote | malstrom-core/src/keyed/distributed.rs:100-130 | The same for what arrives from another distributor: data, Acquire, Upgrade (acknowledged at once) and AckUpgrade |
| Distributor.Distributor.HandleRescaleMessage | malstrom-core/src/keyed/distributed.rs:265-282 | Connects to exactly the workers that are new, then interrogates if the router is Normal and ignores the message otherwise |
| Distributor.Distributor.RunLifecycle | malstrom-core/src/keyed/distributed/message_router.rs:109-125 | One turn of the router's state machine in place equals the function, for some pick from the whitelist |
| OperatorIo.Input.Receive | malstrom-core/src/channels/operator_io.rs:155-219 | Receiving in place equals the function: leftmost unaligned message first, merged epochs, markers taken from all edges together |
| OperatorIo.Output.Send | malstrom-core/src/channels/operator_io.rs:42-78 | Edge by edge: a record is put on the flagged edges and on no other, everything else on all of them; the frontier never falls and covers every epoch sent |
| Alignment.DeliveryIsFifo | malstrom-core/src/channels/operator_io.rs:155-219 | For any number of edges and any schedule, what has been delivered from an edge followed by what still waits is what was sent on it |
| Alignment.CutAtMarker | malstrom-core/src/channels/operator_io.rs:196-211 | When the k-th marker is returned, exactly the messages ahead of the k-th marker of each edge have been delivered from it |
| AlignmentProgress.PollTakes | malstrom-core/src/channels/operator_io.rs:155-219 | What a call of recv does in every run, in terms of what was put on the edges: the first edge whose next message is no marker gives it up, and it is returned, an epoch as the lowest of all edges; if all edges have the same marker next it is taken from all and returned once; otherwise nothing is taken |
| AlignmentProgress.ReturnsTheLowest | malstrom-core/src/channels/operator_io.rs:164-177 | In every run the last epoch returned is the lowest of the last epochs taken from each edge, and there is none exactly as long as some edge has had none |
| Alignment.PromiseSurvivesMerging | malstrom-core/src/channels/operator_io.rs:164-177 | If no edge delivers data at or below an earlier epoch of its own, neither does the merged stream |
| Alignment.FrontierIsLargest | malstrom-core/src/channels/operator_io.rs:170-175 | The frontier is the maximum of the epochs returned so far |
| Alignment.EpochsNeverDecrease | malstrom-core/src/channels/operator_io.rs:256-268 | If epochs never decrease on any edge, returned epochs never decrease |
| Dag.AlignmentNeverStuck | malstrom-core/src/channels/operator_io.rs:196-216 | In any graph fed by one root and any run no operator ever sees different markers at its edges: the `unreachable!()` is not reached |
| Dag.MarkerIsSent | malstrom-core/src/channels/operator_io.rs:64-78 | Sending a marker on an operator's output puts it on every edge of the graph that starts there, whatever the flags, and on no other |
| Dag.OthersAreSent | malstrom-core/src/channels/operator_io.rs:47-64 | Whatever else an operator sends in one turn, with any flags, is one of the turns the runs of the graph consider |
| Dag.SnapshotCompletion | malstrom-core/src/worker/mod.rs:294-306 | The barrier's strong count is 1 if and only if every operator has handled it, each exactly once |
| DagProgress.SnapshotCanComplete | malstrom-core/src/worker/mod.rs:294-306 | From every state of every run the operators can go on, without anything new from the root, until the strong count of every barrier is 1 |
| Reconfigure.ReconfigureReturns | malstrom-core/src/worker/mod.rs:281-292 | `perform_reconfig` returns only when every distributor reachable from the root is Normal on the new set with the new version, in any graph, whatever else its routers do and also where streams split and join |
| Reconfigure.PassesWhenNormal | malstrom-core/src/keyed/distributed/message_router/finished.rs:78-90 | A distributor passes the rescale message on only in the step in which it becomes Normal on the new set |
| ConsistentCut.CutIsConsistent | malstrom-core/src/keyed/distributed.rs:94-173 | What a worker has emitted before its k-th barrier of the records that entered at another is exactly what entered there for it before that worker's k-th local barrier, in order |
| ConsistentCut.ChannelsHoldNothingOfTheCut | malstrom-core/src/keyed/distributed.rs:288-303 | No record in a channel belongs to a snapshot its receiver has completed |
| CutProgress.EmitsIff | malstrom-core/src/keyed/distributed.rs:288-303 | In every run: a held barrier is passed on if and only if the same barrier of every other worker has been read, counted in what entered there and what is still on the channel; then all may speak again, otherwise nothing happens |
| CutProgress.EntersIff | malstrom-core/src/keyed/distributed.rs:132-162 | In every run: a worker listens to its upstream exactly while it has emitted every barrier it took; a record goes to its owner only, epochs and barriers to all others |
| CutProgress.ReceivesIff | malstrom-core/src/keyed/distributed.rs:94-115 | In every run: a worker reads from another one exactly while it owes no barrier of it; records that arrive go downstream |
| CutProgress.Settles | malstrom-core/src/keyed/distributed.rs:94-173 | Without new input every run comes to rest |
| CutProgress.QuietEmits | malstrom-core/src/keyed/distributed.rs:94-173 | At rest every worker has emitted as many barriers as the fewest any upstream has delivered, and all records meant for it that no barrier still holds back, in order |
| ConsistentCut.Aligner.HandleLocal | malstrom-core/src/keyed/distributed.rs:132-162 | Taking a local record, epoch or barrier in place equals the function; nothing is taken while a barrier is held |
| ConsistentCut.Aligner.HandleRemote | malstrom-core/src/keyed/distributed.rs:94-115 | The same for what another distributor sends |
| ConsistentCut.Aligner.TryEmitBarrier | malstrom-core/src/keyed/distributed.rs:288-303 | Emits the held barrier exactly when all remotes are barred, and then unbars them all |
| ConsistentCut.Aligner.MergeTimestamps | malstrom-core/src/keyed/distributed.rs:341-353 | The loop over all frontiers computes the merged epoch |
| Basics.MergeIsMin | malstrom-core/src/keyed/distributed.rs:341-353 | The merged epoch is the minimum of all frontiers and exists only if all of them do |
| EpochPromise.PromiseSurvivesDistribution | malstrom-core/src/keyed/distributed.rs:244-254 | Outside of a rescale: if every upstream keeps the promise of its epochs, so does every distributor's output |
| EpochPromise.OrderSurvivesDistribution | malstrom-core/src/keyed/distributed.rs:137-145 | If every upstream's epochs never decrease, neither do those of any distributor's output |
| EpochProgress.SendsTheLowest | malstrom-core/src/keyed/distributed.rs:244-254 | In every run the last epoch a distributor has sent is the lowest of the last epochs it has read from each worker; it has sent none exactly as long as it has not read one from each |
| EpochProgress.SendsOnEveryEpoch | malstrom-core/src/keyed/distributed.rs:108-111 | With each epoch it reads, its own upstream's included, it sends exactly one, that lowest one, once it has read one from each |
| StatefulOp.StatefulOperator.Handle | malstrom-core/src/operators/stateful_op.rs:117-159 | Handling each kind of message in place equals the function on the map of states |
| StatefulOp.ChainPasses | malstrom-core/src/operators/stateful_op.rs:132-158 | Every epoch, suspend marker, rescale message, barrier, Interrogate, Collect and Acquire that enters a chain of operators leaves it, once and in order, and no other |
| StatefulOp.ControlKeepsPlace | malstrom-core/src/operators/stateful_op.rs:132-158 | Each keeps its place between the records; epochs, suspend markers and rescale messages leave as they are; only Collect and Acquire change a state |
| StatefulOp.OperatorIsFold | malstrom-core/src/operators/stateful_op.rs:124-131 | For each key, state and output of an operator are the fold of its logic over the records of that key, whatever else passes |
| StatefulOp.ChainIsFold | malstrom-core/src/operators/stateful_op.rs:115-159 | The same for a chain of operators |
| Handover.InterrogationFindsAll | malstrom-core/src/operators/stateful_op.rs:132-135 | An interrogation that leaves a chain has found exactly the keys to move for which any operator has state |
| Handover.CollectTakesAll | malstrom-core/src/operators/stateful_op.rs:136-141 | A Collect leaves with exactly the states held for its key, by operator id, and leaves all other keys where they are |
| Handover.AcquireDelivers | malstrom-core/src/operators/stateful_op.rs:142-147 | An Acquire installs each operator's state and nothing else |
| Handover.HandoverIsInvisible | malstrom-core/src/keyed/distributed/types.rs:214-282 | Records, Collect at one worker, Acquire at another, more records: every operator's state for the key, and the output of both workers, are those of one uninterrupted fold; the old worker keeps nothing |
| Handover.GiveUpLeavesOthers | malstrom-core/src/operators/stateful_op.rs:136-141 | All other keys of the worker that gives a key up are still the folds over their own records |
| Handover.TakeOverLeavesOthers | malstrom-core/src/operators/stateful_op.rs:142-147 | The same on the worker that takes it over |
| Handover.TakesOverIff | malstrom-core/src/keyed/distributed/types.rs:274-282 | The receiver ends with the collected states if and only if it held none that was not collected |
| Pipeline.ScheduleIrrelevant | malstrom-core/src/worker/mod.rs:218-235 | In a chain connected by queues, under any schedule, finishing what is on its way gives what the chain makes of its whole input |
| Recovery.SnapshotIsIdeal | malstrom-core/src/sources/stateful.rs:268-280 | For any schedule, the states a barrier has collected when it leaves the chain are those after exactly the records polled ahead of the position saved with it |
| Recovery.ExactlyOnce | malstrom-core/src/sources/stateful.rs:191-196 | After any number of crashes and restarts from completed snapshots, whenever nothing is on its way the states are those of a run without snapshot or crash that handled each record up to the source's position once |
| RecoveryProgress.RecordsGetThrough | malstrom-core/src/worker/mod.rs:218-235 | After any number of crashes, from every state, the worker can go on to a moment at which nothing is on its way and exactly the records ahead of any position that can be read have been handled |
| RecoveryProgress.SnapshotGetsThrough | malstrom-core/src/sources/stateful.rs:268-280 | A snapshot asked for in any state can be completed, and a restart from it starts where an uninterrupted run would be |
| Source.SourceOperator.OnSchedule | malstrom-core/src/sources/stateful.rs:212-245 | For each partition: its next item is sent, value and time as read, and its position moves by one, or nothing; a partition is known as finished afterwards exactly if it was, has been announced, or is finished now; the largest epoch is sent exactly if all are known and it has not been sent before |
| Source.RoundsRead | malstrom-core/src/sources/stateful.rs:218-222 | However often the source is scheduled, what it has sent for a partition is, one by one, value and time of what the partition has from its position on, one position per scheduling while there is something |
| Source.EndsTimeOnce | malstrom-core/src/sources/stateful.rs:239-244 | However often it is scheduled, the source sends the largest epoch once if every partition has become known as finished, and not before |
| Source.SourceOperator.OnCollect | malstrom-core/src/sources/stateful.rs:319-329 | Removes exactly the partition asked for and yields its position |
| Source.SourceOperator.OnAcquire | malstrom-core/src/sources/stateful.rs:331-341 | Installs the partition at the position it was left at |
| Source.SourceOperator.OnRescale | malstrom-core/src/sources/stateful.rs:282-296 | The clients afterwards, with the comparison the program makes |
| Source.RemovesOne | malstrom-core/src/sources/stateful.rs:325-325 | `swap_remove` takes out the named partition and no other |
| Source.ReachesAllIff | malstrom-core/src/sources/stateful.rs:288-295 | All other workers are reached after a rescale if and only if every added worker's id is the complement of the own id |
| Source.FirstMissesSecond | malstrom-core/src/sources/stateful.rs:288-295 | When a job goes from one worker to two, the first does not connect to the second |
| Source.NoneIsAdded | malstrom-core/src/sources/stateful.rs:290-295 | With ids below 2^63 a rescale connects to none of the added workers |
| Source.AddedWorkerNeverEnds | malstrom-core/src/sources/stateful.rs:227-244 | A worker that was added and is not reached never sends the largest epoch, however often it is scheduled and whatever the other announces |
| Source.MoveContinues | malstrom-core/src/sources/stateful.rs:218-222 | What two workers read of a partition before and after it moves is one stretch of its contents, without gap or repetition |
| WatchMap.WatchMapInner.FireNotifications | malstrom-core/src/coordinator/watchmap.rs:31-37 | Draining and rebuilding keeps the conditions that do not hold and fires those that do, both in order |
| WatchMap.WatchMapInner.ApplyOrDefault | malstrom-core/src/coordinator/watchmap.rs:84-92 | Changes or creates the entry, then evaluates the conditions on the new contents |
| WatchMap.WatchMapInner.Insert | malstrom-core/src/coordinator/watchmap.rs:46-51 | The same for inserting; the previous value is returned |
| WatchMap.WatchMapInner.Remove | malstrom-core/src/coordinator/watchmap.rs:61-66 | The same for removing |
| WatchMap.StillWaitingIff | malstrom-core/src/coordinator/watchmap.rs:151-160 | After a change a condition is still waiting if and only if it does not hold, and has fired if and only if it does |
| WatchMap.FiredOrWaiting | malstrom-core/src/coordinator/watchmap.rs:31-37 | No notification is lost or doubled |
| Coordinator.CommitIsSafe | malstrom-core/src/coordinator/coordinator.rs:421-437 | Whatever the order of messages: when a commit is due every active worker is watched, its SnapshotComplete of this version has been processed and it does have the snapshot |
| Coordinator.CommitsAreComplete | malstrom-core/src/coordinator/coordinator.rs:288-303 | Every version ever committed is complete on all workers active then |
| Coordinator.CommitsAreNumbered | malstrom-core/src/coordinator/coordinator.rs:289-302 | Committed versions follow one another without gap or repetition |
| Coordinator.ChangesAreNumbered | malstrom-core/src/coordinator/coordinator.rs:484-516 | The versions of all changes of the workers follow one another from 0, or from the one the job was resumed with |
| Coordinator.WatchedAreActive | malstrom-core/src/coordinator/coordinator.rs:506-515 | Between operations the watched workers are the active ones |
| Coordinator.InboundKeeps | malstrom-core/src/coordinator/communication.rs:54-84 | What is known about a worker survives the processing of any of its messages |
| Coordinator.BehaveKeeps | malstrom-core/src/worker/mod.rs:245-278 | It survives whatever the worker does next |
| Coordinator.Lift | malstrom-core/src/coordinator/coordinator.rs:526-546 | A condition that holds tells how far every worker is |
| LateRemoval.SafeToScaleIff | malstrom-core/src/coordinator/coordinator.rs:304-311 | In every state between operations that a clean run leads to: all that may follow a request for another number of workers commits complete versions only, if and only if the request adds no worker whose former connection has an unread message, or a worker has completed its execution |
| LateRemoval.UncleanBreaks | malstrom-core/src/coordinator/communication.rs:80-83 | Whenever it adds such a worker and everyone is working, there is a run that commits a version this worker has no snapshot of |
| CoordinatorRounds.ScaleEffect | malstrom-core/src/coordinator/coordinator.rs:457-518 | From any state in which everyone is free a change of the number of workers can be carried out; the last message of each worker that leaves is still unread then |
| LateRemoval.CommitWithoutAWorker | malstrom-core/src/coordinator/coordinator.rs:463-518 | A coordinator that starts with nothing, is scaled to two workers, to one and to two again, can commit a version the second worker has no snapshot of |
| EventTime.EpochGenerator.Handle | malstrom-core/src/operators/time/generate_epochs.rs:76-122 | The operator in place equals the function |
| EventTime.EpochsAreSound | malstrom-core/src/operators/time/generate_epochs.rs:79-113 | For every generator and input: epochs strictly increase, on-time records exceed all epochs so far, late ones do not |
| EventTime.SplitLosesNothing | malstrom-core/src/operators/time/util.rs:11-57 | On-time and late records and all other messages except epochs together are those of the input, each once, in order |
| EventTime.LateIff | malstrom-core/src/operators/time/generate_epochs.rs:134-151 | A record is late if and only if its time is at or below the largest earlier time minus the bound or the largest earlier epoch |
| EventTime.SortsIff | malstrom-core/src/operators/time/generate_epochs.rs:134-151 | On-time records are strictly increasing for all inputs if and only if the bound is not positive |
| Partitioners.SelectsTheWinner | malstrom-core/src/keyed/partitioners.rs:13-30 | The choice has the largest hash and is the last one that has it |
| Partitioners.SelectsAMember | malstrom-core/src/keyed/partitioners.rs:40-44 | Both partitioners choose a member, and fail exactly on the empty set |
| Partitioners.IndexGoesRound | malstrom-core/src/keyed/partitioners.rs:47-50 | `index_select` takes the options in their order and starts over after the last |
| Partitioners.SameOwnerIff | malstrom-core/src/keyed/partitioners.rs:13-30 | Of a set and a part of it in the same order, the choices agree if and only if the larger set's choice is in the part |
| Partitioners.MovesOnlyToAdded | malstrom-core/src/keyed/partitioners.rs:6-8 | A key moves if and only if its owner in the larger set is one of the workers added or removed |
| Partitioners.OrderMatters | malstrom-core/src/keyed/partitioners.rs:19-26 | With equal hashes the order of the options decides |

## Left out

- The Kubernetes operator and runtime, gRPC, Kafka, SlateDB, artifact tools and the web site: input and output.
- Serialization and hashing: decoding is assumed to invert encoding; the hash is any function.
- Async, mutexes and threads: handlers are atomic steps; reference counts are counts of live copies.
- Timestamps are integers, so any two merge; types without time, and values that do not fit 64 bits, are not modelled. Of integer widths only worker ids matter (`Source.Top`).
- The cluster of `Cluster` has one stateful operator behind each distributor; a chain of operators is treated in `StatefulOp`, `Handover` and `Pipeline`, and graphs in `Dag` and `Reconfigure`.
- `Cluster` delivers the rescale message again only while the router is not Normal; a copy that arrives after the worker is Normal again, which starts a second rescale to the same set, is part of `Reconfigure` only.
- Handshake.NothingForLeaving: does not say that the leaving worker's last forwarded records are read, because survivors may drop its client first.
- RescaleSafety.SingleOwnerIff: assumes A3; the code does not establish it.
- Coordinator.CommitIsSafe: assumes clean requests; `LateRemoval.SafeToScaleIff` says exactly when one more request is safe.
- Handover.HandoverIsInvisible: assumes records keep their key in the operators, as keyed streams do.
- Barriers, epochs and suspend markers during a rescale, barriers with suspended remotes, and order of records of one key across a rescale: the program makes no promise there.
- The order of whitelisted keys: `Router` allows any, `Distributor.CollectRouter` takes the last as the program does.
- The order in which `Worker::step` schedules operators: runs allow any order.
- Fairness of schedulers: `RescaleEnds`, `DagProgress`, `CutProgress` and `RecoveryProgress` show that there is always a way to the end, not that every schedule takes it; only `RescaleProgress.CollectionEnds` is about all fair schedules.
- Liveness of the coordinator: a phase may pass unseen because conditions are not evaluated when registered; only safety is claimed.
- The end of the coordinator when all workers have completed: a run of the model may stop anywhere.
- Suspending all workers: it ends the coordinator and nothing is committed afterwards.
- Persisting the coordinator's own state and the persistence backends: what a barrier saves is a map carried by the barrier.
- Broadcasting that a partition has finished: `Source` takes what was heard from others as an input; the lookups that must succeed are preconditions.
- Stateful sinks, `ttl_map`, stateless operators, builders, `spsc` queues and user hooks `on_epoch` and `on_schedule`: plumbing, or defaults that do nothing.
