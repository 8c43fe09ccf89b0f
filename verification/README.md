# Verified model of the Elasticsearch operator's rolling upgrades

The operator keeps an Elasticsearch cluster in line with a custom resource. Each node of the
cluster is a Deployment (data nodes) or a StatefulSet (other nodes), and each upgrade or restart
of a node is a small resumable procedure whose position is persisted in
`status.nodes[*].upgradeStatus`. Everything the procedure does can fail: calls to the API server,
health reads, shard allocation, pollers. This project models that protocol in Dafny and proves
what it guarantees over whole runs, together with the code it rests on: the in-memory node cache,
drift detection, node names, condition lists, the cat-table parsers, counting, data hashes and
resource merging.

## How it is organised

- **The outside world** (`Environment.dfy`) is an arbitrary infinite list of answers, one per
  external call, poll or retried read-modify-write, and a record of the server's workloads, the
  allocation setting and a log of what was done. A statement for every `Env` is a statement about
  every behaviour of the outside, including writes that take effect without being acknowledged.
- **Nodes** (`Node.dfy`) and **the operator** (`Operator.dfy`, `NodeFactory.dfy`) are classes with
  the source's fields, whose methods follow the source step by step, loops included. Each method is
  proved to compute a function (`Workload.dfy`, `DeploymentUpgrade.dfy`, `StatefulSetUpgrade.dfy`,
  `Reconcile.dfy`); the theorems about runs are about these functions, and `ObjectRuns.RunSpecs`
  carries two of them back to the objects.
- **Upgrade cycles of Deployments**: `CallEffects.dfy` (what one call does to the server, and in
  which order), `CycleSafety.dfy` (what every interrupted call keeps),
  `AllocationSafety.dfy` (allocation is never stranded), `RunSafety.dfy` (the shape of every
  cycle), `ObjectRuns.dfy` (the same from specs that pass the UUID check), `LostStatus.dfy` and
  `DroppedNode.dfy` (why the assumptions are needed), `InterruptedUpdate.dfy` (an update cut short
  is continued as a restart), `PassIsolation.dfy` (how upgrades start),
  `Convergence.dfy` and `ConvergenceTheorem.dfy` on top of `CleanCalls.dfy`.
- **StatefulSets**: `PartitionRollout.dfy` (rollouts as cycles of calls), `NodeRollouts.dfy` and
  `OnePassRestart.dfy` (the same inside whole runs), `StatefulSetEffects.dfy` and `RolloutEnds.dfy`
  (how a call and an upgrade end), `StatefulSetDrift.dfy` (drift is not repaired).
- **Passes**: `HelpEffects.dfy` (unschedulable nodes), `PassEffects.dfy` (what passes hand on to each
  other and where they stop).
- **Status and cache**: `StatusIndex.dfy`, `CachePurge.dfy`, `Provenance.dfy`, `Footprint.dfy`.
- **Supporting cores**: `Comparison.dfy`, `Drift.dfy`, `DriftDetection.dfy`, `NodeNames.dfy`,
  `Conditions.dfy`, `Configuration.dfy`, `CatTable.dfy`, `Counting.dfy`, `DataHash.dfy`,
  `Resources.dfy`, `Selectors.dfy`, with `Text.dfy` and `Base.dfy` below them.

## Where the code falls short of what one would expect

These are stated as lemmas about the code as it is.

- The wait pollers look at the wrong error variable, so a failed size read counts as size 0: it
  ends a leave poll exactly if a positive size is recorded, and a rejoin poll exactly if none is
  (`Environment.FailedReadEndsLeavePoll`, `Environment.FailedReadEndsRejoinPoll`).
- An update of a StatefulSet goes on when it cannot read the cluster size, and records 0. The polls
  between two steps of the rollout mean that the pods are back if and only if a positive size is
  recorded (`PartitionRollout.UnreadSizeIsRecordedAsZero`,
  `PartitionRollout.RejoinsAreRealIffSizeRecorded`).
- The write of a StatefulSet's initial partition is not checked, so a cycle of restarts restarts
  all R pods if and only if that write took effect or the partition was already at least R
  (`PartitionRollout.UncheckedPartitionDecides`; in runs `NodeRollouts.UncheckedWriteInRuns` and
  `OnePassRestart.UncheckedWriteInOnePass`; a failing input `PartitionRollout.LostWriteRestartsNothing`).
- Creating, scaling and setting the partition of a StatefulSet replace the desired spec in memory by
  the server's before the two are compared. So drift is noticed only if a read fails
  (`StatefulSetDrift.DriftSeenIffReadFails`, and for writing it
  `StatefulSetDrift.UpdateWritesIffPartitionUnread`), and a StatefulSet whose image or resources were changed
  is never updated while everything goes well: over any clean passes it agrees with a desired spec if
  and only if it did before (`StatefulSetDrift.StatefulSetDriftStays`; an example is
  `StatefulSetDrift.DriftUnrepaired`).
- A Deployment's update that wrote the spec and was then cut short looks done, so the next pass
  continues it as a restart, which neither unpauses nor waits for a rollout
  (`InterruptedUpdate.InterruptedUpdateLooksDone`; a cycle that ends with no rollout seen and the
  Deployment unpaused is `InterruptedUpdate.UpdateEndsWithoutRollout`).
- A lost status write after allocation was disabled leaves allocation off with nothing to show it
  (`LostStatus.LostWriteStrandsAllocation`).
- So does lowering the count of a data node while a replica above the new count is under upgrade;
  the UUID check does not refuse it (`DroppedNode.LoweredCountStrandsAllocation`).
- An update whose check cannot read the server reports success and blanks the desired spec, and the
  next check indexes out of range (`DriftDetection.UnreadableUpdateLosesDesired`).
- Toleration lists with duplicates can be taken for equal although they differ
  (`Comparison.DuplicatesHideDifference`).
- Merging node selectors writes into the shared common map, so with a common selector every node
  gets every other node's selector (`Selectors.GenerateSelectors`, `Selectors.KeysLeak`).
- A data node with a negative count is added up but generates nothing
  (`Counting.CountsConserved`).
- A secret whose key is renamed keeps its hash (`DataHash.RenamedKeyUnseen`).
- A node that sets only a memory request can end up with a request above its limit
  (`Resources.LoneRequestExceedsLimit`).
- Initialising the status conditions to False never changes anything, as False is never stored
  (`Conditions.ConditionList.InitializeConditions`).

## Assumptions of the run theorems

- `begun`: every status write that was to record a Deployment as newly under upgrade took effect.
  Allocation safety needs this and nothing else of the status writes; `LostStatus` shows that it does.
- `kept`: every status write so far was persisted. Only the shape of cycles needs it.
- `clean`: every call succeeded, every health read was green and no pod was unschedulable. Only
  convergence, and the lack of it for StatefulSets, needs it.
- No pass that goes ahead stops generating a node that is under upgrade (`RunSafety.KeepsBusy`).
  `ObjectRuns` derives this from the UUID check for specs in which nodes keep their roles and no
  count is lowered; `DroppedNode` shows what a lower count can do.
- A name has one kind and generated names are distinct. This is proved of generated names
  (`NodeFactory.GeneratedKind`, `NodeFactory.GeneratedDistinct`) for distinct UUIDs without dashes.
- The operator process is not restarted within a run, so the node cache survives.

The flag `alive` is an assumption of no theorem. It marks where the model stops being the program:
once drift detection has indexed past the desired containers, the process would have crashed.

## Model

The rows come in two groups. First the theorems, hardest first, and the lemmas that give the
supporting cores their meaning. The rows of `OperatorObject` and `NodeObject` come last: each of
them equates a method on objects with a function that is written much the same way, and says
something about the program only through the theorems above about these functions.

| member | source | states |
|---|---|---|
| AllocationSafety.AllocationNeverStranded | pkg/k8shandler/deployment.go:296-468 | in every state between the passes of every run, with update and restart mixed on any node and any call failing, and with every status write lost but those that first record a Deployment as under upgrade, if shard allocation is disabled then the stored status shows a Deployment node under upgrade in a phase other than recoveringData |
| RunSafety.EveryCycleHasItsShape | pkg/k8shandler/deployment.go:298-465 | in every state between the passes of every run whose status writes persist, every closed Deployment cycle has this order in the log: a green health read and the begin; a whole first block, of a restart (a positive count, allocation disabled, a flush, scaled to 0, the node gone), of a restart with nothing to drain, or of an update (allocation disabled, a flush, the spec written); a whole second block, of a restart (scaled to 1, the node back, allocation enabled) or of an update (unpaused, a new revision seen, paused, the node back, allocation enabled), with no attempt to disable after it; a green read and the clear. A stored entry that is not under upgrade is at phase "" or controllerUpdated |
| RunSafety.RunSafe | pkg/k8shandler/cluster.go:29-183 | the invariant behind the shape of cycles: after every pass of every run, stored entries agree with the log and every closed cycle is complete |
| ObjectRuns.AcceptedSpecKeepsNodes | pkg/k8shandler/util.go:277-337 | a spec that the UUID check accepts against the stored status still generates every node that has an entry, if no node's roles change and no count is lowered; so the demand of the run theorems that no pass stops generating a node under upgrade is met |
| ObjectRuns.RunGuarded | pkg/k8shandler/cluster.go:29-183 | allocation stays answered for over every run whose specs pass the UUID check in each pass that the configuration check lets through |
| ObjectRuns.RunSpecs | pkg/k8shandler/cluster.go:29-183 | a run of the operator object over a changing spec is a run of the model, so the status stays an index; and for steady specs allocation is never stranded |
| Provenance.PassKnown | pkg/k8shandler/cluster.go:132-163 | a pass adds no entry but for nodes that it generates |
| DroppedNode.DroppedNodeStrandsAllocation | pkg/k8shandler/cluster.go:309-331 | if the nodes under upgrade are no longer generated, a pass in which everything goes well leaves disabled allocation disabled and nothing in the status to show it |
| DroppedNode.LoweredCountDropsReplica | pkg/k8shandler/nodetypefactory.go:41-46 | lowering a count drops the replicas above it although their UUID is still in the spec |
| DroppedNode.LoweredCountStrandsAllocation | pkg/k8shandler/cluster.go:29-183 | such a run's state, for every cluster name: two data nodes, the count lowered to one while the second is under upgrade; the UUID check accepts, every call of the pass succeeds, and allocation stays off with no holder |
| CycleSafety.CallKeeps | pkg/k8shandler/deployment.go:296-468 | one call of update or restart, cut short anywhere and resuming whatever the other procedure left, keeps the cycle's shape |
| CycleSafety.CallBlames | pkg/k8shandler/deployment.go:296-468 | and leaves this node answerable for allocation that it leaves disabled; a node that was under upgrade answers for it afterwards only if it did before, which is why only the first status write of a cycle has to persist |
| LostStatus.LostWriteStrandsAllocation | pkg/k8shandler/cluster.go:79-102 | that assumption is needed: an update whose calls fail after allocation was disabled, and whose status write is lost, leaves allocation off and no holder in the stored status |
| PassIsolation.GreenGate | pkg/k8shandler/deployment.go:298-311 | a call, of either kind of node, that changes the status of a node not under upgrade made a green health read in that call |
| PassIsolation.NotGreenNoCall | pkg/k8shandler/statefulset.go:349-353 | on a cluster that is not green such a call changes neither status, node, workloads nor allocation |
| PassIsolation.BusyPassWorksOnOneBusyNode | pkg/k8shandler/cluster.go:46-77 | a pass that begins with a node under upgrade changes the upgrade status of at most one node, which was already under upgrade; so the set of nodes under upgrade does not grow |
| ConvergenceTheorem.DeploymentsConverge | pkg/k8shandler/cluster.go:29-183 | with the spec and secret fixed and every call succeeding, a cluster of Deployments with k entries under upgrade is settled after k+5 passes and after every later number of passes: every workload agrees with the spec on the compared fields and is paused, every hash is current, nothing is scheduled or under upgrade |
| ConvergenceTheorem.PassRank | pkg/k8shandler/cluster.go:46-183 | every clean pass of such a run lowers a rank that is at most 5 plus the number of entries under upgrade, until it is 0 |
| CallEffects.RestartLeavesOneReplica | pkg/k8shandler/deployment.go:352-371 | whatever fails, a restart that gets beyond nodeRestarting, from any phase before recovery, leaves the Deployment with exactly one replica, and right before that it scaled up, a poll ended with at least the recorded size, and allocation was enabled |
| CallEffects.RestartHoldsAtZero | pkg/k8shandler/deployment.go:313-350 | whatever fails, a restart from the start that acknowledged its scale-down leaves 0 replicas, or 1 if and only if the scale-up took effect; and it acknowledged the scale-down if it read a positive count and got to nodeRestarting or beyond |
| CallEffects.UpdateRollsOutAndPauses | pkg/k8shandler/deployment.go:426-459 | whatever fails, an update that gets beyond nodeRestarting, from any phase before recovery, unpaused the Deployment, saw a revision other than the recorded one, paused it, saw the node back at the recorded size and enabled allocation, in this order; it is paused exactly if the second pause took effect, as it did if acknowledged |
| CallEffects.UpdateAppliesFirst | pkg/k8shandler/deployment.go:404-424 | from the start, directly before that, it disabled allocation, flushed, wrote the spec and recorded the revision that the rollout is compared with |
| CallEffects.UpdateAgreesIffReadable | pkg/k8shandler/deployment.go:470-482 | an update from the start that gets to nodeRestarting or beyond leaves the server in agreement with the desired spec if and only if its check could read the workload, or it agreed before; replicas stay |
| CallEffects.CallRecordsSize | pkg/k8shandler/deployment.go:298-311 | a call that begins a cycle records the cluster size that it read, or 0, and a call in a cycle keeps the record |
| CallEffects.OnlyFailureStops | pkg/k8shandler/deployment.go:296-468 | a call that does not run to its end was stopped by the failed step that it logged last, or is a restart that could not read the size; a failed flush, unpausing or pausing stops nothing |
| CallEffects.CreateSeesRevision | pkg/k8shandler/deployment.go:119-143 | a new Deployment whose creation succeeds has been seen with a revision |
| InterruptedUpdate.InterruptedUpdateLooksDone | pkg/k8shandler/deployment.go:84-113 | an update that could read the workload and then stops in nodeRestarting has no upgrade scheduled by the evaluation after it, whether or not that can read |
| InterruptedUpdate.UnscheduledContinuesAsRestart | pkg/k8shandler/cluster.go:47-63 | a pass continues a node under upgrade with an update if and only if it is scheduled for one, and else with a restart |
| InterruptedUpdate.UpdateEndsWithoutRollout | pkg/k8shandler/deployment.go:426-459 | so a cycle can end with the new spec not rolled out: with every call succeeding but no new revision within the poll, the update and the restart after it clear the upgrade, with allocation enabled, no rollout seen and the Deployment unpaused |
| HelpEffects.UnschedulableHelped | pkg/k8shandler/cluster.go:223-237 | a pass that goes well as far as choosing its work has brought every generated node with an unschedulable entry into agreement with the spec |
| HelpEffects.CleanHelpDeployment | pkg/k8shandler/deployment.go:484-509 | for a Deployment with drift that means the spec written, unpaused, seen to roll out to another revision, which is recorded, and paused; without drift nothing happens |
| HelpEffects.CleanHelpStatefulSet | pkg/k8shandler/statefulset.go:539-560 | for a StatefulSet with drift it means the spec written and the pod at the partition deleted; without drift nothing happens |
| PassEffects.FlaggedThenHelped | pkg/k8shandler/cluster.go:223-237 | a node whose pod the closing write of one pass finds unschedulable agrees with the spec once the next pass has gone well as far as choosing its work |
| PassEffects.PassRecordsUnschedulable | pkg/k8shandler/status.go:28-83 | a pass whose work and closing write succeed stores exactly the answers about unschedulable pods |
| PassEffects.CreatesUntilFailure | pkg/k8shandler/cluster.go:132-168 | create mode makes the nodes in order, succeeds exactly if it makes all of them, and otherwise stops at the first refusal or failure and leaves the later nodes and their workloads alone |
| StatefulSetDrift.StatefulSetDriftStays | pkg/k8shandler/statefulset.go:142-168 | convergence fails for StatefulSets: after any number of clean passes, from whatever specs, the workload of a StatefulSet that was not under upgrade, with no unschedulable pod, agrees with a desired spec on the compared fields if and only if it did before |
| StatefulSetDrift.DriftSeenIffReadFails | pkg/k8shandler/statefulset.go:310-331 | creating an existing StatefulSet and evaluating it schedules an update exactly if there is drift, the read while creating failed and the read while evaluating did not |
| StatefulSetDrift.UpdateWritesIffPartitionUnread | pkg/k8shandler/statefulset.go:364-385 | an update that begins a cycle and passes its first block leaves the server in agreement with the desired spec if and only if it agreed before, or setting the partition could not read the workload and the check right after could |
| StatefulSetDrift.CleanCallFreezes | pkg/k8shandler/statefulset.go:348-428 | a clean update or restart that begins a cycle also ends it, and changes no compared field of the workload, whatever was desired |
| StatefulSetDrift.DriftUnrepaired | pkg/k8shandler/cluster.go:29-183 | such a case: one StatefulSet with a new image in the spec, and a pass in which everything succeeds leaves the old one |
| Convergence.BatchSettles | pkg/k8shandler/cluster.go:79-128 | a clean batch of updates or restarts settles exactly its nodes and leaves the others untouched |
| CleanCalls.CleanCallFromStart | pkg/k8shandler/deployment.go:296-468 | a clean update or restart from the start finishes the cycle with a current secret hash; an update leaves the server in agreement with the desired spec and the Deployment paused, and a restart leaves it with one replica and otherwise as it was |
| CleanCalls.CleanCallFinishes | pkg/k8shandler/deployment.go:334-465 | a clean call finishes a cycle that an earlier call left half-done in any phase; unless only recovery was left, with a current hash, an update with the Deployment paused and a restart with one replica |
| CleanCalls.CleanCreate | pkg/k8shandler/deployment.go:119-143 | a clean create leaves the Deployment paused: a new one otherwise has the desired spec, and a current hash, and an existing one stays otherwise as it is |
| Environment.FailedReadEndsLeavePoll | pkg/k8shandler/deployment.go:282-294 | for every sequence of reads with no real one below the recorded size, a leave poll succeeds exactly if a positive size is recorded and some read failed |
| Environment.FailedReadEndsRejoinPoll | pkg/k8shandler/deployment.go:268-280 | and with no real one at least the recorded size, a rejoin poll succeeds exactly if no positive size is recorded and some read failed |
| Environment.PollsSearch | pkg/k8shandler/deployment.go:268-294 | a poll succeeds exactly if some read in it, wherever it stands, meets the condition |
| PartitionRollout.PartitionLowersOneRejoinAtATime | pkg/k8shandler/statefulset.go:255-304 | within a cycle, over any interleaving of update and restart calls, the server's partition never rises, and between two lowerings a poll ended with at least the cluster size recorded at the cycle's start |
| PartitionRollout.RejoinsAreRealIffSizeRecorded | pkg/k8shandler/statefulset.go:349-407 | for any start of a cycle with two pods to go: in every cycle from there the read that ended a poll between two lowerings really was of at least the recorded size if and only if a positive size is recorded |
| PartitionRollout.UnreadSizeIsRecordedAsZero | pkg/k8shandler/statefulset.go:355-359 | a cluster size that cannot be read ends a restart before it begins, but an update goes on with size 0 |
| PartitionRollout.RestartDeletesEveryOrdinal | pkg/k8shandler/statefulset.go:249-304 | with the partition at R when the cycle began, after any number of timed-out and resumed restarts every ordinal from the server's partition up to R was deleted and followed by a successful leave poll, and a finished cycle did so for all of 0..R-1 |
| PartitionRollout.CycleBegins | pkg/k8shandler/statefulset.go:222-245 | a call that begins a cycle is, from there on, a call made in the cycle, and the partition is the replica count exactly if reading it and writing it took effect, and otherwise what it was |
| PartitionRollout.UncheckedPartitionDecides | pkg/k8shandler/statefulset.go:243 | a cycle of restarts, begun by a call whose write of the partition is unchecked and cut short and resumed any number of times, has by its end restarted all R pods if and only if that write took effect or the partition was already at least R |
| PartitionRollout.StartingPartitionDecides | pkg/k8shandler/statefulset.go:249-304 | the same from any state inside a cycle: its restarts have at the end restarted all R pods if and only if the server's partition was at least R at first |
| PartitionRollout.LostWriteRestartsNothing | pkg/k8shandler/statefulset.go:243 | a concrete failing input: with partition 0 and the write lost, everything else going well, a restart of R pods finishes without deleting any |
| PartitionRollout.CompletedRestartDeletes | pkg/k8shandler/statefulset.go:249-304 | a restart that runs through in one call deletes the ordinals below the server's partition, each once, from the top, and no other |
| PartitionRollout.SetPartitionEffect | pkg/k8shandler/statefulset.go:142-168 | what setting the partition can do to the server's value and to the log, acknowledged or not |
| NodeRollouts.PassAtMostOneCall | pkg/k8shandler/cluster.go:46-128 | a pass makes at most one call on a StatefulSet, and makes it exactly if the node is due, whatever became of other nodes; it is update exactly if the stored entry is scheduled for one, and the rest of the pass, with other nodes' work and the help for unschedulable pods, leaves its partition and its polls alone |
| NodeRollouts.DueIff | pkg/k8shandler/cluster.go:47-128 | with a node in progress only that one is due; else all that are scheduled for an upgrade; and only if there are none, all that are scheduled for a redeploy alone |
| NodeRollouts.RunIsCycle | pkg/k8shandler/cluster.go:46-128 | the calls that the passes of a run make on a StatefulSet under upgrade form a cycle of calls; the recorded size stays, and the node leaves the upgrade only by such a call |
| NodeRollouts.RolloutsInRuns | pkg/k8shandler/statefulset.go:381-414 | so over any passes that find the node under upgrade its partition never rises, and between two lowerings a poll ended at the recorded size, truly so if a positive size is recorded |
| RolloutEnds.RolloutsEndBack | pkg/k8shandler/statefulset.go:409-425 | and when the node is out of the upgrade, its upgrade was cleared right after a poll that ended with at least the recorded size, and its partition was not touched since |
| RolloutEnds.CleanEndNeedsNoRedeploy | pkg/k8shandler/statefulset.go:289-304 | a clean pass that clears a StatefulSet's upgrade leaves it not scheduled for a redeploy, with the secret fixed |
| StatefulSetEffects.ClearsOnlyWhenBack | pkg/k8shandler/statefulset.go:409-425 | whatever fails, a call of update or restart that began before recovery clears the upgrade exactly if it runs to its end, and right before that a poll ended with at least the recorded size, which a beginning call sets to what it read, or 0 |
| StatefulSetEffects.FinishedCycleSawAllBack | pkg/k8shandler/statefulset.go:289-304 | so does every cycle of calls, however often cut short and resumed |
| StatefulSetEffects.UpdateAwaitsEachPod | pkg/k8shandler/statefulset.go:387-407 | an update polls for a pod to leave right after each lowering of the partition, and goes on only if one did |
| StatefulSetEffects.CleanCallLowersByOnes | pkg/k8shandler/statefulset.go:255-304 | a clean call in a cycle lowers the partition from where it is to 0, by ones and in no other steps |
| StatefulSetEffects.UpdateAgreesIffReadable | pkg/k8shandler/statefulset.go:374-385 | an update in a cycle that passes its first block leaves the server in agreement with what node.self held if and only if the check could read, or it agreed before |
| StatefulSetEffects.CleanCallRefreshes | pkg/k8shandler/statefulset.go:289-304 | a clean update or restart that began before recovery finishes the cycle with a current secret hash, and the evaluation after it asks for no redeploy |
| StatefulSetEffects.CleanCreateScales | pkg/k8shandler/statefulset.go:310-331 | a clean create gives an existing StatefulSet the desired replicas and leaves it otherwise as it is; a new one has the desired spec and a current hash |
| StatefulSetEffects.OnlyFailureStopsPod | pkg/k8shandler/statefulset.go:261-287 | an iteration of either loop is stopped only by a failed poll or pod deletion; a failed write of the partition stops nothing |
| NodeRollouts.RestartsInRuns | pkg/k8shandler/statefulset.go:249-304 | and over any passes that only restart it every ordinal from the server's partition up to the one at first was deleted and seen to leave; when the node is out of the upgrade, all below R were if and only if R was at most that |
| NodeRollouts.UncheckedWriteInRuns | pkg/k8shandler/statefulset.go:222-304 | a restart that one pass of a run begins and a later one ends has restarted all R pods if and only if the unchecked initial write took effect or the partition was already at least R |
| OnePassRestart.UncheckedWriteInOnePass | pkg/k8shandler/statefulset.go:222-304 | likewise for a restart that one pass both begins and clears |
| StatusIndex.RunIndexed | pkg/k8shandler/cluster.go:132-163 | from an empty status, over every run and with anything failing, the stored and in-memory status hold at most one entry per node and no nameless one |
| StatusIndex.NoAppendOutsideCreate | pkg/k8shandler/cluster.go:67-121 | so the appends for a missing entry when continuing, upgrading or redeploying are never reached: these modes leave the entries' names as they are |
| CachePurge.RefreshIsExact | pkg/k8shandler/cluster.go:309-331 | refreshing the cache deletes exactly the cached nodes that are not generated, each once, removes exactly their entries, reviews min masters once and before the first deletion or not at all, and leaves all other workloads alone |
| CachePurge.WithoutKeepsOrder | pkg/k8shandler/cluster.go:323-326 | the entries that stay keep their content and their order |
| CachePurge.WithoutOnlyKeeps | pkg/k8shandler/cluster.go:323-326 | and nothing about a deleted node stays |
| Reconcile.ScheduledAre | pkg/k8shandler/cluster.go:333-367 | a node is in that list if and only if some flagged entry names it |
| Reconcile.InProgress | pkg/k8shandler/cluster.go:208-221 | it finds a node exactly if an entry under upgrade names a cached one |
| NodeNames.PartsOfName | pkg/k8shandler/util.go:277-337 | the split of hasValidUUIDs recovers the role letters, the UUID and the replica index that were printed, for every cluster name and every UUID without dashes |
| NodeNames.NameInjective | pkg/k8shandler/nodetypefactory.go:56-76 | names of one cluster are equal only for equal roles, UUID and replica index |
| NodeNames.KindOfNodeName | pkg/k8shandler/nodetypefactory.go:41-51 | the kind can be read off a name |
| NodeNames.HasValidUUIDs | pkg/k8shandler/util.go:277-323 | accepts if and only if every listed name parses and its UUID is still in the spec; otherwise reports the first name that does not parse, or else the first UUID that is missing |
| NodeNames.PrintedNameKept | pkg/k8shandler/util.go:277-337 | an entry with a generated name passes the check if and only if its UUID is in the spec |
| NodeNames.IsUUIDFound | pkg/k8shandler/util.go:325-337 | a UUID is found exactly if some node of the spec has it |
| Base.Contains | pkg/k8shandler/util.go:339-348 | the search loops over lists of strings and of roles find a value exactly if it is there |
| NodeNames.GetNodeRoleMap | pkg/k8shandler/common.go:34-57 | which roles a list mentions |
| NodeFactory.GetNodeTypeInterface | pkg/k8shandler/nodetypefactory.go:28-54 | one new Deployment with one replica per replica of a data node, numbered from 1, or one StatefulSet |
| NodeFactory.GeneratedDistinct | pkg/k8shandler/nodetypefactory.go:28-76 | with distinct UUIDs all names generated from a spec are distinct |
| NodeFactory.GeneratedKind | pkg/k8shandler/deployment.go:76-78 | a generated name has one kind, whichever spec generated it, so the type assertion in updateReference cannot fail |
| NodeFactory.ReconcileSpec | pkg/k8shandler/cluster.go:283-308 | what a pass demands of the generated nodes holds of the nodes generated from any spec, and the cache's kinds keep fitting its names |
| DriftDetection.ChangedIsExact | pkg/k8shandler/deployment.go:523-601 | when the read succeeds the answer is whether the server disagrees on a compared field, and self then agrees with the desired spec there and equals the server elsewhere; ComparedFields says which fields these are |
| DriftDetection.ComparedFields | pkg/k8shandler/deployment.go:538-600 | the same written out: drift if and only if the selector maps differ, or the tolerations in the sense of Comparison, or for a container position that both have the image, or the CPU or memory, zero when missing, of the limits or of the requests; self then has the desired value of each, and other positions as on the server |
| DriftDetection.RepeatedCheckIsStable | pkg/k8shandler/deployment.go:523-601 | repeating the check with the server unchanged gives the same answer and the same self, even past the desired containers |
| DriftDetection.NoDriftAfterUpdate | pkg/k8shandler/deployment.go:470-482 | after a successful update whose check could read the server the next check finds no drift |
| DriftDetection.UnreadableUpdateLosesDesired | pkg/k8shandler/deployment.go:523-536 | when the check cannot read, the update reports success with nothing written and a blank desired spec, and the next check compares with that |
| Drift.PatchStable | pkg/k8shandler/deployment.go:538-600 | patching twice is patching once, with the same verdict |
| Drift.PatchKeepsTheRest | pkg/k8shandler/deployment.go:553-599 | the patch leaves replicas, pause, partition, other resources and everything else as the server has them |
| Comparison.AreSelectorsSame | pkg/k8shandler/util.go:66-80 | length and one-way inclusion decide map equality |
| Comparison.AreTolerationsSame | pkg/k8shandler/util.go:95-107 | the loop computes the code's comparison of toleration lists |
| Comparison.TolerationsSameIsMultisetEquality | pkg/k8shandler/util.go:95-107 | that comparison is multiset equality when the left list has no duplicates |
| Comparison.DuplicatesHideDifference | pkg/k8shandler/util.go:95-107 | with a duplicate on the left, lists that differ as multisets compare equal |
| Comparison.TolerationSameIsEquality | pkg/k8shandler/util.go:119-137 | two tolerations compare equal if and only if they are equal, so the comparison is an equivalence |
| Conditions.ConditionList.UpdatePodCondition | pkg/k8shandler/status.go:403-432 | the list after an update, kept proper, and the result is true if and only if presence, status, reason or message changed |
| Conditions.ConditionList.UpdateClusterCondition | pkg/k8shandler/status.go:527-559 | likewise, with the transition time kept while the status is the same |
| Conditions.PutIsMapUpdate | pkg/k8shandler/status.go:403-432 | an update is a map update: the type set has the new condition, or none if it is False, and every other type is as before |
| Conditions.PutKeepsOthers | pkg/k8shandler/status.go:411-431 | the other conditions keep their content and order |
| Conditions.LastUpdateWins | pkg/k8shandler/status.go:403-432 | after any sequence of updates types are unique, nothing False is stored, and each type shows its last update |
| Conditions.StampKeepsTime | pkg/k8shandler/status.go:544-547 | the transition time moves exactly when the status does |
| Conditions.ConditionList.Report | pkg/k8shandler/status.go:456-490 | an empty report clears a condition, any other sets it; other types stay |
| Conditions.ConditionList.InitializeConditions | pkg/k8shandler/status.go:492-508 | initialising conditions to False changes nothing |
| Configuration.Resource.IsValidConf | pkg/k8shandler/util.go:225-275 | success if and only if all checks pass and all writes succeed, and then all four Invalid conditions are absent; a failed check leaves its own condition present and the earlier ones absent; a failed write leaves the earlier ones absent; other conditions are never touched |
| Configuration.Resource.SetCondition | pkg/k8shandler/status.go:561-578 | a read-modify-write of one condition, at each point of failure |
| CatTable.DiskUsageInvertsRendering | pkg/k8shandler/elasticsearch.go:287-314 | the disk-usage map of every rendering of a table with distinct names, whatever its padding, blank lines and lines of other widths, has exactly one entry per row, with that row's values |
| CatTable.IndexHealthInvertsRendering | pkg/k8shandler/elasticsearch.go:499-532 | likewise for index health, by index name |
| CatTable.RowsInvertRendering | pkg/k8shandler/elasticsearch.go:291-301 | splitting a rendered table gives back the fields of its rows, in order, and nothing for any other line |
| CatTable.ParseNodeDiskUsage | pkg/k8shandler/elasticsearch.go:287-314 | the nested loops compute that map, for any text |
| CatTable.ParseIndexHealth | pkg/k8shandler/elasticsearch.go:499-532 | the nested loops compute that map, for any text |
| Counting.CountRole | pkg/k8shandler/util.go:156-187 | the count is the exact sum, wrapped to 32 bits, and equals it if and only if it fits |
| Counting.CountsConserved | pkg/k8shandler/nodetypefactory.go:28-54 | generated Deployments number getDataCount, and replicas of master nodes sum to getMasterCount, exactly if no data node concerned has a negative count |
| Counting.ReplicasHaveNodes | pkg/k8shandler/defaults.go:47-65 | the replica count lies between 0 and one less than the data nodes exactly if there is a data node and single redundancy is not asked of a single one |
| Counting.PolicyMeaning | pkg/k8shandler/defaults.go:47-65 | full redundancy gives every other data node a copy, multiple half of them, zero none, single one, and unset or unknown one unless there is exactly one data node |
| Counting.ValidSpecReplicas | pkg/k8shandler/util.go:199-223 | so for a spec that passes the checks it does exactly if the spec is not empty |
| Counting.QuorumIsLeastMajority | pkg/k8shandler/configmaps.go:61 | masters/2+1 is the least strict majority |
| Counting.QuorumsMeet | pkg/k8shandler/cluster.go:195 | any two groups of masters of quorum size have a member in common |
| Counting.UpdateMinMasters | pkg/k8shandler/cluster.go:185-206 | what is written, if anything; never more than the observed number of nodes, and the least majority when the count fits |
| DataHash.GetSecretDataHash | pkg/k8shandler/secret.go:25-43 | in whatever order the entries are visited, the hash is one function of the map |
| DataHash.GetConfigmapDataHash | pkg/k8shandler/configmaps.go:256-277 | the same without the index settings |
| DataHash.SortDataHashKeys | pkg/k8shandler/common.go:624-633 | the keys sorted, from any order |
| DataHash.SortedUnique | pkg/k8shandler/common.go:624-633 | sorting distinct keys has one result |
| DataHash.HashSeesValues | pkg/k8shandler/secret.go:25-43 | with a digest of 32 bytes that does not collide on the values, two hashes are equal if and only if the values in key order are |
| DataHash.HashSeesEveryChange | pkg/k8shandler/secret.go:25-43 | with the same keys, two hashes are equal if and only if the data are |
| DataHash.RenamedKeyUnseen | pkg/k8shandler/secret.go:38-40 | renaming the only key keeps the hash |
| DataHash.RedeployIffSecretChanged | pkg/k8shandler/deployment.go:100-104 | a node holding the hash of one secret schedules a redeploy, when it reads another with the same keys, if and only if they differ |
| Resources.NewResourceRequirements | pkg/k8shandler/common.go:400-546 | the branch tree equals four priority chains, with the CPU limit absent when neither level sets it |
| Resources.MemoryWithinLimit | pkg/k8shandler/common.go:415-469 | for well-formed levels the merged memory request is within the limit exactly unless the node sets one of the two and it contradicts the common requirements |
| Resources.MemoryWithinLimitWhenPaired | pkg/k8shandler/common.go:415-469 | a node that sets both or neither gets a positive request within its limit |
| Resources.LoneRequestExceedsLimit | pkg/k8shandler/common.go:441-468 | a node that only requests more than the common limit gets a request above its limit |
| Resources.CpuWithinLimit | pkg/k8shandler/common.go:471-521 | the same question for CPU, when there is a CPU limit |
| Selectors.GenerateSelectors | pkg/k8shandler/util.go:82-93 | without common selectors each template gets its own node's; with them all templates hold the one common map, into which every node's selectors were written |
| Selectors.KeysLeak | pkg/k8shandler/util.go:82-93 | which keys end up in every template |
| Selectors.LastNodeDecides | pkg/k8shandler/util.go:82-93 | the last node that sets a key decides it for all; the operating system is always Linux |
| OperatorObject.Operator.GetNodes | pkg/k8shandler/cluster.go:283-331 | the cached list's names are those generated, in order; a cached name keeps its object with its hashes, revision and cluster size and gets only the new reference; a new name gets the generated object; and the rest is as in RefreshIsExact's function |
| OperatorObject.Operator.Collect | pkg/k8shandler/cluster.go:291-308 | the first loop of getNodes, by identity of objects |
| OperatorObject.Operator.PurgeNodes | pkg/k8shandler/cluster.go:310-328 | the second loop of getNodes |
| OperatorObject.Operator.ReconcileCluster | pkg/k8shandler/cluster.go:29-183 | one pass on the objects computes the function Pass that the run theorems are about |
| OperatorObject.Operator.Work | pkg/k8shandler/cluster.go:47-179 | the choice among continuing, upgrading, redeploying and creating, on the objects |
| OperatorObject.Operator.Treat | pkg/k8shandler/cluster.go:53-73 | update or restart one node, re-evaluate what it needs and store its entry |
| OperatorObject.Operator.TreatAll | pkg/k8shandler/cluster.go:79-128 | the batch loops, which a failed node does not stop |
| OperatorObject.Operator.Make | pkg/k8shandler/cluster.go:132-167 | one turn of the create loop, which a refused configuration or a failed creation ends |
| OperatorObject.Operator.MakeAll | pkg/k8shandler/cluster.go:132-168 | the create loop |
| OperatorObject.Operator.ScheduledNodes | pkg/k8shandler/cluster.go:333-367 | the nodes scheduled for an upgrade or only for a redeploy, in order |
| OperatorObject.Operator.NodeInProgress | pkg/k8shandler/cluster.go:208-221 | the first cached node that an entry under upgrade names |
| OperatorObject.Operator.StoreStatus | pkg/k8shandler/cluster.go:369-401 | what a status write that may fail or be lost does to the in-memory and the stored status |
| OperatorObject.Operator.ProgressUnschedulable | pkg/k8shandler/cluster.go:223-237 | every cached node of an unschedulable entry is helped; the entries themselves stay as they are |
| OperatorObject.Operator.FindStatus | pkg/k8shandler/status.go:86-94 | the first entry with the name, or none |
| OperatorObject.Operator.Contains | pkg/k8shandler/nodetypefactory.go:96-104 | the first node with the name, or none |
| OperatorObject.Operator.CloseStatus | pkg/k8shandler/status.go:28-83 | the closing write replaces the unschedulable flags and is always attempted |
| NodeObject.Node.UpdateDeployment | pkg/k8shandler/deployment.go:385-468 | update on the object: the same node, status, world and outcome as the function that the cycle theorems are about |
| NodeObject.Node.RestartDeployment | pkg/k8shandler/deployment.go:296-383 | restart on the object, likewise |
| NodeObject.Node.DrainDeployment | pkg/k8shandler/deployment.go:313-350 | restart's first block, with the scale-down skipped when the replica count cannot be read |
| NodeObject.Node.ApplyDeployment | pkg/k8shandler/deployment.go:404-424 | update's first block |
| NodeObject.Node.RecycleDeployment | pkg/k8shandler/deployment.go:352-371 | the blocks of phase nodeRestarting: on success allocation has been enabled and the phase is recoveringData |
| NodeObject.Node.RecoverDeployment | pkg/k8shandler/deployment.go:373-382 | the last block: the cycle is cleared only on green |
| NodeObject.Node.CreateDeployment | pkg/k8shandler/deployment.go:119-143 | create, with the three outcomes of the API call |
| NodeObject.Node.ProgressDeployment | pkg/k8shandler/deployment.go:484-509 | the immediate update of an unschedulable node |
| NodeObject.Node.UpdateStatefulSet | pkg/k8shandler/statefulset.go:348-428 | update on the object |
| NodeObject.Node.RestartStatefulSet | pkg/k8shandler/statefulset.go:222-304 | restart on the object |
| NodeObject.Node.RestartPods | pkg/k8shandler/statefulset.go:261-287 | restart's descending loop over the ordinals |
| NodeObject.Node.UpdatePods | pkg/k8shandler/statefulset.go:387-407 | update's descending loop over the partition |
| NodeObject.Node.LowerPartition | pkg/k8shandler/statefulset.go:142-168 | setPartition, which replaces self by the server's copy |
| NodeObject.Node.CreateStatefulSet | pkg/k8shandler/statefulset.go:310-331 | create, which scales an existing workload |
| NodeObject.Node.ScaleStatefulSet | pkg/k8shandler/statefulset.go:442-458 | scale, which replaces self by the server's copy |
| NodeObject.Node.ProgressStatefulSet | pkg/k8shandler/statefulset.go:539-560 | the immediate update of an unschedulable node and the deletion of the pod at the partition |
| NodeObject.Node.HasChanged | pkg/k8shandler/deployment.go:523-601 | isChanged on the object: a failed read blanks the desired spec and reports no drift |
| NodeObject.Node.Compare | pkg/k8shandler/deployment.go:538-600 | the comparison loop finds drift exactly if some compared field differs, and its copy agrees with the desired spec |
| NodeObject.Node.Execute | pkg/k8shandler/deployment.go:470-482 | executeUpdate on the object |
| NodeObject.Node.Pause | pkg/k8shandler/deployment.go:194-227 | pausing works on a copy, so the desired spec survives |
| NodeObject.Node.Scale | pkg/k8shandler/deployment.go:229-255 | scaling reads into self first, so the desired spec does not survive |
| NodeObject.Node.WaitForRollout | pkg/k8shandler/deployment.go:145-184 | both rollout polls |
| NodeObject.Node.Evaluate | pkg/k8shandler/deployment.go:84-113 | state: an upgrade for drift, a redeploy for a changed secret |
| NodeObject.Node.Refresh | pkg/k8shandler/deployment.go:511-521 | refreshing the two hashes |
| NodeObject.Node.UpdateReference | pkg/k8shandler/deployment.go:76-78 | only self is replaced, by a node of the same kind |

## Left out

- Retries on conflict and polling are single steps: they succeed or fail, and a poll sees a finite list of reads; the timing is not modelled.
- HTTP, TLS, tokens and secret files are replaced by answers; for a disable or enable of allocation, ok means that it took effect and not ok means that it may have.
- The hash of the config map is read and cached as in the source, where nothing uses it; no theorem speaks of it.
- Services, accounts, roles, monitors, alert rules, volume claims, and the templates of config maps are left out; they have no state that the protocol depends on.
- Pod templates are a parameter: a node's spec keeps the compared fields, replicas, pause, partition and an opaque rest.
- The quantities of resources are integers, a missing quantity is zero, and a nil list is the empty map; the formats of quantities are not modelled.
- A restart of the operator process, which loses the cached hashes and cluster sizes, is not modelled.
- A crash on a container index sets the flag `alive` to false and the functions go on.
- Pod conditions appear in the passes only as the entry's unschedulable flag; their lists are treated on their own in Conditions.
- The side effects of UpdateReplicaCount, and of updateMinMasters within a pass, are not part of the world; what updateMinMasters writes is treated on its own in Counting.
- Several clusters at once are left out, because the key of the node cache joins name and namespace with a dash and is not injective.
- Two nodes of a spec with equal UUIDs and roles, which would share one cached object, are excluded; UUIDs are random.
- setUUIDs is left out; generation starts from a spec whose nodes all have a UUID.
- The loop over a node count of the largest 32-bit integer, which does not end in the source, ends in the model.
- Disk watermarks and the conditions they give rise to are left out.
- ConvergenceTheorem.DeploymentsConverge: does not cover StatefulSets, for which it is false; StatefulSetDrift.StatefulSetDriftStays says exactly when they agree with the spec.
- AllocationSafety.AllocationNeverStranded: assumes that the first status write of a cycle takes effect and that no node under upgrade is dropped from the spec; LostStatus and DroppedNode show both to be needed.
- ObjectRuns.RunGuarded: the configuration check of a pass is one answer; that the UUID check accepted is a hypothesis about the passes that it lets through, stated with the function that NodeNames.HasValidUUIDs decides.
- NodeRollouts.RestartsInRuns: covers stretches whose calls are all restarts; when updates are mixed in, only what RolloutsInRuns says holds, because an update deletes no pod.
- Configuration.Resource.IsValidConf: takes the spec to be the same at each of its four reads of the resource.
- CatTable.ParseNodeDiskUsage: number parsing is a parameter and letters are upper-cased as in ASCII.
- OperatorObject.Operator.ReconcileCluster: the configuration check is one answer that may also refuse the pass, its four parts being treated in Configuration; the review of min masters is only an event.
- OperatorObject.Operator.Make: the configuration check inside the create loop is one answer, and the review of min masters only an event.
- OperatorObject.Operator.CloseStatus: of the closing write only the unschedulable flags are modelled; the health, the shard-allocation text and the pod lists are not.
- NodeObject.Node.Compare: an index past the desired containers, which crashes the process, only clears the flag alive here.
- NodeObject.Node.WaitForRollout: a whole poll is one step that observes one revision.
