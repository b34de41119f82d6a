# Verified model of init-spock

`init-spock` is the Go job of the pgEdge Helm chart that builds and repairs an active-active
Postgres topology: a full mesh of Spock subscriptions over all configured nodes. On every run it
computes the desired resources, inspects the databases, plans deletes, updates and creates, and
executes them phase by phase. When a node is bootstrapped through Spock it also runs the
zero-downtime "add node" protocol while the other nodes keep taking writes.

The project models that job in Dafny and proves properties of it. `dafny verify dfyconfig.toml`
checks everything.

## Structure

| file | models | main results |
|---|---|---|
| Resources.dfy | identifiers, statuses, resource objects, events | |
| Layering.dfy | layered topological sorting, as mathematics | a layer is a longest-chain length; the cycle fallback is exact; no phasing needs fewer phases |
| Sorting.dfy | `topoSort` with its in-degree maps, loop by loop | the method computes exactly those layers, for every map iteration order, cyclic input included |
| Planning.dfy | `Plan` | exact partition of identifiers into deletes, updates, creates, in phase order |
| Executor.dfy | `Execute` as a transition system | dependencies are respected in every interleaving; nothing begins after a failed phase; every run ends |
| Names.dfy | slot, subscription and pair names as strings, and the references formatted from them | exact collision condition; strings identify resources; every formatted reference is the string of the resource meant |
| Desired.dfy | `ComputeDesired` | exactly the mesh plus the populate chains, with exact dependencies, connections and struct references |
| DesiredExample.dfy | `ComputeDesired` at a configuration | adding a third node: all 28 resources and what each waits for |
| MeshSize.dfy | its size | 2n² entries for a mesh of n nodes, 8(n−2) + 2 more with one new node |
| DesiredOrder.dfy | the dependency graph | closed and acyclic with at most one new node; exactly when two new nodes make it cyclic; ordering that no edge states |
| AddNode.dfy | the add-node protocol, interleaved with foreign writes and workers that come and go | |
| AddNodeInvariant.dfy | its invariant, kept by every step of every interleaving | |
| AddNodeSafety.dfy | what the protocol guarantees for the stream into the new node | exactly which records are accounted for; nothing streams before the COPY |
| AddNodeFeeds.dfy | the streams from the peers into the source | the catch-up gate opens |
| AddNodeAdvance.dfy | slot and origin advance over whole histories | exactly when a transaction can be applied twice; exactly when slot and origin are in lockstep |
| AddNodeProgress.dfy | that the add can be completed | from every reachable state without a failure some continuation executes the whole plan, and then every existing node streams |
| AddNodeLoss.dfy | what the source itself misses | exactly when a completed add can lose a transaction |
| AddNodeRetry.dfy | retries after the COPY, and later runs on a joined node | exactly when one can leave something out, and exactly when it leaves slots and origins alone |
| PopulateSteps.dfy | the `Create` bodies of the populate chain, statement by statement | each is one atomic effect of AddNode under interference, and every step of the whole system is such interference |
| FreshAdd.dfy | which of these applies to a refreshed catalog | exactly when an add streams too early, and when it can lose something, on what refresh sees; exactly when a failed add may be run again |
| AddNodeCatalog.dfy | the protocol and the catalogs together | every history of an add is at the same time a repair run on the catalogs; a completed one, whatever it found, brings up the mesh and streams from everywhere |
| Refresh.dfy | `RefreshActual` | broken subscriptions are marked exactly, through shared objects; orphans found exactly |
| Convergence.dfy | whole reconcile runs on the catalogs | exactly which subscriptions exist and are enabled in every reachable state; one success repairs the mesh, in every configuration; the next plan is empty exactly under a condition on orphans; k successes settle what k survivors list |
| Reconcile.dfy | `Execute` and `Reconcile` as methods with a nondeterministic scheduler | every execution is a run of the transition system, so all of the above holds of it |
| Repset.dfy, Reset.dfy | replication-set backup and restore, node reset, the whole job | reset round trip; restore is never refused; what a failed reset leaves; exactly when reset plus reconcile converges |

Code that updates maps, fields or catalogs step by step is modelled by methods with loops and
invariants and by classes (`Resource`, `Link`, `Cluster`, `Database`); Go map iteration is an
arbitrary choice; goroutines are an arbitrary interleaving. LSNs are naturals.

## Findings

Where a natural claim is false of the code, the exact condition is proved and an input that fails
is shown.

- An orphan node or orphan slot name reported by two survivors is removed on only one of them per
  run: orphan nodes are stored under `orphan@survivor` but planned under the orphan's own
  identifier, and an orphan slot is stored under its bare name. One reconcile therefore reaches an
  empty next plan if and only if no node is new and no orphan name is visible from two survivors
  (`Convergence.ConvergesIff`). A healthy two-node mesh in which both nodes still list a removed
  third one fails it (`Convergence.OrphanLeftBehind`); with at most k survivors per name, k
  successful runs do settle (`Convergence.KReconcilesSettle`). The comment at refresh.go:124-126
  intends one `node_drop` per survivor; the model follows the code.
- A configuration with a node in `spock` bootstrap mode is never settled: its populate resources
  report "missing" on every run (`Convergence.BootstrapNeverSettles`). The mesh ends healthy all
  the same (`Convergence.ConvergesIff`).
- Two nodes cannot be added at once, to an existing mesh or on a first run, unless they are the whole
  configuration and copy from one another (`DesiredOrder.TwoNewIff`, `FreshAdd.TwoAddsFallBack`);
  otherwise the graph is cyclic and `topoSort` silently drops the ordering of everything on or after
  the cycle.
- A new node copied from another new node can leave a catch-up reading a discarded sync event,
  exactly when that source's own chain is written last (`Desired.FedUnlessChained`).
- An add loses nothing if and only if every peer's slot for the source is there when refresh looks
  (`FreshAdd.AddLosesIff`). If one is gone, as after an upgrade that drops slots, the same run makes
  the subscription anew, and the new slot begins at the present end of the WAL. What the source had
  not applied by then (`AddNodeLoss.MissedExactly`) is in neither the COPY nor, where the slot for the
  new node begins later, the stream (`AddNodeSafety.NoGap`), although the catch-up gate passes
  (`AddNodeLoss.LosingRun`).
- Adding, or adding again, without cleaning up streams nothing before a COPY if and only if an earlier
  attempt made the COPY that counts, or every subscription into the new node is missing or has lost
  its slot when refresh looks (`FreshAdd.SafeToAddIff`). A disabled one whose slot is still there is
  enabled before the populate chain begins (`FreshAdd.LeftoverEnabledFirst`) and streams
  (`FreshAdd.BadRun`), which is why adding_nodes.md:116-118 asks to remove the node first. An add onto a
  clean node that fails before its COPY may be run again if and only if it had not registered any
  peer's subscription yet (`FreshAdd.RetrySafeIff`).
- A retry after the COPY leaves nothing out if and only if every node's slot for the new one is still
  there (`FreshAdd.RetryAddLosesIff`): a slot made anew begins past the old watermark, and there is no
  second COPY (`AddNodeRetry.RetryLosingRun`).
- A later run over the same configuration loses nothing (`AddNodeRetry.RerunLosesNothing`), but may
  interfere, as adding_nodes.md:62-64 warns: it leaves slot and origin of a streaming peer alone if and
  only if the advance finds the slot active, no target, or a target at or behind the restart position,
  coincidence aside (`AddNodeRetry.LeavesAloneIff`). With the worker down, slot 3, origin 10 and target
  5, record 6 is applied again (`AddNodeRetry.SixthAgain`).
- desired.go:78-80 promises slot and origin "in lockstep". The slot advance is skipped on
  `restart_lsn` but moves `confirmed_flush_lsn`, so they agree if and only if the advance found a
  target past the restart and at or past the confirmed position, or was skipped on a slot still at
  0 (`AddNodeAdvance.LockstepIff`); a slot at restart 0, confirmed 10 with target 5 ends 5 ahead
  (`AddNodeAdvance.SlotAheadOfOrigin`). The origin never passes the slot
  (`AddNodeSafety.OriginBehindSlot`).
- A transaction can be applied twice if and only if one that the COPY brought lies past the slot's
  confirmed position when the subscription is enabled (`AddNodeAdvance.DuplicateIff`); at the advance
  itself, if and only if one lies past the target, or past the slot where the advance is skipped or
  the slot is further (`AddNodeAdvance.DuplicateIffShort`). With no target, slot 3 and watermark 8,
  transaction 4 is applied twice (`AddNodeAdvance.FourthTwice`); on an idle peer nothing is
  (`AddNodeAdvance.IdlePeer`).
- Node names with dashes can share a subscription name, exactly when one name pair is the other
  with its dash moved (`Names.SubNameCollision`). Slot names are shared only if one provider is
  the other followed by "-sub" or "_sub" and more (`Names.SlotNameCollision`, `Names.SubbedNamesCollide`).
- A reset loses assignments of relations that are neither tables nor views, such as a partitioned
  table (`Repset.TablesSurviveIff`, `Repset.PartitionedTableLost`), and changed flags of built-in
  sets (`Repset.SetsSurviveIff`); a failure loses everything if and only if the extension had been
  dropped by then (`Reset.ResetNode`).

## Model

| member | source | states |
|---|---|---|
| Layering.LayersExact | internal/resource/plan.go:95-126 | off every cycle, an event's phase is the length of its longest in-set dependency chain; on or after a cycle it is in the last, fallback layer |
| Layering.FallbackExact | internal/resource/plan.go:105-113 | the empty-ready branch is taken iff some event lies on or after a cycle, and then emits exactly those events |
| Layering.AcyclicNeverFallsBack | internal/resource/plan.go:105-113 | an acyclic event set never takes the fallback |
| Layering.AfterCycleIffLongChains | internal/resource/plan.go:97-124 | being stuck forever is having a repeating dependency chain (pigeonhole over the finite set) |
| Layering.LayerIsDepth | internal/resource/plan.go:95-126 | a member of a non-fallback layer k has a dependency chain of k edges and none longer |
| Layering.DepthHasLayer | internal/resource/plan.go:95-126 | conversely, an event whose longest chain has k edges is emitted in layer k |
| Layering.LayersPartition | internal/resource/plan.go:97-124 | every event is in exactly one layer, and layers hold nothing else |
| Layering.EdgeOrder | internal/resource/plan.go:78-124 | an edge into an event off every cycle goes from an earlier to a later layer |
| Layering.LayersFewest | internal/resource/plan.go:95-126 | no phasing that respects the edges uses fewer phases |
| Layering.NumberingIsAcyclic | internal/resource/plan.go:78-93 | a numbering that rises along every edge rules out cycles |
| Sorting.TopoSort | internal/resource/plan.go:61-127 | for every input, cyclic or not, terminates with the layers of the event graph, one event per identifier, the last one that carried it |
| Sorting.IndexEvents | internal/resource/plan.go:64-76 | the identifier-keyed index keeps the last event of each identifier and zero in-degrees for all |
| Sorting.BuildEdges | internal/resource/plan.go:78-93 | in-degrees count in-set edges with multiplicity; dependents list them; both directions |
| Sorting.PeelAll | internal/resource/plan.go:95-126 | rounds of peeling produce the layers; each remaining in-degree equals the edges from remaining predecessors |
| Sorting.PeelRound | internal/resource/plan.go:97-124 | one round yields the next layer and the remaining graph's exact in-degrees, or everything left when nothing is ready |
| Sorting.CollectReady | internal/resource/plan.go:98-104 | the collected events are those with no remaining predecessor |
| Sorting.LinkEvent | internal/resource/plan.go:79-92 | one event's dependencies raise the in-degree of the later side and extend the list of the earlier side, per edge and in both directions |
| Sorting.DeleteKey | internal/resource/plan.go:118-121 | after a deletion every remaining in-degree again equals the edges from remaining predecessors |
| Sorting.Decrement | internal/resource/plan.go:119-121 | one decrement per listed dependent, repeated ones repeated, on keys that all exist |
| Sorting.Peel | internal/resource/plan.go:115-122 | removing one event decrements exactly its dependents and never re-creates a deleted key |
| Planning.Plan | internal/resource/plan.go:9-59 | phases are the sorted deletes, then updates, then creates, for any two maps, also where keys and identifiers differ |
| Planning.CollectDesired | internal/resource/plan.go:20-36 | the delete, update and create lists hold exactly the recreated, updated and missing-or-recreated resources |
| Planning.CollectOrphans | internal/resource/plan.go:13-18 | exactly the actual resources that are not desired are deleted |
| Planning.Specialize | internal/resource/plan.go:9-59 | when keys are identifiers the object-level plan is the identifier-level one |
| Planning.PlanPartition | internal/resource/plan.go:9-59 | each identifier gets precisely the events its case calls for, once each; a recreate's delete precedes its create |
| Planning.PlanOrder | internal/resource/plan.go:38-58 | within an action, a task off every cycle is in a later phase than each in-set task it must wait for |
| Executor.NextInv | internal/resource/executor.go:13-49 | every step keeps: earlier phases all succeeded, later phases untouched |
| Executor.FailureSticks | internal/resource/executor.go:44-46 | once a task failed, its phase is never left |
| Executor.NothingAfterFailure | internal/resource/executor.go:44-46 | after a failure no task of a later phase ever begins |
| Executor.HaltedIsQuiet | internal/resource/executor.go:44-46 | an error is returned only once no goroutine is running any more; some task of the phase has failed, no later phase has begun, and nothing follows |
| Executor.RunRespectsDependencies | internal/resource/executor.go:13-49 | in every interleaving, a task has begun only if every in-set task it must wait for succeeded |
| Executor.InvRespectsLayers | internal/resource/executor.go:13-49 | an earlier create layer completes before a later one begins, edge or no edge |
| Executor.RunsAreBounded | internal/resource/executor.go:13-49 | no interleaving goes on for ever: at most two steps per task, one per phase, one to stop |
| Executor.NeverStuck | internal/resource/executor.go:13-49 | before the end, unless stopped with an error, some step is always possible |
| Executor.MaximalRunEnds | internal/resource/executor.go:44-48 | a run that cannot go on has done every task, or stopped on a failed one |
| Executor.RunDeletesFirst | internal/resource/plan.go:38-58 | all deletes succeed before an update or create begins, all updates before a create |
| Names.SubNameCollision | internal/spock/names.go:22-27 | two pairs share a subscription name iff they are equal or one is the other with its dash shifted |
| Names.DashedNamesCollide | internal/spock/names.go:22-27 | ("a","b-c") and ("a-b","c") share a subscription name |
| Names.SlotNameCollision | internal/spock/names.go:12-17 | for all strings, two pairs share a slot name iff they agree once dashes are underscores, or one provider is the other, "_sub" and more, with the subscribers making up for it |
| Names.SubbedNamesCollide | internal/spock/names.go:12-17 | ("a","sub-a-sub-a-t") and ("a-sub-a","t") share a slot name |
| Names.SlotSeparatesSubs | internal/spock/names.go:12-17 | pairs that share a subscription name share a slot name iff they agree once dashes are underscores |
| Names.SubNameInjective | internal/spock/names.go:22-27 | subscription names of pairs without dashes and underscores are injective; SubNameCollision decides all other pairs |
| Names.SlotNameInjective | internal/spock/names.go:12-17 | slot names of such pairs are injective, for every database name |
| Names.PairNameInjective | internal/spock/sync_event.go:35-40 | pair identifiers are injective when the first name has no underscore |
| Names.RenderInjective | internal/resource/resource.go:6-9 | type string and name string identify a resource exactly as the Identifier datatype does, orphan keys and slots kept under their raw name included |
| Names.SharedNames | internal/spock/replication_slot_create.go:34-40 | the slot a populate resource creates is the slot of the end-state resource, and the subscription it registers is the end-state subscription |
| Names.KnownSubName | internal/spock/spock_test.go:66-77 | the subscription name of n1→n2 is sub_n1_n2 |
| Names.KnownSlotName | internal/spock/spock_test.go:162-171 | the slot name of n1→n2 on app is spk_app_n1_sub_n1_n2 |
| Names.KnownDashedNames | internal/spock/spock_test.go:79-87 | dashes become underscores: us-east-1→us-west-2 subscribes as sub_us_east_1_us_west_2, and likewise in slot names, the database name included |
| Names.ReferencesResolve | internal/spock/subscription.go:54-61 | the type and name strings each Dependencies method formats are those of the resources meant, for every desired resource |
| Names.ExtraReferencesResolve | internal/spock/desired.go:74-96 | so are the references ComputeDesired formats for the end-state subscriptions |
| Desired.ComputeDesired | internal/spock/desired.go:30-101 | the map holds exactly the mesh and the populate chains, each entry under its identifier with exact dependencies; sync is set exactly on source→new; users and nodes are connected to the node, slots to the provider, subscriptions to the subscriber, populate resources to their own side; struct references lead to the objects stored under the dependencies |
| Desired.FedUnlessChained | internal/spock/desired.go:50-55 | every catch-up reads the sync event in the map iff no new node's own chain comes after the chains copying another node from it |
| DesiredExample.ThirdKeys | internal/spock/desired.go:30-169 | a third node copied from the first, next to one restored from a backup: exactly these 28 resources |
| DesiredExample.ThirdSubs | internal/spock/desired.go:58-98 | what each of its six subscriptions waits for |
| DesiredExample.ThirdPopulates | internal/spock/desired.go:115-168 | what each of its ten populate resources waits for |
| DesiredExample.LastEntryWins | internal/spock/desired.go:43-48 | only an entry in mode spock with a source makes a node new, and the last one of a name counts |
| MeshSize.DesiredSize | internal/spock/desired.go:30-101 | without a new node the map has 2n² entries for n names |
| MeshSize.OneNewSize | internal/spock/desired.go:30-169 | with one properly sourced new node it has 2n² + 8(n−2) + 2 |
| Desired.AddPopulateResources | internal/spock/desired.go:106-169 | adds exactly the chain of one new node and returns both waits of every peer, in configuration order |
| Desired.AddPeers | internal/spock/desired.go:115-159 | the peer loop over any configuration |
| Desired.AddPeer | internal/spock/desired.go:120-158 | the eight resources of one peer: their dependencies, connections and struct references |
| Desired.AddMesh | internal/spock/desired.go:57-98 | one slot and one subscription per ordered pair of distinct nodes |
| Desired.AddPair | internal/spock/desired.go:64-96 | the slot, on the provider, and the subscription, on the subscriber, of one pair with the gates of its case |
| Desired.FindNew | internal/spock/desired.go:43-48 | the nodes bootstrapped through Spock, with their source |
| Desired.AddChains | internal/spock/desired.go:50-55 | all populate chains, in any map iteration order |
| DesiredOrder.ClosedIff | internal/spock/desired.go:30-169 | with one new node, every dependency is in the map iff its source is another configured node |
| DesiredOrder.OneNewIsOrdered | internal/spock/desired.go:30-169 | with one new node no subset of the resources has a dependency cycle, in create or delete direction |
| DesiredOrder.NoNewIsOrdered | internal/spock/desired.go:30-101 | without a new node the graph is closed and acyclic |
| DesiredOrder.DisabledBeforeLagTracker | internal/spock/disabled_subscription.go:49-55 | on an add, the disabled registration is in an earlier layer than the lag tracker of the same pair, although no edge says so |
| DesiredOrder.TwoNewIff | internal/spock/desired.go:50-98 | for any set of creates that holds both chains and the subscriptions of the two nodes, the graph is acyclic, and topoSort does not fall back, iff the two nodes are the whole configuration |
| DesiredOrder.IndependentPairLoops | internal/spock/desired.go:50-98 | the dependency cycle of two nodes added from other sources |
| DesiredOrder.ChainedPairLoops | internal/spock/desired.go:50-98 | the cycle when one new node is copied from the other |
| DesiredOrder.MutualPairLoops | internal/spock/desired.go:50-98 | the cycle when each is the other's source and a third node exists |
| DesiredOrder.GatesExact | internal/spock/desired.go:113-143 | source→new is gated by exactly the wait and the catch-up of every peer |
| AddNodeInvariant.HistoryInv | internal/spock/desired.go:106-169 | the protocol invariant holds in every state of every interleaving with foreign writes |
| AddNodeSafety.NoGap | internal/spock/desired.go:115-168 | from the COPY on, a record of an existing node is copied, streamed, or still to be streamed iff it is not one that the source missed and streaming began after; the source's own always are; a slot stays at or behind the watermark until enabled |
| AddNodeSafety.NoStreamBeforeCopy | internal/spock/desired.go:74-85 | nothing streams into the new node before the COPY |
| AddNodeSafety.ExactlyOnce | internal/spock/replication_slot_advance.go:75-161 | every transaction copied or streamed is applied exactly once iff none of the COPY lies between where streaming began and where it is; never twice for the source |
| AddNodeAdvance.DuplicateIff | internal/spock/replication_slot_advance.go:75-161 | when a peer's subscription is about to be enabled, some continuation of the run applies one of its transactions twice iff a transaction that the COPY brought lies past the slot's confirmed position |
| AddNodeAdvance.DuplicateIffShort | internal/spock/replication_slot_advance.go:98-158 | the same, decided at the advance: iff a transaction of the COPY lies past the target, or past the slot where the advance is skipped or the slot is already further |
| AddNodeAdvance.FourthTwice | internal/spock/replication_slot_advance.go:75-99 | an input: no target, slot at 3, watermark 8; transaction 4 is applied twice |
| AddNodeAdvance.IdlePeer | internal/spock/sync_event.go:57-80 | on an idle peer the slot lies behind the watermark, the sync event's record being between them, and nothing is applied twice |
| AddNodeAdvance.LockstepIff | internal/spock/desired.go:77-84 | once the origin has followed and until enabling, origin and slot agree iff the advance found a target past restart_lsn and at or past confirmed_flush_lsn, or was skipped on a slot at 0 |
| AddNodeAdvance.SlotAheadOfOrigin | internal/spock/replication_slot_advance.go:112-158 | an input: restart 0, confirmed 10, target 5 leaves the origin 5 behind the slot |
| AddNodeAdvance.CarriedTo | internal/spock/desired.go:141-157 | between the advance and enabling nothing moves the slot, the recorded LSN, or what the COPY brought, and streaming begins exactly where the slot stood |
| AddNodeSafety.EndStateSubEnables | internal/spock/subscription.go:98-134 | when the end-state peer subscription runs, it finds itself registered and disabled, on an existing slot, after the COPY and both advances |
| AddNodeSafety.FeedCompleted | internal/spock/desired.go:129-157 | a resource that reads another's output begins only after that other has completed |
| AddNodeSafety.MarkAvailable | internal/spock/wait_for_sync_event.go:65-68 | the "LSN not available" branches of wait and catch-up are unreachable |
| AddNodeSafety.PeerTaskCanSucceed | internal/spock/desired.go:115-159 | no reachable state forces the body of a running peer resource to fail: what it reads is set, the slot it moves exists |
| AddNodeFeeds.FlowsBeforeMark | internal/spock/desired.go:126-129 | once a peer's sync event has begun, the peer's subscription into the source works and has its slot, for the rest of the run, whatever the new node was left with |
| AddNodeFeeds.CatchupOpens | internal/spock/peer_catchup.go:76-108 | when a catch-up has begun its mark is set and, the peer's subscription into the source being up by the ordering, some continuation of the run applies up to the mark |
| AddNodeFeeds.FeedHistory | internal/spock/desired.go:115-139 | in every interleaving a peer's stream into the source stands right after what was applied, but for what the source missed, and before the mark as long as the mark has not been applied |
| AddNodeLoss.MissedExactly | internal/spock/subscription.go:136-147 | the source misses records of a peer exactly when the peer's subscription into it is made on a missing slot, and then exactly those not applied of the WAL so far |
| AddNodeLoss.NoLoss | internal/spock/refresh.go:42-44 | with every peer's slot for the source in place, every record the source had not missed before is accounted for from the COPY on |
| AddNodeLoss.LosingRun | internal/spock/refresh.go:42-44 | an add that completes and loses a committed transaction, for any peer whose slot for the source was gone |
| AddNodeLoss.LossIff | internal/spock/subscription.go:98-147 | a completed add can lose a transaction iff some peer's slot for the source was gone when it began |
| AddNodeRetry.KeptHistory | internal/spock/replication_slot_advance.go:75-161 | in a run after the COPY, a node whose slot for the new one is there keeps it and leaves out nothing past the COPY, in every interleaving, with its worker coming and going |
| AddNodeRetry.LeftAfterCopy | internal/spock/desired.go:106-169 | an attempt that fails after its COPY leaves every node in such a state, at whatever step it fails |
| AddNodeRetry.RetryLosesIff | internal/spock/replication_slot_create.go:54-77 | a completed retry after the COPY can leave out a transaction iff some node's slot for the new one was gone |
| AddNodeRetry.RetryLosingRun | internal/spock/replication_slot_create.go:54-77 | a retry that completes and leaves out a transaction committed before the slot was made anew |
| AddNodeRetry.StaysJoined | internal/spock/desired.go:50-55 | repeating the chain against a node that has joined stops none of its subscriptions, in every interleaving |
| AddNodeRetry.RerunLosesNothing | internal/spock/desired.go:50-55 | nor does it leave out anything, whether or not the workers are up |
| AddNodeRetry.LeavesAloneIff | internal/spock/replication_slot_advance.go:98-137 | a later run leaves slot and origin of a streaming peer alone iff the advance finds the slot active, no target, or a target at or behind restart_lsn, or a target that is already both behind the slot and the origin's position |
| AddNodeRetry.OthersLeaveAlone | docs/usage/adding_nodes.md:62-64 | no other step of a later run touches slot, origin or subscription of a streaming peer |
| AddNodeRetry.GoesBackIff | internal/spock/replication_origin_advance.go:92-99 | the stream goes back iff the advance is not skipped and ends short of what the new node has got |
| AddNodeRetry.SixthAgain | docs/usage/adding_nodes.md:62-64 | an input: worker down, slot 3, origin 10, target 5; record 6 is applied a second time |
| AddNodeSafety.OriginBehindSlot | internal/spock/replication_origin_advance.go:73-105 | in every reachable state before the subscription is enabled the origin is at or behind the slot |
| AddNodeSafety.CopySafeIff | internal/spock/peer_catchup.go:67-109 | the COPY leaves out no record the source has iff the slot was at or behind what the source had applied, or past nothing but what it had missed |
| AddNodeSafety.AdvanceSafeIff | internal/spock/replication_slot_advance.go:139-158 | nor does an advance iff its target is within the COPY, or past nothing but what the source had missed |
| AddNodeProgress.AddCompletes | internal/spock/desired.go:106-169 | from every reachable state in which nothing has failed, some continuation executes the whole plan: onto a clean node always, otherwise as long as no lag tracker has reported |
| AddNodeProgress.CompletedStreams | internal/spock/desired.go:74-96 | a completed add streams into the new node from every existing node, after the COPY, and accounts for exactly the records that the source did not miss or that streaming began before |
| AddNodeProgress.EnablingIsReached | internal/spock/desired.go:74-84 | from the start of a fresh add every peer's end-state subscription can come to be enabled |
| FreshAdd.SafeAddCompletes | internal/resource/reconciler.go:14-22 | whatever refresh finds, as long as no subscription into the new node is live, the planned add can be completed |
| PopulateSteps.CreateSlot | internal/spock/replication_slot_create.go:54-77 | idempotent slot creation is one atomic effect under interference; an error only from a failed statement |
| PopulateSteps.CreateSyncEvent | internal/spock/sync_event.go:57-80 | the mark is a new WAL record past everything committed before; an error only from a failed statement |
| PopulateSteps.WaitForSyncEvent | internal/spock/wait_for_sync_event.go:65-127 | fails with "no LSN" iff none was set; success only after the mark was heard; in terms of the statuses read: unhealthy iff the last one is unknown, an error iff the CALL failed, cancelled iff no polls are left with the worker down or the event not there yet; a worker that is disabled or down is polled again |
| PopulateSteps.PeerCatchup | internal/spock/peer_catchup.go:67-109 | fails with "no LSN" iff none was set; success exactly at the first poll that finds apply progress at or past the mark; cancelled only when no polls are left, an error only from a failed query |
| PopulateSteps.ReadLagTracker | internal/spock/lag_tracker_commit_ts.go:59-78 | records the tracker's entry, or nothing, and touches nothing else; an error only from a failed query |
| PopulateSteps.AdvanceSlot | internal/spock/replication_slot_advance.go:75-161 | the slot never goes back under any interference between the queries; AdvancedToLSN is absent on every skip path and otherwise the target, at or behind the slot; an error comes only from a failed statement, a slot that is gone, or one that a worker took after the second query; a skip, and any advance of a subscription that is not enabled, is one atomic step; on an enabled one each query decides on its own state |
| PopulateSteps.AdvanceFree | internal/spock/replication_slot_advance.go:113-160 | once the slot was found inactive: a target at or behind restart_lsn is skipped, any other moves the slot or fails, each query on its own state |
| PopulateSteps.TakenKeeps | internal/spock/replication_slot_advance.go:139-160 | the last query leaves out nothing even if the worker came back after the first two |
| PopulateSteps.MoveSlot | internal/spock/replication_slot_advance.go:139-160 | the final query moves the slot to the target or leaves it past it; on success the recorded LSN is at or behind the slot |
| PopulateSteps.AdvanceOrigin | internal/spock/replication_origin_advance.go:73-105 | the origin takes the recorded LSN, unless a worker is using it, which is an error, and stays put without one |
| PopulateSteps.CreateDisabledSubscription | internal/spock/disabled_subscription.go:65-108 | registers a disabled subscription unless one exists; an error only from a failed statement |
| PopulateSteps.CreateSubscription | internal/spock/subscription.go:98-167 | enables a disabled subscription, else creates it with its slot; afterwards it is enabled; an error only from a failed statement |
| PopulateSteps.EveryStepIsRely | internal/resource/executor.go:21-42 | while a body runs on a peer, every step of the whole system, other goroutines of the phase included, is interference the body tolerates |
| PopulateSteps.SpanIsRely | internal/resource/executor.go:21-42 | so is everything between any two moments of the body, in every history |
| PopulateSteps.RunningTogether | internal/spock/desired.go:115-159 | two bodies of one peer that run at the same time never write what the other decides on, by the ordering of the plan |
| FreshAdd.IsAnAdd | internal/spock/refresh.go:19-40 | every refresh of a configuration with one properly sourced new node plans an add in AddNode's sense, whatever leftovers and orphans it finds, with or without an earlier COPY |
| FreshAdd.FreshIffNoneLive | internal/spock/refresh.go:45-65 | the add is fresh iff every subscription into the new node is missing or has lost its slot |
| FreshAdd.EarlyIffNotFresh | internal/spock/desired.go:74-85 | some history streams into the new node before a COPY iff the add is not fresh and no earlier COPY counts |
| FreshAdd.SafeToAddIff | docs/usage/adding_nodes.md:116-118 | no history of the planned run streams before a COPY iff an earlier attempt made the one that counts, or refresh found every subscription into the new node missing or without its slot |
| FreshAdd.RetrySafeIff | docs/usage/adding_nodes.md:116-118 | when an add onto a clean node stops anywhere before its COPY, running it again streams nothing before a COPY iff no peer's subscription had been registered by then |
| FreshAdd.BadRun | docs/usage/adding_nodes.md:116-118 | the run that goes wrong, from any leftover that is enabled, or disabled with its slot in place, when nothing was copied: a transaction commits and is streamed |
| FreshAdd.AddLosesIff | internal/spock/refresh.go:42-65 | with no subscription into the new node live, the planned add can lose a transaction iff refresh found some peer's slot for the source gone |
| FreshAdd.RetryAddLosesIff | docs/usage/adding_nodes.md:116-118 | with an earlier COPY that counts, the planned run can leave out a transaction iff refresh found some node's slot for the new one gone |
| FreshAdd.HealthyIsRerun | docs/usage/adding_nodes.md:62-64 | a refresh that finds every subscription into the new node healthy plans a later run in AddNodeRetry's sense |
| FreshAdd.TwoAddsFallBack | internal/spock/desired.go:50-98 | adding two nodes to any mesh, none of their subscriptions live, takes topoSort's fallback iff the two are not the whole configuration |
| FreshAdd.LeftoverEnabledFirst | docs/usage/adding_nodes.md:116-118 | a leftover disabled subscription is enabled before the first create of the run begins and is never created |
| AddNodeCatalog.HistoryMirrored | internal/resource/reconciler.go:14-22 | every history of a planned add, whatever was left over, is mirrored step by step by a repair run on the catalogs, and in every state both agree on every slot for the new node and every subscription into it |
| AddNodeCatalog.AgreedStart | internal/spock/refresh.go:19-40 | such histories exist from every refreshed catalog |
| AddNodeCatalog.CompletedEverywhere | internal/spock/desired.go:57-98 | an add that completes, whatever it found, brings up the whole mesh, and every existing node streams into the new one |
| Refresh.RefreshActual | internal/spock/refresh.go:19-40 | a desired subscription ends "needs recreate" iff it exists and its provider slot does not; all other statuses are as inspected on the resource's own connection; actual holds exactly the existing desired objects and the orphans, every slot of a configured node that belongs to no pair of configured nodes among them |
| Refresh.CheckSlotHealth | internal/spock/refresh.go:45-65 | overwrites exactly the subscriptions whose slot is not in the actual map, visibly through every map holding them |
| Refresh.SubAssessed | internal/spock/refresh.go:45-65 | a subscription exists iff registered, needs recreation iff its slot is gone, and an update iff it is disabled with its slot |
| Refresh.ExpectedSlots | internal/spock/refresh.go:80-90 | the expected slots are those of all ordered pairs of distinct configured nodes |
| Refresh.DiscoverOrphans | internal/spock/refresh.go:69-98 | adds exactly the orphans visible from some survivor, never shadowing a desired entry |
| Refresh.DiscoverNodes | internal/spock/refresh.go:101-148 | a node and a subscription per orphan node a survivor lists |
| Refresh.DiscoverSlots | internal/spock/refresh.go:151-192 | the unexpected slots of a survivor, keeping the first survivor that reported a name |
| Refresh.InspectAll | internal/spock/refresh.go:25-34 | every resource is inspected on the database it is connected to; the existing ones are kept as the same objects |
| Convergence.ConvergesIff | internal/resource/reconciler.go:14-22 | for every configuration and catalog: after one successful run every database has its role and node, every pair its slot and enabled subscription, and the next plan is empty iff nothing is bootstrapped and no orphan name was visible from two survivors |
| Convergence.SettledIff | internal/resource/plan.go:14-36 | the next plan is empty iff nothing is bootstrapped, the mesh is up, every spk_ slot of a configured node belongs to a pair of the mesh, and every listed node is configured |
| Convergence.OrphanLeftBehind | internal/spock/refresh.go:124-133 | an input: a healthy two-node mesh, a removed third node listed by both; a successful run leaves it on the second survivor |
| Convergence.OneFewer | internal/spock/refresh.go:124-133 | a successful run takes exactly one survivor away from every orphan name |
| Convergence.KReconcilesSettle | internal/resource/reconciler.go:14-22 | with at most k survivors per orphan name, k successful reconciles settle the catalog |
| Convergence.SuccessfulRunExists | internal/resource/executor.go:13-49 | from every refreshed catalog Execute can run to a successful end |
| Convergence.BootstrapNeverSettles | internal/spock/desired.go:50-55 | with a bootstrapped node the next plan is never empty |
| Convergence.CreateFindsDependencies | internal/spock/subscription.go:54-61 | with no new node or one properly sourced one, a create that has begun found its populate resources completed and its roles, nodes and gating subscriptions healthy, in every interleaving |
| Convergence.DeleteLeavesNoDependents | internal/resource/plan.go:40-44 | in the same configurations, a delete begins only after every dependent that can exist has been deleted |
| Convergence.OrphanSubsFirst | internal/spock/refresh.go:135-142 | an orphan node, or the slot of its subscription, is dropped only after that subscription, on every survivor that lists the node |
| Convergence.SubscriptionsExact | internal/spock/subscription.go:98-214 | in every reachable state, whatever failed, a subscription is there iff it was and has not been dropped, or its registration or create succeeded, and enabled iff it was, or its update or create succeeded |
| Convergence.DisabledIsRegistered | internal/spock/disabled_subscription.go:65-108 | once registration has succeeded the subscription is there, and disabled until its own create or update succeeds |
| Convergence.NextRunEnables | docs/usage/adding_nodes.md:116-118 | if a run stops between the two, the next refresh finds the subscription disabled and plans its update, not its create |
| Convergence.FinishedIsHealthy | internal/spock/subscription.go:63-167 | after a finished run of any configuration every mesh resource is assessed healthy, slots included, although slot creation itself does nothing |
| Convergence.FinishedOrphans | internal/spock/refresh.go:124-133 | a finished run removes an orphan on exactly one of the survivors that see it |
| Convergence.FinishedOrphanSubs | internal/spock/refresh.go:135-142 | a finished run has dropped the subscription of every orphan node on every survivor that listed it |
| Convergence.RepairRunInv | internal/spock/subscription.go:63-214 | in every reachable state each subscription is healthy, absent after its delete, or waiting for its update |
| Reconcile.Cluster.Apply | internal/resource/executor.go:21-42 | an event's body has its effect on the database its object is connected to, or fails and changes nothing; a create leaves there what it is for, in particular a registered subscription |
| Reconcile.Cluster.Create | internal/spock/disabled_subscription.go:65-108 | what each create leaves on the database it works on: the role, the local node, the enabled subscription with its slot, the slot on its provider, the registered subscription |
| Reconcile.Cluster.CreateSubscription | internal/spock/subscription.go:98-167 | enable if disabled, create with slot if absent, otherwise nothing |
| Reconcile.Cluster.Update | internal/spock/subscription.go:169-191 | enables the subscription; fails on a missing one |
| Reconcile.Cluster.Delete | internal/spock/subscription.go:193-214 | drops the subscription, orphan node or slot where the object is connected |
| Reconcile.Cluster.DropSlot | internal/spock/replication_slot.go:72-111 | drops the slot on the object's provider if it still exists |
| Reconcile.RunPhase | internal/resource/executor.go:17-46 | one phase under an arbitrary scheduler: left forward iff every event succeeded, with an error otherwise |
| Reconcile.Execute | internal/resource/executor.go:13-49 | the execution is a run of the transition system ending in the cluster's catalogs |
| Reconcile.NothingPlannedIff | internal/resource/plan.go:14-36 | the diff is empty iff every desired resource is healthy and no orphan is visible |
| Reconcile.PlansAgree | internal/resource/plan.go:9-59 | the plan over refreshed objects, orphan keys collapsed, is the identifier-level plan |
| Reconcile.PlanNext | internal/resource/reconciler.go:14-20 | the plan is empty iff every desired resource is healthy and no orphan is visible |
| Reconcile.Reconcile | internal/resource/reconciler.go:14-22 | on success every database has its role and node, every pair its slot and enabled subscription, and the next plan is empty iff no node is bootstrapped through Spock and no orphan name had been visible from two survivors |
| Repset.Database.BackupRepsets | internal/spock/repset.go:38-91 | the snapshot holds all sets and exactly the assignments of tables and views, each once, and can be restored |
| Repset.Database.QueryTables | internal/spock/repset.go:64-83 | the joined assignments of tables and views, each once |
| Repset.Database.RestoreRepsets | internal/spock/repset.go:95-137 | never refused: no set created twice, no table naming a missing set; all or nothing |
| Repset.SetsSurviveIff | internal/spock/repset.go:107-119 | a reset keeps all sets and flags iff the built-in sets were present with default flags |
| Repset.TablesSurviveIff | internal/spock/repset.go:64-73 | a reset keeps an assignment iff its relation is a table or a view, and all of them iff every assigned relation is |
| Repset.PartitionedTableLost | internal/spock/repset.go:64-73 | an input: one assigned relation of another kind is lost where an ordinary table or a view is kept |
| Repset.ResetTwice | internal/spock/reset.go:43-111 | a second reset changes nothing more |
| Reset.ResetNode | internal/spock/reset.go:43-111 | on success the three sets of the extension are as it makes them, every other set, and every table and view assignment with its columns and filter, is as before, and the node's catalog is wiped; all sets survive iff the built-in ones had their default flags, all assignments iff every relation is a table or view; a failure changes nothing before the extension was dropped, and afterwards has lost every custom set and assignment |
| Reset.DropSlots | internal/spock/reset.go:68-83 | drops the node's spk_ slots, or some of them, and no others |
| Reset.ResetNodes | internal/spock/reset.go:17-41 | all nodes, or those restored from a backup, are reset and the others untouched; a failure stops at one node, with those before it as after a success and those after it untouched |
| Reset.ChosenByMode | internal/spock/reset.go:29-41 | exactly the entries in mode cnpg are reset, or all of them; none of them bootstraps through Spock |
| Reset.WipedIsRebuilt | internal/spock/reset.go:56-110 | the reconcile after a reset finds the node there and makes every subscription into it anew |
| Reset.CleanHidesOrphans | internal/spock/reset.go:43-83 | a reset node whose slots are gone sees no orphan, and every other node sees what it saw |
| Reset.CleanShowsNoOrphans | internal/spock/reset.go:17-25 | after a full reset that dropped every slot no orphan is visible at all |
| Reset.InitSpock | cmd/init-spock/main.go:82-95 | reset and reconcile together: the mesh ends healthy, and the catalog settles iff nothing is bootstrapped and, of the wiped catalogs, no orphan is visible from two survivors; with all slots dropped, iff none was visible from two nodes that were not reset |

## Left out

- SQL text, connections, transactions on the wire, TLS and DSN building: statements appear as their effect on catalogs and LSNs, and may fail at any point without effect.
- Cluster and connection polling, configuration loading, the job's overall timeout (internal/cluster, internal/pg, internal/config): waits are loops bounded by a number of polls left before cancellation.
- Helm templates, values and walkthrough scripts: no code of the job.
- Spock's own machinery is assumed, as step contracts: the COPY contains everything the source has applied; with `forward_origins := '{}'` the source forwards no peer transaction; `sub_create` makes the slot if it is missing, at the provider's current WAL position, and leaves one that is there as it is; `spock.progress` survives the recreation of a subscription; with synchronization, COPY and stream meet at one snapshot; `sub_drop` removes the subscription and its origin, may or may not drop the provider's slot, and leaves `spock.node` alone; the source applies a peer's transactions only over an enabled peer→source subscription with its slot; a worker goes on after the later of the slot's confirmed position and the origin, and while it is up neither can be moved from outside.
- `spock.lag_tracker` reports a transaction that the new node has, and the new node gets a provider's transactions in order, so everything up to the target is there too.
- A second COPY into tables that hold data is taken to succeed, and then counts alone; where an earlier COPY does not count, what the new node holds is counted from the start of the run.
- The `forward_origins`, `synchronize_structure` and apply-delay arguments beyond that, and the data itself: a transaction is its position in its origin's WAL.
- PopulateSteps.CreateSubscription: the synchronizing source→new `sub_create` is one atomic step of AddNode (slot, snapshot and COPY together), not a body under interference, since what happens inside it is Spock's.
- AddNodeSafety.PeerTaskCanSucceed: a wait can succeed once its mark is set; that the event is heard is up to the subscription it travels over, which is not modelled for that purpose.
- AddNodeProgress.AddCompletes: the same of its waits; SQL failures and cancellation end a run instead.
- PopulateSteps.AdvanceSlot: AddNode takes the advance as one step; on an enabled subscription whose worker comes back between two of its queries the body is not one, and `PopulateSteps.TakenKeeps` covers what that can do.
- Refresh.RefreshActual: orphan queries that fail or stop early, which the source logs and skips, succeed in the model; a failing inspection of a desired resource aborts the refresh as in the source.
- Refresh.DiscoverOrphans: as for RefreshActual, queries to the survivors succeed.
- Refresh.DiscoverNodes: as for RefreshActual, the node query succeeds and its rows are all read.
- Refresh.DiscoverSlots: as for RefreshActual, the slot query succeeds and its rows are all read.
- Names.SubNameInjective: names with dashes or underscores are excluded because it is false of them; `Names.SubNameCollision` is exact for all strings.
- Names.SlotNameInjective: the same; `Names.SlotNameCollision` is exact for all strings.
- Bodies of the role resource and of node creation beyond "create adds it if missing"; node and role resources have no update.
- A catalog that changes under a running reconcile from outside, including the "already exists" error of a concurrent creation.
- Three or more nodes bootstrapped at once: two are decided exactly, more only through the general fallback lemmas.
- Resource: one class stands for the source's resource structs, with identity, dependencies, connection, sync flag and struct reference as fields; the data the structs exchange (LSN, CommitTS, AdvancedToLSN) lives in AddNode's provider state.
- Reset.ResetNode: which flags the extension gives the built-in sets, and when exactly it creates them, is a parameter; `regclass` text is taken to name the same relation before and after; replication origins dropped by the reset are not part of the catalogs.
- The catalogs list subscriptions and local nodes on their own database only; making one on another database, which no desired resource does, changes none of them.
- Log messages and the reason strings of statuses.
