# The safety protocols of the CNMSQL operator, in Dafny

CNMSQL runs MySQL and MariaDB clusters on Kubernetes. Most of its operator is
I/O; underneath are protocols that have to hold over every interleaving of
reconcile passes with everything else that happens: Pods going away, Jobs
finishing late, primaries changing, other writers, calls that fail after they
took effect. This project models those protocols and proves what they promise.

`dafny verify dfyconfig.toml` checks the whole project.

## What is where

**Instances and their volumes.** `Store` is the Kubernetes API as an abstract
store: Pods, bootstrap Jobs and volumes with UIDs, two-phase deletion, and what
the environment may do between any two calls (it ends, readies, fails and
removes things; it creates nothing). `ApiClient` is the client every operation
goes through: the environment moves before each call, any call may fail, and a
failed write may have taken effect. The client counts failed calls: an operation
ends in an error exactly if a call failed that it does not pass over. `Volumes` (bootstrap, re-initialisation),
`Rollout` (the ordinal loop, its gate, rolling, automatic re-initialisation) and
`ScaleDown` are the operator's methods over it, as imperative as the original;
`Runs` puts them together into whole runs. A run's `Climate` says how wild the
environment is: `Any`, `Slow` (a Pod created in a pass is not Ready in that
pass) or `Calm` (also: nothing fails, the desired template, count and primary are
fixed, nothing is re-initialised, and volume resizes become pending only between
passes and not below an instance that is down; the last is exactly what the
one-at-a-time rule needs, `Runs.ResizeSafeIff`). The operator's code is the same
in all of them. The store remembers every world it went through, so the run
theorems speak of all of them, including those in the middle of a pass.

**Timelines and archives.** `GtidSets` is the interval arithmetic on 64-bit
ranges, shown to be set arithmetic on (source, number) pairs with one list per
set. `DeadBranch` judges base backups and records what they hold that the
timeline disowned in an index other writers update too; `Recovery` chooses a
backup; `Timeline` is the MariaDB record of primaries; `Archiving` is what the
Cluster status keeps of the archive; `Retention` expires backups and logs.

**Smaller machines.** `GroupReplication` (views, quorum, outage, recovery),
`Routing` (three writers of one Pod's labels and annotations), `ImageTarget`
(the image instances run).

## What turned out not to hold

Each names the member that shows it, by a concrete case, and where the code
meets the property sometimes, the one that states exactly when.

- *Every ordinal below a rolled replica was live-ready.* Not if a Pod the pass
  itself recreated turns Ready within it: the gate lets a member restart on its
  own data without looking at its predecessor, and the next member's gate then
  combines the new Pod's readiness with a stale report
  (`Runs.InstantPodBreaksTheChain`). `Rollout.ReadyBelow` is what holds in
  general; it is the whole property with slow Pods, and otherwise exactly if
  everything below each recreated Pod was seen (`Runs.ChainKept`).
- *At most one instance is down.* Not if a volume resize becomes pending below an
  instance that is down: its Pod is recycled without looking up
  (`Runs.GrownVolumeTakesTwoDown`). With one instance down and a true snapshot,
  recycling keeps to it exactly if no resize is pending below
  (`Runs.ResizeSafeIff`); over whole runs the rule is proved with slow Pods and no
  resize becoming pending within a pass (`Runs.Run`).
- *A Pod runs on a bootstrapped volume.* Not if the volume is deleted between
  the check and the creation (`Runs.VanishedVolumeLeavesEmptyOne`); exactly if it
  was created on one (`Runs.OnDataIffCreatedOnIt`).
- *A pending resize recycles every Pod.* The primary's is only rolled for a
  changed template (`Rollout.RollPrimary`: a primary on its template is
  never deleted).
- *Only backups completed before the primary was read are judged.* The stamp is
  taken after the read and completion times keep whole seconds
  (`DeadBranch.GuardSoundIff`); a false verdict is possible exactly for anchors
  fixed after the read (`DeadBranch.SkewFreeIff`).
- *The set judged by is read last, so no instance is seen ahead of it.* The
  instance read again is the one picked while polling, and the topology may name
  another afterwards; under Group Replication every member answers as a primary,
  and a live backup is judged dead (`DeadBranch.AnotherMemberReread`). No history
  can do that exactly if the two are the same (`DeadBranch.Observe`).
- *A dead branch ends up in the index.* Not if there was no index when the
  backup was first judged: it is marked all the same and is not news as long as
  the mark stands (`unrecorded` in `DeadBranch.JudgeBackups`,
  `Recovery.UnrecordedMarkServes`).
- *The record only grows, so a marked backup is never served.* The archiver takes
  back what its authority holds again; if another failover then disowns it once
  more before a pass cleared the mark, nothing is recorded and the backup serves
  (`Recovery.RetractedMarkServes`). Whatever writers do, it is refused exactly if
  something of it on record was never executed by such an authority
  (`DeadBranch.StaysRefusedIff`, `Recovery.NeverServesIff`).
- *No writer's index update is lost.* Lost exactly when the endpoint refuses
  conditional writes and the other writer's branch was news
  (`DeadBranch.UnconditionalWriteLoses`).
- *Everything past `DeadAfter` is disowned.* True of every history the timeline
  describes exactly if each such transaction has a verdict
  (`Timeline.DisowningSoundIff`, `Timeline.DisowningCanBeWrong`).
- *`AddRange` reports growth.* It may report it of a range that is held
  (`Timeline.GrowthReportedFalsely`). It is right of every range exactly if each
  recorded range lies inside the first one it meets (`Timeline.GrowthTrueIff`);
  that some overlap otherwise does no harm (`Timeline.OverlapAloneIsHarmless`).
- *A gap stands for the grace period before it counts.* Up to a second less,
  exactly unless it was first recorded on a whole second
  (`Archiving.GraceExactIff`). *Each list of gaps gets its own base backup:* not
  one that replaces a True list while Backups cannot be listed
  (`Archiving.StaleVerdictSkipsAttempt`), or in a pass that takes the grace period
  itself; exactly those passes let one go without (`Archiving.AttendedIff`).
- *FullOutage means no member is ONLINE.* A survivor that lost its majority is
  dropped from the observation, so a partial loss reads as a total one
  (`GroupReplication.IsFullOutage`, `GroupReplication.SurvivorReadsAsTotalOutage`).
  *Two sides never both keep quorum:* they may exactly with members enough for two
  majorities of the kept view size (`GroupReplication.BothQuorateIff`); reset to 0
  for a recovery, any two will do (`GroupReplication.ResetLetsBothKeepQuorum`).
  A recovery that armed the survivor but could not reset the kept view size is
  not made up for (`GroupReplication.Recovery.Handle`).
- *A Pod is de-routed only after being unreachable throughout.* Passes whose
  write was refused do not count (`Routing.RefusedWriteKeepsTheMark`). *Roles are
  labelled on all Pods:* only on those before the first missing one
  (`Routing.Api.PatchRoleLabels`).
- *The retention horizon is the oldest kept start.* It is the start of the kept
  backup that completed first; logs a kept backup needs are safe exactly if none
  of the others started earlier (`Retention.RecoverableIff`). *Files deleted but
  not de-indexed are cleaned up next time:* not if the manifest went too; exactly
  if it is still there (`Retention.StaysIndexedIff`).
- *A cluster deletes only where an object of its own proves the place its own.*
  One was there when it listed (`Retention.Stores.Retain`); by the time it deletes,
  another cluster of the same name may have expired it
  (`Retention.ProofLostMeanwhile`). It is sure to be there exactly if a listed one
  of its own is spared by both, or it deletes only its own
  (`Retention.AlwaysPresentIff`).

## Model

| member | source | states |
|---|---|---|
| `Store.EnvKeeps` | internal/controller/cluster_bootstrap.go:443-470 | Whatever the environment does between two API calls, in any number of steps, every invariant of a reachable world survives: Pod and bootstrap Job never together, ready marks earned, Pods on their own volume, nothing older than a completed teardown, and in a calm run the rolling invariant. |
| `Store.PodCreatedKeeps` | internal/controller/cluster_resources.go:543-554 | Creating a Pod keeps the invariants, given that no Job and no unbootstrapped volume is there. |
| `Store.PodDeletedKeeps` | internal/controller/cluster_resources.go:571-587 | Deleting a Pod keeps the invariants; in a calm run given that it is the instance's turn. |
| `Store.PvcMarkedKeeps` | internal/controller/cluster_bootstrap.go:517-522 | A ready mark keeps the invariants only on a volume some Job stamped with its UID completed for, or one that predates the run. |
| `Store.JobCreatedKeeps` | internal/controller/cluster_bootstrap.go:539-540 | Starting a bootstrap Job keeps the invariants, given that no Pod holds the volume. |
| `Store.RequestClearedKeeps` | internal/controller/cluster_reinit.go:130-134 | Clearing a re-initialisation raises the floor below which no volume of the instance may remain, and keeps the invariants. |
| `Store.ResizesBegunKeeps` | internal/controller/cluster_resources.go:393-401 | Resizes that become pending keep the invariants; in a calm run given that no instance above is down, or that they are the primary's. |
| `ApiClient.Api.CreatePod` | internal/controller/cluster_resources.go:543-554 | One call under interference: only this instance changes beyond what the environment did, the invariants hold in every world passed through, and success leaves a live Pod on the template. |
| `ApiClient.Api.DeletePod` | internal/controller/cluster_resources.go:577-579 | The same for a deletion, which starts the Pod's termination; in a calm run a live Pod is really taken down. |
| `ApiClient.Api.MarkReady` | internal/controller/cluster_bootstrap.go:517-522 | The same for the ready mark, allowed only where it is earned. |
| `ApiClient.Api.GrowPvc` | internal/controller/cluster_resources.go:381-391 | The same for a raised storage request, which never falls. |
| `ApiClient.Api.CreateJob` | internal/controller/cluster_bootstrap.go:539-540 | The same for a Job; where none was, there is now exactly the one asked for, stamped with the volume. |
| `Volumes.DeleteBootstrapJobs` | internal/controller/cluster_bootstrap.go:446-465 | A zero result means that no Job is left now; otherwise every one left is terminating. |
| `Volumes.EnsureBootstrapped` | internal/controller/cluster_bootstrap.go:471-481 | True means no Job and no unbootstrapped volume at that moment; false only if the instance was seen without a bootstrapped volume or with a Job; an unbootstrapped volume that stays, with neither Pod nor Job, gets its Job, but never for the primary of an established cluster. |
| `Volumes.BootstrapMode` | internal/controller/cluster_bootstrap.go:117-136 | A restore exactly for the primary of a recovery, an import exactly for that of an import, a join only for a replica. |
| `Volumes.Bootstrap` | internal/controller/cluster_bootstrap.go:483-541 | An unbootstrapped volume with neither Pod nor Job gets one Job stamped with its UID, unless it is an established primary's; where there are Jobs none is started, and the first one decides: it earns the mark or is dropped. |
| `Volumes.JudgeJob` | internal/controller/cluster_bootstrap.go:509-538 | The volume is marked ready exactly for a completed Job stamped with it; a Job is dropped exactly if it is not going already and completed, belongs to another volume or failed under other settings; otherwise nothing changes. |
| `Volumes.EnsurePvc` | internal/controller/cluster_resources.go:338-401 | The instance ends up with a volume whose state is recorded and whose request is at least the size asked for; only one that predates the run is marked without a Job. A roll is asked for only where in-use resizing is off; in a calm run one not asked for means that none is pending. |
| `Volumes.GrowVolume` | internal/controller/cluster_resources.go:374-391 | Success leaves a request of at least the size asked for; it never shrinks and nothing else of the volume changes beyond what the environment did. |
| `Volumes.WeightFalls` | internal/controller/cluster_reinit.go:84-128 | The measure of a teardown over Pod, Jobs and volume: the environment never raises it, it is zero exactly when all are gone, and it falls when the last of them starts to go. |
| `Volumes.TearDown` | internal/controller/cluster_reinit.go:84-128 | A pass without an error leaves everything of the instance gone or going, reports gone only when it is, and at once if it was; what is going is not deleted again. |
| `Volumes.ReconcileReinit` | internal/controller/cluster_reinit.go:69-158 | Nothing happens to an instance not asked for or to the plan's primary, whose request is dropped; otherwise the measure falls until all is gone, and exactly then is the request cleared and the floor raised to the next UID. |
| `Rollout.InstanceFullyReady` | internal/controller/cluster_topology.go:276-295 | True exactly for a Pod read live and Ready now whose manager had reported ready. |
| `Rollout.GateInstance` | internal/controller/cluster_topology.go:162-225 | The decision is exactly the gate's on the Pod, volume and predecessor read in turn. Outside quorum recovery an instance passes only if it has no Pod or its predecessor is live-ready now; one with neither Pod nor data only after a ready predecessor and with a donor; it is held only for a predecessor that is not ready, or for want of a donor. |
| `Rollout.EnsurePod` | internal/controller/cluster_resources.go:531-595 | At most this Pod is deleted, and only if rolling is allowed and it was there; otherwise a Pod is there, on the wanted template if rolling was allowed. |
| `Rollout.RollForResize` | internal/controller/cluster_resources.go:409-434 | Deletes at most this Pod and only if allowed; true means it is going, false that there is none or rolling was deferred; in a calm run a live Pod is deleted, in its turn. |
| `Rollout.Provision` | internal/controller/cluster_topology.go:232-264 | Volume, bootstrap and Pod together: unless it failed, deleted the Pod or saw the instance not fit for one, the Pod is there. |
| `Rollout.EnsureInstance` | internal/controller/cluster_topology.go:232-264 | One instance changes; its Pod goes only where rolling is allowed or a re-initialisation of a non-primary asked for it; its volume only for the latter. |
| `Rollout.ReconcileAutoReinit` | internal/controller/cluster_auto_reinit.go:72-138 | Each replica that may be picked is read once, and requested exactly if that reading shows it crash-looping past its threshold: a failed non-primary of an established async cluster with a healthy primary. |
| `Rollout.InstancePendingRoll` | internal/controller/cluster_topology.go:328-347 | True exactly for a live Pod on another template. |
| `Rollout.ReplicasFullyReady` | internal/controller/cluster_topology.go:303-318 | True only with every other desired ordinal seen live-ready in this pass; false only for one of those that is not; in a calm run they are all up now. |
| `Rollout.GateExtends` | internal/controller/cluster_topology.go:81-94 | Passing a gate extends the chain of instances seen ready in the pass, down to ordinal 1 or to an instance the pass brought back. |
| `Rollout.EnsureExtends` | internal/controller/cluster_topology.go:95-107 | Reconciling an instance keeps that chain. |
| `Rollout.PassGate` | internal/controller/cluster_topology.go:81-94 | Passing a gate extends the chain, and in a calm run everything below is up with nothing due; a closed one means the pass waits for an instance. |
| `Rollout.CalmTurn` | internal/controller/cluster_topology.go:81-107 | In a calm run, with everything below it up and handled, a stale replica's roll leaves every other instance up and follows every lower replica's. |
| `Rollout.WalkOne` | internal/controller/cluster_topology.go:81-107 | One step of the ordinal loop: a deletion is justified, the chain grows, and a calm step that stops without one is waiting for an instance. |
| `Rollout.RollPrimary` | internal/controller/cluster_topology.go:109-141 | The elected primary's Pod goes only with the cluster observed ready and every other desired ordinal seen live-ready, and never while it is on its template. |
| `Rollout.ReconcileInstances` | internal/controller/cluster_topology.go:45-141 | From any world, whatever fails: at most one Pod is deleted; a replica above ordinal 1 only with those below it seen ready; the primary observed, or the recorded one if none was, only with the cluster observed ready and every other desired ordinal seen ready, or for a requested re-initialisation; volumes go only for requested non-primaries; no Job for an established primary. It stops at the first call that fails. A calm pass that owes a roll performs one unless it waits for an instance, and reports done only with every template current. |
| `ScaleDown.DeleteUnbootstrappedPvc` | internal/controller/cluster_topology.go:539-550 | Never a bootstrapped volume; one that is left is bootstrapped or going. |
| `ScaleDown.RemoveInstance` | internal/controller/cluster_topology.go:514-534 | Success leaves Pod, Jobs and unbootstrapped volume gone or going; no bootstrapped volume is deleted. |
| `ScaleDown.CollectSurplusBootstrap` | internal/controller/cluster_topology.go:437-491 | Only instances above the count that are neither primary nor promotion target lose anything, no Pod, and no bootstrapped volume; after success none without a Pod keeps a Job or an unbootstrapped volume that is not going, unless its Pod could not be read. |
| `ScaleDown.ScaleDownReplicas` | internal/controller/cluster_topology.go:384-426 | Pods go only above the count, never the primary's or its successor's, and past the quorum guard and, under Group Replication, the fence; nothing at all while a primary change is in flight; after success no removable instance has a live Pod. |
| `Runs.Observe` | internal/controller/cluster_status.go:167-225 | An instance is ok only if the Pod read for it was serving, and is if nothing failed to answer. The snapshot may be stale, but in a calm run an instance it shows ready still serves unless it is going or was recreated. |
| `Runs.Reconcile` | internal/controller/cluster_controller.go:409-462 | Scale-down, observation and provisioning together: no volume with data is deleted but a requested non-primary's, never the plan's primary's; no Job starts for an established primary; every roll is justified by the snapshot and the live reads; automatic requests are for replicas shown crash-looping. |
| `Runs.ReachableSafe` | internal/controller/cluster_bootstrap.go:467-541 | What the invariants mean in a world: Pod and Job never together, ready marks earned by the volume's own Job, a re-cloned instance's Pod on a volume created after its teardown and bootstrapped by its own Job; in a calm run at most one instance down, and the primary only with all others up on the new template. |
| `Runs.Run` | internal/controller/cluster_topology.go:45-141 | All of that in every world of every run of any number of reconciles, with resizes becoming pending in between; a calm run goes on while the primary is down and not observed. |
| `Runs.ResizeSafeIff` | internal/controller/cluster_resources.go:409-434 | With one instance down and the snapshot right, no recycling for a resize takes a second one down exactly if no resize is pending below it. |
| `Runs.GrownVolumeTakesTwoDown` | internal/controller/cluster_resources.go:393-434 | Instance 3 is going, 2 has a resize pending, and recycling it takes both down. |
| `Runs.ChainKept` | internal/controller/cluster_topology.go:162-225 | Every ordinal below a rolled replica was seen live-ready in the pass exactly if every one below each Pod it recreated was; with slow Pods always. |
| `Runs.InstantPodBreaksTheChain` | internal/controller/cluster_topology.go:184-192 | A world and an environment step where the gates of 2 and then 3 open, 1 was never seen ready, and rolling 3 leaves 1 and 3 down. |
| `Runs.OnDataIffCreatedOnIt` | internal/controller/cluster_topology.go:232-264 | A Pod with a volume under it runs on a bootstrapped one exactly if that volume was there when the Pod was created. |
| `Runs.VanishedVolumeLeavesEmptyOne` | internal/controller/cluster_resources.go:343-358 | A world where the volume vanished before the Pod was created and the next pass puts an empty one under it. |
| `GtidSets.NormalizeIntervals` | pkg/management/mysql/replication/gtid.go:98-119 | Sorting and coalescing keeps exactly the numbers, leaves a hole between any two ranges, and the 64-bit overflow at the largest number does no harm. |
| `GtidSets.Canonical` | pkg/management/mysql/replication/gtid.go:96-119 | Equal sets of numbers have equal lists. |
| `GtidSets.PairsDecide` | pkg/management/mysql/replication/gtid.go:296-325 | Two sets are equal as maps of lists exactly if they hold the same transactions, so comparing renderings compares sets. |
| `GtidSets.Covers` | pkg/management/mysql/replication/gtid.go:196-206 | One range covering it is the same as all its numbers being held. |
| `GtidSets.Minus` | pkg/management/mysql/replication/gtid.go:272-294 | One sweep yields exactly the numbers of the range the list does not hold, in normal form. |
| `GtidSets.AddInterval` | pkg/management/mysql/replication/gtid.go:222-225 | Adds exactly the range to the one source. |
| `GtidSets.Union` | pkg/management/mysql/replication/gtid.go:228-234 | Union of transaction sets. |
| `GtidSets.Difference` | pkg/management/mysql/replication/gtid.go:239-251 | Difference of transaction sets. |
| `GtidSets.Contains` | pkg/management/mysql/replication/gtid.go:133-146 | Inclusion of transaction sets, whatever order the map is walked in. |
| `GtidSets.Equal` | pkg/management/mysql/replication/gtid.go:149-151 | Containment both ways is equality of the representation. |
| `GtidSets.Intersects` | pkg/management/mysql/replication/gtid.go:369-379 | True exactly if a transaction is shared. |
| `GtidSets.Intersect` | pkg/management/mysql/replication/gtid.go:254-256 | Intersection of transaction sets. |
| `GtidSets.Holes` | pkg/management/mysql/replication/gtid.go:262-270 | Exactly the numbers missing between two held ones of the same source. |
| `GtidSets.UncoveredBy` | pkg/management/mysql/replication/gtid.go:176-194 | The number of numbers of the range the list does not hold, without overflow. |
| `GtidSets.MissingCount` | pkg/management/mysql/replication/gtid.go:153-174 | The size of the set difference, saturating at the largest 64-bit count. |
| `DeadBranch.FoldDeadBranch` | internal/controller/cluster_dead_backups.go:189-216 | The record becomes the union and changed is reported exactly if it grew; an absent index is left alone. |
| `DeadBranch.FoldsCommute` | internal/controller/cluster_dead_backups.go:189-216 | Folding two branches one by one, in either order, gives the index that folding both at once gives. |
| `DeadBranch.FoldAgain` | internal/controller/cluster_dead_backups.go:189-216 | Folding a branch in again changes nothing. |
| `DeadBranch.FoldDisowned` | pkg/management/mysql/binlog/forks.go:126-172 | The archiver's fold: the record becomes itself and the fork records less what the authority executed, and changed is reported exactly if it differs; nothing else is taken away. |
| `DeadBranch.Bucket.PutIf` | pkg/management/mysql/objectstore/index_cas.go:113-149 | A conditional write replaces only what was read, and is lost exactly if that was replaced; a failed one may still have been made. Other writers take from the record at most what an authority has executed. |
| `DeadBranch.UpdateArchiveIndex` | pkg/management/mysql/objectstore/index_cas.go:58-87 | With conditional writes the index ends as another writer left it or that plus the branch, so nothing recorded is lost but what an authority holds again; success means the branch is in, or there was no index; it gives up only on a failed call or after losing eight attempts. |
| `DeadBranch.UnconditionalWriteLoses` | pkg/management/mysql/objectstore/index_cas.go:113-149 | Without them a concurrent writer's branch is lost exactly if it was not known and not in one's own. |
| `DeadBranch.Catalog.SetDeadBranchCondition` | internal/controller/cluster_dead_backups.go:220-254 | Only this backup's condition changes, to the verdict's, and not where it would say the same or nothing; an accepted patch leaves it saying so. |
| `DeadBranch.JudgeAnchors` | internal/controller/cluster_dead_backups.go:117-137 | Exactly the eligible backups are judged, none without a stop or with one at or after the stamp of the read, each by what its anchor holds beyond the primary; the collected branch holds every new verdict and nothing the primary executed. |
| `DeadBranch.JudgeBackups` | internal/controller/cluster_dead_backups.go:95-162 | Whatever fails, only completed physical backups of the cluster that stopped before a writable primary was read change, and one turns True only with its dead part in the index record or no index at all; nothing the primary executed is recorded, nor what is dead but already marked; a pass without failures marks exactly the dead ones. |
| `DeadBranch.PassKeepsMarks` | internal/controller/cluster_dead_backups.go:139-162 | Through a pass and other writers, all that was recorded of a marked backup and that no authority has executed since stays on record. |
| `DeadBranch.JudgingRun` | internal/controller/cluster_dead_backups.go:86-162 | So it does over any run of passes with an archiver that folds and takes back, and with an index from the start no mark is ever unrecorded. |
| `DeadBranch.PickedLast` | internal/controller/cluster_status.go:208-212 | The name polling leaves as the primary is that of the last instance to answer as one. |
| `DeadBranch.StaysRefusedIff` | pkg/management/mysql/binlog/forks.go:90-100 | Whatever such writers make of the index, a backup stays refused exactly if the record names something of its anchor the authority has not executed. |
| `DeadBranch.Observe` | internal/controller/cluster_status.go:143-243 | The instance read again is the last to answer as a primary; backups are judged by the one the topology names. No replica is seen ahead of it if they are the same, and, for every history, exactly then. |
| `DeadBranch.AnotherMemberReread` | internal/controller/cluster_status.go:210-247 | A poll of two members, an election and a live backup that is judged dead. |
| `DeadBranch.SkewFreeIff` | internal/controller/cluster_dead_backups.go:92-94 | No history of growing sets with replicas within their primary can make a backup's anchor exceed the set read exactly if the anchor was fixed no later than the read. |
| `DeadBranch.CompletedBeforeRead` | internal/controller/cluster_dead_backups.go:92-94 | A backup of the primary or one of its replicas that completed before the set it is judged by was read is never judged dead. |
| `DeadBranch.GuardSoundIff` | internal/controller/cluster_dead_backups.go:120-124 | The guard keeps out every backup completed after the read exactly if the stamp is no later than the whole second the next millisecond falls in. |
| `DeadBranch.ObserveAndJudge` | internal/controller/cluster_dead_backups.go:86-162 | Observation and judgement together: in a replicating cluster, judged by the instance read again, with a stamp the guard is sound of, no backup of the primary or a replica turns True. |
| `Recovery.StableOrder` | internal/controller/cluster_recovery_select.go:48-51 | Newest first, ties as listed, nothing lost. |
| `Recovery.AnchorOnDeadBranch` | internal/controller/cluster_recovery_select.go:100-119 | True exactly if a readable anchor shares a transaction with the disowned record or some fork record. |
| `Recovery.Suits` | internal/controller/cluster_recovery_select.go:72-88 | The cases in order come to the documented conditions on time, target set and dead branches. |
| `Recovery.SelectRecoveryBackup` | internal/controller/cluster_recovery_select.go:41-90 | The backup completed last among those that reach the target, the first listed on ties; none exactly if none does or the target time is unreadable. It is not past the target's time, within the target's set, and for a time or latest target shares nothing with a dead branch. |
| `Recovery.MarkedNeverServes` | internal/controller/cluster_recovery_select.go:83-85 | A backup marked with its branch on record never reaches a time or latest target for a reader of that index or a later one, unless an authority has executed all that was recorded of it. |
| `Recovery.NeverServesIff` | internal/controller/cluster_recovery_select.go:83-85 | Whatever writers make of the index, a backup never serves a latest recovery exactly if the record names something of its anchor the authority has not executed. |
| `Recovery.RetractedMarkServes` | internal/controller/cluster_dead_backups.go:133-137 | A marked backup whose record was taken back is judged dead again, nothing is recorded, and it serves a latest recovery. |
| `Recovery.UnrecordedMarkServes` | internal/controller/cluster_dead_backups.go:189-192 | A backup marked while there was no index serves a latest recovery that reads the first index written after. |
| `Timeline.ReadDomain` | pkg/engine/mariadb_timeline.go:112-135 | Valid exactly if every handoff is readable and no epoch inherited less than an earlier one. |
| `Timeline.LocateEpoch` | pkg/engine/mariadb_timeline.go:137-147 | The last epoch starting below the number. |
| `Timeline.VerdictSound` | pkg/engine/mariadb_timeline.go:149-176 | A verdict is right of every history the timeline describes. |
| `Timeline.VerdictExact` | pkg/engine/mariadb_timeline.go:149-176 | There is a verdict exactly if all those histories agree. |
| `Timeline.DeadAfter` | pkg/engine/mariadb_timeline.go:203-226 | A cut exists exactly for a transaction off the timeline; nothing of its author between the cut and it is on the timeline, no handoff between them is from or by its author, and the cut is the floor or the end of a stretch the author may have written. |
| `Timeline.DisowningSoundIff` | pkg/engine/mariadb_timeline.go:203-226 | Disowning everything of the author past the cut is right of every described history exactly if each of them has a verdict. |
| `Timeline.DisowningCanBeWrong` | pkg/engine/mariadb_timeline.go:203-226 | A timeline and history where it is not. |
| `Timeline.AddRange` | pkg/management/mysql/objectstore/binlog.go:255-278 | Widens the first range met or adds a new one; the record holds exactly that range more, and growth is reported exactly if the range meets no recorded one or sticks out of the first it meets. |
| `Timeline.GrowthTrueIff` | pkg/management/mysql/objectstore/binlog.go:255-278 | Growth is reported of exactly the ranges that add something exactly if each recorded range lies inside the first one it meets. |
| `Timeline.GrowthReportedFalsely` | pkg/management/mysql/objectstore/binlog.go:255-278 | A record made by three additions, and a range reported as growth that it holds already. |
| `Timeline.OverlapAloneIsHarmless` | pkg/management/mysql/objectstore/binlog.go:255-278 | A record made by six additions with two ranges that overlap without one inside the other, whose reports are nonetheless all true. |
| `Timeline.PruneTimeline` | pkg/engine/mariadb_timeline.go:240-265 | A suffix with at least the newest epoch and at most the ceiling; every reference not named as pinned keeps every verdict it had; short of the ceiling nothing more could go. |
| `Timeline.DropKeeps` | pkg/engine/mariadb_timeline.go:267-288 | Dropping the oldest epoch changes no verdict above the next one's handoff. |
| `Timeline.NextTimeline` | internal/controller/cluster_timeline.go:85-135 | A suffix of the recorded or archived timeline plus at most one epoch, which is that of the writable primary seen. A record true of the history stays true of it as the new primary continues it past what it inherited, and what others wrote past that is judged dead; of what the first primary held when first seen nothing is judged, and all past it is. Neighbours name different instances; history is never emptied. |
| `Timeline.DescribingIsTruthful` | pkg/engine/mariadb_timeline.go:112-176 | A chained record that describes a history goes on describing it whatever is dropped from its beginning. |
| `Timeline.RecordRun` | internal/controller/cluster_timeline.go:66-117 | Over any run the timeline is a suffix of the seed followed by the writable primaries seen with repetitions collapsed, and true of the history if the seed was. |
| `Archiving.AggregateArchiving` | internal/controller/cluster_status.go:590-631 | Without a current report, so for one without a fork check or of an older generation, the archive stays described as it was; with one it is described by that report, forks dated by their earliest detection, and a list of gaps keeps its clock while reported unchanged. |
| `Archiving.OldestAgrees` | internal/controller/cluster_timeline.go:179-190 | The position that pins the timeline is the one about to be recorded. |
| `Archiving.AnchorCoversGap` | internal/controller/cluster_archive_gap.go:85-108 | True exactly if the anchor holds every transaction of a MySQL gap, or is past the end of a MariaDB one in its domain; never for an unreadable gap or without an anchor. |
| `Archiving.PatchStatus` | internal/controller/cluster_status.go:795-813 | One accepted status patch is one transition of archive, condition and attempts; a refused one none. |
| `Archiving.OpenArchiveGaps` | internal/controller/cluster_archive_gap.go:72-83 | Exactly the gaps the newest base backup's anchor does not cover. |
| `Archiving.Fenced` | internal/controller/cluster_status.go:633-686 | A pass leaves the description alone, or empty where there was none, clears it with archiving off, or takes a current report's of no lower generation. |
| `Archiving.FencedRun` | internal/controller/cluster_status.go:579-686 | Over any run with late and superseded reports, from the first description on, the generations behind the recorded description only rise. |
| `Archiving.GapStood` | internal/controller/cluster_archive_gap.go:110-178 | ArchiveGap is True only for an open list recorded unchanged for the grace period less the fraction of a second its clock lost, and for any open one recorded that long. |
| `Archiving.GraceExactIff` | internal/controller/cluster_archive_gap.go:174-178 | The full grace period is kept exactly if the list was first recorded on a whole second. |
| `Archiving.EveryListAttended` | internal/controller/cluster_archive_gap.go:180-193 | In every pass but those that record a list they cannot judge or judge settled at once, the list behind a True condition had a base backup asked for, and a True condition does not change lists. |
| `Archiving.AttendedIff` | internal/controller/cluster_archive_gap.go:110-193 | Whatever the status was, a pass keeps every list attended exactly if it is not one of those. |
| `Archiving.GapRun` | internal/controller/cluster_archive_gap.go:110-227 | Over any run, a judging pass leaves the condition True only for a list that stood for the grace period since the pass that first recorded it, less the lost fraction, and for every open one that stood that long; as long as no pass skips one, each such list had its base backup asked for. |
| `Archiving.StaleVerdictSkipsAttempt` | internal/controller/cluster_archive_gap.go:130-135 | A failed listing lets a new list stay True without an attempt. |
| `Archiving.MergePositions` | internal/controller/cluster_status.go:853-865 | Listed instances only, each at what was read or else what was recorded. |
| `Archiving.SnapshotRun` | internal/controller/cluster_status.go:836-867 | Over any run, a pass that writes records what it read of each listed instance and keeps what it did not; for each instance that is not re-cloned, its recorded position is within what it has executed and never shrinks while it stays listed, whatever happens to the others. |
| `GroupReplication.TakeCensus` | internal/controller/groupreplication/cluster_observation.go:55-68 | The ONLINE members of a view and its one ONLINE primary, cut short exactly by a second primary. |
| `GroupReplication.CensusExact` | internal/controller/groupreplication/cluster_observation.go:55-68 | It is the number of ONLINE members unless it was cut short, and never more. |
| `GroupReplication.CensusPrimary` | internal/controller/groupreplication/cluster_observation.go:55-68 | There is a primary exactly if the view names one and no other ONLINE primary follows; then it is that one. |
| `GroupReplication.CensusCut` | internal/controller/groupreplication/cluster_observation.go:55-68 | A count that was cut short is the number of ONLINE members up to and with the second primary. |
| `GroupReplication.Poll` | internal/controller/groupreplication/cluster_observation.go:45-79 | The first believed view, the largest, and every candidate's votes. |
| `GroupReplication.ObserveGroup` | internal/controller/groupreplication/cluster_observation.go:37-126 | No observation exactly if no instance is ONLINE with a majority view; it shows the first believed view; quorate is a majority of the size observed before once that reached the configured one, and of the largest believed view until then; the primary is an instance whose member more than half the largest view's number of believed instances name. |
| `GroupReplication.ObserveSides` | internal/controller/groupreplication/cluster_observation.go:110-126 | Once the group had its configured size, two sides of a split of no more members than that are never both observed as quorate. |
| `GroupReplication.OnePrimary` | internal/controller/groupreplication/cluster_observation.go:84-90 | No two candidates can win while no more instances are believed than the largest view has members. |
| `GroupReplication.IsQuorumLost` | internal/controller/cluster_status.go:1201-1241 | Never before bootstrap; without a view exactly if the group had the size asked for or its size was reset; with one exactly if no majority of the kept size, or of the view where it was reset, is ONLINE. |
| `GroupReplication.IsFullOutage` | internal/controller/cluster_status.go:1243-1275 | True exactly if the group is established and bootstrapped and no instance is believed, whatever is kept of past views; that means no member ONLINE exactly if none is or one of them sees a majority. |
| `GroupReplication.SurvivorReadsAsTotalOutage` | internal/controller/cluster_status.go:1257-1265 | One survivor of three, ONLINE, and the verdict is FullOutage. |
| `GroupReplication.NeverBothQuorate` | internal/controller/cluster_status.go:1205-1241 | Two sides of a split with no ONLINE member in common, out of no more members than the kept size, are not both read as quorate. |
| `GroupReplication.BothQuorateIff` | internal/controller/cluster_status.go:1205-1241 | Some two such sides are both read as quorate exactly if there are members enough for two majorities of the kept size, whatever it is. |
| `GroupReplication.ResetLetsBothKeepQuorum` | internal/controller/cluster_status.go:1230-1233 | With the kept size reset for a recovery, two such sides that are. |
| `GroupReplication.VerdictsAgree` | internal/controller/cluster_status.go:1226-1240 | The verdict on an observation is the one its merge persists. |
| `GroupReplication.MergeStatus` | internal/controller/groupreplication/cluster_observation.go:128-196 | Bootstrapped sticks; the generation rises exactly when the primary changes; the kept size is that of a view that regained quorum, otherwise the larger of the kept one and the view's, cut to the count asked for; quorate means a majority of it. |
| `GroupReplication.Recovery.Handle` | internal/controller/cluster_guard.go:412-534 | The survivor is patched only if running and not yet armed, and is armed when handled; the kept size is reset exactly if that patch and the reset both got through; an armed one changes nothing, the kept size included. |
| `GroupReplication.Recovery.Recover` | internal/controller/cluster_guard.go:496-515 | Any number of passes towards one recovery, with the Pod clearing its bell in between, patch the survivor at most once more than it was cleared. |
| `Routing.OnePassSettles` | internal/controller/cluster_resources.go:558-594 | One pass of each writer over any Pod leaves none of them anything to write. |
| `Routing.RestsUntilGrace` | internal/controller/cluster_guard.go:593-619 | As time goes on none of them writes again exactly until the grace period of an unreachable mark runs out. |
| `Routing.RestIff` | internal/controller/cluster_role_labels.go:36-76 | They can come to rest exactly if the template's role is the one labelled. |
| `Routing.MarkHistory` | internal/controller/cluster_guard.go:593-613 | An unreachable mark stands for the fencing pass that made it and for every one since that got through, whoever wrote the Pod in between. |
| `Routing.DeRouteJustified` | internal/controller/cluster_guard.go:593-619 | An unfenced Pod is taken out of routing only as a non-primary of an established cluster found unreachable at all of those, the first at least the grace period ago. |
| `Routing.RefusedWriteKeepsTheMark` | internal/controller/cluster_guard.go:621-626 | A refused write lets a Pod be taken out although it was reachable in between. |
| `Routing.Api.PatchRoleLabels` | internal/controller/cluster_role_labels.go:46-77 | Without an error, exactly the Pods before the first missing one that are not terminating carry a role, the primary's as primary and every other as replica, and nothing else of them changes. |
| `Routing.Api.ReconcileFencing` | internal/controller/cluster_guard.go:563-630 | Of the Pods reached that are not terminating, a fenced one is out of routing; an unfenced one is in if it is the primary's, reachable, or of a cluster not established, and bears no mark; any other bears the first mark it got and is out exactly if that is the grace period old. |
| `ImageTarget.ValidateTargetImage` | internal/controller/cluster_image.go:227-270 | Passes every image that meets all conditions and only images of the flavour with a readable supported version, of the series named, and, unless the previous version is unreadable, within its series or of the next one. |
| `ImageTarget.UpgradeAllowedIff` | pkg/engine/engine.go:561-591 | In a chain that names no series twice exactly a change within a series or to the next one is allowed. |
| `ImageTarget.ResolveTargetImage` | internal/controller/cluster_image.go:129-175 | Only a probed, valid and released image is ever newly accepted, the image at hand is not looked at again, and a transient failure leaves no plan; otherwise the previous one stands. |
| `ImageTarget.ResolvePlan` | internal/controller/cluster_controller.go:510-530 | What a plan runs is what is recorded; an accepted image is recorded even if the plan fails later, and a failed record leaves no plan. |
| `ImageTarget.TargetRun` | internal/controller/cluster_image.go:129-270 | Over any run: once set never unset, always of the flavour with a readable version, so the skip for unreadable ones is never taken; each change is allowed, and the series never goes back and never skips one. |
| `Retention.PlanRetention` | pkg/management/mysql/objectstore/retention.go:98-186 | Exactly the backups completed before the cutoff expire but for one completed last; logs go only with an index, a known end, and if they end before the start of the kept backup that completed first. |
| `Retention.RecoverableIff` | pkg/management/mysql/objectstore/retention.go:146-170 | No kept backup loses a log it needs, whenever between its start and end its data is as of, exactly if none of them started before that horizon. |
| `Retention.RewriteIndex` | pkg/management/mysql/objectstore/retention.go:188-219 | The index lists exactly what it listed less the deleted files; a segment of a server that lost nothing stays, and none is left empty by the deletion. |
| `Retention.Archive.Apply` | pkg/management/mysql/objectstore/retention.go:289-342 | While the archiver ships and wherever a pass breaks off, which is at the first failed call and only there, nothing outside the plan is gone, every log left is still listed, and at most one lost its file but not its manifest; a completed pass removes exactly the plan and leaves no listed file missing. |
| `Retention.StaysIndexedIff` | pkg/management/mysql/objectstore/retention.go:252-309 | A listed log stays in the index through whatever a later pass may plan exactly if its manifest is gone. |
| `Retention.RetentionOwnership` | internal/controller/cluster_retention.go:213-248 | Granted exactly if each location that holds something is proven by an object there carrying the UID. |
| `Retention.Stores.Retain` | internal/controller/cluster_retention.go:80-167 | While other clusters of the name write and delete between any two calls, a pass deletes at a location only if one of its listings held an object of its own stamp there, so one it wrote there itself; what it listed and does not condemn is there at every deletion if nobody else deletes it. |
| `Retention.AlwaysPresentIff` | internal/controller/cluster_retention.go:80-167 | An own object is there at every deletion, however the two clusters' deletions interleave, exactly if one of its own is condemned by neither or everything it deletes is its own. |
| `Retention.ProofLostMeanwhile` | internal/controller/cluster_retention.go:80-167 | A run in which the other cluster expires it between listing and deletion. |

## Left out

- The informer cache: reads return the store's present state, not an older one, although any number of environment steps may lie between a read and the next write.
- Failover, switchover, election, the quorum guards and the choice of a recovery survivor: their outcomes are inputs (which instance is primary, which removals are guarded, which survivor was chosen).
- In a calm run nothing is above the count, so scale-down finds nothing to do, and nothing is re-initialised; all other run properties cover both.
- Instance-manager upgrades (internal/controller/cluster_upgrade.go:130-155), which also delete an instance's Pod in a reconcile.
- Pod, Job and volume specifications, Services, ConfigMaps, Secrets, events, logs, metrics, TLS and RBAC; a Pod template is a number that changes when it does.
- Text formats: GTID sets, positions, times, versions, names and annotations are values; an unreadable one is its own case where the code distinguishes it. GTID source UUIDs are taken in lower case.
- Updates of a GTID set in place: its operations return the new set, so aliasing between two variables is not captured.
- MariaDB in recovery selection and backup judgement, beyond the timeline, DeadAfter and the disowned ranges.
- Archiving.PatchStatus: which base backup is the newest is an input of a pass, and the backup taken for a list has no name.
- Runs.Observe: only which instances are ready is derived from the Pods; the other observed fields are inputs, and arbitrary.
- Runs.Reconcile: failover, switchover and the status steps between observation and provisioning are left out.
- Backups that change while a judging pass runs; between passes they may come, complete and go.
- Retention.Archive.Apply: the archiver ships a log, its manifest and its index entry in one step, and index fields other than the file lists are not kept.
- Retention.Stores.Retain: a backup is one object, and what a pass condemns is any set of objects.
- Logical backups in retention planning; they only count towards ownership.
- DeadBranch.UpdateArchiveIndex: that eight attempts suffice is not claimed.
