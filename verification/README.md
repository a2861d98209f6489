# Percona Server for MongoDB Operator: verified protocols

The operator is a set of controllers that act step by step on objects in the Kubernetes API server
while users, the StatefulSet controller, the kubelet, elections and Percona Backup for MongoDB (PBM)
change the same objects. This project models its small protocols in Dafny and proves what they are
for, over every run.

| file | protocol |
|---|---|
| `Leases.dfy`, `BackupProtocol.dfy`, `BackupProtocolProofs.dfy`, `BackupProtocolLimits.dfy`, `BackupProgress.dfy` | the backup lock: a Lease, a stale-holder takeover and a release-lock finalizer, read through a lagging cache |
| `Cancellation.dfy` | cancelling a backup: PBM's metadata, the timeout, the clean-up of snapshots |
| `VolumeShrink.dfy`, `VolumeShrinkLimits.dfy`, `ShrinkThroughCache.dfy`, `ShrinkProgress.dfy` | the PVC shrink machine: preflight, secondaries, stepdown, primary, cleared |
| `Resources.dfy`, `InPlaceResize.dfy`, `InPlaceLimits.dfy` | moving a pod to a new revision by resizing it in place instead of recreating it |
| `PodOrder.dfy`, `PodWait.dfy`, `ReplsetUpdate.dfy`, `MongosRollout.dfy` | the smart update of a replica set and of mongos |
| `Vpa.dfy` | adopting a VPA recommendation and sizing a component from it |
| `ClusterFinalizers.dfy`, `Shutdown.dfy`, `ShutdownProgress.dfy` | deleting or pausing a cluster in order |
| `RetentionHeap.dfy` | the scheduled backups that exceed the retention |
| `VersionUpgrade.dfy` | major upgrades and the feature compatibility version (FCV) |
| `VersionJob.dfy` | reconciles and version-job firings under one mutex |

How a protocol is written down: the code that updates objects in place is a class or a method with
loops, proved equal to a function of the old state; a transition system built from those functions
has one action per API call or outside event, and the main results are lemmas over its runs. An
action carries as parameters whatever the code learns from outside: replies, errors, clock readings,
cached reads. A call that fails, a write that is lost and a reconcile that is cut off are actions
or parameters too.

Beside safety stands progress: a waiting backup can start as soon as the lease can be had
(`WaitingCanStart`), a shrink can complete from wherever a run has got to (`CanAlwaysComplete`), a
cluster can always be shut down (`CanAlwaysShutDown`), a version-job firing works when it is due
(`FiringWorksExactly`).

Some properties one would like to have are false of the code. Each has a concrete run or input that
shows it, and the exact condition under which it holds:

- Two backups can be started at once. Mutual exclusion rests on three assumptions: a backup's name
  is not reused while a reconcile of its previous object is in flight; the cached list checkStale
  reads has seen the lease holder it is asked about; and the cached copy updateStatus reads has seen
  the backup it does not find. For each one there is a run with two started backups that breaks only
  that one (`NameReuseBreaksExclusion`, `UnseenHolderBreaksExclusion`, `UnseenBackupBreaksExclusion`)
  and the exact condition under which breaking it does harm (`ReuseExactly`, `LeaseLossExactly`,
  `NotFoundReleasesExactly`).
- The shrink machine can have two members out at once after an election, in three ways
  (`ElectionLetsASecondMemberGo`, `ElectedMemberLetsASecondGo`, `FormerPrimaryAboveLetsASecondGo`);
  `SecondOutExactly` says which members can be out when another goes.
- A lagging list of claims can make it delete a claim it has already shrunk
  (`StaleListDeletesSmallClaim`); `SmallDeletedExactly` says when.
- mongod's cache can exceed its memory limit's share if the update revision changes between two
  attempts, in two ways (`ChangedTargetBreaksCacheBound`, `LoweringRaisesTheCache`);
  `AttemptBreaksExactly` says from which states an attempt can do it.
- A pod that has gone missing counts as ready when it was current and ready as listed
  (`KeptCopyCounts`); `WaitedMeaning` says that this is the only such case.
- VPA limits can end up below requests (`UnrequestedLimitBreaksAdmission`,
  `FractionOfAByteBreaksAdmission`); `RequestsAndLimitsExactly` says when.
- Volumes can be deleted before pods when finalizer names of two generations are mixed
  (`MixedNamesDeleteVolumesEarly`); `VolumesWaitForPods` says for which lists.
- A pause begun during a downscale can lower a shard under running mongos pods
  (`PauseDuringDownscaleBreaksOrder`), and a deletion a shard under mongos pods that came back or the
  config servers under a running shard (`MongosReturnBreaksOrder`, `MissingShardBreaksOrder`);
  `OrderBrokenExactly` says which passes do.

## Model

| member | source | states |
|---|---|---|
| `Leases.LeaseServer.Create` | pkg/k8s/lease.go:37-57 | a create succeeds exactly when no lease exists, and nothing changes otherwise |
| `Leases.LeaseServer.Update` | pkg/k8s/lease.go:37-57 | an update succeeds exactly when the copy is the stored version; a missing object is told apart from a conflict |
| `Leases.LeaseServer.AcquireLease` | pkg/k8s/lease.go:31-59 | from a cached copy, the stored lease, the staleness answer and the revision: the lease left and the outcome; any change names the caller under a new version |
| `Leases.LeaseServer.ReleaseLease` | pkg/k8s/lease.go:75-101 | the lease goes only if the copy names the caller or nobody and UID and resource version are still the stored ones |
| `BackupProtocol.CheckStale` | pkg/controller/perconaservermongodbbackup/psmdb_backup_controller.go:414-435 | scanning the listed backups answers stale exactly when no listed, unfinished backup has the holder's name and UID |
| `BackupProtocol.CheckFinalizers` | pkg/controller/perconaservermongodbbackup/psmdb_backup_controller.go:705-740 | the finalizers written back are those whose handler failed, the delete-backup ones only for a Ready backup; unknown ones are dropped |
| `BackupProtocol.KeptExactly` | pkg/controller/perconaservermongodbbackup/psmdb_backup_controller.go:705-740 | a finalizer stays if and only if it was attached and its handler, for a delete-backup one only called on a Ready backup, failed |
| `BackupProtocolProofs.DeadStaysDead` | pkg/controller/perconaservermongodbbackup/psmdb_backup_controller.go:148-191 | under the three assumptions a finished or missing backup identity is never unfinished again: terminal states are absorbing |
| `BackupProtocolProofs.TakeoverIsSafe` | pkg/controller/perconaservermongodbbackup/psmdb_backup_controller.go:402-455 | a takeover, decided on two cached reads of different age, the list having seen the holder, only displaces one that is finished or gone now |
| `BackupProtocolProofs.ReleaseIsOwn` | pkg/controller/perconaservermongodbbackup/psmdb_backup_controller.go:742-754 | a release only deletes a lease that names the releaser or nobody, and the releaser is finished or gone |
| `BackupProtocolProofs.LeaseLoss` | pkg/k8s/lease.go:31-101 | no step that keeps to the three assumptions takes the lease from an unfinished backup |
| `BackupProtocolProofs.AcquiredHolds` | pkg/controller/perconaservermongodbbackup/psmdb_backup_controller.go:348-365 | under the three assumptions an attempt reported as acquired really holds the lease, even when "already mine" was read from an old copy |
| `BackupProtocolProofs.StepInv` | pkg/controller/perconaservermongodbbackup/psmdb_backup_controller.go:115-478 | every API call, outside event and cut-off that keeps to the three assumptions keeps the invariant that ties stores, cached history and reconciles in flight together |
| `BackupProtocolProofs.RunInv` | pkg/controller/perconaservermongodbbackup/psmdb_backup_controller.go:115-478 | the invariant holds in every state such a run reaches, with any number of backups |
| `BackupProtocolProofs.StartedHoldsLease` | pkg/controller/perconaservermongodbbackup/psmdb_backup_controller.go:348-365 | in every run that keeps to the three assumptions a started backup holds the lease and carries the release-lock finalizer |
| `BackupProtocolProofs.MutualExclusion` | pkg/controller/perconaservermongodbbackup/psmdb_backup_controller.go:402-478 | in every run that keeps to the three assumptions at most one backup of a cluster is started |
| `BackupProtocolProofs.OnlyHolderSends` | pkg/controller/perconaservermongodbbackup/psmdb_backup_controller.go:348-372 | in every such run the backup command is only sent by the lease holder, with its finalizer in place and no other backup started |
| `BackupProtocolProofs.StartedCannotVanish` | pkg/controller/perconaservermongodbbackup/psmdb_backup_controller.go:249-288 | under the three assumptions the object of a started backup stays, under the same UID, until it has finished |
| `BackupProtocolProofs.StaleReadStaysTrue` | pkg/controller/perconaservermongodbbackup/psmdb_backup_controller.go:414-459 | in every run that keeps to the three assumptions "terminal or not found", read from any earlier store that had seen the holder, is still true |
| `BackupProtocolProofs.ReleaseNeverStealsLease` | pkg/k8s/lease.go:75-101 | in every run that keeps to the three assumptions a release leaves a lease that someone else holds untouched |
| `BackupProtocolLimits.LeaseLossExactly` | pkg/k8s/lease.go:31-101 | of all actions, only an acquire takes the lease from an unfinished holder, and it does if and only if its lease copy is the stored one and the list it read is older than the holder |
| `BackupProtocolLimits.NotFoundReleasesExactly` | pkg/controller/perconaservermongodbbackup/psmdb_backup_controller.go:934-953 | a backup about to write a status loses its lease through a "not found" if and only if that status is terminal, the copy read lacks the backup and the lease copy is the stored one; such a copy is always older than the backup |
| `BackupProtocolLimits.ReuseExactly` | pkg/controller/perconaservermongodbbackup/psmdb_backup_controller.go:461-478 | reusing a name under a running reconcile can leave the new object started without the lease if and only if that reconcile may yet write a start, by its position, its PBM name and whether the lease can be had |
| `BackupProtocolLimits.NameReuseBreaksExclusion` | pkg/controller/perconaservermongodbbackup/psmdb_backup_controller.go:461-478 | a run with two started backups that breaks no assumption but the one about names |
| `BackupProtocolLimits.UnseenHolderBreaksExclusion` | pkg/controller/perconaservermongodbbackup/psmdb_backup_controller.go:414-435 | a run with two started backups that breaks no assumption but the one about the list of checkStale |
| `BackupProtocolLimits.UnseenBackupBreaksExclusion` | pkg/controller/perconaservermongodbbackup/psmdb_backup_controller.go:934-953 | a run with two started backups that breaks no assumption but the one about the copy updateStatus reads |
| `BackupProgress.AttemptStores` | pkg/controller/perconaservermongodbbackup/psmdb_backup_controller.go:348-365 | for lease and list copies of any age: when an attempt goes on, and otherwise the stored status it leads to, Waiting, or Error if the lease went away in between; nothing else of the backup changes |
| `BackupProgress.BusyMeansWaiting` | pkg/controller/perconaservermongodbbackup/psmdb_backup_controller.go:352-356 | with current copies and another unfinished backup holding the lease, a backup ends its reconcile stored as Waiting, under the same UID, and the lease stays where it is |
| `BackupProgress.WaitingCanStart` | pkg/controller/perconaservermongodbbackup/psmdb_backup_controller.go:309-374 | once the lease is free or its holder finished or gone, some run that keeps to the three assumptions starts a New or Waiting backup under the lease |
| `BackupProgress.StepStores` | pkg/controller/perconaservermongodbbackup/psmdb_backup_controller.go:170-191 | parked backups are stored as Waiting, failed ones as Error, started ones as Requested with their PBM name, polled and cancelled ones in the state found; nothing else of the object or the lease changes |
| `BackupProgress.CancellationTakesOver` | pkg/controller/perconaservermongodbbackup/psmdb_backup_controller.go:148-152 | a reconcile of an unfinished backup that is deleted or annotated for cancellation marks it Canceling first and only cancels from there |
| `BackupProgress.CancellingNeverSends` | pkg/controller/perconaservermongodbbackup/cancel.go:24-57 | a reconcile past the point of starting never sends the backup command, whatever happens in between |
| `BackupProgress.FinishedFreesLease` | pkg/controller/perconaservermongodbbackup/psmdb_backup_controller.go:153-158 | the next reconcile of a finished backup that still holds the lease frees it and changes nothing else |
| `BackupProgress.DeletionCompletes` | pkg/controller/perconaservermongodbbackup/psmdb_backup_controller.go:249-288 | the reconcile of a finished backup that is being deleted frees its lease and, with all handlers done, lets the object go |
| `BackupProgress.FailedHandlersKeepTheObject` | pkg/controller/perconaservermongodbbackup/psmdb_backup_controller.go:705-740 | a deletion with failed handlers keeps the object, status and UID, with the finalizers of just those handlers |
| `Cancellation.Canceller.CleanupSnapshots` | pkg/controller/perconaservermongodbbackup/cancel.go:192-217 | Done exactly when no look-up failed and none of the named snapshots exists; otherwise every existing one is on its way out |
| `Cancellation.Canceller.ReadMeta` | pkg/controller/perconaservermongodbbackup/backup.go:247-336 | the status PBM's metadata gives a backup that is being cancelled, snapshots cleaned up first for an external one |
| `Cancellation.Canceller.CheckTimeout` | pkg/controller/perconaservermongodbbackup/cancel.go:143-189 | the timeout counts from the latest sign of life and gives up only without a backup lock and after the clean-up |
| `Cancellation.Canceller.CancelBackup` | pkg/controller/perconaservermongodbbackup/cancel.go:59-141 | the record stored after one cancellation pass, whatever the cluster, PBM and the snapshots answer |
| `Cancellation.CancelingOrTerminal` | pkg/controller/perconaservermongodbbackup/cancel.go:28-57 | one pass leaves a Canceling backup Canceling or finished and keeps its PBM name |
| `Cancellation.ErrorExactly` | pkg/controller/perconaservermongodbbackup/cancel.go:59-189 | a pass ends in Error if and only if PBM failed or the cluster is gone, or the deadline passed with no PBM lock; and, for an external backup, only with all snapshots gone |
| `Cancellation.ReadyExactly` | pkg/controller/perconaservermongodbbackup/cancel.go:59-141 | a pass ends in Ready if and only if PBM is reachable and reports the named backup done |
| `Cancellation.CanceledExactly` | pkg/controller/perconaservermongodbbackup/cancel.go:59-141 | a pass ends in Canceled if and only if there is no PBM name, or PBM reports it cancelled and, for an external backup, no snapshot is left |
| `Cancellation.ErrorRecord` | pkg/controller/perconaservermongodbbackup/cancel.go:59-189 | the whole record a failed pass stores: the time PBM or the clock gives, and no snapshots for an external backup |
| `Cancellation.OtherwiseUntouched` | pkg/controller/perconaservermongodbbackup/cancel.go:143-150 | a pass that does not finish the backup leaves the record alone, but starts the clock if PBM answered and none was running |
| `Cancellation.LastProgressIsLatest` | pkg/controller/perconaservermongodbbackup/cancel.go:151-165 | the timeout counts from the latest of the last transition, PBM's transition and PBM's heartbeat |
| `Cancellation.TimeoutNeedsDeadlineAndNoLock` | pkg/controller/perconaservermongodbbackup/cancel.go:143-189 | a timeout turns a backup to Error only past its deadline and with no backup lock |
| `Cancellation.ExternalErrorLeavesNoSnapshots` | pkg/controller/perconaservermongodbbackup/cancel.go:192-217 | an external backup reaches Error only when none of its named snapshots exists |
| `Cancellation.CancelingIsATrap` | pkg/controller/perconaservermongodbbackup/cancel.go:24-57 | over any run of reconciles, once Canceling every later state is Canceling or terminal, and a terminal record is final |
| `Cancellation.ErrorAfterCleanup` | pkg/controller/perconaservermongodbbackup/cancel.go:24-141 | over any run, an external backup that went from Canceling to Error passed a point at which none of its snapshots existed |
| `PodOrder.Sort` | pkg/controller/perconaservermongodb/smart.go:551-568 | an ordered permutation of the ordinals |
| `PodOrder.OrderedUnique` | pkg/controller/perconaservermongodb/smart.go:551-568 | the order is the only one: any two ordered lists of the same pods are equal |
| `VolumeShrink.ShrinkController.MissingPod` | pkg/controller/perconaservermongodb/volumes.go:769-797 | reports exactly whether an expected pod of the phase, not yet processed, is missing |
| `VolumeShrink.ShrinkController.WalkPods` | pkg/controller/perconaservermongodb/volumes.go:799-869 | the exit the loop over the pods takes, with the progress list it carries |
| `VolumeShrink.ShrinkController.ProcessPods` | pkg/controller/perconaservermongodb/volumes.go:714-883 | the objects deleted and the state stored by one pass, for a pod list in any order and any failing delete |
| `VolumeShrink.ShrinkController.StepDown` | pkg/controller/perconaservermongodb/volumes.go:885-929 | for every answer: the state stays as it is if a step-down is needed and the tracked pod could not be read, gives no answer or fails to step down, and otherwise only the phase moves on |
| `VolumeShrink.WalkFinished` | pkg/controller/perconaservermongodb/volumes.go:799-883 | a pass that finishes has every in-phase pod ready on a small claim or already processed |
| `VolumeShrink.WalkElected` | pkg/controller/perconaservermongodb/volumes.go:843-864 | a pass cut short by an election adds only shrunk, ready pods and never the elected one |
| `VolumeShrink.WalkReplace` | pkg/controller/perconaservermongodb/volumes.go:799-835 | the pod replaced is the first oversized one of the phase; every pod above it is ready on a small claim |
| `VolumeShrink.DecidedExactly` | pkg/controller/perconaservermongodb/volumes.go:769-883 | what a pass decides, from pods, claims and answers alone: nothing while blocked or a pod is missing, else what the highest pod that is not done calls for, else the end of the phase |
| `VolumeShrink.StepInv` | pkg/controller/perconaservermongodb/volumes.go:477-532 | every pass, lost write, election, pod and claim event keeps the machine's invariant |
| `VolumeShrink.PhasesMoveForward` | pkg/controller/perconaservermongodb/volumes.go:477-532 | in every run phases only move forward |
| `VolumeShrink.ClaimDeletedAtMostOnce` | pkg/controller/perconaservermongodb/volumes.go:822-835 | in every run, with lists that are current, each pod's oversized claim is deleted at most once and no other claim ever |
| `VolumeShrink.ClearedMeansShrunk` | pkg/controller/perconaservermongodb/volumes.go:871-878 | when the shrink state is cleared every expected pod's claim requests at most the target |
| `VolumeShrink.PrimaryGoesAfterStepdown` | pkg/controller/perconaservermongodb/volumes.go:885-929 | in every run the primary phase only deletes the claim or pod of the tracked primary, and only once the step that ended the stepdown phase found it gone, no longer primary, or stepped it down, if that is needed |
| `VolumeShrink.OneMemberOutAtATime` | pkg/controller/perconaservermongodb/volumes.go:769-869 | while the tracked primary does not change, the secondaries phase never touches it, and deletes a pod only when all in-phase pods exist and all replaced ones are ready on small claims |
| `VolumeShrink.SecondOutExactly` | pkg/controller/perconaservermongodb/volumes.go:769-869 | in every run, elections included, when the secondaries phase decides to replace a pod, a replaced member is out only if recorded as processed, the tracked primary, or replaced below a pod that was the primary then; and one with a pod may lose its readiness without changing the decision if and only if it is such a member, its pod if and only if it is one of the first two |
| `VolumeShrink.UnreadyExactly` | pkg/controller/perconaservermongodb/volumes.go:799-841 | in any state the machine can be in, a pass that replaces a pod still does after another pod lost its readiness if and only if that one is processed, the tracked primary, or lower |
| `VolumeShrink.MissingExactly` | pkg/controller/perconaservermongodb/volumes.go:781-797 | and still does after another pod went missing if and only if that one is processed or the tracked primary |
| `VolumeShrinkLimits.ElectionLetsASecondMemberGo` | pkg/controller/perconaservermongodb/volumes.go:850-860 | a run in which a second member is deleted while a replaced one, recorded as processed, is out |
| `VolumeShrinkLimits.ElectedMemberLetsASecondGo` | pkg/controller/perconaservermongodb/volumes.go:850-860 | the same while a replaced member that was elected since is out |
| `VolumeShrinkLimits.FormerPrimaryAboveLetsASecondGo` | pkg/controller/perconaservermongodb/volumes.go:850-860 | the same while a member replaced below the former primary is out |
| `ShrinkThroughCache.StepInv` | pkg/controller/perconaservermongodb/volumes.go:714-883 | every pass over lists of any age, and every other event, keeps what the machine has recorded true of the store |
| `ShrinkThroughCache.ClearedMeansNoneLarge` | pkg/controller/perconaservermongodb/volumes.go:871-878 | however old the lists of every pass, once the shrink state is cleared no expected pod has a claim above the target |
| `ShrinkThroughCache.LargeDeletedAtMostOnce` | pkg/controller/perconaservermongodb/volumes.go:822-835 | however old the lists, a second deletion under one name is never of an oversized claim |
| `ShrinkThroughCache.SmallDeletedExactly` | pkg/controller/perconaservermongodb/volumes.go:822-835 | a claim that a pass deletes is within the target already if and only if the one its list showed has gone since |
| `ShrinkThroughCache.CurrentListIsSafe` | pkg/controller/perconaservermongodb/volumes.go:752-767 | a pass that reads the current claims deletes only oversized ones |
| `ShrinkThroughCache.StaleListDeletesSmallClaim` | pkg/controller/perconaservermongodb/volumes.go:822-835 | a run in which a lagging list deletes the freshly recreated small claim |
| `ShrinkProgress.PassExactly` | pkg/controller/perconaservermongodb/volumes.go:714-883 | what one pass deletes and stores, case by case, from pods, claims and answers alone, the stored progress included |
| `ShrinkProgress.PhaseEnds` | pkg/controller/perconaservermongodb/volumes.go:714-883 | once every pod is ready, a secondaries or primary phase can end after replacing the pods on oversized claims one by one |
| `ShrinkProgress.CanAlwaysComplete` | pkg/controller/perconaservermongodb/volumes.go:477-532 | wherever a run has got to, some continuation clears the shrink state with every expected claim at most the target |
| `Resources.QuantitiesEqual` | pkg/controller/perconaservermongodb/inplace.go:387-405 | equal exactly when both lists hold the same resources in the same amounts once rounded |
| `Resources.NormalizeResources` | pkg/controller/perconaservermongodb/inplace.go:360-371 | every limit without a request becomes the request, and nothing else changes |
| `Resources.ResourcesApplied` | pkg/controller/perconaservermongodb/inplace.go:355-358 | applied exactly when the two agree after defaulting and rounding |
| `Resources.SameExactly` | pkg/controller/perconaservermongodb/inplace.go:387-405 | lists count as equal if and only if they name the same resources, CPU in equal thousandths and the rest in equal units rounded up |
| `Resources.DefaultsCommuteWithRounding` | pkg/controller/perconaservermongodb/inplace.go:355-405 | defaulting requests and rounding up commute |
| `Resources.StoredIsApplied` | pkg/controller/perconaservermongodb/inplace.go:351-358 | what the API server stores for a target counts as the target, and storing it again changes nothing |
| `Resources.AppliedSameMemory` | pkg/controller/perconaservermongodb/inplace.go:387-405 | resources that count as applied have the same memory limit in whole bytes |
| `InPlaceResize.CheckOnlyResourcesDiffer` | pkg/controller/perconaservermongodb/inplace.go:107-118 | true exactly when the templates agree outside init-container resources and the managed container's resources |
| `InPlaceResize.OnlyResourcesExactly` | pkg/controller/perconaservermongodb/inplace.go:107-118 | it holds if and only if the templates agree on everything but init-container resources and the resources of the first container of that name |
| `InPlaceResize.PlanExactly` | pkg/controller/perconaservermongodb/inplace.go:149-216 | a pod can be moved in place if and only if settings, revisions, containers and storage engine allow it; the plan grows or shrinks as the memory limits of the two revisions compare |
| `InPlaceResize.CacheExactly` | pkg/psmdb/container.go:400-413 | the cache is the integer number of bytes the ratio gives of the limit less a gigabyte, and a quarter of a gigabyte if that is less |
| `InPlaceResize.CacheIsMonotone` | pkg/psmdb/container.go:400-413 | a larger memory limit never gives a smaller cache |
| `InPlaceResize.ResizeMeaning` | pkg/controller/perconaservermongodb/inplace.go:285-294 | a resize changes nothing but the managed container's resources, which count as the target afterwards |
| `InPlaceResize.RefinementStep` | pkg/controller/perconaservermongodb/inplace.go:221-283 | every call of an attempt, and every interruption, keeps the pod equal to its labelled revision up to managed resources; relabelling makes it match the new one |
| `InPlaceResize.InPlaceRefinesRecreation` | pkg/controller/perconaservermongodb/inplace.go:221-283 | after any run of attempts toward any revisions, a pod relabelled in place matches the pod a recreation gives, up to init-container resources and rounding |
| `InPlaceResize.CacheStep` | pkg/controller/perconaservermongodb/inplace.go:198-215 | every call of an attempt toward one revision keeps the cache under the limit in force and the limit requested |
| `InPlaceResize.CacheNeverExceedsLimit` | pkg/controller/perconaservermongodb/inplace.go:244-276 | for attempts toward one revision, each cut off anywhere and retried, the cache never exceeds the formula applied to the current memory limit |
| `InPlaceLimits.AttemptBreaksExactly` | pkg/controller/perconaservermongodb/inplace.go:198-276 | from any pod within its bounds, some run of one attempt, cut off anywhere, takes the cache over the limit in force if and only if its plan lowers the cache to more than a limit allows or leaves alone a cache too large for the target |
| `InPlaceLimits.SafeAttemptsKeepBound` | pkg/controller/perconaservermongodb/inplace.go:221-283 | whatever the revisions, a run none of whose attempts begins in that situation keeps the cache within its limits |
| `InPlaceLimits.ChangedTargetBreaksCacheBound` | pkg/controller/perconaservermongodb/inplace.go:198-215 | a run in which a changed revision brings the limit down under a larger cache |
| `InPlaceLimits.LoweringRaisesTheCache` | pkg/controller/perconaservermongodb/inplace.go:198-215 | a run in which a changed revision makes the lowering of the cache raise it over the limit |
| `InPlaceResize.ManagedPod.ResizePod` | pkg/controller/perconaservermongodb/inplace.go:285-294 | no change when the pod already holds the target, else the stored form of the target |
| `InPlaceResize.ManagedPod.TryInPlaceResize` | pkg/controller/perconaservermongodb/inplace.go:221-283 | for every combination of failing calls: the answer, the label and the cache it leaves, told from the replies; the calls form a run of the machine the two results above are about |
| `MongosRollout.RollOut` | pkg/controller/perconaservermongodb/smart.go:521-542 | the pods left by deleting and awaiting pod after pod in a given order |
| `MongosRollout.AscendingCompletes` | pkg/controller/perconaservermongodb/smart.go:521-542 | in ascending order every number of pods, old and new mixed, ends all updated |
| `MongosRollout.DescendingDeadlocks` | pkg/controller/perconaservermongodb/smart.go:521-542 | in descending order the last of two or more stale pods is deleted and no later sync recreates it |
| `MongosRollout.OnlyAscendingCompletes` | pkg/controller/perconaservermongodb/smart.go:604-632 | from all-stale pods an order gets through if and only if it is ascending |
| `PodWait.ServerReady` | pkg/controller/perconaservermongodb/smart.go:659-665 | readiness is that of the last server container listed |
| `PodWait.ReadyExactly` | pkg/controller/perconaservermongodb/smart.go:659-665 | a pod is ready if and only if it has a server container and the last one listed is ready, whatever else runs in it |
| `PodWait.WaitPodRestart` | pkg/controller/perconaservermongodb/smart.go:636-674 | for any polls, failed calls and missing pods: success means a copy at the update revision, running and ready, and one that a poll has read if the wait began with another revision |
| `PodWait.WaitedMeaning` | pkg/controller/perconaservermongodb/smart.go:636-674 | the poll a wait succeeds on read just the pod it reports, if and only if it is not the case that the first poll found no pod and the copy at hand counts |
| `PodWait.WaitedExactly` | pkg/controller/perconaservermongodb/smart.go:636-674 | a wait succeeds if and only if, before any call fails, a poll reads a pod at the update revision, running and with its server ready, or the first finds no pod and the copy at hand is such a one |
| `PodWait.KeptCopyCounts` | pkg/controller/perconaservermongodb/smart.go:649-668 | a pod that is gone counts as ready when it was current and ready as listed |
| `PodWait.BackIsANewPod` | pkg/controller/perconaservermongodb/smart.go:618-674 | after a deletion, whatever the pod goes through and however old the reads, success means a pod created since, at the update revision, running and ready: no copy of the old pod counts |
| `ReplsetUpdate.RecreateAndWait` | pkg/controller/perconaservermongodb/smart.go:618-632 | deletes a pod unless it is current and waits for it; a pod it deleted is seen back only as a poll read it |
| `ReplsetUpdate.ApplyAndWait` | pkg/controller/perconaservermongodb/smart.go:604-616 | resizes in place where possible, recreates otherwise, and waits, with exactly the events that belong to it |
| `ReplsetUpdate.AppliedExactly` | pkg/controller/perconaservermongodb/smart.go:604-632 | it succeeds if and only if the replies let the pod come up as it is, resized or recreated; it is resized or deleted in just those cases |
| `ReplsetUpdate.UpdateSecondaries` | pkg/controller/perconaservermongodb/smart.go:206-225 | the events of the loop over the members and the last one that answered as primary |
| `ReplsetUpdate.SecondariesMeaning` | pkg/controller/perconaservermongodb/smart.go:206-225 | secondaries only, deleted from the highest ordinal down, one out at a time, every one seen ready on success |
| `ReplsetUpdate.SecondariesExactly` | pkg/controller/perconaservermongodb/smart.go:206-225 | the loop succeeds if and only if every member answers and every secondary's calls succeed |
| `ReplsetUpdate.UpdatePrimary` | pkg/controller/perconaservermongodb/smart.go:227-278 | the events of the primary's half of the call for every reply |
| `ReplsetUpdate.PrimaryShape` | pkg/controller/perconaservermongodb/smart.go:227-278 | the primary is left running if current or resizable, and otherwise deleted only right behind a step-down |
| `ReplsetUpdate.PrimaryExactly` | pkg/controller/perconaservermongodb/smart.go:227-278 | the primary's half succeeds if and only if its calls do and, where it is recreated, it yields; when it is resized, stepped down and deleted |
| `ReplsetUpdate.TrackedExactly` | pkg/controller/perconaservermongodb/smart.go:206-225 | the primary the call goes on with is, of those that answered as primary, the one asked last |
| `ReplsetUpdate.SmartUpdate` | pkg/controller/perconaservermongodb/smart.go:115-283 | at every point at most one pod is deleted and not yet seen back by a poll; secondaries before the primary that answered last; it succeeds if and only if every call it makes does, elections included, having then seen every secondary and that primary, without an election every listed pod, at the update revision, running and ready |
| `ReplsetUpdate.SeenBackIsNew` | pkg/controller/perconaservermongodb/smart.go:618-674 | a pod the call deleted and saw back was created after that deletion |
| `Vpa.ClampRecommendation` | pkg/controller/perconaservermongodb/vpa.go:430-441 | the recommendation with every entry brought under its bounds |
| `Vpa.CapRequestsAtLimits` | pkg/controller/perconaservermongodb/vpa.go:563-577 | every request above its limit becomes the limit, the rest stay |
| `Vpa.RatioScaledLimits` | pkg/controller/perconaservermongodb/vpa.go:579-600 | limits keep the declared ratio to requests, memory cut to whole bytes, limits without a declared request untouched |
| `Vpa.EffectiveExactly` | pkg/controller/perconaservermongodb/vpa.go:500-556 | resource by resource: a recommended one gets its recommendation brought under the bounds, lowered to the declared limit in RequestsOnly, any other its declared request; limits stay as declared or keep the declared ratio to the last whole unit |
| `Vpa.ClampedWithinBounds` | pkg/controller/perconaservermongodb/vpa.go:430-441 | clamped values lie within [min, max] when min does not exceed max, and change only to a violated bound |
| `Vpa.RequestsOnlyAdmissible` | pkg/controller/perconaservermongodb/vpa.go:509-530 | in RequestsOnly mode requests never exceed limits for a valid declaration |
| `Vpa.RequestsAndLimitsAdmissible` | pkg/controller/perconaservermongodb/vpa.go:509-530 | in RequestsAndLimits mode neither, with whole-byte memory and a nonzero declared request for every limited resource |
| `Vpa.RequestsAndLimitsExactly` | pkg/controller/perconaservermongodb/vpa.go:579-600 | without those conditions, requests stay under limits if and only if each resource passes a check on declaration and recommendation alone |
| `Vpa.ScaledMemoryExactly` | pkg/controller/perconaservermongodb/vpa.go:579-600 | a scaled memory limit covers its request if and only if the ratio leaves room for the next whole byte |
| `Vpa.UnrequestedLimitBreaksAdmission` | pkg/controller/perconaservermongodb/vpa.go:579-600 | a valid declaration whose limit ends up below the new request because nothing was requested |
| `Vpa.FractionOfAByteBreaksAdmission` | pkg/controller/perconaservermongodb/vpa.go:579-600 | a valid declaration whose memory limit ends up below a request of a fraction of a byte |
| `Vpa.Component.RecordStatus` | pkg/controller/perconaservermongodb/vpa.go:448-468 | a recommendation equal up to rounding changes nothing; any other is stored with its time |
| `Vpa.Component.RecommendationFor` | pkg/controller/perconaservermongodb/vpa.go:177-239 | the status left and the recommendation to size from, in each mode and on both sides of the window; an error exactly when a VPA object something was applied from has vanished under Auto |
| `Vpa.AdoptedExactly` | pkg/controller/perconaservermongodb/vpa.go:177-239 | in Auto mode a recommendation is adopted, with its time, if and only if it differs beyond rounding and the window has passed; what is sized from is what is then recorded |
| `Vpa.OffOnlyRecords` | pkg/controller/perconaservermongodb/vpa.go:177-239 | in Off mode a changed recommendation is recorded and nothing applied; without one nothing changes |
| `Vpa.Component.Commit` | pkg/controller/perconaservermongodb/vpa.go:500-556 | what is applied is computed from the declaration and written only when it differs beyond rounding |
| `Vpa.AppliedChangesExactly` | pkg/controller/perconaservermongodb/vpa.go:500-556 | what is applied changes, with its time, if and only if it would differ beyond rounding |
| `Vpa.Component.Reconcile` | pkg/controller/perconaservermongodb/vpa.go:140-162 | one reconcile of a component is the adoption followed by the commit; a vanished VPA object stops it with the status as it was |
| `Vpa.AppliedIsAFunctionOfTheDeclaration` | pkg/controller/perconaservermongodb/vpa.go:500-556 | after every reconcile that yields a recommendation, what is applied is one fixed function of declaration, adopted recommendation, bounds and mode; repeating it is a no-op |
| `Vpa.NothingCompounds` | pkg/controller/perconaservermongodb/vpa.go:500-556 | two components that differ in what was applied before end up with the same resources |
| `Vpa.AdoptionsAreAWindowApart` | pkg/controller/perconaservermongodb/vpa.go:448-490 | over any run in Auto mode with a fixed window, any two changes of the adopted recommendation are at least the window apart on the recorded clock, even if the clock steps back, unless the window is zero |
| `ClusterFinalizers.GetOrderedFinalizers` | pkg/controller/perconaservermongodb/finalizers.go:332-356 | the known names of the version moved to the front in their order, the rest after them in theirs, by in-place removal |
| `ClusterFinalizers.OrderedIsPermutation` | pkg/controller/perconaservermongodb/finalizers.go:332-356 | the ordered list is a permutation of the attached one |
| `ClusterFinalizers.CheckFinalizers` | pkg/controller/perconaservermongodb/finalizers.go:26-83 | which handlers a pass calls, which finalizers it keeps and whether it asks to stop, for any failing handlers |
| `ClusterFinalizers.CheckedExactly` | pkg/controller/perconaservermongodb/finalizers.go:33-76 | outside the error state a handler is called if and only if it is attached and none before it failed; a finalizer goes if and only if its handler is called and succeeds |
| `ClusterFinalizers.ErrorStateNeverSticks` | pkg/controller/perconaservermongodb/finalizers.go:55-69 | in the error state every handler is called whatever fails, and only foreign finalizers stay |
| `ClusterFinalizers.StopsExactlyWhenPodsGone` | pkg/controller/perconaservermongodb/finalizers.go:40-48 | the pass ends the reconcile if and only if a pods-in-order handler was called and succeeded |
| `ClusterFinalizers.RanIsAPrefix` | pkg/controller/perconaservermongodb/finalizers.go:33-76 | outside the error state volumes are deleted in a pass if and only if every handler before the first volume finalizer succeeded |
| `ClusterFinalizers.NamesDecideOrder` | pkg/controller/perconaservermongodb/finalizers.go:332-356 | the ordered list puts pods before volumes if and only if the attached names pass a check on names and positions |
| `ClusterFinalizers.VolumesWaitForPods` | pkg/controller/perconaservermongodb/finalizers.go:26-83 | for every list and version: no pass outside the error state deletes volumes while an attached pods-in-order finalizer fails, if and only if the names pass that check |
| `ClusterFinalizers.MixedNamesDeleteVolumesEarly` | pkg/controller/perconaservermongodb/finalizers.go:332-356 | with a current volume finalizer and a legacy pods one attached, a pass deletes the volumes and the pods' handler then fails |
| `ClusterFinalizers.CurrentNamesAreSafe` | pkg/controller/perconaservermongodb/finalizers.go:332-356 | with current names volumes always wait for pods |
| `ClusterFinalizers.DroppedMeansSucceeded` | pkg/controller/perconaservermongodb/finalizers.go:33-76 | a pass outside the error state drops a finalizer only if its handler was called and succeeded |
| `ClusterFinalizers.VolumesGoAfterPods` | pkg/controller/perconaservermongodb/finalizers.go:26-83 | over any run of passes, volumes are deleted only in or after a pass that shut the pods down in order |
| `Shutdown.DeleteReplsetPods` | pkg/controller/perconaservermongodb/finalizers.go:164-245 | a visit succeeds exactly when the set is readable and gone, changes nothing but the wanted size, and, held back by safeDownscale, wants the replicas or one fewer, fewer with two or more pods only under a primary first pod |
| `Shutdown.ClusterSpec.DeleteShards` | pkg/controller/perconaservermongodb/finalizers.go:124-138 | every shard is visited until one fails outright; done only if all are |
| `Shutdown.ClusterSpec.DeletePsmdbPods` | pkg/controller/perconaservermongodb/finalizers.go:100-146 | nothing is touched while a mongos pod exists, the config servers only after the shards |
| `Shutdown.ClusterSpec.SafeDownscale` | pkg/controller/perconaservermongodb/psmdb_controller.go:825-845 | every shard is held to one member fewer than it has, and the answer says whether any was; a StatefulSet that cannot be read ends it with the shards before held back |
| `Shutdown.OneMemberAtATime` | pkg/controller/perconaservermongodb/finalizers.go:164-245 | after a visit and safeDownscale a shard wants its replicas or one fewer: fewer if and only if its single pod is the primary or not ready, or one pod is left of several, or pod 0 of two or more is primary |
| `Shutdown.VisitedSize` | pkg/controller/perconaservermongodb/finalizers.go:164-245 | the size a visit asks for on its own, as the config servers get it: none, the last member, or all as they are |
| `Shutdown.VisitWaits` | pkg/controller/perconaservermongodb/finalizers.go:164-245 | a visit waits for the first primary if and only if all pods are there and the first one answers that it is not primary |
| `Shutdown.ReplicasCountDown` | pkg/controller/perconaservermongodb/psmdb_controller.go:825-845 | over any rounds replicas never rise, fall by at most one a round, and fall in every round that finds all pods there and pod 0 primary, until none is left |
| `Shutdown.SizesChangeInOrder` | pkg/controller/perconaservermongodb/finalizers.go:100-146 | no shard's size changes while a mongos pod exists, no config server's until every shard is gone |
| `Shutdown.SuccessMeansAllGone` | pkg/controller/perconaservermongodb/finalizers.go:100-146 | the shutdown reports success if and only if everything could be read and nothing is left running |
| `Shutdown.PauseIsOrdered` | pkg/controller/perconaservermongodb/psmdb_controller.go:739-778 | in every pause run begun with no StatefulSet above its declared size, StatefulSets are lowered in order: mongos, shards, config servers |
| `Shutdown.DeletionIsOrdered` | pkg/controller/perconaservermongodb/finalizers.go:100-146 | the same in every deletion run begun with complete StatefulSets, none above its declared size, in which mongos pods do not come back |
| `Shutdown.LoweredUnderMongosExactly` | pkg/controller/perconaservermongodb/finalizers.go:103-113 | while mongos pods exist a pass, pausing or deleting, lowers a shard if and only if it writes it and the spec it read already wanted fewer members |
| `Shutdown.OrderBrokenExactly` | pkg/controller/perconaservermongodb/finalizers.go:100-146 | a pass, pausing or deleting, lowers something out of order if and only if it writes a shard under mongos pods, or the config servers ahead of a shard, that the spec it read already wanted smaller; whether it gets to write is told from the pod counts and the answers |
| `Shutdown.LoopOutcome` | pkg/controller/perconaservermongodb/finalizers.go:124-138 | the loop over the shards fails if and only if some visit is not answered or finds no pod to ask, and panics if and only if the first of these is of the second kind |
| `Shutdown.PauseDuringDownscaleBreaksOrder` | pkg/controller/perconaservermongodb/psmdb_controller.go:825-845 | a pause begun during a downscale from five members to three that lowers the shard to four under a mongos pod |
| `Shutdown.MongosReturnBreaksOrder` | pkg/controller/perconaservermongodb/finalizers.go:103-113 | a deletion run that lowers a shard under a mongos pod that came back |
| `Shutdown.MissingShardBreaksOrder` | pkg/controller/perconaservermongodb/finalizers.go:165-171 | a deletion run that lowers the config servers under a shard whose StatefulSet was created late |
| `ShutdownProgress.CanAlwaysShutDown` | pkg/controller/perconaservermongodb/finalizers.go:100-245 | from every cluster, paused or deleted, some run of passes takes every shard and config server down, and the shutdown then reports success |
| `ShutdownProgress.ShardsGo` | pkg/controller/perconaservermongodb/finalizers.go:100-146 | a pass that finds every pod there and first pods primary takes one member from each shard and leaves the config servers alone |
| `ShutdownProgress.ConfigServersGo` | pkg/controller/perconaservermongodb/finalizers.go:139-146 | with the shards gone such a pass takes the config servers down to one member, and the next to none |
| `RetentionHeap.MinHeap.Push` | pkg/controller/perconaservermongodb/backup.go:372-392 | the heap stays a heap and gains exactly the pushed backup |
| `RetentionHeap.MinHeap.Pop` | pkg/controller/perconaservermongodb/backup.go:372-392 | the heap stays a heap and loses exactly the returned backup, which no remaining one is older than |
| `RetentionHeap.RootIsOldest` | pkg/controller/perconaservermongodb/backup.go:376-378 | the root of a heap is no newer than any entry |
| `RetentionHeap.OldScheduledBackups` | pkg/controller/perconaservermongodb/backup.go:329-370 | exactly the Ready backups beyond the number to keep, in creation order, none newer than any that stays; returned and kept together are the Ready ones |
| `RetentionHeap.ReadyOnesExactly` | pkg/controller/perconaservermongodb/backup.go:329-370 | the Ready backups considered are those of the list, each as often as listed |
| `VersionUpgrade.UpgradesAreSuccessors` | pkg/versionservice/upgrade.go:15-40 | for arbitrary strings an upgrade is allowed if and only if the target is the single successor of the FCV in the release chain |
| `VersionUpgrade.ChainSortsFar` | pkg/versionservice/upgrade.go:15-18 | the releases sort in order as strings, so the string guard excludes none |
| `VersionUpgrade.MajorMinorInjective` | pkg/versionservice/upgrade.go:48-56 | two versions have the same text only if major and minor are the same numbers |
| `VersionUpgrade.GrantedMeaning` | pkg/versionservice/upgrade.go:58-111 | a running cluster is granted only its FCV or the FCV's successor; nothing is done exactly when major and minor are unchanged |
| `VersionUpgrade.RequestExactly` | pkg/versionservice/upgrade.go:58-111 | for every setting, reported version and FCV text: nothing to do, unreadable or granted, each if and only if it is due; a starting cluster is granted anything readable |
| `VersionUpgrade.GrantedExactly` | pkg/versionservice/upgrade.go:58-111 | in every reachable state a version is granted if and only if it is the FCV's successor (server at its FCV) or the FCV itself (server one release ahead), for arbitrary versions |
| `VersionUpgrade.StepKeeps` | pkg/controller/perconaservermongodb/psmdb_controller.go:1102-1132 | an apply or an FCV upgrade keeps the reported version at most one release ahead and moves the FCV at most one release up |
| `VersionUpgrade.FcvRaisedExactly` | pkg/controller/perconaservermongodb/psmdb_controller.go:1102-1132 | the FCV is raised if and only if that is asked for, the StatefulSets are up to date and the cluster runs the FCV's successor |
| `VersionUpgrade.NeverMoreThanOneAhead` | pkg/versionservice/upgrade.go:58-111 | over any run from a server at its FCV the reported major.minor is the FCV or its successor |
| `VersionUpgrade.FcvNeverGoesDown` | pkg/controller/perconaservermongodb/psmdb_controller.go:1102-1132 | over any run the FCV stays or moves to a later release |
| `VersionUpgrade.EveryStepIsPossible` | pkg/controller/perconaservermongodb/psmdb_controller.go:1102-1132 | every release can be left for the next one by an apply and an FCV upgrade |
| `VersionJob.StepInv` | pkg/controller/perconaservermongodb/version.go:92-98 | every step of a reconcile or a firing keeps exclusion and alternation |
| `VersionJob.BodiesOverlapNothing` | pkg/controller/perconaservermongodb/version.go:92-98 | in every interleaving no version-job body overlaps a reconcile or another body |
| `VersionJob.ReconcileBetweenBodies` | pkg/controller/perconaservermongodb/psmdb_controller.go:279-288 | between two bodies that pass the compare-and-swap lies a whole reconcile, from its lock to its unlock |
| `VersionJob.FiringWorksExactly` | pkg/controller/perconaservermongodb/version.go:92-98 | in every interleaving a firing that comes to a free mutex does its work if and only if it is the first or a reconcile has finished since the last that did; otherwise it leaves no trace |

## Left out

Assumptions the results rest on, beyond the hypotheses they name:

- The backup's holder identity is the pair of name and UID; the text it is rendered to is not modelled. `Spec.ClusterName` is set, so acquire and release name the same lease.
- A backup's release-lock finalizer is appended to the stored list; the controller's patch replaces the list with its own copy's plus the lock, so a finalizer someone adds in between is lost, which the model does not show.
- Finalizers removed by hand, and leases edited by anyone but the controller, are not modelled.
- Whether PBM has active jobs is an arbitrary answer; nothing is claimed about a backup being started only once.
- A restore's and the cluster sync's use of leases (`checkClusterSyncLease`, `IsLeaseActive`) is not modelled.
- The shrink machine's reconcile is one step with respect to pods and claims, its lists of pods and claims are current except in ShrinkThroughCache, replicas and the requested size stay fixed, and a recreated claim gets the target size. Preflight is reduced to its passing; its checks and the StatefulSet re-creation around the phases are left out.
- In Shutdown a pass is one step with respect to pod counts; arbiter, non-voting, hidden and search members, all sent to zero at once, are left out.
- In PodWait the listed copy of a pod is the pod as it is when it is deleted, though smartUpdate's list comes from a cache.
- In PodWait a pod that is created anew comes from the update revision, and no one else relabels a pod; the update revision does not change during the call.
- The StatefulSet controller of the mongos rollout is the one the code comments describe: ordinals upward, stopping at the first stale pod; OnDelete details are left out.
- Floating point is exact: WiredTiger cache sizes and VPA ratios are reals. Quantities are whole thousandths; the text form and the suffix of a quantity are not kept.
- Container restarts during in-place resizing are left out, as is the default cache ratio.
- Versions are given as parsed segments; splitting `apply` at its dash and semantic-version parsing are left out, and the version service is assumed to answer with the major and minor it was asked for. The latest and recommended strategies are decided by that service. The version read back from the server itself (fetchVersionFromMongo), which also writes the reported version, is left out.

Weaker than the source in form:

- ReplsetUpdate.SmartUpdate: starts where the call turns to the members; the gates before it (backup and restore running, other StatefulSets not current, mongos first), the uninitialised replica set and the non-member path are left out.
- MongosRollout.RollOut: a pod is current or not; moving it in place and the readiness of its container are left out.
- Cancellation.CancelingIsATrap: an ordinary reconcile of a backup nobody cancelled may store any record here, since only cancellation is at issue.
- Cancellation.Canceller.ReadMeta: covers the statuses of a backup in state Canceling; the snapshot executor's copy phase, outside cancellation, is not modelled.
- ClusterFinalizers.CheckFinalizers: foreign finalizers are told apart by number, not by text; the error state is an input, and the conflict of the final update is left out.
- Shutdown.DeleteReplsetPods: the index into an empty pod list of a set of two or more replicas is an outcome of its own, after which nothing is written.
- VersionJob.StepInv: mutex and flag are interleaved steps, not a mutable object.
- Vpa.Component.Reconcile: bounds and window arrive already merged from the cluster-wide and the component's settings; status messages and the removal of stale entries are left out.

Parts of the repository with no model here, because they are plumbing around easy claims or depend on code outside the operator: PVC expansion and storage autoscaling, replica-set member configuration, TLS and certificate rotation, StatefulSet, Service and container builders, users and secrets, PBM configuration and storage destinations, restores, telemetry, the health-check binary and the end-to-end tests.
