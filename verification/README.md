# Runtime protocols, modelled and proved

This project models the crash-tolerant protocols of the station runtime and
proves what they guarantee over every run. A durable ledger row is committed in
SQL; Kubernetes objects are changed one at a time; a call may die after the
cluster changed and before the row is committed, or lose an answer.

* **Application version transition.** `ManagedObjects` holds Deployments,
  Services, annotations and ownership marks. `StoppedReplacement` and
  `StoppedJournal` are the downtime driver and its phase machine, `StoppedRuns`
  the runs (calls in any mode, lost commits, Core changing its rows, controllers
  that lag behind), `StoppedSafety`, `StoppedTheorems` and `StoppedProgress` the
  results.
  `HotReplacement`, `HotConvergence`, `HotJournal` and `HotTheorems` do the same
  for the hot driver. `ManagementJournal` is the record and the guard both share.
* **App instances.** `AppInstances` holds the rows, objects and effects of one
  instance, `AppInstanceJournal` the operations as they run, `AppInstanceRuns`
  its histories, `AppInstanceSafety`, `AppInstanceForward`,
  `AppInstanceTheorems` and `AppInstanceEvidence` the results.
* **Desktop instances.** `Desktops` is the execution ledger and the Pods on one
  volume, `DesktopService` the operations as they run, `DesktopRuns`,
  `DesktopSafety`, `DesktopTheorems` and `DesktopEvidence` histories and results.
* **Volumes and compute.** `VolumeAllocators` is both allocators over both
  tables, `Compute` the Pod request arithmetic against a lifecycle reading,
  `NodeAdmission` the GPU preflight and a node's capacity over every run.
* **Smaller pieces.** `SnapshotBatching`, `TemplateComparison`,
  `PreinstalledSpec` and `ComputePolicy`.

Objects that the program updates in place are classes. Each method is proved
equal to a function on values (a name ending in `Spec`, or the matching
function), and the theorems are about those functions, folded over every
sequence of events.

A crash is a call that completes only so many effects: in the transition a call
with `commits` false keeps its cluster change and drops its record; for
instances `budget` counts the effects, creations, deletions and commits, that
complete before the call dies. A lost answer is the same as dying after the
effect. Business probes, readiness, node and volume inspections are answers that
may be anything.

Some promises hold only under a condition, and then the condition is exact:
restoring marks gives back the whole annotation map only without chart
annotations (`RestoreUndoesMark`); a rebind can put two instances on one claim
name (`RebindKeepsPlacesIff`); an inventory can start with an empty frame
(`EmptyFrameIff`); comparisons chain only without null fields
(`TransitiveIffNullFree`); the strict comparison implies the lenient one only
on trees that cover themselves (`SubsetIsSpecifiedIff`); an object deleted by
someone else is created again only if no checkpoint had recorded it
(`PodRecreatedIff`, `ServiceRecreatedIff`, `SecretRecreatedIff`); an accepted
start can always be resumed only while no other profile's Secret holds the
instance's name, and a profile that changes within its namespace meets just that
(`AlwaysResumable`, `ProfileChangeBlocksIff`, `BlockedStaysPut`).

## Model

| member | source | states |
|---|---|---|
| `ManagedObjects.RestoreManagementMarks` | internal/executor/management_replacement.go:216-224 | The in-place loop over the six managed keys leaves exactly the original's managed keys, presence included, over the other keys of the live map. |
| `ManagedObjects.RestoreUndoesMark` | internal/executor/management_replacement.go:200-224 | Restoring after marking gives the managed keys back always, and the whole annotation map back if and only if the release is no chart or the object already carried the chart's annotations. |
| `ManagedObjects.OwnedIsExclusive` | internal/executor/management_replacement.go:161-163 | No annotation map is owned by the source and by the target release: the template hash alone tells them apart. |
| `ManagedObjects.OwnedFollowsManaged` | internal/executor/management_replacement.go:116-119 | Ownership depends on the managed keys only, never on foreign annotations or the transition marker. |
| `StoppedReplacement.Kubernetes.Capture` | internal/executor/management_replacement.go:121-143 | The capture loop saves the live objects, in order, exactly when the Deployment and every Service match the source; what it saves is a valid checkpoint. |
| `StoppedReplacement.Kubernetes.RoutesGated` | internal/executor/stopped_replacement.go:83-105 | Equals the specification that reports done only when every checkpointed Service is gated and has no endpoint, conflict at the first unknown one. |
| `StoppedReplacement.Kubernetes.Gate` | internal/executor/stopped_replacement.go:109-136 | Equals the specification that closes the first open Service and no other. |
| `StoppedReplacement.Kubernetes.Stop` | internal/executor/stopped_replacement.go:151-171 | Equals the specification: scale to zero behind the gate, then report done only over an observed zero with no Pod left. |
| `StoppedReplacement.Kubernetes.Start` | internal/executor/stopped_replacement.go:173-213 | Equals the specification: a release is written only over a stopped process behind the gate; a running one is only checked. |
| `StoppedReplacement.Kubernetes.OpenRoutes` | internal/executor/stopped_replacement.go:217-254 | Equals the specification that reopens the first gated Service in the direction of the running, ready release and no other. |
| `StoppedJournal.AdvanceStopped` | internal/executor/stopped_journal.go:12-156 | One whole advance of the downtime phase machine, driver effects included, equals the specification on snapshots and records. |
| `StoppedJournal.Release` | internal/executor/stopped_journal.go:19-44 | The release part of the advance: intent first, then reopening, then released; target without checkpoint is a conflict. |
| `StoppedJournal.RestoreSource` | internal/executor/stopped_journal.go:114-143 | The restore part of the advance: stop the target, start the source, verify it. |
| `ManagementJournal.OneDirectionPermitted` | internal/executor/management_journal.go:188-209 | A release of the source and a release of the target are never permitted by the same Core rows, and a target release only when the target is published at the expected revision plus one. |
| `StoppedSafety.ServiceRecognised` | internal/executor/stopped_replacement.go:56-81 | A captured, a gated and a reopened Service are each classified as what they are; reopening a gated one towards the source gives the captured object back. |
| `StoppedSafety.CapturedIsUnmarked` | internal/executor/management_replacement.go:121-143 | A Service still fenced by another operation's gate is refused by the capture, so a checkpoint holds no gated Service. |
| `StoppedSafety.RoutesRecognised` | internal/executor/stopped_replacement.go:83-105 | Over the driver's own work the routing barrier never conflicts and is done if and only if every Service is gated and drained. |
| `StoppedSafety.StopKeeps` | internal/executor/stopped_replacement.go:151-171 | Stopping keeps which release the Deployment shows, and conflicts if and only if some Service is not gated and drained. |
| `StoppedSafety.StartKeeps` | internal/executor/stopped_replacement.go:173-213 | Starting writes the asked release only over a gone process and is done only when that release is ready; when it conflicts is characterised exactly. |
| `StoppedSafety.AdvanceKeeps` | internal/executor/stopped_journal.go:12-156 | Every advance leaves objects that fit both the old record, if the commit is lost, and the new one. |
| `StoppedSafety.AtMostOneUpdate` | internal/executor/management_journal.go:146-147 | One call changes at most one Service or the Deployment, whatever the cluster holds. |
| `StoppedTheorems.AdvanceFollows` | internal/executor/stopped_journal.go:12-156 | Every phase change a call may commit is in the listed relation, the record stays decodable, the checkpoint is kept, prepared comes only from verifying. |
| `StoppedTheorems.AdvanceIsLicensed` | internal/executor/stopped_journal.go:12-156 | No call changes the phase without what the new one needs: sealing and prepared an ok answer of the ready release, applying a gone process, verifying and the releases a ready one, restored an answer of the ready source. |
| `StoppedTheorems.GuardedStopIsChecked` | internal/executor/stopped_journal.go:83-132 | A guarded application's process is scaled to zero only in a call in which it was ready and answered ok: the source while sealing, the target while restoring. |
| `StoppedTheorems.CallKeeps` | internal/executor/management_journal.go:164-287 | A reconcile call keeps ledger, cluster and history related whether its commit happens or is lost. |
| `StoppedTheorems.ControllerKeeps` | internal/executor/stopped_replacement.go:138-149 | Controller steps (reading a stale Deployment, creating Pods from it, routing) keep ledger and cluster related. |
| `StoppedTheorems.VersionsNeverCoexist` | internal/executor/stopped_replacement.go:138-213 | In every run, although the controller lags, every Pod was made from the current Deployment's own template and carries its version, so all Pods run one template and source and target Pods never coexist; a Pod of the target's version runs the target's template under the compute policy. |
| `StoppedTheorems.TargetVersionRunsTarget` | internal/executor/stopped_replacement.go:173-213 | A Deployment that carries the target's template hash holds the target's template under the compute policy. |
| `StoppedTheorems.PreflightChangesNothing` | internal/executor/stopped_journal.go:61-82 | In every run, before a checkpoint, after a rejected preflight and after a busy one the operation has changed no object. |
| `StoppedTheorems.ReplacementIsRecordedAndGated` | internal/executor/stopped_journal.go:83-113 | In every run a target Deployment implies a recorded applying phase; applying, verifying and prepared imply every Service gated and drained. |
| `StoppedTheorems.NoPrematureOpening` | internal/executor/stopped_replacement.go:217-254 | In every run a Service marked for or routing to the target implies a call in the verifying phase to which the target, up and ready, answered ok, a recorded releasing_target, and a target release call that found the target published at the next revision. |
| `StoppedTheorems.ReleasedRoutesAreExact` | internal/executor/stopped_journal.go:19-44 | In every run released_source means every Service is the captured object itself over the source's one replica, released_target that it is the captured object opened onto the target's one replica. |
| `StoppedTheorems.NeverConflictsWithItself` | internal/executor/stopped_replacement.go:34-81 | In every run every object is classified, and the driver's operations conflict only for the reasons named. |
| `StoppedTheorems.RunsMoveForward` | internal/executor/stopped_journal.go:19-58 | Over any continuation of any run the checkpoint is permanent, the phase keeps or rises in a fixed order, and a release keeps its direction. |
| `StoppedTheorems.NoStartAfterTurningBack` | internal/executor/stopped_journal.go:48-58 | After a canceled, recovering, restoring or restored record the Deployment never becomes the target's again, and a target that is or was stopped never gets a process again. |
| `StoppedTheorems.GoneIsStable` | internal/executor/stopped_replacement.go:138-149 | Once the process is seen gone, no controller activity before the driver's write can bring a Pod of the old release back. |
| `StoppedProgress.ReturnsToSource` | internal/executor/stopped_journal.go:114-143 | From every reachable unreleased state with a checkpoint, four willing restore calls, the controllers catching up in between, reach restored with the source's one replica. |
| `StoppedProgress.ReleaseFinishes` | internal/executor/stopped_journal.go:19-44 | From every reachable prepared, restored or releasing state one release call for each Service and two more reach released. |
| `StoppedProgress.PreparationFinishes` | internal/executor/stopped_journal.go:83-113 | From every reachable sealing, applying or verifying state one prepare call for each Service and five more reach prepared, if there are Services and neither release has a fencing label of its own. |
| `StoppedProgress.CatchesUp` | internal/executor/stopped_replacement.go:138-149 | The rollout and drain those calls wait for is something the controllers can do from any state. |
| `HotReplacement.Apply` | internal/executor/management_replacement.go:171-214 | The apply loop equals its specification: first unmarked Service, else the Deployment, one update. |
| `HotReplacement.RestoreObjects` | internal/executor/management_replacement.go:228-274 | The restore loop equals its specification: the Deployment first, then the first marked Service, one update. |
| `HotReplacement.ServiceTold` | internal/executor/management_replacement.go:188-206 | A Service the driver left is recognised as captured or as marked, exactly one of the two. |
| `HotReplacement.DeploymentTold` | internal/executor/management_replacement.go:176-184 | A Deployment the driver left is recognised as original or replaced, exactly one of the two, and each update moves it to the other side. |
| `HotConvergence.ApplyStep` | internal/executor/management_replacement.go:171-214 | From every mixture of captured and marked objects an apply never conflicts, moves exactly one more object, and is done exactly when all moved and the Deployment is ready. |
| `HotConvergence.RestoreStep` | internal/executor/management_replacement.go:228-274 | From every such mixture a restore never conflicts and brings exactly one object back, or waits for the rollout. |
| `HotConvergence.RestoreConverges` | internal/executor/management_replacement.go:228-274 | A restore needs exactly as many updates as objects were moved, at most one per Service plus one; it reports done exactly then, with every object back at its checkpoint; all along, no annotation outside the six managed keys changes on any object. |
| `HotConvergence.RestoreKeepsOthers` | internal/executor/management_replacement.go:216-274 | A restore call changes no annotation outside the six managed keys on the Deployment or any Service, whatever the cluster holds. |
| `HotConvergence.BackIsExact` | internal/executor/management_replacement.go:216-224 | For a release that is no chart, a Service that is back equals the captured Service. |
| `HotJournal.AdvanceManagement` | internal/executor/management_journal.go:329-407 | One whole advance of the hot phase machine equals its specification. |
| `HotJournal.AdvanceManagementRelease` | internal/executor/management_journal.go:409-440 | The hot release equals its specification: intent, proof, released; from a canceled source too. |
| `HotTheorems.HotAdvanceFollows` | internal/executor/management_journal.go:329-440 | Every phase change a hot call may commit is in the listed relation; a checkpoint never changes; only a capture creates one. |
| `HotTheorems.HotAdvanceIsLicensed` | internal/executor/management_journal.go:329-440 | No hot call changes the phase without the maintenance answer the new one needs: the sealed source before applying, the verified target before prepared, the proved source before restored, the opened release before released. |
| `HotTheorems.AdvanceKeepsShape` | internal/executor/management_journal.go:329-407 | A hot call leaves objects that fit the old and the new record, and moves at most one object: towards the target only when applying, back only when restoring. |
| `HotTheorems.HotPreflightChangesNothing` | internal/executor/management_journal.go:346-370 | In every run nothing is changed until the source is sealed, nor by a canceled transition. |
| `HotTheorems.HotEndsAreComplete` | internal/executor/management_journal.go:371-440 | In every run prepared and target releases have every object moved after a call in the verifying phase whose maintenance answered ok and, for a release, one that found the target published; restored and source releases have every object back; either way the Services' foreign annotations are the captured ones and the Deployment's are what its controllers alone wrote. |
| `HotTheorems.HotLeavesForeignAlone` | internal/executor/management_replacement.go:171-274 | In every run the Deployment's foreign annotations are what its controllers alone would have left, whatever was applied and restored. |
| `HotTheorems.HotNeverConflictsWithItself` | internal/executor/management_replacement.go:171-274 | In every run neither apply nor restore takes the driver's own partial work for a conflict. |
| `HotTheorems.HotRunsMoveForward` | internal/executor/management_journal.go:329-440 | Over any continuation of any run: the checkpoint is permanent, a release keeps its direction, and after turning back no object is ever moved to the target again. |
| `AppInstanceJournal.Journal.Accept` | internal/appinstances/journal.go:107-181 | Accepting a start equals its specification: replay, first generation 1, else the next after a stopped one; the same profile inherits the instance's Secret, a changed one takes over what the read of its namespace shows; it keeps the instance's invariant. |
| `AppInstanceJournal.Journal.Checkpoint` | internal/appinstances/journal.go:254-288 | A checkpoint equals its specification: only monotone observations, only accepted or launching rows, running exactly with a boot ID of a ready Pod. |
| `AppInstanceJournal.Journal.EnsureWorker` | internal/appinstances/ensure.go:45-167 | Ordered creation with a checkpoint after each effect, cut short after any number of effects, equals its specification. |
| `AppInstanceJournal.Journal.AdvanceResources` | internal/appinstances/journal.go:350-381 | Advancing an accepted start equals its specification and keeps the instance's invariant. |
| `AppInstanceJournal.Journal.CommitStop` | internal/appinstances/stop_journal.go:81-122 | One stop commit equals its specification: the next stage only, the same proof, start and stop rows together. |
| `AppInstanceJournal.Journal.BeginStop` | internal/appinstances/stop_journal.go:47-79 | Accepting or resuming a stop equals its specification. |
| `AppInstanceJournal.Journal.RemoveWorker` | internal/appinstances/remove.go:23-153 | The removal, cut short after any number of effects, equals its specification. |
| `AppInstanceJournal.Journal.Stop` | internal/appinstances/stop_journal.go:126-165 | The whole stop equals its specification and keeps the instance's invariant. |
| `AppInstanceSafety.CheckpointKeeps` | internal/appinstances/journal.go:254-288 | A checkpoint of the live objects, by a start that passed the launch's validation of the Secret's name, keeps rows, objects and history in agreement. |
| `AppInstanceSafety.EnsureKeeps` | internal/appinstances/ensure.go:45-167 | However a launch ends, rows, objects and history agree; if it succeeds the row records exactly the live objects. |
| `AppInstanceSafety.RemoveKeeps` | internal/appinstances/remove.go:23-153 | However a removal ends, rows, objects and history agree. |
| `AppInstanceSafety.StepKeeps` | internal/appinstances/journal.go:297-381 | Every call and every disappearance of an object keeps the instance's invariant. |
| `AppInstanceTheorems.GenerationsAndStops` | internal/appinstances/stop_journal.go:24-122 | In every history generations are 1..n with all but the last stopped; stopping and stopped if and only if the one stop record is unfinished or finished; running means a boot ID on a ready Pod. |
| `AppInstanceTheorems.CreatedOnceInOrder` | internal/appinstances/ensure.go:45-167 | In every history one Secret per instance and profile change and one Service and Pod per run are created, in that order, unless someone else deletes an object no checkpoint had recorded; when such a deletion leads to a second creation is stated by the three rows below. |
| `AppInstanceTheorems.PodRecreatedIff` | internal/appinstances/ensure.go:45-167 | After any history, a launching run's Pod that someone else deletes is made again by an uninterrupted call if and only if no checkpoint had recorded it and its Service and Secret are there (in a history without earlier foreign deletions: if and only if it was unrecorded); otherwise the call changes nothing. |
| `AppInstanceTheorems.ServiceRecreatedIff` | internal/appinstances/ensure.go:45-167 | The same for the Service: made again if and only if it was unrecorded and the Secret is there; an unrecorded Service has no Pod. |
| `AppInstanceTheorems.SecretRecreatedIff` | internal/appinstances/ensure.go:45-167 | The same for the Secret: made again if and only if it was unrecorded; an unrecorded Secret has neither Service nor Pod. |
| `AppInstanceTheorems.UnrecordedLossRecreates` | internal/appinstances/ensure.go:112-131 | A concrete history in which a Secret is created a second time. |
| `AppInstanceTheorems.DeletionsAreIntended` | internal/appinstances/remove.go:97-153 | In every history a Pod deletion follows a committed sealed proof of that Pod with the boot ID and generation of its run's row, and a committed intent with the same proof; a Service deletion the committed absence of the Pod and its own intent, each with a proof of its run's row; no Secret is deleted. |
| `AppInstanceTheorems.StopStagesAreTrue` | internal/appinstances/remove.go:21-96 | In every history the committed stage describes the cluster: from pod_deleted on the Pod is gone, at stopped the Service is. |
| `AppInstanceTheorems.RecordedIsLive` | internal/appinstances/journal.go:254-264 | In every history a recorded UID is the live object's or the object is gone, the Secret's as long as the profile stays. |
| `AppInstanceTheorems.NothingIsTakenBack` | internal/appinstances/journal.go:254-288 | Over any continuation recorded UIDs, boot IDs, proofs and stages are permanent, and an acknowledged object that is gone is never recreated, the Secret as long as the profile stays. |
| `AppInstanceTheorems.AlwaysResumable` | internal/appinstances/ensure.go:37-44 | Whatever crashes came before, one uninterrupted call brings an accepted start to running when nobody else deleted its objects, if and only if no other profile's Secret holds the instance's name. |
| `AppInstanceTheorems.ProfileChangeBlocksIff` | internal/appinstances/journal.go:143-167 | A start accepted under a changed profile finds the name held by another profile's Secret if and only if it stays in the namespace and the old Secret is there, or the read of the new namespace shows one. |
| `AppInstanceTheorems.BlockedStaysPut` | internal/appinstances/ensure.go:80-91 | Such a start is stuck: over any continuation no call changes any start row until someone deletes that Secret. |
| `AppInstanceTheorems.ThreeCallsStop` | internal/appinstances/remove.go:23-153 | From any committed stage three or more calls finish the stop when the deletions they request finish in between. |
| `AppInstanceForward.StepForward` | internal/appinstances/journal.go:254-288 | One step never takes back a recorded UID, boot ID, proof or stage, nor recreates an acknowledged object. |
| `AppInstanceEvidence.SealIsAnswered` | internal/appinstances/stop_journal.go:140-160 | A stop is sealed only in a call of its own in which the stopper answered over the recorded Pod, Service and Secret. |
| `AppInstanceEvidence.BootIsAnswered` | internal/appinstances/journal.go:350-381 | A start begins to run only in a call of its own in which its Pod was ready and gave the boot ID that is recorded. |
| `Compute.SumResources` | internal/instances/compute.go:41-47 | The ranging loop computes the resource-wise sum, whatever the order. |
| `Compute.MaxResources` | internal/instances/compute.go:49-56 | The ranging loop computes the resource-wise maximum with absent read as zero, whatever the order. |
| `Compute.PodRequests` | internal/instances/compute.go:60-97 | The one-pass computation with its three accumulators equals its fold specification. |
| `Compute.PassIsStages` | internal/instances/compute.go:82-92 | After any number of init containers the accumulators hold the sidecars' demand, the running total and the highest stage so far. |
| `Compute.RequestsArePeak` | internal/instances/compute.go:58-97 | For non-negative quantities the result is, per resource, the larger of the Pod-level request and the highest lifecycle stage, plus overhead. |
| `Compute.PeakIsUnique` | internal/instances/compute.go:58-97 | Only one number is that peak, so the lifecycle reading determines the result. |
| `NodeAdmission.AdmitWorker` | internal/instances/compute.go:102-169 | The preflight's loops equal their specification, in either order of the two wanted resources. |
| `NodeAdmission.UsedIsLoad` | internal/instances/compute.go:136-153 | What the preflight accumulates is the GPU load and the number of live or matching pending Pods. |
| `NodeAdmission.NodeNeverOvercommitted` | internal/instances/worker.go:219-248 | Over every run with lost answers, replays and a node that loses no room, GPU requests and Pod count stay within what the node can allocate. |
| `VolumeAllocators.Station.FindVolume` | internal/instances/storage_store.go:67-100 | The search over the registered claims equals its first-fit specification. |
| `VolumeAllocators.Station.ReserveForApp` | internal/appinstances/journal.go:183-252 | The App allocator, rebinding included, equals its specification. |
| `VolumeAllocators.Station.ReserveForDesktop` | internal/instances/storage_store.go:48-101 | The desktop allocator equals its specification. |
| `VolumeAllocators.Station.RetainDesktop` | internal/instances/storage_store.go:122-139 | Retaining marks the instance's row and changes nothing else. |
| `VolumeAllocators.SearchIsFirstFit` | internal/appinstances/journal.go:217-251 | Capacity is reported if and only if every claim is used or fails inspection; a found volume is the first that fits and collides with no row of either table. |
| `VolumeAllocators.InsertsNeverCollide` | internal/appinstances/journal.go:217-251 | No insert duplicates a PV, a PVC or a station, namespace and name; no other write changes a row's PV; one call writes one row. |
| `VolumeAllocators.PVsNeverShared` | internal/appinstances/journal.go:183-252 | In every run no PV is held by two rows across both tables, rebound rows included. |
| `VolumeAllocators.ReservingAgain` | internal/instances/storage_store.go:54-66 | Reserving again returns the existing row or an error, never a second row, and after a success the same answer. |
| `VolumeAllocators.RebindKeepsPlacesIff` | internal/appinstances/journal.go:198-212 | A rebind keeps names unique if and only if no other row holds the new place. |
| `VolumeAllocators.RebindCanShareAPlace` | internal/appinstances/journal.go:198-212 | Such a collision is within reach: two reservations in two namespaces and one rebind put two instances on one claim name. |
| `SnapshotBatching.SendSnapshotObjects` | internal/appstate/observer.go:304-325 | The loop sends exactly the specified frames as far as the stream takes them, and reports the matching outcome. |
| `SnapshotBatching.BatchesConserve` | internal/appstate/observer.go:307-324 | From any point of the loop the remaining frames are bounded and concatenate to the waiting objects, complete if and only if every object can be sent. |
| `SnapshotBatching.SnapshotIsConserved` | internal/appstate/observer.go:304-325 | Success if and only if every object fits; then the frames concatenate to the inventory; each holds at most 500 objects and, with its envelope, at most 2^20 bytes. |
| `SnapshotBatching.EmptyFrameIff` | internal/appstate/observer.go:313-318 | A frame without objects is sent if and only if the first object encodes to exactly 2^20-512 bytes. |
| `TemplateComparison.SubsetReflexive` | internal/executor/adoption.go:17-44 | Every tree is a declared subset of itself. |
| `TemplateComparison.SubsetTransitive` | internal/executor/adoption.go:17-44 | A null-free declaration is carried along a chain of comparisons. |
| `TemplateComparison.TransitiveIffNullFree` | internal/executor/adoption.go:17-44 | A declaration is carried along every chain if and only if it declares no field as null. |
| `TemplateComparison.NullBreaksTransitivity` | internal/executor/adoption.go:24-28 | The smallest broken chain, with a null field. |
| `TemplateComparison.FindPartner` | internal/executor/helm_lifecycle.go:402-419 | The local search pairs a wanted element with the first live one of its name, else with the one at its index. |
| `TemplateComparison.SubsetIsSpecifiedIff` | internal/executor/helm_lifecycle.go:383-428 | The strict comparison implies the lenient one for every declaration if and only if the live tree covers itself: each named list element holds up against the first of its name and, name aside, the one at its index, and what that one adds is null. |
| `TemplateComparison.SubsetIsSpecified` | internal/executor/helm_lifecycle.go:383-428 | In particular it does when the live lists name their elements distinctly. |
| `TemplateComparison.SameNamesDiffer` | internal/executor/helm_lifecycle.go:402-419 | With repeated names it need not: a concrete tree. |
| `PreinstalledSpec.EditList` | internal/executor/preinstalled_spec.go:40-76 | The loop edits every object of the list at a field and nothing else. |
| `PreinstalledSpec.WriteDefaults` | internal/executor/preinstalled_spec.go:36-38 | Ranging over a table writes each default only where the field is missing. |
| `PreinstalledSpec.NormalizePod` | internal/executor/preinstalled_spec.go:35-92 | The in-place Pod normaliser equals its specification. |
| `PreinstalledSpec.NormalizeDeployment` | internal/executor/preinstalled_spec.go:93-109 | The in-place Deployment normaliser equals its specification. |
| `PreinstalledSpec.EditsFix` | internal/executor/preinstalled_spec.go:39-91 | Idempotent edits at different fields leave each other's work fixed and add or drop no field. |
| `PreinstalledSpec.NormalisingTwice` | internal/executor/preinstalled_spec.go:93-109 | Normalising a Deployment a second time changes nothing. |
| `PreinstalledSpec.ExactIsEquivalence` | internal/executor/preinstalled_spec.go:121-126 | Exact comparison is an equivalence that sees neither omitted defaults nor the replica count. |
| `PreinstalledSpec.PodKeepsDeclared` | internal/executor/preinstalled_spec.go:35-92 | Normalising a Pod changes and removes nothing it declares. |
| `PreinstalledSpec.EqualPodsAgree` | internal/executor/preinstalled_spec.go:14-15 | Pods that compare equal agree on every field without a default, and so do their containers. |
| `ComputePolicy.Declared` | internal/computepolicy/policy.go:17-41 | The scan finds a CPU or memory declaration exactly when some container or the Pod has one. |
| `ComputePolicy.Apply` | internal/computepolicy/policy.go:43-73 | The in-place strip equals its specification. |
| `ComputePolicy.PolicyIsIdempotent` | internal/computepolicy/policy.go:43-73 | The enabled policy is idempotent, leaves nothing declared, and keeps every other entry, every claim and the rest of every container. |
| `ComputePolicy.UndeclaredIsUntouched` | internal/computepolicy/policy.go:17-73 | The policy leaves a Pod alone if and only if it declares neither resource and has no empty Pod-level block. |
| `DesktopService.Service.EnsureMounted` | internal/instances/worker.go:170-263 | Ensuring a Pod with its Service, cut short after any effect, equals its specification: mounts are checked before the first creation. |
| `DesktopService.Service.RemoveMounted` | internal/instances/stop.go:222-277 | Removing a Pod with its Service, cut short after any effect, equals its specification; gone only when both were found absent. |
| `DesktopService.Service.CreateInstance` | internal/instances/create.go:108-251 | One create call equals its specification; it keeps ledger and Pods in agreement. |
| `DesktopService.Service.StartInstance` | internal/instances/start.go:70-296 | One start call equals its specification: acceptance, replacement, recovery stages, launch; it keeps ledger and Pods in agreement. |
| `DesktopService.Service.AcceptNewStart` | internal/instances/start.go:127-164 | Accepting a new start equals its specification, by the newest row. |
| `DesktopService.Service.AdvanceSavedRecovery` | internal/instances/saved_recovery.go:85-139 | One recovery stage equals its specification. |
| `DesktopService.Service.LaunchWorker` | internal/instances/start.go:220-296 | Launching, loading and the turn into a recovery equal their specification. |
| `DesktopService.Service.StopInstance` | internal/instances/stop.go:85-218 | One stop call equals its specification; it keeps ledger and Pods in agreement. |
| `DesktopService.Service.DestroyInstance` | internal/instances/destroy.go:40-185 | One destroy call equals its specification; it keeps ledger and Pods in agreement. |
| `DesktopSafety.EnsureKeeps` | internal/instances/preparer.go:187-264 | A Pod is only made over an unmounted volume and as the newest row licenses it. |
| `DesktopSafety.StepKeeps` | internal/instances/start.go:70-296 | Every call and every disappearance keeps ledger and Pods in agreement. |
| `DesktopTheorems.MountedOnce` | internal/instances/storage.go:163-176 | In every history at most one of preparer, workers and recovery reader exists on the volume. |
| `DesktopTheorems.EndedIsUnmounted` | internal/instances/stop.go:201-208 | In every history no Pod is left once a create or stop succeeded or a destroy was accepted. |
| `DesktopTheorems.DeletedOnlyWithEvidence` | internal/instances/stop.go:169-208 | In every history a Pod is being deleted only while the newest row holds the evidence for this very UID: a proved preparation, a worker that has run to its end and is replaced or recovered from, an adoptable observed copy, or a sealed drain. |
| `DesktopTheorems.WorkersLoadTheLedger` | internal/instances/saved_recovery.go:37-47 | In every history a worker was told to load the effective content of its start, or the content it failed on while it is being removed. |
| `DesktopTheorems.LedgerIsRounds` | internal/instances/destroy.go:72-88 | In every history the ledger is one create, rounds of starts and stops, at most one final destroy; only the newest row can be running; a stop ends the start before it and succeeds only sealed. |
| `DesktopTheorems.RestartContinues` | internal/instances/start.go:127-164 | In every history an accepted start's source is where the ledger stood: the created source, the content the last stop sealed, or the effective content of the start it replaces. |
| `DesktopTheorems.NothingIsRewritten` | internal/instances/start.go:173-175 | From any state on requests are immutable, finished rows frozen, and a retained volume stays retained. |
| `DesktopEvidence.EveryStepIsAnswered` | internal/instances/stop.go:169-208 | No call takes a row further than its answers and the Pods it found allow: proved and loaded only with the answering Pod in place, sealed only over the untouched worker, ended only over an unmounted volume. |

## Left out

- Maintenance, worker and dashboard probes: each is an answer of ok, busy, conflict or unavailable; for the downtime driver it is bound to the live Deployment.
- API read errors and resourceVersion conflicts: a call that meets one has no effect, which is a call that does not happen.
- Service names and namespaces: a transition's Services are matched by position, and the allocators' claims by name.
- The station compute policy is fixed during a transition; a Pod template is split into its CPU and memory declarations and the rest.
- The Helm managed-by label that marking a chart release writes.
- Endpoint controllers follow the current selector of a Service; no other client edits a transition's objects. A gate that an earlier operation left behind still fences its Service when a transition begins.
- Request hashes, profile hashes and operation identifiers are injective tags; UUID and regular expression checks are not modelled.
- SQL text, isolation and constraints: tables are values, transactions are atomic, and the advisory locks make the calls of one instance, station or node sequential.
- App instances: a call that is not authorized, or names another profile than its row, does not happen; what holds the Secret's name in a changed profile's namespace is an answer.
- Desktop instances: credentials are an answer, and the workspace reservation is one flag beside `VolumeAllocators`; the cleaner Pod runs outside the instance lock and is not one of the Pods counted by MountedOnce.
- MountedOnce: counts the runtime's own Pods; that Pods created by others do not mount the claim is what the inspection answer stands for.
- NodeNeverOvercommitted: assumes, as the program's comment does, that Pods that can land on the node are created only behind the preflight; preparers and readers, which are not, are outside it.
- Exact Kubernetes object shapes, the Service normaliser and the network consumer exceptions of the replacement's constructor: only easy members.
- HTTP and gRPC handlers, Helm execution, registry fetching, workspace listing and release, the state observer's timing: plumbing around the modelled core.
