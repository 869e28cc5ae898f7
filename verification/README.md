# Verified models of EKS Anywhere's controllers and cluster tooling

This project models the hard core of EKS Anywhere in Dafny and proves what it is for.
`dafny verify dfyconfig.toml` checks everything.

## What is modelled

**In-place upgrades** (`UpgradeModel`, `UpgradeInvariant`, `UpgradeInterference`,
`ApiServer`, `OwnerControllers`, `UpgradeControllers`, `NodeUpgradeController`,
`UpgradeTheorems`, `UpgradeProgress`, `UpgradeEvents`, `UpgradeLeftovers`, `MachineSets`).
Five controllers cooperate through API objects only: KubeadmControlPlane or
MachineDeployment creates the upgrade object and pauses the health check;
ControlPlaneUpgrade or MachineDeploymentUpgrade creates NodeUpgrades one at a time;
NodeUpgrade runs the upgrader pod. The model has two levels:

- a state machine whose steps are single API calls, with a guard for each call; all
  theorems about runs are about this machine, under every interleaving;
- the five reconcilers as methods that make these calls one by one. Before each call
  the other controllers, the kubelet and the users may make any number of guarded
  steps. A call may be lost, or take effect and still report an error. `Valid()` of the
  API server says that the current world is reached by a run, so the proof of a
  reconciler shows that each of its calls meets its guard, whatever fails. On a `quiet`
  server (no faults, no interference) its effect is given exactly, as a function.

An upgrade object may meet NodeUpgrades and upgrader pods of earlier upgrades of the
same machines. The guards promise safety when these leftovers are harmless, and more
(order, and that no pod is orphaned) when there are none, which is called a clean start.
`SafeExactlyIfHarmless` shows that safety needs exactly the first.
A leftover is harmless if no reconcile of the NodeUpgrade is in flight, the pod, if any,
has the target version and is not done, and the NodeUpgrade, if any, is not completed
and has the target version, or is deleting and either has no pod or belongs to workers.

**Concurrent image processor** (`ImageProcessor`): feeder, workers and collector over
unbuffered channels, as a state machine of their interleaved steps.

**Versioned templates** (`Names`, `TemplateHistory`, `TemplateNames`, `ControlPlaneHistory`): the `base-N`
names, the rounds that pick a name for the desired content, and the worker group whose
deployment refers to two templates.

**Cluster reconciler** (`Generations`, `ClusterLifecycle`, `ClusterController`): the sum
of the children's generations as a change test, and deletion behind a finalizer, with
the reconciler as a method under interference and faults.

**Mover** (`Mover`), **dotted configuration keys** (`ConfigTree`, `Configurations`),
**redaction of credentials** (`Redaction`), **health check defaults**
(`HealthCheckDefaults`).

## Assumptions

- Reads are current, and one object is reconciled by one reconcile at a time.
- A patch is atomic: finalizer and status are persisted together.
- A container that exited with 0 stays so while its pod exists. Other terminated
  containers may run again, because upgrader pods are restarted on failure.
- Machine names in one upgrade are distinct, and each machine has its own node.
- A clean start, where a theorem says so: no NodeUpgrade, upgrader pod or running
  NodeUpgrade reconcile for the listed machines when the upgrade object is created.
- The status version of a control plane and the versions of the listed workers are
  whatever others report, at any moment.
- Only the protocol deletes upgrade objects and NodeUpgrades. Nobody else clears the
  annotation, pauses or resumes the health check, edits the MachineSet, or edits or
  removes the listed Machines, their KubeadmConfigs and infrastructure machines.
- At the start of a run, NodeUpgrades that exist already are as the controllers leave them:
  one that is deleting or completed has its finalizer, and a completed one has no
  unfinished pod.
- What a NodeUpgrade reconcile has read before an upgrade object is created is not
  known, so a reconcile that is in flight then counts as a harmful leftover.
- Cluster reconciler: only its provider phase creates the CAPI cluster; nobody else
  touches its finalizer or the reconciled generations; no new Cluster object takes
  the name of a vanished one while a round on the old one is in flight; a round reads
  all children at one moment; a uid is never used again, an object keeps its content
  while it has the same uid and generation, and the sum of all generations stays below
  2^64.
- Template comparators decide an equivalence on contents; contents stand for its classes.
- Mover: nobody else unpauses or removes the paused source Cluster, and nobody else
  writes the moved objects on the target.

## Findings

Properties that the code does not have in general. For each of them there is a failing
run or input, and the exact condition under which the property holds.

- NodeUpgrades and upgrader pods are named after the machine only. A leftover that is
  not harmless makes a new upgrade finish although that machine was not upgraded
  (`LeftoversBreakSafety`), and every continuation is safe if and only if all leftovers
  are harmless (`SafeExactlyIfHarmless`).
- A MachineDeploymentUpgrade is called ready even if its MachineSet was not patched
  (`ReadyWithoutMachineSet`). It is patched exactly if updating it worked in some
  reconcile that found all nodes done (`MachineSetPatchedExactly`).
- When the upgrader pod cannot be read, the conditions are reset except that of the
  post-upgrade clean-up, although the helper that does it is named for all
  (`LostPodLeavesCleanup`, `AllFalseExactlyIfNotCleanedUp`).
- Cancelling from outside makes `Process` return without an error although images
  were not processed (`CancelledBeforeTheStart`, `AllProcessedExactlyIfInTime`).
- A kubeadm config template is written before its deployment. A round that is
  interrupted in between leaves a template that a later round may overwrite, also after
  the old content had been restored (`StaleConfigIsOverwritten`, `GroupNamesAreBound`).
- The change test of the cluster reconciler misses a child that is recreated with the
  same generation, and a machine config that is edited to refer to a template whose
  generation is smaller by one (`RecreatedChildIsMissed`, `ReroutedChildIsMissed`,
  `ReconciliationIsSkippedExactly`).
- A Cluster object can vanish before its CAPI cluster until the finalizer is persisted
  (`VanishesFirstExactlyIfUnprotected`).
- A complete round is not skipped by the next one if it wrote a default version into the
  spec (`CompleteRoundSettles`).
- Configuration keys that are not prefix-free make the result depend on the order of a
  map: one order ends in a failing type assertion, another drops a value
  (`SomeOrderFails`, `LongerFirstDrops`, `FaithfulExactlyIfPrefixFree`).
- A selected credential can stay in the logged command exactly if it begins or ends
  with the mask character or contains the mask (`ComesBackExactlyIfNotResistant`).

## Model

| member | source | states |
|---|---|---|
| `UpgradeInvariant.RunKeepsInv` | controllers/controlplaneupgrade_controller.go:80-306 | every run keeps the protocol invariant: pairing; counters that add up; per machine what may be taken for its upgrade, if leftovers were harmless; order and the look of NodeUpgrades and pods after a clean start |
| `UpgradeInterference.RelyStep` | controllers/controlplaneupgrade_controller.go:97-126 | what each reconciler may still rely on after a step of any other actor, for all pairs of actors |
| `UpgradeTheorems.EndToEndSafety` | controllers/kubeadmcontrolplane_controller.go:137-154 | when the annotation of a life with harmless leftovers, or none, is cleared, each listed machine's pod ran its six containers to exit 0 in that life, for a control plane machine, KubeadmConfig and infrastructure machine carry the target, and the versions that the owner looks at had been seen at the target in that life |
| `UpgradeTheorems.LifeRecord` | controllers/nodeupgrade_controller.go:283-342 | a success is recorded exactly if some step of the same life took an unfinished pod to all containers exited with 0 |
| `UpgradeTheorems.OneNodeAtATime` | controllers/controlplaneupgrade_controller.go:168-204 | in every reachable live state the machines with a NodeUpgrade are a prefix of the list, all but the last are completed, exactly index 0 of a control plane is first, and each pod is of the kind for its place: worker, first or secondary control plane |
| `UpgradeTheorems.RightPodForEachMachine` | controllers/nodeupgrade_controller.go:183-194 | in every run of a clean life, also while it ends: workers have worker pods, machine 0 of a control plane has the first-control-plane pod and every other machine the secondary one |
| `UpgradeTheorems.DeletedOnlyIfObserved` | controllers/kubeadmcontrolplane_controller.go:137-154 | in every run an upgrade object is deleted only after the status version of the control plane, or the version of every listed worker, was seen at the target in its life |
| `UpgradeTheorems.CountersAddUp` | controllers/controlplaneupgrade_controller.go:259-261 | in every run upgraded and required add up to the number of machines and ready means that none is required, or nothing has been counted yet |
| `UpgradeTheorems.HealthCheckPairing` | controllers/kubeadmcontrolplane_controller.go:117-179 | after every API call: a live upgrade object means a paused check and a set annotation; no annotation means the check is not paused |
| `UpgradeTheorems.NoOrphans` | controllers/controlplaneupgrade_controller.go:206-228 | in every life, once the upgrade object is gone its NodeUpgrades are gone or deleting; after a clean start, once a NodeUpgrade is gone its pod is gone or deleted |
| `UpgradeTheorems.DeletionFindsFinalizer` | controllers/controlplaneupgrade_controller.go:128-133 | each deletion that the protocol starts finds the finalizer persisted |
| `UpgradeTheorems.VanishesOnlyAfterTheEnd` | controllers/controlplaneupgrade_controller.go:206-228 | a NodeUpgrade of a clean life vanishes only after the upgrade object was deleted |
| `UpgradeTheorems.NeverRecreated` | controllers/nodeupgrade_controller.go:221-243 | from any moment with a NodeUpgrade on: once it has vanished, neither it nor its pod comes back in that life |
| `UpgradeTheorems.CompletedIsStable` | controllers/nodeupgrade_controller.go:148-198 | in every run, whatever is left over, until it vanishes: a completed NodeUpgrade stays completed, no pod is created for it, and a pod that it still has is done |
| `UpgradeProgress.RoundDecreases` | controllers/controlplaneupgrade_controller.go:119-125 | a fault-free round of an unfinished upgrade strictly decreases a measure of missing NodeUpgrades, missing pods and unfinished containers |
| `UpgradeProgress.ReadyInLinearlyManyRounds` | controllers/controlplaneupgrade_controller.go:168-183 | from any point of a clean life, ten fault-free rounds per machine and one more make the upgrade ready |
| `UpgradeProgress.LostPodIsRecreated` | controllers/nodeupgrade_controller.go:245-263 | a pod lost before completion exists again after two reconciles of its NodeUpgrade, with its version, and as a worker, first or secondary control plane pod |
| `UpgradeProgress.StatusCounts` | controllers/controlplaneupgrade_controller.go:230-263 | after a reconcile upgraded is the number of listed machines whose NodeUpgrade is completed, required the number of the others, and ready means that there are no others; the status stays only if a completed machine of a control plane does not exist |
| `UpgradeLeftovers.SafeExactlyIfHarmless` | controllers/nodeupgrade_controller.go:420-422 | every continuation of a new upgrade is safe if and only if the NodeUpgrade, pod and running reconcile that each machine has left over are harmless |
| `UpgradeLeftovers.LeftoversBreakSafety` | controllers/nodeupgrade_controller.go:420-422 | if the leftover of any listed machine is not harmless, whole reconciles make the upgrade ready and clear the annotation although that machine was not upgraded |
| `UpgradeEvents.EventLeads` | controllers/nodeupgrade_controller.go:73-146 | whole reconciles of the upgrade object, with a failing update of the MachineSet or a lost patch, and of NodeUpgrades are made of guarded steps, in every world that satisfies the invariant |
| `MachineSets.WorkerRoundEffect` | controllers/machinedeploymentupgrade_controller.go:197-243 | a reconcile says ready exactly if all nodes are done, and patches the MachineSet exactly if also its update works |
| `MachineSets.MachineSetPatchedExactly` | controllers/machinedeploymentupgrade_controller.go:225-240 | over any reconciles with any failures and anything in between: ready only after a reconcile found all nodes done, and the MachineSet has the new spec if and only if it had it before or its update worked in such a reconcile |
| `MachineSets.ReadyWithoutMachineSet` | controllers/machinedeploymentupgrade_controller.go:225-240 | for any machines and leftovers, whole reconciles make the upgrade live and ready with all nodes done and leave the MachineSet as it was |
| `UpgradeProgress.ReadyAtOnceOnlyWithLeftovers` | controllers/controlplaneupgrade_controller.go:230-263 | the first reconcile of a new upgrade calls it ready if and only if all its machines were left over as completed |
| `ApiServers.ApiServer.Interfere` | controllers/controlplaneupgrade_controller.go:80-134 | any number of steps of the other actors keep the run valid and the reconciler's rely relation |
| `ApiServers.ApiServer.Attempt` | controllers/controlplaneupgrade_controller.go:80-134 | a write takes effect or not; success means that it did; an error leaves it open |
| `OwnerControllers.KubeadmControlPlaneReconciler.Reconcile` | controllers/kubeadmcontrolplane_controller.go:73-179 | makes guarded calls only, whatever fails; without faults the upgrade is finished if and only if etcd is stacked, it is ready and the status version is its target, and the rest of the effect is that of `OwnerRound` |
| `OwnerControllers.MachineDeploymentReconciler.Reconcile` | controllers/machinedeployment_controller.go:71-186 | the same for workers: finished if and only if it is ready and every listed machine has the target version |
| `OwnerControllers.ControlPlaneFinishesExactly` | controllers/kubeadmcontrolplane_controller.go:117-154 | without faults an annotated control plane is finished if and only if etcd is stacked, the upgrade is ready and the status version is its target; with another status version nothing changes |
| `OwnerControllers.WorkersFinishExactly` | controllers/machinedeployment_controller.go:127-166 | the same for workers: the upgrade is ready and every listed machine has the target version; if one has not, nothing changes |
| `OwnerControllers.OwnerRoundMeans` | controllers/kubeadmcontrolplane_controller.go:117-179 | starting pauses the check and creates the wanted object, finishing deletes it and resumes the check, and otherwise nothing changes |
| `OwnerControllers.KubeadmControlPlaneReconciler.ReconcileAnnotated` | controllers/kubeadmcontrolplane_controller.go:108-179 | whatever fails, the annotation is to be removed only if the upgrade object was deleted, the check resumed, and the status version was that of the upgrade |
| `OwnerControllers.MachineDeploymentReconciler.ReconcileAnnotated` | controllers/machinedeployment_controller.go:106-186 | the same with the versions of all machines that were listed |
| `OwnerControllers.MachineDeploymentReconciler.CheckMachines` | controllers/machinedeployment_controller.go:142-149 | the flag of the loop is true exactly if every machine has the target version |
| `OwnerControllers.DeleteAndResume` | controllers/kubeadmcontrolplane_controller.go:137-154 | the annotation may be cleared only after the upgrade object was deleted and the check resumed |
| `OwnerControllers.PauseAndCreate` | controllers/kubeadmcontrolplane_controller.go:156-178 | pauses the check before it creates the upgrade object |
| `UpgradeControllers.ControlPlaneUpgradeReconciler.Reconcile` | controllers/controlplaneupgrade_controller.go:80-134 | guarded calls only; without faults one round creates the next NodeUpgrade, patches, counts and persists, or releases all NodeUpgrades |
| `UpgradeControllers.ControlPlaneUpgradeReconciler.UpdateStatus` | controllers/controlplaneupgrade_controller.go:230-263 | Ready is only claimed when every machine is done and patched; a fully deleted object is left alone |
| `UpgradeControllers.MachineDeploymentUpgradeReconciler.Reconcile` | controllers/machinedeploymentupgrade_controller.go:71-137 | the same for workers, also when updating the MachineSet fails |
| `UpgradeControllers.MachineDeploymentUpgradeReconciler.UpdateStatus` | controllers/machinedeploymentupgrade_controller.go:197-243 | Ready is only claimed when every machine is done, and then also if the MachineSet cannot be updated; an update that says ready without an error has patched it |
| `UpgradeControllers.CreateNodes` | controllers/controlplaneupgrade_controller.go:168-183 | stops at the first machine that is not done, and creates its NodeUpgrade if it is missing |
| `UpgradeControllers.CreateMeans` | controllers/controlplaneupgrade_controller.go:149-204 | without faults the one NodeUpgrade that a reconcile creates is that of the first machine that is not completed, if it is missing, with the target version, and first only at index 0 of a control plane |
| `UpgradeControllers.DeleteNodes` | controllers/controlplaneupgrade_controller.go:206-228 | success means that all NodeUpgrades are gone or deleting |
| `UpgradeControllers.ReleaseMeans` | controllers/controlplaneupgrade_controller.go:206-228 | without faults a deleted upgrade object goes, its NodeUpgrades with a finalizer are deleting, those without are gone, and nothing else changes |
| `UpgradeControllers.CountNodes` | controllers/controlplaneupgrade_controller.go:230-263 | a full count means that every machine is completed and patched; a ready upgrade is counted in full again |
| `UpgradeControllers.UpdateResources` | controllers/controlplaneupgrade_controller.go:265-306 | success means that machine, KubeadmConfig and infrastructure machine carry the target, and nothing else was touched |
| `UpgradeControllers.PatchObject` | controllers/controlplaneupgrade_controller.go:97-126 | finalizer and status are persisted together, and are still earned when the patch arrives |
| `NodeUpgradeController.NodeUpgradeReconciler.Reconcile` | controllers/nodeupgrade_controller.go:73-146 | guarded calls only; without faults one round has exactly the specified effect on the NodeUpgrade and its pod |
| `NodeUpgradeController.NodeUpgradeReconciler.EnsurePod` | controllers/nodeupgrade_controller.go:148-198 | creates a pod only for a NodeUpgrade that is not completed, when none exists or is believed to exist; the guard of the call fixes its version and kind |
| `NodeUpgradeController.NodeUpgradeReconciler.DeletePodOf` | controllers/nodeupgrade_controller.go:221-243 | success means that the pod is gone or being deleted |
| `NodeUpgradeController.NodeUpgradeReconciler.UpdateStatus` | controllers/nodeupgrade_controller.go:245-281 | the status is what the pod, or its absence, justifies; the summary is computed from the conditions; Completed is only claimed after the pod succeeded |
| `NodeUpgradeController.UpdateComponentsConditions` | controllers/nodeupgrade_controller.go:283-342 | exactly the components that exited with 0 are marked, and Completed holds exactly if all did |
| `NodeUpgradeController.GetContainerStatus` | controllers/nodeupgrade_controller.go:344-356 | the first status of that name, init containers before the others |
| `NodeUpgradeController.StateOfInitContainer` | controllers/nodeupgrade_controller.go:344-356 | the state of a component is that of the first init container with its name |
| `NodeUpgradeController.StateOfOtherContainer` | controllers/nodeupgrade_controller.go:344-356 | or else that of the first other container with its name |
| `NodeUpgradeController.DoneMeansSixTimesZero` | controllers/nodeupgrade_controller.go:283-342 | a pod is done if and only if each of the six containers has terminated with exit code 0 |
| `NodeUpgradeController.LiveNodeCreatesPod` | controllers/nodeupgrade_controller.go:148-198 | without faults a pod is created if and only if the NodeUpgrade is not completed and no pod exists or is believed to exist, and nothing but the own status and finalizer changes |
| `NodeUpgradeController.LiveNodeStatus` | controllers/nodeupgrade_controller.go:245-281 | without faults the status follows the six containers of the pod; without a pod only the clean-up condition can stay true, and Completed and the summary stay |
| `NodeUpgradeController.DeletingNodeGoes` | controllers/nodeupgrade_controller.go:221-243 | without faults a deleting NodeUpgrade goes in one reconcile and its pod, if any, is deleted |
| `NodeUpgradeController.CompletedIsTheSummary` | controllers/nodeupgrade_controller.go:265-280 | after a status update that found the pod, Completed, the summary, and all summarised conditions being true are the same |
| `NodeUpgradeController.MarkAllConditionsFalse` | controllers/nodeupgrade_controller.go:358-365 | marks six conditions false and leaves the rest of the status |
| `NodeUpgradeController.AllFalseExactlyIfNotCleanedUp` | controllers/nodeupgrade_controller.go:358-365 | afterwards all conditions are false if and only if the clean-up had not been marked done; otherwise that one alone stays true |
| `NodeUpgradeController.LostPodLeavesCleanup` | controllers/nodeupgrade_controller.go:255-263 | when the pod of an upgraded node is lost, the clean-up condition stays true |
| `ImageProcessor.RunKeepsInv` | pkg/docker/concurrent.go:19-136 | every interleaving keeps the invariant of feeder, workers and collector |
| `ImageProcessor.NeverStuck` | pkg/docker/concurrent.go:19-73 | until Process returns some step other than an outside cancellation is enabled |
| `ImageProcessor.ProcessTerminates` | pkg/docker/concurrent.go:101-136 | runs are bounded by a linear number of steps, never get stuck, and at return all workers have exited |
| `ImageProcessor.DispatchIsAPrefix` | pkg/docker/concurrent.go:101-120 | the images handed out are 0, 1, 2 and so on; those in process are different ones without a result |
| `ImageProcessor.AtMostTheLimit` | pkg/docker/concurrent.go:19-46 | at every moment of every run at most as many images are in process as the limit allows, or one if the limit is below one; the number of workers is the smaller of images and limit |
| `ImageProcessor.LimitIsReached` | pkg/docker/concurrent.go:101-136 | for any images and limit a run in which that many images are in process together |
| `ImageProcessor.ProcessResult` | pkg/docker/concurrent.go:48-72 | an error is returned exactly if some call failed; what was handed out was processed; without failure or outside cancellation that is everything |
| `ImageProcessor.FirstErrorWins` | pkg/docker/concurrent.go:48-72 | the error that is returned is the first one reported, whatever is reported later |
| `ImageProcessor.EachProcessedOnce` | pkg/docker/concurrent.go:129-136 | no image gets a second result |
| `ImageProcessor.AtMostOneAfterAbort` | pkg/docker/concurrent.go:108-119 | after an abort at most one more image is handed out, and only if it was being sent already |
| `ImageProcessor.AllProcessedExactlyIfInTime` | pkg/docker/concurrent.go:101-120 | at return all images have been processed if and only if the feeder looked for each before the context was cancelled |
| `ImageProcessor.CancelledBeforeTheStart` | pkg/docker/concurrent.go:108-111 | for any images and limit, a run that is cancelled first returns without an error and without results |
| `Names.NameRoundTrip` | pkg/clusterapi/name.go:40-52 | incrementing base-n gives base-(n+1) if and only if the base has no line break and n is below the largest integer |
| `Names.IncrementExactly` | pkg/clusterapi/name.go:40-52 | of any name with a dash and final digits the digits become the next decimal number and what precedes the dash on that line stays; the largest integer wraps to the smallest; larger ones are refused |
| `Names.DecimalOfValue` | pkg/clusterapi/name.go:67-69 | the versions in names are decimal numbers without leading zeros |
| `Names.IncrementDefined` | pkg/clusterapi/name.go:40-52 | a name can be incremented exactly if it ends in a dash and digits that fit an integer |
| `Names.ObjectNameInjective` | pkg/clusterapi/name.go:67-69 | a name determines base and version, for versions that are not negative |
| `Names.NegativeVersionsCollide` | pkg/clusterapi/name.go:67-69 | for every negative version another base and version have the same name |
| `Names.IncrementsFromDefault` | pkg/clusterapi/name.go:71-73 | k increments of the default name give version 1 + k |
| `TemplateHistory.NamesAreBoundExactly` | pkg/clusterapi/name.go:138-171 | over any rounds, interrupted anywhere and with any contents, every template name keeps its content for ever if and only if no interrupted round that wrote only the template is followed, with the reference unmoved, by other new content |
| `TemplateHistory.NamesAreBoundForEver` | pkg/clusterapi/name.go:138-171 | in particular when interrupted rounds are retried |
| `TemplateHistory.ReferenceNamesTheTemplate` | pkg/clusterapi/controlplane.go:51-94 | after any completed round the reference names that round's template |
| `TemplateHistory.VersionCountsChanges` | pkg/clusterapi/name.go:138-171 | when interrupted rounds are retried, the version counts the completed rounds that changed the content |
| `TemplateHistory.RetryPicksTheSameName` | pkg/clusterapi/name.go:138-171 | a retry with the same content picks the same name, except if only the reference was written and it now names a stale template |
| `TemplateHistory.RetriesPickTheSameName` | pkg/clusterapi/name.go:138-171 | when interrupted rounds are retried, the exception does not occur |
| `TemplateHistory.ConflictSurvivesReturn` | pkg/clusterapi/workers.go:93-97 | going back to the old content in between does not resolve the conflict |
| `TemplateHistory.OtherOwnersDoNotInterfere` | pkg/clusterapi/name.go:67-73 | templates of an owner with another base name never collide with one's own |
| `TemplateNames.EnsureNewNameIfChanged` | pkg/clusterapi/name.go:138-171 | the name is counted up exactly if another content has it, and else stays; fails exactly if the read fails or the name cannot be incremented |
| `TemplateNames.WorkerGroup.UpdateImmutableObjectNames` | pkg/clusterapi/workers.go:71-100 | succeeds exactly if the reads do and both names are defined; then both templates have the wanted names and the deployment refers to them |
| `TemplateNames.UpdateWorkers` | pkg/clusterapi/workers.go:35-48 | succeeds exactly if every group does, and then every group is consistent and has its wanted names |
| `TemplateNames.ControlPlane.UpdateImmutableObjectNames` | pkg/clusterapi/controlplane.go:51-94 | control plane and etcd templates get their names and references; etcd is not looked at for a new cluster |
| `TemplateNames.GroupProjects` | pkg/clusterapi/workers.go:57-64 | although they share a deployment, machine and config templates of a group have independent histories |
| `TemplateNames.GroupNamesAreBound` | pkg/clusterapi/workers.go:71-100 | over any rounds of a group, stopped after any write, machine template names always keep their contents, and config template names do if and only if no two rounds conflict |
| `TemplateNames.StaleConfigIsOverwritten` | pkg/clusterapi/workers.go:93-97 | four rounds in which a config template left by an interruption is overwritten after the old content was restored |
| `TemplateNames.GroupReferences` | pkg/clusterapi/workers.go:71-100 | after a completed round both references name that round's templates |
| `ControlPlaneHistory.PlaneNamesAreBound` | pkg/clusterapi/controlplane.go:36-94 | over any rounds of a control plane, with or without etcd, stopped after any write and with any contents, every template name keeps its content for ever |
| `ControlPlaneHistory.PlaneReferences` | pkg/clusterapi/controlplane.go:51-94 | after a completed round both owners refer to that round's templates |
| `ControlPlaneHistory.PlaneRoundStands` | pkg/clusterapi/controlplane.go:51-94 | one round moves both standings as it should although the two kinds share one name space, and alters no template |
| `Generations.ChildObjects` | pkg/cluster/config.go:144-200 | every child is listed exactly once, in whatever order maps are visited |
| `Generations.AggregatedGeneration` | controllers/cluster_controller.go:703-710 | the loop gives the 64-bit sum of the generations, in any order |
| `Generations.ListingTotal` | controllers/cluster_controller.go:703-710 | all complete listings of the children have the same sum |
| `Generations.ConfigRoundTrip` | pkg/cluster/config.go:144-200 | a configuration built from children has exactly these children |
| `Generations.TestIsExact` | controllers/cluster_controller.go:363-368 | the sums miss a change if and only if a child was replaced and the growth of those that stayed equals what the replacements took away |
| `ClusterLifecycle.RunKeepsInv` | controllers/cluster_controller.go:287-443 | every run keeps the invariants of status, round in flight and deletion |
| `ClusterLifecycle.ReconciliationIsSkippedExactly` | controllers/cluster_controller.go:363-427 | in every run the phases are skipped if nothing differs from what the last persisted complete round read, never before a first one, and although something differs if and only if a child was replaced and the sums are offset |
| `ClusterLifecycle.SkipsExactlyForFixedChildren` | controllers/cluster_controller.go:363-384 | for children that are not replaced, skipped if and only if nothing changed |
| `ClusterLifecycle.MissedNeedsRecreationOrLoss` | pkg/cluster/tinkerbell.go:139-150 | a missed change needs a child recreated under its name, or children that went with larger generations than those that came |
| `ClusterLifecycle.RecreatedChildIsMissed` | controllers/cluster_controller.go:363-368 | a run in which any child is recreated with the same generation and the next round skips |
| `ClusterLifecycle.ReroutedChildIsMissed` | pkg/cluster/tinkerbell.go:139-150 | a run in which a machine config is edited to refer to a template of a generation smaller by one and the next round skips |
| `ClusterLifecycle.NeverVanishesBeforeCapi` | controllers/cluster_controller.go:566-606 | after the finalizer was persisted, the object is never gone while the CAPI cluster exists |
| `ClusterLifecycle.DeletingNeverReachesProvider` | controllers/cluster_controller.go:335-346 | once a round began on a deleting cluster, no round of it runs the phases again |
| `ClusterLifecycle.FinalizerDroppedOnlyAfterCapi` | controllers/cluster_controller.go:566-606 | a persisted finalizer goes only in a permitted deleting round, with the CAPI cluster absent; not for a self-managed cluster outside the CLI, nor for a paused one without permission |
| `ClusterLifecycle.RoundWasRead` | controllers/cluster_controller.go:287-297 | what a round acts on is the object at the moment the round began |
| `ClusterLifecycle.VanishesFirstExactlyIfUnprotected` | controllers/cluster_controller.go:345-346 | in every reachable world, some continuation lets the object vanish before its CAPI cluster if and only if the finalizer was never persisted and there is a CAPI cluster, or a live round is in flight, or the object is not being deleted |
| `ClusterController.ClusterReconciler.Reconcile` | controllers/cluster_controller.go:287-387 | guarded calls only, and, whatever fails, no round is recorded as complete unless all three phases are done; without faults the effect is that of `ClusterRound`, which the lemmas below describe |
| `ClusterController.ClusterReconciler.ReconcileDelete` | controllers/cluster_controller.go:566-621 | deletes the CAPI cluster if there is one, else drops the finalizer, and only when permitted |
| `ClusterController.ClusterReconciler.ReconcilePhases` | controllers/cluster_controller.go:389-443 | whatever fails, a sum for the status if and only if the phases were not skipped and pre-phase, provider and post-phase are done; the provider is reached only after the pre-phase |
| `ClusterController.ClusterReconciler.PatchCluster` | controllers/cluster_controller.go:305-325 | the deferred patch persists finalizer, reconciled generations and a default of the spec together |
| `ClusterController.StatusAdvancesExactly` | controllers/cluster_controller.go:335-443 | the reconciled generations become those that the round has read if and only if the round was not skipped and pre-phase, provider and post-phase are done; else they stay; finalizer, default version and creation of the CAPI cluster are as the source has them |
| `ClusterController.OnlyDoneRoundsComplete` | controllers/cluster_controller.go:389-427 | for any world: the reconciled generations change only if all three phases are done, and not for a paused or deleting cluster |
| `ClusterController.UnfinishedRoundIsRetried` | controllers/cluster_controller.go:363-427 | as long as a phase is not done, the next round is skipped if and only if this one was and wrote no default |
| `ClusterController.LeftAlone` | controllers/cluster_controller.go:335-346 | a paused cluster, and a deletion that is not permitted or has to wait for failure domains, leave everything as it is |
| `ClusterController.DeletionTakesTwoRounds` | controllers/cluster_controller.go:590-606 | a permitted deletion needs one round to delete the CAPI cluster and one after it is gone |
| `ClusterController.CompleteRoundSettles` | controllers/cluster_controller.go:348-384 | the round after a complete one is skipped and changes nothing if and only if the complete one wrote no default into the spec, and a default is written once |
| `Mover.Move` | pkg/clustermanager/eksa_mover.go:74-111 | whatever fails, the history is that of a move; success means Cluster and all children are on the target, children without owners; without faults it succeeds exactly if all are on the source, the source changes only by the pause and the cleared address of the Cluster, and what is new on the target are copies of what was on the source |
| `Mover.AlwaysPaused` | pkg/clustermanager/eksa_mover.go:86-101 | at every moment a Cluster on the target is paused on both sides, because it is added only while the source is paused, and as a copy |
| `Mover.MovedForGood` | pkg/clustermanager/eksa_mover.go:113-144 | retries never alter what has been moved |
| `Mover.EverythingIsACopy` | pkg/clustermanager/eksa_mover.go:113-144 | all on the target is a copy of what the source held at some moment: the Cluster paused and without bootstrap address, children without owners |
| `Mover.MoveChildObjects` | pkg/clustermanager/eksa_mover.go:125-144 | success means every child is on the target; nothing but children was added; without faults as copies without owners |
| `Mover.MoveClusterResource` | pkg/clustermanager/eksa_mover.go:113-123 | needs the pause persisted on the source before the Cluster is created on the target |
| `Mover.PauseOnSource` | pkg/clustermanager/eksa_mover.go:78-97 | a Cluster that is returned is paused on the source; without faults only its two annotations change |
| `ConfigTree.JoinSplit` | pkg/curatedpackages/configurationclient.go:15 | joining the segments of a key gives it back |
| `ConfigTree.SplitsAtDots` | pkg/curatedpackages/configurationclient.go:15 | no segment of a key has a dot |
| `ConfigTree.SplitJoin` | pkg/curatedpackages/configurationclient.go:15 | splitting inverts joining exactly for segments without dots |
| `ConfigTree.CoerceExactly` | pkg/curatedpackages/configurationclient.go:37-41 | exactly the six forms of true and the six of false become booleans |
| `ConfigTree.InsertFails` | pkg/curatedpackages/configurationclient.go:26-45 | the type assertion fails exactly if a value lies on the path |
| `ConfigTree.InsertAdds` | pkg/curatedpackages/configurationclient.go:26-45 | inserting at an unrelated path adds that value and keeps all others |
| `ConfigTree.OrderDoesNotMatter` | pkg/curatedpackages/configurationclient.go:11-18 | for prefix-free keys every order gives the same tree |
| `ConfigTree.FaithfulExactlyIfPrefixFree` | pkg/curatedpackages/configurationclient.go:11-45 | in any order: nothing fails and nothing is lost if and only if the keys are prefix-free |
| `ConfigTree.SomeOrderFails` | pkg/curatedpackages/configurationclient.go:32-34 | keys that are not prefix-free have an order that fails |
| `ConfigTree.LongerFirstDrops` | pkg/curatedpackages/configurationclient.go:36-44 | the longer of two related keys first: the other value is dropped |
| `ConfigTree.LookupDetermines` | pkg/curatedpackages/configurationclient.go:26-45 | a tree without empty subtrees is determined by its values |
| `Configurations.Parse` | pkg/curatedpackages/configurationclient.go:26-45 | the recursion on nested maps updated in place does what insertion into the tree does, and panics exactly when that fails |
| `Configurations.GenerateAllValidConfigurations` | pkg/curatedpackages/configurationclient.go:11-24 | flattening the result gives back exactly the non-empty entries, with booleans, if the keys are prefix-free; otherwise it fails or loses a value, in every order |
| `Configurations.FlatExactly` | pkg/curatedpackages/configurationclient.go:11-18 | the flat form of a configuration has a value at a path if and only if the path is that of a key with a value that is not empty |
| `Redaction.RedactCreds` | pkg/executables/executables.go:89-103 | no value of a listed variable that is resistant to the mask is left, where the process comes before the command; a command without any of them is unchanged |
| `Redaction.SelectedValues` | pkg/executables/executables.go:90-97 | exactly the non-empty values of the listed variables, the process before the command |
| `Redaction.RedactionIsComplete` | pkg/executables/executables.go:99-102 | for any values, overlapping or nested, no resistant one is left |
| `Redaction.ReplaceLeftmost` | pkg/executables/executables.go:99-102 | the leftmost occurrence of a value becomes five mask characters, what precedes it stays, and what follows is replaced in turn |
| `Redaction.NotCreated` | pkg/executables/executables.go:99-102 | a later replacement does not create a resistant value |
| `Redaction.UnmaskedIsResistant` | pkg/executables/executables.go:18-20 | every value without the mask character is resistant |
| `Redaction.ComesBackExactlyIfNotResistant` | pkg/executables/executables.go:99-102 | a value can be left in some result if and only if it is not resistant |
| `HealthCheckDefaults.DefaultingIsIdempotent` | pkg/cluster/defaults.go:58-95 | a second defaulting changes nothing, even with other defaults |
| `HealthCheckDefaults.DefaultingKeepsUserValues` | pkg/cluster/defaults.go:66-140 | nothing that the user has set is overwritten |
| `HealthCheckDefaults.DefaultingGivesIntendedChecks` | pkg/clusterapi/machine_health_check.go:50-98 | after defaulting the builders succeed, with own value, else the user's cluster value, else the default of the role |
| `HealthCheckDefaults.StartupTimeout` | pkg/cluster/defaults.go:66-109 | the time to start is the user's, or 20 minutes for Tinkerbell where the default is 10, or the default |
| `HealthCheckDefaults.ChecksAreNamed` | pkg/clusterapi/name.go:114-122 | the names of the checks, the machines they select and the two conditions they look at |
| `HealthCheckDefaults.CheckNamesDiffer` | pkg/clusterapi/name.go:114-122 | the checks of a cluster have different names and select different machines if its worker groups have different names |
| `HealthCheckDefaults.Cluster.SetTimeoutDefaults` | pkg/cluster/defaults.go:66-109 | fills in the missing timeouts, with the Tinkerbell exception |
| `HealthCheckDefaults.Cluster.SetMaxUnhealthyDefaults` | pkg/cluster/defaults.go:85-95 | fills in the missing maxima unless the user set one for the cluster |
| `HealthCheckDefaults.Cluster.FillMaxUnhealthy` | pkg/cluster/defaults.go:112-140 | workers get their own default, or the cluster's maximum if there is one |
| `HealthCheckDefaults.BuildCheck` | pkg/clusterapi/machine_health_check.go:50-98 | own settings before those of the cluster; none if a nil pointer is followed |
| `HealthCheckDefaults.MachineHealthCheckObjects` | pkg/clusterapi/machine_health_check.go:70-108 | one check per worker group in order, then that of the control plane; no nil pointer is followed if and only if the cluster has a check and a timeout is set for it or for every role |
| `HealthCheckDefaults.DefaultAndBuild` | pkg/clusterapi/machine_health_check.go:101-108 | defaulting and building together give the intended checks for any spec |

## Left out

- Kubernetes clients, caches, watches and the patch helper: replaced by the API servers of the model and the assumptions above.
- Encoding of specs, pod templates and the condition library: opaque values; the summary condition is true exactly if all summarised ones are.
- The kube-vip config map, namespaces, remote clients, IAM, validation and provider reconcilers: phases that work or fail.
- The packages reconciler: it runs after the generations are set, and its errors do not undo that.
- Lookup of machines, nodes and the current MachineSet: each is one read that works or fails.
- Deletion of a Cluster's IAM and package resources after the finalizer was removed: their errors change neither the patch nor the object.
- Requeueing and timing: a round is any reconcile, whenever it happens. The retrier of the mover is a number of attempts.
- TemplateNames.ControlPlane.UpdateImmutableObjectNames: which names an unsuccessful call leaves behind is not stated, because its caller writes nothing then; the same holds for WorkerGroup.UpdateImmutableObjectNames and UpdateWorkers.
- UpgradeLeftovers.SafeExactlyIfHarmless: the listed machines exist as Machine objects; an upgrade of a control plane with a missing Machine never gets ready.
- HealthCheckDefaults.Cluster.SetTimeoutDefaults: pointers to checks and numbers are values in the model, so sharing of one number by several checks is not captured.
- Marshalling the configuration tree to YAML, and splitting `key=value` arguments.
- Factories, command line, diagnostics, certificate renewal, registry and cloud clients: wiring, foreign commands or network.
