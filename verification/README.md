# Compute-node operator: a verified model

This project models the operator that adds and removes OpenStack compute nodes on an OpenShift cluster, and proves
what it is for: a compute node only leaves the cluster after it was drained, whatever fails, restarts or is edited on
the way.

## How the model is built

* `Model.dfy` is the cluster as a value: nodes, machines, blocker pods, the two drain jobs of each node with the
  position of their scripts, Nova's services, instances and placement providers, the custom resource, and the objects
  that carry its owner labels. Every atomic step is a total function on it: steps of everybody else (Machine API,
  kubelets, Job controller, script commands, scheduler, users) and the operator's API calls. A run is a log of steps.
* `Protocol.dfy` says when an operator call is in order (`Legal`), what no step of others can undo (`Calm`), and the
  invariant. A run is `Lawful` if each operator call in it was in order when it took effect; that includes that it is on
  the path of the running reconcile, which is the deletion path exactly if the resource was being deleted when that
  reconcile read it. `History.dfy`,
  `Theorems.dfy`, `Entries.dfy` and `Evacuation.dfy` prove theorems about all lawful runs, and `Continuation.dfy` what
  can still happen after a given one, with all further calls on the path the resource asks for.
* `Api.dfy` is the API server as the operator meets it. Before each call the environment acts as it likes; a call may
  fail, before or after taking effect; stale writes of the resource are refused. A method may fail because its calls
  do; what it is for is stated for servers that are `quiet` or `reliable` (calls succeed, others wait). A quiet server
  may have a `thief`: somebody who deletes one given labelled object just before the cleanup does. `flaky` are the
  machines whose lookup may fail; the walk over the nodes passes over such a failure.
* `Drain.dfy`, `NodeSync.dfy`, `NodeWalk.dfy`, `CrDeletion.dfy` and `Operator.dfy` are the operator's methods, with
  its loops and its order of calls. They are proved to add only lawful steps to the log, on every path and also when
  they stop early, so the theorems hold of them. `Progress.dfy` and `DeletionProgress.dfy` bound the retries.
* `Scripts.dfy` has the two drain scripts as loops, one job step per command, with everybody else acting in between,
  the operator included.
* `Apply.dfy`, `Coverage.dfy`, `DaemonSets.dfy`, `DeletionMarks.dfy` and `SpecSync.dfy` are the parts that
  synchronise other objects, each over its own small state.
* `Limits.dfy` has runs that go wrong outside the conditions of the theorems: logs of calls with the arguments the
  operator computes, and runs of the operator's own methods.

`dafny verify dfyconfig.toml` checks everything.

## What is assumed of the environment

* Only the operator creates blocker pods and drain jobs, takes finalizers off blocker pods, and deletes drain jobs.
  Taints stay. Two blocker pods never share a uid.
* A node with a protected blocker pod stays, and so does its machine. The Machine API sets the node reference when a
  node joins and a node never changes its machine.
* A job is reported as succeeded only after its script ended with exit code 0; containers may be killed and restarted
  at any command.
* Nova gives instances only to enabled services, nobody enables a disabled service again, only the post-drain script
  deletes services, and nova-compute of a tainted node does not register again. Whether placement deletes a provider
  that still has allocations is a parameter (`strict`).
* Others may write and delete the objects the operator applied, but leave the owner labels and the owner reference on
  them (`Apply.Client.Interfere`). Nobody else puts the owner labels on an object.
* One resource per role, and the role is not renamed. The hash of a spec determines the spec.

## Where the code and its intent differ

The model does what the code does in these places.

* `IsMachineBeingDeleted` means to count a machine that is gone as deleted, but dereferences the failed lookup: the
  reconcile panics (`Drain.IsMachineBeingDeleted`). A node without machine annotation makes it panic as well, there and
  in `Drain.GetNodeStatus`.
* A cordoned node whose machine is not being deleted is dropped from the node list while its pod keeps the finalizer
  (`Limits.CordonedNodeIsForgotten`). So "has a finalizer" does not imply "is tracked"; the converse is
  `Theorems.TrackedImpliesProtected`. And such a node is never drained: a walk drains a protected node whose machine is
  being deleted if and only if it is tracked, so the finalizer stays, and the machine with it
  (`Limits.ForgottenNodeIsNeverDrained`, `Limits.CordonedNodeIsStuck`). Which nodes a clean walk leaves tracked and
  which protected is exact in `NodeWalk.UpdateNodesStatus` (`ReportsAll`, `GuardsAll`).
* The walk over the nodes passes over errors of the machine lookup: a node that is not cordoned and whose machine is being
  deleted then counts as its Ready condition says. It stays on the node list all the same, and so is drained later,
  unless it has no Ready condition (`NodeSync.NotForgotten` in the contract of `NodeSync.HandleNode`,
  `NodeWalk.KeepsDraining` in that of `NodeWalk.UpdateNodesStatus`).
* The walk means to end early, without storing the node list, when the post job is reported as already existing. That never
  happens: the creation passes over AlreadyExists (`Drain.EnsureNodePostDrain`).
* A drain does not always leave the node empty. `Continuation.EvacuationExactlyWhen` says when it does, in terms of
  what can be seen when the pre job is created: placement is strict, or the node's service is there and on the disable
  list, or nothing can be scheduled on the node any more. It fails when the node is missing from its own list, because
  the drained node joins that list only when it is empty (`Drain.OwnNodeListed`, `Limits.ReleasedWithInstance`), and
  when the node's service registers after the pre job looked for it (`Limits.LateServiceGap`).
* A name that stays in the status after its node was released makes a returning node of that name pass for a known one:
  it gets no blocker pod (`Limits.BackIsReached` and `Limits.ReturningNodeIsPassedOver`; who gets one is exact in
  `NodeWalk.UpdateNodesStatus`).
* If writing the spec fails after the finalizer was removed, the entry in `nodesToDelete` stays for good: an entry goes
  if and only if the write takes effect in the reconcile that released the node (`Entries.EntryGoesAfterRelease`,
  `Entries.EntryGoesExactlyIfWritten`, `Entries.LeftOverStays`, `Limits.EntryLeftBehind`).
* The swap-with-last removal can put another entry of a node in front of its first one when the drain of a different
  node is completed; `NodesToDelete.FirstEntryChangesExactlyWhen` says when, and `Drain.MigrationChangesExactlyWhen` that
  live migration is switched on or off for the node exactly then, unless it is on for all.
* A NotFound ends the label cleanup early and counts as success, so objects can be left behind for good
  (`Limits.CleanupCutShort`). That takes somebody else who deletes a MachineSet, MachineConfigPool or MachineConfig
  between its listing and its deletion (`Theorems.FinalizeIsComplete`), and something selected that comes after it
  (`Limits.CleanupCompleteExactlyWhen`).
* An even number of entries for one node in the status turns "no change" into "Remove"
  (`DeletionMarks.DiffRightExactlyWhen`). A changed mark also replaces all other annotations of the machine.
* The stored hash is that of the spec before the reconcile changed it, so a change of the MachineSet takes two
  reconciles to settle (`SpecSync.OneRoundIsNotEnough`). The marks are right after a reconcile exactly when each of
  them is either changed or right already (`SpecSync.RoundRightExactlyWhen`); so an edit taken back after an
  interrupted reconcile leaves a mark behind (`SpecSync.EditTakenBackLeavesMark`), and a reconcile interrupted after a
  completed drain leads to the removal of the mark (`SpecSync.CutOffAfterDrainUnmarks`).
* A crash followed by an edit of the spec can leave a copy of a daemonset behind (`DaemonSets.RightExactlyWhen`), and a
  later deletion misses it if no entry names its namespace any more (`Coverage.CleanupReachesExactlyWhen`).
* Deletion reaches every applied object only for a resource in namespace `openstack` (`Coverage.CoverageExact`).

## Model

| member | source | states |
|---|---|---|
| Protocol.LegalStaysLegal | controllers/computenodeopenstack_controller.go:598-658 | a call that was in order when the operator decided on it is still in order after anything others do before it lands |
| Protocol.LawfulRunsKeepInv | controllers/computenodeopenstack_controller.go:598-658 | in every state of every run: a post job implies a succeeded pre job and a taint, any drain job implies the finalizer of that very blocker pod, the newest pod of a node is protected or drained, and the status is consistent |
| History.RunExplained | controllers/computenodeopenstack_controller.go:598-658 | what exists in a state tells which milestones of the present blocker pod lie behind, in order |
| History.FinalizerGoesOnlyAfterFullDrain | controllers/computenodeopenstack_controller.go:571-658 | drain safety: a blocker pod loses its finalizer only after its own pre job was created and succeeded, then the post job was created on the tainted node, and succeeded |
| History.SuccessIsNeverStale | controllers/computenodeopenstack_controller.go:809-837 | any job success seen belongs to the present blocker pod |
| History.FreshBlockerHasNoJobs | controllers/computenodeopenstack_controller.go:735-770 | a new blocker pod starts without drain jobs and undrained |
| Evacuation.RunsMean | templates/drainpod/bin/scaledownpost.sh:31-54 | over all runs, the positions of the scripts mean what they should about services, providers and instances |
| Evacuation.DrainedMeansEvacuated | templates/drainpod/bin/scaledownpost.sh:25-54 | in every reachable state a protected node whose post job succeeded has neither record, is tainted, and is empty if placement is strict or its service was seen disabled |
| Evacuation.EvacuatedWhenReleased | templates/drainpod/bin/scaledownpre.sh:34-86 | end to end: when the finalizer goes the node has no service and no provider, is tainted, and carries no instance if placement is strict or its service was seen disabled |
| Evacuation.SafeDrainEvacuates | templates/drainpod/bin/scaledownpre.sh:34-86 | if the drain was safe when a pre job of the pod was created, the node is empty, without records and tainted when the pod loses its finalizer, whatever happened in between |
| Continuation.EvacuationExactlyWhen | controllers/computenodeopenstack_controller.go:849-860 | when the pre job is created, on either path and with any other nodes at any stage, every continuation releases the node empty if and only if the drain is safe: placement strict, or own service there and on the list, or nothing schedulable on the node any more |
| Continuation.SafeContinuation | controllers/computenodeopenstack_controller.go:849-860 | one direction of it: no continuation of a safe drain releases the node occupied |
| Continuation.UnsafeContinuation | controllers/computenodeopenstack_controller.go:849-860 | the other direction: some continuation of an unsafe drain does, with all further calls on the path the resource asks for |
| Continuation.DrainCanEnd | controllers/computenodeopenstack_controller.go:598-658 | from the creation of its pre job every drain can be brought to the release of the node, and an unsafe one to a release with an instance; on the deletion path by bringing all other protected nodes through the barriers as well |
| Continuation.OthersPreComplete | controllers/computenodeopenstack_controller.go:1250-1287 | on the deletion path the pre jobs of any protected nodes, wherever they stand, can be brought to success without touching other nodes and their instances |
| Continuation.OthersDrain | controllers/computenodeopenstack_controller.go:1289-1333 | and behind the first barrier so can the post jobs |
| Continuation.UnsafeDrainCanEndOccupied | controllers/computenodeopenstack_controller.go:849-860 | the same for a run all of whose operator calls are on one path |
| Evacuation.ListedNodeIsShut | controllers/computenodeopenstack_controller.go:849-860 | a succeeded pre job with its own node on the list has looked at its service; if the service was there it is shut and the node empty |
| Theorems.StatusIsConsistent | controllers/computenodeopenstack_controller.go:678-685 | in every persisted state readyWorkers is the number of entries with status Ready and names are distinct |
| Theorems.NewestPodAccounted | controllers/computenodeopenstack_controller.go:789-807 | at any moment the newest blocker pod of a node is protected, or was released after a full drain |
| Theorems.TrackedImpliesProtected | controllers/computenodeopenstack_controller.go:545-570 | every node in the status is protected, or its newest blocker pod went through the full drain before |
| Theorems.ListingWasTaken | controllers/computenodeopenstack_controller.go:1229-1232 | a listing in hand was taken earlier in the same reconcile and names all nodes there were at that step |
| Theorems.DeletionBarriers | controllers/computenodeopenstack_controller.go:1250-1363 | on the deletion path every taint, post job, job deletion and release follows a listing of all nodes in the same reconcile; before the first two each listed protected node had its pre job succeed, before the others each was fully drained |
| Theorems.FinalizeIsComplete | controllers/computenodeopenstack_controller.go:123-163 | when the resource's finalizer goes, all nodes were listed earlier in the same reconcile, none of them is protected, the newest pod of each was released after a full drain, and nothing the label cleanup selects is left, unless in this very reconcile somebody else deleted a MachineSet, MachineConfigPool or MachineConfig that the cleanup had listed and not yet deleted |
| Theorems.PendingWasListed | controllers/computenodeopenstack_controller.go:1399-1449 | an object the cleanup still has to delete was listed earlier in the same reconcile and not deleted since |
| Limits.ReleasedWithInstance | controllers/computenodeopenstack_controller.go:854-860 | with another node's machine tagged, the list the operator computes for n leaves n out, and a run of the deletion path releases n with an instance on it |
| Limits.LateServiceGap | templates/drainpod/bin/scaledownpre.sh:34-54 | on the regular path, with n on its own list, a service that registers after the pre job looked lets n be released with an instance |
| Limits.EntryLeftBehind | controllers/computenodeopenstack_controller.go:660-672 | a run from a start without drains after which n is released and its entry stays on the list in every continuation without user edit and new release |
| Limits.BackIsReached | controllers/computenodeopenstack_controller.go:678-685 | a run from a start without drains leads to a ready node under a name the status still lists, without blocker pod |
| Limits.ReturningNodeIsPassedOver | controllers/computenodeopenstack_controller.go:543-570 | from there a clean walk persists the node as ready and gives it no blocker pod |
| Limits.CordonedNodeIsForgotten | controllers/computenodeopenstack_controller.go:571-596 | a clean walk takes a cordoned, protected, tracked node whose machine is not being deleted off the node list and leaves it protected |
| Limits.ForgottenNodeIsNeverDrained | controllers/computenodeopenstack_controller.go:571-596 | and when its machine is deleted afterwards, any number of reconciles, erring or not, leave it protected and off the list |
| Limits.CordonedNodeIsStuck | controllers/computenodeopenstack_controller.go:571-596 | the two together, as one run from a cluster without any drain |
| Limits.CleanupCompleteExactlyWhen | controllers/computenodeopenstack_controller.go:1399-1451 | when one labelled object is stolen under the hands of the cleanup, the resource's finalizer goes, and everything selected is gone if and only if the object is not one of the kinds deleted one by one, or nothing selected comes after it |
| Limits.CleanupCutShort | controllers/computenodeopenstack_controller.go:149-163 | a reconcile that meets a NotFound at the MachineSet ends with the finalizer gone and the MachineConfig left |
| NodesToDelete.RemoveNode | controllers/computenodeopenstack_controller.go:689-692 | removes exactly the i-th entry, as a multiset |
| NodesToDelete.OneEntryGone | controllers/computenodeopenstack_controller.go:661-674 | one completion takes one occurrence of the node off the list and touches no other node's entries |
| NodesToDelete.OnlyCompletedEntriesGone | controllers/computenodeopenstack_controller.go:660-674 | conservation over any number of completions |
| NodesToDelete.DistinctListLosesExactly | controllers/computenodeopenstack_controller.go:660-674 | a duplicate-free list loses exactly the completed nodes |
| NodesToDelete.FirstEntryChangesExactlyWhen | controllers/computenodeopenstack_controller.go:660-674 | the completion of another node's drain changes a node's first entry if and only if that node's entry comes first and the last entry of the list is a different entry of the node |
| NodesToDelete.CompletionsCanReorderEntries | controllers/computenodeopenstack_controller.go:660-674 | a list where it does |
| Entries.ListIsAccounted | controllers/computenodeopenstack_controller.go:660-674 | over any run without user edit, crashes and retries included, the stored list loses exactly one entry for each drop |
| Entries.EntryGoesAfterRelease | controllers/computenodeopenstack_controller.go:655-674 | whenever the operator drops an entry it released that node earlier in the same reconcile, after a full drain, and dropped no other entry of it since |
| Entries.DropsArePaid | controllers/computenodeopenstack_controller.go:655-674 | over any run no node has more entries dropped than it was released |
| Entries.EntryGoesExactlyIfWritten | controllers/computenodeopenstack_controller.go:668-671 | of a listed node that was just released one entry goes if and only if the write of the spec takes effect |
| Entries.LeftOverStays | controllers/computenodeopenstack_controller.go:590-596 | once nothing is owed for a node its entries stay until a user edit or a new release |
| Drain.GetNodeStatus | controllers/computenodeopenstack_controller.go:694-724 | the phase of a node: SchedulingDisabled if it is cordoned or its machine is gone or being deleted; otherwise Ready exactly if the Ready condition is True, NotReady exactly if it is there and not True; a failing lookup of the machine is passed over; without machine annotation a panic |
| Drain.IsMachineBeingDeleted | pkg/computenodeopenstack/machine.go:19-41 | the answer is the deletion timestamp of the machine; a missing machine or annotation is a panic |
| Drain.GetDeletedOspWorkerNodes | controllers/computenodeopenstack_controller.go:1202-1224 | exactly the nodes some machine with a deletion timestamp refers to |
| Drain.OwnNodeListed | controllers/computenodeopenstack_controller.go:849-860 | the list holds exactly the nodes found tagged, or the node itself if there are none; so a node is on its own list if and only if its machine is tagged or no machine is |
| Drain.EnableLiveMigration | controllers/computenodeopenstack_controller.go:863-877 | live migration is on if and only if the global switch is, or the first entry of the node says so |
| Drain.MigrationChangesExactlyWhen | controllers/computenodeopenstack_controller.go:863-877 | the completion of another node's drain switches live migration for a node exactly when it changes its first entry and the global switch is off |
| Drain.CreateBlockerPod | controllers/computenodeopenstack_controller.go:735-770 | after success the node is protected or its newest pod was drained; nothing else changes |
| Drain.IsBlockerPodFinalizerDeleted | controllers/computenodeopenstack_controller.go:772-787 | whether the pod is missing or without finalizer |
| Drain.TriggerPreDrain | controllers/computenodeopenstack_controller.go:839-988 | creates the pre job unless it exists, at the start of its script, with live migration exactly if it is on for all or by the first entry of the node, and with exactly the nodes on its list to which a machine with a deletion timestamp referred just before (the node itself if there are none) |
| Drain.TriggerPostDrain | controllers/computenodeopenstack_controller.go:839-988 | creates the post job unless it exists |
| Drain.IsPreDrained | controllers/computenodeopenstack_controller.go:990-1015 | true exactly for a job that succeeded, false for one that did not and is active, an error for one that is neither |
| Drain.IsPostDrained | controllers/computenodeopenstack_controller.go:990-1015 | the same for the post job |
| Drain.EnsureNodePreDrain | controllers/computenodeopenstack_controller.go:809-822 | true only when the pre job succeeded; without error the job is there; on a quiet platform a job just created, or one that failed, is an error, and a running one is not |
| Drain.EnsureNodePostDrain | controllers/computenodeopenstack_controller.go:824-837 | the same for the post job; AlreadyExists is never reported, so the early return of the walk is never taken |
| Drain.AddToBeRemovedTaint | controllers/computenodeopenstack_controller.go:1090-1116 | after success the node is tainted, even if the taint was only seen on the listed copy |
| Drain.DeleteJobWithName | controllers/computenodeopenstack_controller.go:1118-1135 | a job that succeeded is gone after success or NotFound, one that did not is left in place; the node stays drained and protected |
| Drain.DeleteBlockerPodFinalizer | controllers/computenodeopenstack_controller.go:789-807 | after success the node is released; requires that both jobs are gone |
| Drain.CleanUp | controllers/computenodeopenstack_controller.go:642-658 | post job, pre job, finalizer in this order; no other node loses anything, whatever fails |
| Drain.RunDrainJobs | controllers/computenodeopenstack_controller.go:603-640 | reports both jobs done only when they are; on a quiet platform, wherever the jobs stand, a running job is waited for, a missing one is created, and a failed one is an error |
| Drain.UpdateNodesToDelete | controllers/computenodeopenstack_controller.go:660-674 | the loop with its swap-removal computes the list without the node's first entry; the stored list is that after success, and the old or the new one after a failure |
| Drain.PostPhase | controllers/computenodeopenstack_controller.go:618-640 | taint before post job; true only when the post job succeeded, and without error both are there |
| NodeSync.GetPreviousNodeStatus | controllers/computenodeopenstack_controller.go:726-733 | the status of the first entry of that name, None if there is none; in a list without doubles, of any entry |
| NodeSync.MayDrain | controllers/computenodeopenstack_controller.go:571-596 | a drain starts only for a protected node whose machine is being deleted, on every platform for each of those that is tracked unless an error is reported, and on a quiet one for exactly those |
| NodeSync.DrainProtected | controllers/computenodeopenstack_controller.go:598-675 | the drain of one node, on every platform: without error it is released and off the list if finished, and otherwise still protected and on the list as SchedulingDisabled; its entry goes off the stored list only if it is released; on a quiet platform what happens is exact for every state of its jobs |
| NodeSync.DrainNode | controllers/computenodeopenstack_controller.go:571-675 | the branch for SchedulingDisabled |
| NodeSync.HandlePresent | controllers/computenodeopenstack_controller.go:546-570 | a ready or not ready node is tracked with its phase; on a quiet platform it is protected afterwards if and only if it was before, or is new to the status and no pod carries its name |
| NodeSync.HandleNode | controllers/computenodeopenstack_controller.go:541-676 | one iteration of the walk, whatever the phase: on every platform a node to be drained that is still protected afterwards stays listed as SchedulingDisabled, unless the lookup of its machine failed; on a quiet platform entry and protection of the node are exact |
| NodeWalk.ReportsListing | controllers/computenodeopenstack_controller.go:540-570 | the collected list names exactly the nodes that are Ready or NotReady, with their phase |
| NodeWalk.StoreNodes | controllers/computenodeopenstack_controller.go:678-685 | node list and ready count are written together, and only when the list changed |
| NodeWalk.UpdateNodesStatus | controllers/computenodeopenstack_controller.go:528-687 | on every path the stored list is the old one less exactly one entry per written node, all different and released in this run, and after a clean run these are exactly the nodes released; after a clean run on any platform every node that was tracked and protected with its machine being deleted, and is still protected, is on the new and stored node list as SchedulingDisabled, unless the lookup of its machine failed; on a quiet platform on which no lookup panics an error means that a drain job was missing, and was created, or had failed, and without error the node list is exact and every node is protected exactly if it is to be |
| NodeWalk.WalkOnce | controllers/computenodeopenstack_controller.go:528-687 | the same for a reconcile that starts by reading the resource |
| NodeWalk.SettledAdvances | controllers/computenodeopenstack_controller.go:540-676 | where the present drain jobs have succeeded, a run that reports an error has brought one node a stage on, and one without has released all leaving nodes |
| Progress.WalkLowersMeasure | controllers/computenodeopenstack_controller.go:603-658 | each run lowers the summed stages strictly, or brings them to zero |
| Progress.DrainedWithin3n | controllers/computenodeopenstack_controller.go:540-676 | a series of runs that goes on after errors only is at most 3n long or has released all n leaving nodes |
| Progress.RetryUntilDrained | controllers/computenodeopenstack_controller.go:540-676 | the n nodes that are on the node list and whose machines carry a deletion timestamp are released within 3n runs if jobs succeed between runs |
| CrDeletion.PreDrainAll | controllers/computenodeopenstack_controller.go:1250-1287 | without error every listed protected node has its pre job, also when others are not done; true only when each of them succeeded; on a quiet platform false means that one runs, and an error that one was created or failed |
| CrDeletion.PostDrainAll | controllers/computenodeopenstack_controller.go:1289-1333 | the same for taint and post job |
| CrDeletion.ReleaseAll | controllers/computenodeopenstack_controller.go:1335-1363 | without error no listed node is protected any more |
| CrDeletion.DeleteAllBlockerPodFinalizer | controllers/computenodeopenstack_controller.go:1226-1365 | without error all nodes that this very call listed are released; while it waits every listed protected node has its pre job; on a quiet platform it waits only for a job that runs, and any other error means that a node came a stage further or a job failed |
| CrDeletion.DeleteDaemonSets | controllers/computenodeopenstack_controller.go:1384-1397 | no labelled daemonset is left in the namespaces named |
| CrDeletion.DeleteListed | controllers/computenodeopenstack_controller.go:1399-1411 | without error none of the kind is left; NotFound means that somebody else deleted a listed one; on a quiet server exactly those after the stolen one are left |
| CrDeletion.DeleteOwnerRefLabeledObjects | controllers/computenodeopenstack_controller.go:1376-1451 | without error nothing of the selected kinds and namespaces is left; on a quiet server exactly what comes after a stolen object is left |
| CrDeletion.LeftByKind | controllers/computenodeopenstack_controller.go:1376-1451 | kind by kind and without naming the order of the code: what is gone, what a stolen object leaves behind, and what the cleanup never touches |
| CrDeletion.ReconcileDeletion | controllers/computenodeopenstack_controller.go:123-163 | all its calls are in order; on every platform no error means that the finalizer was gone before or is gone now, or that every listed protected node has its pre job; on a quiet platform, wherever the drain jobs stand, it removes the finalizer of the resource with exactly the objects left that the cleanup leaves, or waits without error for a job that runs, or brings a node a stage on, or reports a job that failed |
| CrDeletion.SettledTurn | controllers/computenodeopenstack_controller.go:123-163 | where the present drain jobs have succeeded such a reconcile takes the finalizer off or brings a node a stage on |
| DeletionProgress.AdvancedLowersMeasure | controllers/computenodeopenstack_controller.go:1250-1363 | a deletion run that does not finish lowers the summed stages |
| DeletionProgress.AtMost3nAdvances | controllers/computenodeopenstack_controller.go:1250-1363 | runs that each bring a protected node a stage on are at most 3n in number |
| DeletionProgress.RetryUntilDeleted | controllers/computenodeopenstack_controller.go:123-163 | with n protected nodes the resource's finalizer is gone within 3n + 1 runs if jobs succeed between runs, and nothing selected is left if nobody steals |
| Operator.EnsureCrFinalizer | controllers/computenodeopenstack_controller.go:113-122 | a living resource gets its finalizer |
| Operator.StoreStatus | controllers/computenodeopenstack_controller.go:273-282 | the final status write keeps the persisted status consistent and records the infrastructure list and the hash taken at the start |
| Operator.ApplyRendered | controllers/computenodeopenstack_controller.go:246-260 | without error every rendered object was in place at some moment of the run, whatever others do; on a quiet server exactly the rendered objects are added |
| Operator.SyncDaemonSets | controllers/computenodeopenstack_controller.go:429-489 | without error each copy of the spec was there at some moment of the run, and each copy of an entry that left the spec was gone at one; on a quiet server both hold at the end, and nothing but daemonsets changes |
| Operator.ReconcileRegular | controllers/computenodeopenstack_controller.go:165-285 | the regular branch makes only calls that are in order, the applies included; without error the stored status records spec and infrastructure list as they were at the start, and each object was in place at some moment of the reconcile; on a quiet platform it walks the nodes if and only if the stored hash is that of the spec, and without error the resource has its finalizer and all objects are applied |
| Operator.Reconcile | controllers/computenodeopenstack_controller.go:95-285 | so does any reconcile, cut off anywhere; on a quiet platform it does what its branch is for |
| Operator.Operate | controllers/computenodeopenstack_controller.go:95-285 | any number of reconciles yields a lawful run, so every theorem about lawful runs holds of the operator |
| Scripts.OperatorLeavesAlone | controllers/computenodeopenstack_controller.go:1118-1135 | no operator call touches Nova or an unfinished drain job |
| Scripts.DisableService | templates/drainpod/bin/scaledownpre.sh:35-50 | the loop ends only when the service was seen not enabled |
| Scripts.DisableServices | templates/drainpod/bin/scaledownpre.sh:34-54 | every host on the list was seen not enabled at some moment |
| Scripts.MigrateInstances | templates/drainpod/bin/scaledownpre.sh:56-72 | if enabled, migration is asked for exactly the instances that were on the node and ACTIVE at one moment, otherwise for none |
| Scripts.WaitUntilEmpty | templates/drainpod/bin/scaledownpre.sh:74-86 | the loop ends only when the node has no instance, whatever its state |
| Scripts.ScaleDownPre | templates/drainpod/bin/scaledownpre.sh:18-88 | with environment and operator acting between any two commands, success means the pre job of the model is at its exit, with all of the above; it ends for a missing variable exactly if one is missing, before any command; any command may fail or the container be killed, and neither counts as success |
| Scripts.DeleteComputeService | templates/drainpod/bin/scaledownpost.sh:25-36 | the loop ends only when no compute service is listed |
| Scripts.DeleteResourceProvider | templates/drainpod/bin/scaledownpost.sh:45-54 | the loop ends only when no provider is listed, whatever placement answered |
| Scripts.ScaleDownPost | templates/drainpod/bin/scaledownpost.sh:18-56 | likewise, success means the post job is at its exit and neither record is left |
| Apply.Override | pkg/bindata_util/merge.go:25-55 | the loop over the keys computes the override of one map by the other, in any order of keys |
| Apply.Unstructured.MergeAnnotations | pkg/bindata_util/merge.go:25-38 | annotations become the override, nothing else changes |
| Apply.Unstructured.MergeLabels | pkg/bindata_util/merge.go:42-55 | labels become the override, nothing else changes |
| Apply.Unstructured.MergeMetadataForUpdate | pkg/bindata_util/merge.go:10-21 | read-only metadata from the current object, labels and annotations overridden |
| Apply.ApplyObject | pkg/bindata_util/apply.go:19-59 | with others acting between its calls, a successful apply is one atomic step and a failed one that or nothing: the object has the desired body, controller, labels and annotations and keeps its other ones and its identity, all other objects are as they were, and nothing is written if and only if it already had all of it; an empty name is refused; on a quiet server it succeeds |
| Apply.AppliedDoes | pkg/bindata_util/apply.go:46-56 | the same of the function the algebra below is about |
| Apply.ApplyTwice | pkg/bindata_util/apply.go:46-56 | applying the same object again writes nothing |
| Apply.LastSetterWins | pkg/bindata_util/merge.go:25-55 | after any sequence of applies a label or annotation has the value its last setter gave it |
| Apply.UnmentionedStays | pkg/bindata_util/merge.go:25-55 | and keeps its initial value when nobody sets it |
| Apply.AppliesOverride | pkg/bindata_util/apply.go:33-59 | the stored maps are the left-to-right override of the initial ones |
| Apply.MarksSurvive | controllers/computenodeopenstack_controller.go:239-260 | no apply of the owner takes owner labels or owner reference off any of its objects |
| Apply.ApplyRendered | controllers/computenodeopenstack_controller.go:246-260 | everything applied so far carries the marks of the owner, also when the loop stops at an error; on a quiet server all objects are applied in order |
| Coverage.CoverageExact | controllers/computenodeopenstack_controller.go:239-260 | the deletion reaches every rendered object if and only if the resource lives in namespace openstack |
| Coverage.RenderedApart | controllers/computenodeopenstack_controller.go:201-237 | no two rendered objects share a key, so none overwrites another |
| Coverage.RenderedKeysAre | controllers/computenodeopenstack_controller.go:246-260 | the keys the operator applies are those of exactly the rendered objects, whatever their bodies |
| Coverage.EverythingAppliedIsReached | controllers/computenodeopenstack_controller.go:1376-1451 | for such a resource it reaches everything ever applied, whatever the render data of the past |
| Coverage.ApplyForever | controllers/computenodeopenstack_controller.go:201-260 | over any number of interrupted reconciles with others acting in between |
| Coverage.CopiesAreReached | controllers/computenodeopenstack_controller.go:1384-1397 | every daemonset copy a run leaves is in a namespace named by status or spec, also after a crash |
| Coverage.CleanupReachesExactlyWhen | controllers/computenodeopenstack_controller.go:1384-1397 | after a complete synchronisation a later deletion reaches all copies if and only if every copy left behind by earlier interrupted runs lies in a namespace the spec names |
| DaemonSets.DerivedIsInjective | controllers/computenodeopenstack_controller.go:441 | different entries have differently named copies |
| DaemonSets.EnsureCopies | controllers/computenodeopenstack_controller.go:430-467 | after any number of entries exactly their copies are as wanted and all else is untouched |
| DaemonSets.RemoveExtras | controllers/computenodeopenstack_controller.go:468-487 | and the copies of entries that left the spec are gone |
| DaemonSets.EnsureInfraDaemonsets | controllers/computenodeopenstack_controller.go:429-489 | complete without error, partial when cut off anywhere, without a single write when everything is in place, and without error on a reliable server when all origins exist |
| DaemonSets.CopiesAreMade | controllers/computenodeopenstack_controller.go:441-526 | after a complete run each entry of the spec has its copy under the name of the entry and the role: the spec of its origin, one toleration more, scheduled to the nodes of the role only, with the owner labels unless it was there before with that spec |
| DaemonSets.CompleteIsFromScratch | controllers/computenodeopenstack_controller.go:429-526 | if the copies matched the status, exactly one copy per spec entry remains, equal to what would be made of its origin now |
| DaemonSets.RepeatFindsAllInPlace | controllers/computenodeopenstack_controller.go:454-464 | after a complete run a repeat finds everything in place |
| DaemonSets.RetryCompletes | controllers/computenodeopenstack_controller.go:429-489 | a retry after a crash ends where the run would have ended |
| DaemonSets.CompleteIsUnique | controllers/computenodeopenstack_controller.go:429-489 | which is a single state |
| DaemonSets.CrashStaysWithin | controllers/computenodeopenstack_controller.go:429-489 | a crash leaves only copies of entries in status or spec |
| DaemonSets.RightExactlyWhen | controllers/computenodeopenstack_controller.go:468-487 | a complete run ends with the right copies if and only if there were no stray copies and no daemonset of somebody else passes for one |
| DaemonSets.CrashAndEditLeaks | controllers/computenodeopenstack_controller.go:468-487 | a crash followed by an edit leaves a copy behind for good |
| DeletionMarks.DiffRightExactlyWhen | controllers/computenodeopenstack_controller.go:1019-1030 | the diff is as intended for a node if and only if the status names it an odd number of times or not at all |
| DeletionMarks.DuplicateUnmarks | controllers/computenodeopenstack_controller.go:1023-1030 | a node listed twice on both sides loses its mark |
| DeletionMarks.NodesToDeleteInfo | controllers/computenodeopenstack_controller.go:1019-1030 | the two loops compute the diff given by how often each list names a node |
| DeletionMarks.UpdateMachineDeletionSelection | controllers/computenodeopenstack_controller.go:1017-1064 | every machine is remarked according to the diff, and no other is touched; a failing call leaves each machine old or new |
| DeletionMarks.RemarkedAnew | controllers/computenodeopenstack_controller.go:1041-1062 | a machine is as it was, or has instead of all its annotations one mark: set if its node is in the spec and not in the status, taken off only if the status names it |
| SpecSync.EnsureMachineSetSync | controllers/computenodeopenstack_controller.go:1066-1088 | the workers of the spec become the replicas, if there is a MachineSet |
| SpecSync.Reconcile | controllers/computenodeopenstack_controller.go:180-284 | a complete reconcile is a round, an interrupted one leaves the status as it was |
| SpecSync.WorkersAgree | controllers/computenodeopenstack_controller.go:184-199 | however often interrupted, a complete reconcile makes replicas, spec and status agree; the replicas win if and only if the hash was unchanged at the start |
| SpecSync.TwoRoundsSettle | controllers/computenodeopenstack_controller.go:273-282 | two complete reconciles reach a state no further reconcile changes |
| SpecSync.OneRoundIsNotEnough | controllers/computenodeopenstack_controller.go:180-184 | exactly when one is enough |
| SpecSync.RoundRightExactlyWhen | controllers/computenodeopenstack_controller.go:193-199 | from any state a complete reconcile sets the marks right if and only if each machine with a node is remarked to what the spec says, or untouched and right already |
| SpecSync.RoundMarks | controllers/computenodeopenstack_controller.go:193-199 | a complete reconcile brings the marks in line with the list |
| SpecSync.CutOffMarks | controllers/computenodeopenstack_controller.go:1041-1062 | an interrupted one leaves them between old and new list |
| SpecSync.MarksFollowTheList | controllers/computenodeopenstack_controller.go:1017-1064 | over runs of edits, interruptions and other actors, after each complete reconcile a machine with a node is marked if and only if its node is listed, apart from machines of drained nodes for as long as they are there |
| SpecSync.MarksFromCreation | controllers/computenodeopenstack_controller.go:1017-1064 | so from the creation of a resource on, whenever the last reconcile was a complete one |
| SpecSync.EditTakenBackLeavesMark | controllers/computenodeopenstack_controller.go:184-199 | an edit taken back after an interruption leaves a mark for good |
| SpecSync.CutOffAfterDrainUnmarks | controllers/computenodeopenstack_controller.go:193-199 | a reconcile interrupted after a completed drain makes the next one take the mark off |

## Left out

- Start-up, flags, watches and event mapping: a reconcile may simply run at any time.
- Templates, YAML, base64 and JSON: rendering is a pure function to kinds, namespaces, names and labels; bodies are opaque.
- MD5: a spec stands for its hash.
- Fields of pods, jobs, volumes and environments other than the node name, the disable list and the migration switch.
- The scripts ConfigMap and the OpenStack access data: reading them is a call that may fail. Errors other than NotFound, which the code passes over there, are not told apart.
- Go's difference between nil and empty lists and maps, and with it some extra writes of an unchanged status or object.
- Server-side defaulting of applied objects and daemonsets, which makes the code update objects that differ only by defaults.
- Several resources sharing a role, and the renaming of a role.
- removeNode and the annotation map shared by all machines are modelled on values: no aliasing of slices or maps.
- NodeWalk.UpdateNodesStatus: the exact node list is stated for a quiet platform on which no lookup panics; under interference the contract keeps names distinct, entries protected, the ready count right and the nodes that are being drained on the list.
- Operator.ReconcileRegular: the render data of a reconcile is arbitrary, and the contents of the objects, the MachineSet and the marks of machines are in modules of their own.
- Evacuation.EvacuatedWhenReleased: emptiness is stated by what the pre job saw; Continuation.EvacuationExactlyWhen has the exact condition by what can be seen when the job is created.
- Evacuation.ListedNodeIsShut: says nothing about emptiness if the service was absent when the pre job looked; Limits.LateServiceGap shows that nothing follows.
- Theorems.TrackedImpliesProtected: speaks of the newest blocker pod of the name, which for a returning node is that of its predecessor; which nodes get a pod of their own is exact in NodeWalk.UpdateNodesStatus.
- Drain.DeleteBlockerPodFinalizer: stated for callers that have deleted both drain jobs, as both callers in the code do; the function itself does not look at jobs.
- Drain.DeleteJobWithName: stated for nodes that are drained, as both callers in the code have made sure of.
- DaemonSets.EnsureCopies: no copy serves as the origin of another.
- DaemonSets.EnsureInfraDaemonsets: nobody else writes daemonsets while it runs, and no copy serves as the origin of another.
- SpecSync.Reconcile: nobody else writes the resource, the MachineSet or the machines while a reconcile runs; they do between reconciles.
- SpecSync.MarksFollowTheList: lists are duplicate-free, edits wait for a complete reconcile, and machines that come later do so with nodes on no list; SpecSync.RoundRightExactlyWhen has the exact condition for one reconcile from any state.
- Scripts.ScaleDownPre: the unbounded polling loops take a number of polls, after which the container counts as killed; the exit code of a failing command is not told apart from other non-zero ones.
