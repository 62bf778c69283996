# Verified model of bare metal host fulfilment

The operator gives every BareMetalInstance a host from an inventory (OpenStack Ironic or Metal3),
keeps the host provisioned, restarted and powered as asked, and hands it back on deletion. A
BareMetalPool keeps a number of instances per host type. This project models that behaviour in Dafny
and proves what the code guarantees, for all inputs, all interleavings of reconciles and all failures
of remote calls. `dafny verify dfyconfig.toml` checks everything.

## Overview

**Claiming a host.** `ClaimMachine` is a state machine over the API store, the owner marks of the
hosts, the per-host locks and the reconciles in flight. One action is one remote call, one lock
operation, one event of somebody else, or a crash. A write may land and be acknowledged, land and be
reported as an error, or not land. `ClaimInvariant` proves what every action keeps; `ClaimSafety`,
`ClaimRegister`, `ClaimRace` and `ClaimTermination` prove the protocol's properties over all runs.
`InstanceController` is the controller in its own, imperative form; its calls are interleaved with
arbitrary actions of others, and each of its methods is proved to be a piece of a run of the machine,
so the machine's theorems hold of the code. `HostLock` is the lock table. `ClaimBackends` shows that the
steps of the machine do to a lock and to an owner mark what the methods of the lock table and of the two
inventory clients do, `ClaimPools` that its pool steps do to the finalizer and the instances of a pool what
the pool controller does.

**Backends.** `OpenStackInventory` and `Metal3Inventory` are the two inventory clients. `JsonPointer`
and `JsonPatch` give the meaning of the OpenStack patches (RFC 6901 and RFC 6902), `PrefixedLabels`
that of the Metal3 labels, `InventoryLabels` the labels an instance adds and removes,
`InventoryRetries` the whole life of a claim through the clients, `HostIds` the Metal3 host IDs.

**Management.** `InstanceManagement` has provisioning, restart trigger, power and status of one
reconcile as functions and as methods proved equal to them; `InstanceProperties` and `PowerLoop` prove
what follows over one and over many reconciles. `ControllerRestarts` shows that the reconciles of
`InstanceController` are such a run, whatever becomes of their status writes. `Metal3Management` is the
Metal3 backend.

**Pools.** `PoolGroups` has the store, the groups and what the spec asks for, `CallFates` the fates of
the calls, `PoolScaler` the scaling, `PoolUpdate` the reconcile around it, `HostTypes` the order of the
status.

## Assumptions

- `Get` and `List` return current objects. A conflicting `Update` is refused by its version.
- A write takes effect before its call returns, or never; this includes calls cut off by a crash.
- One operator process, at most one reconcile per object key; only the operator writes owner marks.
- Users do not edit `ExternalHostID` and `HostClass`; the configured host class is not empty.
- On OpenStack, no inventory or persistent label uses the reserved key `bareMetalInstanceId`, so that a
  claim that lands writes the caller's UID. All results on owner marks need this: those of `ClaimSafety`
  but for the locks, `ClaimRegister`, `ClaimTermination` and `InstanceController`.
  `ClaimBackends.AssignOpenStack` shows that nothing weaker will do.
- Whether an instance has a template that needs a provider does not change while it exists. Users may
  edit every other field at any time.
- No finalizers but the operator's own two keep an instance from disappearing.
- Generated instance names are fresh. Only the pool controller sets the pool label.
- The set of inventory hosts does not change during a run; their other properties may.
- Replicas are within 0 and the largest int32, as the CRD's type and its minimum say
  (api/v1alpha1/baremetalpool_types.go:96), and an int32 can count the live instances of a type.
- The provisioning library answers anything.

## Where the code does less than one might expect

- **Ownership.** `UnassignHost` does not look at the owner. An instance that recorded a host, lost the
  race for it and is then deleted takes the mark from the winner, and a third instance can claim the
  host: `ClaimRace.OwnershipCanBeLost`. `ClaimRegister.OwnershipCondition` says exactly when
  ownership is kept.
- **Persistent labels.** The API type promises that they stay on the host
  (api/v1alpha1/baremetalinstance_types.go:69-71). One whose key is also an inventory label, or the pool
  label of a pooled instance, is removed with it: `InventoryLabels.PersistentSurvive`.
- **Owner label.** An inventory label with the reserved key `bareMetalInstanceId` overwrites the owner
  mark: `OpenStackInventory.OwnerRecorded`.
- **Assign patch.** If `osac_labels` exists but is not an object, no assign patch ever applies:
  `OpenStackInventory.AssignPatch`.
- **Pool Ready.** A pool that is Ready and starts another template run stays Ready while it has
  instances that are not: `PoolUpdate.StaleReady`. `PoolUpdate.PoolUpdater.HandleUpdate` says exactly when.
- **Failed pool template.** A pool whose own template is reported as failed, with no error and nothing to
  wait for, goes on to the readiness check and ends Ready if its instances are
  (internal/controller/baremetalpool_controller.go:212-240); the instance controller stops there
  (internal/controller/baremetalinstance_controller.go:328-333): `PoolUpdate.FailedTemplateReady`.
- **Pool status.** The deferred status equals the live counts unless the first Create or Delete that was
  reported as failed took effect: `PoolScaler.PoolReconciler.ReconcileInstances` says so in terms of the
  calls' fates, `PoolScaler.LostCreateMiscounts` is a run in which it is wrong.
- **Restarts.** A restart can be triggered twice for one change of the trigger. What makes that possible is
  a lost write of the status that records a restart just triggered, or a failed completion check of a
  restart that is recorded as running, which drops the record. `InstanceProperties.RestartsExact` counts
  the restarts exactly, `InstanceProperties.AtMostOneRestart` says when there is at most one.
- **Silent stall.** If the provisioning library returns an empty result and reports nothing about a
  template that is neither through nor failed, the reconcile ends Failed without error and without
  requeue: `InstanceProperties.NoSilentStall` says that this is the only such case.
- **Waiting forever.** An instance whose template cannot be provisioned, because no provider is
  configured, is at rest although a host may be free, and so is its deletion once it has the management
  finalizer: `ClaimTermination.QuiescenceCondition`.

## Model

| member | source | states |
|---|---|---|
| HostLock.HostLocks.TryLock | internal/inventory/lock.go:34-37 | never blocks; succeeds exactly if the lock was free; it is held afterwards; no other host's lock changes |
| HostLock.HostLocks.Unlock | internal/inventory/lock.go:42-46 | frees the lock of this host and of no other; an unknown host is ignored |
| ClaimInvariant.StepKeeps | internal/controller/baremetalinstance_controller.go:178-302 | every action of anybody keeps the invariant of store, marks, locks and reconciles |
| ClaimSafety.NoOrphanedClaims | internal/controller/baremetalinstance_controller.go:722-762 | in every reachable state a marked host is named by an existing instance with the inventory finalizer, whoever unassigns and whatever fails, if claims write the caller's UID |
| ClaimSafety.OneHostPerInstance | internal/controller/baremetalinstance_controller.go:199-237 | no instance ever holds the marks of two hosts |
| ClaimSafety.TeardownComplete | internal/controller/baremetalpool_controller.go:485-545 | once a pool is gone, it stays gone, and at no later moment is there an instance with its label or a host marked by an instance it ever had |
| ClaimSafety.MutualExclusion | internal/inventory/lock.go:30-46 | at most one reconcile is in a host's critical section, and the lock is held exactly meanwhile |
| ClaimSafety.LocksBalanced | internal/controller/baremetalinstance_controller.go:239-244 | a step changes only the lock it takes or gives back, and a reconcile ends without one |
| ClaimRegister.RunRefines | internal/inventory/openstack.go:271-314 | every interleaving of the locked read-check-write calls is a run of an atomic compare-and-set register in which no operation is refused |
| ClaimRegister.AnswersAgree | internal/inventory/openstack.go:276-279 | a nil host is answered exactly if the register refuses the claim, and still refuses it when the instance gives the host up; a host is answered only while the claim stands |
| ClaimRegister.MarkNeverStolen | internal/inventory/metal3.go:222-254 | a mark never goes from one instance directly to another |
| ClaimRegister.StepOwned | internal/controller/baremetalinstance_controller.go:750-754 | one action keeps every allocated live instance the owner on record of its host if and only if it is not an UnassignHost that lands on the host of another live, allocated instance |
| ClaimRegister.OwnershipCondition | internal/inventory/metal3.go:259-281 | the same for whole runs |
| ClaimRegister.ExclusiveOwnership | internal/controller/baremetalinstance_controller.go:264-289 | if every UnassignHost finds its host unmarked or its own, no two allocated live instances share a host, and each is the owner on record of its own |
| ClaimRace.OwnershipCanBeLost | internal/inventory/openstack.go:358-402 | for every host, a run from the empty cluster after which two allocated live instances share it |
| ClaimBackends.ReadAssigns | internal/inventory/metal3.go:217-224 | the machine's read of AssignHost answers nil exactly if the mark is somebody else's |
| ClaimBackends.WriteAssigns | internal/inventory/metal3.go:246-256 | the machine's write does to the mark what one AssignHost may do, and to no other mark |
| ClaimBackends.ClearUnassigns | internal/inventory/metal3.go:274-280 | the machine's write does to the mark what one UnassignHost may do, and to no other mark |
| ClaimBackends.TryLock | internal/inventory/lock.go:34-37 | the lock table and the machine's locks go on the same |
| ClaimBackends.Unlock | internal/inventory/lock.go:42-46 | the same for the deferred Unlock, which never finds the lock free |
| ClaimBackends.AssignMetal3 | internal/inventory/metal3.go:204-257 | the client does to the mark what the machine does, whatever fails |
| ClaimBackends.UnassignMetal3 | internal/inventory/metal3.go:259-281 | likewise |
| ClaimBackends.AssignOpenStack | internal/inventory/openstack.go:263-340 | likewise if no label misuses the reserved key, and an assigned host carries the caller's mark if and only if none does |
| ClaimBackends.UnassignOpenStack | internal/inventory/openstack.go:358-402 | likewise, without a condition |
| ClaimPools.DeleteMirrors | internal/controller/baremetalpool_controller.go:397-424 | a Delete by the scaler is a RequestDelete of the machine: the pool has the same instances afterwards |
| ClaimPools.CreateMirrors | internal/controller/baremetalpool_controller.go:373-394 | a Create by the scaler under a fresh name is a CreateInstance, and allowed while the pool is scaling |
| ClaimPools.HandleDeletion | internal/controller/baremetalpool_controller.go:469-549 | is a run of the pool steps and of deletions of its own instances, with the same instances left; the finalizer goes in the controller exactly if it goes in the machine |
| ClaimPools.HandleUpdate | internal/controller/baremetalpool_controller.go:155-210 | is a run of the pool steps up to the scaling, with the same finalizer; instances are created or deleted only if the machine has got to the scaling as well |
| ClaimPools.PoolLives | internal/controller/baremetalpool_controller.go:469-549 | from the empty cluster any pool can be created, have any instance, and be gone: TeardownComplete speaks of runs that exist |
| ClaimTermination.WritesBounded | internal/controller/baremetalinstance_controller.go:190-289 | in every run without newcomer, whatever fails and whenever the process crashes, the writes made and the potential left never exceed the potential at the start plus 2(N-1) for each setback |
| ClaimTermination.FulfilmentTerminates | internal/controller/baremetalinstance_controller.go:178-302 | N instances, U unclaimed hosts, D deletions and F setbacks make at most 2(N-1)(U+D+F) + 4N + 2D spec and finalizer writes, under any interleaving and however many reconciles there are |
| ClaimTermination.NoSetback | internal/controller/baremetalinstance_controller.go:750-765 | without deletion there is no setback, whatever fails; with deletions, it takes a crash or a failure of an instance that may be deleted |
| ClaimTermination.QuiescenceCondition | internal/controller/baremetalinstance_controller.go:146-227 | no interleaving of any number of reconciles, failing ones and crashes among them, writes anything if and only if every instance is fulfilled, has a template nobody can provision, or finds no unclaimed host that passes its filter, and no deletion is pending but those that lack a provider; and what can write at all, error-free reconciles can write |
| InstanceController.WritesMove | internal/controller/baremetalinstance_controller.go:190-191 | an Update of a reconcile changes the stored spec or finalizers exactly if it lands: none repeats what is stored |
| InstanceController.InstanceReconciler.constructor | internal/controller/baremetalinstance_controller.go:57-95 | each of the four intervals is kept if positive, and else replaced by its default |
| InstanceController.InstanceReconciler.FindFreeHost | internal/controller/baremetalinstance_controller.go:212-227 | fails, finds a host that is free and passes the filter, or answers nil while there is none |
| InstanceController.InstanceReconciler.AssignHost | internal/controller/baremetalinstance_controller.go:264-274 | a piece of a run, with others' actions around each of its calls, that ends with the claim made, refused or failed |
| InstanceController.InstanceReconciler.UnassignHost | internal/controller/baremetalinstance_controller.go:750-754 | a piece of a run that ends with the mark cleared, or in an error, and still inside the critical section; the host is read and written whether or not it is marked, and either call may fail |
| InstanceController.InstanceReconciler.ReconcileInventory | internal/controller/baremetalinstance_controller.go:178-302 | fails exactly if a call failed; else it asks for a requeue exactly if it has written nothing, and then no host is free or the recorded host's lock is taken; no lock is left; the phase is Failed exactly without a free host, Progressing exactly with a host just allocated, and a host given up because it is another's leaves Allocating |
| InstanceController.InstanceReconciler.ReconcileManagement | internal/controller/baremetalinstance_controller.go:304-393 | adds the management finalizer first; Ready only with it; with it, status, result and calls are those of ManagementPass and ManagementCalls; fails exactly if a call failed |
| InstanceController.InstanceReconciler.HandleUpdate | internal/controller/baremetalinstance_controller.go:146-176 | Ready only with a provider for a real template, an allocated host and the management finalizer; without the provider it makes no call and is Failed |
| InstanceController.InstanceReconciler.Deprovisioned | internal/controller/baremetalinstance_controller.go:688-712 | goes on exactly without a template or with a deprovisioning that is done or skipped; result, error and phase otherwise |
| InstanceController.InstanceReconciler.CleanupManagement | internal/controller/baremetalinstance_controller.go:688-720 | goes on to the inventory exactly with the management finalizer gone, which takes a deprovisioning that is over; one that has failed or is not over, or lacks its provider, keeps both finalizers and the host, and its error and result are passed on; a removal that landed unacknowledged is an error |
| InstanceController.InstanceReconciler.HandleDeletion | internal/controller/baremetalinstance_controller.go:683-766 | fails exactly if a call failed; until the deprovisioning is over nothing is given up; without error and requeue a finalizer was dropped, or the provider is missing, or there was no finalizer of its own; a requeue means a taken lock or an unfinished deprovisioning; no lock is left; the phase |
| InstanceController.InstanceReconciler.WriteStatus | internal/controller/baremetalinstance_controller.go:123-128 | a failed status write is an error, a vanished object is not |
| InstanceController.InstanceReconciler.Reconcile | internal/controller/baremetalinstance_controller.go:104-132 | is a piece of a run of the machine; ends without a lock; returns an error exactly if a call of its own failed, a missing power status included and a conflict not, and otherwise none of its steps stands for a failure; without error and requeue it has changed the stored object, or become Ready, or failed for want of a provider or by a failed template, or has an unfinished template that the library forgot, or the object is gone; requeues only for a reason that stood; the status that is stored and the restart it triggers are those of one event of InstanceProperties, or only the phase may change; while the deprovisioning of the instance it has read is not over or has failed, it gives up neither a finalizer nor the host, and passes on result and error |
| InstanceManagement.ManagedInstance.SyncStatus | internal/controller/baremetalinstance_controller.go:510-560 | the status computed in place is SyncedStatus, which InstanceProperties.PowerReported spells out |
| InstanceManagement.ManagedInstance.TriggerRestart | internal/controller/baremetalinstance_controller.go:650-680 | result and condition for success, conflict and failure |
| InstanceManagement.ManagedInstance.ReconcileRestartTrigger | internal/controller/baremetalinstance_controller.go:562-648 | status, result, error and whether a restart was triggered are those of RestartPass |
| InstanceManagement.ManagedInstance.ReconcileProvisioning | internal/controller/baremetalinstance_controller.go:461-507 | the status left by the lifecycle and its callbacks is Provisioned |
| InstanceManagement.ManagedInstance.ReconcilePower | internal/controller/baremetalinstance_controller.go:395-430 | fails exactly if a power change is due and fails for another reason than a conflict |
| InstanceManagement.ManagedInstance.ReconcileManagement | internal/controller/baremetalinstance_controller.go:316-393 | status, result, error and restart are those of ManagementPass; the calls it makes, in their order, are ManagementCalls |
| InstanceProperties.ReadySound | internal/controller/baremetalinstance_controller.go:316-393 | Ready means: no error, no requeue, triggers equal, no provisioning condition other than True for a real template, and with a strategy a stable matching reading and PowerSynced True for the matching reason |
| InstanceProperties.ErrorCondition | internal/controller/baremetalinstance_controller.go:316-393 | an error exactly if one of the calls made failed, and no call after one that failed; a missing power status counts as a failure, a conflict does not |
| InstanceProperties.PowerReported | internal/controller/baremetalinstance_controller.go:316-560 | for every reconcile that gets to the power state: PowerSynced is True exactly if the last reading is stable and in the state asked for, with the reason of that state; else False and Progressing, or IronicAPIFailure after a failure; phase, requeue and observed strategy likewise |
| InstanceProperties.PowerCallsMade | internal/controller/baremetalinstance_controller.go:344-430 | a reconcile reads the power state exactly if nothing is left to restart; it requests a state exactly if the host is stable and not in it; its error is that of a call |
| InstanceProperties.RestartReported | internal/controller/baremetalinstance_controller.go:596-680 | what a reconcile that ends in the restart reports: failed check, unfinished restart, conflict, failure, success |
| InstanceProperties.RestartCompleted | internal/controller/baremetalinstance_controller.go:562-594 | an up-to-date, halted or completed restart leaves the spec trigger recorded and the condition Completed |
| InstanceProperties.ProvisioningReported | internal/controller/baremetalinstance_controller.go:461-507 | the provisioning condition after a reconcile: the last report of a job, or Progressing while one runs and none has failed |
| InstanceProperties.ProvisioningLast | internal/controller/baremetalinstance_controller.go:316-334 | a reconcile that gets no further than the template passes its result and error on, changes nothing else, and is Progressing only while a job runs |
| InstanceProperties.NoSilentStall | internal/controller/baremetalinstance_controller.go:316-393 | no error and no requeue means Ready or a failed template, unless, and only unless, the library reports nothing about a template that is neither through nor failed |
| InstanceProperties.FailureCleared | internal/controller/baremetalinstance_controller.go:328-333 | a failed template is cleared by a reported success and by nothing else; until then no restart, no power status, no Ready |
| InstanceProperties.FailureLasts | internal/controller/baremetalinstance_controller.go:316-334 | so it lasts over any number of reconciles and any answers but a reported success |
| InstanceProperties.ProvisioningFirst | internal/controller/baremetalinstance_controller.go:316-334 | no restart, no power status and no Ready before the template has run to success; a failed template is not masked by a requeue |
| InstanceProperties.RestartHandled | internal/controller/baremetalinstance_controller.go:562-648 | exactly when a restart is triggered; and status and spec trigger agree afterwards if and only if they did, or the backend reports the restart complete, or the host is to be off |
| InstanceProperties.FallThroughCondition | internal/controller/baremetalinstance_controller.go:617-647 | the statements after triggerRestart can be reached if and only if the recheck interval is zero |
| InstanceProperties.RestartsExact | internal/controller/baremetalinstance_controller.go:562-680 | while spec and status trigger differ: restarts triggered plus the credit at the end equal the credit at the start plus the events that leave a restart unrecorded or drop a record, however many reconciles and spec edits there are; restarts landed are those plus the unacknowledged ones |
| InstanceProperties.AtMostOneRestart | internal/controller/baremetalinstance_controller.go:562-680 | at most one restart succeeds if and only if there is no more such harm than one event for a restart recorded as running at the start and one if none is at the end |
| InstanceProperties.RestartsNotDuplicated | internal/controller/baremetalinstance_controller.go:596-632 | without such harm at most one restart succeeds |
| InstanceProperties.HarmDuplicates | internal/controller/baremetalinstance_controller.go:596-632 | after any such harm the next reconcile may trigger one restart more |
| InstanceProperties.LostWriteDuplicates | internal/controller/baremetalinstance_controller.go:123-128 | losing the status write that records a restart just triggered makes two |
| InstanceProperties.FailedCheckDuplicates | internal/controller/baremetalinstance_controller.go:600-608 | a failed completion check of a restart that is recorded as running makes two |
| InstanceProperties.PhaseIrrelevant | internal/controller/baremetalinstance_controller.go:316-393 | status, result, error and restart of the management half do not depend on the phase it finds |
| ControllerRestarts.NextRound | internal/controller/baremetalinstance_controller.go:104-132 | a user edit and one more reconcile of the controller extend the run of restart events by what they stored and triggered, whether or not the status write landed |
| ControllerRestarts.Reconciles | internal/controller/baremetalinstance_controller.go:104-132 | any number of reconciles of the controller, interleaved with everybody else and with spec edits between them, trigger the restarts that RestartsExact counts, and at most one under the condition of AtMostOneRestart |
| Metal3Management.Metal3Client.GetPowerState | internal/management/metal3.go:113-132 | the state and the transition flag of a host of the configured namespace, else an error; exactly by the ID of any existing host |
| Metal3Management.Metal3Client.SetPowerState | internal/management/metal3.go:134-172 | writes spec.online exactly if the host is stable and not on target and the patch lands, and changes nothing else; which error means what; for the ID of every existing host, result and hosts exactly |
| Metal3Management.Metal3Client.TriggerRestart | internal/management/metal3.go:174-197 | the annotation is there afterwards if the patch lands, acknowledged or not; one that is there already is a conflict; for the ID of every existing host, result and hosts exactly |
| Metal3Management.Metal3Client.IsRestartComplete | internal/management/metal3.go:199-208 | complete exactly without the annotation; for the ID of every existing host |
| Metal3Management.Metal3Client.RestartTwice | internal/management/metal3.go:174-208 | a restart that landed is not complete and cannot be triggered again |
| Metal3Management.Metal3Client.Key | internal/management/metal3.go:210-226 | the host whose namespace and name an ID joins, if and only if it exists in the configured namespace |
| PowerLoop.MoveProgresses | internal/controller/baremetalinstance_controller.go:360-430 | no write during a transition; every change of the host lowers the measure |
| PowerLoop.PowerConverges | internal/management/metal3.go:113-172 | over any run, exactly the writes that are needed, and all changes paid for by the measure |
| PowerLoop.OneWrite | internal/management/metal3.go:134-172 | at most one write of spec.online from any point on |
| PowerLoop.NotStuck | internal/controller/baremetalinstance_controller.go:395-430 | short of convergence the host moves or a reconcile writes |
| PowerLoop.ReadyWhenConverged | internal/controller/baremetalinstance_controller.go:382-390 | a reading lets the reconcile end Ready if and only if the host has converged |
| HostIds.ParsedIsPrinted | internal/inventory/metal3.go:283-289 | an accepted ID is rebuilt from its parts |
| HostIds.PrintedIsParsed | internal/inventory/metal3.go:310 | a printed pair parses back if and only if namespace and name are not empty and the namespace has no slash |
| JsonPointer.DecodeEscaped | internal/inventory/openstack.go:404-407 | decoding by section 4 of RFC 6901 undoes the escaping |
| JsonPointer.EscapedIsToken | internal/inventory/openstack.go:404-407 | an escaped label is a token of section 3 of RFC 6901 |
| JsonPointer.EscapeDecoded | internal/inventory/openstack.go:404-407 | every such token is the escape of what it decodes to |
| JsonPointer.EscapeInjective | internal/inventory/openstack.go:404-407 | distinct labels have distinct tokens |
| JsonPointer.LabelPathTokens | internal/inventory/openstack.go:300-309 | the path of a label leads to that label, whatever its characters |
| JsonPatch.RenderedMeans | internal/inventory/openstack.go:383-400 | a patch of label operations does to the document what the operations do to the label map |
| OpenStackInventory.AssignPatch | internal/inventory/openstack.go:295-314 | in every map order the assign patch applies if and only if there is a label object, and then overrides the labels |
| OpenStackInventory.OwnerRecorded | internal/inventory/openstack.go:297-312 | the caller is the owner on record if and only if no label uses the reserved key for something else |
| OpenStackInventory.UnassignPatch | internal/inventory/openstack.go:383-400 | the removals always apply and subtract the keys |
| OpenStackInventory.OpenStackClient.OfferMeans | internal/inventory/openstack.go:166-224 | which hosts a search may offer: unmarked, of the type, provision state and manager asked for, with the defaults |
| OpenStackInventory.OpenStackClient.FindFreeHost | internal/inventory/openstack.go:195-245 | a listed, unmarked, suitable host of a page that can be read; nil exactly if there is none at all; an error exactly if a page cannot be read and none before it has one |
| OpenStackInventory.OpenStackClient.BuildAddOps | internal/inventory/openstack.go:296-312 | one addition per label, in some order, after the owner's |
| OpenStackInventory.OpenStackClient.AssignHost | internal/inventory/openstack.go:263-340 | nil exactly if marked by another; success exactly when; the labels it leaves, also on failure; no other node changes |
| OpenStackInventory.OpenStackClient.DistinctLabels | internal/inventory/openstack.go:372-381 | the owner label and the given ones, none twice |
| OpenStackInventory.OpenStackClient.BuildRemovalOps | internal/inventory/openstack.go:383-393 | one removal for every label that exists, and no other |
| OpenStackInventory.OpenStackClient.UnassignHost | internal/inventory/openstack.go:358-402 | fails only if the node cannot be read or a needed patch is not acknowledged; leaves the old labels or the old ones without the removed keys |
| Metal3Inventory.Metal3Client.FindFreeHost | internal/inventory/metal3.go:142-202 | a free suitable host; nil exactly if there is none; an error exactly if the list call fails |
| Metal3Inventory.Metal3Client.AssignHost | internal/inventory/metal3.go:204-257 | nil exactly if claimed by another; success exactly when; labels and consumer are written together or not at all |
| Metal3Inventory.Metal3Client.UnassignHost | internal/inventory/metal3.go:259-281 | success exactly when; the consumer is cleared, whoever it was, and the given labels go |
| Metal3Inventory.Metal3Client.CandidateMeans | internal/inventory/metal3.go:142-187 | which hosts a search may offer: unclaimed, working, available, of the namespace, type and manager asked for, with the default |
| InventoryLabels.BuildLabels | internal/controller/baremetalinstance_controller.go:246-262 | plain labels overridden by persistent ones, then the pool label, key by key |
| InventoryLabels.CollectLabels | internal/controller/baremetalinstance_controller.go:738-748 | the plain labels' keys, the pool label's for a pooled instance, and no other, so no persistent one |
| InventoryLabels.OpenStackCarried | internal/inventory/openstack.go:295-314 | while the host is claimed it carries the pool label, the persistent, the plain ones, the owner mark and the old labels, in this order of precedence |
| InventoryLabels.Metal3Carried | internal/inventory/metal3.go:226-250 | the same under the prefix |
| InventoryLabels.Metal3Foreign | internal/inventory/metal3.go:226-274 | labels without the prefix never change |
| InventoryLabels.OpenStackClosedForm | internal/inventory/openstack.go:295-393 | any positive numbers of assigns and unassigns leave, key by key, the persistent label or else the old one, but no plain key, no pool key of a pooled instance and no owner |
| InventoryLabels.Metal3ClosedForm | internal/inventory/metal3.go:226-274 | the same for prefixed labels |
| InventoryLabels.PersistentSurvive | api/v1alpha1/baremetalinstance_types.go:69-74 | persistent labels outlive the instance if and only if none has a plain label's key, the pool key of a pooled instance or the owner key |
| InventoryLabels.Metal3PersistentSurvive | internal/inventory/metal3.go:270-272 | the same on Metal3 |
| InventoryRetries.LifeOnOpenStack | internal/inventory/openstack.go:263-402 | through the client, with any attempts and any failed reads and writes, a claim and its release leave the closed form, key by key, and no owner |
| InventoryRetries.LifeOnMetal3 | internal/inventory/metal3.go:204-281 | the same on Metal3 |
| HostTypes.SortSlice | internal/controller/baremetalpool_controller.go:709-711 | a permutation in strictly ascending order |
| HostTypes.LessMeans | internal/controller/baremetalpool_controller.go:709-711 | the order of the status is the byte-wise one: smaller at the first difference, or a proper prefix |
| PoolScaler.PoolReconciler.ListAndGroup | internal/controller/baremetalpool_controller.go:305-337 | each group names exactly the pool's live instances of its type, each once, in whatever order they are listed |
| PoolScaler.PoolReconciler.Create | internal/controller/baremetalpool_controller.go:570-642 | a created instance carries the pool's namespace and label and the host type, under a new name |
| PoolScaler.PoolReconciler.ScaleUp | internal/controller/baremetalpool_controller.go:373-394 | makes delta Create calls, or stops at the first that fails; touches no other type; the group still counts the live instances unless that call landed |
| PoolScaler.PoolReconciler.ScaleDown | internal/controller/baremetalpool_controller.go:397-424 | deletes from the end of the list, never a placeholder, and stops at the first call that fails; what is left is a prefix of it |
| PoolScaler.PoolReconciler.UpdateStatusHostSets | internal/controller/baremetalpool_controller.go:699-714 | sorted, positive and equal to the group sizes, in every map order |
| PoolScaler.PoolReconciler.ReconcileInstances | internal/controller/baremetalpool_controller.go:340-370 | in every map order: with work for w calls it succeeds if and only if the next w calls do; the status is sorted and positive, and equals the live counts if and only if the first of them that is not acknowledged has not landed; on success the counts are those of the spec; survivors are a prefix; other pools are untouched; if the counts match there is no call |
| PoolGroups.WorkDone | internal/controller/baremetalpool_controller.go:340-370 | no Create or Delete call is needed if and only if the counts are those of the spec |
| PoolScaler.LostCreateMiscounts | internal/controller/baremetalpool_controller.go:378-390 | a Create that landed and was reported as failed leaves a wrong status |
| PoolScaler.PoolReconciler.DeleteAll | internal/controller/baremetalpool_controller.go:495-505 | succeeds exactly if one call per instance that was not being deleted does; then every instance of the pool is being deleted; no other is touched |
| PoolUpdate.PoolUpdater.constructor | internal/controller/baremetalpool_controller.go:58-93 | each interval and the history limit is kept if positive, and else replaced by its default |
| PoolUpdate.PoolUpdater.CheckReady | internal/controller/baremetalpool_controller.go:427-466 | ready exactly if the list succeeds and every live instance is Ready |
| PoolUpdate.PoolUpdater.Admit | internal/controller/baremetalpool_controller.go:155-200 | passes exactly with a valid profile, a version and the finalizer; a rejected profile or a missing provider is not an error, a version that cannot be computed and an unacknowledged write are |
| PoolUpdate.PoolUpdater.Settle | internal/controller/baremetalpool_controller.go:212-241 | a template run that fails or has to wait is passed on; else the readiness of the instances decides |
| PoolUpdate.PoolUpdater.HandleUpdate | internal/controller/baremetalpool_controller.go:155-241 | from the checks and the fates of the calls, exactly when it fails, what it returns and which phase it leaves; exactly when the pool ends Ready and when its status is exact; without error and requeue it is Ready or its profile was rejected; Ready means counts equal to the spec |
| PoolUpdate.PoolUpdater.HandleUpdateTwice | internal/controller/baremetalpool_controller.go:203-210 | the second of two passes makes no Create or Delete call and changes no instance; it ends Ready exactly if the instances are |
| PoolUpdate.StaleReady | internal/controller/baremetalpool_controller.go:212-221 | a Ready pool whose only instance is not Ready |
| PoolUpdate.FailedTemplateReady | internal/controller/baremetalpool_controller.go:212-240 | a pool that ends Ready in the pass that reports its own template as failed |
| PoolUpdate.PoolUpdater.HandleDeletion | internal/controller/baremetalpool_controller.go:469-549 | the finalizer goes exactly if the list was read and named no instance of the pool, in any state, the teardown is over and the write lands; until then all of them get deleted, and nothing else changes; error, result and phase of every case, a running or failed teardown included |

## Left out

- Stale caches, several operator processes, time, back-off and fairness: a run is any sequence of actions.
- The provisioning and deprovisioning library, job history and configuration hashing: any answer.
- Kubernetes client and watch plumbing, HTTP, authentication and the retry after a reconnect: each call succeeds or fails.
- Whether a status set before an Update in the same reconcile is persisted: how the client merges the answer is not part of this model.
- Whether a restart physically happens: the Progressing condition is shared with ordinary power transitions, so a trigger changed during one can be marked done without a reboot.
- The OpenStack management backend: in InstanceManagement its calls answer anything.
- The pool ID that a Metal3 host reports: it is written under one key and read under another.
- Condition messages, the Allocated and the deprovisioning condition, events and log lines.
- Profile loading and validation, environment variables, Helm charts and RBAC.
- The defaults of the provisioning poll interval and of the job history limit: they are constants of the provisioning library, and parameters here.
- A crash in the middle of `InstanceController.InstanceReconciler.Reconcile`: it is an action of the state machine, where the safety results cover it, but the method runs to its end.
- Finalizers of others: an instance disappears with the operator's last finalizer.
- A change of the template that makes a provider necessary or unnecessary while an instance exists.
- PoolScaler.PoolReconciler.Create: an existing object of the same name, which the code counts as created, does not occur because names are fresh.
- InstanceController.InstanceReconciler.ReconcileManagement: the backend's answers are given values; how they change while reconciles run is the subject of PowerLoop.
- ClaimPools.HandleUpdate: the scaling itself is followed call by call, by ClaimPools.CreateMirrors and ClaimPools.DeleteMirrors, and not as one run; the machine allows the deletion of an instance at any time.
- InventoryRetries.LifeOnOpenStack: for labels that do not use the reserved key; with it a repeated attempt finds the mark of somebody else, as OpenStackInventory.OwnerRecorded says.
- ClaimTermination.FulfilmentTerminates: newly created instances are not bounded, so none is created in its runs.
- PowerLoop.PowerConverges: for a fixed strategy and a host that nobody else powers on or off.
