# Virtink, verified

A Dafny model of the controllers of virtink, which runs virtual machines on Kubernetes, and proofs of what they promise
together. `dafny verify dfyconfig.toml` checks the whole project.

## What is modelled

**The life of a VM** (`Vm`, `Reconcile`, `Controllers`, `Protocol`, `Legality`, `Safety`, `Guests`, `Histories`,
`Migrations`, `Witness`). Several kinds of actors share one VirtualMachine object: the cluster controller, one daemon per
node, and one migration controller pass per VirtualMachineMigration. `Reconcile` gives every pass as a function of what it read and of
the outcomes of its calls; `Controllers` holds the passes as the program runs them, on objects changed in place, each
proved to compute its function. `Protocol` is the state machine: every actor may read any version of the object that was
ever accepted, acts on the cluster at once, and later writes its status, which is accepted only if the version it read is
still the newest. Users edit, pods come and go, guests stop and move at any time between. `Legality` states which version
may follow which without referring to how a pass computes it; the theorems are about every run from a new VM.

**Replica sets** (`Expectations`, `Scaling`, `Rounds`). The expectations store is a class with its counters and UID sets;
`Scaling` is the state machine of one replica set over a server, a lagging cache, undelivered events and the store;
`Rounds` holds the scaling method with its in-place sort and what whole sequences of rounds reach.

**Hotplugged volumes** (`VolumePods`, `VolumeStatus`, `VolumePasses`, `VolumePhases`, `VolumeSources`,
`VolumeRuns`, `MountRecord`). The volume pod that is matched and replaced, the volume phases that the controller and the
daemon move in turn, the pods that volumes are mounted from, and the mount record that survives a crash.

**Admission and start-up arithmetic** (`Updates`, `Mutation`, `Mutator`, `Addresses`, `Cpuset`). Filling in a VM,
validating it and its updates, the addresses of a masqueraded interface, and the CPU list that vCPUs are pinned onto.

`Options`, `Specs` and `Volumes` hold what these modules share.

## Assumptions about the surroundings

- Reads of pods are current and made at one instant; a pod that is gone, or has succeeded or failed, holds no guest.
- The hypervisors hand a guest over in one step, after which the source process has ended. A receiving hypervisor counts
  as not created until then.
- Names and UIDs that the cluster generates are new. One pass of the cluster controller over a VM runs at a time.
- From outside, only `powerAction`, the run policy and the deletion mark of the VM are edited.
- Pod names, UIDs, nodes and volumes are numbers, 0 standing for the empty string; quantities are exact reals.
- Writing the mount record file, and each mount and unmount, is one step that happens or does not.
- In `Scaling` there is no expiry of expectations, no relabelling, no revival of a finished VM, and a failed create has
  created nothing. Runs start from a controller that has just started: its cache is up to date, it expects nothing, and
  the events of the first listing have been handled before the first reconcile. A VM that stops being active with no
  expectation to show for it is collected in `lost`.
- UIDs of volume pods are distinct.

## Where the code differs from what one would expect

- The cluster controller compares the status value with a pointer to a status (`pkg/controller/vm_controller.go:62-77`),
  so it issues the update every time, and pods are collected only after an update that was accepted. The model does this.
- No version of a VM ever has a migration in phase Pending (`Histories.PendingIsNeverWritten`); the code tests for it and
  the model keeps the test.
- A volume gone from the spec is looked up with a misplaced `break` (`pkg/controller/vm_controller.go:1121-1133`): a later
  pod takes over when the volume is its very first one. `VolumePhases.LookupsAgreeIff` says exactly when this differs from
  the other lookup. For the pods that are built it never does, except for a volume that bears the name `hotplug` of their
  directory, and then exactly if there are two pods or more: `VolumePhases.BuiltLookupsAgree`,
  `VolumePhases.DirectoryNameAgreesIff` and the input of `VolumePhases.DirectoryNameMisleads`.
- Ready does not imply that the disk is in the guest: `VolumeRuns.ReadyButUnplugged` is a run that shows it and
  `VolumeRuns.WholePassKeepsPluggedIff` the exact condition.
- In a mount pass the pod of the first attached volume stays the source for all volumes behind it, whatever their phase and
  pod (`pkg/daemon/vm_controller.go:489-492`): `VolumeSources.PendingIsMounted` is a status in which a volume without a pod
  is mounted from its neighbour's, which does not have it, so that mount fails and the pass with it.
  `VolumeSources.MountsFromOwnPodsIff` is the exact condition.
- The mount record is looked up by volume name only, so a second VM pod on the same node is not covered:
  `MountRecord.SecondPodIsForgotten` and `MountRecord.MountOneSafeIff`.
- A volume pod gets matched only if the cluster adds exactly one volume to it: `VolumePods.SettlesIff` and
  `VolumePods.RetryConvergesIff`.
- Expectations replaced after they expired can drive the deletion counter below zero: `Expectations.ExpiryUnbalances`,
  with the exact condition over runs in `Expectations.BalancedThroughoutIff`.
- A dedicated VM whose CPU count wraps to zero does not pass its own checks: `Mutation.WrappedCountFails`, with the exact
  condition in `Mutation.MutatedPassesIff`.
- The loop over a CPU range that ends at the largest integer is never done, since its 64-bit variable wraps around:
  `Cpuset.LargestRangeDiverges`, with the exact condition in `Cpuset.LoopEndsIff`.

## Model

| member | source | states |
|---|---|---|
| Controllers.DeleteAllVMPods | pkg/controller/vm_controller.go:1278-1298 | reports that no pod is left exactly if there was none; otherwise marks the pods before the first failing call, all of them if no call fails |
| Controllers.CollectVMPods | pkg/controller/vm_controller.go:1255-1276 | deletes exactly the listed pods the status does not name, up to the first call that fails |
| Controllers.ReconcileVM | pkg/controller/vm_controller.go:96-361 | the in-place pass computes the pass the protocol is built from: status, cluster, error and finalizer removal; from a consistent state it makes one of the allowed moves, and it starts the VM or lets the object go only with no pod left |
| Controllers.ReconcileScheduling | pkg/controller/vm_controller.go:126-207 | the Scheduling and Scheduled branch, with its early error returns |
| Controllers.ReconcileRunning | pkg/controller/vm_controller.go:208-326 | the Running branch: pod state first, then migration or hotplug |
| Controllers.ReconcileMigration | pkg/controller/vm_controller.go:244-318 | naming, creating and following the target pod of a migration |
| Controllers.ReconcileOnNode | pkg/daemon/vm_controller.go:95-428 | the daemon's pass computes the pass the protocol is built from: status, hypervisors and the migration it sends; from a consistent state it makes one of the allowed moves and sends only the guest of a Running VM |
| Controllers.BootGuest | pkg/daemon/vm_controller.go:123-179 | creating and booting in the named pod of a Scheduled VM |
| Controllers.WatchGuest | pkg/daemon/vm_controller.go:180-256 | run policy, power actions and guest exit of a Running VM |
| Controllers.HandOver | pkg/daemon/vm_controller.go:257-413 | the daemon phases of a migration on either node |
| Controllers.DeleteGuest | pkg/daemon/vm_controller.go:887-902 | deleting the guest of a VM that is being deleted |
| Controllers.ReconcileVMM | pkg/controller/vmm_controller.go:57-110 | taking, following and releasing the migration slot; the VM status makes one of the allowed moves, and a taken slot is given up only by a migration that has ended |
| Legality.ControllerPassLegal | pkg/controller/vm_controller.go:96-361 | from any consistent state a controller pass makes one of its allowed moves, keeps names, UIDs and nodes consistent, and starts the VM or lets the object go only when no pod is left |
| Legality.DaemonPassLegal | pkg/daemon/vm_controller.go:95-428 | a daemon pass makes one of its allowed moves and sends only the guest of a Running VM |
| Legality.DaemonPassWorld | pkg/daemon/vm_controller.go:123-256 | a daemon changes at most the hypervisor of the pod the VM names, on its own node, and never revives one that exited |
| Legality.MigratorPassLegal | pkg/controller/vmm_controller.go:57-110 | a migration controller takes a free slot or releases its own, the latter only when its migration has ended |
| Safety.NextKeepsObject | pkg/controller/vm_controller.go:62-91 | every step of every actor, of users and of the cluster keeps the whole history a chain of legal versions and every pending write legal for the version it read |
| Guests.BootKeepsGuests | pkg/daemon/vm_controller.go:123-179 | booting on behalf of any version, however old, cannot make a second guest |
| Guests.MoveKeepsGuests | pkg/daemon/vm_controller.go:336-400 | a migration moves the guest, whenever and for whomever it was sent |
| Guests.NextKeepsGuests | pkg/daemon/vm_controller.go:95-428 | every step keeps the single-guest invariant |
| Guests.AtMostOneGuest | pkg/controller/vm_controller.go:327-352 | in every reachable state at most one pod holds a guest of the VM, across restarts, migrations, stale reads and lost updates |
| Histories.MigrationOnlyAdvances | pkg/controller/vm_controller.go:244-318 | every accepted write of a running VM moves the migration by one stage, or fails it where it may fail, and only the one actor in charge of the phase does so |
| Histories.MigrationNeverGoesBack | pkg/daemon/vm_controller.go:257-413 | while one migration holds the slot, over any number of versions, its stage never falls, an ended migration stays ended, and Sent never becomes Failed |
| Histories.RunningNamesOnePod | pkg/controller/vm_controller.go:158-164 | in every Running version pod name, pod UID and node belong to one and the same registered pod |
| Histories.RunningStaysInPlace | pkg/daemon/vm_controller.go:387-400 | while Running the three change only in the one write from Sent to Succeeded of the target daemon, and a VM in migration becomes Succeeded only because it is being deleted |
| Histories.SourceCompletionIsIgnored | pkg/controller/vm_controller.go:224-238 | in every run, a controller pass that reads a version with a taken slot when the named pod has already succeeded leads, whatever others do before its update, to no version or to one that is Running with its slot |
| Histories.PendingIsNeverWritten | pkg/controller/vm_controller.go:244-318 | no version of any run has a migration in phase Pending |
| Histories.MigrationImpliesRan | pkg/controller/vm_controller.go:244-285 | a migration past its first phase exists only on a VM that is Running, Succeeded, Failed or Unknown, so booting is never enabled during one |
| Histories.StartsAreBounded | pkg/controller/vm_controller.go:327-356 | starts over a whole run: none when Halted, at most the PowerOn requests when Manual, one more for Once, and one more per failure for RerunOnFailure |
| Histories.HaltedNeverRuns | pkg/controller/vm_controller.go:327-352 | a VM that stays Halted never has a guest |
| Histories.CollectionSparesNamedPods | pkg/controller/vm_controller.go:62-91 | a pod that may be collected is not named by the newest status, whatever was written since the controller's own update |
| Migrations.SucceededMeansSwitched | pkg/controller/vmm_controller.go:75-107 | a migration object reports Succeeded only if the VM was switched to its target under that UID |
| Migrations.TerminalPhaseIsFinal | pkg/controller/vmm_controller.go:75-107 | once a migration object has ended, its phase never changes |
| Migrations.SlotReleasedProperly | pkg/controller/vmm_controller.go:75-95 | a slot is given up only by its ended owner or by the blank status of a restart |
| Witness.MigrationCanSucceed | pkg/daemon/vm_controller.go:257-413 | some run from a new VM ends with the guest in the target pod, the status switched to it, and the migration object Succeeded |
| Expectations.UIDTracking.SatisfiedExpectations | pkg/controller/expectations/expectations.go:119-151 | fulfilled, expired, or never set |
| Expectations.UIDTracking.SetExpectations | pkg/controller/expectations/expectations.go:160-166 | replaces the counters of one controller and of no other |
| Expectations.UIDTracking.ExpectCreations | pkg/controller/expectations/expectations.go:168-170 | replaces the counters and leaves the tracked UIDs |
| Expectations.UIDTracking.ExpectDeletions | pkg/controller/expectations/expectations.go:297-312 | tracks exactly the given keys and counts each once |
| Expectations.UIDTracking.LowerExpectations | pkg/controller/expectations/expectations.go:177-183 | lowers the counters of one controller, if it has any |
| Expectations.UIDTracking.CreationObserved | pkg/controller/expectations/expectations.go:195-197 | one creation less |
| Expectations.UIDTracking.DeletionObserved | pkg/controller/expectations/expectations.go:332-342 | one deletion less exactly if the key is tracked, and it is tracked no more |
| Expectations.UIDTracking.DeleteExpectations | pkg/controller/expectations/expectations.go:346-358 | forgets one controller and no other |
| Expectations.CounterNeverExceedsTracked | pkg/controller/expectations/expectations.go:297-342 | over any run of the operations the deletion counter is at most the number of tracked UIDs |
| Expectations.CounterEqualsTracked | pkg/controller/expectations/expectations.go:297-342 | over any run that sets new expectations only after fulfilment the two are equal, so the counter is never negative |
| Expectations.CreationsKeepBalanceIff | pkg/controller/expectations/expectations.go:160-170 | expecting creations keeps them equal exactly if no UID is tracked |
| Expectations.BalancedThroughoutIff | pkg/controller/expectations/expectations.go:297-342 | a run keeps counter and tracked UIDs equal throughout exactly if no UID is tracked whenever creations are expected |
| Expectations.ExpiryUnbalances | pkg/controller/expectations/expectations.go:119-151 | expectations that are unfulfilled and expired are replaced, and the counter becomes negative |
| Expectations.DeletionCountedOnce | pkg/controller/expectations/expectations.go:332-342 | observing a deletion twice counts it once |
| Scaling.NextKeepsInv | pkg/controller/vmrs_controller.go:110-163 | every call, cache update, event and outside change keeps creations and deletions in flight accounted for |
| Scaling.NeverOvershoots | pkg/controller/vmrs_controller.go:110-163 | in every run, while a reconcile creates, the active VMs on the server and the creates to come never exceed the replica count it read |
| Scaling.NeverUndershoots | pkg/controller/vmrs_controller.go:164-183 | in every run, while a reconcile deletes, it has listed at least as many others as the replica count it read, deletes none of them, and each is active on the server or was itself lost; so the active VMs it leaves fall short by no more than the listed ones that were lost |
| Scaling.LostAreGone | pkg/controller/vmrs_controller.go:499-525 | a VM counts as lost only if it is not active on the server |
| Scaling.SyncSeesEverything | pkg/controller/vmrs_controller.go:112-125 | a reconcile that may scale lists every active VM of the server and no others but those lost without an expectation |
| Scaling.BothHappen | pkg/controller/vmrs_controller.go:110-183 | a run from a fresh start creates with a call to come and later deletes with a call to come |
| Rounds.SortNewestFirst | pkg/controller/vmrs_controller.go:553-563 | sorts in place, newest first, and is a permutation |
| Rounds.GetVMsToDelete | pkg/controller/vmrs_controller.go:565-572 | picks a prefix none of whose VMs is older than one left |
| Rounds.CreateVMs | pkg/controller/vmrs_controller.go:152-163 | creates as many VMs as calls succeed, and expects exactly these |
| Rounds.DeleteVMs | pkg/controller/vmrs_controller.go:164-183 | deletes exactly the victims whose calls succeed, and tracks exactly these |
| Rounds.ScaleVMs | pkg/controller/vmrs_controller.go:134-192 | one round: at most ten VMs, in the right direction, with the expectations left behind for every pattern of failing calls |
| Rounds.DistanceShrinks | pkg/controller/vmrs_controller.go:141-151 | after k rounds the distance to the replica count is less by ten times k, down to zero |
| Rounds.ReachesReplicas | pkg/controller/vmrs_controller.go:141-151 | the count is exactly `replicas` from the round ceil(distance / 10) on and not before, and then nothing changes |
| Rounds.SurvivorsAreOldest | pkg/controller/vmrs_controller.go:553-572 | across all rounds of a scale-down no surviving VM is newer than a deleted one |
| VolumePods.IsPodMatch | pkg/controller/vm_controller.go:967-982 | the loops over maps decide the length and subset test |
| VolumePods.MatchIsSetEquality | pkg/controller/vm_controller.go:967-982 | with distinct names and two volumes that are no claims the test is equality of names |
| VolumePods.MatchIsRightIff | pkg/controller/vm_controller.go:967-982 | the test is right for every wanted list exactly if the pod has two volumes that are no claims |
| VolumePods.HotplugVolumes | pkg/controller/vm_controller.go:932-946 | the loop lists the hotpluggable volumes of the spec that the VM pod does not have, in order |
| VolumePods.HotpluggedNames | pkg/controller/vm_controller.go:932-946 | exactly those names, each once if the spec has each once |
| VolumePods.PodStore.Handle | pkg/controller/vm_controller.go:879-930 | unreadable readiness fails and waiting returns without a change; otherwise the pods become those of the pass function for the calls that succeed |
| VolumePods.PodStore.DeleteOld | pkg/controller/vm_controller.go:919-928 | deletes the listed pods that are not current, in order, up to a failing call |
| VolumePods.BuiltClaims | pkg/controller/vm_controller.go:984-1067 | a new volume pod claims exactly the wanted volumes, and matches them exactly if the cluster adds one volume |
| VolumePods.OneLivePod | pkg/controller/vm_controller.go:879-930 | after a pass that gets through at most one volume pod is not terminating, and it carries exactly the ready volumes |
| VolumePods.RetryConvergesIff | pkg/controller/vm_controller.go:896-928 | a pass cut short at any call and retried reaches what one pass would have reached exactly if a pod was kept, nothing was wanted, the first attempt made no call, or the cluster adds one volume to new pods |
| VolumePods.SettlesIff | pkg/controller/vm_controller.go:896-928 | a second pass changes nothing exactly if a pod was kept, nothing was wanted, or the cluster adds one volume to new pods |
| VolumePasses.VolumeState.UpdateStatus | pkg/controller/vm_controller.go:1069-1150 | entries of the spec in order, then the leftovers that still have a pod in any order; asks to come back exactly if one is Pending |
| VolumePasses.VolumeState.MountVolumes | pkg/daemon/vm_controller.go:464-514 | the phases after a mount pass that may stop at any failing mount, and which volume it mounted from which pod; once a volume is mounted its pod is the source, and every later volume is mounted |
| VolumePasses.VolumeState.AddToGuest | pkg/daemon/vm_controller.go:712-758 | the phases and the guest's disks after an add pass that may stop at any failing call |
| VolumePasses.VolumeState.RemoveFromGuest | pkg/daemon/vm_controller.go:760-775 | unplugs the listed disks that are not in the spec; if it gets through, all of them |
| VolumePasses.HotplugIsEnough | pkg/controller/vm_controller.go:1134-1140 | the update writes into a missing hotplug part for no status the controller has written |
| VolumePasses.FindLastPod | pkg/controller/vm_controller.go:1121-1133 | which pod the search for a leftover volume ends with, breaks where they are; none exactly if no pod has the volume |
| VolumePhases.NoPodIff | pkg/controller/vm_controller.go:1121-1133 | the search for a leftover volume finds nothing exactly if no pod has it |
| VolumePhases.LookupsAgreeIff | pkg/controller/vm_controller.go:1096-1133 | it ends with the pod the search for a volume of the spec ends with, exactly if no pod after that one has the volume first |
| VolumePhases.BuiltLookupsAgree | pkg/controller/vm_controller.go:1018-1023 | for pods as they are built the two agree on every volume not named like their directory |
| VolumePhases.DirectoryNameAgreesIff | pkg/controller/vm_controller.go:1018-1023 | on a volume of that name they agree exactly if there is at most one pod |
| VolumePhases.DirectoryNameMisleads | pkg/controller/vm_controller.go:1121-1133 | two built pods on which they differ |
| VolumePhases.UpdateKeepsDistinct | pkg/controller/vm_controller.go:1069-1142 | names stay distinct, and an entry for a volume gone from the spec is Detaching and still has a volume pod |
| VolumePhases.UpdateMoves | pkg/controller/vm_controller.go:1081-1120 | AttachedToNode is entered only from Pending or nothing, with a running volume pod; no other forward move is made |
| VolumePhases.MountsMove | pkg/daemon/vm_controller.go:464-514 | only AttachedToNode entries move, and only to MountedToPod, wherever the pass stops |
| VolumePhases.MountsComplete | pkg/daemon/vm_controller.go:464-514 | a pass that gets through has moved exactly the attached volumes of the spec to MountedToPod |
| VolumePhases.AddsMove | pkg/daemon/vm_controller.go:712-758 | only MountedToPod entries move, only to Ready, and only with their disk in the guest |
| VolumePhases.AddsComplete | pkg/daemon/vm_controller.go:712-758 | a pass that gets through has made exactly the mounted volumes of the spec Ready |
| VolumePhases.RemovesSpare | pkg/daemon/vm_controller.go:760-775 | no disk of the spec is unplugged; with enough calls exactly the listed others are |
| VolumeSources.MountsFromOwnPodsIff | pkg/daemon/vm_controller.go:489-504 | a pass that gets through mounts every volume from its own pod exactly if all that take part are of the given source, or without one all behind an attached volume are of its pod |
| VolumeSources.OnePodIsOneSource | pkg/controller/vm_controller.go:1096-1120 | after an update that found all volumes in one pod, that is so |
| VolumeSources.PendingIsMounted | pkg/daemon/vm_controller.go:489-504 | the update writes a status in which a volume with no pod is mounted from the pod of the attached one before it |
| VolumeRuns.RunKeepsInv | pkg/controller/vm_controller.go:1069-1142 | over every run, with stale reads and lost updates, names stay distinct and successive versions obey the phase moves |
| VolumeRuns.ReadyCameThroughMount | pkg/daemon/vm_controller.go:445-514 | in every run, a volume that is Ready was attached, then mounted, then made Ready, without a gap, with its disk in the guest at that write |
| VolumeRuns.ReadyMeansPlugged | pkg/daemon/vm_controller.go:712-775 | in every run whose daemon passes have all Ready volumes in their spec, Ready volumes are in the guest |
| VolumeRuns.WholePassKeepsPluggedIff | pkg/daemon/vm_controller.go:712-775 | a whole daemon pass keeps this exactly if its spec has every Ready volume |
| VolumeRuns.ReadyButUnplugged | pkg/daemon/vm_controller.go:712-775 | a run, over a volume pod as it is built, in which a volume taken out and put back stays Ready and is not plugged in again |
| MountRecord.Node.MountVolume | pkg/daemon/vm_controller.go:516-591 | notes the volume, then mounts it; stops at the first effect that fails |
| MountRecord.Node.MountAll | pkg/daemon/vm_controller.go:464-514 | the record and the mounts after as many effects of a mount pass as succeed |
| MountRecord.Node.UnmountExcept | pkg/daemon/vm_controller.go:613-662 | unmounts what is not kept, then rewrites the record; stops at the first effect that fails |
| MountRecord.MountingIsSafe | pkg/daemon/vm_controller.go:516-591 | after any number of effects of a mount pass every mount is recorded and every volume recorded once |
| MountRecord.UnmountingIsSafe | pkg/daemon/vm_controller.go:613-662 | the same for a partial unmount or a full cleanup |
| MountRecord.NothingMountedIsForgotten | pkg/daemon/vm_controller.go:831-863 | for one VM pod, after any passes each stopped at any effect, every mount is in the persisted record, which holds each volume at most once |
| MountRecord.CleanupIsComplete | pkg/daemon/vm_controller.go:646-662 | a cleanup that gets through leaves nothing mounted and nothing recorded |
| MountRecord.MountOneSafeIff | pkg/daemon/vm_controller.go:831-843 | a mount stays covered exactly if the record has no other mount point for the volume |
| MountRecord.SecondPodIsForgotten | pkg/daemon/vm_controller.go:831-843 | a second VM pod's mount is made and never recorded |
| Updates.ValidateUpdate | pkg/controller/vm_webhook.go:792-836 | the loops report exactly the complaints of the specification, in order |
| Updates.DuplicateNames | pkg/controller/vm_webhook.go:306-314 | no complaint exactly if volume names are distinct |
| Updates.AcceptedIff | pkg/controller/vm_webhook.go:792-836 | with distinct new names an update passes exactly if no other field changed, the non-hotpluggable volumes are the same, and a volume that stays is unchanged |
| Updates.FixedKeptIff | pkg/controller/vm_webhook.go:803-834 | an update without complaint keeps the non-hotpluggable volumes exactly if none of the new ones stands behind another volume of its name |
| Updates.ChainKeepsFixed | pkg/controller/vm_webhook.go:230-237 | along any chain of admitted updates the non-hotpluggable volumes and all other fields stay constant |
| Updates.HiddenVolumeSlipsIn | pkg/controller/vm_webhook.go:803-834 | without unique names the update check lets such a volume in |
| Mutator.VmObject.Mutate | pkg/controller/vm_webhook.go:73-185 | fills the VM in place as specified, also where one new list becomes requests and limits; fails exactly if an address is needed and none can be generated |
| Mutator.VmObject.FillReserved | pkg/controller/vm_webhook.go:94-126 | the dedicated-CPU part; the two lists are one object only if both were missing |
| Mutator.VmObject.FillHugepages | pkg/controller/vm_webhook.go:128-149 | the hugepages part, on separate lists and on one shared list |
| Mutator.VmObject.FillInterfaces | pkg/controller/vm_webhook.go:151-183 | each address is kept, taken from the old VM, or new; bindings and CIDR get their defaults |
| Mutator.CheckResources | pkg/controller/vm_webhook.go:246-302 | reports exactly the dedicated-CPU and hugepages complaints, in order |
| Mutation.MutateIsIdempotent | pkg/controller/vm_webhook.go:73-185 | mutating a mutated VM changes nothing, whatever the old VM and the new addresses of the second time |
| Mutation.MutatedPassesIff | pkg/controller/vm_webhook.go:246-302 | a VM without requests and limits passes all resource checks once mutated exactly if, where CPUs are dedicated, its CPU count, 0 read as 1, does not wrap to zero and its memory size does not cancel the overhead |
| Mutation.WrappedCountFails | pkg/controller/vm_webhook.go:94-103 | 65536 sockets of 65536 cores wrap to zero and fail |
| Mutation.MutatedPasses | pkg/controller/vm_webhook.go:246-302 | so it passes with memory size positive or unset and a CPU count below 2^32 |
| Addresses.Next | cmd/virt-prerunner/main.go:510-518 | a new array with the incremented bytes; the given address is left as it was |
| Addresses.IncrementIsModulo | cmd/virt-prerunner/main.go:510-518 | the increment is big-endian plus one modulo 256^n |
| Addresses.NextIP | cmd/virt-prerunner/main.go:510-523 | the next address, and an error exactly if it has left the subnet |
| Addresses.SameNetworkIff | cmd/virt-prerunner/main.go:519-521 | comparing bytes under the mask compares the numbers without their host bits |
| Addresses.InNetworkIff | cmd/virt-prerunner/main.go:519-521 | an address is in a subnet exactly if it lies between the first and the last address |
| Addresses.ValidateCIDR | pkg/controller/vm_webhook.go:533-552 | accepts exactly a CIDR that parses and whose 64-bit size is not below the capacity |
| Addresses.FourFitIff | pkg/controller/vm_webhook.go:533-552 | for capacity 4 that is 2 to 62 host bits |
| Addresses.MasqueradeAddresses | cmd/virt-prerunner/main.go:450-484 | bridge and VM get the two addresses after the network's own, in the subnet and before its last address, exactly if there are two host bits or more |
| Addresses.AdmittedHasRoom | pkg/controller/vm_webhook.go:533-552 | every CIDR (prefix notation, section 3.1 of RFC 4632) admitted with capacity 4 has room for both before the last address of the subnet |
| Cpuset.Parse | pkg/cpuset/cpuset.go:38-72 | the loops compute the outcome of the list: rejected, a set, or never done where a range's own loop is never done |
| Cpuset.AddRange | pkg/cpuset/cpuset.go:66-68 | the loop, followed for one cycle of its 64-bit variable, is done exactly if it ever ends, and has then added exactly the range |
| Cpuset.LoopEndsIff | pkg/cpuset/cpuset.go:66-68 | some number of increments takes the variable above the end exactly if the end is below the largest integer |
| Cpuset.LoopVisits | pkg/cpuset/cpuset.go:66-68 | a loop that ends has visited exactly the range |
| Cpuset.SplitJoins | pkg/cpuset/cpuset.go:45-45 | the pieces hold no comma and joined by commas give the list back |
| Cpuset.ParsedIsUnion | pkg/cpuset/cpuset.go:38-72 | accepted exactly if every piece is a range; then exactly the union of the ranges, with no negative CPU |
| Cpuset.ParseOfShown | pkg/cpuset/cpuset.go:38-72 | parsing the printed form of any ranges gives exactly their union |
| Cpuset.LargestRangeDiverges | pkg/cpuset/cpuset.go:66-68 | parsing a range that ends at the largest integer is never done: no number of increments takes the loop variable above it |
| Cpuset.ToSlice | pkg/cpuset/cpuset.go:74-81 | an increasing list of exactly the CPUs, whatever order the map yields them in |
| Cpuset.IncreasingUnique | pkg/cpuset/cpuset.go:74-81 | there is only one such list |
| Cpuset.PinVcpus | cmd/virt-prerunner/main.go:130-149 | an error exactly if the counts differ; otherwise vCPU i gets the i-th CPU in increasing order, so every CPU of the set is used by exactly one vCPU |

## Left out

- Events, conditions, readiness, the finalizer's addition, pod IPs and ports, TLS relays and migration control blocks:
  they are outcomes of calls in `ControllerCalls` and `DaemonCalls`, or not modelled.
- Controllers.ReconcileVM: does not state the finalizer's addition, and a pod read that fails for another reason than a
  missing pod is not modelled.
- Controllers.ReconcileScheduling: hotplug handling is one outcome of a call here; `VolumePods` and `VolumeStatus` model it.
- Controllers.ReconcileRunning: conditions and hotplug handling are outcomes of calls.
- Controllers.ReconcileOnNode: does not state the error it returns, and the hotplug passes are those of `VolumePasses`.
- Controllers.WatchGuest: the hotplug passes after it are those of `VolumePasses`.
- Controllers.HandOver: does not state the target's IP and port, nor the control blocks of transfers under way.
- Controllers.ReconcileVMM: does not state the node names that the migration object records.
- What pods hold beyond names, phases, nodes and volume names: containers, mounts, annotations and affinity.
- Liveness: that a migration or a scale-up in the stale-cache model finishes; `Rounds` assumes delivered events.
- "A migration is sent once" and "volumes are unmounted before the finalizer goes": a rejected status write breaks both.
- Scaling.NeverUndershoots: allows for the listed VMs that were lost, because nothing stops others from deleting VMs.
- Rounds.ReachesReplicas: assumes calls that succeed and events delivered between rounds, as the code's own design does.
- Rounds.ScaleVMs: creates and deletes one VM after the other, where the code starts one goroutine per VM.
- Rounds.CreateVMs: one call after the other.
- Rounds.DeleteVMs: one call after the other.
- `cleanVMs` with more than ten finished VMs, which waits for ten and starts all: the number of calls is not bounded here.
- VolumePods.PodStore.Handle: takes the volume pods in the order of the listing; the sort by creation time is not modelled.
- MountRecord.NothingMountedIsForgotten: for one VM pod per node, see `MountRecord.MountOneSafeIff` for several.
- Updates.ValidateUpdate: all spec fields but run policy, volumes and disks are one value; nil and empty lists are the same.
- Mutator.VmObject.Mutate: quantities do not overflow, and hardware addresses are numbers of a supply that may end.
- Addresses.NextIP: IPv4 addresses written in IPv6 form are compared in all their bytes; the standard library shortens
  them first, which gives the same answer for the two addresses after a network's own.
- Parsing a CIDR text, and the validators of kernels, disks, file systems, interfaces, volume sources and networks.
- Cpuset.Parse: a list is characters, without the trimming done where the file is read.
- Generated clients, the console and API servers, the device plugin, the command-line tool and network set-up commands.
