/** The reconcilers as the program runs them: the VM object read from the API server is changed
    field by field, pods are created, deleted and booted on the way. Each method is proved to
    compute the pass the protocol is built from. */
module Controllers {
  import opened Options
  import opened Specs
  import opened Vm
  import opened Reconcile
  import Legality

  /** A VirtualMachine in memory. */
  class VmObject {
    var phase: Phase
    var podName: Id
    var podUid: Id
    var nodeName: Id
    var powerAction: PowerAction
    var migration: Option<Migration>
    const policy: RunPolicy
    const deleting: bool

    constructor (vm: VM)
      ensures Read() == vm
    {
      phase, podName, podUid := vm.status.phase, vm.status.podName, vm.status.podUid;
      nodeName, powerAction, migration := vm.status.nodeName, vm.status.powerAction, vm.status.migration;
      policy, deleting := vm.policy, vm.deleting;
    }

    function ReadStatus(): Status
      reads this
    {
      Status(phase, podName, podUid, nodeName, powerAction, migration)
    }

    function Read(): VM
      reads this
    {
      VM(ReadStatus(), policy, deleting)
    }
  }

  /** The pods of the VM as the API server holds them. */
  class Cluster {
    var pods: map<Id, Pod>
    var registry: map<Id, Origin>
    var nextId: Id

    function See(): World
      reads this
    {
      World(pods, registry, nextId)
    }

    method GenerateName() returns (name: Id)
      modifies this`nextId
      ensures name == old(nextId) && nextId == old(nextId) + 1
    {
      name := nextId;
      nextId := nextId + 1;
    }

    method Create(name: Id)
      modifies this
      ensures See() == CreatePod(old(See()), name)
    {
      pods := pods[name := Pod(nextId, PodPending, false, NotCreated)];
      registry := registry[nextId := Origin(name, UNSET)];
      nextId := nextId + 1;
    }

    method Delete(name: Id)
      requires name in pods
      modifies this`pods
      ensures pods == old(pods)[name := old(pods)[name].(terminating := true)]
    {
      pods := pods[name := pods[name].(terminating := true)];
    }
  }

  function Prefix(items: seq<Id>, stop: nat): set<Id> {
    set i | 0 <= i < |items| && i < stop :: items[i]
  }

  lemma PrefixGrows(items: seq<Id>, i: nat)
    requires i < |items|
    ensures Prefix(items, i + 1) == Prefix(items, i) + {items[i]}
  {
  }

  /** `items` lists the pods; the deletion of item `stop` is the first call that fails. */
  predicate Listing(items: seq<Id>, stop: nat, pods: map<Id, Pod>, c: ControllerCalls) {
    && (forall i :: 0 <= i < |items| ==> items[i] in pods)
    && (forall n :: n in pods ==> n in items)
    && c.deletesOk == (stop >= |items|)
    && c.deleted == Prefix(items, stop)
  }

  lemma FullPrefix(items: seq<Id>, stop: nat, pods: map<Id, Pod>)
    requires forall i :: 0 <= i < |items| ==> items[i] in pods
    requires forall n :: n in pods ==> n in items
    ensures Prefix(items, |items|) == pods.Keys
  {
    assert Prefix(items, |items|) <= pods.Keys;
    forall n | n in pods ensures n in Prefix(items, |items|) {
      var i :| 0 <= i < |items| && items[i] == n;
    }
  }

  method DeleteAllVMPods(k: Cluster, items: seq<Id>, stop: nat, c: ControllerCalls) returns (deleted: bool, err: bool)
    requires Listing(items, stop, k.pods, c)
    modifies k`pods
    ensures deleted <==> old(k.pods) == map[]
    ensures err <==> !deleted && !c.deletesOk
    ensures k.See() == DeleteAll(old(k.See()), c)
    ensures deleted ==> k.See() == old(k.See())
  {
    ghost var w := k.See();
    FullPrefix(items, stop, k.pods);
    if |items| == 0 {
      assert k.pods == map[];
      assert DeleteAll(w, c).pods == map[];
      return true, false;
    }
    assert items[0] in k.pods;
    assert MarkTerminating(w, Prefix(items, 0)).pods == w.pods;
    for i := 0 to |items|
      invariant i <= stop
      invariant k.See() == MarkTerminating(w, Prefix(items, i))
    {
      if i == stop {
        return false, true;
      }
      PrefixGrows(items, i);
      ghost var next := MarkTerminating(w, Prefix(items, i + 1));
      if !k.pods[items[i]].terminating {
        k.Delete(items[i]);
      }
      assert k.pods == next.pods;
    }
    return false, false;
  }

  /** Collects the pods the VM no longer names: all of them when every call succeeds. */
  method CollectVMPods(vm: VmObject, k: Cluster, items: seq<Id>, stop: nat) returns (err: bool)
    requires forall i :: 0 <= i < |items| ==> items[i] in k.pods
    modifies k`pods
    ensures k.See() == MarkTerminating(old(k.See()), Prefix(items, stop) - NamesOf(vm.ReadStatus()))
    ensures err <==> stop < |items|
  {
    ghost var w := k.See();
    ghost var kept := NamesOf(vm.ReadStatus());
    assert MarkTerminating(w, Prefix(items, 0) - kept).pods == w.pods;
    for i := 0 to |items|
      invariant i <= stop
      invariant k.See() == MarkTerminating(w, Prefix(items, i) - kept)
    {
      if i == stop {
        return true;
      }
      PrefixGrows(items, i);
      ghost var next := MarkTerminating(w, Prefix(items, i + 1) - kept);
      if !k.pods[items[i]].terminating && items[i] != vm.podName &&
         !(vm.migration.Some? && items[i] == vm.migration.value.targetPod)
      {
        k.Delete(items[i]);
      }
      assert k.pods == next.pods;
    }
    assert Prefix(items, stop) == Prefix(items, |items|);
    err := false;
  }

  /* ---------- the moves a pass keeps to ---------- */

  lemma ControllerMoves(vm: VM, w: World, c: ControllerCalls)
    ensures var r := ControllerPass(vm, w, c);
            Legality.WorldOk(w) && Legality.StatusOk(vm.status, w) ==>
              && Legality.ControllerMove(vm, r.status) && Legality.WorldOk(r.world) && Legality.Later(w, r.world)
              && Legality.StatusOk(r.status, r.world)
              && (r.remove || (r.status.phase.Pending? && !vm.status.phase.Pending?) ==> r.world.pods == map[])
  {
    if Legality.WorldOk(w) && Legality.StatusOk(vm.status, w) { Legality.ControllerPassLegal(vm, w, c); }
  }

  lemma DaemonMoves(vm: VM, node: Id, w: World, c: DaemonCalls)
    ensures var r := DaemonPass(vm, node, w, c);
            Legality.WorldOk(w) && Legality.StatusOk(vm.status, w) ==>
              && Legality.DaemonMove(vm, node, r.status) && Legality.StatusOk(r.status, w.(pods := r.pods))
              && (r.send.Some? ==> vm.status.phase.Running? && r.send.value.source == VmPod(vm.status))
  {
    if Legality.WorldOk(w) && Legality.StatusOk(vm.status, w) { Legality.DaemonPassLegal(vm, node, w, c); }
  }

  /* ---------- cluster controller ---------- */

  /** pkg/controller/vm_controller.go, reconcile: one pass over a VM read from the API server. */
  method ReconcileVM(vm: VmObject, k: Cluster, items: seq<Id>, stop: nat, c: ControllerCalls)
    returns (err: bool, remove: bool)
    requires vm.deleting || vm.phase.New? || vm.phase.Succeeded? || vm.phase.Failed? ==> Listing(items, stop, k.pods, c)
    modifies vm, k
    ensures ControllerResult(vm.ReadStatus(), k.See(), err, remove) == ControllerPass(old(vm.Read()), old(k.See()), c)
    ensures Legality.WorldOk(old(k.See())) && Legality.StatusOk(old(vm.ReadStatus()), old(k.See())) ==>
              && Legality.ControllerMove(old(vm.Read()), vm.ReadStatus())
              && Legality.WorldOk(k.See()) && Legality.Later(old(k.See()), k.See())
              && Legality.StatusOk(vm.ReadStatus(), k.See())
              && (remove || (vm.phase.Pending? && !old(vm.phase).Pending?) ==> k.pods == map[])
  {
    ControllerMoves(vm.Read(), k.See(), c);
    err, remove := false, false;
    if vm.deleting && DeletablePhase(vm.phase) {
      ghost var w := k.See();
      var deleted, failed := DeleteAllVMPods(k, items, stop, c);
      if failed {
        return true, false;
      }
      if deleted {
        return false, true;
      }
      MarkKeepsNames(w, if c.deletesOk then w.pods.Keys else c.deleted);
    }

    err := ReconcilePhase(vm, k, items, stop, c);
  }

  /** The switch over the phases. */
  method ReconcilePhase(vm: VmObject, k: Cluster, items: seq<Id>, stop: nat, c: ControllerCalls) returns (err: bool)
    requires vm.phase.New? || vm.phase.Succeeded? || vm.phase.Failed? ==> Listing(items, stop, k.pods, c)
    modifies vm, k
    ensures ControllerResult(vm.ReadStatus(), k.See(), err, false) == PhasePass(old(vm.Read()), old(k.See()), c)
  {
    err := false;
    match vm.phase {
      case Pending =>
        vm.podName := k.GenerateName();
        vm.phase := Scheduling;
      case Scheduling => err := ReconcileScheduling(vm, k, c);
      case Scheduled => err := ReconcileScheduling(vm, k, c);
      case Running => err := ReconcileRunning(vm, k, c);
      case Unknown =>
      case _ =>
        var deleted, failed := DeleteAllVMPods(k, items, stop, c);
        if failed || !deleted {
          return failed;
        }
        if ShouldRun(vm.Read()) {
          vm.phase := Pending;
        }
        vm.podName, vm.podUid, vm.nodeName := UNSET, UNSET, UNSET;
        vm.powerAction, vm.migration := NoAction, None;
    }
  }

  lemma MarkKeepsNames(w: World, names: set<Id>)
    ensures MarkTerminating(w, names).pods.Keys == w.pods.Keys
  {
  }

  method ReconcileScheduling(vm: VmObject, k: Cluster, c: ControllerCalls) returns (err: bool)
    requires vm.phase.Scheduling? || vm.phase.Scheduled?
    modifies vm, k
    ensures ControllerResult(vm.ReadStatus(), k.See(), err, false) == SchedulePass(old(vm.ReadStatus()), old(k.See()), c)
  {
    if vm.podName !in k.pods {
      if vm.phase.Scheduled? {
        vm.phase := Failed;
        return false;
      }
      if !c.buildOk || !c.createOk {
        return true;
      }
      k.Create(vm.podName);
      return false;
    }
    var pod := k.pods[vm.podName];
    vm.podUid := pod.uid;
    vm.nodeName := NodeOf(k.See(), PodRef(vm.podName, pod.uid));
    if vm.nodeName != UNSET && !c.hotplugOk {
      return true;
    }
    match pod.phase {
      case PodRunning => if vm.phase.Scheduling? && c.allAttached { vm.phase := Scheduled; }
      case PodSucceeded => vm.phase := Succeeded;
      case PodFailed => vm.phase := Failed;
      case PodUnknown => vm.phase := Unknown;
      case PodPending =>
    }
    err := !c.volumeStatusOk;
  }

  method ReconcileRunning(vm: VmObject, k: Cluster, c: ControllerCalls) returns (err: bool)
    requires vm.phase.Running?
    modifies vm, k
    ensures ControllerResult(vm.ReadStatus(), k.See(), err, false) == RunningPass(old(vm.ReadStatus()), old(k.See()), c)
  {
    if vm.podName !in k.pods {
      vm.phase := Failed;
    } else if k.pods[vm.podName].phase.PodSucceeded? {
      if vm.migration.None? {
        vm.phase := Succeeded;
      }
    } else if k.pods[vm.podName].phase.PodFailed? {
      vm.phase := Failed;
    } else if k.pods[vm.podName].phase.PodUnknown? {
      vm.phase := Unknown;
    }
    if vm.phase != Running {
      return false;
    }
    if !c.conditionsOk {
      return true;
    }
    if vm.migration.Some? {
      err := ReconcileMigration(vm, k, c);
    } else {
      err := !(c.hotplugOk && c.volumeStatusOk);
    }
  }

  method ReconcileMigration(vm: VmObject, k: Cluster, c: ControllerCalls) returns (err: bool)
    requires vm.migration.Some?
    modifies vm, k
    ensures ControllerResult(vm.ReadStatus(), k.See(), err, false) ==
            MigrationPass(old(vm.ReadStatus()), old(vm.migration.value), old(k.See()), c)
  {
    var m := vm.migration.value;
    if m.phase.MNew? || m.phase.MPending? {
      var name := k.GenerateName();
      vm.migration := Some(m.(targetPod := name, phase := MScheduling));
      return false;
    }
    if m.phase != MScheduling {
      return false;
    }
    if m.targetPod !in k.pods {
      if !c.buildOk || !c.createOk {
        return true;
      }
      k.Create(m.targetPod);
      return false;
    }
    var pod := k.pods[m.targetPod];
    m := m.(targetUid := pod.uid, targetNode := NodeOf(k.See(), PodRef(m.targetPod, pod.uid)));
    vm.migration := Some(m);
    var attached := false;
    if pod.phase.PodFailed? || pod.phase.PodSucceeded? || pod.phase.PodUnknown? {
      m := m.(phase := MFailed);
    } else if c.targetVolumes.NoVolumes? {
      attached := true;
    } else if m.targetNode != UNSET {
      match c.targetVolumes {
        case VolumesError => return true;
        case VolumesFailed => m := m.(phase := MFailed);
        case VolumesAttached => attached := true;
        case _ =>
      }
    }
    if pod.phase.PodRunning? && attached {
      m := m.(phase := MScheduled);
    }
    vm.migration := Some(m);
    err := false;
  }

  /* ---------- node daemon ---------- */

  /** pkg/daemon/vm_controller.go, reconcile on the node `node`. */
  method ReconcileOnNode(vm: VmObject, node: Id, k: Cluster, c: DaemonCalls) returns (send: Option<Send>)
    modifies vm, k`pods
    ensures DaemonResult(vm.ReadStatus(), k.pods, send) == DaemonPass(old(vm.Read()), node, old(k.See()), c)
    ensures Legality.WorldOk(old(k.See())) && Legality.StatusOk(old(vm.ReadStatus()), old(k.See())) ==>
              && Legality.DaemonMove(old(vm.Read()), node, vm.ReadStatus())
              && Legality.StatusOk(vm.ReadStatus(), k.See())
              && (send.Some? ==> old(vm.phase).Running? && send.value.source == VmPod(old(vm.ReadStatus())))
  {
    DaemonMoves(vm.Read(), node, k.See(), c);
    send := None;
    if !Concerned(vm.ReadStatus(), node) || vm.podName !in k.pods {
      return;
    }
    if vm.deleting {
      if vm.nodeName == node {
        DeleteGuest(vm, node, k, c);
      }
      return;
    }
    match vm.phase {
      case Scheduled =>
        if c.mountOk {
          BootGuest(vm, node, k, c);
        }
      case Running =>
        if vm.migration.Some? {
          send := HandOver(vm, node, k, c);
        } else if vm.nodeName == node {
          WatchGuest(vm, node, k, c);
        }
      case _ =>
    }
  }

  method DeleteGuest(vm: VmObject, node: Id, k: Cluster, c: DaemonCalls)
    requires vm.podName in k.pods
    modifies vm, k`pods
    ensures DaemonResult(vm.ReadStatus(), k.pods, None) == DeletingPass(old(vm.ReadStatus()), node, old(k.See()), c)
  {
    if k.pods[vm.podName].phase.PodRunning? {
      if !c.actionOk || !Reachable(k.See(), node, PodRef(vm.podName, vm.podUid)) {
        return;
      }
      k.pods := SetHypervisor(k.pods, vm.podName, NotCreated);
    }
    vm.phase := Succeeded;
  }

  method BootGuest(vm: VmObject, node: Id, k: Cluster, c: DaemonCalls)
    requires vm.podName in k.pods
    modifies vm, k`pods
    ensures DaemonResult(vm.ReadStatus(), k.pods, None) == BootPass(old(vm.ReadStatus()), node, old(k.See()), c)
  {
    if !c.infoOk || !Reachable(k.See(), node, PodRef(vm.podName, vm.podUid)) {
      return;
    }
    var hv := k.pods[vm.podName].hv;
    if hv.NotCreated? {
      if !c.configReady || !c.createOk {
        return;
      }
      k.pods := SetHypervisor(k.pods, vm.podName, Created);
      if c.bootOk {
        k.pods := SetHypervisor(k.pods, vm.podName, GuestRunning);
      }
    } else if hv.Created? {
      if c.bootOk {
        k.pods := SetHypervisor(k.pods, vm.podName, GuestRunning);
      }
    } else if hv.GuestRunning? || hv.GuestPaused? {
      vm.phase := Running;
    } else if hv.GuestShutdown? {
      vm.phase := Failed;
    }
  }

  method WatchGuest(vm: VmObject, node: Id, k: Cluster, c: DaemonCalls)
    requires vm.podName in k.pods
    modifies vm, k`pods
    ensures DaemonResult(vm.ReadStatus(), k.pods, None) == GuestPass(old(vm.Read()), node, old(k.See()), c)
  {
    var hv := k.pods[vm.podName].hv;
    if !c.infoOk || !Reachable(k.See(), node, PodRef(vm.podName, vm.podUid)) || hv.NotCreated? {
      return;
    }
    if hv.GuestRunning? || hv.GuestPaused? {
      if vm.policy.Halted? {
        if c.actionOk {
          k.pods := SetHypervisor(k.pods, vm.podName, GuestShutdown);
        }
      } else if vm.powerAction != NoAction {
        if c.actionOk {
          k.pods := SetHypervisor(k.pods, vm.podName, Powered(hv, vm.powerAction));
        }
        vm.powerAction := NoAction;
      }
    } else {
      vm.phase := Succeeded;
    }
  }

  method HandOver(vm: VmObject, node: Id, k: Cluster, c: DaemonCalls) returns (send: Option<Send>)
    requires vm.migration.Some? && vm.podName in k.pods
    modifies vm
    ensures DaemonResult(vm.ReadStatus(), k.pods, send) ==
            HandoverPass(old(vm.ReadStatus()), old(vm.migration.value), node, old(k.See()), c)
  {
    send := None;
    var m := vm.migration.value;
    match m.phase {
      case MScheduled =>
        if m.targetNode == node {
          if c.receive.ReceiveTimeout? {
            vm.migration := Some(m.(phase := MFailed));
          } else if c.receive.ReceiveReady? && c.relayOk && c.mountOk {
            vm.migration := Some(m.(phase := MTargetReady));
          }
        }
      case MTargetReady =>
        if vm.nodeName == node && c.relayOk {
          send := Some(Send(PodRef(vm.podName, vm.podUid), TargetPod(m)));
          vm.migration := Some(m.(phase := MRunning));
        }
      case MRunning =>
        if vm.nodeName == node {
          if k.pods[vm.podName].phase.PodSucceeded? {
            if c.cleanupOk {
              vm.migration := Some(m.(phase := MSent));
            }
          } else if c.channel != Sending {
            vm.migration := Some(m.(phase := MFailed));
          }
        }
      case MSent =>
        if m.targetNode == node && c.infoOk && Reachable(k.See(), node, TargetPod(m)) &&
           k.pods[m.targetPod].hv.GuestRunning?
        {
          vm.migration := Some(m.(phase := MSucceeded));
          vm.nodeName := m.targetNode;
          vm.podName := m.targetPod;
          vm.podUid := m.targetUid;
        }
      case _ =>
    }
  }

  /* ---------- migration controller ---------- */

  /** A VirtualMachineMigration in memory. */
  class VmmObject {
    const uid: Id
    var phase: MigrationPhase

    constructor (uid: Id, phase: MigrationPhase)
      ensures this.uid == uid && this.phase == phase
    {
      this.uid, this.phase := uid, phase;
    }
  }

  /** pkg/controller/vmm_controller.go, reconcile; `vm` is null when the VM was not found, and
      `writeVM` says that the VM status is to be updated. */
  method ReconcileVMM(vmm: VmmObject, vm: VmObject?) returns (writeVM: bool)
    modifies vmm`phase
    modifies if vm != null then {vm} else {}
    ensures var read := if vm == null then None else Some(old(vm.Read()));
            match MigratorPass(vmm.uid, old(vmm.phase), read)
            case Nothing => !writeVM && vmm.phase == old(vmm.phase) && (vm != null ==> vm.Read() == old(vm.Read()))
            case WriteVM(st) => writeVM && vmm.phase == old(vmm.phase) && vm != null && vm.ReadStatus() == st
            case WriteSelf(p) => !writeVM && vmm.phase == p && (vm != null ==> vm.Read() == old(vm.Read()))
    ensures vm != null ==> Legality.MigratorMove(old(vm.ReadStatus()), vmm.uid, vm.ReadStatus())
    ensures writeVM && old(vm.migration).Some? ==> Terminal(vmm.phase)
  {
    writeVM := false;
    if Terminal(vmm.phase) {
      if vm == null || vm.deleting || vm.migration.None? || vm.migration.value.uid != vmm.uid {
        return;
      }
      vm.migration := None;
      return true;
    }
    if vm == null || vm.deleting || (vm.migration.Some? && vm.migration.value.uid != vmm.uid) {
      vmm.phase := MFailed;
      return;
    }
    if vm.migration.None? {
      vm.migration := Some(FreshMigration(vmm.uid));
      return true;
    }
    vmm.phase := vm.migration.value.phase;
  }
}
