/** What one pass of each reconciler decides, as a function of the VM object it read, the
    cluster it saw and the outcome of the calls it made. A pass that returns an error still
    hands its status to the status update. */
module Reconcile {
  import opened Options
  import opened Specs
  import opened Vm

  /* ---------- cluster controller: pkg/controller/vm_controller.go ---------- */

  datatype TargetVolumes = NoVolumes | VolumesError | VolumesPending | VolumesFailed | VolumesAttached

  /** Outcome of the calls one controller pass makes. `deleted` are the pods whose deletion
      was requested before `deletesOk` turned false. */
  datatype ControllerCalls = ControllerCalls(
    deletesOk: bool, deleted: set<Id>, buildOk: bool, createOk: bool, hotplugOk: bool,
    allAttached: bool, volumeStatusOk: bool, conditionsOk: bool, targetVolumes: TargetVolumes)

  datatype ControllerResult = ControllerResult(status: Status, world: World, err: bool, remove: bool)

  predicate DeletablePhase(p: Phase) {
    p.New? || p.Pending? || p.Scheduling? || p.Failed? || p.Succeeded?
  }

  predicate ShouldRun(vm: VM) {
    var st := vm.status;
    match vm.policy
    case Always => true
    case RerunOnFailure => st.phase.Failed? || st.phase.New? || st.powerAction.PowerOn?
    case Once => st.phase.New? || st.powerAction.PowerOn?
    case Manual => st.powerAction.PowerOn?
    case Halted => false
  }

  function DeleteAll(w: World, c: ControllerCalls): World {
    MarkTerminating(w, if c.deletesOk then w.pods.Keys else c.deleted)
  }

  function ControllerPass(vm: VM, w: World, c: ControllerCalls): (r: ControllerResult) {
    if vm.deleting && DeletablePhase(vm.status.phase) then
      if w.pods == map[] then ControllerResult(vm.status, w, false, true)
      else if !c.deletesOk then ControllerResult(vm.status, DeleteAll(w, c), true, false)
      else PhasePass(vm, DeleteAll(w, c), c)
    else PhasePass(vm, w, c)
  }

  function PhasePass(vm: VM, w: World, c: ControllerCalls): (r: ControllerResult) {
    var st := vm.status;
    match st.phase
    case Pending =>
      ControllerResult(st.(podName := w.nextId, phase := Scheduling), w.(nextId := w.nextId + 1), false, false)
    case Scheduling => SchedulePass(st, w, c)
    case Scheduled => SchedulePass(st, w, c)
    case Running => RunningPass(st, w, c)
    case New => ResetPass(vm, w, c)
    case Succeeded => ResetPass(vm, w, c)
    case Failed => ResetPass(vm, w, c)
    case Unknown => ControllerResult(st, w, false, false)
  }

  function SchedulePass(st: Status, w: World, c: ControllerCalls): (r: ControllerResult) {
    if st.podName !in w.pods then
      if st.phase.Scheduled? then ControllerResult(st.(phase := Failed), w, false, false)
      else if c.buildOk && c.createOk then ControllerResult(st, CreatePod(w, st.podName), false, false)
      else ControllerResult(st, w, true, false)
    else
      var pod := w.pods[st.podName];
      var ref := PodRef(st.podName, pod.uid);
      var named := st.(podUid := pod.uid, nodeName := NodeOf(w, ref));
      if named.nodeName != UNSET && !c.hotplugOk then ControllerResult(named, w, true, false)
      else ControllerResult(named.(phase := PhaseFromPod(st.phase, pod.phase, c.allAttached)), w, !c.volumeStatusOk, false)
  }

  function PhaseFromPod(p: Phase, pod: PodPhase, allAttached: bool): Phase {
    match pod
    case PodPending => p
    case PodRunning => if p.Scheduling? && allAttached then Scheduled else p
    case PodSucceeded => Succeeded
    case PodFailed => Failed
    case PodUnknown => Unknown
  }

  function RunningPass(st: Status, w: World, c: ControllerCalls): (r: ControllerResult) {
    var phase :=
      if st.podName !in w.pods then Failed
      else match w.pods[st.podName].phase
           case PodSucceeded => if st.migration.None? then Succeeded else Running
           case PodFailed => Failed
           case PodUnknown => Unknown
           case PodPending => Running
           case PodRunning => Running;
    if phase != Running then ControllerResult(st.(phase := phase), w, false, false)
    else if !c.conditionsOk then ControllerResult(st, w, true, false)
    else if st.migration.Some? then MigrationPass(st, st.migration.value, w, c)
    else ControllerResult(st, w, !(c.hotplugOk && c.volumeStatusOk), false)
  }

  function MigrationPass(st: Status, m: Migration, w: World, c: ControllerCalls): (r: ControllerResult) {
    if m.phase.MNew? || m.phase.MPending? then
      ControllerResult(st.(migration := Some(m.(targetPod := w.nextId, phase := MScheduling))),
                       w.(nextId := w.nextId + 1), false, false)
    else if !m.phase.MScheduling? then ControllerResult(st, w, false, false)
    else if m.targetPod !in w.pods then
      if c.buildOk && c.createOk then ControllerResult(st, CreatePod(w, m.targetPod), false, false)
      else ControllerResult(st, w, true, false)
    else FollowTarget(st, m, w, c)
  }

  /** The target pod exists: its UID and node are written down and its state decides. */
  function FollowTarget(st: Status, m: Migration, w: World, c: ControllerCalls): (r: ControllerResult)
    requires m.targetPod in w.pods
  {
    var pod := w.pods[m.targetPod];
    var named := m.(targetUid := pod.uid, targetNode := NodeOf(w, PodRef(m.targetPod, pod.uid)));
    var ended := pod.phase.PodFailed? || pod.phase.PodSucceeded? || pod.phase.PodUnknown?;
    var volumes := if c.targetVolumes.NoVolumes? then VolumesAttached
                   else if named.targetNode == UNSET then VolumesPending else c.targetVolumes;
    if ended then ControllerResult(st.(migration := Some(named.(phase := MFailed))), w, false, false)
    else if volumes.VolumesError? then ControllerResult(st.(migration := Some(named)), w, true, false)
    else if volumes.VolumesFailed? then ControllerResult(st.(migration := Some(named.(phase := MFailed))), w, false, false)
    else if volumes.VolumesAttached? && pod.phase.PodRunning? then
      ControllerResult(st.(migration := Some(named.(phase := MScheduled))), w, false, false)
    else ControllerResult(st.(migration := Some(named)), w, false, false)
  }

  function ResetPass(vm: VM, w: World, c: ControllerCalls): (r: ControllerResult) {
    if w.pods != map[] then ControllerResult(vm.status, DeleteAll(w, c), !c.deletesOk, false)
    else ControllerResult(Blank(if ShouldRun(vm) then Pending else vm.status.phase), w, false, false)
  }

  /* ---------- node daemon: pkg/daemon/vm_controller.go ---------- */

  datatype Receive = ReceiveTimeout | ReceiveError | ReceiveReady
  datatype SendChannel = NoChannel | Sending | SendFailed

  datatype DaemonCalls = DaemonCalls(
    mountOk: bool, infoOk: bool, configReady: bool, createOk: bool, bootOk: bool, actionOk: bool,
    receive: Receive, relayOk: bool, cleanupOk: bool, channel: SendChannel)

  datatype Send = Send(source: PodRef, target: PodRef)

  datatype DaemonResult = DaemonResult(status: Status, pods: map<Id, Pod>, send: Option<Send>)

  /** The hypervisor socket of that pod answers a daemon on `node`. */
  predicate Reachable(w: World, node: Id, r: PodRef) {
    Live(w.pods, r) && NodeOf(w, r) == node
  }

  predicate Concerned(st: Status, node: Id) {
    (st.nodeName != UNSET && st.nodeName == node) ||
    (st.migration.Some? && st.migration.value.targetNode != UNSET && st.migration.value.targetNode == node)
  }

  function DaemonPass(vm: VM, node: Id, w: World, c: DaemonCalls): (r: DaemonResult) {
    var st := vm.status;
    if !Concerned(st, node) || st.podName !in w.pods then DaemonResult(st, w.pods, None)
    else if vm.deleting then
      if st.nodeName != node then DaemonResult(st, w.pods, None) else DeletingPass(st, node, w, c)
    else
      match st.phase
      case Scheduled => if c.mountOk then BootPass(st, node, w, c) else DaemonResult(st, w.pods, None)
      case Running =>
        if st.migration.Some? then HandoverPass(st, st.migration.value, node, w, c)
        else if st.nodeName != node then DaemonResult(st, w.pods, None)
        else GuestPass(vm, node, w, c)
      case _ => DaemonResult(st, w.pods, None)
  }

  function DeletingPass(st: Status, node: Id, w: World, c: DaemonCalls): (r: DaemonResult)
    requires st.podName in w.pods
  {
    if w.pods[st.podName].phase.PodRunning? then
      if !(c.actionOk && Reachable(w, node, VmPod(st))) then DaemonResult(st, w.pods, None)
      else DaemonResult(st.(phase := Succeeded), SetHypervisor(w.pods, st.podName, NotCreated), None)
    else DaemonResult(st.(phase := Succeeded), w.pods, None)
  }

  function BootPass(st: Status, node: Id, w: World, c: DaemonCalls): (r: DaemonResult)
    requires st.podName in w.pods
  {
    if !c.infoOk || !Reachable(w, node, VmPod(st)) then DaemonResult(st, w.pods, None)
    else
      match w.pods[st.podName].hv
      case NotCreated =>
        if !c.configReady || !c.createOk then DaemonResult(st, w.pods, None)
        else DaemonResult(st, SetHypervisor(w.pods, st.podName, if c.bootOk then GuestRunning else Created), None)
      case Created =>
        if c.bootOk then DaemonResult(st, SetHypervisor(w.pods, st.podName, GuestRunning), None)
        else DaemonResult(st, w.pods, None)
      case GuestRunning => DaemonResult(st.(phase := Running), w.pods, None)
      case GuestPaused => DaemonResult(st.(phase := Running), w.pods, None)
      case GuestShutdown => DaemonResult(st.(phase := Failed), w.pods, None)
      case Exited => DaemonResult(st, w.pods, None)
  }

  /** What a power action makes of a guest that runs or is paused. */
  function Powered(hv: Hypervisor, a: PowerAction): Hypervisor {
    match a
    case PowerOff => GuestShutdown
    case Reset => GuestRunning
    case Reboot => GuestRunning
    case Pause => GuestPaused
    case Resume => GuestRunning
    case _ => hv
  }

  function GuestPass(vm: VM, node: Id, w: World, c: DaemonCalls): (r: DaemonResult)
    requires vm.status.podName in w.pods
  {
    var st := vm.status;
    var hv := w.pods[st.podName].hv;
    if !c.infoOk || !Reachable(w, node, VmPod(st)) || hv.NotCreated? then DaemonResult(st, w.pods, None)
    else if hv.GuestRunning? || hv.GuestPaused? then
      if vm.policy.Halted? then
        DaemonResult(st, if c.actionOk then SetHypervisor(w.pods, st.podName, GuestShutdown) else w.pods, None)
      else if st.powerAction != NoAction then
        DaemonResult(st.(powerAction := NoAction),
                     if c.actionOk then SetHypervisor(w.pods, st.podName, Powered(hv, st.powerAction)) else w.pods, None)
      else DaemonResult(st, w.pods, None)
    else DaemonResult(st.(phase := Succeeded), w.pods, None)
  }

  function HandoverPass(st: Status, m: Migration, node: Id, w: World, c: DaemonCalls): (r: DaemonResult)
    requires st.podName in w.pods
  {
    match m.phase
    case MScheduled =>
      if m.targetNode != node then DaemonResult(st, w.pods, None)
      else if c.receive.ReceiveTimeout? then DaemonResult(st.(migration := Some(m.(phase := MFailed))), w.pods, None)
      else if c.receive.ReceiveError? || !c.relayOk || !c.mountOk then DaemonResult(st, w.pods, None)
      else DaemonResult(st.(migration := Some(m.(phase := MTargetReady))), w.pods, None)
    case MTargetReady =>
      if st.nodeName != node || !c.relayOk then DaemonResult(st, w.pods, None)
      else DaemonResult(st.(migration := Some(m.(phase := MRunning))), w.pods, Some(Send(VmPod(st), TargetPod(m))))
    case MRunning =>
      if st.nodeName != node then DaemonResult(st, w.pods, None)
      else if w.pods[st.podName].phase.PodSucceeded? then
        DaemonResult(if c.cleanupOk then st.(migration := Some(m.(phase := MSent))) else st, w.pods, None)
      else if c.channel.Sending? then DaemonResult(st, w.pods, None)
      else DaemonResult(st.(migration := Some(m.(phase := MFailed))), w.pods, None)
    case MSent =>
      if m.targetNode == node && c.infoOk && Reachable(w, node, TargetPod(m)) && w.pods[m.targetPod].hv.GuestRunning? then
        DaemonResult(Switched(st, m), w.pods, None)
      else DaemonResult(st, w.pods, None)
    case _ => DaemonResult(st, w.pods, None)
  }

  /** The VM now lives where the migration took it. */
  function Switched(st: Status, m: Migration): Status {
    st.(migration := Some(m.(phase := MSucceeded)),
        nodeName := m.targetNode, podName := m.targetPod, podUid := m.targetUid)
  }

  /* ---------- migration controller: pkg/controller/vmm_controller.go ---------- */

  datatype MigratorAction = Nothing | WriteVM(status: Status) | WriteSelf(phase: MigrationPhase)

  /** `vm` is None when the VirtualMachine was not found. */
  function MigratorPass(uid: Id, own: MigrationPhase, vm: Option<VM>): (r: MigratorAction) {
    var other := vm.None? || vm.value.deleting;
    if Terminal(own) then
      if other || vm.value.status.migration.None? || vm.value.status.migration.value.uid != uid then Nothing
      else WriteVM(vm.value.status.(migration := None))
    else if other then WriteSelf(MFailed)
    else
      match vm.value.status.migration
      case None => WriteVM(vm.value.status.(migration := Some(FreshMigration(uid))))
      case Some(m) => WriteSelf(if m.uid == uid then m.phase else MFailed)
  }
}
