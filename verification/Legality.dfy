/** Which successive versions of a VM object the reconcilers may write, stated without
    reference to how they compute them, and the proof that every pass keeps to it. */
module Legality {
  import opened Options
  import opened Vm
  import opened Reconcile
  import opened Protocol

  predicate Early(p: Phase) {
    p.New? || p.Pending? || p.Scheduling? || p.Scheduled?
  }

  /* ---------- consistency of one world and of one status with it ---------- */

  predicate WorldOk(w: World) {
    && w.nextId > 0
    && (forall u :: u in w.registry ==> 0 < u < w.nextId && 0 < w.registry[u].name < w.nextId)
    && (forall n :: n in w.pods ==> w.pods[n].uid in w.registry && w.registry[w.pods[n].uid].name == n)
    && (forall n :: n in w.pods && w.pods[n].phase.PodRunning? ==> w.registry[w.pods[n].uid].node != UNSET)
  }

  /** (name, uid, node) speak of one registered pod, as far as they are set. */
  predicate Describes(w: World, name: Id, uid: Id, node: Id) {
    && name < w.nextId
    && (uid == UNSET ==> node == UNSET)
    && (uid != UNSET ==> uid in w.registry && w.registry[uid].name == name &&
                         (node == UNSET || node == w.registry[uid].node))
  }

  predicate MigrationOk(m: Migration, w: World) {
    && Describes(w, m.targetPod, m.targetUid, m.targetNode)
    && (m.phase.MNew? || m.phase.MPending? ==> m.targetUid == UNSET)
    && (m.phase.MScheduling? ==> m.targetPod != UNSET)
    && (m.phase.MScheduled? || m.phase.MTargetReady? || m.phase.MRunning? || m.phase.MSent?
        ==> m.targetUid != UNSET && m.targetNode != UNSET)
  }

  predicate StatusOk(st: Status, w: World) {
    && Describes(w, st.podName, st.podUid, st.nodeName)
    && (st.phase.New? || st.phase.Pending? ==> st.podUid == UNSET)
    && (st.phase.Scheduling? || st.phase.Scheduled? ==> st.podName != UNSET)
    && (st.phase.Running? ==> st.podUid != UNSET && st.nodeName != UNSET)
    && (st.migration.Some? ==> MigrationOk(st.migration.value, w))
    && (Early(st.phase) && st.migration.Some? ==> st.migration.value.phase.MNew?)
  }

  /** Later worlds: identifiers and bindings stay, and a pod that is gone does not come back. */
  predicate Later(w: World, w': World) {
    && w.nextId <= w'.nextId
    && (forall u :: u in w.registry ==>
          && u in w'.registry && w'.registry[u].name == w.registry[u].name
          && (w.registry[u].node == UNSET || w'.registry[u].node == w.registry[u].node))
    && (forall n :: n in w'.pods && w'.pods[n].uid < w.nextId ==>
          n in w.pods && w.pods[n].uid == w'.pods[n].uid && (w.pods[n].hv.Exited? ==> w'.pods[n].hv.Exited?))
  }

  lemma StatusStaysOk(st: Status, w: World, w': World)
    requires StatusOk(st, w) && Later(w, w')
    ensures StatusOk(st, w')
  {
  }

  /* ---------- the moves of each actor ---------- */

  /** Stages of a migration in order; a failed migration has no stage. */
  function Stage(p: MigrationPhase): (k: nat) {
    match p
    case MNew => 0
    case MPending => 0
    case MScheduling => 1
    case MScheduled => 2
    case MTargetReady => 3
    case MRunning => 4
    case MSent => 5
    case MSucceeded => 6
    case MFailed => 7
  }

  predicate ControllerMigration(m: Migration, m': Migration) {
    && m'.uid == m.uid
    && Stage(m.phase) <= 1
    && (m'.phase.MScheduling? || (m.phase.MScheduling? && (m'.phase.MScheduled? || m'.phase.MFailed?)))
  }

  predicate ControllerMove(vm: VM, t: Status) {
    var s := vm.status;
    || t == s
    || (s.phase.Pending? && t == s.(phase := Scheduling, podName := t.podName))
    || ((s.phase.Scheduling? || s.phase.Scheduled?) &&
        t == s.(phase := t.phase, podUid := t.podUid, nodeName := t.nodeName) &&
        (t.phase == s.phase || t.phase.Scheduled? || t.phase.Succeeded? || t.phase.Failed? || t.phase.Unknown?))
    || (s.phase.Running? && t == s.(phase := t.phase) &&
        (t.phase.Failed? || t.phase.Unknown? || (t.phase.Succeeded? && s.migration.None?)))
    || (s.phase.Running? && s.migration.Some? && t.migration.Some? && t == s.(migration := t.migration) &&
        ControllerMigration(s.migration.value, t.migration.value))
    || ((s.phase.New? || s.phase.Succeeded? || s.phase.Failed?) && t == Blank(t.phase) &&
        (t.phase == s.phase || (t.phase.Pending? && ShouldRun(vm))))
  }

  predicate HandoverMove(s: Status, m: Migration, node: Id, t: Status) {
    || (m.phase.MScheduled? && m.targetNode == node &&
        (t == s.(migration := Some(m.(phase := MTargetReady))) || t == s.(migration := Some(m.(phase := MFailed)))))
    || (m.phase.MTargetReady? && s.nodeName == node && t == s.(migration := Some(m.(phase := MRunning))))
    || (m.phase.MRunning? && s.nodeName == node &&
        (t == s.(migration := Some(m.(phase := MSent))) || t == s.(migration := Some(m.(phase := MFailed)))))
    || (m.phase.MSent? && m.targetNode == node && t == Switched(s, m))
  }

  predicate DaemonMove(vm: VM, node: Id, t: Status) {
    var s := vm.status;
    || t == s
    || (vm.deleting && s.nodeName == node && node != UNSET && t == s.(phase := Succeeded))
    || (s.phase.Scheduled? && s.nodeName == node && (t == s.(phase := Running) || t == s.(phase := Failed)))
    || (s.phase.Running? && s.migration.None? && s.nodeName == node &&
        (t == s.(powerAction := NoAction) || t == s.(phase := Succeeded)))
    || (s.phase.Running? && s.migration.Some? && HandoverMove(s, s.migration.value, node, t))
  }

  predicate MigratorMove(s: Status, uid: Id, t: Status) {
    || t == s
    || (s.migration.None? && t == s.(migration := Some(FreshMigration(uid))))
    || (s.migration.Some? && s.migration.value.uid == uid && t == s.(migration := None))
  }

  predicate Move(vm: VM, writer: Actor, t: Status) {
    match writer
    case User => false
    case Controller => ControllerMove(vm, t)
    case Daemon(node) => DaemonMove(vm, node, t)
    case Migrator(uid) => MigratorMove(vm.status, uid, t)
  }

  /** A version may follow another one: somebody edited the object, or an actor made its move. */
  predicate Legal(a: VM, b: VM, writer: Actor) {
    if writer.User? then
      || b == a.(status := a.status.(powerAction := b.status.powerAction))
      || b == a.(policy := b.policy)
      || b == a.(deleting := true)
    else b == a.(status := b.status) && Move(a, writer, b.status)
  }

  /* ---------- every pass keeps to its moves ---------- */

  lemma MarkedWorldOk(w: World, names: set<Id>)
    requires WorldOk(w)
    ensures WorldOk(MarkTerminating(w, names)) && Later(w, MarkTerminating(w, names))
    ensures MarkTerminating(w, names).pods.Keys == w.pods.Keys
  {
  }

  lemma CreatedWorldOk(w: World, name: Id)
    requires WorldOk(w) && name !in w.pods && 0 < name < w.nextId
    ensures WorldOk(CreatePod(w, name)) && Later(w, CreatePod(w, name))
  {
  }

  lemma SchedulePassLegal(vm: VM, w: World, c: ControllerCalls)
    requires WorldOk(w) && StatusOk(vm.status, w)
    requires vm.status.phase.Scheduling? || vm.status.phase.Scheduled?
    ensures var r := SchedulePass(vm.status, w, c);
            !r.remove && ControllerMove(vm, r.status) && WorldOk(r.world) && Later(w, r.world) && StatusOk(r.status, r.world)
  {
    if vm.status.podName !in w.pods {
      CreatedWorldOk(w, vm.status.podName);
      StatusStaysOk(vm.status, w, CreatePod(w, vm.status.podName));
    }
  }

  /** Only the slot of a running VM changes, and the slot keeps describing one target pod. */
  predicate KeepsSlot(st: Status, m: Migration, w: World, r: ControllerResult) {
    && !r.remove && WorldOk(r.world) && Later(w, r.world)
    && (r.status == st || (r.status.migration.Some? && r.status == st.(migration := r.status.migration) &&
                           ControllerMigration(m, r.status.migration.value) && MigrationOk(r.status.migration.value, r.world)))
  }

  lemma NamedTargetOk(m: Migration, w: World, p: MigrationPhase)
    requires WorldOk(w) && m.phase.MScheduling? && m.targetPod in w.pods
    requires p.MScheduling? || p.MFailed? || (p.MScheduled? && w.pods[m.targetPod].phase.PodRunning?)
    ensures MigrationOk(NamedTarget(m, w, p), w) && ControllerMigration(m, NamedTarget(m, w, p))
  {
  }

  function NamedTarget(m: Migration, w: World, p: MigrationPhase): Migration
    requires m.targetPod in w.pods
  {
    var uid := w.pods[m.targetPod].uid;
    m.(targetUid := uid, targetNode := NodeOf(w, PodRef(m.targetPod, uid)), phase := p)
  }

  /** What following the target may write. */
  lemma FollowTargetWrites(st: Status, m: Migration, w: World, c: ControllerCalls)
    requires m.phase.MScheduling? && m.targetPod in w.pods
    ensures var r := FollowTarget(st, m, w, c);
            && r.world == w && !r.remove
            && exists p :: r.status == st.(migration := Some(NamedTarget(m, w, p))) &&
                           (p.MScheduling? || p.MFailed? || (p.MScheduled? && w.pods[m.targetPod].phase.PodRunning?))
  {
    var r := FollowTarget(st, m, w, c);
    assert r.status == st.(migration := Some(NamedTarget(m, w, r.status.migration.value.phase)));
  }

  lemma MigrationPassFollows(st: Status, m: Migration, w: World, c: ControllerCalls)
    requires WorldOk(w) && m.phase.MScheduling? && m.targetPod in w.pods
    ensures KeepsSlot(st, m, w, FollowTarget(st, m, w, c))
  {
    var r := FollowTarget(st, m, w, c);
    FollowTargetWrites(st, m, w, c);
    NamedTargetOk(m, w, r.status.migration.value.phase);
  }

  lemma MigrationPassKeeps(st: Status, m: Migration, w: World, c: ControllerCalls)
    requires WorldOk(w) && MigrationOk(m, w)
    ensures KeepsSlot(st, m, w, MigrationPass(st, m, w, c))
  {
    if m.phase.MScheduling? {
      if m.targetPod in w.pods {
        MigrationPassFollows(st, m, w, c);
      } else {
        CreatedWorldOk(w, m.targetPod);
      }
    }
  }

  lemma RunningPassLegal(vm: VM, w: World, c: ControllerCalls)
    requires WorldOk(w) && StatusOk(vm.status, w) && vm.status.phase.Running?
    ensures var r := RunningPass(vm.status, w, c);
            !r.remove && ControllerMove(vm, r.status) && WorldOk(r.world) && Later(w, r.world) && StatusOk(r.status, r.world)
  {
    var st := vm.status;
    var r := RunningPass(st, w, c);
    if st.migration.Some? {
      MigrationPassKeeps(st, st.migration.value, w, c);
      StatusStaysOk(st, w, MigrationPass(st, st.migration.value, w, c).world);
    }
  }

  lemma ResetPassLegal(vm: VM, w: World, c: ControllerCalls)
    requires WorldOk(w) && StatusOk(vm.status, w)
    requires vm.status.phase.New? || vm.status.phase.Succeeded? || vm.status.phase.Failed?
    ensures var r := ResetPass(vm, w, c);
            !r.remove && ControllerMove(vm, r.status) && WorldOk(r.world) && Later(w, r.world) && StatusOk(r.status, r.world)
  {
    MarkedWorldOk(w, if c.deletesOk then w.pods.Keys else c.deleted);
    StatusStaysOk(vm.status, w, DeleteAll(w, c));
  }

  lemma PendingPassLegal(vm: VM, w: World, c: ControllerCalls)
    requires WorldOk(w) && StatusOk(vm.status, w) && (vm.status.phase.Pending? || vm.status.phase.Unknown?)
    ensures var r := PhasePass(vm, w, c);
            !r.remove && ControllerMove(vm, r.status) && WorldOk(r.world) && Later(w, r.world) && StatusOk(r.status, r.world)
  {
  }

  lemma PhasePassLegal(vm: VM, w: World, c: ControllerCalls)
    requires WorldOk(w) && StatusOk(vm.status, w)
    ensures var r := PhasePass(vm, w, c);
            !r.remove && ControllerMove(vm, r.status) && WorldOk(r.world) && Later(w, r.world) && StatusOk(r.status, r.world)
  {
    match vm.status.phase
    case Scheduling => SchedulePassLegal(vm, w, c);
    case Scheduled => SchedulePassLegal(vm, w, c);
    case Running => RunningPassLegal(vm, w, c);
    case Pending => PendingPassLegal(vm, w, c);
    case Unknown => PendingPassLegal(vm, w, c);
    case _ => ResetPassLegal(vm, w, c);
  }

  /** The VM is started, or the object let go, only when no pod of the VM is left. */
  lemma StartsWithNoPods(vm: VM, w: World, c: ControllerCalls)
    ensures var r := ControllerPass(vm, w, c);
            (r.status.phase.Pending? && !vm.status.phase.Pending?) || r.remove ==> r.world.pods == map[]
  {
    if vm.deleting && DeletablePhase(vm.status.phase) {
      PhaseStartsWithNoPods(vm, DeleteAll(w, c), c);
    } else {
      PhaseStartsWithNoPods(vm, w, c);
    }
  }

  lemma PhaseStartsWithNoPods(vm: VM, w: World, c: ControllerCalls)
    ensures var r := PhasePass(vm, w, c);
            !r.remove && (r.status.phase.Pending? && !vm.status.phase.Pending? ==> r.world.pods == map[])
  {
  }

  lemma ControllerPassMoves(vm: VM, w: World, c: ControllerCalls)
    requires WorldOk(w) && StatusOk(vm.status, w)
    ensures var r := ControllerPass(vm, w, c);
            ControllerMove(vm, r.status) && WorldOk(r.world) && Later(w, r.world) && StatusOk(r.status, r.world)
  {
    if vm.deleting && DeletablePhase(vm.status.phase) {
      var w1 := DeleteAll(w, c);
      MarkedWorldOk(w, if c.deletesOk then w.pods.Keys else c.deleted);
      StatusStaysOk(vm.status, w, w1);
      PhasePassLegal(vm, w1, c);
      LaterTwice(w, w1, PhasePass(vm, w1, c).world);
    } else {
      PhasePassLegal(vm, w, c);
    }
  }

  lemma LaterTwice(a: World, b: World, c: World)
    requires Later(a, b) && Later(b, c)
    ensures Later(a, c)
  {
  }

  /** A controller pass makes one of its moves; it starts the VM or lets the object go only when
      no pod of the VM is left. */
  lemma ControllerPassLegal(vm: VM, w: World, c: ControllerCalls)
    requires WorldOk(w) && StatusOk(vm.status, w)
    ensures var r := ControllerPass(vm, w, c);
            ControllerMove(vm, r.status) && WorldOk(r.world) && Later(w, r.world) && StatusOk(r.status, r.world)
    ensures var r := ControllerPass(vm, w, c);
            (r.status.phase.Pending? && !vm.status.phase.Pending?) || r.remove ==> r.world.pods == map[]
  {
    ControllerPassMoves(vm, w, c);
    StartsWithNoPods(vm, w, c);
  }

  /** At most the hypervisor of the named pod changes, which must be reachable, and it is not one that
      has exited. */
  predicate TouchesOnly(st: Status, node: Id, w: World, pods: map<Id, Pod>) {
    pods == w.pods ||
    (Reachable(w, node, VmPod(st)) &&
     exists hv :: hv != Exited && pods == SetHypervisor(w.pods, st.podName, hv))
  }

  lemma DeletingTouches(st: Status, node: Id, w: World, c: DaemonCalls)
    requires st.podName in w.pods
    ensures TouchesOnly(st, node, w, DeletingPass(st, node, w, c).pods)
  {
  }

  lemma BootTouches(st: Status, node: Id, w: World, c: DaemonCalls)
    requires st.podName in w.pods
    ensures TouchesOnly(st, node, w, BootPass(st, node, w, c).pods)
  {
  }

  lemma GuestTouches(vm: VM, node: Id, w: World, c: DaemonCalls)
    requires vm.status.podName in w.pods
    ensures TouchesOnly(vm.status, node, w, GuestPass(vm, node, w, c).pods)
  {
  }

  /** A daemon only changes hypervisors it can reach, and never revives one that exited. */
  lemma DaemonPassWorld(vm: VM, node: Id, w: World, c: DaemonCalls)
    ensures TouchesOnly(vm.status, node, w, DaemonPass(vm, node, w, c).pods)
  {
    if vm.status.podName in w.pods {
      DeletingTouches(vm.status, node, w, c);
      BootTouches(vm.status, node, w, c);
      GuestTouches(vm, node, w, c);
    }
  }

  lemma HandoverPassLegal(st: Status, m: Migration, node: Id, w: World, c: DaemonCalls)
    requires WorldOk(w) && StatusOk(st, w) && st.migration == Some(m) && st.phase.Running? && st.podName in w.pods
    ensures var r := HandoverPass(st, m, node, w, c);
            (r.status == st || HandoverMove(st, m, node, r.status)) && StatusOk(r.status, w)
  {
  }

  /** A daemon pass makes one of its moves; it only ever sends the guest of a running VM. */
  lemma DaemonPassLegal(vm: VM, node: Id, w: World, c: DaemonCalls)
    requires WorldOk(w) && StatusOk(vm.status, w)
    ensures var r := DaemonPass(vm, node, w, c);
            DaemonMove(vm, node, r.status) && StatusOk(r.status, w)
    ensures var r := DaemonPass(vm, node, w, c);
            r.send.Some? ==> vm.status.phase.Running? && r.send.value.source == VmPod(vm.status)
  {
    var st := vm.status;
    if st.phase.Running? && st.migration.Some? && st.podName in w.pods {
      HandoverPassLegal(st, st.migration.value, node, w, c);
    }
  }

  /** The migration controller takes a free slot or releases its own one, the latter only when
      its migration is over. */
  lemma MigratorPassLegal(uid: Id, own: MigrationPhase, vm: VM, w: World)
    requires WorldOk(w) && StatusOk(vm.status, w)
    ensures var r := MigratorPass(uid, own, Some(vm));
            r.WriteVM? ==> MigratorMove(vm.status, uid, r.status) && StatusOk(r.status, w) &&
                           (vm.status.migration.Some? ==> Terminal(own))
  {
  }
}
