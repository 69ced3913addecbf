/** At most one guest: across restarts, migrations, stale reads and lost updates. */
module Guests {
  import opened Options
  import opened Specs
  import opened Vm
  import opened Reconcile
  import opened Protocol
  import opened Legality
  import opened Safety

  predicate SingleGuest(pods: map<Id, Pod>) {
    forall n, m :: n in pods && m in pods && Holds(pods[n].hv) && Holds(pods[m].hv) ==> n == m
  }

  predicate OnlyIn(pods: map<Id, Pod>, name: Id) {
    forall n :: n in pods && Holds(pods[n].hv) ==> n == name
  }

  /** Version `e` lets a daemon boot the pod it names, and that pod is still there. */
  predicate Bootable(e: Entry, pods: map<Id, Pod>) {
    e.vm.status.phase.Scheduled? && Live(pods, VmPod(e.vm.status))
  }

  predicate NothingBootable(h: seq<Entry>, pods: map<Id, Pod>) {
    forall i :: 0 <= i < |h| ==> !Bootable(h[i], pods)
  }

  /** No version, however old, lets a daemon send a guest away, and no send is outstanding. */
  predicate NothingSendable(s: State) {
    && (forall i :: 0 <= i < |s.history| ==>
          !(s.history[i].vm.status.phase.Running? && Live(s.world.pods, VmPod(s.history[i].vm.status))))
    && (forall x :: x in s.sends ==> !Live(s.world.pods, x.source))
  }

  predicate GuestInv(s: State)
    requires s.history != []
  {
    var st := Now(s).status;
    var pods := s.world.pods;
    && SingleGuest(pods)
    && (forall i :: 0 <= i < |s.history| && Bootable(s.history[i], pods) ==>
          s.history[i].vm.status.podName == s.incarnation)
    && (OnlyIn(pods, s.incarnation) || NothingBootable(s.history, pods))
    && (Early(st.phase) ==> NothingSendable(s) && OnlyIn(pods, s.incarnation))
    && (st.phase.New? || st.phase.Pending? ==>
          NothingBootable(s.history, pods) && forall n :: n in pods ==> !Holds(pods[n].hv))
    && (st.phase.Scheduling? || st.phase.Scheduled? ==> st.podName == s.incarnation)
  }

  /* ---------- steps of the world ---------- */

  predicate NoNewHolder(pods: map<Id, Pod>, pods': map<Id, Pod>) {
    forall n :: n in pods' && Holds(pods'[n].hv) ==> n in pods && Holds(pods[n].hv)
  }

  lemma LiveOnlyShrinks(s: State, w': World)
    requires ObjectInv(s) && Later(s.world, w')
    ensures forall i :: 0 <= i < |s.history| && Live(w'.pods, VmPod(s.history[i].vm.status)) ==>
              Live(s.world.pods, VmPod(s.history[i].vm.status))
    ensures forall x :: x in s.sends && Live(w'.pods, x.source) ==> Live(s.world.pods, x.source)
  {
    forall i | 0 <= i < |s.history| && Live(w'.pods, VmPod(s.history[i].vm.status))
      ensures Live(s.world.pods, VmPod(s.history[i].vm.status))
    {
      assert StatusOk(s.history[i].vm.status, s.world);
    }
  }

  lemma QuietKeepsGuests(s: State, w': World)
    requires ObjectInv(s) && GuestInv(s) && Later(s.world, w') && NoNewHolder(s.world.pods, w'.pods)
    ensures GuestInv(s.(world := w'))
  {
    LiveOnlyShrinks(s, w');
    var t := s.(world := w');
    assert NothingBootable(s.history, s.world.pods) ==> NothingBootable(t.history, t.world.pods);
    assert OnlyIn(s.world.pods, s.incarnation) ==> OnlyIn(t.world.pods, t.incarnation);
  }

  lemma BootedPods(pods: map<Id, Pod>, r: PodRef, hv: Hypervisor)
    requires Live(pods, r) && hv != Exited && OnlyIn(pods, r.name)
    ensures var pods' := SetHypervisor(pods, r.name, hv);
            OnlyIn(pods', r.name) && SingleGuest(pods') && forall q: PodRef :: Live(pods', q) <==> Live(pods, q)
  {
  }

  /** Pods with the same live ones, and no guest but in the current incarnation. */
  lemma SameLiveKeepsGuests(s: State, pods: map<Id, Pod>)
    requires s.history != [] && GuestInv(s) && !NothingBootable(s.history, s.world.pods)
    requires OnlyIn(pods, s.incarnation) && SingleGuest(pods)
    requires forall q: PodRef :: Live(pods, q) <==> Live(s.world.pods, q)
    ensures GuestInv(s.(world := s.world.(pods := pods)))
  {
    assert forall i :: 0 <= i < |s.history| ==> Bootable(s.history[i], pods) == Bootable(s.history[i], s.world.pods);
  }

  /** Booting the pod of a Scheduled version, old or new, cannot make a second guest. */
  lemma BootKeepsGuests(s: State, v: nat, hv: Hypervisor)
    requires s.history != [] && GuestInv(s) && v < |s.history| && Bootable(s.history[v], s.world.pods) && hv != Exited
    ensures var pods := SetHypervisor(s.world.pods, s.history[v].vm.status.podName, hv);
            GuestInv(s.(world := s.world.(pods := pods)))
  {
    var r := VmPod(s.history[v].vm.status);
    assert r.name == s.incarnation;
    BootedPods(s.world.pods, r, hv);
    SameLiveKeepsGuests(s, SetHypervisor(s.world.pods, r.name, hv));
  }

  lemma HolderIsAlone(pods: map<Id, Pod>, send: Send)
    requires SingleGuest(pods) && Protocol.Move(pods, send) != pods
    ensures Live(pods, send.source) && Holds(pods[send.source.name].hv)
    ensures OnlyIn(Protocol.Move(pods, send), send.target.name)
  {
  }

  /** No version lets a daemon boot any pod, and at most one pod holds a guest. */
  lemma MovedKeepsGuests(s: State, w: World, name: Id)
    requires ObjectInv(s) && GuestInv(s) && Later(s.world, w) && NothingBootable(s.history, w.pods)
    requires OnlyIn(w.pods, name) && !Early(Now(s).status.phase)
    ensures GuestInv(s.(world := w))
  {
  }

  /** The source was the only pod a version could boot, and its process has ended. */
  lemma NothingBootableAfterMove(s: State, send: Send)
    requires ObjectInv(s) && GuestInv(s) && Protocol.Move(s.world.pods, send) != s.world.pods
    ensures NothingBootable(s.history, Protocol.Move(s.world.pods, send))
  {
    var pods := Protocol.Move(s.world.pods, send);
    HolderIsAlone(s.world.pods, send);
    MoveLater(s.world, send);
    LiveOnlyShrinks(s, s.world.(pods := pods));
    forall i | 0 <= i < |s.history| ensures !Bootable(s.history[i], pods) {
      assert Bootable(s.history[i], pods) ==> Bootable(s.history[i], s.world.pods);
    }
  }

  /** A guest that can be sent belongs to no version that can be booted. */
  lemma SendingMeansNothingElse(s: State, send: Send)
    requires ObjectInv(s) && GuestInv(s) && send in s.sends && Protocol.Move(s.world.pods, send) != s.world.pods
    ensures !Early(Now(s).status.phase)
  {
    HolderIsAlone(s.world.pods, send);
  }

  /** A guest that changes hands was the only one, and stays the only one. */
  lemma MoveKeepsGuests(s: State, send: Send)
    requires ObjectInv(s) && GuestInv(s) && send in s.sends
    ensures GuestInv(s.(world := s.world.(pods := Protocol.Move(s.world.pods, send))))
  {
    var pods := Protocol.Move(s.world.pods, send);
    if pods != s.world.pods {
      MoveLater(s.world, send);
      HolderIsAlone(s.world.pods, send);
      SendingMeansNothingElse(s, send);
      NothingBootableAfterMove(s, send);
      MovedKeepsGuests(s, s.world.(pods := pods), send.target.name);
    } else {
      assert s.(world := s.world.(pods := pods)) == s;
    }
  }

  /* ---------- steps of the object ---------- */

  /** The incarnation after the controller's update was accepted. */
  function Reincarnated(s: State, st: Status): Id
    requires s.history != []
  {
    if Now(s).status.phase.Pending? && st.phase.Scheduling? then st.podName else s.incarnation
  }

  /** A version that lets no daemon boot anything adds nothing to boot. */
  lemma NothingMoreBootable(h: seq<Entry>, e: Entry, pods: map<Id, Pod>)
    requires NothingBootable(h, pods) && !Bootable(e, pods)
    ensures NothingBootable(h + [e], pods)
  {
  }

  /** A new version while there are no pods, or before the first pod of a start exists. */
  lemma StartKeepsGuests(s: State, t: State, e: Entry)
    requires s.history != [] && GuestInv(s) && NothingBootable(s.history, s.world.pods) && !Bootable(e, s.world.pods)
    requires forall n :: n in s.world.pods ==> !Holds(s.world.pods[n].hv)
    requires t == s.(history := s.history + [e], incarnation := t.incarnation)
    requires NothingSendable(t)
    requires e.vm.status.phase.Scheduling? || e.vm.status.phase.Scheduled? ==> e.vm.status.podName == t.incarnation
    ensures GuestInv(t)
  {
    NothingMoreBootable(s.history, e, s.world.pods);
  }

  /** A new version of the same start. */
  lemma SameStartKeepsGuests(s: State, t: State, e: Entry)
    requires s.history != [] && GuestInv(s) && Legal(Now(s), e.vm, e.writer)
    requires t == s.(history := s.history + [e])
    requires !Starts(Now(s).status.phase, e.vm.status.phase)
    requires !(Now(s).status.phase.Pending? && e.vm.status.phase.Scheduling?)
    ensures GuestInv(t)
  {
    var pods := s.world.pods;
    EarlyMoves(Now(s), e.vm, e.writer);
    assert forall i :: 0 <= i < |t.history| ==> i == |s.history| || t.history[i] == s.history[i];
    if NothingBootable(s.history, pods) && !Bootable(e, pods) { NothingMoreBootable(s.history, e, pods); }
  }

  lemma AppendKeepsGuests(s: State, t: State, e: Entry)
    requires ObjectInv(s) && GuestInv(s)
    requires Legal(Now(s), e.vm, e.writer)
    requires t == s.(history := s.history + [e], incarnation := Reincarnated(s, e.vm.status))
    requires Starts(Now(s).status.phase, e.vm.status.phase) ==> s.world.pods == map[]
    ensures GuestInv(t)
  {
    var st, st' := Now(s).status, e.vm.status;
    if Starts(st.phase, st'.phase) || (st.phase.Pending? && st'.phase.Scheduling?) {
      assert forall i :: 0 <= i < |t.history| ==> i == |s.history| || t.history[i] == s.history[i];
      StartKeepsGuests(s, t, e);
    } else {
      SameStartKeepsGuests(s, t, e);
    }
  }

  /** Where the early phases are entered from. */
  lemma EarlyMoves(a: VM, b: VM, writer: Actor)
    requires Legal(a, b, writer)
    ensures Early(b.status.phase) ==> Early(a.status.phase) || b.status.phase.Pending?
    ensures b.status.phase.New? ==> a.status.phase.New?
    ensures b.status.phase.Scheduling? ==> a.status.phase.Pending? || (a.status.phase.Scheduling? && b.status.podName == a.status.podName)
    ensures b.status.phase.Scheduled? ==>
              (a.status.phase.Scheduling? || a.status.phase.Scheduled?) && b.status.podName == a.status.podName
  {
  }

  lemma AcceptKeepsGuests(s: State, w: Write, writer: Actor)
    requires ObjectInv(s) && GuestInv(s) && WriteOk(s, w, writer) && !writer.User? && !writer.Controller?
    ensures GuestInv(Accept(s, w, writer))
  {
    var t := Accept(s, w, writer);
    if t != s {
      AppendKeepsGuests(s, t, t.history[|s.history|]);
    }
  }

  /** The guest invariant looks at nothing but these. */
  predicate SameGuests(s: State, t: State) {
    s.history == t.history && s.world == t.world && s.incarnation == t.incarnation && s.sends == t.sends
  }

  lemma SameKeepsGuests(s: State, t: State)
    requires s.history != [] && GuestInv(s) && SameGuests(s, t)
    ensures GuestInv(t)
  {
  }

  lemma ControllerAcceptKeepsGuests(s: State, w: Write)
    requires ObjectInv(s) && GuestInv(s) && s.controller.Updating? && s.controller.write == w
    requires !s.gone && w.version == Newest(s)
    ensures GuestInv(Accept(s, w, Controller).(incarnation := Reincarnated(s, w.status)))
  {
    var t := Accept(s, w, Controller).(incarnation := Reincarnated(s, w.status));
    if w.status == Now(s).status {
      assert t == s;
    } else {
      AppendKeepsGuests(s, t, t.history[|s.history|]);
    }
  }

  lemma ControllerUpdateKeepsGuests(s: State)
    requires ObjectInv(s) && GuestInv(s)
    ensures GuestInv(ControllerUpdate(s))
  {
    var t := ControllerUpdate(s);
    if s.controller.Updating? && !s.gone && s.controller.write.version == Newest(s) && !s.controller.remove {
      var w := s.controller.write;
      ControllerAcceptKeepsGuests(s, w);
      SameKeepsGuests(Accept(s, w, Controller).(incarnation := Reincarnated(s, w.status)), t);
    } else {
      SameKeepsGuests(s, t);
    }
  }

  lemma ControllerEffectKeepsGuests(s: State, v: nat, c: ControllerCalls)
    requires ObjectInv(s) && GuestInv(s) && HasVersion(s, v)
    ensures GuestInv(s.(world := ControllerPass(s.history[v].vm, s.world, c).world))
  {
    ControllerPassLegal(s.history[v].vm, s.world, c);
    ControllerNoNewHolder(s.history[v].vm, s.world, c);
    QuietKeepsGuests(s, ControllerPass(s.history[v].vm, s.world, c).world);
  }

  lemma ControllerStepKeepsGuests(s: State, v: nat, c: ControllerCalls)
    requires ObjectInv(s) && GuestInv(s)
    ensures GuestInv(ControllerStep(s, v, c))
  {
    if HasVersion(s, v) && s.controller.Idle? {
      ControllerEffectKeepsGuests(s, v, c);
      SameKeepsGuests(s.(world := ControllerPass(s.history[v].vm, s.world, c).world), ControllerStep(s, v, c));
    }
  }

  lemma PhasePassNoNewHolder(vm: VM, w: World, c: ControllerCalls)
    ensures NoNewHolder(w.pods, PhasePass(vm, w, c).world.pods)
  {
  }

  lemma ControllerNoNewHolder(vm: VM, w: World, c: ControllerCalls)
    ensures NoNewHolder(w.pods, ControllerPass(vm, w, c).world.pods)
  {
    PhasePassNoNewHolder(vm, w, c);
    PhasePassNoNewHolder(vm, DeleteAll(w, c), c);
  }

  /** The effect of a daemon pass on the pods, whatever version it read. */
  lemma DaemonEffectKeepsGuests(s: State, node: Id, v: nat, c: DaemonCalls)
    requires ObjectInv(s) && GuestInv(s) && HasVersion(s, v)
    ensures GuestInv(s.(world := s.world.(pods := DaemonPass(s.history[v].vm, node, s.world, c).pods)))
  {
    var vm := s.history[v].vm;
    var pods := DaemonPass(vm, node, s.world, c).pods;
    DaemonPassWorld(vm, node, s.world, c);
    DaemonWorldLater(s, node, v, c);
    if vm.status.phase.Scheduled? && pods != s.world.pods {
      var hv :| hv != Exited && pods == SetHypervisor(s.world.pods, vm.status.podName, hv);
      BootKeepsGuests(s, v, hv);
    } else {
      DaemonBootsOnlyScheduled(vm, node, s.world, c);
      QuietKeepsGuests(s, s.world.(pods := pods));
    }
  }

  lemma SendKeepsGuests(s: State, send: Send, v: nat)
    requires ObjectInv(s) && GuestInv(s) && HasVersion(s, v)
    requires s.history[v].vm.status.phase.Running? && send.source == VmPod(s.history[v].vm.status)
    ensures GuestInv(s.(sends := s.sends + {send}))
  {
  }

  lemma DaemonStepKeepsGuests(s: State, node: Id, v: nat, c: DaemonCalls)
    requires ObjectInv(s) && GuestInv(s)
    ensures GuestInv(DaemonStep(s, node, v, c))
  {
    if HasVersion(s, v) {
      var r := DaemonPass(s.history[v].vm, node, s.world, c);
      DaemonEffectKeepsGuests(s, node, v, c);
      DaemonPassLegal(s.history[v].vm, node, s.world, c);
      DaemonWorldLater(s, node, v, c);
      var u := s.(world := s.world.(pods := r.pods));
      WorldStepKeepsObject(s, u);
      if r.send.Some? {
        SendKeepsGuests(u, r.send.value, v);
        SameKeepsGuests(u.(sends := u.sends + {r.send.value}), DaemonStep(s, node, v, c));
      } else {
        SameKeepsGuests(u, DaemonStep(s, node, v, c));
      }
    }
  }

  lemma DaemonBootsOnlyScheduled(vm: VM, node: Id, w: World, c: DaemonCalls)
    requires !vm.status.phase.Scheduled? || DaemonPass(vm, node, w, c).pods == w.pods
    ensures NoNewHolder(w.pods, DaemonPass(vm, node, w, c).pods)
  {
  }

  lemma EditKeepsGuests(s: State, vm: VM)
    requires ObjectInv(s) && GuestInv(s) && Legal(Now(s), vm, User) && vm.status.phase == Now(s).status.phase
    ensures GuestInv(Edit(s, vm))
  {
    if !s.gone { AppendKeepsGuests(s, Edit(s, vm), Entry(vm, User)); }
  }

  lemma WorldAfterNoNewHolder(w: World, sends: set<Send>, step: Step)
    requires WorldStep(step) && !step.GuestMoves?
    ensures NoNewHolder(w.pods, WorldAfter(w, sends, step).pods)
  {
  }

  lemma QuietWorldKeepsGuests(s: State, step: Step)
    requires ObjectInv(s) && GuestInv(s) && WorldStep(step) && !step.GuestMoves?
    ensures GuestInv(s.(world := WorldAfter(s.world, s.sends, step)))
  {
    WorldAfterLater(s.world, s.sends, step);
    WorldAfterNoNewHolder(s.world, s.sends, step);
    QuietKeepsGuests(s, WorldAfter(s.world, s.sends, step));
  }

  lemma GuestMovesKeepsGuests(s: State, send: Send)
    requires ObjectInv(s) && GuestInv(s)
    ensures GuestInv(s.(world := WorldAfter(s.world, s.sends, GuestMoves(send))))
  {
    if send in s.sends {
      MoveKeepsGuests(s, send);
    } else {
      SameKeepsGuests(s, s.(world := s.world));
    }
  }

  lemma CollectKeepsGuests(s: State, name: Id)
    requires ObjectInv(s) && GuestInv(s)
    ensures GuestInv(Collect(s, name))
  {
    MarkedWorldOk(s.world, {name});
    if Collectable(s, name) { QuietKeepsGuests(s, MarkTerminating(s.world, {name})); }
  }

  lemma DaemonUpdateKeepsGuests(s: State, node: Id)
    requires ObjectInv(s) && GuestInv(s)
    ensures GuestInv(DaemonUpdate(s, node))
  {
    if node in s.daemons {
      AcceptKeepsGuests(s, s.daemons[node], Daemon(node));
      SameKeepsGuests(Accept(s, s.daemons[node], Daemon(node)), DaemonUpdate(s, node));
    }
  }

  lemma MigratorUpdateKeepsGuests(s: State, uid: Id)
    requires ObjectInv(s) && GuestInv(s)
    ensures GuestInv(MigratorUpdate(s, uid))
  {
    if uid in s.migrators && s.migrators[uid].UpdatingVM? {
      var w := s.migrators[uid].write;
      AcceptKeepsGuests(s, w, Migrator(uid));
      SameKeepsGuests(Accept(s, w, Migrator(uid)), MigratorUpdate(s, uid));
    } else {
      SameKeepsGuests(s, MigratorUpdate(s, uid));
    }
  }

  lemma UserKeepsGuests(s: State, step: Step)
    requires ObjectInv(s) && GuestInv(s) && UserStep(step)
    ensures GuestInv(Next(s, step))
  {
    match step
    case UserPowers(a) => EditKeepsGuests(s, Now(s).(status := Now(s).status.(powerAction := a)));
    case UserSetsPolicy(p) => EditKeepsGuests(s, Now(s).(policy := p));
    case UserDeletes => EditKeepsGuests(s, Now(s).(deleting := true));
    case UserMigrates =>
      var w := s.world.(nextId := s.world.nextId + 1);
      QuietKeepsGuests(s, w);
      SameKeepsGuests(s.(world := w), Next(s, step));
  }

  predicate UserStep(step: Step) {
    step.UserPowers? || step.UserSetsPolicy? || step.UserDeletes? || step.UserMigrates?
  }

  lemma ControllerKeepsGuests(s: State, step: Step)
    requires ObjectInv(s) && GuestInv(s)
    requires step.ControllerReads? || step.ControllerUpdates? || step.ControllerCollects? || step.ControllerRests?
    ensures GuestInv(Next(s, step))
  {
    match step
    case ControllerReads(v, c) => ControllerStepKeepsGuests(s, v, c);
    case ControllerUpdates => ControllerUpdateKeepsGuests(s);
    case ControllerCollects(n) => CollectKeepsGuests(s, n);
    case ControllerRests => SameKeepsGuests(s, s.(controller := Idle));
  }

  lemma DaemonKeepsGuests(s: State, step: Step)
    requires ObjectInv(s) && GuestInv(s) && (step.DaemonReads? || step.DaemonUpdates?)
    ensures GuestInv(Next(s, step))
  {
    match step
    case DaemonReads(node, v, c) => DaemonStepKeepsGuests(s, node, v, c);
    case DaemonUpdates(node) => DaemonUpdateKeepsGuests(s, node);
  }

  lemma MigratorStepKeepsGuests(s: State, uid: Id, own: nat, found: bool, v: nat)
    requires s.history != [] && GuestInv(s)
    ensures GuestInv(MigratorStep(s, uid, own, found, v))
  {
    SameKeepsGuests(s, MigratorStep(s, uid, own, found, v));
  }

  lemma MigratorKeepsGuests(s: State, step: Step)
    requires ObjectInv(s) && GuestInv(s) && (step.MigratorReads? || step.MigratorUpdates?)
    ensures GuestInv(Next(s, step))
  {
    match step
    case MigratorReads(uid, own, found, v) => MigratorStepKeepsGuests(s, uid, own, found, v);
    case MigratorUpdates(uid) => MigratorUpdateKeepsGuests(s, uid);
  }

  lemma NextKeepsGuests(s: State, step: Step)
    requires ObjectInv(s) && GuestInv(s)
    ensures GuestInv(Next(s, step))
  {
    if step.GuestMoves? {
      GuestMovesKeepsGuests(s, step.send);
    } else if WorldStep(step) {
      QuietWorldKeepsGuests(s, step);
    } else if UserStep(step) {
      UserKeepsGuests(s, step);
    } else if step.DaemonReads? || step.DaemonUpdates? {
      DaemonKeepsGuests(s, step);
    } else if step.MigratorReads? || step.MigratorUpdates? {
      MigratorKeepsGuests(s, step);
    } else {
      ControllerKeepsGuests(s, step);
    }
  }

  lemma {:induction false} RunKeepsGuests(s: State, steps: seq<Step>)
    requires ObjectInv(s) && GuestInv(s)
    ensures ObjectInv(Run(s, steps)) && GuestInv(Run(s, steps))
    decreases |steps|
  {
    if steps != [] {
      NextKeepsObject(s, steps[0]);
      NextKeepsGuests(s, steps[0]);
      RunKeepsGuests(Next(s, steps[0]), steps[1..]);
    }
  }

  /** In every reachable state at most one pod holds a virtual machine. */
  lemma AtMostOneGuest(policy: RunPolicy, steps: seq<Step>)
    ensures SingleGuest(Run(Init(policy), steps).world.pods)
  {
    RunKeepsGuests(Init(policy), steps);
  }
}
