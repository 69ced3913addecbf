/** What holds in every state that any interleaving of the actors can reach. */
module Safety {
  import opened Options
  import opened Vm
  import opened Reconcile
  import opened Protocol
  import opened Legality

  /* ---------- the invariant of the shared object ---------- */

  predicate WriteOk(s: State, w: Write, writer: Actor) {
    && w.version < |s.history|
    && Legality.Move(s.history[w.version].vm, writer, w.status)
    && StatusOk(w.status, s.world)
  }

  predicate Starts(a: Phase, b: Phase) {
    b.Pending? && !a.Pending?
  }

  predicate ControllerOk(s: State) {
    s.controller.Updating? ==>
      && WriteOk(s, s.controller.write, Controller)
      && (Starts(s.history[s.controller.write.version].vm.status.phase, s.controller.write.status.phase)
          ==> s.world.pods == map[])
  }

  predicate WorkersOk(s: State) {
    && (forall n :: n in s.daemons ==> WriteOk(s, s.daemons[n], Daemon(n)))
    && (forall u :: u in s.migrators && s.migrators[u].UpdatingVM? ==> WriteOk(s, s.migrators[u].write, Migrator(u)))
  }

  /** Every version is a legal successor of the one before. */
  predicate Chain(h: seq<Entry>) {
    forall i :: 0 <= i < |h| - 1 ==> Legal(h[i].vm, h[i + 1].vm, h[i + 1].writer)
  }

  predicate ObjectInv(s: State) {
    && s.history != [] && s.history[0].vm.status == Blank(New)
    && WorldOk(s.world)
    && Chain(s.history)
    && (forall i :: 0 <= i < |s.history| ==> StatusOk(s.history[i].vm.status, s.world))
    && ControllerOk(s)
    && WorkersOk(s)
    && (forall x :: x in s.sends ==> x.source.uid < s.world.nextId)
  }

  lemma WorldStepKeepsObject(s: State, t: State)
    requires ObjectInv(s) && WorldOk(t.world) && Later(s.world, t.world)
    requires t == s.(world := t.world)
    requires s.controller.Updating? ==> t.world.pods.Keys <= s.world.pods.Keys
    ensures ObjectInv(t)
  {
    forall i | 0 <= i < |s.history| ensures StatusOk(s.history[i].vm.status, t.world) {
      StatusStaysOk(s.history[i].vm.status, s.world, t.world);
    }
    if s.controller.Updating? {
      StatusStaysOk(s.controller.write.status, s.world, t.world);
      if s.world.pods == map[] { assert t.world.pods.Keys == {}; }
    }
    forall n | n in s.daemons ensures WriteOk(t, s.daemons[n], Daemon(n)) {
      StatusStaysOk(s.daemons[n].status, s.world, t.world);
    }
    forall u | u in s.migrators && s.migrators[u].UpdatingVM? ensures WriteOk(t, s.migrators[u].write, Migrator(u)) {
      StatusStaysOk(s.migrators[u].write.status, s.world, t.world);
    }
  }

  /** A new version behind a chain: old indices keep their meaning. */
  lemma AppendKeepsObject(s: State, t: State, e: Entry)
    requires ObjectInv(s) && t == s.(history := s.history + [e])
    requires Legal(Now(s), e.vm, e.writer) && StatusOk(e.vm.status, s.world)
    ensures ObjectInv(t)
  {
    forall i | 0 <= i < |t.history| - 1 ensures Legal(t.history[i].vm, t.history[i + 1].vm, t.history[i + 1].writer) {
      if i < |s.history| - 1 { assert t.history[i + 1] == s.history[i + 1]; }
    }
  }

  lemma AcceptKeepsObject(s: State, w: Write, writer: Actor)
    requires ObjectInv(s) && WriteOk(s, w, writer) && !writer.User?
    ensures ObjectInv(Accept(s, w, writer))
  {
    var t := Accept(s, w, writer);
    if t != s {
      AppendKeepsObject(s, t, t.history[|s.history|]);
    }
  }

  /* Changes that touch one part of the state. */

  lemma NewControllerWork(s: State, work: ControllerWork)
    requires ObjectInv(s) && ControllerOk(s.(controller := work))
    ensures ObjectInv(s.(controller := work))
  {
  }

  lemma NewDaemonWork(s: State, node: Id, w: Write)
    requires ObjectInv(s) && WriteOk(s, w, Daemon(node))
    ensures ObjectInv(s.(daemons := s.daemons[node := w]))
  {
  }

  lemma NewSend(s: State, send: Send)
    requires ObjectInv(s) && send.source.uid < s.world.nextId
    ensures ObjectInv(s.(sends := s.sends + {send}))
  {
  }

  lemma LessDaemonWork(s: State, node: Id)
    requires ObjectInv(s)
    ensures ObjectInv(s.(daemons := s.daemons - {node}))
  {
  }

  lemma LessMigratorWork(s: State, uid: Id)
    requires ObjectInv(s)
    ensures ObjectInv(s.(migrators := s.migrators - {uid}))
  {
  }

  lemma ControllerStepKeepsObject(s: State, v: nat, c: ControllerCalls)
    requires ObjectInv(s)
    ensures ObjectInv(ControllerStep(s, v, c))
  {
    if HasVersion(s, v) && s.controller.Idle? {
      var r := ControllerPass(s.history[v].vm, s.world, c);
      ControllerPassLegal(s.history[v].vm, s.world, c);
      WorldStepKeepsObject(s, s.(world := r.world));
      NewControllerWork(s.(world := r.world), Updating(Write(v, r.status), r.err, r.remove));
    }
  }

  /** What a daemon does to the world. */
  lemma DaemonWorldLater(s: State, node: Id, v: nat, c: DaemonCalls)
    requires ObjectInv(s) && HasVersion(s, v)
    ensures var w := s.world.(pods := DaemonPass(s.history[v].vm, node, s.world, c).pods);
            WorldOk(w) && Later(s.world, w) && w.pods.Keys == s.world.pods.Keys
  {
    DaemonPassWorld(s.history[v].vm, node, s.world, c);
  }

  /** What a daemon leaves to be written and sent. */
  lemma DaemonWorkKeepsObject(s: State, node: Id, w: Write, send: Option<Send>)
    requires ObjectInv(s) && WriteOk(s, w, Daemon(node))
    requires send.Some? ==> send.value.source.uid < s.world.nextId
    ensures ObjectInv(s.(sends := if send.Some? then s.sends + {send.value} else s.sends, daemons := s.daemons[node := w]))
  {
    if send.Some? {
      NewSend(s, send.value);
      NewDaemonWork(s.(sends := s.sends + {send.value}), node, w);
    } else {
      NewDaemonWork(s, node, w);
    }
  }

  lemma DaemonStepKeepsObject(s: State, node: Id, v: nat, c: DaemonCalls)
    requires ObjectInv(s)
    ensures ObjectInv(DaemonStep(s, node, v, c))
  {
    if HasVersion(s, v) {
      var r := DaemonPass(s.history[v].vm, node, s.world, c);
      var w := s.world.(pods := r.pods);
      DaemonPassLegal(s.history[v].vm, node, s.world, c);
      DaemonWorldLater(s, node, v, c);
      WorldStepKeepsObject(s, s.(world := w));
      StatusStaysOk(r.status, s.world, w);
      DaemonWorkKeepsObject(s.(world := w), node, Write(v, r.status), r.send);
    }
  }

  lemma MigratorStepKeepsObject(s: State, uid: Id, own: nat, found: bool, v: nat)
    requires ObjectInv(s)
    ensures ObjectInv(MigratorStep(s, uid, own, found, v))
  {
    if uid in s.vmms && own < |s.vmms[uid]| && HasVersion(s, v) && found {
      MigratorPassLegal(uid, s.vmms[uid][own], s.history[v].vm, s.world);
    }
  }

  /** Nothing the invariant looks at but the controller's work, which is no update. */
  lemma RestKeepsObject(s: State, t: State)
    requires ObjectInv(s) && !t.controller.Updating?
    requires t.history == s.history && t.world == s.world && t.daemons == s.daemons && t.migrators == s.migrators
    requires t.sends == s.sends
    ensures ObjectInv(t)
  {
  }

  lemma ControllerUpdateKeepsObject(s: State)
    requires ObjectInv(s)
    ensures ObjectInv(ControllerUpdate(s))
  {
    if s.controller.Updating? {
      AcceptKeepsObject(s, s.controller.write, Controller);
      if s.gone || s.controller.write.version != Newest(s) || s.controller.remove {
        RestKeepsObject(s, ControllerUpdate(s));
      } else {
        RestKeepsObject(Accept(s, s.controller.write, Controller), ControllerUpdate(s));
      }
    }
  }

  lemma CollectKeepsObject(s: State, name: Id)
    requires ObjectInv(s)
    ensures ObjectInv(Collect(s, name))
  {
    if Collectable(s, name) {
      MarkedWorldOk(s.world, {name});
      WorldStepKeepsObject(s, Collect(s, name));
    }
  }

  lemma DaemonUpdateKeepsObject(s: State, node: Id)
    requires ObjectInv(s)
    ensures ObjectInv(DaemonUpdate(s, node))
  {
    if node in s.daemons {
      AcceptKeepsObject(s, s.daemons[node], Daemon(node));
      LessDaemonWork(Accept(s, s.daemons[node], Daemon(node)), node);
    }
  }

  lemma MigratorUpdateKeepsObject(s: State, uid: Id)
    requires ObjectInv(s)
    ensures ObjectInv(MigratorUpdate(s, uid))
  {
    if uid in s.migrators && s.migrators[uid].UpdatingVM? {
      AcceptKeepsObject(s, s.migrators[uid].write, Migrator(uid));
      LessMigratorWork(Accept(s, s.migrators[uid].write, Migrator(uid)), uid);
    } else {
      LessMigratorWork(s, uid);
    }
  }

  lemma EditKeepsObject(s: State, vm: VM)
    requires ObjectInv(s) && Legal(Now(s), vm, User) && StatusOk(vm.status, s.world)
    ensures ObjectInv(Edit(s, vm))
  {
    if !s.gone { AppendKeepsObject(s, Edit(s, vm), Entry(vm, User)); }
  }

  lemma BindLater(w: World, name: Id, node: Id)
    requires WorldOk(w)
    ensures WorldOk(Bind(w, name, node)) && Later(w, Bind(w, name, node))
  {
  }

  lemma MoveLater(w: World, send: Send)
    requires WorldOk(w)
    ensures var t := w.(pods := Protocol.Move(w.pods, send));
            WorldOk(t) && Later(w, t) && t.pods.Keys == w.pods.Keys
  {
  }

  lemma PhaseLater(w: World, name: Id, p: PodPhase)
    requires WorldOk(w)
    ensures var t := w.(pods := SetPhase(w, name, p));
            WorldOk(t) && Later(w, t) && t.pods.Keys == w.pods.Keys
  {
  }

  lemma RemoveLater(w: World, name: Id)
    requires WorldOk(w)
    ensures var t := w.(pods := w.pods - {name});
            WorldOk(t) && Later(w, t) && t.pods.Keys <= w.pods.Keys
  {
  }

  lemma StopLater(w: World, name: Id)
    requires WorldOk(w)
    ensures var t := w.(pods := StopGuest(w.pods, name));
            WorldOk(t) && Later(w, t) && t.pods.Keys == w.pods.Keys
  {
  }

  lemma WorldAfterLater(w: World, sends: set<Send>, step: Step)
    requires WorldOk(w) && WorldStep(step)
    ensures var t := WorldAfter(w, sends, step);
            WorldOk(t) && Later(w, t) && t.pods.Keys <= w.pods.Keys && t.nextId == w.nextId
  {
    match step
    case PodBound(n, node) => BindLater(w, n, node);
    case PodPhaseSet(n, p) => PhaseLater(w, n, p);
    case PodRemoved(n) => RemoveLater(w, n);
    case GuestStops(n) => StopLater(w, n);
    case GuestMoves(send) => MoveLater(w, send);
  }

  lemma WorldStepLater(s: State, step: Step)
    requires s.history != [] && WorldOk(s.world) && WorldStep(step)
    ensures var t := Next(s, step);
            && t == s.(world := t.world) && WorldOk(t.world) && Later(s.world, t.world)
            && t.world.pods.Keys <= s.world.pods.Keys && t.world.nextId == s.world.nextId
  {
    WorldAfterLater(s.world, s.sends, step);
  }

  lemma ActorKeepsObject(s: State, step: Step)
    requires ObjectInv(s)
    requires step.ControllerReads? || step.ControllerUpdates? || step.ControllerCollects? || step.ControllerRests?
             || step.DaemonReads? || step.DaemonUpdates? || step.MigratorReads? || step.MigratorUpdates?
    ensures ObjectInv(Next(s, step))
  {
    match step
    case ControllerReads(v, c) => ControllerStepKeepsObject(s, v, c);
    case ControllerUpdates => ControllerUpdateKeepsObject(s);
    case ControllerCollects(n) => CollectKeepsObject(s, n);
    case ControllerRests =>
    case DaemonReads(node, v, c) => DaemonStepKeepsObject(s, node, v, c);
    case DaemonUpdates(node) => DaemonUpdateKeepsObject(s, node);
    case MigratorReads(uid, own, found, v) => MigratorStepKeepsObject(s, uid, own, found, v);
    case MigratorUpdates(uid) => MigratorUpdateKeepsObject(s, uid);
  }

  lemma NextKeepsObject(s: State, step: Step)
    requires ObjectInv(s)
    ensures ObjectInv(Next(s, step))
  {
    if WorldStep(step) {
      WorldStepLater(s, step);
      WorldStepKeepsObject(s, Next(s, step));
    } else if step.UserPowers? {
      EditKeepsObject(s, Now(s).(status := Now(s).status.(powerAction := step.action)));
    } else if step.UserSetsPolicy? {
      EditKeepsObject(s, Now(s).(policy := step.policy));
    } else if step.UserDeletes? {
      EditKeepsObject(s, Now(s).(deleting := true));
    } else if step.UserMigrates? {
      WorldStepKeepsObject(s, s.(world := s.world.(nextId := s.world.nextId + 1)));
    } else {
      ActorKeepsObject(s, step);
    }
  }
}
