/** A run that goes all the way: a VM is started, booted and migrated, and the migration reports
    success. What the theorems speak of does happen. */
module Witness {
  import opened Options
  import opened Specs
  import opened Vm
  import opened Reconcile
  import opened Protocol

  ghost predicate Reaches(s: State, t: State)
    requires s.history != []
  {
    exists steps :: Run(s, steps) == t
  }

  lemma {:induction false} RunConcat(s: State, a: seq<Step>, b: seq<Step>)
    requires s.history != []
    ensures Run(s, a + b) == Run(Run(s, a), b)
    decreases |a|
  {
    if a == [] {
      assert a + b == b;
    } else {
      assert (a + b)[1..] == a[1..] + b;
      RunConcat(Next(s, a[0]), a[1..], b);
    }
  }

  lemma Onward(s: State, t: State, u: State)
    requires s.history != [] && t.history != [] && Reaches(s, t) && Reaches(t, u)
    ensures Reaches(s, u)
  {
    var a :| Run(s, a) == t;
    var b :| Run(t, b) == u;
    RunConcat(s, a, b);
  }

  lemma OneStep(s: State, step: Step)
    requires s.history != []
    ensures Reaches(s, Next(s, step))
  {
    assert [step][1..] == [];
    assert Run(Next(s, step), []) == Next(s, step);
    assert Run(s, [step]) == Next(s, step);
  }

  const FINE := ControllerCalls(true, {}, true, true, true, true, true, true, NoVolumes)
  const GOOD := DaemonCalls(true, true, true, true, true, true, ReceiveReady, true, true, Sending)

  /* ---------- whole passes over the newest version ---------- */

  type Migrations = map<Id, seq<MigrationPhase>>

  /** A state at rest with this newest status. */
  predicate Rests(s: State, st: Status, w: World, vmms: Migrations) {
    && s.history != [] && Now(s) == VM(st, Once, false) && !s.gone && s.controller.Idle?
    && s.world == w && s.vmms == vmms
  }

  ghost predicate At(s: State, st: Status, w: World, vmms: Migrations) {
    Rests(s, st, w, vmms) && Reaches(Init(Once), s)
  }

  /** `t` comes after `s` by these one or two steps. */
  lemma TwoSteps(s: State, u: State, t: State, a: Step, b: Step)
    requires s.history != [] && u == Next(s, a) && t == Next(u, b)
    ensures Reaches(s, t)
  {
    OneStep(s, a);
    OneStep(u, b);
    Onward(s, u, t);
  }

  lemma ControllerFacts(s: State, st: Status, w: World, vmms: Migrations, st': Status, w': World)
    requires Rests(s, st, w, vmms)
    requires ControllerPass(VM(st, Once, false), w, FINE) == ControllerResult(st', w', false, false)
    ensures Rests(ControllerUpdate(ControllerStep(s, |s.history| - 1, FINE)).(controller := Idle), st', w', vmms)
  {
  }

  lemma ControllerActs(s: State, st: Status, w: World, vmms: Migrations, st': Status, w': World) returns (t: State)
    requires Rests(s, st, w, vmms)
    requires ControllerPass(VM(st, Once, false), w, FINE) == ControllerResult(st', w', false, false)
    ensures Reaches(s, t) && Rests(t, st', w', vmms)
  {
    var a := ControllerStep(s, |s.history| - 1, FINE);
    var b := ControllerUpdate(a);
    t := b.(controller := Idle);
    ControllerFacts(s, st, w, vmms, st', w');
    TwoSteps(s, a, b, ControllerReads(|s.history| - 1, FINE), ControllerUpdates);
    OneStep(b, ControllerRests);
    Onward(s, b, t);
  }

  lemma DaemonFacts(s: State, node: Id, st: Status, w: World, vmms: Migrations, st': Status, pods: map<Id, Pod>,
                    send: Option<Send>)
    requires Rests(s, st, w, vmms) && DaemonPass(VM(st, Once, false), node, w, GOOD) == DaemonResult(st', pods, send)
    ensures var t := DaemonUpdate(DaemonStep(s, node, |s.history| - 1, GOOD), node);
            Rests(t, st', w.(pods := pods), vmms) && (send.Some? ==> send.value in t.sends)
  {
  }

  lemma DaemonActs(s: State, node: Id, st: Status, w: World, vmms: Migrations, st': Status, pods: map<Id, Pod>,
                   send: Option<Send>) returns (t: State)
    requires Rests(s, st, w, vmms) && DaemonPass(VM(st, Once, false), node, w, GOOD) == DaemonResult(st', pods, send)
    ensures Reaches(s, t) && Rests(t, st', w.(pods := pods), vmms) && (send.Some? ==> send.value in t.sends)
  {
    var a := DaemonStep(s, node, |s.history| - 1, GOOD);
    t := DaemonUpdate(a, node);
    DaemonFacts(s, node, st, w, vmms, st', pods, send);
    TwoSteps(s, a, t, DaemonReads(node, |s.history| - 1, GOOD), DaemonUpdates(node));
  }

  lemma ClaimFacts(s: State, st: Status, w: World, vmms: Migrations, uid: Id)
    requires Rests(s, st, w, vmms) && uid in vmms && vmms[uid] == [MNew] && st.migration.None?
    ensures Rests(MigratorUpdate(MigratorStep(s, uid, 0, true, |s.history| - 1), uid),
                  st.(migration := Some(FreshMigration(uid))), w, vmms)
  {
  }

  lemma ReportFacts(s: State, st: Status, w: World, vmms: Migrations, uid: Id)
    requires Rests(s, st, w, vmms) && uid in vmms && vmms[uid] == [MNew]
    requires st.migration.Some? && st.migration.value.uid == uid
    ensures Rests(MigratorUpdate(MigratorStep(s, uid, 0, true, |s.history| - 1), uid),
                  st, w, vmms[uid := [MNew] + [st.migration.value.phase]])
  {
  }

  lemma MigratorActs(s: State, uid: Id) returns (t: State)
    requires s.history != []
    ensures t == MigratorUpdate(MigratorStep(s, uid, 0, true, |s.history| - 1), uid) && Reaches(s, t)
  {
    var a := MigratorStep(s, uid, 0, true, |s.history| - 1);
    t := MigratorUpdate(a, uid);
    TwoSteps(s, a, t, MigratorReads(uid, 0, true, |s.history| - 1), MigratorUpdates(uid));
  }

  lemma Control(s: State, st: Status, w: World, vmms: Migrations, st': Status, w': World) returns (t: State)
    requires At(s, st, w, vmms)
    requires ControllerPass(VM(st, Once, false), w, FINE) == ControllerResult(st', w', false, false)
    ensures At(t, st', w', vmms)
  {
    t := ControllerActs(s, st, w, vmms, st', w');
    Onward(Init(Once), s, t);
  }

  lemma OnNode(s: State, node: Id, st: Status, w: World, vmms: Migrations, st': Status, pods: map<Id, Pod>,
               send: Option<Send>) returns (t: State)
    requires At(s, st, w, vmms) && DaemonPass(VM(st, Once, false), node, w, GOOD) == DaemonResult(st', pods, send)
    ensures At(t, st', w.(pods := pods), vmms) && (send.Some? ==> send.value in t.sends)
  {
    t := DaemonActs(s, node, st, w, vmms, st', pods, send);
    Onward(Init(Once), s, t);
  }

  lemma InClusterFacts(s: State, step: Step, st: Status, w: World, vmms: Migrations)
    requires Rests(s, st, w, vmms) && WorldStep(step)
    ensures Rests(Next(s, step), st, WorldAfter(w, s.sends, step), vmms)
  {
  }

  lemma InCluster(s: State, step: Step, st: Status, w: World, vmms: Migrations, w': World) returns (t: State)
    requires At(s, st, w, vmms) && WorldStep(step) && WorldAfter(w, s.sends, step) == w'
    ensures At(t, st, w', vmms)
  {
    OneStep(s, step);
    InClusterFacts(s, step, st, w, vmms);
    t := Next(s, step);
    Onward(Init(Once), s, t);
  }

  lemma RequestFacts(s: State, st: Status, w: World)
    requires Rests(s, st, w, map[])
    ensures Rests(Next(s, UserMigrates), st, w.(nextId := w.nextId + 1), map[w.nextId := [MNew]])
  {
    assert Next(s, UserMigrates).vmms == map[w.nextId := [MNew]];
  }

  lemma Request(s: State, st: Status, w: World) returns (t: State)
    requires At(s, st, w, map[])
    ensures At(t, st, w.(nextId := w.nextId + 1), map[w.nextId := [MNew]])
  {
    OneStep(s, UserMigrates);
    RequestFacts(s, st, w);
    t := Next(s, UserMigrates);
    Onward(Init(Once), s, t);
  }

  lemma Claim(s: State, st: Status, w: World, uid: Id) returns (t: State)
    requires At(s, st, w, map[uid := [MNew]]) && st.migration.None?
    ensures At(t, st.(migration := Some(FreshMigration(uid))), w, map[uid := [MNew]])
  {
    t := MigratorActs(s, uid);
    ClaimFacts(s, st, w, map[uid := [MNew]], uid);
    Onward(Init(Once), s, t);
  }

  lemma Report(s: State, st: Status, w: World, uid: Id) returns (t: State)
    requires At(s, st, w, map[uid := [MNew]]) && st.migration.Some? && st.migration.value.uid == uid
    ensures At(t, st, w, map[uid := [MNew] + [st.migration.value.phase]])
  {
    t := MigratorActs(s, uid);
    ReportFacts(s, st, w, map[uid := [MNew]], uid);
    Onward(Init(Once), s, t);
    assert t.vmms == map[uid := [MNew] + [st.migration.value.phase]];
  }

  /* ---------- the run ---------- */

  const A := Pod(2, PodRunning, false, NotCreated)
  const B := Pod(5, PodRunning, false, NotCreated)
  const PLACE := map[2 := Origin(1, 100)]
  const PLACES := map[2 := Origin(1, 100), 5 := Origin(4, 200)]
  const HANDED := Send(PodRef(1, 2), PodRef(4, 5))

  function Living(m: Option<Migration>): Status {
    Status(Running, 1, 2, 100, NoAction, m)
  }

  function Slot(p: MigrationPhase): Option<Migration> {
    Some(Migration(3, p, 4, 5, 200))
  }

  lemma Named() returns (s: State)
    ensures At(s, Status(Scheduling, 1, 0, 0, NoAction, None), World(map[], map[], 2), map[])
  {
    assert Run(Init(Once), []) == Init(Once);
    s := Control(Init(Once), Blank(New), World(map[], map[], 1), map[], Blank(Pending), World(map[], map[], 1));
    s := Control(s, Blank(Pending), World(map[], map[], 1), map[],
                 Status(Scheduling, 1, 0, 0, NoAction, None), World(map[], map[], 2));
  }

  lemma Placed() returns (s: State)
    ensures At(s, Status(Scheduling, 1, 0, 0, NoAction, None), World(map[1 := A], PLACE, 3), map[])
  {
    var st := Status(Scheduling, 1, 0, 0, NoAction, None);
    var pod := Pod(2, PodPending, false, NotCreated);
    s := Named();
    assert CreatePod(World(map[], map[], 2), 1) == World(map[1 := pod], map[2 := Origin(1, UNSET)], 3);
    s := Control(s, st, World(map[], map[], 2), map[], st, World(map[1 := pod], map[2 := Origin(1, UNSET)], 3));
    s := InCluster(s, PodBound(1, 100), st, World(map[1 := pod], map[2 := Origin(1, UNSET)], 3), map[],
                   World(map[1 := pod], PLACE, 3));
    assert SetPhase(World(map[1 := pod], PLACE, 3), 1, PodRunning) == map[1 := A];
    s := InCluster(s, PodPhaseSet(1, PodRunning), st, World(map[1 := pod], PLACE, 3), map[], World(map[1 := A], PLACE, 3));
  }

  lemma Booted() returns (s: State)
    ensures At(s, Living(None), World(map[1 := A.(hv := GuestRunning)], PLACE, 3), map[])
  {
    var w := World(map[1 := A], PLACE, 3);
    var st := Status(Scheduled, 1, 2, 100, NoAction, None);
    var pods := map[1 := A.(hv := GuestRunning)];
    assert SetHypervisor(w.pods, 1, GuestRunning) == pods;
    s := Placed();
    s := Control(s, Status(Scheduling, 1, 0, 0, NoAction, None), w, map[], st, w);
    s := OnNode(s, 100, st, w, map[], st, pods, None);
    s := OnNode(s, 100, st, w.(pods := pods), map[], Living(None), pods, None);
  }

  lemma Chosen() returns (s: State)
    ensures At(s, Living(Some(Migration(3, MScheduling, 4, 0, 0))), World(map[1 := A.(hv := GuestRunning)], PLACE, 5),
               map[3 := [MNew]])
  {
    var pods := map[1 := A.(hv := GuestRunning)];
    s := Booted();
    s := Request(s, Living(None), World(pods, PLACE, 3));
    s := Claim(s, Living(None), World(pods, PLACE, 4), 3);
    s := Control(s, Living(Some(FreshMigration(3))), World(pods, PLACE, 4), map[3 := [MNew]],
                 Living(Some(Migration(3, MScheduling, 4, 0, 0))), World(pods, PLACE, 5));
  }

  lemma TargetPlaced() returns (s: State)
    ensures At(s, Living(Some(Migration(3, MScheduling, 4, 0, 0))),
               World(map[1 := A.(hv := GuestRunning), 4 := B], PLACES, 6), map[3 := [MNew]])
  {
    var vmms := map[3 := [MNew]];
    var one := map[1 := A.(hv := GuestRunning)];
    var two := map[1 := A.(hv := GuestRunning), 4 := B.(phase := PodPending)];
    var unbound := map[2 := Origin(1, 100), 5 := Origin(4, UNSET)];
    var st := Living(Some(Migration(3, MScheduling, 4, 0, 0)));
    s := Chosen();
    assert CreatePod(World(one, PLACE, 5), 4) == World(two, unbound, 6);
    s := Control(s, st, World(one, PLACE, 5), vmms, st, World(two, unbound, 6));
    assert Bind(World(two, unbound, 6), 4, 200) == World(two, PLACES, 6);
    s := InCluster(s, PodBound(4, 200), st, World(two, unbound, 6), vmms, World(two, PLACES, 6));
    assert SetPhase(World(two, PLACES, 6), 4, PodRunning) == map[1 := A.(hv := GuestRunning), 4 := B];
    s := InCluster(s, PodPhaseSet(4, PodRunning), st, World(two, PLACES, 6), vmms,
                   World(map[1 := A.(hv := GuestRunning), 4 := B], PLACES, 6));
  }

  lemma Sent() returns (s: State)
    ensures At(s, Living(Slot(MRunning)), World(map[1 := A.(hv := GuestRunning), 4 := B], PLACES, 6), map[3 := [MNew]])
    ensures HANDED in s.sends
  {
    var vmms := map[3 := [MNew]];
    var pods := map[1 := A.(hv := GuestRunning), 4 := B];
    var w := World(pods, PLACES, 6);
    s := TargetPlaced();
    s := Control(s, Living(Some(Migration(3, MScheduling, 4, 0, 0))), w, vmms, Living(Slot(MScheduled)), w);
    s := OnNode(s, 200, Living(Slot(MScheduled)), w, vmms, Living(Slot(MTargetReady)), pods, None);
    s := OnNode(s, 100, Living(Slot(MTargetReady)), w, vmms, Living(Slot(MRunning)), pods, Some(HANDED));
  }

  lemma HandedOver() returns (s: State)
    ensures At(s, Living(Slot(MRunning)), World(map[1 := A.(hv := Exited), 4 := B.(hv := GuestRunning)], PLACES, 6),
               map[3 := [MNew]])
  {
    var before := World(map[1 := A.(hv := GuestRunning), 4 := B], PLACES, 6);
    var after := World(map[1 := A.(hv := Exited), 4 := B.(hv := GuestRunning)], PLACES, 6);
    s := Sent();
    assert Move(before.pods, HANDED) == after.pods;
    s := InCluster(s, GuestMoves(HANDED), Living(Slot(MRunning)), before, map[3 := [MNew]], after);
  }

  lemma Moved() returns (s: State)
    ensures At(s, Living(Slot(MRunning)),
               World(map[1 := Pod(2, PodSucceeded, false, Exited), 4 := B.(hv := GuestRunning)], PLACES, 6), map[3 := [MNew]])
  {
    var before := World(map[1 := A.(hv := Exited), 4 := B.(hv := GuestRunning)], PLACES, 6);
    var after := World(map[1 := Pod(2, PodSucceeded, false, Exited), 4 := B.(hv := GuestRunning)], PLACES, 6);
    s := HandedOver();
    assert SetPhase(before, 1, PodSucceeded) == after.pods;
    s := InCluster(s, PodPhaseSet(1, PodSucceeded), Living(Slot(MRunning)), before, map[3 := [MNew]], after);
  }

  /** From a new VM, a run leads to a VM that runs in the target pod, the source hypervisor gone, and a
      migration object that reports Succeeded. */
  lemma MigrationCanSucceed() returns (s: State)
    ensures s.history != [] && Reaches(Init(Once), s)
    ensures 3 in s.vmms && MSucceeded in s.vmms[3]
    ensures Now(s).status == Status(Running, 4, 5, 200, NoAction, Slot(MSucceeded))
    ensures 4 in s.world.pods && s.world.pods[4].hv.GuestRunning? && 1 in s.world.pods && s.world.pods[1].hv.Exited?
  {
    var vmms := map[3 := [MNew]];
    var pods := map[1 := Pod(2, PodSucceeded, false, Exited), 4 := B.(hv := GuestRunning)];
    var w := World(pods, PLACES, 6);
    var there := Status(Running, 4, 5, 200, NoAction, Slot(MSucceeded));
    s := Moved();
    s := OnNode(s, 100, Living(Slot(MRunning)), w, vmms, Living(Slot(MSent)), pods, None);
    s := OnNode(s, 200, Living(Slot(MSent)), w, vmms, there, pods, None);
    s := Report(s, there, w, 3);
    assert s.vmms[3][1] == MSucceeded;
  }
}
