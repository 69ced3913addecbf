/** What a VirtualMachineMigration object may report, and who gives the slot back. */
module Migrations {
  import opened Options
  import opened Specs
  import opened Vm
  import opened Reconcile
  import opened Protocol
  import opened Legality
  import opened Safety
  import opened Guests
  import opened Histories

  /** The VM was moved to its target by the migration `uid`. */
  predicate SwitchedUnder(h: seq<Entry>, uid: Id) {
    exists i :: 0 <= i < |h| - 1 && SwitchWrite(h[i].vm, h[i + 1], uid)
  }

  predicate SlotSucceeded(st: Status, uid: Id) {
    st.migration.Some? && st.migration.value.uid == uid && st.migration.value.phase.MSucceeded?
  }

  lemma {:induction false} SucceededSlotWasSwitched(h: seq<Entry>, j: nat, uid: Id)
    requires Chain(h) && j < |h| && h[0].vm.status == Blank(New) && SlotSucceeded(h[j].vm.status, uid)
    ensures SwitchedUnder(h, uid)
    decreases j
  {
    if j > 0 {
      assert Legal(h[j - 1].vm, h[j - 1 + 1].vm, h[j - 1 + 1].writer);
      if SlotSucceeded(h[j - 1].vm.status, uid) {
        SucceededSlotWasSwitched(h, j - 1, uid);
      } else {
        assert SwitchWrite(h[j - 1].vm, h[j - 1 + 1], uid);
      }
    }
  }

  lemma SwitchedStays(h: seq<Entry>, e: Entry, uid: Id)
    requires SwitchedUnder(h, uid)
    ensures SwitchedUnder(h + [e], uid)
  {
    var i :| 0 <= i < |h| - 1 && SwitchWrite(h[i].vm, h[i + 1], uid);
    assert (h + [e])[i] == h[i] && (h + [e])[i + 1] == h[i + 1];
  }

  predicate SlotOf(st: Status, uid: Id) {
    st.migration.Some? && st.migration.value.uid == uid
  }

  predicate Over(vmms: map<Id, seq<MigrationPhase>>, uid: Id) {
    uid in vmms && vmms[uid] != [] && Terminal(vmms[uid][|vmms[uid]| - 1])
  }

  /** The version after `a` gives the slot up only through its finished owner or a blank restart. */
  predicate ReleasedProperly(a: Entry, b: Entry, vmms: map<Id, seq<MigrationPhase>>) {
    a.vm.status.migration.Some? ==>
      var uid := a.vm.status.migration.value.uid;
      || SlotOf(b.vm.status, uid)
      || (b.writer == Migrator(uid) && Over(vmms, uid))
      || (b.writer == Controller && b.vm.status == Blank(b.vm.status.phase))
  }

  predicate Reports(phases: seq<MigrationPhase>) {
    phases != [] && forall i :: 0 <= i < |phases| - 1 && Terminal(phases[i]) ==> phases[i + 1] == phases[i]
  }

  /** If this write of the migration controller gives the slot up, its migration has ended. */
  predicate MayRelease(a: Status, b: Status, uid: Id, vmms: map<Id, seq<MigrationPhase>>) {
    SlotOf(a, uid) && !SlotOf(b, uid) ==> Over(vmms, uid)
  }

  predicate MigrationsInv(s: State) {
    && (forall u :: u in s.vmms ==> u < s.world.nextId && Reports(s.vmms[u]))
    && (forall u :: u in s.vmms && MSucceeded in s.vmms[u] ==> SwitchedUnder(s.history, u))
    && (forall u :: u in s.migrators && s.migrators[u].UpdatingSelf? ==>
          && u in s.vmms && s.migrators[u].version < |s.vmms[u]|
          && !Terminal(s.vmms[u][s.migrators[u].version])
          && (s.migrators[u].phase.MSucceeded? ==> SwitchedUnder(s.history, u)))
    && (forall u :: u in s.migrators && s.migrators[u].UpdatingVM? ==>
          && s.migrators[u].write.version < |s.history|
          && MayRelease(s.history[s.migrators[u].write.version].vm.status, s.migrators[u].write.status, u, s.vmms))
    && Released(s.history, s.vmms)
  }

  predicate Released(h: seq<Entry>, vmms: map<Id, seq<MigrationPhase>>) {
    forall i :: 0 <= i < |h| - 1 ==> ReleasedProperly(h[i], h[i + 1], vmms)
  }

  lemma ReleasedStays(h: seq<Entry>, vmms: map<Id, seq<MigrationPhase>>, vmms': map<Id, seq<MigrationPhase>>)
    requires Released(h, vmms) && forall u :: Over(vmms, u) ==> Over(vmms', u)
    ensures Released(h, vmms')
  {
    forall i | 0 <= i < |h| - 1 ensures ReleasedProperly(h[i], h[i + 1], vmms') {
      assert ReleasedProperly(h[i], h[i + 1], vmms);
    }
  }

  lemma ReleasedAppend(h: seq<Entry>, e: Entry, vmms: map<Id, seq<MigrationPhase>>)
    requires h != [] && Released(h, vmms) && ReleasedProperly(h[|h| - 1], e, vmms)
    ensures Released(h + [e], vmms)
  {
    forall i | 0 <= i < |h| ensures ReleasedProperly((h + [e])[i], (h + [e])[i + 1], vmms) {
      assert i < |h| - 1 ==> ReleasedProperly(h[i], h[i + 1], vmms);
    }
  }

  /* ---------- preservation ---------- */

  /** A new version at the end of the history. */
  lemma AppendKeepsMigrations(s: State, t: State, e: Entry)
    requires ObjectInv(s) && MigrationsInv(s)
    requires t.history == s.history + [e] && t.vmms == s.vmms && t.world.nextId >= s.world.nextId
    requires forall u :: u in t.migrators ==> u in s.migrators && t.migrators[u] == s.migrators[u]
    requires ReleasedProperly(s.history[|s.history| - 1], e, s.vmms)
    ensures MigrationsInv(t)
  {
    forall u | SwitchedUnder(s.history, u) ensures SwitchedUnder(t.history, u) { SwitchedStays(s.history, e, u); }
    ReleasedAppend(s.history, e, s.vmms);
    forall u | u in t.migrators && t.migrators[u].UpdatingVM?
      ensures t.migrators[u].write.version < |t.history|
      ensures MayRelease(t.history[t.migrators[u].write.version].vm.status, t.migrators[u].write.status, u, t.vmms)
    {
      assert t.history[t.migrators[u].write.version] == s.history[t.migrators[u].write.version];
    }
  }

  /** Nothing the invariant looks at changes, or some work is dropped. */
  lemma QuietKeepsMigrations(s: State, t: State)
    requires MigrationsInv(s) && t.history == s.history && t.vmms == s.vmms && t.world.nextId >= s.world.nextId
    requires forall u :: u in t.migrators ==> u in s.migrators && t.migrators[u] == s.migrators[u]
    ensures MigrationsInv(t)
  {
  }

  /** Only the migration controller and a blank restart ever take a slot away. */
  lemma LegalReleases(a: Entry, b: Entry, vmms: map<Id, seq<MigrationPhase>>)
    requires Legal(a.vm, b.vm, b.writer)
    requires b.writer.Migrator? ==> MayRelease(a.vm.status, b.vm.status, b.writer.uid, vmms)
    ensures ReleasedProperly(a, b, vmms)
  {
  }

  lemma AcceptKeepsMigrations(s: State, w: Write, writer: Actor, t: State)
    requires ObjectInv(s) && MigrationsInv(s) && WriteOk(s, w, writer) && !writer.User?
    requires writer.Migrator? ==> MayRelease(s.history[w.version].vm.status, w.status, writer.uid, s.vmms)
    requires t.history == Accept(s, w, writer).history && t.vmms == s.vmms && t.world == s.world
    requires forall u :: u in t.migrators ==> u in s.migrators && t.migrators[u] == s.migrators[u]
    ensures MigrationsInv(t)
  {
    if t.history == s.history {
      QuietKeepsMigrations(s, t);
    } else {
      var e := t.history[|s.history|];
      LegalReleases(s.history[|s.history| - 1], e, s.vmms);
      AppendKeepsMigrations(s, t, e);
    }
  }

  lemma EditKeepsMigrations(s: State, vm: VM)
    requires ObjectInv(s) && MigrationsInv(s) && Legal(Now(s), vm, User)
    ensures MigrationsInv(Edit(s, vm))
  {
    if !s.gone {
      LegalReleases(s.history[|s.history| - 1], Entry(vm, User), s.vmms);
      AppendKeepsMigrations(s, Edit(s, vm), Entry(vm, User));
    }
  }

  lemma {:induction false} LastStaysTerminal(phases: seq<MigrationPhase>, i: nat)
    requires Reports(phases) && i < |phases| && Terminal(phases[i])
    ensures phases[|phases| - 1] == phases[i]
    decreases |phases| - i
  {
    if i + 1 < |phases| { LastStaysTerminal(phases, i + 1); }
  }

  lemma ReleaseBegins(s: State, uid: Id, w: Write)
    requires MigrationsInv(s) && w.version < |s.history|
    requires MayRelease(s.history[w.version].vm.status, w.status, uid, s.vmms)
    ensures MigrationsInv(s.(migrators := s.migrators[uid := UpdatingVM(w)]))
  {
  }

  lemma ReportBegins(s: State, uid: Id, own: nat, p: MigrationPhase)
    requires MigrationsInv(s) && uid in s.vmms && own < |s.vmms[uid]| && !Terminal(s.vmms[uid][own])
    requires p.MSucceeded? ==> SwitchedUnder(s.history, uid)
    ensures MigrationsInv(s.(migrators := s.migrators[uid := UpdatingSelf(own, p)]))
  {
  }

  /** What a pass may begin: an ended migration releases its own slot, a running one follows it. */
  lemma MigratorPassMeans(uid: Id, own: MigrationPhase, vm: Option<VM>)
    ensures var r := MigratorPass(uid, own, vm);
            && (r.WriteVM? ==> vm.Some? && (SlotOf(vm.value.status, uid) && !SlotOf(r.status, uid) ==> Terminal(own)))
            && (r.WriteSelf? ==> !Terminal(own) && (r.phase.MSucceeded? ==> vm.Some? && SlotSucceeded(vm.value.status, uid)))
  {
  }

  lemma ReleasingKeepsMigrations(s: State, uid: Id, own: nat, v: nat, st: Status)
    requires MigrationsInv(s) && uid in s.vmms && own < |s.vmms[uid]| && v < |s.history|
    requires SlotOf(s.history[v].vm.status, uid) && !SlotOf(st, uid) ==> Terminal(s.vmms[uid][own])
    ensures MigrationsInv(s.(migrators := s.migrators[uid := UpdatingVM(Write(v, st))]))
  {
    if Terminal(s.vmms[uid][own]) { LastStaysTerminal(s.vmms[uid], own); }
    ReleaseBegins(s, uid, Write(v, st));
  }

  lemma ReportingKeepsMigrations(s: State, uid: Id, own: nat, v: nat, found: bool, p: MigrationPhase)
    requires ObjectInv(s) && MigrationsInv(s) && uid in s.vmms && own < |s.vmms[uid]| && v < |s.history|
    requires !Terminal(s.vmms[uid][own]) && (p.MSucceeded? ==> found && SlotSucceeded(s.history[v].vm.status, uid))
    ensures MigrationsInv(s.(migrators := s.migrators[uid := UpdatingSelf(own, p)]))
  {
    if p.MSucceeded? { SucceededSlotWasSwitched(s.history, v, uid); }
    ReportBegins(s, uid, own, p);
  }

  lemma MigratorStepKeepsMigrations(s: State, uid: Id, own: nat, found: bool, v: nat)
    requires ObjectInv(s) && MigrationsInv(s)
    ensures MigrationsInv(MigratorStep(s, uid, own, found, v))
  {
    if uid in s.vmms && own < |s.vmms[uid]| && HasVersion(s, v) {
      var vm := if found then Some(s.history[v].vm) else None;
      MigratorPassMeans(uid, s.vmms[uid][own], vm);
      match MigratorPass(uid, s.vmms[uid][own], vm)
      case Nothing =>
      case WriteVM(st) => ReleasingKeepsMigrations(s, uid, own, v, st);
      case WriteSelf(p) => ReportingKeepsMigrations(s, uid, own, v, found, p);
    }
  }

  /** A migration that has ended accepts no further status. */
  lemma MigratorUpdateKeepsMigrations(s: State, uid: Id)
    requires ObjectInv(s) && MigrationsInv(s)
    ensures MigrationsInv(MigratorUpdate(s, uid))
  {
    if uid in s.migrators {
      match s.migrators[uid]
      case UpdatingVM(w) => AcceptKeepsMigrations(s, w, Migrator(uid), MigratorUpdate(s, uid));
      case UpdatingSelf(v, p) => SelfUpdateKeepsMigrations(s, uid, v, p);
    }
  }

  lemma SelfUpdateKeepsMigrations(s: State, uid: Id, v: nat, p: MigrationPhase)
    requires s.history != [] && MigrationsInv(s) && uid in s.migrators && s.migrators[uid] == UpdatingSelf(v, p)
    ensures MigrationsInv(MigratorUpdate(s, uid))
  {
    var u := s.(migrators := s.migrators - {uid});
    QuietKeepsMigrations(s, u);
    if v == |s.vmms[uid]| - 1 { ReportKeepsMigrations(u, uid, p); }
  }

  lemma ReportKeepsMigrations(s: State, uid: Id, p: MigrationPhase)
    requires MigrationsInv(s) && uid in s.vmms && !Terminal(s.vmms[uid][|s.vmms[uid]| - 1])
    requires uid !in s.migrators && (p.MSucceeded? ==> SwitchedUnder(s.history, uid))
    ensures MigrationsInv(s.(vmms := s.vmms[uid := s.vmms[uid] + [p]]))
  {
    var vmms := s.vmms[uid := s.vmms[uid] + [p]];
    ReleasedStays(s.history, s.vmms, vmms);
  }

  lemma NewMigrationKeepsMigrations(s: State, t: State, uid: Id)
    requires MigrationsInv(s) && uid == s.world.nextId && t.world.nextId == uid + 1
    requires t.history == s.history && t.migrators == s.migrators && t.vmms == s.vmms[uid := [MNew]]
    ensures MigrationsInv(t)
  {
    assert uid !in s.vmms;
    ReleasedStays(s.history, s.vmms, t.vmms);
  }

  lemma ControllerStepKeepsMigrations(s: State, v: nat, c: ControllerCalls)
    requires ObjectInv(s) && MigrationsInv(s)
    ensures MigrationsInv(ControllerStep(s, v, c))
  {
    if HasVersion(s, v) { ControllerPassLegal(s.history[v].vm, s.world, c); }
    QuietKeepsMigrations(s, ControllerStep(s, v, c));
  }

  lemma ControllerUpdateKeepsMigrations(s: State)
    requires ObjectInv(s) && MigrationsInv(s)
    ensures MigrationsInv(ControllerUpdate(s))
  {
    if s.controller.Updating? && !s.gone && s.controller.write.version == Newest(s) && !s.controller.remove {
      var t := Accept(s, s.controller.write, Controller);
      AcceptKeepsMigrations(s, s.controller.write, Controller, t);
      QuietKeepsMigrations(t, ControllerUpdate(s));
    } else {
      QuietKeepsMigrations(s, ControllerUpdate(s));
    }
  }

  lemma DaemonUpdateKeepsMigrations(s: State, node: Id)
    requires ObjectInv(s) && MigrationsInv(s)
    ensures MigrationsInv(DaemonUpdate(s, node))
  {
    if node in s.daemons { AcceptKeepsMigrations(s, s.daemons[node], Daemon(node), DaemonUpdate(s, node)); }
  }

  /** Steps that write neither the VM object nor a migration object. */
  predicate QuietStep(step: Step) {
    WorldStep(step) || step.ControllerCollects? || step.ControllerRests? || step.DaemonReads?
  }

  lemma QuietStepKeepsMigrations(s: State, step: Step)
    requires ObjectInv(s) && MigrationsInv(s) && QuietStep(step)
    ensures MigrationsInv(Next(s, step))
  {
    if WorldStep(step) {
      WorldStepLater(s, step);
      QuietKeepsMigrations(s, Next(s, step));
    } else {
      OwnWorkKeepsMigrations(s, step);
    }
  }

  lemma OwnWorkKeepsMigrations(s: State, step: Step)
    requires s.history != [] && MigrationsInv(s) && (step.ControllerCollects? || step.ControllerRests? || step.DaemonReads?)
    ensures MigrationsInv(Next(s, step))
  {
    match step
    case ControllerCollects(n) => QuietKeepsMigrations(s, Collect(s, n));
    case ControllerRests => QuietKeepsMigrations(s, s.(controller := Idle));
    case DaemonReads(node, v, c) => QuietKeepsMigrations(s, DaemonStep(s, node, v, c));
  }

  lemma UserKeepsMigrations(s: State, step: Step)
    requires ObjectInv(s) && MigrationsInv(s) && UserStep(step)
    ensures MigrationsInv(Next(s, step))
  {
    match step
    case UserPowers(a) => EditKeepsMigrations(s, Now(s).(status := Now(s).status.(powerAction := a)));
    case UserSetsPolicy(p) => EditKeepsMigrations(s, Now(s).(policy := p));
    case UserDeletes => EditKeepsMigrations(s, Now(s).(deleting := true));
    case UserMigrates => NewMigrationKeepsMigrations(s, Next(s, step), s.world.nextId);
  }

  lemma NextKeepsMigrations(s: State, step: Step)
    requires ObjectInv(s) && MigrationsInv(s)
    ensures MigrationsInv(Next(s, step))
  {
    if QuietStep(step) {
      QuietStepKeepsMigrations(s, step);
    } else if UserStep(step) {
      UserKeepsMigrations(s, step);
    } else {
      match step
      case ControllerReads(v, c) => ControllerStepKeepsMigrations(s, v, c);
      case ControllerUpdates => ControllerUpdateKeepsMigrations(s);
      case DaemonUpdates(node) => DaemonUpdateKeepsMigrations(s, node);
      case MigratorReads(uid, own, found, v) => MigratorStepKeepsMigrations(s, uid, own, found, v);
      case MigratorUpdates(uid) => MigratorUpdateKeepsMigrations(s, uid);
    }
  }

  lemma {:induction false} RunKeepsMigrations(s: State, steps: seq<Step>)
    requires ObjectInv(s) && MigrationsInv(s)
    ensures ObjectInv(Run(s, steps)) && MigrationsInv(Run(s, steps))
    decreases |steps|
  {
    if steps != [] {
      NextKeepsObject(s, steps[0]);
      NextKeepsMigrations(s, steps[0]);
      RunKeepsMigrations(Next(s, steps[0]), steps[1..]);
    }
  }

  /* ---------- the theorems ---------- */

  /** A migration object reports Succeeded only if the VM was switched to its target under its UID. */
  lemma SucceededMeansSwitched(policy: RunPolicy, steps: seq<Step>, uid: Id)
    requires uid in Run(Init(policy), steps).vmms && MSucceeded in Run(Init(policy), steps).vmms[uid]
    ensures SwitchedUnder(Run(Init(policy), steps).history, uid)
  {
    RunKeepsMigrations(Init(policy), steps);
  }

  lemma ReachableReports(policy: RunPolicy, steps: seq<Step>, uid: Id)
    requires uid in Run(Init(policy), steps).vmms
    ensures Reports(Run(Init(policy), steps).vmms[uid])
  {
    RunKeepsMigrations(Init(policy), steps);
  }

  lemma ReachableReleased(policy: RunPolicy, steps: seq<Step>)
    ensures Released(Run(Init(policy), steps).history, Run(Init(policy), steps).vmms)
  {
    RunKeepsMigrations(Init(policy), steps);
  }

  lemma EndedStays(phases: seq<MigrationPhase>, i: nat, j: nat)
    requires Reports(phases) && i <= j < |phases| && Terminal(phases[i])
    ensures phases[j] == phases[i]
  {
    LastStaysTerminal(phases[..j + 1], i);
  }

  /** Once a migration object has ended its phase never changes again. */
  lemma TerminalPhaseIsFinal(policy: RunPolicy, steps: seq<Step>, uid: Id, i: nat, j: nat)
    requires uid in Run(Init(policy), steps).vmms && i <= j < |Run(Init(policy), steps).vmms[uid]|
    requires Terminal(Run(Init(policy), steps).vmms[uid][i])
    ensures Run(Init(policy), steps).vmms[uid][j] == Run(Init(policy), steps).vmms[uid][i]
  {
    ReachableReports(policy, steps, uid);
    EndedStays(Run(Init(policy), steps).vmms[uid], i, j);
  }

  /** The slot is given up only by its owner, once that has ended, or by the blank status of a restart. */
  lemma SlotReleasedProperly(policy: RunPolicy, steps: seq<Step>, i: nat)
    requires i + 1 < |Run(Init(policy), steps).history|
    ensures var s := Run(Init(policy), steps); ReleasedProperly(s.history[i], s.history[i + 1], s.vmms)
  {
    ReachableReleased(policy, steps);
  }
}
