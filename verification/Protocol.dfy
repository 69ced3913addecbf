/** The distributed protocol: four kinds of actors read possibly old versions of one VM object,
    act on the cluster, and write the status back under optimistic concurrency, while users,
    the kubelet and the guests do as they please. */
module Protocol {
  import opened Options
  import opened Specs
  import opened Vm
  import opened Reconcile

  datatype Actor = User | Controller | Daemon(node: Id) | Migrator(uid: Id)

  /** One accepted version of the VM object and who wrote it. */
  datatype Entry = Entry(vm: VM, writer: Actor)

  /** A status update under way: it is accepted only while `version` is the newest. */
  datatype Write = Write(version: nat, status: Status)

  datatype ControllerWork = Idle | Updating(write: Write, err: bool, remove: bool) | Collecting(kept: set<Id>)

  datatype MigratorWork = UpdatingVM(write: Write) | UpdatingSelf(version: nat, phase: MigrationPhase)

  /** `history` holds every accepted version, so any index is a read some stale cache can return.
      `incarnation` is the pod name generated for the current start of the VM; `vmms` keeps the
      status phases every VirtualMachineMigration has had; `sends` are the migrations handed to a
      source hypervisor, whether or not anybody still waits for them. */
  datatype State = State(
    history: seq<Entry>, gone: bool, world: World, incarnation: Id,
    controller: ControllerWork, daemons: map<Id, Write>,
    vmms: map<Id, seq<MigrationPhase>>, migrators: map<Id, MigratorWork>, sends: set<Send>)

  datatype Step =
    | ControllerReads(version: nat, controllerCalls: ControllerCalls)
    | ControllerUpdates
    | ControllerCollects(name: Id)
    | ControllerRests
    | DaemonReads(node: Id, version: nat, daemonCalls: DaemonCalls)
    | DaemonUpdates(node: Id)
    | MigratorReads(uid: Id, own: nat, found: bool, version: nat)
    | MigratorUpdates(uid: Id)
    | UserPowers(action: PowerAction)
    | UserSetsPolicy(policy: RunPolicy)
    | UserDeletes
    | UserMigrates
    | PodBound(name: Id, node: Id)
    | PodPhaseSet(name: Id, podPhase: PodPhase)
    | PodRemoved(name: Id)
    | GuestStops(name: Id)
    | GuestMoves(send: Send)

  function Init(policy: RunPolicy): State {
    State([Entry(VM(Blank(New), policy, false), User)], false, World(map[], map[], 1), UNSET,
          Idle, map[], map[], map[], {})
  }

  predicate HasVersion(s: State, v: nat) {
    v < |s.history|
  }

  function Newest(s: State): (v: int) {
    |s.history| - 1
  }

  function Now(s: State): VM
    requires s.history != []
  {
    s.history[|s.history| - 1].vm
  }

  /** The API server's answer to a status update; an update that changes nothing makes no version. */
  function Accept(s: State, w: Write, writer: Actor): (t: State)
    requires s.history != []
  {
    if s.gone || w.version != Newest(s) || w.status == Now(s).status then s
    else s.(history := s.history + [Entry(Now(s).(status := w.status), writer)])
  }

  function Next(s: State, step: Step): (t: State)
    requires s.history != []
    ensures t.history != []
  {
    match step
    case ControllerReads(v, c) => ControllerStep(s, v, c)
    case ControllerUpdates => ControllerUpdate(s)
    case ControllerCollects(n) => Collect(s, n)
    case ControllerRests => s.(controller := Idle)
    case DaemonReads(node, v, c) => DaemonStep(s, node, v, c)
    case DaemonUpdates(node) => DaemonUpdate(s, node)
    case MigratorReads(uid, own, found, v) => MigratorStep(s, uid, own, found, v)
    case MigratorUpdates(uid) => MigratorUpdate(s, uid)
    case UserPowers(a) => Edit(s, Now(s).(status := Now(s).status.(powerAction := a)))
    case UserSetsPolicy(p) => Edit(s, Now(s).(policy := p))
    case UserDeletes => Edit(s, Now(s).(deleting := true))
    case UserMigrates =>
      s.(vmms := s.vmms[s.world.nextId := [MNew]], world := s.world.(nextId := s.world.nextId + 1))
    case _ => s.(world := WorldAfter(s.world, s.sends, step))
  }

  /* ---------- the actors ---------- */

  function ControllerStep(s: State, v: nat, c: ControllerCalls): State
    requires s.history != []
  {
    if !HasVersion(s, v) || !s.controller.Idle? then s
    else
      var r := ControllerPass(s.history[v].vm, s.world, c);
      s.(world := r.world, controller := Updating(Write(v, r.status), r.err, r.remove))
  }

  /** The update is always issued; only an accepted one without error leads to pod collection. */
  function ControllerUpdate(s: State): State
    requires s.history != []
  {
    match s.controller
    case Idle => s
    case Collecting(_) => s
    case Updating(w, err, remove) =>
      if s.gone || w.version != Newest(s) then s.(controller := Idle)
      else if remove then s.(gone := true, controller := Idle)
      else
        var t := Accept(s, w, Controller);
        t.(incarnation := if Now(s).status.phase.Pending? && w.status.phase.Scheduling? then w.status.podName
                          else s.incarnation,
           controller := if err then Idle else Collecting(NamesOf(w.status)))
  }

  predicate Collectable(s: State, name: Id) {
    s.controller.Collecting? && name in s.world.pods && !s.world.pods[name].terminating &&
    name !in s.controller.kept
  }

  function Collect(s: State, name: Id): State {
    if Collectable(s, name) then s.(world := MarkTerminating(s.world, {name})) else s
  }

  function DaemonStep(s: State, node: Id, v: nat, c: DaemonCalls): State
    requires s.history != []
  {
    if !HasVersion(s, v) then s
    else
      var r := DaemonPass(s.history[v].vm, node, s.world, c);
      s.(world := s.world.(pods := r.pods),
         sends := if r.send.Some? then s.sends + {r.send.value} else s.sends,
         daemons := s.daemons[node := Write(v, r.status)])
  }

  function DaemonUpdate(s: State, node: Id): State
    requires s.history != []
  {
    if node !in s.daemons then s
    else Accept(s, s.daemons[node], Daemon(node)).(daemons := s.daemons - {node})
  }

  function MigratorStep(s: State, uid: Id, own: nat, found: bool, v: nat): State
    requires s.history != []
  {
    if uid !in s.vmms || own >= |s.vmms[uid]| || !HasVersion(s, v) then s
    else
      match MigratorPass(uid, s.vmms[uid][own], if found then Some(s.history[v].vm) else None)
      case Nothing => s
      case WriteVM(st) => s.(migrators := s.migrators[uid := UpdatingVM(Write(v, st))])
      case WriteSelf(p) => s.(migrators := s.migrators[uid := UpdatingSelf(own, p)])
  }

  function MigratorUpdate(s: State, uid: Id): State
    requires s.history != []
  {
    if uid !in s.migrators then s
    else
      match s.migrators[uid]
      case UpdatingVM(w) => Accept(s, w, Migrator(uid)).(migrators := s.migrators - {uid})
      case UpdatingSelf(v, p) =>
        var t := s.(migrators := s.migrators - {uid});
        if uid in s.vmms && v == |s.vmms[uid]| - 1 then t.(vmms := s.vmms[uid := s.vmms[uid] + [p]]) else t
  }

  /* ---------- users, kubelet and guests ---------- */

  function Edit(s: State, vm: VM): State {
    if s.gone then s else s.(history := s.history + [Entry(vm, User)])
  }

  /** The kubelet, the scheduler and the guests: steps that only touch the world. */
  predicate WorldStep(step: Step) {
    step.PodBound? || step.PodPhaseSet? || step.PodRemoved? || step.GuestStops? || step.GuestMoves?
  }

  function WorldAfter(w: World, sends: set<Send>, step: Step): World
    requires WorldStep(step)
  {
    match step
    case PodBound(n, node) => Bind(w, n, node)
    case PodPhaseSet(n, p) => w.(pods := SetPhase(w, n, p))
    case PodRemoved(n) => w.(pods := w.pods - {n})
    case GuestStops(n) => w.(pods := StopGuest(w.pods, n))
    case GuestMoves(send) => if send in sends then w.(pods := Move(w.pods, send)) else w
  }

  /** The scheduler binds a pod once and for all. */
  function Bind(w: World, name: Id, node: Id): World {
    if name in w.pods && w.pods[name].uid in w.registry && w.registry[w.pods[name].uid].node == UNSET then
      var uid := w.pods[name].uid;
      w.(registry := w.registry[uid := Origin(w.registry[uid].name, node)])
    else w
  }

  /** A pod only runs once it is bound; when it succeeds or fails its processes have ended. */
  function SetPhase(w: World, name: Id, p: PodPhase): map<Id, Pod> {
    if name !in w.pods || (p.PodRunning? && NodeOf(w, PodRef(name, w.pods[name].uid)) == UNSET) then w.pods
    else
      var ended := p.PodSucceeded? || p.PodFailed?;
      var pod := w.pods[name];
      w.pods[name := pod.(phase := p, hv := if ended then Exited else pod.hv)]
  }

  function StopGuest(pods: map<Id, Pod>, name: Id): map<Id, Pod> {
    if name in pods && (pods[name].hv.GuestRunning? || pods[name].hv.GuestPaused?) then
      SetHypervisor(pods, name, GuestShutdown)
    else pods
  }

  /** The hypervisors hand a guest over in one step: the source process ends, the target has it. */
  function Move(pods: map<Id, Pod>, send: Send): map<Id, Pod> {
    if Exists(pods, send.source) && Exists(pods, send.target) && send.source.name != send.target.name &&
       (pods[send.source.name].hv.GuestRunning? || pods[send.source.name].hv.GuestPaused?) &&
       pods[send.target.name].hv.NotCreated?
    then SetHypervisor(SetHypervisor(pods, send.source.name, Exited), send.target.name, GuestRunning)
    else pods
  }

  /* ---------- runs ---------- */

  function Run(s: State, steps: seq<Step>): (t: State)
    requires s.history != []
    ensures t.history != []
    decreases |steps|
  {
    if steps == [] then s else Run(Next(s, steps[0]), steps[1..])
  }
}
