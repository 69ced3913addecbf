/** The objects the virtink controllers share: one VirtualMachine, its pods, its migrations.
    Identifiers (pod names, UIDs, node names) are natural numbers; `UNSET` stands for the
    empty string. */
module Vm {
  import opened Options
  import opened Specs

  const UNSET: Id := 0

  /** `New` is the empty phase of a VM nobody has reconciled yet. */
  datatype Phase = New | Pending | Scheduling | Scheduled | Running | Succeeded | Failed | Unknown

  /** `MNew` is the empty phase of a migration slot that was just taken. */
  datatype MigrationPhase =
    | MNew | MPending | MScheduling | MScheduled | MTargetReady | MRunning | MSent | MSucceeded | MFailed

  datatype PowerAction = NoAction | PowerOn | PowerOff | Shutdown | Reset | Reboot | Pause | Resume

  /** The migration slot of a VM status (`status.migration`). */
  datatype Migration = Migration(
    uid: Id, phase: MigrationPhase, targetPod: Id, targetUid: Id, targetNode: Id)

  datatype Status = Status(
    phase: Phase, podName: Id, podUid: Id, nodeName: Id,
    powerAction: PowerAction, migration: Option<Migration>)

  /** A VirtualMachine object as one read returns it: status, run policy and deletion mark. */
  datatype VM = VM(status: Status, policy: RunPolicy, deleting: bool)

  /** A status that remembers nothing but its phase. */
  function Blank(phase: Phase): Status {
    Status(phase, UNSET, UNSET, UNSET, NoAction, None)
  }

  function FreshMigration(uid: Id): Migration {
    Migration(uid, MNew, UNSET, UNSET, UNSET)
  }

  predicate Terminal(p: MigrationPhase) {
    p.MSucceeded? || p.MFailed?
  }

  /** The pod names a status mentions. */
  function NamesOf(st: Status): set<Id> {
    {st.podName} + if st.migration.Some? then {st.migration.value.targetPod} else {}
  }

  /* ---------- pods and the hypervisor inside them ---------- */

  datatype PodPhase = PodPending | PodRunning | PodSucceeded | PodFailed | PodUnknown

  /** What the cloud-hypervisor process of a pod answers; `Exited` once the process is gone. */
  datatype Hypervisor = NotCreated | Created | GuestRunning | GuestPaused | GuestShutdown | Exited

  datatype Pod = Pod(uid: Id, phase: PodPhase, terminating: bool, hv: Hypervisor)

  /** Name and node of a pod, remembered under its UID even after the pod is gone. */
  datatype Origin = Origin(name: Id, node: Id)

  /** The part of the cluster reconcilers act on. `nextId` is above every identifier handed out. */
  datatype World = World(pods: map<Id, Pod>, registry: map<Id, Origin>, nextId: Id)

  /** A pod as a status names it. */
  datatype PodRef = PodRef(name: Id, uid: Id)

  function VmPod(st: Status): PodRef {
    PodRef(st.podName, st.podUid)
  }

  function TargetPod(m: Migration): PodRef {
    PodRef(m.targetPod, m.targetUid)
  }

  /** The pod with that very name and UID still exists. */
  predicate Exists(pods: map<Id, Pod>, r: PodRef) {
    r.name in pods && pods[r.name].uid == r.uid
  }

  /** ... and its hypervisor process is still there. */
  predicate Live(pods: map<Id, Pod>, r: PodRef) {
    Exists(pods, r) && !pods[r.name].hv.Exited?
  }

  /** A virtual machine has been created in this hypervisor. */
  predicate Holds(hv: Hypervisor) {
    hv.Created? || hv.GuestRunning? || hv.GuestPaused? || hv.GuestShutdown?
  }

  function NodeOf(w: World, r: PodRef): Id {
    if r.uid in w.registry then w.registry[r.uid].node else UNSET
  }

  function SetHypervisor(pods: map<Id, Pod>, name: Id, hv: Hypervisor): map<Id, Pod>
    requires name in pods
  {
    pods[name := pods[name].(hv := hv)]
  }

  /** The API server accepted a pod: it gets a fresh UID and no node yet. */
  function CreatePod(w: World, name: Id): World {
    World(w.pods[name := Pod(w.nextId, PodPending, false, NotCreated)],
          w.registry[w.nextId := Origin(name, UNSET)],
          w.nextId + 1)
  }

  /** Deletion was requested for the pods in `names`. */
  function MarkTerminating(w: World, names: set<Id>): World {
    w.(pods := map n | n in w.pods :: if n in names then w.pods[n].(terminating := true) else w.pods[n])
  }
}
