/** What every run of the protocol writes into the VM object: theorems over whole histories. */
module Histories {
  import opened Options
  import opened Specs
  import opened Vm
  import opened Reconcile
  import opened Protocol
  import opened Legality
  import opened Safety
  import opened Guests

  /** Histories of reachable states. */
  lemma ReachableObject(policy: RunPolicy, steps: seq<Step>)
    ensures ObjectInv(Run(Init(policy), steps))
  {
    RunKeepsGuests(Init(policy), steps);
  }

  /* ---------- live migration moves forward ---------- */

  predicate SlotKept(a: Status, b: Status) {
    a.migration.Some? && b.migration.Some? && a.migration.value.uid == b.migration.value.uid
  }

  /** The one actor that may take a migration out of its phase. */
  function Advancer(st: Status, m: Migration): Option<Actor> {
    match m.phase
    case MNew => Some(Controller)
    case MPending => Some(Controller)
    case MScheduling => Some(Controller)
    case MScheduled => Some(Daemon(m.targetNode))
    case MTargetReady => Some(Daemon(st.nodeName))
    case MRunning => Some(Daemon(st.nodeName))
    case MSent => Some(Daemon(m.targetNode))
    case MSucceeded => None
    case MFailed => None
  }

  predicate MayFail(p: MigrationPhase) {
    p.MScheduling? || p.MScheduled? || p.MRunning?
  }

  predicate Forward(a: VM, e: Entry) {
    a.status.phase.Running? && e.vm.status.phase.Running? && SlotKept(a.status, e.vm.status) ==>
      var m, m' := a.status.migration.value, e.vm.status.migration.value;
      m'.phase != m.phase ==>
        && Some(e.writer) == Advancer(a.status, m)
        && ((Stage(m'.phase) == Stage(m.phase) + 1 && !m'.phase.MFailed?) || (MayFail(m.phase) && m'.phase.MFailed?))
  }

  lemma LegalIsForward(a: VM, e: Entry)
    requires Legal(a, e.vm, e.writer)
    ensures Forward(a, e)
  {
  }

  /** Every accepted write advances the migration by one stage, or fails it where it may fail,
      and only the actor in charge of the phase does so. */
  lemma MigrationOnlyAdvances(policy: RunPolicy, steps: seq<Step>, i: nat)
    requires i + 1 < |Run(Init(policy), steps).history|
    ensures var h := Run(Init(policy), steps).history; Forward(h[i].vm, h[i + 1])
  {
    ReachableObject(policy, steps);
    var h := Run(Init(policy), steps).history;
    LegalIsForward(h[i].vm, h[i + 1]);
  }

  /** One migration holds the slot of a running VM from version i to version j. */
  predicate Holding(h: seq<Entry>, i: nat, j: nat, uid: Id) {
    forall k :: i <= k <= j < |h| ==>
      h[k].vm.status.phase.Running? && h[k].vm.status.migration.Some? && h[k].vm.status.migration.value.uid == uid
  }

  lemma {:induction false} ChainAdvances(h: seq<Entry>, i: nat, j: nat, uid: Id)
    requires Chain(h) && i <= j < |h| && Holding(h, i, j, uid)
    ensures var m, m' := h[i].vm.status.migration.value, h[j].vm.status.migration.value;
            && Stage(m.phase) <= Stage(m'.phase)
            && (Terminal(m.phase) ==> m'.phase == m.phase)
            && (m.phase.MSent? ==> !m'.phase.MFailed?)
    decreases j
  {
    if i < j {
      ChainAdvances(h, i, j - 1, uid);
      assert Legal(h[j - 1].vm, h[j - 1 + 1].vm, h[j - 1 + 1].writer);
      LegalIsForward(h[j - 1].vm, h[j]);
    }
  }

  /** While one migration holds the slot its stage never goes back, a finished migration stays
      as it ended, and a sent guest is never declared failed. */
  lemma MigrationNeverGoesBack(policy: RunPolicy, steps: seq<Step>, i: nat, j: nat, uid: Id)
    requires i <= j < |Run(Init(policy), steps).history| && Holding(Run(Init(policy), steps).history, i, j, uid)
    ensures var h := Run(Init(policy), steps).history;
            var m, m' := h[i].vm.status.migration.value, h[j].vm.status.migration.value;
            && Stage(m.phase) <= Stage(m'.phase)
            && (Terminal(m.phase) ==> m'.phase == m.phase)
            && (m.phase.MSent? ==> !m'.phase.MFailed?)
  {
    ReachableObject(policy, steps);
    ChainAdvances(Run(Init(policy), steps).history, i, j, uid);
  }

  /* ---------- a running VM is where its status says ---------- */

  /** Pod name, pod UID and node of every Running version belong to one and the same pod. */
  lemma RunningNamesOnePod(policy: RunPolicy, steps: seq<Step>, i: nat)
    requires i < |Run(Init(policy), steps).history|
    requires Run(Init(policy), steps).history[i].vm.status.phase.Running?
    ensures var s := Run(Init(policy), steps);
            var st := s.history[i].vm.status;
            && st.podUid in s.world.registry && st.nodeName != UNSET
            && s.world.registry[st.podUid] == Origin(st.podName, st.nodeName)
  {
    ReachableObject(policy, steps);
    assert StatusOk(Run(Init(policy), steps).history[i].vm.status, Run(Init(policy), steps).world);
  }

  predicate SamePlace(a: Status, b: Status) {
    a.podName == b.podName && a.podUid == b.podUid && a.nodeName == b.nodeName
  }

  /** The write with which the target daemon completes the migration `uid`. */
  predicate SwitchWrite(a: VM, e: Entry, uid: Id) {
    && a.status.phase.Running? && a.status.migration.Some?
    && var m := a.status.migration.value;
       m.uid == uid && m.phase.MSent? && e.writer == Daemon(m.targetNode) && e.vm.status == Switched(a.status, m)
  }

  /** While the VM runs, its place changes in the single write from Sent to Succeeded, and a VM in
      migration only reaches Succeeded because somebody deletes it. */
  predicate StaysInPlace(a: VM, e: Entry) {
    a.status.phase.Running? ==>
      && (e.vm.status.phase.Running? && !SamePlace(a.status, e.vm.status) ==>
            a.status.migration.Some? && SwitchWrite(a, e, a.status.migration.value.uid))
      && (e.vm.status.phase.Succeeded? && a.status.migration.Some? ==> a.deleting && e.writer == Daemon(a.status.nodeName))
  }

  lemma RunningStaysInPlace(policy: RunPolicy, steps: seq<Step>, i: nat)
    requires i + 1 < |Run(Init(policy), steps).history|
    ensures var h := Run(Init(policy), steps).history; StaysInPlace(h[i].vm, h[i + 1])
  {
    ReachableObject(policy, steps);
    var h := Run(Init(policy), steps).history;
    assert Legal(h[i].vm, h[i + 1].vm, h[i + 1].writer);
  }

  /** Version v of a Running VM has its slot taken, and the pod it names has succeeded. */
  predicate SourceCompleted(s: State, v: nat) {
    && v < |s.history|
    && var st := s.history[v].vm.status;
       && st.phase.Running? && st.migration.Some?
       && st.podName in s.world.pods && s.world.pods[st.podName].phase.PodSucceeded?
  }

  lemma CompletedPassStaysRunning(vm: VM, w: World, c: ControllerCalls)
    requires vm.status.phase.Running? && vm.status.migration.Some?
    requires vm.status.podName in w.pods && w.pods[vm.status.podName].phase.PodSucceeded?
    ensures var r := ControllerPass(vm, w, c); r.status.phase.Running? && r.status.migration.Some? && !r.remove
  {
  }

  /** Everybody but the cluster controller. */
  predicate OfOthers(step: Step) {
    !step.ControllerUpdates? && !step.ControllerRests?
  }

  /** The controller's update waits, whatever others do meanwhile. */
  lemma {:induction false} UpdateWaits(s: State, steps: seq<Step>)
    requires s.history != [] && s.controller.Updating? && forall i :: 0 <= i < |steps| ==> OfOthers(steps[i])
    ensures Run(s, steps).controller == s.controller
    decreases |steps|
  {
    if steps != [] {
      assert OfOthers(steps[0]);
      assert Next(s, steps[0]).controller == s.controller;
      UpdateWaits(Next(s, steps[0]), steps[1..]);
    }
  }

  /** In every run: the controller reads a version whose slot is taken when the named pod has already
      succeeded, others do anything, and then its update comes. It makes no version, or one that is
      Running with its slot, and it does not let the object go. */
  lemma SourceCompletionIsIgnored(policy: RunPolicy, steps: seq<Step>, v: nat, c: ControllerCalls, meanwhile: seq<Step>)
    requires SourceCompleted(Run(Init(policy), steps), v) && Run(Init(policy), steps).controller.Idle?
    requires forall i :: 0 <= i < |meanwhile| ==> OfOthers(meanwhile[i])
    ensures var s := Run(Next(Run(Init(policy), steps), ControllerReads(v, c)), meanwhile);
            var t := Next(s, ControllerUpdates);
            && t.gone == s.gone
            && (t.history == s.history ||
                (|t.history| == |s.history| + 1 && t.history[..|s.history|] == s.history &&
                 Now(t).status.phase.Running? && Now(t).status.migration.Some?))
  {
    var s := Run(Init(policy), steps);
    CompletedPassStaysRunning(s.history[v].vm, s.world, c);
    UpdateWaits(Next(s, ControllerReads(v, c)), meanwhile);
  }

  lemma {:induction false} ChainSkipsPending(h: seq<Entry>, i: nat)
    requires Chain(h) && i < |h| && h[0].vm.status == Blank(New)
    ensures h[i].vm.status.migration.Some? ==> !h[i].vm.status.migration.value.phase.MPending?
  {
    if i > 0 {
      ChainSkipsPending(h, i - 1);
      assert Legal(h[i - 1].vm, h[i - 1 + 1].vm, h[i - 1 + 1].writer);
    }
  }

  /** No version of any run has a migration in phase Pending. */
  lemma PendingIsNeverWritten(policy: RunPolicy, steps: seq<Step>, i: nat)
    requires i < |Run(Init(policy), steps).history|
    ensures var st := Run(Init(policy), steps).history[i].vm.status;
            st.migration.Some? ==> !st.migration.value.phase.MPending?
  {
    ReachableObject(policy, steps);
    ChainSkipsPending(Run(Init(policy), steps).history, i);
  }

  /** A migration phase is only ever set on a VM that has been running. */
  lemma MigrationImpliesRan(policy: RunPolicy, steps: seq<Step>, i: nat)
    requires i < |Run(Init(policy), steps).history|
    ensures var st := Run(Init(policy), steps).history[i].vm.status;
            st.migration.Some? && !st.migration.value.phase.MNew? ==>
              st.phase.Running? || st.phase.Succeeded? || st.phase.Failed? || st.phase.Unknown?
  {
    ReachableObject(policy, steps);
    assert StatusOk(Run(Init(policy), steps).history[i].vm.status, Run(Init(policy), steps).world);
  }

  /* ---------- how often a VM is started ---------- */

  datatype Event = Start | PowerOnRequest | Failure

  predicate Happens(e: Event, a: VM, b: VM) {
    match e
    case Start => b.status.phase.Pending? && !a.status.phase.Pending?
    case PowerOnRequest => b.status.powerAction.PowerOn? && !a.status.powerAction.PowerOn?
    case Failure => b.status.phase.Failed? && !a.status.phase.Failed?
  }

  function Count(h: seq<Entry>, e: Event): nat {
    if |h| < 2 then 0
    else Count(h[..|h| - 1], e) + if Happens(e, h[|h| - 2].vm, h[|h| - 1].vm) then 1 else 0
  }

  predicate FixedPolicy(h: seq<Entry>, p: RunPolicy) {
    forall i :: 0 <= i < |h| ==> h[i].vm.policy == p
  }

  function Flag(b: bool): nat {
    if b then 1 else 0
  }

  /** The bound each policy puts on starts, with the credit the newest status still holds. */
  predicate InBudget(p: RunPolicy, st: Status, starts: nat, requests: nat, failures: nat) {
    var pending := Flag(st.powerAction.PowerOn?);
    var begun := Flag(!st.phase.New?);
    match p
    case Always => true
    case Halted => st.phase.New? && starts == 0
    case Manual => starts + pending <= requests
    case Once => starts + pending <= requests + begun
    case RerunOnFailure => starts + pending + Flag(st.phase.Failed?) <= requests + failures + begun
  }

  predicate Budget(h: seq<Entry>, p: RunPolicy)
    requires h != []
  {
    InBudget(p, h[|h| - 1].vm.status, Count(h, Start), Count(h, PowerOnRequest), Count(h, Failure))
  }

  lemma StartIsJustified(a: VM, b: VM, writer: Actor)
    requires Legal(a, b, writer) && (a.status.phase.New? ==> a.status.nodeName == UNSET)
    ensures Happens(Start, a, b) ==> ShouldRun(a) && b.status.powerAction.NoAction?
    ensures b.status.phase.New? ==> a.status.phase.New?
    ensures a.status.phase.New? ==> b.status.phase.New? || Happens(Start, a, b)
  {
  }

  /** One version more keeps within the bound. */
  lemma BudgetStep(a: VM, b: VM, writer: Actor, starts: nat, requests: nat, failures: nat)
    requires Legal(a, b, writer) && (a.status.phase.New? ==> a.status.nodeName == UNSET) && b.policy == a.policy
    requires InBudget(a.policy, a.status, starts, requests, failures)
    ensures InBudget(a.policy, b.status, starts + Flag(Happens(Start, a, b)),
                     requests + Flag(Happens(PowerOnRequest, a, b)), failures + Flag(Happens(Failure, a, b)))
  {
    StartIsJustified(a, b, writer);
    if a.policy.RerunOnFailure? { FailureIsCounted(a, b, writer); }
  }

  /** A failed VM stays failed until it is started again, and a request outlives all but a start and the
      daemon's answer. */
  lemma FailureIsCounted(a: VM, b: VM, writer: Actor)
    requires Legal(a, b, writer)
    ensures b.status.phase.Failed? ==> a.status.phase.Failed? || Happens(Failure, a, b)
    ensures Happens(Start, a, b) ==> !b.status.phase.Failed?
  {
  }

  lemma {:induction false} BudgetHolds(h: seq<Entry>, p: RunPolicy)
    requires h != [] && Chain(h) && h[0].vm.status == Blank(New) && FixedPolicy(h, p)
    requires forall i :: 0 <= i < |h| && h[i].vm.status.phase.New? ==> h[i].vm.status.nodeName == UNSET
    ensures Budget(h, p)
    decreases |h|
  {
    if |h| >= 2 {
      var g := h[..|h| - 1];
      assert forall i :: 0 <= i < |g| ==> g[i] == h[i];
      BudgetHolds(g, p);
      var k := |h| - 2;
      assert Legal(h[k].vm, h[k + 1].vm, h[k + 1].writer);
      BudgetStep(h[k].vm, h[k + 1].vm, h[k + 1].writer, Count(g, Start), Count(g, PowerOnRequest), Count(g, Failure));
    }
  }

  lemma NewHasNoNode(s: State)
    requires ObjectInv(s)
    ensures forall i :: 0 <= i < |s.history| && s.history[i].vm.status.phase.New? ==>
              s.history[i].vm.status.nodeName == UNSET
  {
    forall i | 0 <= i < |s.history| && s.history[i].vm.status.phase.New?
      ensures s.history[i].vm.status.nodeName == UNSET
    {
      assert StatusOk(s.history[i].vm.status, s.world);
    }
  }

  lemma ObjectBudget(s: State, p: RunPolicy)
    requires ObjectInv(s) && FixedPolicy(s.history, p)
    ensures Budget(s.history, p)
  {
    NewHasNoNode(s);
    BudgetHolds(s.history, p);
  }

  lemma ReachableBudget(policy: RunPolicy, steps: seq<Step>)
    requires FixedPolicy(Run(Init(policy), steps).history, policy)
    ensures Budget(Run(Init(policy), steps).history, policy)
  {
    ReachableObject(policy, steps);
    ObjectBudget(Run(Init(policy), steps), policy);
  }

  /** Starts over a whole run under one policy: none when Halted, one per PowerOn request when
      Manual, one more than that for Once, and one more per failure for RerunOnFailure. */
  lemma StartsAreBounded(policy: RunPolicy, steps: seq<Step>)
    requires FixedPolicy(Run(Init(policy), steps).history, policy)
    ensures var h := Run(Init(policy), steps).history;
            && (policy.Halted? ==> Count(h, Start) == 0)
            && (policy.Manual? ==> Count(h, Start) <= Count(h, PowerOnRequest))
            && (policy.Once? ==> Count(h, Start) <= 1 + Count(h, PowerOnRequest))
            && (policy.RerunOnFailure? ==> Count(h, Start) <= 1 + Count(h, Failure) + Count(h, PowerOnRequest))
  {
    ReachableBudget(policy, steps);
  }

  lemma NewHoldsNoGuest(s: State)
    requires s.history != [] && GuestInv(s) && Now(s).status.phase.New?
    ensures forall n :: n in s.world.pods ==> !Holds(s.world.pods[n].hv)
  {
  }

  lemma HaltedStaysNew(steps: seq<Step>)
    requires FixedPolicy(Run(Init(Halted), steps).history, Halted)
    ensures Now(Run(Init(Halted), steps)).status.phase.New?
  {
    ReachableBudget(Halted, steps);
  }

  /** A VM that stays Halted never gets a guest. */
  lemma HaltedNeverRuns(steps: seq<Step>)
    requires FixedPolicy(Run(Init(Halted), steps).history, Halted)
    ensures var pods := Run(Init(Halted), steps).world.pods; forall n :: n in pods ==> !Holds(pods[n].hv)
  {
    RunKeepsGuests(Init(Halted), steps);
    HaltedStaysNew(steps);
    NewHoldsNoGuest(Run(Init(Halted), steps));
  }

  /* ---------- pod collection spares the pods in use ---------- */

  predicate CollectInv(s: State)
    requires s.history != []
  {
    s.controller.Collecting? ==> NamesOf(Now(s).status) <= s.controller.kept + {UNSET}
  }

  lemma OthersAddNoNames(a: VM, b: VM, writer: Actor)
    requires Legal(a, b, writer) && !writer.Controller?
    ensures NamesOf(b.status) <= NamesOf(a.status) + {UNSET}
  {
  }

  lemma AcceptKeepsCollect(s: State, w: Write, writer: Actor)
    requires ObjectInv(s) && CollectInv(s) && WriteOk(s, w, writer) && !writer.User? && !writer.Controller?
    ensures CollectInv(Accept(s, w, writer)) && Accept(s, w, writer).controller == s.controller
  {
    OthersAddNoNames(s.history[w.version].vm, s.history[w.version].vm.(status := w.status), writer);
  }

  lemma SameKeepsCollect(s: State, t: State)
    requires s.history != [] && CollectInv(s) && t.history != []
    requires Now(t).status.(powerAction := NoAction) == Now(s).status.(powerAction := NoAction)
    requires t.controller == s.controller || !t.controller.Collecting?
    ensures CollectInv(t)
  {
  }

  lemma ControllerUpdateKeepsCollect(s: State)
    requires s.history != [] && CollectInv(s)
    ensures CollectInv(ControllerUpdate(s))
  {
  }

  /** Steps other than the updates of the daemons and the migration controllers. */
  lemma OtherKeepsCollect(s: State, step: Step)
    requires s.history != [] && CollectInv(s)
    requires !step.ControllerUpdates? && !step.DaemonUpdates? && !step.MigratorUpdates?
    ensures CollectInv(Next(s, step))
  {
    SameKeepsCollect(s, Next(s, step));
  }

  lemma WorkersUpdateKeepsCollect(s: State, step: Step)
    requires ObjectInv(s) && CollectInv(s) && (step.DaemonUpdates? || step.MigratorUpdates?)
    ensures CollectInv(Next(s, step))
  {
    match step
    case DaemonUpdates(node) => if node in s.daemons { AcceptKeepsCollect(s, s.daemons[node], Daemon(node)); }
    case MigratorUpdates(uid) =>
      if uid in s.migrators && s.migrators[uid].UpdatingVM? {
        AcceptKeepsCollect(s, s.migrators[uid].write, Migrator(uid));
      }
  }

  lemma NextKeepsCollect(s: State, step: Step)
    requires ObjectInv(s) && CollectInv(s)
    ensures CollectInv(Next(s, step))
  {
    if step.ControllerUpdates? {
      ControllerUpdateKeepsCollect(s);
    } else if step.DaemonUpdates? || step.MigratorUpdates? {
      WorkersUpdateKeepsCollect(s, step);
    } else {
      OtherKeepsCollect(s, step);
    }
  }

  lemma {:induction false} RunKeepsCollect(s: State, steps: seq<Step>)
    requires ObjectInv(s) && CollectInv(s)
    ensures ObjectInv(Run(s, steps)) && CollectInv(Run(s, steps))
    decreases |steps|
  {
    if steps != [] {
      NextKeepsObject(s, steps[0]);
      NextKeepsCollect(s, steps[0]);
      RunKeepsCollect(Next(s, steps[0]), steps[1..]);
    }
  }

  /** A pod the collector may delete is one the VM status does not name at that moment, whatever
      was written since the controller's own update. */
  lemma CollectionSparesNamedPods(policy: RunPolicy, steps: seq<Step>, name: Id)
    requires Collectable(Run(Init(policy), steps), name)
    ensures name !in NamesOf(Now(Run(Init(policy), steps)).status)
  {
    RunKeepsCollect(Init(policy), steps);
    var s := Run(Init(policy), steps);
    assert s.world.registry[s.world.pods[name].uid].name == name;
  }
}
