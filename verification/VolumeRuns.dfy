/** Whole runs of the controller and the daemon over the volume status of one VM. */
module VolumeRuns {
  import opened Options
  import opened Volumes
  import opened VolumeStatus
  import opened VolumePhases

  /** An accepted version of the status, and the disks of the guest when it was accepted. */
  datatype Version = Version(entries: seq<Entry>, disks: set<Id>)

  datatype State = State(history: seq<Version>, disks: set<Id>)

  /** How far a daemon pass gets: the calls that succeed in each part, and whether there is a guest
      to plug disks into. */
  datatype Reach = Reach(mounts: nat, guest: bool, adds: nat, removes: nat)

  /** A pass over version `read` of the status, or the VM starting over with a new guest. Only a pass
      over the newest version gets its update accepted. */
  datatype Step =
    | ControllerStep(read: nat, names: seq<Id>, pods: seq<VolumePod>, after: seq<Entry>)
    | DaemonStep(read: nat, spec: seq<Volume>, source: Id, listed: seq<Id>, reach: Reach)
    | RestartStep(booted: set<Id>)

  predicate Started(s: State) {
    s.history != []
  }

  function Newest(s: State): seq<Entry>
    requires Started(s)
  {
    s.history[|s.history| - 1].entries
  }

  /** reconcileHotplugVolumes, or the mount pass alone where there is no guest yet. */
  function DaemonPass(es: seq<Entry>, disks: set<Id>, spec: seq<Volume>, source: Id, listed: seq<Id>, reach: Reach): Pass {
    var m := Mounts(es, spec, source, reach.mounts);
    if !m.ok || !reach.guest then Pass(m.entries, disks, m.ok)
    else
      var a := Adds(m.entries, disks, disks, spec, reach.adds);
      if !a.ok then a else Pass(a.entries, Removes(a.disks, listed, Names(spec), reach.removes), true)
  }

  /** Volume names are distinct in every admitted spec, and the guest lists its own disks. */
  predicate Enabled(s: State, step: Step)
    requires Started(s)
  {
    match step
    case ControllerStep(read, names, pods, after) =>
      read < |s.history| && DistinctIds(names) && Updated(s.history[read].entries, names, pods, after)
    case DaemonStep(read, spec, source, listed, reach) =>
      read < |s.history| && IdSet(listed) == s.disks
    case RestartStep(booted) => true
  }

  function Write(s: State, read: nat, entries: seq<Entry>, disks: set<Id>): State {
    State(if read + 1 == |s.history| then s.history + [Version(entries, disks)] else s.history, disks)
  }

  function Next(s: State, step: Step): State
    requires Started(s) && Enabled(s, step)
  {
    match step
    case ControllerStep(read, names, pods, after) => Write(s, read, after, s.disks)
    case DaemonStep(read, spec, source, listed, reach) =>
      var p := DaemonPass(s.history[read].entries, s.disks, spec, source, listed, reach);
      Write(s, read, p.entries, p.disks)
    case RestartStep(booted) => State(s.history + [Version([], booted)], booted)
  }

  /** The moves of one volume from one accepted version to the next. One write of the daemon may hold
      both its mount pass and its add pass. */
  predicate VersionMoves(a: Option<Phase>, b: Option<Phase>, plugged: bool) {
    Moves(a, b, plugged) || (a == Some(AttachedToNode) && b == Some(Ready) && plugged)
  }

  ghost predicate Linked(a: Version, b: Version) {
    && Distinct(b.entries) && Hotplug(b.entries)
    && forall n :: VersionMoves(PhaseOf(a.entries, n), PhaseOf(b.entries, n), n in b.disks)
  }

  ghost predicate Inv(s: State) {
    && Started(s)
    && s.history[0].entries == []
    && forall k :: 0 < k < |s.history| ==> Linked(s.history[k - 1], s.history[k])
  }

  lemma VersionDistinct(s: State, k: nat)
    requires Inv(s) && k < |s.history|
    ensures Distinct(s.history[k].entries) && Hotplug(s.history[k].entries)
  {
    if k > 0 { assert Linked(s.history[k - 1], s.history[k]); }
  }

  /** Entry by entry: at most the steps of a mount pass and then of an add pass. */
  predicate PassMoved(a: seq<Entry>, b: seq<Entry>, disks: set<Id>) {
    && |a| == |b|
    && forall i :: 0 <= i < |a| ==>
         || b[i] == a[i]
         || (a[i].phase.AttachedToNode? && b[i] == a[i].(phase := MountedToPod))
         || ((a[i].phase.AttachedToNode? || a[i].phase.MountedToPod?) && b[i] == a[i].(phase := Ready) && a[i].name in disks)
  }

  lemma PassMovedIsLinked(a: seq<Entry>, b: seq<Entry>, before: set<Id>, disks: set<Id>)
    requires Distinct(a) && Hotplug(a) && PassMoved(a, b, disks)
    ensures Linked(Version(a, before), Version(b, disks))
  {
    forall n ensures VersionMoves(PhaseOf(a, n), PhaseOf(b, n), n in disks) {
      SameNamesSameFirst(a, b, n);
    }
  }

  /** What is made Ready is in the spec, so its disk is not unplugged in the same pass. */
  lemma AddedStaysPlugged(es: seq<Entry>, disks: set<Id>, spec: seq<Volume>, listed: seq<Id>, adds: nat, removes: nat)
    ensures var a := Adds(es, disks, disks, spec, adds);
            && AddMoved(es, a.entries, a.disks) && AddMoved(es, a.entries, Removes(a.disks, listed, Names(spec), removes))
  {
    var a := Adds(es, disks, disks, spec, adds);
    AddsMove(es, disks, disks, spec, adds);
    RemovesSpare(a.disks, listed, Names(spec), removes);
    forall i | 0 <= i < |es| && a.entries[i] != es[i] ensures es[i].name in Removes(a.disks, listed, Names(spec), removes) {
      assert es[i].name in Names(spec);
    }
  }

  lemma DaemonPassMoves(es: seq<Entry>, disks: set<Id>, spec: seq<Volume>, source: Id, listed: seq<Id>, reach: Reach)
    requires Distinct(es) && Hotplug(es)
    ensures var p := DaemonPass(es, disks, spec, source, listed, reach);
            Linked(Version(es, disks), Version(p.entries, p.disks))
  {
    var p := DaemonPass(es, disks, spec, source, listed, reach);
    var m := Mounts(es, spec, source, reach.mounts);
    MountsMove(es, spec, source, reach.mounts);
    AddedStaysPlugged(m.entries, disks, spec, listed, reach.adds, reach.removes);
    assert PassMoved(es, p.entries, p.disks);
    PassMovedIsLinked(es, p.entries, disks, p.disks);
  }

  lemma ControllerPassMoves(es: seq<Entry>, disks: set<Id>, names: seq<Id>, pods: seq<VolumePod>, after: seq<Entry>)
    requires Distinct(es) && DistinctIds(names) && Updated(es, names, pods, after)
    ensures Linked(Version(es, disks), Version(after, disks))
  {
    UpdateKeepsDistinct(es, names, pods, after);
    KeptNames(ByName(es), names, pods);
    forall i | 0 <= i < |after| ensures after[i].pod.Some? {
      if i < |names| {
        assert after[i] == after[..|names|][i];
      } else {
        assert after[i] == after[|names|..][i - |names|];
      }
    }
    forall n ensures Moves(PhaseOf(es, n), PhaseOf(after, n), n in disks) {
      UpdateMoves(es, names, pods, after, n, n in disks);
    }
  }

  lemma LinkedIgnoresDisks(a: Version, b: Version, disks: set<Id>)
    requires Linked(a.(disks := disks), b)
    ensures Linked(a, b)
  {
  }

  lemma NextKeepsInv(s: State, step: Step)
    requires Inv(s) && Enabled(s, step)
    ensures Inv(Next(s, step))
  {
    var last := s.history[|s.history| - 1];
    VersionDistinct(s, |s.history| - 1);
    match step {
      case ControllerStep(read, names, pods, after) =>
        if read + 1 == |s.history| {
          ControllerPassMoves(last.entries, s.disks, names, pods, after);
          LinkedIgnoresDisks(last, Version(after, s.disks), s.disks);
        }
      case DaemonStep(read, spec, source, listed, reach) =>
        if read + 1 == |s.history| {
          var p := DaemonPass(last.entries, s.disks, spec, source, listed, reach);
          DaemonPassMoves(last.entries, s.disks, spec, source, listed, reach);
          LinkedIgnoresDisks(last, Version(p.entries, p.disks), s.disks);
        }
      case RestartStep(booted) =>
    }
  }

  ghost predicate Possible(s: State, steps: seq<Step>)
    requires Started(s)
    decreases |steps|
  {
    steps == [] || (Enabled(s, steps[0]) && Possible(Next(s, steps[0]), steps[1..]))
  }

  ghost function Run(s: State, steps: seq<Step>): (r: State)
    requires Started(s) && Possible(s, steps)
    ensures Started(r)
    decreases |steps|
  {
    if steps == [] then s else Run(Next(s, steps[0]), steps[1..])
  }

  function Init(disks: set<Id>): State {
    State([Version([], disks)], disks)
  }

  /** Over every run: names stay distinct, and each volume moves only as the phases allow. */
  lemma {:induction false} RunKeepsInv(s: State, steps: seq<Step>)
    requires Inv(s) && Possible(s, steps)
    ensures Inv(Run(s, steps))
    decreases |steps|
  {
    if steps != [] {
      NextKeepsInv(s, steps[0]);
      RunKeepsInv(Next(s, steps[0]), steps[1..]);
    }
  }

  /* ---------- the way to Ready ---------- */

  ghost predicate Holds(h: seq<Version>, from: int, to: int, n: Id, phase: Phase)
    requires 0 <= from <= to <= |h|
  {
    forall k :: from <= k < to ==> PhaseOf(h[k].entries, n) == Some(phase)
  }

  lemma {:induction false} AttachedSince(s: State, n: Id, k: nat) returns (i: nat)
    requires Inv(s) && k < |s.history| && PhaseOf(s.history[k].entries, n) == Some(AttachedToNode)
    ensures 0 < i <= k && Holds(s.history, i, k + 1, n, AttachedToNode)
    ensures Fresh(PhaseOf(s.history[i - 1].entries, n))
    decreases k
  {
    assert Linked(s.history[k - 1], s.history[k]);
    if PhaseOf(s.history[k - 1].entries, n) == Some(AttachedToNode) {
      i := AttachedSince(s, n, k - 1);
    } else {
      i := k;
    }
  }

  lemma {:induction false} MountedSince(s: State, n: Id, k: nat) returns (i: nat, j: nat)
    requires Inv(s) && k < |s.history| && PhaseOf(s.history[k].entries, n) == Some(MountedToPod)
    ensures 0 < i < j <= k && Holds(s.history, i, j, n, AttachedToNode) && Holds(s.history, j, k + 1, n, MountedToPod)
    ensures Fresh(PhaseOf(s.history[i - 1].entries, n))
    decreases k
  {
    assert Linked(s.history[k - 1], s.history[k]);
    if PhaseOf(s.history[k - 1].entries, n) == Some(MountedToPod) {
      i, j := MountedSince(s, n, k - 1);
    } else {
      i := AttachedSince(s, n, k - 1);
      j := k;
    }
  }

  /** A volume that is Ready was attached at i, mounted by j at the latest in the very write that
      made it Ready at l, and its disk was in the guest when that write was accepted. */
  lemma {:induction false} ReadySince(s: State, n: Id, k: nat) returns (i: nat, j: nat, l: nat)
    requires Inv(s) && k < |s.history| && PhaseOf(s.history[k].entries, n) == Some(Ready)
    ensures 0 < i < j <= l <= k && Fresh(PhaseOf(s.history[i - 1].entries, n))
    ensures Holds(s.history, i, j, n, AttachedToNode) && Holds(s.history, j, l, n, MountedToPod)
    ensures Holds(s.history, l, k + 1, n, Ready) && n in s.history[l].disks
    decreases k
  {
    assert Linked(s.history[k - 1], s.history[k]);
    var before := PhaseOf(s.history[k - 1].entries, n);
    if before == Some(Ready) {
      i, j, l := ReadySince(s, n, k - 1);
    } else if before == Some(MountedToPod) {
      i, j := MountedSince(s, n, k - 1);
      l := k;
    } else {
      i := AttachedSince(s, n, k - 1);
      j, l := k, k;
    }
  }

  /** In every run from the start, for every accepted version. */
  lemma ReadyCameThroughMount(disks: set<Id>, steps: seq<Step>, n: Id, k: nat) returns (i: nat, j: nat, l: nat)
    requires Possible(Init(disks), steps) && k < |Run(Init(disks), steps).history|
    requires PhaseOf(Run(Init(disks), steps).history[k].entries, n) == Some(Ready)
    ensures var h := Run(Init(disks), steps).history;
            && 0 < i < j <= l <= k && Fresh(PhaseOf(h[i - 1].entries, n))
            && Holds(h, i, j, n, AttachedToNode) && Holds(h, j, l, n, MountedToPod)
            && Holds(h, l, k + 1, n, Ready) && n in h[l].disks
  {
    RunKeepsInv(Init(disks), steps);
    i, j, l := ReadySince(Run(Init(disks), steps), n, k);
  }

  /* ---------- Ready and the guest ---------- */

  /** Every volume that is Ready in the newest version is plugged into the guest. */
  ghost predicate ReadyPlugged(s: State)
    requires Started(s)
  {
    forall n :: PhaseOf(Newest(s), n) == Some(Ready) ==> n in s.disks
  }

  /** The daemon does not unplug what the newest version calls Ready: the pass either has no guest to
      unplug from, stops before that, or works on a spec that has every such volume. */
  ghost predicate Spares(s: State, step: Step)
    requires Started(s)
  {
    step.DaemonStep? ==> forall n :: PhaseOf(Newest(s), n) == Some(Ready) ==> n in Names(step.spec)
  }

  lemma SparingKeepsPlugged(s: State, step: Step)
    requires Inv(s) && Enabled(s, step) && ReadyPlugged(s) && Spares(s, step)
    ensures ReadyPlugged(Next(s, step))
  {
    var t := Next(s, step);
    NextKeepsInv(s, step);
    VersionDistinct(s, |s.history| - 1);
    if step.DaemonStep? {
      VersionDistinct(s, step.read);
      DaemonSpares(s.history[step.read].entries, s.disks, step.spec, step.source, step.listed, step.reach);
    }
    forall n | PhaseOf(Newest(t), n) == Some(Ready) ensures n in t.disks {
      if |t.history| > |s.history| {
        assert Linked(t.history[|t.history| - 2], t.history[|t.history| - 1]);
        assert t.history[|t.history| - 2] == s.history[|s.history| - 1];
      }
    }
  }

  /** Whatever version it works on, the daemon only unplugs what is not in its spec. */
  lemma DaemonSpares(es: seq<Entry>, disks: set<Id>, spec: seq<Volume>, source: Id, listed: seq<Id>, reach: Reach)
    ensures forall n :: n in disks && n in Names(spec) ==> n in DaemonPass(es, disks, spec, source, listed, reach).disks
  {
    var m := Mounts(es, spec, source, reach.mounts);
    MountsMove(es, spec, source, reach.mounts);
    if m.ok && reach.guest {
      AddsMove(m.entries, disks, disks, spec, reach.adds);
      RemovesSpare(Adds(m.entries, disks, disks, spec, reach.adds).disks, listed, Names(spec), reach.removes);
    }
  }

  ghost predicate AllSpare(s: State, steps: seq<Step>)
    requires Started(s) && Possible(s, steps)
    decreases |steps|
  {
    steps == [] || (Spares(s, steps[0]) && AllSpare(Next(s, steps[0]), steps[1..]))
  }

  /** In every run whose daemon passes spare the Ready volumes, Ready means plugged. */
  lemma {:induction false} ReadyMeansPlugged(s: State, steps: seq<Step>)
    requires Inv(s) && Possible(s, steps) && ReadyPlugged(s) && AllSpare(s, steps)
    ensures ReadyPlugged(Run(s, steps))
    decreases |steps|
  {
    if steps != [] {
      NextKeepsInv(s, steps[0]);
      SparingKeepsPlugged(s, steps[0]);
      ReadyMeansPlugged(Next(s, steps[0]), steps[1..]);
    }
  }

  /** A whole daemon pass on the newest version keeps Ready meaning plugged exactly if its spec has
      every volume that is Ready. */
  lemma WholePassKeepsPluggedIff(s: State, step: Step)
    requires Inv(s) && Enabled(s, step) && ReadyPlugged(s)
    requires step.DaemonStep? && step.read + 1 == |s.history| && step.reach.guest && step.reach.removes >= |step.listed|
    requires var m := Mounts(Newest(s), step.spec, step.source, step.reach.mounts);
             m.ok && Adds(m.entries, s.disks, s.disks, step.spec, step.reach.adds).ok
    ensures ReadyPlugged(Next(s, step)) <==> Spares(s, step)
  {
    if Spares(s, step) {
      SparingKeepsPlugged(s, step);
    } else {
      var n :| PhaseOf(Newest(s), n) == Some(Ready) && n !in Names(step.spec);
      var es := Newest(s);
      var m := Mounts(es, step.spec, step.source, step.reach.mounts);
      var a := Adds(m.entries, s.disks, s.disks, step.spec, step.reach.adds);
      MountsMove(es, step.spec, step.source, step.reach.mounts);
      AddsMove(m.entries, s.disks, s.disks, step.spec, step.reach.adds);
      RemovesSpare(a.disks, step.listed, Names(step.spec), step.reach.removes);
      SameNamesSameFirst(es, a.entries, n);
      assert n in IdSet(step.listed);
      assert PhaseOf(Newest(Next(s, step)), n) == Some(Ready) && n !in Next(s, step).disks;
    }
  }

  const DISK: Id := 5
  const SPEC: seq<Volume> := [Volume(DISK, true)]
  const ATTACHED: seq<Entry> := [Entry(DISK, AttachedToNode, Some(7))]
  const READY: seq<Entry> := [Entry(DISK, Ready, Some(7))]

  /** The volume pod as it was built for the volume, once it runs. */
  function Pods(injected: seq<PodVolume>): seq<VolumePod> {
    [Built(7, [DISK], injected).(running := true)]
  }

  /** A run from the start: the volume becomes Ready, is taken out of the spec, the daemon unplugs it,
      and it is put back before the controller looks. */
  function PutBack(injected: seq<PodVolume>): seq<Step> {
    [ControllerStep(0, [DISK], Pods(injected), ATTACHED),
     DaemonStep(1, SPEC, 0, [], Reach(1, true, 1, 0)),
     DaemonStep(2, [], 0, [DISK], Reach(0, true, 0, 1)),
     ControllerStep(3, [DISK], Pods(injected), READY),
     DaemonStep(4, SPEC, 0, [], Reach(1, true, 1, 1))]
  }

  lemma FoundHere(injected: seq<PodVolume>)
    ensures PodOf(Pods(injected), DISK) == Some(Pods(injected)[0])
  {
    var pod := Pods(injected)[0];
    assert pod.volumes[1] == PodVolume(DISK, true);
    assert Carries(pod, DISK);
  }

  lemma UpdatedHere(es: seq<Entry>, after: seq<Entry>, injected: seq<PodVolume>)
    requires (es == [] && after == ATTACHED) || es == after == READY
    ensures Updated(es, [DISK], Pods(injected), after)
  {
    var pods := Pods(injected);
    assert es != [] ==> es[..0] == [] && ByName(es) == map[DISK := READY[0]];
    assert ByName(es).Keys <= {DISK};
    FoundHere(injected);
    assert Refreshed(ByName(es), DISK, pods) == after[0];
    assert [DISK][1..] == [] && Kept(ByName(es) - {DISK}, [], pods) == [];
    assert after[..1] == after && after[1..] == [];
    assert ByName(es).Keys - IdSet([DISK]) == {};
  }

  lemma PlugsHere()
    ensures DaemonPass(ATTACHED, {}, SPEC, 0, [], Reach(1, true, 1, 0)) == Pass(READY, {DISK}, true)
  {
    var mounted := [Entry(DISK, MountedToPod, Some(7))];
    assert SPEC[1..] == [];
    assert First(ATTACHED, DISK) == 0 && Last(mounted, DISK) == 0;
    assert Mounted(ATTACHED, 0) == mounted && mounted[0 := mounted[0].(phase := Ready)] == READY;
    assert Mounts(mounted, [], 7, 0) == MountPass(mounted, [], true);
    assert Mounts(ATTACHED, SPEC, 0, 1).entries == mounted;
    assert Adds(READY, {DISK}, {}, [], 0).ok;
    assert Adds(mounted, {}, {}, SPEC, 1) == Pass(READY, {DISK}, true);
  }

  lemma UnplugsHere()
    ensures DaemonPass(READY, {DISK}, [], 0, [DISK], Reach(0, true, 0, 1)) == Pass(READY, {}, true)
  {
    assert Names([]) == {} && [DISK][1..] == [] && {DISK} - {DISK} == {};
    assert Removes({DISK}, [DISK], {}, 1) == Removes({}, [], {}, 0) == {};
  }

  lemma IgnoresHere()
    ensures DaemonPass(READY, {}, SPEC, 0, [], Reach(1, true, 1, 1)) == Pass(READY, {}, true)
  {
    assert SPEC[1..] == [] && First(READY, DISK) == 0 && Last(READY, DISK) == 0;
    assert Mounts(READY, [], 0, 1).ok && Adds(READY, {}, {}, [], 1).ok;
  }

  const VERSIONS: seq<Version> :=
    [Version([], {}), Version(ATTACHED, {}), Version(READY, {DISK}), Version(READY, {}), Version(READY, {}), Version(READY, {})]

  /** Where the run is after k steps. */
  function Reached(k: nat): State
    requires k < |VERSIONS|
  {
    State(VERSIONS[..k + 1], VERSIONS[k].disks)
  }

  lemma StepHere(k: nat, injected: seq<PodVolume>)
    requires k < 5
    ensures Enabled(Reached(k), PutBack(injected)[k]) && Next(Reached(k), PutBack(injected)[k]) == Reached(k + 1)
  {
    assert VERSIONS[..k + 1] + [VERSIONS[k + 1]] == VERSIONS[..k + 2];
    if k == 0 {
      UpdatedHere([], ATTACHED, injected);
    } else if k == 1 {
      PlugsHere();
    } else if k == 2 {
      UnplugsHere();
    } else if k == 3 {
      UpdatedHere(READY, READY, injected);
    } else {
      IgnoresHere();
    }
  }

  lemma {:induction false} RunsOn(k: nat, injected: seq<PodVolume>)
    requires k <= 5
    ensures Possible(Reached(k), PutBack(injected)[k..]) && Run(Reached(k), PutBack(injected)[k..]) == Reached(5)
    decreases 5 - k
  {
    if k < 5 {
      StepHere(k, injected);
      Tail(PutBack(injected), k);
      RunsOn(k + 1, injected);
    }
  }

  /** Ready and not plugged in, for good: the last pass had the volume in its spec and did nothing. */
  lemma ReadyButUnplugged(injected: seq<PodVolume>)
    ensures Possible(Init({}), PutBack(injected)) && BuiltPod(Pods(injected)[0]) && DISK != HOTPLUG
    ensures var s := Run(Init({}), PutBack(injected)); PhaseOf(Newest(s), DISK) == Some(Ready) && s.disks == {}
  {
    RunsOn(0, injected);
    assert Reached(0) == Init({}) && PutBack(injected)[0..] == PutBack(injected);
    assert First(READY, DISK) == 0;
  }
}
