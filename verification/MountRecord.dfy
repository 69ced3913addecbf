/** pkg/daemon/vm_controller.go: the daemon writes down every hotplug mount before it makes it, so
    that after an error or a crash at any point nothing mounted is forgotten. */
module MountRecord {
  import opened Options

  /** The mount point of a volume inside a VM pod. */
  datatype Target = Target(pod: Id, volume: Id)

  /** One line of the record file of a VM. */
  datatype Line = Line(volume: Id, target: Target)

  /** The record file and what is mounted on the node for the VM. */
  datatype Disk = Disk(record: seq<Line>, mounted: set<Target>)

  /** A change that survives a crash. */
  datatype Effect = WriteRecord(lines: seq<Line>) | Mount(target: Target) | Unmount(target: Target)

  function Perform(d: Disk, e: Effect): Disk {
    match e
    case WriteRecord(lines) => d.(record := lines)
    case Mount(t) => d.(mounted := d.mounted + {t})
    case Unmount(t) => d.(mounted := d.mounted - {t})
  }

  function PerformAll(d: Disk, es: seq<Effect>): Disk
    decreases |es|
  {
    if es == [] then d else PerformAll(Perform(d, es[0]), es[1..])
  }

  predicate Knows(lines: seq<Line>, volume: Id) {
    exists i :: 0 <= i < |lines| && lines[i].volume == volume
  }

  /* ---------- what each pass does, in order ---------- */

  /** addVolumeToVMMountRecord: the volume is looked up by name only. */
  function Noted(lines: seq<Line>, t: Target): seq<Line> {
    if Knows(lines, t.volume) then lines else lines + [Line(t.volume, t)]
  }

  /** The effects of mounting one volume: note it, then mount it. A file system that is already
      mounted is left alone; a block volume is noted all the same. */
  function MountOne(lines: seq<Line>, mounted: set<Target>, t: Target, block: bool): seq<Effect> {
    if !block && t in mounted then []
    else
      (if Knows(lines, t.volume) then [] else [WriteRecord(Noted(lines, t))]) +
      (if t in mounted then [] else [Mount(t)])
  }

  function MountEffects(d: Disk, pod: Id, volumes: seq<Id>, blocks: set<Id>): seq<Effect>
    decreases |volumes|
  {
    if volumes == [] then []
    else
      var es := MountOne(d.record, d.mounted, Target(pod, volumes[0]), volumes[0] in blocks);
      es + MountEffects(PerformAll(d, es), pod, volumes[1..], blocks)
  }

  function Unmounts(lines: seq<Line>, mounted: set<Target>, keep: set<Id>): seq<Effect>
    decreases |lines|
  {
    if lines == [] then []
    else
      var t := lines[0].target;
      if lines[0].volume !in keep && t in mounted then [Unmount(t)] + Unmounts(lines[1..], mounted - {t}, keep)
      else Unmounts(lines[1..], mounted, keep)
  }

  function KeptLines(lines: seq<Line>, keep: set<Id>): seq<Line>
    decreases |lines|
  {
    if lines == [] then []
    else (if lines[0].volume in keep then [lines[0]] else []) + KeptLines(lines[1..], keep)
  }

  /** Everything not kept is unmounted; only then the record is rewritten. */
  function UnmountEffects(d: Disk, keep: set<Id>): seq<Effect> {
    Unmounts(d.record, d.mounted, keep) + [WriteRecord(KeptLines(d.record, keep))]
  }

  /* ---------- the daemon ---------- */

  /** The daemon's view of its node; `fuel` effects succeed before a call fails or the daemon dies. */
  class Node {
    var record: seq<Line>
    var mounted: set<Target>
    var fuel: nat

    function State(): Disk
      reads this
    {
      Disk(record, mounted)
    }

    method Write(lines: seq<Line>) returns (ok: bool)
      modifies this
      ensures ok <==> old(fuel) > 0
      ensures ok ==> State() == Perform(old(State()), WriteRecord(lines)) && fuel == old(fuel) - 1
      ensures !ok ==> State() == old(State()) && fuel == old(fuel)
    {
      if fuel == 0 { return false; }
      fuel, record, ok := fuel - 1, lines, true;
    }

    method DoMount(t: Target) returns (ok: bool)
      modifies this
      ensures ok <==> old(fuel) > 0
      ensures ok ==> State() == Perform(old(State()), Mount(t)) && fuel == old(fuel) - 1
      ensures !ok ==> State() == old(State()) && fuel == old(fuel)
    {
      if fuel == 0 { return false; }
      fuel, mounted, ok := fuel - 1, mounted + {t}, true;
    }

    method DoUnmount(t: Target) returns (ok: bool)
      modifies this`mounted, this`fuel
      ensures ok <==> old(fuel) > 0
      ensures ok ==> State() == Perform(old(State()), Unmount(t)) && fuel == old(fuel) - 1
      ensures !ok ==> State() == old(State()) && fuel == old(fuel)
    {
      if fuel == 0 { return false; }
      fuel, mounted, ok := fuel - 1, mounted - {t}, true;
    }

    /** mountBlockVolume and mountFileSystemVolume. */
    method MountVolume(t: Target, block: bool) returns (ok: bool)
      modifies this
      ensures ok <==> |MountOne(old(record), old(mounted), t, block)| <= old(fuel)
      ensures State() == Truncated(old(State()), MountOne(old(record), old(mounted), t, block), old(fuel))
      ensures ok ==> fuel == old(fuel) - |MountOne(old(record), old(mounted), t, block)|
    {
      MountOneOutcome(State(), t, block, fuel);
      if !block && t in mounted {
        return true;
      }
      var known := false;
      for i := 0 to |record|
        invariant known <==> exists j :: 0 <= j < i && record[j].volume == t.volume
        invariant State() == old(State()) && fuel == old(fuel)
      {
        if record[i].volume == t.volume { known := true; }
      }
      var present := t in mounted;
      if !known {
        ok := Write(record + [Line(t.volume, t)]);
        if !ok { return; }
      }
      if !present {
        ok := DoMount(t);
        if !ok { return; }
      }
      ok := true;
    }

    /** mountHotplugVolumes, for the volumes that are due. */
    method MountAll(pod: Id, volumes: seq<Id>, blocks: set<Id>) returns (ok: bool)
      modifies this
      ensures ok <==> |MountEffects(old(State()), pod, volumes, blocks)| <= old(fuel)
      ensures State() == Truncated(old(State()), MountEffects(old(State()), pod, volumes, blocks), old(fuel))
    {
      ghost var d, f := State(), fuel;
      ghost var all := MountEffects(d, pod, volumes, blocks);
      for i := 0 to |volumes|
        invariant |MountEffects(State(), pod, volumes[i..], blocks)| <= fuel <==> |all| <= f
        invariant Truncated(State(), MountEffects(State(), pod, volumes[i..], blocks), fuel) == Truncated(d, all, f)
      {
        ghost var es := MountOne(record, mounted, Target(pod, volumes[i]), volumes[i] in blocks);
        ghost var rest := MountEffects(PerformAll(State(), es), pod, volumes[i + 1..], blocks);
        assert volumes[i..][1..] == volumes[i + 1..];
        TruncatedConcat(State(), es, rest, fuel);
        ok := MountVolume(Target(pod, volumes[i]), volumes[i] in blocks);
        if !ok { return; }
      }
      ok := true;
    }

    /** umountHotplugVolumes (`keep` are the volumes with a status entry) and, with nothing to keep,
        umountAllHotplugVolumes. */
    method UnmountExcept(keep: set<Id>) returns (ok: bool)
      modifies this
      ensures ok <==> |UnmountEffects(old(State()), keep)| <= old(fuel)
      ensures State() == Truncated(old(State()), UnmountEffects(old(State()), keep), old(fuel))
    {
      ghost var last := [WriteRecord(KeptLines(record, keep))];
      TruncatedConcat(State(), Unmounts(record, mounted, keep), last, fuel);
      var kept;
      ok, kept := UnmountLines(keep);
      if !ok { return; }
      assert last[..0] == [];
      PerformShort(State(), last[0], last[0]);
      ok := Write(kept);
    }

    method UnmountLines(keep: set<Id>) returns (ok: bool, kept: seq<Line>)
      modifies this`mounted, this`fuel
      ensures ok <==> |Unmounts(record, old(mounted), keep)| <= old(fuel)
      ensures ok ==> fuel == old(fuel) - |Unmounts(record, old(mounted), keep)| && kept == KeptLines(record, keep)
      ensures State() == Truncated(old(State()), Unmounts(record, old(mounted), keep), old(fuel))
    {
      ghost var d, f := State(), fuel;
      kept := [];
      assert record[0..] == record;
      for i := 0 to |record|
        invariant Leads(State(), record[i..], keep, fuel, d, f)
        invariant kept + KeptLines(record[i..], keep) == KeptLines(record, keep)
      {
        Tail(record, i);
        ok := UnmountLine(record[i..], keep, d, f);
        if !ok { return; }
        if record[i].volume in keep {
          Associates(kept, [record[i]], KeptLines(record[i + 1..], keep));
          kept := kept + [record[i]];
        } else {
          KeptSkips(record[i..], keep);
        }
      }
      UnmountsDone(State(), record[|record|..], keep, fuel, d, f);
      ok := true;
    }

    /** One turn of the loop: umountHotplugVolume, unless the volume is kept. */
    method UnmountLine(left: seq<Line>, keep: set<Id>, ghost d: Disk, ghost f: nat) returns (ok: bool)
      requires left != [] && Leads(State(), left, keep, fuel, d, f)
      modifies this`mounted, this`fuel
      ensures ok ==> Leads(State(), left[1..], keep, fuel, d, f)
      ensures !ok ==> State() == Truncated(d, Unmounts(d.record, d.mounted, keep), f) && f < |Unmounts(d.record, d.mounted, keep)|
    {
      UnmountLeads(State(), left, keep, fuel, d, f);
      if left[0].volume in keep || left[0].target !in mounted { return true; }
      ok := DoUnmount(left[0].target);
    }
  }

  lemma KeptSkips(lines: seq<Line>, keep: set<Id>)
    requires lines != [] && lines[0].volume !in keep
    ensures KeptLines(lines, keep) == KeptLines(lines[1..], keep)
  {
  }

  lemma UnmountsDone(now: Disk, left: seq<Line>, keep: set<Id>, fuel: nat, d: Disk, f: nat)
    requires left == [] && Leads(now, left, keep, fuel, d, f)
    ensures now == Truncated(d, Unmounts(d.record, d.mounted, keep), f)
    ensures fuel == f - |Unmounts(d.record, d.mounted, keep)|
  {
  }

  /** Unmounting the lines that are left, from here and with the calls that are left, comes to what
      unmounting all lines of d came to with f calls. */
  ghost predicate Leads(now: Disk, left: seq<Line>, keep: set<Id>, fuel: nat, d: Disk, f: nat) {
    && fuel - |Unmounts(left, now.mounted, keep)| == f - |Unmounts(d.record, d.mounted, keep)|
    && Truncated(now, Unmounts(left, now.mounted, keep), fuel) == Truncated(d, Unmounts(d.record, d.mounted, keep), f)
  }

  lemma UnmountLeads(now: Disk, left: seq<Line>, keep: set<Id>, fuel: nat, d: Disk, f: nat)
    requires left != [] && Leads(now, left, keep, fuel, d, f)
    ensures var t := left[0].target;
            if left[0].volume in keep || t !in now.mounted then Leads(now, left[1..], keep, fuel, d, f)
            else if fuel == 0 then now == Truncated(d, Unmounts(d.record, d.mounted, keep), f) && f < |Unmounts(d.record, d.mounted, keep)|
            else Leads(Perform(now, Unmount(t)), left[1..], keep, fuel - 1, d, f)
  {
    UnmountStep(now, left, keep, fuel);
  }

  lemma {:induction false} PerformConcat(d: Disk, a: seq<Effect>, b: seq<Effect>)
    ensures PerformAll(d, a + b) == PerformAll(PerformAll(d, a), b)
    decreases |a|
  {
    if a == [] {
      assert a + b == b;
    } else {
      assert (a + b)[1..] == a[1..] + b;
      PerformConcat(Perform(d, a[0]), a[1..], b);
    }
  }

  /** The state after the first `fuel` effects. */
  function Truncated(d: Disk, es: seq<Effect>, fuel: nat): Disk {
    PerformAll(d, if fuel < |es| then es[..fuel] else es)
  }

  lemma UnmountStep(d: Disk, lines: seq<Line>, keep: set<Id>, fuel: nat)
    requires lines != []
    ensures var t := lines[0].target;
            var es := Unmounts(lines, d.mounted, keep);
            if lines[0].volume in keep || t !in d.mounted then es == Unmounts(lines[1..], d.mounted, keep)
            else
              var after := Perform(d, Unmount(t));
              var rest := Unmounts(lines[1..], after.mounted, keep);
              && |es| == 1 + |rest|
              && Truncated(d, es, fuel) == if fuel == 0 then d else Truncated(after, rest, fuel - 1)
  {
    var t := lines[0].target;
    if lines[0].volume !in keep && t in d.mounted {
      TruncatedConcat(d, [Unmount(t)], Unmounts(lines[1..], d.mounted - {t}, keep), fuel);
      PerformShort(d, Unmount(t), Unmount(t));
      assert [Unmount(t)][..0] == [];
    }
  }

  lemma MountOneOutcome(d: Disk, t: Target, block: bool, fuel: nat)
    ensures Truncated(d, MountOne(d.record, d.mounted, t, block), fuel) ==
            if fuel == 0 || (!block && t in d.mounted) then d
            else if Knows(d.record, t.volume) then d.(mounted := d.mounted + {t})
            else if fuel == 1 then d.(record := Noted(d.record, t))
            else d.(record := Noted(d.record, t), mounted := d.mounted + {t})
  {
    var w, m := WriteRecord(Noted(d.record, t)), Mount(t);
    var es := MountOne(d.record, d.mounted, t, block);
    PerformShort(d, w, m);
    PerformShort(d, m, w);
    assert es == [] || es == [w] || es == [m] || es == [w, m];
    assert [w, m][..1] == [w];
    assert t in d.mounted ==> d.mounted + {t} == d.mounted;
    assert |es| > 0 ==> es[..0] == [];
  }

  lemma PerformShort(d: Disk, a: Effect, b: Effect)
    ensures PerformAll(d, [a]) == Perform(d, a)
    ensures PerformAll(d, [a, b]) == Perform(Perform(d, a), b)
  {
    assert [a, b][1..] == [b];
    assert PerformAll(Perform(d, a), [b]) == Perform(Perform(d, a), b);
  }

  lemma TruncatedConcat(d: Disk, a: seq<Effect>, b: seq<Effect>, fuel: nat)
    ensures fuel < |a| ==> Truncated(d, a + b, fuel) == Truncated(d, a, fuel)
    ensures fuel >= |a| ==> Truncated(d, a + b, fuel) == Truncated(PerformAll(d, a), b, fuel - |a|)
  {
    if fuel < |a| {
      assert (a + b)[..fuel] == a[..fuel];
    } else {
      var rest := if fuel < |a + b| then b[..fuel - |a|] else b;
      assert (if fuel < |a + b| then (a + b)[..fuel] else a + b) == a + rest;
      PerformConcat(d, a, rest);
    }
  }

  /* ---------- nothing mounted is forgotten ---------- */

  predicate Recorded(lines: seq<Line>, t: Target) {
    Line(t.volume, t) in lines
  }

  predicate EachOnce(lines: seq<Line>) {
    forall i, j :: 0 <= i < j < |lines| ==> lines[i].volume != lines[j].volume
  }

  /** Every mount is in the record, and the record holds each volume at most once. */
  predicate Safe(d: Disk) {
    EachOnce(d.record) && forall t :: t in d.mounted ==> Recorded(d.record, t)
  }

  /** Every line about the volume speaks of this very mount point. */
  predicate NoOtherMount(lines: seq<Line>, t: Target) {
    forall i :: 0 <= i < |lines| && lines[i].volume == t.volume ==> lines[i].target == t
  }

  predicate OnePod(lines: seq<Line>, pod: Id) {
    forall i :: 0 <= i < |lines| ==> lines[i].target == Target(pod, lines[i].volume)
  }

  lemma NotedIsSafe(d: Disk, t: Target)
    requires Safe(d)
    ensures Safe(d.(record := Noted(d.record, t)))
  {
    if !Knows(d.record, t.volume) {
      var lines := d.record + [Line(t.volume, t)];
      forall u | u in d.mounted ensures Recorded(lines, u) {
        assert Recorded(d.record, u);
      }
    }
  }

  lemma MountOneSafe(d: Disk, t: Target, block: bool, fuel: nat)
    requires Safe(d) && NoOtherMount(d.record, t)
    ensures Safe(Truncated(d, MountOne(d.record, d.mounted, t, block), fuel))
  {
    MountOneOutcome(d, t, block, fuel);
    NotedIsSafe(d, t);
    var noted := Noted(d.record, t);
    assert Recorded(noted, t) by {
      if Knows(d.record, t.volume) {
        var i :| 0 <= i < |d.record| && d.record[i].volume == t.volume;
        assert d.record[i] == Line(t.volume, t);
      } else {
        assert noted[|d.record|] == Line(t.volume, t);
      }
    }
  }

  /** A volume mounted for a second VM pod is covered exactly if the record does not already hold
      it for another mount point. */
  lemma MountOneSafeIff(d: Disk, t: Target, block: bool)
    requires Safe(d) && t !in d.mounted
    ensures Safe(PerformAll(d, MountOne(d.record, d.mounted, t, block))) <==> NoOtherMount(d.record, t)
  {
    var after := PerformAll(d, MountOne(d.record, d.mounted, t, block));
    MountOneOutcome(d, t, block, 2);
    if NoOtherMount(d.record, t) {
      MountOneSafe(d, t, block, 2);
    } else {
      var j :| 0 <= j < |d.record| && d.record[j].volume == t.volume && d.record[j].target != t;
      assert Knows(d.record, t.volume) && after.record == d.record && t in after.mounted;
      assert Recorded(d.record, t) ==> !EachOnce(d.record);
    }
  }

  /** Two VM pods of one VM on one node: the second mount is made but never written down. */
  lemma SecondPodIsForgotten()
    ensures var d := Disk([Line(1, Target(10, 1))], {Target(10, 1)});
            var after := PerformAll(d, MountOne(d.record, d.mounted, Target(20, 1), false));
            Safe(d) && Target(20, 1) in after.mounted && !Recorded(after.record, Target(20, 1))
  {
    var d := Disk([Line(1, Target(10, 1))], {Target(10, 1)});
    assert d.record[0].volume == 1;
    MountOneOutcome(d, Target(20, 1), false, 2);
  }

  lemma MountOneOnePod(d: Disk, pod: Id, volume: Id, block: bool, fuel: nat)
    requires OnePod(d.record, pod)
    ensures OnePod(Truncated(d, MountOne(d.record, d.mounted, Target(pod, volume), block), fuel).record, pod)
  {
    MountOneOutcome(d, Target(pod, volume), block, fuel);
  }

  lemma {:induction false} MountingIsSafe(d: Disk, pod: Id, volumes: seq<Id>, blocks: set<Id>, fuel: nat)
    requires Safe(d) && OnePod(d.record, pod)
    ensures var t := Truncated(d, MountEffects(d, pod, volumes, blocks), fuel); Safe(t) && OnePod(t.record, pod)
    decreases |volumes|
  {
    if volumes != [] {
      var t := Target(pod, volumes[0]);
      var es := MountOne(d.record, d.mounted, t, volumes[0] in blocks);
      var rest := MountEffects(PerformAll(d, es), pod, volumes[1..], blocks);
      MountOneSafe(d, t, volumes[0] in blocks, fuel);
      MountOneOnePod(d, pod, volumes[0], volumes[0] in blocks, fuel);
      TruncatedConcat(d, es, rest, fuel);
      if fuel >= |es| {
        MountingIsSafe(PerformAll(d, es), pod, volumes[1..], blocks, fuel - |es|);
      }
    } else if fuel == 0 {
      assert MountEffects(d, pod, volumes, blocks)[..0] == [];
    }
  }

  /** While volumes are unmounted the record stays as it is. */
  lemma {:induction false} UnmountsOnlyShrink(d: Disk, lines: seq<Line>, mounted: set<Target>, keep: set<Id>, fuel: nat)
    requires mounted == d.mounted
    ensures var t := Truncated(d, Unmounts(lines, mounted, keep), fuel);
            t.record == d.record && t.mounted <= d.mounted
    ensures var t := PerformAll(d, Unmounts(lines, mounted, keep));
            forall i :: 0 <= i < |lines| && lines[i].volume !in keep ==> lines[i].target !in t.mounted
    decreases |lines|
  {
    if lines != [] {
      var t := lines[0].target;
      if lines[0].volume !in keep && t in mounted {
        var e := [Unmount(t)];
        var rest := Unmounts(lines[1..], mounted - {t}, keep);
        assert e[1..] == [];
        assert PerformAll(d, e) == Perform(d, e[0]);
        TruncatedConcat(d, e, rest, fuel);
        PerformConcat(d, e, rest);
        UnmountsOnlyShrink(Perform(d, e[0]), lines[1..], mounted - {t}, keep, if fuel == 0 then 0 else fuel - 1);
        UnmountsOnlyShrink(Perform(d, e[0]), lines[1..], mounted - {t}, keep, |rest|);
      } else {
        UnmountsOnlyShrink(d, lines[1..], mounted, keep, fuel);
        UnmountsOnlyShrink(d, lines[1..], mounted, keep, |Unmounts(lines[1..], mounted, keep)|);
      }
    }
  }

  lemma {:induction false} KeptLinesKeep(lines: seq<Line>, keep: set<Id>)
    ensures forall l :: l in KeptLines(lines, keep) <==> l in lines && l.volume in keep
    ensures EachOnce(lines) ==> EachOnce(KeptLines(lines, keep))
    decreases |lines|
  {
    if lines != [] {
      KeptLinesKeep(lines[1..], keep);
      if EachOnce(lines) {
        assert EachOnce(lines[1..]);
        var kept := KeptLines(lines[1..], keep);
        assert forall j :: 0 <= j < |kept| ==> kept[j] in lines[1..];
      }
    }
  }

  lemma RewriteIsSafe(d: Disk, pod: Id, keep: set<Id>)
    requires Safe(d) && OnePod(d.record, pod)
    requires forall i :: 0 <= i < |d.record| && d.record[i].volume !in keep ==> d.record[i].target !in d.mounted
    ensures Safe(d.(record := KeptLines(d.record, keep))) && OnePod(KeptLines(d.record, keep), pod)
  {
    var kept := KeptLines(d.record, keep);
    KeptLinesKeep(d.record, keep);
    forall t | t in d.mounted ensures Recorded(kept, t) {
      assert Recorded(d.record, t);
    }
    assert forall i :: 0 <= i < |kept| ==> kept[i] in d.record;
  }

  lemma UnmountingIsSafe(d: Disk, pod: Id, keep: set<Id>, fuel: nat)
    requires Safe(d) && OnePod(d.record, pod)
    ensures var t := Truncated(d, UnmountEffects(d, keep), fuel); Safe(t) && OnePod(t.record, pod)
  {
    var es := Unmounts(d.record, d.mounted, keep);
    var last := [WriteRecord(KeptLines(d.record, keep))];
    TruncatedConcat(d, es, last, fuel);
    UnmountsOnlyShrink(d, d.record, d.mounted, keep, fuel);
    if fuel >= |es| {
      var mid := PerformAll(d, es);
      RewriteIsSafe(mid, pod, keep);
      assert fuel > |es| ==> PerformAll(mid, last) == mid.(record := KeptLines(d.record, keep));
    }
  }

  /* ---------- whole runs of the daemon ---------- */

  /** One reconcile pass and how far it got. */
  datatype Pass =
    | MountPass(volumes: seq<Id>, blocks: set<Id>, fuel: nat)
    | UnmountPass(keep: set<Id>, fuel: nat)

  function After(d: Disk, pod: Id, p: Pass): Disk {
    match p
    case MountPass(volumes, blocks, fuel) => Truncated(d, MountEffects(d, pod, volumes, blocks), fuel)
    case UnmountPass(keep, fuel) => Truncated(d, UnmountEffects(d, keep), fuel)
  }

  function AfterAll(d: Disk, pod: Id, ps: seq<Pass>): Disk
    decreases |ps|
  {
    if ps == [] then d else AfterAll(After(d, pod, ps[0]), pod, ps[1..])
  }

  /** For one VM pod: after any passes, each stopped between any two of its effects, every mounted
      volume is in the persisted record and the record holds each volume at most once. */
  lemma {:induction false} NothingMountedIsForgotten(d: Disk, pod: Id, ps: seq<Pass>)
    requires Safe(d) && OnePod(d.record, pod)
    ensures Safe(AfterAll(d, pod, ps)) && OnePod(AfterAll(d, pod, ps).record, pod)
    decreases |ps|
  {
    if ps != [] {
      match ps[0] {
        case MountPass(volumes, blocks, fuel) => MountingIsSafe(d, pod, volumes, blocks, fuel);
        case UnmountPass(keep, fuel) => UnmountingIsSafe(d, pod, keep, fuel);
      }
      NothingMountedIsForgotten(After(d, pod, ps[0]), pod, ps[1..]);
    }
  }

  /** A cleanup that gets through leaves nothing mounted and nothing recorded, whatever came before. */
  lemma CleanupIsComplete(d: Disk, pod: Id)
    requires Safe(d) && OnePod(d.record, pod)
    ensures PerformAll(d, UnmountEffects(d, {})) == Disk([], {})
  {
    var es := Unmounts(d.record, d.mounted, {});
    var kept := KeptLines(d.record, {});
    UnmountsOnlyShrink(d, d.record, d.mounted, {}, |es|);
    KeptLinesKeep(d.record, {});
    PerformConcat(d, es, [WriteRecord(kept)]);
    var mid := PerformAll(d, es);
    assert PerformAll(mid, [WriteRecord(kept)]) == mid.(record := kept);
    assert forall t :: t in mid.mounted ==> Recorded(d.record, t);
    assert mid.mounted == {};
    assert forall l :: l !in kept;
  }
}
