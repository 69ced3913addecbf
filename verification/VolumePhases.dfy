/** What the passes over the volume status keep, step by step and over whole runs. */
module VolumePhases {
  import opened Options
  import opened Volumes
  import opened VolumeStatus

  function PhaseOf(es: seq<Entry>, n: Id): Option<Phase> {
    var k := First(es, n); if k < 0 then None else Some(es[k].phase)
  }

  predicate Fresh(p: Option<Phase>) {
    p.None? || p.value.NoPhase? || p.value.Pending?
  }

  /** The moves of one volume in one pass; `plugged` tells that its disk is in the guest afterwards. */
  predicate Moves(a: Option<Phase>, b: Option<Phase>, plugged: bool) {
    || b == a
    || b.None?
    || b.value.Pending?
    || b.value.Detaching?
    || (b.value.AttachedToNode? && Fresh(a))
    || (b.value.MountedToPod? && a == Some(AttachedToNode))
    || (b.value.Ready? && a == Some(MountedToPod) && plugged)
  }

  /* ---------- the controller's pass ---------- */

  lemma {:induction false} ByNameIs(es: seq<Entry>, n: Id)
    requires Distinct(es)
    ensures n in ByName(es) <==> First(es, n) >= 0
    ensures n in ByName(es) ==> ByName(es)[n] == es[First(es, n)]
  {
    if es != [] {
      var init := es[..|es| - 1];
      ByNameIs(init, n);
      assert es == init + [es[|es| - 1]];
      assert First(init, n) >= 0 ==> First(es, n) == First(init, n);
    }
  }

  lemma {:induction false} KeptAt(m: map<Id, Entry>, names: seq<Id>, pods: seq<VolumePod>, i: nat)
    requires DistinctIds(names) && i < |names|
    ensures |Kept(m, names, pods)| == |names| && Kept(m, names, pods)[i] == Refreshed(m, names[i], pods)
    decreases |names|
  {
    KeptNames(m, names, pods);
    if i > 0 {
      KeptAt(m - {names[0]}, names[1..], pods, i - 1);
    }
  }

  /** Names stay distinct, and an entry that is not for a volume of the spec is Detaching and its
      volume is still in a volume pod. */
  lemma UpdateKeepsDistinct(es: seq<Entry>, names: seq<Id>, pods: seq<VolumePod>, after: seq<Entry>)
    requires DistinctIds(names) && Updated(es, names, pods, after)
    ensures Distinct(after)
    ensures forall i :: 0 <= i < |after| && after[i].name !in names ==>
                         after[i].phase.Detaching? && exists p :: p in pods && Carries(p, after[i].name)
  {
    var m := ByName(es);
    KeptNames(m, names, pods);
    var rest := after[|names|..];
    assert forall i :: 0 <= i < |names| ==> after[i] == after[..|names|][i] && after[i].name == names[i];
    forall i | |names| <= i < |after|
      ensures after[i] == rest[i - |names|] && after[i].name !in names
      ensures after[i].phase.Detaching? && exists p :: p in pods && Carries(p, after[i].name)
    {
      assert after[i] == rest[i - |names|];
      LastPodHasVolume(None, pods, after[i].name);
    }
  }

  lemma {:induction false} LastPodHasVolume(found: Option<VolumePod>, pods: seq<VolumePod>, n: Id)
    ensures var r := LastPodOf(found, pods, n); r != found ==> r.Some? && r.value in pods && Carries(r.value, n)
    decreases |pods|
  {
    if pods != [] {
      var p := pods[0];
      var here := if found.None? then Carries(p, n) else Heads(p, n);
      LastPodHasVolume(if here then Some(p) else found, pods[1..], n);
    }
  }

  /* ---------- which pod the lookups end with ---------- */

  predicate DistinctPods(pods: seq<VolumePod>) {
    forall i, j :: 0 <= i < j < |pods| ==> pods[i].uid != pods[j].uid
  }

  /** The first pod that has the volume, or the number of pods. */
  function Holder(pods: seq<VolumePod>, n: Id): (k: nat)
    ensures k <= |pods|
    ensures k < |pods| ==> Carries(pods[k], n)
    ensures forall i :: 0 <= i < k ==> !Carries(pods[i], n)
  {
    if pods == [] || Carries(pods[0], n) then 0 else 1 + Holder(pods[1..], n)
  }

  lemma {:induction false} PodOfIsHolder(pods: seq<VolumePod>, n: Id)
    ensures PodOf(pods, n) == if Holder(pods, n) < |pods| then Some(pods[Holder(pods, n)]) else None
  {
    if pods != [] && !Carries(pods[0], n) { PodOfIsHolder(pods[1..], n); }
  }

  /** Once a pod is found, it stays unless a later pod is headed by the volume; then the last such
      pod is taken. */
  lemma {:induction false} FoundStaysIff(p: VolumePod, pods: seq<VolumePod>, n: Id)
    requires forall i :: 0 <= i < |pods| ==> pods[i].uid != p.uid
    ensures LastPodOf(Some(p), pods, n) == Some(p) <==> forall i :: 0 <= i < |pods| ==> !Heads(pods[i], n)
    decreases |pods|
  {
    if pods != [] {
      if Heads(pods[0], n) {
        LastPodHasVolume(Some(pods[0]), pods[1..], n);
      } else {
        FoundStaysIff(p, pods[1..], n);
        assert forall i :: 1 <= i < |pods| ==> pods[i] == pods[1..][i - 1];
      }
    }
  }

  lemma {:induction false} LastPodFromHolder(pods: seq<VolumePod>, n: Id)
    ensures var k := Holder(pods, n);
            LastPodOf(None, pods, n) == if k < |pods| then LastPodOf(Some(pods[k]), pods[k + 1..], n) else None
    decreases |pods|
  {
    if pods != [] && !Carries(pods[0], n) {
      LastPodFromHolder(pods[1..], n);
      var k := Holder(pods[1..], n);
      if k < |pods[1..]| { assert pods[1..][k + 1..] == pods[k + 2..]; }
    }
  }

  lemma {:induction false} FoundIsNeverNone(p: VolumePod, pods: seq<VolumePod>, n: Id)
    ensures LastPodOf(Some(p), pods, n).Some?
    decreases |pods|
  {
    if pods != [] { FoundIsNeverNone(if Heads(pods[0], n) then pods[0] else p, pods[1..], n); }
  }

  /** The lookup for a volume gone from the spec finds nothing exactly if no pod has the volume. */
  lemma NoPodIff(pods: seq<VolumePod>, n: Id)
    ensures LastPodOf(None, pods, n).None? <==> forall i :: 0 <= i < |pods| ==> !Carries(pods[i], n)
  {
    LastPodFromHolder(pods, n);
    var k := Holder(pods, n);
    if k < |pods| { FoundIsNeverNone(pods[k], pods[k + 1..], n); }
  }

  /** It ends with the pod the other lookup ends with exactly if no pod after that one is headed by
      the volume. */
  lemma LookupsAgreeIff(pods: seq<VolumePod>, n: Id)
    requires DistinctPods(pods)
    ensures LastPodOf(None, pods, n) == PodOf(pods, n) <==>
            forall i :: Holder(pods, n) < i < |pods| ==> !Heads(pods[i], n)
  {
    LastPodFromHolder(pods, n);
    PodOfIsHolder(pods, n);
    var k := Holder(pods, n);
    if k < |pods| {
      var later := pods[k + 1..];
      assert forall i :: 0 <= i < |later| ==> later[i] == pods[k + 1 + i];
      assert forall i :: k < i < |pods| ==> pods[i] == later[i - k - 1];
      FoundStaysIff(pods[k], later, n);
    }
  }

  /** A pod as it is built: the directory first, then the claims. */
  predicate BuiltPod(p: VolumePod) {
    Heads(p, HOTPLUG)
  }

  lemma BuiltIsBuilt(uid: Id, wanted: seq<Id>, injected: seq<PodVolume>)
    ensures BuiltPod(Built(uid, wanted, injected))
  {
  }

  /** For pods that were built the lookups agree on every volume that does not bear the name of the
      directory. */
  lemma BuiltLookupsAgree(pods: seq<VolumePod>, n: Id)
    requires DistinctPods(pods) && (forall i :: 0 <= i < |pods| ==> BuiltPod(pods[i])) && n != HOTPLUG
    ensures LastPodOf(None, pods, n) == PodOf(pods, n)
  {
    assert forall i :: 0 <= i < |pods| ==> BuiltPod(pods[i]);
    LookupsAgreeIff(pods, n);
  }

  /** For a volume of that name and built pods they agree exactly if there is at most one pod. */
  lemma DirectoryNameAgreesIff(pods: seq<VolumePod>)
    requires DistinctPods(pods) && forall i :: 0 <= i < |pods| ==> BuiltPod(pods[i])
    ensures LastPodOf(None, pods, HOTPLUG) == PodOf(pods, HOTPLUG) <==> |pods| <= 1
  {
    LookupsAgreeIff(pods, HOTPLUG);
    if |pods| > 0 { assert BuiltPod(pods[0]); }
    if |pods| > 1 { assert BuiltPod(pods[1]); }
  }

  /** Two built pods: the newer one is what a volume of that name is looked up as while it is in the
      spec, the older one once it is gone. */
  lemma DirectoryNameMisleads(newer: VolumePod, older: VolumePod, injected: seq<PodVolume>)
    requires newer == Built(20, [5, 6], injected) && older == Built(10, [5], injected)
    ensures PodOf([newer, older], HOTPLUG) == Some(newer)
    ensures LastPodOf(None, [newer, older], HOTPLUG) == Some(older)
  {
    var pods := [newer, older];
    assert pods[1..] == [older] && [older][1..] == [];
    BuiltIsBuilt(20, [5, 6], injected);
    BuiltIsBuilt(10, [5], injected);
    assert Carries(newer, HOTPLUG);
    assert LastPodOf(Some(older), [], HOTPLUG) == Some(older);
  }

  lemma UpdateMoves(es: seq<Entry>, names: seq<Id>, pods: seq<VolumePod>, after: seq<Entry>, n: Id, plugged: bool)
    requires Distinct(es) && DistinctIds(names) && Updated(es, names, pods, after)
    ensures Moves(PhaseOf(es, n), PhaseOf(after, n), plugged)
    ensures n in names ==> First(after, n) >= 0 && after[First(after, n)] == Refreshed(ByName(es), n, pods)
    ensures PhaseOf(after, n) == Some(AttachedToNode) && PhaseOf(es, n) != Some(AttachedToNode) ==>
              PodOf(pods, n).Some? && PodOf(pods, n).value.running
  {
    var k := First(after, n);
    UpdateKeepsDistinct(es, names, pods, after);
    ByNameIs(es, n);
    if n in names {
      var i :| 0 <= i < |names| && names[i] == n;
      KeptAt(ByName(es), names, pods, i);
      assert after[..|names|][i] == after[i] && after[i].name == n;
      assert k == i;
    } else if k >= 0 {
      assert after[k].name !in names;
    }
  }

  /* ---------- the daemon's passes ---------- */

  /** Only Attached entries moved, and only to Mounted. */
  predicate MountMoved(a: seq<Entry>, b: seq<Entry>) {
    && |a| == |b|
    && forall i :: 0 <= i < |a| ==>
         b[i] == a[i] || (a[i].phase.AttachedToNode? && b[i] == a[i].(phase := MountedToPod))
  }

  predicate AddMoved(a: seq<Entry>, b: seq<Entry>, disks: set<Id>) {
    && |a| == |b|
    && forall i :: 0 <= i < |a| ==>
         b[i] == a[i] || (a[i].phase.MountedToPod? && b[i] == a[i].(phase := Ready) && a[i].name in disks)
  }

  function HotNames(spec: seq<Volume>): set<Id> {
    set i | 0 <= i < |spec| && spec[i].hotpluggable :: spec[i].name
  }

  lemma HotNamesStep(spec: seq<Volume>)
    requires spec != []
    ensures HotNames(spec) == (if spec[0].hotpluggable then {spec[0].name} else {}) + HotNames(spec[1..])
  {
    assert forall i :: 1 <= i < |spec| ==> spec[i] == spec[1..][i - 1];
  }

  /** The volume takes part in mounting. */
  predicate Mountable(es: seq<Entry>, v: Volume) {
    v.hotpluggable && First(es, v.name) >= 0 && es[First(es, v.name)].pod.Some?
  }

  lemma {:induction false} MountsMove(es: seq<Entry>, spec: seq<Volume>, source: Id, fuel: nat)
    ensures MountMoved(es, Mounts(es, spec, source, fuel).entries)
    decreases |spec|
  {
    if spec != [] {
      var k := First(es, spec[0].name);
      if !Mountable(es, spec[0]) || (source == 0 && !es[k].phase.AttachedToNode?) {
        MountsMove(es, spec[1..], source, fuel);
      } else if fuel > 0 {
        MountsMove(Mounted(es, k), spec[1..], SourceFor(es[k], source), fuel - 1);
      }
    }
  }

  predicate DueToMount(e: Entry, spec: seq<Volume>) {
    e.phase.AttachedToNode? && e.pod.Some? && e.name in HotNames(spec)
  }

  /** A mount pass that gets through has moved exactly the attached volumes of the spec to mounted. */
  lemma {:induction false} MountsComplete(es: seq<Entry>, spec: seq<Volume>, source: Id, fuel: nat)
    requires Distinct(es) && Mounts(es, spec, source, fuel).ok
    ensures var after := Mounts(es, spec, source, fuel).entries;
            && |after| == |es|
            && forall i :: 0 <= i < |es| ==>
                 after[i] == if DueToMount(es[i], spec) then es[i].(phase := MountedToPod) else es[i]
    decreases |spec|
  {
    if spec != [] {
      HotNamesStep(spec);
      var k := First(es, spec[0].name);
      if !Mountable(es, spec[0]) || (source == 0 && !es[k].phase.AttachedToNode?) {
        MountsComplete(es, spec[1..], source, fuel);
      } else {
        MountsComplete(Mounted(es, k), spec[1..], SourceFor(es[k], source), fuel - 1);
      }
    }
  }

  lemma {:induction false} AddsMove(es: seq<Entry>, disks: set<Id>, seen: set<Id>, spec: seq<Volume>, fuel: nat)
    requires seen <= disks
    ensures var p := Adds(es, disks, seen, spec, fuel);
            && AddMoved(es, p.entries, p.disks) && disks <= p.disks
            && forall i :: 0 <= i < |es| && p.entries[i] != es[i] ==> es[i].name in HotNames(spec)
    decreases |spec|
  {
    if spec != [] {
      HotNamesStep(spec);
      var n := spec[0].name;
      var k := Last(es, n);
      if !spec[0].hotpluggable || k < 0 || !es[k].phase.MountedToPod? {
        AddsMove(es, disks, seen, spec[1..], fuel);
      } else {
        var ready := es[k := es[k].(phase := Ready)];
        if n in seen {
          AddsMove(ready, disks, seen, spec[1..], fuel);
        } else if fuel > 0 {
          AddsMove(ready, disks + {n}, seen, spec[1..], fuel - 1);
        }
      }
    }
  }

  lemma {:induction false} AddsComplete(es: seq<Entry>, disks: set<Id>, seen: set<Id>, spec: seq<Volume>, fuel: nat)
    requires Distinct(es) && Adds(es, disks, seen, spec, fuel).ok
    ensures var after := Adds(es, disks, seen, spec, fuel).entries;
            && |after| == |es|
            && forall i :: 0 <= i < |es| ==>
                 after[i] == if es[i].phase.MountedToPod? && es[i].name in HotNames(spec) then es[i].(phase := Ready) else es[i]
    decreases |spec|
  {
    if spec != [] {
      HotNamesStep(spec);
      var n := spec[0].name;
      var k := Last(es, n);
      if !spec[0].hotpluggable || k < 0 || !es[k].phase.MountedToPod? {
        AddsComplete(es, disks, seen, spec[1..], fuel);
      } else {
        var ready := es[k := es[k].(phase := Ready)];
        AddsComplete(ready, if n in seen then disks else disks + {n}, seen, spec[1..], if n in seen then fuel else fuel - 1);
      }
    }
  }

  lemma {:induction false} RemovesSpare(disks: set<Id>, listed: seq<Id>, keep: set<Id>, fuel: nat)
    ensures Removes(disks, listed, keep, fuel) <= disks
    ensures forall n :: n in disks && n in keep ==> n in Removes(disks, listed, keep, fuel)
    ensures fuel >= |listed| ==>
              Removes(disks, listed, keep, fuel) == (set n | n in disks && !(n in listed && n !in keep))
    decreases |listed|
  {
    if listed != [] {
      if listed[0] in keep {
        RemovesSpare(disks, listed[1..], keep, fuel);
      } else if fuel > 0 {
        RemovesSpare(disks - {listed[0]}, listed[1..], keep, fuel - 1);
      }
    }
  }

  lemma SameNamesSameFirst(a: seq<Entry>, b: seq<Entry>, n: Id)
    requires |a| == |b| && forall i :: 0 <= i < |a| ==> a[i].name == b[i].name
    ensures First(a, n) == First(b, n)
  {
    var i, j := First(a, n), First(b, n);
    assert i >= 0 ==> b[i].name == n;
    assert j >= 0 ==> a[j].name == n;
  }
}
