/** The passes as the controller and the daemon run them, over the status they update in place. */
module VolumePasses {
  import opened Options
  import opened Volumes
  import opened VolumeStatus
  import opened VolumePhases

  /** The entries whose hotplug part is written without looking whether there is one: those of volumes
      gone from the spec that still have a pod. */
  predicate Dereferenced(es: seq<Entry>, names: seq<Id>, pods: seq<VolumePod>) {
    var m := ByName(es);
    forall n :: n in m && n !in names && LastPodOf(None, pods, n).Some? ==> m[n].pod.Some?
  }

  lemma {:induction false} ByNameFrom(es: seq<Entry>, n: Id)
    requires n in ByName(es)
    ensures ByName(es)[n] in es && ByName(es)[n].name == n
  {
    var last := es[|es| - 1];
    if last.name != n {
      ByNameFrom(es[..|es| - 1], n);
      assert ByName(es)[n] in es[..|es| - 1];
    }
  }

  /** Where every entry has its hotplug part, as in every version the controller writes, the update
      never misses one. */
  lemma HotplugIsEnough(es: seq<Entry>, names: seq<Id>, pods: seq<VolumePod>)
    requires Hotplug(es)
    ensures Dereferenced(es, names, pods)
  {
    forall n | n in ByName(es) ensures ByName(es)[n].pod.Some? {
      ByNameFrom(es, n);
    }
  }

  /** The volume status of a VM and the disks of its guest; `fuel` calls succeed. */
  class VolumeState {
    var entries: seq<Entry>
    var disks: set<Id>
    var fuel: nat

    /** updateHotplugVolumeStatus. */
    method UpdateStatus(names: seq<Id>, pods: seq<VolumePod>) returns (requeue: bool)
      requires Dereferenced(entries, names, pods)
      modifies this`entries
      ensures Updated(old(entries), names, pods, entries) && Hotplug(entries)
      ensures requeue <==> exists i :: 0 <= i < |entries| && entries[i].phase.Pending?
    {
      var m := Index(entries);
      var kept, left := Refresh(m, names, pods);
      forall n | n in m ensures m[n].name == n {
        ByNameFrom(entries, n);
      }
      var gone := Detach(left, pods);
      KeptNames(m, names, pods);
      entries := kept + gone;
      assert entries[..|names|] == kept && entries[|names|..] == gone;
      requeue := AnyPending(entries);
    }

    /** mountHotplugVolumes: the phases, and which volume is mounted from which pod. */
    method MountVolumes(spec: seq<Volume>, source: Id) returns (ok: bool, mounts: seq<Mount>)
      modifies this`entries, this`fuel
      ensures MountPass(entries, mounts, ok) == Mounts(old(entries), spec, source, old(fuel))
    {
      var from := source;
      mounts := [];
      for i := 0 to |spec|
        invariant MountsOn(mounts, Mounts(entries, spec[i..], from, fuel)) == Mounts(old(entries), spec, source, old(fuel))
      {
        Tail(spec, i);
        var made;
        ok, from, made := MountVolume(spec[i..], from);
        MountsOnward(mounts, made, Mounts(entries, spec[i + 1..], from, fuel));
        mounts := mounts + made;
        if !ok { return; }
      }
      ok := true;
    }

    /** One turn of its loop, for the first of the volumes that are left. */
    method MountVolume(left: seq<Volume>, source: Id) returns (ok: bool, from: Id, made: seq<Mount>)
      requires left != []
      modifies this`entries, this`fuel
      ensures ok ==> Mounts(old(entries), left, source, old(fuel)) == MountsOn(made, Mounts(entries, left[1..], from, fuel))
      ensures !ok ==> made == [] && Mounts(old(entries), left, source, old(fuel)) == MountPass(entries, [], false)
    {
      from, made := source, [];
      var k := FindFirst(entries, left[0].name);
      if !left[0].hotpluggable || k < 0 || entries[k].pod.None? { return true, from, made; }
      var attached := entries[k].phase.AttachedToNode?;
      if from != 0 || attached {
        if from == 0 { from := entries[k].pod.value; }
        if fuel == 0 { return false, from, made; }
        fuel, made := fuel - 1, [Mount(left[0].name, from)];
      }
      if attached {
        entries := entries[k := entries[k].(phase := MountedToPod)];
      }
      ok := true;
    }

    /** addHotplugVolumesToVM. */
    method AddToGuest(seen: set<Id>, spec: seq<Volume>) returns (ok: bool)
      modifies this
      ensures Pass(entries, disks, ok) == Adds(old(entries), old(disks), seen, spec, old(fuel))
    {
      for i := 0 to |spec|
        invariant Adds(entries, disks, seen, spec[i..], fuel) == Adds(old(entries), old(disks), seen, spec, old(fuel))
      {
        assert spec[i..][1..] == spec[i + 1..];
        if !spec[i].hotpluggable { continue; }
        var k := FindLast(entries, spec[i].name);
        if k < 0 { continue; }
        if entries[k].phase.MountedToPod? {
          if spec[i].name !in seen {
            if fuel == 0 { return false; }
            fuel, disks := fuel - 1, disks + {spec[i].name};
          }
          entries := entries[k := entries[k].(phase := Ready)];
        }
      }
      ok := true;
    }

    /** removeHotplugVolumesFromVM. */
    method RemoveFromGuest(listed: seq<Id>, spec: seq<Volume>) returns (ok: bool)
      modifies this`disks, this`fuel
      ensures disks == Removes(old(disks), listed, Names(spec), old(fuel))
      ensures ok ==> forall i :: 0 <= i < |listed| && listed[i] !in Names(spec) ==> listed[i] !in disks
    {
      var keep: set<Id> := {};
      for i := 0 to |spec|
        invariant keep == Names(spec[..i])
        invariant disks == old(disks) && fuel == old(fuel)
      {
        assert Names(spec[..i + 1]) == Names(spec[..i]) + {spec[i].name} by {
          assert forall j :: 0 <= j < i ==> spec[..i][j] == spec[..i + 1][j];
          assert spec[..i + 1][i] == spec[i];
        }
        keep := keep + {spec[i].name};
      }
      assert spec[..|spec|] == spec;
      for i := 0 to |listed|
        invariant Removes(disks, listed[i..], keep, fuel) == Removes(old(disks), listed, keep, old(fuel))
        invariant forall j :: 0 <= j < i && listed[j] !in keep ==> listed[j] !in disks
      {
        assert listed[i..][1..] == listed[i + 1..];
        if listed[i] !in keep {
          if fuel == 0 { return false; }
          fuel, disks := fuel - 1, disks - {listed[i]};
        }
      }
      ok := true;
    }
  }

  /** The pass after `made`. */
  function MountsOn(made: seq<Mount>, rest: MountPass): MountPass {
    rest.(mounts := made + rest.mounts)
  }

  lemma MountsOnward(a: seq<Mount>, b: seq<Mount>, rest: MountPass)
    ensures MountsOn(a, MountsOn(b, rest)) == MountsOn(a + b, rest)
  {
    Associates(a, b, rest.mounts);
  }

  method Index(es: seq<Entry>) returns (m: map<Id, Entry>)
    ensures m == ByName(es)
  {
    m := map[];
    for i := 0 to |es|
      invariant m == ByName(es[..i])
    {
      assert es[..i + 1][..i] == es[..i];
      m := m[es[i].name := es[i]];
    }
    assert es[..|es|] == es;
  }

  method AnyPending(es: seq<Entry>) returns (r: bool)
    ensures r <==> exists i :: 0 <= i < |es| && es[i].phase.Pending?
  {
    for i := 0 to |es|
      invariant forall j :: 0 <= j < i ==> !es[j].phase.Pending?
    {
      if es[i].phase.Pending? { return true; }
    }
    r := false;
  }

  method FindFirst(es: seq<Entry>, n: Id) returns (k: int)
    ensures k == First(es, n)
  {
    for i := 0 to |es|
      invariant forall j :: 0 <= j < i ==> es[j].name != n
    {
      if es[i].name == n { return i; }
    }
    k := -1;
  }

  method FindLast(es: seq<Entry>, n: Id) returns (k: int)
    ensures k == Last(es, n)
  {
    k := -1;
    for i := 0 to |es|
      invariant -1 <= k < i
      invariant k >= 0 ==> es[k].name == n
      invariant forall j :: k < j < i ==> es[j].name != n
    {
      if es[i].name == n { k := i; }
    }
  }

  method FindPod(pods: seq<VolumePod>, n: Id) returns (r: Option<VolumePod>)
    ensures r == PodOf(pods, n)
  {
    for i := 0 to |pods|
      invariant PodOf(pods[i..], n) == PodOf(pods, n)
    {
      assert pods[i..][1..] == pods[i + 1..];
      for j := 0 to |pods[i].volumes|
        invariant forall l :: 0 <= l < j ==> pods[i].volumes[l].name != n
      {
        if pods[i].volumes[j].name == n { return Some(pods[i]); }
      }
    }
    r := None;
  }

  /** The search for a volume gone from the spec, with both of its breaks where they are. */
  method FindLastPod(pods: seq<VolumePod>, n: Id) returns (r: Option<VolumePod>)
    ensures r == LastPodOf(None, pods, n)
    ensures r.None? <==> forall i :: 0 <= i < |pods| ==> !Carries(pods[i], n)
  {
    NoPodIff(pods, n);
    r := None;
    for i := 0 to |pods|
      invariant LastPodOf(r, pods[i..], n) == LastPodOf(None, pods, n)
    {
      assert pods[i..][1..] == pods[i + 1..];
      ghost var found := r;
      for j := 0 to |pods[i].volumes|
        invariant r == found && forall l :: 0 <= l < j ==> pods[i].volumes[l].name != n
        invariant r.Some? ==> j == 0
      {
        if pods[i].volumes[j].name == n {
          r := Some(pods[i]);
          break;
        }
        if r.Some? { break; }
      }
    }
  }

  /** The first loop: the volumes of the spec, in order. */
  method Refresh(m: map<Id, Entry>, names: seq<Id>, pods: seq<VolumePod>) returns (kept: seq<Entry>, left: map<Id, Entry>)
    ensures kept == Kept(m, names, pods)
    ensures left.Keys == m.Keys - IdSet(names)
    ensures forall n :: n in left ==> left[n] == m[n]
  {
    kept, left := [], m;
    for i := 0 to |names|
      invariant kept + Kept(left, names[i..], pods) == Kept(m, names, pods)
      invariant left.Keys == m.Keys - IdSet(names[..i])
      invariant forall n :: n in left ==> left[n] == m[n]
    {
      Tail(names, i);
      var entry := RefreshEntry(left, names[i], pods);
      Associates(kept, [entry], Kept(left - {names[i]}, names[i + 1..], pods));
      kept, left := kept + [entry], left - {names[i]};
    }
    assert names[..|names|] == names;
  }

  method RefreshEntry(m: map<Id, Entry>, n: Id, pods: seq<VolumePod>) returns (entry: Entry)
    ensures entry == Refreshed(m, n, pods)
  {
    var phase, uid := if n in m then m[n].phase else NoPhase, 0;
    if phase.NoPhase? { phase := Pending; }
    var pod := FindPod(pods, n);
    if pod.Some? {
      uid := pod.value.uid;
      if pod.value.running && phase.Pending? { phase := AttachedToNode; }
    } else {
      phase := Pending;
    }
    entry := Entry(n, phase, Some(uid));
  }

  /** The second loop: what is left over, in whatever order the map yields it. */
  method Detach(left: map<Id, Entry>, pods: seq<VolumePod>) returns (gone: seq<Entry>)
    requires forall n :: n in left ==> left[n].name == n
    requires forall n :: n in left && LastPodOf(None, pods, n).Some? ==> left[n].pod.Some?
    ensures Leftovers(gone, left.Keys, pods)
  {
    gone := [];
    var todo := left.Keys;
    while todo != {}
      invariant todo <= left.Keys && Leftovers(gone, left.Keys - todo, pods)
      decreases |todo|
    {
      var n :| n in todo;
      var pod := FindLastPod(pods, n);
      ghost var was, before := gone, left.Keys - todo;
      if pod.Some? {
        var entry := Redirected(left[n], pod.value.uid);
        gone := gone + [entry.(phase := Detaching)];
      }
      todo := todo - {n};
      assert left.Keys - todo == before + {n};
      OneMoreGone(was, before, n, pods, gone);
    }
    assert left.Keys - todo == left.Keys;
  }

  /** Writes into the hotplug part, which must be there. */
  method Redirected(e: Entry, uid: Id) returns (r: Entry)
    requires e.pod.Some?
    ensures r == e.(pod := Some(uid))
  {
    r := e.(pod := Some(uid));
  }

  lemma OneMoreGone(es: seq<Entry>, done: set<Id>, n: Id, pods: seq<VolumePod>, after: seq<Entry>)
    requires Leftovers(es, done, pods) && n !in done
    requires after == if LastPodOf(None, pods, n).Some? then es + [Gone(n, pods)] else es
    ensures Leftovers(after, done + {n}, pods)
  {
    forall k | k in done + {n} && LastPodOf(None, pods, k).Some? ensures Gone(k, pods) in after {
      if k == n {
        assert after[|es|] == Gone(n, pods);
      } else {
        assert Gone(k, pods) in es;
      }
    }
  }
}
