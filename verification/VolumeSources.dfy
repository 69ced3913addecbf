/** pkg/daemon/vm_controller.go: the pod that the first attached volume of a mount pass is mounted from
    stays the source of the volumes after it. Which volumes are then mounted from their own pod. */
module VolumeSources {
  import opened Options
  import opened Volumes
  import opened VolumeStatus
  import opened VolumePhases

  function UidOf(es: seq<Entry>, v: Volume): Id
    requires Mountable(es, v)
  {
    es[First(es, v.name)].pod.value
  }

  /** Every mount is from the pod that the volume's own entry names. */
  predicate FromOwnPods(es: seq<Entry>, mounts: seq<Mount>) {
    forall i :: 0 <= i < |mounts| ==>
      First(es, mounts[i].volume) >= 0 && es[First(es, mounts[i].volume)].pod == Some(mounts[i].from)
  }

  predicate Attached(es: seq<Entry>, v: Volume)
    requires Mountable(es, v)
  {
    es[First(es, v.name)].phase.AttachedToNode?
  }

  /** All volumes of the spec that take part are of the source; without one, all behind an attached
      volume are of its pod. */
  predicate SameSource(es: seq<Entry>, spec: seq<Volume>, source: Id) {
    if source != 0 then
      forall j :: 0 <= j < |spec| && Mountable(es, spec[j]) ==> UidOf(es, spec[j]) == source
    else
      forall i, j :: 0 <= i < j < |spec| && Mountable(es, spec[i]) && Mountable(es, spec[j]) && Attached(es, spec[i]) ==>
        UidOf(es, spec[i]) == 0 || UidOf(es, spec[j]) == UidOf(es, spec[i])
  }

  lemma MountedKeepsPods(es: seq<Entry>, k: nat, n: Id)
    requires k < |es|
    ensures First(Mounted(es, k), n) == First(es, n)
    ensures First(es, n) >= 0 ==> Mounted(es, k)[First(es, n)].pod == es[First(es, n)].pod
  {
    SameNamesSameFirst(es, Mounted(es, k), n);
  }

  lemma MountedKeepsSources(es: seq<Entry>, k: nat, spec: seq<Volume>, source: Id, mounts: seq<Mount>)
    requires k < |es| && (source == 0 ==> es[k].pod == Some(0))
    ensures FromOwnPods(Mounted(es, k), mounts) <==> FromOwnPods(es, mounts)
    ensures SameSource(Mounted(es, k), spec, source) <==> SameSource(es, spec, source)
  {
    forall n
      ensures First(Mounted(es, k), n) == First(es, n)
      ensures First(es, n) >= 0 ==> Mounted(es, k)[First(es, n)].pod == es[First(es, n)].pod
    {
      MountedKeepsPods(es, k, n);
    }
  }

  /** The condition, volume by volume: what the first one adds to that of the others. */
  lemma SameSourceStep(es: seq<Entry>, spec: seq<Volume>, source: Id)
    requires spec != []
    ensures var mounted := Mountable(es, spec[0]) && (source != 0 || Attached(es, spec[0]));
            SameSource(es, spec, source) <==>
            if !mounted then SameSource(es, spec[1..], source)
            else if source != 0 then UidOf(es, spec[0]) == source && SameSource(es, spec[1..], source)
            else SameSource(es, spec[1..], UidOf(es, spec[0]))
  {
    assert forall i :: 1 <= i < |spec| ==> spec[i] == spec[1..][i - 1];
    assert forall i :: 0 <= i < |spec| - 1 ==> spec[1..][i] == spec[i + 1];
  }

  lemma FromOwnPodsStep(es: seq<Entry>, m: Mount, rest: seq<Mount>)
    ensures FromOwnPods(es, [m] + rest) <==> FromOwnPods(es, [m]) && FromOwnPods(es, rest)
  {
    var all := [m] + rest;
    assert all[0] == m == [m][0];
    assert forall i :: 0 <= i < |rest| ==> all[i + 1] == rest[i];
    assert forall i :: 1 <= i < |all| ==> all[i] == rest[i - 1];
  }

  /** One mount and the rest of the pass. */
  lemma MountStep(es: seq<Entry>, spec: seq<Volume>, source: Id, rest: seq<Mount>)
    requires spec != [] && Mountable(es, spec[0]) && (source != 0 || Attached(es, spec[0]))
    requires var k, from := First(es, spec[0].name), SourceFor(es[First(es, spec[0].name)], source);
             FromOwnPods(Mounted(es, k), rest) <==> SameSource(Mounted(es, k), spec[1..], from)
    ensures var from := SourceFor(es[First(es, spec[0].name)], source);
            FromOwnPods(es, [Mount(spec[0].name, from)] + rest) <==> SameSource(es, spec, source)
  {
    var k, from := First(es, spec[0].name), SourceFor(es[First(es, spec[0].name)], source);
    var m := Mount(spec[0].name, from);
    MountedKeepsSources(es, k, spec[1..], from, rest);
    FromOwnPodsStep(es, m, rest);
    assert FromOwnPods(es, [m]) <==> UidOf(es, spec[0]) == from by { assert [m][0] == m; }
    SameSourceStep(es, spec, source);
  }

  /** A mount pass that gets through mounts every volume from its own pod exactly if all that take
      part behind the first attached one are of its pod. */
  lemma {:induction false} MountsFromOwnPodsIff(es: seq<Entry>, spec: seq<Volume>, source: Id, fuel: nat)
    requires Mounts(es, spec, source, fuel).ok
    ensures FromOwnPods(es, Mounts(es, spec, source, fuel).mounts) <==> SameSource(es, spec, source)
    decreases |spec|
  {
    if spec != [] {
      var k := First(es, spec[0].name);
      if !Mountable(es, spec[0]) || (source == 0 && !es[k].phase.AttachedToNode?) {
        SameSourceStep(es, spec, source);
        MountsFromOwnPodsIff(es, spec[1..], source, fuel);
      } else {
        var from := SourceFor(es[k], source);
        MountsFromOwnPodsIff(Mounted(es, k), spec[1..], from, fuel - 1);
        MountStep(es, spec, source, Mounts(Mounted(es, k), spec[1..], from, fuel - 1).mounts);
      }
    }
  }

  /** After an update that found every volume in one and the same pod, that is so. */
  lemma OnePodIsOneSource(before: seq<Entry>, names: seq<Id>, pods: seq<VolumePod>, p: VolumePod, es: seq<Entry>, spec: seq<Volume>)
    requires Distinct(before) && DistinctIds(names) && Updated(before, names, pods, es)
    requires forall i :: 0 <= i < |spec| ==> spec[i].name in names && PodOf(pods, spec[i].name) == Some(p)
    ensures SameSource(es, spec, 0)
  {
    forall i | 0 <= i < |spec| && Mountable(es, spec[i]) ensures UidOf(es, spec[i]) == p.uid {
      UpdateMoves(before, names, pods, es, spec[i].name, false);
    }
  }

  /** A volume that has no pod yet, behind one that is attached: the update writes this status, and
      both volumes are mounted from the one pod, which does not have the second. */
  lemma PendingIsMounted(injected: seq<PodVolume>, pod: VolumePod)
    requires pod == Built(7, [5], injected).(running := true) && forall i :: 0 <= i < |injected| ==> injected[i].name != 6
    ensures var es := [Entry(5, AttachedToNode, Some(7)), Entry(6, Pending, Some(0))];
            && Updated([], [5, 6], [pod], es) && !Carries(pod, 6)
            && Mounts(es, [Volume(5, true), Volume(6, true)], 0, 2).mounts == [Mount(5, 7), Mount(6, 7)]
  {
    var es := [Entry(5, AttachedToNode, Some(7)), Entry(6, Pending, Some(0))];
    assert pod.volumes == [PodVolume(HOTPLUG, false), PodVolume(5, true)] + injected by {
      assert [5][1..] == [];
      assert ClaimVolumes([5]) == [PodVolume(5, true)];
    }
    assert pod.volumes[1].name == 5;
    assert Carries(pod, 5) && !Carries(pod, 6);
    PendingUpdated(pod, es);
    PendingPass(es);
  }

  lemma PendingUpdated(pod: VolumePod, es: seq<Entry>)
    requires Carries(pod, 5) && !Carries(pod, 6) && pod.running && pod.uid == 7
    requires es == [Entry(5, AttachedToNode, Some(7)), Entry(6, Pending, Some(0))]
    ensures Updated([], [5, 6], [pod], es)
  {
    assert [pod][1..] == [] && PodOf([], 6).None?;
    assert [5, 6][1..] == [6] && [6][1..] == [];
    var m: map<Id, Entry> := map[];
    assert m - {5} == m && m - {6} == m;
    assert Kept(m, [], [pod]) == [];
    assert Kept(m, [6], [pod]) == [es[1]];
    assert es[..2] == es && es[2..] == [];
  }

  lemma PendingPass(es: seq<Entry>)
    requires es == [Entry(5, AttachedToNode, Some(7)), Entry(6, Pending, Some(0))]
    ensures Mounts(es, [Volume(5, true), Volume(6, true)], 0, 2).mounts == [Mount(5, 7), Mount(6, 7)]
  {
    var spec := [Volume(5, true), Volume(6, true)];
    assert spec[1..] == [spec[1]] && [spec[1]][1..] == [];
    assert First(es, 5) == 0;
    var mid := Mounted(es, 0);
    assert mid[0].name == 5 && mid[1].name == 6;
    assert First(mid, 6) == 1;
    assert Mounts(Mounted(mid, 1), [], 7, 0).mounts == [];
    assert Mounts(mid, [spec[1]], 7, 1).mounts == [Mount(6, 7)];
  }
}
