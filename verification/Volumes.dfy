/** The volumes of a VM spec, and the pods that carry the hotplugged ones. */
module Volumes {
  import opened Options

  /** A volume of a VM spec. */
  datatype Volume = Volume(name: Id, hotpluggable: bool)

  /** A volume of a pod; `claim` tells a persistent volume claim. */
  datatype PodVolume = PodVolume(name: Id, claim: bool)

  /** A volume pod of the VM pod. */
  datatype VolumePod = VolumePod(uid: Id, running: bool, terminating: bool, volumes: seq<PodVolume>)

  /** The name of the directory volume that is the first one of every volume pod that is built. */
  const HOTPLUG: Id := 1

  predicate DistinctIds(ns: seq<Id>) {
    forall i, j :: 0 <= i < j < |ns| ==> ns[i] != ns[j]
  }

  function IdSet(ns: seq<Id>): set<Id> {
    set n | n in ns
  }

  predicate Carries(p: VolumePod, n: Id) {
    exists i :: 0 <= i < |p.volumes| && p.volumes[i].name == n
  }

  /** The volume is the pod's very first one. */
  predicate Heads(p: VolumePod, n: Id) {
    p.volumes != [] && p.volumes[0].name == n
  }

  function ClaimVolumes(wanted: seq<Id>): seq<PodVolume> {
    if wanted == [] then [] else [PodVolume(wanted[0], true)] + ClaimVolumes(wanted[1..])
  }

  /** buildHotplugVolumePod, and what the cluster adds to it on creation. */
  function Built(uid: Id, wanted: seq<Id>, injected: seq<PodVolume>): VolumePod {
    VolumePod(uid, false, false, [PodVolume(HOTPLUG, false)] + ClaimVolumes(wanted) + injected)
  }
}
