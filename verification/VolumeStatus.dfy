/** The phases of hotplugged volumes: pkg/controller/vm_controller.go attaches and detaches them,
    pkg/daemon/vm_controller.go mounts them and plugs them into the guest. */
module VolumeStatus {
  import opened Options
  import opened Volumes

  datatype Phase = NoPhase | Pending | AttachedToNode | MountedToPod | Ready | Detaching

  /** An entry of the status; `pod` is None where the entry has no hotplug part. */
  datatype Entry = Entry(name: Id, phase: Phase, pod: Option<Id>)

  predicate Distinct(es: seq<Entry>) {
    forall i, j :: 0 <= i < j < |es| ==> es[i].name != es[j].name
  }

  predicate Hotplug(es: seq<Entry>) {
    forall i :: 0 <= i < |es| ==> es[i].pod.Some?
  }

  /* ---------- the controller's pass ---------- */

  /** By name; of two entries with one name the later counts. */
  function ByName(es: seq<Entry>): map<Id, Entry> {
    if es == [] then map[] else ByName(es[..|es| - 1])[es[|es| - 1].name := es[|es| - 1]]
  }

  /** The first pod with the volume. */
  function PodOf(pods: seq<VolumePod>, n: Id): Option<VolumePod> {
    if pods == [] then None
    else if Carries(pods[0], n) then Some(pods[0])
    else PodOf(pods[1..], n)
  }

  /** For a volume gone from the spec: the first pod with the volume, but a later pod whose very
      first volume it is takes over. */
  function LastPodOf(found: Option<VolumePod>, pods: seq<VolumePod>, n: Id): Option<VolumePod>
    decreases |pods|
  {
    if pods == [] then found
    else
      var p := pods[0];
      var here := if found.None? then Carries(p, n) else Heads(p, n);
      LastPodOf(if here then Some(p) else found, pods[1..], n)
  }

  function Refreshed(m: map<Id, Entry>, n: Id, pods: seq<VolumePod>): Entry {
    var phase := if n !in m || m[n].phase.NoPhase? then Pending else m[n].phase;
    match PodOf(pods, n)
    case Some(p) => Entry(n, if p.running && phase.Pending? then AttachedToNode else phase, Some(p.uid))
    case None => Entry(n, Pending, Some(0))
  }

  function Kept(m: map<Id, Entry>, names: seq<Id>, pods: seq<VolumePod>): seq<Entry>
    decreases |names|
  {
    if names == [] then [] else [Refreshed(m, names[0], pods)] + Kept(m - {names[0]}, names[1..], pods)
  }

  lemma {:induction false} KeptNames(m: map<Id, Entry>, names: seq<Id>, pods: seq<VolumePod>)
    ensures |Kept(m, names, pods)| == |names|
    ensures forall i :: 0 <= i < |names| ==> Kept(m, names, pods)[i].name == names[i] && Kept(m, names, pods)[i].pod.Some?
    decreases |names|
  {
    if names != [] { KeptNames(m - {names[0]}, names[1..], pods); }
  }

  function Gone(n: Id, pods: seq<VolumePod>): Entry
    requires LastPodOf(None, pods, n).Some?
  {
    Entry(n, Detaching, Some(LastPodOf(None, pods, n).value.uid))
  }

  /** The entries of volumes gone from the spec that still have a pod, in some order. */
  predicate Leftovers(es: seq<Entry>, gone: set<Id>, pods: seq<VolumePod>) {
    && Distinct(es)
    && (forall i :: 0 <= i < |es| ==>
                     && es[i].name in gone
                     && LastPodOf(None, pods, es[i].name).Some?
                     && es[i] == Gone(es[i].name, pods))
    && (forall n :: n in gone && LastPodOf(None, pods, n).Some? ==> Gone(n, pods) in es)
  }

  predicate Updated(es: seq<Entry>, names: seq<Id>, pods: seq<VolumePod>, after: seq<Entry>) {
    var m := ByName(es);
    && |after| >= |names|
    && after[..|names|] == Kept(m, names, pods)
    && Leftovers(after[|names|..], m.Keys - IdSet(names), pods)
  }

  /* ---------- the daemon's passes ---------- */

  function First(es: seq<Entry>, n: Id): (k: int)
    ensures -1 <= k < |es|
    ensures k >= 0 ==> es[k].name == n && forall i :: 0 <= i < k ==> es[i].name != n
    ensures k < 0 ==> forall i :: 0 <= i < |es| ==> es[i].name != n
  {
    FirstWith(es, (e: Entry) => e.name, n)
  }

  function Last(es: seq<Entry>, n: Id): (k: int)
    ensures -1 <= k < |es|
    ensures k >= 0 ==> es[k].name == n && forall i :: k < i < |es| ==> es[i].name != n
    ensures k < 0 ==> forall i :: 0 <= i < |es| ==> es[i].name != n
  {
    if es == [] then -1
    else if es[|es| - 1].name == n then |es| - 1
    else Last(es[..|es| - 1], n)
  }

  /** A mount of the volume from the directory of a volume pod. */
  datatype Mount = Mount(volume: Id, from: Id)

  /** The entries after a mount pass and the mounts it made. */
  datatype MountPass = MountPass(entries: seq<Entry>, mounts: seq<Mount>, ok: bool)

  /** The pod to mount an entry from: `source` if there is one, else its own. */
  function SourceFor(e: Entry, source: Id): Id
    requires e.pod.Some?
  {
    if source != 0 then source else e.pod.value
  }

  function Mounted(es: seq<Entry>, k: nat): seq<Entry>
    requires k < |es|
  {
    if es[k].phase.AttachedToNode? then es[k := es[k].(phase := MountedToPod)] else es
  }

  /** Mounting: `fuel` mounts succeed. `source` is the target's volume pod in a migration, and 0
      otherwise; the pod that the first attached volume is mounted from is the source from then on.
      With a source every volume is mounted, whatever its phase. */
  function Mounts(es: seq<Entry>, spec: seq<Volume>, source: Id, fuel: nat): MountPass
    decreases |spec|
  {
    if spec == [] then MountPass(es, [], true)
    else
      var k := First(es, spec[0].name);
      if !spec[0].hotpluggable || k < 0 || es[k].pod.None? then Mounts(es, spec[1..], source, fuel)
      else if source == 0 && !es[k].phase.AttachedToNode? then Mounts(es, spec[1..], source, fuel)
      else if fuel == 0 then MountPass(es, [], false)
      else
        var from := SourceFor(es[k], source);
        var rest := Mounts(Mounted(es, k), spec[1..], from, fuel - 1);
        rest.(mounts := [Mount(spec[0].name, from)] + rest.mounts)
  }

  datatype Pass = Pass(entries: seq<Entry>, disks: set<Id>, ok: bool)

  /** Plugging into the guest; `seen` are the disks the guest had at the start. */
  function Adds(es: seq<Entry>, disks: set<Id>, seen: set<Id>, spec: seq<Volume>, fuel: nat): Pass
    decreases |spec|
  {
    if spec == [] then Pass(es, disks, true)
    else
      var n := spec[0].name;
      var k := Last(es, n);
      if !spec[0].hotpluggable || k < 0 || !es[k].phase.MountedToPod? then Adds(es, disks, seen, spec[1..], fuel)
      else
        var ready := es[k := es[k].(phase := Ready)];
        if n in seen then Adds(ready, disks, seen, spec[1..], fuel)
        else if fuel == 0 then Pass(es, disks, false)
        else Adds(ready, disks + {n}, seen, spec[1..], fuel - 1)
  }

  function Names(spec: seq<Volume>): set<Id> {
    set i | 0 <= i < |spec| :: spec[i].name
  }

  /** Unplugging the disks that are not in the spec, in the order the guest lists them. */
  function Removes(disks: set<Id>, listed: seq<Id>, keep: set<Id>, fuel: nat): set<Id>
    decreases |listed|
  {
    if listed == [] then disks
    else if listed[0] in keep then Removes(disks, listed[1..], keep, fuel)
    else if fuel == 0 then disks
    else Removes(disks - {listed[0]}, listed[1..], keep, fuel - 1)
  }
}
