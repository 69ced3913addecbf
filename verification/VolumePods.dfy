/** pkg/controller/vm_controller.go: the pod that holds the hotplugged volumes of a VM pod is found
    by its volumes, and replaced when the volumes that are ready change. */
module VolumePods {
  import opened Options
  import opened Volumes

  datatype Outcome = Failed | Waiting | Done

  /** The names of the volumes that are claims, in order. */
  function Claims(vs: seq<PodVolume>): seq<Id> {
    if vs == [] then [] else (if vs[0].claim then [vs[0].name] else []) + Claims(vs[1..])
  }

  function ClaimNames(vs: seq<PodVolume>): set<Id> {
    IdSet(Claims(vs))
  }

  predicate DistinctVolumes(vs: seq<PodVolume>) {
    forall i, j :: 0 <= i < j < |vs| ==> vs[i].name != vs[j].name
  }

  /** How many volumes are not claims. */
  function Plain(vs: seq<PodVolume>): nat {
    if vs == [] then 0 else (if vs[0].claim then 0 else 1) + Plain(vs[1..])
  }

  /* ---------- the length and subset test ---------- */

  predicate Matches(vs: seq<PodVolume>, wanted: seq<Id>) {
    |vs| - 2 == |wanted| && ClaimNames(vs) <= IdSet(wanted)
  }

  lemma {:induction false} ClaimsConcat(a: seq<PodVolume>, b: seq<PodVolume>)
    ensures Claims(a + b) == Claims(a) + Claims(b)
    decreases |a|
  {
    if a == [] {
      assert a + b == b;
    } else {
      assert (a + b)[1..] == a[1..] + b;
      ClaimsConcat(a[1..], b);
      Associates(if a[0].claim then [a[0].name] else [], Claims(a[1..]), Claims(b));
    }
  }

  lemma ClaimNamesGrow(vs: seq<PodVolume>, i: nat)
    requires i < |vs|
    ensures ClaimNames(vs[..i + 1]) == ClaimNames(vs[..i]) + if vs[i].claim then {vs[i].name} else {}
  {
    assert vs[..i + 1] == vs[..i] + [vs[i]];
    ClaimsConcat(vs[..i], [vs[i]]);
  }

  /** isPodMatchVMHotplugVolumes. */
  method IsPodMatch(vs: seq<PodVolume>, wanted: seq<Id>) returns (r: bool)
    ensures r <==> Matches(vs, wanted)
  {
    if |vs| - 2 != |wanted| { return false; }
    var left: map<Id, PodVolume> := map[];
    for i := 0 to |vs|
      invariant left.Keys == ClaimNames(vs[..i])
    {
      ClaimNamesGrow(vs, i);
      if vs[i].claim { left := left[vs[i].name := vs[i]]; }
    }
    assert vs[..|vs|] == vs;
    for i := 0 to |wanted|
      invariant left.Keys == ClaimNames(vs) - IdSet(wanted[..i])
    {
      left := left - {wanted[i]};
    }
    assert wanted[..|wanted|] == wanted;
    r := |left| == 0;
    assert |left| == 0 <==> left.Keys == {};
  }

  lemma {:induction false} ClaimsCount(vs: seq<PodVolume>)
    ensures |Claims(vs)| + Plain(vs) == |vs|
  {
    if vs != [] { ClaimsCount(vs[1..]); }
  }

  lemma {:induction false} ClaimsHave(vs: seq<PodVolume>, n: Id)
    ensures n in Claims(vs) <==> exists i :: 0 <= i < |vs| && vs[i] == PodVolume(n, true)
  {
    if vs != [] {
      ClaimsHave(vs[1..], n);
      assert forall i :: 1 <= i < |vs| ==> vs[i] == vs[1..][i - 1];
    }
  }

  lemma {:induction false} ClaimsDistinct(vs: seq<PodVolume>)
    requires DistinctVolumes(vs)
    ensures DistinctIds(Claims(vs))
  {
    if vs != [] {
      assert DistinctVolumes(vs[1..]);
      ClaimsDistinct(vs[1..]);
      ClaimsHave(vs[1..], vs[0].name);
      assert vs[0].name !in Claims(vs[1..]);
    }
  }

  lemma {:induction false} DistinctCount(names: seq<Id>)
    ensures |IdSet(names)| <= |names|
    ensures DistinctIds(names) ==> |IdSet(names)| == |names|
  {
    if names != [] {
      DistinctCount(names[1..]);
      assert IdSet(names) == {names[0]} + IdSet(names[1..]);
      if DistinctIds(names) { assert names[0] !in names[1..]; }
    }
  }

  lemma SubsetOfSameSize(a: set<Id>, b: set<Id>)
    requires a <= b && |a| == |b|
    ensures a == b
  {
    var rest := b - a;
    assert b == a + rest;
    assert |b| == |a| + |rest|;
  }

  /** With two volumes that are no claims and distinct names the test is equality of the names. */
  lemma MatchIsSetEquality(vs: seq<PodVolume>, wanted: seq<Id>)
    requires DistinctVolumes(vs) && DistinctIds(wanted) && Plain(vs) == 2
    ensures Matches(vs, wanted) <==> ClaimNames(vs) == IdSet(wanted)
  {
    ClaimsCount(vs);
    ClaimsDistinct(vs);
    DistinctCount(Claims(vs));
    DistinctCount(wanted);
    if Matches(vs, wanted) { SubsetOfSameSize(ClaimNames(vs), IdSet(wanted)); }
  }

  /** The test is right for every list of volumes exactly if the pod has two that are no claims. */
  lemma MatchIsRightIff(vs: seq<PodVolume>)
    requires DistinctVolumes(vs)
    ensures Plain(vs) == 2 <==>
            forall wanted :: DistinctIds(wanted) ==> (Matches(vs, wanted) <==> ClaimNames(vs) == IdSet(wanted))
  {
    if Plain(vs) == 2 {
      forall wanted | DistinctIds(wanted) ensures Matches(vs, wanted) <==> ClaimNames(vs) == IdSet(wanted) {
        MatchIsSetEquality(vs, wanted);
      }
    } else {
      ClaimsCount(vs);
      ClaimsDistinct(vs);
      assert DistinctIds(Claims(vs)) && !Matches(vs, Claims(vs));
    }
  }

  /* ---------- the volumes that are wanted ---------- */

  /** getHotplugVolumes. */
  function Hotplugged(spec: seq<Volume>, own: set<Id>): seq<Id> {
    if spec == [] then [] else Wanted(spec[0], own) + Hotplugged(spec[1..], own)
  }

  function Wanted(v: Volume, own: set<Id>): seq<Id> {
    if v.hotpluggable && v.name !in own then [v.name] else []
  }

  function IfReady(n: Id, ready: set<Id>): seq<Id> {
    if n in ready then [n] else []
  }

  function Ready(names: seq<Id>, ready: set<Id>): seq<Id> {
    if names == [] then [] else IfReady(names[0], ready) + Ready(names[1..], ready)
  }

  lemma {:induction false} HotpluggedNames(spec: seq<Volume>, own: set<Id>)
    ensures forall n :: n in Hotplugged(spec, own) <==>
                        n !in own && exists i :: 0 <= i < |spec| && spec[i].hotpluggable && spec[i].name == n
    ensures (forall i, j :: 0 <= i < j < |spec| ==> spec[i].name != spec[j].name) ==> DistinctIds(Hotplugged(spec, own))
  {
    if spec != [] {
      HotpluggedNames(spec[1..], own);
      assert forall i :: 1 <= i < |spec| ==> spec[i] == spec[1..][i - 1];
    }
  }

  lemma {:induction false} ReadyNames(names: seq<Id>, ready: set<Id>)
    ensures IdSet(Ready(names, ready)) == IdSet(names) * ready
    ensures DistinctIds(names) ==> DistinctIds(Ready(names, ready))
  {
    if names != [] {
      ReadyNames(names[1..], ready);
      assert IdSet(Ready(names, ready)) == IdSet(IfReady(names[0], ready)) + IdSet(Ready(names[1..], ready));
      assert IdSet(names) == {names[0]} + IdSet(names[1..]);
      if DistinctIds(names) {
        assert DistinctIds(names[1..]);
        assert names[0] !in IdSet(Ready(names[1..], ready));
      }
    }
  }

  lemma {:induction false} ReadyCount(names: seq<Id>, ready: set<Id>)
    ensures |Ready(names, ready)| <= |names|
    ensures |Ready(names, ready)| == |names| ==> Ready(names, ready) == names
  {
    if names != [] { ReadyCount(names[1..], ready); }
  }

  /* ---------- replacing the volume pod ---------- */

  function FirstMatch(pods: seq<VolumePod>, wanted: seq<Id>): int {
    if pods == [] then -1
    else if Matches(pods[0].volumes, wanted) then 0
    else var k := FirstMatch(pods[1..], wanted); if k < 0 then -1 else k + 1
  }

  /** All pods but the one at `keep` are deleted in order; `fuel` deletions succeed. */
  function DeleteOthers(pods: seq<VolumePod>, keep: int, fuel: nat): seq<VolumePod>
    decreases |pods|
  {
    if pods == [] then []
    else if keep == 0 || pods[0].terminating then [pods[0]] + DeleteOthers(pods[1..], keep - 1, fuel)
    else if fuel == 0 then pods
    else [pods[0].(terminating := true)] + DeleteOthers(pods[1..], keep - 1, fuel - 1)
  }

  /** The pods, newest first, after a pass in which `fuel` calls succeed; `made` is the pod to create
      where none matches. */
  function Replaced(pods: seq<VolumePod>, wanted: seq<Id>, made: VolumePod, fuel: nat): seq<VolumePod> {
    var k := FirstMatch(pods, wanted);
    if k >= 0 || wanted == [] then DeleteOthers(pods, k, fuel)
    else if fuel == 0 then pods
    else [made] + DeleteOthers(pods, -1, fuel - 1)
  }

  function Handled(pods: seq<VolumePod>, wanted: seq<Id>, id: Id, injected: seq<PodVolume>, fuel: nat): seq<VolumePod> {
    Replaced(pods, wanted, Built(id, wanted, injected), fuel)
  }

  /** How many deletions are due. */
  function Others(pods: seq<VolumePod>, keep: int): nat
    decreases |pods|
  {
    if pods == [] then 0
    else (if keep == 0 || pods[0].terminating then 0 else 1) + Others(pods[1..], keep - 1)
  }

  /** How many calls a whole pass makes. */
  function Calls(pods: seq<VolumePod>, wanted: seq<Id>): nat {
    var k := FirstMatch(pods, wanted);
    if k >= 0 || wanted == [] then Others(pods, k) else 1 + Others(pods, -1)
  }

  class PodStore {
    var pods: seq<VolumePod>
    var fuel: nat

    method Delete(i: nat) returns (ok: bool)
      requires i < |pods|
      modifies this
      ensures ok <==> old(fuel) > 0
      ensures pods == if ok then old(pods)[i := old(pods)[i].(terminating := true)] else old(pods)
      ensures fuel == if ok then old(fuel) - 1 else old(fuel)
    {
      if fuel == 0 { return false; }
      pods, fuel, ok := pods[i := pods[i].(terminating := true)], fuel - 1, true;
    }

    /** handleHotplugVolumes. `known` are the volumes whose readiness can be read, `ready` those that
        are ready, `own` the volumes of the VM pod itself. */
    method Handle(spec: seq<Volume>, own: set<Id>, known: set<Id>, ready: set<Id>, waitAll: bool,
                  id: Id, injected: seq<PodVolume>) returns (r: Outcome)
      modifies this
      ensures var volumes := Hotplugged(spec, own);
              if !(IdSet(volumes) <= known) then r == Failed && pods == old(pods)
              else if waitAll && !(IdSet(volumes) <= ready) then r == Waiting && pods == old(pods)
              else
                && pods == Handled(old(pods), Ready(volumes, ready), id, injected, old(fuel))
                && r == if Calls(old(pods), Ready(volumes, ready)) <= old(fuel) then Done else Failed
    {
      var volumes := HotplugVolumes(spec, own);
      var wanted;
      r, wanted := ReadyVolumes(volumes, known, ready);
      if r == Failed { return; }
      ReadyNames(volumes, ready);
      ReadyCount(volumes, ready);
      AllReady(volumes, ready);
      if waitAll && |wanted| < |volumes| {
        return Waiting;
      }
      r := Replace(wanted, id, injected);
    }

    method Replace(wanted: seq<Id>, id: Id, injected: seq<PodVolume>) returns (r: Outcome)
      modifies this
      ensures pods == Handled(old(pods), wanted, id, injected, old(fuel))
      ensures r == if Calls(old(pods), wanted) <= old(fuel) then Done else Failed
    {
      var current := -1;
      for i := 0 to |pods|
        invariant pods == old(pods) && fuel == old(fuel) && -1 <= current < i
        invariant FirstMatch(pods, wanted) ==
                  if current >= 0 then current else if FirstMatch(pods[i..], wanted) < 0 then -1 else i + FirstMatch(pods[i..], wanted)
      {
        assert pods[i..][1..] == pods[i + 1..];
        var matched := IsPodMatch(pods[i].volumes, wanted);
        if current < 0 && matched { current := i; }
      }
      var listed, created := pods, [];
      if current < 0 && |wanted| > 0 {
        if fuel == 0 { return Failed; }
        created := [Built(id, wanted, injected)];
        pods, fuel := created + pods, fuel - 1;
      }
      r := DeleteOld(created, listed, current);
    }

    /** Deletes one pod of a listing whose first i pods are dealt with. */
    method DeleteListed(created: seq<VolumePod>, ghost done: seq<VolumePod>, listed: seq<VolumePod>, i: nat) returns (ok: bool)
      requires |done| == i < |listed| && pods == created + (done + listed[i..])
      modifies this
      ensures ok <==> old(fuel) > 0
      ensures ok ==> fuel == old(fuel) - 1 && pods == created + (done + [listed[i].(terminating := true)] + listed[i + 1..])
      ensures !ok ==> fuel == old(fuel) && pods == old(pods)
    {
      Advance(created, done, listed, i, listed[i].(terminating := true));
      ok := Delete(|created| + i);
    }

    /** Deletes the pods of the listing that are not current. */
    method DeleteOld(created: seq<VolumePod>, listed: seq<VolumePod>, current: int) returns (r: Outcome)
      requires pods == created + listed
      modifies this
      ensures pods == created + DeleteOthers(listed, current, old(fuel))
      ensures r == if Others(listed, current) <= old(fuel) then Done else Failed
    {
      ghost var done: seq<VolumePod> := [];
      for i := 0 to |listed|
        invariant pods == created + (done + listed[i..])
        invariant Progress(done, listed, i, current, fuel, old(fuel))
      {
        if i != current && !listed[i].terminating {
          ProgressDeletes(done, listed, i, current, fuel, old(fuel));
          var ok := DeleteListed(created, done, listed, i);
          if !ok { return Failed; }
          done := done + [listed[i].(terminating := true)];
        } else {
          Advance(created, done, listed, i, listed[i]);
          ProgressSkips(done, listed, i, current, fuel, old(fuel));
          done := done + [listed[i]];
        }
      }
      ProgressEnds(done, listed, current, fuel, old(fuel));
      r := Done;
    }
  }

  /** The first i pods of the listing are dealt with, `fuel` of `all` calls are left, and what remains
      to be done leads where the whole leads. */
  ghost predicate Progress(done: seq<VolumePod>, listed: seq<VolumePod>, i: nat, current: int, fuel: nat, all: nat) {
    && |done| == i <= |listed|
    && done + DeleteOthers(listed[i..], current - i, fuel) == DeleteOthers(listed, current, all)
    && (Others(listed[i..], current - i) <= fuel <==> Others(listed, current) <= all)
  }

  lemma ProgressSkips(done: seq<VolumePod>, listed: seq<VolumePod>, i: nat, current: int, fuel: nat, all: nat)
    requires Progress(done, listed, i, current, fuel, all) && i < |listed| && (i == current || listed[i].terminating)
    ensures Progress(done + [listed[i]], listed, i + 1, current, fuel, all)
  {
    Tail(listed, i);
    Associates(done, [listed[i]], DeleteOthers(listed[i + 1..], current - i - 1, fuel));
  }

  lemma ProgressDeletes(done: seq<VolumePod>, listed: seq<VolumePod>, i: nat, current: int, fuel: nat, all: nat)
    requires Progress(done, listed, i, current, fuel, all) && i < |listed| && i != current && !listed[i].terminating
    ensures fuel > 0 ==> Progress(done + [listed[i].(terminating := true)], listed, i + 1, current, fuel - 1, all)
    ensures fuel == 0 ==> done + listed[i..] == DeleteOthers(listed, current, all) && Others(listed, current) > all
  {
    Tail(listed, i);
    if fuel > 0 {
      Associates(done, [listed[i].(terminating := true)], DeleteOthers(listed[i + 1..], current - i - 1, fuel - 1));
    }
  }

  lemma ProgressEnds(done: seq<VolumePod>, listed: seq<VolumePod>, current: int, fuel: nat, all: nat)
    requires Progress(done, listed, |listed|, current, fuel, all)
    ensures done + listed[|listed|..] == DeleteOthers(listed, current, all) && Others(listed, current) <= all
  {
    assert listed[|listed|..] == [];
  }

  lemma Advance(a: seq<VolumePod>, b: seq<VolumePod>, c: seq<VolumePod>, i: nat, x: VolumePod)
    requires |b| == i < |c|
    ensures (a + (b + c[i..]))[|a| + i] == c[i]
    ensures (a + (b + c[i..]))[|a| + i := x] == a + (b + [x] + c[i + 1..])
  {
  }

  method HotplugVolumes(spec: seq<Volume>, own: set<Id>) returns (volumes: seq<Id>)
    ensures volumes == Hotplugged(spec, own)
  {
    volumes := [];
    for i := 0 to |spec|
      invariant volumes + Hotplugged(spec[i..], own) == Hotplugged(spec, own)
    {
      Tail(spec, i);
      Associates(volumes, Wanted(spec[i], own), Hotplugged(spec[i + 1..], own));
      if spec[i].hotpluggable && spec[i].name !in own {
        volumes := volumes + [spec[i].name];
      } else {
        assert volumes + Wanted(spec[i], own) == volumes;
      }
    }
  }

  method ReadyVolumes(volumes: seq<Id>, known: set<Id>, ready: set<Id>) returns (r: Outcome, wanted: seq<Id>)
    ensures r == if IdSet(volumes) <= known then Done else Failed
    ensures r == Done ==> wanted == Ready(volumes, ready)
  {
    wanted := [];
    for i := 0 to |volumes|
      invariant wanted + Ready(volumes[i..], ready) == Ready(volumes, ready)
      invariant forall j :: 0 <= j < i ==> volumes[j] in known
    {
      Tail(volumes, i);
      Associates(wanted, IfReady(volumes[i], ready), Ready(volumes[i + 1..], ready));
      if volumes[i] !in known {
        assert volumes[i] in IdSet(volumes);
        return Failed, wanted;
      }
      if volumes[i] in ready {
        wanted := wanted + [volumes[i]];
      } else {
        assert wanted + IfReady(volumes[i], ready) == wanted;
      }
    }
    r := Done;
  }

  lemma {:induction false} AllReady(names: seq<Id>, ready: set<Id>)
    ensures IdSet(names) <= ready ==> Ready(names, ready) == names
  {
    if names != [] {
      assert IdSet(names) == {names[0]} + IdSet(names[1..]);
      AllReady(names[1..], ready);
    }
  }

  /* ---------- what a whole pass leaves ---------- */

  lemma {:induction false} FirstMatchIs(pods: seq<VolumePod>, wanted: seq<Id>)
    ensures var k := FirstMatch(pods, wanted);
            && -1 <= k < |pods|
            && (k >= 0 ==> Matches(pods[k].volumes, wanted))
            && (forall i :: 0 <= i < (if k < 0 then |pods| else k) ==> !Matches(pods[i].volumes, wanted))
  {
    if pods != [] { FirstMatchIs(pods[1..], wanted); }
  }

  /** With enough calls every pod but the kept one is terminating, and nothing else changed. */
  lemma {:induction false} DeleteOthersAt(pods: seq<VolumePod>, keep: int, fuel: nat, i: nat)
    requires Others(pods, keep) <= fuel && i < |pods|
    ensures |DeleteOthers(pods, keep, fuel)| == |pods|
    ensures DeleteOthers(pods, keep, fuel)[i] == if i == keep then pods[i] else pods[i].(terminating := true)
    decreases |pods|
  {
    if |pods| > 1 {
      DeleteOthersAt(pods[1..], keep - 1, if keep == 0 || pods[0].terminating then fuel else fuel - 1, if i == 0 then 0 else i - 1);
    }
  }

  lemma DeleteOthersAll(pods: seq<VolumePod>, keep: int, fuel: nat)
    requires Others(pods, keep) <= fuel
    ensures var after := DeleteOthers(pods, keep, fuel);
            && |after| == |pods|
            && forall i :: 0 <= i < |pods| ==> after[i] == if i == keep then pods[i] else pods[i].(terminating := true)
  {
    forall i | 0 <= i < |pods|
      ensures |DeleteOthers(pods, keep, fuel)| == |pods|
      ensures DeleteOthers(pods, keep, fuel)[i] == if i == keep then pods[i] else pods[i].(terminating := true)
    {
      DeleteOthersAt(pods, keep, fuel, i);
    }
  }

  lemma {:induction false} ClaimVolumesClaim(wanted: seq<Id>)
    ensures |ClaimVolumes(wanted)| == |wanted| && Claims(ClaimVolumes(wanted)) == wanted
  {
    if wanted != [] {
      ClaimVolumesClaim(wanted[1..]);
      assert ClaimVolumes(wanted)[1..] == ClaimVolumes(wanted[1..]);
    }
  }

  lemma {:induction false} PlainClaimNothing(vs: seq<PodVolume>)
    requires forall i :: 0 <= i < |vs| ==> !vs[i].claim
    ensures Claims(vs) == []
  {
    if vs != [] { PlainClaimNothing(vs[1..]); }
  }

  lemma BuiltClaims(id: Id, wanted: seq<Id>, injected: seq<PodVolume>)
    requires forall i :: 0 <= i < |injected| ==> !injected[i].claim
    ensures ClaimNames(Built(id, wanted, injected).volumes) == IdSet(wanted)
    ensures Matches(Built(id, wanted, injected).volumes, wanted) <==> |injected| == 1
  {
    var directory := [PodVolume(HOTPLUG, false)];
    ClaimVolumesClaim(wanted);
    PlainClaimNothing(directory);
    PlainClaimNothing(injected);
    ClaimsConcat(directory, ClaimVolumes(wanted));
    ClaimsConcat(directory + ClaimVolumes(wanted), injected);
    assert Claims(Built(id, wanted, injected).volumes) == wanted;
  }

  /** The pods that are not terminating. */
  function Live(pods: seq<VolumePod>): set<int> {
    set i | 0 <= i < |pods| && !pods[i].terminating
  }

  predicate WellFormed(pod: VolumePod) {
    DistinctVolumes(pod.volumes) && Plain(pod.volumes) == 2
  }

  /** At most one pod is not terminating; such a pod carries exactly the wanted volumes, and if any are
      wanted some pod does. */
  predicate OneCarrier(after: seq<VolumePod>, wanted: seq<Id>) {
    && (forall i, j :: i in Live(after) && j in Live(after) ==> i == j)
    && (forall i :: i in Live(after) ==> ClaimNames(after[i].volumes) == IdSet(wanted))
    && (wanted != [] ==> exists i :: 0 <= i < |after| && ClaimNames(after[i].volumes) == IdSet(wanted))
  }

  lemma KeptCarries(pods: seq<VolumePod>, wanted: seq<Id>, k: int, fuel: nat)
    requires -1 <= k < |pods| && Others(pods, k) <= fuel && (k < 0 ==> wanted == [])
    requires k >= 0 ==> ClaimNames(pods[k].volumes) == IdSet(wanted)
    ensures OneCarrier(DeleteOthers(pods, k, fuel), wanted)
  {
    DeleteOthersAll(pods, k, fuel);
    var after := DeleteOthers(pods, k, fuel);
    if k >= 0 { assert ClaimNames(after[k].volumes) == IdSet(wanted); }
  }

  lemma FreshCarries(pods: seq<VolumePod>, wanted: seq<Id>, made: VolumePod, fuel: nat)
    requires Others(pods, -1) <= fuel && ClaimNames(made.volumes) == IdSet(wanted)
    ensures OneCarrier([made] + DeleteOthers(pods, -1, fuel), wanted)
  {
    DeleteOthersAll(pods, -1, fuel);
    assert ([made] + DeleteOthers(pods, -1, fuel))[0] == made;
  }

  /** After a pass that gets through, at most one volume pod is not terminating, and it carries
      exactly the ready volumes. */
  lemma OneLivePod(pods: seq<VolumePod>, wanted: seq<Id>, id: Id, injected: seq<PodVolume>, fuel: nat)
    requires Calls(pods, wanted) <= fuel
    requires DistinctIds(wanted) && forall i :: 0 <= i < |pods| ==> WellFormed(pods[i])
    requires forall i :: 0 <= i < |injected| ==> !injected[i].claim
    ensures OneCarrier(Handled(pods, wanted, id, injected, fuel), wanted)
  {
    var k := FirstMatch(pods, wanted);
    FirstMatchIs(pods, wanted);
    if k >= 0 {
      assert WellFormed(pods[k]);
      MatchIsSetEquality(pods[k].volumes, wanted);
    }
    if k >= 0 || wanted == [] {
      KeptCarries(pods, wanted, k, fuel);
    } else {
      BuiltClaims(id, wanted, injected);
      FreshCarries(pods, wanted, Built(id, wanted, injected), fuel - 1);
    }
  }

  /* ---------- retrying ---------- */

  lemma {:induction false} DeletingKeepsMatch(pods: seq<VolumePod>, keep: int, fuel: nat, wanted: seq<Id>)
    ensures FirstMatch(DeleteOthers(pods, keep, fuel), wanted) == FirstMatch(pods, wanted)
    decreases |pods|
  {
    if pods != [] && (keep == 0 || pods[0].terminating || fuel > 0) {
      DeletingKeepsMatch(pods[1..], keep - 1, if keep == 0 || pods[0].terminating then fuel else fuel - 1, wanted);
      var after := DeleteOthers(pods, keep, fuel);
      assert after[0].volumes == pods[0].volumes;
      assert after[1..] == DeleteOthers(pods[1..], keep - 1, if keep == 0 || pods[0].terminating then fuel else fuel - 1);
    }
  }

  /** Deletions cut short and then done again come to the same as done at once. */
  lemma {:induction false} DeletingAgain(pods: seq<VolumePod>, keep: int, first: nat, fuel: nat)
    requires Others(pods, keep) <= fuel
    ensures Others(DeleteOthers(pods, keep, first), keep) <= fuel
    ensures DeleteOthers(DeleteOthers(pods, keep, first), keep, fuel) == DeleteOthers(pods, keep, fuel)
    decreases |pods|
  {
    if pods != [] && (keep == 0 || pods[0].terminating || first > 0) {
      var skip := keep == 0 || pods[0].terminating;
      var after := DeleteOthers(pods, keep, first);
      assert after[1..] == DeleteOthers(pods[1..], keep - 1, if skip then first else first - 1);
      DeletingAgain(pods[1..], keep - 1, if skip then first else first - 1, if skip then fuel else fuel - 1);
      DeletingAgain(pods[1..], keep - 1, if skip then first else first - 1, fuel);
      MoreFuel(pods[1..], keep - 1, fuel, if skip then fuel else fuel - 1);
    }
  }

  lemma {:induction false} MoreFuel(pods: seq<VolumePod>, keep: int, f: nat, g: nat)
    requires Others(pods, keep) <= f && Others(pods, keep) <= g
    ensures DeleteOthers(pods, keep, f) == DeleteOthers(pods, keep, g)
    decreases |pods|
  {
    if pods != [] {
      var skip := keep == 0 || pods[0].terminating;
      MoreFuel(pods[1..], keep - 1, if skip then f else f - 1, if skip then g else g - 1);
    }
  }

  lemma RetryKept(pods: seq<VolumePod>, wanted: seq<Id>, again: VolumePod, first: nat, fuel: nat)
    requires var k := FirstMatch(pods, wanted); (k >= 0 || wanted == []) && Others(pods, k) <= fuel
    ensures var k := FirstMatch(pods, wanted);
            Replaced(DeleteOthers(pods, k, first), wanted, again, fuel) == DeleteOthers(pods, k, fuel)
  {
    var k := FirstMatch(pods, wanted);
    DeletingKeepsMatch(pods, k, first, wanted);
    DeletingAgain(pods, k, first, fuel);
  }

  lemma RetryFresh(pods: seq<VolumePod>, wanted: seq<Id>, made: VolumePod, again: VolumePod, first: nat, fuel: nat)
    requires Others(pods, -1) <= fuel && Matches(made.volumes, wanted)
    ensures Replaced([made] + DeleteOthers(pods, -1, first), wanted, again, fuel + 1) == [made] + DeleteOthers(pods, -1, fuel)
  {
    var part := DeleteOthers(pods, -1, first);
    var mid := [made] + part;
    assert mid[1..] == part;
    assert FirstMatch(mid, wanted) == 0;
    DeletingAgain(pods, -1, first, fuel);
    MoreFuel(part, -1, fuel + 1, fuel);
  }

  /** A pod that does not match is not found again, and a second one is created. */
  lemma RetryUnmatched(pods: seq<VolumePod>, wanted: seq<Id>, made: VolumePod, again: VolumePod, first: nat, fuel: nat)
    requires FirstMatch(pods, wanted) < 0 && wanted != [] && !Matches(made.volumes, wanted)
    ensures |Replaced([made] + DeleteOthers(pods, -1, first), wanted, again, fuel + 1)| == |pods| + 2
    ensures |[made] + DeleteOthers(pods, -1, fuel)| == |pods| + 1
  {
    var part := DeleteOthers(pods, -1, first);
    var mid := [made] + part;
    assert mid[1..] == part;
    DeletingKeepsMatch(pods, -1, first, wanted);
    assert FirstMatch(mid, wanted) == -1;
    DeletingKeepsCount(pods, -1, first);
    DeletingKeepsCount(pods, -1, fuel);
    DeletingKeepsCount(mid, -1, fuel);
  }

  lemma {:induction false} DeletingKeepsCount(pods: seq<VolumePod>, keep: int, fuel: nat)
    ensures |DeleteOthers(pods, keep, fuel)| == |pods|
    decreases |pods|
  {
    if pods != [] && (keep == 0 || pods[0].terminating || fuel > 0) {
      DeletingKeepsCount(pods[1..], keep - 1, if keep == 0 || pods[0].terminating then fuel else fuel - 1);
    }
  }

  lemma ReplacedConvergesIff(pods: seq<VolumePod>, wanted: seq<Id>, made: VolumePod, again: VolumePod, first: nat, fuel: nat)
    requires Calls(pods, wanted) <= fuel
    ensures Replaced(Replaced(pods, wanted, made, first), wanted, again, fuel)
            == Replaced(pods, wanted, if first == 0 then again else made, fuel) <==>
            wanted == [] || FirstMatch(pods, wanted) >= 0 || first == 0 || Matches(made.volumes, wanted)
  {
    if FirstMatch(pods, wanted) >= 0 || wanted == [] {
      RetryKept(pods, wanted, again, first, fuel);
    } else if first > 0 {
      if Matches(made.volumes, wanted) {
        RetryFresh(pods, wanted, made, again, first - 1, fuel - 1);
      } else {
        RetryUnmatched(pods, wanted, made, again, first - 1, fuel - 1);
      }
    }
  }

  /** A pass cut short anywhere and then retried reaches what one pass would have reached, with the pod
      made by the first attempt, exactly if it made no pod or the cluster adds one volume to it. */
  lemma RetryConvergesIff(pods: seq<VolumePod>, wanted: seq<Id>, id: Id, again: Id, injected: seq<PodVolume>, first: nat, fuel: nat)
    requires Calls(pods, wanted) <= fuel
    requires forall i :: 0 <= i < |injected| ==> !injected[i].claim
    ensures var kept := if first == 0 then again else id;
            Handled(Handled(pods, wanted, id, injected, first), wanted, again, injected, fuel)
            == Handled(pods, wanted, kept, injected, fuel) <==>
            wanted == [] || FirstMatch(pods, wanted) >= 0 || first == 0 || |injected| == 1
  {
    BuiltClaims(id, wanted, injected);
    ReplacedConvergesIff(pods, wanted, Built(id, wanted, injected), Built(again, wanted, injected), first, fuel);
  }

  /** Another pass, with calls enough, changes nothing. */
  predicate Settled(pods: seq<VolumePod>, wanted: seq<Id>, again: VolumePod) {
    Replaced(pods, wanted, again, |pods| + 1) == pods
  }

  lemma KeptSettles(pods: seq<VolumePod>, wanted: seq<Id>, k: int, again: VolumePod, fuel: nat)
    requires k == FirstMatch(pods, wanted) && (k >= 0 || wanted == []) && Others(pods, k) <= fuel
    ensures Settled(DeleteOthers(pods, k, fuel), wanted, again)
  {
    var once, more := DeleteOthers(pods, k, fuel), fuel + |pods| + 1;
    DeletingKeepsMatch(pods, k, fuel, wanted);
    DeletingAgain(pods, k, fuel, more);
    OthersBounded(once, k);
    MoreFuel(pods, k, fuel, more);
    MoreFuel(once, k, |once| + 1, more);
  }

  lemma MatchedSettles(pods: seq<VolumePod>, wanted: seq<Id>, made: VolumePod, again: VolumePod, fuel: nat)
    requires Others(pods, -1) <= fuel && Matches(made.volumes, wanted)
    ensures Settled([made] + DeleteOthers(pods, -1, fuel), wanted, again)
  {
    var part := DeleteOthers(pods, -1, fuel);
    var once := [made] + part;
    assert once[1..] == part;
    DeletingAgain(pods, -1, fuel, fuel);
    OthersBounded(part, -1);
    MoreFuel(part, -1, |once| + 1, fuel);
    assert FirstMatch(once, wanted) == 0;
  }

  lemma UnmatchedGrows(pods: seq<VolumePod>, wanted: seq<Id>, made: VolumePod, again: VolumePod, fuel: nat)
    requires FirstMatch(pods, wanted) < 0 && wanted != [] && !Matches(made.volumes, wanted)
    ensures !Settled([made] + DeleteOthers(pods, -1, fuel), wanted, again)
  {
    var part := DeleteOthers(pods, -1, fuel);
    var once := [made] + part;
    DeletingKeepsMatch(pods, -1, fuel, wanted);
    assert once[1..] == part;
    assert FirstMatch(once, wanted) == -1;
    OthersBounded(once, -1);
    DeleteOthersAll(once, -1, |once|);
    assert |Replaced(once, wanted, again, |once| + 1)| == |once| + 1;
  }

  lemma ReplacedSettlesIff(pods: seq<VolumePod>, wanted: seq<Id>, made: VolumePod, again: VolumePod, fuel: nat)
    requires Calls(pods, wanted) <= fuel
    ensures Settled(Replaced(pods, wanted, made, fuel), wanted, again) <==>
            wanted == [] || FirstMatch(pods, wanted) >= 0 || Matches(made.volumes, wanted)
  {
    var k := FirstMatch(pods, wanted);
    if k >= 0 || wanted == [] {
      KeptSettles(pods, wanted, k, again, fuel);
    } else if Matches(made.volumes, wanted) {
      MatchedSettles(pods, wanted, made, again, fuel - 1);
    } else {
      UnmatchedGrows(pods, wanted, made, again, fuel - 1);
    }
  }

  /** A second pass changes nothing exactly if there was a pod to keep, nothing was wanted, or the
      cluster adds exactly one volume to a new pod. */
  lemma SettlesIff(pods: seq<VolumePod>, wanted: seq<Id>, id: Id, again: Id, injected: seq<PodVolume>, fuel: nat)
    requires Calls(pods, wanted) <= fuel
    requires forall i :: 0 <= i < |injected| ==> !injected[i].claim
    ensures var once := Handled(pods, wanted, id, injected, fuel);
            Handled(once, wanted, again, injected, |once| + 1) == once <==>
            wanted == [] || FirstMatch(pods, wanted) >= 0 || |injected| == 1
  {
    BuiltClaims(id, wanted, injected);
    ReplacedSettlesIff(pods, wanted, Built(id, wanted, injected), Built(again, wanted, injected), fuel);
  }

  lemma {:induction false} OthersBounded(pods: seq<VolumePod>, keep: int)
    ensures Others(pods, keep) <= |pods|
    decreases |pods|
  {
    if pods != [] { OthersBounded(pods[1..], keep - 1); }
  }
}
