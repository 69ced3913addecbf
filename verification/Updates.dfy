/** pkg/controller/vm_webhook.go: which updates of a VM are admitted, and what stays fixed along any
    chain of admitted updates. */
module Updates {
  import opened Options
  import opened Specs

  datatype Claim = Claim(name: Id, hotpluggable: bool)

  /** A volume: a claim, a data volume, or another kind of source. */
  datatype Volume = Volume(name: Id, claim: Option<Claim>, data: Option<Claim>, other: Id)

  /** A VM spec; `rest` stands for all fields that are not named here. */
  datatype Spec<R> = Spec(runPolicy: Option<RunPolicy>, volumes: seq<Volume>, disks: seq<Id>, rest: R)

  datatype Error = SpecChanged | VolumeChanged(name: Id) | VolumeUnplugged(name: Id) | VolumePlugged(name: Id)

  predicate IsHotpluggable(v: Volume) {
    (v.claim.Some? && v.claim.value.hotpluggable) || (v.data.Some? && v.data.value.hotpluggable)
  }

  predicate Distinct(vs: seq<Volume>) {
    forall i, j :: 0 <= i < j < |vs| ==> vs[i].name != vs[j].name
  }

  function Named(vs: seq<Volume>, n: Id): (k: int)
    ensures -1 <= k < |vs|
    ensures k >= 0 ==> vs[k].name == n && forall i :: 0 <= i < k ==> vs[i].name != n
    ensures k < 0 ==> forall i :: 0 <= i < |vs| ==> vs[i].name != n
  {
    FirstWith(vs, (v: Volume) => v.name, n)
  }

  /* ---------- the checks ---------- */

  function OldError(v: Volume, new_: seq<Volume>): seq<Error> {
    var k := Named(new_, v.name);
    if k >= 0 && new_[k] != v then [VolumeChanged(v.name)]
    else if k < 0 && !IsHotpluggable(v) then [VolumeUnplugged(v.name)]
    else []
  }

  function OldErrors(old_: seq<Volume>, new_: seq<Volume>): seq<Error> {
    if old_ == [] then [] else OldError(old_[0], new_) + OldErrors(old_[1..], new_)
  }

  function NewError(v: Volume, old_: seq<Volume>): seq<Error> {
    if Named(old_, v.name) < 0 && !IsHotpluggable(v) then [VolumePlugged(v.name)] else []
  }

  function NewErrors(new_: seq<Volume>, old_: seq<Volume>): seq<Error> {
    if new_ == [] then [] else NewError(new_[0], old_) + NewErrors(new_[1..], old_)
  }

  function UpdateErrors<R(==)>(before: Spec<R>, after: Spec<R>): seq<Error> {
    (if before.rest != after.rest then [SpecChanged] else [])
    + OldErrors(before.volumes, after.volumes) + NewErrors(after.volumes, before.volumes)
  }

  method Find(vs: seq<Volume>, n: Id) returns (k: int)
    ensures k == Named(vs, n)
  {
    for i := 0 to |vs|
      invariant forall j :: 0 <= j < i ==> vs[j].name != n
    {
      if vs[i].name == n { return i; }
    }
    k := -1;
  }

  /** ValidateVMUpdate. */
  method ValidateUpdate<R(==)>(before: Spec<R>, after: Spec<R>) returns (errors: seq<Error>)
    ensures errors == UpdateErrors(before, after)
  {
    errors := [];
    var copy := before.(runPolicy := after.runPolicy, volumes := after.volumes, disks := after.disks);
    if copy != after { errors := [SpecChanged]; }
    var changed := CheckOld(before.volumes, after.volumes);
    var plugged := CheckNew(after.volumes, before.volumes);
    errors := errors + changed + plugged;
  }

  method CheckOld(old_: seq<Volume>, new_: seq<Volume>) returns (errors: seq<Error>)
    ensures errors == OldErrors(old_, new_)
  {
    errors := [];
    for i := 0 to |old_|
      invariant errors + OldErrors(old_[i..], new_) == OldErrors(old_, new_)
    {
      Tail(old_, i);
      Associates(errors, OldError(old_[i], new_), OldErrors(old_[i + 1..], new_));
      var error := CheckOldVolume(old_[i], new_);
      errors := errors + error;
    }
  }

  method CheckOldVolume(v: Volume, new_: seq<Volume>) returns (errors: seq<Error>)
    ensures errors == OldError(v, new_)
  {
    var k := Find(new_, v.name);
    if k >= 0 {
      if new_[k] != v { return [VolumeChanged(v.name)]; }
    } else if !IsHotpluggable(v) {
      return [VolumeUnplugged(v.name)];
    }
    errors := [];
  }

  method CheckNew(new_: seq<Volume>, old_: seq<Volume>) returns (errors: seq<Error>)
    ensures errors == NewErrors(new_, old_)
  {
    errors := [];
    for i := 0 to |new_|
      invariant errors + NewErrors(new_[i..], old_) == NewErrors(new_, old_)
    {
      Tail(new_, i);
      Associates(errors, NewError(new_[i], old_), NewErrors(new_[i + 1..], old_));
      var k := Find(old_, new_[i].name);
      var error := if k < 0 && !IsHotpluggable(new_[i]) then [VolumePlugged(new_[i].name)] else [];
      errors := errors + error;
    }
  }

  /** The part of ValidateVMSpec that looks for volume names used twice. */
  method DuplicateNames(vs: seq<Volume>) returns (duplicates: seq<Id>)
    ensures duplicates == [] <==> Distinct(vs)
  {
    duplicates := [];
    var names: set<Id> := {};
    for i := 0 to |vs|
      invariant names == set j | 0 <= j < i :: vs[j].name
      invariant duplicates == [] <==> Distinct(vs[..i])
    {
      if vs[i].name in names {
        duplicates := duplicates + [vs[i].name];
        var j :| 0 <= j < i && vs[j].name == vs[i].name;
        assert vs[..i + 1][j].name == vs[..i + 1][i].name;
      }
      assert vs[..i + 1] == vs[..i] + [vs[i]];
      assert Distinct(vs[..i + 1]) ==> Distinct(vs[..i]) by {
        assert forall j :: 0 <= j < i ==> vs[..i][j] == vs[..i + 1][j];
      }
      names := names + {vs[i].name};
    }
    assert vs[..|vs|] == vs;
  }

  /* ---------- what stays fixed ---------- */

  /** The volumes that are not hotpluggable, with their whole definitions. */
  function Fixed(vs: seq<Volume>): set<Volume> {
    set v | v in vs && !IsHotpluggable(v)
  }

  lemma {:induction false} OldErrorsIff(a: seq<Volume>, b: seq<Volume>)
    ensures OldErrors(a, b) == [] <==>
            forall i :: 0 <= i < |a| ==>
                         var k := Named(b, a[i].name); if k >= 0 then b[k] == a[i] else IsHotpluggable(a[i])
  {
    if a != [] {
      OldErrorsIff(a[1..], b);
      assert forall i :: 1 <= i < |a| ==> a[i] == a[1..][i - 1];
    }
  }

  lemma {:induction false} NewErrorsIff(b: seq<Volume>, a: seq<Volume>)
    ensures NewErrors(b, a) == [] <==>
            forall i :: 0 <= i < |b| ==> Named(a, b[i].name) >= 0 || IsHotpluggable(b[i])
  {
    if b != [] {
      NewErrorsIff(b[1..], a);
      assert forall i :: 1 <= i < |b| ==> b[i] == b[1..][i - 1];
    }
  }

  /** No fixed volume hides behind an earlier volume of its name. */
  predicate NoneHidden(vs: seq<Volume>) {
    forall i :: 0 <= i < |vs| && !IsHotpluggable(vs[i]) ==> vs[Named(vs, vs[i].name)] == vs[i]
  }

  lemma DistinctHidesNone(vs: seq<Volume>)
    requires Distinct(vs)
    ensures NoneHidden(vs)
  {
    forall i | 0 <= i < |vs| ensures Named(vs, vs[i].name) == i {
    }
  }

  /** An update with no complaint keeps the fixed volumes exactly if none of the new ones is hidden. */
  lemma FixedKeptIff<R>(before: Spec<R>, after: Spec<R>)
    requires UpdateErrors(before, after) == []
    ensures Fixed(after.volumes) == Fixed(before.volumes) <==> NoneHidden(after.volumes)
    ensures after.rest == before.rest
  {
    var a, b := before.volumes, after.volumes;
    OldErrorsIff(a, b);
    NewErrorsIff(b, a);
    forall v | v in Fixed(a) ensures v in Fixed(b) {
      var i :| 0 <= i < |a| && a[i] == v;
      assert b[Named(b, v.name)] == v;
    }
    if NoneHidden(b) {
      forall v | v in Fixed(b) ensures v in Fixed(a) {
        var j :| 0 <= j < |b| && b[j] == v;
        var i := Named(a, v.name);
        assert b[Named(b, a[i].name)] == a[i];
      }
    }
    if Fixed(b) == Fixed(a) {
      forall j | 0 <= j < |b| && !IsHotpluggable(b[j]) ensures b[Named(b, b[j].name)] == b[j] {
        assert b[j] in Fixed(a);
        var i :| 0 <= i < |a| && a[i] == b[j];
      }
    }
  }

  /** A volume that stays is the same volume. */
  predicate Agree(a: seq<Volume>, b: seq<Volume>) {
    forall i, j :: 0 <= i < |a| && 0 <= j < |b| && a[i].name == b[j].name ==> a[i] == b[j]
  }

  lemma AgreeingAccepted(a: seq<Volume>, b: seq<Volume>)
    requires Fixed(a) == Fixed(b) && Agree(a, b)
    ensures OldErrors(a, b) == [] && NewErrors(b, a) == []
  {
    OldErrorsIff(a, b);
    NewErrorsIff(b, a);
    forall i | 0 <= i < |a| ensures Named(b, a[i].name) >= 0 || IsHotpluggable(a[i]) {
      assert !IsHotpluggable(a[i]) ==> a[i] in Fixed(b);
    }
    forall j | 0 <= j < |b| ensures Named(a, b[j].name) >= 0 || IsHotpluggable(b[j]) {
      assert !IsHotpluggable(b[j]) ==> b[j] in Fixed(a);
    }
  }

  lemma AcceptedAgree(a: seq<Volume>, b: seq<Volume>)
    requires Distinct(b) && OldErrors(a, b) == []
    ensures Agree(a, b)
  {
    OldErrorsIff(a, b);
    forall i, j | 0 <= i < |a| && 0 <= j < |b| && a[i].name == b[j].name ensures a[i] == b[j] {
      assert j == Named(b, a[i].name);
    }
  }

  /** With distinct new names, the update check says exactly: nothing else changed, the fixed volumes
      are the same, and a volume that stays is the same volume. */
  lemma AcceptedIff<R>(before: Spec<R>, after: Spec<R>)
    requires Distinct(after.volumes)
    ensures UpdateErrors(before, after) == [] <==>
            && after.rest == before.rest
            && Fixed(after.volumes) == Fixed(before.volumes)
            && Agree(before.volumes, after.volumes)
  {
    if UpdateErrors(before, after) == [] {
      DistinctHidesNone(after.volumes);
      FixedKeptIff(before, after);
      AcceptedAgree(before.volumes, after.volumes);
    } else if Fixed(after.volumes) == Fixed(before.volumes) && Agree(before.volumes, after.volumes) {
      AgreeingAccepted(before.volumes, after.volumes);
    }
  }

  /** Admitted: the update check and the check of the new spec's volume names both pass. */
  predicate Admitted<R(==)>(before: Spec<R>, after: Spec<R>) {
    UpdateErrors(before, after) == [] && Distinct(after.volumes)
  }

  /** Along any chain of admitted updates, in every version. */
  lemma {:induction false} ChainKeepsFixed<R>(chain: seq<Spec<R>>, k: nat)
    requires k < |chain|
    requires forall i :: 0 < i < |chain| ==> Admitted(chain[i - 1], chain[i])
    ensures Fixed(chain[k].volumes) == Fixed(chain[0].volumes)
    ensures chain[k].rest == chain[0].rest
  {
    if k > 0 {
      ChainKeepsFixed(chain, k - 1);
      assert Admitted(chain[k - 1], chain[k]);
      DistinctHidesNone(chain[k].volumes);
      FixedKeptIff(chain[k - 1], chain[k]);
    }
  }

  /** Without the check of names, a fixed volume can be slipped in behind a hotpluggable one. */
  lemma HiddenVolumeSlipsIn<R>(rest: R)
    ensures var hot := Volume(1, Some(Claim(5, true)), None, 0);
            var cold := Volume(1, Some(Claim(6, false)), None, 0);
            var before, after := Spec(Some(Once), [hot], [], rest), Spec(Some(Once), [hot, cold], [], rest);
            && UpdateErrors(before, after) == []
            && Distinct(before.volumes) && !Distinct(after.volumes)
            && Fixed(before.volumes) == {} && Fixed(after.volumes) == {cold}
  {
    var hot := Volume(1, Some(Claim(5, true)), None, 0);
    var cold := Volume(1, Some(Claim(6, false)), None, 0);
    OldErrorsIff([hot], [hot, cold]);
    NewErrorsIff([hot, cold], [hot]);
    assert [hot, cold][0].name == [hot, cold][1].name;
    assert cold in [hot, cold];
  }
}
