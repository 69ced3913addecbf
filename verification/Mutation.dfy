/** pkg/controller/vm_webhook.go: MutateVM fills in what a VM leaves out, and the resource checks of
    ValidateVMSpec that its result must pass. */
module Mutation {
  import opened Options
  import opened Specs

  datatype Resource = Cpu | Memory | Hugepages(pageSize: nat) | Other(name: nat)

  /** Requests or limits; a quantity is an exact number of cores or bytes. */
  type Quantities = map<Resource, real>

  const OVERHEAD: real := 268435456.0
  const DEFAULT_SIZE: real := 1073741824.0
  const DEFAULT_CIDR: string := "10.0.2.0/30"

  /** A hardware address; 0 stands for none given. */
  type Mac = nat

  datatype Binding = Binding(bridge: bool, masquerade: Option<string>, sriov: bool, vdpa: bool, vhostUser: bool)

  datatype Interface = Interface(name: nat, mac: Mac, binding: Binding)

  datatype Vm = Vm(
    policy: Option<RunPolicy>, sockets: Word, cores: Word, dedicated: bool, size: real, hugepages: Option<nat>,
    requests: Option<Quantities>, limits: Option<Quantities>, interfaces: seq<Interface>)

  /* ---------- values ---------- */

  /** The entry, or zero: of an absent list too. */
  function Get(q: Option<Quantities>, r: Resource): real {
    if q.Some? && r in q.value then q.value[r] else 0.0
  }

  /** Rounded up, away from zero. */
  function Value(q: real): int {
    if q >= 0.0 then -((-q).Floor) else q.Floor
  }

  /** A count that is not given is one. */
  function OrOne(n: Word): Word {
    if n == 0 then 1 else n
  }

  function WithDefaults(v: Vm): Vm {
    v.(policy := if v.policy.None? then Some(Once) else v.policy,
       sockets := OrOne(v.sockets),
       cores := OrOne(v.cores),
       size := if v.size != 0.0 then v.size
               else if Get(v.requests, Memory) != 0.0 then Get(v.requests, Memory) else DEFAULT_SIZE)
  }

  function Reserved(v: Vm): Quantities {
    map[Cpu := Vcpus(v.cores, v.sockets) as real,
        Memory := if v.hugepages.None? then OVERHEAD + v.size else OVERHEAD]
  }

  /** Zero entries are taken from what is reserved. */
  function Filled(q: Option<Quantities>, reserved: Quantities): Quantities
    requires Cpu in reserved && Memory in reserved
  {
    if q.None? then reserved
    else
      var c := if Get(q, Cpu) == 0.0 then q.value[Cpu := reserved[Cpu]] else q.value;
      if Get(q, Memory) == 0.0 then c[Memory := reserved[Memory]] else c
  }

  function WithReserved(v: Vm): Vm {
    if !v.dedicated then v
    else v.(requests := Some(Filled(v.requests, Reserved(v))), limits := Some(Filled(v.limits, Reserved(v))))
  }

  function OrEmpty(q: Option<Quantities>): Quantities {
    if q.Some? then q.value else map[]
  }

  predicate NoCpuNorMemory(requests: Option<Quantities>, limits: Option<Quantities>) {
    && Get(limits, Cpu) == 0.0 && Get(limits, Memory) == 0.0
    && Get(requests, Cpu) == 0.0 && Get(requests, Memory) == 0.0
  }

  function WithHugepages(v: Vm): Vm {
    if v.hugepages.None? then v
    else
      var page := Hugepages(v.hugepages.value);
      var l := OrEmpty(v.limits);
      var limits := if page in l then l else l[page := v.size];
      var r := OrEmpty(v.requests);
      var requests := if page in r then r else r[page := limits[page]];
      v.(limits := Some(limits),
         requests := Some(if NoCpuNorMemory(Some(requests), Some(limits)) then requests[Memory := OVERHEAD] else requests))
  }

  function MacOf(interfaces: seq<Interface>, name: nat): Mac {
    if interfaces == [] then 0
    else if interfaces[0].name == name then interfaces[0].mac
    else MacOf(interfaces[1..], name)
  }

  predicate Unbound(b: Binding) {
    !b.bridge && b.masquerade.None? && !b.sriov && !b.vdpa && !b.vhostUser
  }

  function Bound(b: Binding): Binding {
    if Unbound(b) then Binding(true, None, false, false, false)
    else if b.masquerade == Some("") then b.(masquerade := Some(DEFAULT_CIDR))
    else b
  }

  /** The interfaces, each address taken from the old VM or else from the supply of new ones; an
      error where the supply ends. */
  function WithMacs(todo: seq<Interface>, old_: seq<Interface>, supply: seq<Mac>): Option<seq<Interface>>
    decreases |todo|
  {
    if todo == [] then Some([])
    else
      var known := if todo[0].mac != 0 then todo[0].mac else MacOf(old_, todo[0].name);
      if known == 0 && supply == [] then None
      else
        var rest := WithMacs(todo[1..], old_, if known == 0 then supply[1..] else supply);
        if rest.None? then None
        else Some([Interface(todo[0].name, if known == 0 then supply[0] else known, Bound(todo[0].binding))] + rest.value)
  }

  function WithResources(v: Vm): Vm {
    WithHugepages(WithReserved(WithDefaults(v)))
  }

  function Mutated(v: Vm, old_: seq<Interface>, supply: seq<Mac>): Option<Vm> {
    var interfaces := WithMacs(v.interfaces, old_, supply);
    if interfaces.None? then None else Some(WithResources(v).(interfaces := interfaces.value))
  }

  /* ---------- a second pass changes nothing ---------- */

  predicate Addressed(interfaces: seq<Interface>) {
    forall i :: 0 <= i < |interfaces| ==> interfaces[i].mac != 0 && Bound(interfaces[i].binding) == interfaces[i].binding
  }

  lemma {:induction false} WithMacsAddressed(todo: seq<Interface>, old_: seq<Interface>, supply: seq<Mac>)
    requires forall i :: 0 <= i < |supply| ==> supply[i] != 0
    ensures var r := WithMacs(todo, old_, supply);
            r.Some? ==> |r.value| == |todo| && Addressed(r.value) && forall i :: 0 <= i < |todo| ==>
                          r.value[i].name == todo[i].name && (todo[i].mac != 0 ==> r.value[i].mac == todo[i].mac)
    decreases |todo|
  {
    if todo != [] {
      var known := if todo[0].mac != 0 then todo[0].mac else MacOf(old_, todo[0].name);
      if known != 0 || supply != [] {
        WithMacsAddressed(todo[1..], old_, if known == 0 then supply[1..] else supply);
      }
    }
  }

  lemma {:induction false} AddressedStays(todo: seq<Interface>, old_: seq<Interface>, supply: seq<Mac>)
    requires Addressed(todo)
    ensures WithMacs(todo, old_, supply) == Some(todo)
    decreases |todo|
  {
    if todo != [] {
      AddressedStays(todo[1..], old_, supply);
      assert todo == [todo[0]] + todo[1..];
    }
  }

  lemma FilledStays(q: Option<Quantities>, reserved: Quantities)
    requires Cpu in reserved && Memory in reserved
    ensures Filled(Some(Filled(q, reserved)), reserved) == Filled(q, reserved)
  {
  }

  lemma ReservedStays(v: Vm)
    ensures WithReserved(WithReserved(v)) == WithReserved(v)
  {
    FilledStays(v.requests, Reserved(v));
    FilledStays(v.limits, Reserved(v));
  }

  lemma HugepagesStay(v: Vm)
    ensures WithHugepages(WithHugepages(v)) == WithHugepages(v)
  {
  }

  lemma FilledIff(q: Quantities, reserved: Quantities)
    requires Cpu in reserved && Memory in reserved
    ensures Filled(Some(q), reserved) == q <==>
            && (Get(Some(q), Cpu) == 0.0 ==> Cpu in q && q[Cpu] == reserved[Cpu])
            && (Get(Some(q), Memory) == 0.0 ==> Memory in q && q[Memory] == reserved[Memory])
  {
    var f := Filled(Some(q), reserved);
    if f == q {
      assert Get(Some(q), Cpu) == 0.0 ==> f[Cpu] == reserved[Cpu];
      assert Get(Some(q), Memory) == 0.0 ==> f[Memory] == reserved[Memory];
    }
  }

  /** What the hugepages part adds to a VM with dedicated CPUs leaves the reserved part as it is. */
  lemma HugepagesKeepReserved(v: Vm)
    requires v == WithReserved(v)
    ensures WithReserved(WithHugepages(v)) == WithHugepages(v)
  {
    if v.dedicated && v.hugepages.Some? {
      var w := WithHugepages(v);
      FilledIff(v.requests.value, Reserved(v));
      FilledIff(v.limits.value, Reserved(v));
      assert Get(v.requests, Memory) != 0.0;
      FilledIff(w.requests.value, Reserved(v));
      FilledIff(w.limits.value, Reserved(v));
    }
  }

  lemma ResourcesStay(v: Vm)
    ensures WithResources(WithResources(v)) == WithResources(v)
  {
    var d := WithDefaults(v);
    var r := WithReserved(d);
    var h := WithHugepages(r);
    assert WithDefaults(h) == h;
    ReservedStays(d);
    HugepagesKeepReserved(r);
    HugepagesStay(r);
  }

  /** MutateVM is idempotent, whatever the old VM and the new addresses of the second time. */
  lemma MutateIsIdempotent(v: Vm, old_: seq<Interface>, supply: seq<Mac>, old2: seq<Interface>, supply2: seq<Mac>)
    requires forall i :: 0 <= i < |supply| ==> supply[i] != 0
    ensures var once := Mutated(v, old_, supply); once.Some? ==> Mutated(once.value, old2, supply2) == once
  {
    var once := Mutated(v, old_, supply);
    if once.Some? {
      WithMacsAddressed(v.interfaces, old_, supply);
      AddressedStays(once.value.interfaces, old2, supply2);
      InterfacesApart(WithResources(v), once.value.interfaces);
      ResourcesStay(v);
    }
  }

  lemma InterfacesApart(v: Vm, interfaces: seq<Interface>)
    ensures WithResources(v.(interfaces := interfaces)) == WithResources(v).(interfaces := interfaces)
  {
    var d := WithDefaults(v);
    assert WithDefaults(v.(interfaces := interfaces)) == d.(interfaces := interfaces);
    assert WithReserved(d.(interfaces := interfaces)) == WithReserved(d).(interfaces := interfaces);
  }

  /* ---------- the resource checks ---------- */

  datatype Error =
    | Required(list: nat, resource: Resource)
    | Invalid(list: nat, resource: Resource)
    | HugepagesAlone

  const REQUESTS: nat := 0
  const LIMITS: nat := 1

  function CpuErrors(v: Vm): seq<Error> {
    (if Get(v.requests, Cpu) == 0.0 then [Required(REQUESTS, Cpu)]
     else if Value(Get(v.requests, Cpu)) != Vcpus(v.sockets, v.cores) then [Invalid(REQUESTS, Cpu)] else [])
    + (if Get(v.limits, Cpu) == 0.0 then [Required(LIMITS, Cpu)]
       else if Get(v.limits, Cpu) != Get(v.requests, Cpu) then [Invalid(LIMITS, Cpu)] else [])
  }

  function MemoryErrors(v: Vm): seq<Error> {
    (if Get(v.requests, Memory) == 0.0 then [Required(REQUESTS, Memory)]
     else if Get(v.requests, Memory) < (if v.hugepages.None? then OVERHEAD + v.size else OVERHEAD)
     then [Invalid(REQUESTS, Memory)] else [])
    + (if Get(v.limits, Memory) == 0.0 then [Required(LIMITS, Memory)]
       else if Get(v.limits, Memory) != Get(v.requests, Memory) then [Invalid(LIMITS, Memory)] else [])
  }

  function DedicatedErrors(v: Vm): seq<Error> {
    if !v.dedicated then [] else CpuErrors(v) + MemoryErrors(v)
  }

  predicate Has(q: Option<Quantities>, r: Resource) {
    q.Some? && r in q.value
  }

  function HugepagesErrors(v: Vm): seq<Error> {
    if v.hugepages.None? then []
    else
      var page := Hugepages(v.hugepages.value);
      (if NoCpuNorMemory(v.requests, v.limits) then [HugepagesAlone] else [])
      + (if !Has(v.requests, page) then [Required(REQUESTS, page)]
         else if Get(v.requests, page) != v.size then [Invalid(REQUESTS, page)] else [])
      + (if !Has(v.limits, page) then [Required(LIMITS, page)]
         else if Get(v.limits, page) != Get(v.requests, page) then [Invalid(LIMITS, page)] else [])
  }

  lemma ValueOfWhole(n: nat)
    ensures Value(n as real) == n
  {
    var i: int := n;
    assert -(i as real) == (-i) as real;
  }

  lemma ReservedPasses(v: Vm)
    requires v.requests.None? && v.limits.None? && v.dedicated
    ensures DedicatedErrors(WithReserved(v)) == [] <==>
            Vcpus(v.sockets, v.cores) != 0 && (v.hugepages.Some? || v.size + OVERHEAD != 0.0)
  {
    ValueOfWhole(Vcpus(v.cores, v.sockets));
    assert v.sockets * v.cores == v.cores * v.sockets;
  }

  lemma HugepagesKeepDedicated(v: Vm)
    requires Get(v.requests, Memory) != 0.0 || !v.dedicated
    ensures DedicatedErrors(WithHugepages(v)) == DedicatedErrors(v)
  {
    if v.hugepages.Some? && v.dedicated {
      var w := WithHugepages(v);
      assert Get(w.requests, Cpu) == Get(v.requests, Cpu) && Get(w.requests, Memory) == Get(v.requests, Memory);
      assert Get(w.limits, Cpu) == Get(v.limits, Cpu) && Get(w.limits, Memory) == Get(v.limits, Memory);
    }
  }

  lemma HugepagesPass(v: Vm)
    requires v.hugepages.Some? ==> !Has(v.requests, Hugepages(v.hugepages.value)) && !Has(v.limits, Hugepages(v.hugepages.value))
    ensures HugepagesErrors(WithHugepages(v)) == []
  {
    if v.hugepages.Some? {
      var page := Hugepages(v.hugepages.value);
      var w := WithHugepages(v);
      assert Get(w.limits, page) == v.size && Get(w.requests, page) == v.size;
      assert !NoCpuNorMemory(w.requests, w.limits);
    }
  }

  /** A VM given without requests and limits passes all resource checks after it is filled in, exactly
      if, where its CPUs are dedicated, its CPU count does not wrap to zero and its memory size does not
      cancel the overhead. */
  lemma MutatedPassesIff(v: Vm)
    requires v.requests.None? && v.limits.None?
    ensures var w := WithResources(v);
            DedicatedErrors(w) + HugepagesErrors(w) == [] <==>
            (v.dedicated ==> Vcpus(OrOne(v.sockets), OrOne(v.cores)) != 0 && (v.hugepages.Some? || v.size != -OVERHEAD))
  {
    var d := WithDefaults(v);
    var r := WithReserved(d);
    var w := WithHugepages(r);
    if v.dedicated {
      ReservedPasses(d);
      if v.hugepages.Some? { assert Get(r.requests, Memory) == OVERHEAD; }
    }
    if v.hugepages.Some? || !v.dedicated { HugepagesKeepDedicated(r); }
    HugepagesPass(r);
  }

  /** 65536 sockets of 65536 cores: the count wraps to zero and the VM fails its own checks. */
  lemma WrappedCountFails(v: Vm)
    requires v.requests.None? && v.limits.None? && v.dedicated && v.sockets == v.cores == 65536
    ensures DedicatedErrors(WithResources(v)) != []
  {
    var d := WithDefaults(v);
    assert Vcpus(65536, 65536) == 0;
    assert Get(WithReserved(d).requests, Cpu) == 0.0;
    assert Get(WithResources(v).requests, Cpu) == 0.0;
  }

  /** So it passes whenever the memory size is positive or unset and the CPU count fits 32 bits. */
  lemma MutatedPasses(v: Vm)
    requires v.requests.None? && v.limits.None? && v.size >= 0.0 && v.sockets * v.cores < 0x1_0000_0000
    ensures DedicatedErrors(WithResources(v)) == [] && HugepagesErrors(WithResources(v)) == []
  {
    var sockets, cores := OrOne(v.sockets), OrOne(v.cores);
    assert 0 < sockets * cores < 0x1_0000_0000 by {
      if v.sockets == 0 {
        assert sockets * cores == cores;
      } else if v.cores == 0 {
        assert sockets * cores == sockets;
      } else {
        assert sockets >= 1 && cores >= 1;
      }
    }
    MutatedPassesIff(v);
  }
}
