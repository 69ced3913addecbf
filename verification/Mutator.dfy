/** MutateVM and the resource checks as the webhook runs them. Requests and limits are lists on the
    heap; where both are missing, one new list becomes both. */
module Mutator {
  import opened Options
  import opened Specs
  import opened Mutation

  class ResourceList {
    var entries: Quantities

    constructor (entries: Quantities)
      ensures this.entries == entries
    {
      this.entries := entries;
    }

    method Set(r: Resource, q: real)
      modifies this
      ensures entries == old(entries)[r := q]
    {
      entries := entries[r := q];
    }
  }

  function Entries(list: ResourceList?): Option<Quantities>
    reads list
  {
    if list == null then None else Some(list.entries)
  }

  class VmObject {
    var policy: Option<RunPolicy>
    var sockets: Word
    var cores: Word
    var dedicated: bool
    var size: real
    var hugepages: Option<nat>
    var requests: ResourceList?
    var limits: ResourceList?
    var interfaces: seq<Interface>

    function View(): Vm
      reads this, requests, limits
    {
      Vm(policy, sockets, cores, dedicated, size, hugepages, Entries(requests), Entries(limits), interfaces)
    }

    /** MutateVM, with the interfaces of the old VM if there is one. */
    method Mutate(old_: seq<Interface>, supply: seq<Mac>) returns (ok: bool)
      requires requests == null || requests != limits
      modifies this, requests, limits
      ensures ok <==> Mutated(old(View()), old_, supply).Some?
      ensures ok ==> View() == Mutated(old(View()), old_, supply).value
    {
      FillDefaults();
      FillReserved();
      FillHugepages();
      assert View() == WithResources(old(View()));
      ok := FillInterfaces(old_, supply);
    }

    method FillDefaults()
      modifies this`policy, this`sockets, this`cores, this`size
      ensures View() == WithDefaults(old(View()))
    {
      if policy.None? { policy := Some(Once); }
      if sockets == 0 { sockets := 1; }
      if cores == 0 { cores := 1; }
      if size == 0.0 {
        if Get(Entries(requests), Memory) != 0.0 {
          size := Get(Entries(requests), Memory);
        } else {
          size := DEFAULT_SIZE;
        }
      }
    }

    method FillReserved()
      requires requests == null || requests != limits
      modifies this`requests, this`limits, requests, limits
      ensures View() == WithReserved(old(View()))
      ensures requests == old(requests) || fresh(requests)
      ensures limits == old(limits) || fresh(limits)
      ensures requests != null && requests == limits ==>
                dedicated && requests.entries == Reserved(old(View()))
    {
      if !dedicated { return; }
      var memory := OVERHEAD;
      if size != 0.0 && hugepages.None? { memory := memory + size; }
      var reserved := map[Cpu := Vcpus(cores, sockets) as real, Memory := memory];
      var list := new ResourceList(reserved);
      if requests == null {
        requests := list;
      } else {
        FillList(requests, reserved);
      }
      if limits == null {
        limits := list;
      } else {
        FillList(limits, reserved);
      }
    }

    method FillHugepages()
      requires requests != null && requests == limits && hugepages.Some? ==> Get(Entries(requests), Memory) != 0.0
      modifies this`requests, this`limits, requests, limits
      ensures View() == WithHugepages(old(View()))
    {
      if hugepages.None? { return; }
      var page := Hugepages(hugepages.value);
      if limits == null { limits := new ResourceList(map[]); }
      if page !in limits.entries { limits.Set(page, size); }
      var limit := limits.entries[page];
      if requests == null { requests := new ResourceList(map[]); }
      if page !in requests.entries { requests.Set(page, limit); }
      if NoCpuNorMemory(Entries(requests), Entries(limits)) {
        requests.Set(Memory, OVERHEAD);
      }
    }

    method FillInterfaces(old_: seq<Interface>, supply: seq<Mac>) returns (ok: bool)
      modifies this`interfaces
      ensures ok <==> WithMacs(old(interfaces), old_, supply).Some?
      ensures ok ==> interfaces == WithMacs(old(interfaces), old_, supply).value
    {
      var left := supply;
      ghost var was, done := interfaces, [];
      ghost var all := WithMacs(was, old_, supply);
      for i := 0 to |interfaces|
        invariant |interfaces| == |was| && |done| == i && interfaces == done + was[i..]
        invariant WithMacs(was[i..], old_, left).Some? <==> all.Some?
        invariant all.Some? ==> done + WithMacs(was[i..], old_, left).value == all.value
      {
        assert was[i..][1..] == was[i + 1..] && interfaces[i] == was[i];
        var mac := interfaces[i].mac;
        if mac == 0 {
          mac := FindMac(old_, interfaces[i].name);
          if mac == 0 {
            if left == [] { return false; }
            mac, left := left[0], left[1..];
          }
        }
        var binding := interfaces[i].binding;
        if !binding.bridge && binding.masquerade.None? && !binding.sriov && !binding.vdpa && !binding.vhostUser {
          binding := Binding(true, None, false, false, false);
        }
        if binding.masquerade.Some? && binding.masquerade.value == "" {
          binding := binding.(masquerade := Some(DEFAULT_CIDR));
        }
        var next := Interface(interfaces[i].name, mac, binding);
        Advance(done, was, i, next);
        if all.Some? { Associates(done, [next], WithMacs(was[i + 1..], old_, left).value); }
        interfaces, done := interfaces[i := next], done + [next];
      }
      ok := true;
    }
  }

  lemma Advance(done: seq<Interface>, was: seq<Interface>, i: nat, next: Interface)
    requires |done| == i < |was|
    ensures (done + was[i..])[i := next] == done + [next] + was[i + 1..]
  {
  }

  method FillList(list: ResourceList, reserved: Quantities)
    requires Cpu in reserved && Memory in reserved
    modifies list
    ensures list.entries == Filled(Some(old(list.entries)), reserved)
  {
    if Get(Some(list.entries), Cpu) == 0.0 { list.Set(Cpu, reserved[Cpu]); }
    if Get(Some(list.entries), Memory) == 0.0 { list.Set(Memory, reserved[Memory]); }
  }

  method FindMac(interfaces: seq<Interface>, name: nat) returns (mac: Mac)
    ensures mac == MacOf(interfaces, name)
  {
    for i := 0 to |interfaces|
      invariant MacOf(interfaces[i..], name) == MacOf(interfaces, name)
    {
      assert interfaces[i..][1..] == interfaces[i + 1..];
      if interfaces[i].name == name { return interfaces[i].mac; }
    }
    mac := 0;
  }

  /** The resource part of ValidateVMSpec. */
  method CheckResources(v: Vm) returns (errors: seq<Error>)
    ensures errors == DedicatedErrors(v) + HugepagesErrors(v)
  {
    errors := [];
    if v.dedicated {
      var cpu := CheckCpu(v);
      var memory := CheckMemory(v);
      errors := cpu + memory;
    }
    var more := CheckHugepages(v);
    errors := errors + more;
  }

  method CheckCpu(v: Vm) returns (errors: seq<Error>)
    ensures errors == CpuErrors(v)
  {
    errors := [];
    if Get(v.requests, Cpu) == 0.0 {
      errors := errors + [Required(REQUESTS, Cpu)];
    } else if Value(Get(v.requests, Cpu)) != Vcpus(v.sockets, v.cores) {
      errors := errors + [Invalid(REQUESTS, Cpu)];
    }
    if Get(v.limits, Cpu) == 0.0 {
      errors := errors + [Required(LIMITS, Cpu)];
    } else if Get(v.limits, Cpu) != Get(v.requests, Cpu) {
      errors := errors + [Invalid(LIMITS, Cpu)];
    }
  }

  method CheckMemory(v: Vm) returns (errors: seq<Error>)
    ensures errors == MemoryErrors(v)
  {
    errors := [];
    var needed := OVERHEAD;
    if v.hugepages.None? { needed := needed + v.size; }
    if Get(v.requests, Memory) == 0.0 {
      errors := errors + [Required(REQUESTS, Memory)];
    } else if Get(v.requests, Memory) < needed {
      errors := errors + [Invalid(REQUESTS, Memory)];
    }
    if Get(v.limits, Memory) == 0.0 {
      errors := errors + [Required(LIMITS, Memory)];
    } else if Get(v.limits, Memory) != Get(v.requests, Memory) {
      errors := errors + [Invalid(LIMITS, Memory)];
    }
  }

  method CheckHugepages(v: Vm) returns (errors: seq<Error>)
    ensures errors == HugepagesErrors(v)
  {
    errors := [];
    if v.hugepages.None? { return; }
    var page := Hugepages(v.hugepages.value);
    if NoCpuNorMemory(v.requests, v.limits) {
      errors := errors + [HugepagesAlone];
    }
    var request := Get(v.requests, page);
    if !Has(v.requests, page) {
      errors := errors + [Required(REQUESTS, page)];
    } else if request != v.size {
      errors := errors + [Invalid(REQUESTS, page)];
    }
    if !Has(v.limits, page) {
      errors := errors + [Required(LIMITS, page)];
    } else if Get(v.limits, page) != request {
      errors := errors + [Invalid(LIMITS, page)];
    }
  }
}
