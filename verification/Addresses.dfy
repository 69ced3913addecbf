/** The addresses of a masqueraded interface: the capacity check of pkg/controller/vm_webhook.go and
    the byte-wise increment of cmd/virt-prerunner/main.go. */
module Addresses {
  import opened Options

  type Byte = x: nat | x < 256 witness 0

  function Pow2(k: nat): (p: nat)
    ensures p > 0
  {
    if k == 0 then 1 else 2 * Pow2(k - 1)
  }

  /** One more byte at the end. */
  function Join(x: nat, y: Byte): nat {
    x * 256 + y
  }

  /** The number whose big-endian bytes these are. */
  function Big(s: seq<Byte>): nat {
    if s == [] then 0 else Join(Big(s[..|s| - 1]), s[|s| - 1])
  }

  lemma Pow2Eight(k: nat)
    ensures Pow2(k + 8) == 256 * Pow2(k)
  {
    assert Pow2(k + 2) == 4 * Pow2(k) && Pow2(k + 4) == 4 * Pow2(k + 2);
    assert Pow2(k + 6) == 4 * Pow2(k + 4) && Pow2(k + 8) == 4 * Pow2(k + 6);
  }

  lemma {:induction false} Pow2Add(a: nat, b: nat)
    ensures Pow2(a + b) == Pow2(a) * Pow2(b)
    decreases a
  {
    if a > 0 { Pow2Add(a - 1, b); }
  }

  lemma {:induction false} Pow2Grows(a: nat, b: nat)
    requires a <= b
    ensures Pow2(a) <= Pow2(b)
    decreases b
  {
    if a < b { Pow2Grows(a, b - 1); }
  }

  lemma {:induction false} BigBound(s: seq<Byte>)
    ensures Big(s) < Pow2(8 * |s|)
  {
    if s != [] {
      BigBound(s[..|s| - 1]);
      Pow2Eight(8 * (|s| - 1));
    }
  }

  /* ---------- the next address ---------- */

  function Increment(s: seq<Byte>): seq<Byte> {
    if s == [] then []
    else if s[|s| - 1] == 255 then Increment(s[..|s| - 1]) + [0]
    else s[..|s| - 1] + [s[|s| - 1] + 1]
  }

  /** Plus one, back to zero at m. */
  function PlusOne(x: nat, m: nat): nat {
    if x + 1 == m then 0 else x + 1
  }

  lemma PlusOneIsModulo(x: nat, y: nat, m: nat)
    requires x < m && y == PlusOne(x, m)
    ensures y == (x + 1) % m
  {
  }

  /** Big-endian plus one, modulo 256 to the number of bytes. */
  lemma {:induction false} IncrementAddsOne(s: seq<Byte>)
    ensures |Increment(s)| == |s|
    ensures Big(Increment(s)) == PlusOne(Big(s), Pow2(8 * |s|))
  {
    if s != [] {
      var init, next := s[..|s| - 1], Increment(s);
      BigBound(init);
      Pow2Eight(8 * (|s| - 1));
      if s[|s| - 1] == 255 {
        IncrementAddsOne(init);
        assert next[..|next| - 1] == Increment(init);
      } else {
        assert next[..|next| - 1] == init;
      }
    }
  }

  lemma IncrementIsModulo(s: seq<Byte>)
    ensures |Increment(s)| == |s|
    ensures Big(Increment(s)) == (Big(s) + 1) % Pow2(8 * |s|)
  {
    IncrementAddsOne(s);
    BigBound(s);
    PlusOneIsModulo(Big(s), Big(Increment(s)), Pow2(8 * |s|));
  }

  lemma CarryStep(s: seq<Byte>, j: nat, tail: seq<Byte>, b: Byte)
    requires j < |s|
    ensures (s[..j + 1] + tail)[j] == s[j]
    ensures (s[..j + 1] + tail)[j := b] == s[..j] + ([b] + tail)
    ensures s[j] == 255 ==> Increment(s[..j + 1]) + tail == Increment(s[..j]) + ([0] + tail)
    ensures s[j] < 255 ==> Increment(s[..j + 1]) + tail == s[..j] + ([s[j] + 1] + tail)
  {
    assert s[..j + 1][..j] == s[..j];
  }

  /** The loop of nextIP: the copy is incremented from its last byte on, the address itself is not. */
  method Next(ip: array<Byte>) returns (next: array<Byte>)
    ensures fresh(next) && next.Length == ip.Length && next[..] == Increment(ip[..])
  {
    next := new Byte[ip.Length](i requires 0 <= i < ip.Length reads ip => ip[i]);
    ghost var s: seq<Byte>, tail: seq<Byte> := ip[..], [];
    var j := ip.Length - 1;
    assert s[..j + 1] == s;
    while j >= 0
      invariant -1 <= j < |s| == next.Length
      invariant next[..] == s[..j + 1] + tail
      invariant Increment(s[..j + 1]) + tail == Increment(s)
    {
      var b := if next[j] == 255 then 0 else next[j] + 1;
      CarryStep(s, j, tail, b);
      assert next[..][j] == next[j];
      ghost var before := next[..];
      next[j] := b;
      assert next[..] == before[j := b];
      if next[j] > 0 { return; }
      tail := [b] + tail;
      j := j - 1;
    }
    assert s[..0] == [] && [] + tail == tail;
  }

  /* ---------- subnets ---------- */

  /** How many of the `host` low bits of an n-byte address lie in byte i. */
  function Low(n: nat, i: nat, host: nat): (k: nat)
    requires i < n
    ensures k <= 8
  {
    var k: int := host - 8 * (n - 1 - i);
    if k < 0 then 0 else if k > 8 then 8 else k
  }

  /** The number without its k low bits, which are dropped or cleared. */
  function Drop(x: nat, k: nat): nat
    decreases k
  {
    if k == 0 then x else Drop(x / 2, k - 1)
  }

  function Clear(x: nat, k: nat): (r: nat)
    ensures r <= x
    decreases k
  {
    if k == 0 then x else 2 * Clear(x / 2, k - 1)
  }

  predicate SameNetwork(a: seq<Byte>, b: seq<Byte>, host: nat)
    requires |a| == |b|
  {
    forall i :: 0 <= i < |a| ==> Clear(a[i], Low(|a|, i, host)) == Clear(b[i], Low(|a|, i, host))
  }

  lemma {:induction false} ClearIs(x: nat, k: nat)
    ensures Clear(x, k) == Drop(x, k) * Pow2(k)
    decreases k
  {
    if k > 0 { ClearIs(x / 2, k - 1); }
  }

  lemma {:induction false} ClearIff(x: nat, y: nat, k: nat)
    ensures Clear(x, k) == Clear(y, k) <==> Drop(x, k) == Drop(y, k)
    decreases k
  {
    if k > 0 { ClearIff(x / 2, y / 2, k - 1); }
  }

  lemma Double(x: nat, p: nat)
    ensures x * (2 * p) == 2 * (x * p)
  {
  }

  lemma Halve(x: nat, y: nat)
    ensures (2 * x + y) / 2 == x + y / 2
  {
  }

  lemma {:induction false} DropAdd(x: nat, y: nat, k: nat)
    ensures Drop(x * Pow2(k) + y, k) == x + Drop(y, k)
    decreases k
  {
    if k > 0 {
      Double(x, Pow2(k - 1));
      Halve(x * Pow2(k - 1), y);
      DropAdd(x, y / 2, k - 1);
    }
  }

  lemma {:induction false} DropTwice(x: nat, j: nat, k: nat)
    ensures Drop(x, j + k) == Drop(Drop(x, j), k)
    decreases j
  {
    if j > 0 { DropTwice(x / 2, j - 1, k); }
  }

  lemma {:induction false} DropBound(x: nat, j: nat, k: nat)
    requires x < Pow2(j + k)
    ensures Drop(x, k) < Pow2(j)
    decreases k
  {
    if k > 0 { DropBound(x / 2, j, k - 1); }
  }

  lemma DropOfByte(y: Byte)
    ensures Drop(y, 8) == 0
  {
    Pow2Eight(0);
    DropBound(y, 0, 8);
  }

  /** A whole byte and more of host bits. */
  lemma DropByte(x: nat, y: Byte, host: nat)
    requires host >= 8
    ensures Drop(Join(x, y), host) == Drop(x, host - 8)
  {
    DropTwice(Join(x, y), 8, host - 8);
    Pow2Eight(0);
    DropAdd(x, y, 8);
    DropOfByte(y);
  }

  lemma Regroup(x: nat, q: nat, p: nat)
    ensures x * q * p == x * (q * p)
  {
  }

  /** Fewer host bits than a byte has. */
  lemma DropBits(x: nat, y: Byte, host: nat)
    requires host < 8
    ensures Pow2(8 - host) * Pow2(host) == 256
    ensures Drop(y, host) < Pow2(8 - host)
    ensures Drop(Join(x, y), host) == x * Pow2(8 - host) + Drop(y, host)
  {
    Pow2Eight(0);
    Pow2Add(8 - host, host);
    Regroup(x, Pow2(8 - host), Pow2(host));
    DropAdd(x * Pow2(8 - host), y, host);
    DropBound(y, 8 - host, host);
  }

  lemma SplitUnique(x: nat, t: nat, y: nat, u: nat, q: nat)
    requires t < q && u < q && x * q + t == y * q + u
    ensures x == y && t == u
  {
    assert x < y ==> (x + 1) * q <= y * q;
    assert y < x ==> (y + 1) * q <= x * q;
  }

  lemma DropBitsIff(x: nat, t: Byte, y: nat, u: Byte, host: nat)
    requires host < 8
    ensures Drop(Join(x, t), host) == Drop(Join(y, u), host) <==> x == y && Drop(t, host) == Drop(u, host)
  {
    DropBits(x, t, host);
    DropBits(y, u, host);
    if Drop(Join(x, t), host) == Drop(Join(y, u), host) {
      SplitUnique(x, Drop(t, host), y, Drop(u, host), Pow2(8 - host));
    }
  }

  lemma Distribute(x: nat, q: nat, t: nat, p: nat)
    ensures (x * q + t) * p == x * (q * p) + t * p
  {
  }

  lemma Shift(x: nat, p: nat)
    ensures x * (256 * p) == x * p * 256
  {
  }

  lemma ClearByte(x: nat, y: Byte, host: nat)
    requires host >= 8
    ensures Clear(Join(x, y), host) == Clear(x, host - 8) * 256
  {
    ClearIs(Join(x, y), host);
    ClearIs(x, host - 8);
    DropByte(x, y, host);
    Pow2Eight(host - 8);
    Shift(Drop(x, host - 8), Pow2(host - 8));
  }

  lemma ClearBits(x: nat, y: Byte, host: nat)
    requires host < 8
    ensures Clear(Join(x, y), host) == x * 256 + Clear(y, host)
  {
    ClearIs(Join(x, y), host);
    ClearIs(y, host);
    DropBits(x, y, host);
    Distribute(x, Pow2(8 - host), Drop(y, host), Pow2(host));
  }

  /** The host bits left for the bytes before the last. */
  function Before(host: nat): nat {
    if host >= 8 then host - 8 else 0
  }

  lemma LowShifts(n: nat, i: nat, host: nat)
    requires i < n
    ensures i < n - 1 ==> Low(n, i, host) == Low(n - 1, i, Before(host))
    ensures i == n - 1 ==> Low(n, i, host) == if host >= 8 then 8 else host
  {
  }

  lemma SameNetworkStep(a: seq<Byte>, b: seq<Byte>, host: nat)
    requires |a| == |b| > 0
    ensures var n := |a| - 1;
            SameNetwork(a, b, host) <==>
            SameNetwork(a[..n], b[..n], Before(host)) && (host < 8 ==> Drop(a[n], host) == Drop(b[n], host))
  {
    var n := |a| - 1;
    forall i | 0 <= i <= n
      ensures i < n ==> Low(|a|, i, host) == Low(n, i, Before(host)) && a[..n][i] == a[i] && b[..n][i] == b[i]
    {
      LowShifts(|a|, i, host);
    }
    LowShifts(|a|, n, host);
    ClearIff(a[n], b[n], Low(|a|, n, host));
    DropOfByte(a[n]);
    DropOfByte(b[n]);
  }

  /** The same, from the last byte on. */
  predicate SameFromEnd(a: seq<Byte>, b: seq<Byte>, host: nat)
    requires |a| == |b|
    decreases |a|
  {
    a == [] ||
    var n := |a| - 1;
    SameFromEnd(a[..n], b[..n], Before(host)) && (host < 8 ==> Drop(a[n], host) == Drop(b[n], host))
  }

  lemma {:induction false} SameFromEndIff(a: seq<Byte>, b: seq<Byte>, host: nat)
    requires |a| == |b|
    ensures SameFromEnd(a, b, host) <==> SameNetwork(a, b, host)
    decreases |a|
  {
    if a != [] {
      SameNetworkStep(a, b, host);
      SameFromEndIff(a[..|a| - 1], b[..|a| - 1], Before(host));
    }
  }

  lemma {:induction false} SameDropIff(a: seq<Byte>, b: seq<Byte>, host: nat)
    requires |a| == |b|
    ensures SameFromEnd(a, b, host) <==> Drop(Big(a), host) == Drop(Big(b), host)
    decreases |a|
  {
    if a != [] {
      var n := |a| - 1;
      SameDropIff(a[..n], b[..n], Before(host));
      if host >= 8 {
        DropByte(Big(a[..n]), a[n], host);
        DropByte(Big(b[..n]), b[n], host);
      } else {
        DropBitsIff(Big(a[..n]), a[n], Big(b[..n]), b[n], host);
      }
    }
  }

  /** Comparing byte by byte under the mask compares the numbers without their host bits. */
  lemma SameNetworkIff(a: seq<Byte>, b: seq<Byte>, host: nat)
    requires |a| == |b|
    ensures SameNetwork(a, b, host) <==> Drop(Big(a), host) == Drop(Big(b), host)
  {
    SameFromEndIff(a, b, host);
    SameDropIff(a, b, host);
  }

  /* ---------- the network of an address ---------- */

  function Masked(a: seq<Byte>, host: nat): seq<Byte> {
    seq(|a|, i requires 0 <= i < |a| => Clear(a[i], Low(|a|, i, host)))
  }

  /** Masking clears the host bits of the number. */
  lemma {:induction false} MaskedIs(a: seq<Byte>, host: nat)
    ensures Big(Masked(a, host)) == Clear(Big(a), host)
    decreases |a|
  {
    if a == [] {
      DropZero(host);
    } else {
      var n := |a| - 1;
      var m := Masked(a, host);
      MaskedInit(a, host);
      MaskedIs(a[..n], Before(host));
      if host >= 8 {
        ClearByte(Big(a[..n]), a[n], host);
        ClearIs(a[n], 8);
        DropOfByte(a[n]);
      } else {
        ClearBits(Big(a[..n]), a[n], host);
      }
    }
  }

  lemma MaskedInit(a: seq<Byte>, host: nat)
    requires a != []
    ensures var n := |a| - 1;
            && Masked(a, host)[..n] == Masked(a[..n], Before(host))
            && Masked(a, host)[n] == Clear(a[n], if host >= 8 then 8 else host)
  {
    var n := |a| - 1;
    forall i | 0 <= i < n ensures Masked(a, host)[i] == Masked(a[..n], Before(host))[i] {
      LowShifts(|a|, i, host);
    }
    LowShifts(|a|, n, host);
  }

  lemma {:induction false} DropZero(k: nat)
    ensures Drop(0, k) == 0 && Clear(0, k) == 0
  {
    if k > 0 { DropZero(k - 1); }
  }

  lemma {:induction false} DropRange(x: nat, k: nat)
    ensures Drop(x, k) * Pow2(k) <= x < (Drop(x, k) + 1) * Pow2(k)
    decreases k
  {
    if k > 0 {
      DropRange(x / 2, k - 1);
      Double(Drop(x / 2, k - 1), Pow2(k - 1));
      Double(Drop(x / 2, k - 1) + 1, Pow2(k - 1));
    }
  }

  lemma QuotientIff(x: nat, e: nat, d: nat, p: nat)
    requires e * p <= x < (e + 1) * p
    ensures e == d <==> d * p <= x < (d + 1) * p
  {
    assert e < d ==> (e + 1) * p <= d * p;
    assert d < e ==> (d + 1) * p <= e * p;
  }

  lemma DropIff(x: nat, k: nat, d: nat)
    ensures Drop(x, k) == d <==> d * Pow2(k) <= x < d * Pow2(k) + Pow2(k)
  {
    DropRange(x, k);
    QuotientIff(x, Drop(x, k), d, Pow2(k));
  }

  /** An address is in the network of another exactly if it lies between its first and last. */
  lemma InNetworkIff(a: seq<Byte>, x: seq<Byte>, host: nat)
    requires |a| == |x|
    ensures SameNetwork(Masked(a, host), x, host) <==>
            Big(Masked(a, host)) <= Big(x) < Big(Masked(a, host)) + Pow2(host)
  {
    var net := Masked(a, host);
    var d := Drop(Big(a), host);
    MaskedIs(a, host);
    ClearIs(Big(a), host);
    SameNetworkIff(net, x, host);
    DropIff(Big(net), host, d);
    DropIff(Big(x), host, d);
  }

  lemma NetworkFits(a: seq<Byte>, host: nat)
    requires host <= 8 * |a|
    ensures Big(Masked(a, host)) + Pow2(host) <= Pow2(8 * |a|)
  {
    MaskedIs(a, host);
    BigBound(a);
    ClearFits(Big(a), 8 * |a| - host, host);
  }

  lemma ClearFits(x: nat, j: nat, k: nat)
    requires x < Pow2(j + k)
    ensures Clear(x, k) + Pow2(k) <= Pow2(j + k)
  {
    ClearIs(x, k);
    DropBound(x, j, k);
    Pow2Add(j, k);
    ScaleUp(Drop(x, k), Pow2(j), Pow2(k));
  }

  lemma ScaleUp(d: nat, q: nat, p: nat)
    requires d < q
    ensures d * p + p <= q * p
  {
    assert (d + 1) * p <= q * p;
  }

  /* ---------- the capacity check ---------- */

  /** A parsed CIDR: the bytes of the address and the number of leading one bits of the mask. */
  datatype Subnet = Subnet(address: seq<Byte>, ones: nat)

  datatype Error = Required | Invalid | NoSubnet | TooSmall

  /** 1 shifted left in a signed 64-bit integer. */
  function ShiftedOne(k: nat): int {
    if k >= 64 then 0 else if k == 63 then 0 - Pow2(63) else Pow2(k)
  }

  /** ValidateCIDR; `parsed` is what the CIDR text parses to. */
  method ValidateCIDR(empty: bool, parsed: Option<Subnet>, capacity: int) returns (errors: seq<Error>)
    requires parsed.Some? ==> parsed.value.ones <= 8 * |parsed.value.address|
    ensures errors == [] <==>
            !empty && parsed.Some? && ShiftedOne(8 * |parsed.value.address| - parsed.value.ones) >= capacity
  {
    errors := [];
    if empty { return [Required]; }
    if parsed.None? {
      errors := errors + [Invalid];
      errors := errors + [NoSubnet];
    } else {
      var bits, ones := 8 * |parsed.value.address|, parsed.value.ones;
      if ShiftedOne(bits - ones) < capacity { errors := errors + [TooSmall]; }
    }
  }

  /** With the capacity of 4 that a masqueraded interface asks for. */
  lemma FourFitIff(host: nat)
    ensures ShiftedOne(host) >= 4 <==> 2 <= host <= 62
    ensures ShiftedOne(host) >= 4 ==> Pow2(host) >= 4
  {
    if 2 <= host < 63 {
      Pow2Grows(2, host);
      assert Pow2(2) == 4;
    }
    assert Pow2(0) == 1 && Pow2(1) == 2;
  }

  /* ---------- the bridge and the VM ---------- */

  method Contains(net: seq<Byte>, ip: array<Byte>, host: nat) returns (r: bool)
    requires |net| == ip.Length
    ensures r <==> SameNetwork(net, ip[..], host)
  {
    for i := 0 to |net|
      invariant forall j :: 0 <= j < i ==> Clear(net[j], Low(|net|, j, host)) == Clear(ip[j], Low(|net|, j, host))
    {
      if Clear(net[i], Low(|net|, i, host)) != Clear(ip[i], Low(|net|, i, host)) {
        assert ip[..][i] == ip[i];
        return false;
      }
    }
    r := true;
  }

  /** nextIP: the next address if it is still in the subnet. */
  method NextIP(ip: array<Byte>, net: seq<Byte>, host: nat) returns (ok: bool, next: array<Byte>)
    requires |net| == ip.Length
    ensures fresh(next) && next.Length == ip.Length && next[..] == Increment(ip[..])
    ensures ok <==> SameNetwork(net, next[..], host)
  {
    next := Next(ip);
    ok := Contains(net, next, host);
  }

  lemma Succeeds(a: seq<Byte>, x: seq<Byte>, host: nat, k: nat)
    requires |a| == |x| > 0 && host <= 8 * |a| && k <= 1
    requires Big(x) == Big(Masked(a, host)) + k && k < Pow2(host)
    ensures |Increment(x)| == |x|
    ensures SameNetwork(Masked(a, host), Increment(x), host) <==> k + 1 < Pow2(host)
    ensures k + 1 < Pow2(host) ==> Big(Increment(x)) == Big(Masked(a, host)) + k + 1
  {
    IncrementAddsOne(x);
    InNetworkIff(a, Increment(x), host);
    NetworkFits(a, host);
    BigBound(x);
    Pow2Grows(8, 8 * |a|);
    Pow2Eight(0);
  }

  /** The two addresses after the network itself. */
  lemma TwoAddresses(a: seq<Byte>, host: nat)
    requires a != [] && host <= 8 * |a|
    ensures var net := Masked(a, host);
            var bridge := Increment(net);
            var vm := Increment(bridge);
            && |bridge| == |vm| == |a|
            && (SameNetwork(net, bridge, host) && SameNetwork(net, vm, host) <==> host >= 2)
            && (SameNetwork(net, bridge, host) <==> host >= 1)
            && (host >= 2 ==> Big(bridge) == Big(net) + 1 && Big(vm) == Big(net) + 2 && Big(vm) < Big(net) + Pow2(host) - 1)
  {
    var net := Masked(a, host);
    assert Pow2(0) == 1 && Pow2(1) == 2 && Pow2(2) == 4;
    if host >= 2 { Pow2Grows(2, host); }
    Succeeds(a, net, host, 0);
    IncrementAddsOne(Increment(net));
    if host >= 1 {
      Pow2Grows(1, host);
      Succeeds(a, Increment(net), host, 1);
    }
  }

  /** The addresses set up for a masqueraded interface: the bridge gets the first address after the
      network itself and the VM the one after that, and this works exactly with two host bits or more. */
  method MasqueradeAddresses(address: array<Byte>, host: nat) returns (ok: bool, bridge: array<Byte>, vm: array<Byte>)
    requires address.Length > 0 && host <= 8 * address.Length
    ensures ok <==> host >= 2
    ensures ok ==>
              var first := Big(Masked(address[..], host));
              && Big(bridge[..]) == first + 1 && Big(vm[..]) == first + 2
              && Big(vm[..]) < first + Pow2(host) - 1
              && bridge.Length == vm.Length == address.Length
              && SameNetwork(address[..], bridge[..], host) && SameNetwork(address[..], vm[..], host)
  {
    ghost var a := address[..];
    var net := Masked(address[..], host);
    var start := new Byte[|net|](i requires 0 <= i < |net| => net[i]);
    assert start[..] == net;
    TwoAddresses(a, host);
    ok, bridge := NextIP(start, net, host);
    vm := bridge;
    if !ok { return; }
    ok, vm := NextIP(bridge, net, host);
    SameAsMasked(a, bridge[..], host);
    SameAsMasked(a, vm[..], host);
  }

  lemma SameAsMasked(a: seq<Byte>, x: seq<Byte>, host: nat)
    requires |a| == |x|
    ensures SameNetwork(Masked(a, host), x, host) <==> SameNetwork(a, x, host)
  {
    InNetworkIff(a, x, host);
    SameNetworkIff(a, x, host);
    MaskedIs(a, host);
    ClearIs(Big(a), host);
    DropIff(Big(x), host, Drop(Big(a), host));
  }

  /** Every CIDR that is admitted for a masqueraded interface leaves room for both addresses before
      the last address of the subnet, which is still an address. */
  lemma AdmittedHasRoom(address: seq<Byte>, host: nat)
    requires host <= 8 * |address| && ShiftedOne(host) >= 4
    ensures 2 <= host <= 62
    ensures var first := Big(Masked(address, host));
            var last := first + Pow2(host) - 1;
            first + 2 < last < Pow2(8 * |address|)
  {
    FourFitIff(host);
    NetworkFits(address, host);
  }
}
