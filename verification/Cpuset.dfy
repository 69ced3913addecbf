/** pkg/cpuset/cpuset.go: the list format of a CPU set, and cmd/virt-prerunner/main.go: pinning the
    vCPUs of a VM with dedicated CPUs onto it. */
module Cpuset {
  import opened Options
  import opened Specs

  const MAX: int := 0x7FFF_FFFF_FFFF_FFFF
  const MIN: int := -0x8000_0000_0000_0000

  /* ---------- numbers ---------- */

  predicate IsDigit(c: char) {
    '0' <= c <= '9'
  }

  predicate AllDigits(s: string) {
    forall i :: 0 <= i < |s| ==> IsDigit(s[i])
  }

  function Digits(s: string): nat
    requires AllDigits(s)
  {
    if s == "" then 0 else 10 * Digits(s[..|s| - 1]) + (s[|s| - 1] as int - '0' as int)
  }

  /** A decimal number with an optional sign that fits 64 bits. */
  function Atoi(s: string): (r: Option<int>)
    ensures r.Some? ==> MIN <= r.value <= MAX
    ensures r.Some? && '-' !in s ==> r.value >= 0
  {
    var signed := s != "" && (s[0] == '-' || s[0] == '+');
    var digits := if signed then s[1..] else s;
    if digits == "" || !AllDigits(digits) then None
    else
      var v: int := if signed && s[0] == '-' then -(Digits(digits) as int) else Digits(digits);
      if MIN <= v <= MAX then Some(v) else None
  }

  /* ---------- splitting ---------- */

  function Find(s: string, c: char): (k: nat)
    ensures k <= |s|
    ensures c !in s[..k]
    ensures k < |s| ==> s[k] == c
  {
    if s == "" then 0 else if s[0] == c then 0 else
      var k := Find(s[1..], c);
      assert s[..k + 1] == [s[0]] + s[1..][..k];
      k + 1
  }

  function Split(s: string): seq<string>
    decreases |s|
  {
    var k := Find(s, ',');
    if k == |s| then [s] else [s[..k]] + Split(s[k + 1..])
  }

  function Joined(ps: seq<string>): string {
    if ps == [] then "" else if |ps| == 1 then ps[0] else ps[0] + "," + Joined(ps[1..])
  }

  predicate NoCommas(ps: seq<string>) {
    forall i :: 0 <= i < |ps| ==> ',' !in ps[i]
  }

  lemma {:induction false} SplitJoins(s: string)
    ensures Joined(Split(s)) == s && NoCommas(Split(s)) && Split(s) != []
    decreases |s|
  {
    var k := Find(s, ',');
    if k < |s| {
      SplitJoins(s[k + 1..]);
      assert Split(s)[1..] == Split(s[k + 1..]);
      assert s == s[..k] + "," + s[k + 1..];
    } else {
      assert s[..k] == s;
    }
  }

  lemma FindAt(s: string, c: char, k: nat)
    requires k <= |s| && c !in s[..k] && (k < |s| ==> s[k] == c)
    ensures Find(s, c) == k
  {
    var f := Find(s, c);
    forall i | 0 <= i < k ensures s[i] != c {
      assert s[..k][i] == s[i];
    }
    forall i | 0 <= i < f ensures s[i] != c {
      assert s[..f][i] == s[i];
    }
  }

  lemma {:induction false} SplitOfJoined(ps: seq<string>)
    requires ps != [] && NoCommas(ps)
    ensures Split(Joined(ps)) == ps
    decreases |ps|
  {
    var s := Joined(ps);
    assert ',' !in ps[0];
    if |ps| == 1 {
      assert s[..|s|] == s;
      FindAt(s, ',', |s|);
    } else {
      var k := |ps[0]|;
      assert s[..k] == ps[0] && s[k] == ',' && s[k + 1..] == Joined(ps[1..]);
      FindAt(s, ',', k);
      SplitOfJoined(ps[1..]);
    }
  }

  /* ---------- the loop over a range ---------- */

  /** How often a loop variable can be incremented before it is back where it was. */
  const CYCLE: nat := 0x1_0000_0000_0000_0000

  /** The increment of a signed 64-bit integer. */
  function Step(e: int): int {
    if e == MAX then MIN else e + 1
  }

  /** The loop variable after k increments. */
  function At(start: int, k: nat): int {
    if k == 0 then start else Step(At(start, k - 1))
  }

  /** The loop from start, as long as its variable is not above end, comes to its end. */
  ghost predicate Ends(start: int, end: int) {
    exists k: nat :: At(start, k) > end
  }

  lemma {:induction false} AtFits(start: int, k: nat)
    requires MIN <= start <= MAX
    ensures MIN <= At(start, k) <= MAX
  {
    if k > 0 { AtFits(start, k - 1); }
  }

  lemma {:induction false} AtClimbs(start: int, k: nat)
    requires start + k <= MAX
    ensures At(start, k) == start + k
  {
    if k > 0 { AtClimbs(start, k - 1); }
  }

  /** The loop comes to its end exactly if the range ends below the largest integer. */
  lemma LoopEndsIff(start: int, end: int)
    requires MIN <= start <= end <= MAX
    ensures Ends(start, end) <==> end < MAX
  {
    if end < MAX {
      AtClimbs(start, end - start + 1);
      assert At(start, end - start + 1) > end;
    } else {
      forall k: nat ensures At(start, k) <= end {
        AtFits(start, k);
      }
    }
  }

  /** The values the loop variable has had before increment k. */
  function Visited(start: int, k: nat): set<int> {
    if k == 0 then {} else Visited(start, k - 1) + {At(start, k - 1)}
  }

  lemma {:induction false} VisitedClimbs(start: int, k: nat)
    requires start + k <= MAX
    ensures Visited(start, k) == Interval(start, start + k - 1)
  {
    if k > 0 {
      VisitedClimbs(start, k - 1);
      AtClimbs(start, k - 1);
    }
  }

  /** A loop that ends does so after its variable has had exactly the values of the range. */
  lemma LoopVisits(start: int, end: int)
    requires MIN <= start <= end <= MAX && Ends(start, end)
    ensures var k: nat := end - start + 1;
            && At(start, k) > end && (forall j: nat :: j < k ==> At(start, j) <= end)
            && Visited(start, k) == Interval(start, end)
  {
    LoopEndsIff(start, end);
    forall k: nat | k <= end - start + 1 ensures At(start, k) == start + k {
      AtClimbs(start, k);
    }
    VisitedClimbs(start, end - start + 1);
  }

  /** Within one cycle the loop is either done or will never be. */
  method AddRange(cpus: set<int>, start: int, end: int) returns (done: bool, r: set<int>)
    requires MIN <= start <= end <= MAX
    ensures done <==> Ends(start, end)
    ensures done ==> r == cpus + Interval(start, end)
  {
    LoopEndsIff(start, end);
    r := cpus;
    var e, k := start, 0;
    while e <= end && k < CYCLE
      invariant k <= CYCLE && e == At(start, k)
      invariant end < MAX ==> e == start + k && e <= end + 1 && r == cpus + Interval(start, e - 1)
      decreases CYCLE - k
    {
      assert end < MAX ==> Interval(start, e) == Interval(start, e - 1) + {e};
      r := r + {e};
      e, k := Step(e), k + 1;
    }
    AtFits(start, k);
    done := e > end;
  }

  /* ---------- the list format ---------- */

  /** What one piece of the list says; the loop over an endless one is never done. */
  datatype Piece = Bad | Endless | Range(lo: int, hi: int)

  ghost function PieceOf(s: string): (p: Piece)
    ensures p.Range? ==> 0 <= p.lo <= p.hi <= MAX
  {
    var k := Find(s, '-');
    if k == |s| then
      assert s[..k] == s;
      var v := Atoi(s);
      if v.None? then Bad else Range(v.value, v.value)
    else
      var lo, hi := Atoi(s[..k]), Atoi(s[k + 1..]);
      if lo.None? || hi.None? || lo.value > hi.value then Bad
      else if !Ends(lo.value, hi.value) then Endless
      else Range(lo.value, hi.value)
  }

  datatype Outcome = Rejected | Diverges | Accepted(cpus: set<int>)

  function Interval(lo: int, hi: int): (r: set<int>)
    ensures forall x :: x in r <==> lo <= x <= hi
    decreases hi - lo + 1
  {
    if lo > hi then {} else Interval(lo, hi - 1) + {hi}
  }

  ghost function Collect(ps: seq<string>, cpus: set<int>): Outcome
    decreases |ps|
  {
    if ps == [] then Accepted(cpus)
    else
      match PieceOf(ps[0])
      case Bad => Rejected
      case Endless => Diverges
      case Range(lo, hi) => Collect(ps[1..], cpus + Interval(lo, hi))
  }

  ghost function Parsed(s: string): Outcome {
    if s == "" then Accepted({}) else Collect(Split(s), {})
  }

  method SplitOnComma(s: string) returns (ps: seq<string>)
    ensures ps == Split(s)
  {
    ps := [];
    var rest := s;
    var k := FindIndex(rest, ',');
    while k < |rest|
      invariant k == Find(rest, ',')
      invariant ps + Split(rest) == Split(s)
      decreases |rest|
    {
      Associates(ps, [rest[..k]], Split(rest[k + 1..]));
      ps := ps + [rest[..k]];
      rest := rest[k + 1..];
      k := FindIndex(rest, ',');
    }
    ps := ps + [rest];
  }

  method FindIndex(s: string, c: char) returns (k: nat)
    ensures k == Find(s, c)
  {
    k := 0;
    while k < |s| && s[k] != c
      invariant k <= |s| && c !in s[..k]
    {
      assert s[..k + 1] == s[..k] + [s[k]];
      k := k + 1;
    }
    FindAt(s, c, k);
  }

  /** Parse. */
  method Parse(s: string) returns (r: Outcome)
    ensures r == Parsed(s)
  {
    if s == "" { return Accepted({}); }
    var cpus: set<int> := {};
    var pieces := SplitOnComma(s);
    for i := 0 to |pieces|
      invariant Collect(pieces[i..], cpus) == Collect(pieces, {})
    {
      assert pieces[i..][1..] == pieces[i + 1..];
      var piece := pieces[i];
      var k := FindIndex(piece, '-');
      if k == |piece| {
        var elem := Atoi(piece);
        if elem.None? { return Rejected; }
        assert Interval(elem.value, elem.value) == {elem.value};
        cpus := cpus + {elem.value};
      } else {
        var start, end := Atoi(piece[..k]), Atoi(piece[k + 1..]);
        if start.None? { return Rejected; }
        if end.None? { return Rejected; }
        if start.value > end.value { return Rejected; }
        var done;
        done, cpus := AddRange(cpus, start.value, end.value);
        if !done { return Diverges; }
      }
    }
    r := Accepted(cpus);
  }

  predicate Covers(p: Piece, x: int) {
    p.Range? && p.lo <= x <= p.hi
  }

  ghost predicate AllRanges(ps: seq<string>) {
    forall i :: 0 <= i < |ps| ==> PieceOf(ps[i]).Range?
  }

  ghost predicate Covered(ps: seq<string>, x: int) {
    exists i :: 0 <= i < |ps| && Covers(PieceOf(ps[i]), x)
  }

  lemma CoveredStep(ps: seq<string>, x: int)
    requires ps != []
    ensures Covered(ps, x) <==> Covers(PieceOf(ps[0]), x) || Covered(ps[1..], x)
  {
    assert forall i :: 1 <= i < |ps| ==> ps[i] == ps[1..][i - 1];
  }

  lemma {:induction false} CollectIs(ps: seq<string>, cpus: set<int>)
    ensures Collect(ps, cpus).Accepted? <==> AllRanges(ps)
    ensures Collect(ps, cpus).Accepted? ==>
              forall x :: x in Collect(ps, cpus).cpus <==> x in cpus || Covered(ps, x)
    decreases |ps|
  {
    if ps != [] {
      var p := PieceOf(ps[0]);
      assert AllRanges(ps) <==> p.Range? && AllRanges(ps[1..]) by {
        assert forall i :: 1 <= i < |ps| ==> ps[i] == ps[1..][i - 1];
      }
      if p.Range? {
        CollectIs(ps[1..], cpus + Interval(p.lo, p.hi));
        forall x ensures Covered(ps, x) <==> Covers(p, x) || Covered(ps[1..], x) {
          CoveredStep(ps, x);
        }
      }
    }
  }

  /** A list is accepted exactly if every piece of it is a range, and then the set is exactly the
      union of the ranges; no CPU in it is negative. */
  lemma ParsedIsUnion(s: string)
    requires s != ""
    ensures Parsed(s).Accepted? <==> AllRanges(Split(s))
    ensures Parsed(s).Accepted? ==> forall x :: x in Parsed(s).cpus <==> Covered(Split(s), x)
    ensures Parsed(s).Accepted? ==> forall x :: x in Parsed(s).cpus ==> 0 <= x <= MAX
  {
    CollectIs(Split(s), {});
  }

  /* ---------- printing a list and parsing it ---------- */

  function Decimal(n: nat): (s: string)
    ensures s != "" && AllDigits(s)
  {
    if n < 10 then [DigitOf(n)] else Decimal(n / 10) + [DigitOf(n % 10)]
  }

  function DigitOf(d: nat): (c: char)
    requires d < 10
    ensures IsDigit(c) && c as int - '0' as int == d
  {
    ('0' as int + d) as char
  }

  lemma {:induction false} DigitsOfDecimal(n: nat)
    ensures Digits(Decimal(n)) == n
  {
    if n < 10 {
      assert [DigitOf(n)][..0] == "";
    } else {
      var s := Decimal(n / 10) + [DigitOf(n % 10)];
      assert s[..|s| - 1] == Decimal(n / 10);
      DigitsOfDecimal(n / 10);
    }
  }

  lemma AtoiOfDecimal(n: nat)
    requires n <= MAX
    ensures Atoi(Decimal(n)) == Some(n)
    ensures '-' !in Decimal(n) && ',' !in Decimal(n)
  {
    DigitsOfDecimal(n);
    assert IsDigit(Decimal(n)[0]);
  }

  datatype Cpus = Cpus(lo: nat, hi: nat)

  /** One CPU or a range, as the kernel writes them. */
  function Shown(r: Cpus): string {
    if r.lo == r.hi then Decimal(r.lo) else Decimal(r.lo) + "-" + Decimal(r.hi)
  }

  lemma Dashed(a: string, b: string)
    requires '-' !in a
    ensures var s := a + "-" + b; Find(s, '-') == |a| < |s| && s[..|a|] == a && s[|a| + 1..] == b
  {
    var s := a + "-" + b;
    assert s[..|a|] == a;
    FindAt(s, '-', |a|);
  }

  lemma Undashed(a: string)
    requires '-' !in a
    ensures Find(a, '-') == |a|
  {
    assert a[..|a|] == a;
    FindAt(a, '-', |a|);
  }

  lemma PieceOfShown(r: Cpus)
    requires r.lo <= r.hi < MAX
    ensures PieceOf(Shown(r)) == Range(r.lo, r.hi) && ',' !in Shown(r)
  {
    AtoiOfDecimal(r.lo);
    AtoiOfDecimal(r.hi);
    if r.lo == r.hi {
      Undashed(Decimal(r.lo));
    } else {
      PieceOfDashed(Decimal(r.lo), Decimal(r.hi), r.lo, r.hi);
    }
  }

  lemma PieceOfDashed(a: string, b: string, lo: int, hi: int)
    requires '-' !in a && ',' !in a && ',' !in b
    requires Atoi(a) == Some(lo) && Atoi(b) == Some(hi) && lo <= hi < MAX
    ensures PieceOf(a + "-" + b) == Range(lo, hi) && ',' !in a + "-" + b
  {
    LoopEndsIff(lo, hi);
    Dashed(a, b);
  }

  function ShownAll(rs: seq<Cpus>): seq<string> {
    seq(|rs|, i requires 0 <= i < |rs| => Shown(rs[i]))
  }

  /** Parsing the printed form of any ranges gives exactly their union. */
  lemma ParseOfShown(rs: seq<Cpus>)
    requires rs != [] && forall i :: 0 <= i < |rs| ==> rs[i].lo <= rs[i].hi < MAX
    ensures var r := Parsed(Joined(ShownAll(rs)));
            && r.Accepted?
            && forall x :: x in r.cpus <==> exists i :: 0 <= i < |rs| && rs[i].lo <= x <= rs[i].hi
  {
    var ps := ShownAll(rs);
    forall i | 0 <= i < |rs| ensures PieceOf(ps[i]) == Range(rs[i].lo, rs[i].hi) && ',' !in ps[i] {
      PieceOfShown(rs[i]);
    }
    SplitOfJoined(ps);
    var s := Joined(ps);
    assert ps[0] != "" && s != "" by { assert PieceOf("") == Bad; }
    ParsedIsUnion(s);
    forall x ensures x in Parsed(s).cpus <==> exists i :: 0 <= i < |rs| && rs[i].lo <= x <= rs[i].hi {
      if i :| 0 <= i < |rs| && rs[i].lo <= x <= rs[i].hi { assert Covers(PieceOf(ps[i]), x); }
    }
  }

  lemma EndlessPiece(a: string, b: string, lo: int, hi: int)
    requires '-' !in a && Atoi(a) == Some(lo) && Atoi(b) == Some(hi) && lo <= hi == MAX
    ensures PieceOf(a + "-" + b) == Endless
  {
    LoopEndsIff(lo, hi);
    Dashed(a, b);
  }

  lemma OnePiece(s: string)
    requires s != "" && ',' !in s
    ensures Split(s) == [s]
  {
    assert s[..|s|] == s;
    FindAt(s, ',', |s|);
  }

  /** Parsing a range up to the largest integer is never done: no number of increments takes the loop
      variable above it. */
  lemma LargestRangeDiverges(a: string, b: string, lo: int, hi: int)
    requires '-' !in a && ',' !in a && ',' !in b
    requires Atoi(a) == Some(lo) && Atoi(b) == Some(hi) && lo <= hi == MAX
    ensures Parsed(a + "-" + b) == Diverges && forall k: nat :: At(lo, k) <= hi
  {
    EndlessPiece(a, b, lo, hi);
    OnePiece(a + "-" + b);
    LoopEndsIff(lo, hi);
  }

  /* ---------- the sorted list of CPUs ---------- */

  function Elements(s: seq<int>): set<int> {
    if s == [] then {} else {s[0]} + Elements(s[1..])
  }

  predicate Above(s: set<int>, m: int) {
    forall x :: x in s ==> m < x
  }

  predicate Increasing(s: seq<int>) {
    s == [] || (Above(Elements(s[1..]), s[0]) && Increasing(s[1..]))
  }

  lemma {:induction false} ElementsHas(s: seq<int>, i: nat)
    requires i < |s|
    ensures s[i] in Elements(s)
  {
    if i > 0 { ElementsHas(s[1..], i - 1); }
  }

  lemma {:induction false} IncreasingPairs(s: seq<int>, i: nat, j: nat)
    requires Increasing(s) && i < j < |s|
    ensures s[i] < s[j]
  {
    if i == 0 {
      ElementsHas(s[1..], j - 1);
    } else {
      IncreasingPairs(s[1..], i - 1, j - 1);
    }
  }

  /** Only one increasing list has these elements. */
  lemma {:induction false} IncreasingUnique(a: seq<int>, b: seq<int>)
    requires Increasing(a) && Increasing(b) && Elements(a) == Elements(b)
    ensures a == b
    decreases |a|
  {
    if a == [] || b == [] {
      assert (Elements(a) == {} <==> a == []) && (Elements(b) == {} <==> b == []);
    } else {
      var x, y := a[0], b[0];
      assert x in Elements(b) && y in Elements(a);
      assert x == y;
      assert Elements(a[1..]) == Elements(a) - {x};
      assert Elements(b[1..]) == Elements(b) - {x};
      IncreasingUnique(a[1..], b[1..]);
      assert a == [x] + a[1..] && b == [x] + b[1..];
    }
  }

  /** ToSlice. */
  method ToSlice(cpus: set<int>) returns (r: seq<int>)
    ensures Increasing(r) && Elements(r) == cpus && |r| == |cpus|
  {
    r := [];
    var todo, done := cpus, {};
    while exists x :: x in todo
      invariant Increasing(r) && Elements(r) == done
      invariant done + todo == cpus && done !! todo
      decreases todo
    {
      var x :| x in todo;
      InsertedIs(r, x);
      r, todo, done := Inserted(r, x), todo - {x}, done + {x};
    }
    assert todo == {};
    CountElements(r);
  }

  lemma {:induction false} CountElements(s: seq<int>)
    requires Increasing(s)
    ensures |Elements(s)| == |s|
  {
    if s != [] {
      CountElements(s[1..]);
      assert s[0] !in Elements(s[1..]);
    }
  }

  /** Keeps the list sorted as it grows. */
  function Inserted(s: seq<int>, x: int): seq<int> {
    if s == [] || x < s[0] then [x] + s else [s[0]] + Inserted(s[1..], x)
  }

  lemma {:induction false} InsertedIs(s: seq<int>, x: int)
    requires Increasing(s) && x !in Elements(s)
    ensures Increasing(Inserted(s, x)) && Elements(Inserted(s, x)) == Elements(s) + {x} && |Inserted(s, x)| == |s| + 1
  {
    var r := Inserted(s, x);
    if s == [] || x < s[0] {
      assert r[1..] == s;
    } else {
      InsertedIs(s[1..], x);
      assert r[1..] == Inserted(s[1..], x);
    }
  }

  /* ---------- pinning ---------- */

  datatype Affinity = Affinity(vcpu: nat, host: int)

  function Hosts(pins: seq<Affinity>): seq<int> {
    seq(|pins|, i requires 0 <= i < |pins| => pins[i].host)
  }

  /** The CPU affinity part of buildVMConfig: with as many CPUs as vCPUs, vCPU i gets the i-th CPU, so
      that every CPU of the set is used by exactly one vCPU; otherwise there is an error. */
  method PinVcpus(cpus: set<int>, sockets: Word, cores: Word) returns (pins: Option<seq<Affinity>>)
    ensures pins.Some? <==> |cpus| == Vcpus(sockets, cores)
    ensures pins.Some? ==>
              && |pins.value| == |cpus|
              && (forall i :: 0 <= i < |cpus| ==> pins.value[i].vcpu == i)
              && Elements(Hosts(pins.value)) == cpus
              && forall i, j :: 0 <= i < j < |cpus| ==> pins.value[i].host < pins.value[j].host
  {
    var hosts := ToSlice(cpus);
    var n := Vcpus(sockets, cores);
    if |hosts| != n { return None; }
    var list := PinAll(hosts);
    pins := Some(list);
  }

  method PinAll(hosts: seq<int>) returns (list: seq<Affinity>)
    requires Increasing(hosts)
    ensures Hosts(list) == hosts && |list| == |hosts|
    ensures forall i :: 0 <= i < |list| ==> list[i].vcpu == i
    ensures forall i, j :: 0 <= i < j < |list| ==> list[i].host < list[j].host
  {
    list := [];
    for i := 0 to |hosts|
      invariant |list| == i
      invariant forall j :: 0 <= j < i ==> list[j] == Affinity(j, hosts[j])
    {
      list := list + [Affinity(i, hosts[i])];
    }
    forall i, j | 0 <= i < j < |list| ensures list[i].host < list[j].host {
      IncreasingPairs(hosts, i, j);
    }
  }
}
