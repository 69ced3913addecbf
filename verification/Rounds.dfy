/** pkg/controller/vmrs_controller.go, scaleVMs and getVMsToDelete: one round of scaling with its
    expectations, and what repeated rounds converge to. */
module Rounds {
  import opened Expectations
  import Scaling

  /** A VM of the replica set: its key and its creation timestamp. */
  datatype Machine = Machine(name: Key, created: int)

  /* ---------- choosing the newest VMs, in place ---------- */

  predicate NewestFirst(s: seq<Machine>) {
    forall i, j :: 0 <= i < j < |s| ==> s[j].created <= s[i].created
  }

  /** Sorted except that the machine at `k` may still have to move to the front. */
  predicate NewestFirstBut(s: seq<Machine>, k: nat) {
    forall i, j :: 0 <= i < j < |s| && j != k ==> s[j].created <= s[i].created
  }

  method SwapDown(a: array<Machine>, j: nat)
    requires 0 < j < a.Length
    modifies a
    ensures a[..] == old(a[..])[j - 1 := old(a[j])][j := old(a[j - 1])]
    ensures multiset(a[..]) == multiset(old(a[..]))
  {
    a[j - 1], a[j] := a[j], a[j - 1];
  }

  lemma SwappedStaysSorted(s: seq<Machine>, n: nat, j: nat)
    requires 0 < j < n <= |s| && NewestFirstBut(s[..n], j) && s[j - 1].created < s[j].created
    ensures NewestFirstBut(s[j - 1 := s[j]][j := s[j - 1]][..n], j - 1)
  {
  }

  /** Moves a[n] into the sorted prefix in front of it. */
  method Insert(a: array<Machine>, n: nat)
    requires n < a.Length && NewestFirst(a[..n])
    modifies a
    ensures NewestFirst(a[..n + 1])
    ensures multiset(a[..]) == multiset(old(a[..]))
  {
    var j: nat := n;
    while j > 0 && a[j - 1].created < a[j].created
      invariant j <= n
      invariant NewestFirstBut(a[..n + 1], j)
      invariant multiset(a[..]) == multiset(old(a[..]))
    {
      SwappedStaysSorted(a[..], n + 1, j);
      ghost var before := a[..];
      SwapDown(a, j);
      assert a[..][..n + 1] == a[..n + 1];
      assert before[..n + 1] == before[..][..n + 1];
      j := j - 1;
    }
    ghost var s := a[..n + 1];
    assert j > 0 ==> s[j].created <= s[j - 1].created;
    assert forall i :: 0 <= i < j ==> s[j].created <= s[i].created;
  }

  method SortNewestFirst(a: array<Machine>)
    modifies a
    ensures NewestFirst(a[..])
    ensures multiset(a[..]) == multiset(old(a[..]))
  {
    for n := 0 to a.Length
      invariant NewestFirst(a[..n])
      invariant multiset(a[..]) == multiset(old(a[..]))
    {
      Insert(a, n);
    }
    assert a[..a.Length] == a[..];
  }

  /** The `diff` VMs to delete; unless all are deleted, no VM that stays is newer than one that goes. */
  method GetVMsToDelete(a: array<Machine>, diff: nat) returns (victims: seq<Machine>)
    requires diff <= a.Length
    modifies a
    ensures victims == a[..diff]
    ensures multiset(a[..]) == multiset(old(a[..]))
    ensures forall i, j :: 0 <= i < diff <= j < a.Length ==> a[j].created <= a[i].created
  {
    if diff < a.Length {
      SortNewestFirst(a);
      assert forall i, j :: 0 <= i < diff <= j < a.Length ==> a[..][j].created <= a[..][i].created;
    }
    victims := a[..diff];
  }

  /* ---------- one round ---------- */

  /** What a round with every call succeeding makes of an up-to-date set of active VMs. */
  predicate Round(vms: set<Machine>, replicas: nat, next: set<Machine>) {
    if |vms| < replicas then
      vms <= next && |next| == |vms| + Scaling.Min(replicas - |vms|, Scaling.BURST_REPLICAS)
    else
      && next <= vms && |next| == |vms| - Scaling.Min(|vms| - replicas, Scaling.BURST_REPLICAS)
      && (forall gone, kept :: gone in vms - next && kept in next ==> kept.created <= gone.created)
  }

  predicate Distinct(s: seq<Machine>) {
    forall i, j :: 0 <= i < j < |s| ==> s[i].name != s[j].name
  }

  function Names(s: seq<Machine>): seq<Key> {
    seq(|s|, i requires 0 <= i < |s| => s[i].name)
  }

  /** The machines whose call, counted from zero, is not in `failing`. */
  function Done(s: seq<Machine>, failing: set<nat>): set<Machine> {
    set i | 0 <= i < |s| && i !in failing :: s[i]
  }

  function NamesOf(ms: set<Machine>): set<Key> {
    set m | m in ms :: m.name
  }

  function Failures(failing: set<nat>, n: nat): nat {
    if n == 0 then 0 else Failures(failing, n - 1) + if n - 1 in failing then 1 else 0
  }

  /** The active VMs on the API server. */
  class VmStore {
    var machines: set<Machine>
    var nextName: Key

    ghost predicate Valid()
      reads this
    {
      forall m :: m in machines ==> m.name < nextName
    }

    method Create(now: int)
      requires Valid()
      modifies this
      ensures Valid() && machines == old(machines) + {Machine(old(nextName), now)} && |machines| == |old(machines)| + 1
    {
      machines := machines + {Machine(nextName, now)};
      nextName := nextName + 1;
    }

    method Delete(m: Machine)
      requires Valid()
      modifies this`machines
      ensures Valid() && machines == old(machines) - {m}
    {
      machines := machines - {m};
    }
  }

  /** `s` lists exactly the machines in `ms`, in any order. */
  predicate Lists(s: seq<Machine>, ms: set<Machine>) {
    Distinct(s) && (forall m :: m in ms ==> m in s) && (forall i :: 0 <= i < |s| ==> s[i] in ms)
  }

  lemma ListedSize(s: seq<Machine>, ms: set<Machine>)
    requires Lists(s, ms)
    ensures |s| == |ms|
    decreases |s|
  {
    if s == [] {
      assert ms == {};
    } else {
      var rest := ms - {s[0]};
      forall m | m in rest ensures m in s[1..] { var i :| 0 <= i < |s| && s[i] == m; }
      ListedSize(s[1..], rest);
    }
  }

  lemma PermutationLists(s: seq<Machine>, t: seq<Machine>, ms: set<Machine>)
    requires Lists(s, ms) && multiset(s) == multiset(t)
    ensures Lists(t, ms)
  {
    forall m | m in ms ensures m in t { assert m in multiset(s); }
    forall i | 0 <= i < |t| ensures t[i] in ms { assert t[i] in multiset(t); assert t[i] in multiset(s); }
    forall i, j | 0 <= i < j < |t| ensures t[i].name != t[j].name {
      if t[i] == t[j] {
        assert t == t[..j] + [t[j]] + t[j + 1..];
        assert t[i] in t[..j];
        assert multiset(t)[t[j]] >= 2;
        OnceEach(s, t[j]);
      } else {
        assert t[i] in multiset(s) && t[j] in multiset(s);
      }
    }
  }

  lemma OnceEach(s: seq<Machine>, m: Machine)
    requires Distinct(s)
    ensures multiset(s)[m] <= 1
    decreases |s|
  {
    if s != [] {
      assert s == [s[0]] + s[1..];
      OnceEach(s[1..], m);
      if s[0] == m { assert m !in s[1..]; }
    }
  }

  method CreateVMs(e: UIDTracking, rs: Key, store: VmStore, n: nat, failing: set<nat>, now: int) returns (err: bool)
    requires store.Valid()
    modifies e, store
    ensures store.Valid() && old(store.machines) <= store.machines
    ensures |store.machines| == |old(store.machines)| + n - Failures(failing, n)
    ensures e.BookOf(rs) == WithCreations(old(e.BookOf(rs)), n - Failures(failing, n), now)
    ensures err <==> Failures(failing, n) > 0
  {
    ghost var book := e.BookOf(rs);
    e.ExpectCreations(rs, n, now);
    err := false;
    for i := 0 to n
      invariant store.Valid() && old(store.machines) <= store.machines
      invariant |store.machines| == |old(store.machines)| + i - Failures(failing, i)
      invariant e.BookOf(rs) == WithCreations(book, n - Failures(failing, i), now)
      invariant err <==> Failures(failing, i) > 0
    {
      if i in failing {
        e.CreationObserved(rs);
        err := true;
      } else {
        store.Create(now);
      }
    }
  }

  /** The names whose deletion call, counted from zero, is in `failing`. */
  function Kept(s: seq<Machine>, failing: set<nat>): set<Key> {
    set i | 0 <= i < |s| && i in failing :: s[i].name
  }

  lemma KeptGrows(s: seq<Machine>, failing: set<nat>, i: nat)
    requires i < |s|
    ensures Kept(s[..i + 1], failing) == Kept(s[..i], failing) + if i in failing then {s[i].name} else {}
  {
    assert forall k :: 0 <= k <= i ==> s[..i + 1][k] == s[k];
    assert forall k :: 0 <= k < i ==> s[..i][k] == s[k];
  }

  lemma DoneOrKept(s: seq<Machine>, failing: set<nat>)
    requires Distinct(s)
    ensures KeysOf(Names(s)) - Kept(s, failing) == NamesOf(Done(s, failing))
  {
    forall k | k in KeysOf(Names(s)) - Kept(s, failing) ensures k in NamesOf(Done(s, failing)) {
      var i :| 0 <= i < |s| && Names(s)[i] == k;
      assert s[i] in Done(s, failing);
    }
    forall m | m in Done(s, failing) ensures m.name in KeysOf(Names(s)) - Kept(s, failing) {
      var i :| 0 <= i < |s| && i !in failing && s[i] == m;
      assert Names(s)[i] == m.name;
    }
  }

  lemma DoneGrows(s: seq<Machine>, failing: set<nat>, i: nat)
    requires i < |s|
    ensures Done(s[..i + 1], failing) == Done(s[..i], failing) + if i in failing then {} else {s[i]}
  {
    assert forall k :: 0 <= k <= i ==> s[..i + 1][k] == s[k];
    assert forall k :: 0 <= k < i ==> s[..i][k] == s[k];
  }

  /** The expectations after the first i deletion calls. */
  function BookAfter(s: seq<Machine>, failing: set<nat>, now: int, i: nat): Book
    requires i <= |s|
  {
    if i == 0 then WithDeletions(KeysOf(Names(s)), now)
    else
      var b := BookAfter(s, failing, now, i - 1);
      if i - 1 in failing then AfterDeletion(b, s[i - 1].name) else b
  }

  lemma {:induction false} BookAfterTracks(s: seq<Machine>, failing: set<nat>, now: int, i: nat)
    requires i <= |s|
    ensures var b := BookAfter(s, failing, now, i);
            Balanced(b) && Adds(b) == 0 && Tracked(b) == KeysOf(Names(s)) - Kept(s[..i], failing)
    decreases i
  {
    if i > 0 {
      BookAfterTracks(s, failing, now, i - 1);
      ApplyKeepsBalanced(BookAfter(s, failing, now, i - 1), DeletionObserved(s[i - 1].name));
      KeptGrows(s, failing, i - 1);
    }
  }

  method DeleteVMs(e: UIDTracking, rs: Key, store: VmStore, victims: seq<Machine>, failing: set<nat>, now: int)
    returns (err: bool)
    requires store.Valid() && Distinct(victims)
    modifies e, store`machines
    ensures store.Valid() && store.machines == old(store.machines) - Done(victims, failing)
    ensures Tracked(e.BookOf(rs)) == NamesOf(Done(victims, failing)) && Balanced(e.BookOf(rs)) && Adds(e.BookOf(rs)) == 0
    ensures err <==> Failures(failing, |victims|) > 0
  {
    e.ExpectDeletions(rs, Names(victims), now);
    err := DeleteEach(e, rs, store, victims, failing, now);
    BookAfterTracks(victims, failing, now, |victims|);
    DoneOrKept(victims, failing);
    assert victims[..|victims|] == victims;
  }

  /** The calls themselves; a failed one is taken off the expectations. */
  method DeleteEach(e: UIDTracking, rs: Key, store: VmStore, victims: seq<Machine>, failing: set<nat>, now: int)
    returns (err: bool)
    requires store.Valid() && e.BookOf(rs) == BookAfter(victims, failing, now, 0)
    modifies e, store`machines
    ensures store.Valid() && store.machines == old(store.machines) - Done(victims, failing)
    ensures e.BookOf(rs) == BookAfter(victims, failing, now, |victims|)
    ensures err <==> Failures(failing, |victims|) > 0
  {
    err := false;
    ghost var before := store.machines;
    for i := 0 to |victims|
      invariant store.Valid() && store.machines == before - Done(victims[..i], failing)
      invariant e.BookOf(rs) == BookAfter(victims, failing, now, i)
      invariant err <==> Failures(failing, i) > 0
    {
      DoneGrows(victims, failing, i);
      var failed := DeleteOne(e, rs, store, victims[i], i in failing);
      err := err || failed;
    }
    assert victims[..|victims|] == victims;
  }

  method DeleteOne(e: UIDTracking, rs: Key, store: VmStore, m: Machine, fails: bool) returns (failed: bool)
    requires store.Valid()
    modifies e, store`machines
    ensures store.Valid() && failed == fails
    ensures store.machines == if fails then old(store.machines) else old(store.machines) - {m}
    ensures e.BookOf(rs) == if fails then AfterDeletion(old(e.BookOf(rs)), m.name) else old(e.BookOf(rs))
  {
    failed := fails;
    if fails {
      e.DeletionObserved(rs, m.name);
    } else {
      store.Delete(m);
    }
  }

  /** scaleVMs on an up-to-date listing. Failed calls create or delete nothing and are taken off the
      expectations at once, so that afterwards the controller waits for exactly the calls that took
      effect; with no failure the round is complete. */
  method ScaleVMs(e: UIDTracking, rs: Key, store: VmStore, listed: array<Machine>, replicas: nat,
                  failing: set<nat>, now: int) returns (err: bool)
    requires store.Valid() && Lists(listed[..], store.machines)
    modifies e, store, listed
    ensures store.Valid()
    ensures failing == {} ==> !err && Round(old(store.machines), replicas, store.machines)
    ensures listed.Length == replicas ==> store.machines == old(store.machines) && e.BookOf(rs) == old(e.BookOf(rs))
    ensures listed.Length < replicas ==>
              Adds(e.BookOf(rs)) == |store.machines| - |old(store.machines)| && Dels(e.BookOf(rs)) == 0
    ensures listed.Length > replicas ==>
              && store.machines <= old(store.machines) && Adds(e.BookOf(rs)) == 0 && Balanced(e.BookOf(rs))
              && Tracked(e.BookOf(rs)) == NamesOf(old(store.machines) - store.machines)
  {
    ListedSize(listed[..], store.machines);
    err := false;
    if listed.Length < replicas {
      err := ScaleUp(e, rs, store, Scaling.Min(replicas - listed.Length, Scaling.BURST_REPLICAS), replicas, failing, now);
    } else if listed.Length > replicas {
      err := ScaleDown(e, rs, store, listed, replicas, failing, now);
    }
  }

  method ScaleUp(e: UIDTracking, rs: Key, store: VmStore, n: nat, replicas: nat, failing: set<nat>, now: int)
    returns (err: bool)
    requires store.Valid() && |store.machines| < replicas
    requires n == Scaling.Min(replicas - |store.machines|, Scaling.BURST_REPLICAS)
    modifies e, store
    ensures store.Valid()
    ensures failing == {} ==> !err && Round(old(store.machines), replicas, store.machines)
    ensures Adds(e.BookOf(rs)) == |store.machines| - |old(store.machines)| && Dels(e.BookOf(rs)) == 0
  {
    err := CreateVMs(e, rs, store, n, failing, now);
    if failing == {} { NoFailures(n); }
  }

  method ScaleDown(e: UIDTracking, rs: Key, store: VmStore, listed: array<Machine>, replicas: nat, failing: set<nat>, now: int)
    returns (err: bool)
    requires store.Valid() && Lists(listed[..], store.machines) && replicas < listed.Length
    modifies e, store`machines, listed
    ensures store.Valid()
    ensures failing == {} ==> !err && Round(old(store.machines), replicas, store.machines)
    ensures store.machines <= old(store.machines) && Adds(e.BookOf(rs)) == 0 && Balanced(e.BookOf(rs))
    ensures Tracked(e.BookOf(rs)) == NamesOf(old(store.machines) - store.machines)
  {
    ghost var before, order := store.machines, listed[..];
    var n := Scaling.Min(listed.Length - replicas, Scaling.BURST_REPLICAS);
    var victims := GetVMsToDelete(listed, n);
    PermutationLists(order, listed[..], before);
    err := DeleteVMs(e, rs, store, victims, failing, now);
    VictimsAreListed(listed[..], n, before, failing);
    if failing == {} {
      NoFailures(n);
      VictimsMakeRound(listed[..], n, before, replicas);
    }
  }

  lemma NoFailures(n: nat)
    ensures Failures({}, n) == 0
  {
  }

  lemma VictimsAreListed(s: seq<Machine>, n: nat, ms: set<Machine>, failing: set<nat>)
    requires Lists(s, ms) && n <= |s|
    ensures ms - (ms - Done(s[..n], failing)) == Done(s[..n], failing)
  {
  }

  lemma VictimsCount(s: seq<Machine>, n: nat, ms: set<Machine>)
    requires Lists(s, ms) && n <= |s|
    ensures Done(s[..n], {}) <= ms && |Done(s[..n], {})| == n
  {
    var gone := Done(s[..n], {});
    assert Lists(s[..n], gone);
    ListedSize(s[..n], gone);
  }

  lemma VictimsAreNewest(s: seq<Machine>, n: nat, ms: set<Machine>)
    requires Lists(s, ms) && n <= |s|
    requires forall i, j :: 0 <= i < n <= j < |s| ==> s[j].created <= s[i].created
    ensures forall g, k :: g in Done(s[..n], {}) && k in ms - Done(s[..n], {}) ==> k.created <= g.created
  {
    var gone := Done(s[..n], {});
    forall g, k | g in gone && k in ms - gone ensures k.created <= g.created {
      var i :| 0 <= i < n && s[..n][i] == g;
      var j :| 0 <= j < |s| && s[j] == k;
      assert forall l :: 0 <= l < n ==> s[..n][l] == s[l] && s[l] in gone;
    }
  }

  lemma VictimsMakeRound(s: seq<Machine>, n: nat, ms: set<Machine>, replicas: nat)
    requires Lists(s, ms) && replicas <= |s| && n == Scaling.Min(|s| - replicas, Scaling.BURST_REPLICAS)
    requires forall i, j :: 0 <= i < n <= j < |s| ==> s[j].created <= s[i].created
    ensures Round(ms, replicas, ms - Done(s[..n], {}))
  {
    var gone := Done(s[..n], {});
    ListedSize(s, ms);
    VictimsCount(s, n, ms);
    VictimsAreNewest(s, n, ms);
    assert ms - (ms - gone) == gone;
    assert |ms - gone| == |ms| - n;
  }

  /* ---------- repeated rounds ---------- */

  /** Events are delivered between the rounds, so every round starts from what the last one left. */
  predicate Rounds(states: seq<set<Machine>>, replicas: nat) {
    states != [] && forall i :: 0 <= i < |states| - 1 ==> Round(states[i], replicas, states[i + 1])
  }

  function Distance(vms: set<Machine>, replicas: nat): nat {
    if |vms| < replicas then replicas - |vms| else |vms| - replicas
  }

  /** The number of rounds scaling takes: the distance in bursts, rounded up. */
  function RoundsNeeded(vms: set<Machine>, replicas: nat): nat {
    (Distance(vms, replicas) + Scaling.BURST_REPLICAS - 1) / Scaling.BURST_REPLICAS
  }

  /** After k rounds the distance has shrunk by ten per round, down to zero. */
  lemma {:induction false} DistanceShrinks(states: seq<set<Machine>>, replicas: nat, k: nat)
    requires Rounds(states, replicas) && k < |states|
    ensures var d := Distance(states[0], replicas);
            Distance(states[k], replicas) == if d <= 10 * k then 0 else d - 10 * k
    decreases k
  {
    if k > 0 {
      DistanceShrinks(states, replicas, k - 1);
      assert Round(states[k - 1], replicas, states[k - 1 + 1]);
    }
  }

  /** Scaling reaches the replica count in exactly that many rounds, and from then on does nothing. */
  lemma ReachesReplicas(states: seq<set<Machine>>, replicas: nat, k: nat)
    requires Rounds(states, replicas) && k < |states|
    ensures |states[k]| == replicas <==> k >= RoundsNeeded(states[0], replicas)
    ensures k >= RoundsNeeded(states[0], replicas) && k + 1 < |states| ==> states[k + 1] == states[k]
  {
    DistanceShrinks(states, replicas, k);
    if |states[k]| == replicas && k + 1 < |states| {
      assert Round(states[k], replicas, states[k + 1]);
      SameSize(states[k + 1], states[k]);
    }
  }

  lemma SameSize(a: set<Machine>, b: set<Machine>)
    requires a <= b && |a| == |b|
    ensures a == b
  {
    assert |b - a| == |b| - |a|;
  }

  /** Across all rounds of scaling down, no VM that survives is newer than one that was deleted. */
  lemma {:induction false} SurvivorsAreOldest(states: seq<set<Machine>>, replicas: nat, k: nat)
    requires Rounds(states, replicas) && k < |states| && replicas <= |states[0]|
    ensures states[k] <= states[0] && replicas <= |states[k]|
    ensures forall gone, kept :: gone in states[0] - states[k] && kept in states[k] ==> kept.created <= gone.created
    decreases k
  {
    if k > 0 {
      SurvivorsAreOldest(states, replicas, k - 1);
      assert Round(states[k - 1], replicas, states[k - 1 + 1]);
    }
  }
}
