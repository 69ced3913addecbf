/** pkg/controller/expectations/expectations.go: what a controller waits to observe before it
    acts again, with the UIDs of the deletions it waits for. */
module Expectations {
  import opened Options

  type Key = nat

  const EXPECTATIONS_TIMEOUT := 300

  /** Creations and deletions still to be observed, and when they were set (in seconds). */
  datatype Counter = Counter(add: int, del: int, timestamp: int)

  /** The entry of one controller in the two stores. */
  datatype Book = Book(counter: Option<Counter>, uids: Option<set<Key>>)

  const EMPTY := Book(None, None)

  function Tracked(b: Book): set<Key> {
    if b.uids.Some? then b.uids.value else {}
  }

  function Adds(b: Book): int {
    if b.counter.Some? then b.counter.value.add else 0
  }

  function Dels(b: Book): int {
    if b.counter.Some? then b.counter.value.del else 0
  }

  predicate Fulfilled(b: Book) {
    Adds(b) <= 0 && Dels(b) <= 0
  }

  predicate Expired(b: Book, now: int) {
    b.counter.Some? && now - b.counter.value.timestamp > EXPECTATIONS_TIMEOUT
  }

  predicate Satisfied(b: Book, now: int) {
    Fulfilled(b) || Expired(b, now)
  }

  function WithCreations(b: Book, adds: int, now: int): Book {
    b.(counter := Some(Counter(adds, 0, now)))
  }

  function KeysOf(keys: seq<Key>): set<Key> {
    set k | k in keys
  }

  function WithDeletions(keys: set<Key>, now: int): Book {
    Book(Some(Counter(0, |keys|, now)), Some(keys))
  }

  function Lowered(b: Book, add: int, del: int): Book {
    if b.counter.None? then b
    else b.(counter := Some(b.counter.value.(add := b.counter.value.add - add, del := b.counter.value.del - del)))
  }

  function AfterCreation(b: Book): Book {
    Lowered(b, 1, 0)
  }

  function AfterDeletion(b: Book, k: Key): Book {
    if k in Tracked(b) then Lowered(b, 0, 1).(uids := Some(Tracked(b) - {k})) else b
  }

  /* ---------- the stores ---------- */

  class UIDTracking {
    var counters: map<Key, Counter>
    var uidStore: map<Key, set<Key>>

    constructor ()
      ensures forall k :: BookOf(k) == EMPTY
    {
      counters, uidStore := map[], map[];
    }

    function BookOf(key: Key): Book
      reads this
    {
      Book(if key in counters then Some(counters[key]) else None,
           if key in uidStore then Some(uidStore[key]) else None)
    }

    method SatisfiedExpectations(key: Key, now: int) returns (ok: bool)
      ensures ok <==> Satisfied(BookOf(key), now)
    {
      if key in counters {
        var c := counters[key];
        if c.add <= 0 && c.del <= 0 {
          return true;
        }
        return now - c.timestamp > EXPECTATIONS_TIMEOUT;
      }
      return true;
    }

    method SetExpectations(key: Key, add: int, del: int, now: int)
      modifies this`counters
      ensures BookOf(key) == old(BookOf(key)).(counter := Some(Counter(add, del, now)))
      ensures forall k :: k != key ==> BookOf(k) == old(BookOf(k))
    {
      counters := counters[key := Counter(add, del, now)];
    }

    method ExpectCreations(key: Key, adds: int, now: int)
      modifies this`counters
      ensures BookOf(key) == WithCreations(old(BookOf(key)), adds, now)
      ensures forall k :: k != key ==> BookOf(k) == old(BookOf(k))
    {
      SetExpectations(key, adds, 0, now);
    }

    method ExpectDeletions(key: Key, deleted: seq<Key>, now: int)
      modifies this
      ensures BookOf(key) == WithDeletions(KeysOf(deleted), now)
      ensures forall k :: k != key ==> BookOf(k) == old(BookOf(k))
    {
      var expected: set<Key> := {};
      for i := 0 to |deleted|
        invariant expected == KeysOf(deleted[..i])
      {
        assert deleted[..i + 1] == deleted[..i] + [deleted[i]];
        expected := expected + {deleted[i]};
      }
      assert deleted[..|deleted|] == deleted;
      uidStore := uidStore[key := expected];
      SetExpectations(key, 0, |expected|, now);
    }

    method LowerExpectations(key: Key, add: int, del: int)
      modifies this`counters
      ensures BookOf(key) == Lowered(old(BookOf(key)), add, del)
      ensures forall k :: k != key ==> BookOf(k) == old(BookOf(k))
    {
      if key in counters {
        var c := counters[key];
        counters := counters[key := Counter(c.add - add, c.del - del, c.timestamp)];
      }
    }

    method CreationObserved(key: Key)
      modifies this`counters
      ensures BookOf(key) == AfterCreation(old(BookOf(key)))
      ensures forall k :: k != key ==> BookOf(k) == old(BookOf(k))
    {
      LowerExpectations(key, 1, 0);
    }

    method DeletionObserved(key: Key, deleted: Key)
      modifies this
      ensures BookOf(key) == AfterDeletion(old(BookOf(key)), deleted)
      ensures forall k :: k != key ==> BookOf(k) == old(BookOf(k))
    {
      if key in uidStore && deleted in uidStore[key] {
        LowerExpectations(key, 0, 1);
        uidStore := uidStore[key := uidStore[key] - {deleted}];
      }
    }

    method DeleteExpectations(key: Key)
      modifies this
      ensures BookOf(key) == EMPTY
      ensures forall k :: k != key ==> BookOf(k) == old(BookOf(k))
    {
      counters := counters - {key};
      uidStore := uidStore - {key};
    }
  }

  /* ---------- runs of the operations a replica set controller uses ---------- */

  datatype Operation =
    | ExpectCreations(adds: nat, now: int)
    | ExpectDeletions(keys: set<Key>, now: int)
    | CreationObserved
    | DeletionObserved(key: Key)
    | DeleteExpectations

  function Apply(b: Book, op: Operation): Book {
    match op
    case ExpectCreations(n, now) => WithCreations(b, n, now)
    case ExpectDeletions(keys, now) => WithDeletions(keys, now)
    case CreationObserved => AfterCreation(b)
    case DeletionObserved(k) => AfterDeletion(b, k)
    case DeleteExpectations => EMPTY
  }

  function ApplyAll(b: Book, ops: seq<Operation>): Book
    decreases |ops|
  {
    if ops == [] then b else ApplyAll(Apply(b, ops[0]), ops[1..])
  }

  /** New expectations are only set once the old ones are fulfilled, never because they expired. */
  predicate Disciplined(b: Book, ops: seq<Operation>)
    decreases |ops|
  {
    ops == [] ||
    ((ops[0].ExpectCreations? || ops[0].ExpectDeletions? ==> Fulfilled(b)) && Disciplined(Apply(b, ops[0]), ops[1..]))
  }

  /** The deletions counted are exactly the deletions tracked. */
  predicate Balanced(b: Book) {
    Dels(b) == |Tracked(b)| && (b.counter.None? ==> Tracked(b) == {})
  }

  predicate Covered(b: Book) {
    Dels(b) <= |Tracked(b)|
  }

  lemma ApplyKeepsCovered(b: Book, op: Operation)
    requires Covered(b)
    ensures Covered(Apply(b, op))
  {
    if op.DeletionObserved? && op.key in Tracked(b) {
      assert |Tracked(b) - {op.key}| == |Tracked(b)| - 1;
    }
  }

  lemma ApplyKeepsBalanced(b: Book, op: Operation)
    requires Balanced(b) && (op.ExpectCreations? || op.ExpectDeletions? ==> Fulfilled(b))
    ensures Balanced(Apply(b, op))
  {
    if op.DeletionObserved? && op.key in Tracked(b) {
      assert |Tracked(b) - {op.key}| == |Tracked(b)| - 1;
    }
  }

  /** Setting creation expectations keeps the balance exactly when no deletion is tracked. */
  lemma CreationsKeepBalanceIff(b: Book, adds: nat, now: int)
    ensures Balanced(WithCreations(b, adds, now)) <==> Tracked(b) == {}
  {
    assert |Tracked(b)| == 0 ==> Tracked(b) == {};
  }

  predicate BalancedThroughout(b: Book, ops: seq<Operation>)
    decreases |ops|
  {
    Balanced(b) && (ops == [] || BalancedThroughout(Apply(b, ops[0]), ops[1..]))
  }

  /** Creations are only expected while no deletion is tracked. */
  predicate NothingTrackedAtCreations(b: Book, ops: seq<Operation>)
    decreases |ops|
  {
    ops == [] ||
    ((ops[0].ExpectCreations? ==> Tracked(b) == {}) && NothingTrackedAtCreations(Apply(b, ops[0]), ops[1..]))
  }

  /** A run keeps the balance throughout exactly if no deletion is tracked when creations are expected. */
  lemma {:induction false} BalancedThroughoutIff(b: Book, ops: seq<Operation>)
    requires Balanced(b)
    ensures BalancedThroughout(b, ops) <==> NothingTrackedAtCreations(b, ops)
    decreases |ops|
  {
    if ops != [] {
      if ops[0].ExpectCreations? {
        CreationsKeepBalanceIff(b, ops[0].adds, ops[0].now);
      } else {
        OthersKeepBalanced(b, ops[0]);
      }
      var c := Apply(b, ops[0]);
      if Balanced(c) {
        BalancedThroughoutIff(c, ops[1..]);
      } else {
        assert !BalancedThroughout(c, ops[1..]);
      }
    }
  }

  lemma OthersKeepBalanced(b: Book, op: Operation)
    requires Balanced(b) && !op.ExpectCreations?
    ensures Balanced(Apply(b, op))
  {
    if op.DeletionObserved? && op.key in Tracked(b) {
      assert |Tracked(b) - {op.key}| == |Tracked(b)| - 1;
    }
  }

  /** In any run the deletion counter never exceeds the number of tracked UIDs. */
  lemma {:induction false} CounterNeverExceedsTracked(b: Book, ops: seq<Operation>)
    requires Covered(b)
    ensures Covered(ApplyAll(b, ops))
    decreases |ops|
  {
    if ops != [] {
      ApplyKeepsCovered(b, ops[0]);
      CounterNeverExceedsTracked(Apply(b, ops[0]), ops[1..]);
    }
  }

  /** In a disciplined run it equals that number: never negative, no deletion counted twice. */
  lemma {:induction false} CounterEqualsTracked(b: Book, ops: seq<Operation>)
    requires Balanced(b) && Disciplined(b, ops)
    ensures Balanced(ApplyAll(b, ops)) && Dels(ApplyAll(b, ops)) >= 0
    decreases |ops|
  {
    if ops != [] {
      ApplyKeepsBalanced(b, ops[0]);
      CounterEqualsTracked(Apply(b, ops[0]), ops[1..]);
    }
  }

  /** Without that discipline the counter can go below zero: expectations replaced after they
      expired leave their UIDs behind. */
  lemma ExpiryUnbalances(now: int)
    ensures var ops := [ExpectDeletions({1}, now), ExpectCreations(1, now + 301), DeletionObserved(1)];
            && !Fulfilled(ApplyAll(EMPTY, ops[..1])) && Expired(ApplyAll(EMPTY, ops[..1]), now + 301)
            && Dels(ApplyAll(EMPTY, ops)) == -1 && Tracked(ApplyAll(EMPTY, ops)) == {}
  {
    var b1 := Apply(EMPTY, ExpectDeletions({1}, now));
    var b2 := Apply(b1, ExpectCreations(1, now + 301));
    assert Expired(b1, now + 301);
    var ops := [ExpectDeletions({1}, now), ExpectCreations(1, now + 301), DeletionObserved(1)];
    assert ops[1..] == [ExpectCreations(1, now + 301), DeletionObserved(1)];
    assert ops[1..][1..] == [DeletionObserved(1)];
    assert ApplyAll(EMPTY, ops) == ApplyAll(b2, [DeletionObserved(1)]);
    assert [DeletionObserved(1)][1..] == [];
    assert ops[..1] == [ops[0]] && [ops[0]][1..] == [];
    assert ApplyAll(EMPTY, [ops[0]]) == b1;
  }

  /** A deletion is counted once, however often it is reported. */
  lemma DeletionCountedOnce(b: Book, k: Key)
    ensures AfterDeletion(AfterDeletion(b, k), k) == AfterDeletion(b, k)
  {
  }
}
