/** pkg/controller/vmrs_controller.go: a replica set scales its VMs while it only sees an informer
    cache that lags behind the API server. Expectations are checked before the cache is listed. */
module Scaling {
  import opened Expectations

  const BURST_REPLICAS := 10

  datatype Health = Alive | Finished | Unknown

  /** A VM owned by the replica set, on the server or in the cache. */
  datatype Replica = Replica(health: Health, deleting: bool)

  predicate Active(r: Replica) {
    !r.health.Finished? && !r.deleting
  }

  function ActiveNames(m: map<Key, Replica>): set<Key> {
    set n | n in m && Active(m[n])
  }

  /** Finished and unknown VMs; an unknown VM is active as well. */
  function ToClean(m: map<Key, Replica>): set<Key> {
    set n | n in m && !m[n].health.Alive?
  }

  function Min(a: nat, b: nat): nat {
    if a < b then a else b
  }

  datatype Work =
    | Idle
    | Checked(sync: bool, replicas: nat)
    | Creating(left: nat, limit: nat, finished: set<Key>)
    | Deleting(todo: set<Key>, kept: set<Key>, floor: nat, finished: set<Key>)
    | Cleaning(todo: set<Key>)

  /** `born` and `died` are the cache events whose handlers have not run yet; `lost` are the VMs
      that stopped being active with no expectation to show for it: deleted by somebody else,
      finished, cleaned up, or deleted and then no longer expected because cleaning up failed. */
  datatype State = State(
    server: map<Key, Replica>, cache: map<Key, Replica>, born: multiset<Key>, died: multiset<Key>,
    book: Book, work: Work, nextId: Key, lost: set<Key>)

  datatype Step =
    | Begin(replicas: nat, paused: bool)
    | List(victims: set<Key>)
    | CreateCall(ok: bool)
    | DeleteCall(name: Key, ok: bool, gone: bool)
    | EndScaling(clean: bool)
    | CleanCall(name: Key, ok: bool, gone: bool)
    | EndCleaning
    | Observe(name: Key)
    | HandleBorn(name: Key, dropped: bool)
    | HandleDied(name: Key, dropped: bool)
    | HealthChanges(name: Key, health: Health)
    | OutsideDelete(name: Key, gone: bool)
    | Vanish(name: Key)

  /** A controller that has just started: its cache is up to date and the events of the first listing
      are handled. */
  predicate Start(s: State) {
    && s.cache == s.server && (forall n :: n in s.server ==> n < s.nextId)
    && s.born == multiset{} && s.died == multiset{}
    && s.book == EMPTY && s.work == Idle && s.lost == {}
  }

  /** A VM with a finalizer is only marked by a deletion; otherwise it is gone at once. */
  function Removed(m: map<Key, Replica>, n: Key, gone: bool): map<Key, Replica> {
    if n !in m then m else if gone then m - {n} else m[n := m[n].(deleting := true)]
  }

  function If(b: bool, n: Key): set<Key> {
    if b then {n} else {}
  }

  function Next(s: State, step: Step): State {
    match step
    case Begin(replicas, paused) =>
      if s.work.Idle? then s.(work := Checked(Fulfilled(s.book) && !paused, replicas)) else s
    case List(victims) => if s.work.Checked? then Scale(s, victims) else s
    case CreateCall(ok) =>
      if !s.work.Creating? || s.work.left == 0 then s
      else if ok then
        s.(server := s.server[s.nextId := Replica(Alive, false)], nextId := s.nextId + 1,
           work := s.work.(left := s.work.left - 1))
      else s.(book := AfterCreation(s.book), work := s.work.(left := s.work.left - 1))
    case DeleteCall(n, ok, gone) =>
      if !s.work.Deleting? || n !in s.work.todo then s
      else
        var t := s.(work := s.work.(todo := s.work.todo - {n}));
        if ok then t.(server := Removed(s.server, n, gone)) else t.(book := AfterDeletion(s.book, n))
    case EndScaling(clean) =>
      if (s.work.Creating? && s.work.left == 0) || (s.work.Deleting? && s.work.todo == {}) then
        s.(work := if clean then Cleaning(s.work.finished) else Idle)
      else s
    case CleanCall(n, ok, gone) =>
      if !s.work.Cleaning? || n !in s.work.todo then s
      else
        var t := s.(work := Cleaning(s.work.todo - {n}));
        if ok then t.(server := Removed(s.server, n, gone), lost := s.lost + If(n in ActiveNames(s.server), n))
        else
          t.(book := AfterDeletion(s.book, n),
             lost := s.lost + If(n !in ActiveNames(s.server) && n in Tracked(s.book), n))
    case EndCleaning => if s.work.Cleaning? then s.(work := Idle) else s
    case Observe(n) => Observed(s, n)
    case HandleBorn(n, dropped) =>
      if n !in s.born then s
      else s.(born := s.born - multiset{n}, book := if dropped then s.book else AfterCreation(s.book))
    case HandleDied(n, dropped) =>
      if n !in s.died then s
      else s.(died := s.died - multiset{n}, book := if dropped then s.book else AfterDeletion(s.book, n))
    case HealthChanges(n, h) =>
      if n !in s.server || s.server[n].health.Finished? then s
      else s.(server := s.server[n := s.server[n].(health := h)],
              lost := s.lost + If(n in ActiveNames(s.server) && h.Finished?, n))
    case OutsideDelete(n, gone) =>
      s.(server := Removed(s.server, n, gone), lost := s.lost + If(n in ActiveNames(s.server), n))
    case Vanish(n) => if n in s.server && s.server[n].deleting then s.(server := s.server - {n}) else s
  }

  /** The listing half of a reconcile: `victims` is the prefix getVMsToDelete picked. */
  function Scale(s: State, victims: set<Key>): State
    requires s.work.Checked?
  {
    var active, r := ActiveNames(s.cache), s.work.replicas;
    if !s.work.sync then s.(work := Idle)
    else if |active| < r then
      var n := Min(r - |active|, BURST_REPLICAS);
      s.(book := WithCreations(s.book, n, 0), work := Creating(n, r, ToClean(s.cache)))
    else if |active| > r then
      if victims <= active && |victims| == Min(|active| - r, BURST_REPLICAS) then
        s.(book := WithDeletions(victims, 0), work := Deleting(victims, active - victims, r, ToClean(s.cache)))
      else s
    else s.(work := Cleaning(ToClean(s.cache)))
  }

  /** The informer catches up on one VM, skipping whatever happened in between. */
  function Observed(s: State, n: Key): State {
    if n in s.server then
      if n in s.cache && s.cache[n] == s.server[n] then s
      else
        var t := s.(cache := s.cache[n := s.server[n]]);
        if s.server[n].deleting then t.(died := s.died + multiset{n})
        else if n !in s.cache then t.(born := s.born + multiset{n})
        else t
    else if n in s.cache then s.(cache := s.cache - {n}, died := s.died + multiset{n})
    else s
  }

  function Run(s: State, steps: seq<Step>): State
    decreases |steps|
  {
    if steps == [] then s else Run(Next(s, steps[0]), steps[1..])
  }

  /* ---------- the invariant ---------- */

  function Missing(server: map<Key, Replica>, cache: map<Key, Replica>): set<Key> {
    set n | n in server && n !in cache
  }

  function Unseen(s: State): set<Key> {
    Missing(s.server, s.cache)
  }

  /** Creations nobody has counted yet: calls to come, VMs not in the cache, events not handled. */
  function Outstanding(s: State): nat {
    (if s.work.Creating? then s.work.left else 0) + |Unseen(s)| + |s.born|
  }

  /** The cache shows every VM in an earlier condition than the server. */
  predicate Lags(s: State) {
    && (forall n :: n in s.server ==> n < s.nextId)
    && (forall n :: n in s.cache ==> n < s.nextId)
    && (forall n :: n in s.server && n in s.cache ==>
          (s.cache[n].deleting ==> s.server[n].deleting) && (s.cache[n].health.Finished? ==> s.server[n].health.Finished?))
    && (forall n :: n in s.died ==>
          && n < s.nextId
          && (n !in s.server || s.server[n].deleting) && (n !in s.cache || s.cache[n].deleting))
  }

  predicate Counted(s: State) {
    && Outstanding(s) <= Adds(s.book)
    && Balanced(s.book)
    && (s.work.Checked? && s.work.sync ==> Outstanding(s) == 0 && Tracked(s.book) == {})
  }

  /** Active in the cache but no longer on the server: expected, or lost. What is lost is not active. */
  predicate Accounted(s: State) {
    && (forall n :: n in ActiveNames(s.cache) && n !in ActiveNames(s.server) ==> n in Tracked(s.book) || n in s.lost)
    && (forall n :: n in s.lost ==> n < s.nextId && n !in ActiveNames(s.server))
    && (forall n :: n in Tracked(s.book) ==> n < s.nextId)
  }

  predicate Bounded(s: State) {
    && (s.work.Creating? ==> |ActiveNames(s.server)| + s.work.left <= s.work.limit)
    && (s.work.Deleting? ==>
          && |s.work.kept| >= s.work.floor && s.work.kept !! s.work.todo
          && s.work.kept + s.work.todo <= ActiveNames(s.server) + s.lost
          && (forall n :: n in s.work.todo && n in ActiveNames(s.server) ==> n in Tracked(s.book)))
  }

  predicate Inv(s: State) {
    Lags(s) && Counted(s) && Accounted(s) && Bounded(s)
  }

  /* ---------- small facts about cardinalities ---------- */

  lemma SubsetSize<T>(a: set<T>, b: set<T>)
    requires a <= b
    ensures |a| <= |b|
    decreases |a|
  {
    if a != {} {
      var x :| x in a;
      SubsetSize(a - {x}, b - {x});
    }
  }

  lemma OneMore<T>(a: set<T>, b: set<T>, x: T)
    requires x !in a && b == a + {x}
    ensures |b| == |a| + 1
  {
  }

  lemma OneMoreEvent<T>(m: multiset<T>, x: T)
    ensures |m + multiset{x}| == |m| + 1
  {
  }

  lemma ActiveUpdated(m: map<Key, Replica>, n: Key, r: Replica)
    ensures ActiveNames(m[n := r]) == if Active(r) then ActiveNames(m) + {n} else ActiveNames(m) - {n}
  {
  }

  lemma ActiveAreSeen(s: State)
    requires Lags(s) && Unseen(s) == {}
    ensures ActiveNames(s.server) <= ActiveNames(s.cache)
  {
    forall n | n in ActiveNames(s.server) ensures n in ActiveNames(s.cache) {
      assert n !in Unseen(s);
    }
  }

  lemma FulfilledMeansNothingTracked(b: Book)
    requires Balanced(b) && Fulfilled(b)
    ensures Tracked(b) == {}
  {
  }

  /* ---------- the controller's own steps ---------- */

  lemma BeginKeepsInv(s: State, replicas: nat, paused: bool)
    requires Inv(s)
    ensures Inv(Next(s, Begin(replicas, paused)))
  {
    if s.work.Idle? && Fulfilled(s.book) { FulfilledMeansNothingTracked(s.book); }
  }

  /** Scaling up: the server holds no more active VMs than the cache shows. */
  lemma ScaleUpKeepsInv(s: State, n: nat)
    requires Inv(s) && s.work.Checked? && s.work.sync && |ActiveNames(s.cache)| + n <= s.work.replicas
    ensures Inv(s.(book := WithCreations(s.book, n, 0), work := Creating(n, s.work.replicas, ToClean(s.cache))))
  {
    assert |Unseen(s)| == 0;
    ActiveAreSeen(s);
    SubsetSize(ActiveNames(s.server), ActiveNames(s.cache));
  }

  /** Scaling down: what is active in the cache is active on the server or lost. */
  lemma ScaleDownKeepsInv(s: State, victims: set<Key>)
    requires Inv(s) && s.work.Checked? && s.work.sync && victims <= ActiveNames(s.cache)
    requires |ActiveNames(s.cache)| - |victims| >= s.work.replicas
    ensures Inv(s.(book := WithDeletions(victims, 0),
                   work := Deleting(victims, ActiveNames(s.cache) - victims, s.work.replicas, ToClean(s.cache))))
  {
    var active := ActiveNames(s.cache);
    assert active <= ActiveNames(s.server) + s.lost;
    assert |active - victims| == |active| - |victims|;
  }

  lemma ScaleKeepsInv(s: State, victims: set<Key>)
    requires Inv(s) && s.work.Checked?
    ensures Inv(Scale(s, victims))
  {
    var active, r := ActiveNames(s.cache), s.work.replicas;
    if s.work.sync {
      if |active| < r {
        ScaleUpKeepsInv(s, Min(r - |active|, BURST_REPLICAS));
      } else if |active| > r && victims <= active && |victims| == Min(|active| - r, BURST_REPLICAS) {
        ScaleDownKeepsInv(s, victims);
      }
    }
  }

  lemma CreatedIsMissing(server: map<Key, Replica>, cache: map<Key, Replica>, n: Key, r: Replica)
    requires n !in server && n !in cache
    ensures |Missing(server[n := r], cache)| == |Missing(server, cache)| + 1
  {
    OneMore(Missing(server, cache), Missing(server[n := r], cache), n);
  }

  lemma CreatedLags(s: State, t: State)
    requires Lags(s) && t.server == s.server[s.nextId := Replica(Alive, false)]
    requires t.cache == s.cache && t.died == s.died && t.nextId == s.nextId + 1
    ensures Lags(t)
  {
  }

  lemma CreatedKeepsInv(s: State)
    requires Inv(s) && s.work.Creating? && s.work.left > 0
    ensures Inv(Next(s, CreateCall(true)))
  {
    CreatedLags(s, Next(s, CreateCall(true)));
    CreatedIsMissing(s.server, s.cache, s.nextId, Replica(Alive, false));
    ActiveUpdated(s.server, s.nextId, Replica(Alive, false));
  }

  lemma CreateKeepsInv(s: State, ok: bool)
    requires Inv(s)
    ensures Inv(Next(s, CreateCall(ok)))
  {
    if s.work.Creating? && s.work.left > 0 {
      if ok { CreatedKeepsInv(s); } else { ApplyKeepsBalanced(s.book, CreationObserved); }
    }
  }

  lemma RemovedActive(m: map<Key, Replica>, n: Key, gone: bool)
    ensures ActiveNames(Removed(m, n, gone)) == ActiveNames(m) - {n}
    ensures Removed(m, n, gone).Keys <= m.Keys
    ensures forall k :: k in Removed(m, n, gone) ==>
              (m[k].deleting ==> Removed(m, n, gone)[k].deleting) && m[k].health == Removed(m, n, gone)[k].health
  {
  }

  /** VMs leave the server or get worse there. */
  lemma DecayKeeps(s: State, t: State)
    requires Lags(s) && t.server.Keys <= s.server.Keys
    requires t.cache == s.cache && t.died == s.died && t.nextId == s.nextId
    requires forall k :: k in t.server ==>
               (s.server[k].deleting ==> t.server[k].deleting) && (s.server[k].health.Finished? ==> t.server[k].health.Finished?)
    ensures Lags(t) && |Unseen(t)| <= |Unseen(s)|
  {
    SubsetSize(Unseen(t), Unseen(s));
  }

  lemma DeletedStaysBounded(s: State, t: State, n: Key, gone: bool)
    requires Bounded(s) && s.work.Deleting? && n in s.work.todo
    requires t == s.(work := s.work.(todo := s.work.todo - {n}), server := Removed(s.server, n, gone))
    ensures Bounded(t)
  {
    RemovedActive(s.server, n, gone);
  }

  lemma DeletedKeepsInv(s: State, n: Key, gone: bool)
    requires Inv(s) && s.work.Deleting? && n in s.work.todo
    ensures Inv(Next(s, DeleteCall(n, true, gone)))
  {
    RemovedActive(s.server, n, gone);
    DecayKeeps(s, Next(s, DeleteCall(n, true, gone)));
    DeletedStaysBounded(s, Next(s, DeleteCall(n, true, gone)), n, gone);
  }

  lemma NotDeletedKeepsInv(s: State, n: Key, gone: bool)
    requires Inv(s) && s.work.Deleting? && n in s.work.todo
    ensures Inv(Next(s, DeleteCall(n, false, gone)))
  {
    ApplyKeepsBalanced(s.book, DeletionObserved(n));
  }

  lemma CleanedKeepsInv(s: State, n: Key, gone: bool)
    requires Inv(s) && s.work.Cleaning? && n in s.work.todo
    ensures Inv(Next(s, CleanCall(n, true, gone)))
  {
    RemovedActive(s.server, n, gone);
    OutsideKeepsInv(s, Next(s, CleanCall(n, true, gone)).(work := s.work), n);
  }

  lemma NotCleanedKeepsInv(s: State, n: Key, gone: bool)
    requires Inv(s) && s.work.Cleaning? && n in s.work.todo
    ensures Inv(Next(s, CleanCall(n, false, gone)))
  {
    ApplyKeepsBalanced(s.book, DeletionObserved(n));
  }

  /* ---------- the informer ---------- */

  lemma SeenLags(s: State, t: State, n: Key)
    requires Lags(s) && n in s.server && t.cache == s.cache[n := s.server[n]]
    requires t.server == s.server && t.nextId == s.nextId
    requires t.died == if s.server[n].deleting then s.died + multiset{n} else s.died
    ensures Lags(t)
  {
    assert forall k :: k in t.died ==> k in s.died || (k == n && s.server[n].deleting);
  }

  lemma UnseenLags(s: State, t: State, n: Key)
    requires Lags(s) && n !in s.server && n in s.cache && t.cache == s.cache - {n}
    requires t.server == s.server && t.nextId == s.nextId && t.died == s.died + multiset{n}
    ensures Lags(t)
  {
    assert forall k :: k in t.died ==> k in s.died || k == n;
  }

  lemma ObservedLags(s: State, n: Key)
    requires Lags(s)
    ensures Lags(Observed(s, n))
  {
    if n in s.server {
      if n !in s.cache || s.cache[n] != s.server[n] { SeenLags(s, Observed(s, n), n); }
    } else if n in s.cache {
      UnseenLags(s, Observed(s, n), n);
    }
  }

  /** A VM first seen turns into an event to handle. */
  lemma ObservedMissing(server: map<Key, Replica>, cache: map<Key, Replica>, n: Key)
    requires n in server
    ensures |Missing(server, cache[n := server[n]])| == |Missing(server, cache)| - if n in cache then 0 else 1
  {
    if n in cache {
      assert Missing(server, cache[n := server[n]]) == Missing(server, cache);
    } else {
      OneMore(Missing(server, cache[n := server[n]]), Missing(server, cache), n);
    }
  }

  lemma ObservedOutstanding(s: State, n: Key)
    ensures Outstanding(Observed(s, n)) <= Outstanding(s)
  {
    if n in s.server {
      ObservedMissing(s.server, s.cache, n);
      OneMoreEvent(s.born, n);
    } else {
      assert Missing(s.server, s.cache - {n}) == Missing(s.server, s.cache);
    }
  }

  lemma ObservedActive(s: State, n: Key)
    ensures forall k :: k in ActiveNames(Observed(s, n).cache) ==> k in ActiveNames(s.cache) || k in ActiveNames(s.server)
  {
  }

  lemma ObserveKeepsInv(s: State, n: Key)
    requires Inv(s)
    ensures Inv(Observed(s, n))
  {
    ObservedLags(s, n);
    ObservedOutstanding(s, n);
    ObservedActive(s, n);
  }

  lemma HandleBornKeepsInv(s: State, n: Key, dropped: bool)
    requires Inv(s)
    ensures Inv(Next(s, HandleBorn(n, dropped)))
  {
    if n in s.born {
      assert |s.born - multiset{n}| == |s.born| - 1;
      ApplyKeepsBalanced(s.book, CreationObserved);
    }
  }

  lemma HandleDiedKeepsInv(s: State, n: Key, dropped: bool)
    requires Inv(s)
    ensures Inv(Next(s, HandleDied(n, dropped)))
  {
    if n in s.died {
      ApplyKeepsBalanced(s.book, DeletionObserved(n));
      assert forall k :: k in s.died - multiset{n} ==> k in s.died;
    }
  }

  /* ---------- the rest of the cluster ---------- */

  /** VMs get worse on the server, and at most n stops being active, which makes it lost. */
  lemma OutsideKeepsInv(s: State, t: State, n: Key)
    requires Inv(s) && t == s.(server := t.server, lost := t.lost)
    requires t.server.Keys <= s.server.Keys
    requires forall k :: k in t.server ==>
               (s.server[k].deleting ==> t.server[k].deleting) && (s.server[k].health.Finished? ==> t.server[k].health.Finished?)
    requires ActiveNames(s.server) - {n} <= ActiveNames(t.server) <= ActiveNames(s.server)
    requires t.lost == s.lost + If(n in ActiveNames(s.server) && n !in ActiveNames(t.server), n)
    ensures Inv(t)
  {
    DecayKeeps(s, t);
    SubsetSize(ActiveNames(t.server), ActiveNames(s.server));
  }

  lemma HealthWorsens(m: map<Key, Replica>, n: Key, h: Health)
    requires n in m && !m[n].health.Finished?
    ensures var m' := m[n := m[n].(health := h)];
            && m'.Keys == m.Keys
            && (forall k :: k in m' ==> (m[k].deleting ==> m'[k].deleting) && (m[k].health.Finished? ==> m'[k].health.Finished?))
            && ActiveNames(m) - {n} <= ActiveNames(m') <= ActiveNames(m)
            && (n in ActiveNames(m) && n !in ActiveNames(m') <==> n in ActiveNames(m) && h.Finished?)
  {
    ActiveUpdated(m, n, m[n].(health := h));
  }

  lemma HealthKeepsInv(s: State, n: Key, h: Health)
    requires Inv(s)
    ensures Inv(Next(s, HealthChanges(n, h)))
  {
    if n in s.server && !s.server[n].health.Finished? {
      HealthWorsens(s.server, n, h);
      OutsideKeepsInv(s, Next(s, HealthChanges(n, h)), n);
    }
  }

  lemma OutsideDeleteKeepsInv(s: State, n: Key, gone: bool)
    requires Inv(s)
    ensures Inv(Next(s, OutsideDelete(n, gone)))
  {
    RemovedActive(s.server, n, gone);
    OutsideKeepsInv(s, Next(s, OutsideDelete(n, gone)), n);
  }

  lemma VanishKeepsInv(s: State, n: Key)
    requires Inv(s)
    ensures Inv(Next(s, Vanish(n)))
  {
    if n in s.server && s.server[n].deleting {
      RemovedActive(s.server, n, true);
      OutsideKeepsInv(s, Next(s, Vanish(n)), n);
    }
  }

  lemma OwnStepKeepsInv(s: State, step: Step)
    requires Inv(s) && (step.CreateCall? || step.DeleteCall? || step.CleanCall? || step.EndScaling? || step.EndCleaning?)
    ensures Inv(Next(s, step))
  {
    match step
    case CreateCall(ok) => CreateKeepsInv(s, ok);
    case DeleteCall(n, ok, gone) =>
      if s.work.Deleting? && n in s.work.todo {
        if ok { DeletedKeepsInv(s, n, gone); } else { NotDeletedKeepsInv(s, n, gone); }
      }
    case CleanCall(n, ok, gone) =>
      if s.work.Cleaning? && n in s.work.todo {
        if ok { CleanedKeepsInv(s, n, gone); } else { NotCleanedKeepsInv(s, n, gone); }
      }
    case EndScaling(_) =>
    case EndCleaning =>
  }

  lemma NextKeepsInv(s: State, step: Step)
    requires Inv(s)
    ensures Inv(Next(s, step))
  {
    match step
    case Begin(replicas, paused) => BeginKeepsInv(s, replicas, paused);
    case List(victims) => if s.work.Checked? { ScaleKeepsInv(s, victims); }
    case Observe(n) => ObserveKeepsInv(s, n);
    case HandleBorn(n, dropped) => HandleBornKeepsInv(s, n, dropped);
    case HandleDied(n, dropped) => HandleDiedKeepsInv(s, n, dropped);
    case HealthChanges(n, h) => HealthKeepsInv(s, n, h);
    case OutsideDelete(n, gone) => OutsideDeleteKeepsInv(s, n, gone);
    case Vanish(n) => VanishKeepsInv(s, n);
    case _ => OwnStepKeepsInv(s, step);
  }

  lemma {:induction false} RunKeepsInv(s: State, steps: seq<Step>)
    requires Inv(s)
    ensures Inv(Run(s, steps))
    decreases |steps|
  {
    if steps != [] {
      NextKeepsInv(s, steps[0]);
      RunKeepsInv(Next(s, steps[0]), steps[1..]);
    }
  }

  /* ---------- the theorems ---------- */

  lemma StartIsInv(s: State)
    requires Start(s)
    ensures Inv(s)
  {
    assert Unseen(s) == {};
  }

  /** While a reconcile creates VMs, the active VMs on the server together with the creations still
      to come never exceed the replica count it read, however old its cache was. */
  lemma NeverOvershoots(init: State, steps: seq<Step>)
    requires Start(init)
    ensures var s := Run(init, steps);
            s.work.Creating? ==> |ActiveNames(s.server)| + s.work.left <= s.work.limit
  {
    StartIsInv(init);
    RunKeepsInv(init, steps);
  }

  /** While a reconcile deletes VMs: it listed at least as many others as the replica count it read,
      deletes none of them, and each is still active on the server or was itself lost. So the active
      VMs it leaves fall below that count by no more than the listed ones that were lost. */
  lemma NeverUndershoots(init: State, steps: seq<Step>)
    requires Start(init)
    ensures var s := Run(init, steps);
            s.work.Deleting? ==>
              && |s.work.kept| >= s.work.floor && s.work.kept !! s.work.todo
              && (forall n :: n in s.work.kept ==> n in ActiveNames(s.server) || n in s.lost)
              && |ActiveNames(s.server) - s.work.todo| + |s.work.kept * s.lost| >= s.work.floor
  {
    StartIsInv(init);
    RunKeepsInv(init, steps);
    var s := Run(init, steps);
    if s.work.Deleting? { KeptRemain(ActiveNames(s.server), s.lost, s.work.kept, s.work.todo); }
  }

  lemma KeptRemain(active: set<Key>, lost: set<Key>, kept: set<Key>, todo: set<Key>)
    requires kept !! todo && kept <= active + lost
    ensures |active - todo| + |kept * lost| >= |kept|
  {
    SubsetSize(kept - lost, active - todo);
    assert kept == (kept - lost) + (kept * lost);
  }

  /** A VM counts as lost only if it is not active on the server. */
  lemma LostAreGone(init: State, steps: seq<Step>)
    requires Start(init)
    ensures var s := Run(init, steps); s.lost !! ActiveNames(s.server)
  {
    StartIsInv(init);
    RunKeepsInv(init, steps);
  }

  /** A reconcile that may scale sees every VM there is and waits for no deletion. */
  lemma SyncSeesEverything(init: State, steps: seq<Step>)
    requires Start(init)
    ensures var s := Run(init, steps);
            s.work.Checked? && s.work.sync ==>
              ActiveNames(s.server) <= ActiveNames(s.cache) <= ActiveNames(s.server) + s.lost
  {
    StartIsInv(init);
    RunKeepsInv(init, steps);
    var s := Run(init, steps);
    if s.work.Checked? && s.work.sync {
      assert |Unseen(s)| == 0;
      ActiveAreSeen(s);
    }
  }

  /* ---------- a run that gets there ---------- */

  const ALIVE := Replica(Alive, false)
  const NO_VMS := State(map[], map[], multiset{}, multiset{}, EMPTY, Idle, 0, {})

  /** Two VMs are wanted, and one of the two create calls is made. */
  const GROWING: seq<Step> := [Begin(2, false), List({}), CreateCall(true)]

  /** The other call, and everything is observed. */
  const GROWN: seq<Step> := [
    CreateCall(true), EndScaling(false), Observe(0), Observe(1), HandleBorn(0, false), HandleBorn(1, false)]

  /** Now only one is wanted. */
  const SHRINKING: seq<Step> := [Begin(1, false), List({1})]

  lemma {:induction false} RunConcat(s: State, a: seq<Step>, b: seq<Step>)
    ensures Run(s, a + b) == Run(Run(s, a), b)
    decreases |a|
  {
    if a == [] {
      assert a + b == b;
    } else {
      assert (a + b)[1..] == a[1..] + b;
      RunConcat(Next(s, a[0]), a[1..], b);
    }
  }

  const ONE := State(map[0 := ALIVE], map[], multiset{}, multiset{}, WithCreations(EMPTY, 2, 0), Creating(1, 2, {}), 1, {})
  const BOTH := map[0 := ALIVE, 1 := ALIVE]
  const TWO := State(BOTH, BOTH, multiset{}, multiset{}, WithCreations(EMPTY, 0, 0), Idle, 2, {})

  lemma Grows()
    ensures Run(NO_VMS, GROWING) == ONE
  {
    var s := NO_VMS.(work := Checked(true, 2));
    assert ActiveNames(map[]) == {} && ToClean(map[]) == {};
    var t := s.(book := WithCreations(EMPTY, 2, 0), work := Creating(2, 2, {}));
    assert Next(t, CreateCall(true)) == ONE;
    assert GROWING[1..] == [List({}), CreateCall(true)] && GROWING[1..][1..] == [CreateCall(true)];
    assert [CreateCall(true)][1..] == [];
    assert Run(t, [CreateCall(true)]) == ONE;
  }

  lemma Settles()
    ensures Run(ONE, GROWN) == TWO
  {
    var s := State(BOTH, map[], multiset{}, multiset{}, WithCreations(EMPTY, 2, 0), Creating(0, 2, {}), 2, {});
    assert Next(ONE, GROWN[0]) == s;
    var t := s.(work := Idle);
    var u := t.(cache := map[0 := ALIVE], born := multiset{0});
    assert Next(t, Observe(0)) == u;
    var v := u.(cache := BOTH, born := multiset{0, 1});
    assert Next(u, Observe(1)) == v;
    var w := v.(born := multiset{1}, book := WithCreations(EMPTY, 1, 0));
    assert Next(v, HandleBorn(0, false)) == w;
    assert Next(w, HandleBorn(1, false)) == TWO;
    assert GROWN[6..] == [];
    assert Run(w, GROWN[5..]) == TWO by { assert GROWN[5..][1..] == GROWN[6..]; }
    assert Run(v, GROWN[4..]) == TWO by { assert GROWN[4..][1..] == GROWN[5..]; }
    assert Run(u, GROWN[3..]) == TWO by { assert GROWN[3..][1..] == GROWN[4..]; }
    assert Run(t, GROWN[2..]) == TWO by { assert GROWN[2..][1..] == GROWN[3..]; }
    assert Run(s, GROWN[1..]) == TWO by { assert GROWN[1..][1..] == GROWN[2..]; }
  }

  lemma Shrinks()
    ensures Run(TWO, SHRINKING).work == Deleting({1}, {0}, 1, {}) && Run(TWO, SHRINKING).server == BOTH
  {
    assert ActiveNames(BOTH) == {0, 1} && ToClean(BOTH) == {} && {0, 1} - {1} == {0};
    var s := TWO.(work := Checked(true, 1));
    assert Next(TWO, SHRINKING[0]) == s;
    var t := Next(s, SHRINKING[1]);
    assert SHRINKING[1..] == [List({1})] && [List({1})][1..] == [];
    assert Run(t, []) == t;
  }

  /** From a fresh start a run creates with a call to come, and the same run later deletes with a call
      to come: what the theorems speak of does happen. */
  lemma BothHappen()
    ensures Start(NO_VMS)
    ensures var s := Run(NO_VMS, GROWING); s.work == Creating(1, 2, {}) && ActiveNames(s.server) == {0}
    ensures var s := Run(NO_VMS, GROWING + GROWN + SHRINKING);
            s.work == Deleting({1}, {0}, 1, {}) && ActiveNames(s.server) == {0, 1}
  {
    RunConcat(NO_VMS, GROWING + GROWN, SHRINKING);
    RunConcat(NO_VMS, GROWING, GROWN);
    Grows();
    Settles();
    Shrinks();
  }
}
