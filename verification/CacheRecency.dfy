/** What least recently used means: the order of the cache, and what an insertion lets go of, told
    from the operations made on it. */
module CacheRecency {
  import opened CacheSpec
  import opened CacheLaws
  import opened CacheTheorems

  // ---- One hit ----------------------------------------------------------------------

  /** After a hit, an insertion of another entry keeps the key if and only if the entry is too big
      to be kept, or anything is kept beside it; and then it keeps the value and the weight. */
  lemma HitSurvives<T>(c: Cache<T>, capacity: int, maxBytes: int, held: Entry<T>, e: Entry<T>)
    requires Bounded(c, capacity, maxBytes) && 1 <= capacity && WellFormed(e) && held in c.lru && e.key != held.key
    ensures var after := Added(Touched(c, held.key), capacity, maxBytes, e).lru;
      && (Holds(after, held.key) <==> Oversized(e, maxBytes) || 2 <= |after|)
      && (Holds(after, held.key) <==> held in after)
  {
    var t := Touched(c, held.key);
    TouchKeepsBounds(c, capacity, maxBytes, held.key);
    HitIsLast(c, held);
    AddOutcome(t, capacity, maxBytes, e);
    LastStays(t.lru, e.key);
    var others, after := Without(t.lru, e.key), Added(t, capacity, maxBytes, e).lru;
    hide Added, Touched, Without, Bounded;
    if !Oversized(e, maxBytes) {
      var n: nat :| n <= |others| && after == others[n..] + [e];
      if n < |others| {
        assert after[|after| - 2] == held;
      } else {
        assert after == [e];
      }
    }
  }

  lemma HitIsLast<T>(c: Cache<T>, held: Entry<T>)
    requires DistinctKeys(c.lru) && held in c.lru
    ensures var t := Touched(c, held.key).lru; t != [] && t[|t| - 1] == held
  {
    HitMovesLast(c, held.key);
    WithoutElements(c.lru, held);
    hide Touched, Without;
  }

  lemma {:induction false} LastStays<T>(lru: seq<Entry<T>>, key: string)
    requires lru != [] && lru[|lru| - 1].key != key
    ensures var others := Without(lru, key); others != [] && others[|others| - 1] == lru[|lru| - 1]
  {
    if lru[0].key != key && |lru| > 1 { LastStays(lru[1..], key); }
  }

  // ---- A history of lookups and insertions ------------------------------------------

  datatype Op<T> = Get(key: string) | Put(entry: Entry<T>)

  predicate Uses<T>(op: Op<T>, key: string) {
    match op case Get(k) => k == key case Put(e) => e.key == key
  }

  ghost predicate Proper<T>(ops: seq<Op<T>>) { forall op | op in ops && op.Put? :: WellFormed(op.entry) }

  /** An empty cache after these operations. */
  function After<T>(ops: seq<Op<T>>, capacity: int, maxBytes: int): Cache<T> {
    if ops == [] then Cache([], map[], 0)
    else
      var before := After(ops[..|ops| - 1], capacity, maxBytes);
      match ops[|ops| - 1]
      case Get(key) => Touched(before, key)
      case Put(e) => Added(before, capacity, maxBytes, e)
  }

  /** When a key was last looked up or inserted, or -1. */
  function LastUse<T>(ops: seq<Op<T>>, key: string): (i: int)
    ensures -1 <= i < |ops|
    ensures i >= 0 ==> Uses(ops[i], key)
    ensures forall k | i < k < |ops| :: !Uses(ops[k], key)
  {
    if ops == [] then -1 else if Uses(ops[|ops| - 1], key) then |ops| - 1 else LastUse(ops[..|ops| - 1], key)
  }

  ghost predicate ByUse<T>(lru: seq<Entry<T>>, ops: seq<Op<T>>) {
    forall i, k | 0 <= i < k < |lru| :: LastUse(ops, lru[i].key) < LastUse(ops, lru[k].key)
  }

  ghost predicate Precedes<T>(lru: seq<Entry<T>>, d: Entry<T>, e: Entry<T>) {
    exists a, b | 0 <= a < b < |lru| :: lru[a] == d && lru[b] == e
  }

  /** Every entry of `now` was there before, and they stand in the same order. */
  ghost predicate Thins<T>(was: seq<Entry<T>>, now: seq<Entry<T>>) {
    && (forall i | 0 <= i < |now| :: now[i] in was)
    && (forall i, k | 0 <= i < k < |now| :: Precedes(was, now[i], now[k]))
  }

  lemma ThinsNot<T>(lru: seq<Entry<T>>)
    ensures Thins(lru, lru)
  {
    forall i, k | 0 <= i < k < |lru|
      ensures Precedes(lru, lru[i], lru[k])
    {
    }
  }

  lemma DroppingThins<T>(lru: seq<Entry<T>>, n: nat)
    requires n < |lru|
    ensures Thins(lru, lru[..n] + lru[n + 1..])
  {
    var now := lru[..n] + lru[n + 1..];
    forall i, k | 0 <= i < k < |now|
      ensures Precedes(lru, now[i], now[k])
    {
      assert now[i] == lru[if i < n then i else i + 1] && now[k] == lru[if k < n then k else k + 1];
    }
  }

  lemma WithoutThins<T>(lru: seq<Entry<T>>, key: string)
    requires DistinctKeys(lru)
    ensures Thins(lru, Without(lru, key))
    ensures forall e | e in Without(lru, key) :: e.key != key
  {
    if Holds(lru, key) {
      var n := Find(lru, key);
      WithoutSplits(lru, n);
      DroppingThins(lru, n);
    } else {
      WithoutAbsent(lru, key);
      ThinsNot(lru);
    }
    forall e | e in Without(lru, key)
      ensures e.key != key
    {
      WithoutMembers(lru, key, e);
    }
  }

  lemma SuffixThins<T>(was: seq<Entry<T>>, now: seq<Entry<T>>, n: nat)
    requires Thins(was, now) && n <= |now|
    ensures Thins(was, now[n..])
  {
    forall i, k | 0 <= i < k < |now[n..]|
      ensures Precedes(was, now[n..][i], now[n..][k])
    {
      assert Precedes(was, now[n + i], now[n + k]);
    }
  }

  lemma UseIsOrder<T>(lru: seq<Entry<T>>, ops: seq<Op<T>>, d: Entry<T>, e: Entry<T>)
    requires ByUse(lru, ops) && Precedes(lru, d, e)
    ensures LastUse(ops, d.key) < LastUse(ops, e.key)
  {
  }

  lemma OtherUse<T>(ops: seq<Op<T>>, op: Op<T>, key: string)
    ensures LastUse(ops + [op], key) == if Uses(op, key) then |ops| else LastUse(ops, key)
  {
    assert (ops + [op])[..|ops|] == ops;
  }

  /** The rest stays in order of use, and what was just used comes last. */
  lemma StaysByUse<T>(was: seq<Entry<T>>, rest: seq<Entry<T>>, e: Entry<T>, ops: seq<Op<T>>, op: Op<T>)
    requires ByUse(was, ops) && Thins(was, rest) && Uses(op, e.key)
    requires forall d | d in rest :: !Uses(op, d.key)
    ensures ByUse(rest, ops + [op]) && ByUse(rest + [e], ops + [op])
  {
    var more := ops + [op];
    forall i, k | 0 <= i < k < |rest|
      ensures LastUse(more, rest[i].key) < LastUse(more, rest[k].key)
    {
      assert rest[i] in rest && rest[k] in rest;
      UseIsOrder(was, ops, rest[i], rest[k]);
      OtherUse(ops, op, rest[i].key);
      OtherUse(ops, op, rest[k].key);
    }
    forall i | 0 <= i < |rest|
      ensures LastUse(more, rest[i].key) < |ops|
    {
      assert rest[i] in rest;
      OtherUse(ops, op, rest[i].key);
    }
    OtherUse(ops, op, e.key);
  }

  lemma GetStaysByUse<T>(c: Cache<T>, key: string, ops: seq<Op<T>>)
    requires DistinctKeys(c.lru) && ByUse(c.lru, ops)
    ensures ByUse(Touched(c, key).lru, ops + [Get(key)])
  {
    var now := Touched(c, key).lru;
    HitMovesLast(c, key);
    WithoutThins(c.lru, key);
    if Holds(c.lru, key) {
      var n := Find(c.lru, key);
      WithoutSplits(c.lru, n);
      StaysByUse(c.lru, Without(c.lru, key), c.lru[n], ops, Get(key));
      var i :| 0 <= i < |c.lru| && c.lru[i].key == key && now == c.lru[..i] + c.lru[i + 1..] + [c.lru[i]];
      assert i == n;
    } else {
      forall i | 0 <= i < |c.lru|
        ensures LastUse(ops + [Get(key)], c.lru[i].key) == LastUse(ops, c.lru[i].key)
      {
        OtherUse(ops, Get(key), c.lru[i].key);
      }
    }
  }

  lemma PutStaysByUse<T>(c: Cache<T>, capacity: int, maxBytes: int, e: Entry<T>, ops: seq<Op<T>>)
    requires Bounded(c, capacity, maxBytes) && 1 <= capacity && WellFormed(e) && ByUse(c.lru, ops)
    ensures ByUse(Added(c, capacity, maxBytes, e).lru, ops + [Put(e)])
  {
    AddOutcome(c, capacity, maxBytes, e);
    WithoutThins(c.lru, e.key);
    var others, after := Without(c.lru, e.key), Added(c, capacity, maxBytes, e).lru;
    hide Added, Bounded, Without, Thins, ByUse;
    if Oversized(e, maxBytes) {
      StaysByUse(c.lru, others, e, ops, Put(e));
    } else {
      var n: nat :| n <= |others| && after == others[n..] + [e];
      SuffixThins(c.lru, others, n);
      StaysByUse(c.lru, others[n..], e, ops, Put(e));
    }
  }

  /** Whatever lookups and insertions were made, the entries held stand in the order in which their
      keys were last looked up or inserted. */
  lemma {:induction false} OrderIsUse<T>(ops: seq<Op<T>>, capacity: int, maxBytes: int)
    requires Proper(ops) && 1 <= capacity && 0 <= maxBytes
    ensures Bounded(After(ops, capacity, maxBytes), capacity, maxBytes)
    ensures ByUse(After(ops, capacity, maxBytes).lru, ops)
  {
    if ops == [] {
      EmptyIsBounded<T>(capacity, maxBytes);
    } else {
      var front, op := ops[..|ops| - 1], ops[|ops| - 1];
      OrderIsUse(front, capacity, maxBytes);
      var c := After(front, capacity, maxBytes);
      assert ops == front + [op] && DistinctKeys(c.lru);
      hide Bounded, ByUse;
      match op {
        case Get(key) =>
          TouchKeepsBounds(c, capacity, maxBytes, key);
          GetStaysByUse(c, key, front);
        case Put(e) =>
          assert WellFormed(e);
          AddOutcome(c, capacity, maxBytes, e);
          PutStaysByUse(c, capacity, maxBytes, e, front);
      }
    }
  }

  lemma EmptyIsBounded<T>(capacity: int, maxBytes: int)
    requires 1 <= capacity && 0 <= maxBytes
    ensures var c: Cache<T> := Cache([], map[], 0); Bounded(c, capacity, maxBytes)
  {
  }

  lemma GoneBeforeKept<T>(was: seq<Entry<T>>, others: seq<Entry<T>>, n: nat, gone: Entry<T>, kept: Entry<T>,
                          now: seq<Entry<T>>, e: Entry<T>)
    requires Thins(was, others) && n <= |others| && now == others[n..] + [e]
    requires gone in others && gone !in now && kept in now && kept != e
    ensures Precedes(was, gone, kept)
  {
    var i :| 0 <= i < |others| && others[i] == gone;
    var m :| 0 <= m < |now| && now[m] == kept;
    assert others[n + m] == kept;
    assert forall k | n <= k < |others| :: now[k - n] == others[k];
    assert Precedes(was, others[i], others[n + m]);
  }

  /** An insertion lets go of the least recently used entries only: whatever it evicts was last
      used before anything it keeps. */
  lemma EvictsLeastRecentlyUsed<T>(ops: seq<Op<T>>, capacity: int, maxBytes: int, e: Entry<T>, gone: Entry<T>, kept: Entry<T>)
    requires Proper(ops) && 1 <= capacity && 0 <= maxBytes && WellFormed(e)
    requires var was, now := After(ops, capacity, maxBytes).lru, After(ops + [Put(e)], capacity, maxBytes).lru;
      && gone in was && gone !in now && gone.key != e.key
      && kept in was && kept in now && kept.key != e.key
    ensures LastUse(ops, gone.key) < LastUse(ops, kept.key)
  {
    var c := After(ops, capacity, maxBytes);
    assert (ops + [Put(e)])[..|ops|] == ops;
    OrderIsUse(ops, capacity, maxBytes);
    AddOutcome(c, capacity, maxBytes, e);
    WithoutThins(c.lru, e.key);
    WithoutMembers(c.lru, e.key, gone);
    WithoutMembers(c.lru, e.key, kept);
    var others, now := Without(c.lru, e.key), Added(c, capacity, maxBytes, e).lru;
    hide After, Added, Bounded, Without;
    assert !Oversized(e, maxBytes);
    var n: nat :| n <= |others| && now == others[n..] + [e];
    GoneBeforeKept(c.lru, others, n, gone, kept, now, e);
    UseIsOrder(c.lru, ops, gone, kept);
  }
}
