/** The laws of the cache: what every operation keeps, which entries an insertion evicts, and
    the plain least-recently-used list the whole class refines. */
module CacheLaws {
  import opened CacheSpec

  // ---- Accounting -------------------------------------------------------------------

  predicate Owns(items: seq<Resource>, key: string) {
    exists r | r in items :: r.key == key
  }

  /** How many entries own the shared resource. */
  function Owners<T>(lru: seq<Entry<T>>, key: string): nat {
    if lru == [] then 0 else (if Owns(lru[0].resources, key) then 1 else 0) + Owners(lru[1..], key)
  }

  function Weights<T>(lru: seq<Entry<T>>): int {
    if lru == [] then 0 else lru[0].weight + Weights(lru[1..])
  }

  ghost function SharedTotal(shared: map<string, Use>): int {
    if shared == map[] then 0
    else
      var k :| k in shared;
      shared[k].weight + SharedTotal(shared - {k})
  }

  predicate WellFormed<T>(e: Entry<T>) {
    && 0 <= e.weight
    && Distinct(e.resources)
    && forall r | r in e.resources :: 0 <= r.weight
  }

  ghost predicate DistinctKeys<T>(lru: seq<Entry<T>>) {
    forall i, j | 0 <= i < j < |lru| :: lru[i].key != lru[j].key
  }

  /** Every recorded weight covers all its current owners. */
  ghost predicate Covered<T>(lru: seq<Entry<T>>, shared: map<string, Use>) {
    forall e, r | e in lru && r in e.resources :: r.key in shared && r.weight <= shared[r.key].weight
  }

  /** The accounting the eviction loop relies on. */
  ghost predicate Accounted<T>(c: Cache<T>) {
    && (forall e | e in c.lru :: WellFormed(e))
    && DistinctKeys(c.lru)
    && (forall k: string :: k in c.shared <==> 0 < Owners(c.lru, k))
    && (forall k | k in c.shared :: c.shared[k].users == Owners(c.lru, k) && 0 <= c.shared[k].weight)
    && Covered(c.lru, c.shared)
    && c.bytes == Weights(c.lru) + SharedTotal(c.shared)
  }

  ghost predicate Bounded<T>(c: Cache<T>, capacity: int, maxBytes: int) {
    Accounted(c) && |c.lru| <= capacity && c.bytes <= maxBytes
  }

  ghost predicate Indexed<T>(entries: map<string, Entry<T>>, lru: seq<Entry<T>>) {
    && (forall e | e in lru :: e.key in entries && entries[e.key] == e)
    && (forall k | k in entries :: entries[k] in lru && entries[k].key == k)
    && DistinctKeys(lru)
  }

  // ---- Sums over the shared map -----------------------------------------------------

  lemma {:induction false} SharedTotalMinus(shared: map<string, Use>, key: string)
    requires key in shared
    ensures SharedTotal(shared) == shared[key].weight + SharedTotal(shared - {key})
    decreases |shared|
  {
    var k :| k in shared && SharedTotal(shared) == shared[k].weight + SharedTotal(shared - {k});
    if k != key {
      SharedTotalMinus(shared - {k}, key);
      SharedTotalMinus(shared - {key}, k);
      assert shared - {k} - {key} == shared - {key} - {k};
    }
  }

  lemma SharedTotalUpdate(shared: map<string, Use>, key: string, use: Use)
    ensures SharedTotal(shared[key := use]) == use.weight + SharedTotal(shared - {key})
  {
    SharedTotalMinus(shared[key := use], key);
    assert shared[key := use] - {key} == shared - {key};
  }

  lemma {:induction false} SharedTotalNonNegative(shared: map<string, Use>)
    requires forall k | k in shared :: 0 <= shared[k].weight
    ensures 0 <= SharedTotal(shared)
    decreases |shared|
  {
    if shared != map[] {
      var k :| k in shared && SharedTotal(shared) == shared[k].weight + SharedTotal(shared - {k});
      SharedTotalNonNegative(shared - {k});
    }
  }

  // ---- Grouping ---------------------------------------------------------------------

  lemma MergeKeepsOwned(groups: seq<Resource>, i: nat, merged: Resource, key: string)
    requires i < |groups| && merged.key == groups[i].key && Owns(groups, key)
    ensures Owns(groups[i := merged], key)
  {
    var g :| g in groups && g.key == key;
    var j :| 0 <= j < |groups| && groups[j] == g;
    assert groups[i := merged][j] in groups[i := merged];
  }

  /** Each key once, and at the largest weight the items give it. */
  ghost predicate Grouping(groups: seq<Resource>, items: seq<Resource>) {
    && Distinct(groups)
    && (forall r | r in items :: Owns(groups, r.key))
    && (forall g | g in groups :: g in items)
    && (forall g, r | g in groups && r in items && r.key == g.key :: r.weight <= g.weight)
  }

  lemma MergeKeepsGrouping(groups: seq<Resource>, items: seq<Resource>, i: nat, last: Resource)
    requires Grouping(groups, items) && i < |groups| && groups[i].key == last.key
    ensures Grouping(groups[i := Resource(last.key, Max(groups[i].weight, last.weight))], items + [last])
  {
    var merged := Resource(last.key, Max(groups[i].weight, last.weight));
    var now := groups[i := merged];
    assert groups[i] in groups;
    forall g | g in now
      ensures g == merged || (g in groups && g.key != last.key)
    {
      var j :| 0 <= j < |groups| && now[j] == g;
      assert j != i ==> groups[j] in groups;
    }
    assert now[i] == merged;
    forall r | r in items + [last]
      ensures Owns(now, r.key)
    {
      assert Owns(groups, r.key);
      MergeKeepsOwned(groups, i, merged, r.key);
    }
  }

  lemma AppendKeepsGrouping(groups: seq<Resource>, items: seq<Resource>, last: Resource)
    requires Grouping(groups, items) && forall g | g in groups :: g.key != last.key
    ensures Grouping(groups + [last], items + [last])
  {
    forall r | r in items + [last]
      ensures Owns(groups + [last], r.key)
    {
      if r in items {
        var g :| g in groups && g.key == r.key;
        assert g in groups + [last];
      } else {
        assert last in groups + [last];
      }
    }
    forall r | r in items
      ensures r.key != last.key
    {
      assert Owns(groups, r.key);
    }
  }

  lemma {:induction false} GroupedIsGrouping(items: seq<Resource>)
    ensures Grouping(Grouped(items), items)
  {
    if items != [] {
      var init, last := items[..|items| - 1], items[|items| - 1];
      GroupedIsGrouping(init);
      assert items == init + [last];
      var before := Grouped(init);
      var i := Position(before, last.key);
      hide Grouping;
      if i < |before| {
        MergeKeepsGrouping(before, init, i, last);
      } else {
        AppendKeepsGrouping(before, init, last);
      }
    }
  }

  lemma {:induction false} TotalNonNegative(items: seq<Resource>)
    requires forall r | r in items :: 0 <= r.weight
    ensures 0 <= Total(items)
  {
    if items != [] {
      TotalNonNegative(items[..|items| - 1]);
    }
  }

  // ---- Releasing and acquiring, one key at a time -----------------------------------

  lemma {:induction false} ReleaseAllAt(shared: map<string, Use>, items: seq<Resource>, key: string)
    requires Distinct(items)
    ensures !Owns(items, key) ==>
              && (key in ReleaseAll(shared, items) <==> key in shared)
              && (key in shared ==> ReleaseAll(shared, items)[key] == shared[key])
    ensures Owns(items, key) && key in shared && shared[key].users == 1 ==> key !in ReleaseAll(shared, items)
    ensures Owns(items, key) && key in shared && shared[key].users != 1 ==>
              && key in ReleaseAll(shared, items)
              && ReleaseAll(shared, items)[key] == Use(shared[key].weight, shared[key].users - 1)
    ensures key !in shared ==> key !in ReleaseAll(shared, items)
  {
    if items != [] {
      var init, last := items[..|items| - 1], items[|items| - 1];
      ReleaseAllAt(shared, init, key);
      assert items == init + [last];
    }
  }

  lemma {:induction false} AcquireAllLeaves(shared: map<string, Use>, items: seq<Resource>, key: string)
    requires !Owns(items, key)
    ensures key in AcquireAll(shared, items) <==> key in shared
    ensures key in shared ==> AcquireAll(shared, items)[key] == shared[key]
  {
    if items != [] {
      var init, last := items[..|items| - 1], items[|items| - 1];
      assert items == init + [last] && last in items;
      AcquireAllLeaves(shared, init, key);
    }
  }

  lemma {:induction false} AcquireAllTakes(shared: map<string, Use>, items: seq<Resource>, r: Resource)
    requires Distinct(items) && r in items
    ensures r.key in AcquireAll(shared, items) && AcquireAll(shared, items)[r.key] == Acquire(shared, r)[r.key]
  {
    var init, last := items[..|items| - 1], items[|items| - 1];
    assert items == init + [last];
    if r in init {
      AcquireAllTakes(shared, init, r);
      assert r.key != last.key;
    } else {
      assert !Owns(init, r.key);
      AcquireAllLeaves(shared, init, r.key);
    }
  }

  lemma AcquireAllAt(shared: map<string, Use>, items: seq<Resource>, key: string)
    requires Distinct(items)
    ensures !Owns(items, key) ==>
              && (key in AcquireAll(shared, items) <==> key in shared)
              && (key in shared ==> AcquireAll(shared, items)[key] == shared[key])
    ensures forall r | r in items && r.key == key ::
              && key in AcquireAll(shared, items)
              && AcquireAll(shared, items)[key] == Acquire(shared, r)[key]
  {
    if !Owns(items, key) { AcquireAllLeaves(shared, items, key); }
    forall r | r in items && r.key == key
      ensures key in AcquireAll(shared, items) && AcquireAll(shared, items)[key] == Acquire(shared, r)[key]
    {
      AcquireAllTakes(shared, items, r);
    }
  }

  lemma {:induction false} ReleaseAllTotal(shared: map<string, Use>, items: seq<Resource>)
    ensures SharedTotal(ReleaseAll(shared, items)) == SharedTotal(shared) - Freed(shared, items)
  {
    if items != [] {
      var init, last := items[..|items| - 1], items[|items| - 1];
      ReleaseAllTotal(shared, init);
      var now := ReleaseAll(shared, init);
      if last.key in now {
        SharedTotalMinus(now, last.key);
        SharedTotalUpdate(now, last.key, Use(now[last.key].weight, now[last.key].users - 1));
      }
    }
  }

  /** While a list of distinct items is being acquired, the next one still sees the old map. */
  lemma NotYetAcquired(shared: map<string, Use>, items: seq<Resource>, i: nat)
    requires Distinct(items) && i < |items|
    ensures items[i].key in AcquireAll(shared, items[..i]) <==> items[i].key in shared
    ensures items[i].key in shared ==> AcquireAll(shared, items[..i])[items[i].key] == shared[items[i].key]
  {
    assert forall r | r in items[..i] :: r.key != items[i].key;
    AcquireAllAt(shared, items[..i], items[i].key);
  }

  lemma {:induction false} AcquireAllTotal(shared: map<string, Use>, items: seq<Resource>)
    requires Distinct(items)
    ensures SharedTotal(AcquireAll(shared, items)) == SharedTotal(shared) + Extra(shared, items)
  {
    if items != [] {
      var init, last := items[..|items| - 1], items[|items| - 1];
      AcquireAllTotal(shared, init);
      NotYetAcquired(shared, items, |items| - 1);
      var now := AcquireAll(shared, init);
      SharedTotalUpdate(now, last.key, Acquire(now, last)[last.key]);
      if last.key in now {
        SharedTotalMinus(now, last.key);
      } else {
        assert now - {last.key} == now;
      }
    }
  }

  // ---- Removing from the list -------------------------------------------------------

  lemma {:induction false} WithoutSplits<T>(lru: seq<Entry<T>>, n: nat)
    requires n < |lru|
    requires DistinctKeys(lru)
    ensures Without(lru, lru[n].key) == lru[..n] + lru[n + 1..]
    ensures Find(lru, lru[n].key) == n
  {
    if n > 0 {
      assert lru[1..][n - 1] == lru[n] && lru[0].key != lru[n].key;
      WithoutSplits(lru[1..], n - 1);
      hide DistinctKeys;
      assert Without(lru, lru[n].key) == [lru[0]] + Without(lru[1..], lru[n].key);
      assert lru[..n] + lru[n + 1..] == [lru[0]] + (lru[1..][..n - 1] + lru[1..][n..]);
    }
  }

  lemma {:induction false} OwnersSplit<T>(lru: seq<Entry<T>>, n: nat, key: string)
    requires n < |lru|
    ensures Owners(lru, key) == Owners(lru[..n] + lru[n + 1..], key) + if Owns(lru[n].resources, key) then 1 else 0
  {
    var rest := lru[..n] + lru[n + 1..];
    if n > 0 {
      OwnersSplit(lru[1..], n - 1, key);
      assert rest[1..] == lru[1..][..n - 1] + lru[1..][n..];
      assert rest[0] == lru[0];
    } else {
      assert rest == lru[1..];
    }
  }

  lemma {:induction false} WeightsSplit<T>(lru: seq<Entry<T>>, n: nat)
    requires n < |lru|
    ensures Weights(lru) == Weights(lru[..n] + lru[n + 1..]) + lru[n].weight
  {
    var rest := lru[..n] + lru[n + 1..];
    if n > 0 {
      WeightsSplit(lru[1..], n - 1);
      assert rest[1..] == lru[1..][..n - 1] + lru[1..][n..];
      assert rest[0] == lru[0];
    } else {
      assert rest == lru[1..];
    }
  }

  lemma {:induction false} WithoutMembers<T>(lru: seq<Entry<T>>, key: string, d: Entry<T>)
    requires DistinctKeys(lru)
    ensures d in Without(lru, key) <==> d in lru && d.key != key
  {
    if lru != [] {
      WithoutMembers(lru[1..], key, d);
      assert d in lru <==> d == lru[0] || d in lru[1..];
      if lru[0].key == key && d in lru[1..] {
        var j :| 0 <= j < |lru[1..]| && lru[1..][j] == d;
        assert lru[0].key != lru[j + 1].key;
      }
    }
  }

  lemma {:induction false} WithoutDistinct<T>(lru: seq<Entry<T>>, key: string)
    requires DistinctKeys(lru)
    ensures DistinctKeys(Without(lru, key))
    ensures |Without(lru, key)| == |lru| - if Holds(lru, key) then 1 else 0
  {
    if lru != [] && lru[0].key != key {
      var tail := lru[1..];
      WithoutDistinct(tail, key);
      assert Holds(lru, key) <==> Holds(tail, key) by {
        if Holds(lru, key) {
          var i :| 0 <= i < |lru| && lru[i].key == key;
          assert tail[i - 1].key == key;
        }
        if Holds(tail, key) {
          var i :| 0 <= i < |tail| && tail[i].key == key;
          assert lru[i + 1].key == key;
        }
      }
      var rest := Without(tail, key);
      forall j | 0 <= j < |rest|
        ensures rest[j].key != lru[0].key
      {
        WithoutMembers(tail, key, rest[j]);
        var i :| 0 <= i < |tail| && tail[i] == rest[j];
        assert lru[0].key != lru[i + 1].key;
      }
    }
  }

  /** Removing an entry keeps exactly the entries with other keys. */
  lemma WithoutElements<T>(lru: seq<Entry<T>>, e: Entry<T>)
    requires e in lru && DistinctKeys(lru)
    ensures Holds(lru, e.key) && lru[Find(lru, e.key)] == e
    ensures DistinctKeys(Without(lru, e.key)) && |Without(lru, e.key)| == |lru| - 1
    ensures forall d | d in Without(lru, e.key) :: d in lru && d.key != e.key
    ensures forall d | d in lru && d.key != e.key :: d in Without(lru, e.key)
  {
    var n :| 0 <= n < |lru| && lru[n] == e;
    WithoutSplits(lru, n);
    WithoutDistinct(lru, e.key);
    forall d
      ensures d in Without(lru, e.key) <==> d in lru && d.key != e.key
    {
      WithoutMembers(lru, e.key, d);
    }
  }

  lemma WithoutIndexed<T>(entries: map<string, Entry<T>>, lru: seq<Entry<T>>, e: Entry<T>)
    requires Indexed(entries, lru) && e in lru
    ensures Indexed(entries - {e.key}, Without(lru, e.key))
  {
    WithoutElements(lru, e);
  }

  lemma AppendIndexed<T>(entries: map<string, Entry<T>>, lru: seq<Entry<T>>, e: Entry<T>)
    requires Indexed(entries, lru) && !Holds(lru, e.key)
    ensures Indexed(entries[e.key := e], lru + [e])
  {
  }

  lemma TouchIndexed<T>(entries: map<string, Entry<T>>, lru: seq<Entry<T>>, e: Entry<T>)
    requires Indexed(entries, lru) && e in lru
    ensures Indexed(entries, Without(lru, e.key) + [e])
  {
    WithoutElements(lru, e);
    var rest := Without(lru, e.key);
    forall i | 0 <= i < |rest|
      ensures rest[i].key != e.key
    {
      assert rest[i] in rest;
    }
  }

  lemma {:induction false} IndexedSize<T>(entries: map<string, Entry<T>>, lru: seq<Entry<T>>)
    requires Indexed(entries, lru)
    ensures |entries| == |lru|
  {
    if lru != [] {
      var e := lru[0];
      WithoutElements(lru, e);
      WithoutIndexed(entries, lru, e);
      IndexedSize(entries - {e.key}, Without(lru, e.key));
      assert entries.Keys == (entries - {e.key}).Keys + {e.key};
    } else {
      assert entries == map[];
    }
  }

  lemma {:induction false} OwnerCounts<T>(lru: seq<Entry<T>>, n: nat, key: string)
    requires n < |lru| && Owns(lru[n].resources, key)
    ensures 0 < Owners(lru, key)
  {
    OwnersSplit(lru, n, key);
  }

  /** While an entry's resources are being released, the next one is still charged, unchanged. */
  lemma StillOwned<T>(c: Cache<T>, e: Entry<T>)
    requires Accounted(c) && e in c.lru
    ensures Releasable(c.shared, e.resources)
  {
    var n :| 0 <= n < |c.lru| && c.lru[n] == e;
    assert WellFormed(e);
    forall i | 0 <= i < |e.resources|
      ensures e.resources[i].key in ReleaseAll(c.shared, e.resources[..i])
    {
      var key := e.resources[i].key;
      OwnerCounts(c.lru, n, key);
      assert forall r | r in e.resources[..i] :: r.key != key;
      ReleaseAllAt(c.shared, e.resources[..i], key);
    }
  }

  /** Each item is still charged when its turn to be released comes. */
  ghost predicate Releasable(shared: map<string, Use>, items: seq<Resource>) {
    forall i | 0 <= i < |items| :: items[i].key in ReleaseAll(shared, items[..i])
  }

  // ---- What each operation keeps ----------------------------------------------------

  lemma RemoveKeepsAccounting<T>(c: Cache<T>, e: Entry<T>)
    requires Accounted(c) && e in c.lru
    ensures Accounted(Removed(c, e))
    ensures |Removed(c, e).lru| == |c.lru| - 1
    ensures Removed(c, e).bytes <= c.bytes
  {
    var n :| 0 <= n < |c.lru| && c.lru[n] == e;
    var d := Removed(c, e);
    assert WellFormed(e);
    assert d.bytes == Weights(d.lru) + SharedTotal(d.shared) && d.bytes <= c.bytes by {
      WithoutSplits(c.lru, n);
      WeightsSplit(c.lru, n);
      ReleaseAllTotal(c.shared, e.resources);
      FreedIsNonNegative(c.shared, e.resources);
    }
    WithoutElements(c.lru, e);
    forall k: string
      ensures k in d.shared <==> 0 < Owners(d.lru, k)
      ensures k in d.shared ==> d.shared[k].users == Owners(d.lru, k)
      ensures k in d.shared ==> k in c.shared && d.shared[k].weight == c.shared[k].weight
    {
      WithoutSplits(c.lru, n);
      OwnersSplit(c.lru, n, k);
      ReleaseAllAt(c.shared, e.resources, k);
    }
    forall f, r | f in d.lru && r in f.resources
      ensures r.key in d.shared && r.weight <= d.shared[r.key].weight
    {
      var i :| 0 <= i < |d.lru| && d.lru[i] == f;
      OwnerCounts(d.lru, i, r.key);
    }
  }

  lemma {:induction false} FreedIsNonNegative(shared: map<string, Use>, items: seq<Resource>)
    requires Distinct(items)
    requires forall k | k in shared :: 0 <= shared[k].weight
    ensures 0 <= Freed(shared, items)
  {
    if items != [] {
      var init, last := items[..|items| - 1], items[|items| - 1];
      FreedIsNonNegative(shared, init);
      ReleaseAllAt(shared, init, last.key);
    }
  }

  lemma RemoveKeepsBounds<T>(c: Cache<T>, capacity: int, maxBytes: int, e: Entry<T>)
    requires Bounded(c, capacity, maxBytes) && e in c.lru
    ensures Bounded(Removed(c, e), capacity, maxBytes)
    ensures forall k :: Holds(Removed(c, e).lru, k) <==> Holds(c.lru, k) && k != e.key
  {
    RemoveKeepsAccounting(c, e);
    WithoutElements(c.lru, e);
    var rest := Removed(c, e).lru;
    forall k
      ensures Holds(rest, k) <==> Holds(c.lru, k) && k != e.key
    {
      if Holds(rest, k) {
        var d :| d in rest && d.key == k;
        assert d in c.lru;
      }
      if Holds(c.lru, k) && k != e.key {
        var d :| d in c.lru && d.key == k;
        assert d in rest;
      }
    }
  }

  lemma ForgetKeepsBounds<T>(c: Cache<T>, capacity: int, maxBytes: int, key: string)
    requires Bounded(c, capacity, maxBytes)
    ensures Bounded(Forget(c, key), capacity, maxBytes)
    ensures forall k :: Holds(Forget(c, key).lru, k) <==> Holds(c.lru, k) && k != key
  {
    if Holds(c.lru, key) {
      RemoveKeepsBounds(c, capacity, maxBytes, c.lru[Find(c.lru, key)]);
    }
  }

  lemma TouchKeepsOwners<T>(lru: seq<Entry<T>>, n: nat, key: string)
    requires n < |lru|
    ensures Owners(lru[..n] + lru[n + 1..] + [lru[n]], key) == Owners(lru, key)
  {
    OwnersSplit(lru, n, key);
    OwnersAppend(lru[..n] + lru[n + 1..], lru[n], key);
  }

  lemma TouchKeepsWeights<T>(lru: seq<Entry<T>>, n: nat)
    requires n < |lru|
    ensures Weights(lru[..n] + lru[n + 1..] + [lru[n]]) == Weights(lru)
  {
    WeightsAppend(lru[..n] + lru[n + 1..], lru[n]);
    WeightsSplit(lru, n);
  }

  lemma TouchKeepsBounds<T>(c: Cache<T>, capacity: int, maxBytes: int, key: string)
    requires Bounded(c, capacity, maxBytes)
    ensures Bounded(Touched(c, key), capacity, maxBytes)
  {
    if Holds(c.lru, key) {
      var n := Find(c.lru, key);
      var d := Touched(c, key);
      WithoutElements(c.lru, c.lru[n]);
      WithoutSplits(c.lru, n);
      TouchKeepsWeights(c.lru, n);
      forall k: string
        ensures Owners(d.lru, k) == Owners(c.lru, k)
      {
        TouchKeepsOwners(c.lru, n, k);
      }
      assert forall e | e in d.lru :: e in c.lru;
    }
  }

  /** The entry of that key went to the recent end; all others kept their order. */
  ghost predicate MovedLast<T>(was: seq<Entry<T>>, now: seq<Entry<T>>, key: string) {
    exists i | 0 <= i < |was| :: was[i].key == key && now == was[..i] + was[i + 1..] + [was[i]]
  }

  lemma HitMovesLast<T>(c: Cache<T>, key: string)
    requires DistinctKeys(c.lru)
    ensures var t := Touched(c, key);
      && t.shared == c.shared && t.bytes == c.bytes
      && if Holds(c.lru, key) then MovedLast(c.lru, t.lru, key) else t.lru == c.lru
  {
    if Holds(c.lru, key) { WithoutSplits(c.lru, Find(c.lru, key)); }
  }

  lemma {:induction false} WeightsAppend<T>(lru: seq<Entry<T>>, e: Entry<T>)
    ensures Weights(lru + [e]) == Weights(lru) + e.weight
  {
    if lru != [] {
      WeightsAppend(lru[1..], e);
      assert (lru + [e])[1..] == lru[1..] + [e];
    }
  }

  lemma {:induction false} OwnersAppend<T>(lru: seq<Entry<T>>, e: Entry<T>, key: string)
    ensures Owners(lru + [e], key) == Owners(lru, key) + if Owns(e.resources, key) then 1 else 0
  {
    if lru != [] {
      OwnersAppend(lru[1..], e, key);
      assert (lru + [e])[1..] == lru[1..] + [e];
    }
  }

  lemma {:induction false} NoOwners<T>(lru: seq<Entry<T>>, key: string)
    requires forall e | e in lru :: !Owns(e.resources, key)
    ensures Owners(lru, key) == 0
  {
    if lru != [] { NoOwners(lru[1..], key); }
  }

  lemma AppendKeepsBounds<T>(c: Cache<T>, capacity: int, maxBytes: int, e: Entry<T>)
    requires Bounded(c, capacity, maxBytes) && WellFormed(e) && !Holds(c.lru, e.key)
    requires Room(c, capacity, maxBytes, e)
    ensures Bounded(Appended(c, e), capacity, maxBytes)
  {
    var d := Appended(c, e);
    WeightsAppend(c.lru, e);
    AcquireAllTotal(c.shared, e.resources);
    forall k: string
      ensures k in d.shared <==> 0 < Owners(d.lru, k)
      ensures k in d.shared ==> d.shared[k].users == Owners(d.lru, k) && 0 <= d.shared[k].weight
      ensures k in c.shared ==> k in d.shared && c.shared[k].weight <= d.shared[k].weight
    {
      OwnersAppend(c.lru, e, k);
      AcquireAllAt(c.shared, e.resources, k);
    }
    forall f, r | f in d.lru && r in f.resources
      ensures r.key in d.shared && r.weight <= d.shared[r.key].weight
    {
      if f !in c.lru {
        AcquireAllAt(c.shared, e.resources, r.key);
      }
    }
  }

  // ---- The eviction loop is safe ----------------------------------------------------

  /** An empty cache charges nothing, so an entry that is not oversized always finds room in it:
      the loop never takes the first element of an empty list. */
  lemma EmptyHasRoom<T>(c: Cache<T>, capacity: int, maxBytes: int, e: Entry<T>)
    requires Bounded(c, capacity, maxBytes) && 1 <= capacity && !Oversized(e, maxBytes)
    ensures c.lru == [] ==> Room(c, capacity, maxBytes, e)
  {
    if c.lru == [] {
      forall k: string
        ensures k !in c.shared
      {
        assert Owners(c.lru, k) == 0;
      }
      assert c.shared == map[];
      ExtraOfEmpty(e.resources);
    }
  }

  lemma {:induction false} ExtraOfEmpty(items: seq<Resource>)
    ensures Extra(map[], items) == Total(items)
  {
    if items != [] { ExtraOfEmpty(items[..|items| - 1]); }
  }
}
