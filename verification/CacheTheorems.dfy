/** What the cache promises: an insertion evicts exactly the shortest least-recently-used prefix
    that makes room, and the class refines a list whose cost is read off its entries alone. */
module CacheTheorems {
  import opened CacheSpec
  import opened CacheLaws

  // ---- Evicting never has to overshoot ----------------------------------------------

  lemma {:induction false} ReleaseNeverRaisesCharge(shared: map<string, Use>, gone: seq<Resource>, items: seq<Resource>)
    requires Distinct(items) && forall k | k in shared :: 0 <= shared[k].weight
    requires forall r | r in items :: 0 <= r.weight
    ensures SharedTotal(ReleaseAll(shared, gone)) + Extra(ReleaseAll(shared, gone), items)
         <= SharedTotal(shared) + Extra(shared, items)
    ensures forall k | k in ReleaseAll(shared, gone) :: 0 <= ReleaseAll(shared, gone)[k].weight
  {
    if gone != [] {
      var init, last := gone[..|gone| - 1], gone[|gone| - 1];
      ReleaseNeverRaisesCharge(shared, init, items);
      var now := ReleaseAll(shared, init);
      if last.key in now {
        SharedTotalMinus(now, last.key);
        if now[last.key].users == 1 {
          ExtraWithout(now, last.key, items);
        } else {
          var less := now[last.key := Use(now[last.key].weight, now[last.key].users - 1)];
          SharedTotalUpdate(now, last.key, less[last.key]);
          ExtraSame(now, less, items);
        }
      }
    }
  }

  lemma {:induction false} ExtraSame(a: map<string, Use>, b: map<string, Use>, items: seq<Resource>)
    requires forall r | r in items :: (r.key in a <==> r.key in b) && (r.key in a ==> a[r.key].weight == b[r.key].weight)
    ensures Extra(a, items) == Extra(b, items)
  {
    if items != [] { ExtraSame(a, b, items[..|items| - 1]); }
  }

  lemma {:induction false} ExtraWithout(shared: map<string, Use>, key: string, items: seq<Resource>)
    requires Distinct(items) && key in shared && 0 <= shared[key].weight
    requires forall r | r in items :: 0 <= r.weight
    ensures Extra(shared - {key}, items) <= Extra(shared, items) + shared[key].weight
  {
    if items != [] {
      var init, last := items[..|items| - 1], items[|items| - 1];
      if last.key == key {
        ExtraSame(shared, shared - {key}, init);
      } else {
        ExtraWithout(shared, key, init);
      }
    }
  }

  /** Removing any entry never raises the bytes held plus the bytes a newcomer would add. */
  lemma ChargeNeverRises<T>(c: Cache<T>, gone: Entry<T>, e: Entry<T>)
    requires Accounted(c) && gone in c.lru && WellFormed(e)
    ensures Removed(c, gone).bytes + Extra(Removed(c, gone).shared, e.resources)
         <= c.bytes + Extra(c.shared, e.resources)
  {
    assert WellFormed(gone);
    ReleaseAllTotal(c.shared, gone.resources);
    ReleaseNeverRaisesCharge(c.shared, gone.resources, e.resources);
  }

  /** The cache after its `n` least recently used entries have been removed one by one. */
  function Dropped<T>(c: Cache<T>, n: nat): Cache<T>
    decreases n
  {
    if n == 0 || c.lru == [] then c else Dropped(Removed(c, c.lru[0]), n - 1)
  }

  /** Eviction removes a prefix; every shorter prefix leaves too little room, this one enough. */
  lemma {:induction false} EvictsShortestPrefix<T>(c: Cache<T>, capacity: int, maxBytes: int, e: Entry<T>) returns (n: nat)
    requires Bounded(c, capacity, maxBytes) && 1 <= capacity && WellFormed(e) && !Oversized(e, maxBytes)
    ensures n <= |c.lru|
    ensures Evicted(c, capacity, maxBytes, e) == Dropped(c, n)
    ensures Dropped(c, n).lru == c.lru[n..] && Bounded(Dropped(c, n), capacity, maxBytes)
    ensures Room(Dropped(c, n), capacity, maxBytes, e)
    ensures forall m: nat | m < n :: !Room(Dropped(c, m), capacity, maxBytes, e)
    ensures forall m: nat | n <= m <= |c.lru| :: Room(Dropped(c, m), capacity, maxBytes, e)
    decreases |c.lru|
  {
    EmptyHasRoom(c, capacity, maxBytes, e);
    if Room(c, capacity, maxBytes, e) {
      n := 0;
      RoomStays(c, capacity, maxBytes, e);
    } else {
      var d := Removed(c, c.lru[0]);
      RemoveKeepsBounds(c, capacity, maxBytes, c.lru[0]);
      WithoutFirstShorter(c.lru);
      var k := EvictsShortestPrefix(d, capacity, maxBytes, e);
      n := k + 1;
      forall m: nat | m < n
        ensures !Room(Dropped(c, m), capacity, maxBytes, e)
      {
        if m > 0 { assert Dropped(c, m) == Dropped(d, m - 1); }
      }
      forall m: nat | n <= m <= |c.lru|
        ensures Room(Dropped(c, m), capacity, maxBytes, e)
      {
        assert Dropped(c, m) == Dropped(d, m - 1);
      }
    }
  }

  lemma {:induction false} RoomStays<T>(c: Cache<T>, capacity: int, maxBytes: int, e: Entry<T>)
    requires Bounded(c, capacity, maxBytes) && WellFormed(e) && Room(c, capacity, maxBytes, e)
    ensures forall m: nat | m <= |c.lru| :: Room(Dropped(c, m), capacity, maxBytes, e)
    decreases |c.lru|
  {
    if c.lru != [] {
      var d := Removed(c, c.lru[0]);
      RemoveKeepsBounds(c, capacity, maxBytes, c.lru[0]);
      WithoutFirstShorter(c.lru);
      ChargeNeverRises(c, c.lru[0], e);
      RoomStays(d, capacity, maxBytes, e);
      forall m: nat | m <= |c.lru|
        ensures Room(Dropped(c, m), capacity, maxBytes, e)
      {
        if m > 0 { assert Dropped(c, m) == Dropped(d, m - 1); }
      }
    }
  }

  /** What an insertion leaves behind, whatever the weights: an oversized entry leaves its key
      absent and every other entry in place; any other entry becomes the most recent one behind
      a suffix of the others. */
  lemma AddOutcome<T>(c: Cache<T>, capacity: int, maxBytes: int, e: Entry<T>)
    requires Bounded(c, capacity, maxBytes) && 1 <= capacity && WellFormed(e)
    ensures var after := Added(c, capacity, maxBytes, e);
      && Bounded(after, capacity, maxBytes)
      && (Oversized(e, maxBytes) ==> after.lru == Without(c.lru, e.key) && !Holds(after.lru, e.key))
      && (!Oversized(e, maxBytes) ==> exists n: nat | n <= |Without(c.lru, e.key)| ::
            after.lru == Without(c.lru, e.key)[n..] + [e])
  {
    ForgetKeepsBounds(c, capacity, maxBytes, e.key);
    var base := Forget(c, e.key);
    assert base.lru == Without(c.lru, e.key) by { WithoutAbsent(c.lru, e.key); }
    if !Oversized(e, maxBytes) {
      var n := EvictsShortestPrefix(base, capacity, maxBytes, e);
      var d := Dropped(base, n);
      forall i | 0 <= i < |d.lru|
        ensures d.lru[i].key != e.key
      {
        assert d.lru[i] == base.lru[n + i];
      }
      AppendKeepsBounds(d, capacity, maxBytes, e);
    }
  }

  lemma AddedIsThere<T>(c: Cache<T>, capacity: int, maxBytes: int, e: Entry<T>)
    requires Bounded(c, capacity, maxBytes) && 1 <= capacity && WellFormed(e)
    ensures Oversized(e, maxBytes) || e in Added(c, capacity, maxBytes, e).lru
  {
    AddOutcome(c, capacity, maxBytes, e);
  }

  lemma {:induction false} WithoutAbsent<T>(lru: seq<Entry<T>>, key: string)
    ensures !Holds(lru, key) ==> Without(lru, key) == lru
  {
    if lru != [] && !Holds(lru, key) {
      assert forall i | 0 <= i < |lru[1..]| :: lru[1..][i].key == lru[i + 1].key;
      WithoutAbsent(lru[1..], key);
    }
  }

  /** Every sum the eviction test forms stays within twice the budget, so 64-bit arithmetic never
      wraps around for a budget below 2^62. */
  lemma SumsStaySmall<T>(c: Cache<T>, capacity: int, maxBytes: int, e: Entry<T>)
    requires Bounded(c, capacity, maxBytes) && WellFormed(e) && !Oversized(e, maxBytes)
    ensures 0 <= c.bytes <= c.bytes + (e.weight + Extra(c.shared, e.resources)) <= 2 * maxBytes
  {
    WeightsNonNegative(c.lru);
    SharedTotalNonNegative(c.shared);
    ExtraWithinTotal(c.shared, e.resources);
  }

  lemma {:induction false} WeightsNonNegative<T>(lru: seq<Entry<T>>)
    requires forall e | e in lru :: WellFormed(e)
    ensures 0 <= Weights(lru)
  {
    if lru != [] {
      assert WellFormed(lru[0]);
      WeightsNonNegative(lru[1..]);
    }
  }

  lemma {:induction false} ExtraWithinTotal(shared: map<string, Use>, items: seq<Resource>)
    requires forall r | r in items :: 0 <= r.weight
    requires forall k | k in shared :: 0 <= shared[k].weight
    ensures 0 <= Extra(shared, items) <= Total(items)
  {
    if items != [] { ExtraWithinTotal(shared, items[..|items| - 1]); }
  }

  // ---- The plain least-recently-used list behind it ---------------------------------

  /** A resource keeps one price for as long as the cache lives, as an immutable image does. */
  ghost predicate PricedEntry<T>(e: Entry<T>, price: string -> int) {
    forall r | r in e.resources :: r.weight == price(r.key)
  }

  ghost predicate Priced<T>(c: Cache<T>, price: string -> int) {
    && (forall e | e in c.lru :: PricedEntry(e, price))
    && (forall k | k in c.shared :: c.shared[k].weight == price(k))
  }

  function Keys(items: seq<Resource>): set<string> { set r | r in items :: r.key }

  ghost function Owned<T>(lru: seq<Entry<T>>): set<string> {
    set e, r | e in lru && r in e.resources :: r.key
  }

  ghost function PriceOf(keys: set<string>, price: string -> int): int {
    if keys == {} then 0
    else
      var k :| k in keys;
      price(k) + PriceOf(keys - {k}, price)
  }

  /** The bytes a list of entries retains: each entry's own, and each image once. */
  ghost function Footprint<T>(lru: seq<Entry<T>>, price: string -> int): int {
    Weights(lru) + PriceOf(Owned(lru), price)
  }

  /** The longest suffix that leaves room for the newcomer. */
  ghost function Kept<T>(lru: seq<Entry<T>>, capacity: int, maxBytes: int, e: Entry<T>, price: string -> int): seq<Entry<T>> {
    if lru == [] || (|lru| < capacity && Footprint(lru + [e], price) <= maxBytes) then lru
    else Kept(lru[1..], capacity, maxBytes, e, price)
  }

  ghost function ListAdd<T>(lru: seq<Entry<T>>, capacity: int, maxBytes: int, e: Entry<T>, price: string -> int): seq<Entry<T>> {
    var others := Without(lru, e.key);
    if Footprint([e], price) > maxBytes then others else Kept(others, capacity, maxBytes, e, price) + [e]
  }

  lemma {:induction false} PriceOfMinus(keys: set<string>, key: string, price: string -> int)
    requires key in keys
    ensures PriceOf(keys, price) == price(key) + PriceOf(keys - {key}, price)
  {
    var k :| k in keys && PriceOf(keys, price) == price(k) + PriceOf(keys - {k}, price);
    if k != key {
      PriceOfMinus(keys - {k}, key, price);
      PriceOfMinus(keys - {key}, k, price);
      assert keys - {k} - {key} == keys - {key} - {k};
    }
  }

  lemma {:induction false} SharedTotalIsPrice(shared: map<string, Use>, price: string -> int)
    requires forall k | k in shared :: shared[k].weight == price(k)
    ensures SharedTotal(shared) == PriceOf(shared.Keys, price)
    decreases |shared|
  {
    if shared != map[] {
      var k :| k in shared && SharedTotal(shared) == shared[k].weight + SharedTotal(shared - {k});
      SharedTotalIsPrice(shared - {k}, price);
      assert (shared - {k}).Keys == shared.Keys - {k};
      PriceOfMinus(shared.Keys, k, price);
    }
  }

  lemma {:induction false} OwnersPositive<T>(lru: seq<Entry<T>>, key: string)
    ensures 0 < Owners(lru, key) <==> key in Owned(lru)
  {
    if lru != [] {
      OwnersPositive(lru[1..], key);
      assert lru == [lru[0]] + lru[1..];
      assert key in Owned(lru) <==> key in Owned(lru[1..]) || Owns(lru[0].resources, key);
    }
  }

  /** With fixed prices the recorded charge is exact, and the bytes charged are exactly the
      bytes retained. */
  lemma ChargeIsFootprint<T>(c: Cache<T>, price: string -> int)
    requires Accounted(c) && Priced(c, price)
    ensures c.shared.Keys == Owned(c.lru)
    ensures c.bytes == Footprint(c.lru, price)
  {
    forall k: string
      ensures k in c.shared.Keys <==> k in Owned(c.lru)
    {
      OwnersPositive(c.lru, k);
    }
    assert c.shared.Keys == Owned(c.lru);
    SharedTotalIsPrice(c.shared, price);
  }

  /** The newcomer's extra charge is the price of the images it is first to own. */
  lemma {:induction false} ExtraIsPrice(shared: map<string, Use>, items: seq<Resource>, price: string -> int)
    requires Distinct(items) && forall r | r in items :: r.weight == price(r.key)
    requires forall k | k in shared :: shared[k].weight == price(k)
    ensures PriceOf(shared.Keys + Keys(items), price) == PriceOf(shared.Keys, price) + Extra(shared, items)
  {
    if items == [] {
      assert shared.Keys + Keys(items) == shared.Keys;
    } else {
      var init, last := items[..|items| - 1], items[|items| - 1];
      ExtraIsPrice(shared, init, price);
      assert items == init + [last];
      assert Keys(items) == Keys(init) + {last.key};
      assert last.key !in Keys(init);
      if last.key in shared {
        assert shared.Keys + Keys(items) == shared.Keys + Keys(init);
      } else {
        PriceOfMinus(shared.Keys + Keys(items), last.key, price);
        assert shared.Keys + Keys(items) - {last.key} == shared.Keys + Keys(init);
      }
    }
  }

  lemma OwnedAppend<T>(lru: seq<Entry<T>>, e: Entry<T>)
    ensures Owned(lru + [e]) == Owned(lru) + Keys(e.resources)
  {
    forall k
      ensures k in Owned(lru + [e]) <==> k in Owned(lru) + Keys(e.resources)
    {
      if k in Keys(e.resources) {
        var r :| r in e.resources && r.key == k;
        assert e in lru + [e];
      }
      if k in Owned(lru) {
        var f, r :| f in lru && r in f.resources && r.key == k;
        assert f in lru + [e];
      }
    }
  }

  lemma RoomIsFootprint<T>(c: Cache<T>, capacity: int, maxBytes: int, e: Entry<T>, price: string -> int)
    requires Accounted(c) && Priced(c, price) && WellFormed(e) && PricedEntry(e, price)
    ensures Footprint(c.lru + [e], price) == c.bytes + (e.weight + Extra(c.shared, e.resources))
    ensures Room(c, capacity, maxBytes, e) <==> |c.lru| < capacity && Footprint(c.lru + [e], price) <= maxBytes
  {
    ChargeIsFootprint(c, price);
    ExtraIsPrice(c.shared, e.resources, price);
    OwnedAppend(c.lru, e);
    WeightsAppend(c.lru, e);
  }

  lemma RemoveKeepsPrices<T>(c: Cache<T>, e: Entry<T>, price: string -> int)
    requires Accounted(c) && Priced(c, price) && e in c.lru
    ensures Priced(Removed(c, e), price)
  {
    WithoutElements(c.lru, e);
    assert WellFormed(e);
    forall k | k in Removed(c, e).shared
      ensures Removed(c, e).shared[k].weight == price(k)
    {
      ReleaseAllAt(c.shared, e.resources, k);
    }
  }

  lemma AppendKeepsPrices<T>(c: Cache<T>, e: Entry<T>, price: string -> int)
    requires Priced(c, price) && PricedEntry(e, price) && WellFormed(e)
    ensures Priced(Appended(c, e), price)
  {
    forall k | k in Appended(c, e).shared
      ensures Appended(c, e).shared[k].weight == price(k)
    {
      AcquireAllAt(c.shared, e.resources, k);
      if Owns(e.resources, k) {
        var r :| r in e.resources && r.key == k;
        assert AcquireAll(c.shared, e.resources)[k] == Acquire(c.shared, r)[k];
      }
    }
  }

  lemma {:induction false} EvictedIsKept<T>(c: Cache<T>, capacity: int, maxBytes: int, e: Entry<T>, price: string -> int)
    requires Accounted(c) && Priced(c, price) && WellFormed(e) && PricedEntry(e, price)
    ensures var d := Evicted(c, capacity, maxBytes, e);
      d.lru == Kept(c.lru, capacity, maxBytes, e, price) && Priced(d, price)
    decreases |c.lru|
  {
    RoomIsFootprint(c, capacity, maxBytes, e, price);
    if c.lru != [] && !Room(c, capacity, maxBytes, e) {
      RemoveKeepsAccounting(c, c.lru[0]);
      RemoveKeepsPrices(c, c.lru[0], price);
      WithoutFirstShorter(c.lru);
      EvictedIsKept(Removed(c, c.lru[0]), capacity, maxBytes, e, price);
    }
  }

  lemma {:induction false} TotalIsPrice(items: seq<Resource>, price: string -> int)
    requires Distinct(items) && forall r | r in items :: r.weight == price(r.key)
    ensures Total(items) == PriceOf(Keys(items), price)
  {
    ExtraOfEmpty(items);
    var none: map<string, Use> := map[];
    ExtraIsPrice(none, items, price);
    assert none.Keys + Keys(items) == Keys(items);
  }

  lemma OversizedIsFootprint<T>(e: Entry<T>, maxBytes: int, price: string -> int)
    requires WellFormed(e) && PricedEntry(e, price)
    ensures Oversized(e, maxBytes) <==> Footprint([e], price) > maxBytes
  {
    TotalIsPrice(e.resources, price);
    assert Owned([e]) == Keys(e.resources) by {
      forall k | k in Keys(e.resources)
        ensures k in Owned([e])
      {
        var r :| r in e.resources && r.key == k;
        assert e in [e];
      }
    }
    assert Weights([e]) == e.weight;
    TotalNonNegative(e.resources);
  }

  /** The whole insertion, reference counts and all, is insertion into a plain list that keeps
      the longest suffix it can afford, costs being read off the entries. */
  lemma AddRefinesList<T>(c: Cache<T>, capacity: int, maxBytes: int, e: Entry<T>, price: string -> int)
    requires Bounded(c, capacity, maxBytes) && Priced(c, price) && 1 <= capacity
    requires WellFormed(e) && PricedEntry(e, price)
    ensures Added(c, capacity, maxBytes, e).lru == ListAdd(c.lru, capacity, maxBytes, e, price)
    ensures Priced(Added(c, capacity, maxBytes, e), price)
  {
    ForgetKeepsBounds(c, capacity, maxBytes, e.key);
    var base := Forget(c, e.key);
    WithoutAbsent(c.lru, e.key);
    if Holds(c.lru, e.key) {
      RemoveKeepsPrices(c, c.lru[Find(c.lru, e.key)], price);
    }
    OversizedIsFootprint(e, maxBytes, price);
    if !Oversized(e, maxBytes) {
      EvictedIsKept(base, capacity, maxBytes, e, price);
      AppendKeepsPrices(Evicted(base, capacity, maxBytes, e), e, price);
    }
  }

  /** Without a fixed price the recorded weight is a high-water mark: here the only owner left
      claims 1 byte and 10 stay charged. */
  lemma RecordedWeightIsHighWaterMark()
    ensures var heavy := Entry("a", 0, 0, [Resource("image", 10)]);
            var light := Entry("b", 0, 0, [Resource("image", 1)]);
            var c := Removed(Appended(Appended(Cache([], map[], 0), heavy), light), heavy);
            c.lru == [light] && c.shared == map["image" := Use(10, 1)] && c.bytes == 10
  {
    var heavy := Entry("a", 0, 0, [Resource("image", 10)]);
    var light := Entry("b", 0, 0, [Resource("image", 1)]);
    var one := Appended(Cache([], map[], 0), heavy);
    assert heavy.resources[..0] == [] && light.resources[..0] == [];
    assert one == Cache([heavy], map["image" := Use(10, 1)], 10);
    var two := Appended(one, light);
    assert two == Cache([heavy, light], map["image" := Use(10, 2)], 10);
    assert Without(two.lru, "a") == [light];
  }
}
