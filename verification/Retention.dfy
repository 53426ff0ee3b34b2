/** What an insertion or a lookup does to the set of retained entries, and to resources whose
    price was fixed when they were allocated. */
module Retention {
  import opened CacheSpec
  import opened CacheLaws
  import opened CacheTheorems

  /** The n-th freshly allocated identifier; distinct from all others. */
  function Fresh(n: nat): string { seq(n, i => '0') }

  /** The price of the n-th allocated resource is its size at allocation. */
  function Price(sizes: seq<int>): string -> int {
    (key: string) => if |key| < |sizes| then sizes[|key|] else 0
  }

  predicate PricedItem(r: Resource, sizes: seq<int>) {
    |r.key| < |sizes| && r.weight == sizes[|r.key|]
  }

  ghost predicate PricedBy<T>(c: Cache<T>, sizes: seq<int>) {
    && (forall e, r | e in c.lru && r in e.resources :: PricedItem(r, sizes))
    && (forall k | k in c.shared :: PricedItem(Resource(k, c.shared[k].weight), sizes))
  }

  lemma PricesPersist<T>(c: Cache<T>, before: seq<int>, after: seq<int>)
    requires PricedBy(c, before) && before <= after
    ensures PricedBy(c, after)
  {
    forall e, r | e in c.lru && r in e.resources
      ensures PricedItem(r, after)
    {
      assert PricedItem(r, before);
    }
    forall k | k in c.shared
      ensures PricedItem(Resource(k, c.shared[k].weight), after)
    {
      assert PricedItem(Resource(k, c.shared[k].weight), before);
    }
  }

  lemma PricedByIsPriced<T>(c: Cache<T>, sizes: seq<int>)
    requires PricedBy(c, sizes)
    ensures Priced(c, Price(sizes))
  {
    forall e, r | e in c.lru && r in e.resources
      ensures r.weight == Price(sizes)(r.key)
    {
      assert PricedItem(r, sizes);
    }
    forall k | k in c.shared
      ensures c.shared[k].weight == Price(sizes)(k)
    {
      assert PricedItem(Resource(k, c.shared[k].weight), sizes);
    }
  }

  lemma TouchMembers<T>(c: Cache<T>, key: string)
    requires Accounted(c)
    ensures forall e :: e in Touched(c, key).lru <==> e in c.lru
  {
    if Holds(c.lru, key) {
      WithoutElements(c.lru, c.lru[Find(c.lru, key)]);
      var n := Find(c.lru, key);
      forall e
        ensures e in Touched(c, key).lru <==> e in c.lru
      {
        if e in c.lru && e.key == key {
          var i :| 0 <= i < |c.lru| && c.lru[i] == e;
          assert i == n;
        }
      }
    }
  }

  /** After an insertion every retained entry was retained before or is the inserted one. */
  lemma AddMembers<T>(c: Cache<T>, capacity: int, maxBytes: int, e: Entry<T>)
    requires Bounded(c, capacity, maxBytes) && 1 <= capacity && WellFormed(e)
    ensures forall x | x in Added(c, capacity, maxBytes, e).lru :: x == e || x in c.lru
  {
    AddOutcome(c, capacity, maxBytes, e);
    var others := Without(c.lru, e.key);
    forall x | x in others
      ensures x in c.lru
    {
      WithoutMembers(c.lru, e.key, x);
    }
  }

  lemma AddKeepsPrices<T>(c: Cache<T>, capacity: int, maxBytes: int, e: Entry<T>, sizes: seq<int>)
    requires Bounded(c, capacity, maxBytes) && 1 <= capacity && WellFormed(e)
    requires PricedBy(c, sizes) && forall r | r in e.resources :: PricedItem(r, sizes)
    ensures PricedBy(Added(c, capacity, maxBytes, e), sizes)
  {
    var d := Added(c, capacity, maxBytes, e);
    PricedByIsPriced(c, sizes);
    assert forall r | r in e.resources :: PricedItem(r, sizes) && r.weight == Price(sizes)(r.key);
    AddRefinesList(c, capacity, maxBytes, e, Price(sizes));
    AddMembers(c, capacity, maxBytes, e);
    AddOutcome(c, capacity, maxBytes, e);
    ChargeIsFootprint(d, Price(sizes));
    forall k | k in d.shared
      ensures PricedItem(Resource(k, d.shared[k].weight), sizes)
    {
      var x, r :| x in d.lru && r in x.resources && r.key == k;
      assert PricedItem(r, sizes);
    }
  }
}
