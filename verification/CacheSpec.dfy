/** What BoundedCache holds, as a value, and what its operations do to that value.

    An entry owns a weight of its own and a set of shared resources.  A resource is charged
    once, whichever number of entries own it, at the largest weight any owner ever claimed
    while it stayed resident.  Class `BoundedCache.BoundedCache` is proved against these
    functions; module `CacheLaws` proves what they promise. */
module CacheSpec {
  datatype Resource = Resource(key: string, weight: int)
  datatype Entry<T> = Entry(key: string, value: T, weight: int, resources: seq<Resource>)
  datatype Use = Use(weight: int, users: int)

  /** `lru` runs from the least to the most recently used entry. */
  datatype Cache<T> = Cache(lru: seq<Entry<T>>, shared: map<string, Use>, bytes: int)

  function Max(a: int, b: int): int { if a < b then b else a }

  // ---- Grouping the weights a caller supplies ---------------------------------------

  function Total(items: seq<Resource>): int {
    if items == [] then 0 else Total(items[..|items| - 1]) + items[|items| - 1].weight
  }

  predicate Distinct(items: seq<Resource>) {
    forall i, j | 0 <= i < j < |items| :: items[i].key != items[j].key
  }

  /** The position of the item with this key, or the length when there is none. */
  function Position(items: seq<Resource>, key: string): (i: nat)
    ensures i <= |items|
    ensures i < |items| ==> items[i].key == key
    ensures forall j | 0 <= j < i :: items[j].key != key
  {
    if items == [] then 0
    else if items[0].key == key then 0
    else 1 + Position(items[1..], key)
  }

  /** One item for each key, in order of first appearance, at the key's largest weight. */
  function Grouped(items: seq<Resource>): seq<Resource> {
    if items == [] then []
    else
      var before, last := Grouped(items[..|items| - 1]), items[|items| - 1];
      var i := Position(before, last.key);
      if i < |before| then before[i := Resource(last.key, Max(before[i].weight, last.weight))]
      else before + [last]
  }

  // ---- The list of entries ----------------------------------------------------------

  predicate Holds<T>(lru: seq<Entry<T>>, key: string) {
    exists i | 0 <= i < |lru| :: lru[i].key == key
  }

  /** The list without the entry of that key; the others keep their order. */
  function Without<T>(lru: seq<Entry<T>>, key: string): seq<Entry<T>> {
    if lru == [] then []
    else if lru[0].key == key then lru[1..]
    else [lru[0]] + Without(lru[1..], key)
  }

  // ---- Shared resources -------------------------------------------------------------

  function Acquire(shared: map<string, Use>, r: Resource): map<string, Use> {
    if r.key in shared
    then shared[r.key := Use(Max(shared[r.key].weight, r.weight), shared[r.key].users + 1)]
    else shared[r.key := Use(r.weight, 1)]
  }

  function AcquireAll(shared: map<string, Use>, items: seq<Resource>): map<string, Use> {
    if items == [] then shared
    else Acquire(AcquireAll(shared, items[..|items| - 1]), items[|items| - 1])
  }

  function Release(shared: map<string, Use>, r: Resource): map<string, Use> {
    if r.key !in shared then shared
    else if shared[r.key].users == 1 then shared - {r.key}
    else shared[r.key := Use(shared[r.key].weight, shared[r.key].users - 1)]
  }

  function ReleaseAll(shared: map<string, Use>, items: seq<Resource>): map<string, Use> {
    if items == [] then shared
    else Release(ReleaseAll(shared, items[..|items| - 1]), items[|items| - 1])
  }

  /** The bytes that stop being charged when the items are released. */
  function Freed(shared: map<string, Use>, items: seq<Resource>): int {
    if items == [] then 0
    else
      var before, last := items[..|items| - 1], items[|items| - 1];
      var now := ReleaseAll(shared, before);
      Freed(shared, before) + if last.key in now && now[last.key].users == 1 then now[last.key].weight else 0
  }

  /** The bytes one more owner of these items adds to the charge. */
  function Charge(shared: map<string, Use>, r: Resource): int {
    if r.key in shared then Max(0, r.weight - shared[r.key].weight) else r.weight
  }

  function Extra(shared: map<string, Use>, items: seq<Resource>): int {
    if items == [] then 0
    else Extra(shared, items[..|items| - 1]) + Charge(shared, items[|items| - 1])
  }

  // ---- The operations ---------------------------------------------------------------

  function Removed<T>(c: Cache<T>, e: Entry<T>): Cache<T> {
    Cache(Without(c.lru, e.key), ReleaseAll(c.shared, e.resources), c.bytes - e.weight - Freed(c.shared, e.resources))
  }

  function Find<T>(lru: seq<Entry<T>>, key: string): (i: nat)
    ensures i <= |lru|
    ensures i < |lru| ==> lru[i].key == key
    ensures forall j | 0 <= j < i :: lru[j].key != key
    ensures Holds(lru, key) <==> i < |lru|
  {
    if lru == [] then 0 else if lru[0].key == key then 0 else 1 + Find(lru[1..], key)
  }

  function Forget<T>(c: Cache<T>, key: string): Cache<T> {
    if Holds(c.lru, key) then Removed(c, c.lru[Find(c.lru, key)]) else c
  }

  function Touched<T>(c: Cache<T>, key: string): Cache<T> {
    if Holds(c.lru, key) then c.(lru := Without(c.lru, key) + [c.lru[Find(c.lru, key)]]) else c
  }

  /** Room for one more entry under both bounds. */
  predicate Room<T>(c: Cache<T>, capacity: int, maxBytes: int, e: Entry<T>) {
    |c.lru| < capacity && c.bytes + (e.weight + Extra(c.shared, e.resources)) <= maxBytes
  }

  function Evicted<T>(c: Cache<T>, capacity: int, maxBytes: int, e: Entry<T>): Cache<T>
    decreases |c.lru|
  {
    if Room(c, capacity, maxBytes, e) || c.lru == [] then c
    else
      WithoutFirstShorter(c.lru);
      Evicted(Removed(c, c.lru[0]), capacity, maxBytes, e)
  }

  lemma WithoutFirstShorter<T>(lru: seq<Entry<T>>)
    requires lru != []
    ensures Without(lru, lru[0].key) == lru[1..]
  {
  }

  function Appended<T>(c: Cache<T>, e: Entry<T>): Cache<T> {
    Cache(c.lru + [e], AcquireAll(c.shared, e.resources), c.bytes + Extra(c.shared, e.resources) + e.weight)
  }

  predicate Oversized<T>(e: Entry<T>, maxBytes: int) {
    e.weight > maxBytes || Total(e.resources) > maxBytes - e.weight
  }

  function Added<T>(c: Cache<T>, capacity: int, maxBytes: int, e: Entry<T>): Cache<T> {
    var base := Forget(c, e.key);
    if Oversized(e, maxBytes) then base else Appended(Evicted(base, capacity, maxBytes, e), e)
  }
}
