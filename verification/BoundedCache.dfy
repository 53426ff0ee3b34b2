/** The least-recently-used cache of the compiler worker, as it updates its fields in place. */
module BoundedCache {
  import opened Wrappers
  import opened CacheSpec
  import opened CacheLaws

  class BoundedCache<T> {
    const capacity: int
    const maxBytes: int
    var entries: map<string, Entry<T>>
    var lru: seq<Entry<T>>
    var shared: map<string, Use>
    var bytes: int

    ghost function View(): Cache<T>
      reads this
    {
      Cache(lru, shared, bytes)
    }

    /** The dictionary indexes exactly the list, every charge is accounted for, and both bounds hold. */
    ghost predicate Valid()
      reads this
    {
      && 1 <= capacity && 0 <= maxBytes
      && Bounded(View(), capacity, maxBytes)
      && Indexed(entries, lru)
    }

    constructor (capacity: int, maxBytes: int)
      requires 1 <= capacity && 0 <= maxBytes
      ensures Valid() && View() == Cache([], map[], 0)
      ensures this.capacity == capacity && this.maxBytes == maxBytes
    {
      this.capacity, this.maxBytes := capacity, maxBytes;
      entries, lru, shared, bytes := map[], [], map[], 0;
    }

    method TryGet(key: string) returns (found: bool, value: Option<T>)
      requires Valid()
      modifies this
      ensures Valid() && View() == Touched(old(View()), key)
      ensures found == value.Some? == Holds(old(lru), key)
      ensures found ==> MovedLast(old(lru), lru, key) && value.value == lru[|lru| - 1].value
      ensures !found ==> lru == old(lru)
      ensures shared == old(shared) && bytes == old(bytes) && entries == old(entries)
    {
      TouchKeepsBounds(View(), capacity, maxBytes, key);
      HitMovesLast(View(), key);
      if key in entries {
        var node := entries[key];
        WithoutElements(lru, node);
        TouchIndexed(entries, lru, node);
        lru := Without(lru, node.key);
        lru := lru + [node];
        return true, Some(node.value);
      }
      return false, None;
    }

    /** Gives the items up: each stops being charged when its last owner goes. */
    method Release(resources: seq<Resource>)
      requires Releasable(shared, resources)
      modifies this`shared, this`bytes
      ensures shared == ReleaseAll(old(shared), resources)
      ensures bytes == old(bytes) - Freed(old(shared), resources)
    {
      var i := 0;
      while i < |resources|
        invariant 0 <= i <= |resources|
        invariant shared == ReleaseAll(old(shared), resources[..i])
        invariant bytes == old(bytes) - Freed(old(shared), resources[..i])
      {
        var item := resources[i];
        assert resources[..i + 1][..i] == resources[..i];
        var current := shared[item.key];
        if current.users == 1 {
          bytes := bytes - current.weight;
          shared := shared - {item.key};
        } else {
          shared := shared[item.key := Use(current.weight, current.users - 1)];
        }
        i := i + 1;
      }
      assert resources[..i] == resources;
    }

    method Remove(node: Entry<T>)
      requires Indexed(entries, lru) && node in lru
      requires Releasable(shared, node.resources)
      modifies this
      ensures View() == Removed(old(View()), node)
      ensures Indexed(entries, lru)
    {
      bytes := bytes - node.weight;
      Release(node.resources);
      WithoutIndexed(entries, lru, node);
      entries := entries - {node.key};
      lru := Without(lru, node.key);
    }

    /** Removes the entry of that key, if there is one. */
    method Discard(key: string)
      requires Valid()
      modifies this
      ensures Valid() && !Holds(lru, key)
      ensures View() == Forget(old(View()), key)
    {
      ForgetKeepsBounds(View(), capacity, maxBytes, key);
      if key in entries {
        var existing := entries[key];
        WithoutElements(lru, existing);
        StillOwned(View(), existing);
        Remove(existing);
      }
    }

    /** Takes the items on: each is charged only as far as it is not charged already. */
    method Acquire(resources: seq<Resource>)
      requires Distinct(resources)
      modifies this`shared, this`bytes
      ensures shared == AcquireAll(old(shared), resources)
      ensures bytes == old(bytes) + Extra(old(shared), resources)
    {
      var i := 0;
      while i < |resources|
        invariant 0 <= i <= |resources|
        invariant shared == AcquireAll(old(shared), resources[..i])
        invariant bytes == old(bytes) + Extra(old(shared), resources[..i])
      {
        var item := resources[i];
        assert resources[..i + 1][..i] == resources[..i];
        NotYetAcquired(old(shared), resources, i);
        if item.key in shared {
          var current := shared[item.key];
          bytes := bytes + Max(0, item.weight - current.weight);
          shared := shared[item.key := Use(Max(current.weight, item.weight), current.users + 1)];
        } else {
          shared := shared[item.key := Use(item.weight, 1)];
          bytes := bytes + item.weight;
        }
        i := i + 1;
      }
      assert resources[..i] == resources;
    }

    /** Drops least recently used entries until the node fits. */
    method MakeRoom(node: Entry<T>)
      requires Valid() && WellFormed(node) && !Oversized(node, maxBytes) && !Holds(lru, node.key)
      modifies this
      ensures Valid() && !Holds(lru, node.key)
      ensures View() == Evicted(old(View()), capacity, maxBytes, node)
      ensures Room(View(), capacity, maxBytes, node)
    {
      IndexedSize(entries, lru);
      while |entries| >= capacity || bytes + (node.weight + Extra(shared, node.resources)) > maxBytes
        invariant Valid() && !Holds(lru, node.key) && |entries| == |lru|
        invariant Evicted(View(), capacity, maxBytes, node) == Evicted(old(View()), capacity, maxBytes, node)
        decreases |lru|
      {
        EmptyHasRoom(View(), capacity, maxBytes, node);
        ghost var before := View();
        StillOwned(before, lru[0]);
        RemoveKeepsBounds(before, capacity, maxBytes, lru[0]);
        WithoutFirstShorter(lru);
        Remove(lru[0]);
        IndexedSize(entries, lru);
      }
    }

    method Append(node: Entry<T>)
      requires Valid() && WellFormed(node) && !Holds(lru, node.key) && Room(View(), capacity, maxBytes, node)
      modifies this
      ensures Valid() && View() == Appended(old(View()), node)
    {
      AppendKeepsBounds(View(), capacity, maxBytes, node);
      AppendIndexed(entries, lru, node);
      Acquire(node.resources);
      entries, lru := entries[node.key := node], lru + [node];
      bytes := bytes + node.weight;
    }

    method Add(key: string, value: T, weight: int, sharedWeights: seq<Resource>)
      requires Valid()
      requires 0 <= weight && forall r | r in sharedWeights :: 0 <= r.weight
      modifies this
      ensures Valid()
      ensures View() == Added(old(View()), capacity, maxBytes, Entry(key, value, weight, Grouped(sharedWeights)))
    {
      var resources := Grouped(sharedWeights);
      GroupedIsGrouping(sharedWeights);
      var node := Entry(key, value, weight, resources);
      Discard(key);
      if weight > maxBytes || Total(resources) > maxBytes - weight {
        return;
      }
      MakeRoom(node);
      Append(node);
    }
  }
}
