/** The cache of metadata images; a hit still checks the MVID on disk. */
module MetadataReferenceCache {
  import opened Wrappers
  import opened CompilerKeys
  import opened CompilerSpec
  import opened CacheSpec
  import opened CacheLaws
  import opened Retention
  import opened BoundedCache

  datatype MetadataEntry = MetadataEntry(identity: string, reference: Reference, weight: int, retentionId: string)

  /** An entry names its image and its price; while files are genuine, the image is the one named. */
  predicate SoundIn(e: Entry<MetadataEntry>, world: World, sizes: seq<int>, genuine: bool) {
    && e.key == e.value.identity == e.value.reference.identity && IsIdentity(e.key)
    && PricedItem(Resource(e.value.retentionId, e.value.weight), sizes) && 0 <= e.value.weight
    && (genuine ==> e.value.reference.image == world.imageOf(MvidOf(e.key)))
  }

  lemma SoundGrows(e: Entry<MetadataEntry>, world: World, sizes: seq<int>, more: seq<int>, genuine: bool)
    requires SoundIn(e, world, sizes, genuine) && sizes <= more
    ensures SoundIn(e, world, more, genuine)
  {
  }

  class MetadataReferenceCache {
    const world: World
    const entries: BoundedCache<MetadataEntry>
    /** The sizes of the images allocated so far; the n-th has the n-th fresh retention id. */
    var sizes: seq<int>
    /** Every file read so far held the one image its MVID names. */
    ghost var genuine: bool

    ghost predicate Sound(e: Entry<MetadataEntry>)
      reads this
    {
      SoundIn(e, world, sizes, genuine)
    }

    ghost predicate Valid()
      reads this, entries
    {
      && Lawful(world)
      && entries.Valid()
      && forall e | e in entries.lru :: Sound(e)
    }

    constructor (world: World, capacity: int)
      requires Lawful(world) && 1 <= capacity
      ensures Valid() && fresh(entries) && this.world == world
      ensures sizes == [] && genuine
    {
      this.world := world;
      entries := new BoundedCache<MetadataEntry>(capacity, 256 * 1024 * 1024);
      sizes, genuine := [], true;
    }

    /** Succeeds exactly when the file on disk now has the expected MVID, cached or not, and then
        returns its image as long as no file has ever contradicted its MVID. */
    method Get(referencePath: string, expected: string, file: FileState) returns (r: Result<MetadataEntry, Code>)
      requires Valid() && IsMvid(expected)
      modifies this, entries
      ensures Valid() && old(sizes) <= sizes
      ensures genuine == (old(genuine) && Genuine(world, file))
      ensures var path := world.fullPath(referencePath);
        if path.None? then r == Failure(CompilerError)
        else if !Matches(file, expected) then r == Failure(StaleReference)
        else r.Success? && r.value.identity == r.value.reference.identity == Identity(path.value, expected)
      ensures r.Success? && genuine ==> r.value.reference.image == file.bytes
      ensures r.Success? ==> 0 <= r.value.weight && PricedItem(Resource(r.value.retentionId, r.value.weight), sizes)
    {
      genuine := genuine && Genuine(world, file);
      var path := world.fullPath(referencePath);
      if path.None? { return Failure(CompilerError); }
      var identity := Identity(path.value, expected);
      assert MvidOf(identity) == expected;
      var cached := Lookup(identity);
      if cached.Some? {
        if !Matches(file, expected) { return Failure(StaleReference); }
        return Success(cached.value);
      }
      if !Matches(file, expected) { return Failure(StaleReference); }
      var entry := Load(identity, file.bytes);
      return Success(entry);
    }

    method Lookup(identity: string) returns (entry: Option<MetadataEntry>)
      requires Valid() && IsIdentity(identity)
      modifies entries
      ensures Valid()
      ensures entry.Some? ==> Sound(Entry(identity, entry.value, 0, []))
    {
      ghost var before := entries.View();
      TouchMembers(before, identity);
      var found;
      found, entry := entries.TryGet(identity);
      if found {
        ghost var e := before.lru[Find(before.lru, identity)];
        assert e in before.lru && Sound(e);
      }
    }

    method Load(identity: string, image: Bytes) returns (entry: MetadataEntry)
      requires Valid() && IsIdentity(identity)
      requires genuine ==> image == world.imageOf(MvidOf(identity))
      modifies this`sizes, entries
      ensures Valid() && old(sizes) <= sizes
      ensures entry.identity == identity && entry.reference == Reference(identity, image) && entry.weight == |image|
      ensures entry.retentionId == Fresh(|old(sizes)|) && sizes == old(sizes) + [|image|]
      ensures 0 <= entry.weight && PricedItem(Resource(entry.retentionId, entry.weight), sizes)
    {
      entry := MetadataEntry(identity, Reference(identity, image), |image|, Fresh(|sizes|));
      ghost var before, was, node := entries.View(), sizes, Entry(identity, entry, entry.weight, []);
      sizes := sizes + [|image|];
      AddMembers(before, entries.capacity, entries.maxBytes, node);
      assert SoundIn(node, world, sizes, genuine);
      forall e | e in before.lru
        ensures SoundIn(e, world, sizes, genuine)
      {
        SoundGrows(e, world, was, sizes, genuine);
      }
      hide Added, Accounted, Bounded, Indexed, Lawful, IsIdentity, MvidOf, SoundIn;
      entries.Add(identity, entry, entry.weight, []);
    }
  }
}
