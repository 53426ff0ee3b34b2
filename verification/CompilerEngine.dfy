/** The persistent compiler: two caches, an optional shared base compilation, and fresh assembly
    names, agreeing with the cache-free worker of `CompilerSpec`. */
module CompilerEngine {
  import opened Wrappers
  import opened CompilerKeys
  import opened CompilerSpec
  import opened CacheSpec
  import opened CacheLaws
  import opened CacheTheorems
  import opened Retention
  import opened BoundedCache
  import opened MetadataReferenceCache

  datatype Emitted = Emitted(bytes: Bytes, diagnostics: seq<Diagnostic>)

  datatype CompilationEntry = CompilationEntry(
    compilation: Compilation, weight: int, shared: seq<Resource>, emitted: Option<Emitted>)

  /** One successful result: the assembly name it carried, and whether a fresh one was asked for. */
  datatype Issue = Issue(name: nat, isFresh: bool)

  // ---- What a retained compilation stands for ---------------------------------------

  /** The base compilation's key is marked, so that no source key can equal it. */
  function BaseCacheKey(w: World, project: string, language: LanguageVersion, identities: seq<string>): string {
    "base:" + w.sha(BaseKey(project, language, identities))
  }

  function SourceCacheKey(w: World, project: string, source: string, language: LanguageVersion, identities: seq<string>): string {
    w.sha(SourceKey(project, source, language, identities))
  }

  predicate IsSource(source: string) { source != [] && source[|source| - 1] == '\n' }

  ghost predicate MeansSource(w: World, key: string, c: Compilation) {
    forall p, s, l, ids | NUL !in p && IsSource(s) && AreIdentities(ids) && key == SourceCacheKey(w, p, s, l, ids) ::
      c == Compilation(c.name, [Tree(s, l)], RefsOf(w, ids))
  }

  ghost predicate MeansBase(w: World, key: string, c: Compilation) {
    forall p, l, ids | NUL !in p && AreIdentities(ids) && key == BaseCacheKey(w, p, l, ids) ::
      c == Compilation(c.name, [], RefsOf(w, ids))
  }

  ghost predicate Means(w: World, key: string, c: Compilation) { MeansSource(w, key, c) && MeansBase(w, key, c) }

  lemma KeysDisjoint(w: World, p: string, s: string, l: LanguageVersion, xs: seq<string>, q: string, k: LanguageVersion, ys: seq<string>)
    requires Lawful(w)
    ensures SourceCacheKey(w, p, s, l, xs) != BaseCacheKey(w, q, k, ys)
  {
    assert BaseCacheKey(w, q, k, ys)[4] == ':';
  }

  lemma SourceMeaning(w: World, p: string, s: string, l: LanguageVersion, ids: seq<string>, c: Compilation)
    requires Lawful(w) && NUL !in p && IsSource(s) && AreIdentities(ids)
    requires c == Compilation(c.name, [Tree(s, l)], RefsOf(w, ids))
    ensures Means(w, SourceCacheKey(w, p, s, l, ids), c)
  {
    var key := SourceCacheKey(w, p, s, l, ids);
    forall q, t, k, ys | NUL !in q && IsSource(t) && AreIdentities(ys) && key == SourceCacheKey(w, q, t, k, ys)
      ensures c == Compilation(c.name, [Tree(t, k)], RefsOf(w, ys))
    {
      SourceKeyInjective(p, q, s, t, l, k, ids, ys);
    }
    forall q, k, ys
      ensures key != BaseCacheKey(w, q, k, ys)
    {
      KeysDisjoint(w, p, s, l, ids, q, k, ys);
    }
  }

  lemma BaseMeaning(w: World, p: string, l: LanguageVersion, ids: seq<string>, c: Compilation)
    requires Lawful(w) && NUL !in p && AreIdentities(ids) && c == Compilation(c.name, [], RefsOf(w, ids))
    ensures Means(w, BaseCacheKey(w, p, l, ids), c)
  {
    var key := BaseCacheKey(w, p, l, ids);
    forall q, k, ys | NUL !in q && AreIdentities(ys) && key == BaseCacheKey(w, q, k, ys)
      ensures c == Compilation(c.name, [], RefsOf(w, ys))
    {
      var a, b := w.sha(BaseKey(p, l, ids)), w.sha(BaseKey(q, k, ys));
      assert a == key[5..] && b == key[5..];
      BaseKeyInjective(p, q, l, k, ids, ys);
    }
    forall q, t, k, ys
      ensures key != SourceCacheKey(w, q, t, k, ys)
    {
      KeysDisjoint(w, q, t, k, ys, p, l, ids);
    }
  }

  // ---- The engine -------------------------------------------------------------------

  function Identities(entries: seq<MetadataEntry>): seq<string> {
    seq(|entries|, i requires 0 <= i < |entries| => entries[i].identity)
  }

  function References(entries: seq<MetadataEntry>): seq<Reference> {
    seq(|entries|, i requires 0 <= i < |entries| => entries[i].reference)
  }

  function Resources(entries: seq<MetadataEntry>): seq<Resource> {
    seq(|entries|, i requires 0 <= i < |entries| => Resource(entries[i].retentionId, entries[i].weight))
  }

  predicate ValidResources(shared: seq<Resource>, sizes: seq<int>) {
    forall r | r in shared :: 0 <= r.weight && PricedItem(r, sizes)
  }

  lemma ReadMeaning(w: World, p: string, s: string, l: LanguageVersion, ids: seq<string>, c: Compilation)
    requires NUL !in p && IsSource(s) && AreIdentities(ids) && Means(w, SourceCacheKey(w, p, s, l, ids), c)
    ensures c == Compilation(c.name, [Tree(s, l)], RefsOf(w, ids))
  {
  }

  predicate HasParts(r: Request) { r.code.Some? && r.usings.Some? && None !in r.usings.value && r.references.Some? }

  /** The key under which the compilation of a request is cached. */
  function KeyOf(w: World, r: Request, language: LanguageVersion, files: seq<FileState>): string
    requires HasParts(r) && |files| == |r.references.value| && ResolveAll(w, r.references.value, files).Success?
  {
    SourceCacheKey(w, Project(r), BuildSource(r.code.value, Unwrap(r.usings.value)), language,
                   IdentitiesOf(ResolveAll(w, r.references.value, files).value))
  }

  function ExpectedMvid(w: World, reference: Option<ReferenceIdentity>): string {
    if reference.Some? && reference.value.mvid.Some? && w.parseGuid(reference.value.mvid.value).Some?
    then w.parseGuid(reference.value.mvid.value).value else ""
  }

  /** A request whose references all resolve found each file at the MVID the request names. */
  lemma {:induction false} MatchedOnDisk(w: World, wanted: seq<Option<ReferenceIdentity>>, files: seq<FileState>)
    requires |files| == |wanted| && ResolveAll(w, wanted, files).Success?
    ensures forall i | 0 <= i < |wanted| :: Matches(files[i], ExpectedMvid(w, wanted[i]))
  {
    if wanted != [] {
      MatchedOnDisk(w, wanted[..|wanted| - 1], files[..|wanted| - 1]);
    }
  }

  lemma RefusalIsNoCompilation(w: World, r: Request)
    requires Refusal(w, r).Some?
    ensures !Refusal(w, r).value.Compiled? && Refusal(w, r).value.requestId == r.requestId
  {
  }

  lemma AcceptedHasLanguage(w: World, r: Request)
    requires Refusal(w, r).None?
    ensures r.languageVersion.Some? && w.parseLanguage(r.languageVersion.value).Some? && HasParts(r)
  {
  }

  lemma CollectedOneMore(found: seq<MetadataEntry>, e: MetadataEntry, seen: seq<Reference>, r: Reference, before: seq<int>, sizes: seq<int>)
    requires before <= sizes && ValidResources(Resources(found), before)
    requires 0 <= e.weight && PricedItem(Resource(e.retentionId, e.weight), sizes)
    ensures ValidResources(Resources(found + [e]), sizes)
    ensures Identities(found + [e]) == Identities(found) + [e.identity]
    ensures References(found + [e]) == References(found) + [e.reference]
    ensures IdentitiesOf(seen + [r]) == IdentitiesOf(seen) + [r.identity]
  {
    var all := Resources(found + [e]);
    assert all == Resources(found) + [Resource(e.retentionId, e.weight)];
    forall x | x in all
      ensures 0 <= x.weight && PricedItem(x, sizes)
    {
      if x in Resources(found) { assert PricedItem(x, before); }
    }
  }

  lemma {:induction false} FailureStays(w: World, wanted: seq<Option<ReferenceIdentity>>, files: seq<FileState>, i: nat)
    requires |files| == |wanted| && i < |wanted|
    requires ResolveAll(w, wanted[..i], files[..i]).Success? && Resolve(w, wanted[i], files[i]).Failure?
    ensures ResolveAll(w, wanted, files) == Failure(Resolve(w, wanted[i], files[i]).error)
    decreases |wanted|
  {
    var n := |wanted| - 1;
    if i < n {
      assert wanted[..n][..i] == wanted[..i] && files[..n][..i] == files[..i];
      FailureStays(w, wanted[..n], files[..n], i);
    } else {
      assert wanted[..i] == wanted[..n] && files[..i] == files[..n];
    }
  }

  class CompilerEngine {
    const world: World
    const references: MetadataReferenceCache
    const compilations: BoundedCache<CompilationEntry>
    const reuseBase: bool
    var warmed: bool
    /** The supply of assembly names: the next unused one. */
    var names: nat
    ghost var issued: seq<Issue>
    /** Every project id so far was free of NUL. */
    ghost var plain: bool

    /** Nothing seen so far undermines the cache keys or the MVIDs. */
    ghost predicate Trusted()
      reads this, references
    {
      plain && references.genuine
    }

    ghost predicate Sound(key: string, v: CompilationEntry)
      reads this, references
    {
      && v.compilation.name < names
      && (forall i | 0 <= i < |issued| && issued[i].isFresh :: issued[i].name != v.compilation.name)
      && 0 <= v.weight && ValidResources(v.shared, references.sizes)
      && (v.emitted.Some? ==> world.emit(v.compilation) == Emission(true, v.emitted.value.bytes, v.emitted.value.diagnostics))
      && (Trusted() ==> Means(world, key, v.compilation))
    }

    /** A fresh name is shared with no other result. */
    ghost predicate NamesIssued()
      reads this
    {
      && (forall i | 0 <= i < |issued| :: issued[i].name < names)
      && (forall i, j | 0 <= i < j < |issued| && (issued[i].isFresh || issued[j].isFresh) :: issued[i].name != issued[j].name)
    }

    ghost predicate Apart()
      reads this, references
    {
      && (compilations as object) != references.entries
      && references.world == world
    }

    ghost predicate Valid()
      reads this, references, references.entries, compilations
    {
      && Apart() && Lawful(world) && references.Valid() && compilations.Valid() && NamesIssued()
      && (forall e | e in compilations.lru :: Sound(e.key, e.value))
      && PricedBy(compilations.View(), references.sizes)
      && (warmed ==> world.bootstraps)
    }

    constructor (world: World, reuseBase: bool)
      requires Lawful(world)
      ensures Valid() && Trusted() && issued == [] && this.world == world && this.reuseBase == reuseBase
      ensures fresh(references) && fresh(references.entries) && fresh(compilations)
    {
      this.world, this.reuseBase := world, reuseBase;
      references := new MetadataReferenceCache(world, 512);
      compilations := new BoundedCache<CompilationEntry>(64, 256 * 1024 * 1024);
      warmed, names, issued, plain := false, 0, [], true;
    }

    method NewAssemblyName() returns (name: nat)
      requires Valid()
      modifies this`names
      ensures Valid() && name == old(names) && names == name + 1
    {
      name := names;
      names := names + 1;
    }

    // ---- Reading the references

    method Collect(wanted: seq<Option<ReferenceIdentity>>, files: seq<FileState>)
      returns (found: seq<MetadataEntry>, failure: Option<Code>)
      requires Valid() && |files| == |wanted|
      modifies references, references.entries
      ensures Valid()
      ensures references.genuine ==> old(references.genuine)
      ensures old(references.genuine) && (forall f | f in files :: Genuine(world, f)) ==> references.genuine
      ensures failure.Some? ==> ResolveAll(world, wanted, files) == Failure(failure.value)
      ensures failure.None? ==>
        && ResolveAll(world, wanted, files).Success?
        && IdentitiesOf(ResolveAll(world, wanted, files).value) == Identities(found)
        && ValidResources(Resources(found), references.sizes)
        && (references.genuine ==> forall f | f in files :: Genuine(world, f))
        && (references.genuine ==> References(found) == ResolveAll(world, wanted, files).value)
    {
      hide Accounted, Indexed, MeansSource, MeansBase, Resolve;
      found, failure := [], None;
      var i := 0;
      while i < |wanted|
        invariant 0 <= i <= |wanted| && Valid()
        invariant references.genuine ==> old(references.genuine)
        invariant old(references.genuine) && (forall f | f in files[..i] :: Genuine(world, f)) ==> references.genuine
        invariant references.genuine ==> forall f | f in files[..i] :: Genuine(world, f)
        invariant ResolveAll(world, wanted[..i], files[..i]).Success?
        invariant IdentitiesOf(ResolveAll(world, wanted[..i], files[..i]).value) == Identities(found)
        invariant ValidResources(Resources(found), references.sizes)
        invariant references.genuine ==> References(found) == ResolveAll(world, wanted[..i], files[..i]).value
      {
        assert wanted[..i + 1][..i] == wanted[..i] && files[..i + 1][..i] == files[..i];
        ghost var before := references.sizes;
        ghost var seen := ResolveAll(world, wanted[..i], files[..i]).value;
        var entry := CollectOne(wanted[i], files[i]);
        assert files[..i + 1] == files[..i] + [files[i]];
        if entry.Failure? {
          FailureStays(world, wanted, files, i);
          return [], Some(entry.error);
        }
        CollectedOneMore(found, entry.value, seen, Resolve(world, wanted[i], files[i]).value, before, references.sizes);
        found := found + [entry.value];
        i := i + 1;
      }
      assert wanted[..i] == wanted && files[..i] == files;
    }

    method CollectOne(wanted: Option<ReferenceIdentity>, file: FileState) returns (r: Result<MetadataEntry, Code>)
      requires Valid()
      modifies references, references.entries
      ensures Valid() && old(references.sizes) <= references.sizes
      ensures references.genuine ==> old(references.genuine)
      ensures old(references.genuine) && Genuine(world, file) ==> references.genuine
      ensures var spec := Resolve(world, wanted, file);
        && r.Success? == spec.Success?
        && (r.Failure? ==> r.error == spec.error)
        && (r.Success? ==> r.value.identity == spec.value.identity)
        && (r.Success? && references.genuine ==> r.value.reference == spec.value && Genuine(world, file))
      ensures r.Success? ==> 0 <= r.value.weight && PricedItem(Resource(r.value.retentionId, r.value.weight), references.sizes)
    {
      if wanted.None? || wanted.value.path.None? || wanted.value.path.value == "" || wanted.value.mvid.None? {
        return Failure(InvalidRequest);
      }
      var path, expected := wanted.value.path.value, world.parseGuid(wanted.value.mvid.value);
      if expected.None? { return Failure(InvalidRequest); }
      if !world.qualified(path) { return Failure(InvalidRequest); }
      ghost var before := references.sizes;
      r := references.Get(path, expected.value, file);
      PricesPersist(compilations.View(), before, references.sizes);
      assert forall r | PricedItem(r, before) :: PricedItem(r, references.sizes);
    }

    // ---- The compilation cache

    method Recall(key: string) returns (v: Option<CompilationEntry>)
      requires Valid()
      modifies compilations
      ensures Valid()
      ensures v.Some? ==> Sound(key, v.value)
      ensures v.Some? <==> Holds(old(compilations.lru), key)
    {
      hide Accounted, Indexed, MeansSource, MeansBase;
      ghost var before := compilations.View();
      TouchMembers(before, key);
      var found;
      found, v := compilations.TryGet(key);
      if found {
        ghost var e := before.lru[Find(before.lru, key)];
        assert e in before.lru && Sound(e.key, e.value);
      }
    }

    method Retain(key: string, v: CompilationEntry, weight: int)
      requires Valid() && 0 <= weight && Sound(key, v)
      modifies compilations
      ensures Valid()
      ensures Kept(key, v, weight)
    {
      GroupedIsGrouping(v.shared);
      AddedIsThere(compilations.View(), compilations.capacity, compilations.maxBytes, Entry(key, v, weight, Grouped(v.shared)));
      hide Valid, Sound, Added, Oversized, Grouped, Bounded;
      Insert(key, v, weight);
    }

    method Insert(key: string, v: CompilationEntry, weight: int)
      requires Valid() && 0 <= weight && Sound(key, v)
      modifies compilations
      ensures Valid()
      ensures compilations.View() == Added(old(compilations.View()), compilations.capacity, compilations.maxBytes,
                                          Entry(key, v, weight, Grouped(v.shared)))
    {
      ghost var e := Entry(key, v, weight, Grouped(v.shared));
      GroupedIsGrouping(v.shared);
      AddMembers(compilations.View(), compilations.capacity, compilations.maxBytes, e);
      AddKeepsPrices(compilations.View(), compilations.capacity, compilations.maxBytes, e, references.sizes);
      compilations.Add(key, v, weight, v.shared);
      assert forall d | d in compilations.lru :: Sound(d.key, d.value);
    }

    /** The compilation is in the cache, unless it is too big for it. */
    ghost predicate Kept(key: string, v: CompilationEntry, weight: int)
      reads compilations
    {
      var e := Entry(key, v, weight, Grouped(v.shared));
      Oversized(e, compilations.maxBytes) || e in compilations.lru
    }

    /** The compilation of this source against these references, cached, derived from a cached
        base compilation, or new. */
    method Bind(project: string, source: string, language: LanguageVersion, found: seq<MetadataEntry>)
      returns (entry: CompilationEntry, cacheHit: bool, baseCacheHit: bool)
      requires Valid() && IsSource(source) && AreIdentities(Identities(found))
      requires ValidResources(Resources(found), references.sizes)
      requires Trusted() ==> NUL !in project && References(found) == RefsOf(world, Identities(found))
      modifies this`names, compilations
      ensures Valid() && old(names) <= names
      ensures Sound(SourceCacheKey(world, project, source, language, Identities(found)), entry)
      ensures Trusted() ==> entry.compilation == Compilation(entry.compilation.name, [Tree(source, language)], References(found))
      ensures cacheHit <==> Holds(old(compilations.lru), SourceCacheKey(world, project, source, language, Identities(found)))
      ensures !cacheHit ==> Kept(SourceCacheKey(world, project, source, language, Identities(found)), entry, entry.weight)
      ensures baseCacheHit ==> reuseBase && !cacheHit
    {
      hide Accounted, Indexed, MeansSource, MeansBase;
      var identities := Identities(found);
      var key := SourceCacheKey(world, project, source, language, identities);
      baseCacheHit := false;
      var cached := Recall(key);
      if cached.Some? {
        if Trusted() { ReadMeaning(world, project, source, language, identities, cached.value.compilation); }
        return cached.value, true, false;
      }
      cacheHit := false;
      var tree := Tree(source, language);
      var compilation, resources := Compilation(0, [tree], References(found)), Resources(found);
      if reuseBase {
        var basis;
        basis, baseCacheHit := Base(project, language, found);
        var name := NewAssemblyName();
        compilation, resources := basis.compilation.WithAssemblyName(name).AddSyntaxTrees(tree), basis.shared;
      } else {
        var name := NewAssemblyName();
        compilation := Compilation(name, [tree], References(found));
      }
      entry := CompilationEntry(compilation, 64 * 1024 + |source| * 16, resources, None);
      if Trusted() { SourceMeaning(world, project, source, language, identities, compilation); }
      Retain(key, entry, entry.weight);
    }

    method Base(project: string, language: LanguageVersion, found: seq<MetadataEntry>)
      returns (basis: CompilationEntry, hit: bool)
      requires Valid() && AreIdentities(Identities(found))
      requires ValidResources(Resources(found), references.sizes)
      requires Trusted() ==> NUL !in project && References(found) == RefsOf(world, Identities(found))
      modifies this`names, compilations
      ensures Valid() && old(names) <= names
      ensures Sound(BaseCacheKey(world, project, language, Identities(found)), basis)
      ensures Trusted() ==> basis.compilation == Compilation(basis.compilation.name, [], References(found))
    {
      hide Accounted, Indexed, MeansSource;
      var key := BaseCacheKey(world, project, language, Identities(found));
      var cached := Recall(key);
      if cached.Some? {
        return cached.value, true;
      }
      hit := false;
      var name := NewAssemblyName();
      basis := CompilationEntry(Compilation(name, [], References(found)), 64 * 1024, Resources(found), None);
      if Trusted() { BaseMeaning(world, project, language, Identities(found), basis.compilation); }
      Retain(key, basis, basis.weight);
    }

    // ---- Requests

    method Compile(request: Request, language: LanguageVersion, files: seq<FileState>)
      returns (response: Response, ghost basis: nat)
      requires Valid() && Refusal(world, request).None? && HasParts(request) && |files| == |request.references.value|
      requires request.languageVersion.Some? && world.parseLanguage(request.languageVersion.value) == Some(language)
      modifies this`names, this`issued, this`plain, references, references.entries, compilations
      ensures Valid()
      ensures plain == (old(plain) && NUL !in Project(request))
      ensures references.genuine ==> old(references.genuine)
      ensures old(references.genuine) && (forall f | f in files :: Genuine(world, f)) ==> references.genuine
      ensures Trusted() ==> SameOutcome(response, Answer(world, request, files, basis))
      ensures response.requestId == request.requestId
      ensures response.Compiled? ==> basis == response.name
      ensures response.Compiled? ==> ResolveAll(world, request.references.value, files).Success?
      ensures response.Compiled? ==>
        (response.cacheHit <==> Holds(old(compilations.lru), KeyOf(world, request, language, files)))
      ensures issued == old(issued) + if response.Compiled? then [Issue(response.name, request.freshIdentity)] else []
    {
      hide Valid, Sound, ResolveAll, BuildSource, ValidResources;
      basis := 0;
      NoteProject(request);
      var source := BuildSource(request.code.value, Unwrap(request.usings.value));
      BuildSourceEnds(request.code.value, Unwrap(request.usings.value));
      var found, failure := Collect(request.references.value, files);
      if failure.Some? {
        return Fail(request, failure.value), basis;
      }
      CollectedIdentities(request.references.value, files, found);
      var entry, cacheHit, baseCacheHit := Bind(Project(request), source, language, found);
      response, basis := Emit(request, SourceCacheKey(world, Project(request), source, language, Identities(found)),
                              entry, cacheHit, baseCacheHit);
    }

    ghost method NoteProject(request: Request)
      requires Valid()
      modifies this`plain
      ensures Valid() && plain == (old(plain) && NUL !in Project(request))
    {
      plain := plain && NUL !in Project(request);
    }

    /** The bytes of a bound compilation: emitted before, or emitted now under its own or a fresh name. */
    method Emit(request: Request, key: string, entry: CompilationEntry, cacheHit: bool, baseCacheHit: bool)
      returns (response: Response, ghost basis: nat)
      requires Valid() && Sound(key, entry)
      modifies this`names, this`issued, compilations
      ensures Valid()
      ensures SameOutcome(response, Outcome(world, request, entry.compilation.WithAssemblyName(basis)))
      ensures response.Compiled? ==> basis == response.name
      ensures response.Compiled? ==>
        && response.cacheHit == cacheHit && response.baseCacheHit == baseCacheHit
        && (response.emitReused <==> !request.freshIdentity && entry.emitted.Some?)
        && (!request.freshIdentity && entry.emitted.None? ==>
              Kept(key, entry.(emitted := Some(Emitted(response.bytes, response.diagnostics))), entry.weight + |response.bytes|))
      ensures issued == old(issued) + if response.Compiled? then [Issue(response.name, request.freshIdentity)] else []
    {
      hide Accounted, Indexed, MeansSource, MeansBase;
      if !request.freshIdentity && entry.emitted.Some? {
        basis := entry.compilation.name;
        issued := issued + [Issue(basis, false)];
        return Compiled(request.requestId, entry.compilation.name, entry.emitted.value.bytes, entry.emitted.value.diagnostics,
                        request.referenceGeneration, cacheHit, true, baseCacheHit), basis;
      }
      var target := entry.compilation;
      if request.freshIdentity {
        var name := NewAssemblyName();
        target := target.WithAssemblyName(name);
      }
      basis := target.name;
      var result := world.emit(target);
      if !result.success {
        return Fail(request, CompileError, result.diagnostics), basis;
      }
      if !request.freshIdentity {
        Retain(key, entry.(emitted := Some(Emitted(result.bytes, result.diagnostics))), entry.weight + |result.bytes|);
      }
      issued := issued + [Issue(target.name, request.freshIdentity)];
      return Compiled(request.requestId, target.name, result.bytes, result.diagnostics,
                      request.referenceGeneration, cacheHit, false, baseCacheHit), basis;
    }

    method Warmup() returns (ready: bool)
      requires Valid()
      modifies this`warmed
      ensures Valid() && ready == world.bootstraps
    {
      if warmed { return true; }
      if !world.bootstraps { return false; }
      warmed := true;
      return true;
    }

    /** One request: the answer is the cache-free worker's, up to the assembly name, for as long
        as every project id was free of NUL and every file held the image its MVID names; and
        whatever the past, a compiled answer means every reference matched its MVID on disk. */
    method Process(request: Request, files: seq<FileState>) returns (response: Response, ghost basis: nat)
      requires Valid() && (request.references.Some? ==> |files| == |request.references.value|)
      modifies this, references, references.entries, compilations
      ensures Valid()
      ensures old(Trusted()) && NUL !in Project(request) && (forall f | f in files :: Genuine(world, f)) ==> Trusted()
      ensures Trusted() ==> SameOutcome(response, Answer(world, request, files, basis))
      ensures response.requestId == request.requestId
      ensures response.Compiled? ==> basis == response.name
      ensures response.Compiled? ==>
        && Refusal(world, request).None? && request.references.Some?
        && ResolveAll(world, request.references.value, files).Success?
        && forall i | 0 <= i < |files| :: Matches(files[i], ExpectedMvid(world, request.references.value[i]))
      ensures issued == old(issued) + if response.Compiled? then [Issue(response.name, request.freshIdentity)] else []
    {
      hide Valid, ResolveAll, Matches, Genuine, Refusal;
      basis := 0;
      var refusal := Refuse(request);
      if refusal.Some? {
        RefusalIsNoCompilation(world, request);
        return refusal.value, basis;
      }
      AcceptedHasLanguage(world, request);
      response, basis := Compile(request, world.parseLanguage(request.languageVersion.value).value, files);
      if response.Compiled? { MatchedOnDisk(world, request.references.value, files); }
    }

    method Refuse(request: Request) returns (refusal: Option<Response>)
      requires Valid()
      modifies this`warmed
      ensures Valid() && refusal == Refusal(world, request)
    {
      if request.protocol != 1 { return Some(Fail(request, UnsupportedProtocol)); }
      if request.operation == Some("ping") { return Some(Ready(request.requestId)); }
      if request.operation == Some("warmup") {
        var ready := Warmup();
        return Some(if ready then Ready(request.requestId) else Fail(request, CompilerError));
      }
      if request.operation != Some("compile") { return Some(Fail(request, InvalidRequest)); }
      if request.code.None? || request.code.value == "" || |request.code.value| > 1048576 {
        return Some(Fail(request, InvalidRequest));
      }
      if request.usings.None? || |request.usings.value| > 256 || None in request.usings.value {
        return Some(Fail(request, InvalidRequest));
      }
      if request.references.None? || |request.references.value| == 0 || |request.references.value| > 4096 {
        return Some(Fail(request, InvalidRequest));
      }
      if request.languageVersion.None? || request.languageVersion.value == ""
        || world.parseLanguage(request.languageVersion.value).None? {
        return Some(Fail(request, UnsupportedLanguageVersion));
      }
      return None;
    }

    /** Each image is charged once while any retained compilation owns it, also after the
        metadata cache has let it go. */
    lemma RetainsEachImageOnce()
      requires Valid()
      ensures compilations.bytes == Footprint(compilations.lru, Price(references.sizes))
    {
      PricedByIsPriced(compilations.View(), references.sizes);
      ChargeIsFootprint(compilations.View(), Price(references.sizes));
    }

    lemma CollectedIdentities(wanted: seq<Option<ReferenceIdentity>>, files: seq<FileState>, found: seq<MetadataEntry>)
      requires Lawful(world) && |files| == |wanted| && wanted != [] && ResolveAll(world, wanted, files).Success?
      requires IdentitiesOf(ResolveAll(world, wanted, files).value) == Identities(found)
      ensures AreIdentities(Identities(found))
      ensures (forall f | f in files :: Genuine(world, f)) ==>
        ResolveAll(world, wanted, files).value == RefsOf(world, Identities(found))
    {
      ResolvedReferences(world, wanted, files);
      var all := ResolveAll(world, wanted, files).value;
      forall s | s in Identities(found)
        ensures IsIdentity(s)
      {
        var i :| 0 <= i < |all| && IdentitiesOf(all)[i] == s;
        assert all[i] in all;
      }
    }
  }

  function Project(request: Request): string {
    if request.projectId.Some? then request.projectId.value else ""
  }
}
