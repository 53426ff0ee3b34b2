/** What one compile request is answered by a worker that keeps nothing between requests.

    Roslyn, the hash, path and GUID parsing are foreign: they are the functions of a `World`, and
    `Lawful` says what is relied on about them. */
module CompilerSpec {
  import opened Wrappers
  import opened CompilerKeys

  type Bytes = seq<bv8>

  /** What opening one reference file finds. */
  datatype FileState = Unreadable | Image(mvid: Option<string>, bytes: Bytes)

  datatype Tree = Tree(source: string, language: LanguageVersion)
  datatype Reference = Reference(identity: string, image: Bytes)

  datatype Compilation = Compilation(name: nat, trees: seq<Tree>, references: seq<Reference>) {
    function WithAssemblyName(name: nat): Compilation { this.(name := name) }
    function AddSyntaxTrees(tree: Tree): Compilation { this.(trees := trees + [tree]) }
  }

  datatype Diagnostic = Diagnostic(id: string, severity: string, message: string, line: Option<int>, column: Option<int>)
  datatype Emission = Emission(success: bool, bytes: Bytes, diagnostics: seq<Diagnostic>)

  datatype World = World(
    emit: Compilation -> Emission,
    sha: string -> string,
    fullPath: string -> Option<string>,
    qualified: string -> bool,
    parseGuid: string -> Option<string>,
    parseLanguage: string -> Option<LanguageVersion>,
    imageOf: string -> Bytes,
    bootstraps: bool)

  /** The hash is injective and hexadecimal; a full path holds no NUL; a parsed GUID is 32 digits. */
  ghost predicate Lawful(w: World) {
    && (forall a, b :: w.sha(a) == w.sha(b) ==> a == b)
    && (forall a, i | 0 <= i < |w.sha(a)| :: w.sha(a)[i] != ':')
    && (forall p :: w.fullPath(p).Some? ==> NUL !in w.fullPath(p).value)
    && (forall g :: w.parseGuid(g).Some? ==> IsMvid(w.parseGuid(g).value))
  }

  datatype ReferenceIdentity = ReferenceIdentity(path: Option<string>, mvid: Option<string>)

  datatype Request = Request(
    protocol: int,
    operation: Option<string>,
    requestId: Option<string>,
    code: Option<string>,
    usings: Option<seq<Option<string>>>,
    languageVersion: Option<string>,
    references: Option<seq<Option<ReferenceIdentity>>>,
    projectId: Option<string>,
    referenceGeneration: Option<string>,
    freshIdentity: bool)

  datatype Code =
    UnsupportedProtocol | InvalidRequest | UnsupportedLanguageVersion | StaleReference | CompilerError | CompileError

  datatype Response =
    | Ready(requestId: Option<string>)
    | Compiled(requestId: Option<string>, name: nat, bytes: Bytes, diagnostics: seq<Diagnostic>,
               generation: Option<string>, cacheHit: bool, emitReused: bool, baseCacheHit: bool)
    | Failed(requestId: Option<string>, code: Code, generation: Option<string>, diagnostics: seq<Diagnostic>)

  function Fail(r: Request, code: Code, diagnostics: seq<Diagnostic> := []): Response {
    Failed(r.requestId, code, r.referenceGeneration, diagnostics)
  }

  /** Equal but for the flags that tell which caches were hit. */
  predicate SameOutcome(a: Response, b: Response) {
    if a.Compiled? && b.Compiled?
    then a.(cacheHit := false, emitReused := false, baseCacheHit := false)
      == b.(cacheHit := false, emitReused := false, baseCacheHit := false)
    else a == b
  }

  function Unwrap(usings: seq<Option<string>>): seq<string>
    requires None !in usings
  {
    seq(|usings|, i requires 0 <= i < |usings| => assert usings[i] in usings; usings[i].value)
  }

  /** The refusals that come before any reference is read; none means the request is a
      well-formed compilation. */
  function Refusal(w: World, r: Request): Option<Response> {
    if r.protocol != 1 then Some(Fail(r, UnsupportedProtocol))
    else if r.operation == Some("ping") then Some(Ready(r.requestId))
    else if r.operation == Some("warmup") then
      Some(if w.bootstraps then Ready(r.requestId) else Fail(r, CompilerError))
    else if r.operation != Some("compile") then Some(Fail(r, InvalidRequest))
    else if r.code.None? || r.code.value == "" || |r.code.value| > 1048576 then Some(Fail(r, InvalidRequest))
    else if r.usings.None? || |r.usings.value| > 256 || None in r.usings.value then Some(Fail(r, InvalidRequest))
    else if r.references.None? || |r.references.value| == 0 || |r.references.value| > 4096 then Some(Fail(r, InvalidRequest))
    else if r.languageVersion.None? || r.languageVersion.value == "" || w.parseLanguage(r.languageVersion.value).None?
    then Some(Fail(r, UnsupportedLanguageVersion))
    else None
  }

  /** The file at that path is readable and is the image Unity named. */
  predicate Matches(file: FileState, mvid: string) { file.Image? && file.mvid == Some(mvid) }

  /** Reading one reference: its identity and its image, or the reason to refuse. */
  function Resolve(w: World, reference: Option<ReferenceIdentity>, file: FileState): Result<Reference, Code> {
    if reference.None? || reference.value.path.None? || reference.value.path.value == ""
      || reference.value.mvid.None? || w.parseGuid(reference.value.mvid.value).None? then Failure(InvalidRequest)
    else
      var path, mvid := reference.value.path.value, w.parseGuid(reference.value.mvid.value).value;
      if !w.qualified(path) then Failure(InvalidRequest)
      else if w.fullPath(path).None? then Failure(CompilerError)
      else if !Matches(file, mvid) then Failure(StaleReference)
      else Success(Reference(Identity(w.fullPath(path).value, mvid), file.bytes))
  }

  function ResolveAll(w: World, references: seq<Option<ReferenceIdentity>>, files: seq<FileState>): Result<seq<Reference>, Code>
    requires |files| == |references|
  {
    if references == [] then Success([])
    else
      var n := |references| - 1;
      var before := ResolveAll(w, references[..n], files[..n]);
      if before.Failure? then before
      else
        var last := Resolve(w, references[n], files[n]);
        if last.Failure? then Failure(last.error) else Success(before.value + [last.value])
  }

  function Outcome(w: World, r: Request, c: Compilation): Response {
    var result := w.emit(c);
    if result.success then
      Compiled(r.requestId, c.name, result.bytes, result.diagnostics, r.referenceGeneration, false, false, false)
    else Fail(r, CompileError, result.diagnostics)
  }

  /** The answer of a worker that reads every reference and emits every time. */
  function Answer(w: World, r: Request, files: seq<FileState>, name: nat): Response
    requires r.references.Some? ==> |files| == |r.references.value|
  {
    var refusal := Refusal(w, r);
    if refusal.Some? then refusal.value
    else
      var references := ResolveAll(w, r.references.value, files);
      if references.Failure? then Fail(r, references.error)
      else
        var source := BuildSource(r.code.value, Unwrap(r.usings.value));
        var language := w.parseLanguage(r.languageVersion.value).value;
        Outcome(w, r, Compilation(name, [Tree(source, language)], references.value))
  }

  // ---- When a retained image can stand for the file ---------------------------------

  /** The file holds the one image its MVID names. */
  predicate Genuine(w: World, file: FileState) {
    file.Image? && file.mvid.Some? ==> file.bytes == w.imageOf(file.mvid.value)
  }

  function RefsOf(w: World, identities: seq<string>): seq<Reference>
    requires forall s | s in identities :: 32 <= |s|
  {
    seq(|identities|, i requires 0 <= i < |identities| =>
      assert identities[i] in identities; Reference(identities[i], w.imageOf(MvidOf(identities[i]))))
  }

  function IdentitiesOf(references: seq<Reference>): seq<string> {
    seq(|references|, i requires 0 <= i < |references| => references[i].identity)
  }

  lemma ResolveIdentity(w: World, reference: Option<ReferenceIdentity>, file: FileState)
    requires Lawful(w) && Resolve(w, reference, file).Success?
    ensures var r := Resolve(w, reference, file).value;
      && IsIdentity(r.identity) && Matches(file, MvidOf(r.identity))
      && (Genuine(w, file) ==> r.image == w.imageOf(MvidOf(r.identity)))
  {
    var path, mvid := w.fullPath(reference.value.path.value).value, w.parseGuid(reference.value.mvid.value).value;
    assert MvidOf(Identity(path, mvid)) == mvid;
  }

  /** A successful reading saw, for every reference, the image its identity names. */
  lemma {:induction false} ResolvedReferences(w: World, references: seq<Option<ReferenceIdentity>>, files: seq<FileState>)
    requires Lawful(w) && |files| == |references| && ResolveAll(w, references, files).Success?
    ensures var found := ResolveAll(w, references, files).value;
      && |found| == |references|
      && (forall r | r in found :: IsIdentity(r.identity))
      && (forall i | 0 <= i < |found| :: 32 <= |found[i].identity| && Matches(files[i], MvidOf(found[i].identity)))
      && ((forall f | f in files :: Genuine(w, f)) ==>
            forall i | 0 <= i < |found| :: found[i].image == w.imageOf(MvidOf(found[i].identity)))
  {
    if references != [] {
      var n := |references| - 1;
      ResolvedReferences(w, references[..n], files[..n]);
      ResolveIdentity(w, references[n], files[n]);
      assert files[n] in files;
      assert forall f | f in files[..n] :: f in files;
    }
  }

  lemma GenuineReferences(w: World, references: seq<Option<ReferenceIdentity>>, files: seq<FileState>)
    requires Lawful(w) && |files| == |references| && ResolveAll(w, references, files).Success?
    requires forall f | f in files :: Genuine(w, f)
    ensures var found := ResolveAll(w, references, files).value;
      && (forall s | s in IdentitiesOf(found) :: IsIdentity(s))
      && found == RefsOf(w, IdentitiesOf(found))
  {
    ResolvedReferences(w, references, files);
  }
}
