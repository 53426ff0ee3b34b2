/** What the cache-free worker answers, told from the request and the files by conditions alone. */
module CompilerAnswers {
  import opened Wrappers
  import opened CompilerKeys
  import opened CompilerSpec

  // ---- References -------------------------------------------------------------------

  /** The reference gives a path and an MVID. */
  predicate Named(w: World, reference: Option<ReferenceIdentity>) {
    && reference.Some? && reference.value.path.Some? && reference.value.path.value != ""
    && reference.value.mvid.Some? && w.parseGuid(reference.value.mvid.value).Some?
  }

  /** The path it gives is absolute and can be spelled out in full. */
  predicate Located(w: World, reference: Option<ReferenceIdentity>) {
    Named(w, reference) && w.qualified(reference.value.path.value) && w.fullPath(reference.value.path.value).Some?
  }

  /** The path is absolute and yet cannot be spelled out. */
  predicate Nowhere(w: World, reference: Option<ReferenceIdentity>) {
    Named(w, reference) && w.qualified(reference.value.path.value) && w.fullPath(reference.value.path.value).None?
  }

  /** The file there is an image with that MVID. */
  predicate Present(w: World, reference: Option<ReferenceIdentity>, file: FileState) {
    Located(w, reference) && file.Image? && file.mvid == w.parseGuid(reference.value.mvid.value)
  }

  /** What the compiler is given for it. */
  function Supplied(w: World, reference: Option<ReferenceIdentity>, file: FileState): Reference
    requires Present(w, reference, file)
  {
    Reference(w.fullPath(reference.value.path.value).value + "|" + w.parseGuid(reference.value.mvid.value).value, file.bytes)
  }

  ghost predicate AllPresent(w: World, references: seq<Option<ReferenceIdentity>>, files: seq<FileState>)
    requires |files| == |references|
  {
    forall i | 0 <= i < |references| :: Present(w, references[i], files[i])
  }

  /** All before reference `i` are present, and it is not. */
  ghost predicate FirstAbsent(w: World, references: seq<Option<ReferenceIdentity>>, files: seq<FileState>, i: nat)
    requires |files| == |references|
  {
    && i < |references| && !Present(w, references[i], files[i])
    && forall k | 0 <= k < i :: Present(w, references[k], files[k])
  }

  lemma ResolveMeans(w: World, reference: Option<ReferenceIdentity>, file: FileState)
    ensures var r := Resolve(w, reference, file);
      if Present(w, reference, file) then r == Success(Supplied(w, reference, file))
      else if Located(w, reference) then r == Failure(StaleReference)
      else if Nowhere(w, reference) then r == Failure(CompilerError)
      else r == Failure(InvalidRequest)
  {
  }

  /** Reading the references gives all of them in order, or the reason the first absent one fails. */
  lemma {:induction false} ResolveAllMeans(w: World, references: seq<Option<ReferenceIdentity>>, files: seq<FileState>)
    requires |files| == |references|
    ensures var all := ResolveAll(w, references, files);
      && (all.Success? <==> AllPresent(w, references, files))
      && (all.Success? ==>
            && |all.value| == |references|
            && forall i | 0 <= i < |references| :: all.value[i] == Supplied(w, references[i], files[i]))
      && (all.Failure? ==>
            exists i: nat | FirstAbsent(w, references, files, i) ::
              Resolve(w, references[i], files[i]) == Failure(all.error))
  {
    if references != [] {
      var n := |references| - 1;
      var before, all := ResolveAll(w, references[..n], files[..n]), ResolveAll(w, references, files);
      ResolveMeans(w, references[n], files[n]);
      if before.Success? && Present(w, references[n], files[n]) {
        assert all.value == before.value + [Supplied(w, references[n], files[n])];
      }
      assert before.Failure? ==> all == before;
      ResolveAllMeans(w, references[..n], files[..n]);
      assert all.Success? <==> before.Success? && Present(w, references[n], files[n]);
      hide Resolve, ResolveAll, Present, Supplied;
      if before.Failure? {
        var i: nat :| FirstAbsent(w, references[..n], files[..n], i)
          && Resolve(w, references[..n][i], files[..n][i]) == Failure(before.error);
        assert FirstAbsent(w, references, files, i);
      } else {
        assert forall i | 0 <= i < n :: Present(w, references[..n][i], files[..n][i]);
        if all.Failure? { assert FirstAbsent(w, references, files, n); }
      }
    }
  }

  // ---- Requests ---------------------------------------------------------------------

  predicate AsksToCompile(r: Request) { r.protocol == 1 && r.operation == Some("compile") }

  predicate InBounds(r: Request) {
    && r.code.Some? && 1 <= |r.code.value| <= 1024 * 1024
    && r.usings.Some? && |r.usings.value| <= 256 && (forall u | u in r.usings.value :: u.Some?)
    && r.references.Some? && 1 <= |r.references.value| <= 4096
  }

  predicate HasLanguage(w: World, r: Request) {
    r.languageVersion.Some? && r.languageVersion.value != "" && w.parseLanguage(r.languageVersion.value).Some?
  }

  predicate Compiles(w: World, r: Request) { AsksToCompile(r) && InBounds(r) && HasLanguage(w, r) }

  /** The compilation a request is about. */
  function Meant(w: World, r: Request, files: seq<FileState>, name: nat): Compilation
    requires Compiles(w, r) && |files| == |r.references.value| && AllPresent(w, r.references.value, files)
  {
    var usings := r.usings.value;
    var names := seq(|usings|, i requires 0 <= i < |usings| => assert usings[i] in usings; usings[i].value);
    Compilation(name, [Tree(BuildSource(r.code.value, names), w.parseLanguage(r.languageVersion.value).value)],
                seq(|files|, i requires 0 <= i < |files| => Supplied(w, r.references.value[i], files[i])))
  }

  lemma AcceptedExactly(w: World, r: Request)
    ensures Refusal(w, r).None? <==> Compiles(w, r)
  {
  }

  lemma AnswerIsOutcome(w: World, r: Request, files: seq<FileState>, name: nat)
    requires Compiles(w, r) && |files| == |r.references.value| && AllPresent(w, r.references.value, files)
    ensures Answer(w, r, files, name) == Outcome(w, r, Meant(w, r, files, name))
  {
    ResolveAllMeans(w, r.references.value, files);
    AcceptedExactly(w, r);
    hide ResolveAll, Supplied, Refusal, BuildSource;
    assert ResolveAll(w, r.references.value, files).value == Meant(w, r, files, name).references;
    assert Unwrap(r.usings.value) == seq(|r.usings.value|, i requires 0 <= i < |r.usings.value| => r.usings.value[i].value);
  }

  /** A compiled answer is given if and only if the request is a well-formed compilation, every
      reference is present, and the compiler accepts it; it then holds what the compiler emitted. */
  lemma CompiledExactly(w: World, r: Request, files: seq<FileState>, name: nat)
    requires r.references.Some? ==> |files| == |r.references.value|
    ensures var answer := Answer(w, r, files, name);
      && (answer.Compiled? <==>
            Compiles(w, r) && AllPresent(w, r.references.value, files) && w.emit(Meant(w, r, files, name)).success)
      && (answer.Compiled? ==>
            && answer.requestId == r.requestId && answer.generation == r.referenceGeneration && answer.name == name
            && answer.bytes == w.emit(Meant(w, r, files, name)).bytes
            && answer.diagnostics == w.emit(Meant(w, r, files, name)).diagnostics)
  {
    AcceptedExactly(w, r);
    if Compiles(w, r) {
      ResolveAllMeans(w, r.references.value, files);
      if AllPresent(w, r.references.value, files) { AnswerIsOutcome(w, r, files, name); }
    }
    hide ResolveAll, AllPresent, Meant;
  }

  /** And every refusal names the first thing that is wrong. */
  lemma RefusedExactly(w: World, r: Request, files: seq<FileState>, name: nat)
    requires r.references.Some? ==> |files| == |r.references.value|
    ensures var answer := Answer(w, r, files, name);
      && (answer.Ready? <==>
            r.protocol == 1 && (r.operation == Some("ping") || (r.operation == Some("warmup") && w.bootstraps)))
      && (answer.Failed? ==> answer.requestId == r.requestId && answer.generation == r.referenceGeneration)
      && (answer.Failed? && answer.code == UnsupportedProtocol <==> r.protocol != 1)
      && (answer.Failed? && answer.code == UnsupportedLanguageVersion <==>
            AsksToCompile(r) && InBounds(r) && !HasLanguage(w, r))
      && (answer.Failed? && answer.code == StaleReference <==>
            Compiles(w, r) && exists i: nat :: FirstAbsent(w, r.references.value, files, i) && Located(w, r.references.value[i]))
      && (answer.Failed? && answer.code == CompilerError <==>
            || (r.protocol == 1 && r.operation == Some("warmup") && !w.bootstraps)
            || (Compiles(w, r) && exists i: nat :: FirstAbsent(w, r.references.value, files, i)
                                                   && Nowhere(w, r.references.value[i])))
      && (answer.Failed? && answer.code == InvalidRequest <==>
            || (r.protocol == 1 && r.operation !in {Some("ping"), Some("warmup"), Some("compile")})
            || (AsksToCompile(r) && !InBounds(r))
            || (Compiles(w, r) && exists i: nat :: FirstAbsent(w, r.references.value, files, i)
                                                   && !Located(w, r.references.value[i])
                                                   && !Nowhere(w, r.references.value[i])))
      && (answer.Failed? && answer.code == CompileError <==>
            Compiles(w, r) && AllPresent(w, r.references.value, files) && !w.emit(Meant(w, r, files, name)).success)
  {
    AcceptedExactly(w, r);
    if Compiles(w, r) {
      var references := r.references.value;
      ResolveAllMeans(w, references, files);
      if AllPresent(w, references, files) {
        AnswerIsOutcome(w, r, files, name);
      } else {
        var i: nat :| FirstAbsent(w, references, files, i)
          && Resolve(w, references[i], files[i]) == Failure(ResolveAll(w, references, files).error);
        ResolveMeans(w, references[i], files[i]);
        assert forall k: nat | FirstAbsent(w, references, files, k) :: k == i;
      }
    }
    hide ResolveAll, AllPresent, Meant, Resolve, FirstAbsent;
  }
}
