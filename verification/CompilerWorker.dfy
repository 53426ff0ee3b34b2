/** The compiler's process: it reads one request a line and writes one reply a line. */
module CompilerWorker {
  import opened Wrappers
  import opened CompilerKeys
  import opened CompilerSpec
  import opened CompilerEngine

  const MAX_LINE: int := 16 * 1024 * 1024

  /** A line of input, what parsing it gives, and what the request's files hold when it is handled. */
  datatype Line = Line(length: nat, parsed: Option<Request>, files: seq<FileState>)

  predicate Readable(line: Line) { line.length <= MAX_LINE && line.parsed.Some? }

  predicate HasFiles(line: Line) {
    line.parsed.Some? && line.parsed.value.references.Some? ==> |line.files| == |line.parsed.value.references.value|
  }

  /** Nothing in the line undermines the caches. */
  predicate Harmless(world: World, line: Line) {
    Readable(line) ==> NUL !in Project(line.parsed.value) && forall f | f in line.files :: Genuine(world, f)
  }

  /** The reply to a line that cannot be read names no request. */
  const UNREADABLE := Failed(None, InvalidRequest, None, [])

  predicate Names(line: Line, reply: Response) {
    if Readable(line) then reply.requestId == line.parsed.value.requestId else reply == UNREADABLE
  }

  predicate Agrees(world: World, line: Line, reply: Response, basis: nat)
    requires HasFiles(line)
  {
    Readable(line) ==> SameOutcome(reply, Answer(world, line.parsed.value, line.files, basis))
  }

  /** One reply for every line, in order, naming that line's request unless it could not be read;
      and the cache-free compiler's reply while no line undermines the caches. */
  method Serve(engine: CompilerEngine, lines: seq<Line>) returns (replies: seq<Response>, ghost bases: seq<nat>)
    requires engine.Valid() && forall line | line in lines :: HasFiles(line)
    modifies engine, engine.references, engine.references.entries, engine.compilations
    ensures engine.Valid()
    ensures |replies| == |lines| == |bases|
    ensures forall i | 0 <= i < |lines| :: Names(lines[i], replies[i])
    ensures old(engine.Trusted()) && (forall line | line in lines :: Harmless(engine.world, line)) ==>
      forall i | 0 <= i < |lines| :: lines[i] in lines && Agrees(engine.world, lines[i], replies[i], bases[i])
  {
    hide CompilerEngine.Valid, Answer, SameOutcome;
    replies, bases := [], [];
    ghost var harmless := engine.Trusted() && forall line | line in lines :: Harmless(engine.world, line);
    for n := 0 to |lines|
      invariant engine.Valid() && |replies| == |bases| == n
      invariant forall i | 0 <= i < n :: Names(lines[i], replies[i])
      invariant harmless ==> engine.Trusted()
      invariant harmless ==> forall i | 0 <= i < n :: lines[i] in lines && Agrees(engine.world, lines[i], replies[i], bases[i])
    {
      var line := lines[n];
      assert line in lines;
      var reply;
      ghost var basis;
      if line.length > MAX_LINE || line.parsed.None? {
        reply, basis := UNREADABLE, 0;
      } else {
        reply, basis := engine.Process(line.parsed.value, line.files);
      }
      replies, bases := replies + [reply], bases + [basis];
    }
  }
}
