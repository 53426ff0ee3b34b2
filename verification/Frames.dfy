/** Length-prefixed frames over a connection that delivers its bytes in pieces of any size. */
module Frames {
  import opened Wrappers

  const MAX_MESSAGE_BYTES := 32 * 1024 * 1024
  const MAX_CHUNK := 65536

  type byte = b: int | 0 <= b < 256

  datatype Failed = TimedOut | Broken | InvalidSize

  // ---- The format -------------------------------------------------------------------

  /** Four bytes, most significant first. */
  function Header(n: nat): seq<byte>
    requires n < 0x1_0000_0000
  {
    [n / 0x100_0000, n / 0x1_0000 % 256, n / 0x100 % 256, n % 256]
  }

  function Length(header: seq<byte>): nat
    requires |header| == 4
  {
    ((header[0] as int * 256 + header[1]) * 256 + header[2]) * 256 + header[3]
  }

  predicate Sized(n: int) { 0 < n <= MAX_MESSAGE_BYTES }

  function Frame(payload: seq<byte>): seq<byte>
    requires Sized(|payload|)
  {
    Header(|payload|) + payload
  }

  /** The first payload of a stream and what follows it. */
  function Parsed(stream: seq<byte>): Option<(seq<byte>, seq<byte>)> {
    if |stream| < 4 || !Sized(Length(stream[..4])) || |stream| < 4 + Length(stream[..4]) then None
    else
      var end := 4 + Length(stream[..4]);
      Some((stream[4..end], stream[end..]))
  }

  // ---- Connections ------------------------------------------------------------------

  class Connection {
    /** What the peer sends before it closes, not yet received; and what was sent to the peer. */
    var incoming: seq<byte>
    var outgoing: seq<byte>
    var clock: int

    /** A reliable connection delivers at once whatever is there, and accepts everything. */
    const reliable: bool

    constructor (incoming: seq<byte>, clock: int, reliable: bool)
      ensures this.incoming == incoming && outgoing == [] && this.clock == clock && this.reliable == reliable
    {
      this.incoming, this.outgoing, this.clock, this.reliable := incoming, [], clock, reliable;
    }

    /** Some bytes, at least one unless the peer has closed; or a timeout or a reset. */
    method Receive(limit: nat, fault: Option<Failed>, elapsed: nat, offered: nat) returns (r: Result<seq<byte>, Failed>)
      requires limit > 0
      modifies this`incoming, this`clock
      ensures reliable ==> clock == old(clock) && r.Success?
      ensures clock >= old(clock)
      ensures r.Success? ==> |r.value| <= limit && old(incoming) == r.value + incoming
      ensures r.Success? && r.value == [] ==> incoming == []
      ensures r.Failure? ==> incoming == old(incoming)
      ensures r.Failure? ==> r.error != InvalidSize
    {
      if !reliable {
        clock := clock + elapsed;
        if fault.Some? && fault.value != InvalidSize { return Failure(fault.value); }
      }
      var most := if limit < |incoming| then limit else |incoming|;
      var n := if most == 0 then 0 else 1 + offered % most;
      r := Success(incoming[..n]);
      incoming := incoming[n..];
    }

    /** All of the data, or some prefix of it. */
    method SendAll(data: seq<byte>, fault: Option<Failed>, accepted: nat) returns (r: Result<(), Failed>)
      modifies this`outgoing
      ensures reliable ==> r.Success?
      ensures r.Success? ==> outgoing == old(outgoing) + data
      ensures r.Failure? ==> r.error != InvalidSize && exists n :: 0 <= n <= |data| && outgoing == old(outgoing) + data[..n]
    {
      if !reliable && fault.Some? && fault.value != InvalidSize {
        var n := accepted % (|data| + 1);
        outgoing := outgoing + data[..n];
        return Failure(fault.value);
      }
      outgoing := outgoing + data;
      r := Success(());
    }
  }

  /** What the network does on each call: a fault, the time it takes, and how much it offers. */
  datatype Weather = Weather(fault: Option<Failed>, elapsed: nat, offered: nat)

  method ReadExact(connection: Connection, count: nat, deadline: int, weather: nat -> Weather)
    returns (r: Result<seq<byte>, Failed>)
    modifies connection
    ensures connection.outgoing == old(connection.outgoing)
    ensures connection.reliable ==> connection.clock == old(connection.clock)
    ensures r.Success? ==> |r.value| == count && old(connection.incoming) == r.value + connection.incoming
    ensures r.Failure? ==> r.error != InvalidSize
    ensures connection.reliable && old(connection.clock) < deadline ==>
      (r.Success? <==> count <= |old(connection.incoming)|)
  {
    var chunks := [];
    while |chunks| < count
      invariant |chunks| <= count && old(connection.incoming) == chunks + connection.incoming
      invariant connection.outgoing == old(connection.outgoing)
      invariant connection.reliable ==> connection.clock == old(connection.clock)
    {
      var remaining := deadline - connection.clock;
      if remaining <= 0 { return Failure(TimedOut); }
      var w := weather(|chunks|);
      var limit := if count - |chunks| < MAX_CHUNK then count - |chunks| else MAX_CHUNK;
      var chunk := connection.Receive(limit, w.fault, w.elapsed, w.offered);
      if chunk.Failure? { return Failure(chunk.error); }
      if chunk.value == [] { return Failure(Broken); }
      chunks := chunks + chunk.value;
    }
    r := Success(chunks);
  }

  /** A frame that is read is the first of the stream, and nothing after it is touched. */
  method ReadFrame(connection: Connection, deadline: int, weather: nat -> Weather) returns (r: Result<seq<byte>, Failed>)
    modifies connection
    ensures connection.outgoing == old(connection.outgoing)
    ensures connection.reliable ==> connection.clock == old(connection.clock)
    ensures r.Success? ==> Parsed(old(connection.incoming)) == Some((r.value, connection.incoming))
    ensures r == Failure(InvalidSize) ==>
      |old(connection.incoming)| >= 4 && !Sized(Length(old(connection.incoming)[..4]))
    ensures connection.reliable && old(connection.clock) < deadline ==>
      (r.Success? <==> Parsed(old(connection.incoming)).Some?)
  {
    ghost var stream := connection.incoming;
    var header := ReadExact(connection, 4, deadline, weather);
    if header.Failure? { return header; }
    assert stream[..4] == header.value && stream[4..] == connection.incoming;
    var length := Length(header.value);
    if !Sized(length) { return Failure(InvalidSize); }
    ghost var rest := connection.incoming;
    r := ReadExact(connection, length, deadline, weather);
    if r.Success? {
      assert rest[..length] == r.value && rest[length..] == connection.incoming;
      assert stream[4..4 + length] == rest[..length] && stream[4 + length..] == rest[length..];
    }
  }

  method WriteFrame(connection: Connection, data: seq<byte>, deadline: int, weather: Weather) returns (r: Result<(), Failed>)
    modifies connection
    ensures connection.incoming == old(connection.incoming)
    ensures r == Failure(InvalidSize) <==> !Sized(|data|)
    ensures r == Failure(InvalidSize) ==> connection.outgoing == old(connection.outgoing)
    ensures r.Success? ==> Sized(|data|) && connection.outgoing == old(connection.outgoing) + Frame(data)
    ensures Sized(|data|) ==>
      exists n :: 0 <= n <= |Frame(data)| && connection.outgoing == old(connection.outgoing) + Frame(data)[..n]
    ensures connection.reliable && Sized(|data|) ==> (r.Success? <==> old(connection.clock) < deadline)
  {
    if !Sized(|data|) { return Failure(InvalidSize); }
    var remaining := deadline - connection.clock;
    if remaining <= 0 {
      assert connection.outgoing == old(connection.outgoing) + Frame(data)[..0];
      return Failure(TimedOut);
    }
    r := connection.SendAll(Header(|data|) + data, weather.fault, weather.offered);
    assert Frame(data)[..|Frame(data)|] == Frame(data);
  }

  // ---- Round trip -------------------------------------------------------------------

  /** The number in the first four bytes, the first of them worth most. */
  function BigEndian(s: seq<byte>): nat
    requires |s| >= 4
  {
    s[0] as int * 0x100_0000 + s[1] as int * 0x1_0000 + s[2] as int * 0x100 + s[3] as int
  }

  lemma HeaderRoundTrip(n: nat)
    requires n < 0x1_0000_0000
    ensures Length(Header(n)) == n
    ensures |Header(n)| == 4 && BigEndian(Header(n)) == n
  {
    assert n / 0x1_0000 == n / 0x100_0000 * 256 + n / 0x1_0000 % 256;
    assert n / 0x100 == n / 0x1_0000 * 256 + n / 0x100 % 256;
  }

  /** A stream has no first frame exactly when its header is cut short, names no length from 1 to
      33554432, or promises more than there is. */
  lemma ParsedExactly(stream: seq<byte>)
    ensures Parsed(stream) == None <==>
      || |stream| < 4
      || BigEndian(stream) == 0 || BigEndian(stream) > 33554432 || |stream| < 4 + BigEndian(stream)
  {
  }

  lemma ParsedFrame(payload: seq<byte>, rest: seq<byte>)
    requires Sized(|payload|)
    ensures Parsed(Frame(payload) + rest) == Some((payload, rest))
  {
    HeaderRoundTrip(|payload|);
    var stream := Frame(payload) + rest;
    assert stream[..4] == Header(|payload|);
    assert stream[4..4 + |payload|] == payload && stream[4 + |payload|..] == rest;
  }

  ghost predicate AllSized(payloads: seq<seq<byte>>) { forall p | p in payloads :: Sized(|p|) }

  function Stream(payloads: seq<seq<byte>>): seq<byte>
    requires AllSized(payloads)
  {
    if payloads == [] then [] else assert payloads[0] in payloads; Frame(payloads[0]) + Stream(payloads[1..])
  }

  /** What successive reads return. */
  function Reads(stream: seq<byte>, count: nat): Option<(seq<seq<byte>>, seq<byte>)> {
    if count == 0 then Some(([], stream))
    else
      match Parsed(stream)
      case None => None
      case Some((first, rest)) =>
        match Reads(rest, count - 1)
        case None => None
        case Some((others, left)) => Some(([first] + others, left))
  }

  lemma ReadsStep(stream: seq<byte>, count: nat, first: seq<byte>, rest: seq<byte>, others: seq<seq<byte>>, left: seq<byte>)
    requires Parsed(stream) == Some((first, rest)) && Reads(rest, count) == Some((others, left))
    ensures Reads(stream, count + 1) == Some(([first] + others, left))
  {
  }

  lemma HeadAndTail<T>(s: seq<T>)
    requires s != []
    ensures s == [s[0]] + s[1..]
  {
  }

  lemma StreamSplits(payloads: seq<seq<byte>>, rest: seq<byte>)
    requires AllSized(payloads) && payloads != []
    ensures payloads[0] in payloads && AllSized(payloads[1..])
    ensures Stream(payloads) + rest == Frame(payloads[0]) + (Stream(payloads[1..]) + rest)
  {
    assert forall p | p in payloads[1..] :: p in payloads;
    var a, b := Frame(payloads[0]), Stream(payloads[1..]);
    assert Stream(payloads) == a + b;
    Regroup(a, b, rest);
  }

  lemma Regroup(a: seq<byte>, b: seq<byte>, c: seq<byte>)
    ensures (a + b) + c == a + (b + c)
  {
  }

  /** However the stream is cut up, as many reads as there were writes return exactly what was
      written and leave what comes after. */
  lemma {:induction false} ReadsWhatWasWritten(payloads: seq<seq<byte>>, rest: seq<byte>)
    requires AllSized(payloads)
    ensures Reads(Stream(payloads) + rest, |payloads|) == Some((payloads, rest))
  {
    if payloads == [] {
      assert Stream(payloads) + rest == rest;
    } else {
      StreamSplits(payloads, rest);
      var first, others := payloads[0], payloads[1..];
      hide Stream, Parsed, Frame, Reads, AllSized;
      ParsedFrame(first, Stream(others) + rest);
      ReadsWhatWasWritten(others, rest);
      ReadsStep(Stream(payloads) + rest, |others|, first, Stream(others) + rest, others, rest);
      HeadAndTail(payloads);
    }
  }

  lemma ParsedFirst(payloads: seq<seq<byte>>)
    requires AllSized(payloads) && payloads != []
    ensures payloads[0] in payloads && AllSized(payloads[1..])
    ensures Parsed(Stream(payloads)) == Some((payloads[0], Stream(payloads[1..])))
  {
    StreamSplits(payloads, []);
    ParsedFrame(payloads[0], Stream(payloads[1..]));
    assert Stream(payloads) + [] == Stream(payloads) && Stream(payloads[1..]) + [] == Stream(payloads[1..]);
  }

  /** A stream is the frames of one list of payloads only, whatever their number. */
  lemma {:induction false} StreamIsInjective(a: seq<seq<byte>>, b: seq<seq<byte>>)
    requires AllSized(a) && AllSized(b) && Stream(a) == Stream(b)
    ensures a == b
  {
    if a != [] { ParsedFirst(a); }
    if b != [] { ParsedFirst(b); }
    if a != [] && b != [] {
      StreamIsInjective(a[1..], b[1..]);
      assert a == [a[0]] + a[1..] && b == [b[0]] + b[1..];
    }
  }

  // ---- Several frames on one connection ---------------------------------------------

  lemma {:induction false} ReadsOneMore(stream: seq<byte>, count: nat)
    requires Reads(stream, count).Some?
    ensures var (others, left) := Reads(stream, count).value;
      Reads(stream, count + 1) == match Parsed(left)
                                  case Some((next, rest)) => Some((others + [next], rest))
                                  case None => None
    decreases count
  {
    hide Parsed;
    if count == 0 {
      if Parsed(stream).Some? {
        var (next, rest) := Parsed(stream).value;
        assert Reads(rest, 0) == Some(([], rest));
        assert [next] + [] == [] + [next];
      }
    } else {
      var (first, rest) := Parsed(stream).value;
      ReadsOneMore(rest, count - 1);
      var (others, left) := Reads(rest, count - 1).value;
      assert Reads(stream, count).value == ([first] + others, left);
      if Parsed(left).Some? {
        var next := Parsed(left).value.0;
        assert [first] + (others + [next]) == ([first] + others) + [next];
      }
    }
  }

  lemma {:induction false} ReadsStopped(stream: seq<byte>, count: nat, more: nat)
    requires Reads(stream, count) == None && count <= more
    ensures Reads(stream, more) == None
    decreases count
  {
    if Parsed(stream).Some? { ReadsStopped(Parsed(stream).value.1, count - 1, more - 1); }
  }

  /** Successive reads on one connection.  However it cuts up the stream, what they return is what
      was written; and a reliable one returns all of it. */
  method ReadFrames(connection: Connection, count: nat, deadline: int, weather: (nat, nat) -> Weather,
                    ghost payloads: seq<seq<byte>>, ghost rest: seq<byte>)
    returns (r: Result<seq<seq<byte>>, Failed>)
    modifies connection
    ensures r.Success? ==> Reads(old(connection.incoming), count) == Some((r.value, connection.incoming))
    ensures connection.reliable && old(connection.clock) < deadline ==>
      (r.Success? <==> Reads(old(connection.incoming), count).Some?)
    ensures AllSized(payloads) && |payloads| == count && old(connection.incoming) == Stream(payloads) + rest ==>
      && (r.Success? ==> r.value == payloads && connection.incoming == rest)
      && (connection.reliable && old(connection.clock) < deadline ==> r.Success?)
  {
    ghost var stream := connection.incoming;
    if AllSized(payloads) && |payloads| == count && stream == Stream(payloads) + rest {
      ReadsWhatWasWritten(payloads, rest);
    }
    hide Parsed, Stream, AllSized;
    var read := [];
    for i := 0 to count
      invariant Reads(stream, i) == Some((read, connection.incoming))
      invariant connection.reliable ==> connection.clock == old(connection.clock)
    {
      ReadsOneMore(stream, i);
      var frame := ReadFrame(connection, deadline, (n: nat) => weather(i, n));
      if frame.Failure? {
        if Reads(stream, i + 1) == None { ReadsStopped(stream, i + 1, count); }
        return Failure(frame.error);
      }
      read := read + [frame.value];
    }
    r := Success(read);
  }
}
