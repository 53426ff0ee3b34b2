/** The routes one command can take from the command line to Unity, and when it may change route. */
module Routes {
  import opened Wrappers

  const MAX_MESSAGE_BYTES := 32 * 1024 * 1024

  /** Where a command can be written by its caller, and how it can be handed on for execution. */
  datatype Channel = Framed | HostPost | PooledPost | DirectPost
  datatype Delivery = Submitted | PostedToUnity

  /** What the network makes of one exchange: nobody listens, the reply is lost, or one comes back. */
  datatype Wired =
    | NoConnection
    | Lost(arrives: bool)
    | BadStatus(arrives: bool)
    | Empty
    | NotJson
    | Value(answer: nat, wellFormed: bool)

  datatype Outcome = Answered(answer: nat) | Text | Unknown | NotStarted | Failed(error: Error)
  datatype Error = NoHost | ConnectionError | HttpError

  datatype Backend = Auto | Host | Legacy

  /** Everything written for a command, and everything handed on for execution because of it. */
  class Wire {
    var writes: seq<Channel>
    var deliveries: seq<Delivery>

    constructor ()
      ensures writes == [] && deliveries == []
    {
      writes, deliveries := [], [];
    }
  }

  /** The peer acted on the request: it answered, or it got it and the reply was lost. */
  predicate Arrives(wired: Wired) {
    match wired
    case NoConnection => false
    case Lost(arrives) => arrives
    case BadStatus(arrives) => arrives
    case _ => true
  }

  // ---- Inside the host --------------------------------------------------------------

  datatype LocalEnv = LocalEnv(inTime: bool, backend: Backend, protocol: int, sameInstances: bool,
                               submitted: nat, direct: Wired)

  /** What a direct POST reports. */
  function Reported(wired: Wired): Outcome {
    match wired
    case NoConnection => Failed(ConnectionError)
    case Lost(_) => Failed(ConnectionError)
    case BadStatus(_) => Failed(HttpError)
    case Empty => Unknown
    case NotJson => Text
    case Value(answer, _) => Answered(answer)
  }

  /** `send_command`: one exchange with Unity, whatever becomes of it. */
  method SendCommand(wire: Wire, wired: Wired) returns (r: Outcome)
    modifies wire
    ensures wire.writes == old(wire.writes) + if wired.NoConnection? then [] else [DirectPost]
    ensures wire.deliveries == old(wire.deliveries) + if Arrives(wired) then [PostedToUnity] else []
    ensures forall x :: r == Answered(x) <==> wired.Value? && wired.answer == x
    ensures r == Unknown <==> wired.Empty?
    ensures r == Text <==> wired.NotJson?
    ensures r == Failed(ConnectionError) <==> wired.NoConnection? || wired.Lost?
    ensures r == Failed(HttpError) <==> wired.BadStatus?
    ensures r == Reported(wired)
  {
    if wired.NoConnection? { return Failed(ConnectionError); }
    wire.writes := wire.writes + [DirectPost];
    if Arrives(wired) { wire.deliveries := wire.deliveries + [PostedToUnity]; }
    match wired
    case Lost(_) => r := Failed(ConnectionError);
    case BadStatus(_) => r := Failed(HttpError);
    case Empty => r := Unknown;
    case NotJson => r := Text;
    case Value(answer, _) => r := Answered(answer);
  }

  /** `_LocalClient.call`: a framed command is queued in this host or posted to Unity, never both,
      and reported by whoever got it. */
  method LocalCall(wire: Wire, env: LocalEnv) returns (r: Outcome)
    modifies wire
    ensures var here := !env.backend.Legacy? && env.protocol == 1 && env.sameInstances;
      && (r == NotStarted <==> !env.inTime)
      && (r == Failed(NoHost) <==> env.inTime && !here && env.backend.Host?)
      && (env.inTime && here ==> r == Answered(env.submitted))
      && (env.inTime && !here && !env.backend.Host? ==> r == Reported(env.direct))
      && wire.deliveries == old(wire.deliveries)
           + if !env.inTime then [] else if here then [Submitted]
             else if env.backend.Host? || !Arrives(env.direct) then [] else [PostedToUnity]
  {
    if !env.inTime { return NotStarted; }
    if !env.backend.Legacy? && env.protocol == 1 && env.sameInstances {
      wire.deliveries := wire.deliveries + [Submitted];
      return Answered(env.submitted);
    }
    if env.backend.Host? { return Failed(NoHost); }
    r := SendCommand(wire, env.direct);
  }

  // ---- The framed command line ------------------------------------------------------

  datatype FastEnv = FastEnv(
    parsed: bool, disabled: bool, snapshot: bool, fastSnapshots: bool, updateDue: bool, exec: bool, execDisabled: bool,
    backend: Backend, endpoint: bool, listed: bool, readable: bool, size: nat, configured: bool, inTime: bool,
    exchange: Wired, local: LocalEnv)

  /** Everything that sends the command back to the full command line, checked before any write. */
  predicate FallsBack(env: FastEnv) {
    || !env.parsed || env.disabled || (env.snapshot && !env.fastSnapshots) || env.updateDue || (env.exec && env.execDisabled)
    || env.backend.Legacy? || !env.endpoint || !env.listed || !env.readable || env.size > MAX_MESSAGE_BYTES
    || env.exchange.NoConnection?
  }

  /** `try_exec`: none when another route may be taken, and then nothing has been written. */
  method TryExec(wire: Wire, host: Wire, env: FastEnv) returns (r: Option<Outcome>)
    requires wire != host
    modifies wire, host
    ensures r.None? <==> FallsBack(env)
    ensures r.None? ==> wire.writes == old(wire.writes) && host.deliveries == old(host.deliveries)
    ensures wire.deliveries == old(wire.deliveries)
    ensures r.Some? ==> wire.writes == old(wire.writes) + if env.configured && env.inTime && env.size > 0 then [Framed] else []
    ensures forall x :: r == Some(Answered(x)) <==>
      !FallsBack(env) && env.configured && env.inTime && env.size > 0 && env.exchange == Value(x, true)
    ensures r == Some(Unknown) <==>
      && !FallsBack(env)
      && !(env.configured && env.inTime && env.size > 0 && env.exchange.Value? && env.exchange.wellFormed)
    ensures |host.deliveries| <= |old(host.deliveries)| + 1
    ensures wire.writes == old(wire.writes) ==> host.deliveries == old(host.deliveries)
  {
    if !env.parsed || env.disabled { return None; }
    if env.snapshot && !env.fastSnapshots { return None; }
    if env.updateDue { return None; }
    if env.exec && env.execDisabled { return None; }
    if env.backend.Legacy? { return None; }
    if !env.endpoint { return None; }
    if !env.listed { return None; }
    if !env.readable || env.size > MAX_MESSAGE_BYTES { return None; }
    if env.exchange.NoConnection? { return None; }
    if !env.configured || env.size == 0 || !env.inTime { return Some(Unknown); }
    wire.writes := wire.writes + [Framed];
    if Arrives(env.exchange) {
      var served := LocalCall(host, env.local);
    }
    r := Some(if env.exchange.Value? && env.exchange.wellFormed then Answered(env.exchange.answer) else Unknown);
  }

  // ---- The host's HTTP endpoint -----------------------------------------------------

  datatype PostEnv = PostEnv(validPort: bool, validPath: bool, pooled: bool, locked: bool, inTime: bool, exchange: Wired)

  method Exchange(wire: Wire, channel: Channel, wired: Wired) returns (r: Result<nat, ()>)
    modifies wire
    ensures wire.writes == old(wire.writes) + if wired.NoConnection? then [] else [channel]
    ensures wire.deliveries == old(wire.deliveries) + if Arrives(wired) then [Submitted] else []
    ensures r.Success? <==> wired.Value?
    ensures r.Success? ==> r.value == wired.answer
  {
    if wired.NoConnection? { return Failure(()); }
    wire.writes := wire.writes + [channel];
    if Arrives(wired) { wire.deliveries := wire.deliveries + [Submitted]; }
    r := if wired.Value? then Success(wired.answer) else Failure(());
  }

  /** The pool makes one exchange per request, on a connection it holds alone. */
  method PooledExchange(wire: Wire, env: PostEnv) returns (r: Result<nat, ()>)
    modifies wire
    ensures wire.writes == old(wire.writes)
              + if env.locked && env.inTime && !env.exchange.NoConnection? then [PooledPost] else []
    ensures wire.deliveries == old(wire.deliveries)
              + if env.locked && env.inTime && Arrives(env.exchange) then [Submitted] else []
    ensures r.Success? <==> env.locked && env.inTime && env.exchange.Value?
    ensures r.Success? ==> r.value == env.exchange.answer
  {
    if !env.locked { return Failure(()); }
    if !env.inTime { return Failure(()); }
    r := Exchange(wire, PooledPost, env.exchange);
  }

  /** The request is really put on a connection: the endpoint is a proper one and, when pooled, its
      connection was free in time. */
  predicate Attempted(env: PostEnv) { env.validPort && env.validPath && (env.pooled ==> env.locked && env.inTime) }

  method Post(wire: Wire, env: PostEnv) returns (r: Result<nat, ()>)
    modifies wire
    ensures wire.writes == old(wire.writes)
              + if Attempted(env) && !env.exchange.NoConnection? then [if env.pooled then PooledPost else HostPost] else []
    ensures wire.deliveries == old(wire.deliveries) + if Attempted(env) && Arrives(env.exchange) then [Submitted] else []
    ensures r.Success? <==> Attempted(env) && env.exchange.Value?
    ensures r.Success? ==> r.value == env.exchange.answer
  {
    if !env.validPort || !env.validPath { return Failure(()); }
    if env.pooled {
      r := PooledExchange(wire, env);
    } else {
      r := Exchange(wire, HostPost, env.exchange);
    }
  }

  datatype HostEnv = HostEnv(compilerOverride: bool, endpoint: bool, registered: bool, post: PostEnv)

  predicate Eligible(env: HostEnv) { !env.compilerOverride && env.endpoint && env.registered }

  /** `try_host_command`: none exactly when no request is attempted; otherwise the host's answer, if
      and only if one came back well formed, and else nobody knows. */
  method TryHostCommand(wire: Wire, env: HostEnv) returns (r: Option<Outcome>)
    modifies wire
    ensures r.None? <==> !Eligible(env)
    ensures forall x :: r == Some(Answered(x)) <==> Eligible(env) && Attempted(env.post) && env.post.exchange == Value(x, true)
    ensures r == Some(Unknown) <==>
      Eligible(env) && !(Attempted(env.post) && env.post.exchange.Value? && env.post.exchange.wellFormed)
    ensures wire.writes == old(wire.writes)
              + if Eligible(env) && Attempted(env.post) && !env.post.exchange.NoConnection?
                then [if env.post.pooled then PooledPost else HostPost] else []
    ensures wire.deliveries == old(wire.deliveries)
              + if Eligible(env) && Attempted(env.post) && Arrives(env.post.exchange) then [Submitted] else []
  {
    if env.compilerOverride { return None; }
    if !env.endpoint || !env.registered { return None; }
    var response := Post(wire, env.post);
    if response.Success? && env.post.exchange.wellFormed { return Some(Answered(response.value)); }
    r := Some(Unknown);
  }

  // ---- The client -------------------------------------------------------------------

  datatype CallEnv = CallEnv(backend: Backend, compilerOverride: bool, protocol: int, host: HostEnv, direct: Wired)

  /** The host takes the command. */
  predicate Hosted(env: CallEnv) {
    !env.backend.Legacy? && !env.compilerOverride && env.protocol == 1 && Eligible(env.host)
  }

  /** The command may go to the host only, and no host takes it. */
  predicate Homeless(env: CallEnv) { env.backend.Host? && !env.compilerOverride && !Hosted(env) }

  /** The one exchange of a command over the full command line, if there is one. */
  function Carrier(env: CallEnv): Option<(Channel, Wired)> {
    if Homeless(env) then None
    else if !Hosted(env) then Some((DirectPost, env.direct))
    else if Attempted(env.host.post) then Some((if env.host.post.pooled then PooledPost else HostPost, env.host.post.exchange))
    else None
  }

  /** What one exchange tells its caller. */
  predicate Tells(channel: Channel, wired: Wired, x: nat) {
    if channel.DirectPost? then wired.Value? && wired.answer == x else wired == Value(x, true)
  }

  /** `UnityClient.call`: the host, or a direct POST when the host was not asked, never both; an
      answer is reported if and only if the one exchange brought it. */
  method Call(wire: Wire, env: CallEnv) returns (r: Outcome)
    modifies wire
    ensures forall x :: r == Answered(x) <==> Carrier(env).Some? && Tells(Carrier(env).value.0, Carrier(env).value.1, x)
    ensures r == Unknown <==>
      if Hosted(env) then !(Attempted(env.host.post) && env.host.post.exchange.Value? && env.host.post.exchange.wellFormed)
      else !Homeless(env) && env.direct.Empty?
    ensures r == Failed(NoHost) <==> Homeless(env)
    ensures !Hosted(env) && !Homeless(env) ==> r == Reported(env.direct)
    ensures wire.writes == old(wire.writes)
              + if Carrier(env).Some? && !Carrier(env).value.1.NoConnection? then [Carrier(env).value.0] else []
    ensures wire.deliveries == old(wire.deliveries)
              + if Carrier(env).None? || !Arrives(Carrier(env).value.1) then []
                else [if Hosted(env) then Submitted else PostedToUnity]
  {
    if !env.backend.Legacy? && !env.compilerOverride {
      if env.protocol == 1 {
        var response := TryHostCommand(wire, env.host);
        if response.Some? { return response.value; }
      }
      if env.backend.Host? { return Failed(NoHost); }
    }
    r := SendCommand(wire, env.direct);
  }

  /** The one exchange of a command over all its routes, if there is one. */
  function CarrierOf(fast: FastEnv, full: CallEnv): Option<(Channel, Wired)> {
    if FallsBack(fast) then Carrier(full)
    else if fast.configured && fast.inTime && fast.size > 0 then Some((Framed, fast.exchange))
    else None
  }

  /** One command from the command line, over whichever routes are open: it is written at most
      once and handed on for execution at most once; an answer is reported if and only if the one
      exchange brought it; and `unknown` if and only if a route was taken that no other may follow
      and no answer came back on it. */
  method RunCommand(wire: Wire, host: Wire, fast: FastEnv, full: CallEnv) returns (r: Outcome)
    requires wire != host && wire.writes == [] && wire.deliveries == [] && host.deliveries == []
    modifies wire, host
    ensures var carrier := CarrierOf(fast, full);
      && (forall x :: r == Answered(x) <==> carrier.Some? && Tells(carrier.value.0, carrier.value.1, x))
      && wire.writes == if carrier.Some? && !carrier.value.1.NoConnection? then [carrier.value.0] else []
    ensures r == Unknown <==>
      if !FallsBack(fast) then
        !(fast.configured && fast.inTime && fast.size > 0 && fast.exchange.Value? && fast.exchange.wellFormed)
      else if Hosted(full) then
        !(Attempted(full.host.post) && full.host.post.exchange.Value? && full.host.post.exchange.wellFormed)
      else !Homeless(full) && full.direct.Empty?
    ensures r == Failed(NoHost) <==> FallsBack(fast) && Homeless(full)
    ensures (r.Failed? && !r.error.NoHost?) || r.Text? ==> FallsBack(fast) && !Hosted(full) && r == Reported(full.direct)
    ensures r != NotStarted
    ensures |wire.deliveries| + |host.deliveries| <= 1
    ensures wire.writes == [] ==> wire.deliveries == [] && host.deliveries == []
  {
    var quick := TryExec(wire, host, fast);
    if quick.Some? { return quick.value; }
    r := Call(wire, full);
  }
}
