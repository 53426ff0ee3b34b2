/** Polling until the Editor has held a wanted state long enough. */
module WaitForState {
  import opened Wrappers

  datatype Instance = Instance(state: string, projectPath: string, port: nat, pid: int, timestamp: int)

  /** What one poll finds: an instance, a discovery error, or any other error of the client. */
  datatype Seen<E> = Found(instance: Instance) | Missing | Fatal(error: E)

  /** One turn of the loop: the clock when it starts, when a wanted state is noted, and after it. */
  datatype Poll<E> = Poll(start: real, seen: Seen<E>, now: real, end: real)

  datatype Wanted = Wanted(states: set<string>, after: int, stable: real)

  datatype Outcome<E> = Reached(instance: Instance) | Raised(error: E) | TimedOut(latest: Option<Instance>) | NoStates

  /** The clock never goes back. */
  ghost predicate Ordered<E(!new)>(polls: nat -> Poll<E>) {
    && (forall i :: polls(i).start <= polls(i).now <= polls(i).end)
    && (forall i, k | i < k :: polls(i).end <= polls(k).start)
  }

  predicate Good<E>(p: Poll<E>, w: Wanted) {
    p.seen.Found? && (w.after != 0 ==> p.seen.instance.timestamp > w.after) && p.seen.instance.state in w.states
  }

  /** The polls from `from` to `to` all saw a wanted state, and they span the stable period. */
  ghost predicate Held<E>(polls: nat -> Poll<E>, w: Wanted, from: nat, to: nat) {
    from <= to && (forall k | from <= k <= to :: Good(polls(k), w)) && polls(to).now - polls(from).now >= w.stable
  }

  ghost predicate Steady<E>(polls: nat -> Poll<E>, w: Wanted, i: nat) {
    exists from: nat :: Held(polls, w, from, i)
  }

  /** The loop makes poll `i`: no earlier one ended it, in time or for any other reason. */
  ghost predicate Makes<E>(polls: nat -> Poll<E>, w: Wanted, deadline: real, i: nat) {
    && polls(i).start < deadline
    && forall k | 0 <= k < i ::
         polls(k).start < deadline && polls(k).end < deadline && !polls(k).seen.Fatal? && !Steady(polls, w, k)
  }

  /** The instance seen last before poll `n`. */
  function Latest<E>(polls: nat -> Poll<E>, n: nat): Option<Instance> {
    if n == 0 then None
    else if polls(n - 1).seen.Found? then Some(polls(n - 1).seen.instance)
    else Latest(polls, n - 1)
  }

  /** The streak under way before poll `i` began at poll `since`, and no earlier. */
  ghost predicate Streak<E>(polls: nat -> Poll<E>, w: Wanted, i: nat, stateSince: Option<real>, since: nat) {
    match stateSince
    case None => i > 0 ==> !Good(polls(i - 1), w)
    case Some(t) =>
      && since < i && t == polls(since).now && (forall k | since <= k < i :: Good(polls(k), w))
      && (since > 0 ==> !Good(polls(since - 1), w))
  }

  /** The loop is about to make poll `i`, and nothing has ended it. */
  ghost predicate Running<E>(polls: nat -> Poll<E>, w: Wanted, deadline: real, i: nat, latest: Option<Instance>,
                             stateSince: Option<real>, since: nat)
  {
    && latest == Latest(polls, i)
    && (forall k | 0 <= k < i ::
          polls(k).start < deadline && polls(k).end < deadline && !polls(k).seen.Fatal? && !Steady(polls, w, k))
    && Streak(polls, w, i, stateSince, since)
  }

  /** How the loop may end: at the first poll that ends a steady streak or fails, and for lack of
      time only when no poll it could make did either.  `at` is the number of polls made before the
      one that ended it, or all of them when time ran out. */
  ghost predicate Decided<E>(polls: nat -> Poll<E>, w: Wanted, deadline: real, r: Outcome<E>, at: nat) {
    match r
    case Reached(instance) => Makes(polls, w, deadline, at) && Steady(polls, w, at) && polls(at).seen == Found(instance)
    case Raised(error) => Makes(polls, w, deadline, at) && polls(at).seen == Fatal(error)
    case TimedOut(latest) =>
      && latest == Latest(polls, at)
      && forall i: nat | Makes(polls, w, deadline, i) :: i < at && !Steady(polls, w, i) && !polls(i).seen.Fatal?
    case NoStates => false
  }

  /** One turn of the loop, once the poll was made. */
  method Note<E(!new)>(poll: Poll<E>, w: Wanted, deadline: real, latest: Option<Instance>, stateSince: Option<real>,
                       ghost polls: nat -> Poll<E>, ghost i: nat, ghost since: nat)
    returns (ended: Option<Outcome<E>>, latest': Option<Instance>, stateSince': Option<real>, ghost at: nat, ghost since': nat)
    requires Ordered(polls) && poll == polls(i) && poll.start < deadline
    requires Running(polls, w, deadline, i, latest, stateSince, since)
    ensures ended.Some? ==> Decided(polls, w, deadline, ended.value, at)
    ensures ended.None? ==> Running(polls, w, deadline, i + 1, latest', stateSince', since')
  {
    assert Makes(polls, w, deadline, i);
    hide Ordered, Steady, Held, Good;
    ended, latest', stateSince', at, since' := None, latest, stateSince, i, since;
    match poll.seen {
      case Missing =>
        stateSince' := None;
      case Fatal(error) =>
        ended := Some(Raised(error));
        return;
      case Found(instance) =>
        latest' := Some(instance);
        if w.after != 0 && instance.timestamp <= w.after {
          stateSince' := None;
        } else if instance.state in w.states {
          IsGood(poll, w);
          if stateSince' == None { stateSince', since' := Some(poll.now), i; }
          if poll.now - stateSince'.value >= w.stable {
            Lasts(polls, w, since', i);
            ended := Some(Reached(instance));
            return;
          }
          NotYet(polls, w, i, since');
        } else {
          stateSince' := None;
        }
    }
    IsGood(poll, w);
    if stateSince' == None { NotGood(polls, w, i); }
    if poll.end >= deadline { ended, at := Some(TimedOut(latest')), i + 1; }
  }

  /** Polls that are all there is to know beforehand: those of the client's own status. */
  method Wait<E(!new)>(polls: nat -> Poll<E>, w: Wanted, deadline: real, ghost horizon: nat)
    returns (r: Outcome<E>, ghost at: nat)
    requires Ordered(polls) && polls(horizon).start >= deadline
    ensures r.NoStates? <==> w.states == {}
    ensures w.states != {} ==> Decided(polls, w, deadline, r, at)
  {
    if w.states == {} { return NoStates, 0; }
    var latest, stateSince := None, None;
    ghost var since := 0;
    var i := 0;
    while polls(i).start < deadline
      invariant i <= horizon && Running(polls, w, deadline, i, latest, stateSince, since)
      decreases horizon - i
    {
      Before(polls, deadline, i, horizon);
      var ended;
      ended, latest, stateSince, at, since := Note(polls(i), w, deadline, latest, stateSince, polls, i, since);
      if ended.Some? { return ended.value, at; }
      i := i + 1;
    }
    return TimedOut(latest), i;
  }

  lemma Before<E(!new)>(polls: nat -> Poll<E>, deadline: real, i: nat, horizon: nat)
    requires Ordered(polls) && polls(i).start < deadline <= polls(horizon).start
    ensures i != horizon
  {
  }

  lemma IsGood<E>(p: Poll<E>, w: Wanted)
    ensures Good(p, w) <==>
      p.seen.Found? && !(w.after != 0 && p.seen.instance.timestamp <= w.after) && p.seen.instance.state in w.states
  {
  }

  lemma NotGood<E>(polls: nat -> Poll<E>, w: Wanted, i: nat)
    requires !Good(polls(i), w)
    ensures !Steady(polls, w, i)
  {
  }

  lemma Lasts<E>(polls: nat -> Poll<E>, w: Wanted, since: nat, i: nat)
    requires since <= i && (forall k | since <= k <= i :: Good(polls(k), w)) && polls(i).now - polls(since).now >= w.stable
    ensures Steady(polls, w, i)
  {
    assert Held(polls, w, since, i);
  }

  lemma Later<E(!new)>(polls: nat -> Poll<E>, i: nat, k: nat)
    requires Ordered(polls)
    ensures i <= k ==> polls(i).now <= polls(k).now
  {
    if i < k { assert polls(i).end <= polls(k).start; }
  }

  lemma NotYet<E(!new)>(polls: nat -> Poll<E>, w: Wanted, i: nat, since: nat)
    requires Ordered(polls) && since <= i && polls(i).now - polls(since).now < w.stable
    requires since > 0 ==> !Good(polls(since - 1), w)
    ensures !Steady(polls, w, i)
  {
    assert since > 0 ==> !Good(polls(since - 1), w);
    forall from: nat | from <= i && forall k | from <= k <= i :: Good(polls(k), w)
      ensures polls(i).now - polls(from).now < w.stable
    {
      Later(polls, since, from);
    }
  }
}
