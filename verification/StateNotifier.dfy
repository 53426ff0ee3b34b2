/** Telling the host that the Editor changed, from any number of threads, through two flags.

    Each step of a thread is one interlocked operation, or one delivery attempt, which may fail. */
module StateNotifier {
  /** Where a thread stands.  `Recalling` is the call a loop makes to itself on its way out. */
  datatype Pc = Calling | Claiming | Looping | Delivering | Clearing | Rereading | Recalling | Done

  /** `deliveries` logs, for every delivery attempt, how many notifications had been made when it began. */
  datatype State = State(threads: seq<Pc>, pending: bool, running: bool, notified: nat, deliveries: seq<nat>)

  datatype Step =
    | Call
    | Announce(t: nat)
    | Reannounce(t: nat)
    | Claim(t: nat)
    | Take(t: nat)
    | Deliver(t: nat)
    | Clear(t: nat)
    | Reread(t: nat)

  predicate Init(s: State) { s == State([], false, false, 0, []) }

  predicate Is(s: State, t: nat, pc: Pc) { t < |s.threads| && s.threads[t] == pc }

  predicate Can(s: State, step: Step) {
    match step
    case Call => true
    case Announce(t) => Is(s, t, Calling)
    case Reannounce(t) => Is(s, t, Recalling)
    case Claim(t) => Is(s, t, Claiming)
    case Take(t) => Is(s, t, Looping)
    case Deliver(t) => Is(s, t, Delivering)
    case Clear(t) => Is(s, t, Clearing)
    case Reread(t) => Is(s, t, Rereading)
  }

  function Do(s: State, step: Step): State
    requires Can(s, step)
  {
    match step
    case Call => s.(threads := s.threads + [Calling])
    case Announce(t) => s.(threads := s.threads[t := Claiming], pending := true, notified := s.notified + 1)
    case Reannounce(t) => s.(threads := s.threads[t := Claiming], pending := true)
    case Claim(t) =>
      if s.running then s.(threads := s.threads[t := Done])
      else s.(threads := s.threads[t := Done] + [Looping], running := true)
    case Take(t) =>
      if s.pending then
        s.(threads := s.threads[t := Delivering], pending := false, deliveries := s.deliveries + [s.notified])
      else s.(threads := s.threads[t := Clearing])
    case Deliver(t) => s.(threads := s.threads[t := Looping])
    case Clear(t) => s.(threads := s.threads[t := Rereading], running := false)
    case Reread(t) => s.(threads := s.threads[t := if s.pending then Recalling else Done])
  }

  ghost predicate Follows(s: State, t: State) { exists step :: Can(s, step) && t == Do(s, step) }

  ghost predicate Run(trace: seq<State>) {
    && trace != [] && Init(trace[0])
    && forall i | 0 <= i < |trace| - 1 :: Follows(trace[i], trace[i + 1])
  }

  // ---- What every step keeps --------------------------------------------------------

  predicate Active(pc: Pc) { pc.Looping? || pc.Delivering? || pc.Clearing? }

  predicate Responsible(pc: Pc) { !pc.Calling? && !pc.Done? }

  /** How many notifications were made before the last delivery attempt began. */
  function Covered(s: State): nat { if s.deliveries == [] then 0 else s.deliveries[|s.deliveries| - 1] }

  ghost predicate Inv(s: State) {
    && (forall t, u | 0 <= t < u < |s.threads| :: !(Active(s.threads[t]) && Active(s.threads[u])))
    && (s.running <==> exists t :: 0 <= t < |s.threads| && Active(s.threads[t]))
    && Covered(s) <= s.notified
    && (!s.pending ==> Covered(s) == s.notified)
    && (s.pending ==> exists t :: 0 <= t < |s.threads| && Responsible(s.threads[t]))
  }

  lemma ClaimKeeps(s: State, t: nat)
    requires Inv(s) && Can(s, Claim(t))
    ensures Inv(Do(s, Claim(t)))
  {
    var n := Do(s, Claim(t));
    if s.running {
      var u :| 0 <= u < |s.threads| && Active(s.threads[u]);
      assert n.threads[u] == s.threads[u];
    } else {
      assert n.threads[|s.threads|] == Looping;
    }
  }

  lemma CallKeeps(s: State)
    requires Inv(s)
    ensures Inv(Do(s, Call))
  {
    var n := Do(s, Call);
    assert forall t | 0 <= t < |s.threads| :: n.threads[t] == s.threads[t];
  }

  lemma StepKeeps(s: State, step: Step)
    requires Inv(s) && Can(s, step)
    ensures Inv(Do(s, step))
  {
    if step.Claim? {
      ClaimKeeps(s, step.t);
    } else if step.Call? {
      CallKeeps(s);
    } else {
      var n := Do(s, step);
      assert forall u | 0 <= u < |s.threads| && u != step.t :: n.threads[u] == s.threads[u];
      assert n.threads[step.t] != s.threads[step.t];
    }
  }

  lemma {:induction false} RunKeeps(trace: seq<State>, i: nat)
    requires Run(trace) && i < |trace|
    ensures Inv(trace[i])
  {
    if i > 0 {
      RunKeeps(trace, i - 1);
      assert Follows(trace[i - 1], trace[i - 1 + 1]);
      var step :| Can(trace[i - 1], step) && trace[i] == Do(trace[i - 1], step);
      StepKeeps(trace[i - 1], step);
    }
  }

  /** At most one thread is in the delivery loop, however many notify. */
  lemma OneLoop(trace: seq<State>, k: nat, t: nat, u: nat)
    requires Run(trace) && k < |trace| && t < |trace[k].threads| && u < |trace[k].threads|
    requires Active(trace[k].threads[t]) && Active(trace[k].threads[u])
    ensures t == u
  {
    RunKeeps(trace, k);
  }

  /** Once every thread has returned, a delivery attempt has begun after every notification. */
  lemma NothingIsLost(trace: seq<State>, k: nat)
    requires Run(trace) && k < |trace|
    requires forall t | 0 <= t < |trace[k].threads| :: !Responsible(trace[k].threads[t])
    ensures trace[k].notified > 0 ==>
      trace[k].deliveries != [] && trace[k].deliveries[|trace[k].deliveries| - 1] == trace[k].notified
  {
    RunKeeps(trace, k);
  }

  // ---- Delivery comes within a bounded number of steps ------------------------------

  /** How many steps of its own a thread may take before a waiting notification is delivered. */
  function Distance(pc: Pc): nat {
    match pc
    case Clearing => 6
    case Rereading => 5
    case Recalling => 4
    case Claiming => 3
    case Delivering => 2
    case Looping => 1
    case Calling => 0
    case Done => 0
  }

  function Weight(threads: seq<Pc>): nat {
    if threads == [] then 0 else Weight(threads[..|threads| - 1]) + Distance(threads[|threads| - 1])
  }

  lemma {:induction false} WeightUpdate(threads: seq<Pc>, t: nat, pc: Pc)
    requires t < |threads|
    ensures Weight(threads[t := pc]) == Weight(threads) - Distance(threads[t]) + Distance(pc)
  {
    var last := |threads| - 1;
    if t < last {
      assert threads[t := pc][..last] == threads[..last][t := pc];
      WeightUpdate(threads[..last], t, pc);
    } else {
      assert threads[t := pc][..last] == threads[..last];
    }
  }

  lemma WeightAdd(threads: seq<Pc>, pc: Pc)
    ensures Weight(threads + [pc]) == Weight(threads) + Distance(pc)
  {
    assert (threads + [pc])[..|threads|] == threads;
  }

  /** What a step may add to the steps still to come: a newcomer's announcement brings its own. */
  function Brings(step: Step): nat { if step.Announce? then 3 else 0 }

  /** The steps that are counted: all but the arrival of a caller and its announcement. */
  function Counts(step: Step): nat { if step.Call? || step.Announce? then 0 else 1 }

  /** While the `n`-th notification waits, every step of a thread begins its delivery or brings it
      nearer, whoever announces something newer in between. */
  lemma StepComesNearer(s: State, step: Step, n: nat)
    requires Inv(s) && Can(s, step) && Covered(s) < n <= s.notified
    ensures s.notified <= Do(s, step).notified
    ensures Covered(Do(s, step)) < n ==> Weight(Do(s, step).threads) + Counts(step) <= Weight(s.threads) + Brings(step)
  {
    var now := Do(s, step);
    if step.Call? {
      WeightAdd(s.threads, Calling);
    } else if step.Claim? {
      WeightUpdate(s.threads, step.t, Done);
      WeightAdd(s.threads[step.t := Done], Looping);
    } else {
      WeightUpdate(s.threads, step.t, now.threads[step.t]);
    }
  }

  /** And some thread can take a step that is counted. */
  lemma SomeoneCanStep(s: State) returns (step: Step)
    requires Inv(s) && Covered(s) < s.notified
    ensures Can(s, step) && Counts(step) == 1
  {
    var t :| 0 <= t < |s.threads| && Responsible(s.threads[t]);
    var pc := s.threads[t];
    step := if pc.Claiming? then Claim(t)
            else if pc.Looping? then Take(t)
            else if pc.Delivering? then Deliver(t)
            else if pc.Clearing? then Clear(t)
            else if pc.Rereading? then Reread(t)
            else Reannounce(t);
  }

  /** Any steps of any threads, throughout which the `n`-th notification still waits. */
  ghost predicate StillWaits(s: State, n: nat, steps: seq<Step>)
    decreases |steps|
  {
    && Covered(s) < n <= s.notified
    && (steps != [] ==> Can(s, steps[0]) && StillWaits(Do(s, steps[0]), n, steps[1..]))
  }

  function Counted(steps: seq<Step>): nat { if steps == [] then 0 else Counts(steps[0]) + Counted(steps[1..]) }

  function Announcements(steps: seq<Step>): nat {
    if steps == [] then 0 else (if steps[0].Announce? then 1 else 0) + Announcements(steps[1..])
  }

  lemma {:induction false} WaitsAreShort(s: State, n: nat, steps: seq<Step>)
    requires Inv(s) && StillWaits(s, n, steps)
    ensures Counted(steps) <= Weight(s.threads) + 3 * Announcements(steps)
    decreases |steps|
  {
    if steps != [] {
      StepKeeps(s, steps[0]);
      StepComesNearer(s, steps[0], n);
      WaitsAreShort(Do(s, steps[0]), n, steps[1..]);
    }
  }

  /** Every notification is followed by a delivery attempt that begins after it: until then the
      threads can take no more steps than their distances add up to, and three for each newer
      notification announced meanwhile, in whatever order they take them. */
  lemma DeliveredSoon(trace: seq<State>, k: nat, n: nat, steps: seq<Step>)
    requires Run(trace) && k < |trace| && StillWaits(trace[k], n, steps)
    ensures Counted(steps) <= Weight(trace[k].threads) + 3 * Announcements(steps)
  {
    RunKeeps(trace, k);
    WaitsAreShort(trace[k], n, steps);
  }
}
