/** Waking the Editor thread for queued commands through one flag, from any number of requests. */
module QueueDrain {
  /** Where the thread of a request stands; `Through` once `ForceEditorUpdate` has returned. */
  datatype Pc = Arriving | Enqueued | Posting | Through

  /** The Editor thread: in a posted callback before or after it cleared the flag, or idle. */
  datatype Main = Idle | CallingBack | Draining

  /** `queue` holds the thread of each waiting command; `posted` counts callbacks not yet run;
      `enqueued` and `handled` log the commands that went in, and that were processed or rejected. */
  datatype State = State(threads: seq<Pc>, queue: seq<nat>, flag: bool, posted: nat, main: Main, context: bool,
                         enqueued: seq<nat>, handled: seq<nat>)

  datatype Step =
    | Arrive
    | Enqueue(t: nat)
    | SkipPost(t: nat)
    | ExchangeFlag(t: nat)
    | Post(t: nat)
    | PostThrows(t: nat)
    | RunCallback
    | ClearFlag
    | Update
    | Dequeue
    | Reject
    | QueueEmpty

  predicate Init(s: State) {
    s.threads == [] && s.queue == [] && !s.flag && s.posted == 0 && s.main == Idle && s.enqueued == [] && s.handled == []
  }

  predicate Is(s: State, t: nat, pc: Pc) { t < |s.threads| && s.threads[t] == pc }

  predicate Can(s: State, step: Step) {
    match step
    case Arrive => true
    case Enqueue(t) => Is(s, t, Arriving)
    case SkipPost(t) => Is(s, t, Enqueued) && !s.context
    case ExchangeFlag(t) => Is(s, t, Enqueued) && s.context
    case Post(t) => Is(s, t, Posting)
    case PostThrows(t) => Is(s, t, Posting)
    case RunCallback => s.main == Idle && s.posted > 0
    case ClearFlag => s.main == CallingBack
    case Update => s.main == Idle
    case Dequeue => s.main == Draining && s.queue != []
    case Reject => s.main != CallingBack && s.queue != []
    case QueueEmpty => s.main == Draining && s.queue == []
  }

  function Do(s: State, step: Step): State
    requires Can(s, step)
  {
    match step
    case Arrive => s.(threads := s.threads + [Arriving])
    case Enqueue(t) => s.(threads := s.threads[t := Enqueued], queue := s.queue + [t], enqueued := s.enqueued + [t])
    case SkipPost(t) => s.(threads := s.threads[t := Through])
    case ExchangeFlag(t) => s.(threads := s.threads[t := if s.flag then Through else Posting], flag := true)
    case Post(t) => s.(threads := s.threads[t := Through], posted := s.posted + 1)
    case PostThrows(t) => s.(threads := s.threads[t := Through], flag := false)
    case RunCallback => s.(main := CallingBack, posted := s.posted - 1)
    case ClearFlag => s.(main := Draining, flag := false)
    case Update => s.(main := Draining)
    case Dequeue => s.(queue := s.queue[1..], handled := s.handled + [s.queue[0]])
    case Reject => s.(queue := s.queue[1..], handled := s.handled + [s.queue[0]])
    case QueueEmpty => s.(main := Idle)
  }

  // ---- Nothing waits unannounced ----------------------------------------------------

  /** With the flag clear and no drain running, every waiting command belongs to a request that
      has yet to exchange the flag. */
  ghost predicate Announced(s: State) {
    !s.flag && s.main == Idle ==> forall t | t in s.queue :: Is(s, t, Enqueued)
  }

  /** The flag is a token: while set, exactly one party is bound to clear it, by posting the
      callback, by running it, or by having posted it. */
  ghost predicate TokenOk(s: State) {
    && (s.main == CallingBack || s.posted > 0 ==> s.flag)
    && (forall t | 0 <= t < |s.threads| && s.threads[t].Posting? :: s.flag && s.posted == 0 && s.main != CallingBack)
    && (forall t, u | 0 <= t < u < |s.threads| :: !(s.threads[t].Posting? && s.threads[u].Posting?))
    && s.posted <= 1 && (s.posted == 1 ==> s.main != CallingBack)
    && (s.flag ==> s.posted == 1 || s.main == CallingBack || exists t: nat :: Is(s, t, Posting))
  }

  ghost predicate QueueOk(s: State) {
    && (forall t | t in s.queue :: t < |s.threads| && !s.threads[t].Arriving?)
    && (forall i, k | 0 <= i < k < |s.queue| :: s.queue[i] != s.queue[k])
    && (!s.context ==> !s.flag && forall t | 0 <= t < |s.threads| :: !s.threads[t].Posting?)
  }

  /** What went in has been handled, in that order, or still waits; and nobody queues twice. */
  ghost predicate LedgerOk(s: State) {
    && s.enqueued == s.handled + s.queue
    && (forall i, k | 0 <= i < k < |s.enqueued| :: s.enqueued[i] != s.enqueued[k])
    && (forall t | t in s.enqueued :: t < |s.threads| && !s.threads[t].Arriving?)
  }

  ghost predicate Inv(s: State) { TokenOk(s) && QueueOk(s) && LedgerOk(s) }

  lemma StepKeepsLedger(s: State, step: Step)
    requires LedgerOk(s) && Can(s, step)
    ensures LedgerOk(Do(s, step))
  {
    var n := Do(s, step);
    if step.Dequeue? || step.Reject? {
      assert s.queue == [s.queue[0]] + s.queue[1..];
      assert s.handled + ([s.queue[0]] + s.queue[1..]) == n.handled + n.queue;
    } else if step.Enqueue? {
      assert s.handled + s.queue + [step.t] == n.handled + n.queue;
    }
  }

  lemma StepKeeps(s: State, step: Step)
    requires Inv(s) && Can(s, step)
    ensures Inv(Do(s, step))
  {
    StepKeepsLedger(s, step);
    hide LedgerOk;
    var n := Do(s, step);
    if step.ExchangeFlag? && !s.flag { assert Is(n, step.t, Posting); }
    if s.flag && exists t: nat :: Is(s, t, Posting) {
      var t: nat :| Is(s, t, Posting);
      assert n.threads[t] == s.threads[t] || step == Post(t) || step == PostThrows(t);
      assert n.threads[t] == s.threads[t] ==> Is(n, t, Posting);
    }
  }

  /** The two ways a wake-up can be given up: there is nobody to post to, or posting throws while
      the drain is not running and some other announced command waits with it. */
  ghost predicate Strands(s: State, step: Step) {
    && s.main == Idle
    && match step
       case SkipPost(t) => t in s.queue
       case PostThrows(_) => exists u: nat :: u in s.queue && !Is(s, u, Enqueued)
       case _ => false
  }

  /** Every other step leaves announced what was announced. */
  lemma AnnouncedStays(s: State, step: Step)
    requires Inv(s) && Announced(s) && Can(s, step) && !step.SkipPost? && !step.PostThrows?
    ensures Announced(Do(s, step))
  {
    var n := Do(s, step);
    if !n.flag && n.main == Idle && !step.QueueEmpty? {
      assert !s.flag && s.main == Idle;
      forall t: nat | t in n.queue
        ensures Is(n, t, Enqueued)
      {
        assert t in s.queue ==> Is(s, t, Enqueued);
      }
    }
  }

  /** From a state in which nothing waits unannounced, exactly these steps leave one that does. */
  lemma StrandedExactly(s: State, step: Step)
    requires Inv(s) && Announced(s) && Can(s, step)
    ensures Announced(Do(s, step)) <==> !Strands(s, step)
  {
    var n := Do(s, step);
    if step.SkipPost? {
      if Strands(s, step) { assert step.t in n.queue && !Is(n, step.t, Enqueued); }
    } else if step.PostThrows? {
      if Strands(s, step) {
        var u: nat :| u in s.queue && !Is(s, u, Enqueued);
        assert u in n.queue && !Is(n, u, Enqueued);
      }
    } else {
      AnnouncedStays(s, step);
    }
  }

  ghost predicate Follows(s: State, t: State) { exists step :: Can(s, step) && !Strands(s, step) && t == Do(s, step) }

  /** A run with no wake-up given up. */
  ghost predicate Run(trace: seq<State>) {
    && trace != [] && Init(trace[0])
    && forall i | 0 <= i < |trace| - 1 :: Follows(trace[i], trace[i + 1])
  }

  lemma {:induction false} RunKeeps(trace: seq<State>, i: nat)
    requires Run(trace) && i < |trace|
    ensures Inv(trace[i]) && Announced(trace[i])
  {
    if i > 0 {
      RunKeeps(trace, i - 1);
      assert Follows(trace[i - 1], trace[i - 1 + 1]);
      var step :| Can(trace[i - 1], step) && !Strands(trace[i - 1], step) && trace[i] == Do(trace[i - 1], step);
      StepKeeps(trace[i - 1], step);
      StrandedExactly(trace[i - 1], step);
    }
  }

  /** Any run at all, wake-ups given up or not. */
  ghost predicate AnyRun(trace: seq<State>) {
    && trace != [] && Init(trace[0])
    && forall i | 0 <= i < |trace| - 1 :: Leads(trace[i], trace[i + 1])
  }

  ghost predicate Leads(s: State, t: State) { exists step :: Can(s, step) && t == Do(s, step) }

  /** Over every run commands are handled in the order they were queued, none twice and none lost:
      what was not handled still waits. */
  lemma {:induction false} HandledInOrder(trace: seq<State>, k: nat)
    requires AnyRun(trace) && k < |trace|
    ensures Inv(trace[k])
    ensures var s := trace[k];
      && s.enqueued == s.handled + s.queue
      && forall i, n | 0 <= i < n < |s.enqueued| :: s.enqueued[i] != s.enqueued[n]
  {
    if k > 0 {
      HandledInOrder(trace, k - 1);
      assert Leads(trace[k - 1], trace[k - 1 + 1]);
      var step :| Can(trace[k - 1], step) && trace[k] == Do(trace[k - 1], step);
      StepKeeps(trace[k - 1], step);
    }
  }

  /** And when a drain ends, every command queued until then has been handled. */
  lemma DrainHandlesAll(trace: seq<State>, k: nat)
    requires AnyRun(trace) && k < |trace| && Can(trace[k], QueueEmpty)
    ensures trace[k].handled == trace[k].enqueued
  {
    HandledInOrder(trace, k);
  }

  /** A waiting command is never forgotten: a drain runs, its callback is on the way, or a request
      is still about to ask for one. */
  lemma DrainIsComing(trace: seq<State>, k: nat)
    requires Run(trace) && k < |trace| && trace[k].queue != []
    ensures var s := trace[k];
      s.main != Idle || s.posted == 1 || exists t: nat :: Is(s, t, Posting) || Is(s, t, Enqueued)
  {
    RunKeeps(trace, k);
    var s := trace[k];
    if !s.flag && s.main == Idle { assert Is(s, s.queue[0], Enqueued); }
  }

  /** A command left behind waits for the next drain, which leaves nothing unannounced. */
  lemma DrainRecovers(s: State)
    requires Inv(s) && Can(s, QueueEmpty)
    ensures Inv(Do(s, QueueEmpty)) && Announced(Do(s, QueueEmpty))
  {
    StepKeeps(s, QueueEmpty);
  }

  /** One request arrives, queues its command and takes the flag; its post throws, and nothing
      announces the command any more. */
  lemma PostMayStrand() returns (trace: seq<State>)
    ensures Run(trace)
    ensures var s := trace[|trace| - 1]; Can(s, PostThrows(0)) && !Announced(Do(s, PostThrows(0)))
  {
    var s0 := State([], [], false, 0, Idle, true, [], []);
    var s1 := Do(s0, Arrive);
    var s2 := Do(s1, Enqueue(0));
    var s3 := Do(s2, ExchangeFlag(0));
    trace := [s0, s1, s2, s3];
    assert Follows(s0, s1) && Follows(s1, s2) && Follows(s2, s3);
    RunKeeps(trace, 3);
    assert 0 in s3.queue && !Is(s3, 0, Enqueued);
    StrandedExactly(s3, PostThrows(0));
  }
}
