/** Inside Unity: what the queue and the lock hold, and exactly when a command is let through. */
module HostUnity {
  import opened Wrappers
  import opened HostQueue
  import opened HostProtocol
  import opened HostInvariant
  import opened HostSteps
  import opened HostTheorems

  // ---- Let through or refused -------------------------------------------------------

  /** The listener that accepted the command still runs, its deadline is ahead, and it was prepared
      against this domain and these references. */
  predicate Fit(s: State, msg: Msg, epoch: nat) {
    && epoch !in s.unity.cancelled && s.unix < msg.deadline
    && (msg.context.Some? ==>
          msg.context.value.domain == s.unity.domain && msg.context.value.generation == s.unity.generation)
  }

  predicate Able(s: State) { s.unity.listener.Some? && s.unity.listening && s.unity.ready }

  /** The refusal names what is wrong, and nothing that comes before it in the order of the checks is. */
  predicate Truly(s: State, msg: Msg, epoch: nat, reason: Reason) {
    var live, ahead := epoch !in s.unity.cancelled, s.unix < msg.deadline;
    match reason
    case NotReady => !live || (Fit(s, msg, epoch) && !Able(s))
    case Expired => live && !ahead
    case StaleDomain => live && ahead && msg.context.Some? && msg.context.value.domain != s.unity.domain
    case StaleReferences =>
      live && ahead && msg.context.Some? && msg.context.value.domain == s.unity.domain
      && msg.context.value.generation != s.unity.generation
    case _ => false
  }

  /** When a queued command comes up it is refused if and only if it no longer fits, for the reason
      given; an ordinary one then waits for the lock, and a live query starts. */
  lemma DequeuesExactly(s: State, m: nat)
    requires MessageCan(s, m, Dequeue)
    ensures var t, msg, epoch := MessageDo(s, m, Dequeue), s.msgs[m], s.msgs[m].phase.epoch;
      && (t.msgs[m].phase.Rejected? <==> !Fit(s, msg, epoch))
      && (t.msgs[m].phase.Rejected? ==> Truly(s, msg, epoch, t.msgs[m].phase.reason))
      && (Fit(s, msg, epoch) ==> t.msgs[m].phase == if msg.control then Running(|s.starts|) else WaitingLock(epoch))
      && |t.starts| == |s.starts| + (if Fit(s, msg, epoch) && msg.control then 1 else 0)
  {
  }

  /** With the lock held, a command starts if and only if it still fits and Unity is ready; one that
      brings an assembly loads it first and is checked once more. */
  lemma ExecutesExactly(s: State, m: nat)
    requires MessageCan(s, m, Execute)
    ensures var t, msg, epoch := MessageDo(s, m, Execute), s.msgs[m], EpochOf(s.msgs[m].phase);
      var loads := msg.assembly && msg.phase.Holding?;
      && (t.msgs[m].phase.Rejected? <==> !(Fit(s, msg, epoch) && Able(s)))
      && (t.msgs[m].phase.Rejected? ==> Truly(s, msg, epoch, t.msgs[m].phase.reason) && t.unity.lock == Free)
      && (Fit(s, msg, epoch) && Able(s) ==>
            t.unity.lock == s.unity.lock && t.msgs[m].phase == if loads then Loading(epoch) else Running(|s.starts|))
      && |t.starts| == |s.starts| + (if Fit(s, msg, epoch) && Able(s) && !loads then 1 else 0)
  {
  }

  // ---- The queue and the lock -------------------------------------------------------

  predicate PastQueue(p: Phase) { p.WaitingLock? || p.Holding? || p.Loading? }

  ghost predicate UnityOk(s: State) {
    && (forall m: nat :: m in s.unity.queue <==> m < |s.msgs| && s.msgs[m].phase.Enqueued?)
    && (forall i, k | 0 <= i < k < |s.unity.queue| :: s.unity.queue[i] != s.unity.queue[k])
    && (forall m | 0 <= m < |s.msgs| && PastQueue(s.msgs[m].phase) :: !s.msgs[m].control)
    && (s.unity.lock.Held? ==> s.unity.lock.msg < |s.msgs| && Executing(s.msgs[s.unity.lock.msg]))
  }

  lemma EditorKeepsUnity(s: State, a: EditorStep)
    requires UnityOk(s) && EditorCan(s, a)
    ensures UnityOk(EditorDo(s, a))
  {
  }

  lemma EnqueueKeepsUnity(s: State, m: nat)
    requires UnityOk(s) && MessageCan(s, m, Enqueue)
    ensures UnityOk(MessageDo(s, m, Enqueue))
  {
    var q := s.unity.queue;
    assert forall n :: n in q + [m] <==> n in q || n == m;
  }

  lemma DequeueTakesFirst(q: seq<nat>, m: nat)
    requires q != [] && q[0] == m && forall i, k | 0 <= i < k < |q| :: q[i] != q[k]
    ensures forall n: nat :: n in q[1..] <==> n in q && n != m
    ensures forall i, k | 0 <= i < k < |q[1..]| :: q[1..][i] != q[1..][k]
  {
    assert q == [m] + q[1..];
    assert forall i | 0 <= i < |q[1..]| :: q[1..][i] == q[i + 1];
  }

  lemma DequeueKeepsUnity(s: State, m: nat)
    requires UnityOk(s) && MessageCan(s, m, Dequeue)
    ensures UnityOk(MessageDo(s, m, Dequeue))
  {
    var q, t := s.unity.queue, MessageDo(s, m, Dequeue);
    DequeueTakesFirst(q, m);
    assert t.unity.queue == q[1..] && !t.msgs[m].phase.Enqueued?;
    assert forall n | 0 <= n < |s.msgs| && n != m :: t.msgs[n] == s.msgs[n];
    hide Validate;
  }

  lemma MessageKeepsUnity(s: State, m: nat, a: MessageStep)
    requires LockOk(s) && UnityOk(s) && MessageCan(s, m, a)
    ensures UnityOk(MessageDo(s, m, a))
  {
    if a.Enqueue? {
      EnqueueKeepsUnity(s, m);
    } else if a.Dequeue? {
      DequeueKeepsUnity(s, m);
    } else {
      hide Validate;
    }
  }

  /** A step of the host posts at most one more message, and leaves Unity alone. */
  ghost predicate OnlyPosts(s: State, t: State) {
    && t.unity == s.unity && s.msgs <= t.msgs
    && forall m | |s.msgs| <= m < |t.msgs| :: t.msgs[m].phase == InFlight
  }

  lemma PostingKeepsUnity(s: State, t: State)
    requires UnityOk(s) && OnlyPosts(s, t)
    ensures UnityOk(t)
  {
  }

  lemma WorkerOnlyPosts(s: State, w: nat, a: WorkerStep)
    requires WorkerCan(s, w, a)
    ensures OnlyPosts(s, WorkerDo(s, w, a))
  {
    hide Trim, AnswerOf, Retryable, Job.Complete, Job.Expire;
  }

  lemma ControlOnlyPosts(s: State, j: nat, a: ControlStep)
    requires ControlCan(s, j, a)
    ensures OnlyPosts(s, ControlDo(s, j, a))
  {
    hide AnswerOf, Job.Complete, Job.Expire;
  }

  lemma CallLeavesUnity(s: State, c: nat, a: CallStep)
    requires CallCan(s, c, a)
    ensures CallDo(s, c, a).unity == s.unity
  {
    hide Thin, Open, Retained;
  }

  lemma StepKeepsUnity(s: State, step: Step)
    requires Inv(s) && UnityOk(s) && Can(s, step)
    ensures UnityOk(Do(s, step))
  {
    assert LockOk(s);
    hide Inv, UnityOk, EditorDo, MessageDo, WorkerDo, ControlDo, CallDo;
    match step
    case EditorActs(a) => EditorKeepsUnity(s, a);
    case MessageActs(m, a) => MessageKeepsUnity(s, m, a);
    case WorkerActs(w, a) =>
      WorkerOnlyPosts(s, w, a);
      PostingKeepsUnity(s, Do(s, step));
    case ControlActs(j, a) =>
      ControlOnlyPosts(s, j, a);
      PostingKeepsUnity(s, Do(s, step));
    case CallActs(c, a) =>
      CallLeavesUnity(s, c, a);
      CallChangesOne(s, c, a);
      PostingKeepsUnity(s, Do(s, step));
    case _ => PostingKeepsUnity(s, Do(s, step));
  }

  lemma {:induction false} RunKeepsUnity(trace: seq<State>, i: nat)
    requires Run(trace) && i < |trace|
    ensures UnityOk(trace[i])
  {
    hide Inv, Can, Do;
    if i > 0 {
      RunKeepsUnity(trace, i - 1);
      RunKeeps(trace, i - 1);
      assert Follows(trace[i - 1], trace[i - 1 + 1]);
      var step :| Can(trace[i - 1], step) && trace[i] == Do(trace[i - 1], step);
      StepKeepsUnity(trace[i - 1], step);
    }
  }

  /** In every state of every run the queue holds exactly the commands that were queued and not yet
      taken, refused or killed, each once; and the lock is held by exactly the one ordinary command
      past it that is unfinished, so no way out of an execution leaves it behind. */
  lemma NothingIsLeft(trace: seq<State>, k: nat, m: nat)
    requires Run(trace) && k < |trace| && m < |trace[k].msgs|
    ensures m in trace[k].unity.queue <==> trace[k].msgs[m].phase.Enqueued?
    ensures forall i, n | 0 <= i < n < |trace[k].unity.queue| :: trace[k].unity.queue[i] != trace[k].unity.queue[n]
    ensures trace[k].unity.lock == Held(m) <==> Executing(trace[k].msgs[m])
  {
    RunKeepsUnity(trace, k);
    RunKeeps(trace, k);
  }
}
