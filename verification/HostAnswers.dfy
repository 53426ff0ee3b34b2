/** Where a job's answer comes from, and what becomes of a reply on its way from Unity to the job. */
module HostAnswers {
  import opened Wrappers
  import opened HostQueue
  import opened HostProtocol
  import opened HostInvariant
  import opened HostSteps
  import opened HostTheorems

  /** What the reply to a POST tells of it: the result of the execution, or the refusal. */
  predicate Says(phase: Phase, answer: Response) {
    match phase
    case Finished(execution) => answer == Ran(execution)
    case Rejected(reason) => answer == NotStarted(reason)
    case _ => false
  }

  /** The refusals after which a command may be prepared once more. */
  predicate MayRetry(answer: Response) {
    answer == NotStarted(StaleDomain) || answer == NotStarted(StaleReferences) || answer == NotStarted(NotReady)
  }

  predicate IsAt(s: State, w: nat, pc: Pc) { w in s.host.workers && s.host.workers[w] == pc }

  predicate Queries(s: State, j: nat, pc: ControlPc) { j in s.host.controls && s.host.controls[j] == pc }

  predicate HasAnswer(s: State, j: nat, answer: Response) {
    j < |s.host.jobs| && s.host.jobs[j].response == Some(answer)
  }

  predicate Unanswered(s: State, j: nat) { j < |s.host.jobs| && s.host.jobs[j].response == None }

  // ---- A worker moves by its own steps ----------------------------------------------

  /** A worker changes no thread but itself. */
  predicate OnlyItself(s: State, t: State, w: nat) {
    && t.host.controls == s.host.controls
    && (t.host.workers == s.host.workers - {w}
        || (w in t.host.workers && t.host.workers == s.host.workers[w := t.host.workers[w]]))
  }

  lemma WaitChangesItself(s: State, w: nat)
    requires WorkerCan(s, w, Wait)
    ensures OnlyItself(s, WorkerDo(s, w, Wait), w)
  {
    hide Job.Complete;
  }

  lemma DispatchChangesItself(s: State, w: nat)
    requires WorkerCan(s, w, Dispatch)
    ensures OnlyItself(s, WorkerDo(s, w, Dispatch), w)
  {
  }

  lemma SettleChangesItself(s: State, w: nat)
    requires WorkerCan(s, w, Settle)
    ensures OnlyItself(s, WorkerDo(s, w, Settle), w)
  {
    hide Retryable;
  }

  lemma EndingChangesItself(s: State, w: nat, a: WorkerStep)
    requires WorkerCan(s, w, a) && (a.Expire? || a.Complete?)
    ensures OnlyItself(s, WorkerDo(s, w, a), w)
  {
    hide Job.Complete, Job.Expire;
  }

  lemma PreparingChangesItself(s: State, w: nat, a: WorkerStep)
    requires WorkerCan(s, w, a)
    requires a.Pop? || a.ExitStopping? || a.ExitDead? || a.BeginJob? || a.CompileOk? || a.CompileStale? || a.CompileRefused?
    ensures OnlyItself(s, WorkerDo(s, w, a), w)
  {
    match a
    case Pop =>
    case ExitStopping =>
    case ExitDead =>
    case BeginJob =>
    case CompileOk =>
    case CompileStale =>
    case CompileRefused =>
  }

  lemma OtherwiseChangesItself(s: State, w: nat, a: WorkerStep)
    requires WorkerCan(s, w, a)
    requires a.Check? || a.Measure? || a.Post? || a.Receive? || a.Lose? || a.Invalidate? || a.Throw? || a.ReadState? || a.Close?
    ensures OnlyItself(s, WorkerDo(s, w, a), w)
  {
    hide Trim, AnswerOf;
    match a
    case Check =>
    case Measure =>
    case Post =>
    case Receive =>
    case Lose =>
    case Invalidate =>
    case Throw =>
    case ReadState =>
    case Close(_) =>
  }

  lemma WorkerChangesItself(s: State, w: nat, a: WorkerStep)
    requires WorkerCan(s, w, a)
    ensures OnlyItself(s, WorkerDo(s, w, a), w)
  {
    hide WorkerDo, WorkerCan, OnlyItself;
    if a.Wait? {
      WaitChangesItself(s, w);
    } else if a.Dispatch? {
      DispatchChangesItself(s, w);
    } else if a.Settle? {
      SettleChangesItself(s, w);
    } else if a.Expire? || a.Complete? {
      EndingChangesItself(s, w, a);
    } else if a.Check? || a.Measure? || a.Post? || a.Receive? || a.Lose? || a.Invalidate? || a.Throw? || a.ReadState? || a.Close? {
      OtherwiseChangesItself(s, w, a);
    } else {
      PreparingChangesItself(s, w, a);
    }
  }

  lemma ControlLeavesWorkers(s: State, j: nat, a: ControlStep)
    requires ControlCan(s, j, a)
    ensures ControlDo(s, j, a).host.workers == s.host.workers
  {
    hide AnswerOf, Job.Complete, Job.Expire;
  }

  /** A submission starts threads at most, for the job it creates. */
  lemma CallStartsThreads(s: State, c: nat, a: CallStep)
    requires CallCan(s, c, a)
    ensures var h, g := s.host, CallDo(s, c, a).host;
      && (g.workers == h.workers || g.workers == h.workers[h.spawned := Top])
      && (g.controls == h.controls || g.controls == h.controls[|h.jobs| := Starting])
  {
    if a.Lookup? {
      LookupStartsThreads(s, c, a);
    } else {
      hide Job.Expire;
    }
  }

  lemma AdmissionStartsThreads(s: State, job: Job, table: seq<nat>)
    ensures var h, g := s.host, Admission(s, job, table).host;
      && (g.workers == h.workers || g.workers == h.workers[h.spawned := Top])
      && (g.controls == h.controls || g.controls == h.controls[|h.jobs| := Starting])
  {
  }

  lemma LookupStartsThreads(s: State, c: nat, a: CallStep)
    requires CallCan(s, c, a) && a.Lookup?
    ensures var h, g := s.host, CallDo(s, c, a).host;
      && (g.workers == h.workers || g.workers == h.workers[h.spawned := Top])
      && (g.controls == h.controls || g.controls == h.controls[|h.jobs| := Starting])
  {
    AdmissionStartsThreads(s, JobFor(s.calls[c].request, s.calls[c].pc.hostDeadline), Thin([], s.host.table, a.evictView));
    hide Thin, Open, Retained, SeenDone, Admission, JobFor, Earlier;
  }

  /** A worker moves by its own steps only, once it was spawned. */
  lemma OthersLeaveWorker(s: State, step: Step, w: nat)
    requires Can(s, step) && !(step.WorkerActs? && step.w == w)
    ensures var was, now := s.host.workers, Do(s, step).host.workers;
      && (w in now ==> now[w].Top? || (w in was && now[w] == was[w]))
      && (w in was && w < s.host.spawned ==> w in now && now[w] == was[w])
  {
    hide EditorDo, MessageDo, WorkerDo, ControlDo, CallDo;
    match step
    case EditorActs(a) => EditorAdvances(s, a);
    case MessageActs(m, a) => MessageAdvances(s, m, a);
    case WorkerActs(v, a) => WorkerChangesItself(s, v, a);
    case ControlActs(j, a) => ControlLeavesWorkers(s, j, a);
    case CallActs(c, a) => CallStartsThreads(s, c, a);
    case _ =>
  }

  /** The step that brought a worker to where it stands. */
  lemma {:induction false} LastWork(trace: seq<State>, k: nat, w: nat) returns (i: nat, a: WorkerStep)
    requires Run(trace) && k < |trace| && w in trace[k].host.workers && !trace[k].host.workers[w].Top?
    ensures i < k && WorkerCan(trace[i], w, a) && trace[i + 1] == WorkerDo(trace[i], w, a)
    ensures forall n | i < n <= k :: IsAt(trace[n], w, trace[k].host.workers[w])
  {
    hide EditorDo, MessageDo, WorkerDo, ControlDo, ServiceDo, CallDo;
    if k > 0 {
      var s := trace[k - 1];
      assert Follows(s, trace[k - 1 + 1]);
      var step :| Can(s, step) && trace[k] == Do(s, step);
      if step.WorkerActs? && step.w == w {
        i, a := k - 1, step.worker;
      } else {
        OthersLeaveWorker(s, step, w);
        i, a := LastWork(trace, k - 1, w);
      }
    }
  }

  // ---- From Unity to the job --------------------------------------------------------

  /** The worker has the reply in hand, and if it is about to answer with it, it may not retry. */
  predicate Carries(s: State, w: nat, j: nat, attempt: nat, answer: Response) {
    || IsAt(s, w, Replied(j, attempt, answer))
    || (IsAt(s, w, Answering(j, answer)) && !(attempt == 0 && MayRetry(answer)))
  }

  /** What a worker does with the reply in the end. */
  predicate Handed(s: State, t: State, w: nat, j: nat, attempt: nat, answer: Response) {
    || IsAt(t, w, Failed(j))
    || (IsAt(s, w, Answering(j, answer)) && IsAt(t, w, Closing)
        && (Unanswered(s, j) ==> HasAnswer(t, j, answer)))
    || (attempt == 0 && MayRetry(answer) && IsAt(t, w, Invalidating(j, 0)))
    || (attempt == 0 && MayRetry(answer) && !Unanswered(s, j) && IsAt(t, w, Closing))
  }

  lemma CarriesOn(s: State, w: nat, j: nat, attempt: nat, answer: Response, a: WorkerStep)
    requires WorkerCan(s, w, a) && Carries(s, w, j, attempt, answer)
    ensures var t := WorkerDo(s, w, a); Carries(t, w, j, attempt, answer) || Handed(s, t, w, j, attempt, answer)
  {
  }

  lemma Received(s: State, w: nat, j: nat, attempt: nat, m: nat, answer: Response)
    requires WorkerCan(s, w, Receive) && IsAt(s, w, Awaiting(j, attempt, m)) && Says(s.msgs[m].phase, answer)
    ensures Carries(WorkerDo(s, w, Receive), w, j, attempt, answer)
  {
  }

  /** Over every run: what a worker receives from a POST is the result of its execution, or the
      refusal; it carries just that, unless it throws, until the job is answered with it, or the
      command is prepared once more because the first attempt was refused for a passing reason. */
  lemma {:induction false} ReplyIsDelivered(trace: seq<State>, i: nat, k: nat, w: nat, j: nat, attempt: nat, m: nat,
                                            answer: Response) returns (c: nat)
    requires Run(trace) && i < k < |trace|
    requires IsAt(trace[i], w, Awaiting(j, attempt, m)) && WorkerCan(trace[i], w, Receive)
    requires trace[i + 1] == WorkerDo(trace[i], w, Receive) && Says(trace[i].msgs[m].phase, answer)
    ensures i < c <= k && forall n | i < n <= c :: Carries(trace[n], w, j, attempt, answer)
    ensures c == k || Handed(trace[c], trace[c + 1], w, j, attempt, answer)
    decreases k
  {
    hide WorkerDo, WorkerCan, Carries, Says, Handed, Inv, EditorDo, MessageDo, ControlDo, ServiceDo, CallDo;
    if k == i + 1 {
      Received(trace[i], w, j, attempt, m, answer);
      c := k;
    } else {
      c := ReplyIsDelivered(trace, i, k - 1, w, j, attempt, m, answer);
      if c == k - 1 {
        var s := trace[c];
        assert Follows(s, trace[c + 1]);
        var step :| Can(s, step) && trace[c + 1] == Do(s, step);
        RunKeeps(trace, c);
        if step.WorkerActs? && step.w == w {
          CarriesOn(s, w, j, attempt, answer, step.worker);
        } else {
          WorkerIsSpawned(s, w, j, attempt, answer);
          OthersLeaveWorker(s, step, w);
          StillCarries(s, trace[k], w, j, attempt, answer);
        }
        if Carries(trace[k], w, j, attempt, answer) { c := k; }
      }
    }
  }

  lemma WorkerIsSpawned(s: State, w: nat, j: nat, attempt: nat, answer: Response)
    requires Inv(s) && Carries(s, w, j, attempt, answer)
    ensures w in s.host.workers && w < s.host.spawned
  {
  }

  lemma StillCarries(s: State, t: State, w: nat, j: nat, attempt: nat, answer: Response)
    requires Carries(s, w, j, attempt, answer) && w in s.host.workers && w in t.host.workers
    requires t.host.workers[w] == s.host.workers[w]
    ensures Carries(t, w, j, attempt, answer)
  {
  }

  // ---- The threads of live queries --------------------------------------------------

  lemma ControlLeavesOthers(s: State, j: nat, a: ControlStep)
    requires ControlCan(s, j, a)
    ensures var was, now := s.host.controls, ControlDo(s, j, a).host.controls;
      now == was - {j} || (j in now && now == was[j := now[j]])
  {
    hide AnswerOf, Job.Complete, Job.Expire;
    match a
    case ReadSnapshot =>
    case Begins =>
    case Sends =>
    case Hears =>
    case Loses =>
    case Answers =>
    case Dies =>
  }

  /** The thread of a query moves by its own steps only, once its job exists. */
  lemma OthersLeaveQuery(s: State, step: Step, j: nat)
    requires Can(s, step) && !(step.ControlActs? && step.j == j)
    ensures var was, now := s.host.controls, Do(s, step).host.controls;
      && (j in now ==> now[j].Starting? || (j in was && now[j] == was[j]))
      && (j in was && j < |s.host.jobs| ==> j in now && now[j] == was[j])
  {
    hide EditorDo, MessageDo, WorkerDo, ControlDo, CallDo;
    match step
    case EditorActs(a) => EditorAdvances(s, a);
    case MessageActs(m, a) => MessageAdvances(s, m, a);
    case WorkerActs(w, a) => WorkerChangesItself(s, w, a);
    case ControlActs(i, a) => ControlLeavesOthers(s, i, a);
    case CallActs(c, a) => CallStartsThreads(s, c, a);
    case _ =>
  }

  lemma {:induction false} LastQueryStep(trace: seq<State>, k: nat, j: nat) returns (i: nat, a: ControlStep)
    requires Run(trace) && k < |trace| && j in trace[k].host.controls && !trace[k].host.controls[j].Starting?
    ensures i < k && ControlCan(trace[i], j, a) && trace[i + 1] == ControlDo(trace[i], j, a)
    ensures Queries(trace[i + 1], j, trace[k].host.controls[j])
  {
    hide EditorDo, MessageDo, WorkerDo, ControlDo, ServiceDo, CallDo;
    if k > 0 {
      var s := trace[k - 1];
      assert Follows(s, trace[k - 1 + 1]);
      var step :| Can(s, step) && trace[k] == Do(s, step);
      if step.ControlActs? && step.j == j {
        i, a := k - 1, step.query;
      } else {
        OthersLeaveQuery(s, step, j);
        i, a := LastQueryStep(trace, k - 1, j);
      }
    }
  }

  /** The query's thread answers its job with what it heard, or dies. */
  ghost predicate QueryHanded(s: State, t: State, j: nat, answer: Response) {
    exists a | ControlCan(s, j, a) && t == ControlDo(s, j, a) ::
      a.Dies? || (a.Answers? && (Unanswered(s, j) ==> HasAnswer(t, j, answer)))
  }

  lemma QueryCarriesOn(s: State, j: nat, answer: Response, a: ControlStep)
    requires ControlCan(s, j, a) && Queries(s, j, Done(answer))
    ensures a.Dies? || (a.Answers? && (Unanswered(s, j) ==> HasAnswer(ControlDo(s, j, a), j, answer)))
  {
  }

  /** The same for a live query: what its thread hears is the result of the execution, or the
      refusal, and it holds just that until the job is answered with it, unless the thread dies. */
  lemma {:induction false} QueryReplyIsDelivered(trace: seq<State>, i: nat, k: nat, j: nat, m: nat, answer: Response)
    returns (c: nat)
    requires Run(trace) && i < k < |trace|
    requires Queries(trace[i], j, Pending(m)) && ControlCan(trace[i], j, Hears)
    requires trace[i + 1] == ControlDo(trace[i], j, Hears) && Says(trace[i].msgs[m].phase, answer)
    ensures i < c <= k && forall n | i < n <= c :: Queries(trace[n], j, Done(answer))
    ensures c < k ==> QueryHanded(trace[c], trace[c + 1], j, answer)
    decreases k
  {
    hide ControlDo, Inv, EditorDo, MessageDo, WorkerDo, ServiceDo, CallDo;
    if k == i + 1 {
      QueryReceived(trace[i], j, m, answer);
      c := k;
    } else {
      c := QueryReplyIsDelivered(trace, i, k - 1, j, m, answer);
      if c == k - 1 {
        var s := trace[c];
        assert Follows(s, trace[c + 1]);
        var step :| Can(s, step) && trace[c + 1] == Do(s, step);
        RunKeeps(trace, c);
        QueryHasJob(s, j);
        if step.ControlActs? && step.j == j {
          QueryCarriesOn(s, j, answer, step.query);
        } else {
          OthersLeaveQuery(s, step, j);
          c := k;
        }
      }
    }
  }

  lemma QueryReceived(s: State, j: nat, m: nat, answer: Response)
    requires ControlCan(s, j, Hears) && Queries(s, j, Pending(m)) && Says(s.msgs[m].phase, answer)
    ensures Queries(ControlDo(s, j, Hears), j, Done(answer))
  {
  }

  lemma QueryHasJob(s: State, j: nat)
    requires Inv(s) && j in s.host.controls
    ensures j < |s.host.jobs|
  {
    assert ControlOk(s, j, s.host.controls[j]);
  }
}
