/** No accepted command is forgotten by the host: until it is answered it waits its turn or is in the
    hands of the worker. */
module HostWork {
  import opened Wrappers
  import opened HostQueue
  import opened HostProtocol
  import opened HostInvariant
  import opened HostSteps
  import opened HostTheorems
  import opened HostAnswers
  import opened HostDeadlines

  predicate Holds(s: State, w: nat, j: nat) {
    w in s.host.workers && HasJob(s.host.workers[w]) && JobOf(s.host.workers[w]) == j
  }

  ghost predicate Attended(s: State, j: nat) { j in s.host.pending || exists w :: Holds(s, w, j) }


  // ---- The worker lets go of answered jobs only -------------------------------------

  /** The worker still has its job in hand, or the job is answered. */
  predicate KeepsOrAnswers(s: State, t: State, w: nat)
    requires w in s.host.workers && HasJob(s.host.workers[w])
  {
    var j := JobOf(s.host.workers[w]);
    Holds(t, w, j) || (j < |t.host.jobs| && t.host.jobs[j].Done())
  }

  lemma WaitKeepsJob(s: State, w: nat)
    requires WorkerCan(s, w, Wait)
    ensures KeepsOrAnswers(s, WorkerDo(s, w, Wait), w)
  {
    hide Job.Complete;
  }

  lemma DispatchKeepsJob(s: State, w: nat)
    requires WorkerCan(s, w, Dispatch)
    ensures KeepsOrAnswers(s, WorkerDo(s, w, Dispatch), w)
  {
  }

  lemma SettleKeepsJob(s: State, w: nat)
    requires WorkerCan(s, w, Settle)
    ensures KeepsOrAnswers(s, WorkerDo(s, w, Settle), w)
  {
    hide Retryable;
  }

  lemma EndingKeepsJob(s: State, w: nat, a: WorkerStep)
    requires WorkerCan(s, w, a) && (a.Expire? || a.Complete?)
    ensures KeepsOrAnswers(s, WorkerDo(s, w, a), w)
  {
  }

  lemma OtherwiseKeepsJob(s: State, w: nat, a: WorkerStep)
    requires WorkerCan(s, w, a) && !Writes(a) && HasJob(s.host.workers[w])
    ensures KeepsOrAnswers(s, WorkerDo(s, w, a), w)
  {
    hide AnswerOf;
    match a
    case BeginJob =>
    case CompileOk =>
    case CompileStale =>
    case CompileRefused =>
    case Check =>
    case Measure =>
    case Post =>
    case Receive =>
    case Lose =>
    case Invalidate =>
    case Throw =>
    case ReadState =>
  }

  lemma WorkerKeepsJob(s: State, w: nat, a: WorkerStep)
    requires WorkerCan(s, w, a) && HasJob(s.host.workers[w])
    ensures KeepsOrAnswers(s, WorkerDo(s, w, a), w)
  {
    hide WorkerDo, KeepsOrAnswers;
    if a.Wait? {
      WaitKeepsJob(s, w);
    } else if a.Dispatch? {
      DispatchKeepsJob(s, w);
    } else if a.Settle? {
      SettleKeepsJob(s, w);
    } else if a.Expire? || a.Complete? {
      EndingKeepsJob(s, w, a);
    } else {
      OtherwiseKeepsJob(s, w, a);
    }
  }

  lemma WorkerKeepsPending(s: State, w: nat, a: WorkerStep)
    requires WorkerCan(s, w, a)
    ensures var was, now := s.host.pending, WorkerDo(s, w, a).host.pending;
      if a.Pop? then was == [was[0]] + now && Holds(WorkerDo(s, w, a), w, was[0]) && !HasJob(s.host.workers[w])
      else now == was
  {
    hide Trim, AnswerOf, Retryable, Job.Complete, Job.Expire;
    match a
    case Pop =>
    case ExitStopping =>
    case ExitDead =>
    case Wait =>
    case Dispatch =>
    case Settle =>
    case Close(_) =>
    case _ =>
  }

  lemma WorkerAttends(s: State, w: nat, a: WorkerStep, j: nat)
    requires WorkerCan(s, w, a) && Attended(s, j) && !(j < |WorkerDo(s, w, a).host.jobs| && WorkerDo(s, w, a).host.jobs[j].Done())
    ensures Attended(WorkerDo(s, w, a), j)
  {
    var t := WorkerDo(s, w, a);
    WorkerKeepsPending(s, w, a);
    WorkerChangesItself(s, w, a);
    hide WorkerDo;
    if j !in t.host.pending {
      if j in s.host.pending {
        assert Holds(t, w, j);
      } else {
        var v :| Holds(s, v, j);
        if v == w { WorkerKeepsJob(s, w, a); }
        assert Holds(t, v, j);
      }
    }
  }

  // ---- The others -------------------------------------------------------------------

  lemma StaysAttended(s: State, t: State, j: nat)
    requires Attended(s, j) && (forall i | i in s.host.pending :: i in t.host.pending)
    requires forall w | w in s.host.workers :: w in t.host.workers && t.host.workers[w] == s.host.workers[w]
    ensures Attended(t, j)
  {
    if j !in t.host.pending {
      var w :| Holds(s, w, j);
      assert Holds(t, w, j);
    }
  }

  lemma AdmissionAttends(s: State, job: Job, table: seq<nat>)
    requires forall w | w in s.host.workers :: w < s.host.spawned
    ensures var t := Admission(s, job, table);
      && (forall i | i in s.host.pending :: i in t.host.pending)
      && (!job.control ==> |s.host.jobs| in t.host.pending)
      && forall w | w in s.host.workers :: w in t.host.workers && t.host.workers[w] == s.host.workers[w]
  {
  }

  /** What a step does to the work at hand: nothing is taken from it, and a new job joins it. */
  ghost predicate OnlyAdds(s: State, t: State) {
    && (forall i | i in s.host.pending :: i in t.host.pending)
    && (forall w | w in s.host.workers :: w in t.host.workers && t.host.workers[w] == s.host.workers[w])
    && |t.host.jobs| <= |s.host.jobs| + 1
    && (|s.host.jobs| < |t.host.jobs| && !t.host.jobs[|s.host.jobs|].control ==> |s.host.jobs| in t.host.pending)
  }

  lemma LookupAttends(s: State, c: nat, a: CallStep)
    requires (forall w | w in s.host.workers :: w < s.host.spawned) && CallCan(s, c, a) && a.Lookup?
    ensures OnlyAdds(s, CallDo(s, c, a))
  {
    AdmissionAttends(s, JobFor(s.calls[c].request, s.calls[c].pc.hostDeadline), Thin([], s.host.table, a.evictView));
    hide Thin, Open, Retained, Admission, SeenDone, JobFor, Earlier;
  }

  lemma CallAttends(s: State, c: nat, a: CallStep)
    requires Inv(s) && CallCan(s, c, a)
    ensures OnlyAdds(s, CallDo(s, c, a))
  {
    assert forall w | w in s.host.workers :: w < s.host.spawned;
    hide Inv;
    if a.Lookup? { LookupAttends(s, c, a); }
  }

  lemma ControlLeavesWork(s: State, j: nat, a: ControlStep)
    requires ControlCan(s, j, a)
    ensures ControlDo(s, j, a).host.pending == s.host.pending
  {
    hide AnswerOf, Job.Complete, Job.Expire;
  }

  lemma ServiceLeavesWork(s: State, a: ServiceStep)
    requires ServiceCan(s, a)
    ensures ServiceDo(s, a).host.pending == s.host.pending && ServiceDo(s, a).host.workers == s.host.workers
  {
    hide Job.Complete;
  }

  /** A job that was there keeps being attended. */
  lemma StepAttends(s: State, step: Step, j: nat)
    requires Inv(s) && Can(s, step) && Attended(s, j)
    requires j < |Do(s, step).host.jobs| && !Do(s, step).host.jobs[j].Done()
    ensures Attended(Do(s, step), j)
  {
    hide EditorDo, MessageDo, WorkerDo, ControlDo, ServiceDo, CallDo, Attended, Inv, Job.Done;
    var t := Do(s, step);
    match step
    case EditorActs(a) => EditorAdvances(s, a); StaysAttended(s, t, j);
    case MessageActs(m, a) => MessageAdvances(s, m, a); StaysAttended(s, t, j);
    case WorkerActs(w, a) => WorkerAttends(s, w, a, j);
    case ControlActs(i, a) =>
      ControlLeavesWorkers(s, i, a);
      ControlLeavesWork(s, i, a);
      StaysAttended(s, t, j);
    case CallActs(c, a) =>
      CallAttends(s, c, a);
      StaysAttended(s, t, j);
    case ServiceActs(a) =>
      ServiceLeavesWork(s, a);
      StaysAttended(s, t, j);
    case _ => StaysAttended(s, t, j);
  }

  /** A new one joins the queue. */
  lemma NewIsAttended(s: State, step: Step, j: nat)
    requires Inv(s) && Can(s, step) && |s.host.jobs| <= j < |Do(s, step).host.jobs| && !Do(s, step).host.jobs[j].control
    ensures Attended(Do(s, step), j)
  {
    hide EditorDo, MessageDo, WorkerDo, ControlDo, CallDo, Attended, Inv;
    OnlyCallsEnrol(s, step);
    CallAttends(s, step.c, step.call);
    Joins(Do(s, step), j);
  }

  lemma Joins(s: State, j: nat)
    requires j in s.host.pending
    ensures Attended(s, j)
  {
  }

  /** In every state of every run each unanswered ordinary command is queued or in the worker's hands. */
  lemma {:induction false} NoneForgotten(trace: seq<State>, k: nat, j: nat)
    requires Run(trace) && k < |trace| && j < |trace[k].host.jobs|
    requires !trace[k].host.jobs[j].control && !trace[k].host.jobs[j].Done()
    ensures Attended(trace[k], j)
  {
    hide Attended, Inv, Do, Can, Grows;
    if k > 0 {
      var s := trace[k - 1];
      RunKeeps(trace, k - 1);
      assert Follows(s, trace[k - 1 + 1]);
      var step :| Can(s, step) && trace[k] == Do(s, step);
      if j < |s.host.jobs| {
        StepGrows(s, step);
        NotYetAnswered(s, trace[k], j);
        NoneForgotten(trace, k - 1, j);
        StepAttends(s, step, j);
      } else {
        NewIsAttended(s, step, j);
      }
    }
  }

  lemma NotYetAnswered(s: State, t: State, j: nat)
    requires Grows(s, t) && j < |s.host.jobs| && j < |t.host.jobs| && !t.host.jobs[j].Done()
    ensures !s.host.jobs[j].Done() && s.host.jobs[j].control == t.host.jobs[j].control
  {
    assert SameRequest(s.host.jobs[j], t.host.jobs[j]);
  }

  // ---- What the worker and the stop leave behind ------------------------------------

  /** When a command is over, the table is back to 256 unless its oldest job looked unfinished. */
  lemma ClosingTrims(s: State, w: nat, view: set<nat>) returns (n: nat)
    requires WorkerCan(s, w, Close(view))
    ensures var now := WorkerDo(s, w, Close(view)).host.table;
      && n <= |s.host.table| && now == s.host.table[n..]
      && (forall m | 0 <= m < n :: s.host.table[m] in view && |s.host.table| - m > 256)
      && (|now| <= 256 || now[0] !in view)
  {
    var table := s.host.table;
    n := TrimsOldestFirst(table, view);
    forall m | 0 <= m < n
      ensures s.host.table[m] in view && |s.host.table| - m > 256
    {
      assert table[m] in view;
    }
    hide Trim;
  }

  /** What is found stale at the first attempt is prepared once more, and not answered. */
  lemma StaleIsPreparedAgain(s: State, w: nat)
    ensures WorkerCan(s, w, CompileStale) ==>
      IsAt(WorkerDo(s, w, CompileStale), w, Invalidating(s.host.workers[w].job, 0))
    ensures WorkerCan(s, w, Invalidate) ==>
      IsAt(WorkerDo(s, w, Invalidate), w, Waiting(s.host.workers[w].job, 1))
    ensures WorkerCan(s, w, Check) && s.host.workers[w].attempt == 0 ==>
      var pc, h := s.host.workers[w], s.host;
      var current := h.contextKey == Some(h.snapshot.Key()) && pc.context == Context(h.snapshot.domain, h.snapshot.generation);
      IsAt(WorkerDo(s, w, Check), w,
           if current then HostProtocol.Checked(pc.job, 0, pc.context, h.snapshot) else Waiting(pc.job, 1))
  {
  }

  /** A stop answers every command still waiting its turn, and keeps the answers already given. */
  lemma StopAnswersPending(s: State, j: nat)
    requires ServiceCan(s, StopPending) && j < |s.host.jobs|
    ensures var t := ServiceDo(s, StopPending);
      && |t.host.jobs| == |s.host.jobs|
      && t.host.jobs[j].response ==
           if s.host.jobs[j].response.Some? then s.host.jobs[j].response
           else if j in s.host.pending then Some(NotStarted(HostStopping)) else None
  {
  }
}
