/** What the host promises its callers, over every run of the protocol. */
module HostTheorems {
  import opened Wrappers
  import opened HostQueue
  import opened HostProtocol
  import opened HostInvariant
  import opened HostSteps

  lemma {:induction false} RunKeeps(trace: seq<State>, i: nat)
    requires Run(trace) && i < |trace|
    ensures Inv(trace[i])
  {
    if i == 0 {
      InitInv(trace[0]);
    } else {
      RunKeeps(trace, i - 1);
      assert Follows(trace[i - 1], trace[i - 1 + 1]);
      var step :| Can(trace[i - 1], step) && trace[i] == Do(trace[i - 1], step);
      StepKeeps(trace[i - 1], step);
    }
  }

  // ---- Nothing said is ever taken back ----------------------------------------------

  function Stage(pc: CallPc): nat {
    match pc
    case Arrived => 0
    case Entered => 1
    case Timed(_) => 2
    case Anchored(_, _) => 3
    case Joined(_, _) => 4
    case Told(_, _) => 5
  }

  /** A submission keeps its request, its job once it has one, and its reply. */
  predicate CallGrows(was: Call, now: Call) {
    && now.request == was.request && Stage(was.pc) <= Stage(now.pc)
    && (was.pc.Told? ==> now == was)
    && (was.pc.Joined? ==> now == was || (now.pc.Told? && now.pc.from == Some(was.pc.job)))
  }

  /** Jobs, answers and executions are only added to, and an answer is written once. */
  ghost predicate Grows(s: State, t: State) {
    && |s.host.jobs| <= |t.host.jobs|
    && (forall j | 0 <= j < |s.host.jobs| ::
          && SameRequest(s.host.jobs[j], t.host.jobs[j])
          && (s.host.jobs[j].Done() ==> t.host.jobs[j].response == s.host.jobs[j].response))
    && s.starts <= t.starts && |s.calls| <= |t.calls|
    && (forall c | 0 <= c < |s.calls| :: CallGrows(s.calls[c], t.calls[c]))
    && |s.msgs| <= |t.msgs|
    && (forall m | 0 <= m < |s.msgs| :: t.msgs[m] == s.msgs[m].(phase := t.msgs[m].phase))
  }

  lemma StepGrows(s: State, step: Step)
    requires Can(s, step)
    ensures Grows(s, Do(s, step))
  {
    match step
    case EditorActs(a) => EditorAdvances(s, a);
    case MessageActs(m, a) => MessageAdvances(s, m, a);
    case WorkerActs(w, a) => WorkerGrows(s, w, a);
    case ControlActs(j, a) => ControlGrows(s, j, a);
    case ServiceActs(a) => ServiceGrows(s, a);
    case CallActs(c, a) => CallStepGrows(s, c, a);
    case _ =>
  }

  /** The steps of the worker that write to its job. */
  predicate Writes(a: WorkerStep) { a.Wait? || a.Expire? || a.Dispatch? || a.Settle? || a.Complete? }

  lemma WorkerGrows(s: State, w: nat, a: WorkerStep)
    requires WorkerCan(s, w, a)
    ensures Grows(s, WorkerDo(s, w, a))
    ensures |WorkerDo(s, w, a).host.jobs| == |s.host.jobs|
    ensures WorkerDo(s, w, a).starts == s.starts && WorkerDo(s, w, a).calls == s.calls
  {
    hide Trim, Retryable, AnswerOf;
    var t := WorkerDo(s, w, a);
    assert t.starts == s.starts && t.calls == s.calls && s.msgs <= t.msgs;
    if Writes(a) {
      var job := WorkerAnswersOnce(s, w, a);
    } else {
      assert t.host.jobs == s.host.jobs;
    }
  }

  /** The job is answered once at most. */
  ghost predicate AnswersOnce(s: State, t: State, pc: Pc, job: Job) {
    && HasJob(pc) && JobOf(pc) < |s.host.jobs| && t.host.jobs == s.host.jobs[JobOf(pc) := job]
    && SameRequest(s.host.jobs[JobOf(pc)], job)
    && (s.host.jobs[JobOf(pc)].Done() ==> job.response == s.host.jobs[JobOf(pc)].response)
  }

  lemma WorkerAnswersOnce(s: State, w: nat, a: WorkerStep) returns (job: Job)
    requires WorkerCan(s, w, a) && Writes(a)
    ensures AnswersOnce(s, WorkerDo(s, w, a), s.host.workers[w], job)
  {
    hide AnswersOnce;
    if a.Dispatch? {
      job := DispatchAnswersOnce(s, w);
    } else if a.Settle? {
      job := SettleAnswersOnce(s, w);
    } else {
      job := WorkerDo(s, w, a).host.jobs[JobOf(s.host.workers[w])];
      EndingAnswersOnce(s, w, a, job);
    }
  }

  lemma DispatchAnswersOnce(s: State, w: nat) returns (job: Job)
    requires WorkerCan(s, w, Dispatch)
    ensures AnswersOnce(s, WorkerDo(s, w, Dispatch), s.host.workers[w], job)
  {
    var pc := s.host.workers[w];
    job := s.host.jobs[pc.job];
    if !job.Done() && pc.remaining > 0 { job := job.(state := Dispatched); }
  }

  lemma SettleAnswersOnce(s: State, w: nat) returns (job: Job)
    requires WorkerCan(s, w, Settle)
    ensures AnswersOnce(s, WorkerDo(s, w, Settle), s.host.workers[w], job)
  {
    hide Retryable;
    var pc := s.host.workers[w];
    job := s.host.jobs[pc.job];
    if pc.attempt == 0 && Retryable(pc.answer) && !job.Done() { job := job.(state := Queued); }
  }

  lemma EndingAnswersOnce(s: State, w: nat, a: WorkerStep, job: Job)
    requires WorkerCan(s, w, a) && (a.Wait? || a.Expire? || a.Complete?)
    requires JobOf(s.host.workers[w]) < |WorkerDo(s, w, a).host.jobs|
    requires job == WorkerDo(s, w, a).host.jobs[JobOf(s.host.workers[w])]
    ensures AnswersOnce(s, WorkerDo(s, w, a), s.host.workers[w], job)
  {
  }

  lemma ControlGrows(s: State, j: nat, a: ControlStep)
    requires ControlCan(s, j, a)
    ensures Grows(s, ControlDo(s, j, a))
  {
    if a.Begins? {
      BeginsGrows(s, j);
    } else if a.Answers? {
      AnswersGrows(s, j);
    } else {
      assert ControlDo(s, j, a).host.jobs == s.host.jobs;
    }
  }

  lemma OneJobGrows(s: State, t: State, j: nat, job: Job)
    requires j < |s.host.jobs| && t.host.jobs == s.host.jobs[j := job] && SameRequest(s.host.jobs[j], job)
    requires s.host.jobs[j].Done() ==> job.response == s.host.jobs[j].response
    requires t.starts == s.starts && t.calls == s.calls && t.msgs == s.msgs
    ensures Grows(s, t)
  {
  }

  lemma BeginsGrows(s: State, j: nat)
    requires ControlCan(s, j, Begins)
    ensures Grows(s, ControlDo(s, j, Begins))
  {
    hide Grows;
    var t, job, pc := ControlDo(s, j, Begins), s.host.jobs[j], s.host.controls[j];
    if pc.remaining <= 0 {
      OneJobGrows(s, t, j, job.Expire());
    } else if job.Done() {
      OneJobGrows(s, t, j, job);
    } else {
      OneJobGrows(s, t, j, job.(state := Dispatched));
    }
  }

  lemma AnswersGrows(s: State, j: nat)
    requires ControlCan(s, j, Answers)
    ensures Grows(s, ControlDo(s, j, Answers))
  {
    hide Grows;
    OneJobGrows(s, ControlDo(s, j, Answers), j, s.host.jobs[j].Complete(s.host.controls[j].answer));
  }

  lemma ServiceGrows(s: State, a: ServiceStep)
    requires ServiceCan(s, a)
    ensures Grows(s, ServiceDo(s, a))
  {
  }

  lemma CallStepGrows(s: State, c: nat, a: CallStep)
    requires CallCan(s, c, a)
    ensures Grows(s, CallDo(s, c, a))
  {
    hide Thin, Open;
    var t := CallDo(s, c, a);
    CallChangesOne(s, c, a);
    if a.GiveUp? {
      var j := s.calls[c].pc.job;
      assert t.host.jobs == s.host.jobs[j := s.host.jobs[j].Expire()];
    } else {
      assert s.host.jobs <= t.host.jobs;
    }
  }

  lemma CallChangesOne(s: State, c: nat, a: CallStep)
    requires CallCan(s, c, a)
    ensures var t := CallDo(s, c, a);
      && |t.calls| == |s.calls| && t.calls == s.calls[c := t.calls[c]] && CallGrows(s.calls[c], t.calls[c])
      && Stage(s.calls[c].pc) < Stage(t.calls[c].pc)
      && t.msgs == s.msgs && t.starts == s.starts
  {
    hide Thin, Open;
  }

  lemma {:induction false} RunGrows(trace: seq<State>, i: nat, k: nat)
    requires Run(trace) && i <= k < |trace|
    ensures Grows(trace[i], trace[k])
    decreases k
  {
    hide Grows, Can, Do;
    if i == k {
      GrowsNot(trace[i]);
    } else {
      RunGrows(trace, i, k - 1);
      assert Follows(trace[k - 1], trace[k - 1 + 1]);
      var step :| Can(trace[k - 1], step) && trace[k] == Do(trace[k - 1], step);
      StepGrows(trace[k - 1], step);
      GrowsChains(trace[i], trace[k - 1], trace[k]);
    }
  }

  lemma GrowsNot(s: State)
    ensures Grows(s, s)
  {
  }

  lemma GrowsChains(s: State, t: State, u: State)
    requires Grows(s, t) && Grows(t, u)
    ensures Grows(s, u)
  {
    forall j | 0 <= j < |s.host.jobs|
      ensures SameRequest(s.host.jobs[j], u.host.jobs[j])
      ensures s.host.jobs[j].Done() ==> u.host.jobs[j].response == s.host.jobs[j].response
    {
      assert SameRequest(t.host.jobs[j], u.host.jobs[j]);
    }
    forall m | 0 <= m < |s.msgs|
      ensures u.msgs[m] == s.msgs[m].(phase := u.msgs[m].phase)
    {
      assert u.msgs[m] == t.msgs[m].(phase := u.msgs[m].phase);
    }
  }

  // ---- Executions -------------------------------------------------------------------

  /** However submits, expiries, reloads, listener restarts and lost replies interleave, no
      accepted job starts executing in Unity twice. */
  lemma AtMostOnce(trace: seq<State>, k: nat, a: nat, b: nat)
    requires Run(trace) && k < |trace| && a < b < |trace[k].starts|
    ensures trace[k].starts[a].job != trace[k].starts[b].job
  {
    RunKeeps(trace, k);
    var s := trace[k];
    assert StartOk(s, a) && StartOk(s, b);
  }

  /** At the instant a command starts, its caller's deadline has not passed, the domain and the
      references are those it was prepared against, and the listener that accepted it is the one
      still running. */
  lemma ExecutionsAreCurrent(trace: seq<State>, k: nat, n: nat)
    requires Run(trace) && k < |trace| && n < |trace[k].starts|
    ensures var s := trace[k]; var r := s.starts[n];
      && r.job < |s.host.jobs| && r.time < s.host.jobs[r.job].deadline
      && r.msg < |s.msgs| && s.msgs[r.msg].job == r.job
      && (!s.host.jobs[r.job].control ==> s.msgs[r.msg].context == Some(Context(r.domain, r.generation)))
      && r.listener == Some(r.epoch)
      && (!s.host.jobs[r.job].control ==> r.listening)
  {
    RunKeeps(trace, k);
    var s := trace[k];
    assert StartOk(s, n) && MsgOk(s, s.starts[n].msg);
  }

  /** The step that adds to the log records Unity as it is at that step. */
  lemma StartsRecordTheInstant(s: State, step: Step)
    requires Inv(s) && Can(s, step) && |Do(s, step).starts| > |s.starts|
    ensures var t := Do(s, step); var r := t.starts[|s.starts|];
      && |t.starts| == |s.starts| + 1
      && r.time == s.unix && r.domain == s.unity.domain && r.generation == s.unity.generation
      && r.listener == s.unity.listener && r.listening == s.unity.listening
      && r.msg < |s.msgs| && r.job == s.msgs[r.msg].job
      && r.epoch !in s.unity.cancelled
      && (!s.msgs[r.msg].control ==> s.unity.lock == Held(r.msg) && s.unity.IsRunning() && s.unity.ready)
  {
    OnlyMessagesStart(s, step);
    assert MsgOk(s, step.m) && LockOk(s);
    hide Inv, Advances;
  }

  lemma OnlyMessagesStart(s: State, step: Step)
    requires Can(s, step)
    ensures Do(s, step).starts == s.starts || step.MessageActs?
  {
    hide EditorDo, MessageDo, WorkerDo, ControlDo;
    match step
    case EditorActs(a) => EditorAdvances(s, a);
    case WorkerActs(w, a) => WorkerGrows(s, w, a);
    case ControlActs(j, a) => ControlAdds(s, j, a);
    case _ =>
  }

  /** A second POST is made only after a reply proved the first never started; and while a POST
      may have started, or may yet, its job can be answered in no way that denies it. */
  lemma LostRepliesStayUnknown(trace: seq<State>, k: nat, m: nat)
    requires Run(trace) && k < |trace| && m < |trace[k].msgs| && !trace[k].msgs[m].phase.Rejected?
    ensures var s := trace[k]; var j := s.msgs[m].job;
      && (forall n | m < n < |s.msgs| :: s.msgs[n].job != j)
      && j < |s.host.jobs|
      && s.host.jobs[j].state != Queued
      && (s.host.jobs[j].Done() ==> s.host.jobs[j].response.value == Unknown || s.host.jobs[j].response.value.Ran?)
  {
    RunKeeps(trace, k);
    var s := trace[k];
    assert MsgOk(s, m) && JobOk(s, s.msgs[m].job);
  }

  // ---- Order and threads ------------------------------------------------------------

  /** Ordinary commands are posted in the order they were accepted, at most twice each, one at a
      time; the retry of a command comes before the next command. */
  lemma PostedInOrder(trace: seq<State>, k: nat, m: nat, n: nat)
    requires Run(trace) && k < |trace| && m < n < |trace[k].msgs|
    requires !trace[k].msgs[m].control && !trace[k].msgs[n].control
    ensures trace[k].msgs[m].job <= trace[k].msgs[n].job
  {
    RunKeeps(trace, k);
  }

  lemma OneWorker(trace: seq<State>, k: nat)
    requires Run(trace) && k < |trace|
    ensures forall w, v | w in trace[k].host.workers && v in trace[k].host.workers :: w == v
    ensures trace[k].host.pending != [] && !trace[k].host.stopping ==> trace[k].host.workers != map[]
  {
    RunKeeps(trace, k);
  }

  /** Of the ordinary commands Unity has let past its execution lock, at most one is unfinished. */
  lemma ExecutionsAreSerial(trace: seq<State>, k: nat, m: nat, n: nat)
    requires Run(trace) && k < |trace| && m < |trace[k].msgs| && n < |trace[k].msgs|
    requires Executing(trace[k].msgs[m]) && Executing(trace[k].msgs[n])
    ensures m == n
  {
    RunKeeps(trace, k);
  }

  // ---- The table of requests --------------------------------------------------------

  /** At every moment of every run at most 256 jobs are unfinished; none of them has been
      forgotten, and no two remembered jobs share a request id. */
  lemma UnfinishedAreRemembered(trace: seq<State>, k: nat)
    requires Run(trace) && k < |trace|
    ensures |Unfinished(trace[k])| <= 256
    ensures forall j | j in Unfinished(trace[k]) :: j in trace[k].host.table
    ensures forall i, j | i in trace[k].host.table && j in trace[k].host.table ::
      && i < |trace[k].host.jobs| && j < |trace[k].host.jobs|
      && (trace[k].host.jobs[i].id == trace[k].host.jobs[j].id ==> i == j)
  {
    RunKeeps(trace, k);
  }

  lemma ControlAdds(s: State, j: nat, a: ControlStep)
    requires ControlCan(s, j, a)
    ensures |ControlDo(s, j, a).host.jobs| == |s.host.jobs|
    ensures ControlDo(s, j, a).starts == s.starts && ControlDo(s, j, a).calls == s.calls
  {
    ControlLeavesCalls(s, j, a);
  }

  lemma ControlLeavesCalls(s: State, j: nat, a: ControlStep)
    requires ControlCan(s, j, a)
    ensures ControlDo(s, j, a).calls == s.calls
  {
  }
}
