/** One retry: no command is posted to Unity more than twice, no live query more than once. */
module HostAttempts {
  import opened Wrappers
  import opened HostQueue
  import opened HostProtocol
  import opened HostInvariant
  import opened HostSteps
  import opened HostTheorems

  /** How often a job has been posted. */
  ghost function Posts(msgs: seq<Msg>, j: nat): nat {
    if msgs == [] then 0 else Posts(msgs[..|msgs| - 1], j) + if msgs[|msgs| - 1].job == j then 1 else 0
  }

  ghost predicate SameJobs(a: seq<Msg>, b: seq<Msg>) {
    |a| == |b| && forall m | 0 <= m < |a| :: a[m].job == b[m].job
  }

  lemma {:induction false} SamePosts(a: seq<Msg>, b: seq<Msg>, j: nat)
    requires SameJobs(a, b)
    ensures Posts(a, j) == Posts(b, j)
  {
    if a != [] {
      SamePosts(a[..|a| - 1], b[..|b| - 1], j);
    }
  }

  lemma {:induction false} NeverPosted(msgs: seq<Msg>, j: nat)
    requires forall m | 0 <= m < |msgs| :: msgs[m].job != j
    ensures Posts(msgs, j) == 0
  {
    if msgs != [] {
      NeverPosted(msgs[..|msgs| - 1], j);
    }
  }

  /** How many posts the worker may have made by the time it stands at `pc`. */
  function Allowed(pc: Pc): nat
    requires HasJob(pc)
  {
    match pc
    case Begin(_) => 0
    case Waiting(_, a) => a
    case Compiling(_, a, _) => a
    case Checking(_, a, _) => a
    case Checked(_, a, _, _) => a
    case Armed(_, a, _, _, _) => a
    case Sending(_, a, _, _, _) => a
    case Awaiting(_, a, _) => a + 1
    case Replied(_, a, _) => a + 1
    case Invalidating(_, a) => a + 1
    case Expiring(_) => 2
    case Answering(_, _) => 2
    case Failed(_) => 2
  }

  function QueryAllowed(pc: ControlPc): nat { if pc.Starting? || pc.Measured? || pc.Posting? then 0 else 1 }

  ghost predicate JobBudget(s: State, j: nat)
    requires j < |s.host.jobs|
  {
    && Posts(s.msgs, j) <= (if s.host.jobs[j].control then 1 else 2)
    && (j in s.host.pending ==> Posts(s.msgs, j) == 0)
    && (j in s.host.controls ==> Posts(s.msgs, j) <= QueryAllowed(s.host.controls[j]))
  }

  ghost predicate Budget(s: State) {
    && (forall j | 0 <= j < |s.host.jobs| :: JobBudget(s, j))
    && (forall w | w in s.host.workers && HasJob(s.host.workers[w]) ::
          Posts(s.msgs, JobOf(s.host.workers[w])) <= Allowed(s.host.workers[w]))
  }

  lemma InitBudget(s: State)
    requires Init(s)
    ensures Budget(s)
  {
  }

  // ---- Steps that post nothing ------------------------------------------------------

  ghost predicate Quiet(s: State, t: State) {
    && SameJobs(s.msgs, t.msgs) && |s.host.jobs| <= |t.host.jobs|
    && (forall j | 0 <= j < |s.host.jobs| :: t.host.jobs[j].control == s.host.jobs[j].control)
    && (forall j | j in t.host.pending :: j in s.host.pending || |s.host.jobs| <= j)
    && (forall j | j in t.host.controls :: |s.host.jobs| <= j
          || (j in s.host.controls && QueryAllowed(s.host.controls[j]) <= QueryAllowed(t.host.controls[j])))
    && (forall w | w in t.host.workers && HasJob(t.host.workers[w]) ::
          var pc := t.host.workers[w];
          || JobOf(pc) in s.host.pending
          || (w in s.host.workers && HasJob(s.host.workers[w]) && JobOf(s.host.workers[w]) == JobOf(pc)
              && (Allowed(s.host.workers[w]) <= Allowed(pc) || Allowed(pc) == 2)))
  }

  lemma QuietKeeps(s: State, t: State)
    requires Inv(s) && Budget(s) && Quiet(s, t)
    ensures Budget(t)
  {
    forall j: nat
      ensures Posts(t.msgs, j) == Posts(s.msgs, j) && (|s.host.jobs| <= j ==> Posts(s.msgs, j) == 0)
    {
      SamePosts(s.msgs, t.msgs, j);
      if |s.host.jobs| <= j {
        forall m | 0 <= m < |s.msgs|
          ensures s.msgs[m].job != j
        {
          assert MsgOk(s, m);
        }
        NeverPosted(s.msgs, j);
      }
    }
    forall j | 0 <= j < |t.host.jobs|
      ensures JobBudget(t, j)
    {
      assert j < |s.host.jobs| ==> JobBudget(s, j);
    }
    forall w | w in t.host.workers && HasJob(t.host.workers[w])
      ensures Posts(t.msgs, JobOf(t.host.workers[w])) <= Allowed(t.host.workers[w])
    {
      var j := JobOf(t.host.workers[w]);
      if j in s.host.pending {
        assert JobBudget(s, j);
      } else {
        assert PcOk(s, s.host.workers[w]);
        assert JobBudget(s, j);
      }
    }
  }

  lemma AdvanceIsQuiet(s: State, t: State)
    requires Advances(s, t)
    ensures Quiet(s, t)
  {
  }

  /** Nothing changes for the other threads, and the worker's budget for its job never shrinks. */
  ghost predicate Spends(s: State, w: nat, t: State)
    requires w in s.host.workers
  {
    && t.host.controls == s.host.controls
    && (forall j | j in t.host.pending :: j in s.host.pending)
    && t.msgs == s.msgs
    && (t.host.workers == s.host.workers - {w}
        || (w in t.host.workers && t.host.workers == s.host.workers[w := t.host.workers[w]]
            && Turn(s, s.host.workers[w], t.host.workers[w])))
  }

  ghost predicate Turn(s: State, was: Pc, now: Pc) {
    HasJob(now) ==>
      || JobOf(now) in s.host.pending
      || (HasJob(was) && JobOf(was) == JobOf(now) && (Allowed(was) <= Allowed(now) || Allowed(now) == 2))
  }

  predicate Early(a: WorkerStep) {
    a.Pop? || a.ExitStopping? || a.ExitDead? || a.BeginJob? || a.Wait? || a.Expire? || a.Close?
  }

  lemma EarlySpends(s: State, w: nat, a: WorkerStep)
    requires WorkerCan(s, w, a) && Early(a)
    ensures Spends(s, w, WorkerDo(s, w, a))
  {
    hide Trim;
  }

  lemma CompilingSpends(s: State, w: nat, a: WorkerStep)
    requires WorkerCan(s, w, a) && (a.CompileOk? || a.CompileStale? || a.CompileRefused?)
    ensures Spends(s, w, WorkerDo(s, w, a))
  {
  }

  lemma CheckingSpends(s: State, w: nat, a: WorkerStep)
    requires WorkerCan(s, w, a) && (a.Check? || a.Measure?)
    ensures Spends(s, w, WorkerDo(s, w, a))
  {
  }

  lemma TurnSpends(s: State, w: nat, t: State, now: Pc)
    requires w in s.host.workers && t.msgs == s.msgs && t.host.controls == s.host.controls
    requires t.host.pending == s.host.pending && t.host.workers == s.host.workers[w := now]
    requires Turn(s, s.host.workers[w], now)
    ensures Spends(s, w, t)
  {
  }

  lemma DispatchSpends(s: State, w: nat)
    requires WorkerCan(s, w, Dispatch)
    ensures Spends(s, w, WorkerDo(s, w, Dispatch))
  {
    hide Spends;
    var t, pc := WorkerDo(s, w, Dispatch), s.host.workers[w];
    if s.host.jobs[pc.job].Done() {
      TurnSpends(s, w, t, Closing);
    } else if pc.remaining <= 0 {
      TurnSpends(s, w, t, Expiring(pc.job));
    } else {
      TurnSpends(s, w, t, Sending(pc.job, pc.attempt, pc.context, pc.snapshot, pc.remaining));
    }
  }

  lemma ReceivingSpends(s: State, w: nat, a: WorkerStep)
    requires WorkerCan(s, w, a) && PcOk(s, s.host.workers[w]) && (a.Receive? || a.Lose? || a.Throw? || a.ReadState?)
    ensures Spends(s, w, WorkerDo(s, w, a))
  {
    hide AnswerOf, Settled, Sent, IsExecution;
  }

  lemma SettlingSpends(s: State, w: nat)
    requires WorkerCan(s, w, Settle)
    ensures Spends(s, w, WorkerDo(s, w, Settle))
  {
    hide Spends, Retryable;
    var t, pc := WorkerDo(s, w, Settle), s.host.workers[w];
    if pc.attempt == 0 && Retryable(pc.answer) {
      if s.host.jobs[pc.job].Done() {
        TurnSpends(s, w, t, Closing);
      } else {
        TurnSpends(s, w, t, Invalidating(pc.job, pc.attempt));
      }
    } else {
      TurnSpends(s, w, t, Answering(pc.job, pc.answer));
    }
  }

  lemma EndingSpends(s: State, w: nat, a: WorkerStep)
    requires WorkerCan(s, w, a) && PcOk(s, s.host.workers[w]) && (a.Invalidate? || a.Complete?)
    ensures Spends(s, w, WorkerDo(s, w, a))
  {
    hide Settled, Sent, IsExecution;
  }

  lemma SpendingIsQuiet(s: State, w: nat, t: State)
    requires w in s.host.workers && Spends(s, w, t) && Grows(s, t) && |t.host.jobs| == |s.host.jobs|
    ensures Quiet(s, t)
  {
  }

  lemma WorkerIsQuiet(s: State, w: nat, a: WorkerStep)
    requires WorkerCan(s, w, a) && !a.Post? && PcOk(s, s.host.workers[w])
    ensures Quiet(s, WorkerDo(s, w, a))
  {
    hide WorkerDo, Spends, Quiet, Grows, PcOk;
    WorkerGrows(s, w, a);
    match a {
      case CompileOk => CompilingSpends(s, w, a);
      case CompileStale => CompilingSpends(s, w, a);
      case CompileRefused => CompilingSpends(s, w, a);
      case Check => CheckingSpends(s, w, a);
      case Measure => CheckingSpends(s, w, a);
      case Dispatch => DispatchSpends(s, w);
      case Receive => ReceivingSpends(s, w, a);
      case Lose => ReceivingSpends(s, w, a);
      case Throw => ReceivingSpends(s, w, a);
      case ReadState => ReceivingSpends(s, w, a);
      case Settle => SettlingSpends(s, w);
      case Invalidate => EndingSpends(s, w, a);
      case Complete => EndingSpends(s, w, a);
      case _ => EarlySpends(s, w, a);
    }
    SpendingIsQuiet(s, w, WorkerDo(s, w, a));
  }

  /** A live query's budget never shrinks either. */
  lemma ControlSpends(s: State, j: nat, a: ControlStep)
    requires ControlCan(s, j, a) && !a.Sends?
    ensures var t := ControlDo(s, j, a);
      && t.msgs == s.msgs && t.host.workers == s.host.workers && t.host.pending == s.host.pending
      && |t.host.jobs| == |s.host.jobs|
      && (forall k | k in t.host.controls ::
            k in s.host.controls && QueryAllowed(s.host.controls[k]) <= QueryAllowed(t.host.controls[k]))
  {
    hide AnswerOf;
  }

  lemma ControlIsQuiet(s: State, j: nat, a: ControlStep)
    requires ControlCan(s, j, a) && !a.Sends?
    ensures Quiet(s, ControlDo(s, j, a))
  {
    ControlSpends(s, j, a);
    ControlGrows(s, j, a);
    hide ControlDo, ControlCan;
  }

  lemma ServiceIsQuiet(s: State, a: ServiceStep)
    requires ServiceCan(s, a)
    ensures Quiet(s, ServiceDo(s, a))
  {
    assert ServiceDo(s, a).host.workers == s.host.workers && ServiceDo(s, a).host.controls == s.host.controls;
  }

  lemma AdmissionIsQuiet(s: State, job: Job, table: seq<nat>)
    ensures Quiet(s, Admission(s, job, table))
  {
  }

  /** A submission that creates a job does so by admission; any other leaves every thread alone. */
  lemma LookupAdmits(s: State, c: nat, a: CallStep)
    requires CallCan(s, c, a) && a.Lookup?
    ensures var t, h := CallDo(s, c, a), s.host;
      if |t.host.jobs| > |h.jobs| then
        t == CallAt(Admission(s, JobFor(s.calls[c].request, s.calls[c].pc.hostDeadline), Thin([], h.table, a.evictView)),
                    c, Joined(|h.jobs|, Earlier(s.calls[c].pc.hostDeadline, s.clock + s.calls[c].pc.remaining)))
      else
        t.host.workers == h.workers && t.host.controls == h.controls && t.host.pending == h.pending
  {
    hide Thin, Open, SeenDone, Admission, Retained;
  }

  lemma OtherCallsAdmitNone(s: State, c: nat, a: CallStep)
    requires CallCan(s, c, a) && !a.Lookup?
    ensures var t, h := CallDo(s, c, a), s.host;
      && |t.host.jobs| == |h.jobs|
      && t.host.workers == h.workers && t.host.controls == h.controls && t.host.pending == h.pending
  {
  }

  lemma CallIsQuiet(s: State, c: nat, a: CallStep)
    requires CallCan(s, c, a)
    ensures Quiet(s, CallDo(s, c, a))
  {
    var t, h := CallDo(s, c, a), s.host;
    if a.Lookup? {
      LookupAdmits(s, c, a);
    } else {
      OtherCallsAdmitNone(s, c, a);
    }
    CallStepGrows(s, c, a);
    CallChangesOne(s, c, a);
    hide CallDo, CallCan, Thin;
    if |t.host.jobs| > |h.jobs| {
      AdmissionIsQuiet(s, JobFor(s.calls[c].request, s.calls[c].pc.hostDeadline), Thin([], h.table, a.evictView));
      hide Admission;
    }
  }

  // ---- Steps that post --------------------------------------------------------------

  lemma PostCounts(s: State, msg: Msg, j: nat)
    ensures Posts(Posted(s, msg).msgs, j) == Posts(s.msgs, j) + if msg.job == j then 1 else 0
  {
    assert Posted(s, msg).msgs[..|s.msgs|] == s.msgs;
  }

  lemma PostKeepsBudget(s: State, w: nat)
    requires Inv(s) && Budget(s) && WorkerCan(s, w, Post)
    ensures Budget(WorkerDo(s, w, Post))
  {
    var t, pc := WorkerDo(s, w, Post), s.host.workers[w];
    var msg := t.msgs[|s.msgs|];
    assert PcOk(s, pc) && t.msgs == Posted(s, msg).msgs;
    forall j | 0 <= j < |t.host.jobs|
      ensures JobBudget(t, j)
    {
      PostCounts(s, msg, j);
      assert JobBudget(s, j);
      assert j in s.host.controls ==> ControlOk(s, j, s.host.controls[j]);
    }
    PostCounts(s, msg, pc.job);
  }

  lemma QueryKeepsBudget(s: State, j: nat)
    requires Inv(s) && Budget(s) && ControlCan(s, j, Sends)
    ensures Budget(ControlDo(s, j, Sends))
  {
    var t := ControlDo(s, j, Sends);
    var msg := t.msgs[|s.msgs|];
    assert ControlOk(s, j, s.host.controls[j]) && t.msgs == Posted(s, msg).msgs;
    forall i | 0 <= i < |t.host.jobs|
      ensures JobBudget(t, i)
    {
      PostCounts(s, msg, i);
      assert JobBudget(s, i);
    }
    forall w | w in t.host.workers && HasJob(t.host.workers[w])
      ensures Posts(t.msgs, JobOf(t.host.workers[w])) <= Allowed(t.host.workers[w])
    {
      assert PcOk(s, s.host.workers[w]);
      PostCounts(s, msg, JobOf(t.host.workers[w]));
    }
  }

  lemma IdleIsQuiet(s: State, step: Step)
    requires Can(s, step) && (step.Tick? || step.Submits?)
    ensures Quiet(s, Do(s, step))
  {
  }

  lemma StepIsQuiet(s: State, step: Step)
    requires Inv(s) && Can(s, step)
    requires !(step.WorkerActs? && step.worker.Post?) && !(step.ControlActs? && step.query.Sends?)
    ensures Quiet(s, Do(s, step))
  {
    match step
    case EditorActs(a) => EditorAdvances(s, a); AdvanceIsQuiet(s, EditorDo(s, a));
    case MessageActs(m, a) => MessageAdvances(s, m, a); AdvanceIsQuiet(s, MessageDo(s, m, a));
    case WorkerActs(w, a) => assert PcOk(s, s.host.workers[w]); WorkerIsQuiet(s, w, a);
    case ControlActs(j, a) => ControlIsQuiet(s, j, a);
    case ServiceActs(a) => ServiceIsQuiet(s, a);
    case CallActs(c, a) => CallIsQuiet(s, c, a);
    case _ => IdleIsQuiet(s, step);
  }

  lemma StepKeepsBudget(s: State, step: Step)
    requires Inv(s) && Budget(s) && Can(s, step)
    ensures Budget(Do(s, step))
  {
    hide Inv, Budget, Quiet;
    if step.WorkerActs? && step.worker.Post? {
      PostKeepsBudget(s, step.w);
    } else if step.ControlActs? && step.query.Sends? {
      QueryKeepsBudget(s, step.j);
    } else {
      StepIsQuiet(s, step);
      QuietKeeps(s, Do(s, step));
    }
  }

  lemma {:induction false} RunKeepsBudget(trace: seq<State>, i: nat)
    requires Run(trace) && i < |trace|
    ensures Budget(trace[i])
  {
    if i == 0 {
      InitBudget(trace[0]);
    } else {
      RunKeepsBudget(trace, i - 1);
      RunKeeps(trace, i - 1);
      assert Follows(trace[i - 1], trace[i - 1 + 1]);
      var step :| Can(trace[i - 1], step) && trace[i] == Do(trace[i - 1], step);
      StepKeepsBudget(trace[i - 1], step);
    }
  }

  /** Over every run a command is posted at most twice, and a live query at most once. */
  lemma OneRetry(trace: seq<State>, k: nat, j: nat)
    requires Run(trace) && k < |trace| && j < |trace[k].host.jobs|
    ensures Posts(trace[k].msgs, j) <= if trace[k].host.jobs[j].control then 1 else 2
  {
    RunKeepsBudget(trace, k);
    assert JobBudget(trace[k], j);
  }
}
