/** Every answer, traced to its origin: the reply of the POST it reports, a reply that was lost, time
    that ran out, or a refusal that was true when it was made. */
module HostOrigins {
  import opened Wrappers
  import opened HostQueue
  import opened HostProtocol
  import opened HostInvariant
  import opened HostSteps
  import opened HostTheorems
  import opened HostCallers
  import opened HostAnswers

  // ---- Where an answer comes from ---------------------------------------------------

  /** Why a job was answered as it was, and the state in which that was decided. */
  datatype Origin =
    | Heard(at: nat, msg: nat)
    | LostReply(at: nat, msg: nat)
    | OutOfTime(at: nat)
    | Thrown(at: nat)
    | Stale(at: nat)
    | Uncompiled
    | EditorGone(at: nat)
    | HostStopped(at: nat)

  /** The job's time is up, the host is stopping, or a submission has waited on it as long as it may. */
  ghost predicate NoTimeLeft(s: State, j: nat) {
    || (j < |s.host.jobs| && s.host.jobs[j].hostDeadline <= s.clock)
    || s.host.stopping
    || exists c | 0 <= c < |s.calls| :: s.calls[c].pc.Joined? && s.calls[c].pc.job == j && s.calls[c].pc.until <= s.clock
  }

  /** The answer is the one its origin calls for; `last` is the state before it was written. */
  ghost predicate Accounts(trace: seq<State>, last: nat, j: nat, answer: Response, origin: Origin)
    requires last < |trace| && j < |trace[last].host.jobs|
  {
    var dispatched := trace[last].host.jobs[j].state == Dispatched;
    match origin
    case Heard(q, m) =>
      q < last && m < |trace[q].msgs| && trace[q].msgs[m].job == j && Says(trace[q].msgs[m].phase, answer)
    case LostReply(q, m) => q < last && m < |trace[q].msgs| && trace[q].msgs[m].job == j && answer == Unknown
    case OutOfTime(q) =>
      q <= last && NoTimeLeft(trace[q], j) && answer == if dispatched then Unknown else NotStarted(Expired)
    case Thrown(q) =>
      && q < last && j < |trace[q].host.jobs|
      && answer == if trace[q].host.jobs[j].state == Dispatched then Unknown else NotStarted(HostError)
    case Stale(q) =>
      && q < last && answer == NotStarted(StaleDomain)
      && exists w, context | IsAt(trace[q], w, Checking(j, 1, context)) ::
           var h := trace[q].host;
           h.contextKey != Some(h.snapshot.Key()) || context != Context(h.snapshot.domain, h.snapshot.generation)
    case Uncompiled => answer == NotStarted(CompilerRefused) && trace[last].host.jobs[j].compiled
    case EditorGone(q) => q == last && answer == NotStarted(EditorUnavailable) && !trace[q].host.alive
    case HostStopped(q) =>
      q == last && answer == NotStarted(HostStopping) && trace[q].host.stopping && j in trace[q].host.pending
  }

  // ---- The step that answers --------------------------------------------------------

  /** What may answer job `j`. */
  ghost predicate MayAnswer(s: State, step: Step, j: nat, answer: Response) {
    match step
    case WorkerActs(w, a) =>
      && w in s.host.workers
      && (var pc := s.host.workers[w];
          match a
          case Wait =>
            pc.Waiting? && pc.job == j && !s.host.alive && answer == NotStarted(EditorUnavailable)
          case Expire =>
            pc == Expiring(j) && j < |s.host.jobs|
            && answer == if s.host.jobs[j].state == Dispatched then Unknown else NotStarted(Expired)
          case Complete => pc == Answering(j, answer)
          case _ => false)
    case ControlActs(i, a) =>
      && i == j && j in s.host.controls
      && (var pc := s.host.controls[j];
          match a
          case Begins =>
            pc.Measured? && pc.remaining <= 0 && j < |s.host.jobs|
            && answer == if s.host.jobs[j].state == Dispatched then Unknown else NotStarted(Expired)
          case Answers => pc == Done(answer)
          case _ => false)
    case ServiceActs(a) => a.StopPending? && s.host.stopping && j in s.host.pending && answer == NotStarted(HostStopping)
    case CallActs(c, a) =>
      && a.GiveUp? && c < |s.calls| && s.calls[c].pc.Joined? && s.calls[c].pc.job == j && s.calls[c].pc.until <= s.clock
      && j < |s.host.jobs| && answer == if s.host.jobs[j].state == Dispatched then Unknown else NotStarted(Expired)
    case _ => false
  }

  lemma WorkerWrites(s: State, w: nat, a: WorkerStep)
    requires WorkerCan(s, w, a)
    ensures Writes(a) || WorkerDo(s, w, a).host.jobs == s.host.jobs
  {
    hide Trim, AnswerOf, Retryable;
  }

  lemma ControlWrites(s: State, i: nat, a: ControlStep)
    requires ControlCan(s, i, a)
    ensures var jobs, pc := ControlDo(s, i, a).host.jobs, s.host.controls[i];
      if a.Answers? then jobs == s.host.jobs[i := s.host.jobs[i].Complete(pc.answer)]
      else if a.Begins? && pc.remaining <= 0 then jobs == s.host.jobs[i := s.host.jobs[i].Expire()]
      else |jobs| == |s.host.jobs| && forall k | 0 <= k < |jobs| :: jobs[k].response == s.host.jobs[k].response
  {
    hide AnswerOf, Job.Complete, Job.Expire;
    match a
    case ReadSnapshot =>
    case Begins =>
    case Sends =>
    case Hears =>
    case Loses =>
    case Answers =>
    case Dies =>
  }

  lemma CallWrites(s: State, c: nat, a: CallStep)
    requires CallCan(s, c, a)
    ensures a.GiveUp? || s.host.jobs <= CallDo(s, c, a).host.jobs
  {
    hide Thin, Open, Retained;
  }

  lemma WaitAnswers(s: State, w: nat, j: nat, answer: Response)
    requires WorkerCan(s, w, Wait) && Unanswered(s, j) && HasAnswer(WorkerDo(s, w, Wait), j, answer)
    ensures MayAnswer(s, WorkerActs(w, Wait), j, answer)
  {
  }

  lemma EndingAnswers(s: State, w: nat, a: WorkerStep, j: nat, answer: Response)
    requires WorkerCan(s, w, a) && (a.Expire? || a.Complete?)
    requires Unanswered(s, j) && HasAnswer(WorkerDo(s, w, a), j, answer)
    ensures MayAnswer(s, WorkerActs(w, a), j, answer)
  {
  }

  lemma DispatchAnswersNone(s: State, w: nat)
    requires WorkerCan(s, w, Dispatch)
    ensures var j, was, now := s.host.workers[w].job, s.host.jobs, WorkerDo(s, w, Dispatch).host.jobs;
      now == was || now == was[j := was[j].(state := Dispatched)]
  {
  }

  lemma SettleAnswersNone(s: State, w: nat)
    requires WorkerCan(s, w, Settle)
    ensures var j, was, now := s.host.workers[w].job, s.host.jobs, WorkerDo(s, w, Settle).host.jobs;
      now == was || now == was[j := was[j].(state := Queued)]
  {
    hide Retryable;
  }

  lemma WorkerAnswers(s: State, w: nat, a: WorkerStep, j: nat, answer: Response)
    requires WorkerCan(s, w, a) && Unanswered(s, j) && HasAnswer(WorkerDo(s, w, a), j, answer)
    ensures MayAnswer(s, WorkerActs(w, a), j, answer)
  {
    WorkerWrites(s, w, a);
    if a.Wait? {
      WaitAnswers(s, w, j, answer);
    } else if a.Expire? || a.Complete? {
      EndingAnswers(s, w, a, j, answer);
    } else if a.Dispatch? {
      DispatchAnswersNone(s, w);
    } else if a.Settle? {
      SettleAnswersNone(s, w);
    }
    hide WorkerDo, MayAnswer;
  }

  lemma ControlAnswers(s: State, i: nat, a: ControlStep, j: nat, answer: Response)
    requires ControlCan(s, i, a) && Unanswered(s, j) && HasAnswer(ControlDo(s, i, a), j, answer)
    ensures MayAnswer(s, ControlActs(i, a), j, answer)
  {
    ControlWrites(s, i, a);
    hide ControlDo;
  }

  lemma CallAnswers(s: State, c: nat, a: CallStep, j: nat, answer: Response)
    requires CallCan(s, c, a) && Unanswered(s, j) && HasAnswer(CallDo(s, c, a), j, answer)
    ensures MayAnswer(s, CallActs(c, a), j, answer)
  {
    hide Thin, Open, Retained, Admission;
    CallWrites(s, c, a);
  }

  lemma StepAnswers(s: State, step: Step, j: nat, answer: Response)
    requires Can(s, step) && Unanswered(s, j) && HasAnswer(Do(s, step), j, answer)
    ensures MayAnswer(s, step, j, answer)
  {
    hide EditorDo, MessageDo, WorkerDo, ControlDo, CallDo, MayAnswer;
    match step
    case EditorActs(a) => EditorAdvances(s, a);
    case MessageActs(m, a) => MessageAdvances(s, m, a);
    case WorkerActs(w, a) => WorkerAnswers(s, w, a, j, answer);
    case ControlActs(i, a) => ControlAnswers(s, i, a, j, answer);
    case ServiceActs(a) => ServiceAnswers(s, a, j, answer);
    case CallActs(c, a) => CallAnswers(s, c, a, j, answer);
    case _ =>
  }

  lemma ServiceAnswers(s: State, a: ServiceStep, j: nat, answer: Response)
    requires ServiceCan(s, a) && Unanswered(s, j) && HasAnswer(ServiceDo(s, a), j, answer)
    ensures MayAnswer(s, ServiceActs(a), j, answer)
  {
  }

  lemma {:induction false} AnsweredAt(trace: seq<State>, k: nat, j: nat, answer: Response) returns (i: nat, step: Step)
    requires Run(trace) && k < |trace| && HasAnswer(trace[k], j, answer)
    ensures i < k && Can(trace[i], step) && trace[i + 1] == Do(trace[i], step)
    ensures Unanswered(trace[i], j) && HasAnswer(trace[i + 1], j, answer)
  {
    hide Can, Do, Grows;
    step := Tick(0, 0);
    if k > 0 {
      var s := trace[k - 1];
      assert Follows(s, trace[k - 1 + 1]);
      step :| Can(s, step) && trace[k] == Do(s, step);
      i := k - 1;
      JobsGrowByOne(s, step);
      if j < |s.host.jobs| && s.host.jobs[j].response.Some? {
        StepGrows(s, step);
        StaysAnswered(s, trace[k], j);
        i, step := AnsweredAt(trace, k - 1, j, answer);
      }
    }
  }

  lemma StaysAnswered(s: State, t: State, j: nat)
    requires Grows(s, t) && j < |s.host.jobs| && s.host.jobs[j].response.Some?
    ensures j < |t.host.jobs| && t.host.jobs[j].response == s.host.jobs[j].response
  {
  }

  // ---- One step back ----------------------------------------------------------------

  /** Which steps lead where. */
  predicate LeadsTo(a: WorkerStep, pc: Pc) {
    && (pc.Armed? ==> a.Measure?)
    && (pc.Sending? ==> a.Dispatch?)
    && (pc.Compiling? ==> a.Wait?)
    && (pc.Checking? ==> a.Wait? || a.CompileOk?)
    && (pc.Checked? ==> a.Check?)
    && (pc.Replied? ==> a.Receive?)
    && (pc.Expiring? ==> a.Wait? || a.Dispatch?)
    && (pc.Answering? ==> a.CompileRefused? || a.Check? || a.Lose? || a.Settle? || a.ReadState?)
  }

  lemma WaitLeads(s: State, w: nat)
    requires WorkerCan(s, w, Wait) && w in WorkerDo(s, w, Wait).host.workers
    ensures LeadsTo(Wait, WorkerDo(s, w, Wait).host.workers[w])
  {
  }

  lemma DispatchLeads(s: State, w: nat)
    requires WorkerCan(s, w, Dispatch) && w in WorkerDo(s, w, Dispatch).host.workers
    ensures var pc := WorkerDo(s, w, Dispatch).host.workers[w]; pc.Closing? || pc.Expiring? || pc.Sending?
  {
  }

  lemma SettleLeads(s: State, w: nat)
    requires WorkerCan(s, w, Settle) && w in WorkerDo(s, w, Settle).host.workers
    ensures var pc := WorkerDo(s, w, Settle).host.workers[w]; pc.Closing? || pc.Invalidating? || pc.Answering?
  {
    hide Retryable;
  }

  lemma EndingLeads(s: State, w: nat, a: WorkerStep)
    requires WorkerCan(s, w, a) && (a.Expire? || a.Complete?) && w in WorkerDo(s, w, a).host.workers
    ensures LeadsTo(a, WorkerDo(s, w, a).host.workers[w])
  {
    hide Job.Complete, Job.Expire;
  }

  lemma OtherwiseLeads(s: State, w: nat, a: WorkerStep)
    requires WorkerCan(s, w, a) && !Writes(a) && w in WorkerDo(s, w, a).host.workers
    ensures LeadsTo(a, WorkerDo(s, w, a).host.workers[w])
  {
    hide Trim, AnswerOf;
    match a
    case Pop =>
    case ExitStopping =>
    case ExitDead =>
    case BeginJob =>
    case CompileOk =>
    case CompileStale =>
    case CompileRefused =>
    case Check =>
    case Measure =>
    case Post =>
    case Receive =>
    case Lose =>
    case Invalidate =>
    case Throw =>
    case ReadState =>
    case Close(_) =>
  }

  lemma Leads(s: State, w: nat, a: WorkerStep)
    requires WorkerCan(s, w, a) && w in WorkerDo(s, w, a).host.workers
    ensures LeadsTo(a, WorkerDo(s, w, a).host.workers[w])
  {
    hide WorkerDo, WorkerCan;
    if a.Wait? {
      WaitLeads(s, w);
    } else if a.Dispatch? {
      DispatchLeads(s, w);
    } else if a.Settle? {
      SettleLeads(s, w);
    } else if a.Expire? || a.Complete? {
      EndingLeads(s, w, a);
    } else {
      OtherwiseLeads(s, w, a);
    }
  }

  lemma WaitExpires(s: State, w: nat, j: nat)
    requires WorkerCan(s, w, Wait) && IsAt(WorkerDo(s, w, Wait), w, Expiring(j))
    ensures j < |s.host.jobs| && (NoTimeLeft(s, j) || !Unanswered(WorkerDo(s, w, Wait), j))
  {
  }

  lemma BeforeExpiring(s: State, w: nat, a: WorkerStep, j: nat)
    requires WorkerCan(s, w, a) && IsAt(WorkerDo(s, w, a), w, Expiring(j))
    ensures j < |s.host.jobs|
    ensures || (a.Wait? && (NoTimeLeft(s, j) || !Unanswered(WorkerDo(s, w, a), j)))
            || (a.Dispatch? && s.host.workers[w].Armed? && s.host.workers[w].job == j && s.host.workers[w].remaining <= 0)
  {
    Leads(s, w, a);
    if a.Wait? { WaitExpires(s, w, j); } else { assert a == Dispatch; }
    hide Trim, AnswerOf, Retryable;
  }

  lemma BeforeArmed(s: State, w: nat, a: WorkerStep, pc: Pc)
    requires WorkerCan(s, w, a) && IsAt(WorkerDo(s, w, a), w, pc) && pc.Armed?
    ensures pc.job < |s.host.jobs| && pc.remaining == s.host.jobs[pc.job].hostDeadline - s.clock
  {
    Leads(s, w, a);
    assert a == Measure;
    assert WorkerDo(s, w, Measure).host.workers[w]
        == Armed(s.host.workers[w].job, s.host.workers[w].attempt, s.host.workers[w].context, s.host.workers[w].snapshot,
                 s.host.jobs[s.host.workers[w].job].hostDeadline - s.clock);
    hide WorkerDo;
  }

  lemma BeforeCompiling(s: State, w: nat, a: WorkerStep, pc: Pc)
    requires WorkerCan(s, w, a) && IsAt(WorkerDo(s, w, a), w, pc) && pc.Compiling?
    ensures pc.job < |s.host.jobs| && s.host.jobs[pc.job].compiled
  {
    Leads(s, w, a);
    assert a == Wait;
  }

  lemma BeforeReplied(s: State, w: nat, a: WorkerStep, pc: Pc)
    requires Inv(s) && WorkerCan(s, w, a) && IsAt(WorkerDo(s, w, a), w, pc) && pc.Replied?
    ensures a.Receive? && s.host.workers[w].Awaiting?
    ensures var m := s.host.workers[w].msg;
      m < |s.msgs| && s.msgs[m].job == pc.job && Says(s.msgs[m].phase, pc.answer)
  {
    assert PcOk(s, s.host.workers[w]);
    Leads(s, w, a);
    assert a == Receive;
    hide Inv, PcOk;
    ReceivesReply(s, w);
    hide WorkerDo;
  }

  lemma ReceivesReply(s: State, w: nat)
    requires WorkerCan(s, w, Receive)
    ensures var pc, now := s.host.workers[w], WorkerDo(s, w, Receive).host.workers;
      w in now && now[w].Replied? && now[w].job == pc.job && Says(s.msgs[pc.msg].phase, now[w].answer)
  {
  }

  lemma AnswersRefused(s: State, w: nat)
    requires WorkerCan(s, w, CompileRefused)
    ensures IsAt(WorkerDo(s, w, CompileRefused), w, Answering(s.host.workers[w].job, NotStarted(CompilerRefused)))
  {
  }

  lemma AnswersStale(s: State, w: nat)
    requires WorkerCan(s, w, Check)
    ensures var pc, h, now := s.host.workers[w], s.host, WorkerDo(s, w, Check).host.workers;
      && w in now
      && (now[w].Answering? ==>
            && now[w] == Answering(pc.job, NotStarted(StaleDomain)) && pc.attempt != 0
            && (h.contextKey != Some(h.snapshot.Key()) || pc.context != Context(h.snapshot.domain, h.snapshot.generation)))
  {
  }

  lemma AnswersLost(s: State, w: nat)
    requires WorkerCan(s, w, Lose)
    ensures IsAt(WorkerDo(s, w, Lose), w, Answering(s.host.workers[w].job, Unknown))
  {
  }

  lemma AnswersReply(s: State, w: nat)
    requires WorkerCan(s, w, Settle)
    ensures var pc, now := s.host.workers[w], WorkerDo(s, w, Settle).host.workers;
      w in now && (now[w].Answering? ==> now[w] == Answering(pc.job, pc.answer))
  {
  }

  lemma AnswersThrown(s: State, w: nat)
    requires WorkerCan(s, w, ReadState)
    ensures var j := s.host.workers[w].job;
      IsAt(WorkerDo(s, w, ReadState), w,
           Answering(j, if s.host.jobs[j].state == Dispatched then Unknown else NotStarted(HostError)))
  {
  }

  /** The five ways a worker comes to have an answer to give. */
  lemma BeforeAnswering(s: State, w: nat, a: WorkerStep, j: nat, answer: Response)
    requires Inv(s) && WorkerCan(s, w, a) && IsAt(WorkerDo(s, w, a), w, Answering(j, answer))
    ensures j < |s.host.jobs|
    ensures var pc, h := s.host.workers[w], s.host;
      match a
      case CompileRefused => pc.Compiling? && pc.job == j && answer == NotStarted(CompilerRefused)
      case Check =>
        && pc.Checking? && pc == Checking(j, 1, pc.context) && answer == NotStarted(StaleDomain)
        && (h.contextKey != Some(h.snapshot.Key()) || pc.context != Context(h.snapshot.domain, h.snapshot.generation))
      case Lose => pc.Awaiting? && pc.msg < |s.msgs| && s.msgs[pc.msg].job == j && answer == Unknown
      case Settle => pc.Replied? && pc.job == j && pc.answer == answer
      case ReadState =>
        pc == Failed(j) && answer == if h.jobs[j].state == Dispatched then Unknown else NotStarted(HostError)
      case _ => false
  {
    assert PcOk(s, s.host.workers[w]);
    Leads(s, w, a);
    hide Inv, PcOk;
    match a {
      case CompileRefused => AnswersRefused(s, w);
      case Check => AnswersStale(s, w);
      case Lose => AnswersLost(s, w);
      case Settle => AnswersReply(s, w);
      case ReadState => AnswersThrown(s, w);
      case _ =>
    }
    hide WorkerDo;
  }

  lemma BeforeMeasured(s: State, j: nat, a: ControlStep, pc: ControlPc)
    requires ControlCan(s, j, a) && Queries(ControlDo(s, j, a), j, pc) && pc.Measured?
    ensures j < |s.host.jobs| && pc.remaining == s.host.jobs[j].hostDeadline - s.clock
  {
  }

  lemma BeforeDone(s: State, j: nat, a: ControlStep, answer: Response)
    requires Inv(s) && ControlCan(s, j, a) && Queries(ControlDo(s, j, a), j, Done(answer))
    ensures s.host.controls[j].Pending?
    ensures var m := s.host.controls[j].msg;
      m < |s.msgs| && s.msgs[m].job == j && ((a.Hears? && Says(s.msgs[m].phase, answer)) || (a.Loses? && answer == Unknown))
  {
    assert ControlOk(s, j, s.host.controls[j]);
    hide Inv;
  }

  // ---- Every answer -----------------------------------------------------------------

  lemma StayedUnanswered(trace: seq<State>, q: nat, i: nat, j: nat)
    requires Run(trace) && q <= i < |trace| && j < |trace[q].host.jobs| && Unanswered(trace[i], j)
    ensures Unanswered(trace[q], j)
  {
    RunGrows(trace, q, i);
  }

  lemma ExpiredByWorker(trace: seq<State>, i: nat, w: nat, j: nat) returns (q: nat)
    requires Run(trace) && i < |trace| && IsAt(trace[i], w, Expiring(j)) && Unanswered(trace[i], j)
    ensures q <= i && NoTimeLeft(trace[q], j)
  {
    hide WorkerDo, Grows, Inv, NoTimeLeft;
    var r, a := LastWork(trace, i, w);
    BeforeExpiring(trace[r], w, a, j);
    if a.Wait? {
      q := r;
      RunGrows(trace, r, r + 1);
      JobsStay(trace[r], trace[r + 1], j);
      StayedUnanswered(trace, r + 1, i, j);
    } else {
      var pc := trace[r].host.workers[w];
      var b;
      q, b := LastWork(trace, r, w);
      BeforeArmed(trace[q], w, b, pc);
      OutOfBudget(trace[q], j);
    }
  }

  lemma JobsStay(s: State, t: State, j: nat)
    requires Grows(s, t) && j < |s.host.jobs|
    ensures j < |t.host.jobs| && SameRequest(s.host.jobs[j], t.host.jobs[j])
  {
  }

  lemma OutOfBudget(s: State, j: nat)
    requires j < |s.host.jobs| && s.host.jobs[j].hostDeadline - s.clock <= 0
    ensures NoTimeLeft(s, j)
  {
  }

  lemma AnsweredByWorker(trace: seq<State>, i: nat, w: nat, j: nat, answer: Response) returns (origin: Origin)
    requires Run(trace) && i < |trace| && IsAt(trace[i], w, Answering(j, answer)) && Unanswered(trace[i], j)
    ensures Accounts(trace, i, j, answer, origin)
  {
    hide WorkerDo, Inv, NoTimeLeft, Grows;
    var r, a := LastWork(trace, i, w);
    RunKeeps(trace, r);
    BeforeAnswering(trace[r], w, a, j, answer);
    var pc := trace[r].host.workers[w];
    if a.CompileRefused? {
      origin := Uncompiled;
      var q, b := LastWork(trace, r, w);
      BeforeCompiling(trace[q], w, b, pc);
      RunGrows(trace, q, i);
      JobsStay(trace[q], trace[i], j);
    } else if a.Check? {
      origin := Stale(r);
      assert IsAt(trace[r], w, Checking(j, 1, pc.context));
    } else if a.Lose? {
      origin := LostReply(r, pc.msg);
    } else if a.Settle? {
      var q, b := LastWork(trace, r, w);
      RunKeeps(trace, q);
      BeforeReplied(trace[q], w, b, pc);
      origin := Heard(q, trace[q].host.workers[w].msg);
    } else {
      origin := Thrown(r);
    }
  }

  lemma AnsweredByQuery(trace: seq<State>, i: nat, j: nat, answer: Response) returns (origin: Origin)
    requires Run(trace) && i < |trace| && Queries(trace[i], j, Done(answer)) && Unanswered(trace[i], j)
    ensures Accounts(trace, i, j, answer, origin)
  {
    hide ControlDo, Inv, NoTimeLeft, Grows;
    var q, a := LastQueryStep(trace, i, j);
    RunKeeps(trace, q);
    BeforeDone(trace[q], j, a, answer);
    origin := if a.Hears? then Heard(q, trace[q].host.controls[j].msg) else LostReply(q, trace[q].host.controls[j].msg);
  }

  lemma ExpiredByQuery(trace: seq<State>, i: nat, j: nat) returns (q: nat)
    requires Run(trace) && i < |trace| && j in trace[i].host.controls
    requires trace[i].host.controls[j].Measured? && trace[i].host.controls[j].remaining <= 0
    ensures q <= i && NoTimeLeft(trace[q], j)
  {
    hide ControlDo, NoTimeLeft;
    var a;
    q, a := LastQueryStep(trace, i, j);
    BeforeMeasured(trace[q], j, a, trace[i].host.controls[j]);
    OutOfBudget(trace[q], j);
  }

  /** Every answer a job is ever given, traced to its origin: the reply of a POST of that job, which
      is then the answer itself; a reply that was lost; a thread that threw; time that ran out; or a
      refusal of the host that was true when it was made. */
  lemma AnswersExplained(trace: seq<State>, k: nat, j: nat) returns (i: nat, origin: Origin)
    requires Run(trace) && k < |trace| && j < |trace[k].host.jobs| && trace[k].host.jobs[j].Done()
    ensures i < k && Unanswered(trace[i], j) && HasAnswer(trace[i + 1], j, trace[k].host.jobs[j].response.value)
    ensures Accounts(trace, i, j, trace[k].host.jobs[j].response.value, origin)
  {
    var answer := trace[k].host.jobs[j].response.value;
    var step;
    i, step := AnsweredAt(trace, k, j, answer);
    StepAnswers(trace[i], step, j, answer);
    hide Can, Do, Run;
    match step
    case WorkerActs(w, a) =>
      if a.Complete? {
        origin := AnsweredByWorker(trace, i, w, j, answer);
      } else if a.Expire? {
        var q := ExpiredByWorker(trace, i, w, j);
        origin := OutOfTime(q);
      } else {
        origin := EditorGone(i);
      }
    case ControlActs(_, a) =>
      if a.Answers? {
        origin := AnsweredByQuery(trace, i, j, answer);
      } else {
        var q := ExpiredByQuery(trace, i, j);
        origin := OutOfTime(q);
      }
    case ServiceActs(_) => origin := HostStopped(i);
    case _ => origin := OutOfTime(i);
  }

  /** So a job is answered `unknown` only when a reply was lost, a thread threw, or time ran out
      with the command already dispatched; and a tool's own answer only as its POST brought it. */
  lemma UnknownMeans(trace: seq<State>, k: nat, j: nat) returns (i: nat, origin: Origin)
    requires Run(trace) && k < |trace| && j < |trace[k].host.jobs| && trace[k].host.jobs[j].Done()
    ensures i < k && Unanswered(trace[i], j)
    ensures trace[k].host.jobs[j].response == Some(Unknown) ==>
      origin.LostReply? || origin.Thrown? || (origin.OutOfTime? && trace[i].host.jobs[j].state == Dispatched)
    ensures trace[k].host.jobs[j].response.value.Ran? ==>
      origin.Heard? && origin.at < k && origin.msg < |trace[origin.at].msgs|
      && trace[origin.at].msgs[origin.msg].phase == Finished(trace[k].host.jobs[j].response.value.execution)
  {
    i, origin := AnswersExplained(trace, k, j);
    hide Run;
  }
}
