/** A caller's deadline is turned into one by the host's clock once, before anything is waited for;
    that is the one its job, its POSTs and everybody who waits on the job are held to.  And a POST is
    made only for an Editor that was found ready, with references found current. */
module HostDeadlines {
  import opened Wrappers
  import opened HostQueue
  import opened HostProtocol
  import opened HostInvariant
  import opened HostSteps
  import opened HostTheorems
  import opened HostCallers
  import opened HostAnswers
  import opened HostOrigins

  lemma LookupEnrols(s: State, c: nat, a: CallStep)
    requires CallCan(s, c, a)
    ensures var was, now := s.host.jobs, CallDo(s, c, a).host.jobs;
      |was| < |now| ==>
        && a.Lookup? && s.calls[c].pc.Anchored? && |now| == |was| + 1
        && var r := s.calls[c].request;
           now[|was|] == Job(r.id, r.signature, r.control, r.compiled, r.deadline, s.calls[c].pc.hostDeadline, Queued, None)
  {
    hide Thin, Open, Retained;
  }

  lemma OnlyCallsEnrol(s: State, step: Step)
    requires Can(s, step)
    ensures |Do(s, step).host.jobs| <= |s.host.jobs| || step.CallActs?
  {
    hide EditorDo, MessageDo, WorkerDo, ControlDo, CallDo, Grows;
    match step
    case EditorActs(a) => EditorAdvances(s, a);
    case MessageActs(m, a) => MessageAdvances(s, m, a);
    case WorkerActs(w, a) => WorkerGrows(s, w, a);
    case ControlActs(j, a) => ControlAdds(s, j, a);
    case _ =>
  }

  /** The submission that created a job, and the state in which it did. */
  lemma {:induction false} EnrolledBy(trace: seq<State>, k: nat, j: nat) returns (l: nat, c: nat)
    requires Run(trace) && k < |trace| && j < |trace[k].host.jobs|
    ensures l < k && c < |trace[l].calls| && trace[l].calls[c].pc.Anchored? && LeavesAt(trace, l, c, 3)
    ensures var r, job := trace[l].calls[c].request, trace[k].host.jobs[j];
      && job.id == r.id && job.signature == r.signature && job.control == r.control && job.compiled == r.compiled
      && job.deadline == r.deadline && job.hostDeadline == trace[l].calls[c].pc.hostDeadline
  {
    hide Do, Can, Grows;
    if k > 0 {
      var s := trace[k - 1];
      assert Follows(s, trace[k - 1 + 1]);
      var step :| Can(s, step) && trace[k] == Do(s, step);
      if j < |s.host.jobs| {
        l, c := EnrolledBy(trace, k - 1, j);
        RunGrows(trace, k - 1, k);
        JobStays(s, trace[k], j);
      } else {
        OnlyCallsEnrol(s, step);
        l, c := k - 1, step.c;
        Enrolled(s, step, j);
      }
    }
  }

  lemma JobStays(s: State, t: State, j: nat)
    requires Grows(s, t) && j < |s.host.jobs|
    ensures j < |t.host.jobs| && SameRequest(s.host.jobs[j], t.host.jobs[j])
  {
  }

  lemma Enrolled(s: State, step: Step, j: nat)
    requires Can(s, step) && step.CallActs? && |s.host.jobs| <= j < |Do(s, step).host.jobs|
    ensures var c, t := step.c, Do(s, step);
      && c < |s.calls| && c < |t.calls| && s.calls[c].pc.Anchored?
      && Stage(s.calls[c].pc) == 3 < Stage(t.calls[c].pc) && s.calls[c].request == t.calls[c].request
      && var r := s.calls[c].request;
         t.host.jobs[j] == Job(r.id, r.signature, r.control, r.compiled, r.deadline, s.calls[c].pc.hostDeadline, Queued, None)
  {
    LookupEnrols(s, step.c, step.call);
    CallChangesOne(s, step.c, step.call);
    hide CallDo, Grows;
  }

  /** When a submission was timed and when it was anchored. */
  lemma WasAnchored(trace: seq<State>, l: nat, c: nat) returns (q: nat, n: nat)
    requires Run(trace) && l < |trace| && c < |trace[l].calls| && trace[l].calls[c].pc.Anchored?
    ensures q < n < l && LeavesAt(trace, q, c, 1) && LeavesAt(trace, n, c, 2)
    ensures var pc, r := trace[l].calls[c].pc, trace[l].calls[c].request;
      && pc.remaining == r.deadline - trace[q].unix && 0 < pc.remaining <= DAY
      && pc.hostDeadline == trace[n].clock + pc.remaining
  {
    hide CallDo, Run;
    var a, b;
    n, a := LastMove(trace, l, c);
    BeforeAnchored(trace[n], c, a);
    CallChangesOne(trace[n], c, a);
    q, b := LastMove(trace, n, c);
    BeforeTimed(trace[q], c, b);
    CallChangesOne(trace[q], c, b);
  }

  lemma BeforeAnchored(s: State, c: nat, a: CallStep)
    requires CallCan(s, c, a) && CallDo(s, c, a).calls[c].pc.Anchored?
    ensures var pc := CallDo(s, c, a).calls[c].pc;
      && s.calls[c].pc == Timed(pc.remaining) && 0 < pc.remaining <= DAY && pc.hostDeadline == s.clock + pc.remaining
  {
    hide Thin, Open, Retained, Admission;
  }

  lemma BeforeTimed(s: State, c: nat, a: CallStep)
    requires CallCan(s, c, a) && CallDo(s, c, a).calls[c].pc.Timed?
    ensures s.calls[c].pc.Entered? && CallDo(s, c, a).calls[c].pc.remaining == s.calls[c].request.deadline - s.unix
  {
    hide Thin, Open, Retained, Admission;
  }

  /** A job's deadline by the host's clock is the clock at one early instant plus what its caller
      then had left; no waiting since has moved it. */
  lemma AnchoredOnce(trace: seq<State>, k: nat, j: nat) returns (c: nat, q: nat, n: nat, l: nat)
    requires Run(trace) && k < |trace| && j < |trace[k].host.jobs|
    ensures q < n < l < k && LeavesAt(trace, q, c, 1) && LeavesAt(trace, n, c, 2) && LeavesAt(trace, l, c, 3)
    ensures var job := trace[k].host.jobs[j];
      && SameWork(job, trace[l].calls[c].request) && job.deadline == trace[l].calls[c].request.deadline
      && job.hostDeadline == trace[n].clock + (job.deadline - trace[q].unix)
      && 0 < job.deadline - trace[q].unix <= DAY
  {
    l, c := EnrolledBy(trace, k, j);
    q, n := WasAnchored(trace, l, c);
    hide Run;
  }

  lemma JoinedUntil(s: State, c: nat, a: CallStep)
    requires TableOk(s) && CallCan(s, c, a) && CallDo(s, c, a).calls[c].pc.Joined?
    ensures var t := CallDo(s, c, a); var pc := t.calls[c].pc;
      && s.calls[c].pc.Anchored? && pc.job < |t.host.jobs|
      && pc.until == Earlier(t.host.jobs[pc.job].hostDeadline, s.clock + s.calls[c].pc.remaining)
  {
    hide Thin, Open;
  }

  /** A submission that waits on a job gives up at the job's deadline, or once it has waited as long
      as it had left when it was timed, whichever comes first; never before. */
  lemma WaitsNoLonger(trace: seq<State>, k: nat, c: nat) returns (q: nat, l: nat)
    requires Run(trace) && k < |trace| && c < |trace[k].calls| && trace[k].calls[c].pc.Joined?
    ensures q < l < k && LeavesAt(trace, q, c, 1) && LeavesAt(trace, l, c, 3)
    ensures var pc, own := trace[k].calls[c].pc, trace[k].calls[c].request.deadline - trace[q].unix;
      && pc.job < |trace[k].host.jobs| && 0 < own <= DAY
      && pc.until == if trace[k].host.jobs[pc.job].hostDeadline < trace[l].clock + own
                     then trace[k].host.jobs[pc.job].hostDeadline else trace[l].clock + own
  {
    hide CallDo, Grows, Inv, Run;
    var a, n;
    l, a := LastMove(trace, k, c);
    RunKeeps(trace, l);
    TableIsOk(trace[l]);
    JoinedUntil(trace[l], c, a);
    CallChangesOne(trace[l], c, a);
    q, n := WasAnchored(trace, l, c);
    RunGrows(trace, l + 1, k);
    JobStays(trace[l + 1], trace[k], trace[k].calls[c].pc.job);
  }

  lemma TableIsOk(s: State)
    requires Inv(s)
    ensures TableOk(s)
  {
  }

  // ---- What a POST carries ----------------------------------------------------------

  lemma WorkerPosts(s: State, w: nat, a: WorkerStep)
    requires WorkerCan(s, w, a)
    ensures var was, now, pc := s.msgs, WorkerDo(s, w, a).msgs, s.host.workers[w];
      |was| < |now| ==>
        && a.Post? && pc.Sending? && pc.job < |s.host.jobs| && |now| == |was| + 1
        && var job := s.host.jobs[pc.job];
           now[|was|] == Msg(pc.job, false, job.compiled, Some(pc.context), Earlier(job.deadline, s.unix + pc.remaining), InFlight)
  {
    hide Trim, AnswerOf, Retryable, Job.Complete, Job.Expire;
    match a
    case Post =>
    case Wait =>
    case Dispatch =>
    case Settle =>
    case _ =>
  }

  lemma ControlPosts(s: State, j: nat, a: ControlStep)
    requires ControlCan(s, j, a)
    ensures var was, now := s.msgs, ControlDo(s, j, a).msgs;
      |was| < |now| ==>
        |now| == |was| + 1 && now[|was|] == Msg(j, true, false, None, s.host.jobs[j].deadline, InFlight)
  {
    hide AnswerOf, Job.Complete, Job.Expire;
  }

  lemma CallPostsNone(s: State, c: nat, a: CallStep)
    requires CallCan(s, c, a)
    ensures CallDo(s, c, a).msgs == s.msgs
  {
    CallChangesOne(s, c, a);
    hide CallDo;
  }

  lemma OnlyThreadsPost(s: State, step: Step)
    requires Can(s, step)
    ensures |Do(s, step).msgs| <= |s.msgs| || step.WorkerActs? || step.ControlActs?
  {
    hide EditorDo, MessageDo, WorkerDo, ControlDo, CallDo;
    match step
    case EditorActs(a) => EditorAdvances(s, a);
    case MessageActs(m, a) => MessageAdvances(s, m, a);
    case CallActs(c, a) => CallPostsNone(s, c, a);
    case _ =>
  }

  /** The state in which an ordinary command was posted, and the worker that did it. */
  lemma {:induction false} PostedBy(trace: seq<State>, k: nat, m: nat) returns (p: nat, w: nat)
    requires Run(trace) && k < |trace| && m < |trace[k].msgs| && !trace[k].msgs[m].control
    ensures p < k && w in trace[p].host.workers && trace[p].host.workers[w].Sending?
    ensures var pc, msg := trace[p].host.workers[w], trace[k].msgs[m];
      && msg.job == pc.job < |trace[p].host.jobs| && msg.context == Some(pc.context)
      && msg.assembly == trace[p].host.jobs[pc.job].compiled
      && msg.deadline == Earlier(trace[p].host.jobs[pc.job].deadline, trace[p].unix + pc.remaining)
  {
    hide Do, Can, Grows;
    if k > 0 {
      var s := trace[k - 1];
      assert Follows(s, trace[k - 1 + 1]);
      var step :| Can(s, step) && trace[k] == Do(s, step);
      if m < |s.msgs| {
        RunGrows(trace, k - 1, k);
        MessageStays(s, trace[k], m);
        p, w := PostedBy(trace, k - 1, m);
      } else {
        p := k - 1;
        w := Posted(s, step, m);
      }
    }
  }

  lemma MessageStays(s: State, t: State, m: nat)
    requires Grows(s, t) && m < |s.msgs|
    ensures m < |t.msgs| && t.msgs[m] == s.msgs[m].(phase := t.msgs[m].phase)
  {
  }

  lemma Posted(s: State, step: Step, m: nat) returns (w: nat)
    requires Can(s, step) && |s.msgs| <= m < |Do(s, step).msgs| && !Do(s, step).msgs[m].control
    ensures w in s.host.workers && s.host.workers[w].Sending?
    ensures var pc, msg := s.host.workers[w], Do(s, step).msgs[m];
      && msg.job == pc.job < |s.host.jobs| && msg.context == Some(pc.context)
      && msg.assembly == s.host.jobs[pc.job].compiled
      && msg.deadline == Earlier(s.host.jobs[pc.job].deadline, s.unix + pc.remaining)
  {
    hide WorkerDo, ControlDo, CallDo, EditorDo, MessageDo;
    OnlyThreadsPost(s, step);
    w := 0;
    if step.WorkerActs? {
      WorkerPosts(s, step.w, step.worker);
      w := step.w;
    } else {
      ControlPosts(s, step.j, step.query);
    }
  }

  lemma BeforeSending(s: State, w: nat, a: WorkerStep, pc: Pc)
    requires WorkerCan(s, w, a) && IsAt(WorkerDo(s, w, a), w, pc) && pc.Sending?
    ensures s.host.workers[w] == Armed(pc.job, pc.attempt, pc.context, pc.snapshot, pc.remaining) && 0 < pc.remaining
  {
    Leads(s, w, a);
    assert a == Dispatch;
    DispatchSends(s, w);
    hide WorkerDo;
  }

  lemma DispatchSends(s: State, w: nat)
    requires WorkerCan(s, w, Dispatch) && w in WorkerDo(s, w, Dispatch).host.workers
    ensures var pc, now := s.host.workers[w], WorkerDo(s, w, Dispatch).host.workers[w];
      now.Sending? ==> now == Sending(pc.job, pc.attempt, pc.context, pc.snapshot, pc.remaining) && 0 < pc.remaining
  {
  }

  /** A command is posted with a deadline that is neither past its caller's nor past what its job had
      left, by the host's clock, when that was last measured; and it had some left. */
  lemma PostedInTime(trace: seq<State>, k: nat, m: nat) returns (q: nat, p: nat)
    requires Run(trace) && k < |trace| && m < |trace[k].msgs| && !trace[k].msgs[m].control
    ensures q < p < k && trace[k].msgs[m].job < |trace[k].host.jobs|
    ensures var msg, job := trace[k].msgs[m], trace[k].host.jobs[trace[k].msgs[m].job];
      && msg.assembly == job.compiled
      && trace[q].clock < job.hostDeadline
      && msg.deadline == if job.deadline < trace[p].unix + (job.hostDeadline - trace[q].clock) then job.deadline
                         else trace[p].unix + (job.hostDeadline - trace[q].clock)
  {
    hide WorkerDo, Grows, Inv;
    var w, r, a, b;
    p, w := PostedBy(trace, k, m);
    var pc := trace[p].host.workers[w];
    r, a := LastWork(trace, p, w);
    BeforeSending(trace[r], w, a, pc);
    q, b := LastWork(trace, r, w);
    BeforeArmed(trace[q], w, b, trace[r].host.workers[w]);
    RunGrows(trace, q, k);
    JobStays(trace[q], trace[k], pc.job);
    RunGrows(trace, p, k);
    JobStays(trace[p], trace[k], pc.job);
  }

  /** The Editor is alive and idle, and its references have been negotiated for what the heartbeat
      shows; the job is unanswered and has time left. */
  predicate ReadyFor(s: State, j: nat, context: Context) {
    && j < |s.host.jobs| && !s.host.jobs[j].Done() && !s.host.stopping && s.clock < s.host.jobs[j].hostDeadline
    && s.host.alive && !s.host.snapshot.busy
    && s.host.context == Some(context) && s.host.contextKey == Some(s.host.snapshot.Key())
  }

  lemma WaitPrepares(s: State, w: nat)
    requires WorkerCan(s, w, Wait) && w in WorkerDo(s, w, Wait).host.workers
    ensures var j, now := s.host.workers[w].job, WorkerDo(s, w, Wait).host.workers[w];
      && (now.Compiling? ==> now.job == j && ReadyFor(s, j, now.context))
      && (now.Checking? ==> now.job == j && ReadyFor(s, j, now.context) && !s.host.jobs[j].compiled)
  {
  }

  lemma CompilingChecks(s: State, w: nat)
    requires WorkerCan(s, w, CompileOk)
    ensures var pc := s.host.workers[w]; IsAt(WorkerDo(s, w, CompileOk), w, Checking(pc.job, pc.attempt, pc.context))
  {
  }

  lemma MeasuringArms(s: State, w: nat)
    requires WorkerCan(s, w, Measure)
    ensures var pc, t := s.host.workers[w], WorkerDo(s, w, Measure);
      w in t.host.workers && t.host.workers[w].Armed? && t.host.workers[w].context == pc.context
      && t.host.workers[w].job == pc.job
  {
  }

  lemma CheckingFinds(s: State, w: nat)
    requires WorkerCan(s, w, Check) && w in WorkerDo(s, w, Check).host.workers
    ensures var pc, h, now := s.host.workers[w], s.host, WorkerDo(s, w, Check).host.workers[w];
      now.Checked? ==>
        && now.job == pc.job && now.context == pc.context && h.contextKey == Some(h.snapshot.Key())
        && pc.context == Context(h.snapshot.domain, h.snapshot.generation)
  {
  }

  /** A worker that checks a context took it up when everything was ready for the job. */
  lemma TakenUpReady(trace: seq<State>, k: nat, w: nat) returns (q: nat)
    requires Run(trace) && k < |trace| && w in trace[k].host.workers && trace[k].host.workers[w].Checking?
    ensures q < k && ReadyFor(trace[q], trace[k].host.workers[w].job, trace[k].host.workers[w].context)
  {
    hide WorkerDo, ReadyFor;
    var r, a := LastWork(trace, k, w);
    Leads(trace[r], w, a);
    if a.Wait? {
      WaitPrepares(trace[r], w);
      q := r;
    } else {
      CompilingChecks(trace[r], w);
      var b;
      q, b := LastWork(trace, r, w);
      Leads(trace[q], w, b);
      WaitPrepares(trace[q], w);
    }
  }

  /** A command is posted only after its context was taken up when everything was ready for it, and
      was found, once prepared, to be still the one the heartbeat shows. */
  lemma PostedWhenCurrent(trace: seq<State>, k: nat, m: nat) returns (q: nat, n: nat)
    requires Run(trace) && k < |trace| && m < |trace[k].msgs| && !trace[k].msgs[m].control
    ensures q < n < k && trace[k].msgs[m].context.Some?
    ensures var h, context := trace[n].host, trace[k].msgs[m].context.value;
      && ReadyFor(trace[q], trace[k].msgs[m].job, context)
      && h.contextKey == Some(h.snapshot.Key()) && context == Context(h.snapshot.domain, h.snapshot.generation)
  {
    hide WorkerDo, ReadyFor;
    var p, w := PostedBy(trace, k, m);
    var r, a := LastWork(trace, p, w);
    BeforeSending(trace[r], w, a, trace[p].host.workers[w]);
    var l, b := LastWork(trace, r, w);
    Leads(trace[l], w, b);
    MeasuringArms(trace[l], w);
    var c;
    n, c := LastWork(trace, l, w);
    Leads(trace[n], w, c);
    CheckingFinds(trace[n], w);
    q := TakenUpReady(trace, n, w);
  }

  // ---- The second attempt -----------------------------------------------------------

  lemma OnlyNegotiation(s: State, step: Step)
    requires Can(s, step) && s.host.contextKey == None && Do(s, step).host.contextKey != None
    ensures step.ServiceActs? && step.service.Negotiated?
  {
    hide EditorDo, MessageDo, WorkerDo, ControlDo, CallDo;
    match step
    case EditorActs(a) => EditorAdvances(s, a);
    case MessageActs(m, a) => MessageAdvances(s, m, a);
    case WorkerActs(w, a) => WorkerSetsNoKey(s, w, a);
    case ControlActs(j, a) => ControlSetsNoKey(s, j, a);
    case CallActs(c, a) => CallSetsNoKey(s, c, a);
    case _ =>
  }

  lemma WorkerSetsNoKey(s: State, w: nat, a: WorkerStep)
    requires WorkerCan(s, w, a)
    ensures WorkerDo(s, w, a).host.contextKey == None || WorkerDo(s, w, a).host.contextKey == s.host.contextKey
  {
    hide Trim, AnswerOf, Retryable, Job.Complete, Job.Expire;
  }

  lemma ControlSetsNoKey(s: State, j: nat, a: ControlStep)
    requires ControlCan(s, j, a)
    ensures ControlDo(s, j, a).host.contextKey == s.host.contextKey
  {
    hide AnswerOf, Job.Complete, Job.Expire;
  }

  lemma CallSetsNoKey(s: State, c: nat, a: CallStep)
    requires CallCan(s, c, a)
    ensures CallDo(s, c, a).host.contextKey == s.host.contextKey
  {
    hide Thin, Open, Retained, SeenDone;
  }

  lemma {:induction false} KeyAppears(trace: seq<State>, a: nat, b: nat) returns (n: nat)
    requires a <= b < |trace| && trace[a].host.contextKey == None && trace[b].host.contextKey != None
    ensures a <= n < b && trace[n].host.contextKey == None && trace[n + 1].host.contextKey != None
    decreases b
  {
    if trace[b - 1].host.contextKey == None { n := b - 1; } else { n := KeyAppears(trace, a, b - 1); }
  }

  /** When it was taken up, the worker found a negotiated context. */
  lemma TakenUpSince(trace: seq<State>, i: nat, k: nat, w: nat) returns (q: nat)
    requires Run(trace) && i < k < |trace| && w in trace[k].host.workers
    requires trace[k].host.workers[w].Compiling? || trace[k].host.workers[w].Checking?
    requires w in trace[i].host.workers && trace[i].host.workers[w].Waiting?
    ensures i <= q < k && trace[q].host.contextKey != None
  {
    hide WorkerDo;
    var r, a := LastWork(trace, k, w);
    Leads(trace[r], w, a);
    assert !IsAt(trace[i], w, trace[k].host.workers[w]);
    if a.Wait? {
      WaitPrepares(trace[r], w);
      q := r;
    } else {
      CompilingChecks(trace[r], w);
      var b;
      q, b := LastWork(trace, r, w);
      Leads(trace[q], w, b);
      WaitPrepares(trace[q], w);
      assert !IsAt(trace[i], w, trace[r].host.workers[w]);
    }
  }

  /** A command that is prepared once more after a passing refusal is prepared against a context
      negotiated since. */
  lemma RetryIsRenegotiated(trace: seq<State>, i: nat, k: nat, w: nat) returns (n: nat, step: Step)
    requires Run(trace) && i + 1 < k < |trace| && w in trace[k].host.workers
    requires WorkerCan(trace[i], w, Invalidate) && trace[i + 1] == WorkerDo(trace[i], w, Invalidate)
    requires trace[k].host.workers[w].Compiling? || trace[k].host.workers[w].Checking?
    ensures i < n < k && Can(trace[n], step) && trace[n + 1] == Do(trace[n], step)
    ensures step.ServiceActs? && step.service.Negotiated?
  {
    InvalidateForgets(trace[i], w);
    hide WorkerDo, Can, Do;
    var q := TakenUpSince(trace, i + 1, k, w);
    n := KeyAppears(trace, i + 1, q);
    assert Follows(trace[n], trace[n + 1]);
    step :| Can(trace[n], step) && trace[n + 1] == Do(trace[n], step);
    OnlyNegotiation(trace[n], step);
  }

  lemma InvalidateForgets(s: State, w: nat)
    requires WorkerCan(s, w, Invalidate)
    ensures var t := WorkerDo(s, w, Invalidate);
      t.host.contextKey == None && w in t.host.workers && t.host.workers[w].Waiting?
  {
  }
}
