/** What the host tells its callers, one submission at a time: repeats of a request id, refusals
    given before and after the table of requests is consulted, and answers. */
module HostCallers {
  import opened Wrappers
  import opened HostQueue
  import opened HostProtocol
  import opened HostInvariant
  import opened HostSteps
  import opened HostTheorems

  // ---- The history of one submission ------------------------------------------------

  /** Submission `c` leaves a stage between two consecutive states. */
  ghost predicate LeavesAt(trace: seq<State>, i: nat, c: nat, stage: nat) {
    && i + 1 < |trace| && c < |trace[i].calls| && c < |trace[i + 1].calls|
    && Stage(trace[i].calls[c].pc) == stage < Stage(trace[i + 1].calls[c].pc)
    && trace[i].calls[c].request == trace[i + 1].calls[c].request
  }

  lemma OnlyItsStepsMove(s: State, step: Step, c: nat)
    requires Can(s, step) && c < |s.calls|
    ensures c < |Do(s, step).calls|
    ensures Do(s, step).calls[c] == s.calls[c] || (step.CallActs? && step.c == c)
  {
    hide EditorDo, MessageDo, WorkerDo, ControlDo, CallDo, Grows;
    match step
    case EditorActs(a) => EditorAdvances(s, a);
    case MessageActs(m, a) => MessageAdvances(s, m, a);
    case WorkerActs(w, a) => WorkerGrows(s, w, a);
    case ControlActs(j, a) => ControlAdds(s, j, a);
    case CallActs(d, a) => CallChangesOne(s, d, a);
    case _ =>
  }

  lemma NewCallsArrive(s: State, step: Step)
    requires Can(s, step)
    ensures |Do(s, step).calls| <= |s.calls| || (step.Submits? && Do(s, step).calls == s.calls + [Call(step.request, Arrived)])
  {
    hide EditorDo, MessageDo, WorkerDo, ControlDo, CallDo, Grows;
    match step
    case EditorActs(a) => EditorAdvances(s, a);
    case MessageActs(m, a) => MessageAdvances(s, m, a);
    case WorkerActs(w, a) => WorkerGrows(s, w, a);
    case ControlActs(j, a) => ControlAdds(s, j, a);
    case CallActs(d, a) => CallChangesOne(s, d, a);
    case _ =>
  }

  /** The step that brought a submission to where it stands. */
  lemma {:induction false} LastMove(trace: seq<State>, k: nat, c: nat) returns (i: nat, a: CallStep)
    requires Run(trace) && k < |trace| && c < |trace[k].calls| && !trace[k].calls[c].pc.Arrived?
    ensures i < k && CallCan(trace[i], c, a) && trace[i + 1] == CallDo(trace[i], c, a)
    ensures trace[i + 1].calls[c] == trace[k].calls[c]
    ensures trace[i].calls[c].request == trace[k].calls[c].request
  {
    hide Grows, WorkerDo, EditorDo, MessageDo, ControlDo, ServiceDo;
    if k > 0 {
      var s := trace[k - 1];
      assert Follows(s, trace[k - 1 + 1]);
      var step :| Can(s, step) && trace[k] == Do(s, step);
      NewCallsArrive(s, step);
      OnlyItsStepsMove(s, step, c);
      if step.CallActs? && step.c == c {
        i, a := k - 1, step.call;
        CallChangesOne(s, c, a);
      } else {
        i, a := LastMove(trace, k - 1, c);
      }
    }
  }

  // ---- Which reply a submission gets ------------------------------------------------

  /** The submission got past everything that is checked before the table: no stop yet when its
      body had been read, a proper envelope, and a deadline ahead when it was timed. */
  predicate Considered(r: Submission, stopping: bool, unix: int) {
    !stopping && r.wellFormed && InTime(r, unix) && !r.internal
  }

  function EarlyReason(r: Submission, stopping: bool, unix: int): Reason {
    if stopping then HostStopping else if r.wellFormed && !InTime(r, unix) then Expired else InvalidRequest
  }

  /** The reply is the answer of job `j`. */
  predicate AnsweredBy(now: Host, pc: CallPc, j: nat) {
    pc.Told? && pc.from == Some(j) && j < |now.jobs| && now.jobs[j].response == Some(pc.answer)
  }

  /** The reply the table decides: a conflict, the remembered job's answer, a full queue, or the
      answer of the job created for this submission. */
  predicate ByTable(past: Host, now: Host, r: Submission, pc: CallPc) {
    match Retained(past.jobs, past.table, r.id)
    case Some(j) =>
      if past.jobs[j].signature != r.signature then pc == Refused(RequestIdConflict) else AnsweredBy(now, pc, j)
    case None => pc == Refused(QueueFull) || AnsweredBy(now, pc, |past.jobs|)
  }

  lemma WasArrived(trace: seq<State>, k: nat, c: nat) returns (p: nat)
    requires Run(trace) && k < |trace| && c < |trace[k].calls| && trace[k].calls[c].pc.Entered?
    ensures p < k && LeavesAt(trace, p, c, 0) && !trace[p].host.stopping
    ensures trace[p].calls[c].request == trace[k].calls[c].request
  {
    var a;
    p, a := LastMove(trace, k, c);
    hide Run;
  }

  lemma WasEntered(trace: seq<State>, k: nat, c: nat) returns (p: nat, q: nat)
    requires Run(trace) && k < |trace| && c < |trace[k].calls| && trace[k].calls[c].pc.Timed?
    ensures var r := trace[k].calls[c].request;
      && p < q < k && LeavesAt(trace, p, c, 0) && !trace[p].host.stopping && LeavesAt(trace, q, c, 1)
      && trace[p].calls[c].request == r && trace[q].calls[c].request == r
      && r.wellFormed && trace[k].calls[c].pc.remaining == r.deadline - trace[q].unix
  {
    var a;
    q, a := LastMove(trace, k, c);
    p := WasArrived(trace, q, c);
    hide Run;
  }

  lemma WasTimed(trace: seq<State>, k: nat, c: nat) returns (p: nat, q: nat)
    requires Run(trace) && k < |trace| && c < |trace[k].calls| && trace[k].calls[c].pc.Anchored?
    ensures p < q < k && LeavesAt(trace, p, c, 0) && LeavesAt(trace, q, c, 1)
    ensures Considered(trace[k].calls[c].request, trace[p].host.stopping, trace[q].unix)
    ensures trace[p].calls[c].request == trace[k].calls[c].request
  {
    var m, a := LastMove(trace, k, c);
    p, q := WasEntered(trace, m, c);
    hide Run;
  }

  lemma WasJoined(trace: seq<State>, k: nat, c: nat) returns (p: nat, q: nat, l: nat)
    requires Run(trace) && k < |trace| && c < |trace[k].calls| && trace[k].calls[c].pc.Joined?
    ensures p < q < l < k
    ensures var r, j, h := trace[k].calls[c].request, trace[k].calls[c].pc.job, trace[l].host;
      && LeavesAt(trace, p, c, 0) && LeavesAt(trace, q, c, 1) && LeavesAt(trace, l, c, 3)
      && Considered(r, trace[p].host.stopping, trace[q].unix)
      && (match Retained(h.jobs, h.table, r.id)
          case Some(i) => h.jobs[i].signature == r.signature && j == i
          case None => j == |h.jobs|)
  {
    var a;
    l, a := LastMove(trace, k, c);
    p, q := WasTimed(trace, l, c);
    hide Run, Admission, Thin, Open;
  }

  lemma LookupTells(s: State, c: nat, a: CallStep, now: Host)
    requires CallCan(s, c, a) && a.Lookup? && CallDo(s, c, a).calls[c].pc.Told?
    ensures ByTable(s.host, now, s.calls[c].request, CallDo(s, c, a).calls[c].pc)
  {
    hide Admission, Thin, Open;
  }

  /** A refusal before the lookup, explained. */
  lemma EarlyRefusal(trace: seq<State>, i: nat, c: nat, a: CallStep) returns (p: nat, q: nat)
    requires Run(trace) && i + 1 < |trace| && CallCan(trace[i], c, a) && trace[i + 1] == CallDo(trace[i], c, a)
    requires (a.CheckStopping? || a.Time? || a.Anchor?) && trace[i + 1].calls[c].pc.Told?
    ensures var r, pc := trace[i].calls[c].request, trace[i + 1].calls[c].pc;
      && p <= q <= i && LeavesAt(trace, p, c, 0) && (!trace[p].host.stopping ==> LeavesAt(trace, q, c, 1))
      && !Considered(r, trace[p].host.stopping, trace[q].unix)
      && pc == Refused(EarlyReason(r, trace[p].host.stopping, trace[q].unix))
  {
    match a
    case CheckStopping =>
      p, q := i, i;
      hide Run;
    case Time =>
      p := WasArrived(trace, i, c);
      q := i;
      hide Run;
    case _ =>
      p, q := WasEntered(trace, i, c);
      hide Run;
  }

  /** Every reply, explained: which check decided it and, past the checks, what the table then held. */
  lemma RepliesExplained(trace: seq<State>, k: nat, c: nat) returns (p: nat, q: nat, l: nat)
    requires Run(trace) && k < |trace| && c < |trace[k].calls| && trace[k].calls[c].pc.Told?
    ensures var r, pc := trace[k].calls[c].request, trace[k].calls[c].pc;
      && p <= q <= l < k && LeavesAt(trace, p, c, 0)
      && (!trace[p].host.stopping ==> LeavesAt(trace, q, c, 1))
      && (if Considered(r, trace[p].host.stopping, trace[q].unix) then
            LeavesAt(trace, l, c, 3) && ByTable(trace[l].host, trace[k].host, r, pc)
          else pc == Refused(EarlyReason(r, trace[p].host.stopping, trace[q].unix)))
  {
    RunKeeps(trace, k);
    assert CallOk(trace[k], trace[k].calls[c]);
    hide Inv, Retained, Considered, Admission, Thin, Open;
    var i, a := LastMove(trace, k, c);
    CallChangesOne(trace[i], c, a);
    if a.Lookup? {
      p, q := WasTimed(trace, i, c);
      LookupTells(trace[i], c, a, trace[k].host);
      l := i;
    } else if a.Hear? || a.GiveUp? {
      p, q, l := WasJoined(trace, i, c);
    } else {
      p, q := EarlyRefusal(trace, i, c, a);
      l := i;
    }
  }

  // ---- Requests sent twice ----------------------------------------------------------

  lemma WorkStays(trace: seq<State>, i: nat, k: nat, j: nat, r: Submission)
    requires Run(trace) && i <= k < |trace| && j < |trace[i].host.jobs|
    ensures j < |trace[k].host.jobs|
    ensures SameWork(trace[k].host.jobs[j], r) <==> SameWork(trace[i].host.jobs[j], r)
    ensures trace[k].host.jobs[j].id == trace[i].host.jobs[j].id
  {
    RunGrows(trace, i, k);
    assert SameRequest(trace[i].host.jobs[j], trace[k].host.jobs[j]);
  }

  /** A submission whose request id is remembered when it is looked up is told the remembered job's
      one answer if and only if it came in time, before the stop, well formed, and for the same
      work; past those checks it is told of a conflict exactly when the work differs. */
  lemma RepeatsGetTheAnswer(trace: seq<State>, k: nat, c: nat, j: nat) returns (p: nat, q: nat, l: nat)
    requires Run(trace) && k < |trace| && c < |trace[k].calls| && trace[k].calls[c].pc.Told?
    ensures p <= q <= l < k && LeavesAt(trace, p, c, 0) && (!trace[p].host.stopping ==> LeavesAt(trace, q, c, 1))
    ensures var r, pc := trace[k].calls[c].request, trace[k].calls[c].pc;
      var considered := Considered(r, trace[p].host.stopping, trace[q].unix);
      && (considered ==> LeavesAt(trace, l, c, 3))
      && (j in trace[l].host.table && j < |trace[l].host.jobs| && trace[l].host.jobs[j].id == r.id ==>
            && (AnsweredBy(trace[k].host, pc, j) <==> considered && trace[l].host.jobs[j].signature == r.signature)
            && (considered ==> (pc == Refused(RequestIdConflict) <==> trace[l].host.jobs[j].signature != r.signature)))
  {
    p, q, l := RepliesExplained(trace, k, c);
    RunKeeps(trace, l);
  }

  /** Every submission that was given a job's answer was given the same one. */
  lemma OneAnswer(trace: seq<State>, i: nat, k: nat, a: nat, b: nat)
    requires Run(trace) && i <= k < |trace| && a < |trace[i].calls| && b < |trace[k].calls|
    requires trace[i].calls[a].pc.Told? && trace[k].calls[b].pc.Told?
    requires trace[i].calls[a].pc.from.Some? && trace[i].calls[a].pc.from == trace[k].calls[b].pc.from
    ensures trace[i].calls[a].pc.answer == trace[k].calls[b].pc.answer
  {
    RunGrows(trace, i, k);
    RunKeeps(trace, i);
    RunKeeps(trace, k);
    assert CallOk(trace[i], trace[i].calls[a]) && CallOk(trace[k], trace[k].calls[b]);
    hide Inv;
  }

  /** Two submissions of the same work under one id, both past the early checks, are told the same
      whenever the second finds the first's job still remembered. */
  lemma RepeatsAgree(trace: seq<State>, i: nat, k: nat, a: nat, b: nat) returns (p: nat, q: nat, l: nat)
    requires Run(trace) && i <= k < |trace| && a < |trace[i].calls| && b < |trace[k].calls|
    requires trace[i].calls[a].pc.Told? && trace[i].calls[a].pc.from.Some? && trace[k].calls[b].pc.Told?
    requires trace[k].calls[b].request.id == trace[i].calls[a].request.id
    requires trace[k].calls[b].request.signature == trace[i].calls[a].request.signature
    ensures p <= q <= l < k && LeavesAt(trace, p, b, 0) && (!trace[p].host.stopping ==> LeavesAt(trace, q, b, 1))
    ensures Considered(trace[k].calls[b].request, trace[p].host.stopping, trace[q].unix)
              && trace[i].calls[a].pc.from.value in trace[l].host.table ==>
            trace[k].calls[b].pc.answer == trace[i].calls[a].pc.answer
  {
    var j := trace[i].calls[a].pc.from.value;
    p, q, l := RepeatsGetTheAnswer(trace, k, b, j);
    RunKeeps(trace, i);
    RunKeeps(trace, l);
    assert CallOk(trace[i], trace[i].calls[a]);
    if j in trace[l].host.table {
      WorkStays(trace, i, k, j, trace[k].calls[b].request);
      WorkStays(trace, l, k, j, trace[k].calls[b].request);
      if AnsweredBy(trace[k].host, trace[k].calls[b].pc, j) { OneAnswer(trace, i, k, a, b); }
    }
  }

  // ---- Refusals and results ---------------------------------------------------------

  /** No job remembered in that state for the work of submission `r` starts in this run so far. */
  ghost predicate NoneStarted(now: State, table: seq<nat>, r: Submission) {
    forall n | 0 <= n < |now.starts| && now.starts[n].job in table ::
      now.starts[n].job < |now.host.jobs| && !SameWork(now.host.jobs[now.starts[n].job], r)
  }

  /** A submission told `not_started` is never contradicted by its own job, then or later; and past
      the early checks by no job remembered for the same work when it had been looked up. */
  lemma HonestRefusals(trace: seq<State>, i: nat, k: nat, c: nat) returns (p: nat, q: nat, l: nat)
    requires Run(trace) && i <= k < |trace| && c < |trace[i].calls|
    requires trace[i].calls[c].pc.Told? && trace[i].calls[c].pc.answer.NotStarted?
    ensures p <= q <= l < i && LeavesAt(trace, p, c, 0) && (!trace[p].host.stopping ==> LeavesAt(trace, q, c, 1))
    ensures forall n | 0 <= n < |trace[k].starts| :: trace[i].calls[c].pc.from != Some(trace[k].starts[n].job)
    ensures Considered(trace[i].calls[c].request, trace[p].host.stopping, trace[q].unix) ==>
      LeavesAt(trace, l, c, 3) && NoneStarted(trace[k], trace[l + 1].host.table, trace[i].calls[c].request)
  {
    p, q, l := RepliesExplained(trace, i, c);
    forall n | 0 <= n < |trace[k].starts|
      ensures trace[i].calls[c].pc.from != Some(trace[k].starts[n].job)
    {
      RefusedNeverStarts(trace, i, k, c, n);
    }
    if Considered(trace[i].calls[c].request, trace[p].host.stopping, trace[q].unix) {
      RememberedNeverStarted(trace, i, k, c, l);
    }
  }

  lemma RememberedNeverStarted(trace: seq<State>, i: nat, k: nat, c: nat, l: nat)
    requires Run(trace) && l < i <= k < |trace| && c < |trace[i].calls| && LeavesAt(trace, l, c, 3)
    requires trace[i].calls[c].pc.Told? && trace[i].calls[c].pc.answer.NotStarted?
    ensures NoneStarted(trace[k], trace[l + 1].host.table, trace[i].calls[c].request)
  {
    var r := trace[i].calls[c].request;
    forall n | 0 <= n < |trace[k].starts| && trace[k].starts[n].job in trace[l + 1].host.table
      ensures trace[k].starts[n].job < |trace[k].host.jobs|
      ensures !SameWork(trace[k].host.jobs[trace[k].starts[n].job], r)
    {
      var j := trace[k].starts[n].job;
      RememberedAreTold(trace, i, c, l, j);
      RefusedNeverStarts(trace, i, k, c, n);
      WorkStays(trace, l + 1, k, j, r);
    }
  }

  lemma RefusedNeverStarts(trace: seq<State>, i: nat, k: nat, c: nat, n: nat)
    requires Run(trace) && i <= k < |trace| && c < |trace[i].calls| && n < |trace[k].starts|
    requires trace[i].calls[c].pc.Told? && trace[i].calls[c].pc.answer.NotStarted?
    ensures trace[i].calls[c].pc.from != Some(trace[k].starts[n].job)
  {
    RunGrows(trace, i, k);
    RunKeeps(trace, i);
    RunKeeps(trace, k);
    var s, pc := trace[k], trace[i].calls[c].pc;
    assert CallOk(trace[i], trace[i].calls[c]);
    if pc.from.Some? { assert JobOk(s, pc.from.value) && StartOk(s, n); }
    hide Inv;
  }

  lemma LookupStep(trace: seq<State>, l: nat, c: nat) returns (a: CallStep)
    requires Run(trace) && LeavesAt(trace, l, c, 3)
    ensures a.Lookup? && CallCan(trace[l], c, a) && trace[l + 1] == CallDo(trace[l], c, a)
  {
    hide Grows, WorkerDo, EditorDo, MessageDo, ControlDo, ServiceDo;
    assert Follows(trace[l], trace[l + 1]);
    var step :| Can(trace[l], step) && trace[l + 1] == Do(trace[l], step);
    OnlyItsStepsMove(trace[l], step, c);
    a := step.call;
  }

  lemma LookupFindsJob(s: State, c: nat, a: CallStep, j: nat)
    requires TableOk(s) && CallCan(s, c, a) && a.Lookup? && j in CallDo(s, c, a).host.table
    requires Retained(s.host.jobs, s.host.table, s.calls[c].request.id).Some?
    ensures var t := CallDo(s, c, a);
      && j < |t.host.jobs|
      && (SameWork(t.host.jobs[j], s.calls[c].request) ==> t.calls[c].pc.Joined? && t.calls[c].pc.job == j)
  {
    hide Thin, Open;
    assert CallDo(s, c, a).host == s.host;
  }

  /** A lookup that finds nothing evicts, and then refuses or enrols. */
  lemma LookupOfNew(s: State, c: nat, a: CallStep)
    requires CallCan(s, c, a) && a.Lookup? && Retained(s.host.jobs, s.host.table, s.calls[c].request.id).None?
    ensures var h, g, table := s.host, CallDo(s, c, a).host, Thin([], s.host.table, a.evictView);
      || (g.jobs == h.jobs && g.table == table)
      || (|g.jobs| == |h.jobs| + 1 && h.jobs <= g.jobs && g.table == table + [|h.jobs|]
          && CallDo(s, c, a).calls[c].pc.Joined? && CallDo(s, c, a).calls[c].pc.job == |h.jobs|)
  {
    hide Thin, Open, Retained, Admission, SeenDone, JobFor, Earlier;
  }

  lemma LookupFindsNone(s: State, c: nat, a: CallStep, j: nat)
    requires TableOk(s) && CallCan(s, c, a) && a.Lookup? && j in CallDo(s, c, a).host.table
    requires Retained(s.host.jobs, s.host.table, s.calls[c].request.id).None?
    ensures var t := CallDo(s, c, a);
      && j < |t.host.jobs|
      && (SameWork(t.host.jobs[j], s.calls[c].request) ==> t.calls[c].pc.Joined? && t.calls[c].pc.job == j)
  {
    EvictedHasNone(s, s.calls[c].request.id, a.evictView);
    LookupOfNew(s, c, a);
    hide Thin, TableOk, Retained, CallDo, CallCan;
  }

  lemma EvictedHasNone(s: State, id: string, view: set<nat>)
    requires TableOk(s) && Retained(s.host.jobs, s.host.table, id).None?
    ensures forall j | j in Thin([], s.host.table, view) :: j < |s.host.jobs| && s.host.jobs[j].id != id
  {
    assert [] + s.host.table == s.host.table;
    ThinKeeps([], s.host.table, view);
    hide Thin, Retained;
  }

  /** Once a submission was looked up, a job remembered for the same work is the one it waits on. */
  lemma LookupFinds(s: State, c: nat, a: CallStep, j: nat)
    requires Inv(s) && CallCan(s, c, a) && a.Lookup? && j in CallDo(s, c, a).host.table
    ensures var t := CallDo(s, c, a);
      && j < |t.host.jobs|
      && (SameWork(t.host.jobs[j], s.calls[c].request) ==> t.calls[c].pc.Joined? && t.calls[c].pc.job == j)
  {
    hide CallDo;
    if Retained(s.host.jobs, s.host.table, s.calls[c].request.id).Some? {
      LookupFindsJob(s, c, a, j);
    } else {
      LookupFindsNone(s, c, a, j);
    }
  }

  lemma RememberedAreTold(trace: seq<State>, i: nat, c: nat, l: nat, j: nat)
    requires Run(trace) && l < i < |trace| && c < |trace[i].calls| && LeavesAt(trace, l, c, 3)
    requires trace[i].calls[c].pc.Told? && j in trace[l + 1].host.table
    ensures j < |trace[l + 1].host.jobs|
    ensures SameWork(trace[l + 1].host.jobs[j], trace[i].calls[c].request) ==> trace[i].calls[c].pc.from == Some(j)
  {
    var a := LookupStep(trace, l, c);
    RunKeeps(trace, l);
    LookupFinds(trace[l], c, a, j);
    RunGrows(trace, l + 1, i);
    assert CallGrows(trace[l + 1].calls[c], trace[i].calls[c]);
    hide Inv, CallDo, CallCan;
  }

  /** A caller given a tool's own answer is given the answer of the one execution of its command. */
  lemma HonestResults(trace: seq<State>, k: nat, c: nat, n: nat)
    requires Run(trace) && k < |trace| && c < |trace[k].calls|
    requires trace[k].calls[c].pc.Told? && trace[k].calls[c].pc.answer == Ran(n)
    ensures var s, pc := trace[k], trace[k].calls[c].pc;
      && pc.from.Some? && n < |s.starts| && s.starts[n].job == pc.from.value
      && pc.from.value < |s.host.jobs| && SameWork(s.host.jobs[pc.from.value], s.calls[c].request)
      && forall m | 0 <= m < |s.starts| && s.starts[m].job == pc.from.value :: m == n
  {
    RunKeeps(trace, k);
    var s, pc := trace[k], trace[k].calls[c].pc;
    assert CallOk(s, s.calls[c]) && JobOk(s, pc.from.value);
    forall m | 0 <= m < |s.starts| && s.starts[m].job == pc.from.value
      ensures m == n
    {
      if m < n { AtMostOnce(trace, k, m, n); } else if n < m { AtMostOnce(trace, k, n, m); }
    }
  }

  // ---- One job at a time for an id --------------------------------------------------

  lemma JobsGrowByOne(s: State, step: Step)
    requires Can(s, step)
    ensures |Do(s, step).host.jobs| <= |s.host.jobs| + 1
    ensures |s.host.jobs| < |Do(s, step).host.jobs| ==> !Do(s, step).host.jobs[|s.host.jobs|].Done()
  {
    hide EditorDo, MessageDo, WorkerDo, ControlDo, Grows;
    match step
    case EditorActs(a) => EditorAdvances(s, a);
    case MessageActs(m, a) => MessageAdvances(s, m, a);
    case WorkerActs(w, a) => WorkerGrows(s, w, a);
    case ControlActs(j, a) => ControlAdds(s, j, a);
    case CallActs(c, a) => LookupAddsOne(s, c, a);
    case _ =>
  }

  lemma LookupAddsOne(s: State, c: nat, a: CallStep)
    requires CallCan(s, c, a)
    ensures var t := CallDo(s, c, a);
      && |t.host.jobs| <= |s.host.jobs| + 1
      && (|s.host.jobs| < |t.host.jobs| ==> !t.host.jobs[|s.host.jobs|].Done())
  {
    hide Thin, Open, Admission, Retained;
  }

  /** A second job of a request id exists only once the first was finished and forgotten. */
  lemma {:induction false} NoSecondJob(trace: seq<State>, k: nat, i: nat, j: nat) returns (m: nat)
    requires Run(trace) && k < |trace| && i < j < |trace[k].host.jobs|
    requires trace[k].host.jobs[i].id == trace[k].host.jobs[j].id
    ensures m < k && |trace[m].host.jobs| == j < |trace[m + 1].host.jobs|
    ensures trace[m + 1].host.jobs[i].Done() && i !in trace[m + 1].host.table && j in trace[m + 1].host.table
  {
    hide Grows, Inv, Do;
    if k > 0 {
      if j < |trace[k - 1].host.jobs| {
        SameIds(trace, k - 1, k, i, j);
        m := NoSecondJob(trace, k - 1, i, j);
      } else {
        m := k - 1;
        assert Follows(trace[m], trace[m + 1]);
        var step :| Can(trace[m], step) && trace[m + 1] == Do(trace[m], step);
        JobsGrowByOne(trace[m], step);
        RunKeeps(trace, k);
        NewestIsRemembered(trace[k], i, j);
      }
    }
  }

  lemma NewestIsRemembered(s: State, i: nat, j: nat)
    requires Inv(s) && i < j < |s.host.jobs| && s.host.jobs[i].id == s.host.jobs[j].id && !s.host.jobs[j].Done()
    ensures j in s.host.table && i !in s.host.table && s.host.jobs[i].Done()
  {
  }

  lemma SameIds(trace: seq<State>, i: nat, k: nat, a: nat, b: nat)
    requires Run(trace) && i <= k < |trace| && a < |trace[i].host.jobs| && b < |trace[i].host.jobs|
    ensures a < |trace[k].host.jobs| && b < |trace[k].host.jobs|
    ensures trace[k].host.jobs[a].id == trace[i].host.jobs[a].id && trace[k].host.jobs[b].id == trace[i].host.jobs[b].id
  {
    RunGrows(trace, i, k);
    assert SameRequest(trace[i].host.jobs[a], trace[k].host.jobs[a]) && SameRequest(trace[i].host.jobs[b], trace[k].host.jobs[b]);
  }
}
