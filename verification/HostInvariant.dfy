/** What every step of the protocol keeps. */
module HostInvariant {
  import opened Wrappers
  import opened HostQueue
  import opened HostProtocol

  /** Every POST made for the job was refused before it started. */
  ghost predicate Settled(s: State, j: nat) {
    forall m | 0 <= m < |s.msgs| && s.msgs[m].job == j :: s.msgs[m].phase.Rejected?
  }

  /** A job whose command may be in Unity: its caller can only be told that nobody knows. */
  predicate Sent(job: Job) { job.state == Dispatched || job.response == Some(Unknown) }

  predicate IsExecution(s: State, n: nat, j: nat) { n < |s.starts| && s.starts[n].job == j }

  // ---- Jobs and messages ------------------------------------------------------------

  ghost predicate JobOk(s: State, j: nat)
    requires j < |s.host.jobs|
  {
    var job := s.host.jobs[j];
    && (job.Done() <==> job.state == Completed)
    && (job.state == Queued ==> Settled(s, j))
    && (job.Done() && job.response.value.NotStarted? ==> Settled(s, j))
    && (job.Done() && job.response.value.Ran? ==> IsExecution(s, job.response.value.execution, j))
  }

  ghost predicate JobsOk(s: State) { forall j | 0 <= j < |s.host.jobs| :: JobOk(s, j) }

  predicate MsgOk(s: State, m: nat)
    requires m < |s.msgs|
  {
    var msg := s.msgs[m];
    && msg.job < |s.host.jobs|
    && msg.control == s.host.jobs[msg.job].control == msg.context.None?
    && msg.deadline <= s.host.jobs[msg.job].deadline
    && (msg.phase.Running? || msg.phase.Finished? ==>
          msg.phase.execution < |s.starts| && s.starts[msg.phase.execution].msg == m
          && s.starts[msg.phase.execution].job == msg.job)
  }

  ghost predicate MsgsOk(s: State) { forall m | 0 <= m < |s.msgs| :: MsgOk(s, m) }

  /** A second POST for a job is made only after the first was proved not to have started. */
  ghost predicate OnceOk(s: State) {
    forall m, n | 0 <= m < n < |s.msgs| && s.msgs[m].job == s.msgs[n].job :: s.msgs[m].phase.Rejected?
  }

  // ---- Executions -------------------------------------------------------------------

  predicate StartOk(s: State, i: nat)
    requires i < |s.starts|
  {
    var r := s.starts[i];
    && r.msg < |s.msgs| && r.job == s.msgs[r.msg].job
    && (s.msgs[r.msg].phase.Running? || s.msgs[r.msg].phase.Finished? || s.msgs[r.msg].phase.Dead?)
    && r.time < s.msgs[r.msg].deadline
    && (s.msgs[r.msg].context.Some? ==> s.msgs[r.msg].context.value == Context(r.domain, r.generation))
    && r.listener == Some(r.epoch)
    && (!s.msgs[r.msg].control ==> r.listening)
  }

  ghost predicate StartsOk(s: State) {
    && (forall i | 0 <= i < |s.starts| :: StartOk(s, i))
    && (forall i, k | 0 <= i < k < |s.starts| :: s.starts[i].msg != s.starts[k].msg)
  }

  predicate HasEpoch(p: Phase) { p.Parsed? || p.Enqueued? || p.WaitingLock? || p.Holding? || p.Loading? }

  function EpochOf(p: Phase): nat
    requires HasEpoch(p)
  {
    match p
    case Parsed(e) => e case Enqueued(e) => e case WaitingLock(e) => e case Holding(e) => e case Loading(e) => e
  }

  /** A listener whose token is not cancelled is the one running now. */
  ghost predicate ListenersOk(s: State) {
    && (s.unity.listener.Some? ==> s.unity.listener.value < s.unity.epochs)
    && (forall e: nat | e < s.unity.epochs :: e in s.unity.cancelled || s.unity.listener == Some(e))
    && (forall m | 0 <= m < |s.msgs| && HasEpoch(s.msgs[m].phase) :: EpochOf(s.msgs[m].phase) < s.unity.epochs)
  }

  predicate Executing(msg: Msg) {
    msg.phase.Holding? || msg.phase.Loading? || (msg.phase.Running? && !msg.control)
  }

  /** The execution lock belongs to the one ordinary command past it. */
  ghost predicate LockOk(s: State) {
    forall m | 0 <= m < |s.msgs| && Executing(s.msgs[m]) :: s.unity.lock == Held(m)
  }

  // ---- Threads ----------------------------------------------------------------------

  ghost predicate PcOk(s: State, pc: Pc) {
    (HasJob(pc) ==> JobOf(pc) < |s.host.jobs| && !s.host.jobs[JobOf(pc)].control) &&
    match pc
    case Top => true
    case Closing => true
    case Sending(j, a, _, _, _) => a < 2 && Settled(s, j) && Sent(s.host.jobs[j])
    case Awaiting(j, a, m) =>
      && a < 2 && Sent(s.host.jobs[j])
      && m < |s.msgs| && s.msgs[m].job == j
      && (forall n | 0 <= n < |s.msgs| && s.msgs[n].job == j && n != m :: s.msgs[n].phase.Rejected?)
    case Replied(j, a, answer) =>
      && a < 2 && Sent(s.host.jobs[j])
      && (answer.NotStarted? ==> Settled(s, j))
      && (answer.Ran? ==> IsExecution(s, answer.execution, j))
    case Answering(j, answer) =>
      && (answer.NotStarted? ==> Settled(s, j) || s.host.jobs[j].Done())
      && (answer.Ran? ==> IsExecution(s, answer.execution, j))
    case Failed(_) => true
    case Begin(j) => Settled(s, j) && s.host.jobs[j].state != Dispatched
    case Waiting(j, a) => a < 2 && Settled(s, j) && s.host.jobs[j].state != Dispatched
    case Expiring(j) => Settled(s, j) && s.host.jobs[j].state != Dispatched
    case Compiling(j, a, _) => a < 2 && Settled(s, j) && s.host.jobs[j].state != Dispatched
    case Checking(j, a, _) => a < 2 && Settled(s, j) && s.host.jobs[j].state != Dispatched
    case Checked(j, a, c, n) =>
      a < 2 && Settled(s, j) && s.host.jobs[j].state != Dispatched && c == Context(n.domain, n.generation)
    case Armed(j, a, c, n, _) =>
      a < 2 && Settled(s, j) && s.host.jobs[j].state != Dispatched && c == Context(n.domain, n.generation)
    case Invalidating(j, a) => a == 0 && Settled(s, j) && s.host.jobs[j].state != Dispatched
  }

  ghost predicate ControlOk(s: State, j: nat, pc: ControlPc) {
    && j < |s.host.jobs| && s.host.jobs[j].control
    && match pc
       case Starting => Settled(s, j) && s.host.jobs[j].state != Dispatched
       case Measured(_, _) => Settled(s, j) && s.host.jobs[j].state != Dispatched
       case Posting(_) => Settled(s, j) && Sent(s.host.jobs[j])
       case Pending(m) =>
         && Sent(s.host.jobs[j]) && m < |s.msgs| && s.msgs[m].job == j
         && (forall n | 0 <= n < |s.msgs| && s.msgs[n].job == j && n != m :: s.msgs[n].phase.Rejected?)
       case Done(answer) =>
         && (answer.NotStarted? ==> Settled(s, j))
         && (answer.Ran? ==> IsExecution(s, answer.execution, j))
  }

  ghost predicate ThreadsOk(s: State) {
    && (forall w | w in s.host.workers :: w < s.host.spawned && PcOk(s, s.host.workers[w]))
    && (forall j | j in s.host.controls :: ControlOk(s, j, s.host.controls[j]))
  }

  /** At most one worker loop; and while the host is not stopping, pending work has one. */
  ghost predicate WorkerOk(s: State) {
    && (forall w, v | w in s.host.workers && v in s.host.workers :: w == v)
    && (s.host.workers != map[] ==> s.host.workerStarted)
    && (s.host.workerStarted && !s.host.stopping ==> s.host.workers != map[])
    && (s.host.pending != [] ==> s.host.workerStarted)
  }

  // ---- Order of posting -------------------------------------------------------------

  ghost predicate OrderOk(s: State) {
    && Ascending(s.host.pending)
    && (forall i | 0 <= i < |s.host.pending| ::
          s.host.pending[i] < |s.host.jobs| && !s.host.jobs[s.host.pending[i]].control
          && s.host.jobs[s.host.pending[i]].state != Dispatched)
    && (forall m, n | 0 <= m < n < |s.msgs| && !s.msgs[m].control && !s.msgs[n].control ::
          s.msgs[m].job <= s.msgs[n].job)
    && (forall m, i | 0 <= m < |s.msgs| && !s.msgs[m].control && 0 <= i < |s.host.pending| ::
          s.msgs[m].job < s.host.pending[i])
    && (forall w | w in s.host.workers && HasJob(s.host.workers[w]) ::
          && (forall m | 0 <= m < |s.msgs| && !s.msgs[m].control :: s.msgs[m].job <= JobOf(s.host.workers[w]))
          && (forall i | 0 <= i < |s.host.pending| :: JobOf(s.host.workers[w]) < s.host.pending[i]))
  }

  // ---- The table of requests --------------------------------------------------------

  ghost function Unfinished(s: State): set<nat> {
    set j | 0 <= j < |s.host.jobs| && !s.host.jobs[j].Done()
  }

  ghost predicate TableOk(s: State) {
    && Ascending(s.host.table)
    && (forall j | j in s.host.table :: j < |s.host.jobs|)
    && (forall j | 0 <= j < |s.host.jobs| && !s.host.jobs[j].Done() :: j in s.host.table)
    && (forall j, k | j in s.host.table && k in s.host.table && s.host.jobs[j].id == s.host.jobs[k].id :: j == k)
    && |Unfinished(s)| <= LIMIT
  }

  // ---- Callers ----------------------------------------------------------------------

  predicate SameWork(job: Job, r: Submission) { job.id == r.id && job.signature == r.signature }

  /** A submission waits on a job for the same work, and is told that job's one answer; a reply that
      comes from no job is a refusal. */
  predicate CallOk(s: State, call: Call) {
    match call.pc
    case Joined(j, _) => j < |s.host.jobs| && SameWork(s.host.jobs[j], call.request)
    case Told(answer, Some(j)) =>
      j < |s.host.jobs| && SameWork(s.host.jobs[j], call.request) && s.host.jobs[j].response == Some(answer)
    case Told(answer, None) => answer.NotStarted?
    case _ => true
  }

  ghost predicate CallsOk(s: State) { forall c | 0 <= c < |s.calls| :: CallOk(s, s.calls[c]) }

  ghost predicate Inv(s: State) {
    && JobsOk(s) && MsgsOk(s) && OnceOk(s) && StartsOk(s) && ListenersOk(s) && LockOk(s)
    && ThreadsOk(s) && WorkerOk(s) && OrderOk(s) && TableOk(s) && CallsOk(s)
  }

  lemma InitInv(s: State)
    requires Init(s)
    ensures Inv(s)
  {
    assert Unfinished(s) == {};
  }

  // ---- Steps of Unity ---------------------------------------------------------------

  /** A step of Unity: the host is untouched, phases move forward, executions are only added. */
  ghost predicate Advances(s: State, t: State) {
    && t.host == s.host && t.calls == s.calls
    && |t.msgs| == |s.msgs|
    && (forall m | 0 <= m < |s.msgs| ::
          && t.msgs[m] == s.msgs[m].(phase := t.msgs[m].phase)
          && (s.msgs[m].phase.Rejected? ==> t.msgs[m].phase.Rejected?))
    && s.starts <= t.starts
  }

  lemma AdvanceKeepsHost(s: State, t: State)
    requires Inv(s) && Advances(s, t)
    ensures JobsOk(t) && OnceOk(t) && ThreadsOk(t) && WorkerOk(t) && OrderOk(t) && TableOk(t) && CallsOk(t)
  {
    forall j | 0 <= j < |t.host.jobs|
      ensures JobOk(t, j)
    {
      assert JobOk(s, j);
    }
    forall w | w in t.host.workers
      ensures PcOk(t, t.host.workers[w])
    {
      assert PcOk(s, s.host.workers[w]);
    }
    forall j | j in t.host.controls
      ensures ControlOk(t, j, t.host.controls[j])
    {
      assert ControlOk(s, j, s.host.controls[j]);
    }
    assert Unfinished(t) == Unfinished(s);
  }

  lemma EditorAdvances(s: State, a: EditorStep)
    requires EditorCan(s, a)
    ensures Advances(s, EditorDo(s, a))
    ensures EditorDo(s, a).starts == s.starts
    ensures forall m | 0 <= m < |s.msgs| ::
      var p, q := s.msgs[m].phase, EditorDo(s, a).msgs[m].phase;
      q == p || q.Dead? || (p.Enqueued? && q.Rejected?)
  {
  }

  lemma EditorKeepsMsgs(s: State, a: EditorStep)
    requires MsgsOk(s) && StartsOk(s) && EditorCan(s, a)
    ensures MsgsOk(EditorDo(s, a)) && StartsOk(EditorDo(s, a))
  {
    var t := EditorDo(s, a);
    EditorAdvances(s, a);
    forall m | 0 <= m < |t.msgs|
      ensures MsgOk(t, m)
    {
      assert MsgOk(s, m);
    }
    forall i | 0 <= i < |t.starts|
      ensures StartOk(t, i)
    {
      assert StartOk(s, i);
    }
  }

  lemma EditorKeepsListeners(s: State, a: EditorStep)
    requires ListenersOk(s) && EditorCan(s, a)
    ensures ListenersOk(EditorDo(s, a))
  {
  }

  lemma EditorKeepsLock(s: State, a: EditorStep)
    requires LockOk(s) && EditorCan(s, a)
    ensures LockOk(EditorDo(s, a))
  {
  }

  lemma EditorKeeps(s: State, a: EditorStep)
    requires Inv(s) && EditorCan(s, a)
    ensures Inv(EditorDo(s, a))
  {
    EditorAdvances(s, a);
    AdvanceKeepsHost(s, EditorDo(s, a));
    EditorKeepsMsgs(s, a);
    EditorKeepsListeners(s, a);
    EditorKeepsLock(s, a);
  }

  lemma MessageAdvances(s: State, m: nat, a: MessageStep)
    requires MessageCan(s, m, a)
    ensures Advances(s, MessageDo(s, m, a))
    ensures forall n | 0 <= n < |s.msgs| && n != m :: MessageDo(s, m, a).msgs[n] == s.msgs[n]
  {
  }

  lemma MessageKeepsIts(s: State, m: nat, a: MessageStep)
    requires MessageCan(s, m, a) && MsgOk(s, m)
    ensures MsgOk(MessageDo(s, m, a), m)
  {
  }

  lemma MessageKeepsMsgs(s: State, m: nat, a: MessageStep)
    requires MsgsOk(s) && MessageCan(s, m, a)
    ensures MsgsOk(MessageDo(s, m, a))
  {
    var t := MessageDo(s, m, a);
    MessageAdvances(s, m, a);
    MessageKeepsIts(s, m, a);
    forall n | 0 <= n < |t.msgs| && n != m
      ensures MsgOk(t, n)
    {
      assert MsgOk(s, n);
      OtherMsgStays(s, t, n);
    }
  }

  lemma OtherMsgStays(s: State, t: State, n: nat)
    requires Advances(s, t) && n < |s.msgs| && t.msgs[n] == s.msgs[n] && MsgOk(s, n)
    ensures MsgOk(t, n)
  {
  }

  /** An execution starts only past the check, so at that instant everything it promises holds. */
  lemma MessageKeepsStarts(s: State, m: nat, a: MessageStep)
    requires MsgsOk(s) && StartsOk(s) && ListenersOk(s) && MessageCan(s, m, a)
    ensures StartsOk(MessageDo(s, m, a))
  {
    var t := MessageDo(s, m, a);
    assert MsgOk(s, m);
    forall i | 0 <= i < |s.starts|
      ensures StartOk(t, i) && (|t.starts| > |s.starts| ==> s.starts[i].msg != m)
    {
      assert StartOk(s, i);
    }
    if |t.starts| > |s.starts| {
      assert StartOk(t, |s.starts|);
    }
  }

  lemma MessageKeepsListeners(s: State, m: nat, a: MessageStep)
    requires ListenersOk(s) && MessageCan(s, m, a)
    ensures ListenersOk(MessageDo(s, m, a))
  {
  }

  lemma MessageKeepsLock(s: State, m: nat, a: MessageStep)
    requires LockOk(s) && MessageCan(s, m, a)
    ensures LockOk(MessageDo(s, m, a))
  {
  }

  lemma MessageKeeps(s: State, m: nat, a: MessageStep)
    requires Inv(s) && MessageCan(s, m, a)
    ensures Inv(MessageDo(s, m, a))
  {
    MessageAdvances(s, m, a);
    AdvanceKeepsHost(s, MessageDo(s, m, a));
    MessageKeepsMsgs(s, m, a);
    MessageKeepsStarts(s, m, a);
    MessageKeepsListeners(s, m, a);
    MessageKeepsLock(s, m, a);
  }
}
