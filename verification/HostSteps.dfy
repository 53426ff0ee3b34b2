/** The steps of the host keep the invariant: each is a thread moving, a job changing, or a
    message being posted. */
module HostSteps {
  import opened Wrappers
  import opened HostQueue
  import opened HostProtocol
  import opened HostInvariant

  // ---- A thread moves ---------------------------------------------------------------

  /** The job comes after every ordinary command posted and before every one pending. */
  ghost predicate Placed(s: State, j: nat) {
    && (forall m | 0 <= m < |s.msgs| && !s.msgs[m].control :: s.msgs[m].job <= j)
    && (forall i | 0 <= i < |s.host.pending| :: j < s.host.pending[i])
  }

  lemma WorkerMoves(s: State, w: nat, pc: Pc)
    requires Inv(s) && w in s.host.workers && PcOk(s, pc) && (HasJob(pc) ==> Placed(s, JobOf(pc)))
    ensures Inv(At(s, w, pc))
  {
    var t := At(s, w, pc);
    SameRecords(s, t);
    forall v | v in t.host.workers
      ensures v < t.host.spawned && PcOk(t, t.host.workers[v])
    {
      PcFrame(s, t, t.host.workers[v]);
    }
    forall j | j in t.host.controls
      ensures ControlOk(t, j, t.host.controls[j])
    {
      ControlFrame(s, t, j, t.host.controls[j]);
    }
  }

  /** Everything a thread's condition depends on is the same. */
  ghost predicate SameWorld(s: State, t: State) {
    t.host.jobs == s.host.jobs && t.msgs == s.msgs && t.starts == s.starts
  }

  lemma PcFrame(s: State, t: State, pc: Pc)
    requires SameWorld(s, t) && PcOk(s, pc)
    ensures PcOk(t, pc)
  {
  }

  lemma ControlFrame(s: State, t: State, j: nat, pc: ControlPc)
    requires SameWorld(s, t) && ControlOk(s, j, pc)
    ensures ControlOk(t, j, pc)
  {
  }

  lemma SameRecords(s: State, t: State)
    requires Inv(s) && SameWorld(s, t) && t.unity == s.unity && t.calls == s.calls && t.host.table == s.host.table
    ensures JobsOk(t) && MsgsOk(t) && OnceOk(t) && StartsOk(t) && ListenersOk(t) && LockOk(t) && TableOk(t) && CallsOk(t)
  {
    forall j | 0 <= j < |t.host.jobs|
      ensures JobOk(t, j)
    {
      assert JobOk(s, j);
    }
    forall m | 0 <= m < |t.msgs|
      ensures MsgOk(t, m)
    {
      assert MsgOk(s, m);
    }
    forall i | 0 <= i < |t.starts|
      ensures StartOk(t, i)
    {
      assert StartOk(s, i);
    }
    assert Unfinished(t) == Unfinished(s);
  }

  lemma ControlMoves(s: State, j: nat, pc: ControlPc)
    requires Inv(s) && ControlOk(s, j, pc)
    ensures Inv(ControlAt(s, j, pc))
  {
    var t := ControlAt(s, j, pc);
    SameRecords(s, t);
    ThreadsFrame(s, t);
  }

  lemma ControlLeaves(s: State, j: nat)
    requires Inv(s)
    ensures Inv(ControlEnds(s, j))
  {
    var t := ControlEnds(s, j);
    SameRecords(s, t);
    ThreadsFrame(s, t);
  }

  lemma ThreadsFrame(s: State, t: State)
    requires ThreadsOk(s) && SameWorld(s, t) && t.host.workers == s.host.workers && t.host.spawned == s.host.spawned
    requires forall j | j in t.host.controls ::
      ControlOk(s, j, t.host.controls[j]) || (j in s.host.controls && t.host.controls[j] == s.host.controls[j])
    ensures ThreadsOk(t)
  {
    forall v | v in t.host.workers
      ensures PcOk(t, t.host.workers[v])
    {
      PcFrame(s, t, t.host.workers[v]);
    }
    forall j | j in t.host.controls
      ensures ControlOk(t, j, t.host.controls[j])
    {
      ControlFrame(s, t, j, t.host.controls[j]);
    }
  }

  // ---- A job changes ----------------------------------------------------------------

  /** No thread holds the job and it is not waiting for one. */
  ghost predicate Unattended(s: State, j: nat) {
    && (forall w | w in s.host.workers && HasJob(s.host.workers[w]) :: JobOf(s.host.workers[w]) != j)
    && j !in s.host.controls && j !in s.host.pending
  }

  predicate SameRequest(was: Job, now: Job) {
    now == was.(state := now.state, response := now.response)
  }

  /** A change no thread that holds the job can be upset by. */
  predicate Harmless(was: Job, now: Job) {
    (Sent(was) ==> Sent(now)) && (was.state != Dispatched ==> now.state != Dispatched)
  }

  lemma JobChanges(s: State, j: nat, job: Job)
    requires Inv(s) && j < |s.host.jobs|
    requires SameRequest(s.host.jobs[j], job) && (s.host.jobs[j].Done() ==> job == s.host.jobs[j])
    requires JobOk(WithJob(s, j, job), j)
    requires Harmless(s.host.jobs[j], job) || Unattended(s, j)
    ensures Inv(WithJob(s, j, job))
  {
    var t := WithJob(s, j, job);
    forall k | 0 <= k < |t.host.jobs| && k != j
      ensures JobOk(t, k)
    {
      assert JobOk(s, k);
    }
    forall m | 0 <= m < |t.msgs|
      ensures MsgOk(t, m)
    {
      assert MsgOk(s, m);
    }
    forall i | 0 <= i < |t.starts|
      ensures StartOk(t, i)
    {
      assert StartOk(s, i);
    }
    JobChangeThreads(s, j, job);
    JobChangeTable(s, j, job);
  }

  lemma JobChangeThreads(s: State, j: nat, job: Job)
    requires ThreadsOk(s) && j < |s.host.jobs|
    requires SameRequest(s.host.jobs[j], job) && (s.host.jobs[j].Done() ==> job == s.host.jobs[j])
    requires Harmless(s.host.jobs[j], job) || Unattended(s, j)
    ensures ThreadsOk(WithJob(s, j, job))
  {
    var t := WithJob(s, j, job);
    forall w | w in t.host.workers
      ensures PcOk(t, t.host.workers[w])
    {
      assert PcOk(s, s.host.workers[w]);
    }
    forall k | k in t.host.controls
      ensures ControlOk(t, k, t.host.controls[k])
    {
      assert ControlOk(s, k, s.host.controls[k]);
    }
  }

  lemma JobChangeTable(s: State, j: nat, job: Job)
    requires TableOk(s) && j < |s.host.jobs|
    requires SameRequest(s.host.jobs[j], job) && (s.host.jobs[j].Done() ==> job == s.host.jobs[j])
    ensures TableOk(WithJob(s, j, job))
  {
    var t := WithJob(s, j, job);
    Fewer(Unfinished(t), Unfinished(s));
  }

  lemma {:induction false} Fewer(a: set<nat>, b: set<nat>)
    requires a <= b
    ensures |a| <= |b|
  {
    if a != {} {
      var x :| x in a;
      Fewer(a - {x}, b - {x});
    }
  }

  /** A caller may give a job up at any moment. */
  lemma ExpireKeeps(s: State, j: nat)
    requires Inv(s) && j < |s.host.jobs|
    ensures Inv(WithJob(s, j, s.host.jobs[j].Expire()))
  {
    var job := s.host.jobs[j].Expire();
    assert JobOk(s, j);
    JobChanges(s, j, job);
  }

  // ---- The worker -------------------------------------------------------------------

  lemma HeldJob(s: State, w: nat)
    requires Inv(s) && w in s.host.workers && HasJob(s.host.workers[w])
    ensures var j := JobOf(s.host.workers[w]);
      PcOk(s, s.host.workers[w]) && j < |s.host.jobs| && JobOk(s, j) && Placed(s, j)
  {
    assert PcOk(s, s.host.workers[w]);
    assert JobOk(s, JobOf(s.host.workers[w]));
  }

  lemma WorkerLetsGo(s: State, w: nat)
    requires Inv(s) && w in s.host.workers && HasJob(s.host.workers[w])
    ensures var j := JobOf(s.host.workers[w]); var t := At(s, w, Closing);
      Inv(t) && Unattended(t, j) && Placed(t, j)
  {
    assert PcOk(s, s.host.workers[w]);
    WorkerMoves(s, w, Closing);
    var j := JobOf(s.host.workers[w]);
    forall k | k in s.host.controls
      ensures k != j
    {
      assert ControlOk(s, k, s.host.controls[k]);
    }
  }

  lemma WorkerFinishes(s: State, w: nat, job: Job)
    requires Inv(s) && w in s.host.workers && HasJob(s.host.workers[w])
    requires var j := JobOf(s.host.workers[w]);
      && j < |s.host.jobs| && SameRequest(s.host.jobs[j], job) && (s.host.jobs[j].Done() ==> job == s.host.jobs[j])
      && JobOk(WithJob(s, j, job), j)
    ensures Inv(At(WithJob(s, JobOf(s.host.workers[w]), job), w, Closing))
    ensures Unattended(At(WithJob(s, JobOf(s.host.workers[w]), job), w, Closing), JobOf(s.host.workers[w]))
    ensures Placed(At(WithJob(s, JobOf(s.host.workers[w]), job), w, Closing), JobOf(s.host.workers[w]))
  {
    var j := JobOf(s.host.workers[w]);
    WorkerLetsGo(s, w);
    var t := At(s, w, Closing);
    assert JobOk(WithJob(t, j, job), j);
    JobChanges(t, j, job);
    assert WithJob(t, j, job) == At(WithJob(s, j, job), w, Closing);
  }

  lemma WorkerTurns(s: State, w: nat, job: Job, pc: Pc)
    requires Inv(s) && w in s.host.workers && HasJob(s.host.workers[w])
    requires var j := JobOf(s.host.workers[w]);
      && j < |s.host.jobs| && SameRequest(s.host.jobs[j], job) && (s.host.jobs[j].Done() ==> job == s.host.jobs[j])
      && JobOk(WithJob(s, j, job), j)
      && HasJob(pc) && JobOf(pc) == j && PcOk(WithJob(s, j, job), pc)
    ensures Inv(At(WithJob(s, JobOf(s.host.workers[w]), job), w, pc))
  {
    hide Inv, Placed;
    var j := JobOf(s.host.workers[w]);
    WorkerFinishes(s, w, job);
    var t := At(WithJob(s, j, job), w, Closing);
    PcFrame(WithJob(s, j, job), t, pc);
    WorkerMoves(t, w, pc);
    assert At(t, w, pc) == At(WithJob(s, j, job), w, pc);
  }

  lemma DispatchedPc(s: State, pc: Pc)
    requires pc.Armed? && PcOk(s, pc) && JobOk(s, pc.job) && !s.host.jobs[pc.job].Done()
    ensures var t := WithJob(s, pc.job, s.host.jobs[pc.job].(state := Dispatched));
      JobOk(t, pc.job) && PcOk(t, Sending(pc.job, pc.attempt, pc.context, pc.snapshot, pc.remaining))
  {
  }

  lemma RequeuedPc(s: State, pc: Pc)
    requires pc.Replied? && PcOk(s, pc) && JobOk(s, pc.job) && !s.host.jobs[pc.job].Done()
    requires pc.attempt == 0 && Retryable(pc.answer)
    ensures var t := WithJob(s, pc.job, s.host.jobs[pc.job].(state := Queued));
      JobOk(t, pc.job) && PcOk(t, Invalidating(pc.job, pc.attempt))
  {
  }

  /** Handing the job to Unity: from here on it is `Sent`. */
  lemma WorkerDispatches(s: State, w: nat)
    requires Inv(s) && WorkerCan(s, w, Dispatch)
    ensures Inv(WorkerDo(s, w, Dispatch))
  {
    hide Inv, Placed, JobOk;
    var pc := s.host.workers[w];
    var j := pc.job;
    HeldJob(s, w);
    if s.host.jobs[j].Done() {
      WorkerMoves(s, w, Closing);
    } else if pc.remaining <= 0 {
      WorkerMoves(s, w, Expiring(j));
    } else {
      var job := s.host.jobs[j].(state := Dispatched);
      DispatchedPc(s, pc);
      WorkerTurns(s, w, job, Sending(j, pc.attempt, pc.context, pc.snapshot, pc.remaining));
    }
  }

  /** One more message, posted for a job none of whose earlier messages is live. */
  function Posted(s: State, msg: Msg): State { s.(msgs := s.msgs + [msg]) }

  lemma PostKeepsMessages(s: State, msg: Msg)
    requires Inv(s) && msg.job < |s.host.jobs| && msg.phase == InFlight
    requires msg.control == s.host.jobs[msg.job].control == msg.context.None? && msg.deadline <= s.host.jobs[msg.job].deadline
    requires Settled(s, msg.job) && Sent(s.host.jobs[msg.job])
    ensures var t := Posted(s, msg);
      JobsOk(t) && MsgsOk(t) && OnceOk(t) && StartsOk(t) && ListenersOk(t) && LockOk(t) && TableOk(t) && CallsOk(t)
  {
    var t := Posted(s, msg);
    forall j | 0 <= j < |t.host.jobs|
      ensures JobOk(t, j)
    {
      assert JobOk(s, j);
    }
    forall m | 0 <= m < |t.msgs|
      ensures MsgOk(t, m)
    {
      if m < |s.msgs| { assert MsgOk(s, m); }
    }
    forall i | 0 <= i < |t.starts|
      ensures StartOk(t, i)
    {
      assert StartOk(s, i);
    }
    assert Unfinished(t) == Unfinished(s);
  }

  lemma PostKeepsOthers(s: State, msg: Msg, pc: Pc)
    requires PcOk(s, pc) && (HasJob(pc) ==> JobOf(pc) != msg.job)
    ensures PcOk(Posted(s, msg), pc)
  {
  }

  lemma PostKeepsQueries(s: State, msg: Msg, j: nat, pc: ControlPc)
    requires ControlOk(s, j, pc) && j != msg.job
    ensures ControlOk(Posted(s, msg), j, pc)
  {
  }

  lemma QueriesStayPosted(s: State, t: State, msg: Msg)
    requires ThreadsOk(s) && msg.job !in s.host.controls && t.host.controls == s.host.controls
    requires SameWorld(Posted(s, msg), t)
    ensures forall j | j in t.host.controls :: ControlOk(t, j, t.host.controls[j])
  {
    forall j | j in t.host.controls
      ensures ControlOk(t, j, t.host.controls[j])
    {
      PostKeepsQueries(s, msg, j, s.host.controls[j]);
      ControlFrame(Posted(s, msg), t, j, s.host.controls[j]);
    }
  }

  lemma WorkerPostsThreads(s: State, w: nat)
    requires Inv(s) && WorkerCan(s, w, Post)
    ensures ThreadsOk(WorkerDo(s, w, Post))
  {
    var pc, t := s.host.workers[w], WorkerDo(s, w, Post);
    assert ThreadsOk(s) && WorkerOk(s);
    hide Inv, Placed;
    HeldJob(s, w);
    WorkerLetsGo(s, w);
    QueriesStayPosted(s, t, t.msgs[|s.msgs|]);
    AwaitsPosted(s, t, pc);
    hide ControlOk;
  }

  lemma WorkerPosts(s: State, w: nat)
    requires Inv(s) && WorkerCan(s, w, Post)
    ensures Inv(WorkerDo(s, w, Post))
  {
    WorkerPostsRecords(s, w);
    WorkerPostsOrder(s, w);
    WorkerPostsThreads(s, w);
    hide WorkerDo, WorkerCan, JobsOk, MsgsOk, OnceOk, StartsOk, ListenersOk, LockOk, TableOk, CallsOk, ThreadsOk,
      OrderOk, WorkerOk;
  }

  lemma AwaitsPosted(s: State, t: State, pc: Pc)
    requires pc.Sending? && PcOk(s, pc) && t.host.jobs == s.host.jobs
    requires |t.msgs| == |s.msgs| + 1 && t.msgs[..|s.msgs|] == s.msgs && t.msgs[|s.msgs|].job == pc.job
    ensures PcOk(t, Awaiting(pc.job, pc.attempt, |s.msgs|))
  {
    assert forall n | 0 <= n < |s.msgs| :: t.msgs[n] == s.msgs[n];
  }

  lemma WorkerPostsRecords(s: State, w: nat)
    requires Inv(s) && WorkerCan(s, w, Post)
    ensures var t := WorkerDo(s, w, Post);
      JobsOk(t) && MsgsOk(t) && OnceOk(t) && StartsOk(t) && ListenersOk(t) && LockOk(t) && TableOk(t) && CallsOk(t)
  {
    hide Inv, Placed;
    var t := WorkerDo(s, w, Post);
    HeldJob(s, w);
    PostKeepsMessages(s, t.msgs[|s.msgs|]);
    SameWorldPosted(s, t, t.msgs[|s.msgs|]);
  }

  lemma WorkerPostsOrder(s: State, w: nat)
    requires Inv(s) && WorkerCan(s, w, Post)
    ensures OrderOk(WorkerDo(s, w, Post)) && WorkerOk(WorkerDo(s, w, Post))
  {
    HeldJob(s, w);
  }

  lemma SameWorldPosted(s: State, t: State, msg: Msg)
    requires SameWorld(Posted(s, msg), t) && t.unity == s.unity && t.calls == s.calls && t.host.table == s.host.table
    requires var p := Posted(s, msg);
      JobsOk(p) && MsgsOk(p) && OnceOk(p) && StartsOk(p) && ListenersOk(p) && LockOk(p) && TableOk(p) && CallsOk(p)
    ensures JobsOk(t) && MsgsOk(t) && OnceOk(t) && StartsOk(t) && ListenersOk(t) && LockOk(t) && TableOk(t) && CallsOk(t)
  {
    var p := Posted(s, msg);
    forall j | 0 <= j < |t.host.jobs|
      ensures JobOk(t, j)
    {
      assert JobOk(p, j);
    }
    forall m | 0 <= m < |t.msgs|
      ensures MsgOk(t, m)
    {
      assert MsgOk(p, m);
    }
    forall i | 0 <= i < |t.starts|
      ensures StartOk(t, i)
    {
      assert StartOk(p, i);
    }
    assert Unfinished(t) == Unfinished(p);
  }

  lemma WorkerPops(s: State, w: nat)
    requires Inv(s) && WorkerCan(s, w, Pop)
    ensures Inv(WorkerDo(s, w, Pop))
  {
    var t := WorkerDo(s, w, Pop);
    var j := s.host.pending[0];
    SameRecords(s, t);
    forall m | 0 <= m < |s.msgs|
      ensures s.msgs[m].job != j
    {
      assert MsgOk(s, m);
    }
    forall v | v in t.host.workers
      ensures PcOk(t, t.host.workers[v])
    {
      assert v == w;
      assert JobOk(s, j);
    }
    forall k | k in t.host.controls
      ensures ControlOk(t, k, t.host.controls[k])
    {
      ControlFrame(s, t, k, t.host.controls[k]);
    }
  }

  lemma WorkerExits(s: State, w: nat, a: WorkerStep)
    requires Inv(s) && WorkerCan(s, w, a) && (a.ExitStopping? || a.ExitDead?)
    ensures Inv(WorkerDo(s, w, a))
  {
    var t := WorkerDo(s, w, a);
    SameRecords(s, t);
    forall k | k in t.host.controls
      ensures ControlOk(t, k, t.host.controls[k])
    {
      ControlFrame(s, t, k, t.host.controls[k]);
    }
    assert t.host.workers == map[];
  }

  lemma WorkerCloses(s: State, w: nat, view: set<nat>)
    requires Inv(s) && WorkerCan(s, w, Close(view))
    ensures Inv(WorkerDo(s, w, Close(view)))
  {
    WorkerMoves(s, w, Top);
    TrimKeeps(s.host.table, view);
    TableShrinks(At(s, w, Top), Trim(s.host.table, view), false);
  }

  /** Dropping finished jobs from the table. */
  lemma TableShrinks(s: State, table: seq<nat>, running: bool)
    requires Inv(s) && Ascending(table)
    requires forall j | j in table :: j in s.host.table
    requires forall j | j in s.host.table :: j in table || s.host.jobs[j].Done()
    ensures Inv(s.(host := s.host.(running := running, table := table)))
    ensures Inv(s.(host := s.host.(table := table)))
  {
    var h, g := s.host.(running := running, table := table), s.host.(table := table);
    TableFrame(s, s.(host := h));
    TableFrame(s, s.(host := g));
  }

  lemma TableFrame(s: State, t: State)
    requires Inv(s) && SameWorld(s, t) && t.unity == s.unity && t.calls == s.calls
    requires t.host == s.host.(running := t.host.running, table := t.host.table)
    requires Ascending(t.host.table) && forall j | j in t.host.table :: j in s.host.table
    requires forall j | j in s.host.table :: j in t.host.table || s.host.jobs[j].Done()
    ensures Inv(t)
  {
    var u := t.(host := t.host.(table := s.host.table));
    SameRecords(s, u);
    SameRecordsButTable(u, t);
    ThreadsFrame(s, t);
    assert Unfinished(t) == Unfinished(s);
  }

  lemma SameRecordsButTable(s: State, t: State)
    requires SameWorld(s, t) && t.unity == s.unity && t.calls == s.calls
    requires JobsOk(s) && MsgsOk(s) && OnceOk(s) && StartsOk(s) && ListenersOk(s) && LockOk(s) && CallsOk(s)
    ensures JobsOk(t) && MsgsOk(t) && OnceOk(t) && StartsOk(t) && ListenersOk(t) && LockOk(t) && CallsOk(t)
  {
    forall j | 0 <= j < |t.host.jobs|
      ensures JobOk(t, j)
    {
      assert JobOk(s, j);
    }
    forall m | 0 <= m < |t.msgs|
      ensures MsgOk(t, m)
    {
      assert MsgOk(s, m);
    }
    forall i | 0 <= i < |t.starts|
      ensures StartOk(t, i)
    {
      assert StartOk(s, i);
    }
  }

  lemma WorkerWaits(s: State, w: nat)
    requires Inv(s) && WorkerCan(s, w, Wait)
    ensures Inv(WorkerDo(s, w, Wait))
  {
    hide Inv, Placed, PcOk, JobOk;
    var h, pc := s.host, s.host.workers[w];
    var j := pc.job;
    HeldJob(s, w);
    if h.jobs[j].Done() || h.stopping || h.jobs[j].hostDeadline - s.clock <= 0 {
      WaitingPc(s, pc, Context(0, 0));
      WorkerMoves(s, w, Expiring(j));
    } else if !h.alive {
      WorkerGivesUp(s, w);
    } else if !h.snapshot.busy && h.context.Some? && h.contextKey == Some(h.snapshot.Key()) {
      WaitingPc(s, pc, h.context.value);
      WorkerMoves(s, w, WorkerDo(s, w, Wait).host.workers[w]);
    }
  }

  lemma WaitingPc(s: State, pc: Pc, context: Context)
    requires pc.Waiting? && PcOk(s, pc)
    ensures PcOk(s, Expiring(pc.job))
    ensures PcOk(s, Compiling(pc.job, pc.attempt, context)) && PcOk(s, Checking(pc.job, pc.attempt, context))
  {
  }

  /** The Editor died before the command was sent. */
  lemma WorkerGivesUp(s: State, w: nat)
    requires Inv(s) && w in s.host.workers && s.host.workers[w].Waiting?
    requires var j := s.host.workers[w].job; j < |s.host.jobs| && !s.host.jobs[j].Done()
    ensures var j := s.host.workers[w].job;
      Inv(At(WithJob(s, j, s.host.jobs[j].Complete(NotStarted(EditorUnavailable))), w, Expiring(j)))
  {
    hide Inv, Placed;
    HeldJob(s, w);
    var j := s.host.workers[w].job;
    var job := s.host.jobs[j].Complete(NotStarted(EditorUnavailable));
    WorkerFinishes(s, w, job);
    var t := At(WithJob(s, j, job), w, Closing);
    WorkerMoves(t, w, Expiring(j));
    assert At(t, w, Expiring(j)) == At(WithJob(s, j, job), w, Expiring(j));
  }

  lemma WorkerSettles(s: State, w: nat)
    requires Inv(s) && WorkerCan(s, w, Settle)
    ensures Inv(WorkerDo(s, w, Settle))
  {
    hide Inv, Placed;
    var h, pc := s.host, s.host.workers[w];
    var j := pc.job;
    HeldJob(s, w);
    if pc.attempt == 0 && Retryable(pc.answer) {
      if h.jobs[j].Done() {
        WorkerMoves(s, w, Closing);
      } else {
        var job := h.jobs[j].(state := Queued);
        RequeuedPc(s, pc);
        WorkerTurns(s, w, job, Invalidating(j, pc.attempt));
      }
    } else {
      WorkerMoves(s, w, Answering(j, pc.answer));
    }
  }

  lemma WorkerCompletes(s: State, w: nat)
    requires Inv(s) && WorkerCan(s, w, Complete)
    ensures Inv(WorkerDo(s, w, Complete))
  {
    hide Inv, Placed;
    var pc := s.host.workers[w];
    HeldJob(s, w);
    WorkerFinishes(s, w, s.host.jobs[pc.job].Complete(pc.answer));
  }

  lemma WorkerExpires(s: State, w: nat)
    requires Inv(s) && WorkerCan(s, w, Expire)
    ensures Inv(WorkerDo(s, w, Expire))
  {
    hide Inv, Placed;
    HeldJob(s, w);
    WorkerFinishes(s, w, s.host.jobs[s.host.workers[w].job].Expire());
  }

  lemma WorkerReceives(s: State, w: nat, a: WorkerStep)
    requires Inv(s) && WorkerCan(s, w, a) && (a.Receive? || a.Lose?)
    ensures Inv(WorkerDo(s, w, a))
  {
    var pc := s.host.workers[w];
    assert PcOk(s, pc) && MsgOk(s, pc.msg);
    WorkerMoves(s, w, WorkerDo(s, w, a).host.workers[w]);
  }

  lemma WorkerInvalidates(s: State, w: nat)
    requires Inv(s) && WorkerCan(s, w, Invalidate)
    ensures Inv(WorkerDo(s, w, Invalidate))
  {
    var pc := s.host.workers[w];
    assert PcOk(s, pc);
    WorkerMoves(s, w, Waiting(pc.job, 1));
    NoticeKeeps(At(s, w, Waiting(pc.job, 1)), WorkerDo(s, w, Invalidate));
  }

  /** What the host knows of the Editor affects no invariant. */
  lemma NoticeKeeps(s: State, t: State)
    requires Inv(s)
    requires t == s.(host := s.host.(snapshot := t.host.snapshot, context := t.host.context,
                                     contextKey := t.host.contextKey, alive := t.host.alive),
                     unix := t.unix, clock := t.clock)
    ensures Inv(t)
  {
    SameRecords(s, t);
    ThreadsFrame(s, t);
  }

  lemma WorkerPrepares(s: State, w: nat, a: WorkerStep)
    requires Inv(s) && WorkerCan(s, w, a)
    requires a.BeginJob? || a.CompileOk? || a.CompileStale? || a.CompileRefused?
    ensures Inv(WorkerDo(s, w, a))
  {
    hide Inv, Placed;
    HeldJob(s, w);
    WorkerMoves(s, w, WorkerDo(s, w, a).host.workers[w]);
  }

  lemma WorkerChecks(s: State, w: nat, a: WorkerStep)
    requires Inv(s) && WorkerCan(s, w, a) && (a.Check? || a.Measure?)
    ensures Inv(WorkerDo(s, w, a))
  {
    hide Inv, Placed;
    HeldJob(s, w);
    WorkerMoves(s, w, WorkerDo(s, w, a).host.workers[w]);
  }

  lemma WorkerFails(s: State, w: nat, a: WorkerStep)
    requires Inv(s) && WorkerCan(s, w, a) && (a.Throw? || a.ReadState?)
    ensures Inv(WorkerDo(s, w, a))
  {
    hide Inv, Placed;
    HeldJob(s, w);
    WorkerMoves(s, w, WorkerDo(s, w, a).host.workers[w]);
  }

  lemma WorkerKeeps(s: State, w: nat, a: WorkerStep)
    requires Inv(s) && WorkerCan(s, w, a)
    ensures Inv(WorkerDo(s, w, a))
  {
    match a
    case Pop => WorkerPops(s, w);
    case ExitStopping => WorkerExits(s, w, a);
    case ExitDead => WorkerExits(s, w, a);
    case Wait => WorkerWaits(s, w);
    case Expire => WorkerExpires(s, w);
    case Complete => WorkerCompletes(s, w);
    case Dispatch => WorkerDispatches(s, w);
    case Post => WorkerPosts(s, w);
    case Receive => WorkerReceives(s, w, a);
    case Lose => WorkerReceives(s, w, a);
    case Settle => WorkerSettles(s, w);
    case Invalidate => WorkerInvalidates(s, w);
    case Close(view) => WorkerCloses(s, w, view);
    case Throw => WorkerFails(s, w, a);
    case ReadState => WorkerFails(s, w, a);
    case Check => WorkerChecks(s, w, a);
    case Measure => WorkerChecks(s, w, a);
    case _ => WorkerPrepares(s, w, a);
  }

  // ---- Live state queries -----------------------------------------------------------

  lemma QueryHeld(s: State, j: nat)
    requires Inv(s) && j in s.host.controls
    ensures ControlOk(s, j, s.host.controls[j]) && j < |s.host.jobs| && JobOk(s, j)
    ensures Inv(ControlEnds(s, j)) && Unattended(ControlEnds(s, j), j)
  {
    assert ControlOk(s, j, s.host.controls[j]) && JobOk(s, j);
    ControlLeaves(s, j);
    forall w | w in s.host.workers && HasJob(s.host.workers[w])
      ensures JobOf(s.host.workers[w]) != j
    {
      assert PcOk(s, s.host.workers[w]);
    }
  }

  lemma QueryFinishes(s: State, j: nat, job: Job)
    requires Inv(s) && j in s.host.controls && j < |s.host.jobs|
    requires SameRequest(s.host.jobs[j], job) && (s.host.jobs[j].Done() ==> job == s.host.jobs[j])
    requires JobOk(WithJob(s, j, job), j)
    ensures Inv(ControlEnds(WithJob(s, j, job), j))
  {
    hide Inv;
    QueryHeld(s, j);
    var t := ControlEnds(s, j);
    assert JobOk(WithJob(t, j, job), j);
    JobChanges(t, j, job);
    assert WithJob(t, j, job) == ControlEnds(WithJob(s, j, job), j);
  }

  lemma QueryBegins(s: State, j: nat)
    requires Inv(s) && ControlCan(s, j, Begins)
    ensures Inv(ControlDo(s, j, Begins))
  {
    hide Inv;
    QueryHeld(s, j);
    var job, pc := s.host.jobs[j], s.host.controls[j];
    if pc.remaining <= 0 {
      QueryFinishes(s, j, job.Expire());
    } else if !job.Done() {
      var next := job.(state := Dispatched);
      QueryFinishes(s, j, next);
      var t := ControlEnds(WithJob(s, j, next), j);
      ControlMoves(t, j, Posting(pc.snapshot));
      assert ControlAt(t, j, Posting(pc.snapshot)) == ControlDo(s, j, Begins);
    }
  }

  lemma QuerySendsRecords(s: State, j: nat)
    requires Inv(s) && ControlCan(s, j, Sends)
    ensures var t := ControlDo(s, j, Sends);
      JobsOk(t) && MsgsOk(t) && OnceOk(t) && StartsOk(t) && ListenersOk(t) && LockOk(t) && TableOk(t) && CallsOk(t)
  {
    hide Inv;
    var t := ControlDo(s, j, Sends);
    QueryHeld(s, j);
    PostKeepsMessages(s, t.msgs[|s.msgs|]);
    SameWorldPosted(s, t, t.msgs[|s.msgs|]);
  }

  lemma QuerySendsThreads(s: State, j: nat)
    requires Inv(s) && ControlCan(s, j, Sends)
    ensures ThreadsOk(ControlDo(s, j, Sends))
  {
    var t := ControlDo(s, j, Sends);
    var msg := t.msgs[|s.msgs|];
    QueryHeld(s, j);
    forall w | w in t.host.workers
      ensures PcOk(t, t.host.workers[w])
    {
      PostKeepsOthers(s, msg, s.host.workers[w]);
      PcFrame(Posted(s, msg), t, s.host.workers[w]);
    }
    forall k | k in t.host.controls && k != j
      ensures ControlOk(t, k, t.host.controls[k])
    {
      PostKeepsQueries(s, msg, k, s.host.controls[k]);
      ControlFrame(Posted(s, msg), t, k, s.host.controls[k]);
    }
    assert forall n | 0 <= n < |s.msgs| :: t.msgs[n] == s.msgs[n];
    assert ControlOk(t, j, t.host.controls[j]);
  }

  lemma QuerySends(s: State, j: nat)
    requires Inv(s) && ControlCan(s, j, Sends)
    ensures Inv(ControlDo(s, j, Sends))
  {
    QuerySendsRecords(s, j);
    QuerySendsThreads(s, j);
    QuerySendsOrder(s, j);
    hide ControlDo, ControlCan, JobsOk, MsgsOk, OnceOk, StartsOk, ListenersOk, LockOk, TableOk, CallsOk, ThreadsOk,
      OrderOk, WorkerOk;
  }

  lemma QuerySendsOrder(s: State, j: nat)
    requires OrderOk(s) && WorkerOk(s) && ControlCan(s, j, Sends)
    ensures OrderOk(ControlDo(s, j, Sends)) && WorkerOk(ControlDo(s, j, Sends))
  {
  }

  lemma ControlKeeps(s: State, j: nat, a: ControlStep)
    requires Inv(s) && ControlCan(s, j, a)
    ensures Inv(ControlDo(s, j, a))
  {
    hide Inv;
    QueryHeld(s, j);
    var job, pc := s.host.jobs[j], s.host.controls[j];
    match a
    case Begins => QueryBegins(s, j);
    case Sends => QuerySends(s, j);
    case Answers => QueryFinishes(s, j, job.Complete(pc.answer));
    case Dies =>
    case ReadSnapshot => ControlMoves(s, j, Measured(s.host.snapshot, job.hostDeadline - s.clock));
    case Loses => ControlMoves(s, j, Done(Unknown));
    case Hears => QueryHears(s, j);
  }

  lemma QueryHears(s: State, j: nat)
    requires Inv(s) && ControlCan(s, j, Hears)
    ensures Inv(ControlDo(s, j, Hears))
  {
    var pc := s.host.controls[j];
    assert ControlOk(s, j, pc) && MsgOk(s, pc.msg);
    ControlMoves(s, j, Done(AnswerOf(s.msgs[pc.msg].phase)));
  }

  // ---- The service ------------------------------------------------------------------

  /** One more job in the table, with no thread yet. */
  function Enrolled(s: State, job: Job, table: seq<nat>): State {
    s.(host := s.host.(jobs := s.host.jobs + [job], table := table + [|s.host.jobs|]))
  }

  lemma EnrolKeepsThreads(s: State, job: Job, table: seq<nat>)
    requires ThreadsOk(s)
    ensures ThreadsOk(Enrolled(s, job, table))
  {
    var t := Enrolled(s, job, table);
    forall w | w in t.host.workers
      ensures PcOk(t, t.host.workers[w])
    {
      assert PcOk(s, s.host.workers[w]);
    }
    forall k | k in t.host.controls
      ensures ControlOk(t, k, t.host.controls[k])
    {
      assert ControlOk(s, k, s.host.controls[k]);
    }
  }

  lemma EnrolKeepsRecords(s: State, job: Job, table: seq<nat>)
    requires JobsOk(s) && MsgsOk(s) && OnceOk(s) && StartsOk(s) && ListenersOk(s) && LockOk(s) && CallsOk(s)
    requires job.state == Queued && job.response == None
    ensures var t := Enrolled(s, job, table);
      JobsOk(t) && MsgsOk(t) && OnceOk(t) && StartsOk(t) && ListenersOk(t) && LockOk(t) && CallsOk(t)
    ensures Settled(Enrolled(s, job, table), |s.host.jobs|)
  {
    var t := Enrolled(s, job, table);
    forall m | 0 <= m < |t.msgs|
      ensures MsgOk(t, m) && t.msgs[m].job < |s.host.jobs|
    {
      assert MsgOk(s, m);
    }
    forall j | 0 <= j < |t.host.jobs|
      ensures JobOk(t, j)
    {
      if j < |s.host.jobs| { assert JobOk(s, j); }
    }
    forall i | 0 <= i < |t.starts|
      ensures StartOk(t, i)
    {
      assert StartOk(s, i);
    }
  }

  lemma EnrolKeepsTable(s: State, job: Job, table: seq<nat>, countView: set<nat>)
    requires TableOk(s) && job.response == None && SeenDone(s.host, countView)
    requires Ascending(table)
    requires forall j | j in table :: j in s.host.table && s.host.jobs[j].id != job.id
    requires forall j | j in s.host.table :: j in table || s.host.jobs[j].Done()
    requires Open(table, countView) < LIMIT
    ensures TableOk(Enrolled(s, job, table))
  {
    forall i | 0 <= i < |table|
      ensures table[i] < |s.host.jobs|
    {
      assert table[i] in table;
    }
    EnrolAddsOne(s, job, table);
    UnfinishedAreOpen(s, table, countView);
  }

  lemma EnrolAddsOne(s: State, job: Job, table: seq<nat>)
    requires job.response == None
    ensures |Unfinished(Enrolled(s, job, table))| == |Unfinished(s)| + 1
  {
    assert Unfinished(Enrolled(s, job, table)) == Unfinished(s) + {|s.host.jobs|};
  }

  /** Whatever the count read, it counted every job that is still unfinished. */
  lemma UnfinishedAreOpen(s: State, table: seq<nat>, countView: set<nat>)
    requires TableOk(s) && SeenDone(s.host, countView) && Ascending(table)
    requires forall j | j in s.host.table :: j in table || s.host.jobs[j].Done()
    ensures |Unfinished(s)| <= Open(table, countView)
  {
    OpenIsCount(table, countView);
    Fewer(Unfinished(s), OpenJobs(table, countView));
  }

  lemma EnrolKeepsOrder(s: State, job: Job, table: seq<nat>)
    requires OrderOk(s) && WorkerOk(s)
    ensures OrderOk(Enrolled(s, job, table)) && WorkerOk(Enrolled(s, job, table))
  {
  }

  lemma AdmitEnrols(s: State, job: Job, evictView: set<nat>, countView: set<nat>)
    requires Inv(s) && SeenDone(s.host, evictView) && SeenDone(s.host, countView)
    requires job.state == Queued && job.response == None
    requires forall j | j in s.host.table && j < |s.host.jobs| :: s.host.jobs[j].id != job.id
    requires Open(Thin([], s.host.table, evictView), countView) < LIMIT
    ensures var t := Enrolled(s, job, Thin([], s.host.table, evictView)); Inv(t) && Settled(t, |s.host.jobs|)
  {
    var table := Thin([], s.host.table, evictView);
    assert [] + s.host.table == s.host.table;
    ThinKeeps([], s.host.table, evictView);
    EnrolKeepsRecords(s, job, table);
    EnrolKeepsThreads(s, job, table);
    EnrolKeepsOrder(s, job, table);
    EnrolKeepsTable(s, job, table, countView);
  }

  lemma AdmitKeeps(s: State, job: Job, evictView: set<nat>, countView: set<nat>)
    requires Inv(s) && SeenDone(s.host, evictView) && SeenDone(s.host, countView)
    requires job.state == Queued && job.response == None
    requires forall j | j in s.host.table && j < |s.host.jobs| :: s.host.jobs[j].id != job.id
    requires Open(Thin([], s.host.table, evictView), countView) < LIMIT
    ensures Inv(Admission(s, job, Thin([], s.host.table, evictView)))
  {
    hide Inv;
    var table, j := Thin([], s.host.table, evictView), |s.host.jobs|;
    AdmitEnrols(s, job, evictView, countView);
    var t := Enrolled(s, job, table);
    if job.control {
      ControlMoves(t, j, Starting);
      assert ControlAt(t, j, Starting) == Admission(s, job, table);
    } else {
      QueueKeeps(s, t, job, table);
      if !s.host.workerStarted { SpawnKeeps(t, j); }
    }
  }

  lemma EvictKeeps(s: State, view: set<nat>)
    requires Inv(s) && SeenDone(s.host, view)
    ensures Inv(s.(host := s.host.(table := Thin([], s.host.table, view))))
  {
    assert [] + s.host.table == s.host.table;
    ThinKeeps([], s.host.table, view);
    TableShrinks(s, Thin([], s.host.table, view), false);
  }

  function Waitlisted(t: State, j: nat): State { t.(host := t.host.(pending := t.host.pending + [j])) }

  lemma QueueKeepsOrder(s: State, t: State, job: Job, table: seq<nat>)
    requires MsgsOk(s) && ThreadsOk(s) && OrderOk(s) && OrderOk(t)
    requires t == Enrolled(s, job, table) && !job.control && job.state == Queued
    ensures OrderOk(Waitlisted(t, |s.host.jobs|))
  {
    forall m | 0 <= m < |s.msgs|
      ensures s.msgs[m].job < |s.host.jobs|
    {
      assert MsgOk(s, m);
    }
    forall w | w in s.host.workers && HasJob(s.host.workers[w])
      ensures JobOf(s.host.workers[w]) < |s.host.jobs|
    {
      assert PcOk(s, s.host.workers[w]);
    }
  }

  lemma QueueKeeps(s: State, t: State, job: Job, table: seq<nat>)
    requires Inv(s) && t == Enrolled(s, job, table) && Inv(t) && !job.control && job.state == Queued
    ensures t.host.workerStarted ==> Inv(Waitlisted(t, |s.host.jobs|))
    ensures ThreadsOk(Waitlisted(t, |s.host.jobs|)) && OrderOk(Waitlisted(t, |s.host.jobs|))
  {
    var u := Waitlisted(t, |s.host.jobs|);
    QueueKeepsOrder(s, t, job, table);
    SameRecords(t, u);
    ThreadsFrame(t, u);
  }

  lemma SpawnKeeps(t: State, j: nat)
    requires Inv(t) && !t.host.workerStarted && ThreadsOk(Waitlisted(t, j)) && OrderOk(Waitlisted(t, j))
    ensures Inv(t.(host := t.host.(pending := t.host.pending + [j], workerStarted := true,
                                   workers := t.host.workers[t.host.spawned := Top], spawned := t.host.spawned + 1)))
  {
    var u := t.(host := t.host.(pending := t.host.pending + [j], workerStarted := true,
                                workers := t.host.workers[t.host.spawned := Top], spawned := t.host.spawned + 1));
    SameRecords(t, u);
    assert t.host.workers == map[];
    assert t.host.spawned in u.host.workers;
    forall k | k in u.host.controls
      ensures ControlOk(u, k, u.host.controls[k])
    {
      ControlFrame(t, u, k, t.host.controls[k]);
    }
  }

  lemma StopKeepsJobs(s: State)
    requires Inv(s)
    ensures var t := ServiceDo(s.(host := s.host.(stopping := true)), StopPending);
      JobsOk(t) && MsgsOk(t) && TableOk(t) && CallsOk(t)
  {
    var t := ServiceDo(s.(host := s.host.(stopping := true)), StopPending);
    forall j | 0 <= j < |t.host.jobs|
      ensures JobOk(t, j)
    {
      assert JobOk(s, j);
    }
    forall m | 0 <= m < |t.msgs|
      ensures MsgOk(t, m)
    {
      assert MsgOk(s, m);
    }
    Fewer(Unfinished(t), Unfinished(s));
  }

  lemma StopKeepsThreads(s: State)
    requires Inv(s)
    ensures ThreadsOk(ServiceDo(s.(host := s.host.(stopping := true)), StopPending))
  {
    var t := ServiceDo(s.(host := s.host.(stopping := true)), StopPending);
    forall w | w in t.host.workers
      ensures PcOk(t, t.host.workers[w])
    {
      assert PcOk(s, s.host.workers[w]);
      assert HasJob(s.host.workers[w]) ==> JobOf(s.host.workers[w]) !in s.host.pending;
    }
    forall k | k in t.host.controls
      ensures ControlOk(t, k, t.host.controls[k])
    {
      assert ControlOk(s, k, s.host.controls[k]);
      assert k !in s.host.pending;
    }
  }

  lemma StopKeeps(s: State)
    requires Inv(s) && s.host.stopping
    ensures Inv(ServiceDo(s, StopPending))
  {
    assert s == s.(host := s.host.(stopping := true));
    StopKeepsJobs(s);
    StopKeepsThreads(s);
    var t := ServiceDo(s, StopPending);
    forall i | 0 <= i < |t.starts|
      ensures StartOk(t, i)
    {
      assert StartOk(s, i);
    }
  }

  lemma StoppingKeeps(s: State)
    requires Inv(s)
    ensures Inv(s.(host := s.host.(stopping := true)))
  {
    var t := s.(host := s.host.(stopping := true));
    SameRecords(s, t);
    ThreadsFrame(s, t);
  }

  lemma ServiceKeeps(s: State, a: ServiceStep)
    requires Inv(s) && ServiceCan(s, a)
    ensures Inv(ServiceDo(s, a))
  {
    hide Inv;
    match a
    case BeginStop => StoppingKeeps(s);
    case StopPending => StopKeeps(s);
    case _ => NoticeKeeps(s, ServiceDo(s, a));
  }

  // ---- Submissions ------------------------------------------------------------------

  lemma SameRecordsButCalls(s: State, t: State)
    requires Inv(s) && t == s.(calls := t.calls)
    ensures CallsOk(t) ==> Inv(t)
  {
    forall j | 0 <= j < |t.host.jobs|
      ensures JobOk(t, j)
    {
      assert JobOk(s, j);
    }
    forall m | 0 <= m < |t.msgs|
      ensures MsgOk(t, m)
    {
      assert MsgOk(s, m);
    }
    forall i | 0 <= i < |t.starts|
      ensures StartOk(t, i)
    {
      assert StartOk(s, i);
    }
    ThreadsFrame(s, t);
    assert Unfinished(t) == Unfinished(s);
  }

  lemma CallMoves(s: State, c: nat, pc: CallPc)
    requires Inv(s) && c < |s.calls| && CallOk(s, s.calls[c].(pc := pc))
    ensures Inv(CallAt(s, c, pc))
  {
    var t := CallAt(s, c, pc);
    forall d | 0 <= d < |t.calls|
      ensures CallOk(t, t.calls[d])
    {
      assert d != c ==> CallOk(s, s.calls[d]);
    }
    SameRecordsButCalls(s, t);
  }

  lemma SubmitKeeps(s: State, request: Submission)
    requires Inv(s)
    ensures Inv(s.(calls := s.calls + [Call(request, Arrived)]))
  {
    var t := s.(calls := s.calls + [Call(request, Arrived)]);
    forall d | 0 <= d < |t.calls|
      ensures CallOk(t, t.calls[d])
    {
      assert d < |s.calls| ==> CallOk(s, s.calls[d]);
    }
    SameRecordsButCalls(s, t);
  }

  lemma LookupKeeps(s: State, c: nat, a: CallStep)
    requires Inv(s) && CallCan(s, c, a) && a.Lookup?
    ensures Inv(CallDo(s, c, a))
  {
    hide Inv;
    var h, r, pc := s.host, s.calls[c].request, s.calls[c].pc;
    match Retained(h.jobs, h.table, r.id)
    case Some(j) =>
      CallMoves(s, c, if h.jobs[j].signature != r.signature then Refused(RequestIdConflict)
                      else Joined(j, Earlier(h.jobs[j].hostDeadline, s.clock + pc.remaining)));
    case None =>
      var table, job := Thin([], h.table, a.evictView), JobFor(r, pc.hostDeadline);
      if Open(table, a.countView) >= LIMIT {
        EvictKeeps(s, a.evictView);
        CallMoves(s.(host := h.(table := table)), c, Refused(QueueFull));
      } else {
        AdmitKeeps(s, job, a.evictView, a.countView);
        var t := Admission(s, job, table);
        assert t.calls == s.calls && t.host.jobs == h.jobs + [job];
        CallMoves(t, c, Joined(|h.jobs|, Earlier(pc.hostDeadline, s.clock + pc.remaining)));
      }
  }

  /** A caller hears its job's answer, or gives the job up and hears what that makes of it. */
  lemma AnswerKeeps(s: State, c: nat, a: CallStep)
    requires Inv(s) && CallCan(s, c, a) && (a.Hear? || a.GiveUp?)
    ensures Inv(CallDo(s, c, a))
  {
    var j := s.calls[c].pc.job;
    assert CallOk(s, s.calls[c]);
    hide Inv;
    if a.Hear? {
      CallMoves(s, c, Told(s.host.jobs[j].response.value, Some(j)));
    } else {
      var job := s.host.jobs[j].Expire();
      ExpireKeeps(s, j);
      CallMoves(WithJob(s, j, job), c, Told(job.response.value, Some(j)));
    }
  }

  lemma CallKeeps(s: State, c: nat, a: CallStep)
    requires Inv(s) && CallCan(s, c, a)
    ensures Inv(CallDo(s, c, a))
  {
    hide Inv;
    match a
    case Lookup(_, _) => LookupKeeps(s, c, a);
    case Hear => AnswerKeeps(s, c, a);
    case GiveUp => AnswerKeeps(s, c, a);
    case _ => CallMoves(s, c, CallDo(s, c, a).calls[c].pc);
  }

  // ---- Every step -------------------------------------------------------------------

  lemma StepKeeps(s: State, step: Step)
    requires Inv(s) && Can(s, step)
    ensures Inv(Do(s, step))
  {
    hide Inv;
    match step
    case Tick(_, _) => NoticeKeeps(s, Do(s, step));
    case EditorActs(a) => EditorKeeps(s, a);
    case MessageActs(m, a) => MessageKeeps(s, m, a);
    case WorkerActs(w, a) => WorkerKeeps(s, w, a);
    case ControlActs(j, a) => ControlKeeps(s, j, a);
    case ServiceActs(a) => ServiceKeeps(s, a);
    case Submits(request) => SubmitKeeps(s, request);
    case CallActs(c, a) => CallKeeps(s, c, a);
  }
}
