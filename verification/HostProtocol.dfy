/** The command protocol between the host and one Unity project, as a transition system.

    Every block the host runs under `job.lock` or `project.condition`, and every stretch the
    connector runs on the Editor thread between two awaits, is one step; everything else
    interleaves.  Clocks, reloads, listener restarts, lost connections and callers that give up
    are steps of the environment. */
module HostProtocol {
  import opened Wrappers
  import opened HostQueue

  // ---- The host ---------------------------------------------------------------------

  /** What a heartbeat file shows; `busy` when its state is one the host waits out. */
  datatype Snapshot = Snapshot(domain: nat, generation: nat, port: nat, busy: bool) {
    function Key(): Key { KeyOf(domain, generation, port) }
  }
  datatype Key = KeyOf(domain: nat, generation: nat, port: nat)

  /** The negotiated references a command is prepared against. */
  datatype Context = Context(domain: nat, generation: nat)

  /** Where the worker thread of a project stands. */
  datatype Pc =
    | Top
    | Begin(job: nat)
    | Waiting(job: nat, attempt: nat)
    | Expiring(job: nat)
    | Compiling(job: nat, attempt: nat, context: Context)
    | Checking(job: nat, attempt: nat, context: Context)
    | Checked(job: nat, attempt: nat, context: Context, snapshot: Snapshot)
    | Armed(job: nat, attempt: nat, context: Context, snapshot: Snapshot, remaining: int)
    | Sending(job: nat, attempt: nat, context: Context, snapshot: Snapshot, remaining: int)
    | Awaiting(job: nat, attempt: nat, msg: nat)
    | Replied(job: nat, attempt: nat, answer: Response)
    | Invalidating(job: nat, attempt: nat)
    | Answering(job: nat, answer: Response)
    | Failed(job: nat)
    | Closing

  /** Where the thread of a live state query stands. */
  datatype ControlPc =
    | Starting
    | Measured(snapshot: Snapshot, remaining: int)
    | Posting(snapshot: Snapshot)
    | Pending(msg: nat)
    | Done(answer: Response)

  datatype Host = Host(
    jobs: seq<Job>, table: seq<nat>, pending: seq<nat>,
    workerStarted: bool, workers: map<nat, Pc>, spawned: nat, running: bool, controls: map<nat, ControlPc>,
    snapshot: Snapshot, context: Option<Context>, contextKey: Option<Key>, alive: bool, stopping: bool)

  // ---- Unity and the wire -----------------------------------------------------------

  /** The life of one POST.  An epoch is the listener that accepted it. */
  datatype Phase =
    | InFlight
    | Parsed(epoch: nat)
    | Enqueued(epoch: nat)
    | WaitingLock(epoch: nat)
    | Holding(epoch: nat)
    | Loading(epoch: nat)
    | Running(execution: nat)
    | Finished(execution: nat)
    | Rejected(reason: Reason)
    | Dead

  datatype Msg = Msg(job: nat, control: bool, assembly: bool, context: Option<Context>, deadline: int, phase: Phase)

  datatype Lock = Free | Foreign | Held(msg: nat)

  datatype Unity = Unity(
    domain: nat, generation: nat, listener: Option<nat>, listening: bool, epochs: nat, cancelled: set<nat>,
    queue: seq<nat>, lock: Lock, ready: bool)
  {
    predicate IsRunning() { listener.Some? && listening }
  }

  /** What held in Unity at the instant an execution started. */
  datatype Start = Start(msg: nat, job: nat, time: int, domain: nat, generation: nat, epoch: nat,
                         listener: Option<nat>, listening: bool)

  // ---- Callers ----------------------------------------------------------------------

  /** One submission of a command.  The signature is that of its command, parameters and target. */
  datatype Submission = Submission(id: string, signature: string, control: bool, compiled: bool, deadline: int,
                                   wellFormed: bool, internal: bool)

  /** Where a submission stands: `Joined` waits on a job until a time by the host's clock; `Told` is
      the reply it gets, and the job the reply comes from. */
  datatype CallPc =
    | Arrived
    | Entered
    | Timed(remaining: int)
    | Anchored(hostDeadline: int, remaining: int)
    | Joined(job: nat, until: int)
    | Told(answer: Response, from: Option<nat>)

  datatype Call = Call(request: Submission, pc: CallPc)

  datatype State = State(host: Host, unity: Unity, msgs: seq<Msg>, starts: seq<Start>, calls: seq<Call>,
                         unix: int, clock: int)

  predicate Init(s: State) {
    && s.host.jobs == [] && s.host.table == [] && s.host.pending == [] && !s.host.workerStarted
    && s.host.workers == map[] && s.host.controls == map[] && s.host.context == None && s.host.contextKey == None
    && s.msgs == [] && s.starts == [] && s.calls == []
    && s.unity.queue == [] && s.unity.listener == None && s.unity.epochs == 0 && s.unity.lock == Free
  }

  // ---- Updates ----------------------------------------------------------------------

  function WithJob(s: State, j: nat, job: Job): State
    requires j < |s.host.jobs|
  {
    s.(host := s.host.(jobs := s.host.jobs[j := job]))
  }

  function At(s: State, w: nat, pc: Pc): State {
    s.(host := s.host.(workers := s.host.workers[w := pc]))
  }

  function ControlAt(s: State, j: nat, pc: ControlPc): State {
    s.(host := s.host.(controls := s.host.controls[j := pc]))
  }

  function ControlEnds(s: State, j: nat): State {
    s.(host := s.host.(controls := s.host.controls - {j}))
  }

  function InPhase(s: State, m: nat, phase: Phase): State
    requires m < |s.msgs|
  {
    s.(msgs := s.msgs[m := s.msgs[m].(phase := phase)])
  }

  function Locked(s: State, lock: Lock): State { s.(unity := s.unity.(lock := lock)) }

  // ---- The Editor -------------------------------------------------------------------

  datatype EditorStep =
    | LoadReference
    | SetReady(ready: bool)
    | ForeignLock
    | ForeignUnlock
    | ListenerFails
    | StopListener
    | StartListener
    | Reload(generation: nat)

  function AllBelow(n: nat): (s: set<nat>)
    ensures forall e: nat :: e in s <==> e < n
  {
    if n == 0 then {} else AllBelow(n - 1) + {n - 1}
  }

  /** The command of a message still on the way dies with the domain that was to run it. */
  function Killed(m: Msg): Msg {
    if m.phase.Finished? || m.phase.Rejected? || m.phase.InFlight? then m else m.(phase := Dead)
  }

  predicate EditorCan(s: State, a: EditorStep) {
    match a
    case LoadReference => true
    case SetReady(_) => true
    case ForeignLock => s.unity.lock == Free
    case ForeignUnlock => s.unity.lock == Foreign
    case ListenerFails => true
    case StopListener => true
    case StartListener => s.unity.listener == None
    case Reload(_) => true
  }

  function EditorDo(s: State, a: EditorStep): State {
    var u := s.unity;
    match a
    case LoadReference => s.(unity := u.(generation := u.generation + 1))
    case SetReady(ready) => s.(unity := u.(ready := ready))
    case ForeignLock => Locked(s, Foreign)
    case ForeignUnlock => Locked(s, Free)
    case ListenerFails => s.(unity := u.(listening := false))
    case StopListener =>
      s.(unity := u.(listener := None, listening := false, queue := [],
                     cancelled := u.cancelled + if u.listener.Some? then {u.listener.value} else {}),
         msgs := seq(|s.msgs|, i requires 0 <= i < |s.msgs| =>
           if s.msgs[i].phase.Enqueued? then s.msgs[i].(phase := Rejected(NotReady)) else s.msgs[i]))
    case StartListener =>
      s.(unity := u.(listener := Some(u.epochs), listening := true, epochs := u.epochs + 1))
    case Reload(generation) =>
      s.(unity := u.(domain := u.domain + 1, generation := generation, listener := None, listening := false,
                     cancelled := AllBelow(u.epochs), queue := [], lock := Free, ready := false),
         msgs := seq(|s.msgs|, i requires 0 <= i < |s.msgs| => Killed(s.msgs[i])))
  }

  // ---- One message inside Unity -----------------------------------------------------

  datatype MessageStep =
    | Drop
    | Accept
    | RefuseParsed(reason: Reason)
    | Enqueue
    | Dequeue
    | AcquireLock
    | LockTimeout
    | Execute
    | RefuseLoading
    | Finish

  /** The connector's own check, in the order it makes it; none means the request may proceed. */
  function Validate(s: State, m: Msg, epoch: nat, requireReady: bool): Option<Reason> {
    if epoch in s.unity.cancelled then Some(NotReady)
    else if s.unix >= m.deadline then Some(Expired)
    else if m.context.Some? && m.context.value.domain != s.unity.domain then Some(StaleDomain)
    else if m.context.Some? && m.context.value.generation != s.unity.generation then Some(StaleReferences)
    else if requireReady && !(s.unity.IsRunning() && s.unity.ready) then Some(NotReady)
    else None
  }

  function Started(s: State, m: nat, epoch: nat): State
    requires m < |s.msgs|
  {
    InPhase(s.(starts := s.starts + [Start(m, s.msgs[m].job, s.unix, s.unity.domain, s.unity.generation, epoch,
                                           s.unity.listener, s.unity.listening)]),
            m, Running(|s.starts|))
  }

  predicate MessageCan(s: State, m: nat, a: MessageStep) {
    m < |s.msgs| &&
    var phase := s.msgs[m].phase;
    match a
    case Drop => phase.InFlight?
    case Accept => phase.InFlight? && s.unity.IsRunning()
    case RefuseParsed(reason) => phase.Parsed? && reason in {Unauthorized, InvalidRequest}
    case Enqueue => phase.Parsed?
    case Dequeue => phase.Enqueued? && s.unity.queue != [] && s.unity.queue[0] == m
    case AcquireLock => phase.WaitingLock? && s.unity.lock == Free
    case LockTimeout => phase.WaitingLock?
    case Execute => phase.Holding? || phase.Loading?
    case RefuseLoading => phase.Loading?
    case Finish => phase.Running?
  }

  function MessageDo(s: State, m: nat, a: MessageStep): State
    requires MessageCan(s, m, a)
  {
    var msg := s.msgs[m];
    match a
    case Drop => InPhase(s, m, Dead)
    case Accept => InPhase(s, m, Parsed(s.unity.listener.value))
    case RefuseParsed(reason) => InPhase(s, m, Rejected(reason))
    case Enqueue => InPhase(s, m, Enqueued(msg.phase.epoch)).(unity := s.unity.(queue := s.unity.queue + [m]))
    case Dequeue =>
      var d := s.(unity := s.unity.(queue := s.unity.queue[1..]));
      var refusal := Validate(s, msg, msg.phase.epoch, false);
      if refusal.Some? then InPhase(d, m, Rejected(refusal.value))
      else if msg.control then Started(d, m, msg.phase.epoch)
      else if msg.deadline - s.unix <= 0 then InPhase(d, m, Rejected(Expired))
      else InPhase(d, m, WaitingLock(msg.phase.epoch))
    case AcquireLock => Locked(InPhase(s, m, Holding(msg.phase.epoch)), Held(m))
    case LockTimeout => InPhase(s, m, Rejected(Expired))
    case Execute =>
      var refusal := Validate(s, msg, msg.phase.epoch, true);
      if refusal.Some? then Locked(InPhase(s, m, Rejected(refusal.value)), Free)
      else if msg.assembly && msg.phase.Holding? then InPhase(s, m, Loading(msg.phase.epoch))
      else Started(s, m, msg.phase.epoch)
    case RefuseLoading => Locked(InPhase(s, m, Rejected(InvalidRequest)), Free)
    case Finish =>
      var f := InPhase(s, m, Finished(msg.phase.execution));
      if s.unity.lock == Held(m) then Locked(f, Free) else f
  }

  // ---- The worker thread ------------------------------------------------------------

  datatype WorkerStep =
    | Pop
    | ExitStopping
    | ExitDead
    | BeginJob
    | Wait
    | Expire
    | CompileOk
    | CompileStale
    | CompileRefused
    | Check
    | Measure
    | Dispatch
    | Post
    | Receive
    | Lose
    | Settle
    | Invalidate
    | Complete
    | Throw
    | ReadState
    | Close(view: set<nat>)

  predicate Finishable(p: Phase) { p.Finished? || p.Rejected? }

  function AnswerOf(p: Phase): Response
    requires Finishable(p)
  {
    if p.Finished? then Ran(p.execution) else NotStarted(p.reason)
  }

  /** A refusal that proves the command has not started and may be prepared again. */
  predicate Retryable(answer: Response) {
    answer.NotStarted? && answer.reason in {StaleDomain, StaleReferences, NotReady}
  }

  predicate HasJob(pc: Pc) { !pc.Top? && !pc.Closing? }

  function JobOf(pc: Pc): nat
    requires HasJob(pc)
  {
    match pc
    case Begin(j) => j case Waiting(j, _) => j case Expiring(j) => j case Compiling(j, _, _) => j
    case Checking(j, _, _) => j case Checked(j, _, _, _) => j case Armed(j, _, _, _, _) => j
    case Sending(j, _, _, _, _) => j case Awaiting(j, _, _) => j case Replied(j, _, _) => j
    case Invalidating(j, _) => j case Answering(j, _) => j case Failed(j) => j
  }

  predicate WorkerCan(s: State, w: nat, a: WorkerStep) {
    w in s.host.workers &&
    var h, pc := s.host, s.host.workers[w];
    (HasJob(pc) ==> JobOf(pc) < |h.jobs|) &&
    match a
    case Pop => pc.Top? && !h.stopping && h.pending != []
    case ExitStopping => pc.Top? && h.stopping
    case ExitDead => pc.Top? && !h.stopping && h.pending == [] && !h.alive
    case BeginJob => pc.Begin?
    case Wait => pc.Waiting?
    case Expire => pc.Expiring?
    case CompileOk => pc.Compiling?
    case CompileStale => pc.Compiling? && pc.attempt == 0
    case CompileRefused => pc.Compiling?
    case Check => pc.Checking?
    case Measure => pc.Checked?
    case Dispatch => pc.Armed?
    case Post => pc.Sending?
    case Receive => pc.Awaiting? && pc.msg < |s.msgs| && Finishable(s.msgs[pc.msg].phase)
    case Lose => pc.Awaiting?
    case Settle => pc.Replied?
    case Invalidate => pc.Invalidating?
    case Complete => pc.Answering?
    case Throw => HasJob(pc)
    case ReadState => pc.Failed?
    case Close(view) => pc.Closing? && forall j | j in view :: j < |h.jobs| && h.jobs[j].Done()
  }

  function WorkerDo(s: State, w: nat, a: WorkerStep): State
    requires WorkerCan(s, w, a)
  {
    var h, pc := s.host, s.host.workers[w];
    match a
    case Pop => At(s.(host := h.(pending := h.pending[1..], running := true)), w, Begin(h.pending[0]))
    case ExitStopping => s.(host := h.(workers := h.workers - {w}))
    case ExitDead => s.(host := h.(workers := h.workers - {w}, workerStarted := false))
    case BeginJob => At(s, w, if h.jobs[pc.job].Done() then Closing else Waiting(pc.job, 0))
    case Wait =>
      var j := pc.job;
      if h.jobs[j].Done() || h.stopping || h.jobs[j].hostDeadline - s.clock <= 0 then At(s, w, Expiring(j))
      else if !h.alive then At(WithJob(s, j, h.jobs[j].Complete(NotStarted(EditorUnavailable))), w, Expiring(j))
      else if !h.snapshot.busy && h.context.Some? && h.contextKey == Some(h.snapshot.Key()) then
        At(s, w, if h.jobs[j].compiled then Compiling(j, pc.attempt, h.context.value)
                 else Checking(j, pc.attempt, h.context.value))
      else s
    case Expire => At(WithJob(s, pc.job, h.jobs[pc.job].Expire()), w, Closing)
    case CompileOk => At(s, w, Checking(pc.job, pc.attempt, pc.context))
    case CompileStale => At(s, w, Invalidating(pc.job, pc.attempt))
    case CompileRefused => At(s, w, Answering(pc.job, NotStarted(CompilerRefused)))
    case Check =>
      if h.contextKey != Some(h.snapshot.Key()) || pc.context != Context(h.snapshot.domain, h.snapshot.generation) then
        At(s, w, if pc.attempt == 0 then Waiting(pc.job, 1) else Answering(pc.job, NotStarted(StaleDomain)))
      else At(s, w, Checked(pc.job, pc.attempt, pc.context, h.snapshot))
    case Measure =>
      At(s, w, Armed(pc.job, pc.attempt, pc.context, pc.snapshot, h.jobs[pc.job].hostDeadline - s.clock))
    case Dispatch =>
      if h.jobs[pc.job].Done() then At(s, w, Closing)
      else if pc.remaining <= 0 then At(s, w, Expiring(pc.job))
      else At(WithJob(s, pc.job, h.jobs[pc.job].(state := Dispatched)), w,
              Sending(pc.job, pc.attempt, pc.context, pc.snapshot, pc.remaining))
    case Post =>
      var job := h.jobs[pc.job];
      var deadline := if job.deadline < s.unix + pc.remaining then job.deadline else s.unix + pc.remaining;
      At(s.(msgs := s.msgs + [Msg(pc.job, false, job.compiled, Some(pc.context), deadline, InFlight)]),
         w, Awaiting(pc.job, pc.attempt, |s.msgs|))
    case Receive => At(s, w, Replied(pc.job, pc.attempt, AnswerOf(s.msgs[pc.msg].phase)))
    case Lose => At(s, w, Answering(pc.job, Unknown))
    case Settle =>
      if pc.attempt == 0 && Retryable(pc.answer) then
        if h.jobs[pc.job].Done() then At(s, w, Closing)
        else At(WithJob(s, pc.job, h.jobs[pc.job].(state := Queued)), w, Invalidating(pc.job, pc.attempt))
      else At(s, w, Answering(pc.job, pc.answer))
    case Invalidate => At(s.(host := h.(contextKey := None)), w, Waiting(pc.job, 1))
    case Complete => At(WithJob(s, pc.job, h.jobs[pc.job].Complete(pc.answer)), w, Closing)
    case Throw => At(s, w, Failed(JobOf(pc)))
    case ReadState =>
      At(s, w, Answering(pc.job, if h.jobs[pc.job].state == Dispatched then Unknown else NotStarted(HostError)))
    case Close(view) => At(s.(host := h.(running := false, table := Trim(h.table, view))), w, Top)
  }

  // ---- The threads of live state queries --------------------------------------------

  datatype ControlStep = ReadSnapshot | Begins | Sends | Hears | Loses | Answers | Dies

  predicate ControlCan(s: State, j: nat, a: ControlStep) {
    j in s.host.controls && j < |s.host.jobs| &&
    var pc := s.host.controls[j];
    match a
    case ReadSnapshot => pc.Starting?
    case Begins => pc.Measured?
    case Sends => pc.Posting?
    case Hears => pc.Pending? && pc.msg < |s.msgs| && Finishable(s.msgs[pc.msg].phase)
    case Loses => pc.Pending?
    case Answers => pc.Done?
    case Dies => true
  }

  function ControlDo(s: State, j: nat, a: ControlStep): State
    requires ControlCan(s, j, a)
  {
    var job, pc := s.host.jobs[j], s.host.controls[j];
    match a
    case ReadSnapshot => ControlAt(s, j, Measured(s.host.snapshot, job.hostDeadline - s.clock))
    case Begins =>
      if pc.remaining <= 0 then ControlEnds(WithJob(s, j, job.Expire()), j)
      else if job.Done() then ControlEnds(s, j)
      else ControlAt(WithJob(s, j, job.(state := Dispatched)), j, Posting(pc.snapshot))
    case Sends =>
      ControlAt(s.(msgs := s.msgs + [Msg(j, true, false, None, job.deadline, InFlight)]), j, Pending(|s.msgs|))
    case Hears => ControlAt(s, j, Done(AnswerOf(s.msgs[pc.msg].phase)))
    case Loses => ControlAt(s, j, Done(Unknown))
    case Answers => ControlEnds(WithJob(s, j, job.Complete(pc.answer)), j)
    case Dies => ControlEnds(s, j)
  }

  // ---- The service ------------------------------------------------------------------

  datatype ServiceStep =
    | Scan(snapshot: Snapshot)
    | SetAlive(alive: bool)
    | Negotiated(key: Key)
    | BeginStop
    | StopPending

  predicate ServiceCan(s: State, a: ServiceStep) { a.StopPending? ==> s.host.stopping }

  function ServiceDo(s: State, a: ServiceStep): State
    requires ServiceCan(s, a)
  {
    var h := s.host;
    match a
    case Scan(snapshot) => s.(host := h.(snapshot := snapshot, alive := true))
    case SetAlive(alive) => s.(host := h.(alive := alive))
    case Negotiated(key) =>
      s.(host := h.(context := Some(Context(key.domain, key.generation)), contextKey := Some(key)))
    case BeginStop => s.(host := h.(stopping := true))
    case StopPending =>
      s.(host := h.(jobs := seq(|h.jobs|, i requires 0 <= i < |h.jobs| =>
        if i in h.pending then h.jobs[i].Complete(NotStarted(HostStopping)) else h.jobs[i])))
  }

  // ---- One submission ---------------------------------------------------------------

  /** The checks of a submission in the order the host makes them.  A view stands for the done
      flags as a loop reads them. */
  datatype CallStep =
    | CheckStopping
    | Time
    | Anchor
    | Lookup(evictView: set<nat>, countView: set<nat>)
    | Hear
    | GiveUp

  /** No deadline may lie further ahead than a day. */
  const DAY := 86400000

  predicate InTime(r: Submission, unix: int) { 0 < r.deadline - unix <= DAY }

  /** Each job a loop saw finished was finished by then. */
  predicate SeenDone(h: Host, view: set<nat>) { forall j | j in view :: j < |h.jobs| && h.jobs[j].Done() }

  /** The job remembered under a request id. */
  function Retained(jobs: seq<Job>, table: seq<nat>, id: string): (r: Option<nat>)
    ensures r.Some? ==> r.value in table && r.value < |jobs| && jobs[r.value].id == id
    ensures r.None? ==> forall j | j in table && j < |jobs| :: jobs[j].id != id
  {
    if table == [] then None
    else if table[0] < |jobs| && jobs[table[0]].id == id then Some(table[0])
    else Retained(jobs, table[1..], id)
  }

  predicate CallCan(s: State, c: nat, a: CallStep) {
    c < |s.calls| &&
    var pc := s.calls[c].pc;
    match a
    case CheckStopping => pc.Arrived?
    case Time => pc.Entered?
    case Anchor => pc.Timed?
    case Lookup(evictView, countView) => pc.Anchored? && SeenDone(s.host, evictView) && SeenDone(s.host, countView)
    case Hear => pc.Joined? && pc.job < |s.host.jobs| && s.host.jobs[pc.job].Done()
    case GiveUp => pc.Joined? && pc.job < |s.host.jobs| && pc.until <= s.clock
  }

  function CallAt(s: State, c: nat, pc: CallPc): State
    requires c < |s.calls|
  {
    s.(calls := s.calls[c := s.calls[c].(pc := pc)])
  }

  function Earlier(a: int, b: int): int { if a < b then a else b }

  function Refused(reason: Reason): CallPc { Told(NotStarted(reason), None) }

  function JobFor(r: Submission, hostDeadline: int): Job {
    Job(r.id, r.signature, r.control, r.compiled, r.deadline, hostDeadline, Queued, None)
  }

  /** A new job, and the thread that will run it if none does. */
  function Admission(s: State, job: Job, table: seq<nat>): (t: State)
    ensures t.calls == s.calls && t.msgs == s.msgs && t.starts == s.starts
    ensures t.host.jobs == s.host.jobs + [job] && t.host.table == table + [|s.host.jobs|]
  {
    var h, j := s.host, |s.host.jobs|;
    var g := h.(jobs := h.jobs + [job], table := table + [j]);
    if job.control then s.(host := g.(controls := g.controls[j := Starting]))
    else if h.workerStarted then s.(host := g.(pending := h.pending + [j]))
    else s.(host := g.(pending := h.pending + [j], workerStarted := true,
                       workers := h.workers[h.spawned := Top], spawned := h.spawned + 1))
  }

  function CallDo(s: State, c: nat, a: CallStep): State
    requires CallCan(s, c, a)
  {
    var h, r, pc := s.host, s.calls[c].request, s.calls[c].pc;
    match a
    case CheckStopping => CallAt(s, c, if h.stopping then Refused(HostStopping) else Entered)
    case Time => CallAt(s, c, if r.wellFormed then Timed(r.deadline - s.unix) else Refused(InvalidRequest))
    case Anchor =>
      CallAt(s, c, if !(0 < pc.remaining <= DAY) then Refused(Expired)
                   else if r.internal then Refused(InvalidRequest)
                   else Anchored(s.clock + pc.remaining, pc.remaining))
    case Lookup(evictView, countView) =>
      (match Retained(h.jobs, h.table, r.id)
       case Some(j) =>
         CallAt(s, c, if h.jobs[j].signature != r.signature then Refused(RequestIdConflict)
                      else Joined(j, Earlier(h.jobs[j].hostDeadline, s.clock + pc.remaining)))
       case None =>
         var table := Thin([], h.table, evictView);
         if Open(table, countView) >= LIMIT then CallAt(s.(host := h.(table := table)), c, Refused(QueueFull))
         else CallAt(Admission(s, JobFor(r, pc.hostDeadline), table), c,
                     Joined(|h.jobs|, Earlier(pc.hostDeadline, s.clock + pc.remaining))))
    case Hear => CallAt(s, c, Told(h.jobs[pc.job].response.value, Some(pc.job)))
    case GiveUp =>
      var job := h.jobs[pc.job].Expire();
      CallAt(WithJob(s, pc.job, job), c, Told(job.response.value, Some(pc.job)))
  }

  // ---- Runs -------------------------------------------------------------------------

  /** The wall clock may be set back, the other clock never goes back. */
  datatype Step =
    | Tick(unix: int, clock: nat)
    | EditorActs(editor: EditorStep)
    | MessageActs(m: nat, message: MessageStep)
    | WorkerActs(w: nat, worker: WorkerStep)
    | ControlActs(j: nat, query: ControlStep)
    | ServiceActs(service: ServiceStep)
    | Submits(request: Submission)
    | CallActs(c: nat, call: CallStep)

  predicate Can(s: State, step: Step) {
    match step
    case Tick(_, _) => true
    case EditorActs(a) => EditorCan(s, a)
    case MessageActs(m, a) => MessageCan(s, m, a)
    case WorkerActs(w, a) => WorkerCan(s, w, a)
    case ControlActs(j, a) => ControlCan(s, j, a)
    case ServiceActs(a) => ServiceCan(s, a)
    case Submits(_) => true
    case CallActs(c, a) => CallCan(s, c, a)
  }

  function Do(s: State, step: Step): State
    requires Can(s, step)
  {
    match step
    case Tick(unix, clock) => s.(unix := s.unix + unix, clock := s.clock + clock)
    case EditorActs(a) => EditorDo(s, a)
    case MessageActs(m, a) => MessageDo(s, m, a)
    case WorkerActs(w, a) => WorkerDo(s, w, a)
    case ControlActs(j, a) => ControlDo(s, j, a)
    case ServiceActs(a) => ServiceDo(s, a)
    case Submits(request) => s.(calls := s.calls + [Call(request, Arrived)])
    case CallActs(c, a) => CallDo(s, c, a)
  }

  /** A run: consecutive states are linked by a step. */
  ghost predicate Run(trace: seq<State>) {
    && trace != [] && Init(trace[0])
    && forall i | 0 <= i < |trace| - 1 :: Follows(trace[i], trace[i + 1])
  }

  ghost predicate Follows(s: State, t: State) {
    exists step :: Can(s, step) && t == Do(s, step)
  }
}
