/** How any number of requests share one compiler process, in lock-step with its replies.

    A thread runs one call of `request`, `start` or `close`.  Each step is one acquisition, one
    release, or one use of the process; everything else interleaves. */
module CompilerLockstep {
  import opened Wrappers

  /** What the reader thread puts in the queue of its process. */
  datatype Item = Reply(line: nat, named: bool) | Broken

  /** One process: the requests written to it, how many it answered, how many answers the reader
      relayed, and how many of those were taken from the queue. */
  datatype Process = Process(written: seq<nat>, answered: nat, relayed: nat, taken: nat, queue: seq<Item>,
                             alive: bool, reading: bool, killed: bool)

  datatype Phase = Ticking | Firing | Over

  /** The watchdog of one request: the process it captured, and whether `timed_out` was set. */
  datatype Dog = Dog(target: nat, phase: Phase, fired: bool)

  datatype Pc =
    | Arriving(background: bool)
    | Counting
    | Queueing
    | Leaving(acquired: bool)
    | Discounting(acquired: bool)
    | Peeking
    | Trying
    | Yielding(acquired: bool)
    | Waiting(closing: bool)
    | Operating(closing: bool)
    | Entered
    | Starting
    | Prepared
    | Armed(process: nat)
    | Getting(process: nat)
    | Failing(process: nat)
    | Cancelling(process: nat, got: Option<Item>)
    | Joining(process: nat, got: Option<Item>)
    | Judging(process: nat, got: Option<Item>)
    | Releasing(answer: Option<Item>)
    | Ended(answer: Option<Item>)

  datatype State = State(threads: map<nat, Pc>, dogs: map<nat, Dog>, waiters: int, priority: Option<nat>,
                         lock: Option<nat>, process: Option<nat>, processes: seq<Process>)

  predicate Init(s: State) {
    && s.threads == map[] && s.dogs == map[] && s.waiters == 0 && s.priority == None && s.lock == None
    && s.process == None && s.processes == []
  }

  // ---- The processes and their readers ----------------------------------------------

  datatype ProcessStep = Answer | Relay(named: bool) | Garble | EndOfOutput | Exit

  predicate ProcessCan(p: Process, a: ProcessStep) {
    match a
    case Answer => p.alive && p.answered < |p.written|
    case Relay(_) => p.reading && p.relayed < p.answered
    case Garble => p.reading && p.relayed < p.answered
    case EndOfOutput => p.reading && p.relayed == p.answered
    case Exit => p.alive
  }

  /** The worker answers its lines in order, one line each; what cannot be read ends the reader. */
  function ProcessDo(p: Process, a: ProcessStep): Process {
    match a
    case Answer => p.(answered := p.answered + 1)
    case Relay(named) => p.(relayed := p.relayed + 1, queue := p.queue + [Reply(p.relayed, named)])
    case Garble => p.(reading := false, queue := p.queue + [Broken, Broken])
    case EndOfOutput => p.(reading := false, queue := p.queue + [Broken])
    case Exit => p.(alive := false)
  }

  // ---- The threads ------------------------------------------------------------------

  datatype Step =
    | Call(t: nat, background: bool)
    | Manage(t: nat, closing: bool)
    | TakePriority(t: nat)
    | Count(t: nat)
    | TakeLock(t: nat)
    | GiveUp(t: nat)
    | Peek(t: nat, late: bool)
    | TryLock(t: nat)
    | DropPriority(t: nat)
    | Check(t: nat, late: bool)
    | Start(t: nat, spawned: bool)
    | Arm(t: nat, oversized: bool)
    | Write(t: nat)
    | WriteFails(t: nat, delivered: bool)
    | Get(t: nat)
    | GetTimesOut(t: nat)
    | Stop(t: nat)
    | Cancel(t: nat)
    | Join(t: nat)
    | Judge(t: nat)
    | Operate(t: nat, spawned: bool)
    | Release(t: nat)
    | Fire(t: nat)
    | Kill(t: nat)
    | ProcessActs(g: nat, action: ProcessStep)

  predicate Is(s: State, t: nat, pc: Pc) { t in s.threads && s.threads[t] == pc }

  /** `poll()` says the current process is still running. */
  predicate Running(s: State) {
    s.process.Some? && s.process.value < |s.processes| && s.processes[s.process.value].alive
  }

  predicate Can(s: State, step: Step) {
    match step
    case Call(t, _) => t !in s.threads
    case Manage(t, _) => t !in s.threads
    case TakePriority(t) =>
      s.priority == None && t in s.threads && (s.threads[t].Arriving? || s.threads[t].Leaving?)
    case Count(t) => Is(s, t, Counting)
    case TakeLock(t) => s.lock == None && t in s.threads && (s.threads[t].Queueing? || s.threads[t].Waiting?)
    case GiveUp(t) => Is(s, t, Queueing)
    case Peek(t, _) => Is(s, t, Peeking)
    case TryLock(t) => Is(s, t, Trying)
    case DropPriority(t) => t in s.threads && (s.threads[t].Discounting? || s.threads[t].Yielding?)
    case Check(t, _) => Is(s, t, Entered)
    case Start(t, _) => Is(s, t, Starting)
    case Arm(t, _) => Is(s, t, Prepared) && s.process.Some?
    case Write(t) => t in s.threads && s.threads[t].Armed? && s.threads[t].process < |s.processes|
    case WriteFails(t, _) => t in s.threads && s.threads[t].Armed? && s.threads[t].process < |s.processes|
    case Get(t) =>
      t in s.threads && s.threads[t].Getting? && s.threads[t].process < |s.processes|
      && s.processes[s.threads[t].process].queue != []
    case GetTimesOut(t) => t in s.threads && s.threads[t].Getting?
    case Stop(t) => t in s.threads && s.threads[t].Failing?
    case Cancel(t) => t in s.threads && s.threads[t].Cancelling? && t in s.dogs
    case Join(t) => t in s.threads && s.threads[t].Joining? && t in s.dogs && s.dogs[t].phase.Over?
    case Judge(t) => t in s.threads && s.threads[t].Judging? && t in s.dogs
    case Operate(t, _) => t in s.threads && s.threads[t].Operating?
    case Release(t) => t in s.threads && s.threads[t].Releasing?
    case Fire(t) => t in s.dogs && s.dogs[t].phase.Ticking?
    case Kill(t) => t in s.dogs && s.dogs[t].phase.Firing? && s.dogs[t].target < |s.processes|
    case ProcessActs(g, a) => g < |s.processes| && ProcessCan(s.processes[g], a)
  }

  function At(s: State, t: nat, pc: Pc): State { s.(threads := s.threads[t := pc]) }

  function WithProcess(s: State, g: nat, p: Process): State
    requires g < |s.processes|
  {
    s.(processes := s.processes[g := p])
  }

  /** `_stop`: the process is killed and forgotten. */
  function Stopped(s: State): State {
    if s.process.Some? && s.process.value < |s.processes| then
      WithProcess(s, s.process.value, s.processes[s.process.value].(alive := false)).(process := None)
    else s.(process := None)
  }

  /** `_start`: a running process is kept; otherwise a new one is spawned, if that succeeds. */
  function Begun(s: State, spawned: bool): State {
    if Running(s) then s
    else
      var n := Stopped(s);
      if spawned then
        n.(process := Some(|n.processes|), processes := n.processes + [Process([], 0, 0, 0, [], true, true, false)])
      else n
  }

  function Written(p: Process, t: nat): Process { p.(written := p.written + [t]) }

  function Taken(p: Process): Process
    requires p.queue != []
  {
    p.(queue := p.queue[1..], taken := p.taken + if p.queue[0].Reply? then 1 else 0)
  }

  /** A reply is accepted only when nothing timed out and it names the request. */
  predicate Accepts(s: State, t: nat, g: nat, got: Option<Item>) {
    t in s.dogs && !s.dogs[t].fired && got.Some? && got.value.Reply? && got.value.named
    && g < |s.processes| && got.value.line < |s.processes[g].written| && s.processes[g].written[got.value.line] == t
  }

  function Do(s: State, step: Step): State
    requires Can(s, step)
  {
    match step
    case Call(t, background) => At(s, t, Arriving(background))
    case Manage(t, closing) => At(s, t, Waiting(closing))
    case TakePriority(t) =>
      var pc := s.threads[t];
      At(s.(priority := Some(t)), t,
         if pc.Leaving? then Discounting(pc.acquired) else if pc.background then Peeking else Counting)
    case Count(t) => At(s.(waiters := s.waiters + 1, priority := None), t, Queueing)
    case TakeLock(t) =>
      At(s.(lock := Some(t)), t, if s.threads[t].Queueing? then Leaving(true) else Operating(s.threads[t].closing))
    case GiveUp(t) => At(s, t, Leaving(false))
    case Peek(t, late) => At(s, t, if !late && s.waiters == 0 then Trying else Yielding(false))
    case TryLock(t) =>
      if s.lock == None then At(s.(lock := Some(t)), t, Yielding(true)) else At(s, t, Yielding(false))
    case DropPriority(t) =>
      var pc := s.threads[t];
      At(s.(priority := None, waiters := s.waiters - if pc.Discounting? then 1 else 0), t,
         if pc.acquired then Entered else Ended(None))
    case Check(t, late) => At(s, t, if late then Releasing(None) else Starting)
    case Start(t, spawned) =>
      var b := Begun(s, spawned);
      At(b, t, if b.process.Some? then Prepared else Releasing(None))
    case Arm(t, oversized) =>
      if oversized then At(s, t, Releasing(None))
      else At(s.(dogs := s.dogs[t := Dog(s.process.value, Ticking, false)]), t, Armed(s.process.value))
    case Write(t) =>
      var g := s.threads[t].process;
      At(WithProcess(s, g, Written(s.processes[g], t)), t, Getting(g))
    case WriteFails(t, delivered) =>
      var g := s.threads[t].process;
      At(if delivered then WithProcess(s, g, Written(s.processes[g], t)) else s, t, Failing(g))
    case Get(t) =>
      var g := s.threads[t].process;
      At(WithProcess(s, g, Taken(s.processes[g])), t, Cancelling(g, Some(s.processes[g].queue[0])))
    case GetTimesOut(t) => At(s, t, Failing(s.threads[t].process))
    case Stop(t) => At(Stopped(s), t, Cancelling(s.threads[t].process, None))
    case Cancel(t) =>
      var dog := if s.dogs[t].phase.Ticking? then s.dogs[t].(phase := Over) else s.dogs[t];
      At(s.(dogs := s.dogs[t := dog]), t, Joining(s.threads[t].process, s.threads[t].got))
    case Join(t) => At(s, t, Judging(s.threads[t].process, s.threads[t].got))
    case Judge(t) =>
      var got := s.threads[t].got;
      if Accepts(s, t, s.threads[t].process, got) then At(s, t, Releasing(got)) else At(Stopped(s), t, Releasing(None))
    case Operate(t, spawned) =>
      At(if s.threads[t].closing then Stopped(s) else Begun(s, spawned), t, Releasing(None))
    case Release(t) => At(s.(lock := None), t, Ended(s.threads[t].answer))
    case Fire(t) => s.(dogs := s.dogs[t := s.dogs[t].(phase := Firing, fired := true)])
    case Kill(t) =>
      var g := s.dogs[t].target;
      WithProcess(s, g, s.processes[g].(alive := false, killed := true)).(dogs := s.dogs[t := s.dogs[t].(phase := Over)])
    case ProcessActs(g, a) => WithProcess(s, g, ProcessDo(s.processes[g], a))
  }

  ghost predicate Follows(s: State, t: State) { exists step :: Can(s, step) && t == Do(s, step) }

  ghost predicate Run(trace: seq<State>) {
    && trace != [] && Init(trace[0])
    && forall i | 0 <= i < |trace| - 1 :: Follows(trace[i], trace[i + 1])
  }

  // ---- What every step keeps --------------------------------------------------------

  predicate HasPriority(pc: Pc) { pc.Counting? || pc.Discounting? || pc.Peeking? || pc.Trying? || pc.Yielding? }

  /** A foreground request waits from the moment it is counted until it is discounted. */
  predicate Counted(pc: Pc) { pc.Queueing? || pc.Leaving? || pc.Discounting? }

  predicate HasLock(pc: Pc) {
    ((pc.Leaving? || pc.Discounting? || pc.Yielding?) && pc.acquired)
    || pc.Operating? || pc.Entered? || pc.Starting? || pc.Prepared? || Exchanging(pc) || pc.Releasing?
  }

  /** From arming its watchdog to judging what it got, a thread is bound to one process. */
  predicate Exchanging(pc: Pc) { Guarded(pc) || pc.Judging? }

  predicate Guarded(pc: Pc) { pc.Armed? || pc.Getting? || pc.Failing? || pc.Cancelling? || pc.Joining? }

  ghost function Waiters(s: State): set<nat> { set t | t in s.threads && Counted(s.threads[t]) }

  ghost predicate LocksOk(s: State) {
    && (forall t | t in s.threads :: HasPriority(s.threads[t]) <==> s.priority == Some(t))
    && (forall t | t in s.threads :: HasLock(s.threads[t]) <==> s.lock == Some(t))
    && (s.priority.Some? ==> s.priority.value in s.threads)
    && (s.lock.Some? ==> s.lock.value in s.threads)
  }

  ghost predicate WaitersOk(s: State) {
    && s.waiters == |Waiters(s)|
    && (forall t | t in s.threads && s.threads[t].Trying? :: s.waiters == 0)
  }

  /** Replies wait in the order of their requests; nothing follows the end of the reader. */
  predicate ProcessOk(p: Process) {
    && p.taken <= p.relayed <= p.answered <= |p.written|
    && p.relayed - p.taken <= |p.queue|
    && (forall i | 0 <= i < p.relayed - p.taken :: p.queue[i].Reply? && p.queue[i].line == p.taken + i)
    && (forall i | p.relayed - p.taken <= i < |p.queue| :: p.queue[i].Broken?)
    && (p.reading ==> |p.queue| == p.relayed - p.taken)
  }

  /** Every request was answered and every answer was taken, and no watchdog has killed it. */
  predicate InStep(p: Process) { p.taken == |p.written| && !p.killed }

  ghost predicate Idle(s: State) { forall t | t in s.threads :: !Exchanging(s.threads[t]) }

  ghost predicate ExchangeOk(s: State, t: nat, pc: Pc) {
    Exchanging(pc) ==>
      && pc.process < |s.processes| && t in s.dogs && s.dogs[t].target == pc.process
      && (s.process == None || s.process == Some(pc.process))
      && (s.processes[pc.process].killed ==> s.dogs[t].fired)
      && (pc.Judging? ==> s.dogs[t].phase.Over?)
      && (var p := s.processes[pc.process];
          && (pc.Armed? ==> s.process.Some? && p.taken == |p.written|)
          && (pc.Getting? ==> s.process.Some? && p.taken + 1 == |p.written| && p.written[p.taken] == t)
          && (pc.Cancelling? || pc.Joining? || pc.Judging? ==>
                && (pc.got.Some? <==> s.process.Some?)
                && (pc.got.Some? && pc.got.value.Reply? ==>
                      p.taken == |p.written| && pc.got.value.line + 1 == |p.written| && p.written[pc.got.value.line] == t)))
  }

  ghost predicate ProcessesOk(s: State) {
    && (s.process.Some? ==> s.process.value < |s.processes|)
    && (forall g | 0 <= g < |s.processes| :: ProcessOk(s.processes[g]))
    && (s.process.Some? && Idle(s) ==> InStep(s.processes[s.process.value]))
    && (forall t | t in s.threads && s.threads[t].Prepared? :: s.process.Some?)
  }

  /** A watchdog that is not over belongs to a request still in its exchange. */
  ghost predicate DogsOk(s: State) {
    && (forall t | t in s.dogs :: t in s.threads && s.dogs[t].target < |s.processes|)
    && (forall t | t in s.dogs && !s.dogs[t].phase.Over? :: Guarded(s.threads[t]))
    && (forall t | t in s.dogs :: s.dogs[t].phase.Firing? ==> s.dogs[t].fired)
    && (forall t | t in s.threads :: ExchangeOk(s, t, s.threads[t]))
  }

  ghost predicate Inv(s: State) { LocksOk(s) && WaitersOk(s) && ProcessesOk(s) && DogsOk(s) }

  lemma InitInv(s: State)
    requires Init(s)
    ensures Inv(s)
  {
    assert Waiters(s) == {};
  }

  // ---- Steps that queue -------------------------------------------------------------

  predicate Queues(step: Step) {
    step.Call? || step.Manage? || step.TakePriority? || step.Count? || step.TakeLock? || step.GiveUp? || step.Peek?
    || step.TryLock? || step.DropPriority? || step.Check? || step.Release?
  }

  /** Nothing about the process changes, and one thread outside every exchange moves on. */
  ghost predicate Moves(s: State, t: State, n: nat) {
    && t.process == s.process && t.processes == s.processes && t.dogs == s.dogs
    && n in t.threads && t.threads == s.threads[n := t.threads[n]]
    && (n in s.threads ==> !Exchanging(s.threads[n]) && !s.threads[n].Prepared?)
    && !Exchanging(t.threads[n]) && !t.threads[n].Prepared?
  }

  lemma QueuesMoves(s: State, step: Step)
    requires Can(s, step) && Queues(step)
    ensures Moves(s, Do(s, step), step.t)
  {
  }

  lemma MovesKeeps(s: State, t: State, n: nat)
    requires ProcessesOk(s) && DogsOk(s) && Moves(s, t, n)
    ensures ProcessesOk(t) && DogsOk(t)
  {
    forall m | m in s.threads
      ensures Exchanging(s.threads[m]) ==> m in t.threads && Exchanging(t.threads[m])
    {
      assert m != n ==> t.threads[m] == s.threads[m];
    }
    assert Idle(t) ==> Idle(s);
    forall m | m in t.threads
      ensures ExchangeOk(t, m, t.threads[m])
    {
      assert m != n ==> ExchangeOk(s, m, s.threads[m]);
    }
  }

  /** Thread `n` takes a lock, gives it back, or leaves it alone. */
  predicate Transfers(was: Option<nat>, now: Option<nat>, had: bool, has: bool, n: nat) {
    if had == has then was == now else if has then was == None && now == Some(n) else was == Some(n) && now == None
  }

  lemma PriorityTransfers(s: State, step: Step)
    requires LocksOk(s) && Can(s, step) && Queues(step)
    ensures var t, n := Do(s, step), step.t;
      && n in t.threads
      && Transfers(s.priority, t.priority, n in s.threads && HasPriority(s.threads[n]), HasPriority(t.threads[n]), n)
  {
  }

  lemma LockTransfers(s: State, step: Step)
    requires LocksOk(s) && Can(s, step) && Queues(step)
    ensures var t, n := Do(s, step), step.t;
      && n in t.threads
      && Transfers(s.lock, t.lock, n in s.threads && HasLock(s.threads[n]), HasLock(t.threads[n]), n)
  {
  }

  lemma TransfersKeep(s: State, t: State, n: nat)
    requires LocksOk(s) && n in t.threads && t.threads == s.threads[n := t.threads[n]]
    requires Transfers(s.priority, t.priority, n in s.threads && HasPriority(s.threads[n]), HasPriority(t.threads[n]), n)
    requires Transfers(s.lock, t.lock, n in s.threads && HasLock(s.threads[n]), HasLock(t.threads[n]), n)
    ensures LocksOk(t)
  {
    forall m | m in t.threads && m != n
      ensures m in s.threads && t.threads[m] == s.threads[m]
    {
    }
  }

  lemma QueuesKeepsLocks(s: State, step: Step)
    requires LocksOk(s) && Can(s, step) && Queues(step)
    ensures LocksOk(Do(s, step))
  {
    hide LocksOk, Do, Can, Transfers, HasLock, HasPriority;
    PriorityTransfers(s, step);
    LockTransfers(s, step);
    QueuesMoves(s, step);
    TransfersKeep(s, Do(s, step), step.t);
  }

  lemma CountTransfers(s: State, step: Step)
    requires LocksOk(s) && WaitersOk(s) && Can(s, step) && Queues(step)
    ensures var t, n := Do(s, step), step.t;
      && n in t.threads
      && t.waiters == s.waiters + (if Counted(t.threads[n]) then 1 else 0)
                                - (if n in s.threads && Counted(s.threads[n]) then 1 else 0)
      && (t.threads[n].Trying? ==> t.waiters == 0)
      && (t.waiters != s.waiters ==> forall m | m in s.threads && m != n :: !s.threads[m].Trying?)
  {
  }

  lemma QueuesKeepsWaiters(s: State, step: Step)
    requires LocksOk(s) && WaitersOk(s) && Can(s, step) && Queues(step)
    ensures WaitersOk(Do(s, step))
  {
    CountTransfers(s, step);
    QueuesMoves(s, step);
    hide Do, Can, LocksOk;
    Counts(s, Do(s, step), step.t);
  }

  lemma Counts(s: State, t: State, n: nat)
    requires WaitersOk(s) && n in t.threads && t.threads == s.threads[n := t.threads[n]]
    requires t.waiters == s.waiters + (if Counted(t.threads[n]) then 1 else 0)
                                    - (if n in s.threads && Counted(s.threads[n]) then 1 else 0)
    requires t.threads[n].Trying? ==> t.waiters == 0
    requires t.waiters != s.waiters ==> forall m | m in s.threads && m != n :: !s.threads[m].Trying?
    ensures WaitersOk(t)
  {
    assert forall m | m in t.threads && m != n :: m in s.threads && t.threads[m] == s.threads[m];
    var before, now := Waiters(s), Waiters(t);
    assert n in now <==> Counted(t.threads[n]);
    assert forall m | m != n :: m in now <==> m in before;
    hide Waiters;
    if n in now {
      assert now == before + {n};
    } else {
      assert now == before - {n};
    }
  }

  // ---- Steps of the thread that holds the lock --------------------------------------

  predicate Works(step: Step) {
    step.Start? || step.Arm? || step.Write? || step.WriteFails? || step.Get? || step.GetTimesOut? || step.Stop?
    || step.Cancel? || step.Join? || step.Judge? || step.Operate?
  }

  ghost predicate Stays(s: State, t: State, n: nat) {
    && t.lock == s.lock && t.priority == s.priority && t.waiters == s.waiters
    && n in s.threads && n in t.threads && t.threads == s.threads[n := t.threads[n]]
    && HasLock(s.threads[n]) && HasLock(t.threads[n])
    && !HasPriority(s.threads[n]) && !HasPriority(t.threads[n])
    && !Counted(s.threads[n]) && !Counted(t.threads[n])
  }

  lemma StartsStay(s: State, step: Step)
    requires Can(s, step) && (step.Start? || step.Operate?)
    ensures Stays(s, Do(s, step), step.t)
  {
    var b := Begun(s, step.spawned);
    assert b == s.(process := b.process, processes := b.processes);
    assert Stopped(s) == s.(process := None, processes := Stopped(s).processes);
    hide Begun, Stopped, Running;
  }

  lemma ExchangesStay(s: State, step: Step)
    requires Can(s, step) && (step.Write? || step.WriteFails? || step.Get? || step.GetTimesOut?)
    ensures Stays(s, Do(s, step), step.t)
  {
    hide Written, Taken;
  }

  lemma EndsStay(s: State, step: Step)
    requires Can(s, step) && (step.Arm? || step.Stop? || step.Cancel? || step.Join? || step.Judge?)
    ensures Stays(s, Do(s, step), step.t)
  {
    assert Stopped(s) == s.(process := None, processes := Stopped(s).processes);
    hide Accepts, Stopped;
  }

  lemma StaysKeeps(s: State, t: State, n: nat)
    requires LocksOk(s) && WaitersOk(s) && Stays(s, t, n)
    ensures LocksOk(t) && WaitersOk(t)
  {
    assert Waiters(t) == Waiters(s);
  }

  /** What a working step must establish for the thread and for the current process. */
  ghost predicate Settled(s: State, t: State, n: nat) {
    && Stays(s, t, n)
    && |s.processes| <= |t.processes| && (t.process.Some? ==> t.process.value < |t.processes|)
    && (forall g | 0 <= g < |t.processes| :: ProcessOk(t.processes[g]))
    && (t.process.Some? && !Exchanging(t.threads[n]) ==> InStep(t.processes[t.process.value]))
    && (t.threads[n].Prepared? ==> t.process.Some?)
    && (forall m | m in t.dogs && m != n :: m in s.dogs && t.dogs[m] == s.dogs[m])
    && (n in t.dogs ==> t.dogs[n].target < |t.processes|
                        && (!t.dogs[n].phase.Over? ==> Guarded(t.threads[n])) && (t.dogs[n].phase.Firing? ==> t.dogs[n].fired))
    && ExchangeOk(t, n, t.threads[n])
  }

  lemma SettledKeeps(s: State, t: State, n: nat)
    requires Inv(s) && Settled(s, t, n)
    ensures Inv(t)
  {
    StaysKeeps(s, t, n);
    assert forall m | m in t.threads && m != n :: m in s.threads && t.threads[m] == s.threads[m];
    assert forall m | m in s.threads && m != n :: !HasLock(s.threads[m]);
    assert Exchanging(t.threads[n]) ==> !Idle(t);
    forall m | m in t.threads
      ensures ExchangeOk(t, m, t.threads[m])
    {
      assert m != n ==> !Exchanging(t.threads[m]);
    }
  }

  lemma ArmSettles(s: State, step: Step)
    requires Inv(s) && Can(s, step) && (step.Arm?)
    ensures Settled(s, Do(s, step), step.t)
  {
    assert ExchangeOk(s, step.t, s.threads[step.t]);
    EndsStay(s, step);
    hide LocksOk, WaitersOk, Stays;
  }

  lemma WriteSettles(s: State, step: Step)
    requires Inv(s) && Can(s, step) && step.Write?
    ensures Settled(s, Do(s, step), step.t)
  {
    assert ExchangeOk(s, step.t, s.threads[step.t]);
    ExchangesStay(s, step);
    hide LocksOk, WaitersOk, Stays;
  }

  lemma WriteFailsSettles(s: State, step: Step)
    requires Inv(s) && Can(s, step) && step.WriteFails?
    ensures Settled(s, Do(s, step), step.t)
  {
    assert ExchangeOk(s, step.t, s.threads[step.t]);
    ExchangesStay(s, step);
    hide LocksOk, WaitersOk, Stays;
  }

  lemma GetSettles(s: State, step: Step)
    requires Inv(s) && Can(s, step) && (step.Get? || step.GetTimesOut?)
    ensures Settled(s, Do(s, step), step.t)
  {
    assert ExchangeOk(s, step.t, s.threads[step.t]);
    ExchangesStay(s, step);
    hide LocksOk, WaitersOk, Stays;
  }

  lemma StopSettles(s: State, step: Step)
    requires Inv(s) && Can(s, step) && (step.Stop?)
    ensures Settled(s, Do(s, step), step.t)
  {
    assert ExchangeOk(s, step.t, s.threads[step.t]);
    EndsStay(s, step);
    hide LocksOk, WaitersOk, Stays;
  }

  lemma CancelSettles(s: State, step: Step)
    requires Inv(s) && Can(s, step) && (step.Cancel? || step.Join?)
    ensures Settled(s, Do(s, step), step.t)
  {
    assert ExchangeOk(s, step.t, s.threads[step.t]);
    EndsStay(s, step);
    hide LocksOk, WaitersOk, Stays;
  }

  lemma StoppedOk(s: State)
    requires ProcessesOk(s)
    ensures var t := Stopped(s);
      && t == s.(process := None, processes := t.processes) && |t.processes| == |s.processes|
      && forall g | 0 <= g < |t.processes| :: ProcessOk(t.processes[g])
  {
  }

  lemma BegunOk(s: State, spawned: bool)
    requires ProcessesOk(s) && Idle(s)
    ensures var t := Begun(s, spawned);
      && t == s.(process := t.process, processes := t.processes) && |s.processes| <= |t.processes|
      && (forall g | 0 <= g < |t.processes| :: ProcessOk(t.processes[g]))
      && (t.process.Some? ==> t.process.value < |t.processes| && InStep(t.processes[t.process.value]))
  {
    StoppedOk(s);
  }

  lemma HolderIsIdle(s: State, t: nat)
    requires LocksOk(s) && t in s.threads && HasLock(s.threads[t]) && !Exchanging(s.threads[t])
    ensures Idle(s)
  {
    forall u | u in s.threads
      ensures !Exchanging(s.threads[u])
    {
      assert u != t ==> !HasLock(s.threads[u]);
    }
  }

  /** Starting or stopping the process outside every exchange. */
  lemma UnboundSettles(s: State, t: State, n: nat)
    requires DogsOk(s) && Stays(s, t, n) && t.dogs == s.dogs
    requires !Exchanging(s.threads[n]) && !Exchanging(t.threads[n]) && (t.threads[n].Prepared? ==> t.process.Some?)
    requires |s.processes| <= |t.processes| && forall g | 0 <= g < |t.processes| :: ProcessOk(t.processes[g])
    requires t.process.Some? ==> t.process.value < |t.processes| && InStep(t.processes[t.process.value])
    ensures Settled(s, t, n)
  {
    hide ProcessOk, InStep, Stays;
  }

  lemma StartSettles(s: State, step: Step)
    requires Inv(s) && Can(s, step) && step.Start?
    ensures Settled(s, Do(s, step), step.t)
  {
    HolderIsIdle(s, step.t);
    BegunOk(s, step.spawned);
    StartsStay(s, step);
    hide LocksOk, WaitersOk, DogsOk, ProcessesOk, Stays, Begun, ProcessOk, Idle, InStep, Settled;
    UnboundSettles(s, Do(s, step), step.t);
  }

  lemma JudgeSettles(s: State, step: Step)
    requires Inv(s) && Can(s, step) && step.Judge?
    ensures Settled(s, Do(s, step), step.t)
  {
    assert ExchangeOk(s, step.t, s.threads[step.t]);
    StoppedOk(s);
    EndsStay(s, step);
    hide LocksOk, WaitersOk, Stays, Stopped, ProcessOk, Idle;
  }

  lemma OperateSettles(s: State, step: Step)
    requires Inv(s) && Can(s, step) && step.Operate?
    ensures Settled(s, Do(s, step), step.t)
  {
    HolderIsIdle(s, step.t);
    StoppedOk(s);
    BegunOk(s, step.spawned);
    StartsStay(s, step);
    hide LocksOk, WaitersOk, DogsOk, ProcessesOk, Stays, Stopped, Begun, ProcessOk, Idle, InStep, Settled;
    UnboundSettles(s, Do(s, step), step.t);
  }

  lemma WorksKeeps(s: State, step: Step)
    requires Inv(s) && Can(s, step) && Works(step)
    ensures Inv(Do(s, step))
  {
    hide Inv, Can, Do, Settled;
    match step {
      case Start(_, _) => StartSettles(s, step);
      case Arm(_, _) => ArmSettles(s, step);
      case Write(_) => WriteSettles(s, step);
      case WriteFails(_, _) => WriteFailsSettles(s, step);
      case Get(_) => GetSettles(s, step);
      case GetTimesOut(_) => GetSettles(s, step);
      case Stop(_) => StopSettles(s, step);
      case Cancel(_) => CancelSettles(s, step);
      case Join(_) => CancelSettles(s, step);
      case Judge(_) => JudgeSettles(s, step);
      case Operate(_, _) => OperateSettles(s, step);
    }
    SettledKeeps(s, Do(s, step), step.t);
  }

  // ---- Steps beside the threads -----------------------------------------------------

  lemma ProcessKeepsOk(p: Process, a: ProcessStep)
    requires ProcessOk(p) && ProcessCan(p, a)
    ensures ProcessOk(ProcessDo(p, a))
    ensures ProcessDo(p, a).written == p.written && ProcessDo(p, a).taken == p.taken && ProcessDo(p, a).killed == p.killed
  {
  }

  lemma ProcessActsKeeps(s: State, g: nat, a: ProcessStep)
    requires Inv(s) && Can(s, ProcessActs(g, a))
    ensures Inv(Do(s, ProcessActs(g, a)))
  {
    var t := Do(s, ProcessActs(g, a));
    ProcessKeepsOk(s.processes[g], a);
    hide ProcessOk, ProcessDo;
    assert Waiters(t) == Waiters(s);
    assert Idle(t) == Idle(s);
    forall m | m in t.threads
      ensures ExchangeOk(t, m, t.threads[m])
    {
      assert ExchangeOk(s, m, s.threads[m]);
    }
  }

  lemma DogActsKeeps(s: State, step: Step)
    requires Inv(s) && Can(s, step) && (step.Fire? || step.Kill?)
    ensures Inv(Do(s, step))
  {
    var t := Do(s, step);
    assert Waiters(t) == Waiters(s);
    assert Idle(t) == Idle(s);
    assert ExchangeOk(s, step.t, s.threads[step.t]);
    assert Exchanging(s.threads[step.t]);
    forall m | m in t.threads
      ensures ExchangeOk(t, m, t.threads[m])
    {
      assert ExchangeOk(s, m, s.threads[m]);
    }
  }

  lemma StepKeeps(s: State, step: Step)
    requires Inv(s) && Can(s, step)
    ensures Inv(Do(s, step))
  {
    if Queues(step) {
      QueuesKeepsLocks(s, step);
      QueuesKeepsWaiters(s, step);
      QueuesMoves(s, step);
      MovesKeeps(s, Do(s, step), step.t);
    } else if Works(step) {
      WorksKeeps(s, step);
    } else if step.ProcessActs? {
      ProcessActsKeeps(s, step.g, step.action);
    } else {
      DogActsKeeps(s, step);
    }
  }

  lemma {:induction false} RunKeeps(trace: seq<State>, i: nat)
    requires Run(trace) && i < |trace|
    ensures Inv(trace[i])
  {
    if i == 0 {
      InitInv(trace[0]);
    } else {
      RunKeeps(trace, i - 1);
      assert Follows(trace[i - 1], trace[i - 1 + 1]);
      var step :| Can(trace[i - 1], step) && trace[i] == Do(trace[i - 1], step);
      StepKeeps(trace[i - 1], step);
    }
  }

  // ---- What the callers rely on -----------------------------------------------------

  /** Whenever the lock is free, the process kept for the next request has had every reply taken,
      was killed by no watchdog, and has no watchdog left that could still kill it. */
  lemma FreeMeansInStep(trace: seq<State>, k: nat)
    requires Run(trace) && k < |trace| && trace[k].lock == None
    ensures var s := trace[k];
      && (s.process.Some? ==>
            && s.process.value < |s.processes|
            && var p := s.processes[s.process.value];
               |p.written| == p.answered == p.relayed == p.taken && !p.killed && forall i | i in p.queue :: i == Broken)
      && forall t | t in s.dogs :: s.dogs[t].phase.Over?
  {
    RunKeeps(trace, k);
    var s := trace[k];
    assert Idle(s);
    if s.process.Some? { assert ProcessOk(s.processes[s.process.value]); }
  }

  /** A reply taken from the queue answers the request of the thread that takes it. */
  lemma NoCrossedReplies(trace: seq<State>, k: nat, t: nat)
    requires Run(trace) && k < |trace| && Can(trace[k], Get(t))
    ensures var s := trace[k]; var p := s.processes[s.threads[t].process]; var item := p.queue[0];
      item.Reply? ==> item.line < |p.written| && p.written[item.line] == t
  {
    RunKeeps(trace, k);
    assert ExchangeOk(trace[k], t, trace[k].threads[t]);
    assert ProcessOk(trace[k].processes[trace[k].threads[t].process]);
  }

  /** What was taken is refused exactly when time ran out, the reader broke, or the worker could
      not name the request: a reply to another request never comes. */
  lemma MismatchIsUnnamed(trace: seq<State>, k: nat, t: nat)
    requires Run(trace) && k < |trace| && Can(trace[k], Judge(t))
    ensures var s := trace[k]; var pc := s.threads[t];
      Accepts(s, t, pc.process, pc.got) <==>
        pc.got.Some? && pc.got.value.Reply? && pc.got.value.named && !s.dogs[t].fired
  {
    RunKeeps(trace, k);
    assert ExchangeOk(trace[k], t, trace[k].threads[t]);
  }

  /** A watchdog kills only the process of its own request, while that request holds the lock. */
  lemma KillsItsOwn(trace: seq<State>, k: nat, t: nat)
    requires Run(trace) && k < |trace| && Can(trace[k], Kill(t))
    ensures var s := trace[k];
      && s.lock == Some(t) && t in s.threads && Guarded(s.threads[t]) && s.threads[t].process == s.dogs[t].target
      && (s.process.Some? ==> s.process.value == s.dogs[t].target)
  {
    RunKeeps(trace, k);
    assert ExchangeOk(trace[k], t, trace[k].threads[t]);
  }

  /** A background request that gets the compiler passed no foreground request: none was waiting. */
  lemma BackgroundYields(trace: seq<State>, k: nat, t: nat)
    requires Run(trace) && k < |trace| && Can(trace[k], TryLock(t))
    ensures forall u | u in trace[k].threads :: !Counted(trace[k].threads[u])
  {
    RunKeeps(trace, k);
    var s := trace[k];
    assert |Waiters(s)| == 0;
    forall u | u in s.threads
      ensures !Counted(s.threads[u])
    {
      assert u in Waiters(s) ==> Waiters(s) != {};
    }
  }

  /** At most one thread is between taking the compiler and giving it back. */
  lemma OneAtATime(trace: seq<State>, k: nat, t: nat, u: nat)
    requires Run(trace) && k < |trace| && t in trace[k].threads && u in trace[k].threads
    requires HasLock(trace[k].threads[t]) && HasLock(trace[k].threads[u])
    ensures t == u
  {
    RunKeeps(trace, k);
  }
}
