/** A run in which a command executes and a repeat of the very same request is refused. */
module HostExample {
  import opened Wrappers
  import opened HostQueue
  import opened HostProtocol
  import opened HostInvariant
  import opened HostTheorems
  import opened HostCallers

  function Last(trace: seq<State>): State
    requires trace != []
  {
    trace[|trace| - 1]
  }

  lemma Extend(trace: seq<State>, step: Step) returns (longer: seq<State>)
    requires Run(trace) && Can(Last(trace), step)
    ensures Run(longer) && Last(longer) == Do(Last(trace), step) && trace <= longer && |longer| == |trace| + 1
  {
    var next := Do(Last(trace), step);
    longer := trace + [next];
    assert Follows(Last(trace), next);
    forall i | 0 <= i < |longer| - 1
      ensures Follows(longer[i], longer[i + 1])
    {
      if i < |trace| - 1 { assert longer[i + 1] == trace[i + 1]; }
    }
  }

  // ---- The states of the run --------------------------------------------------------

  const REQUEST := Submission("same", "work", false, false, 1000, true, false)
  const CONTEXT := Context(0, 0)
  const SNAPSHOT := Snapshot(0, 0, 1, false)

  /** One project whose Editor is ready and known, before its listener runs. */
  function Fresh(): State {
    State(Host([], [], [], false, map[], 0, false, map[], SNAPSHOT, None, None, true, false),
          Unity(0, 0, None, false, 0, {}, [], Free, true), [], [], [], 0, 0)
  }

  function Listening(): State { Fresh().(unity := Unity(0, 0, Some(0), true, 1, {}, [], Free, true)) }

  function Prepared(): State {
    Listening().(host := Host([], [], [], false, map[], 0, false, map[], SNAPSHOT, Some(CONTEXT),
                              Some(SNAPSHOT.Key()), true, false))
  }

  function Calling(pc: CallPc): State { Prepared().(calls := [Call(REQUEST, pc)]) }

  function JobIn(state: JobState): Job { JobFor(REQUEST, 1000).(state := state) }

  function Queueing(): State {
    Calling(Joined(0, 1000)).(host := Host([JobIn(Queued)], [0], [0], true, map[0 := Top], 1, false, map[], SNAPSHOT,
                                     Some(CONTEXT), Some(SNAPSHOT.Key()), true, false))
  }

  function Working(state: JobState, pc: Pc): State {
    Calling(Joined(0, 1000)).(host := Host([JobIn(state)], [0], [], true, map[0 := pc], 1, true, map[], SNAPSHOT,
                                     Some(CONTEXT), Some(SNAPSHOT.Key()), true, false))
  }

  function InUnity(phase: Phase, queue: seq<nat>, lock: Lock): State {
    Working(Dispatched, Awaiting(0, 0, 0)).(
      msgs := [Msg(0, false, false, Some(CONTEXT), 1000, phase)],
      unity := Unity(0, 0, Some(0), true, 1, {}, queue, lock, true))
  }

  function Started(): State {
    InUnity(Running(0), [], Held(0)).(starts := [Start(0, 0, 0, 0, 0, 0, Some(0), true)])
  }

  // ---- The run ----------------------------------------------------------------------

  lemma ToCalling() returns (trace: seq<State>)
    ensures Run(trace) && Last(trace) == Calling(Arrived)
  {
    trace := [Fresh()];
    assert Run(trace);
    hide Run;
    trace := Extend(trace, EditorActs(StartListener));
    assert Last(trace) == Listening();
    trace := Extend(trace, ServiceActs(Negotiated(SNAPSHOT.Key())));
    assert Last(trace) == Prepared();
    trace := Extend(trace, Submits(REQUEST));
  }

  lemma ToQueueing() returns (trace: seq<State>)
    ensures Run(trace) && Last(trace) == Queueing()
  {
    hide Run;
    trace := ToCalling();
    trace := Extend(trace, CallActs(0, CheckStopping));
    assert Last(trace) == Calling(Entered);
    trace := Extend(trace, CallActs(0, Time));
    assert Last(trace) == Calling(Timed(1000));
    trace := Extend(trace, CallActs(0, Anchor));
    assert Last(trace) == Calling(Anchored(1000, 1000));
    Enrols();
    trace := Extend(trace, CallActs(0, Lookup({}, {})));
  }

  lemma Enrols()
    ensures Can(Calling(Anchored(1000, 1000)), CallActs(0, Lookup({}, {})))
    ensures Do(Calling(Anchored(1000, 1000)), CallActs(0, Lookup({}, {}))) == Queueing()
  {
  }

  lemma ToChecking() returns (trace: seq<State>)
    ensures Run(trace) && Last(trace) == Working(Queued, Checking(0, 0, CONTEXT))
  {
    hide Run;
    trace := ToQueueing();
    trace := Extend(trace, WorkerActs(0, Pop));
    assert Last(trace) == Working(Queued, Begin(0));
    trace := Extend(trace, WorkerActs(0, BeginJob));
    assert Last(trace) == Working(Queued, Waiting(0, 0));
    trace := Extend(trace, WorkerActs(0, Wait));
  }

  lemma ToArmed() returns (trace: seq<State>)
    ensures Run(trace) && Last(trace) == Working(Queued, Armed(0, 0, CONTEXT, SNAPSHOT, 1000))
  {
    hide Run;
    trace := ToChecking();
    trace := Extend(trace, WorkerActs(0, Check));
    assert Last(trace) == Working(Queued, Checked(0, 0, CONTEXT, SNAPSHOT));
    trace := Extend(trace, WorkerActs(0, Measure));
  }

  lemma ToSending() returns (trace: seq<State>)
    ensures Run(trace) && Last(trace) == Working(Dispatched, Sending(0, 0, CONTEXT, SNAPSHOT, 1000))
  {
    hide Run;
    trace := ToArmed();
    trace := Extend(trace, WorkerActs(0, Dispatch));
  }

  lemma ToUnity() returns (trace: seq<State>)
    ensures Run(trace) && Last(trace) == InUnity(Enqueued(0), [0], Free)
  {
    hide Run;
    trace := ToSending();
    trace := Extend(trace, WorkerActs(0, Post));
    assert Last(trace) == InUnity(InFlight, [], Free);
    trace := Extend(trace, MessageActs(0, Accept));
    assert Last(trace) == InUnity(Parsed(0), [], Free);
    trace := Extend(trace, MessageActs(0, Enqueue));
  }

  lemma ToStarted() returns (trace: seq<State>)
    ensures Run(trace) && Last(trace) == Started()
  {
    hide Run;
    trace := ToUnity();
    trace := Extend(trace, MessageActs(0, Dequeue));
    assert Last(trace) == InUnity(WaitingLock(0), [], Free);
    trace := Extend(trace, MessageActs(0, AcquireLock));
    assert Last(trace) == InUnity(Holding(0), [], Held(0));
    trace := Extend(trace, MessageActs(0, Execute));
  }

  function Repeated(pc: CallPc, unix: int, stopping: bool): State {
    Started().(calls := [Call(REQUEST, Joined(0, 1000)), Call(REQUEST, pc)], unix := unix,
               host := Started().host.(stopping := stopping))
  }

  lemma ToLate() returns (trace: seq<State>)
    ensures Run(trace) && Last(trace) == Repeated(Entered, 1000, false)
  {
    hide Run;
    trace := ToStarted();
    trace := Extend(trace, Submits(REQUEST));
    assert Last(trace) == Repeated(Arrived, 0, false);
    trace := Extend(trace, CallActs(1, CheckStopping));
    assert Last(trace) == Repeated(Entered, 0, false);
    trace := Extend(trace, Tick(1000, 0));
  }

  /** The command runs, its job is remembered, and the very same request, sent again when its
      deadline has passed, is told that it was not started. */
  lemma LateRepeatIsRefused() returns (trace: seq<State>)
    ensures Run(trace) && Last(trace) == Repeated(Refused(Expired), 1000, false)
    ensures var s := Last(trace);
      s.starts[0].job == 0 && 0 in s.host.table && SameWork(s.host.jobs[0], s.calls[1].request)
  {
    hide Run;
    trace := ToLate();
    trace := Extend(trace, CallActs(1, Time));
    assert Last(trace) == Repeated(Timed(0), 1000, false);
    trace := Extend(trace, CallActs(1, Anchor));
  }

  /** The same when the host began to stop before the repeat arrived. */
  lemma RepeatWhileStoppingIsRefused() returns (trace: seq<State>)
    ensures Run(trace) && Last(trace) == Repeated(Refused(HostStopping), 0, true)
    ensures var s := Last(trace);
      s.starts[0].job == 0 && 0 in s.host.table && SameWork(s.host.jobs[0], s.calls[1].request)
  {
    hide Run;
    trace := ToStarted();
    trace := Extend(trace, ServiceActs(BeginStop));
    assert Last(trace) == Started().(host := Started().host.(stopping := true));
    trace := Extend(trace, Submits(REQUEST));
    assert Last(trace) == Repeated(Arrived, 0, true);
    trace := Extend(trace, CallActs(1, CheckStopping));
  }

  // ---- And its answer ---------------------------------------------------------------

  function Finishing(job: Job, pc: Pc, call: CallPc): State {
    Started().(
      unity := Started().unity.(lock := Free),
      msgs := [Msg(0, false, false, Some(CONTEXT), 1000, Finished(0))],
      calls := [Call(REQUEST, call)],
      host := Started().host.(jobs := [job], workers := map[0 := pc]))
  }

  function AnsweredJob(): Job { JobIn(Completed).(response := Some(Ran(0))) }

  lemma ToReplied() returns (trace: seq<State>)
    ensures Run(trace) && Last(trace) == Finishing(JobIn(Dispatched), Replied(0, 0, Ran(0)), Joined(0, 1000))
  {
    hide Run;
    trace := ToStarted();
    trace := Extend(trace, MessageActs(0, Finish));
    assert Last(trace) == Finishing(JobIn(Dispatched), Awaiting(0, 0, 0), Joined(0, 1000));
    trace := Extend(trace, WorkerActs(0, Receive));
  }

  /** The run goes on, and the caller is told what its one execution returned. */
  lemma AnswerReachesCaller() returns (trace: seq<State>)
    ensures Run(trace) && Last(trace) == Finishing(AnsweredJob(), Closing, Told(Ran(0), Some(0)))
    ensures var s := Last(trace); s.starts[0].job == 0 && s.calls[0].pc.answer == Ran(0)
  {
    hide Run;
    trace := ToReplied();
    trace := Extend(trace, WorkerActs(0, Settle));
    assert Last(trace) == Finishing(JobIn(Dispatched), Answering(0, Ran(0)), Joined(0, 1000));
    trace := Extend(trace, WorkerActs(0, Complete));
    assert Last(trace) == Finishing(AnsweredJob(), Closing, Joined(0, 1000));
    trace := Extend(trace, CallActs(0, Hear));
  }
}
