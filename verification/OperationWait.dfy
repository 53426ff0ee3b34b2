/** Sending an operation to the Editor once, and waiting for its receipt by repeating a query that
    changes nothing. */
module OperationWait {
  import opened Wrappers
  import opened WaitForState
  import OperationSpec
  import OperationHistory

  /** Errors that end the wait; every other failure is a discovery error, and polled over. */
  datatype Trouble = Restarted | Refused | InvalidReply | NoReceipt | OperationCancelled | OtherInstance

  datatype EditorState = EditorState(requestId: nat, instance: Option<Instance>,
                                     operation: Option<(string, Option<OperationSpec.Observed>)>)

  /** A reply to `get_editor_state`; `notStarted` holds the reason of a refusal. */
  datatype Reply = Reply(success: bool, completionUnknown: bool, notStarted: Option<string>, data: Option<EditorState>)

  /** What the world does during one poll: when it happens, which instance is discovered, the fresh
      request id, the reply unless the connection is lost, and the clock at each reading. */
  datatype Attempt = Attempt(start: real, found: Option<Instance>, measured: real, requestId: nat,
                             reply: Option<Reply>, replied: real, now: real, end: real)

  /** What is sent to the Editor. */
  datatype Command = Mutation | GetEditorState(requestId: nat, operationId: string)

  const RETRYABLE := {"expired", "not_ready", "stale_domain", "stale_references", "unsupported_connector",
                      "host_stopping", "queue_full"}

  predicate Retryable(reply: Reply) { !reply.success && reply.notStarted.Some? && reply.notStarted.value in RETRYABLE }

  /** The query goes out once an instance of the same process is found in time. */
  predicate Queries(a: Attempt, target: Instance, deadline: real) {
    a.found.Some? && !(target.pid > 0 && a.found.value.pid != target.pid) && deadline - a.measured > 0.0
  }

  function Confirmation(a: Attempt, operationId: string, target: Instance, deadline: real): Seen<Trouble> {
    if a.found.None? then Missing
    else if target.pid > 0 && a.found.value.pid != target.pid then Fatal(Restarted)
    else if deadline - a.measured <= 0.0 then Missing
    else if a.reply.None? then Missing
    else Verdict(a, a.reply.value, operationId, target, deadline)
  }

  function Verdict(a: Attempt, reply: Reply, operationId: string, target: Instance, deadline: real): Seen<Trouble>
    requires a.found.Some?
  {
    if reply.completionUnknown then Missing
    else if Retryable(reply) then Missing
    else if !reply.success then Fatal(Refused)
    else if reply.data.None? || reply.data.value.requestId != a.requestId || reply.data.value.instance.None?
            || reply.data.value.operation.None? || reply.data.value.operation.value.0 != operationId then
      Fatal(InvalidReply)
    else
      var state, live := reply.data.value.operation.value.1, reply.data.value.instance.value;
      if state == Some(OperationSpec.Unknown) then Fatal(NoReceipt)
      else if state == Some(OperationSpec.Cancelled) then Fatal(OperationCancelled)
      else if state != Some(OperationSpec.Completed) then Missing
      else if live.projectPath != target.projectPath || live.port != a.found.value.port || live.pid != a.found.value.pid
              || live.timestamp <= 0 then Fatal(OtherInstance)
      else if a.replied >= deadline then Missing
      else Found(live)
  }

  /** The two things a wait can poll for. */
  datatype Resolver =
    | SameProject
    | CompletedOperation(operationId: string, target: Instance, deadline: real)

  function Resolved(resolver: Resolver, a: Attempt): Seen<Trouble> {
    match resolver
    case SameProject => (match a.found case Some(instance) => Found(instance) case None => Missing)
    case CompletedOperation(operationId, target, deadline) => Confirmation(a, operationId, target, deadline)
  }

  function Polls(resolver: Resolver, attempts: nat -> Attempt): nat -> Poll<Trouble> {
    (i: nat) => Poll(attempts(i).start, Resolved(resolver, attempts(i)), attempts(i).now, attempts(i).end)
  }

  /** The reply confirms this very operation, asked for by this very request, in the same project,
      from the process and port that were just discovered, before the deadline. */
  predicate Confirms(a: Attempt, operationId: string, target: Instance, deadline: real, live: Instance) {
    && a.found.Some? && a.reply.Some? && a.reply.value.success && !a.reply.value.completionUnknown
    && a.reply.value.data.Some?
    && var data := a.reply.value.data.value;
       && data.requestId == a.requestId && data.instance == Some(live)
       && data.operation == Some((operationId, Some(OperationSpec.Completed)))
       && live.projectPath == target.projectPath && live.port == a.found.value.port && live.pid == a.found.value.pid
       && (target.pid > 0 ==> live.pid == target.pid) && live.timestamp > 0
       && a.measured < deadline && a.replied < deadline
  }

  ghost predicate ConfirmsSome(a: Attempt, operationId: string, target: Instance, deadline: real) {
    exists live :: Confirms(a, operationId, target, deadline, live)
  }

  ghost predicate Confirmed(attempts: nat -> Attempt, from: nat, to: nat, operationId: string, target: Instance,
                            deadline: real)
  {
    from <= to && forall k: nat | from <= k <= to :: ConfirmsSome(attempts(k), operationId, target, deadline)
  }

  lemma FoundMeansConfirmed(a: Attempt, operationId: string, target: Instance, deadline: real, live: Instance)
    ensures Confirmation(a, operationId, target, deadline) == Found(live) <==>
      Confirms(a, operationId, target, deadline, live) && !Retryable(a.reply.value)
  {
  }

  /** A reply to the query came back that is neither unknown nor to be asked for again. */
  predicate Heard(a: Attempt, target: Instance, deadline: real) {
    Queries(a, target, deadline) && a.reply.Some? && !a.reply.value.completionUnknown && !Retryable(a.reply.value)
  }

  /** It says what became of this very operation, in answer to this very request. */
  predicate Tells(a: Attempt, operationId: string, target: Instance, deadline: real, state: Option<OperationSpec.Observed>) {
    && Heard(a, target, deadline) && a.reply.value.success && a.reply.value.data.Some?
    && var data := a.reply.value.data.value;
       data.requestId == a.requestId && data.instance.Some? && data.operation == Some((operationId, state))
  }

  /** What makes the wait fail at a poll; anything else that confirms nothing is polled over. */
  lemma FailsExactly(a: Attempt, operationId: string, target: Instance, deadline: real)
    ensures var seen := Confirmation(a, operationId, target, deadline);
      && (seen == Fatal(Restarted) <==> a.found.Some? && target.pid > 0 && a.found.value.pid != target.pid)
      && (seen == Fatal(Refused) <==> Heard(a, target, deadline) && !a.reply.value.success)
      && (seen == Fatal(InvalidReply) <==>
            && Heard(a, target, deadline) && a.reply.value.success
            && forall state :: !Tells(a, operationId, target, deadline, state))
      && (seen == Fatal(NoReceipt) <==> Tells(a, operationId, target, deadline, Some(OperationSpec.Unknown)))
      && (seen == Fatal(OperationCancelled) <==> Tells(a, operationId, target, deadline, Some(OperationSpec.Cancelled)))
      && (seen == Fatal(OtherInstance) <==>
            && Tells(a, operationId, target, deadline, Some(OperationSpec.Completed))
            && var live := a.reply.value.data.value.instance.value;
               live.projectPath != target.projectPath || live.port != a.found.value.port
               || live.pid != a.found.value.pid || live.timestamp <= 0)
  {
    if Heard(a, target, deadline) && a.reply.value.success && a.reply.value.data.Some?
       && a.reply.value.data.value.operation.Some? && a.reply.value.data.value.operation.value.0 == operationId {
      var state := a.reply.value.data.value.operation.value.1;
      assert a.reply.value.data.value.operation == Some((operationId, state));
      assert Tells(a, operationId, target, deadline, state) <==>
        a.reply.value.data.value.requestId == a.requestId && a.reply.value.data.value.instance.Some?;
    }
  }

  lemma SteadyConfirms(attempts: nat -> Attempt, operationId: string, target: Instance, deadline: real, w: Wanted,
                       at: nat, live: Instance)
    requires Steady(Polls(CompletedOperation(operationId, target, deadline), attempts), w, at)
    requires Polls(CompletedOperation(operationId, target, deadline), attempts)(at).seen == Found(live)
    ensures Confirms(attempts(at), operationId, target, deadline, live) && live.state in w.states
    ensures exists from: nat ::
      Confirmed(attempts, from, at, operationId, target, deadline) && attempts(at).now - attempts(from).now >= w.stable
  {
    var polls := Polls(CompletedOperation(operationId, target, deadline), attempts);
    var from: nat :| Held(polls, w, from, at);
    assert Good(polls(at), w);
    FoundMeansConfirmed(attempts(at), operationId, target, deadline, live);
    hide Confirmation, Confirms;
    forall k: nat | from <= k <= at
      ensures ConfirmsSome(attempts(k), operationId, target, deadline)
    {
      assert Good(polls(k), w);
      FoundMeansConfirmed(attempts(k), operationId, target, deadline, polls(k).seen.instance);
    }
    assert Confirmed(attempts, from, at, operationId, target, deadline);
  }

  // ---- The client -------------------------------------------------------------------

  /** How often the log holds something other than a query. */
  function Mutations(sent: seq<Command>): nat {
    if sent == [] then 0 else Mutations(sent[..|sent| - 1]) + if sent[|sent| - 1].Mutation? then 1 else 0
  }

  predicate AllQueries(asked: seq<Command>, resolver: Resolver) {
    forall c | c in asked :: resolver.CompletedOperation? && c.GetEditorState? && c.operationId == resolver.operationId
  }

  /** Since then nothing was sent but queries for the operation being waited for. */
  predicate OnlyQueried(was: seq<Command>, now: seq<Command>, resolver: Resolver) {
    was <= now && AllQueries(now[|was|..], resolver)
  }

  lemma {:induction false} QueriesMutateNothing(was: seq<Command>, asked: seq<Command>, resolver: Resolver)
    requires AllQueries(asked, resolver)
    ensures Mutations(was + asked) == Mutations(was)
  {
    if asked == [] {
      assert was + asked == was;
    } else {
      assert (was + asked)[..|was + asked| - 1] == was + asked[..|asked| - 1];
      assert asked[|asked| - 1] in asked;
      QueriesMutateNothing(was, asked[..|asked| - 1], resolver);
    }
  }

  ghost predicate Timely(attempts: nat -> Attempt) {
    && (forall i :: attempts(i).start <= attempts(i).now <= attempts(i).end)
    && (forall i, k | i < k :: attempts(i).end <= attempts(k).start)
  }

  class Client {
    /** Everything sent to the Editor, oldest first. */
    var sent: seq<Command>

    constructor ()
      ensures sent == []
    {
      sent := [];
    }

    /** One poll, with whatever it sends. */
    method Resolve(resolver: Resolver, a: Attempt) returns (seen: Seen<Trouble>)
      modifies this
      ensures seen == Resolved(resolver, a)
      ensures sent == old(sent)
                + if resolver.CompletedOperation? && Queries(a, resolver.target, resolver.deadline)
                  then [GetEditorState(a.requestId, resolver.operationId)] else []
    {
      if a.found.None? { return Missing; }
      var instance := a.found.value;
      if resolver.SameProject? { return Found(instance); }
      var operationId, target, deadline := resolver.operationId, resolver.target, resolver.deadline;
      if target.pid > 0 && instance.pid != target.pid { return Fatal(Restarted); }
      if deadline - a.measured <= 0.0 { return Missing; }
      sent := sent + [GetEditorState(a.requestId, operationId)];
      if a.reply.None? { return Missing; }
      var reply := a.reply.value;
      if reply.completionUnknown { return Missing; }
      if Retryable(reply) { return Missing; }
      if !reply.success { return Fatal(Refused); }
      if reply.data.None? || reply.data.value.requestId != a.requestId || reply.data.value.instance.None?
         || reply.data.value.operation.None? || reply.data.value.operation.value.0 != operationId {
        return Fatal(InvalidReply);
      }
      var state, live := reply.data.value.operation.value.1, reply.data.value.instance.value;
      if state == Some(OperationSpec.Unknown) { return Fatal(NoReceipt); }
      if state == Some(OperationSpec.Cancelled) { return Fatal(OperationCancelled); }
      if state != Some(OperationSpec.Completed) { return Missing; }
      if live.projectPath != target.projectPath || live.port != instance.port || live.pid != instance.pid
         || live.timestamp <= 0 {
        return Fatal(OtherInstance);
      }
      if a.replied >= deadline { return Missing; }
      return Found(live);
    }

    /** The polling loop, with a resolver that sends as it polls. */
    method WaitFor(resolver: Resolver, attempts: nat -> Attempt, w: Wanted, deadline: real, ghost horizon: nat)
      returns (r: Outcome<Trouble>, ghost at: nat)
      requires Timely(attempts) && attempts(horizon).start >= deadline && w.states != {}
      modifies this
      ensures Decided(Polls(resolver, attempts), w, deadline, r, at)
      ensures OnlyQueried(old(sent), sent, resolver)
    {
      ghost var polls := Polls(resolver, attempts);
      hide Resolved, Queries;
      ghost var asked := [];
      var latest, stateSince := None, None;
      ghost var since := 0;
      var i := 0;
      while attempts(i).start < deadline
        invariant i <= horizon && Running(polls, w, deadline, i, latest, stateSince, since)
        invariant sent == old(sent) + asked && AllQueries(asked, resolver)
        decreases horizon - i
      {
        Before(polls, deadline, i, horizon);
        var a := attempts(i);
        var seen := Resolve(resolver, a);
        if resolver.CompletedOperation? && Queries(a, resolver.target, resolver.deadline) {
          asked := asked + [GetEditorState(a.requestId, resolver.operationId)];
        }
        assert sent[|old(sent)|..] == asked;
        var ended;
        ended, latest, stateSince, at, since :=
          Note(Poll(a.start, seen, a.now, a.end), w, deadline, latest, stateSince, polls, i, since);
        if ended.Some? { return ended.value, at; }
        i := i + 1;
      }
      assert sent[|old(sent)|..] == asked;
      return TimedOut(latest), i;
    }

    /** With a receipt id, success means that in every poll of a steady streak, at least the last
        one, a live reply said `completed` for that operation; without one, that the project was
        seen in the state, after the baseline, for the whole stable period. */
    method WaitAfterOperation(operationId: Option<string>, target: Instance, state: string, stable: Option<real>,
                              attempts: nat -> Attempt, operationDeadline: real, deadline: real, ghost horizon: nat)
      returns (r: Outcome<Trouble>, ghost at: nat)
      requires Timely(attempts) && attempts(horizon).start >= deadline
      modifies this
      ensures !r.NoStates? && Mutations(sent) == Mutations(old(sent)) && old(sent) <= sent
      ensures r.Reached? ==> r.instance.state == state
      ensures r.Reached? && operationId.Some? && operationId.value != "" ==>
        && Confirms(attempts(at), operationId.value, target, operationDeadline, r.instance)
        && exists from: nat :: Confirmed(attempts, from, at, operationId.value, target, operationDeadline)
             && attempts(at).now - attempts(from).now >= if stable.Some? then stable.value else 0.0
      ensures r.Reached? && (operationId.None? || operationId.value == "") ==>
        && sent == old(sent)
        && attempts(at).found == Some(r.instance) && (target.timestamp != 0 ==> r.instance.timestamp > target.timestamp)
        && Steady(Polls(SameProject, attempts),
                  Wanted({state}, target.timestamp,
                         if stable.Some? then stable.value else if state == "playing" then 0.0 else 0.5), at)
    {
      if operationId.None? || operationId.value == "" {
        var settle := if stable.Some? then stable.value else if state == "playing" then 0.0 else 0.5;
        r, at := WaitFor(SameProject, attempts, Wanted({state}, target.timestamp, settle), deadline, horizon);
        QueriesMutateNothing(old(sent), sent[|old(sent)|..], SameProject);
        assert sent == old(sent) + sent[|old(sent)|..];
        if r.Reached? {
          SteadyIsGood(Polls(SameProject, attempts), Wanted({state}, target.timestamp, settle), at);
        }
        assert forall c | c in sent[|old(sent)|..] :: false;
        assert sent[|old(sent)|..] == [];
      } else {
        ghost var resolver := CompletedOperation(operationId.value, target, operationDeadline);
        var w := Wanted({state}, 0, if stable.Some? then stable.value else 0.0);
        r, at := WaitFor(CompletedOperation(operationId.value, target, operationDeadline), attempts, w, deadline, horizon);
        QueriesMutateNothing(old(sent), sent[|old(sent)|..], resolver);
        assert sent == old(sent) + sent[|old(sent)|..];
        hide Confirmation, Confirms, Confirmed, Held, Steady;
        if r.Reached? {
          SteadyConfirms(attempts, operationId.value, target, operationDeadline, w, at, r.instance);
        }
      }
    }

    /** An operation that waits for its completion is sent once, whether or not its own reply is
        lost, and whatever the wait comes to. */
    method Operate(accepted: bool, operationId: Option<string>, target: Instance, state: string, stable: Option<real>,
                   attempts: nat -> Attempt, operationDeadline: real, deadline: real, ghost horizon: nat)
      returns (r: Option<Outcome<Trouble>>, ghost at: nat)
      requires Timely(attempts) && attempts(horizon).start >= deadline
      modifies this
      ensures Mutations(sent) == Mutations(old(sent)) + 1
      ensures old(sent) + [Mutation] <= sent
      ensures r.None? <==> !accepted
      ensures r.Some? && r.value.Reached? ==> r.value.instance.state == state
      ensures r.Some? && r.value.Reached? && operationId.Some? && operationId.value != "" ==>
        Confirms(attempts(at), operationId.value, target, operationDeadline, r.value.instance)
    {
      at := 0;
      sent := sent + [Mutation];
      assert sent[..|sent| - 1] == old(sent);
      if !accepted { return None, 0; }
      var outcome;
      outcome, at := WaitAfterOperation(operationId, target, state, stable, attempts, operationDeadline, deadline, horizon);
      r := Some(outcome);
    }
  }

  lemma SteadyIsGood(polls: nat -> Poll<Trouble>, w: Wanted, at: nat)
    requires Steady(polls, w, at)
    ensures Good(polls(at), w)
  {
    var from: nat :| Held(polls, w, from, at);
    assert Good(polls(at), w);
  }

  // ---- From the caller to the Editor ------------------------------------------------

  /** Receipt ids as they travel: no two receipts share one. */
  ghost predicate Naming(name: OperationSpec.Guid -> string) { forall a, b :: name(a) == name(b) ==> a == b }

  function Reported(rs: seq<OperationSpec.Receipt>, name: OperationSpec.Guid -> string, id: string): OperationSpec.Observed {
    if rs == [] then OperationSpec.Unknown
    else if name(rs[0].id) == id then OperationSpec.StateOf(rs[0])
    else Reported(rs[1..], name, id)
  }

  /** What the connector answers a state query with. */
  function EditorReply(rs: seq<OperationSpec.Receipt>, name: OperationSpec.Guid -> string, requestId: nat, id: string,
                       instance: Instance): Reply
  {
    Reply(true, false, None, Some(EditorState(requestId, Some(instance), if id == "" then None
                                                                          else Some((id, Some(Reported(rs, name, id)))))))
  }

  lemma {:induction false} ReportedIsObserved(rs: seq<OperationSpec.Receipt>, name: OperationSpec.Guid -> string,
                                              id: OperationSpec.Guid)
    requires Naming(name)
    ensures Reported(rs, name, name(id)) == OperationSpec.Observe(rs, id)
  {
    if rs != [] { ReportedIsObserved(rs[1..], name, id); }
  }

  /** When the query of a confirmed wait was answered from the receipts of the run, the import it
      named was completed by an idle tick at which everything seen since it began allowed it. */
  lemma SuccessMeansSettled(a: Attempt, target: Instance, deadline: real, live: Instance, instance: Instance,
                            name: OperationSpec.Guid -> string, before: seq<OperationSpec.Event>,
                            begun: OperationSpec.Event, since: seq<OperationSpec.Event>, d: OperationSpec.Guid)
    returns (k: nat)
    requires Naming(name) && begun.Begun? && (begun.kind.Refresh? || begun.kind.Reserialize?)
    requires OperationHistory.Fresh(before + [begun] + since)
    requires a.reply == Some(EditorReply(OperationHistory.Receipts(before + [begun] + since, d), name, a.requestId,
                                         name(begun.id), instance))
    requires Confirms(a, name(begun.id), target, deadline, live)
    ensures k < |since| && since[k] == OperationSpec.Ticked(false)
    ensures OperationHistory.Confirmable(since[..k], OperationHistory.DomainAfter(before, d), begun.id,
                                         begun.explicitCompile)
  {
    ReportedIsObserved(OperationHistory.Receipts(before + [begun] + since, d), name, begun.id);
    k := OperationHistory.CompletedWasConfirmed(before, begun, since, d);
  }
}
