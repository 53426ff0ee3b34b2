/** What a request to the shared compiler returns: the reply it took, if and only if that names it and
    came in time. */
module CompilerReplies {
  import opened Wrappers
  import opened CompilerLockstep

  /** The thread a step belongs to. */
  predicate By(step: Step, t: nat) { !step.ProcessActs? && !step.Fire? && !step.Kill? && step.t == t }

  lemma ProcessesAside(s: State, spawned: bool)
    ensures Stopped(s).threads == s.threads && Stopped(s).dogs == s.dogs
    ensures Begun(s, spawned).threads == s.threads && Begun(s, spawned).dogs == s.dogs
  {
  }

  /** A step changes no thread but its own, and no watchdog that has fired forgets it. */
  lemma OthersStay(s: State, step: Step, t: nat)
    requires Can(s, step) && t in s.threads && !By(step, t)
    ensures var n := Do(s, step);
      && t in n.threads && n.threads[t] == s.threads[t]
      && (t in s.dogs ==> t in n.dogs && (s.dogs[t].fired ==> n.dogs[t].fired))
  {
    ProcessesAside(s, true);
    ProcessesAside(s, false);
    hide Stopped, Begun, Running, Accepts, Taken, Written, ProcessDo, ProcessCan;
  }

  /** The request is acceptable: the reply could be read, names it, and no watchdog fired. */
  predicate Good(item: Item) { item.Reply? && item.named }

  /** Once a thread took `item` from the queue it keeps it until it judges it, and then returns it,
      or nothing because it is not acceptable or time ran out. */
  predicate Settles(s: State, t: nat, g: nat, item: Item) {
    && t in s.threads && t in s.dogs
    && (var pc := s.threads[t];
        || pc == Cancelling(g, Some(item)) || pc == Joining(g, Some(item)) || pc == Judging(g, Some(item))
        || ((pc == Releasing(Some(item)) || pc == Ended(Some(item))) && Good(item))
        || ((pc == Releasing(None) || pc == Ended(None)) && (!Good(item) || s.dogs[t].fired)))
  }

  lemma OwnStepSettles(s: State, step: Step, t: nat, g: nat, item: Item)
    requires Can(s, step) && By(step, t) && Settles(s, t, g, item)
    requires step.Judge? && s.threads[t] == Judging(g, Some(item)) ==>
      (Accepts(s, t, g, Some(item)) <==> Good(item) && !s.dogs[t].fired)
    ensures Settles(Do(s, step), t, g, item)
  {
    match step
    case Cancel(_) =>
    case Join(_) =>
    case Judge(_) =>
    case Release(_) =>
    case _ =>
  }

  lemma OtherStepSettles(s: State, step: Step, t: nat, g: nat, item: Item)
    requires Can(s, step) && !By(step, t) && Settles(s, t, g, item)
    ensures Settles(Do(s, step), t, g, item)
  {
    OthersStay(s, step, t);
    hide Do;
  }

  /** Over every run: the reply a thread takes from the queue is what it returns, exactly when the
      worker could name the request in it and the watchdog did not fire. */
  lemma {:induction false} ReplyIsReturned(trace: seq<State>, i: nat, k: nat, t: nat, g: nat, item: Item)
    requires Run(trace) && i < k < |trace| && Can(trace[i], Get(t)) && trace[i + 1] == Do(trace[i], Get(t))
    requires trace[i].threads[t] == Getting(g) && item == trace[i].processes[g].queue[0]
    ensures Settles(trace[k], t, g, item)
    decreases k
  {
    hide Settles, Inv, Accepts, Can, Do;
    if k == i + 1 {
      RunKeeps(trace, i);
      Taking(trace[i], t, g);
    } else {
      ReplyIsReturned(trace, i, k - 1, t, g, item);
      var s := trace[k - 1];
      assert Follows(s, trace[k - 1 + 1]);
      var step :| Can(s, step) && trace[k] == Do(s, step);
      if By(step, t) {
        if step.Judge? { Judged(trace, k - 1, t); }
        OwnStepSettles(s, step, t, g, item);
      } else {
        OtherStepSettles(s, step, t, g, item);
      }
    }
  }

  lemma Taking(s: State, t: nat, g: nat)
    requires Inv(s) && Can(s, Get(t)) && s.threads[t] == Getting(g)
    ensures Settles(Do(s, Get(t)), t, g, s.processes[g].queue[0])
  {
    assert ExchangeOk(s, t, s.threads[t]);
  }

  lemma Judged(trace: seq<State>, k: nat, t: nat)
    requires Run(trace) && k < |trace| && Can(trace[k], Judge(t))
    ensures var s := trace[k]; t in s.threads && t in s.dogs && s.threads[t].Judging?
    ensures var s := trace[k]; var pc := s.threads[t];
      pc.got.Some? ==> (Accepts(s, t, pc.process, pc.got) <==> Good(pc.got.value) && !s.dogs[t].fired)
  {
    MismatchIsUnnamed(trace, k, t);
    hide Accepts;
  }

  /** And a request returns nothing but a reply that it took itself and that names it. */
  lemma {:induction false} ReturnedWasTaken(trace: seq<State>, k: nat, t: nat, item: Item) returns (i: nat, g: nat)
    requires Run(trace) && k < |trace| && t in trace[k].threads
    requires trace[k].threads[t] == Releasing(Some(item)) || trace[k].threads[t] == Ended(Some(item))
    ensures i < k && Can(trace[i], Judge(t)) && trace[i].threads[t] == Judging(g, Some(item))
    ensures Good(item) && !trace[i].dogs[t].fired
    ensures g < |trace[i].processes| && item.line < |trace[i].processes[g].written|
    ensures trace[i].processes[g].written[item.line] == t
  {
    hide Can, Do, Accepts;
    if k > 0 {
      var s := trace[k - 1];
      assert Follows(s, trace[k - 1 + 1]);
      var step :| Can(s, step) && trace[k] == Do(s, step);
      if step == Judge(t) {
        i := k - 1;
        g := JudgeReturns(s, t, item);
      } else {
        StillReturns(s, step, t, item);
        i, g := ReturnedWasTaken(trace, k - 1, t, item);
      }
    }
  }

  lemma JudgeReturns(s: State, t: nat, item: Item) returns (g: nat)
    requires Can(s, Judge(t)) && t in Do(s, Judge(t)).threads
    requires Do(s, Judge(t)).threads[t] == Releasing(Some(item)) || Do(s, Judge(t)).threads[t] == Ended(Some(item))
    ensures t in s.threads && t in s.dogs && s.threads[t] == Judging(g, Some(item))
    ensures Good(item) && !s.dogs[t].fired
    ensures g < |s.processes| && item.line < |s.processes[g].written| && s.processes[g].written[item.line] == t
  {
    g := s.threads[t].process;
  }

  lemma StillReturns(s: State, step: Step, t: nat, item: Item)
    requires Can(s, step) && step != Judge(t) && t in Do(s, step).threads
    requires Do(s, step).threads[t] == Releasing(Some(item)) || Do(s, step).threads[t] == Ended(Some(item))
    ensures t in s.threads && (s.threads[t] == Releasing(Some(item)) || s.threads[t] == Ended(Some(item)))
  {
    ProcessesAside(s, true);
    ProcessesAside(s, false);
    hide Stopped, Begun, Running, Accepts, Taken, Written, ProcessDo, ProcessCan;
  }
}
