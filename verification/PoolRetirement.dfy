/** Retiring one pooled connection while requests may still be using it. */
module PoolRetirement {
  /** A request: waiting for the entry's lock, exchanging, done and having read `retired`, or gone. */
  datatype Pc = Waiting | Exchanging | Checked(sawRetired: bool) | Gone

  datatype Retirer = NotYet | Marked | Closing | Over

  datatype State = State(users: seq<Pc>, retirer: Retirer, owner: int, connected: bool)

  const FREE := -1
  const RETIRER := -2

  datatype Step =
    | Arrive
    | Lock(u: nat)
    | GiveUp(u: nat)
    | Exchange(u: nat, open: bool)
    | Check(u: nat)
    | Release(u: nat)
    | Mark
    | TryLock
    | Close

  predicate Is(s: State, u: nat, pc: Pc) { u < |s.users| && s.users[u] == pc }

  predicate Retired(s: State) { !s.retirer.NotYet? }

  predicate Init(s: State) { s == State([], NotYet, FREE, false) }

  predicate Can(s: State, step: Step) {
    match step
    case Arrive => true
    case Lock(u) => Is(s, u, Waiting) && s.owner == FREE
    case GiveUp(u) => Is(s, u, Waiting)
    case Exchange(u, _) => Is(s, u, Exchanging)
    case Check(u) => Is(s, u, Exchanging)
    case Release(u) => u < |s.users| && s.users[u].Checked?
    case Mark => s.retirer.NotYet?
    case TryLock => s.retirer.Marked?
    case Close => s.retirer.Closing?
  }

  /** The check of `retired`, closing when it is set, and the release of the lock are two steps. */
  function Do(s: State, step: Step): State
    requires Can(s, step)
  {
    match step
    case Arrive => s.(users := s.users + [Waiting])
    case Lock(u) => s.(users := s.users[u := Exchanging], owner := u)
    case GiveUp(u) => s.(users := s.users[u := Gone])
    case Exchange(_, open) => s.(connected := open)
    case Check(u) => s.(users := s.users[u := Checked(Retired(s))], connected := s.connected && !Retired(s))
    case Release(u) => s.(users := s.users[u := Gone], owner := FREE)
    case Mark => s.(retirer := Marked)
    case TryLock => if s.owner == FREE then s.(retirer := Closing, owner := RETIRER) else s.(retirer := Over)
    case Close => s.(retirer := Over, owner := FREE, connected := false)
  }

  /** A retired connection nobody holds is closed. */
  predicate Closed(s: State) { s.retirer.Over? && s.owner == FREE ==> !s.connected }

  ghost predicate Inv(s: State) {
    && (forall u | 0 <= u < |s.users| :: (s.users[u].Exchanging? || s.users[u].Checked?) <==> s.owner == u)
    && (s.retirer.Closing? <==> s.owner == RETIRER)
    && (s.owner >= 0 ==> s.owner < |s.users|) && s.owner >= RETIRER
    && (s.owner >= 0 && s.users[s.owner].Checked? && s.users[s.owner].sawRetired ==> Retired(s) && !s.connected)
  }

  lemma StepKeeps(s: State, step: Step)
    requires Inv(s) && Can(s, step)
    ensures Inv(Do(s, step))
  {
  }

  ghost predicate Follows(s: State, t: State) { exists step :: Can(s, step) && t == Do(s, step) }

  ghost predicate Run(trace: seq<State>) {
    && trace != [] && Init(trace[0])
    && forall i | 0 <= i < |trace| - 1 :: Follows(trace[i], trace[i + 1])
  }

  lemma {:induction false} RunKeeps(trace: seq<State>, i: nat)
    requires Run(trace) && i < |trace|
    ensures Inv(trace[i])
  {
    if i > 0 {
      RunKeeps(trace, i - 1);
      assert Follows(trace[i - 1], trace[i - 1 + 1]);
      var step :| Can(trace[i - 1], step) && trace[i] == Do(trace[i - 1], step);
      StepKeeps(trace[i - 1], step);
    }
  }

  /** Request `u` checks `retired` at step `c` and has not released the connection by state `r`. */
  ghost predicate ChecksAndHolds(trace: seq<State>, c: nat, r: nat, u: nat) {
    && c < r < |trace| && Can(trace[c], Check(u)) && trace[c + 1] == Do(trace[c], Check(u))
    && forall m | c < m <= r :: u < |trace[m].users| && trace[m].users[u].Checked?
  }

  /** From its check to its release a request alone can touch the connection, and what it saw stays. */
  lemma {:induction false} HeldIsUntouched(trace: seq<State>, c: nat, r: nat, u: nat)
    requires Run(trace) && ChecksAndHolds(trace, c, r, u)
    ensures trace[r].users[u] == Checked(Retired(trace[c])) && trace[r].owner == u
    ensures trace[r].connected == (trace[c].connected && !Retired(trace[c]))
    decreases r
  {
    RunKeeps(trace, r - 1);
    RunKeeps(trace, r);
    if c + 1 < r {
      HeldIsUntouched(trace, c, r - 1, u);
      assert Follows(trace[r - 1], trace[r - 1 + 1]);
      var step :| Can(trace[r - 1], step) && trace[r] == Do(trace[r - 1], step);
    }
  }

  /** A release leaves a retired connection open and in nobody's hands if and only if the connection
      was open and not retired when that request checked, and was retired by the time it released. */
  lemma OverlookedExactly(trace: seq<State>, c: nat, r: nat, u: nat)
    requires Run(trace) && ChecksAndHolds(trace, c, r, u)
    ensures Can(trace[r], Release(u))
    ensures !Closed(Do(trace[r], Release(u))) <==>
      trace[c].connected && !Retired(trace[c]) && trace[r].retirer.Over?
  {
    HeldIsUntouched(trace, c, r, u);
  }

  /** The check that a request about to release has made. */
  lemma {:induction false} CheckBefore(trace: seq<State>, r: nat, u: nat) returns (c: nat)
    requires Run(trace) && r < |trace| && u < |trace[r].users| && trace[r].users[u].Checked?
    ensures ChecksAndHolds(trace, c, r, u)
  {
    if r > 0 {
      var s := trace[r - 1];
      assert Follows(s, trace[r - 1 + 1]);
      var step :| Can(s, step) && trace[r] == Do(s, step);
      if u < |s.users| && s.users[u].Checked? {
        c := CheckBefore(trace, r - 1, u);
      } else {
        c := r - 1;
      }
    }
  }

  /** One step of a run leaves a retired connection open that nobody holds if and only if it is the
      release of a request that found it open and not retired, all of the retirement coming after. */
  lemma ClosedExactly(trace: seq<State>, r: nat)
    requires Run(trace) && r + 1 < |trace| && Closed(trace[r])
    ensures !Closed(trace[r + 1]) <==>
      exists c: nat, u: nat :: ChecksAndHolds(trace, c, r, u) && trace[r + 1] == Do(trace[r], Release(u))
        && trace[c].connected && !Retired(trace[c]) && trace[r].retirer.Over?
  {
    RunKeeps(trace, r);
    assert Follows(trace[r], trace[r + 1]);
    var step :| Can(trace[r], step) && trace[r + 1] == Do(trace[r], step);
    if !Closed(trace[r + 1]) {
      var c := CheckBefore(trace, r, step.u);
      OverlookedExactly(trace, c, r, step.u);
    }
    forall c: nat, u: nat | ChecksAndHolds(trace, c, r, u) && trace[r + 1] == Do(trace[r], Release(u))
      ensures !Closed(trace[r + 1]) <==> trace[c].connected && !Retired(trace[c]) && trace[r].retirer.Over?
    {
      OverlookedExactly(trace, c, r, u);
    }
  }

  /** A run in which every request checks and releases in one step, as far as others can see. */
  ghost predicate Undivided(trace: seq<State>) {
    && Run(trace)
    && (forall i | 0 <= i < |trace| - 1 :: (exists u: nat :: u < |trace[i].users| && trace[i].users[u].Checked?) ==>
          exists u: nat :: Can(trace[i], Release(u)) && trace[i + 1] == Do(trace[i], Release(u)))
  }

  /** Between the two steps nothing else has happened. */
  ghost predicate Prompt(s: State) {
    forall u | 0 <= u < |s.users| && s.users[u].Checked? :: s.users[u].sawRetired == Retired(s)
  }

  lemma PromptKeeps(s: State, step: Step)
    requires Inv(s) && Closed(s) && Prompt(s) && Can(s, step)
    requires (exists u: nat :: u < |s.users| && s.users[u].Checked?) ==> step.Release?
    ensures Inv(Do(s, step)) && Closed(Do(s, step)) && Prompt(Do(s, step))
  {
    if u: nat :| u < |s.users| && s.users[u].Checked? {
      assert s.owner == u && step.u == u;
    }
  }

  /** When the check and the release are one step, a retired connection always ends up closed. */
  lemma {:induction false} RetiredEndsClosed(trace: seq<State>, i: nat)
    requires Undivided(trace) && i < |trace|
    ensures Inv(trace[i]) && Closed(trace[i]) && Prompt(trace[i])
  {
    if i > 0 {
      RetiredEndsClosed(trace, i - 1);
      var s := trace[i - 1];
      assert Follows(s, trace[i - 1 + 1]);
      var step :| Can(s, step) && trace[i] == Do(s, step);
      if u: nat :| u < |s.users| && s.users[u].Checked? {
        var v: nat :| Can(s, Release(v)) && trace[i - 1 + 1] == Do(s, Release(v));
        step := Release(v);
      }
      PromptKeeps(s, step);
    }
  }

  /** As two steps, a retirement between them is overlooked, and the connection stays open. */
  lemma RetirementCanBeOverlooked() returns (trace: seq<State>)
    ensures Run(trace) && !Closed(trace[|trace| - 1])
  {
    var s0 := State([], NotYet, FREE, false);
    var s1 := Do(s0, Arrive);
    var s2 := Do(s1, Lock(0));
    var s3 := Do(s2, Exchange(0, true));
    var s4 := Do(s3, Check(0));
    var s5 := Do(s4, Mark);
    var s6 := Do(s5, TryLock);
    var s7 := Do(s6, Release(0));
    trace := [s0, s1, s2, s3, s4, s5, s6, s7];
    assert Follows(s0, s1) && Follows(s1, s2) && Follows(s2, s3) && Follows(s3, s4);
    assert Follows(s4, s5) && Follows(s5, s6) && Follows(s6, s7);
  }
}
