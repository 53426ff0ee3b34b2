/** What becomes of an operation, of any kind, at each event: told from the events alone. */
module OperationOutcomes {
  import opened Wrappers
  import opened OperationSpec
  import opened OperationLaws
  import opened OperationHistory

  const ENTERED_PLAY := PlayModeChanged(EnteredPlayMode)
  const ENTERED_EDIT := PlayModeChanged(EnteredEditMode)

  // ---- The three ways to end --------------------------------------------------------

  /** Play mode went the other way than was asked. */
  predicate CancelledBy(kind: Kind, x: Event) {
    match kind
    case Play => x == ENTERED_EDIT
    case Stop => x == ENTERED_PLAY
    case _ => false
  }

  /** The Editor is idle, and what was asked for has been seen to happen. */
  predicate CompletedBy(kind: Kind, id: Guid, explicitCompile: bool, t: seq<Event>, here: Guid, x: Event) {
    && x == Ticked(false)
    && match kind
       case Play => ENTERED_PLAY in t
       case Stop => ENTERED_EDIT in t
       case _ => Confirmable(t, here, id, explicitCompile)
  }

  /** No compilation was asked for and none was seen. */
  predicate Silent(explicitCompile: bool, t: seq<Event>) { !explicitCompile && CompilationStarted !in t }

  /** The receipts were lost, the call gave up, or a reload may follow that nothing will announce. */
  predicate ForgottenBy(kind: Kind, id: Guid, explicitCompile: bool, t: seq<Event>, here: Guid, x: Event) {
    || (x.Loaded? && !x.readable)
    || x == Abandoned(id)
    || (kind != Play && kind != Stop && Silent(explicitCompile, t)
        && ((x == FinishedSynchronously(id) && CodeImported in t) || (x == CodeImported && Returned(t, here, id))))
  }

  // ---- One receipt ------------------------------------------------------------------

  function Outcome(r: Receipt, x: Event, domain: Guid): Observed {
    if Withdrawn(Touched(r, x, domain), x) then Unknown else StateOf(Touched(r, x, domain))
  }

  lemma ImportNext(r: Receipt, x: Event, domain: Guid)
    requires r.ActiveImport() && !r.flags.cancelled && !x.Begun? && !x.Loaded?
    ensures Outcome(r, x, domain) ==
      if x == Ticked(false) && Confirmed(r, domain) then Completed
      else if x == Abandoned(r.id)
        || (!r.explicitCompile && !r.flags.compiling
            && ((x == FinishedSynchronously(r.id) && r.flags.codeImported) || (x == CodeImported && r.flags.finished)))
      then Unknown
      else Pending
  {
    hide Confirmed;
    match x
    case CompilationStarted =>
    case AssemblyFinished(_) =>
    case CompilationFinished(_) =>
    case ReloadFinished =>
    case PlayModeChanged(_) =>
    case FinishedSynchronously(_) =>
    case Abandoned(_) =>
    case CodeImported =>
    case Ticked(_) =>
  }

  lemma PlayNext(r: Receipt, x: Event, domain: Guid)
    requires !r.Import() && !r.Completed() && !r.flags.cancelled && !r.flags.codeImported && !x.Begun? && !x.Loaded?
    ensures Outcome(r, x, domain) ==
      if CancelledBy(r.kind, x) then Cancelled
      else if x == Ticked(false) && r.flags.playEvent then Completed
      else if x == Abandoned(r.id) then Unknown
      else Pending
    ensures var f := Marked(r, x, domain);
      !f.codeImported && (!f.completed ==>
        (f.playEvent <==> r.flags.playEvent || x == if r.kind.Play? then ENTERED_PLAY else ENTERED_EDIT))
  {
    match x
    case CompilationStarted =>
    case AssemblyFinished(_) =>
    case CompilationFinished(_) =>
    case ReloadFinished =>
    case PlayModeChanged(_) =>
    case FinishedSynchronously(_) =>
    case Abandoned(_) =>
    case CodeImported =>
    case Ticked(_) =>
  }

  /** A play or stop request under way has seen its mode entered exactly when its flag says so. */
  lemma {:induction false} PlayEventMeans(r: Receipt, t: seq<Event>, d: Guid)
    requires r == NewReceipt(r.id, r.kind, d, r.explicitCompile) && !r.Import() && StateOf(Alone(r, t, d)) == Pending
    ensures var f := Alone(r, t, d).flags;
      && !f.codeImported && !f.cancelled && !f.completed
      && (f.playEvent <==> (if r.kind.Play? then ENTERED_PLAY else ENTERED_EDIT) in t)
  {
    if t != [] {
      var front, x := t[..|t| - 1], t[|t| - 1];
      var was, domain := Alone(r, front, d), DomainAfter(front, d);
      SameReceipt(r, front, d);
      TouchKeepsId(was, x, domain);
      assert t == front + [x];
      hide Touched, Marked;
      AliveBefore(was, x, domain);
      PlayEventMeans(r, front, d);
      if x.Begun? || x.Loaded? { UntouchedBy(was, x, domain); } else { PlayNext(was, x, domain); TouchedFlags(was, x, domain); }
    }
  }

  lemma AliveBefore(r: Receipt, x: Event, domain: Guid)
    requires StateOf(Touched(r, x, domain)) == Pending
    ensures r.flags.cancelled ==> r.Completed()
    ensures !r.Completed()
  {
    TouchKeepsId(r, x, domain);
  }

  lemma UntouchedBy(r: Receipt, x: Event, domain: Guid)
    requires x.Begun? || x.Loaded?
    ensures Touched(r, x, domain) == r
  {
  }

  lemma TouchedFlags(r: Receipt, x: Event, domain: Guid)
    ensures Touched(r, x, domain).flags == Marked(r, x, domain)
  {
  }

  // ---- Any operation, among all others ----------------------------------------------

  lemma PendingReceipt(a: seq<Event>, e: Event, t: seq<Event>, d: Guid)
    requires Fresh(a + [e] + t) && e.Begun? && Seen(a + [e] + t, d, e.id) == Pending
    ensures var h, here := a + [e] + t, DomainAfter(a, d); var r := NewReceipt(e.id, e.kind, here, e.explicitCompile);
      && Lookup(Receipts(h, d), e.id) == Some(Alone(r, t, here))
      && Alone(r, t, here) == r.(flags := Alone(r, t, here).flags)
      && !Alone(r, t, here).flags.completed && !Alone(r, t, here).flags.cancelled
      && DomainAfter(h, d) == DomainAfter(t, here)
      && Wellformed(Receipts(h, d))
  {
    var here := DomainAfter(a, d);
    StillThere(a, e, t, d);
    DomainSplits(a + [e], t, d);
    BeginningStays(a, e, d);
    SameReceipt(NewReceipt(e.id, e.kind, here, e.explicitCompile), t, here);
    ReceiptsWereBegun(a + [e] + t, d);
  }

  /** The receipt decides what is seen next. */
  lemma SeenNext(a: seq<Event>, e: Event, t: seq<Event>, d: Guid, x: Event)
    requires Fresh(a + [e] + t + [x]) && e.Begun? && Seen(a + [e] + t, d, e.id) == Pending
    ensures Fresh(a + [e] + t)
    ensures var here := DomainAfter(a, d); var r := Alone(NewReceipt(e.id, e.kind, here, e.explicitCompile), t, here);
      Seen(a + [e] + t + [x], d, e.id) ==
        if x.Loaded? then (if x.readable then Pending else Unknown)
        else if x.Begun? then Pending
        else Outcome(r, x, DomainAfter(t, here))
  {
    var h := a + [e] + t;
    assert (h + [x])[..|h|] == h && (h + [x])[|h|] == x && (h + [x])[|a|] == e;
    StepIsFresh(h + [x], d);
    PendingReceipt(a, e, t, d);
    LookupAfter(Receipts(h, d), x, DomainAfter(h, d), e.id);
    hide Wellformed, Fresh, Receipts, DomainAfter, Alone, Touched, Withdrawn;
  }

  lemma SilentMeans(t: seq<Event>)
    ensures LastStart(t) < 0 <==> CompilationStarted !in t
  {
  }

  lemma ImportOutcome(r: Receipt, t: seq<Event>, d: Guid, x: Event)
    requires UnderWay(r, t, d) && !Alone(r, t, d).flags.cancelled && !x.Begun? && !x.Loaded?
    ensures Outcome(Alone(r, t, d), x, DomainAfter(t, d)) ==
      if CompletedBy(r.kind, r.id, r.explicitCompile, t, d, x) then Completed
      else if ForgottenBy(r.kind, r.id, r.explicitCompile, t, d, x) then Unknown
      else Pending
  {
    SameReceipt(r, t, d);
    ImportNext(Alone(r, t, d), x, DomainAfter(t, d));
    ConfirmedMeans(r, t, d);
    CompilingMeans(r, t, d);
    CodeImportedMeans(r, t, d);
    FinishedMeans(r, t, d);
    SilentMeans(t);
    hide Confirmed, Confirmable, Returned, LastStart, Alone, DomainAfter, Outcome;
  }

  lemma PlayOutcome(r: Receipt, t: seq<Event>, d: Guid, x: Event)
    requires r == NewReceipt(r.id, r.kind, d, r.explicitCompile) && !r.Import() && StateOf(Alone(r, t, d)) == Pending
    requires !x.Begun? && !x.Loaded?
    ensures Outcome(Alone(r, t, d), x, DomainAfter(t, d)) ==
      if CancelledBy(r.kind, x) then Cancelled
      else if CompletedBy(r.kind, r.id, r.explicitCompile, t, d, x) then Completed
      else if ForgottenBy(r.kind, r.id, r.explicitCompile, t, d, x) then Unknown
      else Pending
  {
    SameReceipt(r, t, d);
    PlayEventMeans(r, t, d);
    PlayNext(Alone(r, t, d), x, DomainAfter(t, d));
    hide Alone, DomainAfter, Outcome;
  }

  /** What a pending operation becomes at the next event, whatever else goes on: completed, cancelled
      or forgotten exactly for its own reason, and otherwise pending still. */
  lemma NextExactly(a: seq<Event>, e: Event, t: seq<Event>, d: Guid, x: Event)
    requires Fresh(a + [e] + t + [x]) && e.Begun? && Seen(a + [e] + t, d, e.id) == Pending
    ensures var here := DomainAfter(a, d);
      Seen(a + [e] + t + [x], d, e.id) ==
        if CancelledBy(e.kind, x) then Cancelled
        else if CompletedBy(e.kind, e.id, e.explicitCompile, t, here, x) then Completed
        else if ForgottenBy(e.kind, e.id, e.explicitCompile, t, here, x) then Unknown
        else Pending
  {
    SeenNext(a, e, t, d, x);
    PendingReceipt(a, e, t, d);
    var here := DomainAfter(a, d);
    var r := NewReceipt(e.id, e.kind, here, e.explicitCompile);
    hide Fresh, Receipts, Wellformed, DomainAfter, Alone, Seen, Outcome, Confirmable, Returned;
    if !x.Loaded? && !x.Begun? {
      if r.Import() { ImportOutcome(r, t, here, x); } else { PlayOutcome(r, t, here, x); }
    }
  }

  /** The event at which an operation stopped being pending for good. */
  lemma {:induction false} DecidedAt(a: seq<Event>, e: Event, t: seq<Event>, d: Guid) returns (k: nat)
    requires Fresh(a + [e] + t) && e.Begun?
    requires Seen(a + [e] + t, d, e.id) == Completed || Seen(a + [e] + t, d, e.id) == Cancelled
    ensures k < |t| && Fresh(a + [e] + t[..k + 1])
    ensures Seen(a + [e] + t[..k], d, e.id) == Pending
    ensures Seen(a + [e] + t[..k + 1], d, e.id) == Seen(a + [e] + t, d, e.id)
  {
    hide Receipts, Wellformed;
    var h := a + [e] + t;
    if t == [] {
      assert h == a + [e] && h[..|a|] == a;
      BeginsPending(h, d);
    } else {
      var front := t[..|t| - 1];
      assert h[..|h| - 1] == a + [e] + front && h[|a|] == e;
      StepIsFresh(h, d);
      SeenStep(h, d, |a|, e.id);
      if Seen(a + [e] + front, d, e.id) == Pending {
        k := |t| - 1;
        assert t[..k] == front && t[..k + 1] == t;
      } else {
        k := DecidedAt(a, e, front, d);
        assert front[..k] == t[..k] && front[..k + 1] == t[..k + 1];
      }
    }
  }

  /** A completed operation was completed by an idle tick once it had been seen to happen, and a
      cancelled one is a play or stop request that saw play mode go the other way. */
  lemma EndedForAReason(a: seq<Event>, e: Event, t: seq<Event>, d: Guid) returns (k: nat)
    requires Fresh(a + [e] + t) && e.Begun?
    requires Seen(a + [e] + t, d, e.id) == Completed || Seen(a + [e] + t, d, e.id) == Cancelled
    ensures k < |t| && Seen(a + [e] + t[..k], d, e.id) == Pending
    ensures Seen(a + [e] + t, d, e.id) == Completed ==>
      CompletedBy(e.kind, e.id, e.explicitCompile, t[..k], DomainAfter(a, d), t[k])
    ensures Seen(a + [e] + t, d, e.id) == Cancelled ==> CancelledBy(e.kind, t[k])
  {
    k := DecidedAt(a, e, t, d);
    assert t[..k + 1] == t[..k] + [t[k]];
    assert a + [e] + t[..k + 1] == a + [e] + t[..k] + [t[k]];
    NextExactly(a, e, t[..k], d, t[k]);
    hide Seen, Fresh, DomainAfter, Confirmable;
  }
}
