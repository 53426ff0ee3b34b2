/** Operations told from what happened in the Editor, without looking at any receipt. */
module OperationHistory {
  import opened Wrappers
  import opened OperationSpec
  import opened OperationLaws

  // ---- Runs -------------------------------------------------------------------------

  /** The domain after these events, starting in `d`. */
  function DomainAfter(h: seq<Event>, d: Guid): Guid {
    if h == [] then d
    else if h[|h| - 1].Loaded? then h[|h| - 1].domain
    else DomainAfter(h[..|h| - 1], d)
  }

  /** The receipts after these events, starting with none in domain `d`. */
  function Receipts(h: seq<Event>, d: Guid): seq<Receipt> {
    if h == [] then [] else After(Receipts(h[..|h| - 1], d), h[|h| - 1], DomainAfter(h[..|h| - 1], d))
  }

  /** Every operation gets an id of its own. */
  ghost predicate Fresh(h: seq<Event>) {
    forall i, k | 0 <= i < k < |h| && h[i].Begun? && h[k].Begun? :: h[i].id != h[k].id
  }

  lemma {:induction false} ReceiptsWereBegun(h: seq<Event>, d: Guid)
    requires Fresh(h)
    ensures Wellformed(Receipts(h, d))
    ensures forall r | r in Receipts(h, d) :: exists k :: 0 <= k < |h| && h[k].Begun? && h[k].id == r.id
  {
    if h != [] {
      var front, e, domain := h[..|h| - 1], h[|h| - 1], DomainAfter(h[..|h| - 1], d);
      ReceiptsWereBegun(front, d);
      var rs := Receipts(front, d);
      AfterKeepsWellformed(rs, e, domain);
      forall r | r in Receipts(h, d)
        ensures exists k :: 0 <= k < |h| && h[k].Begun? && h[k].id == r.id
      {
        LookupIs(Receipts(h, d), r);
        LookupAfter(rs, e, domain, r.id);
        LookupNone(rs, r.id);
        if e.Begun? && e.id == r.id {
          assert h[|h| - 1].id == r.id;
        } else {
          var k :| 0 <= k < |front| && front[k].Begun? && front[k].id == r.id;
          assert h[k] == front[k];
        }
      }
    }
  }

  /** One more event: the receipts it meets are well formed, and it begins no id already there. */
  lemma StepIsFresh(h: seq<Event>, d: Guid)
    requires Fresh(h) && h != []
    ensures Fresh(h[..|h| - 1])
    ensures Wellformed(Receipts(h[..|h| - 1], d)) && FreshFor(Receipts(h[..|h| - 1], d), h[|h| - 1])
  {
    var front := h[..|h| - 1];
    ReceiptsWereBegun(front, d);
    if h[|h| - 1].Begun? {
      forall r | r in Receipts(front, d)
        ensures r.id != h[|h| - 1].id
      {
        var k :| 0 <= k < |front| && front[k].Begun? && front[k].id == r.id;
        assert h[k].id == r.id;
      }
    }
  }

  // ---- What a caller can see --------------------------------------------------------

  /** Pending comes before the two outcomes, and forgotten comes last. */
  function Rank(o: Observed): nat {
    match o case Pending => 0 case Completed => 1 case Cancelled => 1 case Unknown => 2
  }

  function Seen(h: seq<Event>, d: Guid, id: Guid): Observed { Observe(Receipts(h, d), id) }

  lemma SeenStep(h: seq<Event>, d: Guid, b: nat, id: Guid)
    requires Fresh(h) && b < |h| - 1 && h[b].Begun? && h[b].id == id
    ensures var was, now := Seen(h[..|h| - 1], d, id), Seen(h, d, id);
      Rank(was) < Rank(now) || was == now
  {
    var front, e := h[..|h| - 1], h[|h| - 1];
    StepIsFresh(h, d);
    LookupAfter(Receipts(front, d), e, DomainAfter(front, d), id);
    if Lookup(Receipts(front, d), id).Some? {
      TouchKeepsId(Lookup(Receipts(front, d), id).value, e, DomainAfter(front, d));
      LookupNone(Receipts(front, d), id);
    }
  }

  /** Once begun, an operation is pending, then perhaps completed or perhaps cancelled but never
      both, then perhaps unknown; it never goes back, across any number of domain reloads. */
  lemma {:induction false} NeverGoesBack(h: seq<Event>, d: Guid, b: nat, id: Guid, i: nat, k: nat)
    requires Fresh(h) && b < |h| && h[b].Begun? && h[b].id == id && b < i <= k <= |h|
    ensures Rank(Seen(h[..i], d, id)) < Rank(Seen(h[..k], d, id)) || Seen(h[..i], d, id) == Seen(h[..k], d, id)
    decreases k
  {
    if i < k {
      NeverGoesBack(h, d, b, id, i, k - 1);
      assert h[..k][..k - 1] == h[..k - 1];
      SeenStep(h[..k], d, b, id);
    }
  }

  /** An operation that begins is pending, unless all of a full list are unfinished. */
  lemma BeginsPending(h: seq<Event>, d: Guid)
    requires Fresh(h) && h != [] && h[|h| - 1].Begun?
    ensures var rs := Receipts(h[..|h| - 1], d);
      Seen(h, d, h[|h| - 1].id) ==
        if |rs| == CAPACITY && (forall r | r in rs :: !r.Completed()) then Unknown else Pending
  {
    var rs, id := Receipts(h[..|h| - 1], d), h[|h| - 1].id;
    StepIsFresh(h, d);
    RoomIsMadeOfCompleted(rs);
    AfterKeepsWellformed(rs, h[|h| - 1], DomainAfter(h[..|h| - 1], d));
    if Roomy(rs).Some? {
      var now := Receipts(h, d);
      LookupIs(now, now[|now| - 1]);
    } else {
      LookupNone(rs, id);
    }
  }

  // ---- One operation ----------------------------------------------------------------

  /** The receipt as if no other operation existed. */
  function Alone(r: Receipt, t: seq<Event>, d: Guid): Receipt {
    if t == [] then r else Touched(Alone(r, t[..|t| - 1], d), t[|t| - 1], DomainAfter(t[..|t| - 1], d))
  }

  lemma {:induction false} DomainSplits(a: seq<Event>, t: seq<Event>, d: Guid)
    ensures DomainAfter(a + t, d) == DomainAfter(t, DomainAfter(a, d))
  {
    if t == [] {
      assert a + t == a;
    } else {
      assert (a + t)[..|a + t| - 1] == a + t[..|t| - 1];
      DomainSplits(a, t[..|t| - 1], d);
    }
  }

  lemma ThereBefore(h: seq<Event>, d: Guid, b: nat, id: Guid)
    requires Fresh(h) && b < |h| - 1 && h[b].Begun? && h[b].id == id && Lookup(Receipts(h, d), id).Some?
    ensures Lookup(Receipts(h[..|h| - 1], d), id).Some?
    ensures Lookup(Receipts(h, d), id).value
      == Touched(Lookup(Receipts(h[..|h| - 1], d), id).value, h[|h| - 1], DomainAfter(h[..|h| - 1], d))
  {
    StepIsFresh(h, d);
    LookupAfter(Receipts(h[..|h| - 1], d), h[|h| - 1], DomainAfter(h[..|h| - 1], d), id);
  }

  /** A receipt still there is the one its own events made. */
  lemma {:induction false} StillThere(a: seq<Event>, e: Event, t: seq<Event>, d: Guid)
    requires Fresh(a + [e] + t) && e.Begun? && Lookup(Receipts(a + [e] + t, d), e.id).Some?
    ensures var here := DomainAfter(a, d);
      Lookup(Receipts(a + [e] + t, d), e.id).value
        == Alone(NewReceipt(e.id, e.kind, here, e.explicitCompile), t, here)
  {
    var h := a + [e] + t;
    if t == [] {
      assert h == a + [e] && h[..|h| - 1] == a;
      StepIsFresh(h, d);
      LookupAfter(Receipts(a, d), e, DomainAfter(a, d), e.id);
    } else {
      var front := a + [e] + t[..|t| - 1];
      assert h[..|h| - 1] == front && h[|h| - 1] == t[|t| - 1] && h[|a|] == e;
      StepIsFresh(h, d);
      ThereBefore(h, d, |a|, e.id);
      StillThere(a, e, t[..|t| - 1], d);
      DomainSplits(a + [e], t[..|t| - 1], d);
      BeginningStays(a, e, d);
    }
  }

  lemma BeginningStays(a: seq<Event>, e: Event, d: Guid)
    requires e.Begun?
    ensures DomainAfter(a + [e], d) == DomainAfter(a, d)
  {
    assert (a + [e])[..|a|] == a;
  }

  // ---- Imports, told from the events ------------------------------------------------

  /** The start of the last compilation cycle since the operation began, or -1. */
  function LastStart(t: seq<Event>): (c: int)
    ensures -1 <= c < |t|
    ensures c >= 0 ==> t[c].CompilationStarted?
    ensures forall k | c < k < |t| :: !t[k].CompilationStarted?
  {
    if t == [] then -1 else if t[|t| - 1].CompilationStarted? then |t| - 1 else LastStart(t[..|t| - 1])
  }

  predicate HadError(t: seq<Event>, from: int)
    requires -1 <= from
  {
    exists k | from < k < |t| :: t[k] == AssemblyFinished(true)
  }

  /** An assembly of the cycle compiled, and no end of the cycle since then found it failed. */
  predicate Produced(t: seq<Event>, from: int)
    requires -1 <= from
  {
    exists k | from < k < |t| ::
      && t[k] == AssemblyFinished(false)
      && (forall m | k < m < |t| && t[m].CompilationFinished? :: !t[m].failed && !HadError(t[..m], from))
  }

  /** A reload ended in a domain other than the one the operation began in. */
  predicate Moved(t: seq<Event>, k: nat, d: Guid)
    requires k < |t|
  {
    t[k].ReloadFinished? && DomainAfter(t[..k], d) != d
  }

  predicate Ended(t: seq<Event>, d: Guid) {
    var c := LastStart(t);
    exists k | 0 <= k < |t| :: c < k && ((c >= 0 && t[k].CompilationFinished?) || Moved(t, k, d))
  }

  predicate Returned(t: seq<Event>, d: Guid, id: Guid) {
    exists k | 0 <= k < |t| :: t[k] == FinishedSynchronously(id) || Moved(t, k, d)
  }

  /** When the next idle tick may confirm an import. */
  predicate Confirmable(t: seq<Event>, d: Guid, id: Guid, explicitCompile: bool) {
    && Returned(t, d, id)
    && (explicitCompile || LastStart(t) >= 0 ==> Ended(t, d))
    && (LastStart(t) >= 0 && Produced(t, LastStart(t)) ==> DomainAfter(t, d) != d)
  }

  // ---- The flags are the story ------------------------------------------------------

  /** An import under way: nothing yet has completed it. */
  ghost predicate UnderWay(r: Receipt, t: seq<Event>, d: Guid) {
    r == NewReceipt(r.id, r.kind, d, r.explicitCompile) && r.Import() && !Alone(r, t, d).Completed()
  }

  lemma {:induction false} SameReceipt(r: Receipt, t: seq<Event>, d: Guid)
    ensures Alone(r, t, d) == r.(flags := Alone(r, t, d).flags)
  {
    if t != [] { SameReceipt(r, t[..|t| - 1], d); }
  }

  lemma ImportMarks(r: Receipt, e: Event, d: Guid)
    requires r.Import() && !Marked(r, e, d).completed
    ensures !r.Completed()
    ensures var was, now, starts := r.flags, Marked(r, e, d), e.CompilationStarted?;
      && now.compiling == (was.compiling || starts)
      && now.compileFailed == (!starts && (was.compileFailed || (was.compiling && e == AssemblyFinished(true))))
      && now.reload == (!starts
           && ((was.compiling && e == AssemblyFinished(false))
               || (was.reload && (was.compiling && e.CompilationFinished? ==> !was.compileFailed && !e.failed))))
  {
    hide Confirmed;
  }

  lemma ImportEnds(r: Receipt, e: Event, d: Guid)
    requires r.ActiveImport()
    ensures Marked(r, e, d).compiled
      == (!e.CompilationStarted?
          && (r.flags.compiled || (r.flags.compiling && e.CompilationFinished?) || (e.ReloadFinished? && r.domain != d)))
  {
    hide Confirmed;
  }

  lemma ImportReturns(r: Receipt, e: Event, d: Guid)
    requires r.ActiveImport()
    ensures Marked(r, e, d).finished
      <==> (r.flags.finished || e == FinishedSynchronously(r.id) || (e.ReloadFinished? && r.domain != d))
  {
    hide Confirmed, Confirms, Cancels;
    match e
    case CompilationStarted =>
    case AssemblyFinished(_) =>
    case CompilationFinished(_) =>
    case ReloadFinished =>
    case PlayModeChanged(_) =>
    case Begun(_, _, _) =>
    case FinishedSynchronously(_) =>
    case Abandoned(_) =>
    case CodeImported =>
    case Ticked(_) =>
    case Loaded(_, _) =>
  }

  lemma Marks(r: Receipt, t: seq<Event>, d: Guid)
    requires UnderWay(r, t, d) && t != []
    ensures var front, e, here := t[..|t| - 1], t[|t| - 1], DomainAfter(t[..|t| - 1], d);
      var was, now, starts := Alone(r, front, d).flags, Alone(r, t, d).flags, e.CompilationStarted?;
      && UnderWay(r, front, d)
      && now.compiling == (was.compiling || starts)
      && now.compileFailed == (!starts && (was.compileFailed || (was.compiling && e == AssemblyFinished(true))))
      && now.reload == (!starts
           && ((was.compiling && e == AssemblyFinished(false))
               || (was.reload && (was.compiling && e.CompilationFinished? ==> !was.compileFailed && !e.failed))))
      && now.compiled == (!starts
           && (was.compiled || (was.compiling && e.CompilationFinished?) || (e.ReloadFinished? && d != here)))
      && now.finished == (was.finished || e == FinishedSynchronously(r.id) || (e.ReloadFinished? && d != here))
  {
    var front := t[..|t| - 1];
    SameReceipt(r, front, d);
    ImportMarks(Alone(r, front, d), t[|t| - 1], DomainAfter(front, d));
    ImportEnds(Alone(r, front, d), t[|t| - 1], DomainAfter(front, d));
    ImportReturns(Alone(r, front, d), t[|t| - 1], DomainAfter(front, d));
  }

  lemma {:induction false} CompilingMeans(r: Receipt, t: seq<Event>, d: Guid)
    requires UnderWay(r, t, d)
    ensures Alone(r, t, d).flags.compiling <==> LastStart(t) >= 0
  {
    if t != [] {
      hide UnderWay, Touched;
      Marks(r, t, d);
      CompilingMeans(r, t[..|t| - 1], d);
    }
  }

  lemma {:induction false} CompileFailedMeans(r: Receipt, t: seq<Event>, d: Guid)
    requires UnderWay(r, t, d)
    ensures Alone(r, t, d).flags.compileFailed <==> LastStart(t) >= 0 && HadError(t, LastStart(t))
  {
    if t != [] {
      hide UnderWay, Touched;
      var front := t[..|t| - 1];
      Marks(r, t, d);
      CompilingMeans(r, front, d);
      CompileFailedMeans(r, front, d);
      assert t == front + [t[|t| - 1]];
    }
  }

  lemma {:induction false} ReloadMeans(r: Receipt, t: seq<Event>, d: Guid)
    requires UnderWay(r, t, d)
    ensures Alone(r, t, d).flags.reload <==> LastStart(t) >= 0 && Produced(t, LastStart(t))
  {
    if t != [] {
      hide UnderWay, Touched;
      var front := t[..|t| - 1];
      Marks(r, t, d);
      CompilingMeans(r, front, d);
      CompileFailedMeans(r, front, d);
      ReloadMeans(r, front, d);
      if LastStart(front) >= 0 && !t[|t| - 1].CompilationStarted? {
        ProducedStep(front, t[|t| - 1], LastStart(front));
        assert t == front + [t[|t| - 1]];
      }
    }
  }

  lemma ProducedStep(t: seq<Event>, e: Event, c: nat)
    requires c < |t|
    ensures Produced(t + [e], c) <==>
      || e == AssemblyFinished(false)
      || (Produced(t, c) && (e.CompilationFinished? ==> !e.failed && !HadError(t, c)))
  {
    var u := t + [e];
    assert u[..|t|] == t;
    forall m | 0 <= m <= |t| ensures u[..m] == t[..m] {}
    if e == AssemblyFinished(false) {
      assert u[|t|] == e;
    } else if Produced(u, c) {
      var k :| c < k < |u| && u[k] == AssemblyFinished(false)
        && (forall m | k < m < |u| && u[m].CompilationFinished? :: !u[m].failed && !HadError(u[..m], c));
      assert t[k] == AssemblyFinished(false);
    }
    if Produced(t, c) && (e.CompilationFinished? ==> !e.failed && !HadError(t, c)) {
      var k :| c < k < |t| && t[k] == AssemblyFinished(false)
        && (forall m | k < m < |t| && t[m].CompilationFinished? :: !t[m].failed && !HadError(t[..m], c));
      assert u[k] == AssemblyFinished(false);
    }
  }

  lemma {:induction false} CompiledMeans(r: Receipt, t: seq<Event>, d: Guid)
    requires UnderWay(r, t, d)
    ensures Alone(r, t, d).flags.compiled <==> Ended(t, d)
  {
    if t != [] {
      hide UnderWay, Touched;
      var front := t[..|t| - 1];
      Marks(r, t, d);
      CompilingMeans(r, front, d);
      CompiledMeans(r, front, d);
      EndedStep(front, t[|t| - 1], d);
      assert t == front + [t[|t| - 1]];
    }
  }

  lemma EndedStep(t: seq<Event>, e: Event, d: Guid)
    ensures Ended(t + [e], d) <==>
      && !e.CompilationStarted?
      && (Ended(t, d) || (LastStart(t) >= 0 && e.CompilationFinished?) || (e.ReloadFinished? && DomainAfter(t, d) != d))
  {
    var u := t + [e];
    assert u[..|t|] == t;
    forall m | 0 <= m <= |t| ensures u[..m] == t[..m] {}
    assert forall k | 0 <= k < |t| :: u[k] == t[k] && (Moved(u, k, d) <==> Moved(t, k, d));
    assert u[|t|] == e;
    if Ended(t, d) && !e.CompilationStarted? {
      var k :| 0 <= k < |t| && LastStart(t) < k && ((LastStart(t) >= 0 && t[k].CompilationFinished?) || Moved(t, k, d));
      assert u[k] == t[k];
    }
  }

  lemma {:induction false} FinishedMeans(r: Receipt, t: seq<Event>, d: Guid)
    requires UnderWay(r, t, d)
    ensures Alone(r, t, d).flags.finished <==> Returned(t, d, r.id)
  {
    if t != [] {
      hide UnderWay, Touched;
      var front, e := t[..|t| - 1], t[|t| - 1];
      Marks(r, t, d);
      FinishedMeans(r, front, d);
      assert t == front + [e] && forall k | 0 <= k < |front| :: t[..k] == front[..k];
      assert forall k | 0 <= k < |front| :: t[k] == front[k] && (Moved(t, k, d) <==> Moved(front, k, d));
      if Returned(front, d, r.id) {
        var k :| 0 <= k < |front| && (front[k] == FinishedSynchronously(r.id) || Moved(front, k, d));
        assert t[k] == front[k];
      }
    }
  }

  // ---- Confirmation -----------------------------------------------------------------

  lemma ConfirmedMeans(r: Receipt, t: seq<Event>, d: Guid)
    requires UnderWay(r, t, d)
    ensures Confirmed(Alone(r, t, d), DomainAfter(t, d)) <==> Confirmable(t, d, r.id, r.explicitCompile)
  {
    SameReceipt(r, t, d);
    CompilingMeans(r, t, d);
    ReloadMeans(r, t, d);
    CompiledMeans(r, t, d);
    FinishedMeans(r, t, d);
    hide LastStart, Ended, Produced, Returned, Alone, DomainAfter;
  }

  /** A pending import is confirmed by a tick exactly when the Editor is idle and what was seen of
      it since it began allows it. */
  lemma TickConfirms(a: seq<Event>, e: Event, t: seq<Event>, d: Guid, busy: bool)
    requires Fresh(a + [e] + t) && e.Begun? && (e.kind.Refresh? || e.kind.Reserialize?)
    requires Seen(a + [e] + t, d, e.id) == Pending
    ensures Seen(a + [e] + t + [Ticked(busy)], d, e.id) ==
      if !busy && Confirmable(t, DomainAfter(a, d), e.id, e.explicitCompile) then Completed else Pending
  {
    var h, here := a + [e] + t, DomainAfter(a, d);
    var r := NewReceipt(e.id, e.kind, here, e.explicitCompile);
    var rs := Receipts(h, d);
    ReceiptsWereBegun(h, d);
    assert (h + [Ticked(busy)])[..|h|] == h;
    LookupPass(rs, Ticked(busy), DomainAfter(h, d), e.id);
    StillThere(a, e, t, d);
    DomainSplits(a + [e], t, d);
    BeginningStays(a, e, d);
    SameReceipt(r, t, here);
    LookupNone(rs, e.id);
    ConfirmedMeans(r, t, here);
    hide Confirmable, Confirmed, Alone, Receipts, DomainAfter, Wellformed, Fresh;
  }

  /** While the last cycle seen built an assembly, reported no error and no failure, and the domain
      is the one the import began in, no tick confirms it. */
  lemma ReloadIsAwaited(a: seq<Event>, e: Event, t: seq<Event>, d: Guid, busy: bool, k: nat)
    requires Fresh(a + [e] + t) && e.Begun? && (e.kind.Refresh? || e.kind.Reserialize?)
    requires Seen(a + [e] + t, d, e.id) == Pending
    requires 0 <= LastStart(t) < k < |t| && t[k] == AssemblyFinished(false)
    requires forall m | LastStart(t) < m < |t| :: t[m] != AssemblyFinished(true) && t[m] != CompilationFinished(true)
    requires DomainAfter(t, DomainAfter(a, d)) == DomainAfter(a, d)
    ensures Seen(a + [e] + t + [Ticked(busy)], d, e.id) == Pending
  {
    TickConfirms(a, e, t, d, busy);
    assert Produced(t, LastStart(t));
  }

  /** A completed import was confirmed by an idle tick at which everything seen allowed it. */
  lemma {:induction false} CompletedWasConfirmed(a: seq<Event>, e: Event, t: seq<Event>, d: Guid) returns (k: nat)
    requires Fresh(a + [e] + t) && e.Begun? && (e.kind.Refresh? || e.kind.Reserialize?)
    requires Seen(a + [e] + t, d, e.id) == Completed
    ensures k < |t| && t[k] == Ticked(false)
    ensures Confirmable(t[..k], DomainAfter(a, d), e.id, e.explicitCompile)
  {
    hide Confirmable, Confirmed, Marked, Withdrawn, Receipts, DomainAfter, Wellformed;
    var h := a + [e] + t;
    StepIsFresh(h, d);
    if t == [] {
      assert h == a + [e];
      StillThere(a, e, t, d);
    } else {
      var front, last := t[..|t| - 1], t[|t| - 1];
      assert h[..|h| - 1] == a + [e] + front && h[|a|] == e && h == a + [e] + front + [last];
      SeenStep(h, d, |a|, e.id);
      if Seen(a + [e] + front, d, e.id) == Completed {
        k := CompletedWasConfirmed(a, e, front, d);
        assert front[..k] == t[..k];
      } else {
        k := |t| - 1;
        ThereBefore(h, d, |a|, e.id);
        OnlyTicksComplete(Lookup(Receipts(a + [e] + front, d), e.id).value, last, DomainAfter(a + [e] + front, d), a, e, front, d);
        TickConfirms(a, e, front, d, false);
      }
    }
  }

  lemma OnlyTicksComplete(r: Receipt, last: Event, here: Guid, a: seq<Event>, e: Event, t: seq<Event>, d: Guid)
    requires Fresh(a + [e] + t) && e.Begun? && (e.kind.Refresh? || e.kind.Reserialize?)
    requires Lookup(Receipts(a + [e] + t, d), e.id) == Some(r)
    requires !r.Completed() && StateOf(Touched(r, last, here)) == Completed
    ensures last == Ticked(false)
  {
    StillThere(a, e, t, d);
    SameReceipt(NewReceipt(e.id, e.kind, DomainAfter(a, d), e.explicitCompile), t, DomainAfter(a, d));
    ImportCompletes(r, last, here);
  }

  lemma ImportCompletes(r: Receipt, last: Event, here: Guid)
    requires r.Import() && !r.Completed() && Marked(r, last, here).completed
    ensures last == Ticked(false)
  {
    hide Confirmed;
  }

  // ---- Code that comes in without a compilation -------------------------------------

  /** A receipt that may be overtaken by an unannounced reload is not kept once its call returned. */
  ghost predicate Resolved(r: Receipt) { r.ActiveImport() && r.flags.finished && Doubtful(r) ==> r.flags.compiled }

  lemma TouchResolves(r: Receipt, e: Event, d: Guid)
    requires Resolved(r) && !Withdrawn(Touched(r, e, d), e)
    ensures Resolved(Touched(r, e, d))
  {
    hide Confirmed, Confirms, Cancels;
    match e
    case CompilationStarted =>
    case ReloadFinished =>
    case FinishedSynchronously(_) =>
    case CodeImported =>
    case _ =>
  }

  lemma {:induction false} AllResolved(h: seq<Event>, d: Guid)
    requires Fresh(h)
    ensures forall r | r in Receipts(h, d) :: Resolved(r)
  {
    if h != [] {
      var front, e, here := h[..|h| - 1], h[|h| - 1], DomainAfter(h[..|h| - 1], d);
      StepIsFresh(h, d);
      AllResolved(front, d);
      var rs := Receipts(front, d);
      PassMembers(rs, e, here);
      if e.Begun? && Roomy(rs).Some? { RoomMembers(rs); }
      forall r | r in Receipts(h, d)
        ensures Resolved(r)
      {
        if !e.Begun? && !e.Loaded? {
          var was :| was in rs && r == Touched(was, e, here);
          TouchResolves(was, e, here);
        }
      }
    }
  }

  lemma {:induction false} CodeImportedMeans(r: Receipt, t: seq<Event>, d: Guid)
    requires UnderWay(r, t, d)
    ensures Alone(r, t, d).flags.codeImported <==> CodeImported in t
  {
    if t != [] {
      var front, e := t[..|t| - 1], t[|t| - 1];
      Marks(r, t, d);
      CodeImportedMeans(r, front, d);
      SameReceipt(r, front, d);
      ImportNotices(Alone(r, front, d), e, DomainAfter(front, d));
      assert t == front + [e];
    }
  }

  lemma ImportNotices(r: Receipt, e: Event, d: Guid)
    requires r.ActiveImport()
    ensures Marked(r, e, d).codeImported <==> r.flags.codeImported || e.CodeImported?
  {
    hide Confirmed, Confirms, Cancels;
    match e
    case CompilationStarted =>
    case AssemblyFinished(_) =>
    case CompilationFinished(_) =>
    case ReloadFinished =>
    case PlayModeChanged(_) =>
    case Begun(_, _, _) =>
    case FinishedSynchronously(_) =>
    case Abandoned(_) =>
    case CodeImported =>
    case Ticked(_) =>
    case Loaded(_, _) =>
  }

  /** When code came in, no compilation was asked for and none was seen, an import is confirmed only
      after a reload into another domain. */
  lemma UnannouncedReload(a: seq<Event>, e: Event, t: seq<Event>, d: Guid) returns (k: nat)
    requires Fresh(a + [e] + t) && e.Begun? && (e.kind.Refresh? || e.kind.Reserialize?)
    requires Seen(a + [e] + t, d, e.id) == Pending && Confirmable(t, DomainAfter(a, d), e.id, e.explicitCompile)
    requires CodeImported in t && !e.explicitCompile && LastStart(t) < 0
    ensures k < |t| && Moved(t, k, DomainAfter(a, d))
  {
    var h, here := a + [e] + t, DomainAfter(a, d);
    var r := NewReceipt(e.id, e.kind, here, e.explicitCompile);
    ReceiptsWereBegun(h, d);
    AllResolved(h, d);
    LookupNone(Receipts(h, d), e.id);
    StillThere(a, e, t, d);
    SameReceipt(r, t, here);
    CodeImportedMeans(r, t, here);
    CompilingMeans(r, t, here);
    CompiledMeans(r, t, here);
    FinishedMeans(r, t, here);
    assert Ended(t, here);
    k :| 0 <= k < |t| && Moved(t, k, here);
  }
}
