/** How the receipts of one operation travel through the events. */
module OperationLaws {
  import opened Wrappers
  import opened OperationSpec

  lemma LookupIs(rs: seq<Receipt>, r: Receipt)
    requires Wellformed(rs) && r in rs
    ensures Lookup(rs, r.id) == Some(r)
  {
  }

  lemma LookupNone(rs: seq<Receipt>, id: Guid)
    ensures Lookup(rs, id) == None <==> forall r | r in rs :: r.id != id
    ensures Lookup(rs, id).Some? ==> Lookup(rs, id).value in rs && Lookup(rs, id).value.id == id
  {
  }

  lemma TouchKeepsId(r: Receipt, e: Event, domain: Guid)
    ensures var t := Touched(r, e, domain);
      && t == r.(flags := t.flags)
      && (r.flags.completed ==> t.flags.completed && t.flags.cancelled == r.flags.cancelled)
      && ((r.flags.cancelled ==> r.flags.completed) ==> (t.flags.cancelled ==> t.flags.completed))
  {
  }

  /** What an event leaves of a list: each receipt touched, those withdrawn gone, in order. */
  lemma {:induction false} PassMembers(rs: seq<Receipt>, e: Event, domain: Guid)
    ensures forall r | r in rs && !Withdrawn(Touched(r, e, domain), e) :: Touched(r, e, domain) in Pass(rs, e, domain)
    ensures forall t | t in Pass(rs, e, domain) ::
      !Withdrawn(t, e) && exists r :: r in rs && t == Touched(r, e, domain)
    ensures |Pass(rs, e, domain)| <= |rs|
  {
    if rs != [] {
      PassMembers(rs[..|rs| - 1], e, domain);
    }
  }

  lemma {:induction false} PassKeepsWellformed(rs: seq<Receipt>, e: Event, domain: Guid)
    requires Wellformed(rs)
    ensures Wellformed(Pass(rs, e, domain))
  {
    if rs != [] {
      var front, last := rs[..|rs| - 1], rs[|rs| - 1];
      PassKeepsWellformed(front, e, domain);
      PassMembers(front, e, domain);
      TouchKeepsId(last, e, domain);
      forall t | t in Pass(front, e, domain)
        ensures t.id != last.id
      {
        var r :| r in front && t == Touched(r, e, domain);
        TouchKeepsId(r, e, domain);
      }
      PassMembers(rs, e, domain);
    }
  }

  /** An event acts on the receipt of an operation as if it were alone. */
  lemma LookupPass(rs: seq<Receipt>, e: Event, domain: Guid, id: Guid)
    requires Wellformed(rs)
    ensures Lookup(Pass(rs, e, domain), id) ==
      match Lookup(rs, id)
      case Some(r) => if Withdrawn(Touched(r, e, domain), e) then None else Some(Touched(r, e, domain))
      case None => None
  {
    var after := Pass(rs, e, domain);
    PassMembers(rs, e, domain);
    PassKeepsWellformed(rs, e, domain);
    LookupNone(rs, id);
    LookupNone(after, id);
    forall t | t in after && t.id == id
      ensures Lookup(rs, id).Some? && t == Touched(Lookup(rs, id).value, e, domain) && !Withdrawn(t, e)
    {
      var r :| r in rs && t == Touched(r, e, domain);
      TouchKeepsId(r, e, domain);
      LookupIs(rs, r);
    }
    if Lookup(rs, id).Some? {
      var r := Lookup(rs, id).value;
      TouchKeepsId(r, e, domain);
      if !Withdrawn(Touched(r, e, domain), e) {
        LookupIs(after, Touched(r, e, domain));
      }
    }
  }

  /** Room is made by dropping the oldest completed receipt of a full list, and no other. */
  lemma RoomIsMadeOfCompleted(rs: seq<Receipt>)
    requires |rs| <= CAPACITY
    ensures Roomy(rs) == None <==> |rs| == CAPACITY && forall r | r in rs :: !r.Completed()
    ensures |rs| < CAPACITY ==> Roomy(rs) == Some(rs)
    ensures |rs| == CAPACITY && Roomy(rs).Some? ==>
      exists i :: 0 <= i < |rs| && rs[i].Completed() && (forall k | 0 <= k < i :: !rs[k].Completed())
                  && Roomy(rs).value == rs[..i] + rs[i + 1..]
  {
    var i := FirstCompleted(rs);
    if |rs| == CAPACITY && i < |rs| {
      assert Roomy(rs) == Some(rs[..i] + rs[i + 1..]);
    }
  }

  lemma DropOne(rs: seq<Receipt>, i: nat)
    requires Wellformed(rs) && i < |rs|
    ensures Wellformed(rs[..i] + rs[i + 1..])
    ensures forall r | r in rs[..i] + rs[i + 1..] :: r in rs
    ensures forall r | r in rs && r != rs[i] :: r in rs[..i] + rs[i + 1..]
  {
    var left := rs[..i] + rs[i + 1..];
    assert forall k | 0 <= k < |left| :: left[k] == rs[if k < i then k else k + 1];
    assert rs == rs[..i] + [rs[i]] + rs[i + 1..];
  }

  lemma RoomMembers(rs: seq<Receipt>)
    requires Wellformed(rs) && Roomy(rs).Some?
    ensures |Roomy(rs).value| < CAPACITY && Wellformed(Roomy(rs).value)
    ensures forall r | r in Roomy(rs).value :: r in rs
    ensures forall r | r in rs && !r.Completed() :: r in Roomy(rs).value
  {
    assert |rs| <= CAPACITY;
    hide Wellformed;
    if |rs| == CAPACITY {
      var i := FirstCompleted(rs);
      DropOne(rs, i);
      assert Roomy(rs) == Some(rs[..i] + rs[i + 1..]);
    }
  }

  predicate FreshFor(rs: seq<Receipt>, e: Event) { e.Begun? ==> forall r | r in rs :: r.id != e.id }

  lemma AfterKeepsWellformed(rs: seq<Receipt>, e: Event, domain: Guid)
    requires Wellformed(rs) && FreshFor(rs, e)
    ensures Wellformed(After(rs, e, domain))
  {
    match e
    case Begun(_, _, _) => if Roomy(rs).Some? { RoomMembers(rs); }
    case Loaded(_, _) =>
    case _ => PassKeepsWellformed(rs, e, domain);
  }

  /** What an event does to one operation's receipt. */
  lemma LookupAfter(rs: seq<Receipt>, e: Event, domain: Guid, id: Guid)
    requires Wellformed(rs) && FreshFor(rs, e)
    ensures var was, now := Lookup(rs, id), Lookup(After(rs, e, domain), id);
      match e
      case Begun(begunId, _, _) =>
        if begunId == id then now.Some? ==> now.value == NewReceipt(id, e.kind, domain, e.explicitCompile) && Roomy(rs).Some?
        else now == was || (now == None && was.Some? && was.value.Completed())
      case Loaded(_, readable) => now == if readable then was else None
      case _ =>
        now == match was
               case Some(r) => if Withdrawn(Touched(r, e, domain), e) then None else Some(Touched(r, e, domain))
               case None => None
  {
    match e
    case Begun(begunId, kind, explicitCompile) =>
      LookupNone(rs, id);
      LookupNone(After(rs, e, domain), id);
      AfterKeepsWellformed(rs, e, domain);
      if Roomy(rs).Some? {
        RoomMembers(rs);
        var now := After(rs, e, domain);
        if begunId == id {
          LookupIs(now, now[|now| - 1]);
        } else if Lookup(rs, id).Some? && Lookup(rs, id).value in now {
          LookupIs(now, Lookup(rs, id).value);
        }
        if begunId != id && Lookup(now, id).Some? {
          LookupIs(rs, Lookup(now, id).value);
        }
      }
    case Loaded(_, _) =>
    case _ => LookupPass(rs, e, domain, id);
  }

  // ---- Passing over the list in place -----------------------------------------------

  /** A pass that has reached position `i`: what is behind is done, what is ahead is untouched. */
  ghost predicate Midway(rs: seq<Receipt>, now: seq<Receipt>, i: nat, p: nat, e: Event, domain: Guid)
    requires i <= |rs|
  {
    p == |Pass(rs[..i], e, domain)| && now == Pass(rs[..i], e, domain) + rs[i..]
  }

  lemma MidwayStart(rs: seq<Receipt>, e: Event, domain: Guid)
    ensures Midway(rs, rs, 0, 0, e, domain)
  {
  }

  lemma MidwayStep(rs: seq<Receipt>, now: seq<Receipt>, i: nat, p: nat, e: Event, domain: Guid)
    requires i < |rs| && Midway(rs, now, i, p, e, domain)
    ensures p < |now| && now[p] == rs[i]
    ensures var r := Touched(rs[i], e, domain);
      if Withdrawn(r, e) then Midway(rs, now[..p] + now[p + 1..], i + 1, p, e, domain)
      else Midway(rs, now[p := r], i + 1, p + 1, e, domain) && (r == rs[i] ==> now[p := r] == now)
  {
    var r := Touched(rs[i], e, domain);
    assert rs[..i + 1][..i] == rs[..i];
    assert Pass(rs[..i + 1], e, domain) == Pass(rs[..i], e, domain) + if Withdrawn(r, e) then [] else [r];
    hide Touched, Withdrawn, Pass;
    assert rs[i..] == [rs[i]] + rs[i + 1..];
    assert now[..p] + now[p + 1..] == Pass(rs[..i], e, domain) + rs[i + 1..];
    assert now[p := r] == Pass(rs[..i], e, domain) + [r] + rs[i + 1..];
  }

  lemma MidwayEnd(rs: seq<Receipt>, now: seq<Receipt>, p: nat, e: Event, domain: Guid)
    requires Midway(rs, now, |rs|, p, e, domain)
    ensures now == Pass(rs, e, domain)
  {
    assert rs[..|rs|] == rs;
  }

  lemma {:induction false} PassLeaves(rs: seq<Receipt>, e: Event, domain: Guid)
    requires forall r | r in rs :: Touched(r, e, domain) == r && !Withdrawn(r, e)
    ensures Pass(rs, e, domain) == rs
  {
    hide Touched, Withdrawn;
    if rs != [] {
      PassLeaves(rs[..|rs| - 1], e, domain);
      assert rs[|rs| - 1] in rs;
    }
  }

  lemma {:induction false} PassSplits(a: seq<Receipt>, b: seq<Receipt>, e: Event, domain: Guid)
    ensures Pass(a + b, e, domain) == Pass(a, e, domain) + Pass(b, e, domain)
  {
    hide Touched, Withdrawn;
    if b == [] {
      assert a + b == a;
    } else {
      assert (a + b)[..|a + b| - 1] == a + b[..|b| - 1];
      PassSplits(a, b[..|b| - 1], e, domain);
    }
  }

  lemma OneSplits(rs: seq<Receipt>, i: nat, e: Event, domain: Guid)
    requires i < |rs|
    requires forall r | r in rs[..i] + rs[i + 1..] :: Touched(r, e, domain) == r && !Withdrawn(r, e)
    ensures Pass(rs, e, domain) == rs[..i] + Pass([rs[i]], e, domain) + rs[i + 1..]
  {
    hide Touched, Withdrawn, Pass;
    var a, b := rs[..i], rs[i + 1..];
    assert rs == a + [rs[i]] + b;
    PassLeaves(a, e, domain);
    PassLeaves(b, e, domain);
    PassSplits(a + [rs[i]], b, e, domain);
    PassSplits(a, [rs[i]], e, domain);
  }

  lemma OthersDiffer(rs: seq<Receipt>, i: nat)
    requires Wellformed(rs) && i < |rs|
    ensures forall r: Receipt | r in rs[..i] + rs[i + 1..] :: r.id != rs[i].id
  {
    var left := rs[..i] + rs[i + 1..];
    forall r: Receipt | r in left
      ensures r.id != rs[i].id
    {
      var k :| 0 <= k < |left| && left[k] == r;
      assert r == rs[if k < i then k else k + 1];
    }
  }

  lemma PassOne(r: Receipt, e: Event, domain: Guid)
    ensures Pass([r], e, domain) == if Withdrawn(Touched(r, e, domain), e) then [] else [Touched(r, e, domain)]
  {
  }

  lemma SwapKeepsWellformed(rs: seq<Receipt>, i: nat, r: Receipt)
    requires Wellformed(rs) && i < |rs| && r.id == rs[i].id && (r.flags.cancelled ==> r.flags.completed)
    ensures Wellformed(rs[i := r])
  {
  }

  /** Marking the one receipt of a call, then abandoning it if it is doubtful. */
  lemma FinishesOne(rs: seq<Receipt>, i: nat, domain: Guid)
    requires Wellformed(rs) && i < |rs|
    ensures var e := FinishedSynchronously(rs[i].id); var r := Touched(rs[i], e, domain);
      && r in rs[i := r] && Wellformed(rs[i := r])
      && Pass(rs, e, domain) == if Withdrawn(r, e) then Pass(rs[i := r], Abandoned(r.id), domain) else rs[i := r]
  {
    var e := FinishedSynchronously(rs[i].id);
    var r := Touched(rs[i], e, domain);
    assert rs[i] in rs && rs[i := r][i] == r;
    SwapKeepsWellformed(rs, i, r);
    OthersDiffer(rs, i);
    MarksOne(rs, i, r, domain);
    if Withdrawn(r, e) { AbandonsOne(rs, i, r, domain); }
    hide Wellformed, Pass, Touched, Withdrawn;
  }

  lemma MarksOne(rs: seq<Receipt>, i: nat, r: Receipt, domain: Guid)
    requires i < |rs| && r == Touched(rs[i], FinishedSynchronously(rs[i].id), domain)
    requires forall o: Receipt | o in rs[..i] + rs[i + 1..] :: o.id != rs[i].id
    ensures Pass(rs, FinishedSynchronously(rs[i].id), domain)
      == if Withdrawn(r, FinishedSynchronously(rs[i].id)) then rs[..i] + rs[i + 1..] else rs[i := r]
  {
    var e := FinishedSynchronously(rs[i].id);
    hide Pass, Touched, Withdrawn;
    forall o: Receipt | o in rs[..i] + rs[i + 1..]
      ensures Touched(o, e, domain) == o && !Withdrawn(o, e)
    {
      NotMine(o, rs[i].id, domain);
    }
    OneSplits(rs, i, e, domain);
    PassOne(rs[i], e, domain);
    Splice(rs, i, r);
  }

  lemma NotMine(o: Receipt, id: Guid, domain: Guid)
    requires o.id != id
    ensures Touched(o, FinishedSynchronously(id), domain) == o && !Withdrawn(o, FinishedSynchronously(id))
    ensures Touched(o, Abandoned(id), domain) == o && !Withdrawn(o, Abandoned(id))
  {
  }

  lemma Splice<T>(s: seq<T>, i: nat, x: T)
    requires i < |s|
    ensures s[i := x] == s[..i] + [x] + s[i + 1..]
    ensures s[..i] + [] + s[i + 1..] == s[..i] + s[i + 1..]
  {
  }

  lemma AbandonsOne(rs: seq<Receipt>, i: nat, r: Receipt, domain: Guid)
    requires i < |rs| && r.id == rs[i].id && !r.Completed()
    requires forall o: Receipt | o in rs[..i] + rs[i + 1..] :: o.id != rs[i].id
    ensures Pass(rs[i := r], Abandoned(r.id), domain) == rs[..i] + rs[i + 1..]
  {
    var now := rs[i := r];
    assert now[i] == r && now[..i] == rs[..i] && now[i + 1..] == rs[i + 1..];
    PassOne(r, Abandoned(r.id), domain);
    assert Pass([r], Abandoned(r.id), domain) == [];
    hide Pass, Touched, Withdrawn;
    forall o: Receipt | o in now[..i] + now[i + 1..]
      ensures Touched(o, Abandoned(r.id), domain) == o && !Withdrawn(o, Abandoned(r.id))
    {
      NotMine(o, r.id, domain);
    }
    OneSplits(now, i, Abandoned(r.id), domain);
    Splice(rs, i, r);
  }

  lemma AbandonSpares(rs: seq<Receipt>, item: Receipt, domain: Guid)
    requires Wellformed(rs) && item in rs
    ensures item.Completed() ==> Pass(rs, Abandoned(item.id), domain) == rs
  {
    forall r | r in rs && r.id == item.id
      ensures r == item
    {
      LookupIs(rs, r);
      LookupIs(rs, item);
    }
    if item.Completed() { PassLeaves(rs, Abandoned(item.id), domain); }
  }

  // ---- What keeps the Editor busy ---------------------------------------------------

  /** The oldest unfinished receipt alone says what the Editor is busy with. */
  lemma {:induction false} BusyTells(rs: seq<Receipt>, i: nat)
    requires i < |rs| && !rs[i].Completed() && forall k | 0 <= k < i :: rs[k].Completed()
    ensures Busy(rs).Some?
    ensures Busy(rs).value == EnteringPlay <==> rs[i].kind == Play
    ensures Busy(rs).value == LeavingPlay <==> rs[i].kind == Stop
    ensures Busy(rs).value == Compiling <==> rs[i].Import() && (rs[i].explicitCompile || rs[i].flags.compiling)
    ensures Busy(rs).value == Refreshing <==> rs[i].Import() && !rs[i].explicitCompile && !rs[i].flags.compiling
  {
    if i > 0 { BusyTells(rs[1..], i - 1); }
  }
}
