/** The receipt list of one Editor domain, and the copy of it that survives domain reloads. */
module EditorOperations {
  import opened Wrappers
  import opened OperationSpec
  import opened OperationLaws

  /** SessionState: text kept by the Editor between domains; none when it cannot be read back. */
  class Session {
    var stored: Option<seq<Receipt>>

    constructor ()
      ensures stored == Some([])
    {
      stored := Some([]);
    }
  }

  lemma TickTouches(r: Receipt, domain: Guid)
    ensures var t := Touched(r, Ticked(false), domain);
      && !Withdrawn(t, Ticked(false))
      && t == if !r.Completed()
                 && (if r.Import() then
                       r.flags.finished && (r.explicitCompile ==> r.flags.compiled)
                       && (r.flags.compiling ==> r.flags.compiled) && (r.flags.reload ==> r.domain != domain)
                     else r.flags.playEvent)
              then r.(flags := r.flags.(completed := true)) else r
  {
  }

  lemma PlayTouches(r: Receipt, mode: PlayMode, domain: Guid)
    ensures var t := Touched(r, PlayModeChanged(mode), domain);
      && !Withdrawn(t, PlayModeChanged(mode))
      && t == (if r.Completed() then r
               else if Confirms(r, mode) then r.(flags := r.flags.(playEvent := true))
               else if Cancels(r, mode) then r.(flags := r.flags.(completed := true, cancelled := true))
               else r)
      && !(Confirms(r, mode) && Cancels(r, mode))
  {
  }

  lemma ImportTouches(r: Receipt, domain: Guid)
    ensures var t := Touched(r, Event.CodeImported, domain);
      && t == (if r.ActiveImport() then r.(flags := r.flags.(codeImported := true)) else r)
      && (Withdrawn(t, Event.CodeImported) <==>
            r.ActiveImport() && r.flags.finished && !r.flags.compiling && !r.explicitCompile)
  {
  }

  class EditorOperations {
    const session: Session
    const domain: Guid
    var receipts: seq<Receipt>
    var pendingState: Option<Activity>

    /** Between callbacks the stored list is the list, and the pending state is computed from it. */
    ghost predicate Valid()
      reads this, session
    {
      Wellformed(receipts) && Restored(session.stored) == receipts && pendingState == Busy(receipts)
    }

    constructor (session: Session, domain: Guid)
      requires Wellformed(Restored(session.stored))
      ensures Valid() && this.session == session && this.domain == domain
      ensures receipts == Restored(session.stored)
    {
      this.session, this.domain := session, domain;
      receipts := match session.stored case Some(rs) => rs case None => [];
      new;
      UpdatePendingState();
    }

    method UpdatePendingState()
      modifies this`pendingState
      ensures pendingState == Busy(receipts)
    {
      var i := 0;
      while i < |receipts| && receipts[i].Completed()
        invariant i <= |receipts| && Busy(receipts) == Busy(receipts[i..])
      {
        i := i + 1;
      }
      if i == |receipts| {
        pendingState := None;
      } else {
        pendingState := Some(ActivityOf(receipts[i]));
      }
    }

    method Save()
      modifies this`pendingState, session
      ensures session.stored == Some(receipts) && pendingState == Busy(receipts)
    {
      UpdatePendingState();
      session.stored := Some(receipts);
    }

    method CompilationStarted()
      requires Valid()
      modifies this, session
      ensures Valid() && receipts == After(old(receipts), Event.CompilationStarted, domain)
    {
      var e := Event.CompilationStarted;
      MidwayStart(receipts, e, domain);
      hide Wellformed, Midway, Pass, Busy;
      var i := 0;
      while i < |receipts|
        invariant i <= |receipts| == |old(receipts)| && Midway(old(receipts), receipts, i, i, e, domain)
      {
        var item := receipts[i];
        MidwayStep(old(receipts), receipts, i, i, e, domain);
        if item.ActiveImport() {
          var flags := item.flags.(compiling := true, compiled := false, compileFailed := false, reload := false);
          receipts := receipts[i := item.(flags := flags)];
        }
        i := i + 1;
      }
      MidwayEnd(old(receipts), receipts, i, e, domain);
      PassKeepsWellformed(old(receipts), e, domain);
      Save();
    }

    method AssemblyFinished(error: bool)
      requires Valid()
      modifies this, session
      ensures Valid() && receipts == After(old(receipts), Event.AssemblyFinished(error), domain)
    {
      var e := Event.AssemblyFinished(error);
      MidwayStart(receipts, e, domain);
      hide Wellformed, Midway, Pass, Busy;
      var i := 0;
      while i < |receipts|
        invariant i <= |receipts| == |old(receipts)| && Midway(old(receipts), receipts, i, i, e, domain)
      {
        var item := receipts[i];
        MidwayStep(old(receipts), receipts, i, i, e, domain);
        if item.ActiveImport() && item.flags.compiling {
          if error {
            receipts := receipts[i := item.(flags := item.flags.(compileFailed := true))];
          } else {
            receipts := receipts[i := item.(flags := item.flags.(reload := true))];
          }
        }
        i := i + 1;
      }
      MidwayEnd(old(receipts), receipts, i, e, domain);
      PassKeepsWellformed(old(receipts), e, domain);
      Save();
    }

    method CompilationFinished(failed: bool)
      requires Valid()
      modifies this, session
      ensures Valid() && receipts == After(old(receipts), Event.CompilationFinished(failed), domain)
    {
      var e := Event.CompilationFinished(failed);
      MidwayStart(receipts, e, domain);
      hide Wellformed, Midway, Pass, Busy;
      var i := 0;
      while i < |receipts|
        invariant i <= |receipts| == |old(receipts)| && Midway(old(receipts), receipts, i, i, e, domain)
      {
        var item := receipts[i];
        MidwayStep(old(receipts), receipts, i, i, e, domain);
        if item.ActiveImport() && item.flags.compiling {
          var flags := item.flags.(compiled := true);
          if flags.compileFailed || failed { flags := flags.(reload := false); }
          receipts := receipts[i := item.(flags := flags)];
        }
        i := i + 1;
      }
      MidwayEnd(old(receipts), receipts, i, e, domain);
      PassKeepsWellformed(old(receipts), e, domain);
      Save();
    }

    /** The end of a domain reload. */
    method AfterAssemblyReload()
      requires Valid()
      modifies this, session
      ensures Valid() && receipts == After(old(receipts), ReloadFinished, domain)
    {
      var e := ReloadFinished;
      MidwayStart(receipts, e, domain);
      hide Wellformed, Midway, Pass, Busy;
      var i := 0;
      while i < |receipts|
        invariant i <= |receipts| == |old(receipts)| && Midway(old(receipts), receipts, i, i, e, domain)
      {
        var item := receipts[i];
        MidwayStep(old(receipts), receipts, i, i, e, domain);
        if item.ActiveImport() && item.domain != domain {
          receipts := receipts[i := item.(flags := item.flags.(finished := true, compiled := true))];
        }
        i := i + 1;
      }
      MidwayEnd(old(receipts), receipts, i, e, domain);
      PassKeepsWellformed(old(receipts), e, domain);
      Save();
    }

    /** Confirms or cancels every unfinished play mode operation the change decides. */
    method DecideAll(mode: PlayMode) returns (cancelled: bool)
      modifies this`receipts
      ensures receipts == Pass(old(receipts), PlayModeChanged(mode), domain)
      ensures cancelled <==> exists r :: r in old(receipts) && !r.Completed() && Cancels(r, mode)
    {
      var e := PlayModeChanged(mode);
      ghost var was := receipts;
      MidwayStart(was, e, domain);
      hide Wellformed, Midway, Pass, Touched, Withdrawn, Confirms, Cancels;
      cancelled := false;
      var i := 0;
      while i < |receipts|
        invariant i <= |receipts| == |was| && Midway(was, receipts, i, i, e, domain)
        invariant cancelled <==> exists k :: 0 <= k < i && !was[k].Completed() && Cancels(was[k], mode)
      {
        var item := receipts[i];
        MidwayStep(was, receipts, i, i, e, domain);
        PlayTouches(item, mode, domain);
        if !item.Completed() {
          if Confirms(item, mode) {
            receipts := receipts[i := item.(flags := item.flags.(playEvent := true))];
          } else if Cancels(item, mode) {
            receipts := receipts[i := item.(flags := item.flags.(completed := true, cancelled := true))];
            cancelled := true;
          }
        }
        i := i + 1;
      }
      MidwayEnd(was, receipts, i, e, domain);
    }

    /** The heartbeat is published when the last unfinished operation was just cancelled. */
    method PlayModeStateChanged(mode: PlayMode) returns (published: bool)
      requires Valid()
      modifies this, session
      ensures Valid() && receipts == After(old(receipts), PlayModeChanged(mode), domain)
      ensures published <==>
        (exists r :: r in old(receipts) && !r.Completed() && Cancels(r, mode)) && forall r | r in receipts :: r.Completed()
    {
      PassKeepsWellformed(receipts, PlayModeChanged(mode), domain);
      var cancelled := DecideAll(mode);
      Save();
      published := cancelled && pendingState.None?;
    }

    /** None stands for the exception: all of a full list are unfinished. */
    method Begin(kind: Kind, explicitCompile: bool, newId: Guid) returns (id: Option<Guid>)
      requires Valid() && forall r | r in receipts :: r.id != newId
      modifies this, session
      ensures Valid() && receipts == After(old(receipts), Begun(newId, kind, explicitCompile), domain)
      ensures id == None <==> |old(receipts)| == CAPACITY && forall r | r in old(receipts) :: !r.Completed()
      ensures id.Some? ==> id.value == newId
    {
      RoomIsMadeOfCompleted(receipts);
      AfterKeepsWellformed(receipts, Begun(newId, kind, explicitCompile), domain);
      while |receipts| >= CAPACITY
        invariant Roomy(receipts) == Roomy(old(receipts))
        invariant receipts == old(receipts) || |receipts| < CAPACITY
        invariant session.stored == old(session.stored) && pendingState == old(pendingState)
      {
        var completed := 0;
        while completed < |receipts| && !receipts[completed].Completed()
          invariant completed <= |receipts| && forall k | 0 <= k < completed :: !receipts[k].Completed()
        {
          completed := completed + 1;
        }
        assert completed == FirstCompleted(receipts);
        if completed == |receipts| { return None; }
        receipts := receipts[..completed] + receipts[completed + 1..];
      }
      receipts := receipts + [NewReceipt(newId, kind, domain, explicitCompile)];
      Save();
      id := Some(newId);
    }

    method IndexOf(id: Guid) returns (i: nat)
      ensures i == OperationSpec.Find(receipts, id)
    {
      i := 0;
      while i < |receipts| && receipts[i].id != id
        invariant i <= |receipts| && forall k | 0 <= k < i :: receipts[k].id != id
      {
        i := i + 1;
      }
    }

    /** The id is returned when the caller may wait for its confirmation. */
    method FinishSynchronous(id: Guid) returns (confirmable: Option<Guid>)
      requires Valid()
      modifies this, session
      ensures Valid() && receipts == After(old(receipts), FinishedSynchronously(id), domain)
      ensures confirmable.Some? ==> confirmable.value == id && Observe(receipts, id) != Unknown
      ensures confirmable.None? ==> Observe(receipts, id) in {Unknown, Completed, Cancelled}
    {
      var e := FinishedSynchronously(id);
      var i := IndexOf(id);
      if i == |receipts| {
        PassLeaves(receipts, e, domain);
        return None;
      }
      var item := receipts[i].(flags := receipts[i].flags.(finished := true));
      FinishesOne(receipts, i, domain);
      receipts := receipts[i := item];
      LookupIs(receipts, item);
      if Doubtful(item) {
        AbandonSpares(receipts, item, domain);
        LookupPass(receipts, Abandoned(id), domain, id);
        Abandon(id);
        return None;
      }
      Save();
      confirmable := Some(id);
    }

    method Abandon(id: Guid)
      requires Wellformed(receipts)
      modifies this, session
      ensures Valid() && receipts == After(old(receipts), Abandoned(id), domain)
    {
      var e := Abandoned(id);
      MidwayStart(receipts, e, domain);
      hide Wellformed, Midway, Pass, Busy;
      var i := 0;
      ghost var done := 0;
      while i < |receipts|
        invariant 0 <= |receipts| - i == |old(receipts)| - done && Midway(old(receipts), receipts, done, i, e, domain)
        decreases |receipts| - i
      {
        MidwayStep(old(receipts), receipts, done, i, e, domain);
        if receipts[i].id == id && !receipts[i].Completed() {
          receipts := receipts[..i] + receipts[i + 1..];
        } else {
          i := i + 1;
        }
        done := done + 1;
      }
      MidwayEnd(old(receipts), receipts, i, e, domain);
      PassKeepsWellformed(old(receipts), e, domain);
      Save();
    }

    /** Marks every active import, and withdraws those an unannounced reload may overtake. */
    method MarkImports()
      modifies this`receipts
      ensures receipts == Pass(old(receipts), Event.CodeImported, domain)
    {
      var e := Event.CodeImported;
      ghost var was := receipts;
      MidwayStart(was, e, domain);
      hide Wellformed, Midway, Pass, Touched, Withdrawn;
      var i := 0;
      ghost var done := 0;
      while i < |receipts|
        invariant 0 <= |receipts| - i == |was| - done && Midway(was, receipts, done, i, e, domain)
        decreases |receipts| - i
      {
        var item := receipts[i];
        MidwayStep(was, receipts, done, i, e, domain);
        ImportTouches(item, domain);
        if !item.ActiveImport() {
          i := i + 1;
        } else if item.flags.finished && !item.flags.compiling && !item.explicitCompile {
          receipts := receipts[..i] + receipts[i + 1..];
        } else {
          receipts := receipts[i := item.(flags := item.flags.(codeImported := true))];
          i := i + 1;
        }
        done := done + 1;
      }
      MidwayEnd(was, receipts, i, e, domain);
    }

    method CodeImported()
      requires Valid()
      modifies this, session
      ensures Valid() && receipts == After(old(receipts), Event.CodeImported, domain)
    {
      var active := 0;
      while active < |receipts| && !receipts[active].ActiveImport()
        invariant active <= |receipts| && forall k | 0 <= k < active :: !receipts[k].ActiveImport()
      {
        active := active + 1;
      }
      PassKeepsWellformed(receipts, Event.CodeImported, domain);
      if active == |receipts| {
        forall r | r in receipts { ImportTouches(r, domain); }
        PassLeaves(receipts, Event.CodeImported, domain);
        return;
      }
      MarkImports();
      Save();
    }

    /** Confirms every unfinished operation the idle Editor has settled. */
    method ConfirmAll() returns (changed: bool)
      modifies this`receipts
      ensures receipts == Pass(old(receipts), Ticked(false), domain)
      ensures changed <==> receipts != old(receipts)
    {
      var e := Ticked(false);
      ghost var was := receipts;
      MidwayStart(was, e, domain);
      hide Wellformed, Midway, Pass, Touched, Withdrawn, Confirmed;
      changed := false;
      var i := 0;
      while i < |receipts|
        invariant i <= |receipts| == |was| && Midway(was, receipts, i, i, e, domain)
        invariant changed <==> receipts != was
      {
        var item := receipts[i];
        MidwayStep(was, receipts, i, i, e, domain);
        TickTouches(item, domain);
        if !item.Completed() {
          var newDomain := item.domain != domain;
          if (if item.Import() then item.flags.finished && !(item.explicitCompile && !item.flags.compiled)
                                    && !(item.flags.compiling && !item.flags.compiled) && !(item.flags.reload && !newDomain)
              else item.flags.playEvent) {
            receipts := receipts[i := item.(flags := item.flags.(completed := true))];
            assert receipts[i] != was[i];
            changed := true;
          }
        }
        i := i + 1;
      }
      MidwayEnd(was, receipts, i, e, domain);
    }

    /** The heartbeat is published when this tick confirmed the last unfinished operation. */
    method Tick(isCompiling: bool, isUpdating: bool) returns (published: bool)
      requires Valid()
      modifies this, session
      ensures Valid() && receipts == After(old(receipts), Ticked(isCompiling || isUpdating), domain)
      ensures published <==> receipts != old(receipts) && forall r | r in receipts :: r.Completed()
    {
      PassKeepsWellformed(receipts, Ticked(isCompiling || isUpdating), domain);
      if pendingState.None? || isCompiling || isUpdating {
        PassLeaves(receipts, Ticked(isCompiling || isUpdating), domain);
        return false;
      }
      var changed := ConfirmAll();
      if !changed { return false; }
      Save();
      published := pendingState.None?;
    }

    /** What a state query reports of one operation; nothing when no id is given. */
    method Snapshot(id: Option<Guid>) returns (state: Option<Observed>)
      ensures state == if id.None? then None else Some(Observe(receipts, id.value))
    {
      if id.None? { return None; }
      var i := IndexOf(id.value);
      if i == |receipts| { return Some(Unknown); }
      var item := receipts[i];
      state := Some(if item.flags.cancelled then Cancelled else if item.flags.completed then Completed else Pending);
    }
  }
}
