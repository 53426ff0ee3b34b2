/** Receipts for what the Editor was asked to do, and what every Editor event does to them. */
module OperationSpec {
  import opened Wrappers

  const CAPACITY := 64

  /** A GUID: all that matters is which of them are equal. */
  type Guid = nat

  datatype Kind = Refresh | Reserialize | Play | Stop

  datatype PlayMode = EnteredEditMode | ExitingEditMode | EnteredPlayMode | ExitingPlayMode

  datatype Flags = Flags(finished: bool, compiling: bool, compiled: bool, compileFailed: bool, reload: bool,
                         codeImported: bool, playEvent: bool, completed: bool, cancelled: bool)

  const NO_FLAGS := Flags(false, false, false, false, false, false, false, false, false)

  datatype Receipt = Receipt(id: Guid, kind: Kind, domain: Guid, explicitCompile: bool, flags: Flags) {
    predicate Import() { kind.Refresh? || kind.Reserialize? }
    predicate Completed() { flags.completed }
    predicate ActiveImport() { !flags.completed && Import() }
  }

  function NewReceipt(id: Guid, kind: Kind, domain: Guid, explicitCompile: bool): Receipt {
    Receipt(id, kind, domain, explicitCompile, NO_FLAGS)
  }

  datatype Event =
    | CompilationStarted
    | AssemblyFinished(error: bool)
    | CompilationFinished(failed: bool)
    | ReloadFinished
    | PlayModeChanged(mode: PlayMode)
    | Begun(id: Guid, kind: Kind, explicitCompile: bool)
    | FinishedSynchronously(id: Guid)
    | Abandoned(id: Guid)
    | CodeImported
    | Ticked(busy: bool)
    | Loaded(domain: Guid, readable: bool)

  // ---- One receipt ------------------------------------------------------------------

  /** What confirms an operation once the Editor is idle in `domain`. */
  predicate Confirmed(r: Receipt, domain: Guid) {
    if !r.Import() then r.flags.playEvent
    else r.flags.finished && (r.explicitCompile ==> r.flags.compiled) && (r.flags.compiling ==> r.flags.compiled)
         && (r.flags.reload ==> r.domain != domain)
  }

  predicate Confirms(r: Receipt, mode: PlayMode) {
    (r.kind.Play? && mode.EnteredPlayMode?) || (r.kind.Stop? && mode.EnteredEditMode?)
  }

  predicate Cancels(r: Receipt, mode: PlayMode) {
    (r.kind.Play? && mode.EnteredEditMode?) || (r.kind.Stop? && mode.EnteredPlayMode?)
  }

  function Marked(r: Receipt, e: Event, domain: Guid): Flags {
    var f := r.flags;
    match e
    case CompilationStarted =>
      if r.ActiveImport() then f.(compiling := true, compiled := false, compileFailed := false, reload := false) else f
    case AssemblyFinished(error) =>
      if !r.ActiveImport() || !f.compiling then f
      else if error then f.(compileFailed := true) else f.(reload := true)
    case CompilationFinished(failed) =>
      if !r.ActiveImport() || !f.compiling then f
      else f.(compiled := true, reload := f.reload && !f.compileFailed && !failed)
    case ReloadFinished => if r.ActiveImport() && r.domain != domain then f.(finished := true, compiled := true) else f
    case PlayModeChanged(mode) =>
      if f.completed then f
      else if Confirms(r, mode) then f.(playEvent := true)
      else if Cancels(r, mode) then f.(completed := true, cancelled := true)
      else f
    case FinishedSynchronously(id) => if r.id == id then f.(finished := true) else f
    case CodeImported => if r.ActiveImport() then f.(codeImported := true) else f
    case Ticked(busy) => if !busy && !f.completed && Confirmed(r, domain) then f.(completed := true) else f
    case _ => f
  }

  function Touched(r: Receipt, e: Event, domain: Guid): Receipt { r.(flags := Marked(r, e, domain)) }

  /** Code came in, no compilation was seen and none was asked for: a reload may follow unannounced. */
  predicate Doubtful(r: Receipt) { r.flags.codeImported && !r.flags.compiling && !r.explicitCompile }

  /** The receipts an event takes back, read after `Touched`. */
  predicate Withdrawn(r: Receipt, e: Event) {
    match e
    case FinishedSynchronously(id) => r.id == id && !r.Completed() && Doubtful(r)
    case CodeImported => r.ActiveImport() && r.flags.finished && Doubtful(r)
    case Abandoned(id) => r.id == id && !r.Completed()
    case _ => false
  }

  // ---- The list ---------------------------------------------------------------------

  function Pass(rs: seq<Receipt>, e: Event, domain: Guid): seq<Receipt> {
    if rs == [] then []
    else
      var r := Touched(rs[|rs| - 1], e, domain);
      Pass(rs[..|rs| - 1], e, domain) + if Withdrawn(r, e) then [] else [r]
  }

  function FirstCompleted(rs: seq<Receipt>): (i: nat)
    ensures i <= |rs|
    ensures i < |rs| ==> rs[i].Completed()
    ensures forall k | 0 <= k < i :: !rs[k].Completed()
  {
    if rs == [] || rs[0].Completed() then 0 else 1 + FirstCompleted(rs[1..])
  }

  /** The receipts with room for one more; none when all of a full list are unfinished. */
  function Roomy(rs: seq<Receipt>): Option<seq<Receipt>> {
    if |rs| < CAPACITY then Some(rs)
    else
      var i := FirstCompleted(rs);
      if i == |rs| then None else Roomy(rs[..i] + rs[i + 1..])
  }

  function Restored(stored: Option<seq<Receipt>>): seq<Receipt> {
    match stored case Some(rs) => rs case None => []
  }

  function After(rs: seq<Receipt>, e: Event, domain: Guid): seq<Receipt> {
    match e
    case Begun(id, kind, explicitCompile) =>
      (match Roomy(rs)
       case Some(room) => room + [NewReceipt(id, kind, domain, explicitCompile)]
       case None => rs)
    case Loaded(_, readable) => if readable then rs else []
    case _ => Pass(rs, e, domain)
  }

  // ---- What can be seen -------------------------------------------------------------

  datatype Observed = Pending | Completed | Cancelled | Unknown

  function StateOf(r: Receipt): Observed {
    if r.flags.cancelled then Cancelled else if r.flags.completed then Completed else Pending
  }

  function Find(rs: seq<Receipt>, id: Guid): (i: nat)
    ensures i <= |rs|
    ensures i < |rs| ==> rs[i].id == id
    ensures forall k | 0 <= k < i :: rs[k].id != id
  {
    if rs == [] || rs[0].id == id then 0 else 1 + Find(rs[1..], id)
  }

  function Lookup(rs: seq<Receipt>, id: Guid): Option<Receipt> {
    var i := Find(rs, id);
    if i == |rs| then None else Some(rs[i])
  }

  function Observe(rs: seq<Receipt>, id: Guid): Observed {
    match Lookup(rs, id) case Some(r) => StateOf(r) case None => Unknown
  }

  datatype Activity = EnteringPlay | LeavingPlay | Compiling | Refreshing

  function ActivityOf(r: Receipt): Activity {
    if r.kind.Play? then EnteringPlay
    else if r.kind.Stop? then LeavingPlay
    else if r.explicitCompile || r.flags.compiling then Compiling
    else Refreshing
  }

  /** What the first unfinished operation keeps the Editor busy with. */
  function Busy(rs: seq<Receipt>): (activity: Option<Activity>)
    ensures activity.None? <==> forall r | r in rs :: r.Completed()
  {
    if rs == [] then None
    else if !rs[0].Completed() then Some(ActivityOf(rs[0]))
    else
      assert rs == [rs[0]] + rs[1..];
      Busy(rs[1..])
  }

  // ---- What every event keeps -------------------------------------------------------

  ghost predicate Wellformed(rs: seq<Receipt>) {
    && |rs| <= CAPACITY
    && (forall i, k | 0 <= i < k < |rs| :: rs[i].id != rs[k].id)
    && (forall r | r in rs :: r.flags.cancelled ==> r.flags.completed)
  }
}
