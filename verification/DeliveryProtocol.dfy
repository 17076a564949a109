/**
 The delivery protocol as a transition system.

 Any number of callers run `advance` at once.  Every transaction is one step and every call to the remote is one step;
 between any two steps other callers, control changes, crashes and the rest of the world may act.
 What the remote answers is up to the environment; what a push does to a ref is a compare-and-set.
 */
module DeliveryProtocol {
  import opened Common
  import opened DeliveryModel

  /** Where a caller of `advance` stands, with the local data it carries. */
  datatype Pc =
    | Reading(id: Id)
    | Verifying(snapshot: Snapshot)
    | Gating(snapshot: Snapshot)
    | Validating(snapshot: Snapshot)
    | OpeningPush(snapshot: Snapshot)
    | SendingPush(snapshot: Snapshot, op: Id)
    | RecordingPush(snapshot: Snapshot, op: Id, refs: Option<Refs>)
    | InspectingPush(snapshot: Snapshot, op: Id)
    | SettlingPush(snapshot: Snapshot, op: Id, seen: Refs)
    | LookingUp(snapshot: Snapshot)
    | ReadingClaim(snapshot: Snapshot, found: Option<PullRequest>)
    | OpeningPublish(snapshot: Snapshot, existing: Option<Id>)
    | SendingPublish(snapshot: Snapshot, op: Id, existing: Option<Id>)
    | ReconcilingPr(snapshot: Snapshot, op: Id)
    | CheckingPr(snapshot: Snapshot, op: Id, known: bool, pr: PullRequest)
    | ConfirmingPr(snapshot: Snapshot, op: Id, pr: PullRequest, verification: Option<Reason>, refs: Option<Refs>, remote: Option<Reason>)
    | MarkingUnknown(snapshot: Snapshot)
    | Blocking(snapshot: Snapshot, reason: Reason)

  /** The calls that change the world outside. */
  datatype Effect = PushCall(id: Id, landed: bool) | PublishCall(id: Id)

  datatype Branch = Branch(repository: Id, name: Id)

  datatype World = World(db: Db, callers: map<nat, Pc>, refs: map<Branch, Sha>, effects: seq<Effect>)

  const Start := World(EmptyDb, map[], map[], [])

  /** Everything the environment decides in one step of a caller. */
  datatype Answer = Answer(
    uuid: Id, local: bool, refusal: Option<Reason>, refs: Option<Refs>, landed: bool, raised: bool,
    matches: Option<seq<PullRequest>>, pr: Option<PullRequest>)

  datatype Event =
    | PlanEvent(key: Id, request: Request, id: Id)
    | ControlEvent(key: Id, run: Id, control: Control)
    | Call(caller: nat, id: Id)
    | Move(caller: nat, answer: Answer)
    | Crash(caller: nat)
    | MoveRef(branch: Branch, sha: Option<Sha>)

  function Go(w: World, caller: nat, pc: Pc): World {
    w.(callers := w.callers[caller := pc])
  }

  function Done(w: World, caller: nat): World {
    w.(callers := w.callers - {caller})
  }

  function FirstPending(operations: seq<Operation>): Option<Operation> {
    if operations == [] then None
    else if operations[0].state == SendUnknown then Some(operations[0])
    else FirstPending(operations[1..])
  }

  predicate PushConfirmed(operations: seq<Operation>) {
    exists i :: 0 <= i < |operations| && operations[i].kind == Push && operations[i].state == Confirmed
  }

  function BranchOf(request: Request): Branch {
    Branch(request.repository, request.branch)
  }

  function RefOf(w: World, request: Request): Option<Sha> {
    if BranchOf(request) in w.refs then Some(w.refs[BranchOf(request)]) else None
  }

  /** A push with a lease moves the ref from the expected commit to the bound one, or not at all. */
  predicate CanLand(w: World, request: Request) {
    RefOf(w, request) == request.expectedOld
  }

  /** Why a look at the remote forbids going on. */
  function RefsReason(request: Request, refs: Refs): Option<Reason> {
    if refs.head != Some(request.commit) then Some(RemoteHeadChanged)
    else if refs.base != Some(request.testedBase) then Some(TestedBaseChanged)
    else None
  }

  function PublishIndex(operations: seq<Operation>): Option<Operation> {
    if operations == [] then None
    else if operations[0].kind == Publish then Some(operations[0])
    else PublishIndex(operations[1..])
  }

  // ---------------------------------------------------------------- one step of a caller

  function StepRead(w: World, caller: nat, id: Id, a: Answer): World {
    if id !in w.db.deliveries then Done(w, caller)
    else
      var snapshot := w.db.deliveries[id];
      var pending := FirstPending(snapshot.operations);
      if pending.None? then Go(w, caller, Verifying(snapshot))
      else if !a.local then Go(w, caller, Blocking(snapshot, QualificationNotRun))
      else if pending.value.kind == Publish then Go(w, caller, ReconcilingPr(snapshot, pending.value.id))
      else Go(w, caller, InspectingPush(snapshot, pending.value.id))
  }

  function StepGate(w: World, caller: nat, snapshot: Snapshot): World
    requires snapshot.id in w.db.deliveries
  {
    var (db, open) := GateCall(w.db, snapshot);
    if !open then Done(w.(db := db), caller)
    else if PushConfirmed(snapshot.operations) then Go(w, caller, LookingUp(snapshot))
    else Go(w, caller, Validating(snapshot))
  }

  function StepOpenPush(w: World, caller: nat, snapshot: Snapshot, a: Answer): World
    requires snapshot.id in w.db.deliveries
  {
    var (db, mine) := OpenPush(w.db, snapshot, a.uuid);
    if mine then Go(w.(db := db), caller, SendingPush(snapshot, a.uuid)) else Done(w.(db := db), caller)
  }

  /** The push itself: it may land or not, and answer, stay silent, or raise. */
  function StepSendPush(w: World, caller: nat, snapshot: Snapshot, op: Id, a: Answer): World {
    var request := snapshot.request;
    var landed := a.landed && !a.raised && CanLand(w, request);
    var sent := w.(
      refs := if landed then w.refs[BranchOf(request) := request.commit] else w.refs,
      effects := w.effects + [PushCall(snapshot.id, landed)]);
    if a.raised then Done(sent, caller)
    else Go(sent, caller, RecordingPush(snapshot, op, if landed then a.refs else None))
  }

  function StepLookUp(w: World, caller: nat, snapshot: Snapshot, a: Answer): World {
    if a.refs.None? || a.matches.None? then Go(w, caller, Blocking(snapshot, RemoteObservationUnknown))
    else
      var reason := RefsReason(snapshot.request, a.refs.value);
      var matches := a.matches.value;
      if reason.Some? then Go(w, caller, Blocking(snapshot, reason.value))
      else if |matches| > 1 || (|matches| == 1 && !PrIdentity(snapshot.request, matches[0])) then
        Go(w, caller, Blocking(snapshot, PrIdentityConflict))
      else Go(w, caller, ReadingClaim(snapshot, if matches == [] then None else Some(matches[0])))
  }

  function StepReadClaim(w: World, caller: nat, snapshot: Snapshot, found: Option<PullRequest>): World {
    var run := snapshot.request.run;
    var previous := PublishIndex(snapshot.operations);
    if run in w.db.claims && (found.None? || found.value.id != w.db.claims[run].pr) then
      Go(w, caller, Blocking(snapshot, PrIdentityConflict))
    else if snapshot.pr.None? then Go(w, caller, OpeningPublish(snapshot, if found.Some? then Some(found.value.id) else None))
    else if found.None? || found.value.id != snapshot.pr.value.id then Go(w, caller, Blocking(snapshot, PrIdentityConflict))
    else if previous.None? then Done(w, caller)
    else Go(w, caller, CheckingPr(snapshot, previous.value.id, previous.value.state == Confirmed, found.value))
  }

  /** A generated identity that is already in use never occurs. */
  function StepOpenPublish(w: World, caller: nat, snapshot: Snapshot, existing: Option<Id>, a: Answer): World
    requires snapshot.id in w.db.deliveries
  {
    var (db, mine) := OpenPublish(w.db, snapshot, a.uuid, existing);
    if IndexOf(w.db.deliveries[snapshot.id].operations, a.uuid).Some? then w
    else if mine then Go(w.(db := db), caller, SendingPublish(snapshot, a.uuid, existing)) else Done(w.(db := db), caller)
  }

  function StepSendPublish(w: World, caller: nat, snapshot: Snapshot, op: Id, a: Answer): World {
    var sent := w.(effects := w.effects + [PublishCall(snapshot.id)]);
    if a.raised then Done(sent, caller)
    else if a.pr.None? then Go(sent, caller, MarkingUnknown(snapshot))
    else Go(sent, caller, CheckingPr(snapshot, op, false, a.pr.value))
  }

  function StepReconcile(w: World, caller: nat, snapshot: Snapshot, op: Id, a: Answer): World {
    if a.refs.None? || a.matches.None? then Done(w, caller)
    else
      var reason := RefsReason(snapshot.request, a.refs.value);
      if reason.Some? then Go(w, caller, Blocking(snapshot, reason.value))
      else if |a.matches.value| != 1 then Go(w, caller, MarkingUnknown(snapshot))
      else Go(w, caller, CheckingPr(snapshot, op, false, a.matches.value[0]))
  }

  function StepCheckPr(w: World, caller: nat, snapshot: Snapshot, op: Id, known: bool, pr: PullRequest, a: Answer): World {
    if !PrIdentity(snapshot.request, pr) || pr.head != snapshot.request.commit then
      Go(w, caller, if known then Blocking(snapshot, PrObservationChanged) else MarkingUnknown(snapshot))
    else
      var remote := if a.refs.None? then Some(RemoteObservationUnknown) else RefsReason(snapshot.request, a.refs.value);
      Go(w, caller, ConfirmingPr(snapshot, op, pr, a.refusal, a.refs, remote))
  }

  /** The position of an operation among those stored now. */
  function Position(w: World, id: Id, op: Id): Option<nat> {
    if id in w.db.deliveries then IndexOf(w.db.deliveries[id].operations, op) else None
  }

  /** A lost operation would be an unhandled exception: the call ends. */
  function StepRecordPush(w: World, caller: nat, snapshot: Snapshot, op: Id, refs: Option<Refs>): World {
    var i := Position(w, snapshot.id, op);
    if i.None? || i.value >= |w.db.deliveries[snapshot.id].operations| then Done(w, caller)
    else Done(w.(db := RecordPush(w.db, snapshot.id, i.value, refs)), caller)
  }

  function StepSettlePush(w: World, caller: nat, snapshot: Snapshot, op: Id, refs: Refs): World {
    var i := Position(w, snapshot.id, op);
    if i.None? || i.value >= |w.db.deliveries[snapshot.id].operations| then Done(w, caller)
    else Done(w.(db := ReconcilePush(w.db, snapshot.id, i.value, refs)), caller)
  }

  function StepConfirmPr(w: World, caller: nat, pc: Pc): World
    requires pc.ConfirmingPr?
  {
    var i := Position(w, pc.snapshot.id, pc.op);
    if i.None? || i.value >= |w.db.deliveries[pc.snapshot.id].operations| then Done(w, caller)
    else
      Done(w.(db := ConfirmPr(w.db, pc.snapshot.request, pc.snapshot.id, i.value, pc.pr, pc.verification, pc.refs, pc.remote)), caller)
  }

  function StepCaller(w: World, caller: nat, pc: Pc, a: Answer): World {
    if !pc.Reading? && pc.snapshot.id !in w.db.deliveries then Done(w, caller)
    else
      match pc
      case Reading(id) => StepRead(w, caller, id, a)
      case Verifying(s) => Go(w, caller, if a.refusal.Some? then Blocking(s, a.refusal.value) else Gating(s))
      case Gating(s) => StepGate(w, caller, s)
      case Validating(s) => Go(w, caller, if a.refusal.Some? then Blocking(s, a.refusal.value) else OpeningPush(s))
      case OpeningPush(s) => StepOpenPush(w, caller, s, a)
      case SendingPush(s, op) => StepSendPush(w, caller, s, op, a)
      case RecordingPush(s, op, refs) => StepRecordPush(w, caller, s, op, refs)
      case InspectingPush(s, op) => if a.refs.None? then Done(w, caller) else Go(w, caller, SettlingPush(s, op, a.refs.value))
      case SettlingPush(s, op, refs) => StepSettlePush(w, caller, s, op, refs)
      case LookingUp(s) => StepLookUp(w, caller, s, a)
      case ReadingClaim(s, found) => StepReadClaim(w, caller, s, found)
      case OpeningPublish(s, existing) => StepOpenPublish(w, caller, s, existing, a)
      case SendingPublish(s, op, existing) => StepSendPublish(w, caller, s, op, a)
      case ReconcilingPr(s, op) => StepReconcile(w, caller, s, op, a)
      case CheckingPr(s, op, known, pr) => StepCheckPr(w, caller, s, op, known, pr, a)
      case ConfirmingPr(_, _, _, _, _, _) => StepConfirmPr(w, caller, pc)
      case MarkingUnknown(s) => Done(w.(db := MarkUnknown(w.db, s.id)), caller)
      case Blocking(s, reason) => Done(w.(db := BlockUnchanged(w.db, s, reason)), caller)
  }

  function Next(w: World, e: Event): World {
    match e
    case PlanEvent(key, request, id) =>
      var r := Plan(w.db, key, request, id);
      if r.Ok? then w.(db := r.value) else w
    case ControlEvent(key, run, control) =>
      var r := SetControl(w.db, key, run, control);
      if r.Ok? then w.(db := r.value) else w
    case Call(caller, id) => if caller in w.callers then w else Go(w, caller, Reading(id))
    case Move(caller, answer) => if caller in w.callers then StepCaller(w, caller, w.callers[caller], answer) else w
    case Crash(caller) => Done(w, caller)
    case MoveRef(branch, sha) => w.(refs := if sha.Some? then w.refs[branch := sha.value] else w.refs - {branch})
  }

  function Run(w: World, events: seq<Event>): World {
    if events == [] then w else Next(Run(w, events[..|events| - 1]), events[|events| - 1])
  }
}
