/**
 The delivery coordinator: its tables, and each of its transactions as one atomic step over them.

 The frozen binding of a delivery is its whole request; digests are compared by what they digest.
 */
module DeliveryModel {
  import opened Common

  type Id = string
  type Sha = string

  datatype Request = Request(
    run: Id, revision: nat, repository: Id, branch: Id, base: Id, testedBase: Sha, tree: Sha, commit: Sha,
    evidence: Id, expectedOld: Option<Sha>, requireCi: bool)

  datatype Control = Active | Paused | Cancelled | Revoked

  datatype Reason =
    | ControlUnknown | ControlIs(control: Control) | RevisionSuperseded | PreviousUnresolved
    | QualificationNotRun | ReceiptUnavailable | BindingNotAllowed
    | RemoteObservationUnknown | RemoteHeadChanged | TestedBaseChanged | RemoteError(code: Id)
    | PrIdentityConflict | PrObservationChanged | RemoteResultUnknown

  /** What a look at the remote showed of the managed and the base branch. */
  datatype Refs = Refs(head: Option<Sha>, base: Option<Sha>)

  datatype CiStatus = Success | NotSuccess(status: Id)
  datatype PullRequest = PullRequest(
    id: Id, repository: Id, branch: Id, base: Id, run: Id, head: Sha, merged: bool, ciSha: Option<Sha>, ciStatus: CiStatus)

  datatype Kind = Push | Publish
  datatype Sent = SendUnknown | Confirmed
  datatype Seen = NothingSeen | SeenRefs(refs: Refs) | SeenPr(pr: PullRequest)
  datatype Operation = Operation(id: Id, kind: Kind, state: Sent, seen: Seen, expectedPr: Option<Id>)

  datatype State = Planned | Pushing | Pushed | Publishing | Reconciling | Blocked | AwaitingCi | Delivered

  /** The stored snapshot of one delivery revision; CI and merge status are those of `pr`. */
  datatype Snapshot = Snapshot(
    id: Id, request: Request, state: State, control: Control, reason: Option<Reason>, operations: seq<Operation>,
    remote: Option<Refs>, pr: Option<PullRequest>, satisfied: bool)

  datatype Target = Target(repository: Id, branch: Id, base: Id)
  datatype Claim = Claim(repository: Id, pr: Id)
  datatype Command = PlanCommand(request: Request) | ControlCommand(run: Id, control: Control)

  datatype Db = Db(
    deliveries: map<Id, Snapshot>, controls: map<Id, Control>, targets: map<Id, Target>, claims: map<Id, Claim>,
    commands: map<Id, Command>)

  const EmptyDb := Db(map[], map[], map[], map[], map[])

  datatype Error = IdempotencyConflict | TargetChanged | BranchOwned | RevisionConflict | NotFound | ControlTerminal | IdentityTaken
  datatype Outcome<+T> = Ok(value: T) | Err(error: Error)

  // ---------------------------------------------------------------- planning and control

  function TargetOf(request: Request): Target {
    Target(request.repository, request.branch, request.base)
  }

  function NewSnapshot(id: Id, request: Request, control: Control): Snapshot {
    Snapshot(id, request, Planned, control, None, [], None, None, false)
  }

  predicate SameRevision(a: Request, b: Request) {
    a.run == b.run && a.revision == b.revision
  }

  predicate OwnedElsewhere(targets: map<Id, Target>, request: Request) {
    exists r :: r in targets && r != request.run && targets[r].repository == request.repository && targets[r].branch == request.branch
  }

  /** Plans a revision; an exact repetition, by command key or by revision, changes no delivery. */
  function Plan(db: Db, key: Id, request: Request, id: Id): Outcome<Db> {
    if key in db.commands then
      if db.commands[key] != PlanCommand(request) then Err(IdempotencyConflict) else Ok(db)
    else if request.run in db.targets && db.targets[request.run] != TargetOf(request) then Err(TargetChanged)
    else if request.run !in db.targets && OwnedElsewhere(db.targets, request) then Err(BranchOwned)
    else
      var control := if request.run in db.controls then db.controls[request.run] else Active;
      var owned := db.(targets := db.targets[request.run := TargetOf(request)],
                       controls := db.controls[request.run := control],
                       commands := db.commands[key := PlanCommand(request)]);
      if exists d :: d in db.deliveries && SameRevision(db.deliveries[d].request, request) then
        if exists d :: d in db.deliveries && SameRevision(db.deliveries[d].request, request) && db.deliveries[d].request != request
        then Err(RevisionConflict) else Ok(owned)
      else if id in db.deliveries then Err(IdentityTaken)
      else Ok(owned.(deliveries := db.deliveries[id := NewSnapshot(id, request, control)]))
  }

  function Controlled(d: Snapshot, control: Control): Snapshot {
    d.(control := control, satisfied := d.satisfied && control == Active)
  }

  function ControlAll(deliveries: map<Id, Snapshot>, run: Id, control: Control): map<Id, Snapshot> {
    map d | d in deliveries :: if deliveries[d].request.run == run then Controlled(deliveries[d], control) else deliveries[d]
  }

  function SetControl(db: Db, key: Id, run: Id, control: Control): Outcome<Db> {
    if key in db.commands then
      if db.commands[key] != ControlCommand(run, control) then Err(IdempotencyConflict) else Ok(db)
    else if run !in db.controls then Err(NotFound)
    else if (db.controls[run] == Cancelled || db.controls[run] == Revoked) && control != db.controls[run] then Err(ControlTerminal)
    else
      Ok(db.(controls := db.controls[run := control],
             deliveries := ControlAll(db.deliveries, run, control),
             commands := db.commands[key := ControlCommand(run, control)]))
  }

  // ---------------------------------------------------------------- activation

  predicate Pending(operations: seq<Operation>) {
    exists i :: 0 <= i < |operations| && operations[i].state == SendUnknown
  }

  predicate Superseded(db: Db, request: Request) {
    exists d :: d in db.deliveries && db.deliveries[d].request.run == request.run && db.deliveries[d].request.revision > request.revision
  }

  predicate EarlierPending(db: Db, request: Request) {
    exists d :: d in db.deliveries && db.deliveries[d].request.run == request.run &&
                db.deliveries[d].request.revision < request.revision && Pending(db.deliveries[d].operations)
  }

  /** Why a delivery may not start or complete an effect now. */
  function ActivationReason(db: Db, request: Request): Option<Reason> {
    if request.run !in db.controls then Some(ControlUnknown)
    else if db.controls[request.run] != Active then Some(ControlIs(db.controls[request.run]))
    else if Superseded(db, request) then Some(RevisionSuperseded)
    else if EarlierPending(db, request) then Some(PreviousUnresolved)
    else None
  }

  function Block(d: Snapshot, reason: Reason): Snapshot {
    d.(state := Blocked, reason := Some(reason), satisfied := false)
  }

  function Store(db: Db, id: Id, d: Snapshot): Db {
    db.(deliveries := db.deliveries[id := d])
  }

  /** Blocks whatever is stored now. */
  function BlockStored(db: Db, id: Id, reason: Reason): Db
    requires id in db.deliveries
  {
    Store(db, id, Block(db.deliveries[id], reason))
  }

  /** Blocks only if nothing was stored since the snapshot was read. */
  function BlockUnchanged(db: Db, snapshot: Snapshot, reason: Reason): Db {
    if snapshot.id in db.deliveries && db.deliveries[snapshot.id] == snapshot then Store(db, snapshot.id, Block(snapshot, reason)) else db
  }

  /** The first activation check of a call. */
  function GateCall(db: Db, snapshot: Snapshot): (Db, bool)
    requires snapshot.id in db.deliveries
  {
    var reason := ActivationReason(db, snapshot.request);
    if reason.Some? then (BlockStored(db, snapshot.id, reason.value), false) else (db, true)
  }

  // ---------------------------------------------------------------- pushing

  /** Records the intent to push, write-ahead; true when this caller is the one to send. */
  function OpenPush(db: Db, snapshot: Snapshot, op: Id): (Db, bool)
    requires snapshot.id in db.deliveries
  {
    var current := db.deliveries[snapshot.id];
    var reason := ActivationReason(db, current.request);
    if reason.Some? then (BlockStored(db, snapshot.id, reason.value), false)
    else if current != snapshot then (db, false)
    else
      (Store(db, snapshot.id,
             current.(operations := current.operations + [Operation(op, Push, SendUnknown, NothingSeen, None)], state := Pushing)),
       true)
  }

  function IndexOf(operations: seq<Operation>, op: Id): Option<nat> {
    if operations == [] then None
    else if operations[0].id == op then Some(0)
    else
      var rest := IndexOf(operations[1..], op);
      if rest.None? then None else Some(rest.value + 1)
  }

  function Resolve(operations: seq<Operation>, i: nat, state: Sent, seen: Seen): seq<Operation>
    requires i < |operations|
  {
    operations[i := operations[i].(state := state, seen := seen)]
  }

  function SeenOf(refs: Option<Refs>): Seen {
    if refs.Some? then SeenRefs(refs.value) else NothingSeen
  }

  /** The answer of a push, or the lack of one; a resolved operation is left alone. */
  function RecordPush(db: Db, id: Id, i: nat, refs: Option<Refs>): Db
    requires id in db.deliveries && i < |db.deliveries[id].operations|
  {
    var d := db.deliveries[id];
    if d.operations[i].state == Confirmed then db
    else
      Store(db, id, d.(
        operations := Resolve(d.operations, i, if refs.Some? then Confirmed else SendUnknown, SeenOf(refs)),
        remote := refs,
        state := if refs.Some? then Pushed else Reconciling,
        reason := if refs.Some? then None else Some(RemoteResultUnknown)))
  }

  /** Settles an unresolved push by what the remote shows now. */
  function ReconcilePush(db: Db, id: Id, i: nat, refs: Refs): Db
    requires id in db.deliveries && i < |db.deliveries[id].operations|
  {
    var d := db.deliveries[id];
    if d.operations[i].state == Confirmed then db
    else
      var landed := refs.head == Some(d.request.commit);
      Store(db, id, d.(
        operations := Resolve(d.operations, i, if landed then Confirmed else SendUnknown, SeenRefs(refs)),
        remote := Some(refs),
        state := if landed then Pushed else Reconciling,
        reason := if landed then None else Some(RemoteResultUnknown)))
  }

  // ---------------------------------------------------------------- publishing

  predicate PrIdentity(request: Request, pr: PullRequest) {
    pr.repository == request.repository && pr.branch == request.branch && pr.base == request.base && pr.run == request.run
  }

  /** Binds a pull request to a run for good; None when either is bound differently. */
  function ClaimPr(db: Db, request: Request, pr: Id): Option<Db> {
    var claim := Claim(request.repository, pr);
    if request.run in db.claims then
      if db.claims[request.run] == claim then Some(db) else None
    else if exists r :: r in db.claims && db.claims[r] == claim then None
    else Some(db.(claims := db.claims[request.run := claim]))
  }

  function OpenPublish(db: Db, snapshot: Snapshot, op: Id, existing: Option<Id>): (Db, bool)
    requires snapshot.id in db.deliveries
  {
    var current := db.deliveries[snapshot.id];
    var request := snapshot.request;
    var reason := ActivationReason(db, current.request);
    if reason.Some? then (BlockStored(db, snapshot.id, reason.value), false)
    else if current != snapshot then (db, false)
    else if request.run in db.claims && (existing.None? || db.claims[request.run].pr != existing.value) then
      (BlockStored(db, snapshot.id, PrIdentityConflict), false)
    else
      var claimed := if existing.Some? then ClaimPr(db, request, existing.value) else Some(db);
      if claimed.None? then (BlockStored(db, snapshot.id, PrIdentityConflict), false)
      else
        (Store(claimed.value, snapshot.id,
               current.(operations := current.operations + [Operation(op, Publish, SendUnknown, NothingSeen, existing)],
                        state := Publishing)),
         true)
  }

  function MarkUnknown(db: Db, id: Id): Db
    requires id in db.deliveries
  {
    var d := db.deliveries[id];
    if !Pending(d.operations) then db
    else Store(db, id, d.(state := Reconciling, reason := Some(RemoteResultUnknown), satisfied := false))
  }

  function FirstOf(a: Option<Reason>, b: Option<Reason>, c: Option<Reason>): Option<Reason> {
    if a.Some? then a else if b.Some? then b else c
  }

  predicate CiDone(request: Request, pr: PullRequest) {
    !request.requireCi || (pr.ciSha == Some(request.commit) && pr.ciStatus == Success)
  }

  function WithPr(d: Snapshot, i: nat, pr: PullRequest, refs: Option<Refs>, reason: Option<Reason>): Snapshot
    requires i < |d.operations|
  {
    var done := CiDone(d.request, pr);
    d.(operations := Resolve(d.operations, i, Confirmed, SeenPr(pr)), pr := Some(pr), remote := refs,
       satisfied := done && reason.None?,
       state := if reason.Some? then Blocked else if done then Delivered else AwaitingCi,
       reason := reason)
  }

  /** Confirms the pull request of a delivery and decides completion, all in one transaction. */
  function ConfirmPr(db: Db, request: Request, id: Id, i: nat, pr: PullRequest, verification: Option<Reason>,
                     refs: Option<Refs>, remote: Option<Reason>): Db
    requires id in db.deliveries && i < |db.deliveries[id].operations|
  {
    var d := db.deliveries[id];
    var claimed := ClaimPr(db, request, pr.id);
    if claimed.None? then BlockStored(db, id, PrIdentityConflict)
    else
      var reason := FirstOf(ActivationReason(claimed.value, d.request), verification, remote);
      Store(claimed.value, id, WithPr(d, i, pr, refs, reason))
  }
}
