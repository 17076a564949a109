/**
 What holds in every world the delivery protocol can reach, whatever callers, control changes, crashes and the
 rest of the world do in between.
 */
module DeliveryRuns {
  import opened Common
  import opened DeliveryModel
  import opened DeliveryProtocol
  import opened DeliverySafety

  // ---------------------------------------------------------------- what a caller may rely on

  /** The snapshot a caller carries is an earlier state of the stored row. */
  predicate Earlier(db: Db, s: Snapshot) {
    && s.id in db.deliveries && db.deliveries[s.id].request == s.request && SnapshotOk(s)
    && OpsGrow(s.operations, db.deliveries[s.id].operations)
  }

  predicate HasPush(db: Db, id: Id, op: Id) {
    id in db.deliveries && |db.deliveries[id].operations| >= 1 && db.deliveries[id].operations[0].id == op
  }

  predicate HasPublish(db: Db, id: Id, op: Id) {
    id in db.deliveries && |db.deliveries[id].operations| == 2 && db.deliveries[id].operations[1].id == op
  }

  /** What the local data of a caller guarantees at each point. */
  predicate LocalOk(pc: Pc) {
    match pc
    case Verifying(s) => !Pending(s.operations)
    case Gating(s) => !Pending(s.operations)
    case Validating(s) => s.operations == []
    case OpeningPush(s) => s.operations == []
    case LookingUp(s) => !Pending(s.operations) && |s.operations| >= 1
    case ReadingClaim(s, _) => !Pending(s.operations) && |s.operations| >= 1
    case OpeningPublish(s, _) => |s.operations| == 1 && s.operations[0].state == Confirmed
    case ConfirmingPr(s, _, pr, _, refs, remote) => Checked(s.request, pr, refs, remote)
    case _ => true
  }

  predicate StoredOk(db: Db, pc: Pc) {
    match pc
    case SendingPush(s, op) => HasPush(db, s.id, op)
    case RecordingPush(s, op, _) => HasPush(db, s.id, op)
    case InspectingPush(s, op) => HasPush(db, s.id, op)
    case SettlingPush(s, op, _) => HasPush(db, s.id, op)
    case SendingPublish(s, op, _) => HasPublish(db, s.id, op)
    case ReconcilingPr(s, op) => HasPublish(db, s.id, op)
    case CheckingPr(s, op, _, _) => HasPublish(db, s.id, op)
    case ConfirmingPr(s, op, _, _, _, _) => HasPublish(db, s.id, op)
    case _ => true
  }

  predicate PcOk(db: Db, pc: Pc) {
    pc.Reading? || (Earlier(db, pc.snapshot) && LocalOk(pc) && StoredOk(db, pc))
  }

  predicate PcsOk(w: World) {
    forall c :: c in w.callers ==> PcOk(w.db, w.callers[c])
  }

  // ---------------------------------------------------------------- calls that leave the process

  /** The caller's next step is the remote call of this kind for this delivery. */
  predicate Sends(pc: Pc, kind: Kind, id: Id) {
    if kind == Push then pc.SendingPush? && pc.snapshot.id == id else pc.SendingPublish? && pc.snapshot.id == id
  }

  function Senders(callers: map<nat, Pc>, kind: Kind, id: Id): set<nat> {
    set c | c in callers && Sends(callers[c], kind, id)
  }

  predicate IsCall(e: Effect, kind: Kind, id: Id) {
    e.id == id && (kind == Push <==> e.PushCall?)
  }

  /** How often the remote was called for a delivery. */
  function Calls(effects: seq<Effect>, kind: Kind, id: Id): nat {
    if effects == [] then 0
    else Calls(effects[..|effects| - 1], kind, id) + if IsCall(effects[|effects| - 1], kind, id) then 1 else 0
  }

  /** How many operations of a kind are recorded for a delivery. */
  function Recorded(db: Db, kind: Kind, id: Id): nat {
    if id in db.deliveries && |db.deliveries[id].operations| >= (if kind == Push then 1 else 2) then 1 else 0
  }

  /** Every call made and every call about to be made is covered by its own recorded operation. */
  predicate Covered(w: World, kind: Kind, id: Id) {
    Calls(w.effects, kind, id) + |Senders(w.callers, kind, id)| <= Recorded(w.db, kind, id)
  }

  ghost predicate CallsOk(w: World) {
    forall kind, id :: Covered(w, kind, id)
  }

  ghost predicate WorldOk(w: World) {
    DbOk(w.db) && PcsOk(w) && CallsOk(w)
  }

  lemma GrowsRow(a: Db, b: Db, k: Id)
    requires Grows(a, b) && k in a.deliveries
    ensures k in b.deliveries && b.deliveries[k].request == a.deliveries[k].request
    ensures OpsGrow(a.deliveries[k].operations, b.deliveries[k].operations)
  {
  }

  /** What a caller relies on survives every growth of the tables. */
  lemma PcStable(a: Db, b: Db, pc: Pc)
    requires DbOk(b) && Grows(a, b) && PcOk(a, pc)
    ensures PcOk(b, pc)
  {
    hide DbOk, Grows, SnapshotOk, LocalOk, HasPush, HasPublish, OpsGrow, Earlier;
    if !pc.Reading? {
      EarlierStable(a, b, pc.snapshot);
      forall op ensures HasPush(a, pc.snapshot.id, op) ==> HasPush(b, pc.snapshot.id, op) {
        OperationStable(a, b, pc.snapshot.id, op);
      }
      forall op ensures HasPublish(a, pc.snapshot.id, op) ==> HasPublish(b, pc.snapshot.id, op) {
        OperationStable(a, b, pc.snapshot.id, op);
      }
    }
  }

  lemma EarlierStable(a: Db, b: Db, s: Snapshot)
    requires Grows(a, b) && Earlier(a, s)
    ensures Earlier(b, s)
  {
    hide Grows, SnapshotOk;
    GrowsRow(a, b, s.id);
  }

  lemma OperationStable(a: Db, b: Db, id: Id, op: Id)
    requires DbOk(b) && Grows(a, b)
    ensures (HasPush(a, id, op) ==> HasPush(b, id, op)) && (HasPublish(a, id, op) ==> HasPublish(b, id, op))
  {
    hide DbOk, Grows, SnapshotOk;
    if id in a.deliveries {
      GrowsRow(a, b, id);
      RowOf(b, id);
      StoredRow(b, id);
    }
  }

  lemma StoredRow(db: Db, k: Id)
    requires k in db.deliveries && RowOk(db, k, db.deliveries[k])
    ensures |db.deliveries[k].operations| <= 2 && SnapshotOk(db.deliveries[k]) && db.deliveries[k].id == k
  {
  }

  lemma RecordedGrows(a: Db, b: Db, kind: Kind, id: Id)
    requires Grows(a, b)
    ensures Recorded(a, kind, id) <= Recorded(b, kind, id)
  {
  }

  /** The tables grow, a caller goes on to a point where it does not send, or leaves. */
  lemma Moved(w: World, db: Db, callers: map<nat, Pc>)
    requires WorldOk(w) && DbOk(db) && Grows(w.db, db)
    requires forall c :: c in callers ==>
               (c in w.callers && callers[c] == w.callers[c]) || (PcOk(db, callers[c]) && !Sending(callers[c]))
    ensures WorldOk(w.(db := db, callers := callers))
  {
    hide DbOk, Grows, PcOk;
    var after := w.(db := db, callers := callers);
    forall c | c in callers ensures PcOk(db, callers[c]) {
      if c in w.callers && callers[c] == w.callers[c] { PcStable(w.db, db, callers[c]); }
    }
    forall kind, id ensures Covered(after, kind, id) {
      assert Covered(w, kind, id);
      RecordedGrows(w.db, db, kind, id);
      SubsetCount(Senders(callers, kind, id), Senders(w.callers, kind, id));
    }
  }

  predicate Sending(pc: Pc) {
    pc.SendingPush? || pc.SendingPublish?
  }

  lemma Goes(w: World, db: Db, caller: nat, pc: Pc)
    requires WorldOk(w) && DbOk(db) && Grows(w.db, db) && PcOk(db, pc) && !Sending(pc)
    ensures WorldOk(Go(w.(db := db), caller, pc))
  {
    hide WorldOk, DbOk, Grows, PcOk, Sending;
    Moved(w, db, w.callers[caller := pc]);
  }

  lemma Stays(w: World, caller: nat, pc: Pc)
    requires WorldOk(w) && PcOk(w.db, pc) && !Sending(pc)
    ensures WorldOk(Go(w, caller, pc))
  {
    hide DbOk, Grows, PcOk, Sending;
    GrowsReflexive(w.db);
    Goes(w, w.db, caller, pc);
  }

  lemma Leaves(w: World, db: Db, caller: nat)
    requires WorldOk(w) && DbOk(db) && Grows(w.db, db)
    ensures WorldOk(Done(w.(db := db), caller))
  {
    hide WorldOk, DbOk, Grows, PcOk, Sending;
    Moved(w, db, w.callers - {caller});
  }

  // ---------------------------------------------------------------- the two steps around an effect

  /** Recording an operation entitles exactly the caller that recorded it to send. */
  lemma Opens(w: World, db: Db, caller: nat, pc: Pc, kind: Kind, id: Id)
    requires WorldOk(w) && DbOk(db) && Grows(w.db, db) && PcOk(db, pc)
    requires Sends(pc, kind, id) && Recorded(w.db, kind, id) == 0 && Recorded(db, kind, id) == 1
    ensures WorldOk(Go(w.(db := db), caller, pc))
  {
    hide DbOk, Grows, PcOk, Recorded;
    var after := Go(w.(db := db), caller, pc);
    forall c | c in after.callers ensures PcOk(db, after.callers[c]) {
      if c != caller { PcStable(w.db, db, w.callers[c]); }
    }
    forall k, i ensures Covered(after, k, i) {
      assert Covered(w, k, i);
      RecordedGrows(w.db, db, k, i);
      if k == kind && i == id {
        SubsetCount(Senders(after.callers, k, i), Senders(w.callers, k, i) + {caller});
      } else {
        SubsetCount(Senders(after.callers, k, i), Senders(w.callers, k, i));
      }
    }
  }

  /** Sending spends the entitlement. */
  lemma Spends(w: World, effect: Effect, caller: nat, callers: map<nat, Pc>, kind: Kind, refs: map<Branch, Sha>)
    requires WorldOk(w) && caller in w.callers && Sends(w.callers[caller], kind, effect.id) && IsCall(effect, kind, effect.id)
    requires forall c :: c in callers ==>
               (c != caller && c in w.callers && callers[c] == w.callers[c]) || (PcOk(w.db, callers[c]) && !Sending(callers[c]))
    ensures WorldOk(w.(effects := w.effects + [effect], callers := callers, refs := refs))
  {
    hide DbOk, PcOk, Recorded;
    var after := w.(effects := w.effects + [effect], callers := callers, refs := refs);
    assert after.effects[..|after.effects| - 1] == w.effects;
    forall k, i ensures Covered(after, k, i) {
      assert Covered(w, k, i);
      if k == kind && i == effect.id {
        assert caller in Senders(w.callers, k, i);
        SubsetCount(Senders(callers, k, i), Senders(w.callers, k, i) - {caller});
      } else {
        SubsetCount(Senders(callers, k, i), Senders(w.callers, k, i));
      }
    }
  }

  // ---------------------------------------------------------------- looking through the operations

  lemma FirstPendingShape(ops: seq<Operation>)
    requires OpsShape(ops)
    ensures FirstPending(ops).None? <==> !Pending(ops)
    ensures FirstPending(ops).Some? && FirstPending(ops).value.kind == Push ==> |ops| >= 1 && FirstPending(ops).value.id == ops[0].id
    ensures FirstPending(ops).Some? && FirstPending(ops).value.kind == Publish ==> |ops| == 2 && FirstPending(ops).value.id == ops[1].id
  {
    if |ops| == 2 {
      assert ops[1..][0] == ops[1] && ops[1..][1..] == [];
    } else if |ops| == 1 {
      assert ops[1..] == [];
    }
  }

  lemma PublishIndexShape(ops: seq<Operation>)
    requires OpsShape(ops) && |ops| == 2
    ensures PublishIndex(ops) == Some(ops[1])
  {
    assert ops[1..][0] == ops[1];
  }

  lemma IndexShape(ops: seq<Operation>, op: Id)
    requires OpsShape(ops)
    ensures |ops| >= 1 && ops[0].id == op ==> IndexOf(ops, op) == Some(0)
    ensures |ops| == 2 && ops[1].id == op ==> IndexOf(ops, op) == Some(1)
  {
    if |ops| == 2 { assert ops[1..][0] == ops[1]; }
  }

  lemma StoredPosition(w: World, id: Id, op: Id)
    requires DbOk(w.db) && id in w.db.deliveries
    ensures HasPush(w.db, id, op) ==> Position(w, id, op) == Some(0)
    ensures HasPublish(w.db, id, op) ==> Position(w, id, op) == Some(1)
  {
    hide DbOk, IndexOf;
    RowOf(w.db, id);
    IndexShape(w.db.deliveries[id].operations, op);
  }

  /** A snapshot with nothing pending has pushed, or has no operation at all. */
  lemma NothingPending(s: Snapshot)
    requires SnapshotOk(s) && !Pending(s.operations)
    ensures PushConfirmed(s.operations) <==> |s.operations| >= 1
    ensures |s.operations| >= 1 ==> s.operations[0].state == Confirmed
    ensures |s.operations| == 2 <==> s.pr.Some?
  {
    if |s.operations| >= 1 { assert s.operations[0].state != SendUnknown; }
    if |s.operations| == 2 { assert s.operations[1].state != SendUnknown; }
  }

  // ---------------------------------------------------------------- every step of a caller

  /** What every step keeps. */
  ghost predicate Kept(w: World, after: World) {
    WorldOk(after) && Grows(w.db, after.db)
  }

  /** The caller is known and stands where its local data says. */
  ghost predicate At(w: World, caller: nat, pc: Pc) {
    WorldOk(w) && caller in w.callers && w.callers[caller] == pc && (pc.Reading? || pc.snapshot.id in w.db.deliveries)
  }

  lemma AtOk(w: World, caller: nat, pc: Pc)
    requires At(w, caller, pc)
    ensures PcOk(w.db, pc) && DbOk(w.db) && WorldOk(w)
  {
    hide DbOk, PcOk;
  }

  lemma KeptGo(w: World, caller: nat, pc: Pc)
    requires WorldOk(w) && PcOk(w.db, pc) && !Sending(pc)
    ensures Kept(w, Go(w, caller, pc))
  {
    hide WorldOk, PcOk, Grows;
    Stays(w, caller, pc);
    GrowsReflexive(w.db);
  }

  lemma KeptDone(w: World, caller: nat)
    requires WorldOk(w)
    ensures Kept(w, Done(w, caller))
  {
    hide DbOk, PcsOk, CallsOk, Grows;
    GrowsReflexive(w.db);
    Leaves(w, w.db, caller);
  }

  lemma KeptStore(w: World, db: Db, caller: nat)
    requires WorldOk(w) && DbOk(db) && Grows(w.db, db)
    ensures Kept(w, Done(w.(db := db), caller))
  {
    hide WorldOk, DbOk, Grows;
    Leaves(w, db, caller);
  }

  lemma ReadKeeps(w: World, caller: nat, id: Id, a: Answer)
    requires At(w, caller, Reading(id))
    ensures Kept(w, StepRead(w, caller, id, a))
  {
    hide WorldOk, Kept, DbOk, Grows, FirstPending, Pending;
    AtOk(w, caller, Reading(id));
    if id !in w.db.deliveries {
      KeptDone(w, caller);
    } else {
      var s := w.db.deliveries[id];
      RowOf(w.db, id);
      FirstPendingShape(s.operations);
      var pc := StepRead(w, caller, id, a).callers[caller];
      KeptGo(w, caller, pc);
    }
  }

  lemma VerifyKeeps(w: World, caller: nat, s: Snapshot, a: Answer)
    requires At(w, caller, Verifying(s))
    ensures Kept(w, StepCaller(w, caller, Verifying(s), a))
  {
    hide WorldOk, Kept, DbOk, Grows, Pending, SnapshotOk;
    AtOk(w, caller, Verifying(s));
    KeptGo(w, caller, if a.refusal.Some? then Blocking(s, a.refusal.value) else Gating(s));
  }

  lemma GateKeeps(w: World, caller: nat, s: Snapshot)
    requires At(w, caller, Gating(s))
    ensures Kept(w, StepGate(w, caller, s))
  {
    hide WorldOk, Kept, DbOk, Grows, Pending, SnapshotOk, PushConfirmed;
    AtOk(w, caller, Gating(s));
    var reason := ActivationReason(w.db, s.request);
    if reason.Some? {
      BlockKeeps(w.db, s.id, reason.value);
      KeptStore(w, BlockStored(w.db, s.id, reason.value), caller);
    } else {
      NothingPending(s);
      KeptGo(w, caller, if PushConfirmed(s.operations) then LookingUp(s) else Validating(s));
    }
  }

  lemma ValidateKeeps(w: World, caller: nat, s: Snapshot, a: Answer)
    requires At(w, caller, Validating(s))
    ensures Kept(w, StepCaller(w, caller, Validating(s), a))
  {
    hide WorldOk, Kept, DbOk, Grows, Pending, SnapshotOk;
    AtOk(w, caller, Validating(s));
    KeptGo(w, caller, if a.refusal.Some? then Blocking(s, a.refusal.value) else OpeningPush(s));
  }

  lemma OpenPushStep(w: World, caller: nat, s: Snapshot, a: Answer)
    requires At(w, caller, OpeningPush(s))
    ensures Kept(w, StepOpenPush(w, caller, s, a))
  {
    hide WorldOk, DbOk, Grows, OpenPush, SnapshotOk;
    AtOk(w, caller, OpeningPush(s));
    OpenPushKeeps(w.db, s, a.uuid);
    var (db, mine) := OpenPush(w.db, s, a.uuid);
    if mine {
      GrowsRow(w.db, db, s.id);
      Opens(w, db, caller, SendingPush(s, a.uuid), Push, s.id);
    } else {
      KeptStore(w, db, caller);
    }
  }

  lemma SendPushKeeps(w: World, caller: nat, s: Snapshot, op: Id, a: Answer)
    requires At(w, caller, SendingPush(s, op))
    ensures Kept(w, StepSendPush(w, caller, s, op, a))
  {
    hide WorldOk, DbOk, Grows, SnapshotOk, Earlier, HasPush;
    AtOk(w, caller, SendingPush(s, op));
    GrowsReflexive(w.db);
    var after := StepSendPush(w, caller, s, op, a);
    var effect := PushCall(s.id, a.landed && !a.raised && CanLand(w, s.request));
    Spends(w, effect, caller, after.callers, Push, after.refs);
  }

  lemma RecordKeeps(w: World, caller: nat, s: Snapshot, op: Id, refs: Option<Refs>)
    requires At(w, caller, RecordingPush(s, op, refs))
    ensures Kept(w, StepRecordPush(w, caller, s, op, refs))
  {
    hide WorldOk, Kept, DbOk, Grows, RecordPush, Position, Earlier;
    AtOk(w, caller, RecordingPush(s, op, refs));
    StoredPosition(w, s.id, op);
    RecordPushKeeps(w.db, s.id, refs);
    KeptStore(w, RecordPush(w.db, s.id, 0, refs), caller);
  }

  lemma SettleKeeps(w: World, caller: nat, s: Snapshot, op: Id, refs: Refs)
    requires At(w, caller, SettlingPush(s, op, refs))
    ensures Kept(w, StepSettlePush(w, caller, s, op, refs))
  {
    hide WorldOk, Kept, DbOk, Grows, ReconcilePush, Position, Earlier;
    AtOk(w, caller, SettlingPush(s, op, refs));
    StoredPosition(w, s.id, op);
    ReconcilePushKeeps(w.db, s.id, refs);
    KeptStore(w, ReconcilePush(w.db, s.id, 0, refs), caller);
  }

  lemma InspectKeeps(w: World, caller: nat, s: Snapshot, op: Id, a: Answer)
    requires At(w, caller, InspectingPush(s, op))
    ensures Kept(w, StepCaller(w, caller, InspectingPush(s, op), a))
  {
    hide WorldOk, Kept, DbOk, Grows, Earlier, HasPush;
    AtOk(w, caller, InspectingPush(s, op));
    if a.refs.None? { KeptDone(w, caller); } else { KeptGo(w, caller, SettlingPush(s, op, a.refs.value)); }
  }

  lemma LookUpKeeps(w: World, caller: nat, s: Snapshot, a: Answer)
    requires At(w, caller, LookingUp(s))
    ensures Kept(w, StepLookUp(w, caller, s, a))
  {
    hide WorldOk, Kept, DbOk, Grows, Earlier, Pending, PrIdentity;
    AtOk(w, caller, LookingUp(s));
    var pc := StepLookUp(w, caller, s, a).callers[caller];
    KeptGo(w, caller, pc);
  }

  lemma ReadClaimKeeps(w: World, caller: nat, s: Snapshot, found: Option<PullRequest>)
    requires At(w, caller, ReadingClaim(s, found))
    ensures Kept(w, StepReadClaim(w, caller, s, found))
  {
    hide WorldOk, Kept, DbOk, Grows, Pending, PublishIndex;
    AtOk(w, caller, ReadingClaim(s, found));
    NothingPending(s);
    RowOf(w.db, s.id);
    if s.pr.Some? { PublishIndexShape(s.operations); }
    var pc := StepReadClaim(w, caller, s, found).callers[caller];
    KeptGo(w, caller, pc);
  }

  lemma OpenPublishStep(w: World, caller: nat, s: Snapshot, existing: Option<Id>, a: Answer)
    requires At(w, caller, OpeningPublish(s, existing))
    ensures Kept(w, StepOpenPublish(w, caller, s, existing, a))
  {
    hide WorldOk, DbOk, Grows, OpenPublish, SnapshotOk, IndexOf;
    AtOk(w, caller, OpeningPublish(s, existing));
    if IndexOf(w.db.deliveries[s.id].operations, a.uuid).Some? {
      GrowsReflexive(w.db);
    } else {
      OpenPublishKeeps(w.db, s, a.uuid, existing);
      var (db, mine) := OpenPublish(w.db, s, a.uuid, existing);
      if mine {
        GrowsRow(w.db, db, s.id);
        Opens(w, db, caller, SendingPublish(s, a.uuid, existing), Publish, s.id);
      } else {
        KeptStore(w, db, caller);
      }
    }
  }

  lemma SendPublishKeeps(w: World, caller: nat, s: Snapshot, op: Id, existing: Option<Id>, a: Answer)
    requires At(w, caller, SendingPublish(s, op, existing))
    ensures Kept(w, StepSendPublish(w, caller, s, op, a))
  {
    hide WorldOk, DbOk, Grows, Earlier, HasPublish;
    AtOk(w, caller, SendingPublish(s, op, existing));
    GrowsReflexive(w.db);
    var after := StepSendPublish(w, caller, s, op, a);
    Spends(w, PublishCall(s.id), caller, after.callers, Publish, after.refs);
  }

  lemma ReconcileKeeps(w: World, caller: nat, s: Snapshot, op: Id, a: Answer)
    requires At(w, caller, ReconcilingPr(s, op))
    ensures Kept(w, StepReconcile(w, caller, s, op, a))
  {
    hide WorldOk, Kept, DbOk, Grows, Earlier, HasPublish;
    AtOk(w, caller, ReconcilingPr(s, op));
    if a.refs.None? || a.matches.None? {
      KeptDone(w, caller);
    } else {
      var pc := StepReconcile(w, caller, s, op, a).callers[caller];
      KeptGo(w, caller, pc);
    }
  }

  lemma CheckKeeps(w: World, caller: nat, s: Snapshot, op: Id, known: bool, pr: PullRequest, a: Answer)
    requires At(w, caller, CheckingPr(s, op, known, pr))
    ensures Kept(w, StepCheckPr(w, caller, s, op, known, pr, a))
  {
    hide WorldOk, Kept, DbOk, Grows, Earlier, HasPublish, PrIdentity;
    AtOk(w, caller, CheckingPr(s, op, known, pr));
    var pc := StepCheckPr(w, caller, s, op, known, pr, a).callers[caller];
    KeptGo(w, caller, pc);
  }

  lemma ConfirmKeeps(w: World, caller: nat, pc: Pc)
    requires pc.ConfirmingPr? && At(w, caller, pc)
    ensures Kept(w, StepConfirmPr(w, caller, pc))
  {
    hide WorldOk, Kept, DbOk, Grows, ConfirmPr, Position, Checked, SnapshotOk, OpsGrow;
    AtOk(w, caller, pc);
    StoredPosition(w, pc.snapshot.id, pc.op);
    ConfirmPrKeeps(w.db, pc.snapshot.id, pc.pr, pc.verification, pc.refs, pc.remote);
    KeptStore(w, ConfirmPr(w.db, pc.snapshot.request, pc.snapshot.id, 1, pc.pr, pc.verification, pc.refs, pc.remote), caller);
  }

  lemma UnknownKeeps(w: World, caller: nat, s: Snapshot)
    requires At(w, caller, MarkingUnknown(s))
    ensures Kept(w, Done(w.(db := MarkUnknown(w.db, s.id)), caller))
  {
    hide WorldOk, Kept, DbOk, Grows, MarkUnknown;
    AtOk(w, caller, MarkingUnknown(s));
    MarkUnknownKeeps(w.db, s.id);
    KeptStore(w, MarkUnknown(w.db, s.id), caller);
  }

  lemma BlockingKeeps(w: World, caller: nat, s: Snapshot, reason: Reason)
    requires At(w, caller, Blocking(s, reason))
    ensures Kept(w, Done(w.(db := BlockUnchanged(w.db, s, reason)), caller))
  {
    hide WorldOk, Kept, DbOk, Grows, BlockUnchanged;
    AtOk(w, caller, Blocking(s, reason));
    BlockUnchangedKeeps(w.db, s, reason);
    KeptStore(w, BlockUnchanged(w.db, s, reason), caller);
  }

  /** No step of a caller breaks anything. */
  lemma CallerKeeps(w: World, caller: nat, a: Answer)
    requires WorldOk(w) && caller in w.callers
    ensures Kept(w, StepCaller(w, caller, w.callers[caller], a))
  {
    hide WorldOk, Kept, StepRead, StepGate, StepOpenPush, StepSendPush, StepRecordPush, StepSettlePush, StepLookUp,
      StepReadClaim, StepOpenPublish, StepSendPublish, StepReconcile, StepCheckPr, StepConfirmPr;
    var pc := w.callers[caller];
    if !pc.Reading? && pc.snapshot.id !in w.db.deliveries {
      KeptDone(w, caller);
    } else {
      match pc
      case Reading(id) => ReadKeeps(w, caller, id, a);
      case Verifying(s) => VerifyKeeps(w, caller, s, a);
      case Gating(s) => GateKeeps(w, caller, s);
      case Validating(s) => ValidateKeeps(w, caller, s, a);
      case OpeningPush(s) => OpenPushStep(w, caller, s, a);
      case SendingPush(s, op) => SendPushKeeps(w, caller, s, op, a);
      case RecordingPush(s, op, refs) => RecordKeeps(w, caller, s, op, refs);
      case InspectingPush(s, op) => InspectKeeps(w, caller, s, op, a);
      case SettlingPush(s, op, refs) => SettleKeeps(w, caller, s, op, refs);
      case LookingUp(s) => LookUpKeeps(w, caller, s, a);
      case ReadingClaim(s, found) => ReadClaimKeeps(w, caller, s, found);
      case OpeningPublish(s, existing) => OpenPublishStep(w, caller, s, existing, a);
      case SendingPublish(s, op, existing) => SendPublishKeeps(w, caller, s, op, existing, a);
      case ReconcilingPr(s, op) => ReconcileKeeps(w, caller, s, op, a);
      case CheckingPr(s, op, known, pr) => CheckKeeps(w, caller, s, op, known, pr, a);
      case ConfirmingPr(_, _, _, _, _, _) => ConfirmKeeps(w, caller, pc);
      case MarkingUnknown(s) => UnknownKeeps(w, caller, s);
      case Blocking(s, reason) => BlockingKeeps(w, caller, s, reason);
    }
  }
}
