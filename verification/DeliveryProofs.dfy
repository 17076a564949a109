/**
 What a confirmed push rests on, which answers lead a caller where, and that every delivery can be completed.
 */
module DeliveryProofs {
  import opened Common
  import opened DeliveryModel
  import opened DeliveryProtocol
  import opened DeliverySafety
  import opened DeliveryRuns
  import opened DeliveryTheorems
  import opened DeliveryMeaning

  // ---------------------------------------------------------------- a confirmed push

  /** A confirmed push was seen: by the answer of its own call, which landed, or with the branch at the bound commit. */
  predicate PushProved(effects: seq<Effect>, k: Id, d: Snapshot) {
    |d.operations| >= 1 && d.operations[0].state == Confirmed ==>
      d.operations[0].seen.SeenRefs? &&
      (d.operations[0].seen.refs.head == Some(d.request.commit) || PushCall(k, true) in effects)
  }

  /** An answer in hand is that of a push that landed. */
  predicate Answered(effects: seq<Effect>, pc: Pc) {
    pc.RecordingPush? && pc.refs.Some? ==> PushCall(pc.snapshot.id, true) in effects
  }

  predicate ProofOk(w: World) {
    && (forall k :: k in w.db.deliveries ==> PushProved(w.effects, k, w.db.deliveries[k]))
    && (forall c :: c in w.callers ==> Answered(w.effects, w.callers[c]))
  }

  /** No push was confirmed in between, except possibly that of one delivery. */
  predicate PushKept(a: Db, b: Db, except: Option<Id>) {
    forall k :: k in b.deliveries && except != Some(k) && |b.deliveries[k].operations| >= 1 && b.deliveries[k].operations[0].state == Confirmed ==>
      && k in a.deliveries && b.deliveries[k].request == a.deliveries[k].request
      && |a.deliveries[k].operations| >= 1 && b.deliveries[k].operations[0] == a.deliveries[k].operations[0]
  }

  lemma KeptSelf(a: Db)
    ensures PushKept(a, a, None)
  {
  }

  lemma KeptRow(a: Db, b: Db, k: Id, d: Snapshot)
    requires k in a.deliveries && d.request == a.deliveries[k].request && b.deliveries == a.deliveries[k := d]
    ensures PushKept(a, b, Some(k))
    ensures (|d.operations| >= 1 && d.operations[0].state == Confirmed ==>
               |a.deliveries[k].operations| >= 1 && d.operations[0] == a.deliveries[k].operations[0]) ==> PushKept(a, b, None)
  {
  }

  lemma KeptPlan(db: Db, key: Id, request: Request, id: Id)
    ensures var r := Plan(db, key, request, id); r.Ok? ==> PushKept(db, r.value, None)
  {
    hide SameRevision, OwnedElsewhere, TargetOf;
  }

  lemma KeptControl(db: Db, key: Id, run: Id, control: Control)
    ensures var r := SetControl(db, key, run, control); r.Ok? ==> PushKept(db, r.value, None)
  {
  }

  /** The delivery whose push a step of a caller may confirm. */
  function Settling(pc: Pc): Option<Id> {
    if pc.RecordingPush? || pc.SettlingPush? then Some(pc.snapshot.id) else None
  }

  lemma KeptBlock(db: Db, k: Id, reason: Reason)
    requires k in db.deliveries
    ensures PushKept(db, BlockStored(db, k, reason), None)
  {
    KeptRow(db, BlockStored(db, k, reason), k, Block(db.deliveries[k], reason));
  }

  lemma KeptOpenPush(db: Db, s: Snapshot, op: Id)
    requires s.id in db.deliveries && s.operations == []
    ensures PushKept(db, OpenPush(db, s, op).0, None)
  {
    hide PushKept, ActivationReason;
    KeptSelf(db);
    var (after, mine) := OpenPush(db, s, op);
    var reason := ActivationReason(db, db.deliveries[s.id].request);
    if reason.Some? {
      KeptBlock(db, s.id, reason.value);
    } else if mine {
      KeptRow(db, after, s.id, after.deliveries[s.id]);
    }
  }

  lemma KeptOpenPublish(db: Db, s: Snapshot, op: Id, existing: Option<Id>)
    requires s.id in db.deliveries && |s.operations| == 1
    ensures PushKept(db, OpenPublish(db, s, op, existing).0, None)
  {
    hide PushKept, ActivationReason, ClaimPr;
    KeptSelf(db);
    var (after, mine) := OpenPublish(db, s, op, existing);
    var reason := ActivationReason(db, db.deliveries[s.id].request);
    if mine {
      if existing.Some? { ClaimOnly(db, s.request, existing.value); }
      KeptRow(db, after, s.id, after.deliveries[s.id]);
    } else if after != db {
      KeptBlock(db, s.id, if reason.Some? then reason.value else PrIdentityConflict);
    }
  }

  lemma KeptConfirm(db: Db, request: Request, id: Id, i: nat, pr: PullRequest, verification: Option<Reason>,
                    refs: Option<Refs>, remote: Option<Reason>)
    requires id in db.deliveries && i < |db.deliveries[id].operations| && i > 0
    ensures PushKept(db, ConfirmPr(db, request, id, i, pr, verification, refs, remote), None)
  {
    hide PushKept, ActivationReason, ClaimPr;
    var claimed := ClaimPr(db, request, pr.id);
    ClaimOnly(db, request, pr.id);
    var after := ConfirmPr(db, request, id, i, pr, verification, refs, remote);
    if claimed.None? { KeptBlock(db, id, PrIdentityConflict); } else { KeptRow(db, after, id, after.deliveries[id]); }
  }

  /** Only the two recording steps of a push confirm it. */
  lemma CallerKept(w: World, caller: nat, a: Answer)
    requires WorldOk(w) && caller in w.callers
    ensures PushKept(w.db, StepCaller(w, caller, w.callers[caller], a).db, Settling(w.callers[caller]))
  {
    hide WorldOk, PushKept, ActivationReason, OpenPush, OpenPublish, ConfirmPr, RecordPush, ReconcilePush, FirstPending, PublishIndex,
      PushConfirmed, IndexOf, Block, RefsReason, PrIdentity, CanLand, Position, SnapshotOk, OpsGrow;
    var pc, db := w.callers[caller], w.db;
    KeptSelf(db);
    if Settling(pc).Some? { KeptLoose(db, pc.snapshot.id); }
    if !pc.Reading? && pc.snapshot.id in db.deliveries {
      var k := pc.snapshot.id;
      assert PcOk(db, pc) by { PcPart(w, caller); }
      match pc {
        case Gating(s) =>
          var reason := ActivationReason(db, s.request);
          if reason.Some? { KeptBlock(db, k, reason.value); }
        case OpeningPush(s) => KeptOpenPush(db, s, a.uuid);
        case OpeningPublish(s, existing) => KeptOpenPublish(db, s, a.uuid, existing);
        case RecordingPush(s, op, refs) => RecordTouches(w, caller, s, op, refs);
        case SettlingPush(s, op, refs) => SettleTouches(w, caller, s, op, refs);
        case ConfirmingPr(s, op, pr, verification, refs, remote) =>
          DbPart(w);
          StoredPosition(w, k, op);
          KeptConfirm(db, s.request, k, 1, pr, verification, refs, remote);
        case MarkingUnknown(s) =>
          if Pending(db.deliveries[k].operations) { KeptRow(db, MarkUnknown(db, k), k, MarkUnknown(db, k).deliveries[k]); }
        case Blocking(s, reason) =>
          if db.deliveries[k] == s { KeptBlock(db, k, reason); }
        case _ =>
      }
    }
  }

  lemma PcPart(w: World, caller: nat)
    requires WorldOk(w) && caller in w.callers
    ensures PcOk(w.db, w.callers[caller])
  {
  }

  lemma DbPart(w: World)
    requires WorldOk(w)
    ensures DbOk(w.db)
  {
  }

  lemma RecordTouches(w: World, caller: nat, s: Snapshot, op: Id, refs: Option<Refs>)
    requires s.id in w.db.deliveries
    ensures PushKept(w.db, StepRecordPush(w, caller, s, op, refs).db, Some(s.id))
  {
    hide PushKept, Position;
    var after := StepRecordPush(w, caller, s, op, refs).db;
    if after == w.db { KeptLoose(w.db, s.id); } else { KeptRow(w.db, after, s.id, after.deliveries[s.id]); }
  }

  lemma SettleTouches(w: World, caller: nat, s: Snapshot, op: Id, refs: Refs)
    requires s.id in w.db.deliveries
    ensures PushKept(w.db, StepSettlePush(w, caller, s, op, refs).db, Some(s.id))
  {
    hide PushKept, Position;
    var after := StepSettlePush(w, caller, s, op, refs).db;
    if after == w.db { KeptLoose(w.db, s.id); } else { KeptRow(w.db, after, s.id, after.deliveries[s.id]); }
  }

  lemma KeptLoose(a: Db, k: Id)
    ensures PushKept(a, a, Some(k))
  {
  }

  lemma ProvedStays(w: World, db: Db, effects: seq<Effect>, except: Option<Id>, k: Id)
    requires ProofOk(w) && PushKept(w.db, db, except) && w.effects <= effects && k in db.deliveries && except != Some(k)
    ensures PushProved(effects, k, db.deliveries[k])
  {
    if |db.deliveries[k].operations| >= 1 && db.deliveries[k].operations[0].state == Confirmed {
      assert PushProved(w.effects, k, w.db.deliveries[k]);
    }
  }

  /** The two recording steps confirm a push only on such proof. */
  lemma SettlingProves(w: World, caller: nat, a: Answer)
    requires WorldOk(w) && ProofOk(w) && caller in w.callers && Settling(w.callers[caller]).Some?
    ensures var after := StepCaller(w, caller, w.callers[caller], a).db;
            var k := w.callers[caller].snapshot.id;
            k in after.deliveries ==> PushProved(w.effects, k, after.deliveries[k])
  {
    hide WorldOk, RecordPush, ReconcilePush, Position, Earlier;
    var pc := w.callers[caller];
    var k := pc.snapshot.id;
    PcPart(w, caller);
    DbPart(w);
    if k in w.db.deliveries {
      assert Answered(w.effects, pc) && PushProved(w.effects, k, w.db.deliveries[k]);
      StoredPosition(w, k, pc.op);
      if pc.RecordingPush? {
        RecordPushExactly(w.db, k, 0, pc.refs);
        assert RecordPush(w.db, k, 0, pc.refs).deliveries[k].request == w.db.deliveries[k].request by { RecordBinds(w.db, k, pc.refs); }
      } else {
        SettleExactly(w.db, k, 0, pc.seen);
        assert ReconcilePush(w.db, k, 0, pc.seen).deliveries[k].request == w.db.deliveries[k].request by { SettleBinds(w.db, k, pc.seen); }
      }
    }
  }

  lemma RecordBinds(db: Db, k: Id, refs: Option<Refs>)
    requires k in db.deliveries && |db.deliveries[k].operations| >= 1
    ensures k in RecordPush(db, k, 0, refs).deliveries && RecordPush(db, k, 0, refs).deliveries[k].request == db.deliveries[k].request
  {
  }

  lemma SettleBinds(db: Db, k: Id, refs: Refs)
    requires k in db.deliveries && |db.deliveries[k].operations| >= 1
    ensures k in ReconcilePush(db, k, 0, refs).deliveries && ReconcilePush(db, k, 0, refs).deliveries[k].request == db.deliveries[k].request
  {
  }

  /** A caller holds an answer only after its push landed, and effects are only added. */
  /** A step changes no other caller, and leaves its own with an answer only after a push that landed. */
  predicate OwnStep(w: World, after: World, caller: nat) {
    && w.effects <= after.effects
    && (after.callers == w.callers || after.callers == w.callers - {caller} ||
        (caller in after.callers && after.callers == w.callers[caller := after.callers[caller]] &&
         Answered(after.effects, after.callers[caller])))
  }

  lemma EarlySteps(w: World, caller: nat, pc: Pc, a: Answer)
    requires pc.Reading? || pc.Verifying? || pc.Gating? || pc.Validating? || pc.OpeningPush? || pc.SendingPush?
    ensures OwnStep(w, StepCaller(w, caller, pc, a), caller)
  {
    hide OpenPush, FirstPending, GateCall, PushConfirmed, RefsReason, CanLand;
  }

  lemma MiddleSteps(w: World, caller: nat, pc: Pc, a: Answer)
    requires pc.RecordingPush? || pc.InspectingPush? || pc.SettlingPush? || pc.LookingUp? || pc.ReadingClaim? || pc.OpeningPublish?
    ensures OwnStep(w, StepCaller(w, caller, pc, a), caller)
  {
    hide OpenPublish, RecordPush, ReconcilePush, FirstPending, PublishIndex, IndexOf, RefsReason, PrIdentity, Position;
  }

  lemma LateSteps(w: World, caller: nat, pc: Pc, a: Answer)
    requires pc.SendingPublish? || pc.ReconcilingPr? || pc.CheckingPr? || pc.ConfirmingPr? || pc.MarkingUnknown? || pc.Blocking?
    ensures OwnStep(w, StepCaller(w, caller, pc, a), caller)
  {
    hide ConfirmPr, MarkUnknown, BlockUnchanged, PublishIndex, IndexOf, RefsReason, PrIdentity, Position;
  }

  lemma AnswersKept(w: World, caller: nat, a: Answer)
    requires ProofOk(w) && caller in w.callers
    ensures var after := StepCaller(w, caller, w.callers[caller], a);
            w.effects <= after.effects && forall c :: c in after.callers ==> Answered(after.effects, after.callers[c])
  {
    hide StepCaller, PushProved;
    var pc := w.callers[caller];
    if pc.Reading? || pc.Verifying? || pc.Gating? || pc.Validating? || pc.OpeningPush? || pc.SendingPush? {
      EarlySteps(w, caller, pc, a);
    } else if pc.RecordingPush? || pc.InspectingPush? || pc.SettlingPush? || pc.LookingUp? || pc.ReadingClaim? || pc.OpeningPublish? {
      MiddleSteps(w, caller, pc, a);
    } else {
      LateSteps(w, caller, pc, a);
    }
    var after := StepCaller(w, caller, pc, a);
    forall c | c in after.callers ensures Answered(after.effects, after.callers[c]) {
      if c != caller { assert after.callers[c] == w.callers[c] && Answered(w.effects, w.callers[c]); }
    }
  }

  lemma CallerProves(w: World, caller: nat, a: Answer)
    requires WorldOk(w) && ProofOk(w) && caller in w.callers
    ensures ProofOk(StepCaller(w, caller, w.callers[caller], a))
  {
    hide WorldOk, PushKept, StepCaller, PushProved, Answered;
    var after := StepCaller(w, caller, w.callers[caller], a);
    AnswersKept(w, caller, a);
    CallerKept(w, caller, a);
    var except := Settling(w.callers[caller]);
    if except.Some? { SettlingProves(w, caller, a); }
    forall k | k in after.db.deliveries ensures PushProved(after.effects, k, after.db.deliveries[k]) {
      if except != Some(k) {
        ProvedStays(w, after.db, after.effects, except, k);
      } else {
        MoreEffects(w.effects, after.effects, k, after.db.deliveries[k]);
      }
    }
  }

  lemma MoreEffects(a: seq<Effect>, b: seq<Effect>, k: Id, d: Snapshot)
    requires a <= b && PushProved(a, k, d)
    ensures PushProved(b, k, d)
  {
  }

  lemma TablesProve(w: World, db: Db)
    requires ProofOk(w) && PushKept(w.db, db, None)
    ensures ProofOk(w.(db := db))
  {
    hide PushKept, PushProved;
    forall k | k in db.deliveries ensures PushProved(w.effects, k, db.deliveries[k]) { ProvedStays(w, db, w.effects, None, k); }
  }

  lemma NextProves(w: World, e: Event)
    requires WorldOk(w) && ProofOk(w)
    ensures ProofOk(Next(w, e))
  {
    hide WorldOk, PushKept, Plan, SetControl, StepCaller, PushProved;
    KeptSelf(w.db);
    match e {
      case PlanEvent(key, request, id) =>
        KeptPlan(w.db, key, request, id);
        if Plan(w.db, key, request, id).Ok? { TablesProve(w, Plan(w.db, key, request, id).value); }
      case ControlEvent(key, run, control) =>
        KeptControl(w.db, key, run, control);
        if SetControl(w.db, key, run, control).Ok? { TablesProve(w, SetControl(w.db, key, run, control).value); }
      case Move(caller, answer) => if caller in w.callers { CallerProves(w, caller, answer); }
      case _ =>
    }
  }

  /**
   In every run a confirmed push has been seen: either by the answer of its own call, which landed, or by a look at the
   remote that showed the managed branch at the bound commit.
   */
  lemma {:induction false} ConfirmedWasSeen(events: seq<Event>)
    ensures ProofOk(Run(Start, events))
  {
    hide WorldOk, Next, PushProved;
    if events != [] {
      ConfirmedWasSeen(events[..|events| - 1]);
      StartOk();
      RunKeeps(Start, events[..|events| - 1]);
      NextProves(Run(Start, events[..|events| - 1]), events[|events| - 1]);
    }
  }

  // ---------------------------------------------------------------- every delivery can be completed

  /** Some run leads there. */
  ghost predicate Reachable(w: World) {
    exists events :: Run(Start, events) == w
  }

  lemma ReachStart()
    ensures Reachable(Start)
  {
    assert Run(Start, []) == Start;
  }

  lemma ReachNext(w: World, e: Event)
    requires Reachable(w)
    ensures Reachable(Next(w, e))
  {
    hide Next;
    var events :| Run(Start, events) == w;
    assert (events + [e])[..|events|] == events;
    assert Run(Start, events + [e]) == Next(w, e);
  }

  /** The world of one delivery of one run, and one caller. */
  function Lone(r: Request, d: Snapshot, claims: map<Id, Claim>, callers: map<nat, Pc>, refs: map<Branch, Sha>, effects: seq<Effect>): World {
    World(Db(map["d" := d], map[r.run := Active], map[r.run := TargetOf(r)], claims, map["plan" := PlanCommand(r)]), callers, refs, effects)
  }

  function Asked(r: Request): Snapshot {
    NewSnapshot("d", r, Active)
  }

  function Expected(r: Request): Refs {
    Refs(Some(r.commit), Some(r.testedBase))
  }

  function Opened(r: Request): PullRequest {
    PullRequest("pr", r.repository, r.branch, r.base, r.run, r.commit, false, Some(r.commit), Success)
  }

  /** Everything goes well. */
  function Good(r: Request, uuid: Id): Answer {
    Answer(uuid, true, None, Some(Expected(r)), true, false, Some([]), Some(Opened(r)))
  }

  function Before(r: Request): map<Branch, Sha> {
    if r.expectedOld.Some? then map[BranchOf(r) := r.expectedOld.value] else map[]
  }

  function Sent(r: Request): Snapshot {
    Asked(r).(operations := [Operation("p", Push, SendUnknown, NothingSeen, None)], state := Pushing)
  }

  function Landed(r: Request): Snapshot {
    Asked(r).(operations := [Operation("p", Push, Confirmed, SeenRefs(Expected(r)), None)], state := Pushed, remote := Some(Expected(r)))
  }

  function Announced(r: Request): Snapshot {
    Landed(r).(operations := Landed(r).operations + [Operation("q", Publish, SendUnknown, NothingSeen, None)], state := Publishing)
  }

  function Finished(r: Request): Snapshot {
    Landed(r).(operations := Landed(r).operations + [Operation("q", Publish, Confirmed, SeenPr(Opened(r)), None)], state := Delivered,
               pr := Some(Opened(r)), satisfied := true)
  }

  lemma MayStillAct(r: Request, d: Snapshot, claims: map<Id, Claim>, callers: map<nat, Pc>, refs: map<Branch, Sha>, effects: seq<Effect>)
    requires d.request == r
    ensures ActivationReason(Lone(r, d, claims, callers, refs, effects).db, r) == None
  {
  }

  lemma PlannedReached(r: Request)
    ensures Reachable(Lone(r, Asked(r), map[], map[], Before(r), []))
  {
    ReachStart();
    var w := if r.expectedOld.Some? then Next(Start, MoveRef(BranchOf(r), r.expectedOld)) else Start;
    if r.expectedOld.Some? { ReachNext(Start, MoveRef(BranchOf(r), r.expectedOld)); }
    assert w == World(EmptyDb, map[], Before(r), []);
    var after := Next(w, PlanEvent("plan", r, "d"));
    assert after == Lone(r, Asked(r), map[], map[], Before(r), []);
    ReachNext(w, PlanEvent("plan", r, "d"));
  }

  /** One step of caller 0 that moves nothing but itself. */
  lemma Moves(r: Request, d: Snapshot, claims: map<Id, Claim>, refs: map<Branch, Sha>, effects: seq<Effect>, pc: Pc, a: Answer, next: Pc)
    requires Reachable(Lone(r, d, claims, map[0 := pc], refs, effects))
    requires var w := Lone(r, d, claims, map[0 := pc], refs, effects); StepCaller(w, 0, pc, a) == Go(w, 0, next)
    ensures Reachable(Lone(r, d, claims, map[0 := next], refs, effects))
  {
    var w := Lone(r, d, claims, map[0 := pc], refs, effects);
    hide StepCaller;
    ReachNext(w, Move(0, a));
    assert map[0 := pc][0 := next] == map[0 := next];
    assert Next(w, Move(0, a)) == Lone(r, d, claims, map[0 := next], refs, effects);
  }

  lemma Calls0(r: Request, d: Snapshot, claims: map<Id, Claim>, refs: map<Branch, Sha>, effects: seq<Effect>)
    requires Reachable(Lone(r, d, claims, map[], refs, effects))
    ensures Reachable(Lone(r, d, claims, map[0 := Reading("d")], refs, effects))
  {
    ReachNext(Lone(r, d, claims, map[], refs, effects), Call(0, "d"));
    assert Next(Lone(r, d, claims, map[], refs, effects), Call(0, "d")) == Lone(r, d, claims, map[0 := Reading("d")], refs, effects);
  }

  /** A caller that finds nothing pending gets through verification and the gate. */
  lemma GetsThrough(r: Request, d: Snapshot, refs: map<Branch, Sha>, effects: seq<Effect>)
    requires d.request == r && d.id == "d" && FirstPending(d.operations).None? && Reachable(Lone(r, d, map[], map[], refs, effects))
    ensures Reachable(Lone(r, d, map[], map[0 := if PushConfirmed(d.operations) then LookingUp(d) else Validating(d)], refs, effects))
  {
    hide FirstPending, PushConfirmed, ActivationReason;
    Calls0(r, d, map[], refs, effects);
    Moves(r, d, map[], refs, effects, Reading("d"), Good(r, "p"), Verifying(d));
    Moves(r, d, map[], refs, effects, Verifying(d), Good(r, "p"), Gating(d));
    MayStillAct(r, d, map[], map[0 := Gating(d)], refs, effects);
    Moves(r, d, map[], refs, effects, Gating(d), Good(r, "p"), if PushConfirmed(d.operations) then LookingUp(d) else Validating(d));
  }

  function After(r: Request): map<Branch, Sha> {
    Before(r)[BranchOf(r) := r.commit]
  }

  lemma PushReached(r: Request)
    ensures Reachable(Lone(r, Landed(r), map[], map[], After(r), [PushCall("d", true)]))
  {
    var d, refs := Asked(r), Before(r);
    PlannedReached(r);
    GetsThrough(r, d, refs, []);
    assert !PushConfirmed(d.operations);
    Moves(r, d, map[], refs, [], Validating(d), Good(r, "p"), OpeningPush(d));
    var w := Lone(r, d, map[], map[0 := OpeningPush(d)], refs, []);
    var sending := Lone(r, Sent(r), map[], map[0 := SendingPush(d, "p")], refs, []);
    assert Next(w, Move(0, Good(r, "p"))) == sending by { OpensPush(r); }
    ReachNext(w, Move(0, Good(r, "p")));
    var recording := Lone(r, Sent(r), map[], map[0 := RecordingPush(d, "p", Some(Expected(r)))], After(r), [PushCall("d", true)]);
    assert Next(sending, Move(0, Good(r, "p"))) == recording by { SendsPush(r); }
    ReachNext(sending, Move(0, Good(r, "p")));
    assert Next(recording, Move(0, Good(r, "p"))) == Lone(r, Landed(r), map[], map[], After(r), [PushCall("d", true)]) by { RecordsPush(r); }
    ReachNext(recording, Move(0, Good(r, "p")));
  }

  lemma OpensPush(r: Request)
    ensures Next(Lone(r, Asked(r), map[], map[0 := OpeningPush(Asked(r))], Before(r), []), Move(0, Good(r, "p"))) ==
            Lone(r, Sent(r), map[], map[0 := SendingPush(Asked(r), "p")], Before(r), [])
  {
    hide ActivationReason;
    var d := Asked(r);
    MayStillAct(r, d, map[], map[0 := OpeningPush(d)], Before(r), []);
    assert map["d" := d]["d" := Sent(r)] == map["d" := Sent(r)];
    assert map[0 := OpeningPush(d)][0 := SendingPush(d, "p")] == map[0 := SendingPush(d, "p")];
    assert [] + [Operation("p", Push, SendUnknown, NothingSeen, None)] == Sent(r).operations;
  }

  lemma SendsPush(r: Request)
    ensures Next(Lone(r, Sent(r), map[], map[0 := SendingPush(Asked(r), "p")], Before(r), []), Move(0, Good(r, "p"))) ==
            Lone(r, Sent(r), map[], map[0 := RecordingPush(Asked(r), "p", Some(Expected(r)))], After(r), [PushCall("d", true)])
  {
    var w := Lone(r, Sent(r), map[], map[0 := SendingPush(Asked(r), "p")], Before(r), []);
    assert CanLand(w, r);
    assert [] + [PushCall("d", true)] == [PushCall("d", true)];
    assert map[0 := SendingPush(Asked(r), "p")][0 := RecordingPush(Asked(r), "p", Some(Expected(r)))] ==
           map[0 := RecordingPush(Asked(r), "p", Some(Expected(r)))];
  }

  lemma RecordsPush(r: Request)
    ensures Next(Lone(r, Sent(r), map[], map[0 := RecordingPush(Asked(r), "p", Some(Expected(r)))], After(r), [PushCall("d", true)]),
                 Move(0, Good(r, "p"))) ==
            Lone(r, Landed(r), map[], map[], After(r), [PushCall("d", true)])
  {
    var pc := RecordingPush(Asked(r), "p", Some(Expected(r)));
    var w := Lone(r, Sent(r), map[], map[0 := pc], After(r), [PushCall("d", true)]);
    assert Position(w, "d", "p") == Some(0);
    assert RecordPush(w.db, "d", 0, Some(Expected(r))).deliveries["d"] == Landed(r);
    assert map["d" := Sent(r)]["d" := Landed(r)] == map["d" := Landed(r)];
    assert map[0 := pc] - {0} == map[];
  }

  lemma OpensPublish(r: Request, refs: map<Branch, Sha>, effects: seq<Effect>)
    ensures Next(Lone(r, Landed(r), map[], map[0 := OpeningPublish(Landed(r), None)], refs, effects), Move(0, Good(r, "q"))) ==
            Lone(r, Announced(r), map[], map[0 := SendingPublish(Landed(r), "q", None)], refs, effects)
  {
    hide ActivationReason;
    var d := Landed(r);
    MayStillAct(r, d, map[], map[0 := OpeningPublish(d, None)], refs, effects);
    assert IndexOf(d.operations, "q").None? by {
      assert "p"[0] != "q"[0];
      assert d.operations[1..] == [];
    }
    assert map["d" := d]["d" := Announced(r)] == map["d" := Announced(r)];
    assert map[0 := OpeningPublish(d, None)][0 := SendingPublish(d, "q", None)] == map[0 := SendingPublish(d, "q", None)];
  }

  lemma SendsPublish(r: Request, refs: map<Branch, Sha>, effects: seq<Effect>)
    ensures Next(Lone(r, Announced(r), map[], map[0 := SendingPublish(Landed(r), "q", None)], refs, effects), Move(0, Good(r, "q"))) ==
            Lone(r, Announced(r), map[], map[0 := CheckingPr(Landed(r), "q", false, Opened(r))], refs, effects + [PublishCall("d")])
  {
    assert map[0 := SendingPublish(Landed(r), "q", None)][0 := CheckingPr(Landed(r), "q", false, Opened(r))] ==
           map[0 := CheckingPr(Landed(r), "q", false, Opened(r))];
  }

  lemma SecondOperation(r: Request)
    ensures IndexOf(Announced(r).operations, "q") == Some(1)
  {
    var ops := Announced(r).operations;
    var tail := ops[1..];
    assert ops[0].id == "p" && "p"[0] != "q"[0];
    assert tail[0] == ops[1] && tail[0].id == "q";
    assert IndexOf(tail, "q") == Some(0);
  }

  lemma ConfirmsRow(r: Request, db: Db)
    requires db == Lone(r, Announced(r), map[], map[], map[], []).db
    ensures ConfirmPr(db, r, "d", 1, Opened(r), None, Some(Expected(r)), None).deliveries == map["d" := Finished(r)]
  {
    MayStillAct(r, Announced(r), map[], map[], map[], []);
    var claimed := ClaimPr(db, r, "pr");
    assert claimed == Some(db.(claims := map[r.run := Claim(r.repository, "pr")]));
    assert ActivationReason(claimed.value, r) == None by {
      MayStillAct(r, Announced(r), map[r.run := Claim(r.repository, "pr")], map[], map[], []);
    }
    hide ActivationReason, ClaimPr;
    var d := Announced(r);
    assert WithPr(d, 1, Opened(r), Some(Expected(r)), None) == Finished(r);
    assert map["d" := d]["d" := Finished(r)] == map["d" := Finished(r)];
  }

  lemma Confirms(r: Request, refs: map<Branch, Sha>, effects: seq<Effect>)
    ensures var pc := ConfirmingPr(Landed(r), "q", Opened(r), None, Some(Expected(r)), None);
            Next(Lone(r, Announced(r), map[], map[0 := pc], refs, effects), Move(0, Good(r, "q"))).db.deliveries == map["d" := Finished(r)]
  {
    hide ConfirmPr, IndexOf;
    SecondOperation(r);
    ConfirmsRow(r, Lone(r, Announced(r), map[], map[], map[], []).db);
  }

  /** Every request can be delivered: some run from the empty coordinator ends with its requirements satisfied. */
  lemma CanBeDelivered(r: Request)
    ensures exists events, id :: id in Run(Start, events).db.deliveries &&
              Run(Start, events).db.deliveries[id].request == r && Run(Start, events).db.deliveries[id].satisfied
  {
    var d, refs, effects := Landed(r), After(r), [PushCall("d", true)];
    hide Next;
    PushReached(r);
    FindsNothing(r, refs, effects);
    OpensPublish(r, refs, effects);
    ReachNext(Lone(r, d, map[], map[0 := OpeningPublish(d, None)], refs, effects), Move(0, Good(r, "q")));
    SendsPublish(r, refs, effects);
    ReachNext(Lone(r, Announced(r), map[], map[0 := SendingPublish(d, "q", None)], refs, effects), Move(0, Good(r, "q")));
    var all := effects + [PublishCall("d")];
    ChecksOut(r, refs, all);
    var pc := ConfirmingPr(d, "q", Opened(r), None, Some(Expected(r)), None);
    Confirms(r, refs, all);
    ReachNext(Lone(r, Announced(r), map[], map[0 := pc], refs, all), Move(0, Good(r, "q")));
    var events :| Run(Start, events) == Next(Lone(r, Announced(r), map[], map[0 := pc], refs, all), Move(0, Good(r, "q")));
    assert "d" in Run(Start, events).db.deliveries;
  }

  lemma FindsNothing(r: Request, refs: map<Branch, Sha>, effects: seq<Effect>)
    requires Reachable(Lone(r, Landed(r), map[], map[], refs, effects))
    ensures Reachable(Lone(r, Landed(r), map[], map[0 := OpeningPublish(Landed(r), None)], refs, effects))
  {
    hide FirstPending, PushConfirmed, Reachable;
    var d := Landed(r);
    LandedHasPushed(r);
    GetsThrough(r, d, refs, effects);
    Moves(r, d, map[], refs, effects, LookingUp(d), Good(r, "q"), ReadingClaim(d, None));
    Moves(r, d, map[], refs, effects, ReadingClaim(d, None), Good(r, "q"), OpeningPublish(d, None));
  }

  lemma LandedHasPushed(r: Request)
    ensures FirstPending(Landed(r).operations).None? && PushConfirmed(Landed(r).operations)
  {
    var ops := Landed(r).operations;
    assert ops[1..] == [];
    assert ops[0].kind == Push && ops[0].state == Confirmed;
  }

  lemma ChecksOut(r: Request, refs: map<Branch, Sha>, effects: seq<Effect>)
    requires Reachable(Lone(r, Announced(r), map[], map[0 := CheckingPr(Landed(r), "q", false, Opened(r))], refs, effects))
    ensures Reachable(Lone(r, Announced(r), map[],
                           map[0 := ConfirmingPr(Landed(r), "q", Opened(r), None, Some(Expected(r)), None)], refs, effects))
  {
    var d := Landed(r);
    Moves(r, Announced(r), map[], refs, effects, CheckingPr(d, "q", false, Opened(r)), Good(r, "q"),
          ConfirmingPr(d, "q", Opened(r), None, Some(Expected(r)), None));
  }

  // ---------------------------------------------------------------- which answers lead where

  predicate AsExpected(request: Request, refs: Option<Refs>) {
    refs.Some? && refs.value.head == Some(request.commit) && refs.value.base == Some(request.testedBase)
  }

  predicate Belongs(request: Request, pr: PullRequest) {
    pr.repository == request.repository && pr.branch == request.branch && pr.base == request.base && pr.run == request.run
  }

  /** The first unresolved operation of a snapshot. */
  predicate FirstUnresolved(s: Snapshot, i: nat) {
    i < |s.operations| && s.operations[i].state == SendUnknown && forall j :: 0 <= j < i ==> s.operations[j].state != SendUnknown
  }

  predicate HasPushed(s: Snapshot) {
    exists i :: 0 <= i < |s.operations| && s.operations[i].kind == Push && s.operations[i].state == Confirmed
  }

  /** What a look showed that forbids going on. */
  predicate Shows(request: Request, refs: Option<Refs>, reason: Reason) {
    refs.Some? &&
    (if refs.value.head != Some(request.commit) then reason == RemoteHeadChanged
     else refs.value.base != Some(request.testedBase) && reason == TestedBaseChanged)
  }

  /** Why a caller blocks, at each point. */
  predicate BlockedRightly(w: World, before: Pc, a: Answer, s: Snapshot, reason: Reason) {
    match before
    case Reading(id) => id in w.db.deliveries && w.db.deliveries[id] == s && HasUnresolved(s) && !a.local && reason == QualificationNotRun
    case Verifying(t) => t == s && a.refusal == Some(reason)
    case Validating(t) => t == s && a.refusal == Some(reason)
    case LookingUp(t) =>
      t == s &&
      (if a.refs.None? || a.matches.None? then reason == RemoteObservationUnknown
       else if !AsExpected(s.request, a.refs) then Shows(s.request, a.refs, reason)
       else
         reason == PrIdentityConflict &&
         (|a.matches.value| > 1 || (|a.matches.value| == 1 && !Belongs(s.request, a.matches.value[0]))))
    case ReadingClaim(t, found) =>
      && t == s && reason == PrIdentityConflict
      && (|| (s.request.run in w.db.claims && (found.None? || found.value.id != w.db.claims[s.request.run].pr))
          || (s.pr.Some? && (found.None? || found.value.id != s.pr.value.id)))
    case ReconcilingPr(t, _) => t == s && a.matches.Some? && Shows(s.request, a.refs, reason)
    case CheckingPr(t, _, known, pr) =>
      t == s && known && reason == PrObservationChanged && !(Belongs(s.request, pr) && pr.head == s.request.commit)
    case _ => false
  }

  /** The first publication of a delivery is this operation, confirmed already or not. */
  ghost predicate FirstPublication(s: Snapshot, op: Id, known: bool) {
    exists i :: 0 <= i < |s.operations| && s.operations[i].kind == Publish && (forall j :: 0 <= j < i ==> s.operations[j].kind != Publish) &&
                s.operations[i].id == op && (known <==> s.operations[i].state == Confirmed)
  }

  /** What must have been so for a caller to come to a point. */
  ghost predicate CameRightly(w: World, before: Pc, a: Answer, pc: Pc) {
    match pc
    case Verifying(s) => before.Reading? && before.id in w.db.deliveries && w.db.deliveries[before.id] == s && !HasUnresolved(s)
    case InspectingPush(s, op) =>
      before.Reading? && before.id in w.db.deliveries && w.db.deliveries[before.id] == s && a.local &&
      exists i: nat :: FirstUnresolved(s, i) && s.operations[i].id == op && s.operations[i].kind == Push
    case ReconcilingPr(s, op) =>
      before.Reading? && before.id in w.db.deliveries && w.db.deliveries[before.id] == s && a.local &&
      exists i: nat :: FirstUnresolved(s, i) && s.operations[i].id == op && s.operations[i].kind == Publish
    case Gating(s) => before == Verifying(s) && a.refusal.None?
    case Validating(s) => before == Gating(s) && MayAct(w.db, s.request) && !HasPushed(s)
    case LookingUp(s) => before == Gating(s) && MayAct(w.db, s.request) && HasPushed(s)
    case OpeningPush(s) => before == Validating(s) && a.refusal.None?
    case SendingPush(s, op) => before == OpeningPush(s) && op == a.uuid && MayAct(w.db, s.request) && s.id in w.db.deliveries && w.db.deliveries[s.id] == s
    case RecordingPush(s, op, refs) =>
      && before == SendingPush(s, op) && !a.raised
      && (refs.Some? ==> a.landed && refs == a.refs && RefOf(w, s.request) == s.request.expectedOld)
    case SettlingPush(s, op, refs) => before == InspectingPush(s, op) && a.refs == Some(refs)
    case ReadingClaim(s, found) =>
      && before == LookingUp(s) && AsExpected(s.request, a.refs) && a.matches.Some?
      && (found.None? ==> a.matches.value == []) && (found.Some? ==> a.matches.value == [found.value] && Belongs(s.request, found.value))
    case OpeningPublish(s, existing) =>
      && before.ReadingClaim? && before.snapshot == s && s.pr.None?
      && (existing == if before.found.Some? then Some(before.found.value.id) else None)
      && (s.request.run in w.db.claims ==> existing == Some(w.db.claims[s.request.run].pr))
    case SendingPublish(s, op, existing) =>
      before == OpeningPublish(s, existing) && op == a.uuid && MayAct(w.db, s.request) && s.id in w.db.deliveries && w.db.deliveries[s.id] == s
    case CheckingPr(s, op, known, pr) =>
      || (before == ReadingClaim(s, Some(pr)) && s.pr.Some? && pr.id == s.pr.value.id && FirstPublication(s, op, known) &&
          (s.request.run in w.db.claims ==> pr.id == w.db.claims[s.request.run].pr))
      || (before.SendingPublish? && before.snapshot == s && before.op == op && !known && !a.raised && a.pr == Some(pr))
      || (before == ReconcilingPr(s, op) && !known && AsExpected(s.request, a.refs) && a.matches == Some([pr]))
    case ConfirmingPr(s, op, pr, verification, refs, remote) =>
      && before.CheckingPr? && before.snapshot == s && before.op == op && before.pr == pr && Belongs(s.request, pr) && pr.head == s.request.commit
      && verification == a.refusal && refs == a.refs && (remote.None? <==> AsExpected(s.request, refs))
    case MarkingUnknown(s) =>
      || (before.SendingPublish? && before.snapshot == s && a.pr.None? && !a.raised)
      || (before.ReconcilingPr? && before.snapshot == s && AsExpected(s.request, a.refs) && a.matches.Some? && |a.matches.value| != 1)
      || (before.CheckingPr? && before.snapshot == s && !before.known && !(Belongs(s.request, before.pr) && before.pr.head == s.request.commit))
    case Blocking(s, reason) => BlockedRightly(w, before, a, s, reason)
    case _ => true
  }

  lemma {:induction false} FirstPendingExactly(s: Snapshot, ops: seq<Operation>, n: nat)
    requires n <= |s.operations| && ops == s.operations[n..] && forall j :: 0 <= j < n ==> s.operations[j].state != SendUnknown
    ensures FirstPending(ops).None? <==> !HasUnresolved(s)
    ensures FirstPending(ops).Some? ==> exists i: nat :: FirstUnresolved(s, i) && s.operations[i] == FirstPending(ops).value
    decreases |ops|
  {
    if ops != [] {
      assert ops[0] == s.operations[n] && ops[1..] == s.operations[n + 1..];
      if ops[0].state == SendUnknown { assert FirstUnresolved(s, n); } else { FirstPendingExactly(s, ops[1..], n + 1); }
    }
  }

  lemma ReadRightly(w: World, caller: nat, id: Id, a: Answer)
    requires id in w.db.deliveries
    ensures var after := StepRead(w, caller, id, a);
            caller in after.callers && CameRightly(w, Reading(id), a, after.callers[caller])
  {
    var s := w.db.deliveries[id];
    assert s.operations[0..] == s.operations;
    FirstPendingExactly(s, s.operations, 0);
    hide FirstPending, HasUnresolved, FirstUnresolved;
  }

  lemma LookUpRightly(w: World, caller: nat, s: Snapshot, a: Answer)
    ensures var after := StepLookUp(w, caller, s, a);
            caller in after.callers && CameRightly(w, LookingUp(s), a, after.callers[caller])
  {
    hide FirstPublication, FirstUnresolved, HasUnresolved, HasPushed, MayAct;
    if a.matches.Some? && |a.matches.value| == 1 { assert a.matches.value == [a.matches.value[0]]; }
  }

  lemma ReconcileRightly(w: World, caller: nat, s: Snapshot, op: Id, a: Answer)
    ensures var after := StepReconcile(w, caller, s, op, a);
            caller in after.callers ==> CameRightly(w, ReconcilingPr(s, op), a, after.callers[caller])
  {
    if a.matches.Some? && |a.matches.value| == 1 { assert a.matches.value == [a.matches.value[0]]; }
  }

  lemma GateRightly(w: World, caller: nat, s: Snapshot, a: Answer)
    requires s.id in w.db.deliveries
    ensures var after := StepGate(w, caller, s);
            caller in after.callers ==> CameRightly(w, Gating(s), a, after.callers[caller])
  {
    ActivationExactly(w.db, s.request);
    hide ActivationReason, MayAct;
  }

  lemma OpenRightly(w: World, caller: nat, s: Snapshot, a: Answer)
    requires s.id in w.db.deliveries && w.db.deliveries[s.id].request == s.request
    ensures var after := StepOpenPush(w, caller, s, a);
            caller in after.callers ==> CameRightly(w, OpeningPush(s), a, after.callers[caller])
  {
    hide OpenPush, MayAct;
    OpenPushExactly(w.db, s, a.uuid);
    var (db, mine) := OpenPush(w.db, s, a.uuid);
    if mine { assert CameRightly(w, OpeningPush(s), a, SendingPush(s, a.uuid)); }
  }

  lemma OpenPublishRightly(w: World, caller: nat, s: Snapshot, existing: Option<Id>, a: Answer)
    requires s.id in w.db.deliveries && w.db.deliveries[s.id].request == s.request
    ensures var after := StepOpenPublish(w, caller, s, existing, a);
            caller in after.callers && after != w ==> CameRightly(w, OpeningPublish(s, existing), a, after.callers[caller])
  {
    hide OpenPublish, MayAct, IndexOf, Claimable;
    OpenPublishExactly(w.db, s, a.uuid, existing);
    var (db, mine) := OpenPublish(w.db, s, a.uuid, existing);
    if mine { assert CameRightly(w, OpeningPublish(s, existing), a, SendingPublish(s, a.uuid, existing)); }
    hide CameRightly;
  }

  lemma SendRightly(w: World, caller: nat, s: Snapshot, op: Id, existing: Option<Id>, a: Answer)
    ensures var after := StepSendPush(w, caller, s, op, a);
            caller in after.callers ==> CameRightly(w, SendingPush(s, op), a, after.callers[caller])
    ensures var after := StepSendPublish(w, caller, s, op, a);
            caller in after.callers ==> CameRightly(w, SendingPublish(s, op, existing), a, after.callers[caller])
  {
  }

  lemma ClaimRightly(w: World, caller: nat, s: Snapshot, found: Option<PullRequest>, a: Answer)
    ensures var after := StepReadClaim(w, caller, s, found);
            caller in after.callers ==> CameRightly(w, ReadingClaim(s, found), a, after.callers[caller])
  {
    hide PublishIndex, FirstPublication, FirstUnresolved, HasUnresolved, HasPushed, MayAct;
    PublicationExactly(s);
  }

  lemma PublicationExactly(s: Snapshot)
    ensures var previous := PublishIndex(s.operations);
            previous.Some? ==> FirstPublication(s, previous.value.id, previous.value.state == Confirmed)
  {
    assert s.operations[0..] == s.operations;
    PublishFrom(s.operations, 0);
  }

  lemma {:induction false} PublishFrom(ops: seq<Operation>, n: nat)
    requires n <= |ops| && forall j :: 0 <= j < n ==> ops[j].kind != Publish
    ensures var p := PublishIndex(ops[n..]);
            p.Some? ==> exists i :: n <= i < |ops| && ops[i] == p.value && ops[i].kind == Publish && forall j :: 0 <= j < i ==> ops[j].kind != Publish
    decreases |ops| - n
  {
    if n < |ops| {
      assert ops[n..][0] == ops[n] && ops[n..][1..] == ops[n + 1..];
      if ops[n].kind != Publish { PublishFrom(ops, n + 1); }
    }
  }

  lemma CheckRightly(w: World, caller: nat, s: Snapshot, op: Id, known: bool, pr: PullRequest, a: Answer)
    ensures var after := StepCheckPr(w, caller, s, op, known, pr, a);
            caller in after.callers && CameRightly(w, CheckingPr(s, op, known, pr), a, after.callers[caller])
  {
    hide FirstPublication, FirstUnresolved, HasUnresolved, HasPushed, MayAct;
  }

  /**
   A caller comes to each point of `advance` only with the answers and the tables that point needs: it sends only after
   verification, activation and validation, publishes only after a look with branch and base as expected and no foreign pull
   request, and confirms only a pull request of its own run at the bound commit.
   */
  lemma EveryStepIsRight(w: World, caller: nat, a: Answer)
    requires WorldOk(w) && caller in w.callers
    ensures var after := StepCaller(w, caller, w.callers[caller], a);
            after != w && caller in after.callers ==> CameRightly(w, w.callers[caller], a, after.callers[caller])
  {
    hide WorldOk, CameRightly, StepRead, StepGate, StepOpenPush, StepSendPush, StepRecordPush, StepSettlePush, StepLookUp,
      StepReadClaim, StepOpenPublish, StepSendPublish, StepReconcile, StepCheckPr, StepConfirmPr, MarkUnknown, BlockUnchanged;
    var pc := w.callers[caller];
    if pc.Reading? || pc.snapshot.id in w.db.deliveries {
      if !pc.Reading? { SameRequest(w, caller); }
      match pc {
        case Reading(id) => if id in w.db.deliveries { ReadRightly(w, caller, id, a); } else { assert caller !in StepRead(w, caller, id, a).callers by { ReadEnds(w, caller, id, a); } }
        case Verifying(s) => Plainly(w, pc, a);
        case Gating(s) => GateRightly(w, caller, s, a);
        case Validating(s) => Plainly(w, pc, a);
        case OpeningPush(s) => OpenRightly(w, caller, s, a);
        case SendingPush(s, op) => SendRightly(w, caller, s, op, None, a);
        case RecordingPush(s, op, refs) => Ends(w, caller, pc);
        case InspectingPush(s, op) => Plainly(w, pc, a);
        case SettlingPush(s, op, refs) => Ends(w, caller, pc);
        case LookingUp(s) => LookUpRightly(w, caller, s, a);
        case ReadingClaim(s, found) => ClaimRightly(w, caller, s, found, a);
        case OpeningPublish(s, existing) => OpenPublishRightly(w, caller, s, existing, a);
        case SendingPublish(s, op, existing) => SendRightly(w, caller, s, op, existing, a);
        case ReconcilingPr(s, op) => ReconcileRightly(w, caller, s, op, a);
        case CheckingPr(s, op, known, pr) => CheckRightly(w, caller, s, op, known, pr, a);
        case ConfirmingPr(_, _, _, _, _, _) => Ends(w, caller, pc);
        case MarkingUnknown(s) =>
        case Blocking(s, reason) =>
      }
    }
  }

  lemma SameRequest(w: World, caller: nat)
    requires WorldOk(w) && caller in w.callers && !w.callers[caller].Reading?
    ensures w.callers[caller].snapshot.id in w.db.deliveries
    ensures w.db.deliveries[w.callers[caller].snapshot.id].request == w.callers[caller].snapshot.request
  {
    PcPart(w, caller);
  }

  lemma ReadEnds(w: World, caller: nat, id: Id, a: Answer)
    requires id !in w.db.deliveries
    ensures caller !in StepRead(w, caller, id, a).callers
  {
  }

  lemma Ends(w: World, caller: nat, pc: Pc)
    requires pc.RecordingPush? || pc.SettlingPush? || pc.ConfirmingPr?
    ensures pc.RecordingPush? ==> caller !in StepRecordPush(w, caller, pc.snapshot, pc.op, pc.refs).callers
    ensures pc.SettlingPush? ==> caller !in StepSettlePush(w, caller, pc.snapshot, pc.op, pc.seen).callers
    ensures pc.ConfirmingPr? ==> caller !in StepConfirmPr(w, caller, pc).callers
  {
    hide RecordPush, ReconcilePush, ConfirmPr, Position;
  }

  lemma Plainly(w: World, pc: Pc, a: Answer)
    ensures pc.Verifying? ==>
              CameRightly(w, pc, a, if a.refusal.Some? then Blocking(pc.snapshot, a.refusal.value) else Gating(pc.snapshot))
    ensures pc.Validating? ==>
              CameRightly(w, pc, a, if a.refusal.Some? then Blocking(pc.snapshot, a.refusal.value) else OpeningPush(pc.snapshot))
    ensures pc.InspectingPush? && a.refs.Some? ==> CameRightly(w, pc, a, SettlingPush(pc.snapshot, pc.op, a.refs.value))
  {
  }
}
