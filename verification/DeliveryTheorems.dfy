/**
 The promises of the delivery coordinator, over whole runs of the protocol.
 */
module DeliveryTheorems {
  import opened Common
  import opened DeliveryModel
  import opened DeliveryProtocol
  import opened DeliverySafety
  import opened DeliveryRuns

  // ---------------------------------------------------------------- every reachable world

  lemma KeptTables(w: World, db: Db)
    requires WorldOk(w) && DbOk(db) && Grows(w.db, db)
    ensures Kept(w, w.(db := db))
  {
    hide DbOk, Grows, PcOk;
    Moved(w, db, w.callers);
  }

  lemma KeptRefs(w: World, refs: map<Branch, Sha>)
    requires WorldOk(w)
    ensures Kept(w, w.(refs := refs))
  {
    hide DbOk, PcOk, Grows;
    GrowsReflexive(w.db);
    var after := w.(refs := refs);
    forall kind, id ensures Covered(after, kind, id) { assert Covered(w, kind, id); }
  }

  lemma NextKeeps(w: World, e: Event)
    requires WorldOk(w)
    ensures Kept(w, Next(w, e))
  {
    hide DbOk, PcsOk, CallsOk, Grows, Plan, SetControl, StepCaller;
    GrowsReflexive(w.db);
    match e {
      case PlanEvent(key, request, id) =>
        PlanKeeps(w.db, key, request, id);
        var r := Plan(w.db, key, request, id);
        if r.Ok? { KeptTables(w, r.value); }
      case ControlEvent(key, run, control) =>
        ControlKeeps(w.db, key, run, control);
        var r := SetControl(w.db, key, run, control);
        if r.Ok? { KeptTables(w, r.value); }
      case Call(caller, id) =>
        if caller !in w.callers { KeptGo(w, caller, Reading(id)); }
      case Move(caller, answer) =>
        if caller in w.callers { CallerKeeps(w, caller, answer); }
      case Crash(caller) =>
        KeptDone(w, caller);
      case MoveRef(branch, sha) =>
        KeptRefs(w, Next(w, e).refs);
    }
  }

  /** The invariant holds in every reachable world, and the tables only grow along a run. */
  lemma {:induction false} RunKeeps(w: World, events: seq<Event>)
    requires WorldOk(w)
    ensures WorldOk(Run(w, events)) && Grows(w.db, Run(w, events).db)
  {
    hide WorldOk, Grows, Next;
    if events == [] {
      GrowsReflexive(w.db);
    } else {
      var before := Run(w, events[..|events| - 1]);
      RunKeeps(w, events[..|events| - 1]);
      NextKeeps(before, events[|events| - 1]);
      GrowsTransitive(w.db, before.db, Run(w, events).db);
    }
  }

  lemma StartOk()
    ensures WorldOk(Start)
  {
    forall kind, id ensures Covered(Start, kind, id) {
      assert Senders(Start.callers, kind, id) == {};
    }
  }

  // ---------------------------------------------------------------- the promises

  /** Number of recorded operations of one kind. */
  function OperationsOf(ops: seq<Operation>, kind: Kind): nat {
    if ops == [] then 0 else (if ops[0].kind == kind then 1 else 0) + OperationsOf(ops[1..], kind)
  }

  lemma OneOfEach(ops: seq<Operation>, kind: Kind)
    requires OpsShape(ops)
    ensures OperationsOf(ops, kind) <= 1
    ensures OperationsOf(ops, kind) == if |ops| >= (if kind == Push then 1 else 2) then 1 else 0
  {
    if |ops| == 2 {
      assert ops == [ops[0], ops[1]] && ops[1..] == [ops[1]] && ops[1..][1..] == [];
      assert OperationsOf(ops[1..], kind) == if ops[1].kind == kind then 1 else 0;
    } else if |ops| == 1 {
      assert ops[1..] == [];
    }
  }

  /**
   However callers, control changes and crashes interleave, a delivery has at most one push and one pull-request
   operation, and the remote is called at most once for each, only after its operation is on record.
   */
  lemma AtMostOneCall(events: seq<Event>, id: Id, kind: Kind)
    ensures var w := Run(Start, events);
            && Calls(w.effects, kind, id) <= 1
            && (Calls(w.effects, kind, id) == 1 ==> id in w.db.deliveries && OperationsOf(w.db.deliveries[id].operations, kind) == 1)
            && (id in w.db.deliveries ==> OperationsOf(w.db.deliveries[id].operations, kind) <= 1)
  {
    hide Run, DbOk, PcsOk;
    StartOk();
    RunKeeps(Start, events);
    var w := Run(Start, events);
    assert Covered(w, kind, id);
    if id in w.db.deliveries {
      RowOf(w.db, id);
      OneOfEach(w.db.deliveries[id].operations, kind);
    }
  }

  /** An unresolved operation of a run. */
  predicate Unresolved(db: Db, run: Id, k: Id, i: nat) {
    && k in db.deliveries && db.deliveries[k].request.run == run
    && i < |db.deliveries[k].operations| && db.deliveries[k].operations[i].state == SendUnknown
  }

  /** A run never has two unresolved operations, over all its revisions. */
  lemma OneUnresolvedPerRun(events: seq<Event>, run: Id, j: Id, m: nat, k: Id, n: nat)
    requires Unresolved(Run(Start, events).db, run, j, m) && Unresolved(Run(Start, events).db, run, k, n)
    ensures j == k && m == n
  {
    hide Run, RowsOk, UniqueRevisions, ClaimsOk, TargetsOk, PcsOk, CallsOk;
    StartOk();
    RunKeeps(Start, events);
    var db := Run(Start, events).db;
    assert BothPending(db.deliveries[j], db.deliveries[k]);
    RowOf(db, j);
  }

  /** Once confirmed, an operation stays confirmed and in place, whatever happens next. */
  lemma ConfirmedForever(events: seq<Event>, later: seq<Event>, k: Id, i: nat)
    ensures var before := Run(Start, events).db;
            var after := Run(Run(Start, events), later).db;
            k in before.deliveries && i < |before.deliveries[k].operations| ==>
              && k in after.deliveries && after.deliveries[k].request == before.deliveries[k].request
              && i < |after.deliveries[k].operations|
              && after.deliveries[k].operations[i].id == before.deliveries[k].operations[i].id
              && after.deliveries[k].operations[i].kind == before.deliveries[k].operations[i].kind
              && (before.deliveries[k].operations[i].state == Confirmed ==> after.deliveries[k].operations[i].state == Confirmed)
  {
    hide Run, WorldOk;
    StartOk();
    RunKeeps(Start, events);
    RunKeeps(Run(Start, events), later);
  }

  /** A delivery that reports its requirements satisfied is delivered, active and bound to the right pull request. */
  lemma SatisfiedMeansDelivered(events: seq<Event>, k: Id)
    ensures var db := Run(Start, events).db;
            k in db.deliveries && db.deliveries[k].satisfied ==>
              var d := db.deliveries[k];
              && d.state == Delivered
              && d.request.run in db.controls && db.controls[d.request.run] == Active && d.control == Active
              && d.pr.Some? && d.pr.value.head == d.request.commit && PrIdentity(d.request, d.pr.value)
              && d.remote == Some(Refs(Some(d.request.commit), Some(d.request.testedBase)))
              && (d.request.requireCi ==> d.pr.value.ciSha == Some(d.request.commit) && d.pr.value.ciStatus == Success)
              && |d.operations| == 2 && !Pending(d.operations)
  {
    hide Run, DbOk, PcsOk, CallsOk;
    StartOk();
    RunKeeps(Start, events);
    var db := Run(Start, events).db;
    if k in db.deliveries { RowOf(db, k); }
  }

  /** The revisions of a run share one pull request, and no two runs of a repository share one. */
  lemma PullRequestsAreOwned(events: seq<Event>, j: Id, k: Id)
    ensures var deliveries := Run(Start, events).db.deliveries;
            j in deliveries && k in deliveries && deliveries[j].pr.Some? && deliveries[k].pr.Some? &&
            deliveries[j].request.repository == deliveries[k].request.repository ==>
              (deliveries[j].pr.value.id == deliveries[k].pr.value.id <==> deliveries[j].request.run == deliveries[k].request.run)
  {
    hide Run, RowsOk, UniqueRevisions, OnePending, TargetsOk, PcsOk, CallsOk;
    StartOk();
    RunKeeps(Start, events);
    var db := Run(Start, events).db;
    if j in db.deliveries && k in db.deliveries { RowOf(db, j); RowOf(db, k); }
  }

  /** All revisions of a run aim at one branch of one repository, and no other run owns that branch. */
  lemma BranchesAreOwned(events: seq<Event>, j: Id, k: Id)
    ensures var deliveries := Run(Start, events).db.deliveries;
            j in deliveries && k in deliveries ==>
              (BranchOf(deliveries[j].request) == BranchOf(deliveries[k].request) <==> deliveries[j].request.run == deliveries[k].request.run)
  {
    hide Run, RowsOk, UniqueRevisions, OnePending, ClaimsOk, PcsOk, CallsOk;
    StartOk();
    RunKeeps(Start, events);
    var db := Run(Start, events).db;
    if j in db.deliveries && k in db.deliveries {
      RowOf(db, j);
      RowOf(db, k);
      assert SameBranch(db.targets[db.deliveries[j].request.run], db.targets[db.deliveries[k].request.run]) <==>
             BranchOf(db.deliveries[j].request) == BranchOf(db.deliveries[k].request);
    }
  }

  // ---------------------------------------------------------------- the remote branch

  /**
   The protocol moves a remote branch only by the one push of one delivery, from exactly the commit the delivery
   expected to exactly the commit it is bound to; every other change of a branch is the environment's.
   */
  lemma BranchMovesByLease(events: seq<Event>, e: Event)
    requires !e.MoveRef?
    ensures var w := Run(Start, events);
            var after := Next(w, e);
            after.refs != w.refs ==>
              e.Move? && e.caller in w.callers && w.callers[e.caller].SendingPush? &&
              var id := w.callers[e.caller].snapshot.id;
              && id in w.db.deliveries && Calls(w.effects, Push, id) == 0 && Calls(after.effects, Push, id) == 1
              && after.effects == w.effects + [PushCall(id, true)]
              && RefOf(w, w.db.deliveries[id].request) == w.db.deliveries[id].request.expectedOld
              && after.refs == w.refs[BranchOf(w.db.deliveries[id].request) := w.db.deliveries[id].request.commit]
  {
    hide Run, Next, DbOk;
    var w := Run(Start, events);
    StartOk();
    RunKeeps(Start, events);
    if Next(w, e).refs != w.refs {
      OnlyPushMoves(w, e);
      PushMoves(w, e.caller, e.answer);
    }
  }

  lemma PushMoves(w: World, caller: nat, a: Answer)
    requires WorldOk(w) && caller in w.callers && w.callers[caller].SendingPush?
    ensures var pc := w.callers[caller];
            var after := StepSendPush(w, caller, pc.snapshot, pc.op, a);
            after.refs != w.refs ==>
              var id := pc.snapshot.id;
              && id in w.db.deliveries && Calls(w.effects, Push, id) == 0 && Calls(after.effects, Push, id) == 1
              && after.effects == w.effects + [PushCall(id, true)]
              && RefOf(w, w.db.deliveries[id].request) == w.db.deliveries[id].request.expectedOld
              && after.refs == w.refs[BranchOf(w.db.deliveries[id].request) := w.db.deliveries[id].request.commit]
  {
    hide DbOk, SnapshotOk, OpsGrow;
    var pc := w.callers[caller];
    var after := StepSendPush(w, caller, pc.snapshot, pc.op, a);
    assert PcOk(w.db, pc);
    assert Covered(w, Push, pc.snapshot.id);
    assert caller in Senders(w.callers, Push, pc.snapshot.id);
    assert after.effects[..|after.effects| - 1] == w.effects;
  }

  lemma OnlyPushMoves(w: World, e: Event)
    requires !e.MoveRef? && Next(w, e).refs != w.refs
    ensures e.Move? && e.caller in w.callers && w.callers[e.caller].SendingPush?
    ensures Next(w, e) == StepSendPush(w, e.caller, w.callers[e.caller].snapshot, w.callers[e.caller].op, e.answer)
    ensures w.callers[e.caller].snapshot.id in w.db.deliveries
  {
    hide Plan, SetControl, FirstPending, PublishIndex, IndexOf, OpenPublish, OpenPush, ConfirmPr, PrIdentity, RecordPush,
      ReconcilePush, GateCall, MarkUnknown, BlockUnchanged, PushConfirmed, CanLand, Position;
  }

  // ---------------------------------------------------------------- cancelled and revoked runs

  predicate Terminal(control: Control) {
    control == Cancelled || control == Revoked
  }

  function OpCount(db: Db, k: Id): nat {
    if k in db.deliveries then |db.deliveries[k].operations| else 0
  }

  /** No transaction in between opened an operation for the run or changed its control. */
  predicate Halted(a: Db, b: Db, run: Id) {
    && run in a.controls && run in b.controls && b.controls[run] == a.controls[run]
    && forall k :: k in b.deliveries && b.deliveries[k].request.run == run ==> OpCount(b, k) == OpCount(a, k)
  }

  /** Nothing was planned or opened at all, except possibly for one delivery. */
  predicate Still(a: Db, b: Db, except: Option<Id>) {
    && b.controls == a.controls && b.deliveries.Keys == a.deliveries.Keys
    && forall k :: k in a.deliveries ==>
         && b.deliveries[k].request == a.deliveries[k].request
         && (except != Some(k) ==> OpCount(b, k) == OpCount(a, k))
  }

  lemma StillReflexive(a: Db)
    ensures Still(a, a, None)
  {
  }

  lemma StillStore(a: Db, k: Id, d: Snapshot)
    requires k in a.deliveries && d.request == a.deliveries[k].request && |d.operations| == |a.deliveries[k].operations|
    ensures Still(a, Store(a, k, d), None)
  {
  }

  lemma StillClaim(a: Db, b: Db, k: Id, d: Snapshot)
    requires k in a.deliveries && d.request == a.deliveries[k].request && b == a.(claims := b.claims)
    ensures Still(a, Store(b, k, d), Some(k))
    ensures |d.operations| == |a.deliveries[k].operations| ==> Still(a, Store(b, k, d), None)
  {
  }

  lemma ClaimOnly(db: Db, request: Request, pr: Id)
    ensures var c := ClaimPr(db, request, pr);
            c.Some? ==> c.value == db.(claims := c.value.claims)
  {
  }

  lemma BlockStill(db: Db, k: Id, reason: Reason)
    requires k in db.deliveries
    ensures Still(db, BlockStored(db, k, reason), None)
  {
    StillStore(db, k, Block(db.deliveries[k], reason));
  }

  lemma OpenPushStill(db: Db, s: Snapshot, op: Id)
    requires s.id in db.deliveries
    ensures var (after, mine) := OpenPush(db, s, op);
            && Still(db, after, if mine then Some(s.id) else None)
            && (mine ==> ActivationReason(db, db.deliveries[s.id].request).None?)
  {
    hide Still, ActivationReason;
    StillReflexive(db);
    var (after, mine) := OpenPush(db, s, op);
    var reason := ActivationReason(db, db.deliveries[s.id].request);
    if reason.Some? {
      BlockStill(db, s.id, reason.value);
    } else if mine {
      StillClaim(db, db, s.id, after.deliveries[s.id]);
    }
  }

  lemma OpenPublishStill(db: Db, s: Snapshot, op: Id, existing: Option<Id>)
    requires s.id in db.deliveries
    ensures var (after, mine) := OpenPublish(db, s, op, existing);
            && Still(db, after, if mine then Some(s.id) else None)
            && (mine ==> ActivationReason(db, db.deliveries[s.id].request).None?)
  {
    hide Still, ActivationReason, ClaimPr;
    StillReflexive(db);
    var (after, mine) := OpenPublish(db, s, op, existing);
    var reason := ActivationReason(db, db.deliveries[s.id].request);
    if mine {
      var claimed := if existing.Some? then ClaimPr(db, s.request, existing.value).value else db;
      if existing.Some? { ClaimOnly(db, s.request, existing.value); }
      StillClaim(db, claimed, s.id, after.deliveries[s.id]);
    } else if after != db {
      BlockStill(db, s.id, if reason.Some? then reason.value else PrIdentityConflict);
    }
  }

  lemma ConfirmStill(db: Db, request: Request, id: Id, i: nat, pr: PullRequest, verification: Option<Reason>,
                     refs: Option<Refs>, remote: Option<Reason>)
    requires id in db.deliveries && i < |db.deliveries[id].operations|
    ensures Still(db, ConfirmPr(db, request, id, i, pr, verification, refs, remote), None)
  {
    hide Still, ActivationReason, ClaimPr;
    var claimed := ClaimPr(db, request, pr.id);
    ClaimOnly(db, request, pr.id);
    if claimed.None? {
      BlockStill(db, id, PrIdentityConflict);
    } else {
      var reason := FirstOf(ActivationReason(claimed.value, db.deliveries[id].request), verification, remote);
      StillClaim(db, claimed.value, id, WithPr(db.deliveries[id], i, pr, refs, reason));
    }
  }

  /** The delivery for which a step of a caller may record an operation. */
  function Opening(pc: Pc): Option<Id> {
    if pc.OpeningPush? || pc.OpeningPublish? then Some(pc.snapshot.id) else None
  }

  /** A caller records an operation only while its run is active. */
  lemma CallerStill(w: World, caller: nat, pc: Pc, a: Answer)
    ensures var after := StepCaller(w, caller, pc, a).db;
            || Still(w.db, after, None)
            || (&& Opening(pc).Some? && Still(w.db, after, Opening(pc))
                && pc.snapshot.id in w.db.deliveries
                && ActivationReason(w.db, w.db.deliveries[pc.snapshot.id].request).None?)
  {
    hide Still, ActivationReason, OpenPush, OpenPublish, ConfirmPr, FirstPending, PublishIndex, PushConfirmed, IndexOf, Block,
      RefsReason, PrIdentity, CanLand;
    StillReflexive(w.db);
    var db := w.db;
    if !pc.Reading? && pc.snapshot.id in db.deliveries {
      var k := pc.snapshot.id;
      match pc {
        case Gating(s) =>
          var reason := ActivationReason(db, s.request);
          if reason.Some? { BlockStill(db, k, reason.value); }
        case OpeningPush(s) => OpenPushStill(db, s, a.uuid);
        case OpeningPublish(s, existing) => OpenPublishStill(db, s, a.uuid, existing);
        case RecordingPush(s, op, refs) =>
          var i := Position(w, k, op);
          if i.Some? && i.value < |db.deliveries[k].operations| && db.deliveries[k].operations[i.value].state != Confirmed {
            StillStore(db, k, RecordPush(db, k, i.value, refs).deliveries[k]);
          }
        case SettlingPush(s, op, refs) =>
          var i := Position(w, k, op);
          if i.Some? && i.value < |db.deliveries[k].operations| && db.deliveries[k].operations[i.value].state != Confirmed {
            StillStore(db, k, ReconcilePush(db, k, i.value, refs).deliveries[k]);
          }
        case ConfirmingPr(s, op, pr, verification, refs, remote) =>
          var i := Position(w, k, op);
          if i.Some? && i.value < |db.deliveries[k].operations| {
            ConfirmStill(db, s.request, k, i.value, pr, verification, refs, remote);
          }
        case MarkingUnknown(s) =>
          if Pending(db.deliveries[k].operations) { StillStore(db, k, MarkUnknown(db, k).deliveries[k]); }
        case Blocking(s, reason) =>
          if db.deliveries[k] == s { BlockStill(db, k, reason); }
        case _ =>
      }
    }
  }

  lemma HaltedByStill(a: Db, b: Db, except: Option<Id>, run: Id)
    requires Still(a, b, except) && run in a.controls
    requires except.Some? && except.value in a.deliveries ==> a.deliveries[except.value].request.run != run
    ensures Halted(a, b, run)
  {
  }

  lemma PlanHalts(db: Db, key: Id, request: Request, id: Id, run: Id)
    requires run in db.controls
    ensures var r := Plan(db, key, request, id); r.Ok? ==> Halted(db, r.value, run)
  {
    hide SameRevision, OwnedElsewhere, TargetOf;
  }

  lemma ControlHalts(db: Db, key: Id, r: Id, control: Control, run: Id)
    requires run in db.controls && Terminal(db.controls[run])
    ensures var after := SetControl(db, key, r, control); after.Ok? ==> Halted(db, after.value, run)
  {
  }

  lemma NextHalts(w: World, e: Event, run: Id)
    requires run in w.db.controls && Terminal(w.db.controls[run])
    ensures Halted(w.db, Next(w, e).db, run)
  {
    hide Plan, SetControl, StepCaller, Superseded, EarlierPending, Halted, Still;
    StillReflexive(w.db);
    HaltedByStill(w.db, w.db, None, run);
    match e {
      case PlanEvent(key, request, id) => PlanHalts(w.db, key, request, id, run);
      case ControlEvent(key, r, control) => ControlHalts(w.db, key, r, control, run);
      case Move(caller, answer) =>
        if caller in w.callers {
          var pc := w.callers[caller];
          CallerStill(w, caller, pc, answer);
          var after := StepCaller(w, caller, pc, answer).db;
          if Still(w.db, after, None) {
            HaltedByStill(w.db, after, None, run);
          } else {
            HaltedByStill(w.db, after, Opening(pc), run);
          }
        }
      case _ =>
    }
  }

  lemma HaltedTransitive(a: Db, b: Db, c: Db, run: Id)
    requires Halted(a, b, run) && Halted(b, c, run) && Grows(a, b) && Grows(b, c)
    ensures Halted(a, c, run)
  {
    hide OpsGrow;
  }

  lemma {:induction false} RunHalts(w: World, events: seq<Event>, run: Id)
    requires WorldOk(w) && run in w.db.controls && Terminal(w.db.controls[run])
    ensures Halted(w.db, Run(w, events).db, run)
  {
    hide WorldOk, Grows, Next;
    if events != [] {
      var before := Run(w, events[..|events| - 1]);
      RunHalts(w, events[..|events| - 1], run);
      RunKeeps(w, events[..|events| - 1]);
      NextKeeps(before, events[|events| - 1]);
      NextHalts(before, events[|events| - 1], run);
      HaltedTransitive(w.db, before.db, Run(w, events).db, run);
    }
  }

  /**
   Cancelling or revoking a run is final: no operation is ever recorded for it again, and no remote call is ever made
   for it beyond those whose operation was on record when the control changed.
   */
  lemma TerminalControlOpensNothing(events: seq<Event>, later: seq<Event>, run: Id, k: Id, kind: Kind)
    ensures var w := Run(Start, events);
            var after := Run(w, later);
            run in w.db.controls && Terminal(w.db.controls[run]) ==>
              && run in after.db.controls && after.db.controls[run] == w.db.controls[run]
              && (k in after.db.deliveries && after.db.deliveries[k].request.run == run ==>
                    && OpCount(after.db, k) == OpCount(w.db, k)
                    && Calls(after.effects, kind, k) <= Recorded(w.db, kind, k)
                    && !after.db.deliveries[k].satisfied)
  {
    hide Run, DbOk, PcsOk;
    StartOk();
    var w := Run(Start, events);
    RunKeeps(Start, events);
    RunKeeps(w, later);
    var after := Run(w, later);
    if run in w.db.controls && Terminal(w.db.controls[run]) {
      RunHalts(w, later, run);
      assert Covered(after, kind, k);
      if k in after.db.deliveries { RowOf(after.db, k); }
    }
  }
}
