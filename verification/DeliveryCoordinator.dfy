/**
 The coordinator object: its tables are fields, and every transaction is a method that rewrites them.

 Each method equals the transaction function that the protocol steps use, and keeps the invariant of the tables under
 the facts the protocol establishes at the call.
 */
module DeliveryCoordinator {
  import opened Common
  import opened DeliveryModel
  import opened DeliverySafety
  import opened DeliveryMeaning

  class Coordinator {
    var deliveries: map<Id, Snapshot>
    var controls: map<Id, Control>
    var targets: map<Id, Target>
    var claims: map<Id, Claim>
    var commands: map<Id, Command>

    /** The contents of the database. */
    function Tables(): Db
      reads this
    {
      Db(deliveries, controls, targets, claims, commands)
    }

    /** The invariant of the tables in every run. */
    ghost predicate Valid()
      reads this
    {
      DbOk(Tables())
    }

    constructor ()
      ensures Valid() && Tables() == EmptyDb
    {
      deliveries, controls, targets, claims, commands := map[], map[], map[], map[], map[];
    }

    // -------------------------------------------------------------- planning and control

    /** The row of a revision, if there is one. */
    method FindRevision(request: Request) returns (found: Option<Id>)
      ensures found.Some? ==> found.value in deliveries && SameRevision(deliveries[found.value].request, request)
      ensures found.None? ==> forall d :: d in deliveries ==> !SameRevision(deliveries[d].request, request)
    {
      var todo := deliveries.Keys;
      while todo != {}
        invariant todo <= deliveries.Keys
        invariant forall d :: d in deliveries && d !in todo ==> !SameRevision(deliveries[d].request, request)
      {
        var d :| d in todo;
        if SameRevision(deliveries[d].request, request) { return Some(d); }
        todo := todo - {d};
      }
      return None;
    }

    /** The table allows one row per revision of a run. */
    method InsertRevision(key: Id, request: Request, id: Id) returns (r: Outcome<()>)
      requires UniqueRevisions(deliveries)
      modifies this
      ensures var spec := Plan(old(Tables()), key, request, id);
              && (spec.Ok? ==> r.Ok? && Tables() == spec.value)
              && (spec.Err? ==> r == Err(spec.error) && Tables() == old(Tables()))
    {
      if key in commands {
        return if commands[key] != PlanCommand(request) then Err(IdempotencyConflict) else Ok(());
      }
      if request.run in targets {
        if targets[request.run] != TargetOf(request) { return Err(TargetChanged); }
      } else if OwnedElsewhere(targets, request) {
        return Err(BranchOwned);
      }
      var control := if request.run in controls then controls[request.run] else Active;
      var previous := FindRevision(request);
      if previous.Some? {
        if deliveries[previous.value].request != request { return Err(RevisionConflict); }
        OneRevision(deliveries, previous.value, request);
      } else {
        if id in deliveries { return Err(IdentityTaken); }
        deliveries := deliveries[id := NewSnapshot(id, request, control)];
      }
      targets := targets[request.run := TargetOf(request)];
      controls := controls[request.run := control];
      commands := commands[key := PlanCommand(request)];
      return Ok(());
    }

    /** Plans a revision: no delivery, operation, claim or target is lost or rebound by it. */
    method PlanRevision(key: Id, request: Request, id: Id) returns (r: Outcome<()>)
      requires Valid()
      modifies this
      ensures Valid() && Grows(old(Tables()), Tables())
      ensures var spec := Plan(old(Tables()), key, request, id);
              && (spec.Ok? ==> r.Ok? && Tables() == spec.value)
              && (spec.Err? ==> r == Err(spec.error) && Tables() == old(Tables()))
    {
      hide DbOk, Grows, Plan;
      PlanKeeps(Tables(), key, request, id);
      GrowsReflexive(Tables());
      Parts(Tables());
      r := InsertRevision(key, request, id);
    }

    /** Rewrites every row of a run under its new control. */
    method RewriteRows(run: Id, control: Control)
      modifies this`deliveries
      ensures deliveries == ControlAll(old(deliveries), run, control)
    {
      ghost var was := deliveries;
      var todo := deliveries.Keys;
      while todo != {}
        invariant todo <= was.Keys && deliveries.Keys == was.Keys
        invariant forall d :: d in was ==> deliveries[d] == if d in todo then was[d] else ControlAll(was, run, control)[d]
      {
        var d :| d in todo;
        if deliveries[d].request.run == run { deliveries := deliveries[d := Controlled(deliveries[d], control)]; }
        todo := todo - {d};
      }
      assert deliveries == ControlAll(was, run, control);
    }

    method ChangeControl(key: Id, run: Id, control: Control) returns (r: Outcome<()>)
      requires Valid()
      modifies this
      ensures Valid() && Grows(old(Tables()), Tables())
      ensures var spec := SetControl(old(Tables()), key, run, control);
              && (spec.Ok? ==> r.Ok? && Tables() == spec.value)
              && (spec.Err? ==> r == Err(spec.error) && Tables() == old(Tables()))
    {
      hide DbOk, Grows, ControlAll;
      ControlKeeps(Tables(), key, run, control);
      GrowsReflexive(Tables());
      if key in commands {
        return if commands[key] != ControlCommand(run, control) then Err(IdempotencyConflict) else Ok(());
      }
      if run !in controls { return Err(NotFound); }
      if (controls[run] == Cancelled || controls[run] == Revoked) && control != controls[run] { return Err(ControlTerminal); }
      controls := controls[run := control];
      RewriteRows(run, control);
      commands := commands[key := ControlCommand(run, control)];
      return Ok(());
    }

    // -------------------------------------------------------------- activation

    /** Reads the control, the highest revision and the operations of the earlier ones. */
    method FindReason(k: Id) returns (reason: Option<Reason>)
      requires k in deliveries
      ensures reason.None? <==> MayAct(Tables(), deliveries[k].request)
      ensures reason == ActivationReason(Tables(), deliveries[k].request)
    {
      ActivationExactly(Tables(), deliveries[k].request);
      hide Pending, MayAct;
      var request := deliveries[k].request;
      if request.run !in controls { return Some(ControlUnknown); }
      if controls[request.run] != Active { return Some(ControlIs(controls[request.run])); }
      var todo, highest, unresolved := deliveries.Keys, 0, false;
      while todo != {}
        invariant todo <= deliveries.Keys
        invariant highest > 0 ==>
                    exists d :: d in deliveries && deliveries[d].request.run == request.run && deliveries[d].request.revision == highest
        invariant forall d :: d in deliveries && d !in todo && deliveries[d].request.run == request.run ==>
                    deliveries[d].request.revision <= highest
        invariant unresolved <==>
                    exists d :: d in deliveries && d !in todo && Blocks(deliveries[d], request)
      {
        var d :| d in todo;
        if deliveries[d].request.run == request.run {
          if deliveries[d].request.revision > highest { highest := deliveries[d].request.revision; }
          if deliveries[d].request.revision < request.revision && Pending(deliveries[d].operations) { unresolved := true; }
        }
        todo := todo - {d};
      }
      assert deliveries[k].request.revision <= highest;
      if highest != request.revision { return Some(RevisionSuperseded); }
      return if unresolved then Some(PreviousUnresolved) else None;
    }

    /** Blocks the stored row. */
    method BlockRow(k: Id, reason: Reason)
      requires Valid() && k in deliveries
      modifies this`deliveries
      ensures Valid() && Grows(old(Tables()), Tables())
      ensures Tables() == BlockStored(old(Tables()), k, reason)
    {
      hide DbOk, Grows;
      BlockKeeps(Tables(), k, reason);
      deliveries := deliveries[k := Block(deliveries[k], reason)];
    }

    /**
     Blocks the row only if it still holds what the caller read.  Nothing stored in between is overwritten, and no
     operation is touched in any case.
     */
    method BlockIfUnchanged(snapshot: Snapshot, reason: Reason)
      requires Valid()
      modifies this`deliveries
      ensures Tables() == BlockUnchanged(old(Tables()), snapshot, reason)
      ensures Valid() && Grows(old(Tables()), Tables()) && deliveries.Keys == old(deliveries).Keys
      ensures forall k :: k in deliveries ==>
                && deliveries[k].operations == old(deliveries)[k].operations
                && (deliveries[k] != old(deliveries)[k] ==> old(deliveries)[k] == snapshot && !deliveries[k].satisfied)
    {
      hide DbOk, Grows, Block;
      BlockUnchangedKeeps(Tables(), snapshot, reason);
      BlockMeaning(Tables(), snapshot, reason);
      if snapshot.id in deliveries && deliveries[snapshot.id] == snapshot {
        deliveries := deliveries[snapshot.id := Block(snapshot, reason)];
      }
    }

    /** The binding of a row never changes, so the snapshot's request is the stored one. */
    method Gate(snapshot: Snapshot) returns (open: bool)
      requires Valid() && snapshot.id in deliveries && deliveries[snapshot.id].request == snapshot.request
      modifies this`deliveries
      ensures (Tables(), open) == GateCall(old(Tables()), snapshot)
      ensures Valid() && Grows(old(Tables()), Tables())
    {
      hide ActivationReason, DbOk, Grows;
      GrowsReflexive(Tables());
      var reason := FindReason(snapshot.id);
      if reason.Some? { BlockRow(snapshot.id, reason.value); }
      return reason.None?;
    }

    // -------------------------------------------------------------- pushing

    method RecordPushIntent(snapshot: Snapshot, op: Id) returns (mine: bool)
      requires Valid() && snapshot.id in deliveries
      modifies this`deliveries
      ensures snapshot.operations == [] ==> Valid() && Grows(old(Tables()), Tables())
      ensures (Tables(), mine) == OpenPush(old(Tables()), snapshot, op)
    {
      hide ActivationReason, DbOk, Grows;
      if snapshot.operations == [] { OpenPushKeeps(Tables(), snapshot, op); }
      var current := deliveries[snapshot.id];
      var reason := FindReason(snapshot.id);
      if reason.Some? {
        BlockRow(snapshot.id, reason.value);
        return false;
      }
      if current != snapshot { return false; }
      var operation := Operation(op, Push, SendUnknown, NothingSeen, None);
      deliveries := deliveries[snapshot.id := current.(operations := current.operations + [operation], state := Pushing)];
      return true;
    }

    /** The position of an operation. */
    method FindOperation(k: Id, op: Id) returns (i: Option<nat>)
      requires k in deliveries
      ensures i == IndexOf(deliveries[k].operations, op)
      ensures i.Some? ==> i.value < |deliveries[k].operations| && deliveries[k].operations[i.value].id == op
    {
      var operations := deliveries[k].operations;
      var n := 0;
      while n < |operations|
        invariant n <= |operations|
        invariant IndexOf(operations, op) == Offset(IndexOf(operations[n..], op), n)
      {
        assert operations[n..][1..] == operations[n + 1..];
        if operations[n].id == op { return Some(n); }
        n := n + 1;
      }
      return None;
    }

    method RecordPushResult(k: Id, op: Id, refs: Option<Refs>) returns (found: bool)
      requires Valid() && k in deliveries
      modifies this`deliveries
      ensures var i := IndexOf(old(deliveries)[k].operations, op);
              && found == i.Some?
              && (found ==> i.value < |old(deliveries)[k].operations| && Tables() == RecordPush(old(Tables()), k, i.value, refs))
              && (!found ==> Tables() == old(Tables()))
      ensures IndexOf(old(deliveries)[k].operations, op) == Some(0) ==> Valid() && Grows(old(Tables()), Tables())
      ensures found ==>
                var i, before := IndexOf(old(deliveries)[k].operations, op).value, old(deliveries)[k];
                && i < |before.operations| && k in deliveries && |deliveries[k].operations| == |before.operations|
                && (before.operations[i].state == Confirmed ==> deliveries[k] == before)
                && (before.operations[i].state == SendUnknown ==>
                      (deliveries[k].operations[i].state == Confirmed <==> refs.Some?) &&
                      (refs.Some? ==> deliveries[k].operations[i].seen == SeenRefs(refs.value)))
    {
      hide DbOk, Grows;
      if |deliveries[k].operations| >= 1 { RecordPushKeeps(Tables(), k, refs); }
      var at := FindOperation(k, op);
      if at.None? { return false; }
      var d, i := deliveries[k], at.value;
      if d.operations[i].state != Confirmed {
        d := d.(operations := Resolve(d.operations, i, if refs.Some? then Confirmed else SendUnknown, SeenOf(refs)), remote := refs);
        d := d.(state := if refs.Some? then Pushed else Reconciling);
        d := d.(reason := if refs.Some? then None else Some(RemoteResultUnknown));
        deliveries := deliveries[k := d];
      }
      return true;
    }

    method SettlePush(k: Id, op: Id, refs: Refs) returns (found: bool)
      requires Valid() && k in deliveries
      modifies this`deliveries
      ensures var i := IndexOf(old(deliveries)[k].operations, op);
              && found == i.Some?
              && (found ==> i.value < |old(deliveries)[k].operations| && Tables() == ReconcilePush(old(Tables()), k, i.value, refs))
              && (!found ==> Tables() == old(Tables()))
      ensures IndexOf(old(deliveries)[k].operations, op) == Some(0) ==> Valid() && Grows(old(Tables()), Tables())
      ensures found ==>
                var i, before := IndexOf(old(deliveries)[k].operations, op).value, old(deliveries)[k];
                && i < |before.operations| && k in deliveries && |deliveries[k].operations| == |before.operations|
                && (before.operations[i].state == Confirmed ==> deliveries[k] == before)
                && (before.operations[i].state == SendUnknown ==>
                      && (deliveries[k].operations[i].state == Confirmed <==> refs.head == Some(before.request.commit))
                      && (deliveries[k].state == Pushed <==> refs.head == Some(before.request.commit))
                      && deliveries[k].operations[i].seen == SeenRefs(refs))
    {
      hide DbOk, Grows;
      if |deliveries[k].operations| >= 1 { ReconcilePushKeeps(Tables(), k, refs); }
      var at := FindOperation(k, op);
      if at.None? { return false; }
      var d, i := deliveries[k], at.value;
      if d.operations[i].state == SendUnknown {
        d := d.(remote := Some(refs));
        if refs.head == Some(d.request.commit) {
          d := d.(operations := Resolve(d.operations, i, Confirmed, SeenRefs(refs)), state := Pushed, reason := None);
        } else {
          d := d.(operations := Resolve(d.operations, i, SendUnknown, SeenRefs(refs)), state := Reconciling,
                  reason := Some(RemoteResultUnknown));
        }
        deliveries := deliveries[k := d];
      }
      return true;
    }

    // -------------------------------------------------------------- publishing

    /**
     Binds a pull request to a run for good.  Success means it is this run's and no other's; refusal means the run or the
     pull request is bound differently; no earlier claim is ever changed.
     */
    method ClaimPullRequest(request: Request, pr: Id) returns (ok: bool)
      requires Valid()
      modifies this`claims
      ensures Valid() && Grows(old(Tables()), Tables())
      ensures forall q :: q in old(claims) ==> q in claims && claims[q] == old(claims)[q]
      ensures ok ==> forall q :: q in claims ==> (claims[q] == Claim(request.repository, pr) <==> q == request.run)
      ensures ok ==> request.run in claims
      ensures !ok ==>
                || (request.run in claims && claims[request.run] != Claim(request.repository, pr))
                || exists q :: q in claims && q != request.run && claims[q] == Claim(request.repository, pr)
      ensures ok == ClaimPr(old(Tables()), request, pr).Some?
      ensures Tables() == if ok then ClaimPr(old(Tables()), request, pr).value else old(Tables())
    {
      hide DbOk, Grows;
      ClaimKeeps(Tables(), request, pr);
      GrowsReflexive(Tables());
      assert ClaimsOk(claims) by { Parts(Tables()); }
      var claim := Claim(request.repository, pr);
      if request.run in claims { return claims[request.run] == claim; }
      if exists r :: r in claims && claims[r] == claim { return false; }
      claims := claims[request.run := claim];
      return true;
    }

    method RecordPublishIntent(snapshot: Snapshot, op: Id, existing: Option<Id>) returns (mine: bool)
      requires Valid() && snapshot.id in deliveries
      modifies this`deliveries, this`claims
      ensures |snapshot.operations| == 1 && snapshot.operations[0].state == Confirmed &&
              old(deliveries)[snapshot.id].request == snapshot.request && IndexOf(old(deliveries)[snapshot.id].operations, op).None? ==>
                Valid() && Grows(old(Tables()), Tables())
      ensures (Tables(), mine) == OpenPublish(old(Tables()), snapshot, op, existing)
    {
      hide ActivationReason, ClaimPr, DbOk, Grows, IndexOf;
      if |snapshot.operations| == 1 && snapshot.operations[0].state == Confirmed &&
         deliveries[snapshot.id].request == snapshot.request && IndexOf(deliveries[snapshot.id].operations, op).None?
      {
        OpenPublishKeeps(Tables(), snapshot, op, existing);
      }
      var current := deliveries[snapshot.id];
      var run := snapshot.request.run;
      var reason := FindReason(snapshot.id);
      if reason.Some? {
        BlockRow(snapshot.id, reason.value);
        return false;
      }
      if current != snapshot { return false; }
      var conflict := run in claims && (existing.None? || claims[run].pr != existing.value);
      if !conflict && existing.Some? {
        var ok := ClaimPullRequest(snapshot.request, existing.value);
        conflict := !ok;
      }
      if conflict {
        BlockRow(snapshot.id, PrIdentityConflict);
        return false;
      }
      var operation := Operation(op, Publish, SendUnknown, NothingSeen, existing);
      deliveries := deliveries[snapshot.id := current.(operations := current.operations + [operation], state := Publishing)];
      return true;
    }

    /** A delivery with an unresolved operation is reconciling and not satisfied; one without is left as it is. */
    method MarkResultUnknown(k: Id)
      requires Valid() && k in deliveries
      modifies this`deliveries
      ensures Tables() == MarkUnknown(old(Tables()), k)
      ensures Valid() && Grows(old(Tables()), Tables())
      ensures deliveries[k].operations == old(deliveries)[k].operations
      ensures Pending(deliveries[k].operations) ==> deliveries[k].state == Reconciling && !deliveries[k].satisfied
      ensures forall d :: d in old(deliveries) && (d != k || !Pending(old(deliveries)[k].operations)) ==>
                d in deliveries && deliveries[d] == old(deliveries)[d]
    {
      hide DbOk, Grows, Pending;
      MarkUnknownKeeps(Tables(), k);
      var d := deliveries[k];
      if Pending(d.operations) {
        deliveries := deliveries[k := d.(state := Reconciling, reason := Some(RemoteResultUnknown), satisfied := false)];
      }
    }

    /** Confirms the pull request and decides completion. */
    method ConfirmPullRequest(request: Request, k: Id, op: Id, pr: PullRequest, verification: Option<Reason>,
                              refs: Option<Refs>, remote: Option<Reason>) returns (found: bool)
      requires Valid() && k in deliveries
      modifies this`deliveries, this`claims
      ensures var i := IndexOf(old(deliveries)[k].operations, op);
              && found == i.Some?
              && (found ==>
                    && i.value < |old(deliveries)[k].operations|
                    && Tables() == ConfirmPr(old(Tables()), request, k, i.value, pr, verification, refs, remote))
              && (!found ==> Tables() == old(Tables()))
      ensures |old(deliveries)[k].operations| == 2 && IndexOf(old(deliveries)[k].operations, op) == Some(1) &&
              old(deliveries)[k].request == request && Checked(request, pr, refs, remote) ==>
                Valid() && Grows(old(Tables()), Tables())
    {
      hide IndexOf, DbOk, Grows, Checked, ConfirmPr;
      if |deliveries[k].operations| == 2 && deliveries[k].request == request && Checked(request, pr, refs, remote) {
        ConfirmPrKeeps(Tables(), k, pr, verification, refs, remote);
      }
      var at := FindOperation(k, op);
      if at.None? { return false; }
      ClaimAndConfirm(request, k, at.value, pr, verification, refs, remote);
      return true;
    }

    method ClaimAndConfirm(request: Request, k: Id, i: nat, pr: PullRequest, verification: Option<Reason>,
                           refs: Option<Refs>, remote: Option<Reason>)
      requires Valid() && k in deliveries && i < |deliveries[k].operations|
      modifies this`deliveries, this`claims
      ensures Tables() == ConfirmPr(old(Tables()), request, k, i, pr, verification, refs, remote)
    {
      hide ActivationReason, ClaimPr, DbOk, Grows, WithPr, FirstOf, Block;
      var ok := ClaimPullRequest(request, pr.id);
      if ok {
        WriteConfirmation(k, i, pr, verification, refs, remote);
      } else {
        BlockRow(k, PrIdentityConflict);
      }
    }

    /** Writes a claimed pull request down and decides completion. */
    method WriteConfirmation(k: Id, i: nat, pr: PullRequest, verification: Option<Reason>, refs: Option<Refs>, remote: Option<Reason>)
      requires k in deliveries && i < |deliveries[k].operations|
      modifies this`deliveries
      ensures var reason := FirstOf(ActivationReason(old(Tables()), old(deliveries)[k].request), verification, remote);
              Tables() == Store(old(Tables()), k, WithPr(old(deliveries)[k], i, pr, refs, reason))
    {
      hide ActivationReason;
      var d := deliveries[k];
      var done := !d.request.requireCi || (pr.ciSha == Some(d.request.commit) && pr.ciStatus == Success);
      var reason := FindReason(k);
      if reason.None? { reason := if verification.Some? then verification else remote; }
      d := d.(operations := Resolve(d.operations, i, Confirmed, SeenPr(pr)), pr := Some(pr), remote := refs);
      d := d.(satisfied := done && reason.None?, reason := reason);
      d := d.(state := if reason.Some? then Blocked else if done then Delivered else AwaitingCi);
      deliveries := deliveries[k := d];
    }
  }

  lemma Parts(db: Db)
    requires DbOk(db)
    ensures UniqueRevisions(db.deliveries) && ClaimsOk(db.claims)
  {
  }

  /** A block touches no operation and no row that changed since it was read. */
  lemma BlockMeaning(db: Db, snapshot: Snapshot, reason: Reason)
    ensures var after := BlockUnchanged(db, snapshot, reason);
            && after.deliveries.Keys == db.deliveries.Keys
            && forall k :: k in db.deliveries ==>
                 && after.deliveries[k].operations == db.deliveries[k].operations
                 && (after.deliveries[k] != db.deliveries[k] ==> db.deliveries[k] == snapshot && !after.deliveries[k].satisfied)
  {
    var after := BlockUnchanged(db, snapshot, reason);
    if snapshot.id in db.deliveries && db.deliveries[snapshot.id] == snapshot {
      var blocked := Block(snapshot, reason);
      assert blocked.operations == snapshot.operations && !blocked.satisfied;
      assert after.deliveries == db.deliveries[snapshot.id := blocked];
      hide Block, BlockUnchanged;
      forall k | k in db.deliveries
        ensures after.deliveries[k].operations == db.deliveries[k].operations
        ensures after.deliveries[k] != db.deliveries[k] ==> db.deliveries[k] == snapshot && !after.deliveries[k].satisfied
      {
      }
    }
  }

  function Offset(i: Option<nat>, n: nat): Option<nat> {
    if i.None? then None else Some(i.value + n)
  }

  /** An earlier revision of the run with an unresolved operation. */
  predicate Blocks(d: Snapshot, request: Request) {
    d.request.run == request.run && d.request.revision < request.revision && Pending(d.operations)
  }

  lemma OneRevision(deliveries: map<Id, Snapshot>, k: Id, request: Request)
    requires UniqueRevisions(deliveries) && k in deliveries && SameRevision(deliveries[k].request, request)
    ensures forall d :: d in deliveries && SameRevision(deliveries[d].request, request) ==> d == k
  {
    forall d | d in deliveries && SameRevision(deliveries[d].request, request) ensures d == k {
      assert SameRevision(deliveries[d].request, deliveries[k].request);
    }
  }
}
