/**
 What each transaction and each step of the delivery coordinator does, written out on the rows and the answers it gets,
 and what a confirmed push rests on in every run.
 */
module DeliveryMeaning {
  import opened Common
  import opened DeliveryModel
  import opened DeliveryProtocol
  import opened DeliverySafety
  import opened DeliveryRuns
  import opened DeliveryTheorems

  predicate HasUnresolved(d: Snapshot) {
    exists i :: 0 <= i < |d.operations| && d.operations[i].state == SendUnknown
  }

  /** The run is active, no later revision is planned, and no earlier one has an unresolved operation. */
  predicate MayAct(db: Db, request: Request) {
    && request.run in db.controls && db.controls[request.run] == Active
    && (forall k :: k in db.deliveries && db.deliveries[k].request.run == request.run ==>
          && db.deliveries[k].request.revision <= request.revision
          && (db.deliveries[k].request.revision < request.revision ==> !HasUnresolved(db.deliveries[k])))
  }

  /** A delivery may act if and only if there is no reason why not; the reason is the first of control, revision and predecessor. */
  lemma ActivationExactly(db: Db, request: Request)
    ensures ActivationReason(db, request).None? <==> MayAct(db, request)
    ensures request.run in db.controls && db.controls[request.run] != Active ==>
              ActivationReason(db, request) == Some(ControlIs(db.controls[request.run]))
    ensures request.run !in db.controls ==> ActivationReason(db, request) == Some(ControlUnknown)
    ensures request.run in db.controls && db.controls[request.run] == Active && !MayAct(db, request) ==>
              ActivationReason(db, request) ==
                if exists k :: k in db.deliveries && db.deliveries[k].request.run == request.run &&
                               db.deliveries[k].request.revision > request.revision
                then Some(RevisionSuperseded) else Some(PreviousUnresolved)
  {
    assert forall d: Snapshot :: Pending(d.operations) <==> HasUnresolved(d);
    hide Pending, HasUnresolved;
  }

  // ---------------------------------------------------------------- planning and control

  /** A new revision is planned if and only if the run keeps its target, no other run owns the branch, and the revision is new. */
  lemma PlanExactly(db: Db, key: Id, request: Request, id: Id)
    requires key !in db.commands && id !in db.deliveries
    requires forall k :: k in db.deliveries ==> !(db.deliveries[k].request.run == request.run && db.deliveries[k].request.revision == request.revision)
    ensures var r := Plan(db, key, request, id);
            && (r.Ok? <==>
                  && (request.run in db.targets ==> db.targets[request.run] == Target(request.repository, request.branch, request.base))
                  && (request.run !in db.targets ==>
                        forall q :: q in db.targets && q != request.run ==>
                          !(db.targets[q].repository == request.repository && db.targets[q].branch == request.branch)))
            && (r.Ok? ==>
                  && id in r.value.deliveries && r.value.deliveries == db.deliveries[id := r.value.deliveries[id]]
                  && r.value.deliveries[id].request == request && r.value.deliveries[id].operations == []
                  && r.value.deliveries[id].state == Planned && !r.value.deliveries[id].satisfied
                  && request.run in r.value.controls && r.value.deliveries[id].control == r.value.controls[request.run]
                  && r.value.controls[request.run] == (if request.run in db.controls then db.controls[request.run] else Active)
                  && r.value.claims == db.claims)
  {
    assert !exists d :: d in db.deliveries && SameRevision(db.deliveries[d].request, request);
  }

  /** A control changes if and only if the run is known and not already ended differently; satisfaction needs an active run. */
  lemma ControlExactly(db: Db, key: Id, run: Id, control: Control, k: Id)
    requires key !in db.commands && k in db.deliveries
    ensures var r := SetControl(db, key, run, control);
            && (r.Ok? <==>
                  run in db.controls && ((db.controls[run] == Cancelled || db.controls[run] == Revoked) ==> control == db.controls[run]))
            && (r.Ok? ==>
                  && r.value.controls == db.controls[run := control] && k in r.value.deliveries
                  && (db.deliveries[k].request.run != run ==> r.value.deliveries[k] == db.deliveries[k])
                  && (db.deliveries[k].request.run == run ==>
                        && r.value.deliveries[k].control == control && r.value.deliveries[k].operations == db.deliveries[k].operations
                        && r.value.deliveries[k].state == db.deliveries[k].state
                        && (r.value.deliveries[k].satisfied <==> db.deliveries[k].satisfied && control == Active)))
  {
  }

  /** A key that was used answers exactly the same command, without effect, and conflicts with any other. */
  lemma ReplayExactly(db: Db, key: Id, request: Request, id: Id, run: Id, control: Control)
    requires key in db.commands
    ensures Plan(db, key, request, id) == if db.commands[key] == PlanCommand(request) then Ok(db) else Err(IdempotencyConflict)
    ensures SetControl(db, key, run, control) == if db.commands[key] == ControlCommand(run, control) then Ok(db) else Err(IdempotencyConflict)
  {
  }

  /** A revision that is planned already is accepted under another key exactly if it is the same, and no delivery changes. */
  lemma RevisionExactly(db: Db, key: Id, request: Request, id: Id, k: Id)
    requires key !in db.commands && k in db.deliveries
    requires db.deliveries[k].request.run == request.run && db.deliveries[k].request.revision == request.revision
    requires forall j :: j in db.deliveries && SameRevision(db.deliveries[j].request, request) ==> j == k
    requires request.run in db.targets && db.targets[request.run] == Target(request.repository, request.branch, request.base)
    ensures var r := Plan(db, key, request, id);
            && (r.Ok? <==> db.deliveries[k].request == request)
            && (r.Ok? ==> r.value.deliveries == db.deliveries && r.value.commands == db.commands[key := PlanCommand(request)])
            && (r.Err? ==> r.error == RevisionConflict)
  {
    assert SameRevision(db.deliveries[k].request, request);
  }

  // ---------------------------------------------------------------- pushing

  function WithOperation(d: Snapshot, operation: Operation, state: State): Snapshot {
    d.(operations := d.operations + [operation], state := state)
  }

  /** A push is recorded by exactly the caller whose snapshot is still what is stored, while the delivery may act. */
  lemma OpenPushExactly(db: Db, s: Snapshot, op: Id)
    requires s.id in db.deliveries
    ensures var (after, mine) := OpenPush(db, s, op);
            var d := db.deliveries[s.id];
            && (mine <==> MayAct(db, d.request) && d == s)
            && (mine ==> after == Store(db, s.id, WithOperation(d, Operation(op, Push, SendUnknown, NothingSeen, None), Pushing)))
            && (!mine && MayAct(db, d.request) ==> after == db)
            && (!MayAct(db, d.request) ==>
                  s.id in after.deliveries && after.deliveries[s.id].state == Blocked && after.deliveries[s.id].operations == d.operations &&
                  !after.deliveries[s.id].satisfied)
  {
    ActivationExactly(db, db.deliveries[s.id].request);
    hide ActivationReason, MayAct;
  }

  /** An answered push is confirmed with what was seen; an unanswered one stays unresolved; a resolved one is left alone. */
  lemma RecordPushExactly(db: Db, id: Id, i: nat, refs: Option<Refs>)
    requires id in db.deliveries && i < |db.deliveries[id].operations|
    ensures var after := RecordPush(db, id, i, refs);
            var before := db.deliveries[id];
            && (before.operations[i].state == Confirmed ==> after == db)
            && (before.operations[i].state == SendUnknown ==>
                  && id in after.deliveries && |after.deliveries[id].operations| == |before.operations|
                  && var d := after.deliveries[id];
                     && (refs.Some? ==> d.operations[i].state == Confirmed && d.operations[i].seen == SeenRefs(refs.value) && d.state == Pushed)
                     && (refs.None? ==> d.operations[i].state == SendUnknown && d.state == Reconciling && d.reason == Some(RemoteResultUnknown)))
  {
  }

  /** Looking settles an unresolved push if and only if the managed branch is at the bound commit. */
  lemma SettleExactly(db: Db, id: Id, i: nat, refs: Refs)
    requires id in db.deliveries && i < |db.deliveries[id].operations|
    ensures var after := ReconcilePush(db, id, i, refs);
            var before := db.deliveries[id];
            && (before.operations[i].state == Confirmed ==> after == db)
            && (before.operations[i].state == SendUnknown ==>
                  && id in after.deliveries && |after.deliveries[id].operations| == |before.operations|
                  && var d := after.deliveries[id];
                     && d.operations[i].seen == SeenRefs(refs)
                     && (refs.head == Some(before.request.commit) ==> d.operations[i].state == Confirmed && d.state == Pushed && d.reason == None)
                     && (refs.head != Some(before.request.commit) ==>
                           d.operations[i].state == SendUnknown && d.state == Reconciling && d.reason == Some(RemoteResultUnknown)))
  {
  }

  // ---------------------------------------------------------------- publishing

  /** The pull request can be this run's: it is already, or neither the run nor the pull request is bound. */
  predicate Claimable(db: Db, request: Request, pr: Id) {
    if request.run in db.claims then db.claims[request.run] == Claim(request.repository, pr)
    else forall q :: q in db.claims ==> db.claims[q] != Claim(request.repository, pr)
  }

  /** A publication is recorded if and only if the delivery may act, nothing changed, and the pull request found agrees with the run's claim. */
  lemma OpenPublishExactly(db: Db, s: Snapshot, op: Id, existing: Option<Id>)
    requires s.id in db.deliveries && db.deliveries[s.id].request == s.request
    ensures var (after, mine) := OpenPublish(db, s, op, existing);
            var d := db.deliveries[s.id];
            && (mine <==>
                  && MayAct(db, s.request) && d == s
                  && (existing.Some? ==> Claimable(db, s.request, existing.value))
                  && (existing.None? ==> s.request.run !in db.claims))
            && (mine ==>
                  && s.id in after.deliveries && after.deliveries == db.deliveries[s.id := after.deliveries[s.id]]
                  && after.deliveries[s.id] == WithOperation(d, Operation(op, Publish, SendUnknown, NothingSeen, existing), Publishing))
            && (mine && existing.Some? ==>
                  s.request.run in after.claims && after.claims[s.request.run] == Claim(s.request.repository, existing.value))
            && (!mine && s.id in after.deliveries ==> after.deliveries[s.id].operations == d.operations && after.claims == db.claims)
  {
    ActivationExactly(db, s.request);
    hide ActivationReason, MayAct;
    if existing.Some? { assert Claimable(db, s.request, existing.value) <==> ClaimPr(db, s.request, existing.value).Some?; }
    hide Claimable;
  }

  /** Completion: everything the request asks for has been seen. */
  predicate CiPassed(request: Request, pr: PullRequest) {
    request.requireCi ==> pr.ciSha == Some(request.commit) && pr.ciStatus == Success
  }

  /**
   Confirming a pull request satisfies a delivery if and only if the claim stands, the delivery may act, verification and
   remote raise nothing, and CI passed on the bound commit where it is required.
   */
  lemma ConfirmExactly(db: Db, k: Id, i: nat, pr: PullRequest, verification: Option<Reason>, refs: Option<Refs>, remote: Option<Reason>)
    requires k in db.deliveries && i < |db.deliveries[k].operations|
    ensures var request := db.deliveries[k].request;
            var after := ConfirmPr(db, request, k, i, pr, verification, refs, remote);
            k in after.deliveries &&
            var d := after.deliveries[k];
            var free := MayAct(db, request) && verification.None? && remote.None?;
            if !Claimable(db, request, pr.id) then
              d == db.deliveries[k].(state := Blocked, reason := Some(PrIdentityConflict), satisfied := false) && after.claims == db.claims
            else
              && request.run in after.claims && after.claims[request.run] == Claim(request.repository, pr.id)
              && |d.operations| == |db.deliveries[k].operations|
              && d.operations[i].state == Confirmed && d.operations[i].seen == SeenPr(pr) && d.pr == Some(pr) && d.remote == refs
              && (d.satisfied <==> free && CiPassed(request, pr))
              && d.state == (if !free then Blocked else if CiPassed(request, pr) then Delivered else AwaitingCi)
              && (d.reason.None? <==> free)
              && (MayAct(db, request) && verification.Some? ==> d.reason == verification)
              && (MayAct(db, request) && verification.None? ==> d.reason == remote)
  {
    var request := db.deliveries[k].request;
    assert Claimable(db, request, pr.id) <==> ClaimPr(db, request, pr.id).Some?;
    if ClaimPr(db, request, pr.id).Some? {
      var claimed := ClaimPr(db, request, pr.id).value;
      ActivationExactly(claimed, request);
      assert claimed == db.(claims := claimed.claims) && request.run in claimed.claims && claimed.claims[request.run] == Claim(request.repository, pr.id);
      MayActFrame(db, claimed, request);
    }
    hide ActivationReason, MayAct, Claimable, ClaimPr;
  }

  lemma MayActFrame(a: Db, b: Db, request: Request)
    requires a.deliveries == b.deliveries && a.controls == b.controls
    ensures MayAct(a, request) <==> MayAct(b, request)
  {
  }
}
