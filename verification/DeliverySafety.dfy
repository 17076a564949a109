/**
 Safety of the delivery protocol in every reachable world.
 */
module DeliverySafety {
  import opened Common
  import opened DeliveryModel
  import opened DeliveryProtocol

  // ---------------------------------------------------------------- one delivery

  /** At most one push, and at most one publication, which comes only after a confirmed push. */
  predicate OpsShape(ops: seq<Operation>) {
    && |ops| <= 2
    && (|ops| >= 1 ==> ops[0].kind == Push)
    && (|ops| == 2 ==> ops[0].state == Confirmed && ops[1].kind == Publish && ops[1].id != ops[0].id)
  }

  /** What completion promises. */
  predicate Complete(d: Snapshot) {
    && d.state == Delivered && d.control == Active
    && d.pr.Some? && PrIdentity(d.request, d.pr.value) && d.pr.value.head == d.request.commit
    && d.remote == Some(Refs(Some(d.request.commit), Some(d.request.testedBase)))
    && CiDone(d.request, d.pr.value)
  }

  predicate SnapshotOk(d: Snapshot) {
    && OpsShape(d.operations)
    && (d.pr.Some? <==> |d.operations| == 2 && d.operations[1].state == Confirmed)
    && (|d.operations| >= 1 && d.operations[0].state == Confirmed ==> d.operations[0].seen.SeenRefs?)
    && (d.pr.Some? ==>
          d.operations[1].seen == SeenPr(d.pr.value) && PrIdentity(d.request, d.pr.value) && d.pr.value.head == d.request.commit)
    && (d.satisfied ==> Complete(d))
  }

  predicate RowOk(db: Db, k: Id, d: Snapshot) {
    var run := d.request.run;
    && d.id == k && SnapshotOk(d)
    && run in db.controls && d.control == db.controls[run]
    && run in db.targets && db.targets[run] == TargetOf(d.request)
    && (d.pr.Some? ==> run in db.claims && db.claims[run] == Claim(d.request.repository, d.pr.value.id))
  }

  // ---------------------------------------------------------------- the tables

  predicate RowsOk(db: Db) {
    forall k :: k in db.deliveries ==> RowOk(db, k, db.deliveries[k])
  }

  predicate UniqueRevisions(deliveries: map<Id, Snapshot>) {
    forall j, k :: j in deliveries && k in deliveries && SameRevision(deliveries[j].request, deliveries[k].request) ==> j == k
  }

  predicate BothPending(a: Snapshot, b: Snapshot) {
    a.request.run == b.request.run && Pending(a.operations) && Pending(b.operations)
  }

  /** A run has at most one delivery with an unresolved operation. */
  predicate OnePending(deliveries: map<Id, Snapshot>) {
    forall j, k :: j in deliveries && k in deliveries && BothPending(deliveries[j], deliveries[k]) ==> j == k
  }

  predicate ClaimsOk(claims: map<Id, Claim>) {
    forall r, q :: r in claims && q in claims && claims[r] == claims[q] ==> r == q
  }

  predicate SameBranch(a: Target, b: Target) {
    a.repository == b.repository && a.branch == b.branch
  }

  predicate TargetsOk(targets: map<Id, Target>) {
    forall r, q :: r in targets && q in targets && SameBranch(targets[r], targets[q]) ==> r == q
  }

  predicate DbOk(db: Db) {
    && RowsOk(db) && UniqueRevisions(db.deliveries) && OnePending(db.deliveries)
    && ClaimsOk(db.claims) && TargetsOk(db.targets)
  }

  /** Operations are only appended, keep their identity, and never go back from confirmed; a confirmed push keeps what was seen. */
  predicate OpsGrow(x: seq<Operation>, y: seq<Operation>) {
    && |x| <= |y|
    && forall i :: 0 <= i < |x| ==>
         && y[i].id == x[i].id && y[i].kind == x[i].kind && (x[i].state == Confirmed ==> y[i].state == Confirmed)
         && (i == 0 && x[i].state == Confirmed ==> y[i] == x[i])
  }

  /** Rows are never lost or rebound, operations only grow, and claims and targets stand. */
  predicate Grows(a: Db, b: Db) {
    && (forall k :: k in a.deliveries ==>
          k in b.deliveries && b.deliveries[k].request == a.deliveries[k].request &&
          OpsGrow(a.deliveries[k].operations, b.deliveries[k].operations))
    && (forall r :: r in a.claims ==> r in b.claims && b.claims[r] == a.claims[r])
    && (forall r :: r in a.targets ==> r in b.targets && b.targets[r] == a.targets[r])
  }

  lemma GrowsReflexive(a: Db)
    ensures Grows(a, a)
  {
  }

  lemma GrowsTransitive(a: Db, b: Db, c: Db)
    requires Grows(a, b) && Grows(b, c)
    ensures Grows(a, c)
  {
    forall k | k in a.deliveries
      ensures k in c.deliveries && c.deliveries[k].request == a.deliveries[k].request &&
              OpsGrow(a.deliveries[k].operations, c.deliveries[k].operations)
    {
      assert OpsGrow(a.deliveries[k].operations, b.deliveries[k].operations);
      assert OpsGrow(b.deliveries[k].operations, c.deliveries[k].operations);
    }
  }

  /** No other delivery of the run of `d` has an unresolved operation. */
  predicate Alone(deliveries: map<Id, Snapshot>, k: Id, d: Snapshot) {
    forall j :: j in deliveries && j != k && deliveries[j].request.run == d.request.run ==> !Pending(deliveries[j].operations)
  }

  lemma SameRequestsStayUnique(a: map<Id, Snapshot>, b: map<Id, Snapshot>)
    requires UniqueRevisions(a) && b.Keys == a.Keys && forall k :: k in a ==> b[k].request == a[k].request
    ensures UniqueRevisions(b)
  {
    hide SameRevision;
    forall j, k | j in b && k in b && SameRevision(b[j].request, b[k].request) ensures j == k {
      assert SameRevision(a[j].request, a[k].request);
    }
  }

  lemma OneStaysPending(a: map<Id, Snapshot>, k: Id, d: Snapshot)
    requires OnePending(a) && (Pending(d.operations) ==> Alone(a, k, d))
    ensures OnePending(a[k := d])
  {
    hide Pending;
  }

  lemma StoreGrows(db: Db, k: Id, d: Snapshot)
    requires k in db.deliveries && d.request == db.deliveries[k].request && OpsGrow(db.deliveries[k].operations, d.operations)
    ensures Grows(db, Store(db, k, d))
  {
  }

  /** Rewriting one row soundly keeps the tables sound. */
  lemma StoreKeeps(db: Db, k: Id, d: Snapshot)
    requires DbOk(db) && k in db.deliveries
    requires d.request == db.deliveries[k].request && RowOk(db, k, d)
    requires OpsGrow(db.deliveries[k].operations, d.operations)
    requires Pending(d.operations) ==> Alone(db.deliveries, k, d)
    ensures DbOk(Store(db, k, d)) && Grows(db, Store(db, k, d))
  {
    hide RowOk, UniqueRevisions, OnePending, ClaimsOk, TargetsOk, Pending, Alone, Grows, OpsGrow;
    var after := Store(db, k, d);
    StoreGrows(db, k, d);
    SameRequestsStayUnique(db.deliveries, after.deliveries);
    OneStaysPending(db.deliveries, k, d);
    forall j | j in after.deliveries ensures RowOk(after, j, after.deliveries[j]) {
      RowFrame(db, after, j, after.deliveries[j]);
    }
  }

  lemma RowFrame(a: Db, b: Db, k: Id, d: Snapshot)
    requires a.controls == b.controls && a.targets == b.targets && a.claims == b.claims
    ensures RowOk(a, k, d) <==> RowOk(b, k, d)
  {
  }

  /** A row that stays pending was the run's one pending row already. */
  lemma StillPending(db: Db, k: Id)
    requires DbOk(db) && k in db.deliveries && Pending(db.deliveries[k].operations)
    ensures Alone(db.deliveries, k, db.deliveries[k])
  {
    hide RowsOk, UniqueRevisions, ClaimsOk, TargetsOk, Pending;
    forall j | j in db.deliveries && j != k && db.deliveries[j].request.run == db.deliveries[k].request.run
      ensures !Pending(db.deliveries[j].operations)
    {
      assert !BothPending(db.deliveries[j], db.deliveries[k]);
    }
  }

  // ---------------------------------------------------------------- planning and control

  lemma PlanKeeps(db: Db, key: Id, request: Request, id: Id)
    requires DbOk(db)
    ensures var r := Plan(db, key, request, id);
            r.Ok? ==> DbOk(r.value) && Grows(db, r.value)
  {
    hide RowsOk, UniqueRevisions, OnePending, ClaimsOk, TargetsOk, Grows;
    var r := Plan(db, key, request, id);
    if r.Ok? {
      PlanRows(db, key, request, id);
      PlanTargets(db, key, request, id);
      PlanGrows(db, key, request, id);
      PlanUnique(db, key, request, id);
    }
  }

  lemma PlanGrows(db: Db, key: Id, request: Request, id: Id)
    ensures var r := Plan(db, key, request, id);
            r.Ok? ==> Grows(db, r.value) && r.value.claims == db.claims
  {
    hide SameRevision, OwnedElsewhere;
  }

  lemma PlanTargets(db: Db, key: Id, request: Request, id: Id)
    requires TargetsOk(db.targets)
    ensures var r := Plan(db, key, request, id);
            r.Ok? ==> TargetsOk(r.value.targets)
  {
    hide SameRevision;
    var r := Plan(db, key, request, id);
    if r.Ok? && key !in db.commands && request.run !in db.targets {
      assert forall q :: q in db.targets && q != request.run ==> !SameBranch(db.targets[q], TargetOf(request));
    }
  }

  lemma PlanUnique(db: Db, key: Id, request: Request, id: Id)
    requires UniqueRevisions(db.deliveries) && OnePending(db.deliveries)
    ensures var r := Plan(db, key, request, id);
            r.Ok? ==> UniqueRevisions(r.value.deliveries) && OnePending(r.value.deliveries)
  {
    hide OnePending, OwnedElsewhere;
    var r := Plan(db, key, request, id);
    if r.Ok? && r.value.deliveries != db.deliveries {
      var d := r.value.deliveries[id];
      assert r.value.deliveries == db.deliveries[id := d] && d.request == request;
      assert d.operations == [] && !Pending(d.operations);
      OneStaysPending(db.deliveries, id, d);
    }
  }

  lemma PlannedRowOk(id: Id, request: Request, control: Control)
    ensures SnapshotOk(NewSnapshot(id, request, control))
  {
  }

  lemma PlanRows(db: Db, key: Id, request: Request, id: Id)
    requires RowsOk(db)
    ensures var r := Plan(db, key, request, id);
            r.Ok? ==> RowsOk(r.value)
  {
    hide SnapshotOk, SameRevision, OwnedElsewhere;
    var r := Plan(db, key, request, id);
    if r.Ok? && r.value != db {
      forall k | k in r.value.deliveries ensures RowOk(r.value, k, r.value.deliveries[k]) {
        if k in db.deliveries && r.value.deliveries[k] == db.deliveries[k] {
          assert RowOk(db, k, db.deliveries[k]);
        } else {
          PlannedRowOk(id, request, r.value.deliveries[k].control);
        }
      }
    }
  }

  lemma ControlledOk(d: Snapshot, control: Control)
    requires SnapshotOk(d)
    ensures SnapshotOk(Controlled(d, control))
  {
  }

  lemma ControlKeeps(db: Db, key: Id, run: Id, control: Control)
    requires DbOk(db)
    ensures var r := SetControl(db, key, run, control);
            r.Ok? ==> DbOk(r.value) && Grows(db, r.value)
  {
    hide RowsOk, UniqueRevisions, OnePending, ClaimsOk, TargetsOk, Grows, ControlAll;
    var r := SetControl(db, key, run, control);
    GrowsReflexive(db);
    if r.Ok? && r.value != db {
      ControlRows(db, r.value, run, control);
      ControlPending(db.deliveries, run, control);
      ControlGrows(db, r.value, run, control);
      SameRequestsStayUnique(db.deliveries, r.value.deliveries);
    }
  }

  lemma ControlGrows(a: Db, b: Db, run: Id, control: Control)
    requires b.deliveries == ControlAll(a.deliveries, run, control) && b.claims == a.claims && b.targets == a.targets
    ensures Grows(a, b) && b.deliveries.Keys == a.deliveries.Keys
    ensures forall k :: k in a.deliveries ==> b.deliveries[k].request == a.deliveries[k].request
  {
  }

  lemma ControlPending(a: map<Id, Snapshot>, run: Id, control: Control)
    requires OnePending(a)
    ensures OnePending(ControlAll(a, run, control))
  {
    hide Pending;
    var b := ControlAll(a, run, control);
    forall j, k | j in b && k in b && BothPending(b[j], b[k]) ensures j == k {
      assert BothPending(a[j], a[k]);
    }
  }

  lemma ControlRow(a: Db, b: Db, k: Id, run: Id, control: Control)
    requires k in a.deliveries && RowOk(a, k, a.deliveries[k]) && b.claims == a.claims && b.targets == a.targets
    requires b.controls == a.controls[run := control]
    ensures RowOk(b, k, if a.deliveries[k].request.run == run then Controlled(a.deliveries[k], control) else a.deliveries[k])
  {
    hide SnapshotOk;
    ControlledOk(a.deliveries[k], control);
  }

  lemma ControlRows(a: Db, b: Db, run: Id, control: Control)
    requires RowsOk(a) && run in a.controls
    requires b.deliveries == ControlAll(a.deliveries, run, control) && b.claims == a.claims && b.targets == a.targets
    requires b.controls == a.controls[run := control]
    ensures RowsOk(b)
  {
    hide RowOk;
    forall k | k in b.deliveries ensures RowOk(b, k, b.deliveries[k]) {
      assert RowOk(a, k, a.deliveries[k]);
      ControlRow(a, b, k, run, control);
    }
  }

  // ---------------------------------------------------------------- the transactions of a call

  lemma BlockKeeps(db: Db, k: Id, reason: Reason)
    requires DbOk(db) && k in db.deliveries
    ensures DbOk(BlockStored(db, k, reason)) && Grows(db, BlockStored(db, k, reason))
  {
    var d := db.deliveries[k];
    assert RowOk(db, k, d);
    assert RowOk(db, k, Block(d, reason));
    if Pending(d.operations) { StillPending(db, k); }
    StoreKeeps(db, k, Block(d, reason));
  }

  lemma BlockUnchangedKeeps(db: Db, snapshot: Snapshot, reason: Reason)
    requires DbOk(db)
    ensures DbOk(BlockUnchanged(db, snapshot, reason)) && Grows(db, BlockUnchanged(db, snapshot, reason))
  {
    hide DbOk, Grows;
    if snapshot.id in db.deliveries && db.deliveries[snapshot.id] == snapshot {
      BlockKeeps(db, snapshot.id, reason);
    } else {
      GrowsReflexive(db);
    }
  }

  lemma MarkUnknownKeeps(db: Db, k: Id)
    requires DbOk(db) && k in db.deliveries
    ensures DbOk(MarkUnknown(db, k)) && Grows(db, MarkUnknown(db, k))
  {
    var d := db.deliveries[k];
    GrowsReflexive(db);
    if Pending(d.operations) {
      assert RowOk(db, k, d);
      StillPending(db, k);
      StoreKeeps(db, k, d.(state := State.Reconciling, reason := Some(RemoteResultUnknown), satisfied := false));
    }
  }

  /** An activated delivery is the only one of its run that can get an unresolved operation. */
  lemma ActivationIsExclusive(db: Db, k: Id)
    requires DbOk(db) && k in db.deliveries && ActivationReason(db, db.deliveries[k].request).None?
    ensures Alone(db.deliveries, k, db.deliveries[k])
    ensures db.controls[db.deliveries[k].request.run] == Active
  {
    hide RowsOk, ClaimsOk, TargetsOk, Pending, OnePending;
    forall j | j in db.deliveries && j != k && db.deliveries[j].request.run == db.deliveries[k].request.run
      ensures !Pending(db.deliveries[j].operations)
    {
      assert !SameRevision(db.deliveries[j].request, db.deliveries[k].request);
    }
  }

  lemma OpenPushKeeps(db: Db, snapshot: Snapshot, op: Id)
    requires DbOk(db) && snapshot.id in db.deliveries && snapshot.operations == []
    ensures var (after, mine) := OpenPush(db, snapshot, op);
            && DbOk(after) && Grows(db, after)
            && (mine ==> db.deliveries[snapshot.id].operations == [] &&
                         |after.deliveries[snapshot.id].operations| == 1 && after.deliveries[snapshot.id].operations[0].id == op)
  {
    hide DbOk, Grows, Superseded, EarlierPending;
    var (after, mine) := OpenPush(db, snapshot, op);
    GrowsReflexive(db);
    if mine {
      RowOf(db, snapshot.id);
      ActivationIsExclusive(db, snapshot.id);
      StoreKeeps(db, snapshot.id, after.deliveries[snapshot.id]);
    } else if after != db {
      BlockKeeps(db, snapshot.id, ActivationReason(db, db.deliveries[snapshot.id].request).value);
    }
  }

  lemma RowOf(db: Db, k: Id)
    requires DbOk(db) && k in db.deliveries
    ensures RowOk(db, k, db.deliveries[k])
  {
  }

  lemma RecordPushKeeps(db: Db, k: Id, refs: Option<Refs>)
    requires DbOk(db) && k in db.deliveries && |db.deliveries[k].operations| >= 1
    ensures DbOk(RecordPush(db, k, 0, refs)) && Grows(db, RecordPush(db, k, 0, refs))
  {
    hide DbOk, Grows;
    GrowsReflexive(db);
    var d := db.deliveries[k];
    RowOf(db, k);
    if d.operations[0].state != Confirmed {
      assert Pending(d.operations);
      StillPending(db, k);
      hide Alone, Pending;
      StoreKeeps(db, k, RecordPush(db, k, 0, refs).deliveries[k]);
    }
  }

  lemma ReconcilePushKeeps(db: Db, k: Id, refs: Refs)
    requires DbOk(db) && k in db.deliveries && |db.deliveries[k].operations| >= 1
    ensures DbOk(ReconcilePush(db, k, 0, refs)) && Grows(db, ReconcilePush(db, k, 0, refs))
  {
    hide DbOk, Grows;
    GrowsReflexive(db);
    var d := db.deliveries[k];
    RowOf(db, k);
    if d.operations[0].state != Confirmed {
      assert Pending(d.operations);
      StillPending(db, k);
      hide Alone, Pending;
      StoreKeeps(db, k, ReconcilePush(db, k, 0, refs).deliveries[k]);
    }
  }

  lemma ClaimRow(a: Db, b: Db, k: Id, run: Id)
    requires k in a.deliveries && RowOk(a, k, a.deliveries[k]) && b == a.(claims := b.claims)
    requires run !in a.claims && run in b.claims && b.claims == a.claims[run := b.claims[run]]
    ensures RowOk(b, k, a.deliveries[k])
  {
    hide SnapshotOk;
  }

  lemma ClaimGrows(a: Db, b: Db)
    requires b == a.(claims := b.claims) && forall r :: r in a.claims ==> r in b.claims && b.claims[r] == a.claims[r]
    ensures Grows(a, b)
  {
  }

  /** Claiming never rebinds a run and never shares a pull request between runs. */
  lemma ClaimKeeps(db: Db, request: Request, pr: Id)
    requires DbOk(db)
    ensures var after := ClaimPr(db, request, pr);
            after.Some? ==>
              && after.value == db.(claims := after.value.claims)
              && request.run in after.value.claims && after.value.claims[request.run] == Claim(request.repository, pr)
              && DbOk(after.value) && Grows(db, after.value)
  {
    hide UniqueRevisions, OnePending, TargetsOk, RowOk, Grows;
    GrowsReflexive(db);
    var after := ClaimPr(db, request, pr);
    if after.Some? && after.value != db {
      ClaimGrows(db, after.value);
      forall k | k in db.deliveries ensures RowOk(after.value, k, db.deliveries[k]) {
        assert RowOk(db, k, db.deliveries[k]);
        ClaimRow(db, after.value, k, request.run);
      }
    }
  }

  lemma OpenPublishKeeps(db: Db, snapshot: Snapshot, op: Id, existing: Option<Id>)
    requires DbOk(db) && snapshot.id in db.deliveries && |snapshot.operations| == 1 && snapshot.operations[0].state == Confirmed
    requires db.deliveries[snapshot.id].request == snapshot.request
    requires IndexOf(db.deliveries[snapshot.id].operations, op).None?
    ensures var (after, mine) := OpenPublish(db, snapshot, op, existing);
            && DbOk(after) && Grows(db, after)
            && (mine ==> |db.deliveries[snapshot.id].operations| == 1 &&
                         |after.deliveries[snapshot.id].operations| == 2 && after.deliveries[snapshot.id].operations[1].id == op)
  {
    hide DbOk, Grows, Superseded, EarlierPending, ClaimPr;
    var k := snapshot.id;
    var (after, mine) := OpenPublish(db, snapshot, op, existing);
    GrowsReflexive(db);
    RowOf(db, k);
    if mine {
      ActivationIsExclusive(db, k);
      var claimed := if existing.Some? then ClaimPr(db, snapshot.request, existing.value).value else db;
      if existing.Some? { ClaimKeeps(db, snapshot.request, existing.value); }
      RowOf(claimed, k);
      StoreKeeps(claimed, k, after.deliveries[k]);
      GrowsTransitive(db, claimed, after);
    } else if after != db {
      var reason := ActivationReason(db, db.deliveries[k].request);
      BlockKeeps(db, k, if reason.Some? then reason.value else PrIdentityConflict);
    }
  }

  /** The facts a confirming caller brings along. */
  predicate Checked(request: Request, pr: PullRequest, refs: Option<Refs>, remote: Option<Reason>) {
    && PrIdentity(request, pr) && pr.head == request.commit
    && (remote.None? ==> refs == Some(Refs(Some(request.commit), Some(request.testedBase))))
  }

  lemma ConfirmPrKeeps(db: Db, k: Id, pr: PullRequest, verification: Option<Reason>, refs: Option<Refs>, remote: Option<Reason>)
    requires DbOk(db) && k in db.deliveries && |db.deliveries[k].operations| == 2
    requires Checked(db.deliveries[k].request, pr, refs, remote)
    ensures var after := ConfirmPr(db, db.deliveries[k].request, k, 1, pr, verification, refs, remote);
            DbOk(after) && Grows(db, after)
  {
    hide DbOk, Grows, Superseded, EarlierPending, ClaimPr;
    var d := db.deliveries[k];
    var claimed := ClaimPr(db, d.request, pr.id);
    if claimed.None? {
      BlockKeeps(db, k, PrIdentityConflict);
    } else {
      ClaimKeeps(db, d.request, pr.id);
      RowOf(claimed.value, k);
      var after := ConfirmPr(db, d.request, k, 1, pr, verification, refs, remote);
      StoreKeeps(claimed.value, k, after.deliveries[k]);
      GrowsTransitive(db, claimed.value, after);
    }
  }
}
