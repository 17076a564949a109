/**
 What each command of the quota ledger does, written out on the rows it finds: when it is accepted, which rows change,
 and into what.
 */
module CapacityOutcomes {
  import opened Common
  import opened CapacityModel
  import opened CapacityFence
  import opened CapacityCommands
  import opened CapacityAdmission
  import opened CapacityInvariants
  import opened CapacityConservation
  import opened CapacityViews
  import opened CapacityMeaning

  /** The row of an admission, at its position. */
  predicate RowAt(ledger: Ledger, i: nat, id: Id) {
    i < |ledger.reservations| && ledger.reservations[i].id == id
  }

  lemma FoundAt(ledger: Ledger, i: nat, id: Id)
    requires UniqueIds(ledger.reservations) && RowAt(ledger, i, id)
    ensures Find(ledger.reservations, id) == Some(ledger.reservations[i])
  {
    FindIsTheRow(ledger.reservations, id);
    assert IdTaken(ledger.reservations, id);
  }

  lemma NotFound(ledger: Ledger, id: Id)
    ensures Find(ledger.reservations, id).None? <==> forall i :: 0 <= i < |ledger.reservations| ==> ledger.reservations[i].id != id
  {
    FindIsTheRow(ledger.reservations, id);
  }

  predicate UsageOnRecord(ledger: Ledger, id: Id) {
    exists i :: 0 <= i < |ledger.usage| && ledger.usage[i].receipt.admission == id
  }

  // ---------------------------------------------------------------- reconciliation

  /** The admission can be closed as never sent. */
  predicate NeverSent(ledger: Ledger, id: Id, ending: Ending) {
    ending.notSent && ending.localEnded && ending.remoteEnded && !UsageOnRecord(ledger, id)
  }

  /** The admission was active and is over at both ends with its usage complete. */
  predicate AllOver(ledger: Ledger, state: State, id: Id, ending: Ending) {
    && !ending.notSent && (state == Active || state == Unresolved)
    && ending.localEnded && ending.remoteEnded && ending.usageComplete && UsageOnRecord(ledger, id)
  }

  /** Something about an active admission is still open. */
  predicate StillOpen(ledger: Ledger, state: State, id: Id, ending: Ending) {
    && !ending.notSent && (state == Active || state == Unresolved)
    && !(ending.localEnded && ending.remoteEnded && ending.usageComplete) && (ending.usageComplete ==> UsageOnRecord(ledger, id))
  }

  /**
   Reconciling frees an admission if and only if it was never sent, or is over at both ends with its usage complete and on
   record; an active one with anything open is unresolved and keeps holding exactly what it held; nothing else changes.
   */
  lemma ReconcileExactly(ledger: Ledger, i: nat, id: Id, ending: Ending)
    requires UniqueIds(ledger.reservations) && RowAt(ledger, i, id)
    ensures var state := ledger.reservations[i].state;
            var after := Next(ledger, ReconcileCommand(id, ending));
            && |after.reservations| == |ledger.reservations| && after == ledger.(reservations := after.reservations)
            && (forall j :: 0 <= j < |ledger.reservations| && j != i ==> after.reservations[j] == ledger.reservations[j])
            && after.reservations[i] == ledger.reservations[i].(state := after.reservations[i].state)
            && after.reservations[i].state ==
               (if !(state == Reserved || state == Active || state == Unresolved) then state
                else if NeverSent(ledger, id, ending) then Released
                else if AllOver(ledger, state, id, ending) then Ended
                else if StillOpen(ledger, state, id, ending) then Unresolved
                else state)
    ensures var state := ledger.reservations[i].state;
            Apply(ledger, ReconcileCommand(id, ending)).Ok? <==>
              && (state == Reserved || state == Active || state == Unresolved)
              && (NeverSent(ledger, id, ending) || AllOver(ledger, state, id, ending) || StillOpen(ledger, state, id, ending))
  {
    FoundAt(ledger, i, id);
    hide Find, UniqueIds;
    assert HasUsage(ledger.usage, id) <==> UsageOnRecord(ledger, id);
    hide HasUsage, UsageOnRecord;
    forall j | 0 <= j < |ledger.reservations| && j != i ensures ledger.reservations[j].id != id { Distinguished(ledger, i, j); }
    var step := Reconcile(ledger, id, ending);
    if step.Ok? {
      var item := ledger.reservations[i];
      var next := Replace(ledger.reservations, item.(state := step.value.1.state));
      assert step.value.0 == ledger.(reservations := next);
    }
  }

  lemma Distinguished(ledger: Ledger, i: nat, j: nat)
    requires UniqueIds(ledger.reservations) && i < |ledger.reservations| && j < |ledger.reservations| && i != j
    ensures ledger.reservations[j].id != ledger.reservations[i].id
  {
  }

  /** An admission left unresolved holds what it held: nothing committed changes on any pool. */
  lemma OpenKeepsCommitted(ledger: Ledger, i: nat, id: Id, ending: Ending, pool: Pool)
    requires UniqueIds(ledger.reservations) && RowAt(ledger, i, id) && StillOpen(ledger, ledger.reservations[i].state, id, ending)
    ensures Committed(Next(ledger, ReconcileCommand(id, ending)), pool) == Committed(ledger, pool)
  {
    ReconcileExactly(ledger, i, id, ending);
    hide Next, UniqueIds, StillOpen, NeverSent, AllOver, Sum;
    var after := Next(ledger, ReconcileCommand(id, ending));
    HoldersAreTheSum(ledger.reservations, ledger.usage, pool);
    HoldersAreTheSum(after.reservations, after.usage, pool);
    forall j | 0 <= j < |ledger.reservations|
      ensures HolderDue(after.reservations[j], ledger.usage, pool) == HolderDue(ledger.reservations[j], ledger.usage, pool)
    {
      if j == i { assert ledger.reservations[i].state == Active || ledger.reservations[i].state == Unresolved by { OpenIsActive(ledger, i, id, ending); } }
    }
    assert HolderDues(after.reservations, ledger.usage, pool) == HolderDues(ledger.reservations, ledger.usage, pool);
  }

  lemma OpenIsActive(ledger: Ledger, i: nat, id: Id, ending: Ending)
    requires i < |ledger.reservations| && StillOpen(ledger, ledger.reservations[i].state, id, ending)
    ensures ledger.reservations[i].state == Active || ledger.reservations[i].state == Unresolved
  {
  }

  // ---------------------------------------------------------------- activation and cancellation

  /** A row as the marking of lapsed reservations leaves it. */
  function Marked(item: Reservation, account: Id, now: Time): Reservation {
    if item.account == account && item.state == Reserved && item.expiresAt <= now then item.(state := Expired) else item
  }

  /** Everything is as before but for the lapsed reservations of the account, written down. */
  predicate OnlyMarked(before: seq<Reservation>, after: seq<Reservation>, account: Id, now: Time, except: Option<nat>) {
    |after| == |before| &&
    forall j :: 0 <= j < |before| && except != Some(j) ==> after[j] == Marked(before[j], account, now)
  }

  /** A request is judged by its exact profile revision and the newest policy of that profile's account. */
  lemma BasisExactly(ledger: Ledger, request: Request)
    ensures var key := (request.profileId, request.profileRevision);
            && (Basis(ledger, request).Ok? <==>
                  && key in ledger.profiles && PoliciesFor(ledger, ledger.profiles[key].account) != []
                  && ledger.profiles[key].pools != []
                  && forall p :: p in ledger.profiles[key].pools ==> p in ledger.pools && ledger.pools[p].id == p)
            && (Basis(ledger, request).Ok? ==>
                  var policies := PoliciesFor(ledger, ledger.profiles[key].account);
                  Basis(ledger, request).value == (ledger.profiles[key], policies[|policies| - 1], |policies|))
  {
  }

  lemma BasisFrame(ledger: Ledger, items: seq<Reservation>, request: Request)
    ensures Basis(ledger.(reservations := items), request) == Basis(ledger, request)
    ensures Basis(ledger, request).Ok? ==> ProfileOk(ledger, Basis(ledger, request).value.0)
  {
  }

  /** Marking alone, and marking followed by overwriting one row. */
  lemma Marking(items: seq<Reservation>, i: nat, account: Id, now: Time, item: Reservation)
    requires UniqueIds(items) && i < |items| && item.id == items[i].id
    ensures var marked := Expire(items, account, now);
            && OnlyMarked(items, marked, account, now, Some(i)) && marked[i] == Marked(items[i], account, now)
            && OnlyMarked(items, Replace(marked, item), account, now, Some(i)) && Replace(marked, item)[i] == item
  {
    hide Expire, Replace;
    var marked := Expire(items, account, now);
    var replaced := Replace(marked, item);
    assert |marked| == |items| && |replaced| == |items|;
    forall j | 0 <= j < |items| && j != i
      ensures marked[j] == Marked(items[j], account, now) && replaced[j] == Marked(items[j], account, now)
    {
      assert items[j].id != items[i].id;
    }
    hide UniqueIds;
    assert OnlyMarked(items, marked, account, now, Some(i));
    assert OnlyMarked(items, replaced, account, now, Some(i));
  }

  /** Activation makes exactly an unlapsed reservation active whose request a complete evaluation without it admits now. */
  lemma ActivateExactly(ledger: Ledger, i: nat, id: Id, now: Time)
    requires UniqueIds(ledger.reservations) && RowAt(ledger, i, id)
    ensures var item := ledger.reservations[i];
            var others := Without(Held(ledger.reservations, item.account, now), id);
            var basis := Basis(ledger, item.request);
            var step := Apply(ledger, ActivateCommand(id, now));
            var passes := basis.Ok? &&
              Evaluate(ledger, item.request, basis.value.0, basis.value.1, basis.value.2, others, now).reasons == [];
            var granted := item.state == Reserved && now < item.expiresAt && passes;
            && (step.Ok? <==> item.state == Expired || (item.state == Reserved && (item.expiresAt <= now || basis.Ok?)))
            && (step.Ok? ==>
                  && step.value.0 == ledger.(reservations := step.value.0.reservations)
                  && OnlyMarked(ledger.reservations, step.value.0.reservations, item.account, now, Some(i))
                  && step.value.0.reservations[i] == (if granted then item.(state := Active) else Marked(item, item.account, now))
                  && step.value.1 == ActivationDecision(granted, if granted then [] else step.value.1.reasons)
                  && (granted <==> step.value.1.reasons == []))
  {
    hide Find, UniqueIds, Expire, Replace, OnlyMarked, Held, Without, Evaluate, Basis;
    FoundAt(ledger, i, id);
    var item := ledger.reservations[i];
    var marked := ledger.(reservations := Expire(ledger.reservations, item.account, now));
    var basis := Basis(ledger, item.request);
    var others := Without(Held(ledger.reservations, item.account, now), id);
    assert Basis(marked, item.request) == basis by { BasisFrame(ledger, marked.reservations, item.request); }
    if basis.Ok? {
      BasisFrame(ledger, marked.reservations, item.request);
      EvaluateFrame(ledger, marked.reservations, item.request, basis.value.0, basis.value.1, basis.value.2, others, now);
    }
    Marking(ledger.reservations, i, item.account, now, item.(state := Active));
  }

  /** Cancelling releases exactly an unlapsed reservation; an activated one is refused, a lapsed one stays expired. */
  lemma CancelExactly(ledger: Ledger, i: nat, id: Id, now: Time)
    requires UniqueIds(ledger.reservations) && RowAt(ledger, i, id)
    ensures var item := ledger.reservations[i];
            var step := Apply(ledger, CancelCommand(id, now));
            && (step.Ok? <==> item.state == Reserved || item.state == Expired)
            && (step.Ok? ==>
                  && step.value.0 == ledger.(reservations := step.value.0.reservations)
                  && OnlyMarked(ledger.reservations, step.value.0.reservations, item.account, now, Some(i))
                  && step.value.0.reservations[i].state == (if item.state == Reserved && now < item.expiresAt then Released else Expired)
                  && step.value.0.reservations[i] == item.(state := step.value.0.reservations[i].state)
                  && step.value.1 == StateReceipt(step.value.0.reservations[i].state))
  {
    hide Find, UniqueIds, Expire, Replace, OnlyMarked;
    FoundAt(ledger, i, id);
    var item := ledger.reservations[i];
    Marking(ledger.reservations, i, item.account, now, item.(state := Released));
  }

  // ---------------------------------------------------------------- admission

  /** Everything the rows must say for a request to be carried at an instant. */
  ghost predicate Carries(ledger: Ledger, request: Request, now: Time) {
    var key := (request.profileId, request.profileRevision);
    key in ledger.profiles && PoliciesFor(ledger, ledger.profiles[key].account) != [] &&
    var profile, policies := ledger.profiles[key], PoliciesFor(ledger, ledger.profiles[key].account);
    var held := Held(ledger.reservations, profile.account, now);
    && VectorFits(ledger, request, profile)
    && AccountFits(ledger, request, profile, policies[|policies| - 1], |policies|, |held|, now)
    && forall p :: p in profile.pools ==>
         p in ledger.pools && PoolFits(ledger, request, policies[|policies| - 1], held, now, ledger.pools[p])
  }

  lemma CarriesExactly(ledger: Ledger, request: Request, now: Time)
    requires Inv(ledger)
    ensures AdmissibleAt(ledger, request, now) <==> Carries(ledger, request, now)
  {
    hide Basis, Held, Evaluate, VectorFits, AccountFits, PoolFits, Inv;
    BasisExactly(ledger, request);
    var key := (request.profileId, request.profileRevision);
    if key in ledger.profiles && PoliciesFor(ledger, ledger.profiles[key].account) != [] {
      var profile, policies := ledger.profiles[key], PoliciesFor(ledger, ledger.profiles[key].account);
      ProfileFacts(ledger, key);
      EvaluationExactly(ledger, request, profile, policies[|policies| - 1], |policies|, Held(ledger.reservations, profile.account, now), now);
      assert Basis(ledger, request) == Ok((profile, policies[|policies| - 1], |policies|));
    }
    hide PoliciesFor;
  }

  lemma ProfileFacts(ledger: Ledger, key: (Id, nat))
    requires Inv(ledger) && key in ledger.profiles
    ensures ProfileOk(ledger, ledger.profiles[key])
    ensures forall p :: p in ledger.profiles[key].pools ==> ledger.pools[p].account == ledger.profiles[key].account
  {
    assert ProfileSound(ledger.pools, ledger.profiles[key]);
  }

  /** All readings of the clock that one admission makes, in the order it makes them. */
  function Readings(clock: AdmitClock): seq<Time> {
    [clock.first] + (if clock.afterReserve.Some? then [clock.afterReserve.value] else []) +
    (if clock.afterFacts.Some? then [clock.afterFacts.value.0, clock.afterFacts.value.1] else []) +
    [clock.assessed, clock.created, clock.written]
  }

  lemma ReadingsAscend(clock: AdmitClock)
    ensures Ascends(clock) <==> forall i :: 0 < i < |Readings(clock)| ==> Readings(clock)[i - 1] <= Readings(clock)[i]
  {
    var r := Readings(clock);
    var n := |r|;
    assert r[0] == clock.first && r[n - 3] == clock.assessed && r[n - 2] == clock.created && r[n - 1] == clock.written;
    if clock.afterReserve.Some? { assert r[1] == clock.afterReserve.value; }
    if clock.afterFacts.Some? { assert r[n - 5] == clock.afterFacts.value.0 && r[n - 4] == clock.afterFacts.value.1; }
  }

  /**
   An admission is granted if and only if the request is well formed, no row has its attempt or identity, the clock never
   goes back, the rows carry the request at the first and at the last reading, and it has not lapsed when it is written.
   */
  lemma GrantedExactly(ledger: Ledger, request: Request, id: Id, clock: AdmitClock)
    requires Inv(ledger)
    ensures Admitted(Apply(ledger, AdmitCommand(request, id, clock))) <==>
              && request.duration > 0.0 && request.demand != map[] && (forall p :: p in request.demand ==> request.demand[p] > 0)
              && (forall item :: item in ledger.reservations ==> item.request.attempt != request.attempt && item.id != id)
              && (forall i :: 0 < i < |Readings(clock)| ==> Readings(clock)[i - 1] <= Readings(clock)[i])
              && Carries(ledger, request, clock.first) && Carries(ledger, request, clock.written)
              && clock.written < clock.created + request.duration
  {
    ReadingsAscend(clock);
    NewNames(ledger.reservations, request.attempt, id);
    hide Admit, Ascends, Readings, AdmissibleAt, Carries, Inv, AttemptReserved, IdTaken;
    AdmittedExactly(ledger, request, id, clock);
    CarriesExactly(ledger, request, clock.first);
    CarriesExactly(ledger, request, clock.written);
  }

  lemma NewNames(items: seq<Reservation>, attempt: Id, id: Id)
    ensures !AttemptReserved(items, attempt) && !IdTaken(items, id) <==>
            forall item :: item in items ==> item.request.attempt != attempt && item.id != id
  {
    if forall item :: item in items ==> item.request.attempt != attempt && item.id != id {
      assert forall i :: 0 <= i < |items| ==> items[i] in items;
    }
  }

  // ---------------------------------------------------------------- observations

  /** No usage identity is on record twice. */
  predicate UniqueUsage(usage: seq<UsageRow>) {
    forall i, j :: 0 <= i < j < |usage| ==> usage[i].receipt.id != usage[j].receipt.id
  }

  lemma {:induction false} FindUsageExactly(usage: seq<UsageRow>, id: Id)
    requires UniqueUsage(usage)
    ensures FindUsage(usage, id).None? <==> forall i :: 0 <= i < |usage| ==> usage[i].receipt.id != id
    ensures forall i :: 0 <= i < |usage| && usage[i].receipt.id == id ==> FindUsage(usage, id) == Some(usage[i])
  {
    if usage != [] {
      var init := usage[..|usage| - 1];
      assert forall i :: 0 <= i < |init| ==> init[i] == usage[i];
      FindUsageExactly(init, id);
      assert usage[|usage| - 1] == Last(usage);
      if FindUsage(init, id).Some? && Last(usage).receipt.id != id {
        assert exists i :: 0 <= i < |init| && init[i].receipt.id == id;
      }
    }
  }

  /** Every covered usage is on record and names the pool. */
  predicate CoversKnown(usage: seq<UsageRow>, o: Observation) {
    forall c :: c in o.covered ==> exists i :: 0 <= i < |usage| && usage[i].receipt.id == c && o.pool in usage[i].receipt.amounts
  }

  lemma CoverageExactly(usage: seq<UsageRow>, o: Observation)
    requires UniqueUsage(usage)
    ensures CoverageKnown(usage, o.covered, o.pool) <==> CoversKnown(usage, o)
  {
    hide UniqueUsage, FindUsage;
    forall c ensures (FindUsage(usage, c).Some? && o.pool in FindUsage(usage, c).value.receipt.amounts) <==>
                     exists i :: 0 <= i < |usage| && usage[i].receipt.id == c && o.pool in usage[i].receipt.amounts
    {
      FindUsageExactly(usage, c);
    }
    if CoverageKnown(usage, o.covered, o.pool) {
      forall c | c in o.covered ensures exists i :: 0 <= i < |usage| && usage[i].receipt.id == c && o.pool in usage[i].receipt.amounts {
        var k :| 0 <= k < |o.covered| && o.covered[k] == c;
      }
    }
    if CoversKnown(usage, o) {
      forall k | 0 <= k < |o.covered|
        ensures FindUsage(usage, o.covered[k]).Some? && o.pool in FindUsage(usage, o.covered[k]).value.receipt.amounts
      {
        assert o.covered[k] in o.covered;
      }
    }
  }

  /** What an observation must be to be taken at all. */
  ghost predicate Observable(ledger: Ledger, o: Observation, now: Time) {
    && o.pool in ledger.pools && o.observedAt <= now && (o.resetAt.Some? ==> o.observedAt < o.resetAt.value)
    && (o.source == Manual ==> o.adjustmentReason.Some?)
    && (ledger.pools[o.pool].kind == PlatformAllowance ==> o.source != Official)
    && (o.metric == Unknown <==> o.amount.None?)
    && (o.metric == Remaining && o.limit.Some? ==> o.amount.value <= o.limit.value)
    && (o.covered != [] ==> o.coverageRef.Some? && |set c | c in o.covered| == |o.covered|) && CoversKnown(ledger.usage, o)
    && (ledger.pools[o.pool].windowKind == Fixed ==>
          forall e :: e in Applied(ledger.observations, o.pool) && e.window == o.window && e.resetAt.Some? ==> e.resetAt == o.resetAt)
  }

  /** It becomes the pool's state exactly if it is later than the last applied one, and in its window or after its reset. */
  predicate Advances(applied: seq<Observation>, o: Observation) {
    applied == [] ||
    (Last(applied).observedAt < o.observedAt &&
     (Last(applied).window == o.window || (Last(applied).resetAt.Some? && Last(applied).resetAt.value <= o.observedAt)))
  }

  lemma ObserveExactly(ledger: Ledger, o: Observation, now: Time)
    requires UniqueUsage(ledger.usage)
    ensures var step := Apply(ledger, ObserveCommand(o, now));
            var applied := Advances(Applied(ledger.observations, o.pool), o);
            && (step.Ok? <==> Observable(ledger, o, now))
            && (step.Ok? ==> step.value == (ledger.(observations := ledger.observations + [ObservationRow(o, now, applied)]),
                                            ObservationReceipt(applied)))
  {
    CoverageExactly(ledger.usage, o);
    DistinctExactly(o.covered);
    hide UniqueUsage, CoverageKnown, CoversKnown, Applied, Distinct;
    var applied := Applied(ledger.observations, o.pool);
    assert WindowConsistent(applied, o) <==>
           forall e :: e in applied && e.window == o.window && e.resetAt.Some? ==> e.resetAt == o.resetAt by {
      WindowsExactly(applied, o);
    }
    hide WindowConsistent;
  }

  lemma WindowsExactly(applied: seq<Observation>, o: Observation)
    ensures WindowConsistent(applied, o) <==>
            forall e :: e in applied && e.window == o.window && e.resetAt.Some? ==> e.resetAt == o.resetAt
  {
    if forall e :: e in applied && e.window == o.window && e.resetAt.Some? ==> e.resetAt == o.resetAt {
      forall i | 0 <= i < |applied| && applied[i].window == o.window && applied[i].resetAt.Some?
        ensures applied[i].resetAt == o.resetAt
      {
        assert applied[i] in applied;
      }
    }
  }

  // ---------------------------------------------------------------- policies

  function PoliciesFor(ledger: Ledger, account: Id): seq<Policy> {
    if account in ledger.policies then ledger.policies[account] else []
  }

  /** What a policy must be to be appended after the revision the caller saw. */
  predicate Adoptable(ledger: Ledger, policy: Policy, expectedRevision: nat) {
    && policy.maxActive > 0 && policy.maxDuration > 0.0 && policy.maxAge > 0.0
    && |PoliciesFor(ledger, policy.account)| == expectedRevision && policy.leadSlots <= policy.maxActive
    && (forall p :: p in policy.safetyMargin ==> p in ledger.pools && ledger.pools[p].account == policy.account)
    && (forall p :: p in policy.leadReserve ==> p in ledger.pools && ledger.pools[p].account == policy.account)
    && (forall p :: p in policy.leadReserve && Observed(ledger, p).Some? && Observed(ledger, p).value.limit.Some? ==>
          policy.leadReserve[p] <= Observed(ledger, p).value.limit.value)
  }

  lemma PolicyExactly(ledger: Ledger, policy: Policy, expectedRevision: nat)
    ensures var step := Apply(ledger, ActivatePolicyCommand(policy, expectedRevision));
            && (step.Ok? <==> Adoptable(ledger, policy, expectedRevision))
            && (step.Ok? ==>
                  && step.value.0 == ledger.(policies := ledger.policies[policy.account := PoliciesFor(ledger, policy.account) + [policy]])
                  && step.value.1 == PolicyReceipt(expectedRevision + 1))
  {
    hide Observed;
    var protected := policy.safetyMargin.Keys + policy.leadReserve.Keys;
    assert forall p :: p in protected <==> p in policy.safetyMargin || p in policy.leadReserve;
    if !(exists p :: p in protected && p !in ledger.pools) {
      assert (exists p :: p in protected && ExceedsLimit(ledger, policy, p)) <==>
             exists p :: p in policy.leadReserve && Observed(ledger, p).Some? && Observed(ledger, p).value.limit.Some? &&
                         policy.leadReserve[p] > Observed(ledger, p).value.limit.value;
    }
  }

  /** A change of protection is a policy revision that differs from the current one in the lead's reserve and slots alone. */
  lemma ProtectionExactly(ledger: Ledger, policy: Policy, expectedRevision: nat)
    ensures var step := Apply(ledger, UpdateProtectionCommand(policy, expectedRevision));
            var current := PoliciesFor(ledger, policy.account);
            && (step.Ok? <==>
                  && Adoptable(ledger, policy, expectedRevision) && current != []
                  && Last(current).(leadReserve := policy.leadReserve, leadSlots := policy.leadSlots) == policy)
            && (step.Ok? ==> step == Apply(ledger, ActivatePolicyCommand(policy, expectedRevision)))
  {
    PolicyExactly(ledger, policy, expectedRevision);
    assert Adoptable(ledger, policy, expectedRevision) ==> PolicyInput(policy) && |PoliciesFor(ledger, policy.account)| == expectedRevision;
    hide ActivatePolicy, Adoptable;
  }

  // ---------------------------------------------------------------- registration

  /** No pool or usage is named twice exactly if there are as many different names as names. */
  lemma DistinctExactly(s: seq<Id>)
    ensures Distinct(s) <==> |set x | x in s| == |s|
  {
    AllDifferent(s);
  }

  lemma RegistrationExactly(ledger: Ledger, pool: Pool, profile: Profile)
    ensures var step := Apply(ledger, RegisterPoolCommand(pool));
            && (step.Ok? <==> (pool.id in ledger.pools ==> ledger.pools[pool.id] == pool))
            && (step.Ok? ==> step.value.0 == ledger.(pools := ledger.pools[pool.id := pool]))
    ensures var step := Apply(ledger, RegisterProfileCommand(profile));
            var key := (profile.id, profile.revision);
            && (step.Ok? <==>
                  && profile.pools != [] && |set x | x in profile.pools| == |profile.pools|
                  && (forall p :: p in profile.pools ==> p in ledger.pools && ledger.pools[p].account == profile.account)
                  && (exists p :: p in profile.pools && ledger.pools[p].kind == Service)
                  && (key in ledger.profiles ==> ledger.profiles[key] == profile))
            && (step.Ok? ==> step.value.0 == ledger.(profiles := ledger.profiles[key := profile]))
  {
    DistinctExactly(profile.pools);
    hide Distinct;
    if pool.id in ledger.pools && ledger.pools[pool.id] == pool { assert ledger.pools[pool.id := pool] == ledger.pools; }
    var key := (profile.id, profile.revision);
    if key in ledger.profiles && ledger.profiles[key] == profile { assert ledger.profiles[key := profile] == ledger.profiles; }
  }

  // ---------------------------------------------------------------- usage and failures

  /** The window is one the pool was seen in. */
  predicate SeenWindow(applied: seq<Observation>, window: Id) {
    exists k :: 0 <= k < |applied| && applied[k].window == window
  }

  predicate LastSeenIn(applied: seq<Observation>, window: Id, k: nat) {
    k < |applied| && applied[k].window == window && forall j :: k < j < |applied| ==> applied[j].window != window
  }

  lemma {:induction false} WindowExactly(applied: seq<Observation>, window: Id)
    ensures LastInWindow(applied, window).Some? <==> SeenWindow(applied, window)
    ensures forall k: nat :: LastSeenIn(applied, window, k) ==> LastInWindow(applied, window) == Some(applied[k])
  {
    if applied != [] {
      var init := applied[..|applied| - 1];
      WindowExactly(init, window);
      assert forall j :: 0 <= j < |init| ==> init[j] == applied[j];
      if SeenWindow(init, window) {
        var k :| 0 <= k < |init| && init[k].window == window;
        assert applied[k].window == window;
      }
      forall k: nat | LastSeenIn(applied, window, k) ensures LastInWindow(applied, window) == Some(applied[k]) {
        if k < |init| {
          assert applied[|applied| - 1].window != window;
          assert LastSeenIn(init, window, k);
        }
      }
    }
  }

  /** What a new usage receipt must be for an admission. */
  ghost predicate Recordable(ledger: Ledger, receipt: UsageReceipt, item: Reservation) {
    && receipt.amounts != map[]
    && (item.state == Active || item.state == Unresolved || item.state == Ended)
    && receipt.amounts.Keys == item.request.demand.Keys && receipt.windows.Keys == item.request.demand.Keys
    && (forall p :: p in receipt.windows && receipt.windows[p].Some? ==>
          receipt.attributionRef.Some? && SeenWindow(Applied(ledger.observations, p), receipt.windows[p].value))
  }

  /** The row as recorded: the admission's account, and for every attributed window the reset it was last seen with. */
  ghost predicate RecordedFor(ledger: Ledger, row: UsageRow, receipt: UsageReceipt, item: Reservation) {
    && row.receipt == receipt && row.account == item.account && row.resets.Keys == receipt.windows.Keys
    && forall p :: p in receipt.windows ==>
         && (receipt.windows[p].None? ==> row.resets[p].None?)
         && (receipt.windows[p].Some? ==>
               forall k: nat :: LastSeenIn(Applied(ledger.observations, p), receipt.windows[p].value, k) ==>
                 row.resets[p] == Applied(ledger.observations, p)[k].resetAt)
  }

  lemma UsageRecordedExactly(ledger: Ledger, receipt: UsageReceipt, i: nat)
    requires UniqueIds(ledger.reservations) && UniqueUsage(ledger.usage) && RowAt(ledger, i, receipt.admission)
    requires forall k :: 0 <= k < |ledger.usage| ==> ledger.usage[k].receipt.id != receipt.id
    ensures var step := Apply(ledger, RecordUsageCommand(receipt));
            && (step.Ok? <==> Recordable(ledger, receipt, ledger.reservations[i]))
            && (step.Ok? ==>
                  && step.value.1.UsageRecorded? && RecordedFor(ledger, step.value.1.row, receipt, ledger.reservations[i])
                  && step.value.0 == ledger.(usage := ledger.usage + [step.value.1.row]))
  {
    FoundAt(ledger, i, receipt.admission);
    FindUsageExactly(ledger.usage, receipt.id);
    hide Find, UniqueIds, UniqueUsage, FindUsage, Applied, LastInWindow, SeenWindow;
    forall p, window ensures LastInWindow(Applied(ledger.observations, p), window).Some? <==> SeenWindow(Applied(ledger.observations, p), window) {
      WindowExactly(Applied(ledger.observations, p), window);
    }
    var step := RecordUsage(ledger, receipt);
    if step.Ok? {
      var row := step.value.1.row;
      forall p, k: nat | p in receipt.windows && receipt.windows[p].Some? &&
                         LastSeenIn(Applied(ledger.observations, p), receipt.windows[p].value, k)
        ensures row.resets[p] == Applied(ledger.observations, p)[k].resetAt
      {
        WindowExactly(Applied(ledger.observations, p), receipt.windows[p].value);
      }
    }
  }

  /** Usage on record is returned to exactly the same receipt, without effect; another one under its identity conflicts. */
  lemma UsageReplayExactly(ledger: Ledger, receipt: UsageReceipt, k: nat)
    requires UniqueUsage(ledger.usage) && receipt.amounts != map[] && k < |ledger.usage| && ledger.usage[k].receipt.id == receipt.id
    ensures Apply(ledger, RecordUsageCommand(receipt)) ==
              if ledger.usage[k].receipt == receipt then Ok((ledger, UsageRecorded(ledger.usage[k]))) else Err(UsageIdentityConflict)
  {
    FindUsageExactly(ledger.usage, receipt.id);
    hide FindUsage, UniqueUsage;
  }

  /** An account cools down for the longer of what was asked and what its current policy's conservative mode says. */
  lemma FailureExactly(ledger: Ledger, account: Id, reason: FailureReason, retryAfter: Time, now: Time)
    ensures var step := Apply(ledger, RecordFailureCommand(account, reason, retryAfter, now));
            var current := PoliciesFor(ledger, account);
            && (step.Ok? <==> current != [])
            && (step.Ok? ==>
                  var mode := Last(current).conservative;
                  var own := if mode.Some? && mode.value.cooldown.Some? then mode.value.cooldown.value else 0.0;
                  var until := now + if own < retryAfter then retryAfter else own;
                  step.value == (ledger.(failures := ledger.failures + [FailureRow(account, reason, now, until)]), FailureRecorded(until)))
  {
  }

  // ---------------------------------------------------------------- usage identities over runs

  lemma UsageStaysUnique(ledger: Ledger, command: Command)
    requires UniqueUsage(ledger.usage)
    ensures UniqueUsage(Next(ledger, command).usage)
  {
    hide Next, UniqueUsage;
    OtherTables(ledger, command);
    if command.RecordUsageCommand? {
      var receipt := command.receipt;
      UsageStep(ledger, receipt);
      if NewUsage(ledger, receipt).Some? {
        var row := NewUsage(ledger, receipt).value;
        assert row.receipt.id == receipt.id && FindUsage(ledger.usage, receipt.id).None? by { NewUsageIdentity(ledger, receipt); }
        FindUsageExactly(ledger.usage, receipt.id);
        OneMoreUsage(ledger.usage, row);
      }
    }
  }

  lemma NewUsageIdentity(ledger: Ledger, receipt: UsageReceipt)
    requires NewUsage(ledger, receipt).Some?
    ensures NewUsage(ledger, receipt).value.receipt.id == receipt.id && FindUsage(ledger.usage, receipt.id).None?
  {
    hide Find, FindUsage, WindowsKnown, ResetFor;
  }

  lemma OneMoreUsage(usage: seq<UsageRow>, row: UsageRow)
    requires UniqueUsage(usage) && forall i :: 0 <= i < |usage| ==> usage[i].receipt.id != row.receipt.id
    ensures UniqueUsage(usage + [row])
  {
  }

  lemma {:induction false} ReachableUsage(commands: seq<Command>)
    ensures UniqueUsage(Run(EmptyLedger, commands).usage)
  {
    hide Next;
    if commands != [] {
      ReachableUsage(commands[..|commands| - 1]);
      UsageStaysUnique(Run(EmptyLedger, commands[..|commands| - 1]), Last(commands));
    }
  }

  // ---------------------------------------------------------------- views

  /** What the owner is shown of a pool: its status, and the amounts as sums over the rows. */
  lemma ViewExactly(ledger: Ledger, pool: Pool, policy: Option<Policy>, held: seq<Reservation>, now: Time)
    ensures var view := ViewPool(ledger, pool, policy, held, now, FailuresOf(ledger.failures, pool.account));
            var observed := Observed(ledger, pool.id);
            && (view.status == Unconfigured <==> policy.None? || observed.None?)
            && (policy.Some? && observed.Some? ==>
                  var o := observed.value;
                  && (view.status == OutOfDate <==>
                        now < o.observedAt || o.observedAt + policy.value.maxAge < now || (o.resetAt.Some? && o.resetAt.value <= now))
                  && (view.status == Reported <==> Trusted(ledger, policy.value, now, pool, o) && NumericRemaining(o).Some?))
            && (observed.Some? ==> view.uncovered == Sum(LeftOvers(ledger.usage, pool, observed.value)))
            && view.future == Sum(Dues(held, ledger.usage, pool))
            && (view.forLead.Some? <==> view.status == Reported) && (view.forWorker.Some? <==> view.status == Reported)
            && (view.status == Reported ==>
                  && view.forLead.value == NumericRemaining(observed.value).value - view.uncovered - view.future
                                           - In(policy.value.safetyMargin, pool.id)
                  && view.forWorker.value == view.forLead.value - In(policy.value.leadReserve, pool.id))
  {
    var observed := Observed(ledger, pool.id);
    FutureIsTheSum(held, ledger.usage, pool);
    if observed.Some? {
      UncoveredIsTheSum(ledger.usage, pool, observed.value);
      SinceExactly(pool, ledger.failures, observed.value.observedAt);
    }
    hide Observed, FailuresOf, NumericRemaining, ExhaustedSince, ExhaustionReport, Sum, LeftOvers, Dues, Uncovered, Future;
    if observed.Some? {
      assert ExhaustedSince(pool, FailuresOf(ledger.failures, pool.account), observed.value.observedAt) <==>
             exists f :: f in ledger.failures && ExhaustionReport(pool, f) && observed.value.observedAt <= f.at;
    }
  }

  function NamedIn(account: AccountFacts, id: Id): seq<nat> {
    seq(|account.admissions|, i requires 0 <= i < |account.admissions| => if account.admissions[i].admission == id then 1 else 0)
  }

  function NamedAnywhere(facts: seq<AccountFacts>, id: Id): seq<nat> {
    seq(|facts|, k requires 0 <= k < |facts| => Sum(NamedIn(facts[k], id)))
  }

  lemma {:induction false} NamedCounted(admissions: seq<AdmissionFacts>, id: Id, account: AccountFacts)
    requires account.admissions == admissions
    ensures |Named(admissions, id)| == Sum(NamedIn(account, id))
    ensures forall a :: a in Named(admissions, id) <==> a in admissions && a.admission == id
  {
    if admissions != [] {
      var init, last := admissions[..|admissions| - 1], Last(admissions);
      var shorter := account.(admissions := init);
      NamedCounted(init, id, shorter);
      assert admissions == init + [last];
      assert NamedIn(account, id) == NamedIn(shorter, id) + [if last.admission == id then 1 else 0];
      SumOneMore(NamedIn(shorter, id), if last.admission == id then 1 else 0);
    }
  }

  lemma {:induction false} TaggedExactly(k: nat, found: seq<AdmissionFacts>)
    ensures |Tagged(k, found)| == |found|
    ensures forall m :: m in Tagged(k, found) <==> m.index == k && m.admission in found
  {
    if found != [] {
      TaggedExactly(k, found[..|found| - 1]);
      assert found == found[..|found| - 1] + [Last(found)];
    }
  }

  lemma {:induction false} MatchesCounted(facts: seq<AccountFacts>, id: Id)
    ensures |Matches(facts, id)| == Sum(NamedAnywhere(facts, id))
    ensures forall m :: m in Matches(facts, id) <==>
              m.index < |facts| && m.admission in facts[m.index].admissions && m.admission.admission == id
  {
    hide Tagged, Named, NamedIn;
    if facts != [] {
      var init, last := facts[..|facts| - 1], Last(facts);
      MatchesCounted(init, id);
      NamedCounted(last.admissions, id, last);
      TaggedExactly(|facts| - 1, Named(last.admissions, id));
      assert facts == init + [last];
      assert NamedAnywhere(facts, id) == NamedAnywhere(init, id) + [Sum(NamedIn(last, id))];
      SumOneMore(NamedAnywhere(init, id), Sum(NamedIn(last, id)));
      assert forall k :: 0 <= k < |init| ==> init[k] == facts[k];
    }
  }

  /** An owned claim can be taken out: it is active, effectively held and the very request, and every pool carries it. */
  ghost predicate TakenOut(account: AccountFacts, a: AdmissionFacts, id: Id, expected: Request) {
    && a.stored == Active && a.effective && a.reservation.id == id && a.reservation.request == expected
    && id in account.heldIds && account.heldAttempts > 0
    && forall p :: p in expected.demand ==>
         p in account.pools && expected.demand[p] <= account.pools[p].future + OwnConsumption(account.usage, id, p)
  }

  /** Deriving succeeds if and only if the identity is captured exactly once and that claim can be taken out. */
  lemma DeriveExactly(facts: seq<AccountFacts>, id: Id, expected: Request)
    requires forall k, p :: 0 <= k < |facts| && p in facts[k].pools ==> facts[k].pools[p].future >= 0
    ensures Derive(facts, Some(id), expected).View? <==>
              && Sum(NamedAnywhere(facts, id)) == 1
              && forall k, a :: 0 <= k < |facts| && a in facts[k].admissions && a.admission == id ==> TakenOut(facts[k], a, id, expected)
  {
    MatchesCounted(facts, id);
    hide Sum, NamedAnywhere, OwnConsumption;
    var matches := Matches(facts, id);
    if |matches| == 1 {
      var m := matches[0];
      assert m in matches;
      assert TakenOut(facts[m.index], m.admission, id, expected) <==>
             Claimed(facts[m.index], m.admission, id, expected) && Covers(facts[m.index], id, expected.demand);
      hide TakenOut, Claimed, Covers, Matches;
      forall k: nat, a | k < |facts| && a in facts[k].admissions && a.admission == id ensures k == m.index && a == m.admission {
        assert Match(k, a) in matches;
      }
    }
  }
}
