/**
 The read-only forms of the ledger: the owner's view of a pool, and the routing facts with one owned claim taken out.
 */
module CapacityViews {
  import opened Common
  import opened CapacityModel
  import opened CapacityFence
  import opened CapacityCommands
  import opened CapacityInvariants

  // ---------------------------------------------------------------- the owner's view

  datatype Status = Unconfigured | OutOfDate | Unclear | Reported

  datatype PoolView = PoolView(
    status: Status, remaining: Option<int>, uncovered: nat, future: nat, margin: nat, reserve: nat,
    forWorker: Option<int>, forLead: Option<int>)

  function ViewStatus(pool: Pool, policy: Option<Policy>, observed: Option<Observation>, now: Time, failures: seq<FailureRow>): Status {
    if policy.None? || observed.None? then Unconfigured
    else
      var o := observed.value;
      if Stale(policy.value, observed, now) then OutOfDate
      else if NumericRemaining(o).None? || (pool.kind == Service && policy.value.requireOfficial && o.source != Official) then Unclear
      else if ExhaustedSince(pool, failures, o.observedAt) then Unclear
      else Reported
  }

  function ViewPool(ledger: Ledger, pool: Pool, policy: Option<Policy>, held: seq<Reservation>, now: Time, failures: seq<FailureRow>)
    : PoolView
  {
    var observed := Observed(ledger, pool.id);
    var status := ViewStatus(pool, policy, observed, now, failures);
    var remaining := if observed.Some? then NumericRemaining(observed.value) else None;
    var uncovered := Uncovered(ledger.usage, pool, observed);
    var future := Future(held, ledger.usage, pool);
    var margin := if policy.Some? then Amount(policy.value.safetyMargin, pool.id) else 0;
    var reserve := if policy.Some? then Amount(policy.value.leadReserve, pool.id) else 0;
    var available := if remaining.Some? && status == Reported then Some(remaining.value - uncovered - future - margin) else None;
    PoolView(status, remaining, uncovered, future, margin, reserve,
             if available.Some? then Some(available.value - reserve) else None, available)
  }

  /** Each pool of a distinct vector is available exactly as its own verdict says. */
  lemma {:induction false} AvailablePoolByPool(ledger: Ledger, request: Request, policy: Policy, held: seq<Reservation>, now: Time,
                                               failures: seq<FailureRow>, pools: seq<Id>, id: Id)
    requires forall p :: p in pools ==> p in ledger.pools
    requires Distinct(pools)
    ensures var available := EvaluatePools(ledger, request, policy, held, now, failures, pools).available;
            if id in pools then
              var verdict := PoolQuota(ledger, request, policy, held, now, failures, ledger.pools[id]).available;
              (id in available <==> verdict.Some?) && (verdict.Some? ==> available[id] == verdict.value)
            else id !in available
  {
    hide PoolQuota;
    if pools != [] {
      var init := pools[..|pools| - 1];
      AvailablePoolByPool(ledger, request, policy, held, now, failures, init, id);
      assert pools == init + [Last(pools)];
    }
  }

  lemma VerdictIsView(ledger: Ledger, request: Request, policy: Policy, held: seq<Reservation>, now: Time,
                      failures: seq<FailureRow>, pool: Pool)
    ensures var verdict := PoolQuota(ledger, request, policy, held, now, failures, pool).available;
            var view := ViewPool(ledger, pool, Some(policy), held, now, failures);
            && (view.status == Reported <==> verdict.Some? && verdict.value.Quantity?)
            && (view.status == Reported ==>
                  && view.forWorker.Some? && view.forLead.Some?
                  && verdict.value.amount == if IsLead(request) then view.forLead.value else view.forWorker.value)
  {
    hide Exhausted, Uncovered, Future;
  }

  /**
   The owner's view agrees with admission: a pool is reported exactly when the evaluation quantifies it, and the two
   amounts shown are the ones a worker's and the lead's request would be measured against.
   */
  lemma ViewAgreesWithAdmission(ledger: Ledger, request: Request, profile: Profile, policy: Policy, revision: nat, now: Time, id: Id)
    requires ProfileOk(ledger, profile) && Distinct(profile.pools) && id in profile.pools
    requires request.demand.Keys == Elements(profile.pools)
    requires request.expected.Some? ==> request.expected.value.windows.Keys == Elements(profile.pools)
    ensures var held := Held(ledger.reservations, profile.account, now);
            var available := Evaluate(ledger, request, profile, policy, revision, held, now).available;
            var view := ViewPool(ledger, ledger.pools[id], Some(policy), held, now, FailuresOf(ledger.failures, profile.account));
            && (view.status == Reported <==> id in available && available[id].Quantity?)
            && (view.status == Reported ==>
                  && view.forWorker.Some? && view.forLead.Some?
                  && available[id].amount == if IsLead(request) then view.forLead.value else view.forWorker.value)
  {
    hide PoolQuota, ViewPool, EvaluatePools, AccountReasons;
    var held := Held(ledger.reservations, profile.account, now);
    var failures := FailuresOf(ledger.failures, profile.account);
    AvailablePoolByPool(ledger, request, policy, held, now, failures, profile.pools, id);
    VerdictIsView(ledger, request, policy, held, now, failures, ledger.pools[id]);
  }

  // ---------------------------------------------------------------- captured facts

  datatype AdmissionFacts = AdmissionFacts(admission: Id, stored: State, effective: bool, reservation: Reservation)
  datatype PoolFacts = PoolFacts(pool: Pool, uncovered: nat, future: int)
  datatype AccountFacts = AccountFacts(
    account: Id, heldAttempts: int, heldIds: multiset<Id>, admissions: seq<AdmissionFacts>, usage: seq<UsageRow>,
    pools: map<Id, PoolFacts>)

  function Ids(items: seq<Reservation>): multiset<Id> {
    if items == [] then multiset{} else Ids(items[..|items| - 1]) + multiset{Last(items).id}
  }

  function AdmissionsOf(items: seq<Reservation>, account: Id, now: Time): seq<AdmissionFacts> {
    if items == [] then []
    else
      var rest := AdmissionsOf(items[..|items| - 1], account, now);
      var item := Last(items);
      if item.account == account then rest + [AdmissionFacts(item.id, item.state, HeldAt(item, account, now), item)] else rest
  }

  function UsageOf(usage: seq<UsageRow>, account: Id): seq<UsageRow> {
    if usage == [] then []
    else
      var rest := UsageOf(usage[..|usage| - 1], account);
      if Last(usage).account == account then rest + [Last(usage)] else rest
  }

  /** The facts of one account, over a given set of held admissions. */
  function AccountOver(ledger: Ledger, account: Id, now: Time, held: seq<Reservation>): AccountFacts {
    AccountFacts(
      account, |held|, Ids(held), AdmissionsOf(ledger.reservations, account, now), UsageOf(ledger.usage, account),
      map p | p in ledger.pools && ledger.pools[p].account == account ::
        PoolFacts(ledger.pools[p], Uncovered(ledger.usage, ledger.pools[p], Observed(ledger, p)),
                  Future(held, ledger.usage, ledger.pools[p])))
  }

  /** What the store captures for the selected accounts. */
  function Capture(ledger: Ledger, accounts: seq<Id>, now: Time): (facts: seq<AccountFacts>)
    ensures |facts| == |accounts|
    ensures forall i :: 0 <= i < |accounts| ==>
              facts[i] == AccountOver(ledger, accounts[i], now, Held(ledger.reservations, accounts[i], now))
  {
    if accounts == [] then []
    else
      var account := Last(accounts);
      Capture(ledger, accounts[..|accounts| - 1], now) +
      [AccountOver(ledger, account, now, Held(ledger.reservations, account, now))]
  }

  // ---------------------------------------------------------------- taking one claim out

  function Named(admissions: seq<AdmissionFacts>, owned: Id): seq<AdmissionFacts> {
    if admissions == [] then []
    else
      var rest := Named(admissions[..|admissions| - 1], owned);
      if Last(admissions).admission == owned then rest + [Last(admissions)] else rest
  }

  datatype Match = Match(index: nat, admission: AdmissionFacts)

  function Tagged(index: nat, found: seq<AdmissionFacts>): (tagged: seq<Match>)
    ensures forall i :: 0 <= i < |tagged| ==> tagged[i].index == index
  {
    if found == [] then [] else Tagged(index, found[..|found| - 1]) + [Match(index, Last(found))]
  }

  function Matches(facts: seq<AccountFacts>, owned: Id): (matches: seq<Match>)
    ensures forall i :: 0 <= i < |matches| ==> matches[i].index < |facts|
  {
    if facts == [] then []
    else Matches(facts[..|facts| - 1], owned) + Tagged(|facts| - 1, Named(Last(facts).admissions, owned))
  }

  /** Consumption by the owned admission, as the captured usage shows it. */
  function OwnConsumption(usage: seq<UsageRow>, owned: Id, pool: Id): nat {
    if usage == [] then 0
    else
      OwnConsumption(usage[..|usage| - 1], owned, pool) +
      if Last(usage).receipt.admission == owned then Amount(Last(usage).receipt.amounts, pool) else 0
  }

  predicate Claimed(facts: AccountFacts, admission: AdmissionFacts, owned: Id, expected: Request) {
    && admission.stored == Active && admission.effective
    && admission.reservation.id == owned && admission.reservation.request == expected
    && owned in facts.heldIds && facts.heldAttempts > 0
  }

  /** The part of the demand that is still reserved for the owned admission. */
  function OwnFuture(facts: AccountFacts, owned: Id, demand: map<Id, nat>, pool: Id): nat
    requires pool in demand
  {
    Monus(demand[pool], OwnConsumption(facts.usage, owned, pool))
  }

  /** Every pool of the demand is known and holds at least what is taken out of it. */
  predicate Covers(facts: AccountFacts, owned: Id, demand: map<Id, nat>) {
    forall p :: p in demand ==> p in facts.pools && OwnFuture(facts, owned, demand, p) <= facts.pools[p].future
  }

  function Reduced(facts: AccountFacts, owned: Id, demand: map<Id, nat>): AccountFacts {
    facts.(
      heldAttempts := facts.heldAttempts - 1,
      heldIds := facts.heldIds - multiset{owned},
      pools := map p | p in facts.pools ::
        if p in demand then facts.pools[p].(future := facts.pools[p].future - OwnFuture(facts, owned, demand, p)) else facts.pools[p])
  }

  datatype Derived = View(facts: seq<AccountFacts>) | OwnershipInvalid

  function Derive(facts: seq<AccountFacts>, owned: Option<Id>, expected: Request): Derived {
    if owned.None? then View(facts)
    else
      var matches := Matches(facts, owned.value);
      if |matches| != 1 then OwnershipInvalid
      else
        var k, admission := matches[0].index, matches[0].admission;
        if !Claimed(facts[k], admission, owned.value, expected) then OwnershipInvalid
        else if !Covers(facts[k], owned.value, expected.demand) then OwnershipInvalid
        else View(facts[k := Reduced(facts[k], owned.value, expected.demand)])
  }

  // ---------------------------------------------------------------- the loops that compute it

  method CollectIn(k: nat, admissions: seq<AdmissionFacts>, owned: Id) returns (matches: seq<Match>)
    ensures matches == Tagged(k, Named(admissions, owned))
  {
    matches := [];
    for j := 0 to |admissions|
      invariant matches == Tagged(k, Named(admissions[..j], owned))
    {
      assert admissions[..j + 1][..j] == admissions[..j];
      if admissions[j].admission == owned {
        var found := Named(admissions[..j], owned);
        assert (found + [admissions[j]])[..|found|] == found;
        matches := matches + [Match(k, admissions[j])];
      }
    }
    assert admissions[..|admissions|] == admissions;
  }

  method CollectMatches(facts: seq<AccountFacts>, owned: Id) returns (matches: seq<Match>)
    ensures matches == Matches(facts, owned)
  {
    matches := [];
    for k := 0 to |facts|
      invariant matches == Matches(facts[..k], owned)
    {
      var more := CollectIn(k, facts[k].admissions, owned);
      assert facts[..k + 1][..k] == facts[..k];
      matches := matches + more;
    }
    assert facts[..|facts|] == facts;
  }

  method SumConsumption(usage: seq<UsageRow>, owned: Id, pool: Id) returns (total: nat)
    ensures total == OwnConsumption(usage, owned, pool)
  {
    total := 0;
    for i := 0 to |usage|
      invariant total == OwnConsumption(usage[..i], owned, pool)
    {
      assert usage[..i + 1][..i] == usage[..i];
      if usage[i].receipt.admission == owned {
        total := total + Amount(usage[i].receipt.amounts, pool);
      }
    }
    assert usage[..|usage|] == usage;
  }

  /** Takes the owned claim out of the captured facts, pool by pool, stopping at the first inconsistency. */
  method DeriveBoundaryFacts(facts: seq<AccountFacts>, owned: Option<Id>, expected: Request) returns (r: Derived)
    ensures r == Derive(facts, owned, expected)
  {
    if owned.None? {
      return View(facts);
    }
    var matches := CollectMatches(facts, owned.value);
    if |matches| != 1 {
      return OwnershipInvalid;
    }
    var k, admission := matches[0].index, matches[0].admission;
    var account := facts[k];
    if !Claimed(account, admission, owned.value, expected) {
      return OwnershipInvalid;
    }
    var demand := expected.demand;
    var pools := account.pools;
    var todo := demand.Keys;
    while todo != {}
      invariant todo <= demand.Keys
      invariant pools.Keys == account.pools.Keys
      invariant forall p :: p in demand && p !in todo ==>
                  p in account.pools && OwnFuture(account, owned.value, demand, p) <= account.pools[p].future
      invariant forall p :: p in pools ==>
                  pools[p] == if p in demand && p !in todo
                              then account.pools[p].(future := account.pools[p].future - OwnFuture(account, owned.value, demand, p))
                              else account.pools[p]
      decreases |todo|
    {
      var p :| p in todo;
      if p !in pools {
        return OwnershipInvalid;
      }
      var consumed := SumConsumption(account.usage, owned.value, p);
      var own := Monus(demand[p], consumed);
      if pools[p].future < own {
        return OwnershipInvalid;
      }
      pools := pools[p := pools[p].(future := pools[p].future - own)];
      todo := todo - {p};
    }
    var reduced := account.(heldAttempts := account.heldAttempts - 1, heldIds := account.heldIds - multiset{owned.value}, pools := pools);
    assert reduced.pools == Reduced(account, owned.value, demand).pools;
    return View(facts[k := reduced]);
  }

  // ---------------------------------------------------------------- what the derived view is

  /** The rows before the last one do not have its identity. */
  lemma Unfold(items: seq<Reservation>, account: Id, now: Time, id: Id)
    requires UniqueIds(items) && items != []
    ensures var init, item := items[..|items| - 1], Last(items);
            && UniqueIds(init)
            && Find(items, id) == (if item.id == id then Some(item) else Find(init, id))
            && (item.id == id ==> Find(init, id).None?)
            && Held(items, account, now) == Held(init, account, now) + if HeldAt(item, account, now) then [item] else []
  {
    var init, item := items[..|items| - 1], Last(items);
    FindIsTheRow(init, id);
    assert items == init + [item];
  }

  /** Whether the admission is one of those held. */
  predicate Mine(items: seq<Reservation>, account: Id, now: Time, id: Id) {
    var own := Find(items, id);
    own.Some? && HeldAt(own.value, account, now)
  }

  lemma {:induction false} FutureWithoutOwn(items: seq<Reservation>, account: Id, now: Time, id: Id, usage: seq<UsageRow>, pool: Pool)
    requires UniqueIds(items)
    ensures Future(Held(items, account, now), usage, pool) ==
              Future(Without(Held(items, account, now), id), usage, pool) +
              if Mine(items, account, now, id) then Unconsumed(Find(items, id).value, usage, pool) else 0
  {
    if items != [] {
      var init, item := items[..|items| - 1], Last(items);
      hide Unconsumed, Held, Find, UniqueIds, HeldAt, Future, Without;
      Unfold(items, account, now, id);
      FutureWithoutOwn(init, account, now, id, usage, pool);
      WithoutSnoc(Held(init, account, now), item, id, usage, pool);
      FutureSnoc(Held(init, account, now), item, usage, pool);
      assert Held(init, account, now) + [] == Held(init, account, now);
    }
  }

  lemma {:induction false} HeldWithoutOwn(items: seq<Reservation>, account: Id, now: Time, id: Id)
    requires UniqueIds(items)
    ensures var held, mine := Held(items, account, now), Mine(items, account, now, id);
            && |held| == |Without(held, id)| + (if mine then 1 else 0)
            && Ids(held) == Ids(Without(held, id)) + (if mine then multiset{id} else multiset{})
  {
    if items != [] {
      var init, item := items[..|items| - 1], Last(items);
      hide Held, Find, UniqueIds, HeldAt, Without, Ids;
      Unfold(items, account, now, id);
      HeldWithoutOwn(init, account, now, id);
      IdsSnoc(Held(init, account, now), item, id);
      assert Held(init, account, now) + [] == Held(init, account, now);
    }
  }

  lemma IdsSnoc(held: seq<Reservation>, item: Reservation, id: Id)
    ensures Ids(held + [item]) == Ids(held) + multiset{item.id}
    ensures |Without(held + [item], id)| == |Without(held, id)| + if item.id == id then 0 else 1
    ensures Ids(Without(held + [item], id)) == Ids(Without(held, id)) + if item.id == id then multiset{} else multiset{item.id}
  {
    assert (held + [item])[..|held + [item]| - 1] == held;
    var rest := Without(held, id);
    assert (rest + [item])[..|rest + [item]| - 1] == rest;
  }

  lemma {:induction false} OwnConsumptionIsConsumed(usage: seq<UsageRow>, account: Id, owned: Id, pool: Id)
    ensures OwnConsumption(UsageOf(usage, account), owned, pool) == Consumed(usage, account, owned, pool)
  {
    if usage != [] {
      var init := usage[..|usage| - 1];
      OwnConsumptionIsConsumed(init, account, owned, pool);
      var kept := UsageOf(init, account);
      assert (kept + [Last(usage)])[..|kept|] == kept;
    }
  }

  lemma {:induction false} NamedExactly(items: seq<Reservation>, account: Id, now: Time, id: Id)
    requires UniqueIds(items)
    ensures var own := Find(items, id);
            Named(AdmissionsOf(items, account, now), id) ==
              if own.Some? && own.value.account == account
              then [AdmissionFacts(id, own.value.state, HeldAt(own.value, account, now), own.value)] else []
  {
    if items != [] {
      var init, item := items[..|items| - 1], Last(items);
      NamedExactly(init, account, now, id);
      var admissions := AdmissionsOf(init, account, now);
      var entry := AdmissionFacts(item.id, item.state, HeldAt(item, account, now), item);
      assert (admissions + [entry])[..|admissions|] == admissions;
      FindIsTheRow(init, id);
      assert items == init + [item];
    }
  }

  lemma {:induction false} MatchesExactly(ledger: Ledger, accounts: seq<Id>, now: Time, id: Id)
    requires UniqueIds(ledger.reservations) && Distinct(accounts) && Find(ledger.reservations, id).Some?
    ensures var own := Find(ledger.reservations, id).value;
            var matches := Matches(Capture(ledger, accounts, now), id);
            if own.account in accounts then
              && |matches| == 1 && matches[0].index < |accounts| && accounts[matches[0].index] == own.account
              && matches[0].admission == AdmissionFacts(id, own.state, HeldAt(own, own.account, now), own)
            else matches == []
  {
    if accounts != [] {
      hide AccountOver, Held, HeldAt, Find, UniqueIds, Named, AdmissionsOf;
      CaptureUnfold(ledger, accounts, now);
      var init, account := accounts[..|accounts| - 1], Last(accounts);
      MatchesExactly(ledger, init, now, id);
      NamedExactly(ledger.reservations, account, now, id);
      OverAdmissions(ledger, account, now);
      hide Capture, Tagged, Distinct;
      var own := Find(ledger.reservations, id).value;
      if own.account == account {
        TaggedOne(|init|, AdmissionFacts(id, own.state, HeldAt(own, account, now), own));
      } else {
        TaggedNone(|init|);
      }
    }
  }

  lemma CaptureUnfold(ledger: Ledger, accounts: seq<Id>, now: Time)
    requires accounts != [] && Distinct(accounts)
    ensures var init, facts := accounts[..|accounts| - 1], Capture(ledger, accounts, now);
            && facts[..|facts| - 1] == Capture(ledger, init, now)
            && Distinct(init) && Last(accounts) !in init && accounts == init + [Last(accounts)]
  {
  }

  lemma TaggedOne(k: nat, entry: AdmissionFacts)
    ensures Tagged(k, [entry]) == [Match(k, entry)]
  {
  }

  lemma TaggedNone(k: nat)
    ensures Tagged(k, []) == []
  {
  }

  lemma OverAdmissions(ledger: Ledger, account: Id, now: Time)
    ensures AccountOver(ledger, account, now, Held(ledger.reservations, account, now)).admissions ==
              AdmissionsOf(ledger.reservations, account, now)
  {
  }

  /** The demand of an admission names pools of its own account only. */
  lemma DemandIsOwn(ledger: Ledger, id: Id)
    requires Inv(ledger) && Find(ledger.reservations, id).Some?
    ensures var own := Find(ledger.reservations, id).value;
            && own.id == id
            && forall p :: p in own.request.demand ==>
                 p in ledger.pools && ledger.pools[p].id == p && ledger.pools[p].account == own.account
  {
    FindIsTheRow(ledger.reservations, id);
    var own := Find(ledger.reservations, id).value;
    var key := (own.request.profileId, own.request.profileRevision);
    hide CountsOk, UsageOk, RequestInput;
    assert ItemOk(ledger.profiles, own);
    assert ProfileSound(ledger.pools, ledger.profiles[key]);
    forall p | p in own.request.demand
      ensures p in ledger.pools && ledger.pools[p].account == own.account
    {
      assert p in Elements(ledger.profiles[key].pools);
    }
  }

  lemma PoolAfterRelease(ledger: Ledger, id: Id, now: Time, p: Id)
    requires Inv(ledger) && Find(ledger.reservations, id).Some? && Find(ledger.reservations, id).value.state == Active
    requires p in ledger.pools && ledger.pools[p].account == Find(ledger.reservations, id).value.account
    ensures var own := Find(ledger.reservations, id).value;
            var held := Held(ledger.reservations, own.account, now);
            Future(held, ledger.usage, ledger.pools[p]) ==
              Future(Without(held, id), ledger.usage, ledger.pools[p]) +
              if p in own.request.demand
              then Monus(own.request.demand[p], OwnConsumption(UsageOf(ledger.usage, own.account), id, p)) else 0
  {
    DemandIsOwn(ledger, id);
    assert UniqueIds(ledger.reservations) && ledger.pools[p].id == p by { InvParts(ledger); }
    hide Inv, Find, UniqueIds, Held, Without, Future, OwnConsumption, UsageOf, Consumed;
    var own := Find(ledger.reservations, id).value;
    FutureWithoutOwn(ledger.reservations, own.account, now, id, ledger.usage, ledger.pools[p]);
    OwnConsumptionIsConsumed(ledger.usage, own.account, id, p);
  }

  lemma OwnIsHeld(ledger: Ledger, id: Id, now: Time)
    requires Inv(ledger) && Find(ledger.reservations, id).Some? && Find(ledger.reservations, id).value.state == Active
    ensures var own := Find(ledger.reservations, id).value;
            var held := Held(ledger.reservations, own.account, now);
            && |held| == |Without(held, id)| + 1
            && Ids(held) == Ids(Without(held, id)) + multiset{id}
            && own.id == id
  {
    DemandIsOwn(ledger, id);
    assert UniqueIds(ledger.reservations) by { InvParts(ledger); }
    hide Inv, Find, UniqueIds, Held, Without, Ids;
    HeldWithoutOwn(ledger.reservations, Find(ledger.reservations, id).value.account, now, id);
  }

  /** Taking the claim out of the account's facts gives the facts over the other held admissions. */
  lemma ReducedIsWithout(ledger: Ledger, id: Id, now: Time)
    requires Inv(ledger) && Find(ledger.reservations, id).Some? && Find(ledger.reservations, id).value.state == Active
    ensures var own := Find(ledger.reservations, id).value;
            var held := Held(ledger.reservations, own.account, now);
            var facts := AccountOver(ledger, own.account, now, held);
            && Covers(facts, id, own.request.demand)
            && Reduced(facts, id, own.request.demand) == AccountOver(ledger, own.account, now, Without(held, id))
            && Claimed(facts, AdmissionFacts(id, Active, true, own), id, own.request)
  {
    hide Inv, Find, Held, Without, Future, Uncovered, Ids, OwnConsumption, UsageOf, AdmissionsOf, Observed;
    var own := Find(ledger.reservations, id).value;
    var held := Held(ledger.reservations, own.account, now);
    var facts := AccountOver(ledger, own.account, now, held);
    DemandIsOwn(ledger, id);
    OwnIsHeld(ledger, id, now);
    forall p | p in ledger.pools && ledger.pools[p].account == own.account
      ensures facts.pools[p].future == Future(Without(held, id), ledger.usage, ledger.pools[p]) +
                (if p in own.request.demand then OwnFuture(facts, id, own.request.demand, p) else 0)
    {
      PoolAfterRelease(ledger, id, now, p);
    }
    var reduced, ideal := Reduced(facts, id, own.request.demand), AccountOver(ledger, own.account, now, Without(held, id));
    assert reduced.pools == ideal.pools;
    assert reduced.heldIds == ideal.heldIds;
  }

  /**
   For facts captured around an active admission with the request it was stored with, deriving the boundary view never
   fails, and the result is what capturing the same instant without that one admission would have shown.
   */
  lemma DerivedIsRecomputed(ledger: Ledger, accounts: seq<Id>, id: Id, now: Time)
    requires Inv(ledger) && Distinct(accounts)
    requires Find(ledger.reservations, id).Some? && Find(ledger.reservations, id).value.state == Active
    requires Find(ledger.reservations, id).value.account in accounts
    ensures var own := Find(ledger.reservations, id).value;
            var facts := Capture(ledger, accounts, now);
            var derived := Derive(facts, Some(id), own.request);
            && derived.View? && |derived.facts| == |accounts|
            && forall k :: 0 <= k < |accounts| ==>
                 derived.facts[k] ==
                   if accounts[k] == own.account
                   then AccountOver(ledger, own.account, now, Without(Held(ledger.reservations, own.account, now), id))
                   else facts[k]
  {
    hide Inv, Find, UniqueIds, Held, Matches, Covers, Reduced, Claimed, Without, AccountOver, Capture;
    assert UniqueIds(ledger.reservations) by { InvParts(ledger); }
    MatchesExactly(ledger, accounts, now, id);
    ReducedIsWithout(ledger, id, now);
  }
}
