/**
 What the quota ledger decides, written out on the rows of its tables.

 Nothing here is stated through the functions that compute the decisions: amounts are sums over rows picked by plain
 conditions, and every verdict is the conjunction of what the request, the policy and the rows must satisfy.
 */
module CapacityMeaning {
  import opened Common
  import opened CapacityModel
  import opened CapacityFence
  import opened CapacityCommands
  import opened CapacityAdmission
  import opened CapacityInvariants
  import opened CapacityConservation

  // ---------------------------------------------------------------- amounts

  /** The row is attributed to another window, whose reset was over when the observation was made. */
  predicate EndedWindow(row: UsageRow, pool: Id, o: Observation) {
    && pool in row.receipt.windows && row.receipt.windows[pool].Some? && row.receipt.windows[pool].value != o.window
    && pool in row.resets && row.resets[pool].Some? && row.resets[pool].value <= o.observedAt
  }

  /** What one usage row leaves to subtract from an observation's report of a pool. */
  function LeftOver(row: UsageRow, pool: Pool, o: Observation): nat {
    if row.account != pool.account || pool.id !in row.receipt.amounts || row.receipt.id in o.covered then 0
    else if pool.windowKind == Fixed && EndedWindow(row, pool.id, o) then 0
    else row.receipt.amounts[pool.id]
  }

  /** The usage of an account's pool that an observation does not cover, row by row. */
  function LeftOvers(usage: seq<UsageRow>, pool: Pool, o: Observation): seq<nat> {
    seq(|usage|, i requires 0 <= i < |usage| => LeftOver(usage[i], pool, o))
  }

  lemma RowLeavesOver(usage: seq<UsageRow>, row: UsageRow, pool: Pool, o: Observation)
    ensures Uncovered(usage + [row], pool, Some(o)) == Uncovered(usage, pool, Some(o)) + LeftOver(row, pool, o)
  {
    UncoveredSnoc(usage, row, pool, Some(o));
  }

  /** The uncovered amount is the sum over exactly the rows of the account that name the pool and are neither covered nor in an ended window. */
  lemma {:induction false} UncoveredIsTheSum(usage: seq<UsageRow>, pool: Pool, o: Observation)
    ensures Uncovered(usage, pool, Some(o)) == Sum(LeftOvers(usage, pool, o))
  {
    if usage != [] {
      var init, row := usage[..|usage| - 1], Last(usage);
      UncoveredIsTheSum(init, pool, o);
      RowLeavesOver(init, row, pool, o);
      assert usage == init + [row];
      assert LeftOvers(usage, pool, o) == LeftOvers(init, pool, o) + [LeftOver(row, pool, o)];
      SumOneMore(LeftOvers(init, pool, o), LeftOver(row, pool, o));
    }
  }

  /** Covered usage and usage of an ended fixed window count nothing; other usage of the pool counts in full. */
  lemma RowsInFull(usage: seq<UsageRow>, row: UsageRow, pool: Pool, o: Observation)
    requires row.account == pool.account && pool.id in row.receipt.amounts
    ensures var before, after := Uncovered(usage, pool, Some(o)), Uncovered(usage + [row], pool, Some(o));
            && (row.receipt.id in o.covered ==> after == before)
            && (row.receipt.id !in o.covered && (pool.id !in row.receipt.windows || row.receipt.windows[pool.id].None?) ==>
                  after == before + row.receipt.amounts[pool.id])
            && (pool.windowKind != Fixed && row.receipt.id !in o.covered ==> after == before + row.receipt.amounts[pool.id])
            && (pool.windowKind == Fixed && EndedWindow(row, pool.id, o) ==> after == before)
  {
    RowLeavesOver(usage, row, pool, o);
  }

  function UsedBy(row: UsageRow, account: Id, admission: Id, pool: Id): nat {
    if row.account == account && row.receipt.admission == admission && pool in row.receipt.amounts then row.receipt.amounts[pool] else 0
  }

  function Uses(usage: seq<UsageRow>, account: Id, admission: Id, pool: Id): seq<nat> {
    seq(|usage|, i requires 0 <= i < |usage| => UsedBy(usage[i], account, admission, pool))
  }

  lemma {:induction false} ConsumedIsTheSum(usage: seq<UsageRow>, account: Id, admission: Id, pool: Id)
    ensures Consumed(usage, account, admission, pool) == Sum(Uses(usage, account, admission, pool))
  {
    if usage != [] {
      var init, row := usage[..|usage| - 1], Last(usage);
      ConsumedIsTheSum(init, account, admission, pool);
      ConsumedSnoc(init, row, account, admission, pool);
      assert usage == init + [row];
      assert Uses(usage, account, admission, pool) == Uses(init, account, admission, pool) + [UsedBy(row, account, admission, pool)];
      SumOneMore(Uses(init, account, admission, pool), UsedBy(row, account, admission, pool));
    }
  }

  /** The demand of an admission on a pool that its usage has not used up. */
  function StillDue(item: Reservation, usage: seq<UsageRow>, pool: Pool): nat {
    var demand := if pool.id in item.request.demand then item.request.demand[pool.id] else 0;
    var used := Sum(Uses(usage, pool.account, item.id, pool.id));
    if demand <= used then 0 else demand - used
  }

  function Dues(held: seq<Reservation>, usage: seq<UsageRow>, pool: Pool): seq<nat> {
    seq(|held|, i requires 0 <= i < |held| => StillDue(held[i], usage, pool))
  }

  /** The future amount is the sum of what every held admission has still due. */
  lemma {:induction false} FutureIsTheSum(held: seq<Reservation>, usage: seq<UsageRow>, pool: Pool)
    ensures Future(held, usage, pool) == Sum(Dues(held, usage, pool))
  {
    if held != [] {
      var init, item := held[..|held| - 1], Last(held);
      FutureIsTheSum(init, usage, pool);
      FutureSnoc(init, item, usage, pool);
      ConsumedIsTheSum(usage, pool.account, item.id, pool.id);
      assert held == init + [item];
      assert Dues(held, usage, pool) == Dues(init, usage, pool) + [StillDue(item, usage, pool)];
      SumOneMore(Dues(init, usage, pool), StillDue(item, usage, pool));
    }
  }

  predicate Occupies(item: Reservation, account: Id, now: Time) {
    item.account == account &&
    (item.state == Active || item.state == Unresolved || (item.state == Reserved && now < item.expiresAt))
  }

  function Chosen(items: seq<Reservation>, account: Id, now: Time): seq<nat> {
    seq(|items|, i requires 0 <= i < |items| => if Occupies(items[i], account, now) then 1 else 0)
  }

  /** Held are exactly the account's active and unresolved admissions and its reservations that have not lapsed. */
  lemma {:induction false} HeldExactly(items: seq<Reservation>, account: Id, now: Time)
    ensures |Held(items, account, now)| == Sum(Chosen(items, account, now))
    ensures forall item :: item in Held(items, account, now) <==> item in items && Occupies(item, account, now)
  {
    if items != [] {
      var init, item := items[..|items| - 1], Last(items);
      HeldExactly(init, account, now);
      assert items == init + [item];
      assert Chosen(items, account, now) == Chosen(init, account, now) + [if Occupies(item, account, now) then 1 else 0];
      SumOneMore(Chosen(init, account, now), if Occupies(item, account, now) then 1 else 0);
    }
  }

  /** Marking writes down exactly the lapsed reservations of the account and nothing else. */
  lemma MarkedExactly(items: seq<Reservation>, account: Id, now: Time, i: nat)
    requires i < |items|
    ensures Expire(items, account, now)[i] ==
            if items[i].account == account && items[i].state == Reserved && items[i].expiresAt <= now
            then items[i].(state := Expired) else items[i]
  {
  }

  // ---------------------------------------------------------------- observations

  /** Position `k` holds the last applied observation of a pool. */
  predicate LastApplied(rows: seq<ObservationRow>, pool: Id, k: nat) {
    && k < |rows| && rows[k].applied && rows[k].observation.pool == pool
    && forall j :: k < j < |rows| ==> !(rows[j].applied && rows[j].observation.pool == pool)
  }

  lemma {:induction false} ObservedExactly(rows: seq<ObservationRow>, pool: Id)
    ensures Applied(rows, pool) == [] <==> forall j :: 0 <= j < |rows| ==> !(rows[j].applied && rows[j].observation.pool == pool)
    ensures forall k: nat :: LastApplied(rows, pool, k) ==> Latest(Applied(rows, pool)) == Some(rows[k].observation)
  {
    if rows != [] {
      var init := rows[..|rows| - 1];
      ObservedExactly(init, pool);
      assert rows == init + [Last(rows)];
      assert forall j :: 0 <= j < |init| ==> init[j] == rows[j];
      forall k: nat | LastApplied(rows, pool, k) ensures Latest(Applied(rows, pool)) == Some(rows[k].observation) {
        if k < |init| {
          assert !(rows[|rows| - 1].applied && rows[|rows| - 1].observation.pool == pool);
          assert LastApplied(init, pool, k);
        }
      }
    }
  }

  /** What an observation says is left, where it says a number. */
  lemma RemainingExactly(o: Observation)
    ensures o.metric == Remaining && o.amount.Some? ==> NumericRemaining(o) == Some(o.amount.value)
    ensures o.metric == Used && o.amount.Some? && o.limit.Some? ==> NumericRemaining(o) == Some(o.limit.value - o.amount.value)
    ensures o.metric == Unknown || o.amount.None? || (o.metric == Used && o.limit.None?) ==> NumericRemaining(o) == None
  {
  }

  predicate ExhaustionReport(pool: Pool, f: FailureRow) {
    pool.kind == Service && f.account == pool.account && f.reason == QuotaExhausted
  }

  /** Position `k` holds the last observation that says a number. */
  predicate LastNumber(applied: seq<Observation>, k: nat) {
    && k < |applied| && NumericRemaining(applied[k]).Some?
    && forall j :: k < j < |applied| ==> NumericRemaining(applied[j]).None?
  }

  lemma {:induction false} LatestNumericExactly(applied: seq<Observation>)
    ensures LatestNumeric(applied).None? <==> forall j :: 0 <= j < |applied| ==> NumericRemaining(applied[j]).None?
    ensures forall k: nat :: LastNumber(applied, k) ==> LatestNumeric(applied) == Some(applied[k])
  {
    hide NumericRemaining;
    if applied != [] {
      var init := applied[..|applied| - 1];
      LatestNumericExactly(init);
      assert forall j :: 0 <= j < |init| ==> init[j] == applied[j];
      forall k: nat | LastNumber(applied, k) ensures LatestNumeric(applied) == Some(applied[k]) {
        if k < |init| {
          assert NumericRemaining(applied[|applied| - 1]).None?;
          assert LastNumber(init, k);
        }
      }
    }
  }

  lemma {:induction false} FailuresExactly(failures: seq<FailureRow>, account: Id)
    ensures forall f :: f in FailuresOf(failures, account) <==> f in failures && f.account == account
  {
    if failures != [] {
      FailuresExactly(failures[..|failures| - 1], account);
      assert failures == failures[..|failures| - 1] + [Last(failures)];
    }
  }

  /** A pool is exhausted by a report that stands, or by a last number of nothing whose fixed window is not proved over. */
  lemma ExhaustedExactly(pool: Pool, applied: seq<Observation>, failures: seq<FailureRow>)
    ensures var number := LatestNumeric(applied);
            Exhausted(pool, applied, FailuresOf(failures, pool.account)) <==>
              || (exists f :: f in failures && ExhaustionReport(pool, f) &&
                    (number.None? || number.value.observedAt <= f.at || NumericRemaining(number.value) == None ||
                     NumericRemaining(number.value).value <= 0))
              || (&& number.Some? && NumericRemaining(number.value).Some? && NumericRemaining(number.value).value <= 0
                  && !(&& pool.windowKind == Fixed && number.value.resetAt.Some?
                       && Last(applied).window != number.value.window && number.value.resetAt.value <= Last(applied).observedAt))
  {
    FailuresExactly(failures, pool.account);
    NumberIsThere(applied);
    hide NumericRemaining, FailuresOf, LatestNumeric;
    var mine := FailuresOf(failures, pool.account);
    assert EverExhausted(pool, mine) <==> exists f :: f in failures && ExhaustionReport(pool, f) by { EverExactly(pool, failures); }
    forall at ensures ExhaustedSince(pool, mine, at) <==> exists f :: f in failures && ExhaustionReport(pool, f) && at <= f.at {
      SinceExactly(pool, failures, at);
    }
    hide EverExhausted, ExhaustedSince;
  }

  lemma {:induction false} NumberIsThere(applied: seq<Observation>)
    ensures LatestNumeric(applied).Some? ==> applied != [] && NumericRemaining(LatestNumeric(applied).value).Some?
  {
    if applied != [] { NumberIsThere(applied[..|applied| - 1]); }
  }

  lemma EverExactly(pool: Pool, failures: seq<FailureRow>)
    ensures EverExhausted(pool, FailuresOf(failures, pool.account)) <==> exists f :: f in failures && ExhaustionReport(pool, f)
  {
    var mine := FailuresOf(failures, pool.account);
    FailuresExactly(failures, pool.account);
    hide FailuresOf;
    if EverExhausted(pool, mine) {
      var i :| 0 <= i < |mine| && mine[i].reason == QuotaExhausted;
      assert mine[i] in mine;
    }
    if f :| f in failures && ExhaustionReport(pool, f) {
      assert f in mine;
      var i :| 0 <= i < |mine| && mine[i] == f;
    }
  }

  lemma SinceExactly(pool: Pool, failures: seq<FailureRow>, at: Time)
    ensures ExhaustedSince(pool, FailuresOf(failures, pool.account), at) <==>
            exists f :: f in failures && ExhaustionReport(pool, f) && at <= f.at
  {
    var mine := FailuresOf(failures, pool.account);
    FailuresExactly(failures, pool.account);
    hide FailuresOf;
    if ExhaustedSince(pool, mine, at) {
      var i :| 0 <= i < |mine| && mine[i].reason == QuotaExhausted && mine[i].at >= at;
      assert mine[i] in mine;
    }
    if f :| f in failures && ExhaustionReport(pool, f) && at <= f.at {
      assert f in mine;
      var i :| 0 <= i < |mine| && mine[i] == f;
    }
  }

  // ---------------------------------------------------------------- the verdict on a request

  predicate ForLead(request: Request) {
    && request.role == Commander && request.purpose == Some(Lead)
    && (request.expected.Some? ==> request.expected.value.leadReserveAccess)
  }

  /** Reserved slots or amounts apply to everyone but the lead. */
  function KeptFor(lead: bool, amount: nat): nat {
    if lead then 0 else amount
  }

  function In(m: map<Id, nat>, key: Id): nat {
    if key in m then m[key] else 0
  }

  /** The observation is fresh and of a source the policy accepts, and no exhaustion was reported since. */
  predicate Trusted(ledger: Ledger, policy: Policy, now: Time, pool: Pool, o: Observation) {
    && o.observedAt <= now <= o.observedAt + policy.maxAge && (o.resetAt.Some? ==> now < o.resetAt.value)
    && (pool.kind == Service && policy.requireOfficial ==> o.source == Official)
    && forall f :: f in ledger.failures && ExhaustionReport(pool, f) ==> f.at < o.observedAt
  }

  /** A number: everything promised and everything used fits it, with the protections that apply. */
  predicate FitsNumber(ledger: Ledger, request: Request, policy: Policy, held: seq<Reservation>, pool: Pool, o: Observation, remaining: int) {
    In(request.demand, pool.id) + Sum(LeftOvers(ledger.usage, pool, o)) + Sum(Dues(held, ledger.usage, pool)) +
    In(policy.safetyMargin, pool.id) + KeptFor(ForLead(request), In(policy.leadReserve, pool.id)) <= remaining
  }

  /** No number: the policy allows conservative use, complete and within its own limits. */
  predicate FitsConservatively(request: Request, policy: Policy, held: nat, now: Time, o: Observation) {
    !policy.requireOfficial && policy.conservative.Some? && policy.conservative.value.enabled &&
    var mode := policy.conservative.value;
    && mode.maxActive.Some? && mode.maxDuration.Some? && mode.maxAge.Some? && mode.cooldown.Some?
    && held + KeptFor(ForLead(request), policy.leadSlots) < mode.maxActive.value
    && request.duration <= mode.maxDuration.value && now <= o.observedAt + mode.maxAge.value
  }

  /** What a pool must satisfy for a request. */
  ghost predicate PoolFits(ledger: Ledger, request: Request, policy: Policy, held: seq<Reservation>, now: Time, pool: Pool) {
    var applied := Applied(ledger.observations, pool.id);
    applied != [] && Trusted(ledger, policy, now, pool, Last(applied)) &&
    var o := Last(applied);
    if NumericRemaining(o).Some? then FitsNumber(ledger, request, policy, held, pool, o, NumericRemaining(o).value)
    else
      && FitsConservatively(request, policy, |held|, now, o)
      && !Exhausted(pool, applied, FailuresOf(ledger.failures, pool.account))
  }

  lemma TrustedExactly(ledger: Ledger, policy: Policy, now: Time, pool: Pool, o: Observation)
    ensures Trusted(ledger, policy, now, pool, o) <==>
              && !Stale(policy, Some(o), now) && !(pool.kind == Service && policy.requireOfficial && o.source != Official)
              && !ExhaustedSince(pool, FailuresOf(ledger.failures, pool.account), o.observedAt)
  {
    SinceExactly(pool, ledger.failures, o.observedAt);
    hide ExhaustedSince, FailuresOf, ExhaustionReport;
  }

  lemma NumberExactly(ledger: Ledger, request: Request, policy: Policy, held: seq<Reservation>, pool: Pool, o: Observation, remaining: int)
    ensures FitsNumber(ledger, request, policy, held, pool, o, remaining) <==>
            Amount(request.demand, pool.id) <= Headroom(ledger, policy, held, pool, o, remaining, IsLead(request))
  {
    UncoveredIsTheSum(ledger.usage, pool, o);
    FutureIsTheSum(held, ledger.usage, pool);
    hide Sum, LeftOvers, Dues, Uncovered, Future;
  }

  lemma ConservativeExactly(request: Request, policy: Policy, held: nat, now: Time, pool: Id, o: Observation)
    ensures FitsConservatively(request, policy, held, now, o) <==>
            Conservative(request, policy, o, held, now, IsLead(request), pool) == []
  {
  }

  lemma PoolExactly(ledger: Ledger, request: Request, policy: Policy, held: seq<Reservation>, now: Time, pool: Pool)
    ensures PoolQuota(ledger, request, policy, held, now, FailuresOf(ledger.failures, pool.account), pool).reasons == [] <==>
            PoolFits(ledger, request, policy, held, now, pool)
  {
    hide Applied, FailuresOf, NumericRemaining, Exhausted, ExhaustedSince, Trusted, FitsNumber, FitsConservatively, Headroom, Conservative, IsLead;
    var applied := Applied(ledger.observations, pool.id);
    if applied != [] {
      var o := Last(applied);
      TrustedExactly(ledger, policy, now, pool, o);
      if NumericRemaining(o).Some? {
        NumberExactly(ledger, request, policy, held, pool, o, NumericRemaining(o).value);
      } else {
        ConservativeExactly(request, policy, |held|, now, pool.id, o);
      }
    }
  }

  /** What an account and its policy must allow. */
  predicate AccountFits(ledger: Ledger, request: Request, profile: Profile, policy: Policy, revision: nat, held: nat, now: Time) {
    && (request.expected.Some? ==> request.expected.value.policyRevision == revision)
    && held + KeptFor(ForLead(request), policy.leadSlots) < policy.maxActive
    && request.duration <= policy.maxDuration
    && forall f :: f in ledger.failures && f.account == profile.account ==> f.until <= now
  }

  lemma AccountExactly(ledger: Ledger, request: Request, profile: Profile, policy: Policy, revision: nat, held: nat, now: Time)
    ensures AccountReasons(request, policy, revision, held, now, FailuresOf(ledger.failures, profile.account)) == [] <==>
            AccountFits(ledger, request, profile, policy, revision, held, now)
  {
    FailuresExactly(ledger.failures, profile.account);
    var mine := FailuresOf(ledger.failures, profile.account);
    hide FailuresOf;
    if Cooling(mine, now) {
      var i :| 0 <= i < |mine| && mine[i].until > now;
      assert mine[i] in mine;
    }
    if f :| f in ledger.failures && f.account == profile.account && f.until > now {
      assert f in mine;
      var i :| 0 <= i < |mine| && mine[i] == f;
    }
  }

  /** The pools of the request are the profile's, seen in the windows it was routed by. */
  ghost predicate VectorFits(ledger: Ledger, request: Request, profile: Profile) {
    && (forall p :: p in request.demand <==> p in profile.pools)
    && (request.expected.Some? ==>
          && (forall p :: p in request.expected.value.windows <==> p in profile.pools)
          && (forall p :: p in profile.pools ==>
                Observed(ledger, p).Some? && Observed(ledger, p).value.window == request.expected.value.windows[p]))
  }

  lemma CleanPools(ledger: Ledger, request: Request, profile: Profile, policy: Policy, held: seq<Reservation>, now: Time)
    requires ProfileOk(ledger, profile) && forall p :: p in profile.pools ==> ledger.pools[p].account == profile.account
    ensures EvaluatePools(ledger, request, policy, held, now, FailuresOf(ledger.failures, profile.account), profile.pools).reasons == [] <==>
              && (forall p :: p in profile.pools ==> WindowReasons(request, Observed(ledger, p), p) == [])
              && (forall p :: p in profile.pools ==> PoolFits(ledger, request, policy, held, now, ledger.pools[p]))
  {
    hide PoolFits, PoolQuota, EvaluatePools, Observed, FailuresOf, WindowReasons;
    var pools, failures := profile.pools, FailuresOf(ledger.failures, profile.account);
    CleanPoolByPool(ledger, request, policy, held, now, failures, pools);
    forall i | 0 <= i < |pools|
      ensures PoolClean(ledger, request, policy, held, now, failures, pools[i]) <==>
              WindowReasons(request, Observed(ledger, pools[i]), pools[i]) == [] &&
              PoolFits(ledger, request, policy, held, now, ledger.pools[pools[i]])
    {
      assert pools[i] in pools && ledger.pools[pools[i]].id == pools[i];
      PoolExactly(ledger, request, policy, held, now, ledger.pools[pools[i]]);
    }
    hide PoolClean;
    forall p | p in pools ensures exists i :: 0 <= i < |pools| && pools[i] == p {}
  }

  /**
   A complete evaluation finds nothing if and only if the request's pools are the profile's in the routed windows, the
   account and the policy allow it, and every pool can carry it: all written out on the rows.
   */
  lemma EvaluationExactly(ledger: Ledger, request: Request, profile: Profile, policy: Policy, revision: nat,
                          held: seq<Reservation>, now: Time)
    requires ProfileOk(ledger, profile) && forall p :: p in profile.pools ==> ledger.pools[p].account == profile.account
    ensures Evaluate(ledger, request, profile, policy, revision, held, now).reasons == [] <==>
              && VectorFits(ledger, request, profile)
              && AccountFits(ledger, request, profile, policy, revision, |held|, now)
              && forall p :: p in profile.pools ==> PoolFits(ledger, request, policy, held, now, ledger.pools[p])
  {
    hide PoolFits, AccountFits, AccountReasons, EvaluatePools, Observed, FailuresOf;
    AccountExactly(ledger, request, profile, policy, revision, |held|, now);
    CleanPools(ledger, request, profile, policy, held, now);
    ElementsExactly(profile.pools);
    hide Elements, ProfileOk;
  }

  lemma ElementsExactly(s: seq<Id>)
    ensures forall x :: x in Elements(s) <==> x in s
  {
  }

  // ---------------------------------------------------------------- what is committed

  /** Everything committed against an observed pool, on the rows: uncovered usage, and what every stored holder has still due. */
  lemma {:induction false} CommittedIsTheSum(ledger: Ledger, pool: Pool, o: Observation)
    requires Observed(ledger, pool.id) == Some(o)
    ensures Committed(ledger, pool) == Sum(LeftOvers(ledger.usage, pool, o)) + Sum(HolderDues(ledger.reservations, ledger.usage, pool))
  {
    UncoveredIsTheSum(ledger.usage, pool, o);
    HoldersAreTheSum(ledger.reservations, ledger.usage, pool);
  }

  function HolderDue(item: Reservation, usage: seq<UsageRow>, pool: Pool): nat {
    if item.account == pool.account && (item.state == Reserved || item.state == Active || item.state == Unresolved)
    then StillDue(item, usage, pool) else 0
  }

  function HolderDues(items: seq<Reservation>, usage: seq<UsageRow>, pool: Pool): seq<nat> {
    seq(|items|, i requires 0 <= i < |items| => HolderDue(items[i], usage, pool))
  }

  lemma NothingDue(usage: seq<UsageRow>, pool: Pool)
    ensures Future([], usage, pool) == 0 && Sum(HolderDues([], usage, pool)) == 0
  {
  }

  lemma DueIsUnconsumed(item: Reservation, usage: seq<UsageRow>, pool: Pool)
    ensures Unconsumed(item, usage, pool) == StillDue(item, usage, pool)
  {
    ConsumedIsTheSum(usage, pool.account, item.id, pool.id);
  }

  lemma {:induction false} HoldersAreTheSum(items: seq<Reservation>, usage: seq<UsageRow>, pool: Pool)
    ensures Future(Holders(items, pool.account), usage, pool) == Sum(HolderDues(items, usage, pool))
  {
    hide StillDue, Unconsumed, Future, Sum;
    if items == [] {
      NothingDue(usage, pool);
    } else {
      var init, item := items[..|items| - 1], Last(items);
      assert Unconsumed(item, usage, pool) == StillDue(item, usage, pool) by { DueIsUnconsumed(item, usage, pool); }
      HoldersAreTheSum(init, usage, pool);
      FutureSnoc(Holders(init, pool.account), item, usage, pool);
      assert items == init + [item];
      assert HolderDues(items, usage, pool) == HolderDues(init, usage, pool) + [HolderDue(item, usage, pool)];
      SumOneMore(HolderDues(init, usage, pool), HolderDue(item, usage, pool));
    }
  }

  /**
   After an admission the rows themselves fit: uncovered usage and everything still due to stored holders, with the safety
   margin and for anyone but the lead the lead's reserve, is within what was reported as remaining.
   */
  lemma AdmissionFitsTheRows(ledger: Ledger, command: Command, pool: Pool, o: Observation, remaining: int)
    requires Inv(ledger) && NewRow(ledger, command).Some?
    requires pool.id in command.request.demand && pool.id in ledger.pools && ledger.pools[pool.id] == pool
    requires Observed(ledger, pool.id) == Some(o) && NumericRemaining(o) == Some(remaining)
    ensures PoliciesOf(ledger, pool.account) != []
    ensures var policy, after := Last(PoliciesOf(ledger, pool.account)), Next(ledger, command);
            Sum(LeftOvers(after.usage, pool, o)) + Sum(HolderDues(after.reservations, after.usage, pool)) +
            In(policy.safetyMargin, pool.id) + KeptFor(ForLead(command.request), In(policy.leadReserve, pool.id)) <= remaining
  {
    hide Next, NewRow, Inv, Committed, Sum, LeftOvers, HolderDues, NumericRemaining;
    AdmissionFits(ledger, command, pool, o, remaining);
    assert command.AdmitCommand? by { NewRowIsAdmission(ledger, command); }
    OtherTables(ledger, command);
    CommittedIsTheSum(Next(ledger, command), pool, o);
  }
}
