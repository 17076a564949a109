/**
 The scalar time fence kept after an evaluation, and its equivalence with evaluating everything again.
 */
module CapacityFence {
  import opened Common
  import opened CapacityModel

  datatype Fence = Fence(floor: Time, inclusiveUntil: Time, exclusiveUntil: Option<Time>) {
    predicate Current(now: Time) {
      && floor <= now <= inclusiveUntil
      && (exclusiveUntil.Some? ==> now < exclusiveUntil.value)
    }

    function Through(now: Time): Fence {
      this.(floor := if floor >= now then floor else now)
    }
  }

  /** The earliest inclusive and exclusive deadlines collected so far. */
  datatype Limits = Limits(inclusive: Option<Time>, exclusive: Option<Time>)

  function Earlier(a: Option<Time>, b: Time): Option<Time> {
    if a.Some? && a.value <= b then a else Some(b)
  }

  /** Adds the deadlines of one observation; None where the recorded facts cannot bound it. */
  function AddLimits(limits: Limits, policy: Policy, observed: Option<Observation>): Option<Limits> {
    if observed.None? then None
    else
      var o := observed.value;
      var aged := limits.(inclusive := Earlier(limits.inclusive, o.observedAt + policy.maxAge));
      var reset := if o.resetAt.Some? then aged.(exclusive := Earlier(aged.exclusive, o.resetAt.value)) else aged;
      if NumericRemaining(o).Some? then Some(reset)
      else if policy.conservative.None? || policy.conservative.value.maxAge.None? then None
      else Some(reset.(inclusive := Earlier(reset.inclusive, o.observedAt + policy.conservative.value.maxAge.value)))
  }

  function CollectLimits(policy: Policy, observations: seq<PoolObservation>): Option<Limits> {
    if observations == [] then Some(Limits(None, None))
    else
      var rest := CollectLimits(policy, observations[..|observations| - 1]);
      if rest.None? then None else AddLimits(rest.value, policy, Last(observations).observed)
  }

  /** None stands for CAPACITY_TEMPORAL_FACTS_INVALID. */
  function TemporalFence(policy: Policy, observations: seq<PoolObservation>, evaluatedAt: Time): Option<Fence> {
    var limits := CollectLimits(policy, observations);
    if limits.None? || limits.value.inclusive.None? then None
    else Some(Fence(evaluatedAt, limits.value.inclusive.value, limits.value.exclusive))
  }

  /** The conditions on one retained observation that time alone can break. */
  function ElapsedReasons(request: Request, policy: Policy, held: nat, entry: PoolObservation, now: Time): seq<Reason> {
    if Stale(policy, entry.observed, now) then [ObservationStale(entry.pool)]
    else if NumericRemaining(entry.observed.value).None? then
      Conservative(request, policy, entry.observed.value, held, now, IsLead(request), entry.pool)
    else []
  }

  function AllElapsedReasons(request: Request, policy: Policy, held: nat, observations: seq<PoolObservation>, now: Time)
    : seq<Reason>
  {
    if observations == [] then []
    else
      AllElapsedReasons(request, policy, held, observations[..|observations| - 1], now) +
      ElapsedReasons(request, policy, held, Last(observations), now)
  }

  function FinalTemporalReasons(request: Request, policy: Policy, held: nat, observations: seq<PoolObservation>,
                                now: Time, evaluatedAt: Time): seq<Reason>
  {
    (if now < evaluatedAt then [ClockRegressed] else []) +
    AllElapsedReasons(request, policy, held, observations, now)
  }

  // ---------------------------------------------------------------- what the limits mean

  /** One observation is young enough, in its window, and, where unquantified, fresh enough for conservative mode. */
  predicate InTime(policy: Policy, observed: Option<Observation>, now: Time) {
    && observed.Some?
    && now <= observed.value.observedAt + policy.maxAge
    && (observed.value.resetAt.Some? ==> now < observed.value.resetAt.value)
    && (NumericRemaining(observed.value).None? ==>
          && policy.conservative.Some? && policy.conservative.value.maxAge.Some?
          && now <= observed.value.observedAt + policy.conservative.value.maxAge.value)
  }

  predicate WithinLimits(limits: Limits, now: Time) {
    && (limits.inclusive.Some? ==> now <= limits.inclusive.value)
    && (limits.exclusive.Some? ==> now < limits.exclusive.value)
  }

  /** The collected minima accept an instant exactly when every retained observation does. */
  lemma {:induction false} LimitsAreExact(policy: Policy, observations: seq<PoolObservation>, now: Time)
    requires CollectLimits(policy, observations).Some?
    ensures WithinLimits(CollectLimits(policy, observations).value, now)
       <==> forall i :: 0 <= i < |observations| ==> InTime(policy, observations[i].observed, now)
    ensures observations != [] ==> CollectLimits(policy, observations).value.inclusive.Some?
  {
    hide AddLimits, WithinLimits, InTime;
    if observations == [] {
      NoLimits(now);
    } else {
      var init := observations[..|observations| - 1];
      LimitsAreExact(policy, init, now);
      OneMoreLimit(CollectLimits(policy, init).value, policy, Last(observations).observed, now);
      assert forall i :: 0 <= i < |init| ==> init[i] == observations[i];
      assert observations == init + [Last(observations)];
    }
  }

  lemma NoLimits(now: Time)
    ensures WithinLimits(Limits(None, None), now)
  {
  }

  /** One more observation narrows the limits to its own deadlines. */
  lemma OneMoreLimit(limits: Limits, policy: Policy, observed: Option<Observation>, now: Time)
    requires AddLimits(limits, policy, observed).Some?
    ensures var next := AddLimits(limits, policy, observed).value;
            next.inclusive.Some? && (WithinLimits(next, now) <==> WithinLimits(limits, now) && InTime(policy, observed, now))
  {
    hide NumericRemaining;
  }

  // ---------------------------------------------------------------- monotonicity in time

  lemma {:induction false} HeldShrinks(items: seq<Reservation>, account: Id, t0: Time, t1: Time, usage: seq<UsageRow>, pool: Pool)
    requires t0 <= t1
    ensures |Held(items, account, t1)| <= |Held(items, account, t0)|
    ensures Future(Held(items, account, t1), usage, pool) <= Future(Held(items, account, t0), usage, pool)
  {
    if items != [] {
      var init := items[..|items| - 1];
      HeldShrinks(init, account, t0, t1, usage, pool);
      FutureSnoc(Held(init, account, t0), Last(items), usage, pool);
      FutureSnoc(Held(init, account, t1), Last(items), usage, pool);
    }
  }

  lemma FutureSnoc(held: seq<Reservation>, item: Reservation, usage: seq<UsageRow>, pool: Pool)
    ensures Future(held + [item], usage, pool) == Future(held, usage, pool) + Unconsumed(item, usage, pool)
  {
    assert (held + [item])[..|held + [item]| - 1] == held;
  }

  /** `later` occupies no more than `earlier`: fewer admissions, and no more future demand on any pool. */
  ghost predicate Lighter(later: seq<Reservation>, earlier: seq<Reservation>, usage: seq<UsageRow>) {
    && |later| <= |earlier|
    && forall pool: Pool :: Future(later, usage, pool) <= Future(earlier, usage, pool)
  }

  lemma HeldIsLighter(items: seq<Reservation>, account: Id, t0: Time, t1: Time, usage: seq<UsageRow>)
    requires t0 <= t1
    ensures Lighter(Held(items, account, t1), Held(items, account, t0), usage)
  {
    forall pool: Pool
      ensures Future(Held(items, account, t1), usage, pool) <= Future(Held(items, account, t0), usage, pool)
      ensures |Held(items, account, t1)| <= |Held(items, account, t0)|
    {
      HeldShrinks(items, account, t0, t1, usage, pool);
    }
    HeldShrinks(items, account, t0, t1, usage, Pool("", "", Service, Fixed));
  }

  lemma {:induction false} WithoutShrinks(items: seq<Reservation>, account: Id, id: Id, t0: Time, t1: Time, usage: seq<UsageRow>, pool: Pool)
    requires t0 <= t1
    ensures |Without(Held(items, account, t1), id)| <= |Without(Held(items, account, t0), id)|
    ensures Future(Without(Held(items, account, t1), id), usage, pool) <= Future(Without(Held(items, account, t0), id), usage, pool)
  {
    if items != [] {
      var init, item := items[..|items| - 1], Last(items);
      WithoutShrinks(init, account, id, t0, t1, usage, pool);
      WithoutSnoc(Held(init, account, t0), item, id, usage, pool);
      WithoutSnoc(Held(init, account, t1), item, id, usage, pool);
    }
  }

  lemma WithoutSnoc(held: seq<Reservation>, item: Reservation, id: Id, usage: seq<UsageRow>, pool: Pool)
    ensures |Without(held + [item], id)| == |Without(held, id)| + if item.id == id then 0 else 1
    ensures Future(Without(held + [item], id), usage, pool)
         == Future(Without(held, id), usage, pool) + if item.id == id then 0 else Unconsumed(item, usage, pool)
  {
    assert (held + [item])[..|held + [item]| - 1] == held;
    FutureSnoc(Without(held, id), item, usage, pool);
  }

  /** Leaving one's own claim out of both sides keeps the order. */
  lemma WithoutIsLighter(items: seq<Reservation>, account: Id, id: Id, t0: Time, t1: Time, usage: seq<UsageRow>)
    requires t0 <= t1
    ensures Lighter(Without(Held(items, account, t1), id), Without(Held(items, account, t0), id), usage)
  {
    var late, early := Without(Held(items, account, t1), id), Without(Held(items, account, t0), id);
    forall pool: Pool
      ensures Future(late, usage, pool) <= Future(early, usage, pool)
    {
      WithoutShrinks(items, account, id, t0, t1, usage, pool);
    }
    WithoutShrinks(items, account, id, t0, t1, usage, Pool("", "", Service, Fixed));
  }

  // ---------------------------------------------------------------- one pool, then all pools

  /** After a clean verdict, a later verdict on a lighter load is clean exactly while the observation is in time. */
  lemma PoolStaysCleanInTime(ledger: Ledger, request: Request, policy: Policy, h0: seq<Reservation>, h1: seq<Reservation>,
                             t0: Time, t1: Time, failures: seq<FailureRow>, pool: Pool)
    requires t0 <= t1 && Lighter(h1, h0, ledger.usage)
    requires PoolQuota(ledger, request, policy, h0, t0, failures, pool).reasons == []
    ensures PoolQuota(ledger, request, policy, h1, t1, failures, pool).reasons == []
       <==> InTime(policy, Observed(ledger, pool.id), t1)
    ensures InTime(policy, Observed(ledger, pool.id), t0)
    ensures ElapsedReasons(request, policy, |h0|, PoolObservation(pool.id, Observed(ledger, pool.id)), t1) == []
       <==> InTime(policy, Observed(ledger, pool.id), t1)
  {
  }

  /** The verdict on one pool of the vector gives no reason to refuse. */
  ghost predicate PoolClean(ledger: Ledger, request: Request, policy: Policy, held: seq<Reservation>, now: Time,
                            failures: seq<FailureRow>, id: Id)
    requires id in ledger.pools
  {
    && WindowReasons(request, Observed(ledger, ledger.pools[id].id), id) == []
    && PoolQuota(ledger, request, policy, held, now, failures, ledger.pools[id]).reasons == []
  }

  lemma {:induction false} CleanPoolByPool(ledger: Ledger, request: Request, policy: Policy, held: seq<Reservation>, now: Time,
                                           failures: seq<FailureRow>, pools: seq<Id>)
    requires forall p :: p in pools ==> p in ledger.pools
    ensures EvaluatePools(ledger, request, policy, held, now, failures, pools).reasons == []
       <==> forall i :: 0 <= i < |pools| ==> PoolClean(ledger, request, policy, held, now, failures, pools[i])
  {
    hide PoolQuota, WindowReasons, Observed;
    if pools != [] {
      var init := pools[..|pools| - 1];
      CleanPoolByPool(ledger, request, policy, held, now, failures, init);
      assert forall i :: 0 <= i < |init| ==> init[i] == pools[i];
      assert pools == init + [Last(pools)];
    }
  }

  /** The same for a whole vector of pools. */
  lemma PoolsStayCleanInTime(ledger: Ledger, request: Request, policy: Policy, h0: seq<Reservation>, h1: seq<Reservation>,
                             t0: Time, t1: Time, failures: seq<FailureRow>, pools: seq<Id>)
    requires forall p :: p in pools ==> p in ledger.pools && ledger.pools[p].id == p
    requires t0 <= t1 && Lighter(h1, h0, ledger.usage)
    requires EvaluatePools(ledger, request, policy, h0, t0, failures, pools).reasons == []
    ensures EvaluatePools(ledger, request, policy, h1, t1, failures, pools).reasons == []
       <==> forall i :: 0 <= i < |pools| ==> InTime(policy, Observed(ledger, pools[i]), t1)
    ensures forall i :: 0 <= i < |pools| ==> InTime(policy, Observed(ledger, pools[i]), t0)
  {
    hide PoolClean, EvaluatePools, InTime, Observed, Lighter;
    CleanPoolByPool(ledger, request, policy, h0, t0, failures, pools);
    CleanPoolByPool(ledger, request, policy, h1, t1, failures, pools);
    forall i | 0 <= i < |pools|
      ensures PoolClean(ledger, request, policy, h1, t1, failures, pools[i]) <==> InTime(policy, Observed(ledger, pools[i]), t1)
      ensures InTime(policy, Observed(ledger, pools[i]), t0)
    {
      PoolCleanInTime(ledger, request, policy, h0, h1, t0, t1, failures, pools[i]);
    }
  }

  lemma PoolCleanInTime(ledger: Ledger, request: Request, policy: Policy, h0: seq<Reservation>, h1: seq<Reservation>,
                        t0: Time, t1: Time, failures: seq<FailureRow>, id: Id)
    requires id in ledger.pools && ledger.pools[id].id == id
    requires t0 <= t1 && Lighter(h1, h0, ledger.usage)
    requires PoolClean(ledger, request, policy, h0, t0, failures, id)
    ensures PoolClean(ledger, request, policy, h1, t1, failures, id) <==> InTime(policy, Observed(ledger, id), t1)
    ensures InTime(policy, Observed(ledger, id), t0)
    ensures ElapsedReasons(request, policy, |h0|, PoolObservation(id, Observed(ledger, id)), t1) == []
       <==> InTime(policy, Observed(ledger, id), t1)
  {
    PoolStaysCleanInTime(ledger, request, policy, h0, h1, t0, t1, failures, ledger.pools[id]);
  }

  lemma {:induction false} ElapsedPoolByPool(request: Request, policy: Policy, held: nat, observations: seq<PoolObservation>, now: Time)
    ensures AllElapsedReasons(request, policy, held, observations, now) == []
       <==> forall i :: 0 <= i < |observations| ==> ElapsedReasons(request, policy, held, observations[i], now) == []
  {
    hide ElapsedReasons;
    if observations != [] {
      var init := observations[..|observations| - 1];
      ElapsedPoolByPool(request, policy, held, init, now);
      assert forall i :: 0 <= i < |init| ==> init[i] == observations[i];
      assert observations == init + [Last(observations)];
    }
  }

  /** The recheck of the retained observations finds nothing exactly while all of them are in time. */
  lemma NothingElapsedInTime(ledger: Ledger, request: Request, policy: Policy, held: seq<Reservation>,
                             t0: Time, t1: Time, failures: seq<FailureRow>, pools: seq<Id>)
    requires forall p :: p in pools ==> p in ledger.pools && ledger.pools[p].id == p
    requires t0 <= t1
    requires EvaluatePools(ledger, request, policy, held, t0, failures, pools).reasons == []
    ensures AllElapsedReasons(request, policy, |held|, EvaluatePools(ledger, request, policy, held, t0, failures, pools).observations, t1) == []
       <==> forall i :: 0 <= i < |pools| ==> InTime(policy, Observed(ledger, pools[i]), t1)
  {
    var observations := EvaluatePools(ledger, request, policy, held, t0, failures, pools).observations;
    assert Lighter(held, held, ledger.usage);
    hide PoolClean, EvaluatePools, InTime, Observed, Lighter, ElapsedReasons, AllElapsedReasons;
    CleanPoolByPool(ledger, request, policy, held, t0, failures, pools);
    ObservationsPoolByPool(ledger, request, policy, held, t0, failures, pools);
    ElapsedPoolByPool(request, policy, |held|, observations, t1);
    forall i | 0 <= i < |pools|
      ensures ElapsedReasons(request, policy, |held|, observations[i], t1) == [] <==> InTime(policy, Observed(ledger, pools[i]), t1)
    {
      PoolCleanInTime(ledger, request, policy, held, held, t0, t1, failures, pools[i]);
    }
  }

  lemma {:induction false} ObservationsPoolByPool(ledger: Ledger, request: Request, policy: Policy, held: seq<Reservation>, now: Time,
                                                  failures: seq<FailureRow>, pools: seq<Id>)
    requires forall p :: p in pools ==> p in ledger.pools
    ensures var e := EvaluatePools(ledger, request, policy, held, now, failures, pools);
            && |e.observations| == |pools|
            && forall i :: 0 <= i < |pools| ==>
                 e.observations[i] == PoolObservation(pools[i], Observed(ledger, ledger.pools[pools[i]].id))
  {
    hide PoolQuota, WindowReasons, Observed;
    if pools != [] {
      var init := pools[..|pools| - 1];
      ObservationsPoolByPool(ledger, request, policy, held, now, failures, init);
      assert forall i :: 0 <= i < |init| ==> init[i] == pools[i];
    }
  }

  lemma {:induction false} BoundedObservationsCollect(policy: Policy, observations: seq<PoolObservation>, now: Time)
    requires forall i :: 0 <= i < |observations| ==> InTime(policy, observations[i].observed, now)
    ensures CollectLimits(policy, observations).Some?
  {
    if observations != [] {
      BoundedObservationsCollect(policy, observations[..|observations| - 1], now);
    }
  }

  /** The pools of a profile are registered under their own identity, and there is at least one. */
  predicate ProfileOk(ledger: Ledger, profile: Profile) {
    && profile.pools != []
    && forall p :: p in profile.pools ==> p in ledger.pools && ledger.pools[p].id == p
  }

  ghost predicate Clean(ledger: Ledger, request: Request, profile: Profile, policy: Policy, revision: nat,
                        held: seq<Reservation>, now: Time)
    requires ProfileOk(ledger, profile)
  {
    Evaluate(ledger, request, profile, policy, revision, held, now).reasons == []
  }

  /** Every observation an evaluation retains is still in time. */
  ghost predicate AllInTime(ledger: Ledger, profile: Profile, policy: Policy, now: Time)
    requires ProfileOk(ledger, profile)
  {
    forall i :: 0 <= i < |profile.pools| ==> InTime(policy, Observed(ledger, profile.pools[i]), now)
  }

  /** Account-wide conditions never get worse as time passes. */
  lemma AccountStaysClean(request: Request, policy: Policy, revision: nat, h0: nat, h1: nat, t0: Time, t1: Time,
                          failures: seq<FailureRow>)
    requires t0 <= t1 && h1 <= h0
    requires AccountReasons(request, policy, revision, h0, t0, failures) == []
    ensures AccountReasons(request, policy, revision, h1, t1, failures) == []
  {
    assert !Cooling(failures, t0);
    assert !Cooling(failures, t1);
  }

  lemma CleanStaysCleanInTime(ledger: Ledger, request: Request, profile: Profile, policy: Policy, revision: nat,
                              h0: seq<Reservation>, h1: seq<Reservation>, t0: Time, t1: Time)
    requires ProfileOk(ledger, profile)
    requires t0 <= t1 && Lighter(h1, h0, ledger.usage)
    requires Clean(ledger, request, profile, policy, revision, h0, t0)
    ensures Clean(ledger, request, profile, policy, revision, h1, t1) <==> AllInTime(ledger, profile, policy, t1)
    ensures AllInTime(ledger, profile, policy, t0)
  {
    var failures := FailuresOf(ledger.failures, profile.account);
    AccountStaysClean(request, policy, revision, |h0|, |h1|, t0, t1, failures);
    PoolsStayCleanInTime(ledger, request, policy, h0, h1, t0, t1, failures, profile.pools);
  }

  // ---------------------------------------------------------------- the fence

  /** A clean evaluation always yields a fence, and the fence admits exactly the in-time instants from its floor on. */
  lemma FenceMeaning(ledger: Ledger, request: Request, profile: Profile, policy: Policy, revision: nat,
                     held: seq<Reservation>, t0: Time, floor: Time, now: Time)
    requires ProfileOk(ledger, profile)
    requires Clean(ledger, request, profile, policy, revision, held, t0)
    ensures var e := Evaluate(ledger, request, profile, policy, revision, held, t0);
            var fence := TemporalFence(policy, e.observations, floor);
            && fence.Some?
            && fence.value.floor == floor
            && (fence.value.Current(now) <==> floor <= now && AllInTime(ledger, profile, policy, now))
  {
    hide EvaluatePools, TemporalFence, InTime, AccountReasons;
    var e := Evaluate(ledger, request, profile, policy, revision, held, t0);
    var failures := FailuresOf(ledger.failures, profile.account);
    ObservationsPoolByPool(ledger, request, policy, held, t0, failures, profile.pools);
    CleanStaysCleanInTime(ledger, request, profile, policy, revision, held, held, t0, t0);
    assert |e.observations| == |profile.pools| && profile.pools != [];
    forall i | 0 <= i < |e.observations| ensures e.observations[i].observed == Observed(ledger, profile.pools[i]) {
      assert profile.pools[i] in profile.pools;
    }
    FenceFromLimits(policy, e.observations, t0, floor, now);
  }

  /** Observations that were in time once give a fence, which then asks the same of any instant. */
  lemma FenceFromLimits(policy: Policy, observations: seq<PoolObservation>, t0: Time, floor: Time, now: Time)
    requires observations != [] && forall i :: 0 <= i < |observations| ==> InTime(policy, observations[i].observed, t0)
    ensures var fence := TemporalFence(policy, observations, floor);
            && fence.Some? && fence.value.floor == floor
            && (fence.value.Current(now) <==>
                  floor <= now && forall i :: 0 <= i < |observations| ==> InTime(policy, observations[i].observed, now))
  {
    hide InTime, CollectLimits;
    BoundedObservationsCollect(policy, observations, t0);
    LimitsAreExact(policy, observations, now);
  }

  /**
   The scalar fence accepts a later instant exactly when evaluating everything again at that instant,
   with the held admissions recomputed, would find no reason to refuse.
   */
  lemma FenceIsFullEvaluation(ledger: Ledger, request: Request, profile: Profile, policy: Policy, revision: nat,
                              t0: Time, floor: Time, now: Time)
    requires ProfileOk(ledger, profile)
    requires t0 <= floor
    requires Clean(ledger, request, profile, policy, revision, Held(ledger.reservations, profile.account, t0), t0)
    ensures var h0 := Held(ledger.reservations, profile.account, t0);
            var fence := TemporalFence(policy, Evaluate(ledger, request, profile, policy, revision, h0, t0).observations, floor);
            && fence.Some?
            && (fence.value.Current(now) <==>
                  && floor <= now
                  && Clean(ledger, request, profile, policy, revision, Held(ledger.reservations, profile.account, now), now))
  {
    var h0 := Held(ledger.reservations, profile.account, t0);
    FenceMeaning(ledger, request, profile, policy, revision, h0, t0, floor, now);
    if floor <= now {
      HeldIsLighter(ledger.reservations, profile.account, t0, now, ledger.usage);
      CleanStaysCleanInTime(ledger, request, profile, policy, revision,
                            h0, Held(ledger.reservations, profile.account, now), t0, now);
    }
  }

  /**
   The recheck that explains a rejected fence never comes back empty-handed: it finds a reason exactly
   when the fence does not accept.  The store raises its first element, so an empty list would be a crash.
   */
  lemma RejectedFenceHasAReason(ledger: Ledger, request: Request, profile: Profile, policy: Policy, revision: nat,
                                held: seq<Reservation>, t0: Time, floor: Time, now: Time)
    requires ProfileOk(ledger, profile)
    requires t0 <= floor
    requires Clean(ledger, request, profile, policy, revision, held, t0)
    ensures var e := Evaluate(ledger, request, profile, policy, revision, held, t0);
            var fence := TemporalFence(policy, e.observations, floor);
            && fence.Some?
            && (fence.value.Current(now) <==>
                  FinalTemporalReasons(request, policy, |held|, e.observations, now, floor) == [])
  {
    var e := Evaluate(ledger, request, profile, policy, revision, held, t0);
    var failures := FailuresOf(ledger.failures, profile.account);
    FenceMeaning(ledger, request, profile, policy, revision, held, t0, floor, now);
    if floor <= now {
      NothingElapsedInTime(ledger, request, policy, held, t0, now, failures, profile.pools);
    }
  }

  /** Writing the expired states down first changes no later evaluation. */
  lemma {:induction false} ExpiryIsInvisible(items: seq<Reservation>, account: Id, t0: Time, t1: Time)
    requires t0 <= t1
    ensures Held(Expire(items, account, t0), account, t1) == Held(items, account, t1)
  {
    if items != [] {
      var init := items[..|items| - 1];
      ExpiryIsInvisible(init, account, t0, t1);
      var done := Expire(items, account, t0);
      assert done[..|done| - 1] == Expire(init, account, t0);
    }
  }
}
