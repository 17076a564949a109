/**
 What an admission means: all the clock readings it takes amount to two complete evaluations.
 */
module CapacityAdmission {
  import opened Common
  import opened CapacityModel
  import opened CapacityFence
  import opened CapacityCommands

  /** A complete evaluation of the request at one instant, on the stored tables, finds nothing against it. */
  ghost predicate AdmissibleAt(ledger: Ledger, request: Request, now: Time) {
    var basis := Basis(ledger, request);
    && basis.Ok?
    && var (profile, policy, revision) := basis.value;
       Clean(ledger, request, profile, policy, revision, Held(ledger.reservations, profile.account, now), now)
  }

  // ---------------------------------------------------------------- the evaluation reads no reservation row

  lemma PoolQuotaFrame(ledger: Ledger, items: seq<Reservation>, request: Request, policy: Policy,
                       held: seq<Reservation>, now: Time, failures: seq<FailureRow>, pool: Pool)
    ensures PoolQuota(ledger.(reservations := items), request, policy, held, now, failures, pool)
         == PoolQuota(ledger, request, policy, held, now, failures, pool)
  {
  }

  lemma {:induction false} EvaluatePoolsFrame(ledger: Ledger, items: seq<Reservation>, request: Request, policy: Policy,
                                              held: seq<Reservation>, now: Time, failures: seq<FailureRow>, pools: seq<Id>)
    requires forall p :: p in pools ==> p in ledger.pools
    ensures EvaluatePools(ledger.(reservations := items), request, policy, held, now, failures, pools)
         == EvaluatePools(ledger, request, policy, held, now, failures, pools)
  {
    if pools != [] {
      EvaluatePoolsFrame(ledger, items, request, policy, held, now, failures, pools[..|pools| - 1]);
      PoolQuotaFrame(ledger, items, request, policy, held, now, failures, ledger.pools[Last(pools)]);
      hide PoolQuota;
    }
  }

  lemma EvaluateFrame(ledger: Ledger, items: seq<Reservation>, request: Request, profile: Profile, policy: Policy,
                      revision: nat, held: seq<Reservation>, now: Time)
    requires ProfileOk(ledger, profile)
    ensures Evaluate(ledger.(reservations := items), request, profile, policy, revision, held, now)
         == Evaluate(ledger, request, profile, policy, revision, held, now)
  {
    hide EvaluatePools;
    if request.demand.Keys == Elements(profile.pools) {
      EvaluatePoolsFrame(ledger, items, request, policy, held, now, FailuresOf(ledger.failures, profile.account), profile.pools);
    }
  }

  // ---------------------------------------------------------------- expiry composes

  /** Marking twice, the second time later, is marking once at the later instant. */
  lemma ExpireTwice(items: seq<Reservation>, account: Id, t0: Time, t1: Time)
    requires t0 <= t1
    ensures Expire(Expire(items, account, t0), account, t1) == Expire(items, account, t1)
  {
  }

  lemma ExpireKeepsRequests(items: seq<Reservation>, account: Id, now: Time, attempt: Id, id: Id)
    ensures AttemptReserved(Expire(items, account, now), attempt) <==> AttemptReserved(items, attempt)
    ensures IdTaken(Expire(items, account, now), id) <==> IdTaken(items, id)
  {
    var marked := Expire(items, account, now);
    assert forall i :: 0 <= i < |items| ==> marked[i].request == items[i].request && marked[i].id == items[i].id;
    if AttemptReserved(items, attempt) {
      var i :| 0 <= i < |items| && items[i].request.attempt == attempt;
      assert marked[i].request.attempt == attempt;
    }
    if IdTaken(items, id) {
      var i :| 0 <= i < |items| && items[i].id == id;
      assert marked[i].id == id;
    }
  }

  /** The tables after every reservation lapsed at `now` in the request's account is marked. */
  function MarkedAt(ledger: Ledger, account: Id, now: Time): Ledger {
    ledger.(reservations := Expire(ledger.reservations, account, now))
  }

  /** The assessment that evaluating the original tables at `now` would give. */
  ghost function Ideal(ledger: Ledger, request: Request, now: Time): Assessment
    requires Basis(ledger, request).Ok?
  {
    var (profile, policy, revision) := Basis(ledger, request).value;
    var held := Held(ledger.reservations, profile.account, now);
    Assessment(MarkedAt(ledger, profile.account, now), profile, policy, revision, held, now,
               Evaluate(ledger, request, profile, policy, revision, held, now))
  }

  /** Assessing tables that were marked earlier is assessing the original ones. */
  lemma AssessMarked(ledger: Ledger, request: Request, t0: Time, t1: Time)
    requires Basis(ledger, request).Ok? && t0 <= t1
    ensures Assess(MarkedAt(ledger, Basis(ledger, request).value.0.account, t0), request, t1) ==
              if AttemptReserved(ledger.reservations, request.attempt) then Err(AttemptAlreadyReserved)
              else Ok(Ideal(ledger, request, t1))
  {
    var (profile, policy, revision) := Basis(ledger, request).value;
    var marked := MarkedAt(ledger, profile.account, t0);
    ExpireKeepsRequests(ledger.reservations, profile.account, t0, request.attempt, "");
    assert Basis(marked, request) == Basis(ledger, request);
    ExpiryIsInvisible(ledger.reservations, profile.account, t0, t1);
    ExpireTwice(ledger.reservations, profile.account, t0, t1);
    var held := Held(ledger.reservations, profile.account, t1);
    EvaluateFrame(ledger, Expire(ledger.reservations, profile.account, t1), request, profile, policy, revision, held, t1);
    hide Evaluate;
  }

  lemma AssessFresh(ledger: Ledger, request: Request, now: Time)
    ensures Basis(ledger, request).Ok? && !AttemptReserved(ledger.reservations, request.attempt) ==>
              Assess(ledger, request, now) == Ok(Ideal(ledger, request, now))
    ensures Basis(ledger, request).Err? || AttemptReserved(ledger.reservations, request.attempt) ==>
              Assess(ledger, request, now).Err?
  {
    if Basis(ledger, request).Ok? {
      var (profile, policy, revision) := Basis(ledger, request).value;
      var held := Held(ledger.reservations, profile.account, now);
      EvaluateFrame(ledger, Expire(ledger.reservations, profile.account, now), request, profile, policy, revision, held, now);
      hide Evaluate;
    }
  }

  // ---------------------------------------------------------------- the repeated evaluations

  function LastEvaluation(clock: AdmitClock): Time {
    if clock.afterFacts.Some? then clock.afterFacts.value.1
    else if clock.afterReserve.Some? then clock.afterReserve.value
    else clock.first
  }

  /** The readings up to the last evaluation are in order. */
  predicate EvaluationsAscend(clock: AdmitClock) {
    var reserve := if clock.afterReserve.Some? then clock.afterReserve.value else clock.first;
    && clock.first <= reserve
    && (clock.afterFacts.Some? ==> reserve <= clock.afterFacts.value.0 <= clock.afterFacts.value.1)
  }

  predicate Ascends(clock: AdmitClock) {
    && EvaluationsAscend(clock)
    && LastEvaluation(clock) <= clock.assessed <= clock.created <= clock.written
  }

  lemma IdealFields(ledger: Ledger, request: Request, now: Time)
    requires Basis(ledger, request).Ok?
    ensures Ideal(ledger, request, now).at == now
    ensures Ideal(ledger, request, now).ledger == MarkedAt(ledger, Basis(ledger, request).value.0.account, now)
    ensures Ideal(ledger, request, now).profile == Basis(ledger, request).value.0
    ensures Ideal(ledger, request, now).revision == Basis(ledger, request).value.2
  {
  }

  lemma IdealClean(ledger: Ledger, request: Request, now: Time)
    ensures AdmissibleAt(ledger, request, now) <==>
              Basis(ledger, request).Ok? && Ideal(ledger, request, now).evaluation.reasons == []
  {
  }

  /** Clean at two instants means clean in between. */
  lemma AdmissibleBetween(ledger: Ledger, request: Request, t0: Time, t1: Time, t2: Time)
    requires t0 <= t1 <= t2
    requires AdmissibleAt(ledger, request, t0) && AdmissibleAt(ledger, request, t2)
    ensures AdmissibleAt(ledger, request, t1)
  {
    var (profile, policy, revision) := Basis(ledger, request).value;
    var h0 := Held(ledger.reservations, profile.account, t0);
    var h1 := Held(ledger.reservations, profile.account, t1);
    var h2 := Held(ledger.reservations, profile.account, t2);
    HeldIsLighter(ledger.reservations, profile.account, t0, t1, ledger.usage);
    HeldIsLighter(ledger.reservations, profile.account, t0, t2, ledger.usage);
    CleanStaysCleanInTime(ledger, request, profile, policy, revision, h0, h1, t0, t1);
    CleanStaysCleanInTime(ledger, request, profile, policy, revision, h0, h2, t0, t2);
    hide Clean, Lighter, Held;
  }

  lemma ReserveMeaning(ledger: Ledger, request: Request, clock: AdmitClock)
    ensures var reserve := if clock.afterReserve.Some? then clock.afterReserve.value else clock.first;
            var r := AssessReserve(ledger, request, clock);
            (r.Ok? && r.value.evaluation.reasons == []) <==>
              && !AttemptReserved(ledger.reservations, request.attempt)
              && AdmissibleAt(ledger, request, clock.first) && AdmissibleAt(ledger, request, reserve)
              && clock.first <= reserve
    ensures var reserve := if clock.afterReserve.Some? then clock.afterReserve.value else clock.first;
            var r := AssessReserve(ledger, request, clock);
            r.Ok? && r.value.evaluation.reasons == [] ==>
              Basis(ledger, request).Ok? && r.value == Ideal(ledger, request, reserve)
  {
    hide Assess, AdmissibleAt, Ideal, Basis, MarkedAt, AttemptReserved;
    AssessFresh(ledger, request, clock.first);
    IdealClean(ledger, request, clock.first);
    if clock.afterReserve.Some? {
      var t := clock.afterReserve.value;
      IdealClean(ledger, request, t);
      if Basis(ledger, request).Ok? {
        IdealFields(ledger, request, clock.first);
        if clock.first <= t {
          AssessMarked(ledger, request, clock.first, t);
        }
      }
    }
  }

  /** The repeated evaluations all pass exactly when the first and the last would, with the readings in order. */
  lemma EvaluationsMeaning(ledger: Ledger, request: Request, clock: AdmitClock)
    ensures var r := AssessAll(ledger, request, clock);
            (r.Ok? && r.value.evaluation.reasons == []) <==>
              && !AttemptReserved(ledger.reservations, request.attempt)
              && EvaluationsAscend(clock)
              && AdmissibleAt(ledger, request, clock.first)
              && AdmissibleAt(ledger, request, LastEvaluation(clock))
    ensures var r := AssessAll(ledger, request, clock);
            r.Ok? && r.value.evaluation.reasons == [] ==>
              Basis(ledger, request).Ok? && r.value == Ideal(ledger, request, LastEvaluation(clock))
  {
    hide Assess, AssessReserve, AdmissibleAt, Ideal, Basis, MarkedAt, AttemptReserved;
    ReserveMeaning(ledger, request, clock);
    var reserve := if clock.afterReserve.Some? then clock.afterReserve.value else clock.first;
    if clock.afterFacts.Some? {
      var (captured, after) := clock.afterFacts.value;
      IdealClean(ledger, request, after);
      if Basis(ledger, request).Ok? {
        IdealFields(ledger, request, reserve);
        if reserve <= captured <= after {
          AssessMarked(ledger, request, reserve, after);
          if clock.first <= reserve && AdmissibleAt(ledger, request, clock.first) && AdmissibleAt(ledger, request, after) {
            AdmissibleBetween(ledger, request, clock.first, reserve, after);
          }
        }
      }
    }
  }

  // ---------------------------------------------------------------- the scalar checks

  lemma FloorOnly(policy: Policy, observations: seq<PoolObservation>, floor: Time, now: Time)
    requires TemporalFence(policy, observations, floor).Some? && floor <= now
    ensures TemporalFence(policy, observations, now) == Some(TemporalFence(policy, observations, floor).value.Through(now))
  {
  }

  /** One scalar check from any floor: it goes back, leaves the fence with a reason, or moves the floor. */
  lemma CheckMeaning(ledger: Ledger, request: Request, t0: Time, floor: Time, now: Time)
    requires AdmissibleAt(ledger, request, t0) && t0 <= floor
    ensures var a := Ideal(ledger, request, t0);
            var fence := TemporalFence(a.policy, a.evaluation.observations, floor);
            && fence.Some?
            && var r := CheckFence(fence.value, request, a, now);
               && (r.Err? <==> now < floor)
               && (r.Ok? && r.value.0 == [] <==> floor <= now && AdmissibleAt(ledger, request, now))
               && (r.Ok? && r.value.0 == [] ==>
                     TemporalFence(a.policy, a.evaluation.observations, now) == Some(r.value.1))
  {
    var a := Ideal(ledger, request, t0);
    IdealClean(ledger, request, t0);
    FenceIsFullEvaluation(ledger, request, a.profile, a.policy, a.revision, t0, floor, now);
    RejectedFenceHasAReason(ledger, request, a.profile, a.policy, a.revision, a.held, t0, floor, now);
    if floor <= now {
      FloorOnly(a.policy, a.evaluation.observations, floor, now);
    }
    hide Evaluate, FinalTemporalReasons, TemporalFence, Held;
  }

  lemma FinalMeaning(ledger: Ledger, request: Request, t0: Time, clock: AdmitClock)
    requires AdmissibleAt(ledger, request, t0)
    ensures FinalReasons(request, Ideal(ledger, request, t0), clock) == Ok([]) <==>
              && t0 <= clock.assessed <= clock.created <= clock.written
              && AdmissibleAt(ledger, request, clock.written)
              && clock.written < clock.created + request.duration
  {
    hide CheckFence, TemporalFence;
    CheckMeaning(ledger, request, t0, t0, clock.assessed);
    if t0 <= clock.assessed {
      CheckMeaning(ledger, request, t0, clock.assessed, clock.created);
      if clock.assessed <= clock.created {
        CheckMeaning(ledger, request, t0, clock.created, clock.written);
        if clock.created <= clock.written && AdmissibleAt(ledger, request, clock.written) {
          AdmissibleBetween(ledger, request, t0, clock.assessed, clock.written);
          AdmissibleBetween(ledger, request, t0, clock.created, clock.written);
        }
      }
    }
    hide AdmissibleAt, Ideal;
  }

  // ---------------------------------------------------------------- the theorem

  ghost predicate Admitted(step: Step) {
    step.Ok? && step.value.1.AdmissionDecision? && step.value.1.admitted
  }

  /**
   An admission is granted exactly when the readings never go back, a complete evaluation passes at the first
   and at the last instant, and the reservation has not lapsed before it is written.  The tables then hold,
   besides the lapsed rows marked at the last evaluation, exactly one new row.
   */
  lemma AdmittedExactly(ledger: Ledger, request: Request, id: Id, clock: AdmitClock)
    ensures Admitted(Admit(ledger, request, id, clock)) <==>
              && RequestInput(request)
              && !AttemptReserved(ledger.reservations, request.attempt)
              && !IdTaken(ledger.reservations, id)
              && Ascends(clock)
              && AdmissibleAt(ledger, request, clock.first)
              && AdmissibleAt(ledger, request, clock.written)
              && clock.written < clock.created + request.duration
    ensures Admitted(Admit(ledger, request, id, clock)) ==>
              && Basis(ledger, request).Ok?
              && var (profile, policy, revision) := Basis(ledger, request).value;
                 Admit(ledger, request, id, clock) ==
                   Ok((ledger.(reservations := Expire(ledger.reservations, profile.account, LastEvaluation(clock)) +
                         [Reservation(id, request, Reserved, profile.account, clock.created,
                                      clock.created + request.duration, revision)]),
                       AdmissionDecision(true, [], Some(id))))
  {
    hide AssessAll, FinalReasons, AdmissibleAt, RequestInput, Basis, Ideal, Expire, AttemptReserved, IdTaken;
    EvaluationsMeaning(ledger, request, clock);
    var last := LastEvaluation(clock);
    if AdmissibleAt(ledger, request, clock.first) && AdmissibleAt(ledger, request, clock.written) && Ascends(clock) {
      AdmissibleBetween(ledger, request, clock.first, last, clock.written);
    }
    if AdmissibleAt(ledger, request, last) {
      FinalMeaning(ledger, request, last, clock);
    }
    if Basis(ledger, request).Ok? {
      ExpireKeepsRequests(ledger.reservations, Basis(ledger, request).value.0.account, last, "", id);
      IdealFields(ledger, request, last);
    }
  }
}
