/**
 The guard held across an effect: it re-checks an active admission without counting the admission's own claim,
 and leaves behind a capability that can be asserted again and again at constant cost.
 */
module CapacityGuard {
  import opened Common
  import opened CapacityModel
  import opened CapacityFence
  import opened CapacityCommands

  datatype Capability = Capability(expiresAt: Time, fence: Fence) {
    function AssertCurrent(now: Time): Outcome<Capability> {
      if now < fence.floor then Err(ClockWentBack)
      else if expiresAt <= now then Err(AdmissionExpired)
      else if !fence.Current(now) then Err(EffectFenceExpired)
      else Ok(this.(fence := fence.Through(now)))
    }

    /** A whole series of assertions. */
    function AssertAll(readings: seq<Time>): Outcome<Capability> {
      if readings == [] then Ok(this)
      else
        var before :- AssertAll(readings[..|readings| - 1]);
        before.AssertCurrent(Last(readings))
    }
  }

  datatype GuardClock = GuardClock(
    checked: Time, captured: Option<Time>, evaluated: Time, assessed: Time, prepared: Time, yielded: Time)

  function Floor(clock: GuardClock): Time {
    if clock.captured.Some? && clock.captured.value > clock.evaluated then clock.captured.value else clock.evaluated
  }

  /** The first reason of a recheck; it is never empty where it is consulted. */
  function FirstReason(reasons: seq<Reason>): Error {
    if reasons == [] then TemporalFactsInvalid else Refused(reasons[0])
  }

  /** What the guard evaluates: the admission's request against everybody else's load. */
  datatype Scope = Scope(profile: Profile, policy: Policy, revision: nat, item: Reservation)

  function Others(ledger: Ledger, item: Reservation, now: Time): seq<Reservation> {
    Without(Held(ledger.reservations, item.account, now), item.id)
  }

  function ScopeOf(ledger: Ledger, item: Reservation): (r: Outcome<Scope>)
    ensures r.Ok? ==> ProfileOk(ledger, r.value.profile) && r.value.item == item
  {
    var policies := PoliciesOf(ledger, item.account);
    var key := (item.request.profileId, item.request.profileRevision);
    if policies == [] then Err(PolicyRequired)
    else if key !in ledger.profiles then Err(ProfileUnknown)
    else if !ProfileOk(ledger, ledger.profiles[key]) then Err(PoolUnknown)
    else Ok(Scope(ledger.profiles[key], Last(policies), |policies|, item))
  }

  /** A scalar check inside the guard: expiry first, then the fence. */
  function GuardCheck(fence: Fence, s: Scope, held: nat, observations: seq<PoolObservation>, now: Time): Outcome<Fence> {
    if s.item.expiresAt <= now then Err(AdmissionExpired)
    else if !fence.Current(now) then
      Err(FirstReason(FinalTemporalReasons(s.item.request, s.policy, held, observations, now, fence.floor)))
    else Ok(fence.Through(now))
  }

  /** The first of the three scalar checks looks at the fence before the expiry. */
  function FirstGuardCheck(fence: Fence, s: Scope, held: nat, observations: seq<PoolObservation>, now: Time): Outcome<Fence> {
    if !fence.Current(now) then
      Err(FirstReason(FinalTemporalReasons(s.item.request, s.policy, held, observations, now, fence.floor)))
    else if s.item.expiresAt <= now then Err(AdmissionExpired)
    else Ok(fence.Through(now))
  }

  /** The order of the two tests decides the error only. */
  lemma FirstCheckAgrees(fence: Fence, s: Scope, held: nat, observations: seq<PoolObservation>, now: Time)
    ensures var r, q := FirstGuardCheck(fence, s, held, observations, now), GuardCheck(fence, s, held, observations, now);
            (r.Ok? <==> q.Ok?) && (r.Ok? ==> r == q)
  {
    hide FinalTemporalReasons;
  }

  function GuardScope(ledger: Ledger, s: Scope, clock: GuardClock): Outcome<Capability>
    requires ProfileOk(ledger, s.profile)
  {
    var held := Others(ledger, s.item, clock.evaluated);
    var e := Evaluate(ledger, s.item.request, s.profile, s.policy, s.revision, held, clock.evaluated);
    if e.reasons != [] then Err(FirstReason(e.reasons))
    else
      var fence := TemporalFence(s.policy, e.observations, Floor(clock));
      if fence.None? then Err(TemporalFactsInvalid)
      else
        var f1 :- FirstGuardCheck(fence.value, s, |held|, e.observations, clock.assessed);
        var f2 :- GuardCheck(f1, s, |held|, e.observations, clock.prepared);
        var f3 :- GuardCheck(f2, s, |held|, e.observations, clock.yielded);
        Ok(Capability(s.item.expiresAt, f3))
  }

  /** The whole boundary; it writes nothing. */
  function PreEffectGuard(ledger: Ledger, id: Id, expected: Request, clock: GuardClock): Outcome<Capability> {
    if !RequestInput(expected) then Err(InputInvalid)
    else if expected.expected.None? then Err(BindingRequired)
    else
      var found := Find(ledger.reservations, id);
      if found.None? then Err(AdmissionUnknown)
      else
        var item := found.value;
        if item.request != expected then Err(RequestMismatch)
        else if item.state != Active then Err(NotActive)
        else if item.expiresAt <= clock.checked then Err(AdmissionExpired)
        else if item.expiresAt <= clock.evaluated then Err(AdmissionExpired)
        else
          var s :- ScopeOf(ledger, item);
          GuardScope(ledger, s, clock)
  }

  // ---------------------------------------------------------------- meaning

  /** A complete evaluation of the admission's request at one instant, its own claim left out, finds nothing. */
  ghost predicate GuardedAt(ledger: Ledger, s: Scope, now: Time)
    requires ProfileOk(ledger, s.profile)
  {
    Clean(ledger, s.item.request, s.profile, s.policy, s.revision, Others(ledger, s.item, now), now)
  }

  ghost function FenceFrom(ledger: Ledger, s: Scope, t0: Time, floor: Time): Option<Fence>
    requires ProfileOk(ledger, s.profile)
  {
    TemporalFence(s.policy,
                  Evaluate(ledger, s.item.request, s.profile, s.policy, s.revision, Others(ledger, s.item, t0), t0).observations,
                  floor)
  }

  lemma GuardedBetween(ledger: Ledger, s: Scope, t0: Time, t1: Time, t2: Time)
    requires ProfileOk(ledger, s.profile)
    requires t0 <= t1 <= t2 && GuardedAt(ledger, s, t0) && GuardedAt(ledger, s, t2)
    ensures GuardedAt(ledger, s, t1)
  {
    hide Clean, Lighter, Others;
    OthersLighter(ledger, s.item, t0, t1);
    OthersLighter(ledger, s.item, t0, t2);
    CleanStaysCleanInTime(ledger, s.item.request, s.profile, s.policy, s.revision,
                          Others(ledger, s.item, t0), Others(ledger, s.item, t1), t0, t1);
    CleanStaysCleanInTime(ledger, s.item.request, s.profile, s.policy, s.revision,
                          Others(ledger, s.item, t0), Others(ledger, s.item, t2), t0, t2);
  }

  lemma OthersLighter(ledger: Ledger, item: Reservation, t0: Time, t1: Time)
    requires t0 <= t1
    ensures Lighter(Others(ledger, item, t1), Others(ledger, item, t0), ledger.usage)
  {
    WithoutIsLighter(ledger.reservations, item.account, item.id, t0, t1, ledger.usage);
  }

  /** The fence of a clean guard evaluation is the full guard evaluation at every later instant. */
  lemma GuardFenceIsFullEvaluation(ledger: Ledger, s: Scope, t0: Time, floor: Time, now: Time)
    requires ProfileOk(ledger, s.profile)
    requires t0 <= floor && GuardedAt(ledger, s, t0)
    ensures FenceFrom(ledger, s, t0, floor).Some?
    ensures FenceFrom(ledger, s, t0, floor).value.floor == floor
    ensures FenceFrom(ledger, s, t0, floor).value.Current(now) <==> floor <= now && GuardedAt(ledger, s, now)
    ensures floor <= now ==> FenceFrom(ledger, s, t0, now) == Some(FenceFrom(ledger, s, t0, floor).value.Through(now))
  {
    FenceMeaning(ledger, s.item.request, s.profile, s.policy, s.revision, Others(ledger, s.item, t0), t0, floor, now);
    if floor <= now {
      OthersLighter(ledger, s.item, t0, now);
      CleanStaysCleanInTime(ledger, s.item.request, s.profile, s.policy, s.revision,
                            Others(ledger, s.item, t0), Others(ledger, s.item, now), t0, now);
    }
    hide Evaluate, Others, CollectLimits;
  }

  lemma GuardCheckMeaning(ledger: Ledger, s: Scope, t0: Time, floor: Time, held: nat, observations: seq<PoolObservation>, now: Time)
    requires ProfileOk(ledger, s.profile)
    requires t0 <= floor && GuardedAt(ledger, s, t0)
    ensures FenceFrom(ledger, s, t0, floor).Some?
    ensures var r := GuardCheck(FenceFrom(ledger, s, t0, floor).value, s, held, observations, now);
            && (r.Ok? <==> floor <= now < s.item.expiresAt && GuardedAt(ledger, s, now))
            && (r.Ok? ==> Some(r.value) == FenceFrom(ledger, s, t0, now))
  {
    hide GuardedAt, FenceFrom, FinalTemporalReasons;
    GuardFenceIsFullEvaluation(ledger, s, t0, floor, now);
  }

  lemma GuardScopeMeaning(ledger: Ledger, s: Scope, clock: GuardClock)
    requires ProfileOk(ledger, s.profile)
    ensures GuardScope(ledger, s, clock).Ok? <==>
              && Floor(clock) <= clock.assessed <= clock.prepared <= clock.yielded < s.item.expiresAt
              && GuardedAt(ledger, s, clock.evaluated)
              && GuardedAt(ledger, s, clock.yielded)
    ensures GuardScope(ledger, s, clock).Ok? ==>
              Some(GuardScope(ledger, s, clock).value.fence) == FenceFrom(ledger, s, clock.evaluated, clock.yielded)
  {
    var held := Others(ledger, s.item, clock.evaluated);
    var e := Evaluate(ledger, s.item.request, s.profile, s.policy, s.revision, held, clock.evaluated);
    assert GuardedAt(ledger, s, clock.evaluated) <==> e.reasons == [];
    assert TemporalFence(s.policy, e.observations, Floor(clock)) == FenceFrom(ledger, s, clock.evaluated, Floor(clock));
    if TemporalFence(s.policy, e.observations, Floor(clock)).Some? {
      FirstCheckAgrees(TemporalFence(s.policy, e.observations, Floor(clock)).value, s, |held|, e.observations, clock.assessed);
    }
    hide GuardedAt, FenceFrom, Evaluate, TemporalFence, GuardCheck, FirstGuardCheck, Others;
    if e.reasons == [] {
      GuardCheckMeaning(ledger, s, clock.evaluated, Floor(clock), |held|, e.observations, clock.assessed);
      if Floor(clock) <= clock.assessed {
        GuardCheckMeaning(ledger, s, clock.evaluated, clock.assessed, |held|, e.observations, clock.prepared);
        if clock.assessed <= clock.prepared {
          GuardCheckMeaning(ledger, s, clock.evaluated, clock.prepared, |held|, e.observations, clock.yielded);
          if clock.prepared <= clock.yielded && GuardedAt(ledger, s, clock.yielded) {
            GuardedBetween(ledger, s, clock.evaluated, clock.assessed, clock.yielded);
            GuardedBetween(ledger, s, clock.evaluated, clock.prepared, clock.yielded);
          }
        }
      }
    }
  }

  /**
   The guard yields exactly when the active admission with this very request is unexpired throughout and complete
   evaluations without its own claim pass at the evaluated and at the yielded instant, in clock order.
   */
  lemma GuardYieldsExactly(ledger: Ledger, id: Id, expected: Request, clock: GuardClock)
    ensures PreEffectGuard(ledger, id, expected, clock).Ok? <==>
              var found := Find(ledger.reservations, id);
              && RequestInput(expected) && expected.expected.Some?
              && found.Some? && found.value.request == expected && found.value.state == Active
              && ScopeOf(ledger, found.value).Ok?
              && clock.checked < found.value.expiresAt
              && Floor(clock) <= clock.assessed <= clock.prepared <= clock.yielded < found.value.expiresAt
              && GuardedAt(ledger, ScopeOf(ledger, found.value).value, clock.evaluated)
              && GuardedAt(ledger, ScopeOf(ledger, found.value).value, clock.yielded)
  {
    hide GuardScope, GuardedAt, RequestInput, Find, ScopeOf;
    var found := Find(ledger.reservations, id);
    if found.Some? && ScopeOf(ledger, found.value).Ok? {
      GuardScopeMeaning(ledger, ScopeOf(ledger, found.value).value, clock);
    }
  }

  function Top(floor: Time, readings: seq<Time>): Time {
    if readings == [] then floor else Last(readings)
  }

  /** The readings never go back, from `floor` on. */
  predicate Rising(floor: Time, readings: seq<Time>) {
    readings != [] ==>
      var init := readings[..|readings| - 1];
      Rising(floor, init) && Top(floor, init) <= Last(readings)
  }

  /** Every reading would pass a complete guard evaluation of the unexpired admission. */
  ghost predicate AllGuarded(ledger: Ledger, s: Scope, readings: seq<Time>)
    requires ProfileOk(ledger, s.profile)
  {
    forall i :: 0 <= i < |readings| ==> readings[i] < s.item.expiresAt && GuardedAt(ledger, s, readings[i])
  }

  lemma AllGuardedSnoc(ledger: Ledger, s: Scope, readings: seq<Time>)
    requires ProfileOk(ledger, s.profile) && readings != []
    ensures AllGuarded(ledger, s, readings) <==>
              && AllGuarded(ledger, s, readings[..|readings| - 1])
              && Last(readings) < s.item.expiresAt && GuardedAt(ledger, s, Last(readings))
  {
    hide GuardedAt;
    assert readings == readings[..|readings| - 1] + [Last(readings)];
  }

  /**
   The capability stands for the full evaluation for as long as it is held: a series of assertions succeeds
   exactly when the clock never goes back and every single reading would pass a complete guard evaluation, unexpired.
   */
  lemma {:induction false} CapabilityIsFullEvaluation(ledger: Ledger, s: Scope, t0: Time, floor: Time, readings: seq<Time>)
    requires ProfileOk(ledger, s.profile)
    requires t0 <= floor && GuardedAt(ledger, s, t0)
    ensures FenceFrom(ledger, s, t0, floor).Some?
    ensures var r := Capability(s.item.expiresAt, FenceFrom(ledger, s, t0, floor).value).AssertAll(readings);
            && (r.Ok? <==> Rising(floor, readings) && AllGuarded(ledger, s, readings))
            && (r.Ok? ==>
                  && floor <= Top(floor, readings)
                  && r.value.expiresAt == s.item.expiresAt
                  && Some(r.value.fence) == FenceFrom(ledger, s, t0, Top(floor, readings)))
  {
    hide GuardedAt, FenceFrom, AllGuarded;
    GuardFenceIsFullEvaluation(ledger, s, t0, floor, floor);
    if readings == [] {
      assert AllGuarded(ledger, s, readings) by { NoneGuarded(ledger, s); }
    } else {
      var init, now := readings[..|readings| - 1], Last(readings);
      CapabilityIsFullEvaluation(ledger, s, t0, floor, init);
      AllGuardedSnoc(ledger, s, readings);
      var top := Top(floor, init);
      if floor <= top {
        GuardFenceIsFullEvaluation(ledger, s, t0, top, now);
      }
    }
  }

  lemma NoneGuarded(ledger: Ledger, s: Scope)
    requires ProfileOk(ledger, s.profile)
    ensures AllGuarded(ledger, s, [])
  {
  }
}
