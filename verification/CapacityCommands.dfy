/**
 The commands of the quota ledger, each one atomic step over the tables.

 An error leaves the tables as they were: the transaction is rolled back.
 Generated identities and clock readings are parameters.
 */
module CapacityCommands {
  import opened Common
  import opened CapacityModel
  import opened CapacityFence

  datatype Error =
    | InputInvalid | IdempotencyConflict | StorageConflict
    | PoolUnknown | PoolIdentityConflict | ProfilePoolMismatch | ProfileIdentityConflict | ProfileUnknown
    | ObservationTimeInvalid | AdjustmentReasonRequired | AllowanceRequiresLocalObservation
    | ObservationQuantityInvalid | CoverageEvidenceRequired | CoverageUsageUnknown | WindowIdentityConflict
    | PolicyStale | PolicyInvalid | PolicyRequired | ProtectionExceedsPoolLimit | ProtectionUpdateOnly
    | AttemptAlreadyReserved | ClockWentBack | TemporalFactsInvalid | Refused(reason: Reason)
    | AdmissionUnknown | ActivationAlreadyRecorded | ActivationRequired | AlreadyReconciled
    | CannotReleaseActivated | UnsentConflictsWithUsage | ReconciliationIncomplete | FinalUsageRequired
    | UsageIdentityConflict | UsageVectorMismatch | WindowAttributionRequired | WindowUnknown
    | BindingRequired | RequestMismatch | NotActive | AdmissionExpired | EffectFenceExpired

  datatype Outcome<+T> = Ok(value: T) | Err(error: Error) {
    predicate IsFailure() { Err? }
    function PropagateFailure<U>(): Outcome<U> requires Err? { Err(error) }
    function Extract(): T requires Ok? { value }
  }

  datatype Receipt =
    | Registered
    | ObservationReceipt(applied: bool)
    | PolicyReceipt(revision: nat)
    | AdmissionDecision(admitted: bool, reasons: seq<Reason>, admission: Option<Id>)
    | ActivationDecision(revalidated: bool, reasons: seq<Reason>)
    | StateReceipt(state: State)
    | UsageRecorded(row: UsageRow)
    | FailureRecorded(until: Time)

  type Step = Outcome<(Ledger, Receipt)>

  predicate Distinct<T(==)>(s: seq<T>) {
    forall i, j :: 0 <= i < j < |s| ==> s[i] != s[j]
  }

  // ---------------------------------------------------------------- registration

  function RegisterPool(ledger: Ledger, pool: Pool): Step {
    if pool.id in ledger.pools then
      if ledger.pools[pool.id] != pool then Err(PoolIdentityConflict) else Ok((ledger, Registered))
    else Ok((ledger.(pools := ledger.pools[pool.id := pool]), Registered))
  }

  function RegisterProfile(ledger: Ledger, profile: Profile): Step {
    if profile.pools == [] || !Distinct(profile.pools) then Err(InputInvalid)
    else if exists p :: p in profile.pools && p !in ledger.pools then Err(PoolUnknown)
    else if (exists p :: p in profile.pools && ledger.pools[p].account != profile.account) ||
            !(exists p :: p in profile.pools && ledger.pools[p].kind == Service)
    then Err(ProfilePoolMismatch)
    else
      var key := (profile.id, profile.revision);
      if key in ledger.profiles then
        if ledger.profiles[key] != profile then Err(ProfileIdentityConflict) else Ok((ledger, Registered))
      else Ok((ledger.(profiles := ledger.profiles[key := profile]), Registered))
  }

  // ---------------------------------------------------------------- observations

  function FindUsage(usage: seq<UsageRow>, id: Id): Option<UsageRow> {
    if usage == [] then None
    else if Last(usage).receipt.id == id then Some(Last(usage))
    else FindUsage(usage[..|usage| - 1], id)
  }

  predicate CoverageKnown(usage: seq<UsageRow>, covered: seq<Id>, pool: Id) {
    forall i :: 0 <= i < |covered| ==>
      var row := FindUsage(usage, covered[i]); row.Some? && pool in row.value.receipt.amounts
  }

  predicate QuantityValid(o: Observation) {
    && (o.metric == Unknown ==> o.amount.None?)
    && (o.metric != Unknown ==> o.amount.Some?)
    && (o.metric == Remaining && o.limit.Some? ==> o.amount.value <= o.limit.value)
  }

  /** A window that was once given a reset keeps it. */
  predicate WindowConsistent(applied: seq<Observation>, o: Observation) {
    forall i :: 0 <= i < |applied| ==>
      (applied[i].window == o.window && applied[i].resetAt.Some? ==> applied[i].resetAt == o.resetAt)
  }

  predicate Supersedes(previous: Option<Observation>, o: Observation) {
    previous.Some? ==>
      && o.observedAt > previous.value.observedAt
      && (previous.value.window != o.window ==>
            previous.value.resetAt.Some? && o.observedAt >= previous.value.resetAt.value)
  }

  function Observe(ledger: Ledger, o: Observation, now: Time): Step {
    if o.pool !in ledger.pools then Err(PoolUnknown)
    else
      var pool := ledger.pools[o.pool];
      if o.observedAt > now || (o.resetAt.Some? && o.resetAt.value <= o.observedAt) then Err(ObservationTimeInvalid)
      else if o.source == Manual && o.adjustmentReason.None? then Err(AdjustmentReasonRequired)
      else if pool.kind == PlatformAllowance && o.source == Official then Err(AllowanceRequiresLocalObservation)
      else if !QuantityValid(o) then Err(ObservationQuantityInvalid)
      else if o.covered != [] && (o.coverageRef.None? || !Distinct(o.covered)) then Err(CoverageEvidenceRequired)
      else if !CoverageKnown(ledger.usage, o.covered, o.pool) then Err(CoverageUsageUnknown)
      else
        var applied := Applied(ledger.observations, o.pool);
        if pool.windowKind == Fixed && !WindowConsistent(applied, o) then Err(WindowIdentityConflict)
        else
          var row := ObservationRow(o, now, Supersedes(Latest(applied), o));
          Ok((ledger.(observations := ledger.observations + [row]), ObservationReceipt(row.applied)))
  }

  // ---------------------------------------------------------------- policies

  function PoliciesOf(ledger: Ledger, account: Id): seq<Policy> {
    if account in ledger.policies then ledger.policies[account] else []
  }

  predicate ExceedsLimit(ledger: Ledger, policy: Policy, pool: Id) {
    var observed := Observed(ledger, pool);
    observed.Some? && observed.value.limit.Some? && Amount(policy.leadReserve, pool) > observed.value.limit.value
  }

  predicate PolicyInput(policy: Policy) {
    policy.maxActive > 0 && policy.maxDuration > 0.0 && policy.maxAge > 0.0
  }

  /** Where several protected pools are wrong in different ways, the store reports the one it meets first. */
  function ActivatePolicy(ledger: Ledger, policy: Policy, expectedRevision: nat): Step {
    var current := PoliciesOf(ledger, policy.account);
    var protected := policy.safetyMargin.Keys + policy.leadReserve.Keys;
    if !PolicyInput(policy) then Err(InputInvalid)
    else if |current| != expectedRevision then Err(PolicyStale)
    else if policy.leadSlots > policy.maxActive then Err(PolicyInvalid)
    else if exists p :: p in protected && p !in ledger.pools then Err(PoolUnknown)
    else if exists p :: p in protected && ledger.pools[p].account != policy.account then Err(PolicyInvalid)
    else if exists p :: p in protected && ExceedsLimit(ledger, policy, p) then Err(ProtectionExceedsPoolLimit)
    else
      Ok((ledger.(policies := ledger.policies[policy.account := current + [policy]]), PolicyReceipt(|current| + 1)))
  }

  /** Only the protections of the current policy may differ. */
  function UpdateProtection(ledger: Ledger, policy: Policy, expectedRevision: nat): Step {
    var current := PoliciesOf(ledger, policy.account);
    if !PolicyInput(policy) || expectedRevision < 1 then Err(InputInvalid)
    else if current == [] || |current| != expectedRevision then Err(PolicyStale)
    else if policy != Last(current).(leadReserve := policy.leadReserve, leadSlots := policy.leadSlots) then
      Err(ProtectionUpdateOnly)
    else ActivatePolicy(ledger, policy, expectedRevision)
  }

  // ---------------------------------------------------------------- admission

  predicate RequestInput(request: Request) {
    && request.duration > 0.0
    && request.demand != map[]
    && forall p :: p in request.demand ==> request.demand[p] > 0
  }

  predicate AttemptReserved(items: seq<Reservation>, attempt: Id) {
    exists i :: 0 <= i < |items| && items[i].request.attempt == attempt
  }

  predicate IdTaken(items: seq<Reservation>, id: Id) {
    exists i :: 0 <= i < |items| && items[i].id == id
  }

  /** One complete reading of the decision, with the policy and load it was taken from. */
  datatype Assessment = Assessment(
    ledger: Ledger, profile: Profile, policy: Policy, revision: nat, held: seq<Reservation>, at: Time, evaluation: Evaluation)

  /** The profile and policy a request is judged by. */
  function Basis(ledger: Ledger, request: Request): Outcome<(Profile, Policy, nat)> {
    var key := (request.profileId, request.profileRevision);
    if key !in ledger.profiles then Err(ProfileUnknown)
    else
      var profile := ledger.profiles[key];
      var policies := PoliciesOf(ledger, profile.account);
      if policies == [] then Err(PolicyRequired)
      else if !ProfileOk(ledger, profile) then Err(PoolUnknown)
      else Ok((profile, Last(policies), |policies|))
  }

  function Assess(ledger: Ledger, request: Request, now: Time): (r: Outcome<Assessment>)
    ensures r.Ok? ==> ProfileOk(r.value.ledger, r.value.profile)
  {
    if AttemptReserved(ledger.reservations, request.attempt) then Err(AttemptAlreadyReserved)
    else
      var (profile, policy, revision) :- Basis(ledger, request);
      var held := Held(ledger.reservations, profile.account, now);
      var marked := ledger.(reservations := Expire(ledger.reservations, profile.account, now));
      Ok(Assessment(marked, profile, policy, revision, held, now,
                    Evaluate(marked, request, profile, policy, revision, held, now)))
  }

  /**
   The clock readings of one admission: the first evaluation, the repeated ones after the optional
   controller callbacks, and the three scalar checks before the row is written.
   */
  datatype AdmitClock = AdmitClock(
    first: Time, afterReserve: Option<Time>, afterFacts: Option<(Time, Time)>,
    assessed: Time, created: Time, written: Time)

  /** A later reading must not precede the highest one so far; `afterFacts` reads the clock for the capture, then again. */
  function Reassess(last: Assessment, request: Request, highest: Time, now: Time): Outcome<Assessment> {
    var next :- Assess(last.ledger, request, now);
    if now < highest then Err(ClockWentBack) else Ok(next)
  }

  function AssessReserve(ledger: Ledger, request: Request, clock: AdmitClock): Outcome<Assessment> {
    var first :- Assess(ledger, request, clock.first);
    if first.evaluation.reasons != [] || clock.afterReserve.None? then Ok(first)
    else Reassess(first, request, clock.first, clock.afterReserve.value)
  }

  /** All repeated evaluations; every reading that passed is at most the instant of the last one. */
  function AssessAll(ledger: Ledger, request: Request, clock: AdmitClock): Outcome<Assessment> {
    var reserve :- AssessReserve(ledger, request, clock);
    if reserve.evaluation.reasons != [] || clock.afterFacts.None? then Ok(reserve)
    else
      var (captured, after) := clock.afterFacts.value;
      if captured < reserve.at then Err(ClockWentBack)
      else Reassess(reserve, request, captured, after)
  }

  /** One scalar check: an error when the clock went back, reasons when the fence is left, else the advanced fence. */
  function CheckFence(fence: Fence, request: Request, a: Assessment, now: Time): Outcome<(seq<Reason>, Fence)> {
    if now < fence.floor then Err(ClockWentBack)
    else if !fence.Current(now) then
      Ok((FinalTemporalReasons(request, a.policy, |a.held|, a.evaluation.observations, now, fence.floor), fence))
    else Ok(([], fence.Through(now)))
  }

  /** The reasons found between the last evaluation and the write. */
  function FinalReasons(request: Request, a: Assessment, clock: AdmitClock): Outcome<seq<Reason>> {
    var fence := TemporalFence(a.policy, a.evaluation.observations, a.at);
    if fence.None? then Err(TemporalFactsInvalid)
    else
      var (r1, f1) :- CheckFence(fence.value, request, a, clock.assessed);
      if r1 != [] then Ok(r1)
      else
        var (r2, f2) :- CheckFence(f1, request, a, clock.created);
        if r2 != [] then Ok(r2)
        else
          var (r3, f3) :- CheckFence(f2, request, a, clock.written);
          Ok(if r3 == [] && clock.created + request.duration <= clock.written then [ReservationExpired] else r3)
  }

  function Admit(ledger: Ledger, request: Request, id: Id, clock: AdmitClock): Step {
    if !RequestInput(request) then Err(InputInvalid)
    else
      var a :- AssessAll(ledger, request, clock);
      if a.evaluation.reasons != [] then Ok((a.ledger, AdmissionDecision(false, a.evaluation.reasons, None)))
      else
        var reasons :- FinalReasons(request, a, clock);
        if reasons != [] then Ok((a.ledger, AdmissionDecision(false, reasons, None)))
        else if IdTaken(a.ledger.reservations, id) then Err(StorageConflict)
        else
          var item := Reservation(id, request, Reserved, a.profile.account,
                                  clock.created, clock.created + request.duration, a.revision);
          Ok((a.ledger.(reservations := a.ledger.reservations + [item]), AdmissionDecision(true, [], Some(id))))
  }

  // ---------------------------------------------------------------- lifecycle

  function Find(items: seq<Reservation>, id: Id): Option<Reservation> {
    if items == [] then None
    else if Last(items).id == id then Some(Last(items))
    else Find(items[..|items| - 1], id)
  }

  /** The table with the row of `item.id` overwritten. */
  function Replace(items: seq<Reservation>, item: Reservation): (r: seq<Reservation>)
    ensures |r| == |items|
    ensures forall i :: 0 <= i < |items| ==> r[i] == if items[i].id == item.id then item else items[i]
  {
    if items == [] then []
    else Replace(items[..|items| - 1], item) + [if Last(items).id == item.id then item else Last(items)]
  }

  function Activate(ledger: Ledger, id: Id, now: Time): Step {
    var found := Find(ledger.reservations, id);
    if found.None? then Err(AdmissionUnknown)
    else
      var account := found.value.account;
      var held := Held(ledger.reservations, account, now);
      var marked := ledger.(reservations := Expire(ledger.reservations, account, now));
      var item := ExpireItem(found.value, account, now);
      if item.state == Expired then Ok((marked, ActivationDecision(false, [ReservationExpired])))
      else if item.state != Reserved then Err(ActivationAlreadyRecorded)
      else
        var (profile, policy, revision) :- Basis(marked, item.request);
        var e := Evaluate(marked, item.request, profile, policy, revision, Without(held, id), now);
        if e.reasons != [] then Ok((marked, ActivationDecision(false, e.reasons)))
        else
          Ok((marked.(reservations := Replace(marked.reservations, item.(state := Active))), ActivationDecision(true, [])))
  }

  function CancelUnactivated(ledger: Ledger, id: Id, now: Time): Step {
    var found := Find(ledger.reservations, id);
    if found.None? then Err(AdmissionUnknown)
    else if found.value.state == Active || found.value.state == Unresolved then Err(CannotReleaseActivated)
    else if found.value.state != Reserved && found.value.state != Expired then Err(AlreadyReconciled)
    else
      var account := found.value.account;
      var marked := Expire(ledger.reservations, account, now);
      var item := ExpireItem(found.value, account, now);
      if item.state == Reserved then
        Ok((ledger.(reservations := Replace(marked, item.(state := Released))), StateReceipt(Released)))
      else Ok((ledger.(reservations := marked), StateReceipt(item.state)))
  }

  datatype Ending = Ending(localEnded: bool, remoteEnded: bool, usageComplete: bool, notSent: bool)

  predicate HasUsage(usage: seq<UsageRow>, admission: Id) {
    exists i :: 0 <= i < |usage| && usage[i].receipt.admission == admission
  }

  function Reconcile(ledger: Ledger, id: Id, ending: Ending): Step {
    var found := Find(ledger.reservations, id);
    if found.None? then Err(AdmissionUnknown)
    else
      var item := found.value;
      if item.state == Ended || item.state == Released || item.state == Expired then Err(AlreadyReconciled)
      else if ending.notSent then
        if HasUsage(ledger.usage, id) then Err(UnsentConflictsWithUsage)
        else if !(ending.localEnded && ending.remoteEnded) then Err(ReconciliationIncomplete)
        else Ok((ledger.(reservations := Replace(ledger.reservations, item.(state := Released))), StateReceipt(Released)))
      else if item.state == Reserved then Err(ActivationRequired)
      else if ending.usageComplete && !HasUsage(ledger.usage, id) then Err(FinalUsageRequired)
      else
        var state := if ending.localEnded && ending.remoteEnded && ending.usageComplete then Ended else Unresolved;
        Ok((ledger.(reservations := Replace(ledger.reservations, item.(state := state))), StateReceipt(state)))
  }

  // ---------------------------------------------------------------- usage and failures

  function LastInWindow(applied: seq<Observation>, window: Id): Option<Observation> {
    if applied == [] then None
    else if Last(applied).window == window then Some(Last(applied))
    else LastInWindow(applied[..|applied| - 1], window)
  }

  predicate WindowsKnown(ledger: Ledger, windows: map<Id, Option<Id>>) {
    forall p :: p in windows && windows[p].Some? ==>
      LastInWindow(Applied(ledger.observations, p), windows[p].value).Some?
  }

  function ResetFor(ledger: Ledger, pool: Id, window: Option<Id>): Option<Time> {
    if window.None? then None
    else
      var found := LastInWindow(Applied(ledger.observations, pool), window.value);
      if found.None? then None else found.value.resetAt
  }

  function RecordUsage(ledger: Ledger, receipt: UsageReceipt): Step {
    var prior := FindUsage(ledger.usage, receipt.id);
    if receipt.amounts == map[] then Err(InputInvalid)
    else if prior.Some? then
      if prior.value.receipt != receipt then Err(UsageIdentityConflict) else Ok((ledger, UsageRecorded(prior.value)))
    else
      var found := Find(ledger.reservations, receipt.admission);
      if found.None? then Err(AdmissionUnknown)
      else
        var item := found.value;
        if item.state != Active && item.state != Unresolved && item.state != Ended then Err(ActivationRequired)
        else if receipt.amounts.Keys != item.request.demand.Keys || receipt.windows.Keys != item.request.demand.Keys then
          Err(UsageVectorMismatch)
        else if (exists p :: p in receipt.windows && receipt.windows[p].Some?) && receipt.attributionRef.None? then
          Err(WindowAttributionRequired)
        else if !WindowsKnown(ledger, receipt.windows) then Err(WindowUnknown)
        else
          var resets := map p | p in receipt.windows :: ResetFor(ledger, p, receipt.windows[p]);
          var row := UsageRow(receipt, item.account, resets);
          Ok((ledger.(usage := ledger.usage + [row]), UsageRecorded(row)))
  }

  function RecordFailure(ledger: Ledger, account: Id, reason: FailureReason, retryAfter: Time, now: Time): Step {
    var policies := PoliciesOf(ledger, account);
    if policies == [] then Err(PolicyRequired)
    else
      var mode := Last(policies).conservative;
      var cooldown := if mode.Some? && mode.value.cooldown.Some? then mode.value.cooldown.value else 0.0;
      var until := now + (if cooldown >= retryAfter then cooldown else retryAfter);
      Ok((ledger.(failures := ledger.failures + [FailureRow(account, reason, now, until)]), FailureRecorded(until)))
  }

  // ---------------------------------------------------------------- the machine

  datatype Command =
    | RegisterPoolCommand(pool: Pool)
    | RegisterProfileCommand(profile: Profile)
    | ObserveCommand(observation: Observation, now: Time)
    | ActivatePolicyCommand(policy: Policy, expectedRevision: nat)
    | UpdateProtectionCommand(policy: Policy, expectedRevision: nat)
    | AdmitCommand(request: Request, id: Id, clock: AdmitClock)
    | ActivateCommand(id: Id, now: Time)
    | CancelCommand(id: Id, now: Time)
    | ReconcileCommand(id: Id, ending: Ending)
    | RecordUsageCommand(receipt: UsageReceipt)
    | RecordFailureCommand(account: Id, reason: FailureReason, retryAfter: Time, now: Time)

  function Apply(ledger: Ledger, command: Command): Step {
    match command
    case RegisterPoolCommand(pool) => RegisterPool(ledger, pool)
    case RegisterProfileCommand(profile) => RegisterProfile(ledger, profile)
    case ObserveCommand(o, now) => Observe(ledger, o, now)
    case ActivatePolicyCommand(policy, revision) => ActivatePolicy(ledger, policy, revision)
    case UpdateProtectionCommand(policy, revision) => UpdateProtection(ledger, policy, revision)
    case AdmitCommand(request, id, clock) => Admit(ledger, request, id, clock)
    case ActivateCommand(id, now) => Activate(ledger, id, now)
    case CancelCommand(id, now) => CancelUnactivated(ledger, id, now)
    case ReconcileCommand(id, ending) => Reconcile(ledger, id, ending)
    case RecordUsageCommand(receipt) => RecordUsage(ledger, receipt)
    case RecordFailureCommand(account, reason, retryAfter, now) => RecordFailure(ledger, account, reason, retryAfter, now)
  }

  /** The tables after a command; an error changes nothing. */
  function Next(ledger: Ledger, command: Command): Ledger {
    var step := Apply(ledger, command);
    if step.Ok? then step.value.0 else ledger
  }

  function Run(ledger: Ledger, commands: seq<Command>): Ledger {
    if commands == [] then ledger else Next(Run(ledger, commands[..|commands| - 1]), Last(commands))
  }
}
