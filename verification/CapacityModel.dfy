/**
 The shared quota ledger: its tables, and the decision the store takes from them.

 Quantities are micro-units (natural numbers), instants and durations are reals.
 Tables read without an ORDER BY are kept in insertion order.
 */
module CapacityModel {
  import opened Common

  type Id = string
  type Time = real

  datatype PoolKind = Service | PlatformAllowance
  datatype WindowKind = Fixed | Rolling | Balance | UnknownWindow
  datatype Pool = Pool(id: Id, account: Id, kind: PoolKind, windowKind: WindowKind)

  /** `pools` lists the profile's pool identities in the order in which they are evaluated. */
  datatype Profile = Profile(id: Id, revision: nat, account: Id, pools: seq<Id>)

  datatype Source = Official | Fixture | Manual | LocalLedger
  datatype Metric = Remaining | Used | Unknown
  datatype Observation = Observation(
    pool: Id, window: Id, observedAt: Time, resetAt: Option<Time>, source: Source,
    metric: Metric, amount: Option<nat>, limit: Option<nat>,
    covered: seq<Id>, coverageRef: Option<Id>, adjustmentReason: Option<string>)
  datatype ObservationRow = ObservationRow(observation: Observation, receivedAt: Time, applied: bool)

  datatype ConservativeMode = ConservativeMode(
    enabled: bool, maxActive: Option<nat>, maxDuration: Option<Time>,
    maxAge: Option<Time>, cooldown: Option<Time>)
  datatype Policy = Policy(
    account: Id, maxActive: nat, maxDuration: Time, maxAge: Time, requireOfficial: bool,
    safetyMargin: map<Id, nat>, leadReserve: map<Id, nat>, leadSlots: nat,
    conservative: Option<ConservativeMode>)

  datatype Role = Commander | Worker | Reviewer | Check
  datatype Purpose = Lead | Advice
  datatype Expected = Expected(policyRevision: nat, windows: map<Id, Id>, leadReserveAccess: bool)
  datatype Request = Request(
    attempt: Id, run: Id, profileId: Id, profileRevision: nat, role: Role, purpose: Option<Purpose>,
    duration: Time, demand: map<Id, nat>, expected: Option<Expected>)

  datatype State = Reserved | Active | Unresolved | Ended | Released | Expired
  datatype Reservation = Reservation(
    id: Id, request: Request, state: State, account: Id,
    createdAt: Time, expiresAt: Time, policyRevision: nat)

  datatype UsageReceipt = UsageReceipt(
    id: Id, admission: Id, amounts: map<Id, nat>, windows: map<Id, Option<Id>>, attributionRef: Option<Id>)
  datatype UsageRow = UsageRow(receipt: UsageReceipt, account: Id, resets: map<Id, Option<Time>>)

  datatype FailureReason = RateLimitTransient | QuotaExhausted | ObservationUnavailable
  datatype FailureRow = FailureRow(account: Id, reason: FailureReason, at: Time, until: Time)

  /** Policy revision `r` of an account is element `r - 1` of its sequence. */
  datatype Ledger = Ledger(
    pools: map<Id, Pool>,
    profiles: map<(Id, nat), Profile>,
    observations: seq<ObservationRow>,
    policies: map<Id, seq<Policy>>,
    reservations: seq<Reservation>,
    usage: seq<UsageRow>,
    failures: seq<FailureRow>)

  const EmptyLedger := Ledger(map[], map[], [], map[], [], [], [])

  // ---------------------------------------------------------------- observations

  function Last<T>(s: seq<T>): T
    requires s != []
  {
    s[|s| - 1]
  }

  /** The applied observations of one pool, oldest first. */
  function Applied(rows: seq<ObservationRow>, pool: Id): seq<Observation> {
    if rows == [] then []
    else
      var rest := Applied(rows[..|rows| - 1], pool);
      var row := Last(rows);
      if row.applied && row.observation.pool == pool then rest + [row.observation] else rest
  }

  function Latest(applied: seq<Observation>): Option<Observation> {
    if applied == [] then None else Some(Last(applied))
  }

  function Observed(ledger: Ledger, pool: Id): Option<Observation> {
    Latest(Applied(ledger.observations, pool))
  }

  function NumericRemaining(o: Observation): Option<int> {
    match o.metric
    case Remaining => if o.amount.Some? then Some(o.amount.value) else None
    case Used => if o.amount.Some? && o.limit.Some? then Some(o.limit.value - o.amount.value) else None
    case Unknown => None
  }

  function LatestNumeric(applied: seq<Observation>): Option<Observation> {
    if applied == [] then None
    else if NumericRemaining(Last(applied)).Some? then Some(Last(applied))
    else LatestNumeric(applied[..|applied| - 1])
  }

  // ---------------------------------------------------------------- held admissions

  predicate Holding(state: State) {
    state == Reserved || state == Active || state == Unresolved
  }

  predicate Lapsed(item: Reservation, now: Time) {
    item.state == Reserved && item.expiresAt <= now
  }

  predicate HeldAt(item: Reservation, account: Id, now: Time) {
    item.account == account && Holding(item.state) && !Lapsed(item, now)
  }

  /** The admissions that occupy capacity of an account at an instant. */
  function Held(items: seq<Reservation>, account: Id, now: Time): seq<Reservation> {
    if items == [] then []
    else
      var rest := Held(items[..|items| - 1], account, now);
      if HeldAt(Last(items), account, now) then rest + [Last(items)] else rest
  }

  function ExpireItem(item: Reservation, account: Id, now: Time): Reservation {
    if item.account == account && Lapsed(item, now) then item.(state := Expired) else item
  }

  /** The reservation table after every lapsed reservation of the account is marked. */
  function Expire(items: seq<Reservation>, account: Id, now: Time): (r: seq<Reservation>)
    ensures |r| == |items|
    ensures forall i :: 0 <= i < |items| ==> r[i] == ExpireItem(items[i], account, now)
  {
    if items == [] then []
    else Expire(items[..|items| - 1], account, now) + [ExpireItem(Last(items), account, now)]
  }

  function Without(items: seq<Reservation>, id: Id): seq<Reservation> {
    if items == [] then []
    else
      var rest := Without(items[..|items| - 1], id);
      if Last(items).id == id then rest else rest + [Last(items)]
  }

  // ---------------------------------------------------------------- quantities

  function Amount(m: map<Id, nat>, pool: Id): nat {
    if pool in m then m[pool] else 0
  }

  /** What one usage row adds to an admission's consumption of a pool. */
  function Consumes(row: UsageRow, account: Id, admission: Id, pool: Id): nat {
    if row.account == account && row.receipt.admission == admission then Amount(row.receipt.amounts, pool) else 0
  }

  function Consumed(usage: seq<UsageRow>, account: Id, admission: Id, pool: Id): nat {
    if usage == [] then 0
    else Consumed(usage[..|usage| - 1], account, admission, pool) + Consumes(Last(usage), account, admission, pool)
  }

  function Monus(a: nat, b: nat): nat {
    if a >= b then a - b else 0
  }

  /** Demand of one admission that its recorded usage has not consumed yet. */
  function Unconsumed(item: Reservation, usage: seq<UsageRow>, pool: Pool): nat {
    Monus(Amount(item.request.demand, pool.id), Consumed(usage, pool.account, item.id, pool.id))
  }

  function Future(held: seq<Reservation>, usage: seq<UsageRow>, pool: Pool): nat {
    if held == [] then 0
    else Future(held[..|held| - 1], usage, pool) + Unconsumed(Last(held), usage, pool)
  }

  function WindowOf(row: UsageRow, pool: Id): Option<Id> {
    if pool in row.receipt.windows then row.receipt.windows[pool] else None
  }

  function ResetOf(row: UsageRow, pool: Id): Option<Time> {
    if pool in row.resets then row.resets[pool] else None
  }

  /** A row attributed to a fixed window that had already ended when `o` was observed. */
  predicate ClosedWindow(row: UsageRow, pool: Pool, o: Observation) {
    && pool.windowKind == Fixed
    && WindowOf(row, pool.id).Some? && WindowOf(row, pool.id).value != o.window
    && ResetOf(row, pool.id).Some? && ResetOf(row, pool.id).value <= o.observedAt
  }

  /** Whether a usage row is still to be subtracted from what the observation reports. */
  predicate Counts(row: UsageRow, pool: Pool, observed: Option<Observation>) {
    && row.account == pool.account
    && pool.id in row.receipt.amounts
    && (observed.Some? ==> row.receipt.id !in observed.value.covered && !ClosedWindow(row, pool, observed.value))
  }

  function CountedAmount(row: UsageRow, pool: Pool, observed: Option<Observation>): nat {
    if Counts(row, pool, observed) then Amount(row.receipt.amounts, pool.id) else 0
  }

  function Uncovered(usage: seq<UsageRow>, pool: Pool, observed: Option<Observation>): nat {
    if usage == [] then 0
    else Uncovered(usage[..|usage| - 1], pool, observed) + CountedAmount(Last(usage), pool, observed)
  }

  // ---------------------------------------------------------------- evaluation

  datatype Reason =
    | PoolVectorMismatch
    | WindowVectorMismatch
    | PolicyRevisionChanged
    | ConcurrencyExhausted
    | DurationUnbounded
    | Cooldown
    | WindowChanged(pool: Id)
    | ObservationStale(pool: Id)
    | OfficialObservationRequired(pool: Id)
    | ExhaustionRequiresNewObservation(pool: Id)
    | OfficialQuotaRequired(pool: Id)
    | QuotaUnknown(pool: Id)
    | ConservativeModeIncomplete(pool: Id)
    | ConservativeConcurrencyExhausted(pool: Id)
    | ConservativeDurationExceeded(pool: Id)
    | ConservativeObservationStale(pool: Id)
    | QuotaInsufficient(pool: Id)
    | ReservationExpired
    | ClockRegressed

  datatype Availability = Unquantified | Quantity(amount: int)
  datatype PoolObservation = PoolObservation(pool: Id, observed: Option<Observation>)
  datatype PoolVerdict = PoolVerdict(reasons: seq<Reason>, available: Option<Availability>)
  datatype Evaluation = Evaluation(
    reasons: seq<Reason>, observations: seq<PoolObservation>, available: map<Id, Availability>)

  predicate IsLead(request: Request) {
    && request.role == Commander
    && request.purpose == Some(Lead)
    && (request.expected.None? || request.expected.value.leadReserveAccess)
  }

  function FailuresOf(failures: seq<FailureRow>, account: Id): seq<FailureRow> {
    if failures == [] then []
    else
      var rest := FailuresOf(failures[..|failures| - 1], account);
      if Last(failures).account == account then rest + [Last(failures)] else rest
  }

  predicate Cooling(failures: seq<FailureRow>, now: Time) {
    exists i :: 0 <= i < |failures| && failures[i].until > now
  }

  /** A quota exhaustion reported for a service at or after an instant. */
  predicate ExhaustedSince(pool: Pool, failures: seq<FailureRow>, at: Time) {
    && pool.kind == Service
    && exists i :: 0 <= i < |failures| && failures[i].reason == QuotaExhausted && failures[i].at >= at
  }

  predicate EverExhausted(pool: Pool, failures: seq<FailureRow>) {
    && pool.kind == Service
    && exists i :: 0 <= i < |failures| && failures[i].reason == QuotaExhausted
  }

  /** A newer observation proves that the window of an exhausted one is over. */
  predicate ResetProved(pool: Pool, observed: Observation, exhausted: Observation) {
    && pool.windowKind == Fixed
    && observed.window != exhausted.window
    && exhausted.resetAt.Some? && observed.observedAt >= exhausted.resetAt.value
  }

  /** The exhaustion latch, over the applied observations of the pool and its account's failures. */
  predicate Exhausted(pool: Pool, applied: seq<Observation>, failures: seq<FailureRow>) {
    var latest := LatestNumeric(applied);
    if latest.None? then EverExhausted(pool, failures)
    else
      var o := latest.value;
      var remaining := NumericRemaining(o);
      if remaining.None? || remaining.value <= 0 then
        EverExhausted(pool, failures) || !(applied != [] && ResetProved(pool, Last(applied), o))
      else ExhaustedSince(pool, failures, o.observedAt)
  }

  predicate Stale(policy: Policy, observed: Option<Observation>, now: Time) {
    || observed.None?
    || observed.value.observedAt > now
    || now - observed.value.observedAt > policy.maxAge
    || (observed.value.resetAt.Some? && observed.value.resetAt.value <= now)
  }

  function Slots(limit: nat, policy: Policy, lead: bool): int {
    limit - (if lead then 0 else policy.leadSlots)
  }

  function Conservative(request: Request, policy: Policy, o: Observation, held: nat, now: Time, lead: bool, pool: Id)
    : seq<Reason>
  {
    if policy.requireOfficial then [OfficialQuotaRequired(pool)]
    else if policy.conservative.None? || !policy.conservative.value.enabled then [QuotaUnknown(pool)]
    else
      var mode := policy.conservative.value;
      if mode.maxActive.None? || mode.maxDuration.None? || mode.maxAge.None? || mode.cooldown.None? then
        [ConservativeModeIncomplete(pool)]
      else
        (if held >= Slots(mode.maxActive.value, policy, lead) then [ConservativeConcurrencyExhausted(pool)] else []) +
        (if request.duration > mode.maxDuration.value then [ConservativeDurationExceeded(pool)] else []) +
        (if now - o.observedAt > mode.maxAge.value then [ConservativeObservationStale(pool)] else [])
  }

  /** Reported remaining less uncovered usage, held future demand and the protections that apply. */
  function Headroom(ledger: Ledger, policy: Policy, held: seq<Reservation>, pool: Pool, o: Observation, remaining: int,
                    lead: bool): int
  {
    remaining - Uncovered(ledger.usage, pool, Some(o)) - Future(held, ledger.usage, pool)
    - Amount(policy.safetyMargin, pool.id) - (if lead then 0 else Amount(policy.leadReserve, pool.id))
  }

  function WindowReasons(request: Request, observed: Option<Observation>, pool: Id): seq<Reason> {
    if request.expected.Some? &&
       (observed.None? || pool !in request.expected.value.windows ||
        observed.value.window != request.expected.value.windows[pool])
    then [WindowChanged(pool)] else []
  }

  /** The part of the decision that concerns one pool, apart from the routed window. */
  function PoolQuota(ledger: Ledger, request: Request, policy: Policy, held: seq<Reservation>, now: Time,
                     failures: seq<FailureRow>, pool: Pool): PoolVerdict
  {
    var lead := IsLead(request);
    var applied := Applied(ledger.observations, pool.id);
    var observed := Latest(applied);
    if Stale(policy, observed, now) then PoolVerdict([ObservationStale(pool.id)], None)
    else
      var o := observed.value;
      var remaining := NumericRemaining(o);
      if pool.kind == Service && policy.requireOfficial && o.source != Official then
        PoolVerdict([OfficialObservationRequired(pool.id)], None)
      else if (remaining.None? && Exhausted(pool, applied, failures)) || ExhaustedSince(pool, failures, o.observedAt) then
        PoolVerdict([ExhaustionRequiresNewObservation(pool.id)], None)
      else if remaining.None? then
        PoolVerdict(Conservative(request, policy, o, |held|, now, lead, pool.id), Some(Unquantified))
      else
        var quantity := Headroom(ledger, policy, held, pool, o, remaining.value, lead);
        PoolVerdict(if Amount(request.demand, pool.id) > quantity then [QuotaInsufficient(pool.id)] else [],
                    Some(Quantity(quantity)))
  }

  function EvaluatePools(ledger: Ledger, request: Request, policy: Policy, held: seq<Reservation>, now: Time,
                         failures: seq<FailureRow>, pools: seq<Id>): Evaluation
    requires forall p :: p in pools ==> p in ledger.pools
  {
    if pools == [] then Evaluation([], [], map[])
    else
      var rest := EvaluatePools(ledger, request, policy, held, now, failures, pools[..|pools| - 1]);
      var id := Last(pools);
      var observed := Observed(ledger, ledger.pools[id].id);
      var verdict := PoolQuota(ledger, request, policy, held, now, failures, ledger.pools[id]);
      Evaluation(
        rest.reasons + WindowReasons(request, observed, id) + verdict.reasons,
        rest.observations + [PoolObservation(id, observed)],
        if verdict.available.Some? then rest.available[id := verdict.available.value] else rest.available)
  }

  function AccountReasons(request: Request, policy: Policy, revision: nat, held: nat, now: Time,
                          failures: seq<FailureRow>): seq<Reason>
  {
    (if request.expected.Some? && request.expected.value.policyRevision != revision then [PolicyRevisionChanged] else []) +
    (if held >= Slots(policy.maxActive, policy, IsLead(request)) then [ConcurrencyExhausted] else []) +
    (if request.duration > policy.maxDuration then [DurationUnbounded] else []) +
    (if Cooling(failures, now) then [Cooldown] else [])
  }

  function Elements<T>(s: seq<T>): set<T> {
    set x | x in s
  }

  /** The complete decision at one instant. */
  function Evaluate(ledger: Ledger, request: Request, profile: Profile, policy: Policy, revision: nat,
                    held: seq<Reservation>, now: Time): Evaluation
    requires forall p :: p in profile.pools ==> p in ledger.pools
  {
    if request.demand.Keys != Elements(profile.pools) then Evaluation([PoolVectorMismatch], [], map[])
    else if request.expected.Some? && request.expected.value.windows.Keys != Elements(profile.pools) then
      Evaluation([WindowVectorMismatch], [], map[])
    else
      var failures := FailuresOf(ledger.failures, profile.account);
      var pools := EvaluatePools(ledger, request, policy, held, now, failures, profile.pools);
      pools.(reasons := AccountReasons(request, policy, revision, |held|, now, failures) + pools.reasons)
  }
}
