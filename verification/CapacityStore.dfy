/**
 The store itself: its tables as fields, its loops, and one transaction per command with rollback and replay.
 */
module CapacityStore {
  import opened Common
  import opened CapacityModel
  import opened CapacityFence
  import opened CapacityCommands
  import opened CapacityAdmission
  import opened CapacityInvariants
  import opened CapacityConservation
  import opened CapacityObservations

  // ---------------------------------------------------------------- the journal of commands

  /**
   What a command is recognised by: its kind and its payload.  Clock readings and generated identities belong to one
   execution of it and are no part of the payload.
   */
  datatype Payload =
    | PoolPayload(pool: Pool)
    | ProfilePayload(profile: Profile)
    | ObservationPayload(observation: Observation)
    | PolicyPayload(policy: Policy, expectedRevision: nat)
    | ProtectionPayload(policy: Policy, expectedRevision: nat)
    | AdmissionPayload(request: Request)
    | ActivationPayload(id: Id)
    | CancellationPayload(id: Id)
    | ReconciliationPayload(id: Id, ending: Ending)
    | UsagePayload(receipt: UsageReceipt)
    | FailurePayload(account: Id, reason: FailureReason, retryAfter: Time)

  function PayloadOf(command: Command): Payload {
    match command
    case RegisterPoolCommand(pool) => PoolPayload(pool)
    case RegisterProfileCommand(profile) => ProfilePayload(profile)
    case ObserveCommand(o, _) => ObservationPayload(o)
    case ActivatePolicyCommand(policy, revision) => PolicyPayload(policy, revision)
    case UpdateProtectionCommand(policy, revision) => ProtectionPayload(policy, revision)
    case AdmitCommand(request, _, _) => AdmissionPayload(request)
    case ActivateCommand(id, _) => ActivationPayload(id)
    case CancelCommand(id, _) => CancellationPayload(id)
    case ReconcileCommand(id, ending) => ReconciliationPayload(id, ending)
    case RecordUsageCommand(receipt) => UsagePayload(receipt)
    case RecordFailureCommand(account, reason, retryAfter, _) => FailurePayload(account, reason, retryAfter)
  }

  /** The tables together with the receipts of the commands that committed. */
  datatype Journal = Journal(ledger: Ledger, receipts: map<Id, (Payload, Receipt)>)

  datatype Submission = Submission(key: Id, command: Command)

  /** One transaction: a replay of the payload returns the stored receipt, another payload under the same key conflicts. */
  function Submit(j: Journal, s: Submission): (Journal, Outcome<Receipt>) {
    if s.key in j.receipts then
      if j.receipts[s.key].0 != PayloadOf(s.command) then (j, Err(IdempotencyConflict)) else (j, Ok(j.receipts[s.key].1))
    else
      match Apply(j.ledger, s.command)
      case Err(error) => (j, Err(error))
      case Ok((ledger, receipt)) => (Journal(ledger, j.receipts[s.key := (PayloadOf(s.command), receipt)]), Ok(receipt))
  }

  function RunJournal(j: Journal, submissions: seq<Submission>): Journal {
    if submissions == [] then j
    else Submit(RunJournal(j, submissions[..|submissions| - 1]), Last(submissions)).0
  }

  /** The commands of a run of submissions that took effect, replays and errors left out. */
  function Effective(j: Journal, submissions: seq<Submission>): seq<Command> {
    if submissions == [] then []
    else
      var init, s := submissions[..|submissions| - 1], Last(submissions);
      var before := RunJournal(j, init);
      Effective(j, init) + if s.key !in before.receipts && Apply(before.ledger, s.command).Ok? then [s.command] else []
  }

  /** However often commands are replayed, the tables are those of the effective commands applied once each, in order. */
  lemma {:induction false} ReplaysHaveNoEffect(j: Journal, submissions: seq<Submission>)
    ensures RunJournal(j, submissions).ledger == Run(j.ledger, Effective(j, submissions))
    ensures |RunJournal(j, submissions).receipts| == |j.receipts| + |Effective(j, submissions)|
  {
    hide Apply, PayloadOf;
    if submissions != [] {
      var init, s := submissions[..|submissions| - 1], Last(submissions);
      ReplaysHaveNoEffect(j, init);
      var before := RunJournal(j, init);
      if s.key !in before.receipts && Apply(before.ledger, s.command).Ok? {
        var commands := Effective(j, init);
        assert (commands + [s.command])[..|commands|] == commands;
        var entry := (PayloadOf(s.command), Apply(before.ledger, s.command).value.1);
        assert before.receipts[s.key := entry].Keys == before.receipts.Keys + {s.key};
      } else {
        assert Effective(j, init) + [] == Effective(j, init);
      }
    }
  }

  /**
   A committed receipt stands for ever: every later submission under its key is answered with it, at whatever clock and
   with whatever generated identity, if the payload is the same, and with a conflict if not; the tables stay untouched.
   */
  lemma {:induction false} ReceiptForever(j: Journal, submissions: seq<Submission>, key: Id, command: Command)
    requires key in j.receipts
    ensures var later := RunJournal(j, submissions);
            && key in later.receipts && later.receipts[key] == j.receipts[key]
            && Submit(later, Submission(key, command)) ==
                 (later, if PayloadOf(command) == j.receipts[key].0 then Ok(j.receipts[key].1) else Err(IdempotencyConflict))
  {
    hide Apply, PayloadOf;
    if submissions != [] {
      ReceiptForever(j, submissions[..|submissions| - 1], key, command);
    }
  }

  /** A retry of a command that committed, however much later, returns what the command returned and changes nothing. */
  lemma {:induction false} RetryIsAnswered(j: Journal, s: Submission, submissions: seq<Submission>, retry: Submission)
    requires Submit(j, s).1.Ok? && retry.key == s.key && PayloadOf(retry.command) == PayloadOf(s.command)
    ensures var later := RunJournal(Submit(j, s).0, submissions);
            Submit(later, retry) == (later, Submit(j, s).1)
  {
    hide RunJournal, PayloadOf, Apply;
    ReceiptForever(Submit(j, s).0, submissions, s.key, retry.command);
  }

  // ---------------------------------------------------------------- loops over observations

  method BuildFence(policy: Policy, observations: seq<PoolObservation>, evaluatedAt: Time) returns (r: Option<Fence>)
    ensures r == TemporalFence(policy, observations, evaluatedAt)
  {
    var limits := Limits(None, None);
    for i := 0 to |observations|
      invariant CollectLimits(policy, observations[..i]) == Some(limits)
    {
      assert observations[..i + 1][..i] == observations[..i];
      var next := AddLimits(limits, policy, observations[i].observed);
      if next.None? {
        InvalidStays(policy, observations, i + 1);
        return None;
      }
      limits := next.value;
    }
    assert observations[..|observations|] == observations;
    if limits.inclusive.None? {
      return None;
    }
    return Some(Fence(evaluatedAt, limits.inclusive.value, limits.exclusive));
  }

  lemma {:induction false} InvalidStays(policy: Policy, observations: seq<PoolObservation>, n: nat)
    requires n <= |observations| && CollectLimits(policy, observations[..n]).None?
    ensures CollectLimits(policy, observations).None?
    decreases |observations| - n
  {
    if n < |observations| {
      assert observations[..n + 1][..n] == observations[..n];
      InvalidStays(policy, observations, n + 1);
    } else {
      assert observations[..n] == observations;
    }
  }

  method RecheckTime(request: Request, policy: Policy, held: nat, observations: seq<PoolObservation>, now: Time, evaluatedAt: Time)
    returns (reasons: seq<Reason>)
    ensures reasons == FinalTemporalReasons(request, policy, held, observations, now, evaluatedAt)
  {
    hide ElapsedReasons, AllElapsedReasons;
    reasons := if now < evaluatedAt then [ClockRegressed] else [];
    ghost var first := reasons;
    NothingElapsed(request, policy, held, now);
    for i := 0 to |observations|
      invariant reasons == first + AllElapsedReasons(request, policy, held, observations[..i], now)
    {
      NextElapsed(request, policy, held, observations, now, i);
      var next := ElapsedReasons(request, policy, held, observations[i], now);
      assert reasons + next == first + (AllElapsedReasons(request, policy, held, observations[..i], now) + next);
      reasons := reasons + next;
    }
    assert observations[..|observations|] == observations;
  }

  lemma NothingElapsed(request: Request, policy: Policy, held: nat, now: Time)
    ensures AllElapsedReasons(request, policy, held, [], now) == []
  {
  }

  lemma NextElapsed(request: Request, policy: Policy, held: nat, observations: seq<PoolObservation>, now: Time, i: nat)
    requires i < |observations|
    ensures AllElapsedReasons(request, policy, held, observations[..i + 1], now) ==
            AllElapsedReasons(request, policy, held, observations[..i], now) + ElapsedReasons(request, policy, held, observations[i], now)
  {
    hide ElapsedReasons;
    assert observations[..i + 1][..i] == observations[..i];
  }

  // ---------------------------------------------------------------- the store

  class CapacityStore {
    var pools: map<Id, Pool>
    var profiles: map<(Id, nat), Profile>
    var observations: seq<ObservationRow>
    var policies: map<Id, seq<Policy>>
    var reservations: seq<Reservation>
    var usage: seq<UsageRow>
    var failures: seq<FailureRow>
    var receipts: map<Id, (Payload, Receipt)>

    function Tables(): Ledger
      reads this
    {
      Ledger(pools, profiles, observations, policies, reservations, usage, failures)
    }

    /** The invariants of every reachable ledger. */
    ghost predicate Valid()
      reads this
    {
      Inv(Tables()) && ChainsOk(Tables())
    }

    constructor ()
      ensures Valid() && Tables() == EmptyLedger && receipts == map[]
    {
      pools, profiles, observations, policies := map[], map[], [], map[];
      reservations, usage, failures, receipts := [], [], [], map[];
      new;
      EmptyInv();
    }

    /** A command that commits keeps the invariants. */
    static lemma StaysValid(ledger: Ledger, command: Command)
      requires Inv(ledger) && ChainsOk(ledger)
      ensures Inv(Next(ledger, command)) && ChainsOk(Next(ledger, command))
    {
      hide Next, Inv, ChainsOk;
      InvKept(ledger, command);
      ChainsKept(ledger, command);
    }

    /** Marks every lapsed reservation of the account, row by row, and collects those that still hold. */
    method MarkHeld(account: Id, now: Time) returns (held: seq<Reservation>)
      modifies this`reservations
      ensures reservations == Expire(old(reservations), account, now)
      ensures held == Held(old(reservations), account, now)
    {
      held := [];
      var i := 0;
      ghost var before := reservations;
      while i < |reservations|
        invariant 0 <= i <= |reservations| == |before|
        invariant forall k :: 0 <= k < i ==> reservations[k] == ExpireItem(before[k], account, now)
        invariant forall k :: i <= k < |before| ==> reservations[k] == before[k]
        invariant held == Held(before[..i], account, now)
      {
        assert before[..i + 1][..i] == before[..i];
        var item := reservations[i];
        if item.account == account {
          if item.state == Reserved && item.expiresAt <= now {
            item := item.(state := Expired);
            reservations := reservations[i := item];
          }
          if item.state == Reserved || item.state == Active || item.state == Unresolved {
            held := held + [item];
          }
        }
        i := i + 1;
      }
      assert before[..|before|] == before;
    }

    method SumUncovered(pool: Pool, observed: Option<Observation>) returns (uncovered: nat)
      ensures uncovered == Uncovered(usage, pool, observed)
    {
      uncovered := 0;
      for i := 0 to |usage|
        invariant uncovered == Uncovered(usage[..i], pool, observed)
      {
        assert usage[..i + 1][..i] == usage[..i];
        if Counts(usage[i], pool, observed) {
          uncovered := uncovered + usage[i].receipt.amounts[pool.id];
        }
      }
      assert usage[..|usage|] == usage;
    }

    method SumConsumed(account: Id, admission: Id, pool: Id) returns (consumed: nat)
      ensures consumed == Consumed(usage, account, admission, pool)
    {
      consumed := 0;
      for i := 0 to |usage|
        invariant consumed == Consumed(usage[..i], account, admission, pool)
      {
        assert usage[..i + 1][..i] == usage[..i];
        consumed := consumed + Consumes(usage[i], account, admission, pool);
      }
      assert usage[..|usage|] == usage;
    }

    /** What a pool's observation does not show: uncovered usage, and future demand of the held admissions. */
    method PoolUsage(pool: Pool, observed: Option<Observation>, held: seq<Reservation>) returns (uncovered: nat, future: nat)
      ensures uncovered == Uncovered(usage, pool, observed)
      ensures future == Future(held, usage, pool)
    {
      uncovered := SumUncovered(pool, observed);
      future := 0;
      for i := 0 to |held|
        invariant future == Future(held[..i], usage, pool)
      {
        assert held[..i + 1][..i] == held[..i];
        var consumed := SumConsumed(pool.account, held[i].id, pool.id);
        future := future + Monus(Amount(held[i].request.demand, pool.id), consumed);
      }
      assert held[..|held|] == held;
    }

    /** The verdict on one pool. */
    method JudgePool(request: Request, policy: Policy, held: seq<Reservation>, now: Time, failed: seq<FailureRow>, pool: Pool)
      returns (verdict: PoolVerdict)
      ensures verdict == PoolQuota(Tables(), request, policy, held, now, failed, pool)
    {
      hide Exhausted, ExhaustedSince, Conservative, Uncovered, Future, IsLead, Applied;
      var applied := Applied(observations, pool.id);
      var observed := Latest(applied);
      if Stale(policy, observed, now) {
        return PoolVerdict([ObservationStale(pool.id)], None);
      }
      var o := observed.value;
      if pool.kind == Service && policy.requireOfficial && o.source != Official {
        return PoolVerdict([OfficialObservationRequired(pool.id)], None);
      }
      var remaining := NumericRemaining(o);
      if (remaining.None? && Exhausted(pool, applied, failed)) || ExhaustedSince(pool, failed, o.observedAt) {
        return PoolVerdict([ExhaustionRequiresNewObservation(pool.id)], None);
      }
      if remaining.None? {
        return PoolVerdict(Conservative(request, policy, o, |held|, now, IsLead(request), pool.id), Some(Unquantified));
      }
      var uncovered, future := PoolUsage(pool, observed, held);
      var quantity := remaining.value - uncovered - future;
      quantity := quantity - Amount(policy.safetyMargin, pool.id);
      if !IsLead(request) {
        quantity := quantity - Amount(policy.leadReserve, pool.id);
      }
      verdict := PoolVerdict(if Amount(request.demand, pool.id) > quantity then [QuotaInsufficient(pool.id)] else [],
                             Some(Quantity(quantity)));
    }

    /** Evaluates the pools of the profile one after the other, collecting reasons, observations and availability. */
    method EvaluateRequest(request: Request, profile: Profile, policy: Policy, revision: nat, held: seq<Reservation>, now: Time)
      returns (e: Evaluation)
      requires ProfileOk(Tables(), profile)
      ensures e == Evaluate(Tables(), request, profile, policy, revision, held, now)
    {
      if request.demand.Keys != Elements(profile.pools) {
        return Evaluation([PoolVectorMismatch], [], map[]);
      }
      if request.expected.Some? && request.expected.value.windows.Keys != Elements(profile.pools) {
        return Evaluation([WindowVectorMismatch], [], map[]);
      }
      var failed := FailuresOf(failures, profile.account);
      var ids := profile.pools;
      e := Evaluation([], [], map[]);
      for i := 0 to |ids|
        invariant e == EvaluatePools(Tables(), request, policy, held, now, failed, ids[..i])
      {
        assert ids[..i + 1][..i] == ids[..i];
        var id := ids[i];
        var observed := Observed(Tables(), pools[id].id);
        var verdict := JudgePool(request, policy, held, now, failed, pools[id]);
        e := Evaluation(
          e.reasons + WindowReasons(request, observed, id) + verdict.reasons,
          e.observations + [PoolObservation(id, observed)],
          if verdict.available.Some? then e.available[id := verdict.available.value] else e.available);
      }
      assert ids[..|ids|] == ids;
      e := e.(reasons := AccountReasons(request, policy, revision, |held|, now, failed) + e.reasons);
    }

    /** One complete reading under the held lock; it marks lapsed rows as it goes. */
    method AssessRequest(request: Request, now: Time) returns (r: Outcome<Assessment>)
      modifies this`reservations
      ensures r == Assess(old(Tables()), request, now)
      ensures r.Ok? ==> Tables() == r.value.ledger
    {
      if AttemptReserved(reservations, request.attempt) {
        return Err(AttemptAlreadyReserved);
      }
      var basis := Basis(Tables(), request);
      if basis.Err? {
        return Err(basis.error);
      }
      var (profile, policy, revision) := basis.value;
      var held := MarkHeld(profile.account, now);
      var e := EvaluateRequest(request, profile, policy, revision, held, now);
      r := Ok(Assessment(Tables(), profile, policy, revision, held, now, e));
    }

    /** All evaluations of an admission, repeated after each callback that may have waited. */
    method AssessRepeatedly(request: Request, clock: AdmitClock) returns (r: Outcome<Assessment>)
      modifies this`reservations
      ensures r == AssessAll(old(Tables()), request, clock)
      ensures r.Ok? ==> Tables() == r.value.ledger
    {
      hide Assess;
      r := AssessRequest(request, clock.first);
      if r.Err? { return; }
      var highest := clock.first;
      if r.value.evaluation.reasons == [] && clock.afterReserve.Some? {
        r := AssessRequest(request, clock.afterReserve.value);
        if r.Err? { return; }
        if clock.afterReserve.value < highest {
          return Err(ClockWentBack);
        }
        highest := clock.afterReserve.value;
      }
      assert AssessReserve(old(Tables()), request, clock) == r;
      assert highest == r.value.at by { AssessedAt(old(Tables()), request, clock); }
      if r.value.evaluation.reasons == [] && clock.afterFacts.Some? {
        var (captured, after) := clock.afterFacts.value;
        if captured < highest {
          return Err(ClockWentBack);
        }
        highest := captured;
        r := AssessRequest(request, after);
        if r.Err? { return; }
        if after < highest {
          return Err(ClockWentBack);
        }
      }
    }

    static lemma AssessedAt(ledger: Ledger, request: Request, clock: AdmitClock)
      ensures var r := AssessReserve(ledger, request, clock);
              r.Ok? ==> r.value.at == if Assess(ledger, request, clock.first).value.evaluation.reasons == [] && clock.afterReserve.Some?
                                      then clock.afterReserve.value else clock.first
    {
      hide Evaluate, Basis;
    }

    /** One scalar check of the fence kept since the last evaluation. */
    method CheckTime(fence: Fence, request: Request, a: Assessment, now: Time) returns (r: Outcome<(seq<Reason>, Fence)>)
      ensures r == CheckFence(fence, request, a, now)
    {
      if now < fence.floor {
        return Err(ClockWentBack);
      }
      if !fence.Current(now) {
        var reasons := RecheckTime(request, a.policy, |a.held|, a.evaluation.observations, now, fence.floor);
        return Ok((reasons, fence));
      }
      return Ok(([], fence.Through(now)));
    }

    method CheckToTheEnd(request: Request, a: Assessment, clock: AdmitClock) returns (r: Outcome<seq<Reason>>)
      ensures r == FinalReasons(request, a, clock)
    {
      hide CheckFence, TemporalFence;
      var fence := BuildFence(a.policy, a.evaluation.observations, a.at);
      if fence.None? {
        return Err(TemporalFactsInvalid);
      }
      var check := CheckTime(fence.value, request, a, clock.assessed);
      if check.Err? { return Err(check.error); }
      if check.value.0 != [] { return Ok(check.value.0); }
      check := CheckTime(check.value.1, request, a, clock.created);
      if check.Err? { return Err(check.error); }
      if check.value.0 != [] { return Ok(check.value.0); }
      check := CheckTime(check.value.1, request, a, clock.written);
      if check.Err? { return Err(check.error); }
      if check.value.0 == [] && clock.created + request.duration <= clock.written {
        return Ok([ReservationExpired]);
      }
      return Ok(check.value.0);
    }

    method AdmitRequest(request: Request, id: Id, clock: AdmitClock) returns (r: Outcome<Receipt>)
      modifies this`reservations
      ensures Reports(Admit(old(Tables()), request, id, clock), Tables(), r)
    {
      hide AssessAll, FinalReasons, RequestInput, IdTaken;
      if !RequestInput(request) {
        return Err(InputInvalid);
      }
      var assessed := AssessRepeatedly(request, clock);
      if assessed.Err? { return Err(assessed.error); }
      var a := assessed.value;
      if a.evaluation.reasons != [] {
        return Ok(AdmissionDecision(false, a.evaluation.reasons, None));
      }
      var last := CheckToTheEnd(request, a, clock);
      if last.Err? { return Err(last.error); }
      if last.value != [] {
        return Ok(AdmissionDecision(false, last.value, None));
      }
      if IdTaken(reservations, id) {
        return Err(StorageConflict);
      }
      reservations := reservations + [Reservation(id, request, Reserved, a.profile.account, clock.created,
                                                  clock.created + request.duration, a.revision)];
      return Ok(AdmissionDecision(true, [], Some(id)));
    }

    /** The receipt and, unless there is an error, the new tables are those of the step. */
    static ghost predicate Reports(step: Step, after: Ledger, r: Outcome<Receipt>) {
      match step
      case Err(error) => r == Err(error)
      case Ok((ledger, receipt)) => r == Ok(receipt) && after == ledger
    }

    /** Overwrites the row of an admission in place. */
    method Save(item: Reservation)
      modifies this`reservations
      ensures reservations == Replace(old(reservations), item)
    {
      var i := 0;
      ghost var before := reservations;
      while i < |reservations|
        invariant 0 <= i <= |reservations| == |before|
        invariant forall k :: 0 <= k < i ==> reservations[k] == if before[k].id == item.id then item else before[k]
        invariant forall k :: i <= k < |before| ==> reservations[k] == before[k]
      {
        if reservations[i].id == item.id {
          reservations := reservations[i := item];
        }
        i := i + 1;
      }
    }

    method ActivateAdmission(id: Id, now: Time) returns (r: Outcome<Receipt>)
      modifies this`reservations
      ensures Reports(Activate(old(Tables()), id, now), Tables(), r)
    {
      var found := Find(reservations, id);
      if found.None? {
        return Err(AdmissionUnknown);
      }
      hide Basis, Evaluate, Expire, Held, Without, Replace, Find;
      var held := MarkHeld(found.value.account, now);
      var item := ExpireItem(found.value, found.value.account, now);
      if item.state == Expired {
        return Ok(ActivationDecision(false, [ReservationExpired]));
      }
      if item.state != Reserved {
        return Err(ActivationAlreadyRecorded);
      }
      var basis := Basis(Tables(), item.request);
      if basis.Err? {
        return Err(basis.error);
      }
      var (profile, policy, revision) := basis.value;
      assert ProfileOk(Tables(), profile) by { BasisIsSound(Tables(), item.request); }
      var e := EvaluateRequest(item.request, profile, policy, revision, Without(held, id), now);
      if e.reasons != [] {
        return Ok(ActivationDecision(false, e.reasons));
      }
      Save(item.(state := Active));
      return Ok(ActivationDecision(true, []));
    }

    static lemma BasisIsSound(ledger: Ledger, request: Request)
      ensures Basis(ledger, request).Ok? ==> ProfileOk(ledger, Basis(ledger, request).value.0)
    {
    }

    method CancelAdmission(id: Id, now: Time) returns (r: Outcome<Receipt>)
      modifies this`reservations
      ensures Reports(CancelUnactivated(old(Tables()), id, now), Tables(), r)
    {
      var found := Find(reservations, id);
      if found.None? {
        return Err(AdmissionUnknown);
      }
      if found.value.state == Active || found.value.state == Unresolved {
        return Err(CannotReleaseActivated);
      }
      if found.value.state != Reserved && found.value.state != Expired {
        return Err(AlreadyReconciled);
      }
      hide Expire, Replace, Find;
      var held := MarkHeld(found.value.account, now);
      var item := ExpireItem(found.value, found.value.account, now);
      if item.state == Reserved {
        Save(item.(state := Released));
        return Ok(StateReceipt(Released));
      }
      return Ok(StateReceipt(item.state));
    }

    method ReconcileAdmission(id: Id, ending: Ending) returns (r: Outcome<Receipt>)
      modifies this`reservations
      ensures Reports(Reconcile(old(Tables()), id, ending), Tables(), r)
    {
      var found := Find(reservations, id);
      if found.None? {
        return Err(AdmissionUnknown);
      }
      var item := found.value;
      if item.state == Ended || item.state == Released || item.state == Expired {
        return Err(AlreadyReconciled);
      }
      hide Replace, Find, HasUsage;
      var state;
      if ending.notSent {
        if HasUsage(usage, id) {
          return Err(UnsentConflictsWithUsage);
        }
        if !(ending.localEnded && ending.remoteEnded) {
          return Err(ReconciliationIncomplete);
        }
        state := Released;
      } else {
        if item.state == Reserved {
          return Err(ActivationRequired);
        }
        if ending.usageComplete && !HasUsage(usage, id) {
          return Err(FinalUsageRequired);
        }
        state := if ending.localEnded && ending.remoteEnded && ending.usageComplete then Ended else Unresolved;
      }
      Save(item.(state := state));
      return Ok(StateReceipt(state));
    }

    method AddPool(pool: Pool) returns (r: Outcome<Receipt>)
      modifies this`pools
      ensures Reports(RegisterPool(old(Tables()), pool), Tables(), r)
    {
      if pool.id in pools {
        if pools[pool.id] != pool {
          return Err(PoolIdentityConflict);
        }
      } else {
        pools := pools[pool.id := pool];
      }
      return Ok(Registered);
    }

    method AddProfile(profile: Profile) returns (r: Outcome<Receipt>)
      modifies this`profiles
      ensures Reports(RegisterProfile(old(Tables()), profile), Tables(), r)
    {
      if profile.pools == [] || !Distinct(profile.pools) {
        return Err(InputInvalid);
      }
      if exists p :: p in profile.pools && p !in pools {
        return Err(PoolUnknown);
      }
      if (exists p :: p in profile.pools && pools[p].account != profile.account) ||
         !(exists p :: p in profile.pools && pools[p].kind == Service) {
        return Err(ProfilePoolMismatch);
      }
      var key := (profile.id, profile.revision);
      if key in profiles {
        if profiles[key] != profile {
          return Err(ProfileIdentityConflict);
        }
      } else {
        profiles := profiles[key := profile];
      }
      return Ok(Registered);
    }

    /** Validates an observation and appends it; whether it is applied depends on the last applied one. */
    method InsertObservation(o: Observation, now: Time) returns (r: Outcome<Receipt>)
      modifies this`observations
      ensures Reports(Observe(old(Tables()), o, now), Tables(), r)
      ensures r.Err? ==> Tables() == old(Tables())
    {
      hide Applied, CoverageKnown, WindowConsistent, QuantityValid, Distinct;
      if o.pool !in pools {
        return Err(PoolUnknown);
      }
      var pool := pools[o.pool];
      if o.observedAt > now || (o.resetAt.Some? && o.resetAt.value <= o.observedAt) {
        return Err(ObservationTimeInvalid);
      }
      if o.source == Manual && o.adjustmentReason.None? {
        return Err(AdjustmentReasonRequired);
      }
      if pool.kind == PlatformAllowance && o.source == Official {
        return Err(AllowanceRequiresLocalObservation);
      }
      if !QuantityValid(o) {
        return Err(ObservationQuantityInvalid);
      }
      if o.covered != [] && (o.coverageRef.None? || !Distinct(o.covered)) {
        return Err(CoverageEvidenceRequired);
      }
      if !CoverageKnown(usage, o.covered, o.pool) {
        return Err(CoverageUsageUnknown);
      }
      if pool.windowKind == Fixed && !WindowConsistent(Applied(observations, o.pool), o) {
        return Err(WindowIdentityConflict);
      }
      var previous := Latest(Applied(observations, o.pool));
      var applied := previous.None? || o.observedAt > previous.value.observedAt;
      if previous.Some? && previous.value.window != o.window &&
         (previous.value.resetAt.None? || o.observedAt < previous.value.resetAt.value) {
        applied := false;
      }
      observations := observations + [ObservationRow(o, now, applied)];
      return Ok(ObservationReceipt(applied));
    }

    /**
     Validates an observation and appends it.  An applied one is later than all applied before it and becomes the pool's
     latest; any other leaves what every pool is judged by as it was.  An exhausted pool stays so unless this one opens it.
     */
    method AddObservation(o: Observation, now: Time) returns (r: Outcome<Receipt>)
      requires Valid()
      modifies this`observations
      ensures Reports(Observe(old(Tables()), o, now), Tables(), r)
      ensures Valid() && (r.Err? ==> Tables() == old(Tables()))
      ensures r.Ok? ==>
                && old(observations) <= observations
                && (forall p :: Applied(observations, p) ==
                      Applied(old(observations), p) + if r.value.applied && p == o.pool then [o] else [])
                && (r.value.applied ==> Observed(Tables(), o.pool) == Some(o) && AllBefore(Applied(old(observations), o.pool), o))
      ensures forall pool: Pool :: Latched(old(Tables()), pool) ==>
                (Latched(Tables(), pool) <==> !OpenedBy(old(Tables()), ObserveCommand(o, now), pool))
    {
      hide Observe, Inv, ChainsOk, Latched, OpenedBy, Observed, Applied;
      ObservationMeaning(Tables(), o, now);
      r := InsertObservation(o, now);
    }

    /** Checks a policy against the pools it protects and appends it as the next revision. */
    method InsertPolicy(policy: Policy, expectedRevision: nat) returns (r: Outcome<Receipt>)
      modifies this`policies
      ensures Reports(ActivatePolicy(old(Tables()), policy, expectedRevision), Tables(), r)
      ensures r.Err? ==> Tables() == old(Tables())
    {
      hide ExceedsLimit;
      if !PolicyInput(policy) {
        return Err(InputInvalid);
      }
      var current := PoliciesOf(Tables(), policy.account);
      if |current| != expectedRevision {
        return Err(PolicyStale);
      }
      if policy.leadSlots > policy.maxActive {
        return Err(PolicyInvalid);
      }
      var protected := policy.safetyMargin.Keys + policy.leadReserve.Keys;
      if exists p :: p in protected && p !in pools {
        return Err(PoolUnknown);
      }
      if exists p :: p in protected && pools[p].account != policy.account {
        return Err(PolicyInvalid);
      }
      if exists p :: p in protected && ExceedsLimit(Tables(), policy, p) {
        return Err(ProtectionExceedsPoolLimit);
      }
      policies := policies[policy.account := current + [policy]];
      return Ok(PolicyReceipt(|current| + 1));
    }

    /**
     Appends the next policy revision of an account, against exactly the revision the caller saw.  The lead's slots are
     within the concurrency, and only the account's own pools are protected, within their reported limits.
     */
    method AddPolicy(policy: Policy, expectedRevision: nat) returns (r: Outcome<Receipt>)
      requires Valid()
      modifies this`policies
      ensures Reports(ActivatePolicy(old(Tables()), policy, expectedRevision), Tables(), r)
      ensures Valid() && (r.Err? ==> Tables() == old(Tables()))
      ensures r.Ok? ==>
                && r.value == PolicyReceipt(expectedRevision + 1) && |PoliciesOf(old(Tables()), policy.account)| == expectedRevision
                && (forall account :: PoliciesOf(Tables(), account) ==
                      PoliciesOf(old(Tables()), account) + if account == policy.account then [policy] else [])
                && policy.leadSlots <= policy.maxActive
                && (forall p :: p in policy.safetyMargin || p in policy.leadReserve ==>
                      p in pools && pools[p].account == policy.account && !ExceedsLimit(Tables(), policy, p))
    {
      hide ActivatePolicy, Inv, ChainsOk, ExceedsLimit, PoliciesOf;
      PolicyMeaning(Tables(), policy, expectedRevision);
      r := InsertPolicy(policy, expectedRevision);
    }

    method ChangeProtection(policy: Policy, expectedRevision: nat) returns (r: Outcome<Receipt>)
      modifies this`policies
      ensures Reports(UpdateProtection(old(Tables()), policy, expectedRevision), Tables(), r)
    {
      var current := PoliciesOf(Tables(), policy.account);
      if !PolicyInput(policy) || expectedRevision < 1 {
        return Err(InputInvalid);
      }
      if current == [] || |current| != expectedRevision {
        return Err(PolicyStale);
      }
      if policy != Last(current).(leadReserve := policy.leadReserve, leadSlots := policy.leadSlots) {
        return Err(ProtectionUpdateOnly);
      }
      hide ActivatePolicy;
      r := InsertPolicy(policy, expectedRevision);
    }

    /** Checks a usage receipt against its admission and appends it with the resets of its windows. */
    method InsertUsage(receipt: UsageReceipt) returns (r: Outcome<Receipt>)
      modifies this`usage
      ensures Reports(RecordUsage(old(Tables()), receipt), Tables(), r)
      ensures r.Err? ==> Tables() == old(Tables())
    {
      hide Find, FindUsage, WindowsKnown, ResetFor;
      if receipt.amounts == map[] {
        return Err(InputInvalid);
      }
      var prior := FindUsage(usage, receipt.id);
      if prior.Some? {
        if prior.value.receipt != receipt {
          return Err(UsageIdentityConflict);
        }
        return Ok(UsageRecorded(prior.value));
      }
      var found := Find(reservations, receipt.admission);
      if found.None? {
        return Err(AdmissionUnknown);
      }
      var item := found.value;
      if item.state != Active && item.state != Unresolved && item.state != Ended {
        return Err(ActivationRequired);
      }
      if receipt.amounts.Keys != item.request.demand.Keys || receipt.windows.Keys != item.request.demand.Keys {
        return Err(UsageVectorMismatch);
      }
      if (exists p :: p in receipt.windows && receipt.windows[p].Some?) && receipt.attributionRef.None? {
        return Err(WindowAttributionRequired);
      }
      if !WindowsKnown(Tables(), receipt.windows) {
        return Err(WindowUnknown);
      }
      var row := UsageRow(receipt, item.account, map p | p in receipt.windows :: ResetFor(Tables(), p, receipt.windows[p]));
      usage := usage + [row];
      return Ok(UsageRecorded(row));
    }

    /**
     Appends a usage delta; the same identity with the same content returns the row already stored.  What is committed
     against a pool rises by no more than the usage beyond held demand.
     */
    method AddUsage(receipt: UsageReceipt) returns (r: Outcome<Receipt>)
      requires Valid()
      modifies this`usage
      ensures Reports(RecordUsage(old(Tables()), receipt), Tables(), r)
      ensures Valid() && (r.Err? ==> Tables() == old(Tables()))
      ensures r.Ok? ==>
                && old(usage) <= usage && |usage| <= |old(usage)| + 1
                && r.value.row.receipt == receipt && r.value.row in usage
                && (FindUsage(old(usage), receipt.id).Some? ==> usage == old(usage))
      ensures forall pool: Pool ::
                Committed(Tables(), pool) <= Committed(old(Tables()), pool) + Excess(old(Tables()), RecordUsageCommand(receipt), pool)
    {
      hide RecordUsage, Inv, ChainsOk, Committed, Excess, FindUsage;
      UsageMeaning(Tables(), receipt);
      r := InsertUsage(receipt);
    }

    /** Appends a failure: the account cools down at least as long as asked, and no exhausted pool opens. */
    method AddFailure(account: Id, reason: FailureReason, retryAfter: Time, now: Time) returns (r: Outcome<Receipt>)
      requires Valid()
      modifies this`failures
      ensures Reports(RecordFailure(old(Tables()), account, reason, retryAfter, now), Tables(), r)
      ensures Valid() && (r.Err? ==> Tables() == old(Tables()))
      ensures r.Ok? ==>
                && old(failures) <= failures && now + retryAfter <= r.value.until
                && forall t :: t < now + retryAfter ==> Cooling(FailuresOf(failures, account), t)
      ensures forall pool: Pool :: Latched(old(Tables()), pool) ==> Latched(Tables(), pool)
    {
      ghost var before := Tables();
      FailureMeaning(before, account, reason, retryAfter, now);
      hide Valid, Inv, ChainsOk, Latched, Cooling, FailuresOf;
      var current := PoliciesOf(Tables(), account);
      if current == [] {
        return Err(PolicyRequired);
      }
      var mode := Last(current).conservative;
      var wait := if mode.Some? && mode.value.cooldown.Some? then mode.value.cooldown.value else 0.0;
      if wait < retryAfter {
        wait := retryAfter;
      }
      failures := failures + [FailureRow(account, reason, now, now + wait)];
      return Ok(FailureRecorded(now + wait));
    }

    method Dispatch(command: Command) returns (r: Outcome<Receipt>)
      requires Valid()
      modifies this`pools, this`profiles, this`observations, this`policies, this`reservations, this`usage, this`failures
      ensures Reports(Apply(old(Tables()), command), Tables(), r)
    {
      hide Valid, Reports, RegisterPool, RegisterProfile, Observe, ActivatePolicy, UpdateProtection, Admit, Activate, CancelUnactivated,
           Reconcile, RecordUsage, RecordFailure;
      match command {
        case RegisterPoolCommand(pool) => r := AddPool(pool);
        case RegisterProfileCommand(profile) => r := AddProfile(profile);
        case ObserveCommand(o, now) => r := AddObservation(o, now);
        case ActivatePolicyCommand(policy, revision) => r := AddPolicy(policy, revision);
        case UpdateProtectionCommand(policy, revision) => r := ChangeProtection(policy, revision);
        case AdmitCommand(request, id, clock) => r := AdmitRequest(request, id, clock);
        case ActivateCommand(id, now) => r := ActivateAdmission(id, now);
        case CancelCommand(id, now) => r := CancelAdmission(id, now);
        case ReconcileCommand(id, ending) => r := ReconcileAdmission(id, ending);
        case RecordUsageCommand(receipt) => r := AddUsage(receipt);
        case RecordFailureCommand(account, reason, retryAfter, now) => r := AddFailure(account, reason, retryAfter, now);
      }
    }

    /** The transaction: replay first, then the action; an error restores every table. */
    method Execute(s: Submission) returns (r: Outcome<Receipt>)
      requires Valid()
      modifies this
      ensures Valid()
      ensures (Journal(Tables(), receipts), r) == Submit(Journal(old(Tables()), old(receipts)), s)
    {
      if s.key in receipts {
        if receipts[s.key].0 != PayloadOf(s.command) {
          return Err(IdempotencyConflict);
        }
        return Ok(receipts[s.key].1);
      }
      hide Apply, Inv, ChainsOk;
      var before := Tables();
      StaysValid(before, s.command);
      r := Dispatch(s.command);
      if r.Err? {
        pools, profiles, observations, policies := before.pools, before.profiles, before.observations, before.policies;
        reservations, usage, failures := before.reservations, before.usage, before.failures;
      } else {
        receipts := receipts[s.key := (PayloadOf(s.command), r.value)];
      }
    }
  }

  // ---------------------------------------------------------------- what the callers of the store get

  predicate AllBefore(applied: seq<Observation>, o: Observation) {
    forall i :: 0 <= i < |applied| ==> applied[i].observedAt < o.observedAt
  }

  lemma ObservationMeaning(ledger: Ledger, o: Observation, now: Time)
    requires Inv(ledger) && ChainsOk(ledger)
    ensures var r := Observe(ledger, o, now);
            r.Ok? ==>
              var (after, receipt) := r.value;
              var applied := receipt == ObservationReceipt(true);
              && Inv(after) && ChainsOk(after) && receipt.ObservationReceipt? && ledger.observations <= after.observations
              && (forall p :: Applied(after.observations, p) ==
                    Applied(ledger.observations, p) + if applied && p == o.pool then [o] else [])
              && (applied ==> Observed(after, o.pool) == Some(o) && AllBefore(Applied(ledger.observations, o.pool), o))
    ensures var r := Observe(ledger, o, now);
            forall pool: Pool :: Latched(ledger, pool) ==>
              (Latched(if r.Ok? then r.value.0 else ledger, pool) <==> !OpenedBy(ledger, ObserveCommand(o, now), pool))
  {
    hide Observe, Inv, ChainsOk, Latched, OpenedBy, Next, Applied, Observed, AllBefore;
    var command := ObserveCommand(o, now);
    var r := Observe(ledger, o, now);
    ObserveIsNext(ledger, o, now);
    CapacityStore.StaysValid(ledger, command);
    AppliedObservation(ledger, o, now);
    forall pool: Pool | Latched(ledger, pool) ensures Latched(Next(ledger, command), pool) <==> !OpenedBy(ledger, command, pool) {
      LatchStep(ledger, command, pool);
    }
    if r.Ok? && r.value.1.applied {
      var applied := Applied(r.value.0.observations, o.pool);
      assert applied == Applied(ledger.observations, o.pool) + [o];
      assert applied[..|applied| - 1] == Applied(ledger.observations, o.pool);
      LastIsLatest(r.value.0, o);
    }
  }

  lemma ObserveIsNext(ledger: Ledger, o: Observation, now: Time)
    ensures var r := Observe(ledger, o, now);
            && Next(ledger, ObserveCommand(o, now)) == (if r.Ok? then r.value.0 else ledger)
            && (r.Ok? ==> o.pool in r.value.0.pools && r.value.1.ObservationReceipt? && ledger.observations <= r.value.0.observations)
  {
    hide Applied, CoverageKnown, WindowConsistent, QuantityValid, Distinct, Supersedes;
  }

  /** In a chain the last observation is the latest. */
  lemma LastIsLatest(ledger: Ledger, o: Observation)
    requires ChainsOk(ledger) && o.pool in ledger.pools && Applied(ledger.observations, o.pool) != []
    requires Last(Applied(ledger.observations, o.pool)) == o
    ensures Observed(ledger, o.pool) == Some(o)
    ensures var applied := Applied(ledger.observations, o.pool);
            AllBefore(applied[..|applied| - 1], o)
  {
    hide Applied;
    var applied := Applied(ledger.observations, o.pool);
    assert ChainOk(ledger.pools[o.pool], applied);
  }

  lemma UsageMeaning(ledger: Ledger, receipt: UsageReceipt)
    requires Inv(ledger) && ChainsOk(ledger)
    ensures var r := RecordUsage(ledger, receipt);
            var after := if r.Ok? then r.value.0 else ledger;
            && Inv(after) && ChainsOk(after)
            && (r.Ok? ==>
                  && ledger.usage <= after.usage && |after.usage| <= |ledger.usage| + 1
                  && r.value.1.UsageRecorded? && r.value.1.row.receipt == receipt && r.value.1.row in after.usage
                  && (FindUsage(ledger.usage, receipt.id).Some? ==> after.usage == ledger.usage))
            && (forall pool: Pool :: Committed(after, pool) <= Committed(ledger, pool) + Excess(ledger, RecordUsageCommand(receipt), pool))
  {
    var command := RecordUsageCommand(receipt);
    assert Next(ledger, command) == if RecordUsage(ledger, receipt).Ok? then RecordUsage(ledger, receipt).value.0 else ledger;
    UsageStored(ledger, receipt);
    hide RecordUsage, ChainsOk, Committed, Next, Relief, CountedAmount, NewUsage, UniqueIds, FindUsage;
    CapacityStore.StaysValid(ledger, command);
    UsageStep(ledger, receipt);
    forall pool: Pool ensures Committed(Next(ledger, command), pool) <= Committed(ledger, pool) + Excess(ledger, command, pool) {
      if NewUsage(ledger, receipt).Some? { UsageExact(ledger, receipt, pool); }
    }
  }

  lemma UsageStored(ledger: Ledger, receipt: UsageReceipt)
    ensures var r := RecordUsage(ledger, receipt);
            r.Ok? ==>
              && ledger.usage <= r.value.0.usage && |r.value.0.usage| <= |ledger.usage| + 1
              && r.value.1.UsageRecorded? && r.value.1.row.receipt == receipt && r.value.1.row in r.value.0.usage
              && (FindUsage(ledger.usage, receipt.id).Some? ==> r.value.0.usage == ledger.usage)
  {
    hide Find, FindUsage, WindowsKnown, ResetFor;
    FoundUsage(ledger.usage, receipt.id);
    var r := RecordUsage(ledger, receipt);
    if r.Ok? && FindUsage(ledger.usage, receipt.id).None? {
      assert r.value.0.usage[|ledger.usage|] == r.value.1.row;
    }
  }

  lemma PolicyMeaning(ledger: Ledger, policy: Policy, expectedRevision: nat)
    requires Inv(ledger) && ChainsOk(ledger)
    ensures var r := ActivatePolicy(ledger, policy, expectedRevision);
            var after := if r.Ok? then r.value.0 else ledger;
            && Inv(after) && ChainsOk(after)
            && (r.Ok? ==>
                  && r.value.1 == PolicyReceipt(expectedRevision + 1) && |PoliciesOf(ledger, policy.account)| == expectedRevision
                  && (forall account :: PoliciesOf(after, account) ==
                        PoliciesOf(ledger, account) + if account == policy.account then [policy] else [])
                  && policy.leadSlots <= policy.maxActive
                  && (forall p :: p in policy.safetyMargin || p in policy.leadReserve ==>
                        p in after.pools && after.pools[p].account == policy.account && !ExceedsLimit(after, policy, p)))
  {
    var command := ActivatePolicyCommand(policy, expectedRevision);
    var r := ActivatePolicy(ledger, policy, expectedRevision);
    assert Next(ledger, command) == if r.Ok? then r.value.0 else ledger;
    if r.Ok? { PolicyStored(ledger, policy, expectedRevision); }
    hide ActivatePolicy, Inv, ChainsOk, Next;
    CapacityStore.StaysValid(ledger, command);
  }

  lemma PolicyStored(ledger: Ledger, policy: Policy, expectedRevision: nat)
    requires ActivatePolicy(ledger, policy, expectedRevision).Ok?
    ensures var (after, receipt) := ActivatePolicy(ledger, policy, expectedRevision).value;
            && receipt == PolicyReceipt(expectedRevision + 1) && |PoliciesOf(ledger, policy.account)| == expectedRevision
            && (forall account :: PoliciesOf(after, account) ==
                  PoliciesOf(ledger, account) + if account == policy.account then [policy] else [])
            && policy.leadSlots <= policy.maxActive
            && (forall p :: p in policy.safetyMargin || p in policy.leadReserve ==>
                  p in after.pools && after.pools[p].account == policy.account && !ExceedsLimit(after, policy, p))
  {
    var (after, receipt) := ActivatePolicy(ledger, policy, expectedRevision).value;
    forall p | p in policy.safetyMargin || p in policy.leadReserve
      ensures p in after.pools && after.pools[p].account == policy.account && !ExceedsLimit(after, policy, p)
    {
      assert p in policy.safetyMargin.Keys + policy.leadReserve.Keys;
      assert Observed(after, p) == Observed(ledger, p);
    }
  }

  lemma {:induction false} FoundUsage(usage: seq<UsageRow>, id: Id)
    ensures FindUsage(usage, id).Some? ==> FindUsage(usage, id).value in usage
  {
    if usage != [] { FoundUsage(usage[..|usage| - 1], id); }
  }

  lemma FailureMeaning(ledger: Ledger, account: Id, reason: FailureReason, retryAfter: Time, now: Time)
    requires Inv(ledger) && ChainsOk(ledger)
    ensures var r := RecordFailure(ledger, account, reason, retryAfter, now);
            var after := if r.Ok? then r.value.0 else ledger;
            && Inv(after) && ChainsOk(after)
            && (r.Ok? ==> forall t :: t < now + retryAfter ==> Cooling(FailuresOf(after.failures, account), t))
            && (forall pool: Pool :: Latched(ledger, pool) ==> Latched(after, pool))
  {
    var command := RecordFailureCommand(account, reason, retryAfter, now);
    var r := RecordFailure(ledger, account, reason, retryAfter, now);
    assert Next(ledger, command) == if r.Ok? then r.value.0 else ledger;
    assert r.Ok? ==> r.value.0.failures == ledger.failures + [Last(r.value.0.failures)] &&
                     Last(r.value.0.failures).account == account && now + retryAfter <= Last(r.value.0.failures).until;
    hide RecordFailure, Inv, ChainsOk, Latched, Next;
    CapacityStore.StaysValid(ledger, command);
    forall pool: Pool | Latched(ledger, pool) ensures Latched(Next(ledger, command), pool) { LatchStep(ledger, command, pool); }
    if r.Ok? {
      var row := Last(r.value.0.failures);
      FailuresSnoc(ledger.failures, row, account);
      var all := FailuresOf(r.value.0.failures, account);
      assert all[|all| - 1] == row;
    }
  }
}
