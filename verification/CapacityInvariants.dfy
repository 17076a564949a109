/**
 What every command of the quota ledger keeps, and hence what holds of every reachable ledger.
 */
module CapacityInvariants {
  import opened Common
  import opened CapacityModel
  import opened CapacityFence
  import opened CapacityCommands
  import opened CapacityAdmission

  // ---------------------------------------------------------------- rows of the reservation table

  predicate Terminal(state: State) {
    state == Ended || state == Released || state == Expired
  }

  predicate Follows(before: State, after: State) {
    || before == after
    || (before == Reserved && after in {Active, Expired, Released})
    || (before == Active && after in {Unresolved, Ended, Released})
    || (before == Unresolved && after in {Ended, Released})
  }

  /** A row keeps its identity and request for ever; only its state moves, along the lifecycle. */
  predicate Evolves(before: Reservation, after: Reservation) {
    after == before.(state := after.state) && Follows(before.state, after.state)
  }

  predicate AllEvolve(before: seq<Reservation>, after: seq<Reservation>) {
    |before| == |after| && forall i :: 0 <= i < |before| ==> Evolves(before[i], after[i])
  }

  /** The rows that differ are reservations that lapsed. */
  predicate AllMarked(before: seq<Reservation>, after: seq<Reservation>) {
    && |before| == |after|
    && forall i :: 0 <= i < |before| ==>
         after[i] == before[i] || (before[i].state == Reserved && after[i] == before[i].(state := Expired))
  }

  predicate UniqueIds(items: seq<Reservation>) {
    forall i, j :: 0 <= i < j < |items| ==> items[i].id != items[j].id
  }

  lemma {:induction false} FindIsTheRow(items: seq<Reservation>, id: Id)
    ensures Find(items, id).None? <==> !IdTaken(items, id)
    ensures Find(items, id).Some? ==> exists i :: 0 <= i < |items| && items[i] == Find(items, id).value && items[i].id == id
    ensures UniqueIds(items) && Find(items, id).Some? ==>
              forall i :: 0 <= i < |items| && items[i].id == id ==> items[i] == Find(items, id).value
  {
    if items != [] {
      var init := items[..|items| - 1];
      FindIsTheRow(init, id);
      assert items == init + [Last(items)];
      assert forall i :: 0 <= i < |init| ==> items[i] == init[i];
      if IdTaken(init, id) {
        var i :| 0 <= i < |init| && init[i].id == id;
        assert items[i].id == id;
      }
    }
  }

  lemma ReplaceEvolves(items: seq<Reservation>, item: Reservation, state: State)
    requires UniqueIds(items) && Find(items, item.id) == Some(item) && Follows(item.state, state)
    ensures AllEvolve(items, Replace(items, item.(state := state)))
  {
    FindIsTheRow(items, item.id);
  }

  lemma ExpireEvolves(items: seq<Reservation>, account: Id, now: Time)
    ensures AllMarked(items, Expire(items, account, now))
    ensures AllEvolve(items, Expire(items, account, now))
    ensures UniqueIds(items) ==> UniqueIds(Expire(items, account, now))
  {
  }

  lemma {:induction false} FindExpired(items: seq<Reservation>, account: Id, now: Time, id: Id)
    ensures Find(Expire(items, account, now), id) ==
              var found := Find(items, id);
              if found.None? then None else Some(ExpireItem(found.value, account, now))
  {
    if items != [] {
      var marked := Expire(items, account, now);
      FindExpired(items[..|items| - 1], account, now, id);
      assert marked[..|marked| - 1] == Expire(items[..|items| - 1], account, now);
    }
  }

  lemma MarkThenEvolve(a: seq<Reservation>, b: seq<Reservation>, c: seq<Reservation>)
    requires AllMarked(a, b)
    ensures AllEvolve(b, c) ==> AllEvolve(a, c)
    ensures AllMarked(b, c) ==> AllMarked(a, c)
    ensures AllEvolve(a, b)
  {
    if AllEvolve(b, c) {
      forall i | 0 <= i < |a| ensures Evolves(a[i], c[i]) {
        assert Evolves(b[i], c[i]);
      }
    }
  }

  /** Marking the lapsed rows of an account and then moving one row along the lifecycle. */
  lemma ExpireThenReplace(items: seq<Reservation>, id: Id, now: Time, state: State)
    requires UniqueIds(items) && Find(items, id).Some?
    requires Follows(ExpireItem(Find(items, id).value, Find(items, id).value.account, now).state, state)
    ensures var found := Find(items, id).value;
            var item := ExpireItem(found, found.account, now);
            AllEvolve(items, Replace(Expire(items, found.account, now), item.(state := state)))
  {
    var found := Find(items, id).value;
    var marked := Expire(items, found.account, now);
    FindIsTheRow(items, id);
    FindExpired(items, found.account, now, id);
    ExpireEvolves(items, found.account, now);
    ReplaceEvolves(marked, ExpireItem(found, found.account, now), state);
    MarkThenEvolve(items, marked, Replace(marked, ExpireItem(found, found.account, now).(state := state)));
  }

  // ---------------------------------------------------------------- every command moves rows only along the lifecycle

  /** The row an admitted command appends. */
  ghost function NewRow(ledger: Ledger, command: Command): Option<Reservation> {
    if command.AdmitCommand? && Admitted(Apply(ledger, command)) then
      var request := command.request;
      var (profile, policy, revision) := Basis(ledger, request).value;
      Some(Reservation(command.id, request, Reserved, profile.account, command.clock.created,
                       command.clock.created + request.duration, revision))
    else None
  }

  function Optional<T>(o: Option<T>): seq<T> {
    if o.Some? then [o.value] else []
  }

  lemma AdmitRows(ledger: Ledger, request: Request, id: Id, clock: AdmitClock)
    requires UniqueIds(ledger.reservations)
    ensures var command := AdmitCommand(request, id, clock);
            var after := Next(ledger, command);
            && after == ledger.(reservations := after.reservations)
            && |after.reservations| == |ledger.reservations| + |Optional(NewRow(ledger, command))|
            && AllEvolve(ledger.reservations, after.reservations[..|ledger.reservations|])
            && after.reservations == after.reservations[..|ledger.reservations|] + Optional(NewRow(ledger, command))
    ensures Admitted(Admit(ledger, request, id, clock)) ==>
              Next(ledger, AdmitCommand(request, id, clock)).reservations[..|ledger.reservations|] ==
                Expire(ledger.reservations, Basis(ledger, request).value.0.account, LastEvaluation(clock))
  {
    hide Assess, Ideal, AdmissibleAt, FinalReasons, IdTaken, AttemptReserved, Expire;
    AdmittedExactly(ledger, request, id, clock);
    var step := Admit(ledger, request, id, clock);
    if Admitted(step) {
      var account := Basis(ledger, request).value.0.account;
      ExpireEvolves(ledger.reservations, account, LastEvaluation(clock));
      var after := step.value.0.reservations;
      assert after[..|ledger.reservations|] == Expire(ledger.reservations, account, LastEvaluation(clock));
    } else if step.Ok? {
      RefusedMarksOnly(ledger, request, id, clock);
      var after := step.value.0.reservations;
      assert after[..|ledger.reservations|] == after;
      assert Optional(NewRow(ledger, AdmitCommand(request, id, clock))) == [];
    } else {
      var all := ledger.reservations;
      assert all[..|all|] == all;
      ReflexiveEvolution(all);
    }
  }

  lemma ReflexiveEvolution(items: seq<Reservation>)
    ensures AllEvolve(items, items)
  {
  }

  lemma AssessMarks(ledger: Ledger, request: Request, now: Time)
    ensures var r := Assess(ledger, request, now);
            r.Ok? ==>
              && r.value.ledger == ledger.(reservations := r.value.ledger.reservations)
              && AllMarked(ledger.reservations, r.value.ledger.reservations)
  {
    hide Evaluate;
    var r := Assess(ledger, request, now);
    if r.Ok? {
      ExpireEvolves(ledger.reservations, r.value.profile.account, now);
    }
  }

  lemma AssessAllMarks(ledger: Ledger, request: Request, clock: AdmitClock)
    ensures var r := AssessAll(ledger, request, clock);
            r.Ok? ==>
              && r.value.ledger == ledger.(reservations := r.value.ledger.reservations)
              && AllMarked(ledger.reservations, r.value.ledger.reservations)
  {
    hide Assess, AllMarked;
    AssessMarks(ledger, request, clock.first);
    var first := Assess(ledger, request, clock.first);
    if first.Ok? && clock.afterReserve.Some? {
      AssessMarks(first.value.ledger, request, clock.afterReserve.value);
      var second := Assess(first.value.ledger, request, clock.afterReserve.value);
      if second.Ok? {
        MarkThenEvolve(ledger.reservations, first.value.ledger.reservations, second.value.ledger.reservations);
      }
    }
    var reserve := AssessReserve(ledger, request, clock);
    if reserve.Ok? && clock.afterFacts.Some? {
      AssessMarks(reserve.value.ledger, request, clock.afterFacts.value.1);
      var third := Assess(reserve.value.ledger, request, clock.afterFacts.value.1);
      if third.Ok? {
        MarkThenEvolve(ledger.reservations, reserve.value.ledger.reservations, third.value.ledger.reservations);
      }
    }
  }

  lemma RefusedMarksOnly(ledger: Ledger, request: Request, id: Id, clock: AdmitClock)
    requires Admit(ledger, request, id, clock).Ok? && !Admitted(Admit(ledger, request, id, clock))
    ensures var after := Admit(ledger, request, id, clock).value.0;
            && after == ledger.(reservations := after.reservations)
            && AllEvolve(ledger.reservations, after.reservations)
  {
    hide AssessAll, FinalReasons, AllEvolve, AllMarked;
    AssessAllMarks(ledger, request, clock);
    var after := Admit(ledger, request, id, clock).value.0;
    MarkThenEvolve(ledger.reservations, after.reservations, after.reservations);
  }

  lemma ActivateRows(ledger: Ledger, id: Id, now: Time)
    requires UniqueIds(ledger.reservations)
    ensures AllEvolve(ledger.reservations, Next(ledger, ActivateCommand(id, now)).reservations)
  {
    hide Evaluate, AllEvolve, AllMarked, Expire, Replace, Find, UniqueIds, Basis;
    ReflexiveEvolution(ledger.reservations);
    var found := Find(ledger.reservations, id);
    if found.Some? {
      var account := found.value.account;
      FindHasId(ledger.reservations, id);
      ExpireEvolves(ledger.reservations, account, now);
      if ExpireItem(found.value, account, now).state == Reserved {
        ExpireThenReplace(ledger.reservations, id, now, Active);
      }
    }
  }

  lemma CancelRows(ledger: Ledger, id: Id, now: Time)
    requires UniqueIds(ledger.reservations)
    ensures AllEvolve(ledger.reservations, Next(ledger, CancelCommand(id, now)).reservations)
  {
    hide AllEvolve, AllMarked, Expire, Replace, Find, UniqueIds;
    ReflexiveEvolution(ledger.reservations);
    var found := Find(ledger.reservations, id);
    if found.Some? {
      var account := found.value.account;
      FindHasId(ledger.reservations, id);
      ExpireEvolves(ledger.reservations, account, now);
      if ExpireItem(found.value, account, now).state == Reserved {
        ExpireThenReplace(ledger.reservations, id, now, Released);
      }
    }
  }

  lemma ReconcileRows(ledger: Ledger, id: Id, ending: Ending)
    requires UniqueIds(ledger.reservations)
    ensures AllEvolve(ledger.reservations, Next(ledger, ReconcileCommand(id, ending)).reservations)
  {
    hide AllEvolve, AllMarked, Replace, Find, UniqueIds, HasUsage;
    ReflexiveEvolution(ledger.reservations);
    var found := Find(ledger.reservations, id);
    if found.Some? {
      var item := found.value;
      FindHasId(ledger.reservations, id);
      if Follows(item.state, Released) { ReplaceEvolves(ledger.reservations, item, Released); }
      if Follows(item.state, Ended) { ReplaceEvolves(ledger.reservations, item, Ended); }
      if Follows(item.state, Unresolved) { ReplaceEvolves(ledger.reservations, item, Unresolved); }
    }
  }

  lemma FindHasId(items: seq<Reservation>, id: Id)
    ensures Find(items, id).Some? ==> Find(items, id).value.id == id
  {
  }

  lemma OtherReservations(ledger: Ledger, command: Command)
    requires !command.AdmitCommand? && !command.ActivateCommand? && !command.CancelCommand? && !command.ReconcileCommand?
    ensures Next(ledger, command).reservations == ledger.reservations
  {
    hide ExceedsLimit, Find, FindUsage, WindowsKnown, ResetFor;
  }

  /**
   Whatever the command, existing admissions keep their identity and demand and move only along the lifecycle,
   and the only row that can appear is the one of an admitted request.
   */
  lemma RowsEvolve(ledger: Ledger, command: Command)
    requires UniqueIds(ledger.reservations)
    ensures var before, after := ledger.reservations, Next(ledger, command).reservations;
            && |before| <= |after|
            && AllEvolve(before, after[..|before|])
            && after == after[..|before|] + Optional(NewRow(ledger, command))
  {
    hide Next, AllEvolve, UniqueIds, Basis;
    var before, after := ledger.reservations, Next(ledger, command).reservations;
    if command.AdmitCommand? {
      AdmitRows(ledger, command.request, command.id, command.clock);
    } else {
      assert NewRow(ledger, command).None?;
      match command {
        case ActivateCommand(id, now) => ActivateRows(ledger, id, now);
        case CancelCommand(id, now) => CancelRows(ledger, id, now);
        case ReconcileCommand(id, ending) => ReconcileRows(ledger, id, ending);
        case _ =>
          OtherReservations(ledger, command);
          ReflexiveEvolution(before);
      }
      EvolvedLength(before, after);
      assert after[..|before|] == after;
    }
  }

  lemma EvolvedLength(before: seq<Reservation>, after: seq<Reservation>)
    requires AllEvolve(before, after)
    ensures |before| == |after|
  {
  }

  // ---------------------------------------------------------------- terminal states

  /** A released, ended or expired admission stays as it is through every further command. */
  lemma {:induction false} TerminalForever(ledger: Ledger, commands: seq<Command>, i: nat)
    requires UniqueIds(ledger.reservations) && i < |ledger.reservations|
    ensures UniqueIds(Run(ledger, commands).reservations)
    ensures |ledger.reservations| <= |Run(ledger, commands).reservations|
    ensures Run(ledger, commands).reservations[i] == ledger.reservations[i].(state := Run(ledger, commands).reservations[i].state)
    ensures Terminal(ledger.reservations[i].state) ==> Run(ledger, commands).reservations[i] == ledger.reservations[i]
  {
    hide Next;
    if commands != [] {
      var init := commands[..|commands| - 1];
      TerminalForever(ledger, init, i);
      var mid := Run(ledger, init);
      RowsEvolve(mid, Last(commands));
      UniqueIdsKept(mid, Last(commands));
      var after := Next(mid, Last(commands)).reservations;
      assert Evolves(mid.reservations[i], after[..|mid.reservations|][i]);
    }
  }

  lemma NewIdIsFresh(ledger: Ledger, command: Command)
    requires NewRow(ledger, command).Some?
    ensures !IdTaken(ledger.reservations, NewRow(ledger, command).value.id)
    ensures !AttemptReserved(ledger.reservations, NewRow(ledger, command).value.request.attempt)
  {
    hide Admit, AdmissibleAt, Basis, IdTaken, AttemptReserved;
    AdmittedExactly(ledger, command.request, command.id, command.clock);
  }

  lemma UniqueIdsKept(ledger: Ledger, command: Command)
    requires UniqueIds(ledger.reservations)
    ensures UniqueIds(Next(ledger, command).reservations)
  {
    hide Next, NewRow;
    RowsEvolve(ledger, command);
    var before, after := ledger.reservations, Next(ledger, command).reservations;
    assert forall i :: 0 <= i < |before| ==> Evolves(before[i], after[..|before|][i]) && after[i] == after[..|before|][i];
    if NewRow(ledger, command).Some? {
      NewIdIsFresh(ledger, command);
    }
  }

  // ---------------------------------------------------------------- registered pools, profiles and requests

  predicate PoolsOk(ledger: Ledger) {
    forall p :: p in ledger.pools ==> ledger.pools[p].id == p
  }

  /** A profile's pools are distinct, registered, and all of the profile's account. */
  predicate ProfileSound(pools: map<Id, Pool>, profile: Profile) {
    && profile.pools != [] && Distinct(profile.pools)
    && forall p :: p in profile.pools ==> p in pools && pools[p].account == profile.account
  }

  predicate ProfilesOk(ledger: Ledger) {
    forall k :: k in ledger.profiles ==> ProfileSound(ledger.pools, ledger.profiles[k])
  }

  /** An admission's request is valid and its demand vector is exactly its profile's pools, in its own account. */
  predicate ItemOk(profiles: map<(Id, nat), Profile>, item: Reservation) {
    var key := (item.request.profileId, item.request.profileRevision);
    && RequestInput(item.request)
    && key in profiles
    && profiles[key].account == item.account
    && item.request.demand.Keys == Elements(profiles[key].pools)
  }

  predicate ItemsOk(ledger: Ledger) {
    forall i :: 0 <= i < |ledger.reservations| ==> ItemOk(ledger.profiles, ledger.reservations[i])
  }

  /** Recorded usage belongs to a known admission, in its account and over exactly its demand vector. */
  predicate UsageRowOk(items: seq<Reservation>, row: UsageRow) {
    var found := Find(items, row.receipt.admission);
    && found.Some? && found.value.account == row.account
    && row.receipt.amounts.Keys == found.value.request.demand.Keys
  }

  predicate UsageOk(ledger: Ledger) {
    forall i :: 0 <= i < |ledger.usage| ==> UsageRowOk(ledger.reservations, ledger.usage[i])
  }

  // ---------------------------------------------------------------- concurrency

  /** The stored admissions of an account that are not terminal, whatever the clock says. */
  function Holders(items: seq<Reservation>, account: Id): seq<Reservation> {
    if items == [] then []
    else
      var rest := Holders(items[..|items| - 1], account);
      if Last(items).account == account && Holding(Last(items).state) then rest + [Last(items)] else rest
  }

  function MaxActive(policies: seq<Policy>): nat {
    if policies == [] then 0
    else
      var rest := MaxActive(policies[..|policies| - 1]);
      if Last(policies).maxActive >= rest then Last(policies).maxActive else rest
  }

  ghost predicate CountsOk(ledger: Ledger) {
    forall account :: |Holders(ledger.reservations, account)| <= MaxActive(PoliciesOf(ledger, account))
  }

  ghost predicate Inv(ledger: Ledger) {
    && PoolsOk(ledger) && ProfilesOk(ledger)
    && UniqueIds(ledger.reservations) && ItemsOk(ledger) && UsageOk(ledger)
    && CountsOk(ledger)
  }

  // ---------------------------------------------------------------- holders

  lemma {:induction false} HoldersOfExpired(items: seq<Reservation>, account: Id, now: Time, other: Id)
    ensures Holders(Expire(items, account, now), other) ==
              if other == account then Held(items, account, now) else Holders(items, other)
  {
    if items != [] {
      var marked := Expire(items, account, now);
      HoldersOfExpired(items[..|items| - 1], account, now, other);
      assert marked[..|marked| - 1] == Expire(items[..|items| - 1], account, now);
    }
  }

  lemma HoldersSnoc(items: seq<Reservation>, item: Reservation, account: Id)
    ensures Holders(items + [item], account) ==
              Holders(items, account) + if item.account == account && Holding(item.state) then [item] else []
  {
    assert (items + [item])[..|items + [item]| - 1] == items;
  }

  /** Rows that only move along the lifecycle never hold more, neither slots nor future demand. */
  lemma {:induction false} EvolvedIsLighter(before: seq<Reservation>, after: seq<Reservation>, account: Id, usage: seq<UsageRow>, pool: Pool)
    requires AllEvolve(before, after)
    ensures |Holders(after, account)| <= |Holders(before, account)|
    ensures Future(Holders(after, account), usage, pool) <= Future(Holders(before, account), usage, pool)
  {
    if before != [] {
      var b, a := before[..|before| - 1], after[..|after| - 1];
      assert forall i :: 0 <= i < |b| ==> b[i] == before[i] && a[i] == after[i];
      EvolvedIsLighter(b, a, account, usage, pool);
      assert Evolves(Last(before), Last(after));
      FutureSnoc(Holders(b, account), Last(before), usage, pool);
      FutureSnoc(Holders(a, account), Last(after), usage, pool);
    }
  }

  // ---------------------------------------------------------------- find after a step

  lemma {:induction false} FindEvolves(before: seq<Reservation>, after: seq<Reservation>, id: Id)
    requires AllEvolve(before, after)
    ensures Find(before, id).None? <==> Find(after, id).None?
    ensures Find(before, id).Some? ==> Evolves(Find(before, id).value, Find(after, id).value)
  {
    if before != [] {
      var b, a := before[..|before| - 1], after[..|after| - 1];
      assert forall i :: 0 <= i < |b| ==> b[i] == before[i] && a[i] == after[i];
      FindEvolves(b, a, id);
      assert Evolves(Last(before), Last(after));
    }
  }

  lemma FindSnoc(items: seq<Reservation>, item: Reservation, id: Id)
    ensures Find(items + [item], id) == if item.id == id then Some(item) else Find(items, id)
  {
    assert (items + [item])[..|items + [item]| - 1] == items;
  }

  lemma UsageRowOkKept(ledger: Ledger, command: Command, row: UsageRow)
    requires UniqueIds(ledger.reservations) && UsageRowOk(ledger.reservations, row)
    ensures UsageRowOk(Next(ledger, command).reservations, row)
  {
    hide Next, NewRow;
    RowsEvolve(ledger, command);
    var before, after := ledger.reservations, Next(ledger, command).reservations;
    FindEvolves(before, after[..|before|], row.receipt.admission);
    if NewRow(ledger, command).Some? {
      NewIdIsFresh(ledger, command);
      FindIsTheRow(before, row.receipt.admission);
      FindSnoc(after[..|before|], NewRow(ledger, command).value, row.receipt.admission);
    } else {
      assert after == after[..|before|];
    }
  }

  // ---------------------------------------------------------------- each part is kept

  lemma OtherTables(ledger: Ledger, command: Command)
    ensures !command.RegisterPoolCommand? ==> Next(ledger, command).pools == ledger.pools
    ensures !command.RegisterProfileCommand? ==> Next(ledger, command).profiles == ledger.profiles
    ensures !command.ObserveCommand? ==> Next(ledger, command).observations == ledger.observations
    ensures !command.ActivatePolicyCommand? && !command.UpdateProtectionCommand? ==>
              Next(ledger, command).policies == ledger.policies
    ensures !command.RecordUsageCommand? ==> Next(ledger, command).usage == ledger.usage
    ensures !command.RecordFailureCommand? ==> Next(ledger, command).failures == ledger.failures
  {
    hide RegisterPool, RegisterProfile, Observe, ActivatePolicy, UpdateProtection, Admit, Activate, CancelUnactivated, Reconcile,
         RecordUsage, RecordFailure;
    match command {
      case RegisterPoolCommand(pool) => TouchesPools(ledger, pool);
      case RegisterProfileCommand(profile) => TouchesProfiles(ledger, profile);
      case ObserveCommand(o, now) => TouchesObservations(ledger, o, now);
      case ActivatePolicyCommand(policy, revision) => TouchesPolicies(ledger, policy, revision);
      case UpdateProtectionCommand(policy, revision) => TouchesPolicies(ledger, policy, revision);
      case AdmitCommand(request, id, clock) => AdmitTables(ledger, request, id, clock);
      case ActivateCommand(id, now) => TouchesReservations(ledger, id, now, Ending(false, false, false, false));
      case CancelCommand(id, now) => TouchesReservations(ledger, id, now, Ending(false, false, false, false));
      case ReconcileCommand(id, ending) => TouchesReservations(ledger, id, 0.0, ending);
      case RecordUsageCommand(receipt) => TouchesUsage(ledger, receipt);
      case RecordFailureCommand(account, reason, retryAfter, now) => TouchesFailures(ledger, account, reason, retryAfter, now);
    }
  }

  lemma TouchesPools(ledger: Ledger, pool: Pool)
    ensures var step := RegisterPool(ledger, pool);
            step.Ok? ==> step.value.0 == ledger.(pools := step.value.0.pools)
  {
  }

  lemma TouchesProfiles(ledger: Ledger, profile: Profile)
    ensures var step := RegisterProfile(ledger, profile);
            step.Ok? ==> step.value.0 == ledger.(profiles := step.value.0.profiles)
  {
  }

  lemma TouchesObservations(ledger: Ledger, o: Observation, now: Time)
    ensures var step := Observe(ledger, o, now);
            step.Ok? ==> step.value.0 == ledger.(observations := step.value.0.observations)
  {
  }

  lemma TouchesPolicies(ledger: Ledger, policy: Policy, revision: nat)
    ensures var step := ActivatePolicy(ledger, policy, revision);
            step.Ok? ==> step.value.0 == ledger.(policies := ledger.policies[policy.account := PoliciesOf(ledger, policy.account) + [policy]])
    ensures UpdateProtection(ledger, policy, revision).Ok? ==>
              UpdateProtection(ledger, policy, revision) == ActivatePolicy(ledger, policy, revision)
  {
    hide ExceedsLimit;
  }

  lemma TouchesReservations(ledger: Ledger, id: Id, now: Time, ending: Ending)
    ensures var step := Activate(ledger, id, now);
            step.Ok? ==> step.value.0 == ledger.(reservations := step.value.0.reservations)
    ensures var step := CancelUnactivated(ledger, id, now);
            step.Ok? ==> step.value.0 == ledger.(reservations := step.value.0.reservations)
    ensures var step := Reconcile(ledger, id, ending);
            step.Ok? ==> step.value.0 == ledger.(reservations := step.value.0.reservations)
  {
    hide Evaluate, Basis, Expire, Replace, Find, Held;
  }

  lemma TouchesUsage(ledger: Ledger, receipt: UsageReceipt)
    ensures var step := RecordUsage(ledger, receipt);
            step.Ok? ==> step.value.0 == ledger.(usage := step.value.0.usage)
  {
    hide Find, FindUsage, WindowsKnown, ResetFor;
  }

  lemma TouchesFailures(ledger: Ledger, account: Id, reason: FailureReason, retryAfter: Time, now: Time)
    ensures var step := RecordFailure(ledger, account, reason, retryAfter, now);
            step.Ok? ==> step.value.0 == ledger.(failures := step.value.0.failures)
  {
  }

  lemma AdmitTables(ledger: Ledger, request: Request, id: Id, clock: AdmitClock)
    ensures var step := Admit(ledger, request, id, clock);
            step.Ok? ==> step.value.0 == ledger.(reservations := step.value.0.reservations)
  {
    hide AssessAll, FinalReasons, AllMarked;
    AssessAllMarks(ledger, request, clock);
  }

  lemma TablesGrow(ledger: Ledger, command: Command)
    requires PoolsOk(ledger) && ProfilesOk(ledger)
    ensures PoolsOk(Next(ledger, command)) && ProfilesOk(Next(ledger, command))
    ensures forall p :: p in ledger.pools ==> p in Next(ledger, command).pools && Next(ledger, command).pools[p] == ledger.pools[p]
    ensures forall k :: k in ledger.profiles ==>
              k in Next(ledger, command).profiles && Next(ledger, command).profiles[k] == ledger.profiles[k]
  {
    hide Admit, Activate, CancelUnactivated, Reconcile, RecordUsage, RecordFailure, Observe, ActivatePolicy, UpdateProtection;
    OtherTables(ledger, command);
  }

  lemma NewItemOk(ledger: Ledger, command: Command)
    requires NewRow(ledger, command).Some?
    ensures ItemOk(ledger.profiles, NewRow(ledger, command).value)
  {
    hide Admit, EvaluatePools, AccountReasons, Held;
    AdmittedExactly(ledger, command.request, command.id, command.clock);
  }

  lemma ItemsOkKept(ledger: Ledger, command: Command)
    requires PoolsOk(ledger) && ProfilesOk(ledger) && UniqueIds(ledger.reservations) && ItemsOk(ledger)
    ensures ItemsOk(Next(ledger, command))
  {
    hide Next, NewRow, RequestInput;
    TablesGrow(ledger, command);
    RowsEvolve(ledger, command);
    var before, after := ledger.reservations, Next(ledger, command).reservations;
    if NewRow(ledger, command).Some? {
      NewItemOk(ledger, command);
    }
    forall i | 0 <= i < |after|
      ensures ItemOk(Next(ledger, command).profiles, after[i])
    {
      if i < |before| {
        assert Evolves(before[i], after[..|before|][i]);
      }
    }
  }

  lemma UsageOkKept(ledger: Ledger, command: Command)
    requires UniqueIds(ledger.reservations) && UsageOk(ledger)
    ensures UsageOk(Next(ledger, command))
  {
    hide UsageRowOk, Admit, Activate, CancelUnactivated, Reconcile, RegisterProfile, RegisterPool, Observe, ActivatePolicy, UpdateProtection;
    OtherTables(ledger, command);
    var after := Next(ledger, command);
    forall i | 0 <= i < |after.usage|
      ensures UsageRowOk(after.reservations, after.usage[i])
    {
      if i < |ledger.usage| {
        assert after.usage[i] == ledger.usage[i];
        UsageRowOkKept(ledger, command, ledger.usage[i]);
      } else {
        NewUsageOk(ledger, command.receipt);
      }
    }
  }

  lemma NewUsageOk(ledger: Ledger, receipt: UsageReceipt)
    ensures var after := Next(ledger, RecordUsageCommand(receipt));
            && after == ledger.(usage := after.usage)
            && (after.usage == ledger.usage ||
                (|after.usage| == |ledger.usage| + 1 && after.usage[..|ledger.usage|] == ledger.usage &&
                 UsageRowOk(ledger.reservations, Last(after.usage))))
  {
  }

  lemma MaxActiveSnoc(policies: seq<Policy>, policy: Policy)
    ensures MaxActive(policies + [policy]) >= MaxActive(policies)
    ensures MaxActive(policies + [policy]) >= policy.maxActive
  {
    assert (policies + [policy])[..|policies + [policy]| - 1] == policies;
  }

  lemma LastIsBounded(policies: seq<Policy>)
    requires policies != []
    ensures Last(policies).maxActive <= MaxActive(policies)
  {
  }

  /**
   A request is admitted only into a free slot: afterwards the account's stored holders are at most the slots
   of the policy it was judged by, and a request that is not the lead's leaves the lead's slots free.
   */
  lemma AdmissionLeavesSlots(ledger: Ledger, command: Command)
    requires Inv(ledger) && NewRow(ledger, command).Some?
    ensures var account := NewRow(ledger, command).value.account;
            && PoliciesOf(ledger, account) != []
            && var policy := Last(PoliciesOf(ledger, account));
               |Holders(Next(ledger, command).reservations, account)| <= Slots(policy.maxActive, policy, IsLead(command.request))
  {
    var request, clock := command.request, command.clock;
    AdmittedExactly(ledger, request, command.id, clock);
    AdmissibleBetween(ledger, request, clock.first, LastEvaluation(clock), clock.written);
    var (profile, policy, revision) := Basis(ledger, request).value;
    SlotIsFree(ledger, request, LastEvaluation(clock));
    AdmitRows(ledger, request, command.id, clock);
    hide Admit, AdmissibleAt, Expire, Held, IdTaken, AttemptReserved, Inv;
    HoldersOfExpired(ledger.reservations, profile.account, LastEvaluation(clock), profile.account);
    HoldersSnoc(Expire(ledger.reservations, profile.account, LastEvaluation(clock)), NewRow(ledger, command).value, profile.account);
  }

  lemma SlotIsFree(ledger: Ledger, request: Request, now: Time)
    requires AdmissibleAt(ledger, request, now)
    ensures var (profile, policy, revision) := Basis(ledger, request).value;
            |Held(ledger.reservations, profile.account, now)| < Slots(policy.maxActive, policy, IsLead(request))
  {
    hide EvaluatePools;
  }

  lemma CountsOkKept(ledger: Ledger, command: Command)
    requires Inv(ledger)
    ensures CountsOk(Next(ledger, command))
  {
    hide Next, NewRow, Inv, MaxActive, Holders, PoliciesOf;
    forall account
      ensures |Holders(Next(ledger, command).reservations, account)| <= MaxActive(PoliciesOf(Next(ledger, command), account))
    {
      CountKept(ledger, command, account);
    }
  }

  lemma CountKept(ledger: Ledger, command: Command, account: Id)
    requires Inv(ledger)
    ensures |Holders(Next(ledger, command).reservations, account)| <= MaxActive(PoliciesOf(Next(ledger, command), account))
  {
    hide Next, NewRow, Inv, MaxActive, Holders, PoliciesOf, UniqueIds;
    assert UniqueIds(ledger.reservations) && CountsOk(ledger) by { InvParts(ledger); }
    RowsEvolve(ledger, command);
    var before, after := ledger.reservations, Next(ledger, command).reservations;
    PoliciesGrow(ledger, command, account);
    EvolvedIsLighter(before, after[..|before|], account, [], Pool("", "", Service, Fixed));
    if NewRow(ledger, command).Some? {
      var row := NewRow(ledger, command).value;
      HoldersSnoc(after[..|before|], row, account);
      if row.account == account {
        AdmissionLeavesSlots(ledger, command);
        LastIsBounded(PoliciesOf(ledger, account));
      }
    } else {
      assert after == after[..|before|];
    }
  }

  lemma InvParts(ledger: Ledger)
    requires Inv(ledger)
    ensures PoolsOk(ledger) && ProfilesOk(ledger) && UniqueIds(ledger.reservations) && ItemsOk(ledger) && UsageOk(ledger) && CountsOk(ledger)
  {
  }

  lemma PoliciesGrow(ledger: Ledger, command: Command, account: Id)
    ensures MaxActive(PoliciesOf(ledger, account)) <= MaxActive(PoliciesOf(Next(ledger, command), account))
    ensures PoliciesOf(ledger, account) <= PoliciesOf(Next(ledger, command), account)
  {
    hide RegisterPool, RegisterProfile, Observe, ActivatePolicy, UpdateProtection, Admit, Activate, CancelUnactivated, Reconcile,
         RecordUsage, RecordFailure, MaxActive;
    OtherTables(ledger, command);
    if command.ActivatePolicyCommand? || command.UpdateProtectionCommand? {
      TouchesPolicies(ledger, command.policy, command.expectedRevision);
      MaxActiveSnoc(PoliciesOf(ledger, account), command.policy);
    }
  }

  /** Every command keeps the invariant. */
  lemma InvKept(ledger: Ledger, command: Command)
    requires Inv(ledger)
    ensures Inv(Next(ledger, command))
  {
    hide Next, PoolsOk, ProfilesOk, UniqueIds, ItemsOk, UsageOk, CountsOk;
    TablesGrow(ledger, command);
    UniqueIdsKept(ledger, command);
    ItemsOkKept(ledger, command);
    UsageOkKept(ledger, command);
    CountsOkKept(ledger, command);
  }

  lemma EmptyInv()
    ensures Inv(EmptyLedger)
  {
  }

  /**
   In every reachable ledger the invariant holds; in particular an account's reserved, active and unresolved
   admissions never exceed the largest concurrency any of its policy revisions allowed.
   */
  lemma {:induction false} ReachableInv(commands: seq<Command>)
    ensures Inv(Run(EmptyLedger, commands))
    ensures forall account :: |Holders(Run(EmptyLedger, commands).reservations, account)| <=
              MaxActive(PoliciesOf(Run(EmptyLedger, commands), account))
  {
    if commands == [] {
      EmptyInv();
    } else {
      hide Next;
      ReachableInv(commands[..|commands| - 1]);
      InvKept(Run(EmptyLedger, commands[..|commands| - 1]), Last(commands));
    }
  }
}
