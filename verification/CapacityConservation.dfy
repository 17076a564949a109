/**
 Conservation: what is committed against a pool's reported remaining, command by command and over whole runs.
 */
module CapacityConservation {
  import opened Common
  import opened CapacityModel
  import opened CapacityFence
  import opened CapacityCommands
  import opened CapacityAdmission
  import opened CapacityInvariants

  /** Usage the observation does not cover, plus the demand that stored holders have not consumed yet. */
  function Committed(ledger: Ledger, pool: Pool): nat {
    Uncovered(ledger.usage, pool, Observed(ledger, pool.id)) +
    Future(Holders(ledger.reservations, pool.account), ledger.usage, pool)
  }

  function Min(a: nat, b: nat): nat {
    if a <= b then a else b
  }

  function Max(a: int, b: int): int {
    if a >= b then a else b
  }

  // ---------------------------------------------------------------- usage

  /** How much a usage row shrinks the future demand of the admission it belongs to. */
  function Relief(items: seq<Reservation>, usage: seq<UsageRow>, row: UsageRow, pool: Pool): nat {
    var found := Find(items, row.receipt.admission);
    if found.Some? && found.value.account == pool.account && Holding(found.value.state) then
      Min(Consumes(row, pool.account, row.receipt.admission, pool.id), Unconsumed(found.value, usage, pool))
    else 0
  }

  lemma ConsumedSnoc(usage: seq<UsageRow>, row: UsageRow, account: Id, admission: Id, pool: Id)
    ensures Consumed(usage + [row], account, admission, pool) ==
              Consumed(usage, account, admission, pool) + Consumes(row, account, admission, pool)
  {
    assert (usage + [row])[..|usage + [row]| - 1] == usage;
  }

  lemma UncoveredSnoc(usage: seq<UsageRow>, row: UsageRow, pool: Pool, observed: Option<Observation>)
    ensures Uncovered(usage + [row], pool, observed) == Uncovered(usage, pool, observed) + CountedAmount(row, pool, observed)
  {
    assert (usage + [row])[..|usage + [row]| - 1] == usage;
  }

  lemma ItemAfterUsage(item: Reservation, usage: seq<UsageRow>, row: UsageRow, pool: Pool)
    ensures item.id != row.receipt.admission ==> Unconsumed(item, usage + [row], pool) == Unconsumed(item, usage, pool)
    ensures item.id == row.receipt.admission ==>
              Unconsumed(item, usage + [row], pool) +
                Min(Consumes(row, pool.account, item.id, pool.id), Unconsumed(item, usage, pool)) ==
              Unconsumed(item, usage, pool)
  {
    ConsumedSnoc(usage, row, pool.account, item.id, pool.id);
  }

  lemma {:induction false} FutureAfterUsage(items: seq<Reservation>, usage: seq<UsageRow>, row: UsageRow, pool: Pool)
    requires UniqueIds(items)
    ensures Future(Holders(items, pool.account), usage + [row], pool) + Relief(items, usage, row, pool) ==
            Future(Holders(items, pool.account), usage, pool)
  {
    hide Unconsumed, Consumes, UniqueIds, Future, Find;
    if items == [] {
      NothingInFuture(usage, row, pool);
    } else {
      var init, item := items[..|items| - 1], Last(items);
      assert UniqueIds(init) by { UniqueInit(items); }
      FutureAfterUsage(init, usage, row, pool);
      ItemAfterUsage(item, usage, row, pool);
      FutureSnoc(Holders(init, pool.account), item, usage, pool);
      FutureSnoc(Holders(init, pool.account), item, usage + [row], pool);
      FindLast(items, row.receipt.admission);
    }
  }

  lemma NothingInFuture(usage: seq<UsageRow>, row: UsageRow, pool: Pool)
    ensures Future(Holders([], pool.account), usage, pool) == 0 && Future(Holders([], pool.account), usage + [row], pool) == 0
    ensures Find([], row.receipt.admission).None?
  {
  }

  lemma UniqueInit(items: seq<Reservation>)
    requires items != [] && UniqueIds(items)
    ensures UniqueIds(items[..|items| - 1])
  {
  }

  /** Looking a row up, from the last row's point of view. */
  lemma FindLast(items: seq<Reservation>, id: Id)
    requires items != [] && UniqueIds(items)
    ensures var init, item := items[..|items| - 1], Last(items);
            if item.id == id then Find(items, id) == Some(item) && Find(init, id).None? else Find(items, id) == Find(init, id)
  {
    var init, item := items[..|items| - 1], Last(items);
    assert items == init + [item];
    if item.id == id { FindIsTheRow(init, id); }
  }

  /** The row a usage command appends. */
  function NewUsage(ledger: Ledger, receipt: UsageReceipt): Option<UsageRow> {
    var step := RecordUsage(ledger, receipt);
    if step.Ok? && FindUsage(ledger.usage, receipt.id).None? then Some(step.value.1.row) else None
  }

  lemma UsageStep(ledger: Ledger, receipt: UsageReceipt)
    ensures var after := Next(ledger, RecordUsageCommand(receipt));
            && after == ledger.(usage := after.usage)
            && (NewUsage(ledger, receipt).None? ==> after == ledger)
            && (NewUsage(ledger, receipt).Some? ==> after.usage == ledger.usage + [NewUsage(ledger, receipt).value])
  {
    hide Find, FindUsage, WindowsKnown, ResetFor;
  }

  /** Recording usage moves the committed amount by exactly what it adds uncovered less what it relieves. */
  lemma UsageExact(ledger: Ledger, receipt: UsageReceipt, pool: Pool)
    requires UniqueIds(ledger.reservations) && NewUsage(ledger, receipt).Some?
    ensures var row := NewUsage(ledger, receipt).value;
            Committed(Next(ledger, RecordUsageCommand(receipt)), pool) + Relief(ledger.reservations, ledger.usage, row, pool) ==
            Committed(ledger, pool) + CountedAmount(row, pool, Observed(ledger, pool.id))
  {
    hide Next, NewUsage, Relief, CountedAmount, UniqueIds;
    UsageStep(ledger, receipt);
    var row := NewUsage(ledger, receipt).value;
    FutureAfterUsage(ledger.reservations, ledger.usage, row, pool);
    UncoveredSnoc(ledger.usage, row, pool, Observed(ledger, pool.id));
  }

  /** What a command may add beyond the demand already held for it. */
  function Excess(ledger: Ledger, command: Command, pool: Pool): nat {
    if command.RecordUsageCommand? && NewUsage(ledger, command.receipt).Some? then
      var row := NewUsage(ledger, command.receipt).value;
      Monus(CountedAmount(row, pool, Observed(ledger, pool.id)), Relief(ledger.reservations, ledger.usage, row, pool))
    else 0
  }

  /** Usage within the unconsumed demand of an admission that still holds it has no excess. */
  lemma UsageWithinDemand(ledger: Ledger, receipt: UsageReceipt, pool: Pool)
    requires var found := Find(ledger.reservations, receipt.admission);
             && found.Some? && found.value.account == pool.account && Holding(found.value.state)
             && Amount(receipt.amounts, pool.id) <= Unconsumed(found.value, ledger.usage, pool)
    ensures Excess(ledger, RecordUsageCommand(receipt), pool) == 0
  {
    hide WindowsKnown, ResetFor, FindUsage, Find, Unconsumed, Counts;
  }

  // ---------------------------------------------------------------- admission

  lemma {:induction false} NothingConsumed(items: seq<Reservation>, usage: seq<UsageRow>, account: Id, id: Id, pool: Id)
    requires !IdTaken(items, id)
    requires forall i :: 0 <= i < |usage| ==> UsageRowOk(items, usage[i])
    ensures Consumed(usage, account, id, pool) == 0
  {
    if usage != [] {
      NothingConsumed(items, usage[..|usage| - 1], account, id, pool);
      assert UsageRowOk(items, usage[|usage| - 1]);
      FindIsTheRow(items, Last(usage).receipt.admission);
    }
  }

  /** The stored future demand right after an admission: the load it was judged by, plus its own demand. */
  lemma FutureAfterAdmission(ledger: Ledger, command: Command, pool: Pool)
    requires Inv(ledger) && NewRow(ledger, command).Some? && pool.account == NewRow(ledger, command).value.account
    ensures Future(Holders(Next(ledger, command).reservations, pool.account), Next(ledger, command).usage, pool) ==
            Future(Held(ledger.reservations, pool.account, LastEvaluation(command.clock)), ledger.usage, pool) +
            Amount(command.request.demand, pool.id)
  {
    hide Next, Inv, NewRow, Expire, Held, IdTaken, Holders, Future, Consumed;
    AfterAdmission(ledger, command);
    var row, last := NewRow(ledger, command).value, LastEvaluation(command.clock);
    NewIdIsFresh(ledger, command);
    assert UsageOk(ledger) by { InvParts(ledger); }
    HoldersOfExpired(ledger.reservations, pool.account, last, pool.account);
    HoldersSnoc(Expire(ledger.reservations, pool.account, last), row, pool.account);
    FutureSnoc(Held(ledger.reservations, pool.account, last), row, ledger.usage, pool);
    NothingConsumed(ledger.reservations, ledger.usage, pool.account, row.id, pool.id);
  }

  lemma AfterAdmission(ledger: Ledger, command: Command)
    requires Inv(ledger) && NewRow(ledger, command).Some?
    ensures command.AdmitCommand?
    ensures var row := NewRow(ledger, command).value;
            && row.request == command.request && row.state == Reserved
            && Next(ledger, command) == ledger.(reservations :=
                 Expire(ledger.reservations, row.account, LastEvaluation(command.clock)) + [row])
  {
    assert UniqueIds(ledger.reservations) by { InvParts(ledger); }
    hide Inv, Basis, Expire, Admit, AllEvolve, UniqueIds;
    AdmitRows(ledger, command.request, command.id, command.clock);
  }

  /** A clean evaluation grants a numeric pool no more than its headroom. */
  lemma CleanFitsHeadroom(ledger: Ledger, request: Request, now: Time, pool: Pool, o: Observation, remaining: int)
    requires Inv(ledger) && AdmissibleAt(ledger, request, now)
    requires pool.id in request.demand && pool.id in ledger.pools && ledger.pools[pool.id] == pool
    requires Observed(ledger, pool.id) == Some(o) && NumericRemaining(o) == Some(remaining)
    ensures var (profile, policy, revision) := Basis(ledger, request).value;
            Amount(request.demand, pool.id) <=
              Headroom(ledger, policy, Held(ledger.reservations, profile.account, now), pool, o, remaining, IsLead(request))
  {
    var (profile, policy, revision) := Basis(ledger, request).value;
    var held := Held(ledger.reservations, profile.account, now);
    var failures := FailuresOf(ledger.failures, profile.account);
    hide EvaluatePools, Inv, Held, Headroom, PoolClean, Basis, Clean;
    CleanParts(ledger, request, profile, policy, revision, held, now);
    CleanPoolByPool(ledger, request, policy, held, now, failures, profile.pools);
    assert pool.id in Elements(profile.pools);
    var i :| 0 <= i < |profile.pools| && profile.pools[i] == pool.id;
    PoolCleanFits(ledger, request, policy, held, now, failures, profile.pools[i], o, remaining);
  }

  lemma CleanParts(ledger: Ledger, request: Request, profile: Profile, policy: Policy, revision: nat, held: seq<Reservation>, now: Time)
    requires ProfileOk(ledger, profile)
    requires Clean(ledger, request, profile, policy, revision, held, now)
    ensures request.demand.Keys == Elements(profile.pools)
    ensures EvaluatePools(ledger, request, policy, held, now, FailuresOf(ledger.failures, profile.account), profile.pools).reasons == []
  {
    hide EvaluatePools, AccountReasons;
  }

  lemma PoolCleanFits(ledger: Ledger, request: Request, policy: Policy, held: seq<Reservation>, now: Time,
                      failures: seq<FailureRow>, id: Id, o: Observation, remaining: int)
    requires id in ledger.pools && ledger.pools[id].id == id
    requires PoolClean(ledger, request, policy, held, now, failures, id)
    requires Observed(ledger, id) == Some(o) && NumericRemaining(o) == Some(remaining)
    ensures Amount(request.demand, id) <= Headroom(ledger, policy, held, ledger.pools[id], o, remaining, IsLead(request))
  {
    hide Headroom, Exhausted, ExhaustedSince;
  }

  /**
   An admission is granted only if, afterwards, everything committed against a numeric pool of its vector, with the
   safety margin and for anyone but the lead also the lead's reserve, still fits what was reported as remaining.
   */
  lemma AdmissionFits(ledger: Ledger, command: Command, pool: Pool, o: Observation, remaining: int)
    requires Inv(ledger) && NewRow(ledger, command).Some?
    requires pool.id in command.request.demand && pool.id in ledger.pools && ledger.pools[pool.id] == pool
    requires Observed(ledger, pool.id) == Some(o) && NumericRemaining(o) == Some(remaining)
    ensures PoliciesOf(ledger, pool.account) != []
    ensures var policy := Last(PoliciesOf(ledger, pool.account));
            Committed(Next(ledger, command), pool) + Amount(policy.safetyMargin, pool.id) +
              (if IsLead(command.request) then 0 else Amount(policy.leadReserve, pool.id)) <= remaining
  {
    var request, clock := command.request, command.clock;
    AdmittedExactly(ledger, request, command.id, clock);
    var last := LastEvaluation(clock);
    AdmissibleBetween(ledger, request, clock.first, last, clock.written);
    PoolOfVector(ledger, request, clock.first, pool);
    CleanFitsHeadroom(ledger, request, last, pool, o, remaining);
    OtherTables(ledger, command);
    FutureAfterAdmission(ledger, command, pool);
    hide Next, Admit, AdmissibleAt, Held, Inv, Admitted, Holders, Uncovered, Future, IdTaken, AttemptReserved, Expire;
  }

  lemma PoolOfVector(ledger: Ledger, request: Request, now: Time, pool: Pool)
    requires Inv(ledger) && AdmissibleAt(ledger, request, now) && pool.id in request.demand
    requires pool.id in ledger.pools && ledger.pools[pool.id] == pool
    ensures Basis(ledger, request).value.0.account == pool.account
  {
    hide EvaluatePools, Held, AccountReasons, CountsOk, UsageOk, ItemsOk;
    var (profile, policy, revision) := Basis(ledger, request).value;
    assert request.demand.Keys == Elements(profile.pools);
    assert ProfileSound(ledger.pools, profile);
  }

  // ---------------------------------------------------------------- one step, then a run

  /** Commands other than usage and admission never raise the committed amount of a pool whose observation stands. */
  lemma OtherCommandsRelease(ledger: Ledger, command: Command, pool: Pool)
    requires Inv(ledger) && !command.RecordUsageCommand? && NewRow(ledger, command).None?
    requires Observed(Next(ledger, command), pool.id) == Observed(ledger, pool.id)
    ensures Committed(Next(ledger, command), pool) <= Committed(ledger, pool)
  {
    hide Next, NewRow, Inv, AllEvolve;
    assert UniqueIds(ledger.reservations) by { InvParts(ledger); }
    OtherTables(ledger, command);
    RowsEvolve(ledger, command);
    var before, after := ledger.reservations, Next(ledger, command).reservations;
    assert after == after[..|before|];
    EvolvedIsLighter(before, after, pool.account, ledger.usage, pool);
  }

  /** An admission whose vector does not name the pool does not raise it either. */
  lemma UnrelatedAdmission(ledger: Ledger, command: Command, pool: Pool)
    requires Inv(ledger) && NewRow(ledger, command).Some? && pool.id !in command.request.demand
    ensures Committed(Next(ledger, command), pool) <= Committed(ledger, pool)
  {
    var row := NewRow(ledger, command).value;
    assert row.request == command.request;
    hide Next, NewRow, Inv, AllEvolve;
    assert UniqueIds(ledger.reservations) by { InvParts(ledger); }
    OtherTables(ledger, command);
    RowsEvolve(ledger, command);
    var before, after := ledger.reservations, Next(ledger, command).reservations;
    EvolvedIsLighter(before, after[..|before|], pool.account, ledger.usage, pool);
    HoldersSnoc(after[..|before|], row, pool.account);
    FutureSnoc(Holders(after[..|before|], pool.account), row, ledger.usage, pool);
  }

  /** A pool with a standing numeric observation and the safety margin that applies to it. */
  ghost predicate Watched(ledger: Ledger, pool: Pool, o: Observation, remaining: int, margin: nat) {
    && pool.id in ledger.pools && ledger.pools[pool.id] == pool
    && Observed(ledger, pool.id) == Some(o) && NumericRemaining(o) == Some(remaining)
    && PoliciesOf(ledger, pool.account) != []
    && Amount(Last(PoliciesOf(ledger, pool.account)).safetyMargin, pool.id) == margin
  }

  lemma StepBound(ledger: Ledger, command: Command, pool: Pool, o: Observation, remaining: int, margin: nat)
    requires Inv(ledger)
    requires Watched(ledger, pool, o, remaining, margin)
    requires Observed(Next(ledger, command), pool.id) == Some(o)
    ensures Committed(Next(ledger, command), pool) + margin <=
              Max(remaining, Committed(ledger, pool) + margin) + Excess(ledger, command, pool)
  {
    hide Next, NewRow, Committed, Inv, Relief, CountedAmount, NewUsage;
    if NewRow(ledger, command).Some? {
      assert command.AdmitCommand? by { NewRowIsAdmission(ledger, command); }
      if pool.id in command.request.demand {
        AdmissionFits(ledger, command, pool, o, remaining);
      } else {
        UnrelatedAdmission(ledger, command, pool);
      }
    } else if command.RecordUsageCommand? {
      assert UniqueIds(ledger.reservations) by { InvParts(ledger); }
      UsageStep(ledger, command.receipt);
      if NewUsage(ledger, command.receipt).Some? {
        UsageExact(ledger, command.receipt, pool);
      }
    } else {
      OtherCommandsRelease(ledger, command, pool);
    }
  }

  lemma NewRowIsAdmission(ledger: Ledger, command: Command)
    requires NewRow(ledger, command).Some?
    ensures command.AdmitCommand?
  {
  }

  function TotalExcess(ledger: Ledger, commands: seq<Command>, pool: Pool): nat {
    if commands == [] then 0
    else
      var init := commands[..|commands| - 1];
      TotalExcess(ledger, init, pool) + Excess(Run(ledger, init), Last(commands), pool)
  }

  /** The pool's observation and margin stand throughout the run. */
  ghost predicate Steady(ledger: Ledger, commands: seq<Command>, pool: Pool, o: Observation, remaining: int, margin: nat) {
    forall k :: 0 <= k <= |commands| ==> Watched(Run(ledger, commands[..k]), pool, o, remaining, margin)
  }

  lemma {:induction false} RunInv(ledger: Ledger, commands: seq<Command>)
    requires Inv(ledger)
    ensures Inv(Run(ledger, commands))
  {
    if commands != [] {
      hide Next, Inv;
      RunInv(ledger, commands[..|commands| - 1]);
      InvKept(Run(ledger, commands[..|commands| - 1]), Last(commands));
    }
  }

  /**
   Over any run of commands during which a pool's numeric observation and margin stand, any number of admissions
   included, the committed amount stays within the reported remaining less the margin, or within what was already
   committed at the start, up to the usage recorded beyond held demand and nothing else.
   */
  lemma {:induction false} OnlyUsageExcessOvercommits(ledger: Ledger, commands: seq<Command>, pool: Pool, o: Observation,
                                                      remaining: int, margin: nat)
    requires Inv(ledger)
    requires Steady(ledger, commands, pool, o, remaining, margin)
    ensures Committed(Run(ledger, commands), pool) + margin <=
              Max(remaining, Committed(ledger, pool) + margin) + TotalExcess(ledger, commands, pool)
  {
    hide Next, Committed, Excess, Inv, Watched;
    if commands != [] {
      var init := commands[..|commands| - 1];
      forall k | 0 <= k <= |init|
        ensures Watched(Run(ledger, init[..k]), pool, o, remaining, margin)
      {
        assert init[..k] == commands[..k];
      }
      OnlyUsageExcessOvercommits(ledger, init, pool, o, remaining, margin);
      RunInv(ledger, init);
      assert commands[..|commands|] == commands;
      assert Watched(Run(ledger, commands[..|init|]), pool, o, remaining, margin);
      assert Watched(Run(ledger, commands[..|commands|]), pool, o, remaining, margin);
      WatchedObserved(Run(ledger, commands), pool, o, remaining, margin);
      StepBound(Run(ledger, init), Last(commands), pool, o, remaining, margin);
    }
  }

  lemma WatchedObserved(ledger: Ledger, pool: Pool, o: Observation, remaining: int, margin: nat)
    requires Watched(ledger, pool, o, remaining, margin)
    ensures Observed(ledger, pool.id) == Some(o)
  {
  }
}
