/**
 The applied observations of a pool over whole runs: their order, their windows, and the exhaustion latch.
 */
module CapacityObservations {
  import opened Common
  import opened CapacityModel
  import opened CapacityFence
  import opened CapacityCommands
  import opened CapacityAdmission
  import opened CapacityInvariants

  // ---------------------------------------------------------------- the chain of applied observations

  predicate StrictlyLater(applied: seq<Observation>) {
    forall i, j :: 0 <= i < j < |applied| ==> applied[i].observedAt < applied[j].observedAt
  }

  predicate ResetsAhead(applied: seq<Observation>) {
    forall i :: 0 <= i < |applied| && applied[i].resetAt.Some? ==> applied[i].observedAt < applied[i].resetAt.value
  }

  /** A window is left only once its reset is known and over. */
  ghost predicate LeftAfterReset(applied: seq<Observation>) {
    forall i, j :: 0 <= i < j < |applied| && j == i + 1 && applied[i].window != applied[j].window ==>
      applied[i].resetAt.Some? && applied[i].resetAt.value <= applied[j].observedAt
  }

  predicate ResetsFixed(applied: seq<Observation>) {
    forall i, j :: 0 <= i < j < |applied| && applied[i].window == applied[j].window && applied[i].resetAt.Some? ==>
      applied[j].resetAt == applied[i].resetAt
  }

  ghost predicate ChainOk(pool: Pool, applied: seq<Observation>) {
    && StrictlyLater(applied) && ResetsAhead(applied) && LeftAfterReset(applied)
    && (pool.windowKind == Fixed ==> ResetsFixed(applied))
  }

  lemma ChainSnoc(pool: Pool, applied: seq<Observation>, o: Observation)
    requires ChainOk(pool, applied)
    requires Supersedes(Latest(applied), o)
    requires o.resetAt.Some? ==> o.observedAt < o.resetAt.value
    requires pool.windowKind == Fixed ==> WindowConsistent(applied, o)
    ensures ChainOk(pool, applied + [o])
  {
    var all := applied + [o];
    assert forall i :: 0 <= i < |applied| ==> all[i] == applied[i];
    assert StrictlyLater(all) by {
      forall i, j | 0 <= i < j < |all| ensures all[i].observedAt < all[j].observedAt {
        if j == |applied| && i < |applied| - 1 {
          assert applied[i].observedAt < applied[|applied| - 1].observedAt;
        }
      }
    }
    assert LeftAfterReset(all);
  }

  /** Between two observations of different windows, some observation is the last one of the first window. */
  lemma LastOfWindow(applied: seq<Observation>, i: nat, j: nat) returns (m: nat)
    requires i < j < |applied| && applied[i].window != applied[j].window
    ensures i <= m < j && applied[m].window == applied[i].window && applied[m + 1].window != applied[i].window
  {
    m := i;
    while applied[m + 1].window == applied[i].window
      invariant i <= m < j && applied[m].window == applied[i].window
      decreases j - m
    {
      m := m + 1;
    }
  }

  /** A fixed window that has been left is never entered again. */
  lemma NeverReentered(pool: Pool, applied: seq<Observation>, i: nat, j: nat, k: nat)
    requires ChainOk(pool, applied) && pool.windowKind == Fixed
    requires i < j < k < |applied| && applied[i].window == applied[k].window
    ensures applied[j].window == applied[i].window
  {
    if applied[j].window != applied[i].window {
      var m := LastOfWindow(applied, i, j);
    }
  }

  // ---------------------------------------------------------------- over runs

  lemma AppliedSnoc(rows: seq<ObservationRow>, row: ObservationRow, pool: Id)
    ensures Applied(rows + [row], pool) ==
              Applied(rows, pool) + if row.applied && row.observation.pool == pool then [row.observation] else []
  {
    assert (rows + [row])[..|rows + [row]| - 1] == rows;
  }

  predicate RowsRegistered(ledger: Ledger) {
    forall i :: 0 <= i < |ledger.observations| ==> ledger.observations[i].observation.pool in ledger.pools
  }

  ghost predicate ChainsOk(ledger: Ledger) {
    && RowsRegistered(ledger)
    && forall p :: p in ledger.pools ==> ChainOk(ledger.pools[p], Applied(ledger.observations, p))
  }

  lemma {:induction false} UnregisteredHasNone(rows: seq<ObservationRow>, pool: Id)
    requires forall i :: 0 <= i < |rows| ==> rows[i].observation.pool != pool
    ensures Applied(rows, pool) == []
  {
    if rows != [] {
      UnregisteredHasNone(rows[..|rows| - 1], pool);
    }
  }

  lemma ObserveKeepsChains(ledger: Ledger, o: Observation, now: Time)
    requires ChainsOk(ledger)
    ensures ChainsOk(Next(ledger, ObserveCommand(o, now)))
  {
    hide ChainOk, CoverageKnown, QuantityValid, Distinct;
    AppliedObservation(ledger, o, now);
    var step := Observe(ledger, o, now);
    if step.Ok? && step.value.1.applied {
      ChainSnoc(ledger.pools[o.pool], Applied(ledger.observations, o.pool), o);
    }
  }

  lemma ChainsKept(ledger: Ledger, command: Command)
    requires Inv(ledger) && ChainsOk(ledger)
    ensures ChainsOk(Next(ledger, command))
  {
    hide Next, ChainOk;
    assert PoolsOk(ledger) && ProfilesOk(ledger) by { InvParts(ledger); }
    hide Inv;
    OtherTables(ledger, command);
    TablesGrow(ledger, command);
    match command {
      case ObserveCommand(o, now) => ObserveKeepsChains(ledger, o, now);
      case RegisterPoolCommand(pool) =>
        var after := Next(ledger, command);
        forall p | p in after.pools
          ensures ChainOk(after.pools[p], Applied(after.observations, p))
        {
          if p !in ledger.pools {
            UnregisteredHasNone(ledger.observations, p);
            EmptyChain(after.pools[p]);
          }
        }
      case _ =>
    }
  }

  lemma EmptyChain(pool: Pool)
    ensures ChainOk(pool, [])
  {
  }

  /**
   In every reachable ledger, the applied observations of each pool strictly advance in time and, for a fixed-window
   pool, a window keeps its reset once set and is never re-entered once left.
   */
  lemma {:induction false} ReachableChains(commands: seq<Command>)
    ensures ChainsOk(Run(EmptyLedger, commands))
    ensures var ledger := Run(EmptyLedger, commands);
            forall p :: p in ledger.pools ==>
              var applied := Applied(ledger.observations, p);
              && StrictlyLater(applied)
              && (ledger.pools[p].windowKind == Fixed ==>
                    && ResetsFixed(applied)
                    && forall i, j, k :: 0 <= i < j < k < |applied| && applied[i].window == applied[k].window ==>
                         applied[j].window == applied[i].window)
  {
    if commands != [] {
      hide Next;
      var init := commands[..|commands| - 1];
      ReachableChains(init);
      ReachableInv(init);
      ChainsKept(Run(EmptyLedger, init), Last(commands));
    }
    var ledger := Run(EmptyLedger, commands);
    forall p, i, j, k | p in ledger.pools && ledger.pools[p].windowKind == Fixed &&
                        0 <= i < j < k < |Applied(ledger.observations, p)| &&
                        Applied(ledger.observations, p)[i].window == Applied(ledger.observations, p)[k].window
      ensures Applied(ledger.observations, p)[j].window == Applied(ledger.observations, p)[i].window
    {
      NeverReentered(ledger.pools[p], Applied(ledger.observations, p), i, j, k);
    }
  }

  // ---------------------------------------------------------------- which pools come back to a window

  /** A window was left and entered again. */
  predicate Reenters(applied: seq<Observation>) {
    exists i, j, k :: 0 <= i < j < k < |applied| && applied[i].window == applied[k].window && applied[j].window != applied[i].window
  }

  /** After these commands the pool, if it is registered so, has come back to no window it left. */
  predicate StaysOut(pool: Pool, commands: seq<Command>) {
    var ledger := Run(EmptyLedger, commands);
    pool.id in ledger.pools && ledger.pools[pool.id] == pool ==> !Reenters(Applied(ledger.observations, pool.id))
  }

  function Sighting(pool: Pool, window: Id, at: Time): Observation {
    Observation(pool.id, window, at, Some(at + 1.0), Fixture, Unknown, None, None, [], None, None)
  }

  /** Register a pool, then see it in window `w`, in window `x`, and in window `w` again, each after the reset before. */
  function ThereAndBack(pool: Pool): seq<Command> {
    [RegisterPoolCommand(pool), ObserveCommand(Sighting(pool, "w", 0.0), 0.0), ObserveCommand(Sighting(pool, "x", 2.0), 2.0),
     ObserveCommand(Sighting(pool, "w", 4.0), 4.0)]
  }

  /** A sighting that supersedes the last one is applied to a pool that is not fixed. */
  lemma SightingApplies(ledger: Ledger, pool: Pool, window: Id, at: Time)
    requires pool.id in ledger.pools && ledger.pools[pool.id] == pool && pool.windowKind != Fixed
    requires Supersedes(Latest(Applied(ledger.observations, pool.id)), Sighting(pool, window, at))
    ensures var after := Next(ledger, ObserveCommand(Sighting(pool, window, at), at));
            && after.pools == ledger.pools
            && Applied(after.observations, pool.id) == Applied(ledger.observations, pool.id) + [Sighting(pool, window, at)]
  {
    hide Applied, Supersedes;
    AppliedSnoc(ledger.observations, ObservationRow(Sighting(pool, window, at), at, true), pool.id);
  }

  /** Those four commands bring every pool of another kind than fixed back to the window it left. */
  lemma OthersReenter(pool: Pool)
    requires pool.windowKind != Fixed
    ensures var ledger := Run(EmptyLedger, ThereAndBack(pool));
            && pool.id in ledger.pools && ledger.pools[pool.id] == pool
            && Applied(ledger.observations, pool.id) == [Sighting(pool, "w", 0.0), Sighting(pool, "x", 2.0), Sighting(pool, "w", 4.0)]
            && Reenters(Applied(ledger.observations, pool.id))
  {
    hide Run, Next, Applied;
    var cs := ThereAndBack(pool);
    RunFour(EmptyLedger, cs);
    var l1 := Next(EmptyLedger, cs[0]);
    Registers(pool);
    SightingApplies(l1, pool, "w", 0.0);
    var l2 := Next(l1, cs[1]);
    assert Applied(l2.observations, pool.id) == [Sighting(pool, "w", 0.0)];
    SightingApplies(l2, pool, "x", 2.0);
    var l3 := Next(l2, cs[2]);
    assert Applied(l3.observations, pool.id) == [Sighting(pool, "w", 0.0), Sighting(pool, "x", 2.0)];
    SightingApplies(l3, pool, "w", 4.0);
    Returns(pool);
  }

  lemma Registers(pool: Pool)
    ensures var after := Next(EmptyLedger, RegisterPoolCommand(pool));
            pool.id in after.pools && after.pools[pool.id] == pool && Applied(after.observations, pool.id) == []
  {
  }

  lemma Returns(pool: Pool)
    ensures Reenters([Sighting(pool, "w", 0.0), Sighting(pool, "x", 2.0), Sighting(pool, "w", 4.0)])
  {
    var applied := [Sighting(pool, "w", 0.0), Sighting(pool, "x", 2.0), Sighting(pool, "w", 4.0)];
    assert "w"[0] != "x"[0];
    assert applied[0].window == applied[2].window && applied[1].window != applied[0].window;
  }

  lemma RunFour(ledger: Ledger, cs: seq<Command>)
    requires |cs| == 4
    ensures Run(ledger, cs) == Next(Next(Next(Next(ledger, cs[0]), cs[1]), cs[2]), cs[3])
  {
    hide Next;
    var c3, c2, c1 := cs[..3], cs[..2], cs[..1];
    assert c3[..2] == c2 && c2[..1] == c1 && c1[..0] == [];
    assert Run(ledger, c1) == Next(ledger, cs[0]);
    assert Run(ledger, c2) == Next(Run(ledger, c1), cs[1]);
    assert Run(ledger, c3) == Next(Run(ledger, c2), cs[2]);
  }

  /** No run brings a pool back to a window it left if and only if its windows are fixed. */
  lemma OnlyFixedStaysOut(pool: Pool)
    ensures (forall commands :: StaysOut(pool, commands)) <==> pool.windowKind == Fixed
  {
    if pool.windowKind == Fixed {
      forall commands ensures StaysOut(pool, commands) {
        ReachableChains(commands);
        hide Run;
      }
    } else {
      OthersReenter(pool);
      hide Run, Reenters;
      assert !StaysOut(pool, ThereAndBack(pool));
    }
  }

  // ---------------------------------------------------------------- the exhaustion latch

  ghost predicate Latched(ledger: Ledger, pool: Pool) {
    Exhausted(pool, Applied(ledger.observations, pool.id), FailuresOf(ledger.failures, pool.account))
  }

  lemma NumericLatest(applied: seq<Observation>)
    requires applied != [] && NumericRemaining(Last(applied)).Some?
    ensures LatestNumeric(applied) == Some(Last(applied))
  {
  }

  lemma {:induction false} LatestNumericIsNumeric(applied: seq<Observation>)
    ensures LatestNumeric(applied).Some? ==> NumericRemaining(LatestNumeric(applied).value).Some?
  {
    if applied != [] {
      LatestNumericIsNumeric(applied[..|applied| - 1]);
    }
  }

  /** No verdict on a latched pool is clean: at no instant, under no policy, beside no load. */
  lemma LatchedPoolRefuses(ledger: Ledger, request: Request, policy: Policy, held: seq<Reservation>, now: Time, pool: Pool)
    requires Latched(ledger, pool) && Amount(request.demand, pool.id) > 0
    ensures PoolQuota(ledger, request, policy, held, now, FailuresOf(ledger.failures, pool.account), pool).reasons != []
  {
    var applied := Applied(ledger.observations, pool.id);
    if applied != [] && NumericRemaining(Last(applied)).Some? {
      NumericLatest(applied);
    }
  }

  lemma LatchedVectorRefuses(ledger: Ledger, request: Request, profile: Profile, policy: Policy, revision: nat,
                             held: seq<Reservation>, now: Time, pool: Pool)
    requires ProfileOk(ledger, profile) && Latched(ledger, pool) && RequestInput(request)
    requires pool.id in profile.pools && ledger.pools[pool.id] == pool && profile.account == pool.account
    ensures !Clean(ledger, request, profile, policy, revision, held, now)
  {
    hide Latched, PoolQuota, EvaluatePools, AccountReasons;
    if request.demand.Keys == Elements(profile.pools) {
      var failures := FailuresOf(ledger.failures, profile.account);
      CleanPoolByPool(ledger, request, policy, held, now, failures, profile.pools);
      var i :| 0 <= i < |profile.pools| && profile.pools[i] == pool.id;
      assert pool.id in Elements(profile.pools);
      LatchedPoolRefuses(ledger, request, policy, held, now, pool);
      assert !PoolClean(ledger, request, policy, held, now, failures, profile.pools[i]);
    }
  }

  /** While a pool is latched, no admission whose profile uses it is granted. */
  lemma LatchBlocksAdmission(ledger: Ledger, request: Request, id: Id, clock: AdmitClock, pool: Pool)
    requires Inv(ledger) && Latched(ledger, pool)
    requires pool.id in ledger.pools && ledger.pools[pool.id] == pool
    requires var key := (request.profileId, request.profileRevision);
             key in ledger.profiles && pool.id in ledger.profiles[key].pools
    ensures !Admitted(Admit(ledger, request, id, clock))
  {
    assert ProfilesOk(ledger) by { InvParts(ledger); }
    hide Inv, Admit, Latched, Held, AttemptReserved, IdTaken, RequestInput, Clean;
    AdmittedExactly(ledger, request, id, clock);
    if RequestInput(request) && Basis(ledger, request).Ok? {
      var (profile, policy, revision) := Basis(ledger, request).value;
      assert ProfileSound(ledger.pools, profile);
      LatchedVectorRefuses(ledger, request, profile, policy, revision,
                           Held(ledger.reservations, profile.account, clock.first), clock.first, pool);
    }
  }

  /**
   The observations that open the latch: a positive balance observed after every reported exhaustion, or, when a
   zero balance alone closed a fixed pool, an unquantified one from another window after the old window's reset.
   */
  ghost predicate Opens(ledger: Ledger, pool: Pool, o: Observation) {
    var failures := FailuresOf(ledger.failures, pool.account);
    var latest := LatestNumeric(Applied(ledger.observations, pool.id));
    var remaining := NumericRemaining(o);
    if remaining.Some? then remaining.value > 0 && !ExhaustedSince(pool, failures, o.observedAt)
    else !EverExhausted(pool, failures) && latest.Some? && ResetProved(pool, o, latest.value)
  }

  lemma AppliedObservation(ledger: Ledger, o: Observation, now: Time)
    ensures var step := Observe(ledger, o, now);
            step.Ok? ==>
              && step.value.0 == ledger.(observations := ledger.observations + [ObservationRow(o, now, step.value.1.applied)])
              && forall p :: Applied(step.value.0.observations, p) ==
                   Applied(ledger.observations, p) + if step.value.1.applied && o.pool == p then [o] else []
  {
    var step := Observe(ledger, o, now);
    if step.Ok? {
      forall p
        ensures Applied(step.value.0.observations, p) ==
                  Applied(ledger.observations, p) + if step.value.1.applied && o.pool == p then [o] else []
      {
        AppliedSnoc(ledger.observations, ObservationRow(o, now, step.value.1.applied), p);
      }
    }
  }

  /** A newly applied observation of a latched pool leaves it latched exactly unless it is one of those. */
  lemma OpensExactly(ledger: Ledger, pool: Pool, o: Observation)
    requires Latched(ledger, pool)
    ensures var applied := Applied(ledger.observations, pool.id) + [o];
            !Exhausted(pool, applied, FailuresOf(ledger.failures, pool.account)) <==> Opens(ledger, pool, o)
  {
    var before := Applied(ledger.observations, pool.id);
    var applied := before + [o];
    assert applied[..|applied| - 1] == before;
    LatestNumericIsNumeric(before);
  }

  lemma FailuresSnoc(failures: seq<FailureRow>, row: FailureRow, account: Id)
    ensures FailuresOf(failures + [row], account) ==
              FailuresOf(failures, account) + if row.account == account then [row] else []
  {
    assert (failures + [row])[..|failures + [row]| - 1] == failures;
  }

  /** Further failures only hold the latch closed. */
  lemma MoreFailures(pool: Pool, applied: seq<Observation>, failures: seq<FailureRow>, row: FailureRow)
    requires Exhausted(pool, applied, failures)
    ensures Exhausted(pool, applied, failures + [row])
  {
    var more := failures + [row];
    assert forall i :: 0 <= i < |failures| ==> more[i] == failures[i];
    if EverExhausted(pool, failures) {
      var i :| 0 <= i < |failures| && failures[i].reason == QuotaExhausted;
      assert more[i].reason == QuotaExhausted;
    }
    var latest := LatestNumeric(applied);
    if latest.Some? && ExhaustedSince(pool, failures, latest.value.observedAt) {
      var i :| 0 <= i < |failures| && failures[i].reason == QuotaExhausted && failures[i].at >= latest.value.observedAt;
      assert more[i].reason == QuotaExhausted && more[i].at >= latest.value.observedAt;
    }
  }

  /** The command applies an observation of the pool that opens its latch. */
  ghost predicate OpenedBy(ledger: Ledger, command: Command, pool: Pool) {
    && command.ObserveCommand? && command.observation.pool == pool.id
    && Apply(ledger, command).Ok? && Apply(ledger, command).value.1.applied
    && Opens(ledger, pool, command.observation)
  }

  lemma LatchStep(ledger: Ledger, command: Command, pool: Pool)
    requires Latched(ledger, pool)
    ensures Latched(Next(ledger, command), pool) <==> !OpenedBy(ledger, command, pool)
  {
    hide RegisterPool, RegisterProfile, ActivatePolicy, UpdateProtection, Admit, Activate, CancelUnactivated, Reconcile,
         RecordUsage, Observe, Exhausted, Opens;
    OtherTables(ledger, command);
    match command {
      case ObserveCommand(o, now) =>
        AppliedObservation(ledger, o, now);
        if o.pool == pool.id { OpensExactly(ledger, pool, o); }
      case RecordFailureCommand(account, reason, retryAfter, now) =>
        if RecordFailure(ledger, account, reason, retryAfter, now).Ok? {
          var row := Last(Next(ledger, command).failures);
          FailuresSnoc(ledger.failures, row, pool.account);
          MoreFailures(pool, Applied(ledger.observations, pool.id), FailuresOf(ledger.failures, pool.account), row);
        }
      case _ =>
    }
  }

  /** The latch holds over any run in which no such observation is applied, whatever else happens and however long it takes. */
  lemma {:induction false} LatchHolds(ledger: Ledger, commands: seq<Command>, pool: Pool)
    requires Latched(ledger, pool)
    requires forall k :: 0 <= k < |commands| ==> !OpenedBy(Run(ledger, commands[..k]), commands[k], pool)
    ensures Latched(Run(ledger, commands), pool)
  {
    hide Next, OpenedBy, Latched;
    if commands != [] {
      var init := commands[..|commands| - 1];
      forall k | 0 <= k < |init|
        ensures !OpenedBy(Run(ledger, init[..k]), init[k], pool)
      {
        assert init[..k] == commands[..k] && init[k] == commands[k];
      }
      LatchHolds(ledger, init, pool);
      assert commands[..|init|] == init && commands[|init|] == Last(commands);
      LatchStep(Run(ledger, init), Last(commands), pool);
    }
  }
}
