/**
 What the host's records of results and usage are worth, in every run.
 */
module ExecutionRecords {
  import opened Common
  import opened ExecutionModel
  import opened ExecutionSafety
  import opened ExecutionTheorems

  // ---------------------------------------------------------------- the records

  predicate AcceptedResult(t: Tables, e: Event) {
    e in t.results && t.results[e].accepted
  }

  predicate DoneAttempt(t: Tables, attempt: Id) {
    attempt in t.attempts && t.attempts[attempt] in t.executions && t.executions[t.attempts[attempt]].business == Done
  }

  /** An attempt is done exactly when one result of it was accepted, and there is only one. */
  ghost predicate ResultsOk(t: Tables) {
    && (forall a :: DoneAttempt(t, a) <==> exists e :: AcceptedResult(t, e) && e.attempt == a)
    && (forall e, f :: AcceptedResult(t, e) && AcceptedResult(t, f) && e.attempt == f.attempt ==> e == f)
  }

  function Sequences(t: Tables, attempt: Id): set<nat> {
    set e | e in t.usage && e.attempt == attempt :: t.usage[e].sequence
  }

  /** The numbers from 1 to n. */
  function Counted(n: nat): (r: set<nat>)
    ensures forall i :: i in r <==> 1 <= i <= n
  {
    if n == 0 then {} else Counted(n - 1) + {n}
  }

  /** The usage events of an attempt are numbered 1, 2, .. up to its sequence, each number once. */
  predicate UsageOk(t: Tables) {
    && (forall e :: e in t.usage ==> e.attempt in t.attempts)
    && (forall k :: k in t.executions ==> Sequences(t, t.executions[k].manifest.id) == Counted(t.executions[k].usageSequence))
    && (forall e, f :: e in t.usage && f in t.usage && e.attempt == f.attempt && t.usage[e].sequence == t.usage[f].sequence ==> e == f)
  }

  // ---------------------------------------------------------------- what the other transactions leave alone

  predicate SequencesKept(a: Tables, b: Tables) {
    forall k :: k in b.executions ==>
      if k in a.executions then
        b.executions[k].manifest == a.executions[k].manifest && b.executions[k].usageSequence == a.executions[k].usageSequence
      else b.executions[k].usageSequence == 0 && b.executions[k].manifest.id !in a.attempts
  }

  predicate DoneKept(a: Tables, b: Tables) {
    forall k :: k in b.executions && b.executions[k].business == Done ==>
      k in a.executions && a.executions[k].business == Done && b.executions[k].manifest == a.executions[k].manifest
  }

  lemma PlainRow(a: Tables, key: Key, row: Row)
    requires key in a.executions && row.manifest == a.executions[key].manifest
    ensures row.usageSequence == a.executions[key].usageSequence ==> SequencesKept(a, SetRow(a, key, row))
    ensures (row.business == Done ==> a.executions[key].business == Done) ==> DoneKept(a, SetRow(a, key, row))
  {
  }

  lemma PlainSame(a: Tables, b: Tables)
    requires b.executions == a.executions
    ensures SequencesKept(a, b) && DoneKept(a, b)
  {
  }

  lemma PlainRows(a: Tables, b: Tables, c: Tables)
    requires b.executions == c.executions
    ensures SequencesKept(a, b) ==> SequencesKept(a, c)
    ensures DoneKept(a, b) ==> DoneKept(a, c)
  {
  }

  lemma PreparePlain(t: Tables, key: Key, manifest: Manifest, spec: Spec)
    ensures var r := Prepare(t, key, manifest, spec); r.Ok? ==> SequencesKept(t, r.tables) && DoneKept(t, r.tables)
  {
    hide SequencesKept, DoneKept;
    PlainSame(t, t);
    var r := Prepare(t, key, manifest, spec);
    if r.Ok? && key !in t.executions { PlainNew(t, r.tables, key, NewRow(manifest, spec)); }
  }

  lemma PlainNew(a: Tables, b: Tables, key: Key, row: Row)
    requires key !in a.executions && b.executions == a.executions[key := row]
    requires row.usageSequence == 0 && row.manifest.id !in a.attempts && row.business == Pending
    ensures SequencesKept(a, b) && DoneKept(a, b)
  {
  }

  lemma CancelPlain(t: Tables, attempt: Id, cancelKey: Key, bound: bool)
    ensures var r := Cancel(t, attempt, cancelKey, bound); r.Ok? ==> SequencesKept(t, r.tables) && DoneKept(t, r.tables)
  {
    hide SequencesKept, DoneKept;
    var r := Cancel(t, attempt, cancelKey, bound);
    if r.Ok? {
      var row := r.tables.executions[t.attempts[attempt]];
      PlainRow(t, t.attempts[attempt], row);
      PlainRows(t, SetRow(t, t.attempts[attempt], row), r.tables);
    }
  }

  lemma ResultPlain(t: Tables, attempt: Id, fence: nat, event: Id, payload: string)
    ensures var r := ReceiveResult(t, attempt, fence, event, payload); r.Ok? ==> SequencesKept(t, r.tables)
  {
    hide SequencesKept, DoneKept;
    PlainSame(t, t);
    var r := ReceiveResult(t, attempt, fence, event, payload);
    if r.Ok? {
      var row := t.executions[t.attempts[attempt]].(business := Done);
      PlainRow(t, t.attempts[attempt], row);
      if r.tables.executions == t.executions {
        PlainRows(t, t, r.tables);
      } else {
        PlainRows(t, SetRow(t, t.attempts[attempt], row), r.tables);
      }
    }
  }

  lemma UsagePlain(t: Tables, attempt: Id, fence: nat, event: Id, payload: string)
    ensures var r := RecordUsage(t, attempt, fence, event, payload); r.Ok? ==> DoneKept(t, r.tables)
  {
    hide SequencesKept, DoneKept;
    PlainSame(t, t);
    var r := RecordUsage(t, attempt, fence, event, payload);
    if r.Ok? && r.tables != t {
      var row := r.tables.executions[t.attempts[attempt]];
      PlainRow(t, t.attempts[attempt], row);
      PlainRows(t, SetRow(t, t.attempts[attempt], row), r.tables);
    }
  }

  lemma SettlePlain(t: Tables, attempt: Id, through: nat)
    ensures var r := SettleUsage(t, attempt, through); r.Ok? ==> SequencesKept(t, r.tables) && DoneKept(t, r.tables)
  {
    hide SequencesKept, DoneKept;
    var r := SettleUsage(t, attempt, through);
    if r.Ok? { PlainRow(t, t.attempts[attempt], r.tables.executions[t.attempts[attempt]]); }
  }

  /** Nothing but the bookkeeping of the launch changes. */
  ghost predicate Plain(a: Tables, b: Tables) {
    SequencesKept(a, b) && DoneKept(a, b) && b.results == a.results && b.usage == a.usage
  }

  predicate SameRecord(a: Row, b: Row) {
    b.manifest == a.manifest && b.usageSequence == a.usageSequence && b.business == a.business
  }

  lemma PlainRowsAt(t: Tables, key: Key)
    requires key in t.executions
    ensures Plain(t, t)
    ensures forall row :: SameRecord(t.executions[key], row) ==> Plain(t, SetRow(t, key, row))
  {
    hide SequencesKept, DoneKept;
    PlainSame(t, t);
    forall row | SameRecord(t.executions[key], row)
      ensures Plain(t, SetRow(t, key, row))
    {
      PlainRow(t, key, row);
    }
  }

  lemma StartPlain(w: World, starter: nat, key: Key, activation: Activation, now: Time)
    ensures Plain(w.tables, StartCall(w, starter, key, activation, now).tables)
  {
    hide Plain, MayStart, Binds, SetRow;
    if key in w.tables.executions { PlainRowsAt(w.tables, key); } else { assert Plain(w.tables, w.tables) by { PlainSelf(w.tables); } }
  }

  lemma PlainSelf(t: Tables)
    ensures Plain(t, t)
  {
    PlainSame(t, t);
  }

  lemma StarterPlain(w: World, starter: nat, pc: Starter, now: Time, pid: nat)
    ensures Plain(w.tables, StarterMoves(w, starter, pc, now, pid).tables)
  {
    hide Plain, MayStart, SetRow;
    PlainSelf(w.tables);
    if pc.key in w.tables.executions { PlainRowsAt(w.tables, pc.key); }
  }

  lemma SupervisorPlain(w: World, pid: nat, pc: Supervisor, now: Time, value: int, stop: bool)
    ensures Plain(w.tables, SupervisorMoves(w, pid, pc, now, value, stop).tables)
  {
    hide Plain, MayLaunch, SetRow;
    PlainSelf(w.tables);
    if pc.key in w.tables.executions { PlainRowsAt(w.tables, pc.key); }
  }

  lemma ProcessPlain(w: World, step: Step)
    requires step.StartStep? || step.StarterStep? || step.SupervisorStep?
    ensures Plain(w.tables, Next(w, step).tables)
  {
    hide Plain, StartCall, StarterMoves, SupervisorMoves;
    PlainSelf(w.tables);
    match step {
      case StartStep(starter, key, activation, now) => StartPlain(w, starter, key, activation, now);
      case StarterStep(starter, now, pid) => if starter in w.starters { StarterPlain(w, starter, w.starters[starter], now, pid); }
      case SupervisorStep(pid, now, value, stop) =>
        if pid in w.supervisors { SupervisorPlain(w, pid, w.supervisors[pid], now, value, stop); }
    }
  }

  /** Only a received result makes an attempt done, and only a usage report counts one up. */
  lemma NextPlain(w: World, step: Step)
    ensures !step.UsageStep? ==> SequencesKept(w.tables, Next(w, step).tables)
    ensures !step.ResultStep? ==> DoneKept(w.tables, Next(w, step).tables)
  {
    hide SequencesKept, DoneKept, Prepare, Cancel, ReceiveResult, RecordUsage, SettleUsage, StartCall, StarterMoves, SupervisorMoves;
    PlainSame(w.tables, w.tables);
    match step {
      case PrepareStep(key, manifest, spec) => PreparePlain(w.tables, key, manifest, spec);
      case ControlStep(_, _) => PlainSame(w.tables, Next(w, step).tables);
      case InitializeStep(_, _, _, _) => PlainSame(w.tables, Next(w, step).tables);
      case CancelStep(attempt, cancelKey, bound) => CancelPlain(w.tables, attempt, cancelKey, bound);
      case ResultStep(attempt, fence, event, payload) => ResultPlain(w.tables, attempt, fence, event, payload);
      case UsageStep(attempt, fence, event, payload) => UsagePlain(w.tables, attempt, fence, event, payload);
      case SettleStep(attempt, through) => SettlePlain(w.tables, attempt, through);
      case StarterDies(_) =>
      case SupervisorDies(_) =>
      case _ => ProcessPlain(w, step);
    }
  }

  /** Only a received result changes the results, and only a usage report the usage. */
  lemma OtherSteps(w: World, step: Step)
    ensures !step.ResultStep? ==> Next(w, step).tables.results == w.tables.results
    ensures !step.UsageStep? ==> Next(w, step).tables.usage == w.tables.usage
  {
    hide Acceptable, NewRow, StartCall, StarterMoves, SupervisorMoves, SequencesKept, DoneKept;
    if step.StartStep? || step.StarterStep? || step.SupervisorStep? {
      ProcessPlain(w, step);
    } else {
      RecordSteps(w, step);
      hide Prepare, SetControl, InitializeControl, Cancel, ReceiveResult, RecordUsage, SettleUsage;
    }
  }

  lemma RecordSteps(w: World, step: Step)
    requires !step.StartStep? && !step.StarterStep? && !step.SupervisorStep?
    ensures !step.ResultStep? ==> Next(w, step).tables.results == w.tables.results
    ensures !step.UsageStep? ==> Next(w, step).tables.usage == w.tables.usage
  {
    hide Acceptable, NewRow, StartCall, StarterMoves, SupervisorMoves;
    var t := w.tables;
    match step {
      case PrepareStep(key, manifest, spec) => assert Next(w, step) == Commit(w, Prepare(t, key, manifest, spec));
      case CancelStep(attempt, cancelKey, bound) => assert Next(w, step) == Commit(w, Cancel(t, attempt, cancelKey, bound));
      case ResultStep(attempt, fence, event, payload) => assert Next(w, step) == Commit(w, ReceiveResult(t, attempt, fence, event, payload));
      case UsageStep(attempt, fence, event, payload) => assert Next(w, step) == Commit(w, RecordUsage(t, attempt, fence, event, payload));
      case SettleStep(attempt, through) => assert Next(w, step) == Commit(w, SettleUsage(t, attempt, through));
      case _ =>
    }
  }

  // ---------------------------------------------------------------- results

  lemma DoneStays(a: Tables, b: Tables, attempt: Id)
    requires DoneAttempt(a, attempt) && Evolves(a, b)
    ensures DoneAttempt(b, attempt)
  {
    assert RowEvolves(a.executions[a.attempts[attempt]], b.executions[a.attempts[attempt]]);
  }

  lemma DoneWas(a: Tables, b: Tables, attempt: Id)
    requires DoneAttempt(b, attempt) && DoneKept(a, b) && IndexOk(a) && IndexOk(b)
    ensures DoneAttempt(a, attempt)
  {
    Indexed(b, attempt);
    IndexedRow(a, b.attempts[attempt]);
  }

  lemma ResultsStay(a: Tables, b: Tables)
    requires ResultsOk(a) && Evolves(a, b) && DoneKept(a, b) && b.results == a.results && IndexOk(a) && IndexOk(b)
    ensures ResultsOk(b)
  {
    hide Evolves, DoneAttempt, DoneKept, IndexOk;
    assert forall e :: AcceptedResult(b, e) <==> AcceptedResult(a, e);
    forall x ensures DoneAttempt(b, x) <==> DoneAttempt(a, x) {
      if DoneAttempt(a, x) { DoneStays(a, b, x); }
      if DoneAttempt(b, x) { DoneWas(a, b, x); }
    }
    hide AcceptedResult;
  }

  /** What a received result adds: nothing, or one accepted result of a pending attempt. */
  lemma ResultAdds(t: Tables, attempt: Id, fence: nat, event: Id, payload: string, e: Event)
    requires IndexOk(t)
    ensures var r := ReceiveResult(t, attempt, fence, event, payload);
            var taken := r.Ok? && Event(attempt, event) !in t.results && r.tables.results[Event(attempt, event)].accepted;
            r.Ok? ==>
              && (AcceptedResult(r.tables, e) <==> AcceptedResult(t, e) || (taken && e == Event(attempt, event)))
              && (DoneAttempt(r.tables, e.attempt) <==> DoneAttempt(t, e.attempt) || (taken && e.attempt == attempt))
              && (taken ==> !DoneAttempt(t, attempt))
  {
    var r := ReceiveResult(t, attempt, fence, event, payload);
    if r.Ok? {
      Indexed(t, attempt);
      if e.attempt in t.attempts { Indexed(t, e.attempt); }
      hide IndexOk;
    }
  }

  lemma NewResult(t: Tables, attempt: Id, fence: nat, event: Id, payload: string)
    requires ResultsOk(t) && IndexOk(t)
    ensures var r := ReceiveResult(t, attempt, fence, event, payload); r.Ok? ==> ResultsOk(r.tables)
  {
    hide AcceptedResult, DoneAttempt, IndexOk, ReceiveResult;
    var r := ReceiveResult(t, attempt, fence, event, payload);
    if r.Ok? {
      var it := Event(attempt, event);
      ResultAdds(t, attempt, fence, event, payload, it);
      forall e: Event
        ensures AcceptedResult(r.tables, e) ==> AcceptedResult(t, e) || e == it
        ensures AcceptedResult(t, e) ==> AcceptedResult(r.tables, e)
        ensures DoneAttempt(r.tables, e.attempt) && e.attempt != attempt ==> DoneAttempt(t, e.attempt)
        ensures DoneAttempt(t, e.attempt) ==> DoneAttempt(r.tables, e.attempt)
      {
        ResultAdds(t, attempt, fence, event, payload, e);
      }
      forall a ensures DoneAttempt(r.tables, a) <==> exists e :: AcceptedResult(r.tables, e) && e.attempt == a {
        var probe := Event(a, event);
        assert DoneAttempt(r.tables, probe.attempt) && a != attempt ==> DoneAttempt(t, a);
        assert DoneAttempt(t, probe.attempt) ==> DoneAttempt(r.tables, a);
      }
    }
  }

  lemma NextResults(w: World, step: Step)
    requires ResultsOk(w.tables) && IndexOk(w.tables) && IndexOk(Next(w, step).tables)
    ensures ResultsOk(Next(w, step).tables)
  {
    hide IndexOk, Evolves, ResultsOk, ReceiveResult, DoneKept, SequencesKept, Decided;
    if step.ResultStep? {
      NewResult(w.tables, step.attempt, step.fence, step.event, step.payload);
    } else {
      OtherSteps(w, step);
      NextPlain(w, step);
      NextEvolves(w, step);
      hide Next;
      ResultsStay(w.tables, Next(w, step).tables);
    }
  }

  lemma ReachableIndex(w: World)
    requires Reachable(w)
    ensures IndexOk(w.tables) && Decided(w.tables) && WorldOk(w)
  {
    hide KeysOk, StartersOk, SupervisorsOk;
  }

  lemma {:induction false} RunResults(steps: seq<Step>)
    ensures ResultsOk(Run(Init, steps).tables)
  {
    hide Next, ResultsOk, Reachable, IndexOk;
    if steps == [] {
      assert ResultsOk(EmptyTables) by { NoResults(); }
    } else {
      RunResults(steps[..|steps| - 1]);
      FromInit(steps[..|steps| - 1]);
      ReachableIndex(Run(Init, steps[..|steps| - 1]));
      FromInit(steps);
      ReachableIndex(Run(Init, steps));
      NextResults(Run(Init, steps[..|steps| - 1]), steps[|steps| - 1]);
    }
  }

  lemma NoResults()
    ensures ResultsOk(EmptyTables)
  {
  }

  /** An attempt is done exactly when a result of it was accepted, and at most one ever is. */
  lemma AcceptedOnce(steps: seq<Step>, attempt: Id, e: Event, f: Event)
    ensures var t := Run(Init, steps).tables;
            && (DoneAttempt(t, attempt) <==> exists g :: AcceptedResult(t, g) && g.attempt == attempt)
            && (AcceptedResult(t, e) && AcceptedResult(t, f) && e.attempt == f.attempt ==> e == f)
  {
    hide Run, AcceptedResult, DoneAttempt;
    RunResults(steps);
  }

  lemma {:induction false} RunSplit(w: World, a: seq<Step>, b: seq<Step>)
    ensures Run(w, a + b) == Run(Run(w, a), b)
  {
    hide Next;
    if b == [] {
      assert a + b == a;
    } else {
      var whole := a + b;
      assert whole[..|whole| - 1] == a + b[..|b| - 1];
      assert whole[|whole| - 1] == b[|b| - 1];
      RunSplit(w, a, b[..|b| - 1]);
    }
  }

  predicate CancelledAttempt(t: Tables, attempt: Id) {
    attempt in t.attempts && t.attempts[attempt] in t.executions && t.executions[t.attempts[attempt]].cancelled
  }

  /** A cancelled attempt is done later only if it was done before. */
  lemma CancelDecides(t: Tables, u: Tables, attempt: Id)
    requires Evolves(t, u) && Decided(t) && CancelledAttempt(t, attempt) && DoneAttempt(u, attempt)
    ensures DoneAttempt(t, attempt)
  {
    assert RowEvolves(t.executions[t.attempts[attempt]], u.executions[t.attempts[attempt]]);
  }

  lemma AcceptedStays(t: Tables, u: Tables, e: Event)
    requires Evolves(t, u)
    ensures AcceptedResult(t, e) ==> AcceptedResult(u, e)
    ensures e in t.results ==> e in u.results && u.results[e] == t.results[e]
  {
  }

  /** After a cancellation no further result of the attempt is accepted; a stored decision is never revised. */
  lemma NothingAcceptedAfterCancel(steps: seq<Step>, later: seq<Step>, e: Event)
    ensures var t := Run(Init, steps).tables;
            var u := Run(Run(Init, steps), later).tables;
            && (e in t.results ==> e in u.results && u.results[e] == t.results[e])
            && (CancelledAttempt(t, e.attempt) ==> (AcceptedResult(u, e) <==> AcceptedResult(t, e)))
  {
    hide Run, WorldOk, IndexOk, AcceptedResult, DoneAttempt, CancelledAttempt, Evolves, Decided;
    var w := Run(Init, steps);
    RunSplit(Init, steps, later);
    RunResults(steps + later);
    RunResults(steps);
    FromInit(steps);
    RunEvolves(w, later);
    ReachableIndex(w);
    var t, u := w.tables, Run(w, later).tables;
    AcceptedStays(t, u, e);
    if CancelledAttempt(t, e.attempt) && AcceptedResult(u, e) {
      assert DoneAttempt(u, e.attempt);
      CancelDecides(t, u, e.attempt);
      var f :| AcceptedResult(t, f) && f.attempt == e.attempt;
      AcceptedStays(t, u, f);
      assert e == f;
    }
  }

  // ---------------------------------------------------------------- usage

  lemma SequencesSame(a: Tables, b: Tables, attempt: Id)
    requires b.usage == a.usage
    ensures Sequences(b, attempt) == Sequences(a, attempt)
  {
  }

  lemma UsageStays(a: Tables, b: Tables)
    requires UsageOk(a) && SequencesKept(a, b) && b.usage == a.usage && Keeps(a.attempts, b.attempts)
    ensures UsageOk(b)
  {
    hide Sequences;
    forall k | k in b.executions ensures Sequences(b, b.executions[k].manifest.id) == Counted(b.executions[k].usageSequence) {
      SequencesSame(a, b, b.executions[k].manifest.id);
      if k !in a.executions { NoEvents(a, b.executions[k].manifest.id); }
    }
  }

  lemma NoEvents(t: Tables, attempt: Id)
    requires UsageOk(t) && attempt !in t.attempts
    ensures Sequences(t, attempt) == {}
  {
  }

  /** One more event extends the numbers of its own attempt by one. */
  lemma OneMoreEvent(t: Tables, u: Tables, it: Event, n: nat, attempt: Id)
    requires it !in t.usage && it in u.usage && u.usage == t.usage[it := u.usage[it]] && u.usage[it].sequence == n
    ensures Sequences(u, attempt) == Sequences(t, attempt) + if attempt == it.attempt then {n} else {}
  {
    forall x | x in Sequences(t, attempt) ensures x in Sequences(u, attempt) {
      var e :| e in t.usage && e.attempt == attempt && t.usage[e].sequence == x;
      assert e in u.usage && u.usage[e].sequence == x;
    }
    if attempt == it.attempt { assert n in Sequences(u, attempt); }
  }

  lemma NewUsage(t: Tables, attempt: Id, fence: nat, event: Id, payload: string)
    requires UsageOk(t) && IndexOk(t)
    ensures var r := RecordUsage(t, attempt, fence, event, payload); r.Ok? ==> UsageOk(r.tables)
  {
    var r := RecordUsage(t, attempt, fence, event, payload);
    var it := Event(attempt, event);
    if r.Ok? && it !in t.usage {
      var key := t.attempts[attempt];
      CountsUp(t, r.tables, key, it);
    }
  }

  /** The row of an attempt counts one further, and its new event has that number. */
  lemma CountsUp(t: Tables, u: Tables, key: Key, it: Event)
    requires UsageOk(t) && IndexOk(t) && it.attempt in t.attempts && t.attempts[it.attempt] == key && key in t.executions
    requires it !in t.usage && it in u.usage && u.usage == t.usage[it := u.usage[it]] && u.attempts == t.attempts
    requires u.usage[it].sequence == t.executions[key].usageSequence + 1
    requires key in u.executions && u.executions == t.executions[key := u.executions[key]]
    requires u.executions[key].manifest == t.executions[key].manifest && u.executions[key].usageSequence == u.usage[it].sequence
    ensures UsageOk(u)
  {
    var n := t.executions[key].usageSequence;
    Indexed(t, it.attempt);
    assert Sequences(t, it.attempt) == Counted(n);
    hide IndexOk, Sequences;
    NewNumber(t, u, it, n);
    forall k | k in u.executions ensures Sequences(u, u.executions[k].manifest.id) == Counted(u.executions[k].usageSequence) {
      IndexedRow(t, k);
      OneMoreEvent(t, u, it, n + 1, u.executions[k].manifest.id);
    }
  }

  /** The next number is not in use. */
  lemma NewNumber(t: Tables, u: Tables, it: Event, n: nat)
    requires UsageOk(t) && Sequences(t, it.attempt) == Counted(n) && it !in t.usage
    requires it in u.usage && u.usage == t.usage[it := u.usage[it]] && u.usage[it].sequence == n + 1
    ensures forall e, f :: e in u.usage && f in u.usage && e.attempt == f.attempt && u.usage[e].sequence == u.usage[f].sequence ==> e == f
  {
    hide Sequences;
    forall e, f | e in u.usage && f in u.usage && e.attempt == f.attempt && u.usage[e].sequence == u.usage[f].sequence ensures e == f {
      NumbersBelow(t, it.attempt, n, e);
      NumbersBelow(t, it.attempt, n, f);
    }
  }

  lemma NumbersBelow(t: Tables, attempt: Id, n: nat, e: Event)
    requires Sequences(t, attempt) == Counted(n)
    ensures e in t.usage && e.attempt == attempt ==> t.usage[e].sequence <= n
  {
    if e in t.usage && e.attempt == attempt { assert t.usage[e].sequence in Sequences(t, attempt); }
  }

  lemma NextUsage(w: World, step: Step)
    requires UsageOk(w.tables) && IndexOk(w.tables)
    ensures UsageOk(Next(w, step).tables)
  {
    hide IndexOk, UsageOk, RecordUsage, DoneKept, SequencesKept, Decided, RowsEvolve, FencesRise, Keeps;
    if step.UsageStep? {
      NewUsage(w.tables, step.attempt, step.fence, step.event, step.payload);
    } else {
      OtherSteps(w, step);
      NextPlain(w, step);
      NextEvolves(w, step);
      hide Next;
      UsageStays(w.tables, Next(w, step).tables);
    }
  }

  /** Usage events are numbered without gap or repetition in every run, whatever was replayed. */
  lemma {:induction false} UsageIsContiguous(steps: seq<Step>)
    ensures UsageOk(Run(Init, steps).tables)
  {
    hide Next, UsageOk, Reachable, IndexOk;
    if steps == [] {
      assert UsageOk(EmptyTables) by { NoUsage(); }
    } else {
      UsageIsContiguous(steps[..|steps| - 1]);
      FromInit(steps[..|steps| - 1]);
      ReachableIndex(Run(Init, steps[..|steps| - 1]));
      NextUsage(Run(Init, steps[..|steps| - 1]), steps[|steps| - 1]);
    }
  }

  lemma NoUsage()
    ensures UsageOk(EmptyTables)
  {
  }

  // ---------------------------------------------------------------- what a current attempt has done

  /** The guard that holds an attempt's writer identity through a capture. */
  predicate FenceGuard(t: Tables, attempt: Id, fence: nat, authorization: Id) {
    attempt in t.attempts && t.attempts[attempt] in t.executions &&
    var row := t.executions[t.attempts[attempt]];
    && (row.state == Running || (row.state == Finished && row.exit.Some?)) && row.contained
    && row.activation.Some? && Binds(row.activation.value, row.manifest)
    && !row.cancelled && Enabled(t.controls, row.manifest)
    && fence == row.manifest.fence && authorization == row.manifest.authorization
  }

  /** The guard opens only for an attempt whose supervisor was granted the launch, and that finished only after launching. */
  lemma GuardMeansGranted(steps: seq<Step>, attempt: Id, fence: nat, authorization: Id)
    ensures var w := Run(Init, steps);
            FenceGuard(w.tables, attempt, fence, authorization) ==>
              var key := w.tables.attempts[attempt];
              && Claimed(key, true) in w.effects && Claimed(key, false) !in w.effects
              && (w.tables.executions[key].state == Finished ==> Launched(w.effects, key) == 1)
  {
    hide Run, WorldOk;
    var w := Run(Init, steps);
    FromInit(steps);
    if FenceGuard(w.tables, attempt, fence, authorization) { Unwrap(w, w.tables.attempts[attempt]); }
  }

  /**
   Accepting a result is looser than the guard: it does not ask whether the tool ever ran.  A recorded process or exit code
   proves that it did, and of a finished row the exit code decides.
   */
  lemma AcceptableMeans(steps: seq<Step>, attempt: Id, fence: nat)
    ensures var w := Run(Init, steps);
            attempt in w.tables.attempts && w.tables.attempts[attempt] in w.tables.executions &&
            Acceptable(w.tables, w.tables.executions[w.tables.attempts[attempt]], attempt, fence) ==>
              var key := w.tables.attempts[attempt];
              var row := w.tables.executions[key];
              && (row.exit.Some? || row.runner.Some? ==> Launched(w.effects, key) == 1)
              && (row.state == Finished ==> (Launched(w.effects, key) == 1 <==> row.exit.Some?))
  {
    hide Run, WorldOk;
    var w := Run(Init, steps);
    FromInit(steps);
    if attempt in w.tables.attempts { Unwrap(w, w.tables.attempts[attempt]); }
  }

  const Attempt := Manifest("a", 1, "auth", "budget")
  const Tool := Spec(["tool"], "/", 1.0)
  const Permit := Activation("p", "a", 1, "auth", "budget", 10.0)

  /** A control disabled before the claim, after which a result is accepted all the same. */
  const ResultWithoutTool: seq<Step> := [
    PrepareStep("k", Attempt, Tool), ControlStep("a", Control(1, "auth", true)),
    StartStep(0, "k", Permit, 0.0), StarterStep(0, 0.0, 0), StarterStep(0, 0.0, 7), ControlStep("a", Control(1, "auth", false)),
    SupervisorStep(7, 0.0, 0, false), SupervisorStep(7, 0.0, 0, false), ResultStep("a", 1, "e", "x")]

  lemma RunOne(w: World, steps: seq<Step>)
    requires |steps| > 0
    ensures Run(w, steps) == Run(Next(w, steps[0]), steps[1..])
  {
    RunSplit(w, [steps[0]], steps[1..]);
    assert [steps[0]] + steps[1..] == steps;
    assert Run(w, [steps[0]]) == Next(w, steps[0]) by { assert [steps[0]][..0] == []; }
  }

  const PreparedRow := NewRow(Attempt, Tool)
  const StartingRow := PreparedRow.(state := Starting, phase := Activated, activation := Some(Permit))
  const RefusedRow := StartingRow.(state := Finished, supervisor := Some(7), contained := true)

  function Only(row: Row, enabled: bool): Tables {
    Tables(map["k" := row], map["a" := "k"], map["a" := Control(1, "auth", enabled)], map[], map[], map[])
  }

  const Ready := World(Only(PreparedRow, true), map[], map[], [])
  const ToSpawnNow := World(Only(StartingRow, true), map[0 := Spawning("k")], map[], [])
  const Withdrawn :=
    World(Only(StartingRow, false), map[0 := Acknowledging("k", 7)], map[7 := Reading("k")], [SupervisorSpawned("k")])
  const Refused :=
    World(Only(RefusedRow, false), map[0 := Acknowledging("k", 7)], map[], [SupervisorSpawned("k"), Claimed("k", false)])

  lemma Readying()
    ensures Next(Next(Init, ResultWithoutTool[0]), ResultWithoutTool[1]) == Ready
  {
  }

  lemma Accepting()
    ensures Next(Next(Ready, ResultWithoutTool[2]), ResultWithoutTool[3]) == ToSpawnNow
  {
    var w := Next(Ready, ResultWithoutTool[2]);
    assert w.tables.executions["k"] == PreparedRow.(state := Accepted, phase := AcceptedPhase, activation := Some(Permit));
  }

  lemma Withdrawing()
    ensures Next(Next(ToSpawnNow, ResultWithoutTool[4]), ResultWithoutTool[5]) == Withdrawn
  {
  }

  lemma Refusing()
    ensures Next(Next(Withdrawn, ResultWithoutTool[6]), ResultWithoutTool[7]) == Refused
  {
    var w := Next(Withdrawn, ResultWithoutTool[6]);
    assert w.tables == Withdrawn.tables && w.supervisors == map[7 := Claiming("k")];
    assert !MayLaunch(w.tables, StartingRow, 0.0);
  }

  lemma RunTwo(w: World, steps: seq<Step>)
    requires |steps| > 1
    ensures Run(w, steps) == Run(Next(Next(w, steps[0]), steps[1]), steps[2..])
  {
    hide Run;
    RunOne(w, steps);
    RunOne(Next(w, steps[0]), steps[1..]);
    assert steps[1..][1..] == steps[2..];
  }

  /** A result can be accepted although the attempt's tool never ran. */
  lemma AcceptedWithoutTool()
    ensures var w := Run(Init, ResultWithoutTool);
            AcceptedResult(w.tables, Event("a", "e")) && Launched(w.effects, "k") == 0
  {
    hide Next, Run;
    Readying();
    Accepting();
    Withdrawing();
    Refusing();
    Chain(ResultWithoutTool, Init, Ready, ToSpawnNow, Withdrawn, Refused);
    AcceptsRefused();
  }

  lemma Chain(s: seq<Step>, a: World, b: World, c: World, d: World, e: World)
    requires |s| == 9 && Next(Next(a, s[0]), s[1]) == b && Next(Next(b, s[2]), s[3]) == c
    requires Next(Next(c, s[4]), s[5]) == d && Next(Next(d, s[6]), s[7]) == e
    ensures Run(a, s) == Next(e, s[8])
  {
    hide Next, Run;
    RunTwo(a, s);
    RunTwo(b, s[2..]);
    assert s[2..][2..] == s[4..];
    RunTwo(c, s[4..]);
    assert s[4..][2..] == s[6..];
    RunTwo(d, s[6..]);
    assert s[6..][2..] == s[8..];
    RunOne(e, s[8..]);
    assert s[8..][1..] == [];
    RunNone(Next(e, s[8]));
  }

  lemma RunNone(w: World)
    ensures Run(w, []) == w
  {
  }

  lemma AcceptsRefused()
    ensures var w := Next(Refused, ResultWithoutTool[8]);
            AcceptedResult(w.tables, Event("a", "e")) && Launched(w.effects, "k") == 0
  {
    assert Next(Refused, ResultWithoutTool[8]).effects == Refused.effects;
    assert Launched(Refused.effects, "k") == 0 by { NoToolYet(); }
    var t := Refused.tables;
    assert t.executions["k"] == RefusedRow && t.attempts["a"] == "k";
    assert Acceptable(t, RefusedRow, "a", 1);
    hide Launched, Acceptable, NewRow;
    assert ReceiveResult(t, "a", 1, "e", "x").tables.results == map[Event("a", "e") := Result(1, "x", true)];
  }

  lemma NoToolYet()
    ensures Launched(Refused.effects, "k") == 0
  {
    var first := [SupervisorSpawned("k")];
    OneMore([], SupervisorSpawned("k"), "k");
    OneMore(first, Claimed("k", false), "k");
    assert [] + first == first;
    assert first + [Claimed("k", false)] == Refused.effects;
  }

  // ---------------------------------------------------------------- the same with the launch granted

  /** The claim is granted, the supervisor dies before it launches, and a result is accepted all the same. */
  const ResultAfterDeath: seq<Step> := [
    PrepareStep("k", Attempt, Tool), ControlStep("a", Control(1, "auth", true)),
    StartStep(0, "k", Permit, 0.0), StarterStep(0, 0.0, 0), StarterStep(0, 0.0, 7), SupervisorStep(7, 0.0, 0, false),
    SupervisorStep(7, 0.0, 0, false), SupervisorDies(7), ResultStep("a", 1, "e", "x")]

  const GrantedRow := StartingRow.(state := Running, supervisor := Some(7), contained := true)

  const ToClaim :=
    World(Only(StartingRow, true), map[0 := Acknowledging("k", 7)], map[7 := Claiming("k")], [SupervisorSpawned("k")])
  const Granted :=
    World(Only(GrantedRow, true), map[0 := Acknowledging("k", 7)], map[], [SupervisorSpawned("k"), Claimed("k", true)])

  lemma Spawns()
    ensures Next(Next(ToSpawnNow, ResultAfterDeath[4]), ResultAfterDeath[5]) == ToClaim
  {
    var w := Next(ToSpawnNow, ResultAfterDeath[4]);
    assert w.tables == ToSpawnNow.tables && w.supervisors == map[7 := Reading("k")];
  }

  lemma Grants()
    ensures Next(Next(ToClaim, ResultAfterDeath[6]), ResultAfterDeath[7]) == Granted
  {
    assert MayLaunch(ToClaim.tables, StartingRow, 0.0);
    var w := Next(ToClaim, ResultAfterDeath[6]);
    assert w.tables == Only(GrantedRow, true) && w.supervisors == map[7 := Launching("k")];
  }

  lemma AcceptsGranted()
    ensures var w := Next(Granted, ResultAfterDeath[8]);
            && AcceptedResult(w.tables, Event("a", "e")) && w.effects == Granted.effects && "k" in w.tables.executions
            && w.tables.executions["k"].state == Running && Launched(w.effects, "k") == 0
  {
    var t := Granted.tables;
    assert Launched(Granted.effects, "k") == 0 by {
      var first := [SupervisorSpawned("k")];
      OneMore([], SupervisorSpawned("k"), "k");
      OneMore(first, Claimed("k", true), "k");
      assert [] + first == first && first + [Claimed("k", true)] == Granted.effects;
    }
    assert t.executions["k"] == GrantedRow && t.attempts["a"] == "k";
    assert Acceptable(t, GrantedRow, "a", 1);
    hide Launched, Acceptable, NewRow;
    assert ReceiveResult(t, "a", 1, "e", "x").tables.results == map[Event("a", "e") := Result(1, "x", true)];
  }

  /** Not even a running row proves that the tool ran. */
  lemma AcceptedAfterDeath()
    ensures var w := Run(Init, ResultAfterDeath);
            && AcceptedResult(w.tables, Event("a", "e")) && "k" in w.tables.executions
            && w.tables.executions["k"].state == Running && Launched(w.effects, "k") == 0
  {
    hide Next, Run;
    assert ResultAfterDeath[..4] == ResultWithoutTool[..4];
    assert ResultAfterDeath[0] == ResultWithoutTool[0] && ResultAfterDeath[1] == ResultWithoutTool[1];
    assert ResultAfterDeath[2] == ResultWithoutTool[2] && ResultAfterDeath[3] == ResultWithoutTool[3];
    Readying();
    Accepting();
    Spawns();
    Grants();
    Chain(ResultAfterDeath, Init, Ready, ToSpawnNow, ToClaim, Granted);
    AcceptsGranted();
  }
}
