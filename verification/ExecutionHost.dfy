/**
 The host object: its tables are fields, and each transaction of the host and of its supervisor is a method that rewrites
 them.  Every method equals its transaction in the launch protocol, keeps the invariant of the tables, and takes back
 nothing: bindings, activations, cancellations, fences and stored decisions stand.
 */
module ExecutionHost {
  import opened Common
  import opened ExecutionModel
  import opened ExecutionSafety
  import opened ExecutionTheorems
  import opened ExecutionRecords
  import opened ExecutionMeaning

  // ---------------------------------------------------------------- the invariant of the tables

  predicate RowsOk(t: Tables) {
    forall k :: k in t.executions ==> RowOk(t.executions[k])
  }

  /** One row per attempt, states that fit the activation, decided cancellations, one accepted result, numbered usage. */
  ghost predicate TablesOk(t: Tables) {
    IndexOk(t) && RowsOk(t) && Decided(t) && ResultsOk(t) && UsageOk(t)
  }

  /** What a transaction guarantees its caller about the tables before and after. */
  ghost predicate Sound(t: Tables, u: Tables) {
    TablesOk(u) && Evolves(t, u)
  }

  lemma EmptyOk()
    ensures TablesOk(EmptyTables)
  {
    NoResults();
    NoUsage();
  }

  lemma SoundSelf(t: Tables)
    requires TablesOk(t)
    ensures Sound(t, t)
  {
    hide TablesOk;
    KeepsSame(t);
    EvolveSame(t, t);
  }

  lemma QuietRows(t: Tables, u: Tables)
    requires RowsOk(t) && Quiet(t, u)
    ensures RowsOk(u)
  {
  }

  /** Transactions that leave results and usage alone. */
  lemma RecordsKept(t: Tables, u: Tables)
    requires TablesOk(t) && IndexOk(u) && RowsOk(u) && Decided(u) && Evolves(t, u)
    requires SequencesKept(t, u) && DoneKept(t, u) && u.results == t.results && u.usage == t.usage
    ensures Sound(t, u)
  {
    hide IndexOk, RowsOk, Decided, ResultsOk, UsageOk, SequencesKept, DoneKept, RowsEvolve, FencesRise, Keeps;
    ResultsStay(t, u);
    UsageStays(t, u);
  }

  /** Transactions that rewrite one row and leave its records alone. */
  lemma RowSound(t: Tables, key: Key, row: Row)
    requires TablesOk(t) && key in t.executions && RowEvolves(t.executions[key], row) && RowOk(row) && SameRecord(t.executions[key], row)
    ensures Sound(t, SetRow(t, key, row))
  {
    hide IndexOk, Decided, ResultsOk, UsageOk, Evolves, RowOk, RowEvolves, SequencesKept, DoneKept;
    var u := SetRow(t, key, row);
    RowOnly(t, key, row);
    IndexSame(t, u, key);
    SetRowEvolves(t, key, row);
    PlainRow(t, key, row);
    hide OnlyRow;
    RecordsKept(t, u);
  }

  lemma PrepareSound(t: Tables, key: Key, manifest: Manifest, spec: Spec)
    requires TablesOk(t)
    ensures var r := Prepare(t, key, manifest, spec); r.Ok? ==> Sound(t, r.tables)
  {
    assert Prepare(t, key, manifest, spec).Ok? ==>
             Prepare(t, key, manifest, spec).tables.results == t.results && Prepare(t, key, manifest, spec).tables.usage == t.usage;
    hide IndexOk, RowsOk, Decided, ResultsOk, UsageOk, Evolves, Quiet, SequencesKept, DoneKept, Prepare;
    PrepareQuiet(t, key, manifest, spec);
    PrepareEvolves(t, key, manifest, spec);
    PreparePlain(t, key, manifest, spec);
    var r := Prepare(t, key, manifest, spec);
    if r.Ok? {
      QuietRows(t, r.tables);
      RecordsKept(t, r.tables);
    }
  }

  /** A change of the controls alone. */
  lemma ControlsSound(t: Tables, u: Tables)
    requires TablesOk(t) && u == t.(controls := u.controls) && FencesRise(t.controls, u.controls)
    ensures Sound(t, u)
  {
    hide RowOk, ResultsOk, UsageOk, Evolves, SequencesKept, DoneKept, FencesRise, Keeps;
    KeepsSame(t);
    EvolveSame(t, u);
    QuietSame(t, u);
    PlainSame(t, u);
    hide IndexOk, Decided;
    RecordsKept(t, u);
  }

  lemma CancelSound(t: Tables, attempt: Id, cancelKey: Key, bound: bool)
    requires TablesOk(t)
    ensures var r := Cancel(t, attempt, cancelKey, bound); r.Ok? ==> Sound(t, r.tables)
  {
    assert Cancel(t, attempt, cancelKey, bound).Ok? ==>
             Cancel(t, attempt, cancelKey, bound).tables.results == t.results && Cancel(t, attempt, cancelKey, bound).tables.usage == t.usage;
    hide IndexOk, Decided, ResultsOk, UsageOk, Evolves, Quiet, SequencesKept, DoneKept, Cancel, RowOk;
    CancelQuiet(t, attempt, cancelKey, bound);
    CancelEvolves(t, attempt, cancelKey, bound);
    CancelPlain(t, attempt, cancelKey, bound);
    var r := Cancel(t, attempt, cancelKey, bound);
    if r.Ok? {
      QuietRows(t, r.tables);
      RecordsKept(t, r.tables);
    }
  }

  lemma ResultSound(t: Tables, attempt: Id, fence: nat, event: Id, payload: string)
    requires TablesOk(t)
    ensures var r := ReceiveResult(t, attempt, fence, event, payload); r.Ok? ==> Sound(t, r.tables)
  {
    assert ReceiveResult(t, attempt, fence, event, payload).Ok? ==> ReceiveResult(t, attempt, fence, event, payload).tables.usage == t.usage;
    hide IndexOk, RowsOk, Decided, ResultsOk, UsageOk, Quiet, SequencesKept, RowsEvolve, FencesRise, Keeps, ReceiveResult;
    ResultQuiet(t, attempt, fence, event, payload);
    ResultEvolves(t, attempt, fence, event, payload);
    ResultPlain(t, attempt, fence, event, payload);
    NewResult(t, attempt, fence, event, payload);
    var r := ReceiveResult(t, attempt, fence, event, payload);
    if r.Ok? {
      QuietRows(t, r.tables);
      UsageStays(t, r.tables);
    }
  }

  lemma UsageSound(t: Tables, attempt: Id, fence: nat, event: Id, payload: string)
    requires TablesOk(t)
    ensures var r := RecordUsage(t, attempt, fence, event, payload); r.Ok? ==> Sound(t, r.tables)
  {
    assert RecordUsage(t, attempt, fence, event, payload).Ok? ==> RecordUsage(t, attempt, fence, event, payload).tables.results == t.results;
    hide IndexOk, RowsOk, Decided, ResultsOk, UsageOk, Quiet, DoneKept, Evolves, RecordUsage;
    UsageQuiet(t, attempt, fence, event, payload);
    UsageEvolves(t, attempt, fence, event, payload);
    UsagePlain(t, attempt, fence, event, payload);
    NewUsage(t, attempt, fence, event, payload);
    var r := RecordUsage(t, attempt, fence, event, payload);
    if r.Ok? {
      QuietRows(t, r.tables);
      ResultsStay(t, r.tables);
    }
  }

  /** The attempt is cancelled and decided, its control disabled, and nothing may start it at any instant. */
  ghost predicate Stopped(t: Tables, u: Tables, attempt: Id) {
    attempt in u.attempts && u.attempts[attempt] in u.executions && u.attempts[attempt] in t.executions &&
    var row := u.executions[u.attempts[attempt]];
    && row.cancelled && row.business != Pending && (attempt in u.controls ==> !u.controls[attempt].enabled)
    && (t.executions[u.attempts[attempt]].state == Prepared ==> row.state == CancelledUnstarted)
    && forall activation, now :: !MayStart(u, row, activation, now)
  }

  lemma CancelStops(t: Tables, attempt: Id, cancelKey: Key, bound: bool)
    ensures var r := Cancel(t, attempt, cancelKey, bound); r.Ok? ==> Stopped(t, r.tables, attempt)
  {
  }

  lemma NewBinding(manifest: Manifest, spec: Spec)
    ensures NewRow(manifest, spec).manifest == manifest && NewRow(manifest, spec).spec == spec
  {
  }

  lemma Keyed(t: Tables, key: Key)
    requires TablesOk(t) && key in t.executions
    ensures t.executions[key].manifest.id in t.attempts && t.attempts[t.executions[key].manifest.id] == key
  {
    hide RowsOk, Decided, ResultsOk, UsageOk;
  }

  lemma RowIsOk(t: Tables, key: Key)
    requires TablesOk(t) && key in t.executions
    ensures RowOk(t.executions[key])
  {
    hide IndexOk, RowOk, Decided, ResultsOk, UsageOk;
  }

  lemma NumberedUpTo(t: Tables, key: Key)
    requires TablesOk(t) && key in t.executions
    ensures Sequences(t, t.executions[key].manifest.id) == Counted(t.executions[key].usageSequence)
  {
    hide IndexOk, RowsOk, Decided, ResultsOk, Sequences, Counted;
  }

  // ---------------------------------------------------------------- the object

  class RunnerHost {
    var executions: map<Key, Row>
    var attempts: map<Id, Key>
    var controls: map<Id, Control>
    var cancellations: map<Key, Id>
    var results: map<Event, Result>
    var usage: map<Event, Usage>

    function Stored(): Tables
      reads this
    {
      Tables(executions, attempts, controls, cancellations, results, usage)
    }

    ghost predicate Valid()
      reads this
    {
      TablesOk(Stored())
    }

    constructor ()
      ensures Valid() && Stored() == EmptyTables
    {
      executions, attempts, controls, cancellations, results, usage := map[], map[], map[], map[], map[], map[];
      new;
      EmptyOk();
    }

    /** The row of an attempt; in a valid store every indexed attempt has one, and it is bound to that attempt. */
    method Lookup(attempt: Id) returns (key: Option<Key>)
      requires Valid()
      ensures key == if attempt in attempts then Some(attempts[attempt]) else None
      ensures key.Some? ==> key.value in executions && executions[key.value].manifest.id == attempt
    {
      if attempt in attempts { Indexed(Stored(), attempt); }
      return if attempt in attempts then Some(attempts[attempt]) else None;
    }

    // -------------------------------------------------------------- preparation and control

    /** Afterwards the key and the attempt name one row with exactly this binding; no existing row changes. */
    method PrepareAttempt(key: Key, manifest: Manifest, spec: Spec) returns (error: Option<Error>)
      requires Valid()
      modifies this`executions, this`attempts
      ensures Valid() && Evolves(old(Stored()), Stored())
      ensures var r := Prepare(old(Stored()), key, manifest, spec);
              && (r.Ok? ==> error.None? && Stored() == r.tables)
              && (r.Err? ==> error == Some(r.error) && Stored() == old(Stored()))
      ensures error.None? ==>
                && key in executions && executions[key].manifest == manifest && executions[key].spec == spec
                && manifest.id in attempts && attempts[manifest.id] == key
      ensures forall k :: k in old(executions) ==> k in executions && executions[k] == old(executions)[k]
      ensures error.None? <==>
                if key in old(executions) then old(executions)[key].manifest == manifest && old(executions)[key].spec == spec
                else manifest.id !in old(attempts)
    {
      PrepareExactly(Stored(), key, manifest, spec);
      hide TablesOk, Evolves, NewRow;
      SoundSelf(Stored());
      PrepareSound(Stored(), key, manifest, spec);
      NewBinding(manifest, spec);
      if key in executions {
        assert executions[key].manifest.id in attempts && attempts[executions[key].manifest.id] == key by { Keyed(Stored(), key); }
        return if executions[key].manifest != manifest || executions[key].spec != spec then Some(StartKeyMismatch) else None;
      }
      if manifest.id in attempts { return Some(AttemptAlreadyPrepared); }
      executions := executions[key := NewRow(manifest, spec)];
      attempts := attempts[manifest.id := key];
      return None;
    }

    /** A control is replaced unless its fence would fall. */
    method ChangeControl(attempt: Id, control: Control) returns (error: Option<Error>)
      requires Valid()
      modifies this`controls
      ensures Valid() && Evolves(old(Stored()), Stored())
      ensures var r := SetControl(old(Stored()), attempt, control);
              && (r.Ok? ==> error.None? && Stored() == r.tables)
              && (r.Err? ==> error == Some(r.error) && Stored() == old(Stored()))
      ensures error.Some? <==> attempt in old(controls) && old(controls)[attempt].fence > control.fence
      ensures forall a :: a in old(controls) ==> a in controls && old(controls)[a].fence <= controls[a].fence
    {
      hide TablesOk, Evolves;
      SoundSelf(Stored());
      if attempt in controls && controls[attempt].fence > control.fence { return Some(FenceRegression); }
      ControlsSound(Stored(), Stored().(controls := controls[attempt := control]));
      controls := controls[attempt := control];
      return None;
    }

    /** Gives a prepared, uncancelled launch its first control; a control that is there, disabled or not, is never overwritten. */
    method InitializeControlOnce(attempt: Id, key: Key, fence: nat, authorization: Id) returns (error: Option<Error>)
      requires Valid()
      modifies this`controls
      ensures Valid() && Evolves(old(Stored()), Stored())
      ensures var r := InitializeControl(old(Stored()), attempt, key, fence, authorization);
              && (r.Ok? ==> error.None? && Stored() == r.tables)
              && (r.Err? ==> error == Some(r.error) && Stored() == old(Stored()))
      ensures forall a :: a in old(controls) ==> a in controls && controls[a] == old(controls)[a]
      ensures error.None? ==>
                && attempt in controls && controls[attempt].fence == fence && controls[attempt].authorization == authorization
                && key in executions && executions[key].manifest.id == attempt && !executions[key].cancelled
    {
      hide TablesOk, Evolves;
      SoundSelf(Stored());
      var found := Lookup(attempt);
      if found.None? { return Some(NotFound); }
      var row := executions[found.value];
      if found.value != key || row.manifest.id != attempt || row.manifest.fence != fence || row.manifest.authorization != authorization {
        return Some(BindingMismatch);
      }
      if row.cancelled { return Some(PreparedCancelled); }
      if attempt !in controls {
        if row.state != Prepared || row.activation.Some? { return Some(PreparedRequired); }
        ControlsSound(Stored(), Stored().(controls := controls[attempt := Control(fence, authorization, true)]));
        controls := controls[attempt := Control(fence, authorization, true)];
      } else if controls[attempt].fence != fence || controls[attempt].authorization != authorization {
        return Some(AlreadyDifferent);
      }
      return None;
    }

    // -------------------------------------------------------------- starting

    /**
     The first transaction of a start.  Success means this activation is the row's, for good; `mine`, that this very call
     made it so, under a current control and before it expired, so that no other call is ever entitled to spawn.
     */
    method AcceptActivation(key: Key, activation: Activation, now: Time) returns (error: Option<Error>, mine: bool)
      requires Valid()
      modifies this`executions
      ensures Valid() && Evolves(old(Stored()), Stored())
      ensures var r := Accept(old(Stored()), key, activation, now);
              && (r.Ok? ==> error.None? && Stored() == r.tables)
              && (r.Err? ==> error == Some(r.error) && Stored() == old(Stored()) && !mine)
      ensures error.None? ==> key in executions && executions[key].activation == Some(activation)
      ensures mine <==>
                && key in old(executions) && old(executions)[key].activation.None?
                && !old(executions)[key].cancelled && InForce(controls, old(executions)[key].manifest)
                && NamesLaunch(activation, old(executions)[key].manifest) && now < activation.expires
      ensures mine ==> key in executions && executions[key].state == Accepted && executions[key].phase == AcceptedPhase
      ensures error.None? <==> mine || (key in old(executions) && old(executions)[key].activation == Some(activation))
      ensures !mine ==> Stored() == old(Stored())
    {
      hide TablesOk, Evolves, Binds, NamesLaunch;
      SoundSelf(Stored());
      if key !in executions { return Some(NotFound), false; }
      var row := executions[key];
      StartExactly(Stored(), row, activation, now);
      if row.activation.Some? {
        return if row.activation.value != activation then Some(ActivationMismatch) else None, false;
      }
      if row.cancelled || row.manifest.id !in controls || !controls[row.manifest.id].enabled ||
         controls[row.manifest.id].fence != row.manifest.fence || controls[row.manifest.id].authorization != row.manifest.authorization ||
         !Binds(activation, row.manifest) || activation.expires <= now
      {
        return Some(NotCurrent), false;
      }
      RowSound(Stored(), key, row.(state := Accepted, phase := AcceptedPhase, activation := Some(activation)));
      executions := executions[key := row.(state := Accepted, phase := AcceptedPhase, activation := Some(activation))];
      return None, true;
    }

    /** The second transaction of a start: the supervisor is to be spawned exactly if the attempt may still start now. */
    method ConfirmStart(key: Key, activation: Activation, now: Time) returns (allowed: bool)
      requires Valid() && key in executions && executions[key].activation == Some(activation)
      modifies this`executions
      ensures Valid() && Evolves(old(Stored()), Stored())
      ensures Stored() == Confirm(old(Stored()), key, activation, now)
      ensures allowed <==> !executions[key].cancelled && InForce(controls, executions[key].manifest) && now < activation.expires
      ensures executions[key].state == if allowed then Starting else CancelledUnstarted
    {
      hide TablesOk, Evolves, Binds;
      var row := executions[key];
      RowIsOk(Stored(), key);
      StartExactly(Stored(), row, activation, now);
      allowed := !row.cancelled && Enabled(controls, row.manifest) && activation.expires > now;
      var next := row.(state := if allowed then Starting else CancelledUnstarted, phase := if allowed then Activated else Denied);
      RowSound(Stored(), key, next);
      executions := executions[key := next];
    }

    /** A supervisor that registered itself is not replaced. */
    method AcknowledgeSpawn(key: Key, pid: Option<nat>)
      requires Valid() && key in executions
      modifies this`executions
      ensures Valid() && Evolves(old(Stored()), Stored())
      ensures Stored() == Acknowledge(old(Stored()), key, pid)
      ensures executions[key].state == old(executions)[key].state
      ensures old(executions)[key].supervisor.Some? ==> executions[key].supervisor == old(executions)[key].supervisor
    {
      hide TablesOk, Evolves, Binds;
      var row := executions[key];
      RowIsOk(Stored(), key);
      var next := row.(phase := Acknowledged, supervisor := if row.supervisor.Some? then row.supervisor else pid);
      RowSound(Stored(), key, next);
      executions := executions[key := next];
    }

    // -------------------------------------------------------------- the supervisor

    /**
     The supervisor's claim.  It may launch only what is uncancelled, enabled at its own fence and unexpired in this very
     transaction; a row is claimed once, and one that may not launch is finished without an exit code.
     */
    method ClaimLaunch(key: Key, pid: nat, now: Time) returns (launch: bool)
      requires Valid() && key in executions
      modifies this`executions
      ensures Valid() && Evolves(old(Stored()), Stored())
      ensures Stored() == Claim(old(Stored()), key, pid, now)
      ensures launch <==>
                && !executions[key].cancelled && InForce(controls, executions[key].manifest)
                && executions[key].activation.Some? && now < executions[key].activation.value.expires
      ensures old(executions)[key].state == Starting ==>
                executions[key].supervisor == Some(pid) && executions[key].state == if launch then Running else Finished
      ensures executions[key].state != Starting
      ensures old(executions)[key].state != Starting ==> Stored() == old(Stored())
    {
      hide TablesOk, Evolves, Binds, Enabled, InForce, MayLaunch;
      SoundSelf(Stored());
      var row := executions[key];
      RowIsOk(Stored(), key);
      LaunchExactly(Stored(), row, now);
      launch := !row.cancelled && Enabled(controls, row.manifest) && row.activation.Some? && row.activation.value.expires > now;
      if row.state == Starting {
        var next := row.(supervisor := Some(pid), contained := true, state := if launch then Running else Finished);
        RowSound(Stored(), key, next);
        executions := executions[key := next];
      }
    }

    /** The tool's process is recorded once, for a running row, by the supervisor that claimed it. */
    method RegisterRunner(key: Key, pid: nat, runner: nat)
      requires Valid() && key in executions
      modifies this`executions
      ensures Valid() && Evolves(old(Stored()), Stored())
      ensures Stored() == Register(old(Stored()), key, pid, runner)
      ensures executions[key].runner ==
                if old(executions)[key].runner.None? && old(executions)[key].state == Running && old(executions)[key].supervisor == Some(pid)
                then Some(runner) else old(executions)[key].runner
      ensures executions[key].state == old(executions)[key].state
    {
      hide TablesOk, Evolves, Binds;
      SoundSelf(Stored());
      var row := executions[key];
      RowIsOk(Stored(), key);
      if row.state == Running && row.runner.None? && row.supervisor == Some(pid) {
        RowSound(Stored(), key, row.(runner := Some(runner)));
        executions := executions[key := row.(runner := Some(runner))];
      }
    }

    /** Only an activated row gets an exit code. */
    method RecordExit(key: Key, code: int)
      requires Valid() && key in executions && executions[key].activation.Some?
      modifies this`executions
      ensures Valid() && Evolves(old(Stored()), Stored())
      ensures Stored() == Finish(old(Stored()), key, code)
    {
      hide TablesOk, Evolves, Binds;
      RowIsOk(Stored(), key);
      RowSound(Stored(), key, executions[key].(state := Finished, exit := Some(code)));
      executions := executions[key := executions[key].(state := Finished, exit := Some(code))];
    }

    // -------------------------------------------------------------- cancellation, results, usage

    /**
     Afterwards the attempt is cancelled and decided, its control disabled, and no activation of it may start at any
     instant; if it was only prepared it is cancelled unstarted.
     */
    method CancelAttempt(attempt: Id, cancelKey: Key, bound: bool) returns (error: Option<Error>)
      requires Valid()
      modifies this
      ensures Valid() && Evolves(old(Stored()), Stored())
      ensures var r := Cancel(old(Stored()), attempt, cancelKey, bound);
              && (r.Ok? ==> error.None? && Stored() == r.tables)
              && (r.Err? ==> error == Some(r.error) && Stored() == old(Stored()))
      ensures error.None? ==> Stopped(old(Stored()), Stored(), attempt)
    {
      hide TablesOk, Evolves, Stopped;
      SoundSelf(Stored());
      CancelSound(Stored(), attempt, cancelKey, bound);
      CancelStops(Stored(), attempt, cancelKey, bound);
      var found := Lookup(attempt);
      if found.None? { return Some(NotFound); }
      if !bound { return Some(BindingMismatch); }
      if cancelKey in cancellations && cancellations[cancelKey] != attempt { return Some(CancelKeyMismatch); }
      cancellations := cancellations[cancelKey := attempt];
      var row := executions[found.value];
      executions := executions[found.value := row.(cancelled := true,
                                                   business := if row.business == Pending then Cancelled else row.business,
                                                   state := if row.state == Prepared then CancelledUnstarted else row.state)];
      if attempt in controls { controls := controls[attempt := controls[attempt].(enabled := false)]; }
      return None;
    }

    /**
     Receives a result once per event and returns the stored decision.  A first acceptance needs an uncancelled, undecided
     attempt at the current fence, and leaves it done; nothing decided before changes.
     */
    method TakeResult(attempt: Id, fence: nat, event: Id, payload: string) returns (error: Option<Error>, accepted: bool)
      requires Valid()
      modifies this`executions, this`results
      ensures Valid() && Evolves(old(Stored()), Stored())
      ensures var r := ReceiveResult(old(Stored()), attempt, fence, event, payload);
              && (r.Ok? ==> error.None? && Stored() == r.tables)
              && (r.Err? ==> error == Some(r.error) && Stored() == old(Stored()))
      ensures error.None? ==> Event(attempt, event) in results && accepted == results[Event(attempt, event)].accepted
      ensures error.None? ==> attempt in attempts && attempts[attempt] in old(executions) && attempts[attempt] in executions
      ensures error.None? && Event(attempt, event) !in old(results) ==>
                var row := old(executions)[attempts[attempt]];
                && (accepted <==>
                      && !row.cancelled && row.business == Pending && (row.state == Running || row.state == Finished)
                      && attempt in controls && controls[attempt].fence == fence && row.manifest.fence == fence
                      && controls[attempt].authorization == row.manifest.authorization)
                && executions[attempts[attempt]].business == if accepted then Done else row.business
      ensures Event(attempt, event) in old(results) ==> Stored() == old(Stored())
    {
      hide TablesOk, Evolves;
      SoundSelf(Stored());
      ResultSound(Stored(), attempt, fence, event, payload);
      if attempt in attempts && attempts[attempt] in executions { ResultExactly(Stored(), attempt, fence, event, payload); }
      var found := Lookup(attempt);
      if found.None? { return Some(NotFound), false; }
      var row, e := executions[found.value], Event(attempt, event);
      if e in results {
        if results[e].fence != fence || results[e].payload != payload { return Some(ResultMismatch), false; }
        return None, results[e].accepted;
      }
      accepted := Acceptable(Stored(), row, attempt, fence);
      results := results[e := Result(fence, payload, accepted)];
      if accepted { executions := executions[found.value := row.(business := Done)]; }
      error := None;
    }

    /** The guard of a capture: open exactly for a claimed, contained, current attempt that is running or ended with an exit code. */
    method HoldFence(attempt: Id, fence: nat, authorization: Id) returns (open: bool)
      requires Valid()
      ensures open <==>
                attempt in attempts && attempts[attempt] in executions &&
                var row := executions[attempts[attempt]];
                && (row.state == Running || (row.state == Finished && row.exit.Some?)) && row.contained
                && row.activation.Some? && NamesLaunch(row.activation.value, row.manifest)
                && !row.cancelled && InForce(controls, row.manifest)
                && fence == row.manifest.fence && authorization == row.manifest.authorization
      ensures open <==> FenceGuard(Stored(), attempt, fence, authorization)
    {
      var found := Lookup(attempt);
      if found.None? { return false; }
      GuardExactly(Stored(), attempt, fence, authorization);
      var row := executions[found.value];
      if (row.state != Running && row.state != Finished) || !row.contained || row.activation.None? || (row.state == Finished && row.exit.None?) {
        return false;
      }
      if !NamesLaunch(row.activation.value, row.manifest) { return false; }
      return !row.cancelled && InForce(controls, row.manifest) && fence == row.manifest.fence && authorization == row.manifest.authorization;
    }

    /** Numbers a usage event once, with the next number of its attempt, which is unsettled from then on. */
    method AddUsage(attempt: Id, fence: nat, event: Id, payload: string) returns (error: Option<Error>)
      requires Valid()
      modifies this`executions, this`usage
      ensures Valid() && Evolves(old(Stored()), Stored())
      ensures var r := RecordUsage(old(Stored()), attempt, fence, event, payload);
              && (r.Ok? ==> error.None? && Stored() == r.tables)
              && (r.Err? ==> error == Some(r.error) && Stored() == old(Stored()))
      ensures error.None? ==> Event(attempt, event) in usage && attempt in attempts && attempts[attempt] in executions
      ensures error.None? && Event(attempt, event) !in old(usage) ==>
                usage[Event(attempt, event)].sequence == executions[attempts[attempt]].usageSequence &&
                !executions[attempts[attempt]].usageSettled
      ensures Event(attempt, event) in old(usage) ==> Stored() == old(Stored())
    {
      hide TablesOk, Evolves;
      SoundSelf(Stored());
      UsageSound(Stored(), attempt, fence, event, payload);
      var found := Lookup(attempt);
      if found.None? { return Some(NotFound); }
      var row, e := executions[found.value], Event(attempt, event);
      if e in usage {
        return if usage[e].fence != fence || usage[e].payload != payload then Some(UsageMismatch) else None;
      }
      var sequence := row.usageSequence + 1;
      usage := usage[e := Usage(sequence, fence, payload)];
      executions := executions[found.value := row.(usageSequence := sequence, usageSettled := false)];
      return None;
    }

    /** Usage is settled only through all the events recorded so far: every number up to `through`, and none beyond. */
    method MarkSettled(attempt: Id, through: nat) returns (error: Option<Error>)
      requires Valid()
      modifies this`executions
      ensures Valid() && Evolves(old(Stored()), Stored())
      ensures var r := SettleUsage(old(Stored()), attempt, through);
              && (r.Ok? ==> error.None? && Stored() == r.tables)
              && (r.Err? ==> error == Some(r.error) && Stored() == old(Stored()))
      ensures error.None? ==> Sequences(Stored(), attempt) == Counted(through)
    {
      hide TablesOk, Evolves, Binds;
      SoundSelf(Stored());
      var found := Lookup(attempt);
      if found.None? { return Some(NotFound); }
      var row := executions[found.value];
      RowIsOk(Stored(), found.value);
      if through != row.usageSequence { return Some(SequenceChanged); }
      NumberedUpTo(Stored(), found.value);
      SequencesSame(Stored(), SetRow(Stored(), found.value, row.(usageSettled := true)), attempt);
      hide Sequences;
      RowSound(Stored(), found.value, row.(usageSettled := true));
      executions := executions[found.value := row.(usageSettled := true)];
      return None;
    }
  }
}
