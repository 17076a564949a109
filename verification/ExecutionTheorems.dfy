/**
 The promises of the runner host over whole runs: launches, cancellation, results and usage.
 */
module ExecutionTheorems {
  import opened Common
  import opened ExecutionModel
  import opened ExecutionSafety

  /** However often a start is repeated and wherever a process dies, an attempt gets one supervisor and one tool at most. */
  lemma AtMostOneLaunch(steps: seq<Step>, key: Key)
    ensures var w := Run(Init, steps);
            && Launched(w.effects, key) <= Spawned(w.effects, key) <= 1
            && (Spawned(w.effects, key) == 1 ==> key in w.tables.executions && w.tables.executions[key].activation.Some?)
  {
    hide Run, WorldOk, StageOk;
    InitOk();
    RunKeeps(Init, steps);
    Unwrap(Run(Init, steps), key);
  }

  // ---------------------------------------------------------------- what no step takes back

  /** What a row never gives up. */
  predicate RowEvolves(a: Row, b: Row) {
    && b.manifest == a.manifest && b.spec == a.spec
    && (a.cancelled ==> b.cancelled)
    && (a.activation.Some? ==> b.activation == a.activation)
    && (a.business == Done ==> b.business == Done)
    && (a.cancelled && a.business != Pending ==> b.business == a.business)
    && (b.cancelled && !a.cancelled ==> b.business != Pending)
  }

  predicate RowsEvolve(a: map<Key, Row>, b: map<Key, Row>) {
    forall k :: k in a ==> k in b && RowEvolves(a[k], b[k])
  }

  predicate Keeps<K(==), V(==)>(a: map<K, V>, b: map<K, V>) {
    forall k :: k in a ==> k in b && b[k] == a[k]
  }

  predicate FencesRise(a: map<Id, Control>, b: map<Id, Control>) {
    forall k :: k in a ==> k in b && b[k].fence >= a[k].fence
  }

  /** Rows keep their binding, cancellation is for good, fences rise, and stored decisions stand. */
  predicate Evolves(a: Tables, b: Tables) {
    && RowsEvolve(a.executions, b.executions) && FencesRise(a.controls, b.controls)
    && Keeps(a.attempts, b.attempts) && Keeps(a.results, b.results) && Keeps(a.usage, b.usage)
  }

  /** A cancelled row is decided: its business is not pending. */
  predicate Decided(t: Tables) {
    forall k :: k in t.executions && t.executions[k].cancelled ==> t.executions[k].business != Pending
  }

  lemma EvolveRow(a: Tables, b: Tables, key: Key, row: Row)
    requires key in a.executions && RowEvolves(a.executions[key], row) && b.executions == a.executions[key := row]
    requires FencesRise(a.controls, b.controls)
    requires Keeps(a.attempts, b.attempts) && Keeps(a.results, b.results) && Keeps(a.usage, b.usage)
    ensures Evolves(a, b) && (Decided(a) ==> Decided(b))
  {
    hide Keeps, FencesRise;
  }

  lemma EvolveSame(a: Tables, b: Tables)
    requires b.executions == a.executions && FencesRise(a.controls, b.controls)
    requires Keeps(a.attempts, b.attempts) && Keeps(a.results, b.results) && Keeps(a.usage, b.usage)
    ensures Evolves(a, b) && (Decided(a) ==> Decided(b))
  {
    hide Keeps, FencesRise;
  }

  lemma KeepsSame(t: Tables)
    ensures Keeps(t.attempts, t.attempts) && Keeps(t.results, t.results) && Keeps(t.usage, t.usage) && FencesRise(t.controls, t.controls)
  {
  }

  lemma PrepareEvolves(t: Tables, key: Key, manifest: Manifest, spec: Spec)
    ensures var r := Prepare(t, key, manifest, spec); r.Ok? ==> Evolves(t, r.tables) && (Decided(t) ==> Decided(r.tables))
  {
    KeepsSame(t);
    hide Evolves, Decided, FencesRise;
    var r := Prepare(t, key, manifest, spec);
    if r.Ok? {
      if key in t.executions { EvolveSame(t, t); } else { EvolveNew(t, r.tables, key, NewRow(manifest, spec)); }
    }
  }

  lemma EvolveNew(a: Tables, b: Tables, key: Key, row: Row)
    requires key !in a.executions && !row.cancelled && b.executions == a.executions[key := row]
    requires FencesRise(a.controls, b.controls)
    requires Keeps(a.attempts, b.attempts) && Keeps(a.results, b.results) && Keeps(a.usage, b.usage)
    ensures Evolves(a, b) && (Decided(a) ==> Decided(b))
  {
    hide Keeps, FencesRise;
  }

  lemma ControlEvolves(t: Tables, attempt: Id, control: Control)
    ensures var r := SetControl(t, attempt, control); r.Ok? ==> Evolves(t, r.tables) && (Decided(t) ==> Decided(r.tables))
  {
    KeepsSame(t);
    var r := SetControl(t, attempt, control);
    if r.Ok? { EvolveSame(t, r.tables); }
  }

  lemma InitializeEvolves(t: Tables, attempt: Id, key: Key, fence: nat, authorization: Id)
    ensures var r := InitializeControl(t, attempt, key, fence, authorization);
            r.Ok? ==> Evolves(t, r.tables) && (Decided(t) ==> Decided(r.tables))
  {
    KeepsSame(t);
    var r := InitializeControl(t, attempt, key, fence, authorization);
    hide Decided, Evolves, Keeps;
    if r.Ok? { EvolveSame(t, r.tables); }
  }

  lemma CancelEvolves(t: Tables, attempt: Id, cancelKey: Key, bound: bool)
    ensures var r := Cancel(t, attempt, cancelKey, bound); r.Ok? ==> Evolves(t, r.tables) && (Decided(t) ==> Decided(r.tables))
  {
    KeepsSame(t);
    hide Evolves, Decided, Keeps;
    var r := Cancel(t, attempt, cancelKey, bound);
    if r.Ok? { EvolveRow(t, r.tables, t.attempts[attempt], r.tables.executions[t.attempts[attempt]]); }
  }

  lemma ResultEvolves(t: Tables, attempt: Id, fence: nat, event: Id, payload: string)
    ensures var r := ReceiveResult(t, attempt, fence, event, payload); r.Ok? ==> Evolves(t, r.tables) && (Decided(t) ==> Decided(r.tables))
  {
    KeepsSame(t);
    var r := ReceiveResult(t, attempt, fence, event, payload);
    hide Evolves, Decided, FencesRise;
    if r.Ok? {
      if r.tables.executions == t.executions {
        EvolveSame(t, r.tables);
      } else {
        EvolveRow(t, r.tables, t.attempts[attempt], r.tables.executions[t.attempts[attempt]]);
      }
    }
  }

  lemma UsageEvolves(t: Tables, attempt: Id, fence: nat, event: Id, payload: string)
    ensures var r := RecordUsage(t, attempt, fence, event, payload); r.Ok? ==> Evolves(t, r.tables) && (Decided(t) ==> Decided(r.tables))
  {
    KeepsSame(t);
    var r := RecordUsage(t, attempt, fence, event, payload);
    hide Evolves, Decided, FencesRise;
    if r.Ok? {
      if Event(attempt, event) in t.usage {
        EvolveSame(t, r.tables);
      } else {
        EvolveRow(t, r.tables, t.attempts[attempt], r.tables.executions[t.attempts[attempt]]);
      }
    }
  }

  lemma SettleEvolves(t: Tables, attempt: Id, through: nat)
    ensures var r := SettleUsage(t, attempt, through); r.Ok? ==> Evolves(t, r.tables) && (Decided(t) ==> Decided(r.tables))
  {
    KeepsSame(t);
    hide Evolves, Decided, Keeps, FencesRise;
    var r := SettleUsage(t, attempt, through);
    if r.Ok? { EvolveRow(t, r.tables, t.attempts[attempt], r.tables.executions[t.attempts[attempt]]); }
  }

  lemma SetRowEvolves(t: Tables, key: Key, row: Row)
    requires key in t.executions && RowEvolves(t.executions[key], row)
    ensures Evolves(t, SetRow(t, key, row)) && (Decided(t) ==> Decided(SetRow(t, key, row)))
  {
    KeepsSame(t);
    hide Evolves, Decided, Keeps, FencesRise;
    EvolveRow(t, SetRow(t, key, row), key, row);
  }

  /** The transactions of the processes rewrite one row. */
  lemma ProcessEvolves(t: Tables, key: Key, activation: Activation, now: Time, pid: nat, runner: nat, code: int)
    requires key in t.executions
    ensures Evolves(t, Confirm(t, key, activation, now)) && (Decided(t) ==> Decided(Confirm(t, key, activation, now)))
    ensures Evolves(t, Acknowledge(t, key, Some(pid))) && (Decided(t) ==> Decided(Acknowledge(t, key, Some(pid))))
    ensures Evolves(t, Claim(t, key, pid, now)) && (Decided(t) ==> Decided(Claim(t, key, pid, now)))
    ensures Evolves(t, Register(t, key, pid, runner)) && (Decided(t) ==> Decided(Register(t, key, pid, runner)))
    ensures Evolves(t, Finish(t, key, code)) && (Decided(t) ==> Decided(Finish(t, key, code)))
  {
    hide Evolves, Decided, MayStart, MayLaunch, SetRow, RowEvolves;
    KeepsSame(t);
    EvolveSame(t, t);
    forall row | RowEvolves(t.executions[key], row)
      ensures Evolves(t, SetRow(t, key, row)) && (Decided(t) ==> Decided(SetRow(t, key, row)))
    {
      SetRowEvolves(t, key, row);
    }
    var row := t.executions[key];
    Bookkeeping(row, row.(state := Starting, phase := Activated));
    Bookkeeping(row, row.(state := CancelledUnstarted, phase := Denied));
    Bookkeeping(row, row.(phase := Acknowledged, supervisor := if row.supervisor.Some? then row.supervisor else Some(pid)));
    Bookkeeping(row, row.(supervisor := Some(pid), contained := true, state := if MayLaunch(t, row, now) then Running else Finished));
    Bookkeeping(row, row.(runner := Some(runner)));
    Bookkeeping(row, row.(state := Finished, exit := Some(code)));
  }

  lemma Bookkeeping(a: Row, b: Row)
    requires b.manifest == a.manifest && b.spec == a.spec && b.cancelled == a.cancelled && b.activation == a.activation
    requires b.business == a.business
    ensures RowEvolves(a, b)
  {
  }

  lemma StartEvolves(w: World, starter: nat, key: Key, activation: Activation, now: Time)
    ensures var t := StartCall(w, starter, key, activation, now).tables;
            Evolves(w.tables, t) && (Decided(w.tables) ==> Decided(t))
  {
    hide Evolves, Decided, MayStart, Binds;
    KeepsSame(w.tables);
    EvolveSame(w.tables, w.tables);
    if key in w.tables.executions && w.tables.executions[key].activation.None? {
      var row := w.tables.executions[key];
      SetRowEvolves(w.tables, key, row.(state := Accepted, phase := AcceptedPhase, activation := Some(activation)));
    }
  }

  lemma StarterEvolves(w: World, starter: nat, pc: Starter, now: Time, pid: nat)
    requires pc.key in w.tables.executions
    ensures var t := StarterMoves(w, starter, pc, now, pid).tables;
            Evolves(w.tables, t) && (Decided(w.tables) ==> Decided(t))
  {
    hide Evolves, Decided, Confirm, Acknowledge;
    KeepsSame(w.tables);
    EvolveSame(w.tables, w.tables);
    match pc {
      case Confirming(key, activation) => ProcessEvolves(w.tables, key, activation, now, 0, 0, 0);
      case Spawning(key) =>
      case Acknowledging(key, id) => ProcessEvolves(w.tables, key, Activation("", "", 0, "", "", 0.0), now, id, 0, 0);
    }
  }

  lemma SupervisorEvolves(w: World, pid: nat, pc: Supervisor, now: Time, value: int, stop: bool)
    requires pc.key in w.tables.executions
    ensures var t := SupervisorMoves(w, pid, pc, now, value, stop).tables;
            Evolves(w.tables, t) && (Decided(w.tables) ==> Decided(t))
  {
    hide Evolves, Decided, MayLaunch, Claim, Register, Finish;
    KeepsSame(w.tables);
    EvolveSame(w.tables, w.tables);
    var runner := if pc.Registering? then pc.runner else 0;
    var code := if pc.Finishing? then pc.code else 0;
    ProcessEvolves(w.tables, pc.key, Activation("", "", 0, "", "", 0.0), now, pid, runner, code);
  }

  lemma NextEvolves(w: World, step: Step)
    ensures Evolves(w.tables, Next(w, step).tables) && (Decided(w.tables) ==> Decided(Next(w, step).tables))
  {
    hide Evolves, Decided, Prepare, SetControl, InitializeControl, Cancel, ReceiveResult, RecordUsage, SettleUsage, StartCall,
      Confirm, Acknowledge, Claim, Register, Finish, MayLaunch;
    assert Evolves(w.tables, w.tables) by { KeepsSame(w.tables); EvolveSame(w.tables, w.tables); }
    var t := w.tables;
    match step {
      case PrepareStep(key, manifest, spec) => PrepareEvolves(t, key, manifest, spec);
      case ControlStep(attempt, control) => ControlEvolves(t, attempt, control);
      case InitializeStep(attempt, key, fence, authorization) => InitializeEvolves(t, attempt, key, fence, authorization);
      case StartStep(starter, key, activation, now) =>
        StartEvolves(w, starter, key, activation, now);
      case StarterStep(starter, now, pid) =>
        if starter in w.starters && w.starters[starter].key in t.executions {
          StarterEvolves(w, starter, w.starters[starter], now, pid);
        }
      case StarterDies(starter) =>
      case SupervisorStep(pid, now, value, stop) =>
        if pid in w.supervisors && w.supervisors[pid].key in t.executions {
          SupervisorEvolves(w, pid, w.supervisors[pid], now, value, stop);
        }
      case SupervisorDies(pid) =>
      case CancelStep(attempt, cancelKey, bound) => CancelEvolves(t, attempt, cancelKey, bound);
      case ResultStep(attempt, fence, event, payload) => ResultEvolves(t, attempt, fence, event, payload);
      case UsageStep(attempt, fence, event, payload) => UsageEvolves(t, attempt, fence, event, payload);
      case SettleStep(attempt, through) => SettleEvolves(t, attempt, through);
    }
  }

  lemma EvolvesTransitive(a: Tables, b: Tables, c: Tables)
    requires Evolves(a, b) && Evolves(b, c) && Decided(a) && Decided(b)
    ensures Evolves(a, c)
  {
    forall k | k in a.executions ensures k in c.executions && RowEvolves(a.executions[k], c.executions[k]) {
      assert RowEvolves(a.executions[k], b.executions[k]) && RowEvolves(b.executions[k], c.executions[k]);
    }
  }

  /** The whole invariant of a reachable world. */
  ghost predicate Reachable(w: World) {
    WorldOk(w) && Decided(w.tables)
  }

  lemma {:induction false} RunEvolves(w: World, steps: seq<Step>)
    requires Reachable(w)
    ensures Reachable(Run(w, steps)) && Evolves(w.tables, Run(w, steps).tables)
  {
    hide WorldOk, Decided, Evolves, Next;
    if steps == [] {
      KeepsSame(w.tables);
      EvolveSame(w.tables, w.tables);
    } else {
      var before := Run(w, steps[..|steps| - 1]);
      RunEvolves(w, steps[..|steps| - 1]);
      NextEvolves(before, steps[|steps| - 1]);
      NextKeeps(before, steps[|steps| - 1]);
      EvolvesTransitive(w.tables, before.tables, Run(w, steps).tables);
    }
  }

  lemma FromInit(steps: seq<Step>)
    ensures Reachable(Run(Init, steps))
  {
    hide WorldOk, Run;
    InitOk();
    RunEvolves(Init, steps);
  }

  // ---------------------------------------------------------------- cancelled or fenced off

  /** The attempt is cancelled, or its control has moved to a later fence. */
  predicate Barred(t: Tables, key: Key) {
    key in t.executions &&
    var row := t.executions[key];
    row.cancelled || (row.manifest.id in t.controls && t.controls[row.manifest.id].fence > row.manifest.fence)
  }

  lemma BarredStays(a: Tables, b: Tables, key: Key)
    requires Barred(a, key) && Evolves(a, b)
    ensures Barred(b, key)
  {
    hide Keeps;
    assert RowEvolves(a.executions[key], b.executions[key]);
  }

  lemma BarredMayNotStart(t: Tables, key: Key, activation: Activation, now: Time)
    requires Barred(t, key)
    ensures !MayStart(t, t.executions[key], activation, now)
  {
  }

  /** A barred attempt gets no grant to launch. */
  lemma NextGrantsNothing(w: World, step: Step, key: Key)
    requires Barred(w.tables, key) && Claimed(key, true) !in w.effects
    ensures Claimed(key, true) !in Next(w, step).effects
  {
    hide Barred, MayStart, Prepare, SetControl, InitializeControl, Cancel, ReceiveResult, RecordUsage, SettleUsage, Accept, Confirm,
      Acknowledge, Claim, Register, Finish;
    if step.SupervisorStep? && step.pid in w.supervisors && w.supervisors[step.pid] == Claiming(key) && key in w.tables.executions {
      var row := w.tables.executions[key];
      if row.activation.Some? { BarredMayNotStart(w.tables, key, row.activation.value, step.now); }
    }
  }

  lemma {:induction false} RunGrantsNothing(w: World, later: seq<Step>, key: Key)
    requires Reachable(w) && Barred(w.tables, key) && Claimed(key, true) !in w.effects
    ensures Barred(Run(w, later).tables, key) && Claimed(key, true) !in Run(w, later).effects
  {
    hide WorldOk, Decided, Evolves, Barred, Next;
    if later != [] {
      var before := Run(w, later[..|later| - 1]);
      RunGrantsNothing(w, later[..|later| - 1], key);
      NextGrantsNothing(before, later[|later| - 1], key);
      NextEvolves(before, later[|later| - 1]);
      BarredStays(before.tables, Run(w, later).tables, key);
    }
  }

  /**
   If a cancellation, or a control with a later fence, commits before the supervisor's claim is granted, then no later
   control change, replay or crash ever leads to a launch of the tool.
   */
  lemma BarredNeverLaunches(steps: seq<Step>, later: seq<Step>, key: Key)
    ensures var w := Run(Init, steps);
            Barred(w.tables, key) && Claimed(key, true) !in w.effects ==> Launched(Run(w, later).effects, key) == 0
  {
    hide Run, WorldOk, Barred, Decided;
    FromInit(steps);
    var w := Run(Init, steps);
    if Barred(w.tables, key) && Claimed(key, true) !in w.effects {
      RunGrantsNothing(w, later, key);
      RunEvolves(w, later);
      Unwrap(Run(w, later), key);
    }
  }

  /** No supervisor has been spawned for the attempt and no start call is about to spawn one. */
  predicate Unspawned(w: World, key: Key) {
    Spawned(w.effects, key) == 0 && forall s :: s in w.starters ==> w.starters[s] != Spawning(key)
  }

  lemma NextSpawnsNothing(w: World, step: Step, key: Key)
    requires Barred(w.tables, key) && Unspawned(w, key)
    ensures Unspawned(Next(w, step), key)
  {
    hide Barred, Prepare, SetControl, InitializeControl, Cancel, ReceiveResult, RecordUsage, SettleUsage, Accept, Spawned,
      StarterMoves, SupervisorMoves;
    match step {
      case StarterStep(starter, now, pid) =>
        if starter in w.starters { StarterSpawnsNothing(w, starter, now, pid, key); }
      case SupervisorStep(pid, now, value, stop) =>
        if pid in w.supervisors { SupervisorSpawnsNothing(w, pid, w.supervisors[pid], now, value, stop, key); }
      case _ =>
    }
  }

  lemma StarterSpawnsNothing(w: World, starter: nat, now: Time, pid: nat, key: Key)
    requires Barred(w.tables, key) && Unspawned(w, key) && starter in w.starters
    ensures Unspawned(StarterMoves(w, starter, w.starters[starter], now, pid), key)
  {
    hide Barred, MayStart, Acknowledge, Spawned;
    var pc := w.starters[starter];
    OneMore(w.effects, SupervisorSpawned(pc.key), key);
    if pc.Confirming? && pc.key == key { BarredMayNotStart(w.tables, key, pc.activation, now); }
  }

  lemma SupervisorSpawnsNothing(w: World, pid: nat, pc: Supervisor, now: Time, value: int, stop: bool, key: Key)
    requires Unspawned(w, key)
    ensures Unspawned(SupervisorMoves(w, pid, pc, now, value, stop), key)
  {
    hide MayLaunch, Claim, Register, Finish, Spawned;
    OneMore(w.effects, ToolLaunched(pc.key), key);
    OneMore(w.effects, Claimed(pc.key, true), key);
    OneMore(w.effects, Claimed(pc.key, false), key);
  }

  /** If it commits before the last check of the start call, not even a supervisor is ever spawned. */
  lemma {:induction false} BarredNeverSpawns(w: World, later: seq<Step>, key: Key)
    requires Reachable(w) && Barred(w.tables, key) && Unspawned(w, key)
    ensures Barred(Run(w, later).tables, key) && Unspawned(Run(w, later), key)
  {
    hide WorldOk, Decided, Evolves, Barred, Unspawned, Next;
    if later != [] {
      var before := Run(w, later[..|later| - 1]);
      BarredNeverSpawns(w, later[..|later| - 1], key);
      NextSpawnsNothing(before, later[|later| - 1], key);
      NextEvolves(before, later[|later| - 1]);
      BarredStays(before.tables, Run(w, later).tables, key);
    }
  }

  // ---------------------------------------------------------------- cancelled unstarted

  predicate Unstarted(t: Tables, key: Key) {
    key in t.executions && t.executions[key].state == CancelledUnstarted
  }

  lemma QuietUnstarted(a: Tables, b: Tables, key: Key)
    requires Quiet(a, b) && Unstarted(a, key)
    ensures Unstarted(b, key)
  {
  }

  lemma ProcessUnstarted(w: World, step: Step, key: Key)
    requires WorldOk(w) && Unstarted(w.tables, key) && (step.StarterStep? || step.SupervisorStep? || step.StartStep?)
    ensures Unstarted(Next(w, step).tables, key)
  {
    hide WorldOk, CountsOk, MayStart, MayLaunch, Binds, StarterMoves, SupervisorMoves;
    Unwrap(w, key);
    var row := w.tables.executions[key];
    assert RowOk(row) && Spawned(w.effects, key) == 0;
    hide StageOk;
    match step {
      case StartStep(starter, k, activation, now) =>
        StartDenied(w.tables, row, activation, now);
      case StarterStep(starter, now, pid) =>
        if starter in w.starters {
          StarterPart(w, starter);
          StarterUnstarted(w, starter, w.starters[starter], now, pid, key);
        }
      case SupervisorStep(pid, now, value, stop) =>
        if pid in w.supervisors {
          SupervisorPart(w, pid);
          SupervisorUnstarted(w, pid, w.supervisors[pid], now, value, stop, key);
        }
    }
  }

  lemma StarterPart(w: World, starter: nat)
    requires WorldOk(w) && starter in w.starters
    ensures StarterOk(w, w.starters[starter])
  {
  }

  lemma SupervisorPart(w: World, pid: nat)
    requires WorldOk(w) && pid in w.supervisors
    ensures Spawned(w.effects, w.supervisors[pid].key) >= 1
  {
    assert SupervisorOk(w, w.supervisors[pid]);
  }

  lemma StarterUnstarted(w: World, starter: nat, pc: Starter, now: Time, pid: nat, key: Key)
    requires StarterOk(w, pc) && Unstarted(w.tables, key)
    ensures Unstarted(StarterMoves(w, starter, pc, now, pid).tables, key)
  {
    hide MayStart, SetRow, Unstarted;
    forall row: Row | pc.key != key || row.state == CancelledUnstarted ensures Unstarted(SetRow(w.tables, pc.key, row), key) {
      OtherRow(w.tables, pc.key, row, key);
    }
    StarterState(w, pc, key);
  }

  lemma StarterState(w: World, pc: Starter, key: Key)
    requires StarterOk(w, pc) && Unstarted(w.tables, key)
    ensures pc.key != key || (pc.Acknowledging? && w.tables.executions[pc.key].state == CancelledUnstarted)
  {
  }

  lemma OtherRow(t: Tables, k: Key, row: Row, key: Key)
    requires Unstarted(t, key) && (k != key || row.state == CancelledUnstarted)
    ensures Unstarted(SetRow(t, k, row), key)
  {
  }

  lemma SupervisorUnstarted(w: World, pid: nat, pc: Supervisor, now: Time, value: int, stop: bool, key: Key)
    requires pc.key != key && Unstarted(w.tables, key)
    ensures Unstarted(SupervisorMoves(w, pid, pc, now, value, stop).tables, key)
  {
    hide MayLaunch, SetRow, Unstarted;
    forall row ensures Unstarted(SetRow(w.tables, pc.key, row), key) {
      OtherRow(w.tables, pc.key, row, key);
    }
  }

  lemma StartDenied(t: Tables, row: Row, activation: Activation, now: Time)
    ensures row.cancelled ==> !MayStart(t, row, activation, now)
  {
  }

  lemma NextUnstarted(w: World, step: Step, key: Key)
    requires WorldOk(w) && Unstarted(w.tables, key)
    ensures Unstarted(Next(w, step).tables, key)
  {
    hide WorldOk, Quiet, IndexOk, Prepare, SetControl, InitializeControl, Cancel, ReceiveResult, RecordUsage, SettleUsage,
      SupervisorMoves, StartCall, StarterMoves, Unstarted;
    IndexPart(w);
    QuietSame(w.tables, w.tables);
    var t := w.tables;
    if step.StarterStep? || step.SupervisorStep? || step.StartStep? {
      ProcessUnstarted(w, step, key);
    } else {
      match step
      case PrepareStep(k, manifest, spec) => PrepareQuiet(t, k, manifest, spec); QuietUnstarted(t, Next(w, step).tables, key);
      case ControlStep(attempt, control) => ControlQuiet(t, attempt, control); QuietUnstarted(t, Next(w, step).tables, key);
      case InitializeStep(attempt, k, fence, authorization) =>
        InitializeQuiet(t, attempt, k, fence, authorization); QuietUnstarted(t, Next(w, step).tables, key);
      case CancelStep(attempt, cancelKey, bound) =>
        CancelQuiet(t, attempt, cancelKey, bound); QuietUnstarted(t, Next(w, step).tables, key);
      case ResultStep(attempt, fence, event, payload) =>
        ResultQuiet(t, attempt, fence, event, payload); QuietUnstarted(t, Next(w, step).tables, key);
      case UsageStep(attempt, fence, event, payload) =>
        UsageQuiet(t, attempt, fence, event, payload); QuietUnstarted(t, Next(w, step).tables, key);
      case SettleStep(attempt, through) => SettleQuiet(t, attempt, through); QuietUnstarted(t, Next(w, step).tables, key);
      case _ =>
    }
  }

  /** An attempt cancelled before it started stays so, and nothing is ever spawned for it. */
  lemma {:induction false} UnstartedForever(w: World, later: seq<Step>, key: Key)
    requires Reachable(w) && Unstarted(w.tables, key)
    ensures Unstarted(Run(w, later).tables, key)
    ensures Spawned(Run(w, later).effects, key) == 0 && Launched(Run(w, later).effects, key) == 0
  {
    hide WorldOk, Decided, Next;
    RunEvolves(w, later);
    if later != [] {
      UnstartedForever(w, later[..|later| - 1], key);
      RunEvolves(w, later[..|later| - 1]);
      NextUnstarted(Run(w, later[..|later| - 1]), later[|later| - 1], key);
    }
    Unwrap(Run(w, later), key);
  }
}
