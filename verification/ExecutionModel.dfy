/**
 The runner host: its tables, its transactions, and the processes around them.

 A `start` call, the supervisor it spawns and the tool the supervisor launches are separate processes; each transaction
 and each process creation is one step, and a process may die between any two of them.
 */
module ExecutionModel {
  import opened Common

  type Id = string
  type Key = string
  type Time = real

  datatype Manifest = Manifest(id: Id, fence: nat, authorization: Id, budget: Id)
  datatype Spec = Spec(argv: seq<string>, cwd: string, timeout: Time)
  datatype Activation = Activation(id: Id, attempt: Id, fence: nat, authorization: Id, budget: Id, expires: Time)

  datatype State = Prepared | Accepted | Starting | Running | Finished | CancelledUnstarted
  datatype Phase = PreparedPhase | AcceptedPhase | Activated | Denied | Acknowledged
  datatype Business = Pending | Done | Cancelled

  datatype Row = Row(
    manifest: Manifest, spec: Spec, state: State, activation: Option<Activation>, cancelled: bool, phase: Phase,
    business: Business, supervisor: Option<nat>, contained: bool, runner: Option<nat>, exit: Option<int>,
    usageSequence: nat, usageSettled: bool)

  datatype Control = Control(fence: nat, authorization: Id, enabled: bool)

  datatype Event = Event(attempt: Id, event: Id)
  datatype Result = Result(fence: nat, payload: string, accepted: bool)
  datatype Usage = Usage(sequence: nat, fence: nat, payload: string)

  /** `attempts` is the unique index of the executions on their attempt. */
  datatype Tables = Tables(
    executions: map<Key, Row>, attempts: map<Id, Key>, controls: map<Id, Control>, cancellations: map<Key, Id>,
    results: map<Event, Result>, usage: map<Event, Usage>)

  const EmptyTables := Tables(map[], map[], map[], map[], map[], map[])

  datatype Error =
    | StartKeyMismatch | AttemptAlreadyPrepared | FenceRegression | NotFound | BindingMismatch | PreparedCancelled
    | PreparedRequired | AlreadyDifferent | ActivationMismatch | NotCurrent | CancelKeyMismatch | ResultMismatch
    | UsageMismatch | SequenceChanged
  datatype Outcome = Ok(tables: Tables) | Err(error: Error)

  function SetRow(t: Tables, key: Key, row: Row): Tables {
    t.(executions := t.executions[key := row])
  }

  // ---------------------------------------------------------------- preparation and control

  function NewRow(manifest: Manifest, spec: Spec): Row {
    Row(manifest, spec, Prepared, None, false, PreparedPhase, Pending, None, false, None, None, 0, false)
  }

  function Prepare(t: Tables, key: Key, manifest: Manifest, spec: Spec): Outcome {
    if key in t.executions then
      if t.executions[key].manifest != manifest || t.executions[key].spec != spec then Err(StartKeyMismatch) else Ok(t)
    else if manifest.id in t.attempts then Err(AttemptAlreadyPrepared)
    else Ok(SetRow(t, key, NewRow(manifest, spec)).(attempts := t.attempts[manifest.id := key]))
  }

  function SetControl(t: Tables, attempt: Id, control: Control): Outcome {
    if attempt in t.controls && t.controls[attempt].fence > control.fence then Err(FenceRegression)
    else Ok(t.(controls := t.controls[attempt := control]))
  }

  function InitializeControl(t: Tables, attempt: Id, key: Key, fence: nat, authorization: Id): Outcome {
    if attempt !in t.attempts || t.attempts[attempt] !in t.executions then Err(NotFound)
    else
      var row := t.executions[t.attempts[attempt]];
      if t.attempts[attempt] != key || row.manifest.id != attempt || row.manifest.fence != fence ||
         row.manifest.authorization != authorization
      then Err(BindingMismatch)
      else if row.cancelled then Err(PreparedCancelled)
      else if attempt !in t.controls then
        if row.state != Prepared || row.activation.Some? then Err(PreparedRequired)
        else Ok(t.(controls := t.controls[attempt := Control(fence, authorization, true)]))
      else if t.controls[attempt].fence != fence || t.controls[attempt].authorization != authorization then Err(AlreadyDifferent)
      else Ok(t)
  }

  // ---------------------------------------------------------------- starting

  /** The control in force lets this manifest run now. */
  predicate Enabled(controls: map<Id, Control>, manifest: Manifest) {
    && manifest.id in controls && controls[manifest.id].enabled && controls[manifest.id].fence == manifest.fence
    && controls[manifest.id].authorization == manifest.authorization
  }

  predicate Binds(activation: Activation, manifest: Manifest) {
    && activation.attempt == manifest.id && activation.fence == manifest.fence
    && activation.authorization == manifest.authorization && activation.budget == manifest.budget
  }

  predicate MayStart(t: Tables, row: Row, activation: Activation, now: Time) {
    !row.cancelled && Enabled(t.controls, row.manifest) && activation.expires > now
  }

  /** Accepts an activation once; a repetition changes nothing. */
  function Accept(t: Tables, key: Key, activation: Activation, now: Time): Outcome {
    if key !in t.executions then Err(NotFound)
    else
      var row := t.executions[key];
      if row.activation.Some? then if row.activation.value != activation then Err(ActivationMismatch) else Ok(t)
      else if !MayStart(t, row, activation, now) || !Binds(activation, row.manifest) then Err(NotCurrent)
      else Ok(SetRow(t, key, row.(state := Accepted, phase := AcceptedPhase, activation := Some(activation))))
  }

  /** The last check before the supervisor is spawned. */
  function Confirm(t: Tables, key: Key, activation: Activation, now: Time): Tables
    requires key in t.executions
  {
    var row := t.executions[key];
    if MayStart(t, row, activation, now) then SetRow(t, key, row.(state := Starting, phase := Activated))
    else SetRow(t, key, row.(state := CancelledUnstarted, phase := Denied))
  }

  function Acknowledge(t: Tables, key: Key, pid: Option<nat>): Tables
    requires key in t.executions
  {
    var row := t.executions[key];
    SetRow(t, key, row.(phase := Acknowledged, supervisor := if row.supervisor.Some? then row.supervisor else pid))
  }

  // ---------------------------------------------------------------- the supervisor

  predicate MayLaunch(t: Tables, row: Row, now: Time) {
    row.activation.Some? && MayStart(t, row, row.activation.value, now)
  }

  /** Claims the row for one supervisor; whether it may launch is decided in the same transaction. */
  function Claim(t: Tables, key: Key, pid: nat, now: Time): Tables
    requires key in t.executions
  {
    var row := t.executions[key];
    if row.state != Starting then t
    else SetRow(t, key, row.(supervisor := Some(pid), contained := true, state := if MayLaunch(t, row, now) then Running else Finished))
  }

  function Register(t: Tables, key: Key, pid: nat, runner: nat): Tables
    requires key in t.executions
  {
    var row := t.executions[key];
    if row.state != Running || row.runner.Some? || row.supervisor != Some(pid) then t
    else SetRow(t, key, row.(runner := Some(runner)))
  }

  function Finish(t: Tables, key: Key, code: int): Tables
    requires key in t.executions
  {
    SetRow(t, key, t.executions[key].(state := Finished, exit := Some(code)))
  }

  // ---------------------------------------------------------------- cancellation, results, usage

  /** `bound` is false when a caller's frozen binding does not match the row. */
  function Cancel(t: Tables, attempt: Id, cancelKey: Key, bound: bool): Outcome {
    if attempt !in t.attempts || t.attempts[attempt] !in t.executions then Err(NotFound)
    else if !bound then Err(BindingMismatch)
    else if cancelKey in t.cancellations && t.cancellations[cancelKey] != attempt then Err(CancelKeyMismatch)
    else
      var key := t.attempts[attempt];
      var row := t.executions[key];
      Ok(SetRow(t, key, row.(cancelled := true,
                             business := if row.business == Pending then Cancelled else row.business,
                             state := if row.state == Prepared then CancelledUnstarted else row.state)).(
         cancellations := t.cancellations[cancelKey := attempt],
         controls := if attempt in t.controls then t.controls[attempt := t.controls[attempt].(enabled := false)] else t.controls))
  }

  predicate Acceptable(t: Tables, row: Row, attempt: Id, fence: nat) {
    && !row.cancelled && row.business == Pending
    && attempt in t.controls && fence == row.manifest.fence && fence == t.controls[attempt].fence
    && t.controls[attempt].authorization == row.manifest.authorization
    && (row.state == Running || row.state == Finished)
  }

  function ReceiveResult(t: Tables, attempt: Id, fence: nat, event: Id, payload: string): Outcome {
    if attempt !in t.attempts || t.attempts[attempt] !in t.executions then Err(NotFound)
    else
      var key := t.attempts[attempt];
      var row := t.executions[key];
      var e := Event(attempt, event);
      if e in t.results then
        if t.results[e].fence != fence || t.results[e].payload != payload then Err(ResultMismatch) else Ok(t)
      else
        var accepted := Acceptable(t, row, attempt, fence);
        var saved := t.(results := t.results[e := Result(fence, payload, accepted)]);
        Ok(if accepted then SetRow(saved, key, row.(business := Done)) else saved)
  }

  function RecordUsage(t: Tables, attempt: Id, fence: nat, event: Id, payload: string): Outcome {
    if attempt !in t.attempts || t.attempts[attempt] !in t.executions then Err(NotFound)
    else
      var key := t.attempts[attempt];
      var row := t.executions[key];
      var e := Event(attempt, event);
      if e in t.usage then
        if t.usage[e].fence != fence || t.usage[e].payload != payload then Err(UsageMismatch) else Ok(t)
      else
        var sequence := row.usageSequence + 1;
        Ok(SetRow(t, key, row.(usageSequence := sequence, usageSettled := false)).(usage := t.usage[e := Usage(sequence, fence, payload)]))
  }

  function SettleUsage(t: Tables, attempt: Id, through: nat): Outcome {
    if attempt !in t.attempts || t.attempts[attempt] !in t.executions then Err(NotFound)
    else
      var key := t.attempts[attempt];
      var row := t.executions[key];
      if through != row.usageSequence then Err(SequenceChanged) else Ok(SetRow(t, key, row.(usageSettled := true)))
  }

  // ---------------------------------------------------------------- processes

  datatype Starter =
    | Confirming(key: Key, activation: Activation)
    | Spawning(key: Key)
    | Acknowledging(key: Key, pid: nat)

  datatype Supervisor =
    | Reading(key: Key)
    | Claiming(key: Key)
    | Launching(key: Key)
    | Registering(key: Key, runner: nat)
    | Watching(key: Key)
    | Finishing(key: Key, code: int)

  /** Process creations and claims, in order. */
  datatype Effect = SupervisorSpawned(key: Key) | ToolLaunched(key: Key) | Claimed(key: Key, launch: bool)

  datatype World = World(tables: Tables, starters: map<nat, Starter>, supervisors: map<nat, Supervisor>, effects: seq<Effect>)

  const Init := World(EmptyTables, map[], map[], [])

  datatype Step =
    | PrepareStep(key: Key, manifest: Manifest, spec: Spec)
    | ControlStep(attempt: Id, control: Control)
    | InitializeStep(attempt: Id, key: Key, fence: nat, authorization: Id)
    | StartStep(starter: nat, key: Key, activation: Activation, now: Time)
    | StarterStep(starter: nat, now: Time, pid: nat)
    | StarterDies(starter: nat)
    | SupervisorStep(pid: nat, now: Time, value: int, stop: bool)
    | SupervisorDies(pid: nat)
    | CancelStep(attempt: Id, cancelKey: Key, bound: bool)
    | ResultStep(attempt: Id, fence: nat, event: Id, payload: string)
    | UsageStep(attempt: Id, fence: nat, event: Id, payload: string)
    | SettleStep(attempt: Id, through: nat)

  function Commit(w: World, outcome: Outcome): World {
    if outcome.Ok? then w.(tables := outcome.tables) else w
  }

  function StarterGoes(w: World, starter: nat, pc: Starter): World {
    w.(starters := w.starters[starter := pc])
  }

  function StarterEnds(w: World, starter: nat): World {
    w.(starters := w.starters - {starter})
  }

  function SupervisorGoes(w: World, pid: nat, pc: Supervisor): World {
    w.(supervisors := w.supervisors[pid := pc])
  }

  function SupervisorEnds(w: World, pid: nat): World {
    w.(supervisors := w.supervisors - {pid})
  }

  /** A new call of `start`; only the call whose activation is accepted goes on to spawn. */
  function StartCall(w: World, starter: nat, key: Key, activation: Activation, now: Time): World {
    var accepted := Accept(w.tables, key, activation, now);
    if starter in w.starters || accepted.Err? || w.tables.executions[key].activation.Some? then w
    else StarterGoes(w.(tables := accepted.tables), starter, Confirming(key, activation))
  }

  function StarterMoves(w: World, starter: nat, pc: Starter, now: Time, pid: nat): World {
    if pc.key !in w.tables.executions then w
    else
      match pc
      case Confirming(key, activation) =>
        var confirmed := w.(tables := Confirm(w.tables, key, activation, now));
        if confirmed.tables.executions[key].state == Starting then StarterGoes(confirmed, starter, Spawning(key))
        else StarterEnds(confirmed, starter)
      case Spawning(key) =>
        // A process identity in use is never handed out again.
        if pid in w.supervisors then w
        else
          StarterGoes(SupervisorGoes(w.(effects := w.effects + [SupervisorSpawned(key)]), pid, Reading(key)), starter, Acknowledging(key, pid))
      case Acknowledging(key, id) => StarterEnds(w.(tables := Acknowledge(w.tables, key, Some(id))), starter)
  }

  function SupervisorMoves(w: World, pid: nat, pc: Supervisor, now: Time, value: int, stop: bool): World {
    if pc.key !in w.tables.executions then SupervisorEnds(w, pid)
    else
      var row := w.tables.executions[pc.key];
      match pc
      case Reading(key) => if row.state != Starting then SupervisorEnds(w, pid) else SupervisorGoes(w, pid, Claiming(key))
      case Claiming(key) =>
        var launch := MayLaunch(w.tables, row, now);
        var claimed := w.(tables := Claim(w.tables, key, pid, now), effects := w.effects + [Claimed(key, launch)]);
        if launch then SupervisorGoes(claimed, pid, Launching(key)) else SupervisorEnds(claimed, pid)
      case Launching(key) =>
        SupervisorGoes(w.(effects := w.effects + [ToolLaunched(key)]), pid, if value >= 0 then Registering(key, value) else Watching(key))
      case Registering(key, runner) => SupervisorGoes(w.(tables := Register(w.tables, key, pid, runner)), pid, Watching(key))
      case Watching(key) =>
        if row.cancelled || stop then SupervisorEnds(w, pid) else SupervisorGoes(w, pid, Finishing(key, value))
      case Finishing(key, code) => SupervisorEnds(w.(tables := Finish(w.tables, key, code)), pid)
  }

  function Next(w: World, s: Step): World {
    match s
    case PrepareStep(key, manifest, spec) => Commit(w, Prepare(w.tables, key, manifest, spec))
    case ControlStep(attempt, control) => Commit(w, SetControl(w.tables, attempt, control))
    case InitializeStep(attempt, key, fence, authorization) => Commit(w, InitializeControl(w.tables, attempt, key, fence, authorization))
    case StartStep(starter, key, activation, now) => StartCall(w, starter, key, activation, now)
    case StarterStep(starter, now, pid) =>
      if starter in w.starters then StarterMoves(w, starter, w.starters[starter], now, pid) else w
    case StarterDies(starter) => StarterEnds(w, starter)
    case SupervisorStep(pid, now, value, stop) =>
      if pid in w.supervisors then SupervisorMoves(w, pid, w.supervisors[pid], now, value, stop) else w
    case SupervisorDies(pid) => SupervisorEnds(w, pid)
    case CancelStep(attempt, cancelKey, bound) => Commit(w, Cancel(w.tables, attempt, cancelKey, bound))
    case ResultStep(attempt, fence, event, payload) => Commit(w, ReceiveResult(w.tables, attempt, fence, event, payload))
    case UsageStep(attempt, fence, event, payload) => Commit(w, RecordUsage(w.tables, attempt, fence, event, payload))
    case SettleStep(attempt, through) => Commit(w, SettleUsage(w.tables, attempt, through))
  }

  function Run(w: World, steps: seq<Step>): World {
    if steps == [] then w else Next(Run(w, steps[..|steps| - 1]), steps[|steps| - 1])
  }
}
