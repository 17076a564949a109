/**
 What the stored tables can and cannot tell about whether the tool of an attempt ever ran.
 */
module ExecutionTool {
  import opened Common
  import opened ExecutionModel
  import opened ExecutionSafety
  import opened ExecutionTheorems
  import opened ExecutionRecords

  /** The same world without the supervisor of an attempt, which died before it launched the tool. */
  ghost predicate Unlaunched(w: World, v: World, key: Key) {
    && v.tables == w.tables && v.starters == w.starters && Launched(v.effects, key) == 0
    && (forall p :: p in v.supervisors ==> p in w.supervisors && v.supervisors[p] == w.supervisors[p] && v.supervisors[p].key != key)
    && (forall p :: p in w.supervisors && w.supervisors[p].key != key ==> p in v.supervisors)
  }

  lemma RunMore(w: World, steps: seq<Step>, s: Step)
    ensures Run(w, steps + [s]) == Next(Run(w, steps), s)
  {
    hide Next;
    assert (steps + [s])[..|steps|] == steps;
  }

  // ---------------------------------------------------------------- after the launch

  /** How far the row of a launched attempt has come is never taken back. */
  predicate Further(a: Tables, b: Tables, key: Key) {
    && key in a.executions && key in b.executions
    && (a.executions[key].state == Finished ==> b.executions[key].state == Finished)
    && (a.executions[key].runner.Some? ==> b.executions[key].runner.Some?)
  }

  lemma QuietFurther(a: Tables, b: Tables, key: Key)
    requires Quiet(a, b) && key in a.executions
    ensures Further(a, b, key)
  {
  }

  lemma OtherRowFurther(t: Tables, k: Key, row: Row, key: Key)
    requires key in t.executions && (k != key || (row.state == t.executions[key].state || row.state == Finished))
    requires k != key || (t.executions[key].runner.Some? ==> row.runner.Some?)
    ensures Further(t, SetRow(t, k, row), key)
  {
  }

  lemma FurtherSelf(t: Tables, key: Key)
    requires key in t.executions
    ensures Further(t, t, key)
  {
  }

  /** A launched attempt is past every step of a start call but the acknowledgement. */
  lemma StarterPast(w: World, starter: nat, key: Key)
    requires WorldOk(w) && starter in w.starters && Launched(w.effects, key) == 1
    ensures w.starters[starter].Acknowledging? || w.starters[starter].key != key
  {
    hide WorldOk, Launched, Spawned, ToSpawn, ToLaunch, StarterOk;
    if !w.starters[starter].Acknowledging? { LoneStarter(w, starter); }
  }

  lemma SupervisorPast(w: World, pid: nat, key: Key)
    requires WorldOk(w) && pid in w.supervisors && Launched(w.effects, key) == 1
    ensures !BeforeLaunch(w.supervisors[pid]) || w.supervisors[pid].key != key
  {
    hide WorldOk, Launched, Spawned, ToSpawn, ToLaunch, SupervisorOk;
    if BeforeLaunch(w.supervisors[pid]) { LoneSupervisor(w, pid); }
  }

  lemma StarterFurther(w: World, starter: nat, pc: Starter, now: Time, pid: nat, key: Key)
    requires key in w.tables.executions && (pc.Acknowledging? || pc.key != key)
    ensures Further(w.tables, StarterMoves(w, starter, pc, now, pid).tables, key)
  {
    hide Further, SetRow, MayStart;
    FurtherSelf(w.tables, key);
    if pc.key in w.tables.executions {
      var t, row := w.tables, w.tables.executions[pc.key];
      match pc {
        case Confirming(k, activation) =>
          OtherRowFurther(t, k, row.(state := Starting, phase := Activated), key);
          OtherRowFurther(t, k, row.(state := CancelledUnstarted, phase := Denied), key);
        case Spawning(k) =>
        case Acknowledging(k, id) =>
          OtherRowFurther(t, k, row.(phase := Acknowledged, supervisor := if row.supervisor.Some? then row.supervisor else Some(id)), key);
      }
    }
  }

  lemma SupervisorFurther(w: World, pid: nat, pc: Supervisor, now: Time, value: int, stop: bool, key: Key)
    requires key in w.tables.executions && (!BeforeLaunch(pc) || pc.key != key)
    ensures Further(w.tables, SupervisorMoves(w, pid, pc, now, value, stop).tables, key)
  {
    hide Further, SetRow, MayLaunch;
    FurtherSelf(w.tables, key);
    if pc.key in w.tables.executions {
      var t, row := w.tables, w.tables.executions[pc.key];
      match pc {
        case Claiming(k) =>
          var launch := MayLaunch(t, row, now);
          OtherRowFurther(t, k, row.(supervisor := Some(pid), contained := true, state := if launch then Running else Finished), key);
        case Registering(k, runner) => OtherRowFurther(t, k, row.(runner := Some(runner)), key);
        case Finishing(k, code) => OtherRowFurther(t, k, row.(state := Finished, exit := Some(code)), key);
        case _ =>
      }
    }
  }

  lemma StartFurther(w: World, starter: nat, k: Key, activation: Activation, now: Time, key: Key)
    requires key in w.tables.executions && w.tables.executions[key].activation.Some?
    ensures Further(w.tables, StartCall(w, starter, k, activation, now).tables, key)
  {
    hide MayStart, Binds, SetRow, Further;
    FurtherSelf(w.tables, key);
    forall row: Row | k != key ensures Further(w.tables, SetRow(w.tables, k, row), key) { OtherRowFurther(w.tables, k, row, key); }
  }

  lemma NextFurther(w: World, step: Step, key: Key)
    requires WorldOk(w) && Launched(w.effects, key) == 1
    ensures key in w.tables.executions && Further(w.tables, Next(w, step).tables, key)
  {
    Unwrap(w, key);
    assert key in w.tables.executions && w.tables.executions[key].activation.Some?;
    IndexPart(w);
    var t := w.tables;
    hide WorldOk, Quiet, IndexOk, Prepare, SetControl, InitializeControl, Cancel, ReceiveResult, RecordUsage, SettleUsage,
      SupervisorMoves, StartCall, StarterMoves, Further, Launched;
    FurtherSelf(t, key);
    match step {
      case PrepareStep(k, manifest, spec) => PrepareQuiet(t, k, manifest, spec); FurtherIfQuiet(t, Next(w, step).tables, key);
      case ControlStep(attempt, control) => ControlQuiet(t, attempt, control); FurtherIfQuiet(t, Next(w, step).tables, key);
      case InitializeStep(attempt, k, fence, authorization) =>
        InitializeQuiet(t, attempt, k, fence, authorization); FurtherIfQuiet(t, Next(w, step).tables, key);
      case StartStep(starter, k, activation, now) => StartFurther(w, starter, k, activation, now, key);
      case StarterStep(starter, now, pid) => if starter in w.starters {
          StarterPast(w, starter, key);
          StarterFurther(w, starter, w.starters[starter], now, pid, key);
        }
      case SupervisorStep(pid, now, value, stop) => if pid in w.supervisors {
          SupervisorPast(w, pid, key);
          SupervisorFurther(w, pid, w.supervisors[pid], now, value, stop, key);
        }
      case CancelStep(attempt, cancelKey, bound) => CancelQuiet(t, attempt, cancelKey, bound); FurtherIfQuiet(t, Next(w, step).tables, key);
      case ResultStep(attempt, fence, event, payload) =>
        ResultQuiet(t, attempt, fence, event, payload); FurtherIfQuiet(t, Next(w, step).tables, key);
      case UsageStep(attempt, fence, event, payload) =>
        UsageQuiet(t, attempt, fence, event, payload); FurtherIfQuiet(t, Next(w, step).tables, key);
      case SettleStep(attempt, through) => SettleQuiet(t, attempt, through); FurtherIfQuiet(t, Next(w, step).tables, key);
      case _ =>
    }
  }

  lemma FurtherIfQuiet(a: Tables, b: Tables, key: Key)
    requires key in a.executions && (b == a || Quiet(a, b))
    ensures Further(a, b, key)
  {
    hide Quiet;
    if b == a { FurtherSelf(a, key); } else { QuietFurther(a, b, key); }
  }

  // ---------------------------------------------------------------- the same tables without the launch

  /** The launch itself, replaced by the death of the supervisor. */
  lemma DieInstead(w: World, pid: nat, now: Time, value: int, stop: bool, key: Key)
    requires WorldOk(w) && pid in w.supervisors && w.supervisors[pid] == Launching(key) && key in w.tables.executions
    ensures Unlaunched(Next(w, SupervisorStep(pid, now, value, stop)), Next(w, SupervisorDies(pid)), key)
  {
    LoneSupervisor(w, pid);
    hide WorldOk, Launched;
  }

  /** The launched supervisor of the attempt does something that shows in no table. */
  lemma SupervisorHidden(w: World, v: World, pid: nat, pc: Supervisor, now: Time, value: int, stop: bool, key: Key)
    requires Unlaunched(w, v, key) && pid in w.supervisors && w.supervisors[pid] == pc && pc.key == key && !BeforeLaunch(pc)
    requires var after := SupervisorMoves(w, pid, pc, now, value, stop).tables;
             key in after.executions && after.executions[key].state == Running && after.executions[key].runner.None?
    ensures Unlaunched(SupervisorMoves(w, pid, pc, now, value, stop), v, key)
  {
    hide Launched;
    assert SupervisorMoves(w, pid, pc, now, value, stop).tables == w.tables;
  }

  // ---------------------------------------------------------------- steps that do the same in both worlds

  lemma BothTables(w: World, v: World, t: Tables, key: Key)
    requires Unlaunched(w, v, key)
    ensures Unlaunched(w.(tables := t), v.(tables := t), key)
  {
  }

  lemma BothStarters(w: World, v: World, starters: map<nat, Starter>, key: Key)
    requires Unlaunched(w, v, key)
    ensures Unlaunched(w.(starters := starters), v.(starters := starters), key)
  {
  }

  lemma BothEffects(w: World, v: World, a: seq<Effect>, effect: Effect, key: Key)
    requires Unlaunched(w, v, key) && effect != ToolLaunched(key)
    ensures Unlaunched(w.(effects := a), v.(effects := v.effects + [effect]), key)
  {
    OneMore(v.effects, effect, key);
    hide Launched;
  }

  lemma BothGo(w: World, v: World, pid: nat, pc: Supervisor, key: Key)
    requires Unlaunched(w, v, key) && pc.key != key
    ensures Unlaunched(SupervisorGoes(w, pid, pc), SupervisorGoes(v, pid, pc), key)
  {
    hide Launched;
  }

  lemma BothEnd(w: World, v: World, pid: nat, key: Key)
    requires Unlaunched(w, v, key)
    ensures Unlaunched(SupervisorEnds(w, pid), SupervisorEnds(v, pid), key)
  {
    hide Launched;
  }

  lemma SameParts(w: World, v: World, key: Key)
    requires Unlaunched(w, v, key)
    ensures v.tables == w.tables && v.starters == w.starters
    ensures forall p :: p in v.supervisors ==> p in w.supervisors && v.supervisors[p] == w.supervisors[p]
    ensures forall p :: p in w.supervisors && w.supervisors[p].key != key ==> p in v.supervisors
  {
  }

  lemma SameStarter(w: World, v: World, starter: nat, pc: Starter, now: Time, pid: nat, key: Key)
    requires Unlaunched(w, v, key) && (pc.Acknowledging? || pc.key != key) && (pc.Spawning? ==> pid !in w.supervisors)
    ensures Unlaunched(StarterMoves(w, starter, pc, now, pid), StarterMoves(v, starter, pc, now, pid), key)
  {
    hide Unlaunched, Confirm, Acknowledge;
    SameParts(w, v, key);
    if pc.key in w.tables.executions {
      match pc {
        case Confirming(k, activation) =>
          var t := Confirm(w.tables, k, activation, now);
          BothTables(w, v, t, key);
          BothStarters(w.(tables := t), v.(tables := t), w.starters[starter := Spawning(k)], key);
          BothStarters(w.(tables := t), v.(tables := t), w.starters - {starter}, key);
        case Spawning(k) =>
          var effect := SupervisorSpawned(k);
          BothEffects(w, v, w.effects + [effect], effect, key);
          var w1, v1 := w.(effects := w.effects + [effect]), v.(effects := v.effects + [effect]);
          BothGo(w1, v1, pid, Reading(k), key);
          BothStarters(SupervisorGoes(w1, pid, Reading(k)), SupervisorGoes(v1, pid, Reading(k)),
                       w.starters[starter := Acknowledging(k, pid)], key);
        case Acknowledging(k, id) =>
          var t := Acknowledge(w.tables, k, Some(id));
          BothTables(w, v, t, key);
          BothStarters(w.(tables := t), v.(tables := t), w.starters - {starter}, key);
      }
    }
  }

  lemma SameSupervisor(w: World, v: World, pid: nat, pc: Supervisor, now: Time, value: int, stop: bool, key: Key)
    requires Unlaunched(w, v, key) && pc.key != key
    ensures Unlaunched(SupervisorMoves(w, pid, pc, now, value, stop), SupervisorMoves(v, pid, pc, now, value, stop), key)
  {
    hide Unlaunched, Claim, Register, Finish, MayLaunch;
    SameParts(w, v, key);
    BothEnd(w, v, pid, key);
    if pc.key in w.tables.executions {
      var row := w.tables.executions[pc.key];
      match pc {
        case Reading(k) => BothGo(w, v, pid, Claiming(k), key);
        case Claiming(k) =>
          var effect := Claimed(k, MayLaunch(w.tables, row, now));
          var t := Claim(w.tables, k, pid, now);
          BothEffects(w, v, w.effects + [effect], effect, key);
          BothTables(w.(effects := w.effects + [effect]), v.(effects := v.effects + [effect]), t, key);
          var w1, v1 := w.(tables := t, effects := w.effects + [effect]), v.(tables := t, effects := v.effects + [effect]);
          BothGo(w1, v1, pid, Launching(k), key);
          BothEnd(w1, v1, pid, key);
        case Launching(k) =>
          var effect := ToolLaunched(k);
          BothEffects(w, v, w.effects + [effect], effect, key);
          BothGo(w.(effects := w.effects + [effect]), v.(effects := v.effects + [effect]), pid,
                 if value >= 0 then Registering(k, value) else Watching(k), key);
        case Registering(k, runner) =>
          var t := Register(w.tables, k, pid, runner);
          BothTables(w, v, t, key);
          BothGo(w.(tables := t), v.(tables := t), pid, Watching(k), key);
        case Watching(k) => BothGo(w, v, pid, Finishing(k, value), key);
        case Finishing(k, code) =>
          var t := Finish(w.tables, k, code);
          BothTables(w, v, t, key);
          BothEnd(w.(tables := t), v.(tables := t), pid, key);
      }
    }
  }

  /** A spawn under a process identity in use does not happen. */
  predicate SpawnsTwice(w: World, step: Step) {
    step.StarterStep? && step.starter in w.starters && w.starters[step.starter].Spawning? && step.pid in w.supervisors
  }

  predicate MovesOwn(w: World, step: Step, key: Key) {
    step.SupervisorStep? && step.pid in w.supervisors && w.supervisors[step.pid].key == key
  }

  /** Every step but those of the attempt's own supervisor does the same in both worlds. */
  lemma SameStep(w: World, v: World, step: Step, key: Key)
    requires WorldOk(w) && Unlaunched(w, v, key) && Launched(w.effects, key) == 1
    requires !MovesOwn(w, step, key) && !SpawnsTwice(w, step)
    ensures Unlaunched(Next(w, step), Next(v, step), key)
  {
    hide WorldOk, Launched, Unlaunched, Prepare, SetControl, InitializeControl, Cancel, ReceiveResult, RecordUsage, SettleUsage, Accept,
      StarterMoves, SupervisorMoves;
    SameParts(w, v, key);
    match step {
      case StartStep(starter, k, activation, now) =>
        var accepted := Accept(w.tables, k, activation, now);
        if accepted.Ok? {
          BothTables(w, v, accepted.tables, key);
          BothStarters(w.(tables := accepted.tables), v.(tables := accepted.tables), w.starters[starter := Confirming(k, activation)], key);
        }
      case StarterStep(starter, now, pid) =>
        if starter in w.starters {
          StarterPast(w, starter, key);
          SameStarter(w, v, starter, w.starters[starter], now, pid, key);
        }
      case SupervisorStep(pid, now, value, stop) =>
        if pid in w.supervisors { SameSupervisor(w, v, pid, w.supervisors[pid], now, value, stop, key); }
      case StarterDies(starter) => BothStarters(w, v, w.starters - {starter}, key);
      case SupervisorDies(pid) => BothEnd(w, v, pid, key);
      case _ => BothTables(w, v, Next(w, step).tables, key);
    }
  }

  // ---------------------------------------------------------------- the theorem

  lemma OnlyLaunchCounts(w: World, step: Step, key: Key)
    requires Launched(w.effects, key) == 0 && Launched(Next(w, step).effects, key) == 1
    ensures step.SupervisorStep? && step.pid in w.supervisors && w.supervisors[step.pid] == Launching(key)
  {
    hide Prepare, SetControl, InitializeControl, Cancel, ReceiveResult, RecordUsage, SettleUsage, Accept, Confirm, Acknowledge,
      Claim, Register, Finish, MayLaunch, Launched, Spawned;
    if step.StarterStep? && step.starter in w.starters { OneMore(w.effects, SupervisorSpawned(w.starters[step.starter].key), key); }
    if step.SupervisorStep? && step.pid in w.supervisors {
      var k := w.supervisors[step.pid].key;
      OneMore(w.effects, ToolLaunched(k), key);
      OneMore(w.effects, Claimed(k, true), key);
      OneMore(w.effects, Claimed(k, false), key);
    }
  }

  /** A running row without a recorded process: launched, but nothing stored depends on it. */
  predicate Unrecorded(w: World, key: Key) {
    && Launched(w.effects, key) == 1 && key in w.tables.executions
    && w.tables.executions[key].state == Running && w.tables.executions[key].runner.None?
  }

  /** Whenever a launch has left no trace in the tables, some run without it ends in the very same tables. */
  lemma {:induction false} LaunchLeavesNoTrace(steps: seq<Step>, key: Key)
    requires Unrecorded(Run(Init, steps), key)
    ensures exists other :: Unlaunched(Run(Init, steps), Run(Init, other), key)
    decreases |steps|
  {
    hide Next, WorldOk, Decided, Unlaunched, Launched;
    NothingLaunched(key);
    if steps != [] {
      var before, s := steps[..|steps| - 1], steps[|steps| - 1];
      var w := Run(Init, before);
      FromInit(before);
      AtMostOneLaunch(before, key);
      if Launched(w.effects, key) == 0 {
        OnlyLaunchCounts(w, s, key);
        assert key in w.tables.executions by { LaunchingIsStored(w, s.pid, key); }
        DieInstead(w, s.pid, s.now, s.value, s.stop, key);
        RunMore(Init, before, SupervisorDies(s.pid));
      } else {
        NextFurther(w, s, key);
        assert Unrecorded(w, key) by { StillUnrecorded(w, s, key); }
        LaunchLeavesNoTrace(before, key);
        var other :| Unlaunched(w, Run(Init, other), key);
        OneStepMore(w, other, s, key);
      }
    }
  }

  lemma NothingLaunched(key: Key)
    ensures Launched([], key) == 0
  {
  }

  lemma LaunchingIsStored(w: World, pid: nat, key: Key)
    requires WorldOk(w) && pid in w.supervisors && w.supervisors[pid] == Launching(key)
    ensures key in w.tables.executions
  {
    hide WorldOk;
    LoneSupervisor(w, pid);
    Unwrap(w, key);
  }

  lemma StillUnrecorded(w: World, s: Step, key: Key)
    requires WorldOk(w) && Launched(w.effects, key) == 1 && Further(w.tables, Next(w, s).tables, key) && Unrecorded(Next(w, s), key)
    ensures Unrecorded(w, key)
  {
    hide WorldOk, Next, Launched;
    Unwrap(w, key);
  }

  lemma OneStepMore(w: World, other: seq<Step>, s: Step, key: Key)
    requires WorldOk(w) && Unlaunched(w, Run(Init, other), key) && Launched(w.effects, key) == 1 && Unrecorded(Next(w, s), key)
    ensures exists more :: Unlaunched(Next(w, s), Run(Init, more), key)
  {
    hide WorldOk, Unlaunched, Launched, Run, StarterMoves, SupervisorMoves;
    var v := Run(Init, other);
    if MovesOwn(w, s, key) {
      SupervisorPast(w, s.pid, key);
      SupervisorHidden(w, v, s.pid, w.supervisors[s.pid], s.now, s.value, s.stop, key);
      assert Unlaunched(Next(w, s), Run(Init, other), key);
    } else if SpawnsTwice(w, s) {
      assert Next(w, s) == w by { NoSecondSpawn(w, s); }
      assert Unlaunched(Next(w, s), Run(Init, other), key);
    } else {
      SameStep(w, v, s, key);
      RunMore(Init, other, s);
      assert Unlaunched(Next(w, s), Run(Init, other + [s]), key);
    }
  }

  lemma NoSecondSpawn(w: World, s: Step)
    requires SpawnsTwice(w, s)
    ensures Next(w, s) == w
  {
  }

  /** Every run that ends in these tables launched the tool of the attempt. */
  ghost predicate Proves(t: Tables, key: Key) {
    forall other :: Run(Init, other).tables == t ==> Launched(Run(Init, other).effects, key) == 1
  }

  /**
   The stored tables prove that the tool of an attempt ran if and only if they hold its process or its exit code: with
   either, it ran in every run that ends in them; with neither, some run ends in the very same tables without it.
   */
  lemma ToolRanExactly(steps: seq<Step>, key: Key)
    ensures var t := Run(Init, steps).tables;
            key in t.executions ==> (Proves(t, key) <==> t.executions[key].exit.Some? || t.executions[key].runner.Some?)
  {
    hide Run, WorldOk, Launched, Decided;
    var w := Run(Init, steps);
    var t := w.tables;
    if key in t.executions {
      var row := t.executions[key];
      if row.exit.Some? || row.runner.Some? {
        forall other | Run(Init, other).tables == t ensures Launched(Run(Init, other).effects, key) == 1 {
          FromInit(other);
          AtMostOneLaunch(other, key);
          Unwrap(Run(Init, other), key);
        }
      } else {
        FromInit(steps);
        AtMostOneLaunch(steps, key);
        Unwrap(w, key);
        if Launched(w.effects, key) == 1 {
          LaunchLeavesNoTrace(steps, key);
          var other :| Unlaunched(w, Run(Init, other), key);
          assert Run(Init, other).tables == t && Launched(Run(Init, other).effects, key) == 0;
        }
      }
    }
  }
}
