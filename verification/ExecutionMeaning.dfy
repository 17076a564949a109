/**
 What the transactions and processes of the runner host decide, written out on the rows; which results count behind a
 fence; and that every prepared attempt can run to its end.
 */
module ExecutionMeaning {
  import opened Common
  import opened ExecutionModel
  import opened ExecutionSafety
  import opened ExecutionTheorems
  import opened ExecutionRecords

  /** The control stored for the manifest's attempt is enabled at exactly its fence and authorization. */
  predicate InForce(controls: map<Id, Control>, m: Manifest) {
    m.id in controls && controls[m.id] == Control(m.fence, m.authorization, true)
  }

  /** The activation names exactly this launch. */
  predicate NamesLaunch(a: Activation, m: Manifest) {
    a.attempt == m.id && a.fence == m.fence && a.authorization == m.authorization && a.budget == m.budget
  }

  lemma StartExactly(t: Tables, row: Row, a: Activation, now: Time)
    ensures MayStart(t, row, a, now) <==> !row.cancelled && InForce(t.controls, row.manifest) && now < a.expires
    ensures Enabled(t.controls, row.manifest) <==> InForce(t.controls, row.manifest)
    ensures Binds(a, row.manifest) <==> NamesLaunch(a, row.manifest)
  {
  }

  lemma LaunchExactly(t: Tables, row: Row, now: Time)
    ensures Enabled(t.controls, row.manifest) <==> InForce(t.controls, row.manifest)
    ensures MayLaunch(t, row, now) <==>
              !row.cancelled && InForce(t.controls, row.manifest) && row.activation.Some? && now < row.activation.value.expires
  {
  }

  /** An activation is accepted once, by an attempt that may start; the same one again is answered, another refused. */
  lemma AcceptExactly(t: Tables, key: Key, a: Activation, now: Time)
    requires key in t.executions
    ensures var row := t.executions[key];
            var r := Accept(t, key, a, now);
            var starts := !row.cancelled && InForce(t.controls, row.manifest) && now < a.expires && NamesLaunch(a, row.manifest);
            && (row.activation.Some? ==> r == if row.activation == Some(a) then Ok(t) else Err(ActivationMismatch))
            && (row.activation.None? ==> (r.Ok? <==> starts))
            && (row.activation.None? && r.Ok? ==> r.tables == t.(executions := r.tables.executions) && key in r.tables.executions)
            && (row.activation.None? && r.Ok? ==> r.tables.executions[key].activation == Some(a) && r.tables.executions[key].state == Accepted)
  {
  }

  // ---------------------------------------------------------------- transactions

  /** A launch is prepared if and only if key and attempt are new, or name exactly this launch already. */
  lemma PrepareExactly(t: Tables, key: Key, manifest: Manifest, spec: Spec)
    ensures var r := Prepare(t, key, manifest, spec);
            && (r.Ok? <==>
                  if key in t.executions then t.executions[key].manifest == manifest && t.executions[key].spec == spec
                  else manifest.id !in t.attempts)
            && (r.Ok? && key !in t.executions ==>
                  && key in r.tables.executions && r.tables.executions[key].state == Prepared && r.tables.executions[key].activation.None?
                  && !r.tables.executions[key].cancelled && r.tables.executions[key].business == Pending
                  && r.tables.executions[key].usageSequence == 0 && r.tables.executions[key].supervisor.None? && r.tables.executions[key].exit.None?)
  {
  }

  /** A first control is given if and only if key, fence and authorization are the row's, and it is prepared and uncancelled. */
  lemma InitializeExactly(t: Tables, attempt: Id, key: Key, fence: nat, authorization: Id)
    requires attempt in t.attempts && t.attempts[attempt] in t.executions
    ensures var row := t.executions[t.attempts[attempt]];
            var r := InitializeControl(t, attempt, key, fence, authorization);
            && (r.Ok? <==>
                  && t.attempts[attempt] == key && row.manifest.id == attempt && row.manifest.fence == fence
                  && row.manifest.authorization == authorization && !row.cancelled
                  && (attempt in t.controls ==> t.controls[attempt].fence == fence && t.controls[attempt].authorization == authorization)
                  && (attempt !in t.controls ==> row.state == Prepared && row.activation.None?))
            && (r.Ok? ==> r.tables.controls ==
                          if attempt in t.controls then t.controls else t.controls[attempt := Control(fence, authorization, true)])
  {
  }

  /** A result is acceptable if and only if the attempt is uncancelled, undecided, claimed, and the fence is the row's and the control's. */
  predicate Countable(t: Tables, row: Row, attempt: Id, fence: nat) {
    && !row.cancelled && row.business == Pending && (row.state == Running || row.state == Finished)
    && attempt in t.controls && t.controls[attempt].fence == fence && row.manifest.fence == fence
    && t.controls[attempt].authorization == row.manifest.authorization
  }

  lemma ResultExactly(t: Tables, attempt: Id, fence: nat, event: Id, payload: string)
    requires attempt in t.attempts && t.attempts[attempt] in t.executions
    ensures var row := t.executions[t.attempts[attempt]];
            var e := Event(attempt, event);
            var r := ReceiveResult(t, attempt, fence, event, payload);
            && (e in t.results ==> (r.Ok? <==> t.results[e].fence == fence && t.results[e].payload == payload) && (r.Ok? ==> r.tables == t))
            && (e !in t.results ==>
                  && r.Ok? && r.tables.results == t.results[e := Result(fence, payload, Countable(t, row, attempt, fence))]
                  && r.tables.executions ==
                     if Countable(t, row, attempt, fence) then t.executions[t.attempts[attempt] := row.(business := Done)] else t.executions)
  {
  }

  /** Cancelling is refused only for an unknown attempt, another binding, or a key used for another attempt. */
  lemma CancelExactly(t: Tables, attempt: Id, cancelKey: Key, bound: bool)
    ensures Cancel(t, attempt, cancelKey, bound).Ok? <==>
              && attempt in t.attempts && t.attempts[attempt] in t.executions && bound
              && (cancelKey in t.cancellations ==> t.cancellations[cancelKey] == attempt)
  {
  }

  lemma UsageExactly(t: Tables, attempt: Id, fence: nat, event: Id, payload: string, through: nat)
    requires attempt in t.attempts && t.attempts[attempt] in t.executions
    ensures var row, e := t.executions[t.attempts[attempt]], Event(attempt, event);
            var r := RecordUsage(t, attempt, fence, event, payload);
            && (r.Ok? <==> (e in t.usage ==> t.usage[e].fence == fence && t.usage[e].payload == payload))
            && (r.Ok? && e !in t.usage ==> r.tables.usage == t.usage[e := Usage(row.usageSequence + 1, fence, payload)])
    ensures var row := t.executions[t.attempts[attempt]];
            SettleUsage(t, attempt, through).Ok? <==> through == row.usageSequence
  {
  }

  /** The capture guard: a claimed attempt that has run or is running, current in every respect. */
  lemma GuardExactly(t: Tables, attempt: Id, fence: nat, authorization: Id)
    requires attempt in t.attempts && t.attempts[attempt] in t.executions
    ensures var row := t.executions[t.attempts[attempt]];
            FenceGuard(t, attempt, fence, authorization) <==>
              && (row.state == Running || (row.state == Finished && row.exit.Some?)) && row.contained
              && row.activation.Some? && NamesLaunch(row.activation.value, row.manifest)
              && !row.cancelled && InForce(t.controls, row.manifest)
              && fence == row.manifest.fence && authorization == row.manifest.authorization
  {
  }

  // ---------------------------------------------------------------- processes

  /** What must have been so for a start call to come to a point. */
  predicate StarterCameRightly(w: World, before: Starter, now: Time, pc: Starter) {
    match pc
    case Spawning(k) =>
      && before.Confirming? && before.key == k && k in w.tables.executions
      && !w.tables.executions[k].cancelled && InForce(w.tables.controls, w.tables.executions[k].manifest) && now < before.activation.expires
    case Acknowledging(k, _) => before == Spawning(k)
    case _ => true
  }

  /** What must have been so for a supervisor to come to a point. */
  predicate SupervisorCameRightly(w: World, before: Supervisor, now: Time, stop: bool, pc: Supervisor) {
    pc.key in w.tables.executions &&
    var row := w.tables.executions[pc.key];
    match pc
    case Claiming(k) => before == Reading(k) && row.state == Starting
    case Launching(k) =>
      && before == Claiming(k) && !row.cancelled && InForce(w.tables.controls, row.manifest)
      && row.activation.Some? && now < row.activation.value.expires
    case Registering(k, _) => before == Launching(k)
    case Watching(k) => before == Launching(k) || (before.Registering? && before.key == k)
    case Finishing(k, _) => before == Watching(k) && !row.cancelled && !stop
    case _ => true
  }

  lemma StarterIsRight(w: World, starter: nat, pc: Starter, now: Time, pid: nat)
    requires pc.key in w.tables.executions
    ensures var after := StarterMoves(w, starter, pc, now, pid);
            after != w && starter in after.starters ==> StarterCameRightly(w, pc, now, after.starters[starter])
  {
    if pc.Confirming? { StartExactly(w.tables, w.tables.executions[pc.key], pc.activation, now); }
    hide MayStart, InForce, Acknowledge;
  }

  lemma SupervisorIsRight(w: World, pid: nat, pc: Supervisor, now: Time, value: int, stop: bool)
    requires pc.key in w.tables.executions
    ensures var after := SupervisorMoves(w, pid, pc, now, value, stop);
            pid in after.supervisors ==> SupervisorCameRightly(w, pc, now, stop, after.supervisors[pid])
  {
    var row := w.tables.executions[pc.key];
    StartExactly(w.tables, row, if row.activation.Some? then row.activation.value else Activation("", "", 0, "", "", 0.0), now);
    hide MayLaunch, MayStart, Claim, Register, Finish, InForce;
  }

  // ---------------------------------------------------------------- behind the fence

  predicate FencedOff(t: Tables, attempt: Id) {
    attempt in t.attempts && t.attempts[attempt] in t.executions && attempt in t.controls &&
    t.executions[t.attempts[attempt]].manifest.fence < t.controls[attempt].fence
  }

  lemma FencedStays(a: Tables, b: Tables, attempt: Id)
    requires FencedOff(a, attempt) && Evolves(a, b)
    ensures FencedOff(b, attempt)
  {
    assert RowEvolves(a.executions[a.attempts[attempt]], b.executions[a.attempts[attempt]]);
  }

  lemma NextAcceptsNothing(w: World, step: Step, e: Event)
    requires FencedOff(w.tables, e.attempt)
    ensures AcceptedResult(Next(w, step).tables, e) ==> AcceptedResult(w.tables, e)
  {
    hide ReceiveResult, FencedOff, AcceptedResult;
    if step.ResultStep? {
      FencedAccepts(w.tables, step.attempt, step.fence, step.event, step.payload, e);
    } else {
      OtherSteps(w, step);
      hide Next;
      SameResults(w.tables, Next(w, step).tables, e);
    }
  }

  lemma SameResults(a: Tables, b: Tables, e: Event)
    requires b.results == a.results
    ensures AcceptedResult(b, e) <==> AcceptedResult(a, e)
  {
  }

  lemma FencedAccepts(t: Tables, attempt: Id, fence: nat, event: Id, payload: string, e: Event)
    requires FencedOff(t, e.attempt)
    ensures var r := ReceiveResult(t, attempt, fence, event, payload);
            r.Ok? ==> (AcceptedResult(r.tables, e) ==> AcceptedResult(t, e))
  {
    if attempt in t.attempts && t.attempts[attempt] in t.executions { ResultExactly(t, attempt, fence, event, payload); }
    hide ReceiveResult;
    if !(attempt in t.attempts && t.attempts[attempt] in t.executions) {
      assert !ReceiveResult(t, attempt, fence, event, payload).Ok? by { UnknownAttempt(t, attempt, fence, event, payload); }
    }
  }

  lemma UnknownAttempt(t: Tables, attempt: Id, fence: nat, event: Id, payload: string)
    requires !(attempt in t.attempts && t.attempts[attempt] in t.executions)
    ensures !ReceiveResult(t, attempt, fence, event, payload).Ok?
  {
  }

  lemma {:induction false} RunAcceptsNothing(w: World, later: seq<Step>, e: Event)
    requires Reachable(w) && FencedOff(w.tables, e.attempt)
    ensures FencedOff(Run(w, later).tables, e.attempt)
    ensures AcceptedResult(Run(w, later).tables, e) ==> AcceptedResult(w.tables, e)
  {
    hide Reachable, Next, FencedOff, AcceptedResult, Evolves, Decided;
    if later != [] {
      var before := Run(w, later[..|later| - 1]);
      RunAcceptsNothing(w, later[..|later| - 1], e);
      NextAcceptsNothing(before, later[|later| - 1], e);
      NextEvolves(before, later[|later| - 1]);
      FencedStays(before.tables, Run(w, later).tables, e.attempt);
    }
  }

  /** Once a control above the manifest's fence is stored, the accepted results of the attempt are those accepted before. */
  lemma NothingAcceptedBehindFence(steps: seq<Step>, later: seq<Step>, e: Event)
    ensures var t := Run(Init, steps).tables;
            var u := Run(Run(Init, steps), later).tables;
            FencedOff(t, e.attempt) ==> (AcceptedResult(u, e) <==> AcceptedResult(t, e))
  {
    hide Run, Reachable, FencedOff, Evolves;
    var w := Run(Init, steps);
    FromInit(steps);
    if FencedOff(w.tables, e.attempt) {
      RunAcceptsNothing(w, later, e);
      RunEvolves(w, later);
      AcceptedStays(w.tables, Run(w, later).tables, e);
    }
  }

  // ---------------------------------------------------------------- every attempt can run to its end

  ghost predicate LedTo(w: World) {
    exists steps :: Run(Init, steps) == w
  }

  lemma LedNext(w: World, s: Step)
    requires LedTo(w)
    ensures LedTo(Next(w, s))
  {
    hide Next;
    var steps :| Run(Init, steps) == w;
    assert (steps + [s])[..|steps|] == steps;
    assert Run(Init, steps + [s]) == Next(w, s);
  }

  function Permitted(m: Manifest): Activation {
    Activation("permit", m.id, m.fence, m.authorization, m.budget, 1.0)
  }

  /** The world of one attempt under its own control. */
  function Alone(m: Manifest, row: Row, starters: map<nat, Starter>, supervisors: map<nat, Supervisor>, effects: seq<Effect>): World {
    World(Tables(map["k" := row], map[m.id := "k"], map[m.id := Control(m.fence, m.authorization, true)], map[], map[], map[]),
          starters, supervisors, effects)
  }

  function Row0(m: Manifest, spec: Spec): Row { NewRow(m, spec) }
  function Row1(m: Manifest, spec: Spec): Row { Row0(m, spec).(state := Accepted, phase := AcceptedPhase, activation := Some(Permitted(m))) }
  function Row2(m: Manifest, spec: Spec): Row { Row1(m, spec).(state := Starting, phase := Activated) }
  function Row3(m: Manifest, spec: Spec): Row { Row2(m, spec).(state := Running, supervisor := Some(7), contained := true) }
  function Row4(m: Manifest, spec: Spec): Row { Row3(m, spec).(runner := Some(9)) }
  function Row5(m: Manifest, spec: Spec, code: int): Row { Row4(m, spec).(state := Finished, exit := Some(code)) }

  lemma LedToReady(m: Manifest, spec: Spec)
    ensures LedTo(Alone(m, Row0(m, spec), map[], map[], []))
  {
    assert Run(Init, []) == Init;
    var s1, s2 := PrepareStep("k", m, spec), ControlStep(m.id, Control(m.fence, m.authorization, true));
    LedNext(Init, s1);
    LedNext(Next(Init, s1), s2);
    assert Next(Next(Init, s1), s2) == Alone(m, Row0(m, spec), map[], map[], []);
  }

  const Waiting: map<nat, Starter> := map[0 := Acknowledging("k", 7)]

  lemma LedToSpawn(m: Manifest, spec: Spec)
    ensures LedTo(Alone(m, Row2(m, spec), map[0 := Spawning("k")], map[], []))
  {
    LedToReady(m, spec);
    var w0 := Alone(m, Row0(m, spec), map[], map[], []);
    var w1 := Alone(m, Row1(m, spec), map[0 := Confirming("k", Permitted(m))], map[], []);
    var w2 := Alone(m, Row2(m, spec), map[0 := Spawning("k")], map[], []);
    assert Next(w0, StartStep(0, "k", Permitted(m), 0.0)) == w1 by { Starts(m, spec); }
    assert Next(w1, StarterStep(0, 0.0, 7)) == w2 by { Confirms(m, spec); }
    hide Next;
    LedNext(w0, StartStep(0, "k", Permitted(m), 0.0));
    LedNext(w1, StarterStep(0, 0.0, 7));
  }

  lemma Starts(m: Manifest, spec: Spec)
    ensures Next(Alone(m, Row0(m, spec), map[], map[], []), StartStep(0, "k", Permitted(m), 0.0)) ==
            Alone(m, Row1(m, spec), map[0 := Confirming("k", Permitted(m))], map[], [])
  {
    assert map["k" := Row0(m, spec)]["k" := Row1(m, spec)] == map["k" := Row1(m, spec)];
  }

  lemma Confirms(m: Manifest, spec: Spec)
    ensures Next(Alone(m, Row1(m, spec), map[0 := Confirming("k", Permitted(m))], map[], []), StarterStep(0, 0.0, 7)) ==
            Alone(m, Row2(m, spec), map[0 := Spawning("k")], map[], [])
  {
    assert map["k" := Row1(m, spec)]["k" := Row2(m, spec)] == map["k" := Row2(m, spec)];
    assert map[0 := Confirming("k", Permitted(m))][0 := Spawning("k")] == map[0 := Spawning("k")];
  }

  lemma LedToLaunch(m: Manifest, spec: Spec)
    ensures LedTo(Alone(m, Row3(m, spec), Waiting, map[7 := Launching("k")], [SupervisorSpawned("k"), Claimed("k", true)]))
  {
    LedToSpawn(m, spec);
    var w2 := Alone(m, Row2(m, spec), map[0 := Spawning("k")], map[], []);
    var w3 := Alone(m, Row2(m, spec), Waiting, map[7 := Reading("k")], [SupervisorSpawned("k")]);
    var w4 := Alone(m, Row2(m, spec), Waiting, map[7 := Claiming("k")], [SupervisorSpawned("k")]);
    var w5 := Alone(m, Row3(m, spec), Waiting, map[7 := Launching("k")], [SupervisorSpawned("k"), Claimed("k", true)]);
    assert Next(w2, StarterStep(0, 0.0, 7)) == w3 by { SpawnsIt(m, spec); }
    assert Next(w3, SupervisorStep(7, 0.0, 0, false)) == w4 by { ReadsIt(m, spec); }
    assert Next(w4, SupervisorStep(7, 0.0, 0, false)) == w5 by { ClaimsIt(m, spec); }
    hide Next;
    LedNext(w2, StarterStep(0, 0.0, 7));
    LedNext(w3, SupervisorStep(7, 0.0, 0, false));
    LedNext(w4, SupervisorStep(7, 0.0, 0, false));
  }

  lemma SpawnsIt(m: Manifest, spec: Spec)
    ensures Next(Alone(m, Row2(m, spec), map[0 := Spawning("k")], map[], []), StarterStep(0, 0.0, 7)) ==
            Alone(m, Row2(m, spec), Waiting, map[7 := Reading("k")], [SupervisorSpawned("k")])
  {
    assert [] + [SupervisorSpawned("k")] == [SupervisorSpawned("k")];
    assert map[0 := Spawning("k")][0 := Acknowledging("k", 7)] == Waiting;
  }

  lemma ReadsIt(m: Manifest, spec: Spec)
    ensures Next(Alone(m, Row2(m, spec), Waiting, map[7 := Reading("k")], [SupervisorSpawned("k")]), SupervisorStep(7, 0.0, 0, false)) ==
            Alone(m, Row2(m, spec), Waiting, map[7 := Claiming("k")], [SupervisorSpawned("k")])
  {
    assert map[7 := Reading("k")][7 := Claiming("k")] == map[7 := Claiming("k")];
  }

  lemma ClaimsIt(m: Manifest, spec: Spec)
    ensures Next(Alone(m, Row2(m, spec), Waiting, map[7 := Claiming("k")], [SupervisorSpawned("k")]), SupervisorStep(7, 0.0, 0, false)) ==
            Alone(m, Row3(m, spec), Waiting, map[7 := Launching("k")], [SupervisorSpawned("k"), Claimed("k", true)])
  {
    var w := Alone(m, Row2(m, spec), Waiting, map[7 := Claiming("k")], [SupervisorSpawned("k")]);
    assert MayLaunch(w.tables, Row2(m, spec), 0.0);
    assert map["k" := Row2(m, spec)]["k" := Row3(m, spec)] == map["k" := Row3(m, spec)];
    assert map[7 := Claiming("k")][7 := Launching("k")] == map[7 := Launching("k")];
    assert [SupervisorSpawned("k")] + [Claimed("k", true)] == [SupervisorSpawned("k"), Claimed("k", true)];
  }

  const AllEffects: seq<Effect> := [SupervisorSpawned("k"), Claimed("k", true), ToolLaunched("k")]

  lemma LedToEnd(m: Manifest, spec: Spec, code: int)
    ensures LedTo(Alone(m, Row5(m, spec, code), Waiting, map[], AllEffects))
  {
    LedToLaunch(m, spec);
    var w5 := Alone(m, Row3(m, spec), Waiting, map[7 := Launching("k")], [SupervisorSpawned("k"), Claimed("k", true)]);
    var w6 := Alone(m, Row3(m, spec), Waiting, map[7 := Registering("k", 9)], AllEffects);
    var w7 := Alone(m, Row4(m, spec), Waiting, map[7 := Watching("k")], AllEffects);
    var w8 := Alone(m, Row4(m, spec), Waiting, map[7 := Finishing("k", code)], AllEffects);
    assert Next(w5, SupervisorStep(7, 0.0, 9, false)) == w6 by { LaunchesIt(m, spec); }
    assert Next(w6, SupervisorStep(7, 0.0, 0, false)) == w7 by { RegistersIt(m, spec); }
    assert Next(w7, SupervisorStep(7, 0.0, code, false)) == w8 by { WatchesIt(m, spec, code); }
    assert Next(w8, SupervisorStep(7, 0.0, 0, false)) == Alone(m, Row5(m, spec, code), Waiting, map[], AllEffects) by { FinishesIt(m, spec, code); }
    hide Next;
    LedNext(w5, SupervisorStep(7, 0.0, 9, false));
    LedNext(w6, SupervisorStep(7, 0.0, 0, false));
    LedNext(w7, SupervisorStep(7, 0.0, code, false));
    LedNext(w8, SupervisorStep(7, 0.0, 0, false));
  }

  lemma LaunchesIt(m: Manifest, spec: Spec)
    ensures Next(Alone(m, Row3(m, spec), Waiting, map[7 := Launching("k")], [SupervisorSpawned("k"), Claimed("k", true)]),
                 SupervisorStep(7, 0.0, 9, false)) ==
            Alone(m, Row3(m, spec), Waiting, map[7 := Registering("k", 9)], AllEffects)
  {
    assert map[7 := Launching("k")][7 := Registering("k", 9)] == map[7 := Registering("k", 9)];
    assert [SupervisorSpawned("k"), Claimed("k", true)] + [ToolLaunched("k")] == AllEffects;
  }

  lemma RegistersIt(m: Manifest, spec: Spec)
    ensures Next(Alone(m, Row3(m, spec), Waiting, map[7 := Registering("k", 9)], AllEffects), SupervisorStep(7, 0.0, 0, false)) ==
            Alone(m, Row4(m, spec), Waiting, map[7 := Watching("k")], AllEffects)
  {
    assert map["k" := Row3(m, spec)]["k" := Row4(m, spec)] == map["k" := Row4(m, spec)];
    assert map[7 := Registering("k", 9)][7 := Watching("k")] == map[7 := Watching("k")];
  }

  lemma WatchesIt(m: Manifest, spec: Spec, code: int)
    ensures Next(Alone(m, Row4(m, spec), Waiting, map[7 := Watching("k")], AllEffects), SupervisorStep(7, 0.0, code, false)) ==
            Alone(m, Row4(m, spec), Waiting, map[7 := Finishing("k", code)], AllEffects)
  {
    assert map[7 := Watching("k")][7 := Finishing("k", code)] == map[7 := Finishing("k", code)];
  }

  lemma FinishesIt(m: Manifest, spec: Spec, code: int)
    ensures Next(Alone(m, Row4(m, spec), Waiting, map[7 := Finishing("k", code)], AllEffects), SupervisorStep(7, 0.0, 0, false)) ==
            Alone(m, Row5(m, spec, code), Waiting, map[], AllEffects)
  {
    assert map["k" := Row4(m, spec)]["k" := Row5(m, spec, code)] == map["k" := Row5(m, spec, code)];
    assert map[7 := Finishing("k", code)] - {7} == map[];
  }

  /** Every launch can run to its end: one tool, its exit code on record, and its result accepted. */
  lemma CanRun(m: Manifest, spec: Spec, code: int, payload: string)
    ensures exists steps, key ::
              var w := Run(Init, steps);
              && key in w.tables.executions && w.tables.executions[key].manifest == m && w.tables.executions[key].spec == spec
              && w.tables.executions[key].exit == Some(code) && Launched(w.effects, key) == 1
              && AcceptedResult(w.tables, Event(m.id, "e")) && w.tables.results[Event(m.id, "e")].payload == payload
  {
    LedToEnd(m, spec, code);
    var w := Alone(m, Row5(m, spec, code), Waiting, map[], AllEffects);
    var s := ResultStep(m.id, m.fence, "e", payload);
    ResultExactly(w.tables, m.id, m.fence, "e", payload);
    LaunchedOnce();
    hide ReceiveResult, Launched;
    var after := Next(w, s);
    assert "k" in after.tables.executions && after.tables.executions["k"].exit == Some(code) && after.effects == AllEffects;
    assert AcceptedResult(after.tables, Event(m.id, "e")) && after.tables.results[Event(m.id, "e")].payload == payload;
    LedNext(w, s);
    hide Next;
    var steps :| Run(Init, steps) == after;
  }

  lemma LaunchedOnce()
    ensures Launched(AllEffects, "k") == 1
  {
    var one, two := [SupervisorSpawned("k")], [SupervisorSpawned("k"), Claimed("k", true)];
    OneMore([], SupervisorSpawned("k"), "k");
    OneMore(one, Claimed("k", true), "k");
    OneMore(two, ToolLaunched("k"), "k");
    assert [] + one == one && one + [Claimed("k", true)] == two && two + [ToolLaunched("k")] == AllEffects;
  }
}
