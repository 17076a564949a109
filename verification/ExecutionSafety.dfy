/**
 The launch protocol in every reachable world: one supervisor and one tool per prepared attempt at most, and none once
 the attempt is cancelled or its fence has passed.
 */
module ExecutionSafety {
  import opened Common
  import opened ExecutionModel

  // ---------------------------------------------------------------- counting

  function Spawned(effects: seq<Effect>, key: Key): nat {
    Count(effects, SupervisorSpawned(key))
  }

  function Launched(effects: seq<Effect>, key: Key): nat {
    Count(effects, ToolLaunched(key))
  }

  /** The start calls that may still spawn a supervisor. */
  function ToSpawn(starters: map<nat, Starter>, key: Key): set<nat> {
    set s | s in starters && !starters[s].Acknowledging? && starters[s].key == key
  }

  predicate BeforeLaunch(pc: Supervisor) {
    pc.Reading? || pc.Claiming? || pc.Launching?
  }

  /** The supervisors that may still launch the tool. */
  function ToLaunch(supervisors: map<nat, Supervisor>, key: Key): set<nat> {
    set p | p in supervisors && BeforeLaunch(supervisors[p]) && supervisors[p].key == key
  }

  function Activations(t: Tables, key: Key): nat {
    if key in t.executions && t.executions[key].activation.Some? then 1 else 0
  }

  /** Every supervisor, spawned or to come, has its own activation; every tool, its own supervisor. */
  ghost predicate CountsOk(w: World, key: Key) {
    && Spawned(w.effects, key) + |ToSpawn(w.starters, key)| <= Activations(w.tables, key)
    && Launched(w.effects, key) + |ToLaunch(w.supervisors, key)| <= Spawned(w.effects, key)
  }

  // ---------------------------------------------------------------- states

  predicate RowOk(row: Row) {
    && (row.state == Prepared ==> row.activation.None? && !row.cancelled)
    && (row.activation.None? ==> row.state == Prepared || (row.state == CancelledUnstarted && row.cancelled))
    && (row.activation.Some? ==> Binds(row.activation.value, row.manifest))
  }

  predicate AfterSpawn(state: State) {
    state == Starting || state == Running || state == Finished
  }

  /** The claim log agrees with the stored state and exit code. */
  predicate ClaimsOk(row: Row, granted: bool, refused: bool, launched: bool) {
    && (launched ==> granted)
    && (row.exit.Some? ==> row.state == Finished && launched)
    && (row.runner.Some? ==> launched)
    && (row.state == Running ==> granted && !refused)
    && (row.state == Finished ==> granted == row.exit.Some? && refused == row.exit.None?)
    && (row.state != Running && row.state != Finished ==> !granted && !refused)
  }

  /** The stored state says how far the launch has come. */
  predicate StageOk(w: World, key: Key) {
    && (Spawned(w.effects, key) >= 1 ==> key in w.tables.executions && AfterSpawn(w.tables.executions[key].state))
    && (key !in w.tables.executions ==> Claimed(key, true) !in w.effects && Claimed(key, false) !in w.effects)
    && (key in w.tables.executions ==>
          && RowOk(w.tables.executions[key])
          && ClaimsOk(w.tables.executions[key], Claimed(key, true) in w.effects, Claimed(key, false) in w.effects,
                      Launched(w.effects, key) >= 1))
  }

  predicate StarterOk(w: World, pc: Starter) {
    && pc.key in w.tables.executions
    && (pc.Confirming? ==>
          w.tables.executions[pc.key].state == Accepted && w.tables.executions[pc.key].activation == Some(pc.activation))
    && (pc.Spawning? ==> w.tables.executions[pc.key].state == Starting)
  }

  predicate SupervisorOk(w: World, pc: Supervisor) {
    && Spawned(w.effects, pc.key) >= 1
    && (pc.Reading? || pc.Claiming? ==> pc.key in w.tables.executions && w.tables.executions[pc.key].state == Starting)
    && (pc.Launching? ==> Claimed(pc.key, true) in w.effects)
    && (!BeforeLaunch(pc) ==> Launched(w.effects, pc.key) >= 1 && Claimed(pc.key, true) in w.effects)
  }

  predicate StartersOk(w: World) {
    forall s :: s in w.starters ==> StarterOk(w, w.starters[s])
  }

  predicate SupervisorsOk(w: World) {
    forall p :: p in w.supervisors ==> SupervisorOk(w, w.supervisors[p])
  }

  predicate IndexOk(t: Tables) {
    && (forall a :: a in t.attempts ==> t.attempts[a] in t.executions && t.executions[t.attempts[a]].manifest.id == a)
    && (forall k :: k in t.executions ==> t.executions[k].manifest.id in t.attempts && t.attempts[t.executions[k].manifest.id] == k)
  }

  ghost predicate KeysOk(w: World) {
    forall key :: CountsOk(w, key) && StageOk(w, key)
  }

  ghost predicate WorldOk(w: World) {
    KeysOk(w) && StartersOk(w) && SupervisorsOk(w) && IndexOk(w.tables)
  }

  // ---------------------------------------------------------------- what a key looks like from outside

  /** Nothing the invariant says about this key has changed. */
  ghost predicate Same(a: World, b: World, key: Key) {
    && Spawned(b.effects, key) == Spawned(a.effects, key) && Launched(b.effects, key) == Launched(a.effects, key)
    && (forall l :: Claimed(key, l) in b.effects <==> Claimed(key, l) in a.effects)
    && ToSpawn(b.starters, key) == ToSpawn(a.starters, key)
    && ToLaunch(b.supervisors, key) == ToLaunch(a.supervisors, key)
    && (key in a.tables.executions <==> key in b.tables.executions)
    && (key in a.tables.executions ==> b.tables.executions[key] == a.tables.executions[key])
  }

  lemma SameOk(a: World, b: World, key: Key)
    requires Same(a, b, key) && CountsOk(a, key) && StageOk(a, key)
    ensures CountsOk(b, key) && StageOk(b, key)
  {
    assert forall l :: Claimed(key, l) in b.effects <==> Claimed(key, l) in a.effects;
  }

  lemma OneMore(effects: seq<Effect>, effect: Effect, key: Key)
    ensures Spawned(effects + [effect], key) == Spawned(effects, key) + if effect == SupervisorSpawned(key) then 1 else 0
    ensures Launched(effects + [effect], key) == Launched(effects, key) + if effect == ToolLaunched(key) then 1 else 0
  {
    CountOneMore(effects, effect, SupervisorSpawned(key));
    CountOneMore(effects, effect, ToolLaunched(key));
  }

  // ---------------------------------------------------------------- transactions that only touch a row's bookkeeping

  /** A row keeps its binding and its place in the launch; only a prepared row may be cancelled unstarted. */
  predicate QuietRow(a: Row, b: Row) {
    && b.manifest == a.manifest && b.activation == a.activation && b.exit == a.exit && b.runner == a.runner && (a.cancelled ==> b.cancelled)
    && (b.state == a.state || (a.state == Prepared && b.state == CancelledUnstarted && b.cancelled))
    && (b.cancelled && a.state == Prepared ==> b.state == CancelledUnstarted || a.cancelled)
  }

  predicate Quiet(a: Tables, b: Tables) {
    && (forall k :: k in a.executions ==> k in b.executions && QuietRow(a.executions[k], b.executions[k]))
    && (forall k :: k in b.executions && k !in a.executions ==>
          b.executions[k] == NewRow(b.executions[k].manifest, b.executions[k].spec))
  }

  lemma QuietKeeps(w: World, t: Tables)
    requires WorldOk(w) && Quiet(w.tables, t) && IndexOk(t)
    ensures WorldOk(w.(tables := t))
  {
    hide IndexOk;
    var after := w.(tables := t);
    forall key ensures CountsOk(after, key) && StageOk(after, key) {
      assert CountsOk(w, key) && StageOk(w, key);
      QuietKey(w, t, key);
    }
    forall s | s in w.starters ensures StarterOk(after, w.starters[s]) {
      assert StarterOk(w, w.starters[s]);
    }
    forall p | p in w.supervisors ensures SupervisorOk(after, w.supervisors[p]) {
      assert SupervisorOk(w, w.supervisors[p]);
    }
  }

  lemma QuietKey(w: World, t: Tables, key: Key)
    requires Quiet(w.tables, t) && CountsOk(w, key) && StageOk(w, key)
    ensures CountsOk(w.(tables := t), key) && StageOk(w.(tables := t), key)
  {
  }

  lemma QuietStore(t: Tables, u: Tables, key: Key, row: Row)
    requires IndexOk(t) && key in t.executions && QuietRow(t.executions[key], row)
    requires u.executions == t.executions[key := row] && u.attempts == t.attempts
    ensures Quiet(t, u) && IndexOk(u)
  {
  }

  lemma QuietSame(t: Tables, u: Tables)
    requires IndexOk(t) && u.executions == t.executions && u.attempts == t.attempts
    ensures Quiet(t, u) && IndexOk(u)
  {
  }

  lemma PrepareQuiet(t: Tables, key: Key, manifest: Manifest, spec: Spec)
    requires IndexOk(t)
    ensures var r := Prepare(t, key, manifest, spec); r.Ok? ==> Quiet(t, r.tables) && IndexOk(r.tables)
  {
    hide Quiet, IndexOk;
    var r := Prepare(t, key, manifest, spec);
    QuietSame(t, t);
    if r.Ok? && r.tables != t { PrepareIndex(t, r.tables, key, NewRow(manifest, spec)); }
  }

  lemma PrepareIndex(t: Tables, u: Tables, key: Key, row: Row)
    requires IndexOk(t) && key !in t.executions && row.manifest.id !in t.attempts && row == NewRow(row.manifest, row.spec)
    requires u.executions == t.executions[key := row] && u.attempts == t.attempts[row.manifest.id := key]
    ensures Quiet(t, u) && IndexOk(u)
  {
    hide Quiet, IndexOk, NewRow;
    assert Quiet(t, u) by { PrepareAdds(t, u, key, row); }
    assert IndexOk(u) by {
      forall a | a in u.attempts ensures u.attempts[a] in u.executions && u.executions[u.attempts[a]].manifest.id == a {
        if a != row.manifest.id { Indexed(t, a); }
      }
      forall k | k in u.executions
        ensures u.executions[k].manifest.id in u.attempts && u.attempts[u.executions[k].manifest.id] == k
      {
        if k != key { IndexedRow(t, k); }
      }
      IndexIntro(u);
    }
  }

  lemma PrepareAdds(t: Tables, u: Tables, key: Key, row: Row)
    requires key !in t.executions && row == NewRow(row.manifest, row.spec) && u.executions == t.executions[key := row]
    ensures Quiet(t, u)
  {
  }

  lemma Indexed(t: Tables, a: Id)
    requires IndexOk(t) && a in t.attempts
    ensures t.attempts[a] in t.executions && t.executions[t.attempts[a]].manifest.id == a
  {
  }

  lemma IndexedRow(t: Tables, k: Key)
    requires IndexOk(t) && k in t.executions
    ensures t.executions[k].manifest.id in t.attempts && t.attempts[t.executions[k].manifest.id] == k
  {
  }

  lemma IndexIntro(t: Tables)
    requires forall a :: a in t.attempts ==> t.attempts[a] in t.executions && t.executions[t.attempts[a]].manifest.id == a
    requires forall k :: k in t.executions ==>
               t.executions[k].manifest.id in t.attempts && t.attempts[t.executions[k].manifest.id] == k
    ensures IndexOk(t)
  {
  }

  lemma CancelQuiet(t: Tables, attempt: Id, cancelKey: Key, bound: bool)
    requires IndexOk(t) && forall k :: k in t.executions ==> RowOk(t.executions[k])
    ensures var r := Cancel(t, attempt, cancelKey, bound); r.Ok? ==> Quiet(t, r.tables) && IndexOk(r.tables)
  {
    hide Quiet, IndexOk;
    var r := Cancel(t, attempt, cancelKey, bound);
    if r.Ok? { QuietStore(t, r.tables, t.attempts[attempt], r.tables.executions[t.attempts[attempt]]); }
  }

  lemma ResultQuiet(t: Tables, attempt: Id, fence: nat, event: Id, payload: string)
    requires IndexOk(t)
    ensures var r := ReceiveResult(t, attempt, fence, event, payload); r.Ok? ==> Quiet(t, r.tables) && IndexOk(r.tables)
  {
    hide Quiet, IndexOk, Acceptable;
    var r := ReceiveResult(t, attempt, fence, event, payload);
    if r.Ok? {
      if r.tables.executions == t.executions {
        QuietSame(t, r.tables);
      } else {
        QuietStore(t, r.tables, t.attempts[attempt], r.tables.executions[t.attempts[attempt]]);
      }
    }
  }

  lemma UsageQuiet(t: Tables, attempt: Id, fence: nat, event: Id, payload: string)
    requires IndexOk(t)
    ensures var r := RecordUsage(t, attempt, fence, event, payload); r.Ok? ==> Quiet(t, r.tables) && IndexOk(r.tables)
  {
    hide Quiet, IndexOk;
    var r := RecordUsage(t, attempt, fence, event, payload);
    if r.Ok? {
      if Event(attempt, event) in t.usage {
        QuietSame(t, r.tables);
      } else {
        QuietStore(t, r.tables, t.attempts[attempt], r.tables.executions[t.attempts[attempt]]);
      }
    }
  }

  lemma SettleQuiet(t: Tables, attempt: Id, through: nat)
    requires IndexOk(t)
    ensures var r := SettleUsage(t, attempt, through); r.Ok? ==> Quiet(t, r.tables) && IndexOk(r.tables)
  {
    hide Quiet, IndexOk;
    var r := SettleUsage(t, attempt, through);
    if r.Ok? { QuietStore(t, r.tables, t.attempts[attempt], r.tables.executions[t.attempts[attempt]]); }
  }

  // ---------------------------------------------------------------- processes come to an end

  lemma StarterEndsKeeps(w: World, starter: nat)
    requires WorldOk(w)
    ensures WorldOk(StarterEnds(w, starter))
  {
    hide IndexOk, StageOk;
    var after := StarterEnds(w, starter);
    forall key ensures CountsOk(after, key) && StageOk(after, key) {
      assert CountsOk(w, key) && StageOk(w, key);
      SubsetCount(ToSpawn(after.starters, key), ToSpawn(w.starters, key));
      StageFrame(w, after, key);
    }
    forall s | s in after.starters ensures StarterOk(after, after.starters[s]) { assert StarterOk(w, w.starters[s]); }
    forall p | p in w.supervisors ensures SupervisorOk(after, w.supervisors[p]) { assert SupervisorOk(w, w.supervisors[p]); }
  }

  lemma StageFrame(a: World, b: World, key: Key)
    requires a.tables == b.tables && a.effects == b.effects
    ensures StageOk(a, key) <==> StageOk(b, key)
    ensures CountsOk(a, key) && ToSpawn(b.starters, key) <= ToSpawn(a.starters, key) && ToLaunch(b.supervisors, key) <= ToLaunch(a.supervisors, key) ==>
              CountsOk(b, key)
  {
    if ToSpawn(b.starters, key) <= ToSpawn(a.starters, key) { SubsetCount(ToSpawn(b.starters, key), ToSpawn(a.starters, key)); }
    if ToLaunch(b.supervisors, key) <= ToLaunch(a.supervisors, key) {
      SubsetCount(ToLaunch(b.supervisors, key), ToLaunch(a.supervisors, key));
    }
  }

  /** A supervisor ends, or goes on without coming closer to a launch than it was. */
  lemma SupervisorOnlyMoves(w: World, supervisors: map<nat, Supervisor>)
    requires WorldOk(w)
    requires forall p :: p in supervisors ==>
               p in w.supervisors && supervisors[p].key == w.supervisors[p].key && SupervisorOk(w, supervisors[p]) &&
               (BeforeLaunch(supervisors[p]) ==> BeforeLaunch(w.supervisors[p]))
    ensures WorldOk(w.(supervisors := supervisors))
  {
    hide IndexOk, StageOk;
    var after := w.(supervisors := supervisors);
    forall key ensures CountsOk(after, key) && StageOk(after, key) {
      assert CountsOk(w, key) && StageOk(w, key);
      StageFrame(w, after, key);
    }
    forall s | s in w.starters ensures StarterOk(after, w.starters[s]) { assert StarterOk(w, w.starters[s]); }
    forall p | p in supervisors ensures SupervisorOk(after, supervisors[p]) { assert SupervisorOk(w, supervisors[p]); }
  }

  // ---------------------------------------------------------------- steps that belong to one key

  predicate OnlyEffect(a: seq<Effect>, b: seq<Effect>, key: Key) {
    b == a || (|b| == |a| + 1 && b[..|a|] == a && b[|a|].key == key)
  }

  predicate OnlyStarters(a: map<nat, Starter>, b: map<nat, Starter>, key: Key) {
    && (forall s :: s in a && a[s].key != key ==> s in b && b[s] == a[s])
    && (forall s :: s in b && b[s].key != key ==> s in a && b[s] == a[s])
  }

  predicate OnlySupervisors(a: map<nat, Supervisor>, b: map<nat, Supervisor>, key: Key) {
    && (forall s :: s in a && a[s].key != key ==> s in b && b[s] == a[s])
    && (forall s :: s in b && b[s].key != key ==> s in a && b[s] == a[s])
  }

  predicate OnlyRow(a: Tables, b: Tables, key: Key) {
    && key in a.executions && key in b.executions && b == a.(executions := b.executions)
    && b.executions == a.executions[key := b.executions[key]]
    && b.executions[key].manifest == a.executions[key].manifest
  }

  /** Everything the step changed belongs to this key. */
  predicate OnlyKey(a: World, b: World, key: Key) {
    && OnlyRow(a.tables, b.tables, key) && OnlyEffect(a.effects, b.effects, key)
    && OnlyStarters(a.starters, b.starters, key) && OnlySupervisors(a.supervisors, b.supervisors, key)
  }

  lemma OtherKey(a: World, b: World, key: Key, other: Key)
    requires OnlyKey(a, b, key) && other != key
    ensures Same(a, b, other)
  {
    if b.effects != a.effects {
      assert b.effects == a.effects + [b.effects[|a.effects|]];
      OneMore(a.effects, b.effects[|a.effects|], other);
    }
    assert ToSpawn(b.starters, other) == ToSpawn(a.starters, other);
    assert ToLaunch(b.supervisors, other) == ToLaunch(a.supervisors, other);
  }

  lemma IndexSame(a: Tables, b: Tables, key: Key)
    requires OnlyRow(a, b, key) && IndexOk(a)
    ensures IndexOk(b)
  {
  }

  lemma OtherStarter(a: World, b: World, key: Key, pc: Starter)
    requires OnlyKey(a, b, key) && pc.key != key && StarterOk(a, pc)
    ensures StarterOk(b, pc)
  {
  }

  lemma OtherSupervisor(a: World, b: World, key: Key, pc: Supervisor)
    requires OnlyKey(a, b, key) && pc.key != key && SupervisorOk(a, pc)
    ensures SupervisorOk(b, pc)
  {
    OtherKey(a, b, key, pc.key);
    hide ToSpawn, ToLaunch;
  }

  /** A step of one key is sound if it is sound for that key. */
  lemma OneKey(a: World, b: World, key: Key)
    requires WorldOk(a) && OnlyKey(a, b, key) && CountsOk(b, key) && StageOk(b, key)
    requires forall s :: s in b.starters && b.starters[s].key == key ==> StarterOk(b, b.starters[s])
    requires forall p :: p in b.supervisors && b.supervisors[p].key == key ==> SupervisorOk(b, b.supervisors[p])
    ensures WorldOk(b)
  {
    hide IndexOk, CountsOk, StageOk, StarterOk, SupervisorOk, Same, OnlyRow, OnlyEffect;
    IndexSame(a.tables, b.tables, key);
    forall j ensures CountsOk(b, j) && StageOk(b, j) {
      if j != key {
        assert CountsOk(a, j) && StageOk(a, j);
        OtherKey(a, b, key, j);
        SameOk(a, b, j);
      }
    }
    forall s | s in b.starters ensures StarterOk(b, b.starters[s]) {
      if b.starters[s].key != key { OtherStarter(a, b, key, b.starters[s]); }
    }
    forall p | p in b.supervisors ensures SupervisorOk(b, b.supervisors[p]) {
      if b.supervisors[p].key != key { OtherSupervisor(a, b, key, b.supervisors[p]); }
    }
  }

  // ---------------------------------------------------------------- who is there, from the counts

  lemma Lone(s: set<nat>, x: nat)
    requires x in s && |s| <= 1
    ensures s == {x}
  {
    SubsetCount(s - {x}, s);
    assert s == (s - {x}) + {x};
  }

  lemma Unwrap(w: World, key: Key)
    requires WorldOk(w)
    ensures CountsOk(w, key) && StageOk(w, key)
  {
    hide CountsOk, StageOk;
  }

  /** While a start call may still spawn, it is the only one and there is no supervisor. */
  lemma LoneStarter(w: World, s: nat)
    requires WorldOk(w) && s in w.starters && !w.starters[s].Acknowledging?
    ensures var key := w.starters[s].key;
            && StarterOk(w, w.starters[s]) && ToSpawn(w.starters, key) == {s} && ToLaunch(w.supervisors, key) == {}
            && Spawned(w.effects, key) == 0 && Launched(w.effects, key) == 0 && Activations(w.tables, key) == 1
            && (forall p :: p in w.supervisors ==> w.supervisors[p].key != key)
            && (forall q :: q in w.starters && w.starters[q].key == key ==> q == s || w.starters[q].Acknowledging?)
  {
    hide StageOk, IndexOk;
    var key := w.starters[s].key;
    Unwrap(w, key);
    assert s in ToSpawn(w.starters, key);
    Lone(ToSpawn(w.starters, key), s);
    forall q | q in w.starters && w.starters[q].key == key ensures q == s || w.starters[q].Acknowledging? {
      if !w.starters[q].Acknowledging? { assert q in ToSpawn(w.starters, key); }
    }
    forall p | p in w.supervisors ensures w.supervisors[p].key != key {
      assert SupervisorOk(w, w.supervisors[p]);
    }
  }

  /** While a supervisor may still launch, it is the only one and no start call can spawn another. */
  lemma LoneSupervisor(w: World, p: nat)
    requires WorldOk(w) && p in w.supervisors && BeforeLaunch(w.supervisors[p])
    ensures var key := w.supervisors[p].key;
            && SupervisorOk(w, w.supervisors[p]) && ToSpawn(w.starters, key) == {} && ToLaunch(w.supervisors, key) == {p}
            && Spawned(w.effects, key) == 1 && Launched(w.effects, key) == 0 && Activations(w.tables, key) == 1
            && (forall q :: q in w.supervisors && w.supervisors[q].key == key ==> q == p)
            && (forall s :: s in w.starters && w.starters[s].key == key ==> w.starters[s].Acknowledging?)
  {
    hide StageOk, IndexOk;
    var key := w.supervisors[p].key;
    Unwrap(w, key);
    assert p in ToLaunch(w.supervisors, key);
    Lone(ToLaunch(w.supervisors, key), p);
    forall q | q in w.supervisors && w.supervisors[q].key == key ensures q == p {
      assert SupervisorOk(w, w.supervisors[q]);
      assert q in ToLaunch(w.supervisors, key);
    }
    forall s | s in w.starters && w.starters[s].key == key ensures w.starters[s].Acknowledging? {
      assert s !in ToSpawn(w.starters, key);
    }
  }

  /** After the launch, no start call and no other supervisor can get there again. */
  lemma AfterLaunch(w: World, p: nat)
    requires WorldOk(w) && p in w.supervisors && !BeforeLaunch(w.supervisors[p])
    ensures var key := w.supervisors[p].key;
            && SupervisorOk(w, w.supervisors[p]) && key in w.tables.executions
            && ToSpawn(w.starters, key) == {} && ToLaunch(w.supervisors, key) == {}
            && Spawned(w.effects, key) == 1 && Launched(w.effects, key) == 1
            && (forall q :: q in w.supervisors && w.supervisors[q].key == key ==> !BeforeLaunch(w.supervisors[q]))
            && (forall s :: s in w.starters && w.starters[s].key == key ==> w.starters[s].Acknowledging?)
  {
    hide IndexOk;
    var key := w.supervisors[p].key;
    Unwrap(w, key);
    forall q | q in w.supervisors && w.supervisors[q].key == key ensures !BeforeLaunch(w.supervisors[q]) {
      assert q !in ToLaunch(w.supervisors, key);
    }
    forall s | s in w.starters && w.starters[s].key == key ensures w.starters[s].Acknowledging? {
      assert s !in ToSpawn(w.starters, key);
    }
  }

  // ---------------------------------------------------------------- every step

  lemma StartKeeps(w: World, starter: nat, key: Key, activation: Activation, now: Time)
    requires WorldOk(w)
    ensures WorldOk(StartCall(w, starter, key, activation, now))
  {
    hide WorldOk;
    var after := StartCall(w, starter, key, activation, now);
    if after != w { AcceptKeeps(w, after, starter, key, activation); }
  }

  lemma AcceptStage(w: World, after: World, starter: nat, key: Key, activation: Activation)
    requires WorldOk(w) && starter !in w.starters && key in w.tables.executions && Binds(activation, w.tables.executions[key].manifest)
    requires w.tables.executions[key].activation.None?
    requires after.tables == SetRow(w.tables, key, w.tables.executions[key].(state := Accepted, phase := AcceptedPhase, activation := Some(activation)))
    requires after == w.(tables := after.tables, starters := w.starters[starter := Confirming(key, activation)])
    ensures CountsOk(after, key) && StageOk(after, key) && ToSpawn(w.starters, key) == {} && Spawned(w.effects, key) == 0
  {
    hide WorldOk, Binds;
    Unwrap(w, key);
    SubsetCount(ToSpawn(after.starters, key), ToSpawn(w.starters, key) + {starter});
  }

  lemma AcceptKeeps(w: World, after: World, starter: nat, key: Key, activation: Activation)
    requires WorldOk(w) && starter !in w.starters && key in w.tables.executions && Binds(activation, w.tables.executions[key].manifest)
    requires w.tables.executions[key].activation.None?
    requires after.tables == SetRow(w.tables, key, w.tables.executions[key].(state := Accepted, phase := AcceptedPhase, activation := Some(activation)))
    requires after == w.(tables := after.tables, starters := w.starters[starter := Confirming(key, activation)])
    ensures WorldOk(after)
  {
    hide IndexOk, Binds, CountsOk, StageOk;
    AcceptStage(w, after, starter, key, activation);
    Unwrap(w, key);
    forall s | s in after.starters && after.starters[s].key == key ensures StarterOk(after, after.starters[s]) {
      if s != starter {
        assert s !in ToSpawn(w.starters, key);
        assert StarterOk(w, w.starters[s]);
      }
    }
    forall p | p in after.supervisors ensures after.supervisors[p].key != key { assert SupervisorOk(w, w.supervisors[p]); }
    hide WorldOk, StarterOk, SupervisorOk, ToSpawn, ToLaunch, Spawned, Launched, OnlyRow;
    RowOnly(w.tables, key, after.tables.executions[key]);
    OneKey(w, after, key);
  }

  lemma ConfirmedRow(row: Row, granted: bool, refused: bool, launched: bool)
    requires RowOk(row) && ClaimsOk(row, granted, refused, launched) && row.state == Accepted && row.activation.Some?
    ensures var go := row.(state := Starting, phase := Activated);
            var stop := row.(state := CancelledUnstarted, phase := Denied);
            && RowOk(go) && ClaimsOk(go, granted, refused, launched)
            && RowOk(stop) && ClaimsOk(stop, granted, refused, launched)
  {
    hide Binds;
  }

  lemma ConfirmStage(w: World, starter: nat, key: Key, activation: Activation, now: Time)
    requires WorldOk(w) && starter in w.starters && w.starters[starter] == Confirming(key, activation)
    ensures var after := StarterMoves(w, starter, Confirming(key, activation), now, 0);
            CountsOk(after, key) && StageOk(after, key)
  {
    hide Binds, MayStart, WorldOk, Spawned, Launched, RowOk, ClaimsOk;
    LoneStarter(w, starter);
    Unwrap(w, key);
    ConfirmedRow(w.tables.executions[key], Claimed(key, true) in w.effects, Claimed(key, false) in w.effects, Launched(w.effects, key) >= 1);
    var after := StarterMoves(w, starter, Confirming(key, activation), now, 0);
    SubsetCount(ToSpawn(after.starters, key), ToSpawn(w.starters, key));
    hide ToSpawn, ToLaunch;
  }

  lemma ConfirmKeeps(w: World, starter: nat, key: Key, activation: Activation, now: Time)
    requires WorldOk(w) && starter in w.starters && w.starters[starter] == Confirming(key, activation)
    ensures WorldOk(StarterMoves(w, starter, Confirming(key, activation), now, 0))
  {
    hide Binds, MayStart, WorldOk, CountsOk, StageOk, SupervisorOk;
    LoneStarter(w, starter);
    ConfirmStage(w, starter, key, activation, now);
    hide ToSpawn, ToLaunch, Spawned, Launched;
    OneKey(w, StarterMoves(w, starter, Confirming(key, activation), now, 0), key);
  }

  lemma SpawnStage(w: World, starter: nat, key: Key, now: Time, pid: nat)
    requires WorldOk(w) && starter in w.starters && w.starters[starter] == Spawning(key) && pid !in w.supervisors
    ensures var after := StarterMoves(w, starter, Spawning(key), now, pid);
            && CountsOk(after, key) && StageOk(after, key)
            && Spawned(after.effects, key) == 1 && key in w.tables.executions && w.tables.executions[key].state == Starting
  {
    hide Binds, WorldOk, RowOk;
    LoneStarter(w, starter);
    Unwrap(w, key);
    var after := StarterMoves(w, starter, Spawning(key), now, pid);
    OneMore(w.effects, SupervisorSpawned(key), key);
    assert ToSpawn(after.starters, key) == {};
    assert ToLaunch(after.supervisors, key) == {pid};
    hide Spawned, Launched, ToSpawn, ToLaunch;
  }

  lemma SpawnKeeps(w: World, starter: nat, key: Key, now: Time, pid: nat)
    requires WorldOk(w) && starter in w.starters && w.starters[starter] == Spawning(key)
    ensures WorldOk(StarterMoves(w, starter, Spawning(key), now, pid))
  {
    hide WorldOk, CountsOk, StageOk, Spawned, Launched, ToSpawn, ToLaunch;
    LoneStarter(w, starter);
    if pid !in w.supervisors {
      SpawnStage(w, starter, key, now, pid);
      OneKey(w, StarterMoves(w, starter, Spawning(key), now, pid), key);
    }
  }

  lemma AcknowledgeKeeps(w: World, starter: nat, key: Key, id: nat, now: Time)
    requires WorldOk(w) && starter in w.starters && w.starters[starter] == Acknowledging(key, id)
    ensures WorldOk(StarterMoves(w, starter, Acknowledging(key, id), now, 0))
  {
    hide KeysOk, StartersOk, SupervisorsOk, IndexOk, Quiet;
    if key in w.tables.executions {
      var t := Acknowledge(w.tables, key, Some(id));
      QuietStore(w.tables, t, key, t.executions[key]);
      QuietKeeps(w, t);
      StarterEndsKeeps(w.(tables := t), starter);
    }
  }

  /** The world after a claim, whether or not it may launch. */
  function AfterClaim(w: World, pid: nat, key: Key, now: Time): World
    requires key in w.tables.executions
  {
    SupervisorMoves(w, pid, Claiming(key), now, 0, false)
  }

  lemma ClaimOnly(w: World, pid: nat, key: Key, now: Time)
    requires key in w.tables.executions && pid in w.supervisors && w.supervisors[pid] == Claiming(key)
    requires w.tables.executions[key].state == Starting
    ensures OnlyKey(w, AfterClaim(w, pid, key, now), key)
  {
    hide MayLaunch, OnlyRow, OnlySupervisors;
    RowOnly(w.tables, key, Claim(w.tables, key, pid, now).executions[key]);
    SupervisorOnly(w.supervisors, pid, Launching(key));
  }

  lemma RowOnly(t: Tables, key: Key, row: Row)
    requires key in t.executions && row.manifest == t.executions[key].manifest
    ensures OnlyRow(t, SetRow(t, key, row), key)
  {
  }

  lemma SupervisorOnly(m: map<nat, Supervisor>, pid: nat, pc: Supervisor)
    requires pid in m && m[pid].key == pc.key
    ensures OnlySupervisors(m, m[pid := pc], pc.key) && OnlySupervisors(m, m - {pid}, pc.key)
  {
  }

  lemma ClaimStage(w: World, pid: nat, key: Key, now: Time)
    requires WorldOk(w) && pid in w.supervisors && w.supervisors[pid] == Claiming(key) && key in w.tables.executions
    ensures CountsOk(AfterClaim(w, pid, key, now), key) && StageOk(AfterClaim(w, pid, key, now), key)
  {
    hide WorldOk, MayLaunch, RowOk;
    LoneSupervisor(w, pid);
    Unwrap(w, key);
    var row := w.tables.executions[key];
    var launch := MayLaunch(w.tables, row, now);
    var after := AfterClaim(w, pid, key, now);
    OneMore(w.effects, Claimed(key, launch), key);
    ClaimedRow(row, pid, launch);
    assert after.effects[|after.effects| - 1] == Claimed(key, launch);
    SubsetCount(ToLaunch(after.supervisors, key), ToLaunch(w.supervisors, key));
  }

  lemma ClaimKeeps(w: World, pid: nat, key: Key, now: Time)
    requires WorldOk(w) && pid in w.supervisors && w.supervisors[pid] == Claiming(key)
    ensures WorldOk(SupervisorMoves(w, pid, Claiming(key), now, 0, false))
  {
    hide WorldOk, MayLaunch, OnlyKey, CountsOk, StageOk;
    LoneSupervisor(w, pid);
    ClaimStage(w, pid, key, now);
    ClaimOnly(w, pid, key, now);
    var launch := MayLaunch(w.tables, w.tables.executions[key], now);
    var after := AfterClaim(w, pid, key, now);
    OneMore(w.effects, Claimed(key, launch), key);
    assert after.effects[|after.effects| - 1] == Claimed(key, launch);
    hide ToSpawn, ToLaunch;
    OneKey(w, after, key);
  }

  lemma ClaimedRow(row: Row, pid: nat, launch: bool)
    requires RowOk(row) && row.state == Starting
    ensures RowOk(row.(supervisor := Some(pid), contained := true, state := if launch then Running else Finished))
  {
  }

  lemma LaunchKeeps(w: World, pid: nat, key: Key, value: int)
    requires WorldOk(w) && pid in w.supervisors && w.supervisors[pid] == Launching(key)
    ensures WorldOk(SupervisorMoves(w, pid, Launching(key), 0.0, value, false))
  {
    hide IndexOk, Binds, WorldOk, RowOk;
    LoneSupervisor(w, pid);
    Unwrap(w, key);
    var after := SupervisorMoves(w, pid, Launching(key), 0.0, value, false);
    OneMore(w.effects, ToolLaunched(key), key);
    assert ToLaunch(after.supervisors, key) == {};
    assert CountsOk(after, key) && StageOk(after, key);
    hide Spawned, Launched, ToSpawn, ToLaunch, CountsOk, StageOk;
    assert forall s :: s in after.starters && after.starters[s].key == key ==> StarterOk(after, after.starters[s]) by {
      StartersStay(w, after, key);
    }
    OneKey(w, after, key);
  }

  lemma StartersStay(w: World, after: World, key: Key)
    requires WorldOk(w) && key in after.tables.executions && after.starters == w.starters
    requires forall s :: s in w.starters && w.starters[s].key == key ==> w.starters[s].Acknowledging?
    ensures forall s :: s in after.starters && after.starters[s].key == key ==> StarterOk(after, after.starters[s])
  {
  }

  lemma FinishKeeps(w: World, pid: nat, key: Key, code: int)
    requires WorldOk(w) && pid in w.supervisors && w.supervisors[pid] == Finishing(key, code)
    ensures WorldOk(SupervisorMoves(w, pid, Finishing(key, code), 0.0, 0, false))
  {
    hide IndexOk, Binds, WorldOk;
    AfterLaunch(w, pid);
    Unwrap(w, key);
    var t := Finish(w.tables, key, code);
    var finished := w.(tables := t);
    assert CountsOk(finished, key) && StageOk(finished, key);
    SupervisorsStay(w, finished, key);
    StartersStay(w, finished, key);
    hide Spawned, Launched, ToSpawn, ToLaunch, CountsOk, StageOk, StarterOk, SupervisorOk;
    OneKey(w, finished, key);
    EndKeeps(finished, pid);
  }

  lemma SupervisorsStay(w: World, after: World, key: Key)
    requires WorldOk(w) && after.effects == w.effects && after.supervisors == w.supervisors
    requires forall p :: p in w.supervisors && w.supervisors[p].key == key ==> !BeforeLaunch(w.supervisors[p])
    ensures forall p :: p in after.supervisors && after.supervisors[p].key == key ==> SupervisorOk(after, after.supervisors[p])
  {
    forall p | p in after.supervisors && after.supervisors[p].key == key ensures SupervisorOk(after, after.supervisors[p]) {
      assert SupervisorOk(w, w.supervisors[p]);
    }
  }

  lemma EndKeeps(w: World, pid: nat)
    requires WorldOk(w)
    ensures WorldOk(SupervisorEnds(w, pid))
  {
    hide IndexOk, KeysOk, StartersOk, SupervisorOk;
    SupervisorOnlyMoves(w, w.supervisors - {pid});
  }

  lemma GoKeeps(w: World, pid: nat, pc: Supervisor)
    requires WorldOk(w) && pid in w.supervisors && pc.key == w.supervisors[pid].key && SupervisorOk(w, pc)
    requires BeforeLaunch(pc) ==> BeforeLaunch(w.supervisors[pid])
    ensures WorldOk(SupervisorGoes(w, pid, pc))
  {
    hide IndexOk, KeysOk, StartersOk, SupervisorOk;
    SupervisorOnlyMoves(w, w.supervisors[pid := pc]);
  }

  lemma RegisterKeeps(w: World, pid: nat, key: Key, runner: nat)
    requires WorldOk(w) && pid in w.supervisors && w.supervisors[pid] == Registering(key, runner) && key in w.tables.executions
    ensures WorldOk(SupervisorGoes(w.(tables := Register(w.tables, key, pid, runner)), pid, Watching(key)))
  {
    hide WorldOk, RowOk, IndexOk;
    AfterLaunch(w, pid);
    Unwrap(w, key);
    var t := Register(w.tables, key, pid, runner);
    var registered := w.(tables := t);
    if t == w.tables {
      assert registered == w;
    } else {
      RegisterStage(w, pid, key, runner);
      RowOnly(w.tables, key, t.executions[key]);
      SupervisorsStay(w, registered, key);
      StartersStay(w, registered, key);
      hide Spawned, Launched, ToSpawn, ToLaunch, CountsOk, StageOk, StarterOk, SupervisorOk, OnlyRow, Register;
      OneKey(w, registered, key);
    }
    hide Register, Spawned, Launched;
    AfterLaunch(registered, pid);
    GoKeeps(registered, pid, Watching(key));
  }

  lemma RegisterStage(w: World, pid: nat, key: Key, runner: nat)
    requires WorldOk(w) && pid in w.supervisors && w.supervisors[pid] == Registering(key, runner) && key in w.tables.executions
    ensures var registered := w.(tables := Register(w.tables, key, pid, runner));
            CountsOk(registered, key) && StageOk(registered, key)
  {
    hide WorldOk;
    AfterLaunch(w, pid);
    Unwrap(w, key);
    hide Spawned, Launched, ToSpawn, ToLaunch, Binds;
  }

  lemma IndexPart(w: World)
    requires WorldOk(w)
    ensures IndexOk(w.tables) && StartersOk(w) && SupervisorsOk(w) && forall k :: k in w.tables.executions ==> RowOk(w.tables.executions[k])
  {
    hide IndexOk, CountsOk, StartersOk, SupervisorsOk;
    forall k | k in w.tables.executions ensures RowOk(w.tables.executions[k]) { Unwrap(w, k); }
  }

  lemma SupervisorKeeps(w: World, pid: nat, now: Time, value: int, stop: bool)
    requires WorldOk(w) && pid in w.supervisors
    ensures WorldOk(SupervisorMoves(w, pid, w.supervisors[pid], now, value, stop))
  {
    hide WorldOk, Claim, Register, Finish, MayLaunch;
    var pc := w.supervisors[pid];
    EndKeeps(w, pid);
    if pc.key in w.tables.executions {
      match pc {
        case Reading(key) =>
          LoneSupervisor(w, pid);
          if w.tables.executions[key].state == Starting { GoKeeps(w, pid, Claiming(key)); }
        case Claiming(key) => ClaimKeeps(w, pid, key, now);
        case Launching(key) => LaunchKeeps(w, pid, key, value);
        case Registering(key, runner) => RegisterKeeps(w, pid, key, runner);
        case Watching(key) =>
          AfterLaunch(w, pid);
          GoKeeps(w, pid, Finishing(key, value));
        case Finishing(key, code) => FinishKeeps(w, pid, key, code);
      }
    }
  }

  lemma NextKeeps(w: World, step: Step)
    requires WorldOk(w)
    ensures WorldOk(Next(w, step))
  {
    hide WorldOk, Quiet, IndexOk, Prepare, SetControl, InitializeControl, Cancel, ReceiveResult, RecordUsage, SettleUsage,
      SupervisorMoves, StartCall;
    IndexPart(w);
    QuietSame(w.tables, w.tables);
    var t := w.tables;
    match step {
      case PrepareStep(key, manifest, spec) => PrepareQuiet(t, key, manifest, spec); QuietKeeps(w, Next(w, step).tables);
      case ControlStep(attempt, control) => ControlQuiet(t, attempt, control); QuietKeeps(w, Next(w, step).tables);
      case InitializeStep(attempt, key, fence, authorization) =>
        InitializeQuiet(t, attempt, key, fence, authorization); QuietKeeps(w, Next(w, step).tables);
      case StartStep(starter, key, activation, now) => StartKeeps(w, starter, key, activation, now);
      case StarterStep(starter, now, pid) => if starter in w.starters { StarterKeeps(w, starter, now, pid); }
      case StarterDies(starter) => StarterEndsKeeps(w, starter);
      case SupervisorStep(pid, now, value, stop) => if pid in w.supervisors { SupervisorKeeps(w, pid, now, value, stop); }
      case SupervisorDies(pid) => EndKeeps(w, pid);
      case CancelStep(attempt, cancelKey, bound) => CancelQuiet(t, attempt, cancelKey, bound); QuietKeeps(w, Next(w, step).tables);
      case ResultStep(attempt, fence, event, payload) =>
        ResultQuiet(t, attempt, fence, event, payload); QuietKeeps(w, Next(w, step).tables);
      case UsageStep(attempt, fence, event, payload) =>
        UsageQuiet(t, attempt, fence, event, payload); QuietKeeps(w, Next(w, step).tables);
      case SettleStep(attempt, through) => SettleQuiet(t, attempt, through); QuietKeeps(w, Next(w, step).tables);
    }
  }

  lemma ControlQuiet(t: Tables, attempt: Id, control: Control)
    requires IndexOk(t)
    ensures var r := SetControl(t, attempt, control); r.Ok? ==> Quiet(t, r.tables) && IndexOk(r.tables)
  {
    hide Quiet, IndexOk;
    var r := SetControl(t, attempt, control);
    if r.Ok? { QuietSame(t, r.tables); }
  }

  lemma InitializeQuiet(t: Tables, attempt: Id, key: Key, fence: nat, authorization: Id)
    requires IndexOk(t)
    ensures var r := InitializeControl(t, attempt, key, fence, authorization); r.Ok? ==> Quiet(t, r.tables) && IndexOk(r.tables)
  {
    hide Quiet, IndexOk;
    var r := InitializeControl(t, attempt, key, fence, authorization);
    if r.Ok? { QuietSame(t, r.tables); }
  }

  lemma StarterKeeps(w: World, starter: nat, now: Time, pid: nat)
    requires WorldOk(w) && starter in w.starters
    ensures WorldOk(StarterMoves(w, starter, w.starters[starter], now, pid))
  {
    hide WorldOk, Confirm, Acknowledge;
    match w.starters[starter] {
      case Confirming(key, activation) => ConfirmKeeps(w, starter, key, activation, now);
      case Spawning(key) => SpawnKeeps(w, starter, key, now, pid);
      case Acknowledging(key, id) => AcknowledgeKeeps(w, starter, key, id, now);
    }
  }

  lemma InitOk()
    ensures WorldOk(Init)
  {
    forall key ensures CountsOk(Init, key) && StageOk(Init, key) {
      assert ToSpawn(Init.starters, key) == {} && ToLaunch(Init.supervisors, key) == {};
    }
  }

  lemma {:induction false} RunKeeps(w: World, steps: seq<Step>)
    requires WorldOk(w)
    ensures WorldOk(Run(w, steps))
  {
    hide WorldOk, Next;
    if steps != [] {
      RunKeeps(w, steps[..|steps| - 1]);
      NextKeeps(Run(w, steps[..|steps| - 1]), steps[|steps| - 1]);
    }
  }
}
