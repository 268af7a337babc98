/** Whole runs of one room, internal/game/world.go: joins, leaves and inputs between
    ticks, and the ticks. */
module Sessions {
  import opened Wire
  import opened Walls
  import opened Movement
  import opened Arena
  import opened Ids
  import R = Rules
  import opened WorldInvariant

  /** What can happen to a live world between two ticks, and the tick itself. */
  datatype Action = Join(name: Bytes) | Leave(id: nat) | Enqueue(id: nat, inp: Input) | Tick

  ghost function Act(env: Env, w: State, a: Action, dt: real): State {
    match a
    case Join(name) => R.AddPlayer(env, w, name).0
    case Leave(id) => R.RemovePlayer(w, id)
    case Enqueue(id, inp) => R.EnqueueInput(w, id, inp)
    case Tick => R.Step(env, w, dt)
  }

  ghost function Run(env: Env, w: State, acts: seq<Action>, dt: real): State
    decreases |acts|
  {
    if acts == [] then w else Run(env, Act(env, w, acts[0], dt), acts[1..], dt)
  }

  lemma {:induction false} RunConcat(env: Env, w: State, a: seq<Action>, b: seq<Action>, dt: real)
    ensures Run(env, w, a + b, dt) == Run(env, Run(env, w, a, dt), b, dt)
    decreases |a|
  {
    hide Act;
    if a == [] {
      assert a + b == b;
    } else {
      RunConcat(env, Act(env, w, a[0], dt), a[1..], b, dt);
      assert (a + b)[1..] == a[1..] + b;
    }
  }

  lemma RunOne(env: Env, w: State, a: Action, dt: real)
    ensures Run(env, w, [a], dt) == Act(env, w, a, dt)
  {
    hide Act;
    assert [a][1..] == [];
  }

  /** A newcomer is alive, in its team, and nobody else is touched. */
  lemma JoinTouches(env: Env, w: State, name: Bytes)
    ensures var (w', r) := R.AddPlayer(env, w, name);
      && w'.flags == w.flags && w'.phase == w.phase && r == Alloc(w).0
      && (r.None? ==> w'.players == w.players)
      && (r.Some? ==>
          && r.value in w'.players && w'.players == w.players[r.value := w'.players[r.value]]
          && !w'.players[r.value].dead
          && w'.players[r.value].team == if w.modes.team then R.SmallerTeam(w) else 0)
  {
    hide Alloc, R.SpawnPoint, R.SmallerTeam, R.InsertId;
  }

  lemma JoinIsNew(w: State)
    requires WorldOk(w)
    ensures var r := Alloc(w).0; r.Some? ==> r.value !in w.players
  {
    AllocIsExact(w);
    hide Alloc, WorldOk;
  }

  lemma ActOk(env: Env, w: State, a: Action, dt: real)
    requires EnvOk(env) && WorldOk(w)
    ensures WorldOk(Act(env, w, a, dt))
    ensures Act(env, w, a, dt).tick == w.tick + (if a.Tick? then 1 else 0) && Act(env, w, a, dt).modes == w.modes
  {
    match a
    case Join(name) =>
      AddPlayerOk(env, w, name);
      hide WorldOk, R.SpawnPoint, Alloc, R.SmallerTeam;
    case Leave(id) => RemovePlayerOk(w, id);
    case Enqueue(id, inp) => EnqueueInputOk(w, id, inp);
    case Tick => StepOk(env, w, dt);
  }

  /** Every reachable world is sound: ids in range, in order and distinct from every
      projectile's, health fits life, everybody in a legal place. */
  lemma {:induction false} RunOk(env: Env, w: State, acts: seq<Action>, dt: real)
    requires EnvOk(env) && WorldOk(w)
    ensures var w' := Run(env, w, acts, dt); WorldOk(w') && w'.tick >= w.tick && w'.modes == w.modes
    decreases |acts|
  {
    hide WorldOk, EnvOk, Act;
    if acts != [] {
      ActOk(env, w, acts[0], dt);
      RunOk(env, Act(env, w, acts[0], dt), acts[1..], dt);
    }
  }

  /** What that says of a world started from nothing. */
  lemma ReachableIsSound(env: Env, seed: int, m: Modes, acts: seq<Action>, dt: real)
    requires EnvOk(env)
    ensures var w := Run(env, R.NewWorld(seed, m), acts, dt);
      && (forall i, j :: 0 <= i < j < |w.order| ==> w.order[i] < w.order[j])
      && (forall id :: id in w.players <==> id in w.order)
      && (forall id :: id in w.players ==> 1 <= id <= MAX_ID && w.players[id].id == id)
      && (forall i :: 0 <= i < |w.projectiles| ==>
          1 <= w.projectiles[i].id <= MAX_ID && w.projectiles[i].id !in w.players)
      && (forall i, j :: 0 <= i < j < |w.projectiles| ==> w.projectiles[i].id != w.projectiles[j].id)
      && (forall id :: id in w.players && !w.players[id].dead ==> 1 <= w.players[id].hp <= FULL_HP)
      && (forall id :: id in w.players ==> Legal(w.players[id].move.x, w.players[id].move.y))
  {
    NewWorldOk(seed, m);
    RunOk(env, R.NewWorld(seed, m), acts, dt);
    hide Legal, Run;
  }
}
