/** A run that ends with a dead player in full health, internal/game/killstreak.go: three
    rockets cross in one tick; the last is its owner's, who is dead by the time it kills
    the other three. */
module Posthumous {
  import opened Wrappers
  import opened Wire
  import opened Reals
  import opened Walls
  import opened Segments
  import opened Movement
  import opened Arena
  import opened Ids
  import opened HitGrid
  import opened Rules
  import opened WorldInvariant
  import opened Sessions
  import C = Chronicle
  import F = FairPlay

  const ROW := 512.0
  const CROWD := 512.0
  const LONER := 552.0
  const DT := 1.0 / 30.0
  const PLAIN := Modes(false, false, false, false)

  /** Aim 0 points right and any other aim left; the fourth player spawns 40 units to the
      right of the first three. */
  function TheEnv(root: real -> real): Env {
    Env(root, (a: real) => if a == 0.0 then 1.0 else -1.0, (a: real) => 0.0, (q: U16) => if q == 0 then 0.0 else 3.0,
        (s: int) => if s == 6 then 424.0 / 3840.0 else 384.0 / 3840.0, (s: int) => s + 1, (s: int) => 0, (s: int) => s)
  }

  /** A rocket, chosen and fired. */
  function Rocket(aim: U16): Input {
    Input(1, 144, aim, 0, 0, 0)
  }

  const ACTS: seq<Action> := [
    Join([]), Join([]), Join([]), Join([]),
    Enqueue(1, Rocket(0)), Enqueue(2, Rocket(0)), Enqueue(4, Rocket(0x8000)), Tick]

  lemma TheEnvOk(root: real -> real)
    requires IsRoot(root)
    ensures EnvOk(TheEnv(root))
  {
  }

  // ----- an open place

  /** South of the row lies every wall. */
  lemma OpenRow(x: real, r: real, i: nat)
    requires i < |WALLS| && 0.0 <= r <= 64.0
    ensures Dist2(WALLS[i], x, ROW) >= Sq(r)
  {
    var b := WALLS[i];
    SqSigns(x - Clamp(x, b.minX, b.maxX));
    hide Sq;
    SqMono(r, b.minY - ROW);
    SqSigns(ROW - b.minY);
    assert ROW - Clamp(ROW, b.minY, b.maxY) == ROW - b.minY == -(b.minY - ROW);
    SqSigns(b.minY - ROW);
  }

  lemma StandsStill(root: real -> real, x: real)
    requires IsRoot(root) && (x == CROWD || x == LONER)
    ensures Advance(root, x, ROW, 0.0, 0.0, INPUT_DT) == (x, ROW)
  {
    MulUnits(INPUT_DT);
    forall i | 0 <= i < |WALLS|
      ensures Dist2(WALLS[i], x, ROW) >= Sq(PLAYER_RADIUS)
    {
      OpenRow(x, PLAYER_RADIUS, i);
    }
    NobodyPushed(root, x, ROW, PLAYER_RADIUS, WALLS);
    hide Mul, ResolvedBy;
  }

  lemma NoWallInRow(ax: real, dx: real)
    ensures AllProper(WALLS) && FirstWallTime(WALLS, PROJECTILE_RADIUS, ax, ROW, dx, 0.0) == None
  {
    ArenaIsSeparated();
    FirstWallTimeIsFirst(WALLS, PROJECTILE_RADIUS, ax, ROW, dx, 0.0);
    forall t, i | 0 <= i < |WALLS|
      ensures !InBoxAt(Inflate(WALLS[i], PROJECTILE_RADIUS), ax, ROW, dx, 0.0, t)
    {
      MulUnits(t);
      hide Mul;
    }
    hide FirstWallTime, InBoxAt, Inflate;
  }

  // ----- four join, three load a rocket

  function At(x: real): MoveState {
    MoveState(x, ROW, 0.0, 0.0, 0.0, 0.0)
  }

  function SpotOf(id: nat): real {
    if id == 4 then LONER else CROWD
  }

  function Newcomer(id: nat): Player {
    NewPlayer(id, [], At(SpotOf(id)), 0)
  }

  /** The world once `n` players have joined. */
  function Joined(n: nat): State {
    NewWorld(0, PLAIN).(players := map id | 1 <= id <= n :: Newcomer(id), order := seq(n, i => i + 1),
                        rng := 2 * n, nextID := n + 1)
  }

  lemma SpawnsInRow(root: real -> real, n: nat)
    requires n < 4
    ensures SpawnPoint(TheEnv(root), 2 * n) == (At(SpotOf(n + 1)), 2 * n + 2)
  {
    var (env, x) := (TheEnv(root), SpotOf(n + 1));
    assert SpawnCoord(env, 2 * n) == x && SpawnCoord(env, 2 * n + 1) == ROW;
    forall i | 0 <= i < |WALLS|
      ensures Dist2(WALLS[i], x, ROW) >= Sq(PLAYER_RADIUS + SPAWN_CLEARANCE)
    {
      OpenRow(x, PLAYER_RADIUS + SPAWN_CLEARANCE, i);
    }
    hide Dist2, Sq, SpawnCoord;
  }

  /** The id under the cursor is handed out when it is free. */
  lemma AllocFree(w: State)
    requires 1 <= w.nextID < 100 && !Taken(w, w.nextID)
    ensures Alloc(w) == (Some(w.nextID), w.nextID + 1)
  {
    hide Taken;
  }

  lemma {:induction false} InsertLast(ids: seq<nat>, id: nat)
    requires forall i :: 0 <= i < |ids| ==> ids[i] < id
    ensures InsertId(ids, id) == ids + [id]
    decreases |ids|
  {
    if ids != [] {
      InsertLast(ids[1..], id);
    }
  }

  lemma JoinedNext(n: nat)
    ensures var (w, w') := (Joined(n), Joined(n + 1));
      && w' == w.(players := w.players[n + 1 := Newcomer(n + 1)], order := w.order + [n + 1],
                  rng := 2 * n + 2, nextID := n + 2)
      && w.nextID == n + 1 && w.rng == 2 * n && !w.modes.team && !Taken(w, n + 1)
      && forall i :: 0 <= i < |w.order| ==> w.order[i] < n + 1
  {
    hide Newcomer;
    assert Joined(n).players[n + 1 := Newcomer(n + 1)] == Joined(n + 1).players;
  }

  lemma OneJoins(root: real -> real, n: nat)
    requires n < 4
    ensures AddPlayer(TheEnv(root), Joined(n), []).0 == Joined(n + 1)
  {
    JoinedNext(n);
    NewcomerId(n + 1);
    hide SpawnPoint, Alloc, NewPlayer, InsertId, Joined, Taken, TheEnv, At;
    AllocFree(Joined(n));
    SpawnsInRow(root, n);
    InsertLast(Joined(n).order, n + 1);
  }

  lemma NewcomerId(id: nat)
    ensures Newcomer(id).id == id
  {
  }

  function Loaded(id: nat, aim: U16): Player {
    Newcomer(id).(inputs := [Rocket(aim)], lastQueuedSeq := 1, hasQueued := true)
  }

  function Ready(): State {
    var w := Joined(4);
    w.(players := w.players[1 := Loaded(1, 0)][2 := Loaded(2, 0)][4 := Loaded(4, 0x8000)])
  }

  lemma OneLoads(w: State, id: nat, aim: U16)
    requires id in w.players && w.players[id] == Newcomer(id)
    ensures EnqueueInput(w, id, Rocket(aim)) == w.(players := w.players[id := Loaded(id, aim)])
  {
    NewcomerIsFresh(id);
    hide Newcomer;
    assert [] + [Rocket(aim)] == [Rocket(aim)];
  }

  lemma NewcomerIsFresh(id: nat)
    ensures Newcomer(id).id == id && !Newcomer(id).hasQueued && Newcomer(id).inputs == []
  {
  }

  lemma AllJoin(env: Env, w0: State, dt: real)
    requires forall n: nat :: n < 4 ==> AddPlayer(env, Joined(n), []).0 == Joined(n + 1)
    requires w0 == Joined(0)
    ensures Run(env, w0, ACTS, dt) == Run(env, Joined(4), ACTS[4..], dt)
  {
    hide AddPlayer, EnqueueInput, Step, Joined, Run, Rocket;
    RunStep(env, w0, ACTS, dt);
    RunStep(env, Joined(1), ACTS[1..], dt);
    RunStep(env, Joined(2), ACTS[1..][1..], dt);
    RunStep(env, Joined(3), ACTS[1..][1..][1..], dt);
    assert ACTS[1..][1..][1..][1..] == ACTS[4..];
  }

  lemma AllReady(env: Env, w0: State, dt: real)
    requires forall n: nat :: n < 4 ==> AddPlayer(env, Joined(n), []).0 == Joined(n + 1)
    requires w0 == Joined(0)
    ensures Run(env, w0, ACTS, dt) == Step(env, Ready(), dt)
  {
    AllJoin(env, w0, dt);
    var w5 := EnqueueInput(Joined(4), 1, Rocket(0));
    var w6 := EnqueueInput(w5, 2, Rocket(0));
    ThreeLoad();
    hide AddPlayer, EnqueueInput, Step, Joined, Run, Rocket, Ready;
    RunStep(env, Joined(4), ACTS[4..], dt);
    RunStep(env, w5, ACTS[4..][1..], dt);
    RunStep(env, w6, ACTS[4..][1..][1..], dt);
    assert ACTS[4..][1..][1..][1..] == ACTS[7..];
    RunStep(env, Ready(), ACTS[7..], dt);
    assert ACTS[7..][1..] == [];
  }

  lemma ThreeLoad()
    ensures EnqueueInput(EnqueueInput(EnqueueInput(Joined(4), 1, Rocket(0)), 2, Rocket(0)), 4, Rocket(0x8000))
         == Ready()
  {
    var w5 := EnqueueInput(Joined(4), 1, Rocket(0));
    OneLoads(Joined(4), 1, 0);
    OneLoads(w5, 2, 0);
    OneLoads(EnqueueInput(w5, 2, Rocket(0)), 4, 0x8000);
    hide EnqueueInput, Newcomer, Loaded;
  }

  lemma RunStep(env: Env, w: State, acts: seq<Action>, dt: real)
    requires acts != []
    ensures Run(env, w, acts, dt) == Run(env, Act(env, w, acts[0], dt), acts[1..], dt)
    ensures acts[1..] == [] ==> Run(env, w, acts, dt) == Act(env, w, acts[0], dt)
  {
    hide Act;
  }

  lemma ReadyOk(env: Env)
    requires EnvOk(env) && forall n: nat :: n < 4 ==> AddPlayer(env, Joined(n), []).0 == Joined(n + 1)
    requires NewWorld(0, PLAIN) == Joined(0)
    ensures WorldOk(Ready())
  {
    hide *;
    NewWorldOk(0, PLAIN);
    AddPlayerOk(env, Joined(0), []);
    AddPlayerOk(env, Joined(1), []);
    AddPlayerOk(env, Joined(2), []);
    AddPlayerOk(env, Joined(3), []);
    var w5 := EnqueueInput(Joined(4), 1, Rocket(0));
    ThreeLoad();
    EnqueueInputOk(Joined(4), 1, Rocket(0));
    EnqueueInputOk(w5, 2, Rocket(0));
    EnqueueInputOk(EnqueueInput(w5, 2, Rocket(0)), 4, Rocket(0x8000));
  }

  // ----- three shoot

  function Way(aim: U16): real {
    if aim == 0 then 1.0 else -1.0
  }

  function Shooter(id: nat): Player {
    Newcomer(id).(inputs := [], lastQueuedSeq := 1, hasQueued := true, lastProcessedSeq := 1, weapon := 4,
                  nextFireTick := 39)
  }

  function Missile(id: nat, owner: nat, aim: U16): Projectile {
    Projectile(id, owner, SpotOf(owner) + 21.0 * Way(aim), ROW, 480.0 * Way(aim), 0.0, PROJECTILE_LIFE, 0, 0, 4)
  }

  /** What a turn with a loaded rocket does. */
  function Shot(w: State, id: nat, aim: U16): State {
    w.(players := w.players[id := Shooter(id)],
       projectiles := w.projectiles + [Missile(w.nextID, id, aim)], nextID := w.nextID + 1)
  }

  lemma RocketInput(root: real -> real, x: real, aim: U16)
    requires IsRoot(root) && (x == CROWD || x == LONER)
    ensures Moved(root, At(x), Rocket(aim), INPUT_DT) == At(x)
    ensures WeaponSelect(Rocket(aim)) == 4 && Has(Rocket(aim).buttons, BTN_FIRE)
  {
    StandsStill(root, x);
    MulUnits(PLAYER_SPEED);
    hide Advance, Mul;
  }

  function Aimed(id: nat, aim: U16): Player {
    Loaded(id, aim).(lastProcessedSeq := 1, weapon := 4)
  }

  lemma DrivenAims(root: real -> real, id: nat, aim: U16)
    requires IsRoot(root)
    ensures Driven(TheEnv(root), Loaded(id, aim), Rocket(aim)) == Aimed(id, aim)
  {
    RocketInput(root, SpotOf(id), aim);
    hide Moved, WeaponSelect, Has;
  }

  lemma MissileLeaves(root: real -> real, id: nat, n: nat, aim: U16)
    ensures var env := TheEnv(root);
      NewShot(env, Triggered(Aimed(id, aim), 0), n, env.radians(aim), 0) == Missile(n, id, aim)
  {
    var off := PLAYER_RADIUS + PROJECTILE_RADIUS + 1.0;
    MulUnits(off);
    MulUnits(480.0);
    MulNeg(1.0, off);
    MulNeg(1.0, 480.0);
    hide Mul;
  }

  lemma Shoots(root: real -> real, w: State, id: nat, aim: U16)
    requires IsRoot(root) && id in w.players && w.players[id] == Aimed(id, aim)
    requires w.tick == 0 && |w.projectiles| <= 3 && 1 <= w.nextID < 100 && !Taken(w, w.nextID)
    ensures TryFire(TheEnv(root), w, id, Rocket(aim))
         == w.(players := w.players[id := Triggered(Aimed(id, aim), 0)],
               projectiles := w.projectiles + [Missile(w.nextID, id, aim)], nextID := w.nextID + 1)
  {
    AimedIsReady(id, aim);
    MissileLeaves(root, id, w.nextID, aim);
    var w1 := w.(players := w.players[id := Triggered(Aimed(id, aim), 0)]);
    assert Taken(w1, w.nextID) == Taken(w, w.nextID);
    AllocFree(w1);
    hide Aimed, Triggered, NewShot, Taken, Alloc, Missile, SpawnFan;
  }

  lemma AimedIsReady(id: nat, aim: U16)
    ensures var p := Aimed(id, aim); p.weapon == 4 && p.nextFireTick == 0 && p.spreadUntil == 0 && p.id == id && !p.dead
  {
  }

  lemma TurnShoots(root: real -> real, w: State, id: nat, aim: U16)
    requires IsRoot(root) && id in w.players && w.players[id] == Loaded(id, aim)
    requires w.tick == 0 && |w.projectiles| <= 3 && 1 <= w.nextID < 100 && !Taken(w, w.nextID)
    ensures PlayerTurn(TheEnv(root), w, id) == Shot(w, id, aim)
  {
    var (env, inp) := (TheEnv(root), Rocket(aim));
    LoadedInputs(id, aim);
    DrivenAims(root, id, aim);
    RocketInput(root, CROWD, aim);
    AimedIsReady(id, aim);
    var w1 := Put(w, Aimed(id, aim));
    assert Taken(w1, w.nextID) == Taken(w, w.nextID);
    Shoots(root, w1, id, aim);
    TriggeredDrained(id, aim);
    assert [inp][..0] == [];
    assert Fold(InputOf(env, id), w, [inp]) == ApplyInput(env, Fold(InputOf(env, id), w, []), id, inp);
    hide Aimed, Loaded, Triggered, Driven, TryFire, Taken, Missile, Moved, Shooter;
  }

  lemma LoadedInputs(id: nat, aim: U16)
    ensures var p := Loaded(id, aim); p.inputs == [Rocket(aim)] && !p.dead && p.id == id
  {
  }

  lemma TriggeredDrained(id: nat, aim: U16)
    ensures var p := Triggered(Aimed(id, aim), 0); p.id == id && p.(inputs := []) == Shooter(id)
  {
  }

  lemma TurnIdles(env: Env, w: State, id: nat)
    requires id in w.players && w.players[id] == Newcomer(id)
    ensures PlayerTurn(env, w, id) == w
  {
    NewcomerIsFresh(id);
    hide Newcomer, ApplyInput;
  }

  function Volleyed(): State {
    Shot(Shot(Shot(Ready(), 1, 0), 2, 0), 4, 0x8000)
  }

  /** Ready for the turn of `id`: the cursor stands on a free id. */
  ghost predicate Clear(w: State, n: nat) {
    && w.tick == 0 && w.nextID == n && |w.projectiles| == n - 5 && (forall id :: id in w.players ==> id <= 4)
    && forall i :: 0 <= i < |w.projectiles| ==> w.projectiles[i].id < n
  }

  lemma ClearIsFree(w: State, n: nat)
    requires 5 <= n && Clear(w, n)
    ensures !Taken(w, n)
  {
  }

  lemma ShotClears(w: State, id: nat, aim: U16, n: nat)
    requires 5 <= n && Clear(w, n) && id <= 4
    ensures Clear(Shot(w, id, aim), n + 1)
  {
    hide Shooter;
  }

  lemma ReadyIsClear()
    ensures var w := Ready();
      && Clear(w, 5) && w.order == [1, 2, 3, 4]
      && w.players == map[1 := Loaded(1, 0), 2 := Loaded(2, 0), 3 := Newcomer(3), 4 := Loaded(4, 0x8000)]
  {
    hide Loaded, Newcomer;
  }

  lemma FourTurns(root: real -> real)
    requires IsRoot(root)
    ensures PlayerTurns(TheEnv(root), Ready()) == Volleyed()
  {
    var env := TheEnv(root);
    var (a, b, c) := (Ready(), Shot(Ready(), 1, 0), Shot(Shot(Ready(), 1, 0), 2, 0));
    ReadyIsClear();
    hide Loaded, Newcomer, Shooter, Missile, PlayerTurn, Ready, Clear, Taken, IsRoot, Fold;
    ShotClears(a, 1, 0, 5);
    ShotClears(b, 2, 0, 6);
    ShootsClear(root, a, 1, 0, 5);
    ShootsClear(root, b, 2, 0, 6);
    TurnIdles(env, c, 3);
    ShootsClear(root, c, 4, 0x8000, 7);
    FoldFour(TurnOf(env), a, 1, 2, 3, 4);
  }

  lemma ShootsClear(root: real -> real, w: State, id: nat, aim: U16, n: nat)
    requires IsRoot(root) && id in w.players && w.players[id] == Loaded(id, aim) && 5 <= n <= 7 && Clear(w, n)
    ensures PlayerTurn(TheEnv(root), w, id) == Shot(w, id, aim)
  {
    ClearIsFree(w, n);
    hide PlayerTurn, Loaded, Shot, Taken;
    TurnShoots(root, w, id, aim);
  }

  lemma FoldFour<S, A>(f: (S, A) -> S, s: S, a: A, b: A, c: A, d: A)
    ensures Fold(f, s, [a, b, c, d]) == f(f(f(f(s, a), b), c), d)
  {
    FoldOne(f, s, [], a);
    FoldOne(f, s, [a], b);
    FoldOne(f, s, [a, b], c);
    FoldOne(f, s, [a, b, c], d);
    assert [] + [a] == [a] && [a] + [b] == [a, b] && [a, b] + [c] == [a, b, c] && [a, b, c] + [d] == [a, b, c, d];
  }

  // ----- three rockets land

  /** What the story follows: health, death and streak. */
  datatype Vital = Vital(hp: nat, dead: bool, streak: nat)

  ghost predicate Shown(w: State, id: nat, v: Vital) {
    && id in w.players
    && var p := w.players[id];
    && p.id == id && p.move.x == SpotOf(id) && p.move.y == ROW
    && p.hp == v.hp && p.dead == v.dead && p.streak == v.streak
    && if v.dead then p.respawnAt == RESPAWN_DELAY else p.invulnUntil == 0
  }

  /** Player `id` shows the entry at `id - 1`. */
  ghost predicate Shows(w: State, vs: seq<Vital>) {
    && |vs| == 4 && w.tick == 0 && w.modes == PLAIN && w.order == [1, 2, 3, 4]
    && forall i :: 0 <= i < 4 ==> Shown(w, i + 1, vs[i])
  }

  function Fragged(vs: seq<Vital>, i: nat): seq<Vital>
    requires i < |vs|
  {
    var v := vs[i];
    vs[i := Vital(if (v.streak + 1) % KILLSTREAK_STEP == 0 then FULL_HP else v.hp, v.dead, v.streak + 1)]
  }

  function Hurt(vs: seq<Vital>, i: nat, by': nat, dmg: nat): seq<Vital>
    requires i < |vs| && by' < |vs|
  {
    if dmg < vs[i].hp then vs[i := vs[i].(hp := vs[i].hp - dmg)] else Fragged(vs[i := Vital(0, true, 0)], by')
  }

  lemma KillShows(w: State, vs: seq<Vital>, i: nat)
    requires Shows(w, vs) && i < 4 && ((vs[i].streak + 1) % KILLSTREAK_STEP == 0 ==> vs[i].dead)
    ensures Shows(RecordKill(Put(w, w.players[i + 1].(kills := w.players[i + 1].kills + 1)), i + 1), Fragged(vs, i))
  {
    assert Shown(w, i + 1, vs[i]);
    var w' := RecordKill(Put(w, w.players[i + 1].(kills := w.players[i + 1].kills + 1)), i + 1);
    forall k | 0 <= k < 4
      ensures Shown(w', k + 1, Fragged(vs, i)[k])
    {
      assert Shown(w, k + 1, vs[k]);
    }
  }

  lemma PutShows(w: State, vs: seq<Vital>, i: nat, p: Player, v: Vital, events: seq<Event>)
    requires Shows(w, vs) && i < 4 && p.id == i + 1 && Shown(w.(players := map[i + 1 := p]), i + 1, v)
    ensures Shows(Put(w, p).(events := events), vs[i := v])
  {
    var (w', vs') := (Put(w, p).(events := events), vs[i := v]);
    forall k | 0 <= k < 4
      ensures Shown(w', k + 1, vs'[k])
    {
      assert Shown(w, k + 1, vs[k]);
    }
  }

  lemma DamageShows(w: State, vs: seq<Vital>, i: nat, by': nat, dmg: nat)
    requires Shows(w, vs) && i < 4 && by' < 4 && i != by' && !vs[i].dead && vs[i].hp > 0
    requires (vs[by'].streak + 1) % KILLSTREAK_STEP == 0 ==> vs[by'].dead
    ensures Shows(ApplyDamage(w, i + 1, by' + 1, dmg), Hurt(vs, i, by', dmg))
  {
    assert Shown(w, i + 1, vs[i]);
    assert Shown(w, by' + 1, vs[by']);
    var p := Wounded(w.players[i + 1], dmg);
    var es := w.events + [Hit(by' + 1, i + 1, dmg, p.hp)];
    if dmg < vs[i].hp {
      PutShows(w, vs, i, p, vs[i].(hp := vs[i].hp - dmg), es);
    } else {
      var w1 := Put(w, p).(events := es);
      var w2 := Put(w1, Killed(p, 0)).(events := es + [Death(by' + 1, i + 1)]);
      assert w2 == Put(w, Killed(p, 0)).(events := es + [Death(by' + 1, i + 1)]);
      PutShows(w, vs, i, Killed(p, 0), Vital(0, true, 0), es + [Death(by' + 1, i + 1)]);
      hide Shows, Shown, Killed, Wounded, RecordKill;
      KillShows(w2, vs[i := Vital(0, true, 0)], by');
      assert Shows(w2, vs[i := Vital(0, true, 0)]);
      SeatTaken(w2, vs[i := Vital(0, true, 0)], by');
    }
  }

  lemma SeatTaken(w: State, vs: seq<Vital>, i: nat)
    requires Shows(w, vs) && i < 4
    ensures i + 1 in w.players
  {
    assert Shown(w, i + 1, vs[i]);
  }

  // ----- a blast

  /** The harm of a blast at `ex` to the player in place `i`. */
  function Harm(ex: real, i: nat): nat {
    if SpotOf(i + 1) - ex == 3.0 || SpotOf(i + 1) - ex == -3.0 then 63 else 46
  }

  function Blast(vs: seq<Vital>, by': nat, ex: real, i: nat): (r: seq<Vital>)
    requires i < |vs| && by' < |vs|
    ensures |r| == |vs|
  {
    if i == by' || vs[i].dead then vs else Hurt(vs, i, by', Harm(ex, i))
  }

  predicate NearBlast(ex: real, i: nat) {
    var d := SpotOf(i + 1) - ex;
    d == 3.0 || d == -3.0 || d == 37.0 || d == -37.0
  }

  lemma Falloff(root: real -> real, d: real)
    requires IsRoot(root) && (d == 3.0 || d == -3.0 || d == 37.0 || d == -37.0)
    ensures var d2 := Sq(d) + Sq(0.0);
      && d2 <= Sq(130.0)
      && SplashDamage(TheEnv(root), WeaponSpecOf(4), d2) == if d == 3.0 || d == -3.0 then 63 else 46
  {
    var v := if d < 0.0 then -d else d;
    SqSigns(d);
    SqSigns(0.0);
    SqMono(v, 130.0);
    F.RootOfSquare(root, v);
    hide IsRoot, Sq;
    assert root(Sq(d) + Sq(0.0)) == v;
    assert Quot(v, 130.0) == v / 130.0;
    assert Mul(65.0, 1.0 - v / 130.0) == 65.0 - v / 2.0;
  }

  lemma InReach(w: State, vs: seq<Vital>, pr: Projectile, i: nat)
    requires Shows(w, vs) && i < 4 && pr.rewind == 0
    ensures Eligible(w, pr, i + 1) <==> i + 1 != pr.owner && !vs[i].dead
    ensures i + 1 in w.players && TargetPos(w.players[i + 1], w.tick, pr.rewind) == Pos(SpotOf(i + 1), ROW)
  {
    assert Shown(w, i + 1, vs[i]);
  }

  lemma SplashTakes(root: real -> real, w: State, vs: seq<Vital>, pr: Projectile, ex: real, i: nat)
    requires IsRoot(root) && Shows(w, vs) && i < 4 && pr.weapon == 4 && pr.rewind == 0 && NearBlast(ex, i)
    ensures Splash(TheEnv(root), w, pr, ex, ROW, i + 1)
         == if i + 1 == pr.owner || vs[i].dead then w else ApplyDamage(w, i + 1, pr.owner, Harm(ex, i))
  {
    hide Shows, ApplyDamage, SplashDamage, Sq, IsRoot, TheEnv, Eligible, TargetPos;
    InReach(w, vs, pr, i);
    Falloff(root, SpotOf(i + 1) - ex);
  }

  lemma BlastShows(root: real -> real, w: State, vs: seq<Vital>, pr: Projectile, ex: real, i: nat)
    requires IsRoot(root) && Shows(w, vs) && i < 4 && NearBlast(ex, i)
    requires 1 <= pr.owner <= 4 && pr.weapon == 4 && pr.rewind == 0
    requires !vs[i].dead ==> vs[i].hp > 0
    requires var v := vs[pr.owner - 1]; (v.streak + 1) % KILLSTREAK_STEP == 0 ==> v.dead
    ensures Shows(Splash(TheEnv(root), w, pr, ex, ROW, i + 1), Blast(vs, pr.owner - 1, ex, i))
  {
    SplashTakes(root, w, vs, pr, ex, i);
    hide Shows, Splash, ApplyDamage, Hurt, IsRoot, TheEnv, NearBlast, Harm;
    if i + 1 != pr.owner && !vs[i].dead {
      DamageShows(w, vs, i, pr.owner - 1, Harm(ex, i));
    }
  }

  /** A rocket that ends next to a living player goes off there. */
  lemma EndStrikes(pr: Projectile, ex: real, cx: real)
    requires pr.y == ROW && (cx - ex == 3.0 || cx - ex == -3.0)
    ensures SegmentCircleHit(pr.x, pr.y, ex, ROW, cx, ROW, HIT_RADIUS)
  {
    MulUnits(ex - pr.x);
    MulUnits(ROW - pr.y);
    SqSigns(3.0);
    SqSigns(0.0);
    SqMono(3.0, HIT_RADIUS);
    hide Mul, Sq;
    HitIsExact(pr.x, pr.y, ex, ROW, cx, ROW, HIT_RADIUS, 1.0);
  }

  lemma {:induction false} SomebodyHit(w: State, pr: Projectile, ex: real, ids: seq<nat>, k: nat)
    requires k < |ids| && Struck(w, pr, ex, ROW, ids[k])
    ensures LinearHit(w, pr, ex, ROW, ids).Some?
    decreases |ids|
  {
    hide Struck;
    if !Struck(w, pr, ex, ROW, ids[0]) {
      SomebodyHit(w, pr, ex, ids[1..], k - 1);
    }
  }

  lemma TargetStruck(w: State, vs: seq<Vital>, pr: Projectile, ex: real, i: nat)
    requires Shows(w, vs) && i < 4 && i + 1 != pr.owner && !vs[i].dead && pr.rewind == 0 && pr.y == ROW
    requires SpotOf(i + 1) - ex == 3.0 || SpotOf(i + 1) - ex == -3.0
    ensures LinearHit(w, pr, ex, ROW, w.order).Some?
  {
    assert Shown(w, i + 1, vs[i]);
    EndStrikes(pr, ex, SpotOf(i + 1));
    hide SegmentCircleHit;
    assert w.order[i] == i + 1;
    SomebodyHit(w, pr, ex, w.order, i);
  }

  lemma MissileFlies(root: real -> real, f: Flight, vs: seq<Vital>, n: nat, owner: nat, aim: U16, i: nat)
    requires Shows(f.w, vs) && i < 4 && i + 1 != owner && !vs[i].dead && IsRoot(root)
    requires var d := SpotOf(i + 1) - (SpotOf(owner) + 37.0 * Way(aim)); d == 3.0 || d == -3.0
    ensures var pr := Missile(n, owner, aim);
      var w := Explode(TheEnv(root), f.w, pr, SpotOf(owner) + 37.0 * Way(aim), ROW);
      Fly(TheEnv(root), f, pr, DT) == Flight(w, f.kept)
  {
    var pr := Missile(n, owner, aim);
    var ex := SpotOf(owner) + 37.0 * Way(aim);
    MulUnits(DT);
    assert Mul(pr.vx, DT) == 16.0 * Way(aim);
    TargetStruck(f.w, vs, pr, ex, i);
    NoWallInRow(pr.x, ex - pr.x);
    hide Mul, Shows, FirstWallTime, LinearHit, Explode, AllProper;
  }

  function Blasts(vs: seq<Vital>, by': nat, ex: real): seq<Vital>
    requires |vs| == 4 && by' < 4
  {
    Blast(Blast(Blast(Blast(vs, by', ex, 0), by', ex, 1), by', ex, 2), by', ex, 3)
  }

  /** Before a blast of `by'`: the living have health left, and nobody living is two frags
      away from a milestone. */
  ghost predicate Tame(vs: seq<Vital>, by': nat, ex: real, i: nat) {
    && i < 4 == |vs| && by' < 4 && NearBlast(ex, i) && (!vs[i].dead ==> vs[i].hp > 0)
    && ((vs[by'].streak + 1) % KILLSTREAK_STEP == 0 ==> vs[by'].dead)
  }

  ghost predicate TameBlast(vs: seq<Vital>, o: nat, ex: real) {
    && |vs| == 4 && o < 4
    && var a := Blast(vs, o, ex, 0);
    var b := Blast(a, o, ex, 1);
    Tame(vs, o, ex, 0) && Tame(a, o, ex, 1) && Tame(b, o, ex, 2) && Tame(Blast(b, o, ex, 2), o, ex, 3)
  }

  lemma TameShows(root: real -> real, w: State, vs: seq<Vital>, pr: Projectile, ex: real, i: nat)
    requires IsRoot(root) && Shows(w, vs) && 1 <= pr.owner <= 4 && pr.weapon == 4 && pr.rewind == 0
    requires Tame(vs, pr.owner - 1, ex, i)
    ensures Shows(Splash(TheEnv(root), w, pr, ex, ROW, i + 1), Blast(vs, pr.owner - 1, ex, i))
  {
    hide IsRoot, TheEnv, Splash, Blast, NearBlast, Shows;
    BlastShows(root, w, vs, pr, ex, i);
  }

  lemma FourSplashes(env: Env, w: State, pr: Projectile, ex: real)
    requires w.order == [1, 2, 3, 4]
    ensures var w2 := Splash(env, Splash(env, w, pr, ex, ROW, 1), pr, ex, ROW, 2);
      Explode(env, w, pr, ex, ROW) == Splash(env, Splash(env, w2, pr, ex, ROW, 3), pr, ex, ROW, 4)
  {
    hide Splash, Fold;
    FoldFour(SplashOf(env, pr, ex, ROW), w, 1, 2, 3, 4);
  }

  lemma ShowsOrder(w: State, vs: seq<Vital>)
    requires Shows(w, vs)
    ensures w.order == [1, 2, 3, 4]
  {
  }

  lemma TwoShow(root: real -> real, w: State, vs: seq<Vital>, pr: Projectile, ex: real, i: nat)
    requires IsRoot(root) && Shows(w, vs) && 1 <= pr.owner <= 4 && pr.weapon == 4 && pr.rewind == 0
    requires Tame(vs, pr.owner - 1, ex, i) && Tame(Blast(vs, pr.owner - 1, ex, i), pr.owner - 1, ex, i + 1)
    ensures Shows(Splash(TheEnv(root), Splash(TheEnv(root), w, pr, ex, ROW, i + 1), pr, ex, ROW, i + 2),
                  Blast(Blast(vs, pr.owner - 1, ex, i), pr.owner - 1, ex, i + 1))
  {
    hide Shows, Splash, Blast, IsRoot, TheEnv;
    TameShows(root, w, vs, pr, ex, i);
    TameShows(root, Splash(TheEnv(root), w, pr, ex, ROW, i + 1), Blast(vs, pr.owner - 1, ex, i), pr, ex, i + 1);
  }

  lemma ExplosionShows(root: real -> real, w: State, vs: seq<Vital>, pr: Projectile, ex: real)
    requires IsRoot(root) && Shows(w, vs) && 1 <= pr.owner <= 4 && pr.weapon == 4 && pr.rewind == 0
    requires TameBlast(vs, pr.owner - 1, ex)
    ensures Shows(Explode(TheEnv(root), w, pr, ex, ROW), Blasts(vs, pr.owner - 1, ex))
  {
    var (env, o) := (TheEnv(root), pr.owner - 1);
    hide Shows, Splash, Blast, Explode, IsRoot, TheEnv, Tame;
    ShowsOrder(w, vs);
    FourSplashes(env, w, pr, ex);
    TwoShow(root, w, vs, pr, ex, 0);
    var w2 := Splash(env, Splash(env, w, pr, ex, ROW, 1), pr, ex, ROW, 2);
    TwoShow(root, w2, Blast(Blast(vs, o, ex, 0), o, ex, 1), pr, ex, 2);
  }

  // ----- the crossing

  const UNHURT: seq<Vital> := [Vital(100, false, 0), Vital(100, false, 0), Vital(100, false, 0), Vital(100, false, 0)]
  const GRAZED: seq<Vital> := [Vital(100, false, 0), Vital(54, false, 0), Vital(54, false, 0), Vital(37, false, 0)]
  const LONER_DEAD: seq<Vital> := [Vital(54, false, 0), Vital(54, false, 1), Vital(8, false, 0), Vital(0, true, 0)]
  const ALL_DEAD: seq<Vital> := [Vital(0, true, 0), Vital(0, true, 0), Vital(0, true, 0), Vital(100, true, 3)]

  lemma FirstBlast()
    ensures TameBlast(UNHURT, 0, 549.0) && Blasts(UNHURT, 0, 549.0) == GRAZED
  {
  }

  lemma SecondBlast()
    ensures TameBlast(GRAZED, 1, 549.0) && Blasts(GRAZED, 1, 549.0) == LONER_DEAD
  {
  }

  lemma ThirdBlast()
    ensures TameBlast(LONER_DEAD, 3, 515.0) && Blasts(LONER_DEAD, 3, 515.0) == ALL_DEAD
  {
  }

  lemma MissileLands(root: real -> real, f: Flight, vs: seq<Vital>, n: nat, owner: nat, aim: U16, i: nat, ex: real)
    requires IsRoot(root) && Shows(f.w, vs) && i < 4 && 1 <= owner <= 4 && i + 1 != owner && !vs[i].dead
    requires ex == SpotOf(owner) + 37.0 * Way(aim) && (SpotOf(i + 1) - ex == 3.0 || SpotOf(i + 1) - ex == -3.0)
    requires TameBlast(vs, owner - 1, ex)
    ensures var g := Fly(TheEnv(root), f, Missile(n, owner, aim), DT);
      g.kept == f.kept && Shows(g.w, Blasts(vs, owner - 1, ex))
  {
    hide IsRoot, TheEnv, Fly, Explode, Shows, TameBlast, Blasts, SpotOf, Way;
    MissileFlies(root, f, vs, n, owner, aim, i);
    ExplosionShows(root, f.w, vs, Missile(n, owner, aim), ex);
  }

  lemma VolleyShows()
    ensures Shows(Volleyed(), UNHURT)
    ensures Volleyed().projectiles == [Missile(5, 1, 0), Missile(6, 2, 0), Missile(7, 4, 0x8000)]
  {
    ReadyIsClear();
    hide Missile, Loaded, Ready;
    assert Ready().projectiles == [] && Ready().modes == PLAIN && Ready().nextID == 5 by {
      ReadyRest();
    }
  }

  lemma ReadyRest()
    ensures Ready().projectiles == [] && Ready().modes == PLAIN && Ready().nextID == 5 && Ready().events == []
    ensures Ready().phase == Active && Ready().matchAt == MATCH_DURATION && Ready().tick == 0
  {
    hide Loaded, Newcomer;
  }

  /** All rockets land: everybody is dead, and the fourth player in full health. */
  lemma Crossing(root: real -> real)
    requires IsRoot(root)
    ensures Shows(StepProjectiles(TheEnv(root), Volleyed(), DT), ALL_DEAD)
  {
    var (env, f0) := (TheEnv(root), Flight(Volleyed(), []));
    var (m1, m2, m3) := (Missile(5, 1, 0), Missile(6, 2, 0), Missile(7, 4, 0x8000));
    VolleyShows();
    FirstBlast();
    SecondBlast();
    ThirdBlast();
    hide Fly, Shows, TameBlast, Blasts, Missile, Volleyed, TheEnv, IsRoot, Fold;
    MissileLands(root, f0, UNHURT, 5, 1, 0, 3, 549.0);
    var f1 := Fly(env, f0, m1, DT);
    MissileLands(root, f1, GRAZED, 6, 2, 0, 3, 549.0);
    var f2 := Fly(env, f1, m2, DT);
    MissileLands(root, f2, LONER_DEAD, 7, 4, 0x8000, 0, 515.0);
    FoldThree(FlyOf(env, DT), f0, m1, m2, m3);
    NoShotsShow(Fly(env, f2, m3, DT).w, ALL_DEAD, []);
  }

  lemma FoldThree<S, A>(f: (S, A) -> S, s: S, a: A, b: A, c: A)
    ensures Fold(f, s, [a, b, c]) == f(f(f(s, a), b), c)
  {
    FoldOne(f, s, [], a);
    FoldOne(f, s, [a], b);
    FoldOne(f, s, [a, b], c);
    assert [] + [a] == [a] && [a] + [b] == [a, b] && [a, b] + [c] == [a, b, c];
  }

  lemma NoShotsShow(w: State, vs: seq<Vital>, kept: seq<Projectile>)
    requires Shows(w, vs)
    ensures Shows(w.(projectiles := kept), vs)
  {
    forall i | 0 <= i < 4
      ensures Shown(w.(projectiles := kept), i + 1, vs[i])
    {
      assert Shown(w, i + 1, vs[i]);
    }
  }

  // ----- the rest of the tick

  /** Nobody is due to respawn at tick 0. */
  lemma NobodyReturns(env: Env, w: State)
    requires Shows(w, ALL_DEAD)
    ensures Respawns(env, w) == w
  {
    AllStayDead(env, w);
    hide Shows, RespawnIfDue, Fold;
    FoldFour(RespawnOf(env), w, 1, 2, 3, 4);
    assert w.order == [1, 2, 3, 4] by {
      ShowsOrder(w, ALL_DEAD);
    }
  }

  lemma AllStayDead(env: Env, w: State)
    requires Shows(w, ALL_DEAD)
    ensures forall id :: 1 <= id <= 4 ==> RespawnIfDue(env, w, id) == w
  {
    forall id | 1 <= id <= 4
      ensures RespawnIfDue(env, w, id) == w
    {
      assert Shown(w, id - 1 + 1, ALL_DEAD[id - 1]);
    }
  }

  /** Without flags, and before the match ends, nothing but the objectives follows combat. */
  lemma QuietEnd(env: Env, w: State)
    requires !w.modes.ctf && w.tick + 1 < w.matchAt
    ensures StepCTF(w) == w
    ensures StepMatch(env, w.(tick := w.tick + 1)) == w.(tick := w.tick + 1)
  {
    hide Captures, Touches, TendFlag, EndMatch, StartMatch;
  }

  /** Objectives, flags, match and history leave the dead as they are. */
  lemma DeadAreLeft(env: Env, w: State, id: nat)
    requires WorldOk(w) && id in w.players && w.players[id].dead && !w.modes.ctf && w.tick + 1 < w.matchAt
    ensures var w1 := StepCTF(Objectives(env, w));
      var w' := RecordHistory(StepMatch(env, w1.(tick := w1.tick + 1)));
      id in w'.players && w'.players[id].dead && w'.players[id].hp == w.players[id].hp
  {
    var w1 := Objectives(env, w);
    hide Objectives, WorldOk, StepCTF, StepMatch, Fold;
    C.ObjectivesStill(env, w);
    QuietEnd(env, w1);
    PlayerIds(w1);
    C.RecordedPrefix(w1.(tick := w1.tick + 1), w1.order);
  }

  lemma CombatEnds(root: real -> real)
    requires IsRoot(root)
    ensures Shows(Combat(TheEnv(root), Ready(), DT), ALL_DEAD)
  {
    ReadyRest();
    hide *;
    FourTurns(root);
    Crossing(root);
    NobodyReturns(TheEnv(root), StepProjectiles(TheEnv(root), Volleyed(), DT));
    CombatOf(TheEnv(root), Ready());
  }

  /** The tick of the crossing ends with the fourth player dead and in full health. */
  lemma TickEndsInHealth(root: real -> real)
    requires IsRoot(root) && EnvOk(TheEnv(root)) && WorldOk(Ready())
    ensures var w := Step(TheEnv(root), Ready(), DT); 4 in w.players && w.players[4].dead && w.players[4].hp == FULL_HP
  {
    ReadyRest();
    hide *;
    var (env, w) := (TheEnv(root), Ready());
    CombatEnds(root);
    var w3 := Combat(env, w, DT);
    LonerShown(w3);
    CombatOk(env, w, DT);
    KeptClock(w, w3);
    DeadAreLeft(env, w3, 4);
    StepOf(env, w);
  }

  lemma LonerShown(w: State)
    requires Shows(w, ALL_DEAD)
    ensures 4 in w.players && w.players[4].dead && w.players[4].hp == FULL_HP
  {
    assert Shown(w, 3 + 1, ALL_DEAD[3]);
  }

  lemma CombatOf(env: Env, w: State)
    requires w.events == []
    ensures Combat(env, w, DT) == Respawns(env, StepProjectiles(env, PlayerTurns(env, w), DT))
  {
    assert w.(events := []) == w;
    hide Respawns, StepProjectiles, PlayerTurns;
  }

  lemma StepOf(env: Env, w: State)
    ensures var w1 := StepCTF(Objectives(env, Combat(env, w, DT)));
      Step(env, w, DT) == RecordHistory(StepMatch(env, w1.(tick := w1.tick + 1)))
  {
    hide Combat, Objectives, StepCTF, StepMatch, RecordHistory;
  }

  lemma KeptClock(w: State, w': State)
    requires KeepsOk(w, w') && w.tick == 0 && w.matchAt == MATCH_DURATION && w.modes == PLAIN
    ensures WorldOk(w') && !w'.modes.ctf && w'.tick + 1 < w'.matchAt
  {
    hide WorldOk;
  }

  /** A run, from an empty room, to a dead player in full health. */
  lemma PosthumousRun(root: real -> real)
    requires IsRoot(root)
    ensures EnvOk(TheEnv(root))
    ensures var w := Run(TheEnv(root), NewWorld(0, PLAIN), ACTS, DT);
      4 in w.players && w.players[4].dead && w.players[4].hp == FULL_HP
  {
    var env := TheEnv(root);
    TheEnvOk(root);
    NobodyYet();
    forall n: nat | n < 4
      ensures AddPlayer(env, Joined(n), []).0 == Joined(n + 1)
    {
      OneJoins(root, n);
    }
    hide IsRoot, TheEnv, AddPlayer, Joined, NewWorld, Step, Run, EnvOk;
    ReadyOk(env);
    AllReady(env, NewWorld(0, PLAIN), DT);
    TickEndsInHealth(root);
  }

  lemma NobodyYet()
    ensures NewWorld(0, PLAIN) == Joined(0)
  {
  }
}
