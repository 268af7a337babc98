/** What every step of the simulation does, internal/game: combat.go, killstreak.go,
    pickups.go, match.go, ctf.go and world.go, each loop written as a fold over the
    state. The class World runs these rules in place. */
module Rules {
  import opened Wrappers
  import opened Wire
  import opened Reals
  import opened Walls
  import opened Segments
  import opened Movement
  import opened Arena
  import opened Ids
  import opened HitGrid

  // ----- spawning

  const SPAWN_TRIES := 16
  const SPAWN_CLEARANCE := 48.0
  const SPAWN_MARGIN := 128.0

  function SpawnCoord(env: Env, rng: int): real {
    SPAWN_MARGIN + Mul(env.unit(rng), MAP_SIZE - 2.0 * SPAWN_MARGIN)
  }

  /** `tries` throws left; the last point is (x, y). */
  function SpawnFrom(env: Env, rng: int, tries: nat, x: real, y: real): (MoveState, int)
    decreases tries
  {
    if tries == 0 then
      var p := ResolvedBy(env.root, x, y, PLAYER_RADIUS, WALLS);
      (MoveState(p.0, p.1, 0.0, 0.0, 0.0, 0.0), rng)
    else
      var (x', rng1) := (SpawnCoord(env, rng), env.afterUnit(rng));
      var (y', rng2) := (SpawnCoord(env, rng1), env.afterUnit(rng1));
      if ClearOf(WALLS, x', y', PLAYER_RADIUS + SPAWN_CLEARANCE) then (MoveState(x', y', 0.0, 0.0, 0.0, 0.0), rng2)
      else SpawnFrom(env, rng2, tries - 1, x', y')
  }

  function SpawnPoint(env: Env, rng: int): (MoveState, int) {
    SpawnFrom(env, rng, SPAWN_TRIES, 0.0, 0.0)
  }

  function Respawned(p: Player, m: MoveState, tick: nat): Player {
    InitHistory(p.(move := m, hp := FULL_HP, dead := false, nextFireTick := 0, rapidUntil := 0, spreadUntil := 0,
                   invulnUntil := tick + SPAWN_INVULN))
  }

  function Respawn(env: Env, w: State, id: nat): State {
    if id !in w.players then w
    else
      var (m, rng) := SpawnPoint(env, w.rng);
      Put(w, Respawned(w.players[id], m, w.tick)).(rng := rng, events := w.events + [Spawn(id, m.x, m.y)])
  }

  function RespawnIfDue(env: Env, w: State, id: nat): State {
    if id in w.players && w.players[id].dead && w.tick >= w.players[id].respawnAt then Respawn(env, w, id) else w
  }

  // ----- joining and leaving

  function TeamCount(w: State, ids: seq<nat>, team0: bool): nat {
    if ids == [] then 0
    else
      var id := ids[|ids| - 1];
      TeamCount(w, ids[..|ids| - 1], team0) + (if id in w.players && (w.players[id].team == 0) == team0 then 1 else 0)
  }

  function SmallerTeam(w: State): nat {
    if TeamCount(w, w.order, false) < TeamCount(w, w.order, true) then 1 else 0
  }

  /** The id inserted at its place in an ascending sequence. */
  function InsertId(ids: seq<nat>, id: nat): seq<nat> {
    if ids == [] || id <= ids[0] then [id] + ids else [ids[0]] + InsertId(ids[1..], id)
  }

  function RemoveId(ids: seq<nat>, id: nat): seq<nat> {
    if ids == [] then [] else if ids[0] == id then ids[1..] else [ids[0]] + RemoveId(ids[1..], id)
  }

  function NewPlayer(id: nat, name: Bytes, m: MoveState, team: nat): Player {
    Player(id, name, m, FULL_HP, team, 0, [], 0, false, false, 0, 0, 0, 0, 0, 0, PISTOL, 0, 0, 0, 0, 0, Flat(m.x, m.y))
  }

  function AddPlayer(env: Env, w: State, name: Bytes): (State, Option<nat>) {
    var (id, cursor) := Alloc(w);
    match id
    case None => (w.(nextID := cursor), None)
    case Some(i) =>
      var (m, rng) := SpawnPoint(env, w.rng);
      var team := if w.modes.team then SmallerTeam(w) else 0;
      (Put(w, NewPlayer(i, name, m, team)).(nextID := cursor, rng := rng, order := InsertId(w.order, i)), Some(i))
  }

  function RemovePlayer(w: State, id: nat): State {
    if id in w.players then w.(players := w.players - {id}, order := RemoveId(w.order, id)) else w
  }

  predicate AcceptsInput(w: State, id: nat, inp: Input) {
    id in w.players && !(w.players[id].hasQueued && inp.seq_ <= w.players[id].lastQueuedSeq)
  }

  function EnqueueInput(w: State, id: nat, inp: Input): State {
    if AcceptsInput(w, id, inp) then
      var p := w.players[id];
      Put(w, p.(inputs := p.inputs + [inp], lastQueuedSeq := inp.seq_, hasQueued := true))
    else w
  }

  // ----- firing

  function NewShot(env: Env, p: Player, id: nat, ang: real, rewind: int): Projectile {
    var (dx, dy) := (env.cos(ang), env.sin(ang));
    var speed := WeaponSpecOf(p.weapon).speed;
    var off := PLAYER_RADIUS + PROJECTILE_RADIUS + 1.0;
    Projectile(id, p.id, p.move.x + Mul(dx, off), p.move.y + Mul(dy, off),
               Mul(dx, speed), Mul(dy, speed), PROJECTILE_LIFE, rewind, p.team, p.weapon)
  }

  function SpawnProjectile(env: Env, w: State, id: nat, ang: real, rewind: int): State {
    if id !in w.players || |w.projectiles| >= MAX_PROJECTILES then w
    else
      var (nid, cursor) := Alloc(w);
      match nid
      case None => w.(nextID := cursor)
      case Some(n) => w.(nextID := cursor, projectiles := w.projectiles + [NewShot(env, w.players[id], n, ang, rewind)])
  }

  /** `n` pellets fanned out symmetrically, `step` apart, from angle `start` on. */
  function SpawnFan(env: Env, w: State, id: nat, start: real, step: real, rewind: int, n: nat): State {
    if n == 0 then w
    else
      var front := SpawnFan(env, w, id, start, step, rewind, n - 1);
      SpawnProjectile(env, front, id, start + Mul(step, (n - 1) as real), rewind)
  }

  /** The rewind a shot is stamped with: 0 when the client has seen nothing yet. */
  function RewindOf(tick: nat, viewTick: nat): int {
    if viewTick == 0 then 0 else ClampRewind(tick - viewTick)
  }

  function Cooldown(p: Player, tick: nat): nat {
    var cd := WeaponSpecOf(p.weapon).cooldown;
    if tick < p.rapidUntil then (if cd / 3 < 1 then 1 else cd / 3) else cd
  }

  /** One pellet straight ahead, or a fan around that angle. */
  function Volley(env: Env, w: State, id: nat, ang: real, rewind: int, pellets: nat, step: real): State {
    if pellets <= 1 then SpawnProjectile(env, w, id, ang, rewind)
    else SpawnFan(env, w, id, ang - Mul(step, (pellets - 1) as real) / 2.0, step, rewind, pellets)
  }

  function Triggered(p: Player, tick: nat): Player {
    p.(nextFireTick := tick + Cooldown(p, tick), invulnUntil := 0)
  }

  function Fire(env: Env, w: State, id: nat, inp: Input): State
    requires id in w.players
  {
    var p := w.players[id];
    var spec := WeaponSpecOf(p.weapon);
    var fan := w.tick < p.spreadUntil && spec.pellets == 1;
    Volley(env, w.(players := w.players[id := Triggered(p, w.tick)]), id,
           env.radians(inp.aim), RewindOf(w.tick, inp.viewTick),
           if fan then SPREAD_COUNT else spec.pellets, if fan then SPREAD_STEP else spec.spread)
  }

  predicate CanFire(w: State, id: nat) {
    id in w.players && w.tick >= w.players[id].nextFireTick && |w.projectiles| < MAX_PROJECTILES
  }

  function TryFire(env: Env, w: State, id: nat, inp: Input): State {
    if CanFire(w, id) then Fire(env, w, id, inp) else w
  }

  // ----- inputs

  function WeaponSelect(inp: Input): nat {
    inp.buttons / 32
  }

  /** Movement, the processed sequence number and the weapon switch of one input. */
  function Driven(env: Env, p: Player, inp: Input): Player {
    var sel := WeaponSelect(inp);
    p.(move := Moved(env.root, p.move, inp, INPUT_DT),
       lastProcessedSeq := if inp.seq_ > p.lastProcessedSeq then inp.seq_ else p.lastProcessedSeq,
       weapon := if 0 < sel <= WEAPON_COUNT then sel else p.weapon)
  }

  function ApplyInput(env: Env, w: State, id: nat, inp: Input): State {
    if id !in w.players then w
    else
      var w1 := Put(w, Driven(env, w.players[id], inp));
      if Has(inp.buttons, BTN_FIRE) then TryFire(env, w1, id, inp) else w1
  }

  function InputOf(env: Env, id: nat): (State, Input) -> State {
    (s: State, inp: Input) => ApplyInput(env, s, id, inp)
  }

  function ApplyInputs(env: Env, w: State, id: nat, inputs: seq<Input>): State {
    Fold(InputOf(env, id), w, inputs)
  }

  function Drained(w: State, id: nat): State {
    if id in w.players then Put(w, w.players[id].(inputs := [])) else w
  }

  /** One player's turn: the dead only lose their queue. */
  function PlayerTurn(env: Env, w: State, id: nat): State {
    if id !in w.players then w
    else if w.players[id].dead then Drained(w, id)
    else Drained(ApplyInputs(env, w, id, w.players[id].inputs), id)
  }

  function TurnOf(env: Env): (State, nat) -> State {
    (s: State, id: nat) => PlayerTurn(env, s, id)
  }

  function PlayerTurns(env: Env, w: State): State {
    Fold(TurnOf(env), w, w.order)
  }

  // ----- damage

  function RecordKill(w: State, id: nat): State {
    if id !in w.players then w
    else
      var p := w.players[id].(streak := w.players[id].streak + 1);
      if p.streak % KILLSTREAK_STEP != 0 then Put(w, p)
      else
        Put(w, p.(hp := FULL_HP, invulnUntil := w.tick + KILLSTREAK_INVULN))
          .(events := w.events + [Killstreak(id, p.streak)])
  }

  function Wounded(p: Player, dmg: nat): Player {
    p.(hp := if dmg >= p.hp then 0 else p.hp - dmg)
  }

  function Killed(p: Player, tick: nat): Player {
    p.(dead := true, respawnAt := tick + RESPAWN_DELAY, move := p.move.(vx := 0.0, vy := 0.0),
       deaths := p.deaths + 1, streak := 0)
  }

  /** The frag goes to the attacker, unless it killed itself or is gone. */
  function Credit(w: State, victim: nat, attacker: nat): State {
    if attacker != victim && attacker in w.players then
      RecordKill(Put(w, w.players[attacker].(kills := w.players[attacker].kills + 1)), attacker)
    else w
  }

  function Die(w: State, p: Player, attacker: nat): State {
    Credit(Put(w, Killed(p, w.tick)).(events := w.events + [Death(attacker, p.id)]), p.id, attacker)
  }

  function ApplyDamage(w: State, victim: nat, attacker: nat, dmg: nat): State {
    if victim !in w.players || w.players[victim].hp == 0 then w
    else
      var p := Wounded(w.players[victim], dmg);
      var w1 := Put(w, p).(events := w.events + [Hit(attacker, victim, dmg, p.hp)]);
      if p.hp != 0 then w1 else Die(w1, p, attacker)
  }

  /** Linear falloff from the centre of a blast to its rim, rounded down. */
  function SplashDamage(env: Env, spec: WeaponSpec, d2: real): nat {
    var f := Mul(spec.splashDamage as real, 1.0 - Quot(env.root(d2), spec.splashRadius));
    if f <= 0.0 then 0 else Truncate(f)
  }

  function Splash(env: Env, w: State, pr: Projectile, ix: real, iy: real, id: nat): State {
    if !Eligible(w, pr, id) then w
    else
      var spec := WeaponSpecOf(pr.weapon);
      var t := TargetPos(w.players[id], w.tick, pr.rewind);
      var d2 := Sq(t.x - ix) + Sq(t.y - iy);
      if d2 > Sq(spec.splashRadius) then w
      else
        var dmg := SplashDamage(env, spec, d2);
        if dmg == 0 then w else ApplyDamage(w, id, pr.owner, dmg)
  }

  function SplashOf(env: Env, pr: Projectile, ix: real, iy: real): (State, nat) -> State {
    (s: State, id: nat) => Splash(env, s, pr, ix, iy, id)
  }

  function Explode(env: Env, w: State, pr: Projectile, ix: real, iy: real): State {
    Fold(SplashOf(env, pr, ix, iy), w, w.order)
  }

  // ----- projectiles

  predicate OutOfBounds(x: real, y: real) {
    x < 0.0 || y < 0.0 || x > MAP_SIZE || y > MAP_SIZE
  }

  /** Where the tested part of the path ends: at the wall, or at the end of the tick. */
  function PathEnd(pr: Projectile, nx: real, ny: real, wall: Option<real>): (real, real) {
    match wall
    case Some(t) => (pr.x + Mul(t, nx - pr.x), pr.y + Mul(t, ny - pr.y))
    case None => (nx, ny)
  }

  ghost function WallOf(pr: Projectile, nx: real, ny: real): Option<real> {
    ArenaIsSeparated();
    FirstWallTime(WALLS, PROJECTILE_RADIUS, pr.x, pr.y, nx - pr.x, ny - pr.y)
  }

  function Detonate(env: Env, w: State, pr: Projectile, victim: Option<nat>, wallHit: bool, ex: real, ey: real): State {
    var spec := WeaponSpecOf(pr.weapon);
    if spec.splashRadius > 0.0 then
      if victim.Some? || wallHit then Explode(env, w, pr, ex, ey) else w
    else if victim.Some? then ApplyDamage(w, victim.value, pr.owner, spec.damage)
    else w
  }

  datatype Flight = Flight(w: State, kept: seq<Projectile>)

  /** One projectile's tick, with the victim of a linear scan. */
  ghost function Fly(env: Env, f: Flight, pr: Projectile, dt: real): Flight {
    var (nx, ny) := (pr.x + Mul(pr.vx, dt), pr.y + Mul(pr.vy, dt));
    var wall := WallOf(pr, nx, ny);
    var (ex, ey) := PathEnd(pr, nx, ny, wall);
    var victim := LinearHit(f.w, pr, ex, ey, f.w.order);
    var w' := Detonate(env, f.w, pr, victim, wall.Some?, ex, ey);
    if victim.Some? || wall.Some? || pr.life - 1 <= 0 || OutOfBounds(nx, ny) then Flight(w', f.kept)
    else Flight(w', f.kept + [pr.(x := nx, y := ny, life := pr.life - 1)])
  }

  ghost function FlyOf(env: Env, dt: real): (Flight, Projectile) -> Flight {
    (f: Flight, pr: Projectile) => Fly(env, f, pr, dt)
  }

  ghost function FlyAll(env: Env, w: State, prs: seq<Projectile>, dt: real): Flight {
    Fold(FlyOf(env, dt), Flight(w, []), prs)
  }

  ghost function StepProjectiles(env: Env, w: State, dt: real): State {
    var f := FlyAll(env, w, w.projectiles, dt);
    f.w.(projectiles := f.kept)
  }

  // ----- pickups

  const PICKUP_SPOTS: seq<Pos> := [
    Pos(700.0, 700.0), Pos(3396.0, 700.0), Pos(700.0, 3396.0), Pos(3396.0, 3396.0), Pos(2048.0, 3300.0)]
  const PICKUP_RADIUS := 18.0
  const PICKUP_RESPAWN := 240
  const MEDKIT_HEAL := 50
  const BUFF_DURATION := 180

  predicate Reaches(p: Player, x: real, y: real, r: real) {
    Sq(p.move.x - x) + Sq(p.move.y - y) <= Sq(r)
  }

  function Blessed(p: Player, kind: nat, tick: nat): Player {
    match kind
    case 1 => p.(hp := if p.hp + MEDKIT_HEAL > FULL_HP then FULL_HP else p.hp + MEDKIT_HEAL)
    case 2 => p.(rapidUntil := tick + BUFF_DURATION)
    case 3 => p.(spreadUntil := tick + BUFF_DURATION)
    case _ => p
  }

  /** The living player of least id on the spot. */
  function Taker(w: State, spot: Pos, ids: seq<nat>): Option<nat> {
    if ids == [] then None
    else if ids[0] in w.players && !w.players[ids[0]].dead
            && Reaches(w.players[ids[0]], spot.x, spot.y, PLAYER_RADIUS + PICKUP_RADIUS)
    then Some(ids[0])
    else Taker(w, spot, ids[1..])
  }

  function StepPickup(env: Env, w: State, i: nat): State {
    if i >= |w.pickups| || i >= |PICKUP_SPOTS| then w
    else
      var ps := w.pickups[i];
      if !ps.active then
        if w.tick >= ps.readyAt then
          w.(pickups := w.pickups[i := Pickup(true, 1 + env.pick(w.rng), ps.readyAt)], rng := env.afterPick(w.rng))
        else w
      else match Taker(w, PICKUP_SPOTS[i], w.order)
        case None => w
        case Some(id) =>
          if id !in w.players then w
          else Put(w, Blessed(w.players[id], ps.kind, w.tick))
            .(pickups := w.pickups[i := Pickup(false, ps.kind, w.tick + PICKUP_RESPAWN)])
  }

  function PickupOf(env: Env): (State, nat) -> State {
    (s: State, i: nat) => StepPickup(env, s, i)
  }

  function StepPickups(env: Env, w: State): State {
    Fold(PickupOf(env), w, [0, 1, 2, 3, 4])
  }

  // ----- king of the hill and domination

  /** A round control zone; its points count towards the hill or towards domination. */
  datatype Zone = Zone(x: real, y: real, r: real, hill: bool)

  const HILL := Zone(MAP_SIZE / 2.0, MAP_SIZE / 2.0, 300.0, true)
  const DOM_RADIUS := 256.0
  const DOM_POINTS: seq<Zone> := [
    Zone(1024.0, 1024.0, DOM_RADIUS, false), Zone(3072.0, 1024.0, DOM_RADIUS, false),
    Zone(2048.0, 3300.0, DOM_RADIUS, false)]

  predicate Inside(w: State, z: Zone, id: nat) {
    id in w.players && !w.players[id].dead && Reaches(w.players[id], z.x, z.y, z.r)
  }

  /** Those of `ids` inside a zone, in order. */
  function Insiders(w: State, z: Zone, ids: seq<nat>): seq<nat> {
    if ids == [] then []
    else
      var (front, id) := (Insiders(w, z, ids[..|ids| - 1]), ids[|ids| - 1]);
      if Inside(w, z, id) then front + [id] else front
  }

  predicate SideAmong(w: State, ids: seq<nat>, side: nat) {
    exists id :: id in ids && id in w.players && w.players[id].team % 2 == side
  }

  /** Do two players hold a zone together: as one team, or as the same player? */
  predicate SameSide(w: State, a: nat, b: nat)
    requires a in w.players && b in w.players
  {
    if w.modes.team then w.players[b].team % 2 == w.players[a].team else a == b
  }

  /** Who stands in a zone that only its own side stands in. */
  predicate Holds(w: State, z: Zone, id: nat) {
    id in w.order && Inside(w, z, id) && forall o :: o in w.order && Inside(w, z, o) ==> SameSide(w, id, o)
  }

  function Awarded(p: Player, z: Zone): Player {
    if z.hill then p.(hillScore := p.hillScore + 1) else p.(domScore := p.domScore + 1)
  }

  function ScoreZone(w: State, z: Zone): State {
    w.(players := map id | id in w.players :: if Holds(w, z, id) then Awarded(w.players[id], z) else w.players[id])
  }

  function StepHill(w: State): State {
    if w.modes.hill && w.phase.Active? then ScoreZone(w, HILL) else w
  }

  function StepDomination(w: State): State {
    if w.modes.dom && w.phase.Active? then
      ScoreZone(ScoreZone(ScoreZone(w, DOM_POINTS[0]), DOM_POINTS[1]), DOM_POINTS[2])
    else w
  }

  /** Pickups, the hill and the control points. */
  function Objectives(env: Env, w: State): State {
    StepDomination(StepHill(StepPickups(env, w)))
  }

  // ----- capture the flag

  const FLAG_BASES: seq<Pos> := [Pos(512.0, 2048.0), Pos(3584.0, 2048.0)]
  const FLAG_GRAB_RADIUS := 28.0
  const FLAG_BASE_RADIUS := 64.0
  const FLAG_RETURN := 600

  function BaseFlag(i: nat): Flag
    requires i < 2
  {
    Flag(AtBase, 0, FLAG_BASES[i].x, FLAG_BASES[i].y, 0)
  }

  function ResetFlags(w: State): State {
    w.(flags := [BaseFlag(0), BaseFlag(1)])
  }

  function WithFlag(w: State, i: nat, f: Flag): State {
    if i < |w.flags| then w.(flags := w.flags[i := f]) else w
  }

  /** Carriers that left or died lose their flag; abandoned flags go home in time. */
  function TendFlag(w: State, i: nat): State {
    if i >= |w.flags| || i >= 2 then w
    else
      var f := w.flags[i];
      match f.status
      case Carried =>
        if f.carrier !in w.players then WithFlag(w, i, BaseFlag(i))
        else
          var p := w.players[f.carrier];
          if p.dead then WithFlag(w, i, Flag(Dropped, 0, p.move.x, p.move.y, w.tick + FLAG_RETURN))
          else WithFlag(w, i, f.(x := p.move.x, y := p.move.y))
      case Dropped => if w.tick >= f.dropAt then WithFlag(w, i, BaseFlag(i)) else w
      case AtBase => w
  }

  /** Player `id` touches flag `i`: an ally returns it, an enemy takes it. */
  function TouchFlag(w: State, id: nat, i: nat): State {
    if i >= |w.flags| || i >= 2 || id !in w.players || w.players[id].dead || w.flags[i].status.Carried? then w
    else
      var (p, f) := (w.players[id], w.flags[i]);
      var (fx, fy) := if f.status.AtBase? then (FLAG_BASES[i].x, FLAG_BASES[i].y) else (f.x, f.y);
      if !Reaches(p, fx, fy, PLAYER_RADIUS + FLAG_GRAB_RADIUS) then w
      else if p.team % 2 == i then
        if f.status.Dropped? then WithFlag(w, i, BaseFlag(i)) else w
      else WithFlag(w, i, Flag(Carried, id, p.move.x, p.move.y, f.dropAt))
  }

  function TouchFlags(w: State, id: nat): State {
    TouchFlag(TouchFlag(w, id, 0), id, 1)
  }

  function TouchOf(): (State, nat) -> State {
    (s: State, id: nat) => TouchFlags(s, id)
  }

  predicate CanCapture(w: State, id: nat) {
    && |w.flags| == 2 && id in w.players && !w.players[id].dead
    && var p := w.players[id];
    var t := p.team % 2;
    && w.flags[1 - t].status.Carried? && w.flags[1 - t].carrier == id
    && w.flags[t].status.AtBase?
    && Reaches(p, FLAG_BASES[t].x, FLAG_BASES[t].y, PLAYER_RADIUS + FLAG_BASE_RADIUS)
  }

  function CaptureFlag(w: State, id: nat): State {
    if !CanCapture(w, id) then w
    else
      var p := w.players[id];
      var t := p.team % 2;
      Put(WithFlag(w, 1 - t, BaseFlag(1 - t)), p.(captures := p.captures + 1)).(events := w.events + [Capture(id)])
  }

  function CaptureOf(): (State, nat) -> State {
    (s: State, id: nat) => CaptureFlag(s, id)
  }

  function Touches(w: State): State {
    Fold(TouchOf(), w, w.order)
  }

  function Captures(w: State): State {
    Fold(CaptureOf(), w, w.order)
  }

  function StepCTF(w: State): State {
    if !w.modes.ctf || !w.modes.team || w.phase != Active then w
    else Captures(Touches(TendFlag(TendFlag(w, 0), 1)))
  }

  // ----- the match

  /** The sum of a score over the players of one team. */
  function TeamSum(w: State, ids: seq<nat>, team: nat, score: Player -> nat): nat {
    if ids == [] then 0
    else
      var id := ids[|ids| - 1];
      TeamSum(w, ids[..|ids| - 1], team, score)
      + (if id in w.players && w.players[id].team % 2 == team then score(w.players[id]) else 0)
  }

  function WinningTeam(w: State, score: Player -> nat): nat {
    if TeamSum(w, w.order, 1, score) > TeamSum(w, w.order, 0, score) then 1 else 0
  }

  /** The player with the highest score among `ids`, the least id on a tie; (0, -1) for
      nobody. */
  function LeaderOf(w: State, ids: seq<nat>, score: Player -> nat): (nat, int) {
    if ids == [] then (0, -1)
    else
      var (best, most) := LeaderOf(w, ids[..|ids| - 1], score);
      var id := ids[|ids| - 1];
      if id in w.players && score(w.players[id]) > most then (id, score(w.players[id])) else (best, most)
  }

  function HillPoints(p: Player): nat { p.hillScore }

  function DomPoints(p: Player): nat { p.domScore }

  function CapturePoints(p: Player): nat { p.captures }

  function KillPoints(p: Player): nat { p.kills }

  /** What the match in this mode is about. */
  function Objective(w: State): Player -> nat {
    if w.modes.hill then HillPoints
    else if w.modes.dom then DomPoints
    else if w.modes.ctf then CapturePoints
    else KillPoints
  }

  function Winner(w: State): nat {
    if w.modes.team || (w.modes.ctf && !w.modes.hill && !w.modes.dom) then WinningTeam(w, Objective(w))
    else LeaderOf(w, w.order, Objective(w)).0
  }

  function EndMatch(w: State): State {
    w.(phase := Intermission, matchAt := w.tick + INTERMISSION, winner := Winner(w))
  }

  function Cleared(p: Player): Player {
    p.(kills := 0, deaths := 0, hillScore := 0, domScore := 0, captures := 0, streak := 0)
  }

  /** A player's start into a new match: scores cleared, the living respawned. */
  function Restart(env: Env, w: State, id: nat): State {
    if id !in w.players then w
    else
      var w1 := Put(w, Cleared(w.players[id]));
      if w.players[id].dead then w1 else Respawn(env, w1, id)
  }

  function RestartOf(env: Env): (State, nat) -> State {
    (s: State, id: nat) => Restart(env, s, id)
  }

  function Reopened(w: State): State {
    w.(phase := Active, matchAt := w.tick + MATCH_DURATION, winner := 0)
  }

  function StartMatch(env: Env, w: State): State {
    ResetFlags(Fold(RestartOf(env), Reopened(w), w.order))
  }

  function StepMatch(env: Env, w: State): State {
    if w.tick < w.matchAt then w
    else match w.phase
      case Active => EndMatch(w)
      case Intermission => StartMatch(env, w)
  }

  // ----- one tick

  function Recorded(w: State, id: nat): State {
    if id !in w.players then w
    else
      var p := w.players[id];
      Put(w, p.(posHist := p.posHist[HistSlot(w.tick) := Pos(p.move.x, p.move.y)]))
  }

  function RecordOf(): (State, nat) -> State {
    (s: State, id: nat) => Recorded(s, id)
  }

  function RecordHistory(w: State): State {
    Fold(RecordOf(), w, w.order)
  }

  function RespawnOf(env: Env): (State, nat) -> State {
    (s: State, id: nat) => RespawnIfDue(env, s, id)
  }

  function Respawns(env: Env, w: State): State {
    Fold(RespawnOf(env), w, w.order)
  }

  ghost function Combat(env: Env, w: State, dt: real): State {
    Respawns(env, StepProjectiles(env, PlayerTurns(env, w.(events := [])), dt))
  }

  ghost function Step(env: Env, w: State, dt: real): State {
    var w1 := StepCTF(Objectives(env, Combat(env, w, dt)));
    RecordHistory(StepMatch(env, w1.(tick := w1.tick + 1)))
  }

  function NewWorld(seed: int, m: Modes): State {
    State(0, map[], [], seed, 1, [], [], Active, MATCH_DURATION, 0,
          seq(|PICKUP_SPOTS|, _ => Pickup(false, 0, 0)), m, [BaseFlag(0), BaseFlag(1)])
  }
}
