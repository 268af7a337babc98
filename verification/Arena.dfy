/** The simulation state of one room, internal/game/world.go: players, projectiles,
    pickups, flags and match timers as values, and the environment the simulation
    draws on (square roots, trigonometry, the seeded generator). */
module Arena {
  import opened Wire
  import opened Walls
  import opened Movement

  // ----- constants

  const MAX_ID := 0xffff
  const HISTORY_LEN := 32
  const MAX_REWIND := 10
  const FULL_HP := 100
  const RESPAWN_DELAY := 60
  const PROJECTILE_LIFE := 60
  const MAX_PROJECTILES := 128
  const SPAWN_INVULN := 60
  const KILLSTREAK_STEP := 3
  const KILLSTREAK_INVULN := 45
  const SPREAD_COUNT := 3
  const SPREAD_STEP := 0.14
  const MATCH_DURATION := 5400
  const INTERMISSION := 300

  // ----- data

  datatype Pos = Pos(x: real, y: real)

  /** A ring of the positions of the last HISTORY_LEN ticks. */
  type PosHist = h: seq<Pos> | |h| == HISTORY_LEN witness seq(HISTORY_LEN, _ => Pos(0.0, 0.0))

  datatype Player = Player(
    id: nat, name: Bytes, move: MoveState, hp: nat, team: nat,
    lastProcessedSeq: nat, inputs: seq<Input>, lastQueuedSeq: nat, hasQueued: bool,
    dead: bool, respawnAt: nat, nextFireTick: nat,
    rapidUntil: nat, spreadUntil: nat, invulnUntil: nat, streak: nat, weapon: nat,
    kills: nat, deaths: nat, hillScore: nat, domScore: nat, captures: nat,
    posHist: PosHist)

  datatype Projectile = Projectile(
    id: nat, owner: nat, x: real, y: real, vx: real, vy: real,
    life: int, rewind: int, team: nat, weapon: nat)

  datatype Event =
    | Hit(attacker: nat, target: nat, damage: nat, hp: nat)
    | Death(attacker: nat, target: nat)
    | Spawn(target: nat, x: real, y: real)
    | Killstreak(target: nat, streak: nat)
    | Capture(target: nat)

  datatype Phase = Active | Intermission

  datatype Pickup = Pickup(active: bool, kind: nat, readyAt: nat)

  datatype FlagStatus = AtBase | Carried | Dropped

  datatype Flag = Flag(status: FlagStatus, carrier: nat, x: real, y: real, dropAt: nat)

  /** Everything the simulation reads and writes. Account ids and anti-cheat buffers are
      not part of it. */
  datatype State = State(
    tick: nat, players: map<nat, Player>, order: seq<nat>, rng: int, nextID: nat,
    projectiles: seq<Projectile>, events: seq<Event>,
    phase: Phase, matchAt: nat, winner: nat,
    pickups: seq<Pickup>, modes: Modes, flags: seq<Flag>)

  /** The modes a world is created with. */
  datatype Modes = Modes(team: bool, hill: bool, dom: bool, ctf: bool)

  /** Deterministic functions the simulation calls but does not define: the square root,
      sine and cosine, the angle of a quantized aim, and the generator, whose state is a
      number that every draw advances. */
  datatype Env = Env(
    root: real -> real, cos: real -> real, sin: real -> real, radians: U16 -> real,
    unit: int -> real, afterUnit: int -> int, pick: int -> nat, afterPick: int -> int)

  ghost predicate EnvOk(env: Env) {
    && IsRoot(env.root)
    && (forall s :: 0.0 <= env.unit(s) < 1.0)
    && (forall s :: env.pick(s) < 3)
  }

  // ----- weapons

  datatype WeaponSpec = WeaponSpec(
    pellets: nat, spread: real, damage: nat, cooldown: nat, speed: real, splashRadius: real, splashDamage: nat)

  const PISTOL := 1
  const WEAPON_COUNT := 4

  function WeaponSpecOf(k: nat): WeaponSpec {
    match k
    case 2 => WeaponSpec(5, 0.16, 11, 18, 620.0, 0.0, 0)
    case 3 => WeaponSpec(1, 0.0, 80, 33, 1500.0, 0.0, 0)
    case 4 => WeaponSpec(1, 0.0, 0, 39, 480.0, 130.0, 65)
    case _ => WeaponSpec(1, 0.0, 25, 9, 700.0, 0.0, 0)
  }

  // ----- small helpers

  function Put(w: State, p: Player): State {
    w.(players := w.players[p.id := p])
  }

  predicate Invulnerable(p: Player, tick: nat) {
    tick < p.invulnUntil
  }

  function HistSlot(tick: int): nat {
    tick % HISTORY_LEN
  }

  function Flat(x: real, y: real): PosHist {
    seq(HISTORY_LEN, _ => Pos(x, y))
  }

  /** `initHistory`: the whole ring shows the current position. */
  function InitHistory(p: Player): Player {
    p.(posHist := Flat(p.move.x, p.move.y))
  }

  function TargetPos(p: Player, tick: nat, rewind: int): Pos {
    if rewind <= 0 then Pos(p.move.x, p.move.y) else p.posHist[HistSlot(tick - rewind)]
  }

  function ClampRewind(d: int): (r: int)
    ensures 0 <= r <= MAX_REWIND
  {
    if d < 0 then 0 else if d > MAX_REWIND then MAX_REWIND else d
  }

  // ----- folds

  /** A loop over a slice whose body maps states to states. */
  function Fold<S, A>(f: (S, A) -> S, s: S, xs: seq<A>): S {
    if xs == [] then s else f(Fold(f, s, xs[..|xs| - 1]), xs[|xs| - 1])
  }

  lemma FoldStep<S, A>(f: (S, A) -> S, s: S, xs: seq<A>, i: nat)
    requires i < |xs|
    ensures Fold(f, s, xs[..i + 1]) == f(Fold(f, s, xs[..i]), xs[i])
  {
    assert xs[..i + 1][..i] == xs[..i];
  }

  lemma FoldOne<S, A>(f: (S, A) -> S, s: S, xs: seq<A>, x: A)
    ensures Fold(f, s, xs + [x]) == f(Fold(f, s, xs), x)
  {
    assert (xs + [x])[..|xs|] == xs;
  }

  /** What holds at the start and is kept by every turn holds at the end. */
  lemma {:induction false} FoldInv<S(!new), A(!new)>(f: (S, A) -> S, s: S, xs: seq<A>, inv: S -> bool)
    requires inv(s)
    requires forall t, x :: inv(t) && x in xs ==> inv(f(t, x))
    ensures inv(Fold(f, s, xs))
  {
    if xs != [] {
      var n := |xs| - 1;
      assert forall x :: x in xs[..n] ==> x in xs;
      FoldInv(f, s, xs[..n], inv);
      assert xs[n] in xs;
    }
  }
}
