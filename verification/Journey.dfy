/** What moves a player in one tick of the real world, internal/game/world.go: its queued
    inputs, in order, and nothing else as long as it neither dies nor spawns. */
module Journey {
  import opened Wrappers
  import opened Wire
  import opened Reals
  import opened Walls
  import opened Movement
  import opened Arena
  import HitGrid
  import opened Ids
  import opened Rules
  import opened WorldInvariant
  import opened Chronicle

  predicate Turning(e: Event, id: nat) {
    Fells(e, id) || Revives(e, id)
  }

  /** The last death or spawn of the player among some events. */
  function LastTurn(es: seq<Event>, id: nat): Option<Event> {
    if es == [] then None
    else if Turning(es[|es| - 1], id) then Some(es[|es| - 1])
    else LastTurn(es[..|es| - 1], id)
  }

  ghost predicate NoTurningPoint(es: seq<Event>, id: nat) {
    LastTurn(es, id) == None
  }

  function AtRest(x: real, y: real): MoveState {
    MoveState(x, y, 0.0, 0.0, 0.0, 0.0)
  }

  /** What its queue and its numbers say of a player. */
  ghost predicate SameQueue(p: Player, p': Player) {
    && p'.inputs == p.inputs && p'.lastProcessedSeq == p.lastProcessedSeq
    && p'.hasQueued == p.hasQueued && p'.lastQueuedSeq == p.lastQueuedSeq
  }

  ghost predicate SameCourse(p: Player, p': Player) {
    SameQueue(p, p') && p'.move == p.move && p'.dead == p.dead && p'.nextFireTick == p.nextFireTick
  }

  /** Shots of a player in one tick: none, or one volley of a player whose wait was over,
      which then waits as long as the weapon asks, a third of that with rapid fire. */
  ghost predicate Rested(p: Player, p': Player, tick: nat) {
    || p'.nextFireTick == p.nextFireTick
    || (p.nextFireTick <= tick && p'.nextFireTick - tick in {9, 18, 33, 39, 3, 6, 11, 13})
  }

  lemma WaitsAre(p: Player, tick: nat)
    ensures Cooldown(p, tick) in {9, 18, 33, 39, 3, 6, 11, 13}
  {
  }

  /** The player is as the last turn of its fate left it: dead, or alive at rest where the
      spawn was announced. */
  ghost predicate AsTold(p: Player, turn: Option<Event>) {
    match turn
    case None => true
    case Some(Spawn(_, x, y)) => !p.dead && p.move == AtRest(x, y)
    case Some(_) => p.dead
  }

  /** The events tell what becomes of the player: without a turn it stays on course. */
  ghost predicate Tells(id: nat, w: State, w': State) {
    OwnIds(w) ==>
      && OwnIds(w')
      && (id in w.players ==>
          && id in w'.players && SameQueue(w.players[id], w'.players[id])
          && (NoTurningPoint(w'.events, id) ==>
              NoTurningPoint(w.events, id) && SameCourse(w.players[id], w'.players[id]))
          && (AsTold(w.players[id], LastTurn(w.events, id)) ==> AsTold(w'.players[id], LastTurn(w'.events, id))))
  }

  lemma EventAdded(es: seq<Event>, e: Event, id: nat)
    ensures LastTurn(es + [e], id) == if Turning(e, id) then Some(e) else LastTurn(es, id)
  {
    assert (es + [e])[..|es|] == es;
  }

  lemma FoldTells<A(!new)>(id: nat, f: (State, A) -> State, w: State, xs: seq<A>)
    requires forall s, x :: Tells(id, s, f(s, x))
    ensures Tells(id, w, Fold(f, w, xs))
  {
    hide OwnIds, LastTurn, SameCourse;
    Reflexive(id, w);
    var inv := (s: State) => Tells(id, w, s);
    forall s, x | inv(s) && x in xs
      ensures inv(f(s, x))
    {
      assert Tells(id, s, f(s, x));
      Chained(id, w, s, f(s, x));
    }
    FoldInv(f, w, xs, inv);
  }

  lemma Reflexive(id: nat, w: State)
    ensures Tells(id, w, w)
  {
  }

  lemma Chained(id: nat, a: State, b: State, c: State)
    requires Tells(id, a, b) && Tells(id, b, c)
    ensures Tells(id, a, c)
  {
    hide OwnIds, LastTurn;
  }

  // ----- shots

  /** A player on its course is put back, and no turn of fate is told. */
  lemma PutTells(id: nat, w: State, p: Player, events: seq<Event>)
    requires p.id in w.players && SameCourse(w.players[p.id], p) && LastTurn(events, id) == LastTurn(w.events, id)
    ensures Tells(id, w, Put(w, p).(events := events))
  {
    hide LastTurn;
  }

  lemma Lawless(id: nat, w: State, w': State)
    requires !OwnIds(w)
    ensures Tells(id, w, w')
  {
  }

  /** A player after one more kill. */
  function Streaked(w: State, k: nat): Player
    requires k in w.players
  {
    var p := w.players[k].(streak := w.players[k].streak + 1);
    if p.streak % KILLSTREAK_STEP != 0 then p else p.(hp := FULL_HP, invulnUntil := w.tick + KILLSTREAK_INVULN)
  }

  lemma RecordKillIs(id: nat, w: State, k: nat)
    requires OwnIds(w) && k in w.players
    ensures var (p, w') := (Streaked(w, k), RecordKill(w, k));
      && p.id == k && SameCourse(w.players[k], p)
      && w' == Put(w, p).(events := w'.events) && LastTurn(w'.events, id) == LastTurn(w.events, id)
  {
    EventAdded(w.events, Killstreak(k, w.players[k].streak + 1), id);
    hide LastTurn;
  }

  lemma RecordKillTells(id: nat, w: State, k: nat)
    ensures Tells(id, w, RecordKill(w, k))
  {
    hide Tells, OwnIds, LastTurn, Streaked, SameCourse, Put;
    if !OwnIds(w) {
      Lawless(id, w, RecordKill(w, k));
    } else if k in w.players {
      RecordKillIs(id, w, k);
      PutTells(id, w, Streaked(w, k), RecordKill(w, k).events);
    } else {
      Reflexive(id, w);
    }
  }

  lemma CreditTells(id: nat, w: State, victim: nat, attacker: nat)
    ensures Tells(id, w, Credit(w, victim, attacker))
  {
    hide RecordKill, LastTurn;
    if attacker in w.players {
      RecordKillTells(id, Put(w, w.players[attacker].(kills := w.players[attacker].kills + 1)), attacker);
    }
  }

  lemma DieTells(id: nat, w: State, p: Player, attacker: nat)
    requires p.id in w.players && w.players[p.id] == p
    ensures Tells(id, w, Die(w, p, attacker))
  {
    hide Credit;
    EventAdded(w.events, Death(attacker, p.id), id);
    var w1 := Put(w, Killed(p, w.tick)).(events := w.events + [Death(attacker, p.id)]);
    CreditTells(id, w1, p.id, attacker);
    hide LastTurn;
    Chained(id, w, w1, Credit(w1, p.id, attacker));
  }

  lemma ApplyDamageTells(id: nat, w: State, victim: nat, attacker: nat, dmg: nat)
    ensures Tells(id, w, ApplyDamage(w, victim, attacker, dmg))
  {
    Reflexive(id, w);
    hide Die;
    if victim in w.players && w.players[victim].hp != 0 {
      var p := Wounded(w.players[victim], dmg);
      EventAdded(w.events, Hit(attacker, victim, dmg, p.hp), id);
      var w1 := Put(w, p).(events := w.events + [Hit(attacker, victim, dmg, p.hp)]);
      assert Tells(id, w, w1);
      hide LastTurn, Tells;
      if p.hp == 0 {
        DieTells(id, w1, p, attacker);
        Chained(id, w, w1, Die(w1, p, attacker));
      }
    }
  }

  lemma SplashTells(id: nat, env: Env, w: State, pr: Projectile, ix: real, iy: real, k: nat)
    ensures Tells(id, w, Splash(env, w, pr, ix, iy, k))
  {
    Reflexive(id, w);
    hide ApplyDamage, Tells, SplashDamage, TargetPos, Sq, WeaponSpecOf, HitGrid.Eligible;
    var t := if k in w.players then TargetPos(w.players[k], w.tick, pr.rewind) else Pos(0.0, 0.0);
    ApplyDamageTells(id, w, k, pr.owner, SplashDamage(env, WeaponSpecOf(pr.weapon), Sq(t.x - ix) + Sq(t.y - iy)));
    EligibleIsPlayer(w, pr, k);
  }

  lemma EligibleIsPlayer(w: State, pr: Projectile, k: nat)
    ensures HitGrid.Eligible(w, pr, k) ==> k in w.players
  {
  }

  lemma DetonateTells(
    id: nat, env: Env, w: State, pr: Projectile, victim: Option<nat>, wallHit: bool, ex: real, ey: real)
    ensures Tells(id, w, Detonate(env, w, pr, victim, wallHit, ex, ey))
  {
    Reflexive(id, w);
    hide ApplyDamage, Tells, Splash, WeaponSpecOf;
    if victim.Some? {
      ApplyDamageTells(id, w, victim.value, pr.owner, WeaponSpecOf(pr.weapon).damage);
    }
    forall s, k
      ensures Tells(id, s, SplashOf(env, pr, ex, ey)(s, k))
    {
      SplashTells(id, env, s, pr, ex, ey, k);
    }
    FoldTells(id, SplashOf(env, pr, ex, ey), w, w.order);
  }

  lemma StepProjectilesTells(id: nat, env: Env, w: State, dt: real)
    ensures Tells(id, w, StepProjectiles(env, w, dt))
  {
    hide Detonate, Tells, HitGrid.LinearHit, WallOf, PathEnd, OutOfBounds, Mul;
    Reflexive(id, w);
    var inv := (f: Flight) => Tells(id, w, f.w);
    forall f, pr | inv(f) && pr in w.projectiles
      ensures inv(FlyOf(env, dt)(f, pr))
    {
      var (nx, ny) := (pr.x + Mul(pr.vx, dt), pr.y + Mul(pr.vy, dt));
      var wall := WallOf(pr, nx, ny);
      var (ex, ey) := PathEnd(pr, nx, ny, wall);
      var victim := HitGrid.LinearHit(f.w, pr, ex, ey, f.w.order);
      DetonateTells(id, env, f.w, pr, victim, wall.Some?, ex, ey);
      Chained(id, w, f.w, Detonate(env, f.w, pr, victim, wall.Some?, ex, ey));
    }
    FoldInv(FlyOf(env, dt), Flight(w, []), w.projectiles, inv);
    var f := FlyAll(env, w, w.projectiles, dt);
    OtherProjectiles(id, f.w, f.kept);
    Chained(id, w, f.w, StepProjectiles(env, w, dt));
  }

  lemma OtherProjectiles(id: nat, w: State, prs: seq<Projectile>)
    ensures Tells(id, w, w.(projectiles := prs))
  {
  }

  // ----- the rest of the tick

  lemma {:induction false} ThrownAtRest(env: Env, rng: int, tries: nat, x: real, y: real)
    ensures var m := SpawnFrom(env, rng, tries, x, y).0; m == AtRest(m.x, m.y)
    decreases tries
  {
    hide SpawnCoord, ClearOf, ResolvedBy;
    if tries > 0 {
      var (x', rng1) := (SpawnCoord(env, rng), env.afterUnit(rng));
      ThrownAtRest(env, env.afterUnit(rng1), tries - 1, x', SpawnCoord(env, rng1));
    }
  }

  lemma RespawnTells(id: nat, env: Env, w: State, k: nat)
    ensures Tells(id, w, Respawn(env, w, k))
  {
    ThrownAtRest(env, w.rng, SPAWN_TRIES, 0.0, 0.0);
    hide SpawnFrom;
    var m := SpawnPoint(env, w.rng).0;
    EventAdded(w.events, Spawn(k, m.x, m.y), id);
    hide LastTurn;
  }

  lemma RespawnsTells(id: nat, env: Env, w: State)
    ensures Tells(id, w, Respawns(env, w))
  {
    hide Respawn, Tells;
    forall s, k
      ensures Tells(id, s, RespawnOf(env)(s, k))
    {
      Reflexive(id, s);
      RespawnTells(id, env, s, k);
    }
    FoldTells(id, RespawnOf(env), w, w.order);
  }

  lemma StepPickupsTells(id: nat, env: Env, w: State)
    ensures Tells(id, w, StepPickups(env, w))
  {
    hide Taker, LastTurn;
    FoldTells(id, PickupOf(env), w, [0, 1, 2, 3, 4]);
  }

  lemma ScoreZoneTells(id: nat, w: State, z: Zone)
    ensures Tells(id, w, ScoreZone(w, z))
  {
    hide Holds, LastTurn;
  }

  lemma ObjectivesTells(id: nat, env: Env, w: State)
    ensures Tells(id, w, Objectives(env, w))
  {
    var w1 := StepPickups(env, w);
    var (w2, a, b) := (StepHill(w1), DOM_POINTS[0], DOM_POINTS[1]);
    hide Tells, StepPickups, ScoreZone;
    StepPickupsTells(id, env, w);
    ScoreZoneTells(id, w1, HILL);
    Reflexive(id, w1);
    Chained(id, w, w1, w2);
    ScoreZoneTells(id, w2, a);
    ScoreZoneTells(id, ScoreZone(w2, a), b);
    ScoreZoneTells(id, ScoreZone(ScoreZone(w2, a), b), DOM_POINTS[2]);
    Chained(id, w, w2, ScoreZone(w2, a));
    Chained(id, w, ScoreZone(w2, a), ScoreZone(ScoreZone(w2, a), b));
    Chained(id, w, ScoreZone(ScoreZone(w2, a), b), ScoreZone(ScoreZone(ScoreZone(w2, a), b), DOM_POINTS[2]));
  }

  lemma FlagsOnly(id: nat, w: State, w': State)
    requires w'.players == w.players && w'.events == w.events
    ensures Tells(id, w, w')
  {
  }

  lemma StepCTFTells(id: nat, w: State)
    ensures Tells(id, w, StepCTF(w))
  {
    hide Tells, TendFlag, TouchFlag, CaptureFlag;
    TendTells(id, w);
    var w2 := TendFlag(TendFlag(w, 0), 1);
    forall s, k
      ensures Tells(id, s, TouchOf()(s, k))
    {
      TouchesFlagsOnly(s, k, 0);
      TouchesFlagsOnly(TouchFlag(s, k, 0), k, 1);
      FlagsOnly(id, s, TouchFlags(s, k));
    }
    FoldTells(id, TouchOf(), w2, w2.order);
    var w3 := Touches(w2);
    forall s, k
      ensures Tells(id, s, CaptureOf()(s, k))
    {
      CaptureTells(id, s, k);
    }
    FoldTells(id, CaptureOf(), w3, w3.order);
    Reflexive(id, w);
    Chained(id, w, w2, w3);
    Chained(id, w, w3, Captures(w3));
  }

  lemma TendTells(id: nat, w: State)
    ensures Tells(id, w, TendFlag(TendFlag(w, 0), 1))
  {
    TendKeeps(w, 0);
    TendKeeps(TendFlag(w, 0), 1);
    hide TendFlag;
    FlagsOnly(id, w, TendFlag(TendFlag(w, 0), 1));
  }

  lemma TendKeeps(w: State, i: nat)
    ensures TendFlag(w, i).players == w.players && TendFlag(w, i).events == w.events
  {
  }

  lemma CaptureTells(id: nat, w: State, k: nat)
    ensures Tells(id, w, CaptureFlag(w, k))
  {
    hide CanCapture;
    EventAdded(w.events, Capture(k), id);
    if CanCapture(w, k) {
      CapturerIsPlayer(w, k);
    }
    hide LastTurn;
  }

  lemma RestartTells(id: nat, env: Env, w: State, k: nat)
    ensures Tells(id, w, Restart(env, w, k))
  {
    Reflexive(id, w);
    hide Respawn;
    if k in w.players {
      var w1 := Put(w, Cleared(w.players[k]));
      assert Tells(id, w, w1);
      hide Tells;
      RespawnTells(id, env, w1, k);
      Chained(id, w, w1, Respawn(env, w1, k));
    }
  }

  lemma StepMatchTells(id: nat, env: Env, w: State)
    ensures Tells(id, w, StepMatch(env, w))
  {
    FlagsOnly(id, w, EndMatch(w));
    FlagsOnly(id, w, Reopened(w));
    Reflexive(id, w);
    forall s, k
      ensures Tells(id, s, RestartOf(env)(s, k))
    {
      RestartTells(id, env, s, k);
    }
    FoldTells(id, RestartOf(env), Reopened(w), w.order);
    var w2 := Fold(RestartOf(env), Reopened(w), w.order);
    FlagsOnly(id, w2, ResetFlags(w2));
    hide Tells, Winner, Fold;
    Chained(id, w, Reopened(w), w2);
    Chained(id, w, w2, ResetFlags(w2));
  }

  lemma RecordHistoryTells(id: nat, w: State)
    ensures Tells(id, w, RecordHistory(w))
  {
    hide LastTurn;
    FoldTells(id, RecordOf(), w, w.order);
  }

  // ----- the players' turns

  /** The highest sequence number seen. */
  function SeqAfter(last: nat, inputs: seq<Input>): nat {
    if inputs == [] then last
    else
      var before := SeqAfter(last, inputs[..|inputs| - 1]);
      var s := inputs[|inputs| - 1].seq_;
      if s > before then s else before
  }

  /** Firing touches nobody's course, and only the shooter's wait. */
  lemma FiringKeepsCourse(env: Env, w: State, k: nat, inp: Input)
    requires OwnIds(w)
    ensures var w' := TryFire(env, w, k, inp);
      && OwnIds(w') && w'.order == w.order && w'.events == w.events && w'.players.Keys == w.players.Keys
      && w'.tick == w.tick
      && (forall id :: id in w.players && id != k ==> SameCourse(w.players[id], w'.players[id]))
      && (k in w.players ==>
          && SameQueue(w.players[k], w'.players[k]) && w'.players[k].move == w.players[k].move
          && w'.players[k].dead == w.players[k].dead && Rested(w.players[k], w'.players[k], w.tick))
  {
    hide Volley, WeaponSpecOf, RewindOf, Cooldown;
    if CanFire(w, k) {
      var p := w.players[k];
      WaitsAre(p, w.tick);
      var spec := WeaponSpecOf(p.weapon);
      var fan := w.tick < p.spreadUntil && spec.pellets == 1;
      VolleyPlayers(env, w.(players := w.players[k := Triggered(p, w.tick)]), k,
                    env.radians(inp.aim), RewindOf(w.tick, inp.viewTick),
                    if fan then SPREAD_COUNT else spec.pellets, if fan then SPREAD_STEP else spec.spread);
    }
  }

  lemma VolleyPlayers(env: Env, w: State, k: nat, ang: real, rewind: int, pellets: nat, step: real)
    ensures var w' := Volley(env, w, k, ang, rewind, pellets, step);
      w'.players == w.players && w'.order == w.order && w'.events == w.events && w'.tick == w.tick
  {
    hide Alloc, NewShot, Mul;
    FanPlayers(env, w, k, ang - Mul(step, (pellets - 1) as real) / 2.0, step, rewind, pellets);
  }

  lemma {:induction false} FanPlayers(env: Env, w: State, k: nat, start: real, step: real, rewind: int, n: nat)
    ensures var w' := SpawnFan(env, w, k, start, step, rewind, n);
      w'.players == w.players && w'.order == w.order && w'.events == w.events && w'.tick == w.tick
  {
    hide Alloc, NewShot, Mul;
    if n > 0 {
      FanPlayers(env, w, k, start, step, rewind, n - 1);
    }
  }

  /** One input moves its own player one step, and nobody else. */
  lemma InputMoves(env: Env, w: State, k: nat, inp: Input)
    requires OwnIds(w) && k in w.players
    ensures var w' := ApplyInput(env, w, k, inp);
      && OwnIds(w') && w'.order == w.order && w'.events == w.events && w'.players.Keys == w.players.Keys
      && w'.tick == w.tick && Rested(w.players[k], w'.players[k], w.tick)
      && (forall id :: id in w.players && id != k ==> SameCourse(w.players[id], w'.players[id]))
      && w'.players[k].move == Moved(env.root, w.players[k].move, inp, INPUT_DT)
      && w'.players[k].lastProcessedSeq == SeqAfter(w.players[k].lastProcessedSeq, [inp])
      && w'.players[k].inputs == w.players[k].inputs && w'.players[k].dead == w.players[k].dead
      && w'.players[k].hasQueued == w.players[k].hasQueued && w'.players[k].lastQueuedSeq == w.players[k].lastQueuedSeq
  {
    hide Moved, TryFire, Has;
    var w1 := Put(w, Driven(env, w.players[k], inp));
    FiringKeepsCourse(env, w1, k, inp);
  }

  /** The state after some of player `k`'s inputs. */
  ghost predicate Underway(env: Env, w: State, k: nat, inputs: seq<Input>, w': State) {
    && OwnIds(w') && w'.order == w.order && w'.events == w.events && w'.players.Keys == w.players.Keys
    && w'.tick == w.tick
    && (forall id :: id in w.players && id != k ==> SameCourse(w.players[id], w'.players[id]))
    && (k in w.players ==>
        && Rested(w.players[k], w'.players[k], w.tick)
        && w'.players[k].move == MovedAll(env.root, w.players[k].move, inputs)
        && w'.players[k].lastProcessedSeq == SeqAfter(w.players[k].lastProcessedSeq, inputs)
        && w'.players[k].inputs == w.players[k].inputs && w'.players[k].dead == w.players[k].dead
        && w'.players[k].hasQueued == w.players[k].hasQueued
        && w'.players[k].lastQueuedSeq == w.players[k].lastQueuedSeq)
  }

  lemma {:induction false} InputsMove(env: Env, w: State, k: nat, inputs: seq<Input>)
    requires OwnIds(w) && k in w.players
    ensures Underway(env, w, k, inputs, ApplyInputs(env, w, k, inputs))
  {
    hide Moved, ApplyInput;
    if inputs != [] {
      var n := |inputs| - 1;
      InputsMove(env, w, k, inputs[..n]);
      InputMoves(env, ApplyInputs(env, w, k, inputs[..n]), k, inputs[n]);
      assert [inputs[n]][..0] == [];
    }
  }

  /** A player after its turn: the dead only lose their queue. */
  ghost predicate TurnTaken(env: Env, tick: nat, p: Player, p': Player) {
    && Rested(p, p', tick)
    && p'.inputs == [] && p'.hasQueued == p.hasQueued && p'.lastQueuedSeq == p.lastQueuedSeq && p'.dead == p.dead
    && p'.move == (if p.dead then p.move else MovedAll(env.root, p.move, p.inputs))
    && p'.lastProcessedSeq == (if p.dead then p.lastProcessedSeq else SeqAfter(p.lastProcessedSeq, p.inputs))
  }

  lemma TurnMoves(env: Env, w: State, k: nat)
    requires OwnIds(w) && k in w.players
    ensures var w' := PlayerTurn(env, w, k);
      && OwnIds(w') && w'.order == w.order && w'.events == w.events && w'.players.Keys == w.players.Keys
      && w'.tick == w.tick
      && (forall id :: id in w.players && id != k ==> SameCourse(w.players[id], w'.players[id]))
      && TurnTaken(env, w.tick, w.players[k], w'.players[k])
  {
    hide MovedAll, SeqAfter, ApplyInputs;
    InputsMove(env, w, k, w.players[k].inputs);
  }

  /** After the turns of `ids`: those had theirs, and nobody else was touched. */
  ghost predicate TurnsTaken(env: Env, w: State, ids: seq<nat>, w': State) {
    && OwnIds(w') && w'.order == w.order && w'.events == w.events && w'.players.Keys == w.players.Keys
    && w'.tick == w.tick
    && forall id :: id in w.players ==>
      if id in ids then TurnTaken(env, w.tick, w.players[id], w'.players[id])
      else SameCourse(w.players[id], w'.players[id])
  }

  lemma OneMoreTurn(env: Env, w: State, ids: seq<nat>, w1: State, k: nat, w': State)
    requires TurnsTaken(env, w, ids, w1) && k in w.players && k !in ids
    requires OwnIds(w') && w'.order == w1.order && w'.events == w1.events && w'.players.Keys == w1.players.Keys
    requires w'.tick == w1.tick
    requires forall id :: id in w1.players && id != k ==> SameCourse(w1.players[id], w'.players[id])
    requires TurnTaken(env, w.tick, w1.players[k], w'.players[k])
    ensures TurnsTaken(env, w, ids + [k], w')
  {
    forall id | id in w.players
      ensures if id in ids + [k] then TurnTaken(env, w.tick, w.players[id], w'.players[id])
        else SameCourse(w.players[id], w'.players[id])
    {
      hide TurnTaken, OwnIds;
      if id == k {
        TakenAlike(env, w.tick, w.players[k], w1.players[k], w'.players[k]);
      } else if id in ids {
        StillTaken(env, w.tick, w.players[id], w1.players[id], w'.players[id]);
      }
    }
  }

  /** The turns of an ascending list of players: each has its turn once. */
  lemma {:induction false} TurnsMove(env: Env, w: State, ids: seq<nat>)
    requires OwnIds(w) && HitGrid.AscendingIds(ids) && forall k :: k in ids ==> k in w.players
    ensures TurnsTaken(env, w, ids, Fold(TurnOf(env), w, ids))
  {
    if ids != [] {
      var n := |ids| - 1;
      assert ids == ids[..n] + [ids[n]] && ids[n] !in ids[..n];
      TurnsMove(env, w, ids[..n]);
      var (w1, k) := (Fold(TurnOf(env), w, ids[..n]), ids[n]);
      hide TurnTaken, PlayerTurn, SameCourse;
      assert OwnIds(w1) && k in w1.players;
      TurnMoves(env, w1, k);
      hide TurnsTaken, OwnIds;
      OneMoreTurn(env, w, ids[..n], w1, k, PlayerTurn(env, w1, k));
    }
  }

  lemma TakenAlike(env: Env, tick: nat, p: Player, p1: Player, p2: Player)
    requires SameCourse(p, p1) && TurnTaken(env, tick, p1, p2)
    ensures TurnTaken(env, tick, p, p2)
  {
    hide MovedAll, SeqAfter;
  }

  lemma StillTaken(env: Env, tick: nat, p: Player, p1: Player, p2: Player)
    requires TurnTaken(env, tick, p, p1) && SameCourse(p1, p2)
    ensures TurnTaken(env, tick, p, p2)
  {
    hide MovedAll, SeqAfter;
  }

  // ----- the tick

  lemma AfterTurns(id: nat, env: Env, w1: State, dt: real)
    ensures var w4 := StepCTF(Objectives(env, Respawns(env, StepProjectiles(env, w1, dt))));
      Tells(id, w1, RecordHistory(StepMatch(env, w4.(tick := w4.tick + 1))))
  {
    hide Tells, StepProjectiles, Respawns, Objectives, StepCTF, StepMatch, RecordHistory;
    var w2 := StepProjectiles(env, w1, dt);
    StepProjectilesTells(id, env, w1, dt);
    var w3 := Respawns(env, w2);
    RespawnsTells(id, env, w2);
    Chained(id, w1, w2, w3);
    ObjectivesTells(id, env, w3);
    Chained(id, w1, w3, Objectives(env, w3));
    var w4 := StepCTF(Objectives(env, w3));
    StepCTFTells(id, Objectives(env, w3));
    Chained(id, w1, Objectives(env, w3), w4);
    var w5 := w4.(tick := w4.tick + 1);
    FlagsOnly(id, w4, w5);
    Chained(id, w1, w4, w5);
    StepMatchTells(id, env, w5);
    Chained(id, w1, w5, StepMatch(env, w5));
    RecordHistoryTells(id, StepMatch(env, w5));
    Chained(id, w1, StepMatch(env, w5), RecordHistory(StepMatch(env, w5)));
  }

  /** Whatever happens to it in a tick: the player has its turn, and then the events tell. */
  lemma StepTells(env: Env, w: State, dt: real, id: nat)
    requires WorldOk(w) && id in w.players
    ensures var (p, w') := (w.players[id], Step(env, w, dt));
      && id in w'.players
      && var (p', t) := (w'.players[id], LastTurn(w'.events, id));
      && p'.inputs == [] && p'.hasQueued == p.hasQueued && p'.lastQueuedSeq == p.lastQueuedSeq
      && p'.lastProcessedSeq == (if p.dead then p.lastProcessedSeq else SeqAfter(p.lastProcessedSeq, p.inputs))
      && AsTold(p', t)
      && (t == None ==>
          && p'.dead == p.dead && p'.move == (if p.dead then p.move else MovedAll(env.root, p.move, p.inputs))
          && Rested(p, p', w.tick))
  {
    hide *;
    TookTurn(env, w, id);
    var w1 := PlayerTurns(env, w.(events := []));
    AfterTurns(id, env, w1, dt);
    StepUnfolds(env, w, dt);
    OnCourse(env, w.tick, w.players[id], w1, Step(env, w, dt), id);
  }

  /** In a tick that neither fells nor revives it, a living player is moved by exactly its
      queued inputs, in order, and acknowledges the last of them. */
  lemma StepMovesByInputs(env: Env, w: State, dt: real, id: nat)
    requires WorldOk(w) && id in w.players && !w.players[id].dead
    requires NoTurningPoint(Step(env, w, dt).events, id)
    ensures var (p, w') := (w.players[id], Step(env, w, dt));
      && id in w'.players
      && w'.players[id].move == MovedAll(env.root, p.move, p.inputs)
      && w'.players[id].lastProcessedSeq == SeqAfter(p.lastProcessedSeq, p.inputs)
      && w'.players[id].inputs == [] && !w'.players[id].dead
      && w'.players[id].hasQueued == p.hasQueued && w'.players[id].lastQueuedSeq == p.lastQueuedSeq
  {
    hide WorldOk, Step, MovedAll, SeqAfter, LastTurn;
    StepTells(env, w, dt, id);
  }

  /** A spawn is the last word on a player that the tick leaves alive: it stands at rest on
      the announced point, with an empty queue. */
  lemma StepRevives(env: Env, w: State, dt: real, id: nat, e: Event)
    requires WorldOk(w) && id in w.players
    requires e in Step(env, w, dt).events && Revives(e, id)
    requires id in Step(env, w, dt).players && !Step(env, w, dt).players[id].dead
    ensures var (p', t) := (Step(env, w, dt).players[id], LastTurn(Step(env, w, dt).events, id));
      t.Some? && Revives(t.value, id) && p'.move == AtRest(t.value.x, t.value.y) && p'.inputs == []
  {
    StepTells(env, w, dt, id);
    TurnFound(Step(env, w, dt).events, id, e);
    TurnTurns(Step(env, w, dt).events, id);
    hide WorldOk, Step, MovedAll, SeqAfter, LastTurn;
  }

  lemma {:induction false} TurnFound(es: seq<Event>, id: nat, e: Event)
    requires e in es && Turning(e, id)
    ensures LastTurn(es, id).Some?
  {
    if !Turning(es[|es| - 1], id) {
      assert es == es[..|es| - 1] + [es[|es| - 1]];
      TurnFound(es[..|es| - 1], id, e);
    }
  }

  lemma {:induction false} TurnTurns(es: seq<Event>, id: nat)
    ensures var t := LastTurn(es, id); t.Some? ==> Turning(t.value, id)
  {
    if es != [] {
      TurnTurns(es[..|es| - 1], id);
    }
  }

  lemma TookTurn(env: Env, w: State, id: nat)
    requires WorldOk(w) && id in w.players
    ensures var w1 := PlayerTurns(env, w.(events := []));
      OwnIds(w1) && w1.events == [] && id in w1.players && TurnTaken(env, w.tick, w.players[id], w1.players[id])
  {
    var w0 := w.(events := []);
    TurnOrder(w);
    hide WorldOk, TurnTaken;
    TurnsMove(env, w0, w0.order);
  }

  lemma OnCourse(env: Env, tick: nat, p: Player, w1: State, w': State, id: nat)
    requires OwnIds(w1) && w1.events == [] && id in w1.players
    requires TurnTaken(env, tick, p, w1.players[id]) && Tells(id, w1, w')
    ensures id in w'.players
    ensures var (p', t) := (w'.players[id], LastTurn(w'.events, id));
      && p'.inputs == [] && p'.hasQueued == p.hasQueued && p'.lastQueuedSeq == p.lastQueuedSeq
      && p'.lastProcessedSeq == (if p.dead then p.lastProcessedSeq else SeqAfter(p.lastProcessedSeq, p.inputs))
      && AsTold(p', t)
      && (t == None ==>
          && p'.dead == p.dead && p'.move == (if p.dead then p.move else MovedAll(env.root, p.move, p.inputs))
          && Rested(p, p', tick))
  {
    assert LastTurn(w1.events, id) == None;
    hide OwnIds, LastTurn, MovedAll, SeqAfter;
  }

  lemma TurnOrder(w: State)
    requires WorldOk(w)
    ensures OwnIds(w) && HitGrid.AscendingIds(w.order) && forall id :: id in w.players <==> id in w.order
  {
  }

  lemma StepUnfolds(env: Env, w: State, dt: real)
    ensures var w1 := PlayerTurns(env, w.(events := []));
      var w4 := StepCTF(Objectives(env, Respawns(env, StepProjectiles(env, w1, dt))));
      Step(env, w, dt) == RecordHistory(StepMatch(env, w4.(tick := w4.tick + 1)))
  {
  }
}
