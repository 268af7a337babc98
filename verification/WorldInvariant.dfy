/** What every reachable world satisfies, internal/game: ids are in range, pairwise
    distinct and in order, health fits life, and every player stands in a legal place. */
module WorldInvariant {
  import opened Wrappers
  import opened Wire
  import opened Reals
  import opened Walls
  import opened Movement
  import opened Arena
  import opened Ids
  import opened HitGrid
  import opened Rules

  // ----- the invariant

  /** Health, team and place of one player. */
  ghost predicate PlayerOk(p: Player) {
    && 1 <= p.id <= MAX_ID && p.hp <= FULL_HP && p.team <= 1
    && (!p.dead ==> p.hp >= 1)
    && Legal(p.move.x, p.move.y)
  }

  ghost predicate PlayersOk(w: State) {
    forall id :: id in w.players ==> w.players[id].id == id && PlayerOk(w.players[id])
  }

  /** Every player sits under its own id. */
  ghost predicate OwnIds(w: State) {
    forall id :: id in w.players ==> w.players[id].id == id
  }

  ghost predicate OrderOk(w: State) {
    AscendingIds(w.order) && forall id :: id in w.players <==> id in w.order
  }

  /** Projectiles carry distinct ids no player has, and a rewind inside the window. */
  ghost predicate ShotsOk(players: map<nat, Player>, prs: seq<Projectile>) {
    && (forall i :: 0 <= i < |prs| ==>
        1 <= prs[i].id <= MAX_ID && prs[i].id !in players && 0 <= prs[i].rewind <= MAX_REWIND)
    && (forall i, j :: 0 <= i < j < |prs| ==> prs[i].id != prs[j].id)
  }

  ghost predicate WorldOk(w: State) {
    && PlayersOk(w) && OrderOk(w) && ShotsOk(w.players, w.projectiles)
    && 1 <= w.nextID <= MAX_ID
    && |w.projectiles| <= MAX_PROJECTILES
    && |w.pickups| == |PICKUP_SPOTS| && |w.flags| == 2
  }

  /** The same players under the same ids, in the same order and the same teams. */
  ghost predicate SameSeats(w: State, w': State) {
    && w'.order == w.order && w'.modes == w.modes && w'.players.Keys == w.players.Keys
    && forall id :: id in w.players ==> w'.players[id].team == w.players[id].team
  }

  /** The same players, in the same tick of the same match. */
  ghost predicate SameRoster(w: State, w': State) {
    SameSeats(w, w') && w'.tick == w.tick && w'.phase == w.phase && w'.matchAt == w.matchAt
  }

  lemma PlayerIds(w: State)
    requires WorldOk(w)
    ensures OwnIds(w)
  {
  }

  lemma NewWorldOk(seed: int, m: Modes)
    ensures WorldOk(NewWorld(seed, m))
  {
  }

  // ----- replacing one player

  /** Replacing a player by a sound one under the same id, with nothing else that the
      invariant mentions changed. */
  lemma PutOk(w: State, p: Player, w': State)
    requires WorldOk(w) && p.id in w.players && PlayerOk(p) && p.team == w.players[p.id].team
    requires w'.players == w.players[p.id := p] && w'.order == w.order && w'.nextID == w.nextID
    requires w'.projectiles == w.projectiles && |w'.pickups| == |w.pickups| && |w'.flags| == |w.flags|
    requires w'.tick == w.tick && w'.phase == w.phase && w'.matchAt == w.matchAt
    requires w'.modes == w.modes
    ensures WorldOk(w') && SameRoster(w, w')
  {
    hide PlayerOk;
  }

  // ----- spawning

  lemma {:induction false} SpawnIsLegal(env: Env, rng: int, tries: nat, x: real, y: real)
    requires EnvOk(env)
    requires tries == 0 ==>
      PLAYER_RADIUS <= x <= MAP_SIZE - PLAYER_RADIUS && PLAYER_RADIUS <= y <= MAP_SIZE - PLAYER_RADIUS
    ensures var m := SpawnFrom(env, rng, tries, x, y).0; Legal(m.x, m.y)
    decreases tries
  {
    if tries == 0 {
      ResolvedIsLegal(env.root, x, y);
    } else {
      var (x', rng1) := (SpawnCoord(env, rng), env.afterUnit(rng));
      var (y', rng2) := (SpawnCoord(env, rng1), env.afterUnit(rng1));
      SpawnCoordInside(env, rng);
      SpawnCoordInside(env, rng1);
      if ClearOf(WALLS, x', y', PLAYER_RADIUS + SPAWN_CLEARANCE) {
        ClearanceShrinks(x', y');
      } else {
        SpawnIsLegal(env, rng2, tries - 1, x', y');
      }
    }
  }

  lemma SpawnCoordInside(env: Env, rng: int)
    requires EnvOk(env)
    ensures SPAWN_MARGIN <= SpawnCoord(env, rng) <= MAP_SIZE - SPAWN_MARGIN
  {
    hide Mul;
    var span := MAP_SIZE - 2.0 * SPAWN_MARGIN;
    MulMono(0.0, env.unit(rng), span);
    MulMono(env.unit(rng), 1.0, span);
    MulUnits(span);
  }

  lemma ClearanceShrinks(x: real, y: real)
    requires ClearOf(WALLS, x, y, PLAYER_RADIUS + SPAWN_CLEARANCE)
    ensures ClearOf(WALLS, x, y, PLAYER_RADIUS)
  {
    hide Dist2, Sq;
    SqMono(PLAYER_RADIUS, PLAYER_RADIUS + SPAWN_CLEARANCE);
  }

  lemma SpawnPointLegal(env: Env, rng: int)
    requires EnvOk(env)
    ensures var m := SpawnPoint(env, rng).0; Legal(m.x, m.y)
  {
    hide SpawnFrom, Legal;
    SpawnIsLegal(env, rng, SPAWN_TRIES, 0.0, 0.0);
  }

  lemma RespawnOk(env: Env, w: State, id: nat)
    requires EnvOk(env) && WorldOk(w)
    ensures WorldOk(Respawn(env, w, id)) && SameRoster(w, Respawn(env, w, id))
  {
    hide SpawnPoint, Legal;
    if id in w.players {
      SpawnPointLegal(env, w.rng);
      PutOk(w, Respawned(w.players[id], SpawnPoint(env, w.rng).0, w.tick), Respawn(env, w, id));
    }
  }

  // ----- joining and leaving

  lemma {:induction false} InsertIdKeepsOrder(ids: seq<nat>, id: nat)
    requires AscendingIds(ids) && id !in ids
    ensures AscendingIds(InsertId(ids, id)) && forall x :: x in InsertId(ids, id) <==> x == id || x in ids
    decreases |ids|
  {
    if ids != [] {
      assert ids == [ids[0]] + ids[1..];
      if ids[0] < id {
        InsertIdKeepsOrder(ids[1..], id);
        var rest := InsertId(ids[1..], id);
        forall k | 0 <= k < |rest|
          ensures ids[0] < rest[k]
        {
          assert rest[k] in rest;
        }
      } else {
        assert ids[0] in ids;
      }
    }
  }

  lemma {:induction false} RemoveIdKeepsOrder(ids: seq<nat>, id: nat)
    requires AscendingIds(ids)
    ensures AscendingIds(RemoveId(ids, id)) && forall x :: x in RemoveId(ids, id) <==> x != id && x in ids
    decreases |ids|
  {
    if ids != [] {
      assert ids == [ids[0]] + ids[1..];
      if ids[0] != id {
        RemoveIdKeepsOrder(ids[1..], id);
        var rest := RemoveId(ids[1..], id);
        forall k | 0 <= k < |rest|
          ensures ids[0] < rest[k]
        {
          assert rest[k] in rest;
        }
      }
    }
  }

  lemma AddPlayerOk(env: Env, w: State, name: Bytes)
    requires EnvOk(env) && WorldOk(w)
    ensures WorldOk(AddPlayer(env, w, name).0)
  {
    hide Alloc, Taken, Legal, SpawnPoint, AscendingIds, SmallerTeam, InsertId, Following;
    AllocIsExact(w);
    var r := Alloc(w).0;
    if r.Some? {
      FreeIdIsFree(w, r.value);
      SpawnPointLegal(env, w.rng);
      SmallerTeamIsTeam(w);
      FreshIdOrdered(w, r.value);
    }
  }

  lemma FreshIdOrdered(w: State, id: nat)
    requires OrderOk(w) && id !in w.players
    ensures AscendingIds(InsertId(w.order, id)) && forall x :: x in InsertId(w.order, id) <==> x == id || x in w.order
  {
    InsertIdKeepsOrder(w.order, id);
  }

  lemma SmallerTeamIsTeam(w: State)
    ensures SmallerTeam(w) <= 1
  {
  }

  lemma FreeIdIsFree(w: State, id: nat)
    requires !Taken(w, id)
    ensures id !in w.players && forall i :: 0 <= i < |w.projectiles| ==> w.projectiles[i].id != id
  {
  }

  lemma RemovePlayerOk(w: State, id: nat)
    requires WorldOk(w)
    ensures WorldOk(RemovePlayer(w, id))
  {
    hide PlayerOk, AscendingIds, RemoveId;
    RemoveIdKeepsOrder(w.order, id);
  }

  lemma EnqueueInputOk(w: State, id: nat, inp: Input)
    requires WorldOk(w)
    ensures WorldOk(EnqueueInput(w, id, inp)) && SameRoster(w, EnqueueInput(w, id, inp))
  {
    hide Legal;
    if AcceptsInput(w, id, inp) {
      var p := w.players[id];
      PutOk(w, p.(inputs := p.inputs + [inp], lastQueuedSeq := inp.seq_, hasQueued := true), EnqueueInput(w, id, inp));
    }
  }

  // ----- firing

  ghost predicate KeepsOk(w: State, w': State) {
    WorldOk(w') && SameRoster(w, w')
  }

  lemma SpawnProjectileOk(env: Env, w: State, id: nat, ang: real, rewind: int)
    requires WorldOk(w) && 0 <= rewind <= MAX_REWIND
    ensures KeepsOk(w, SpawnProjectile(env, w, id, ang, rewind))
  {
    hide Alloc, Taken, PlayerOk, AscendingIds, Following;
    AllocIsExact(w);
    var r := Alloc(w).0;
    if id in w.players && |w.projectiles| < MAX_PROJECTILES && r.Some? {
      FreeIdIsFree(w, r.value);
    }
  }

  lemma {:induction false} SpawnFanOk(env: Env, w: State, id: nat, start: real, step: real, rewind: int, n: nat)
    requires WorldOk(w) && 0 <= rewind <= MAX_REWIND
    ensures KeepsOk(w, SpawnFan(env, w, id, start, step, rewind, n))
  {
    hide SpawnProjectile, WorldOk, Mul;
    if n > 0 {
      SpawnFanOk(env, w, id, start, step, rewind, n - 1);
      var front := SpawnFan(env, w, id, start, step, rewind, n - 1);
      SpawnProjectileOk(env, front, id, start + Mul(step, (n - 1) as real), rewind);
    }
  }

  lemma VolleyOk(env: Env, w: State, id: nat, ang: real, rewind: int, pellets: nat, step: real)
    requires WorldOk(w) && 0 <= rewind <= MAX_REWIND
    ensures KeepsOk(w, Volley(env, w, id, ang, rewind, pellets, step))
  {
    hide SpawnProjectile, SpawnFan, WorldOk;
    SpawnProjectileOk(env, w, id, ang, rewind);
    SpawnFanOk(env, w, id, ang - Mul(step, (pellets - 1) as real) / 2.0, step, rewind, pellets);
  }

  /** The shooter after the trigger was pulled is still a sound player. */
  lemma TriggeredOk(w: State, id: nat)
    requires WorldOk(w) && id in w.players
    ensures KeepsOk(w, w.(players := w.players[id := Triggered(w.players[id], w.tick)]))
  {
    hide Legal, Cooldown;
    var p := Triggered(w.players[id], w.tick);
    PutOk(w, p, Put(w, p));
  }

  lemma TryFireOk(env: Env, w: State, id: nat, inp: Input)
    requires WorldOk(w)
    ensures KeepsOk(w, TryFire(env, w, id, inp))
  {
    hide Volley, WorldOk, WeaponSpecOf, Triggered;
    if CanFire(w, id) {
      TriggeredOk(w, id);
      var spec := WeaponSpecOf(w.players[id].weapon);
      var fan := w.tick < w.players[id].spreadUntil && spec.pellets == 1;
      VolleyOk(env, w.(players := w.players[id := Triggered(w.players[id], w.tick)]), id, env.radians(inp.aim),
               RewindOf(w.tick, inp.viewTick),
               if fan then SPREAD_COUNT else spec.pellets, if fan then SPREAD_STEP else spec.spread);
    } else {
      KeepsSame(w);
    }
  }

  lemma KeepsSame(w: State)
    requires WorldOk(w)
    ensures KeepsOk(w, w)
  {
  }

  // ----- inputs

  lemma DrivenOk(env: Env, p: Player, inp: Input)
    requires EnvOk(env) && PlayerOk(p)
    ensures PlayerOk(Driven(env, p, inp)) && Driven(env, p, inp).id == p.id && Driven(env, p, inp).team == p.team
  {
    hide Legal, Moved;
    MovedIsLegal(env.root, p.move, inp, INPUT_DT);
  }

  lemma ApplyInputOk(env: Env, w: State, id: nat, inp: Input)
    requires EnvOk(env) && WorldOk(w)
    ensures KeepsOk(w, ApplyInput(env, w, id, inp))
  {
    hide PlayerOk, Driven, TryFire, EnvOk;
    if id in w.players {
      var p := Driven(env, w.players[id], inp);
      DrivenOk(env, w.players[id], inp);
      PutOk(w, p, Put(w, p));
      TryFireOk(env, Put(w, p), id, inp);
    }
  }

  lemma DrainedOk(w: State, id: nat)
    requires WorldOk(w)
    ensures KeepsOk(w, Drained(w, id))
  {
    hide Legal;
    if id in w.players {
      PutOk(w, w.players[id].(inputs := []), Drained(w, id));
    }
  }

  /** A fold of turns that each keep the world sound keeps it sound. */
  lemma FoldOk<A(!new)>(f: (State, A) -> State, w: State, xs: seq<A>)
    requires WorldOk(w)
    requires forall s, x :: WorldOk(s) && x in xs ==> KeepsOk(s, f(s, x))
    ensures KeepsOk(w, Fold(f, w, xs))
  {
    hide WorldOk;
    var inv := (s: State) => KeepsOk(w, s);
    assert inv(w);
    forall s, x | inv(s) && x in xs
      ensures inv(f(s, x))
    {
      assert KeepsOk(s, f(s, x));
    }
    FoldInv(f, w, xs, inv);
  }

  lemma PlayerTurnOk(env: Env, w: State, id: nat)
    requires EnvOk(env) && WorldOk(w)
    ensures KeepsOk(w, PlayerTurn(env, w, id))
  {
    hide WorldOk, ApplyInput, Drained, EnvOk;
    DrainedOk(w, id);
    if id in w.players && !w.players[id].dead {
      forall s, inp | WorldOk(s) && inp in w.players[id].inputs
        ensures KeepsOk(s, InputOf(env, id)(s, inp))
      {
        ApplyInputOk(env, s, id, inp);
      }
      FoldOk(InputOf(env, id), w, w.players[id].inputs);
      DrainedOk(ApplyInputs(env, w, id, w.players[id].inputs), id);
    }
  }

  lemma PlayerTurnsOk(env: Env, w: State)
    requires EnvOk(env) && WorldOk(w)
    ensures KeepsOk(w, PlayerTurns(env, w))
  {
    hide WorldOk, PlayerTurn, EnvOk;
    forall s, id | WorldOk(s) && id in w.order
      ensures KeepsOk(s, TurnOf(env)(s, id))
    {
      PlayerTurnOk(env, s, id);
    }
    FoldOk(TurnOf(env), w, w.order);
  }

  // ----- damage

  lemma RecordKillOk(w: State, id: nat)
    requires WorldOk(w)
    ensures KeepsOk(w, RecordKill(w, id))
  {
    hide Legal;
    if id in w.players {
      var p := w.players[id].(streak := w.players[id].streak + 1);
      var healed := p.(hp := FULL_HP, invulnUntil := w.tick + KILLSTREAK_INVULN);
      PutOk(w, if p.streak % KILLSTREAK_STEP != 0 then p else healed, RecordKill(w, id));
    }
  }

  lemma CreditOk(w: State, victim: nat, attacker: nat)
    requires WorldOk(w)
    ensures KeepsOk(w, Credit(w, victim, attacker))
  {
    hide Legal, RecordKill, AscendingIds, ShotsOk;
    if attacker in w.players {
      var a := w.players[attacker].(kills := w.players[attacker].kills + 1);
      PutOk(w, a, Put(w, a));
      RecordKillOk(Put(w, a), attacker);
    }
  }

  lemma ApplyDamageOk(w: State, victim: nat, attacker: nat, dmg: nat)
    requires WorldOk(w)
    ensures KeepsOk(w, ApplyDamage(w, victim, attacker, dmg))
  {
    hide Legal, Credit, AscendingIds, ShotsOk;
    if victim in w.players && w.players[victim].hp != 0 {
      var p := Wounded(w.players[victim], dmg);
      if p.hp != 0 {
        PutOk(w, p, ApplyDamage(w, victim, attacker, dmg));
      } else {
        var es := w.events + [Hit(attacker, victim, dmg, p.hp)] + [Death(attacker, victim)];
        var w2 := Put(Put(w, p), Killed(p, w.tick)).(events := es);
        assert w2.players == w.players[p.id := Killed(p, w.tick)];
        PutOk(w, Killed(p, w.tick), w2);
        CreditOk(w2, victim, attacker);
      }
    }
  }

  lemma SplashOk(env: Env, w: State, pr: Projectile, ix: real, iy: real, id: nat)
    requires WorldOk(w)
    ensures KeepsOk(w, Splash(env, w, pr, ix, iy, id))
  {
    hide WorldOk, ApplyDamage, SplashDamage, Sq, TargetPos, WeaponSpecOf;
    if Eligible(w, pr, id) {
      ApplyDamageOk(w, id, pr.owner, SplashDamage(env, WeaponSpecOf(pr.weapon),
        var t := TargetPos(w.players[id], w.tick, pr.rewind); Sq(t.x - ix) + Sq(t.y - iy)));
    }
  }

  lemma DetonateOk(env: Env, w: State, pr: Projectile, victim: Option<nat>, wallHit: bool, ex: real, ey: real)
    requires WorldOk(w)
    ensures KeepsOk(w, Detonate(env, w, pr, victim, wallHit, ex, ey))
  {
    hide WorldOk, ApplyDamage, Splash, WeaponSpecOf;
    var spec := WeaponSpecOf(pr.weapon);
    if victim.Some? {
      ApplyDamageOk(w, victim.value, pr.owner, spec.damage);
    }
    forall s, id | WorldOk(s) && id in w.order
      ensures KeepsOk(s, SplashOf(env, pr, ex, ey)(s, id))
    {
      SplashOk(env, s, pr, ex, ey, id);
    }
    FoldOk(SplashOf(env, pr, ex, ey), w, w.order);
  }

  // ----- projectiles

  /** The kept projectiles are some of those handled, moved but under their own ids. */
  ghost predicate KeptFrom(kept: seq<Projectile>, prs: seq<Projectile>) {
    && |kept| <= |prs|
    && (forall i :: 0 <= i < |kept| ==>
        exists j :: 0 <= j < |prs| && prs[j].id == kept[i].id && prs[j].rewind == kept[i].rewind)
    && (forall i, j :: 0 <= i < j < |kept| ==> kept[i].id != kept[j].id)
  }

  lemma KeptAlso(kept: seq<Projectile>, prs: seq<Projectile>, pr: Projectile, pr': Projectile)
    requires KeptFrom(kept, prs) && pr'.id == pr.id && pr'.rewind == pr.rewind
    requires forall j :: 0 <= j < |prs| ==> prs[j].id != pr.id
    ensures KeptFrom(kept, prs + [pr]) && KeptFrom(kept + [pr'], prs + [pr])
  {
    var all := prs + [pr];
    assert all[|prs|] == pr;
    forall i | 0 <= i < |kept|
      ensures exists j :: 0 <= j < |all| && all[j].id == kept[i].id && all[j].rewind == kept[i].rewind
      ensures kept[i].id != pr'.id
    {
      var j :| 0 <= j < |prs| && prs[j].id == kept[i].id && prs[j].rewind == kept[i].rewind;
      assert all[j] == prs[j];
    }
  }

  lemma {:induction false} FlyAllOk(env: Env, w: State, prs: seq<Projectile>, dt: real)
    requires WorldOk(w) && forall i, j :: 0 <= i < j < |prs| ==> prs[i].id != prs[j].id
    ensures var f := FlyAll(env, w, prs, dt); KeepsOk(w, f.w) && KeptFrom(f.kept, prs)
  {
    hide WorldOk, LinearHit, WallOf, PathEnd, Detonate, OutOfBounds, Mul, KeptFrom;
    if prs != [] {
      var n := |prs| - 1;
      var (front, pr) := (prs[..n], prs[n]);
      assert forall i, j :: 0 <= i < j < n ==> front[i].id != front[j].id;
      FlyAllOk(env, w, front, dt);
      var f := FlyAll(env, w, front, dt);
      var (nx, ny) := (pr.x + Mul(pr.vx, dt), pr.y + Mul(pr.vy, dt));
      var wall := WallOf(pr, nx, ny);
      var (ex, ey) := PathEnd(pr, nx, ny, wall);
      DetonateOk(env, f.w, pr, LinearHit(f.w, pr, ex, ey, f.w.order), wall.Some?, ex, ey);
      assert forall j :: 0 <= j < n ==> front[j].id != pr.id;
      KeptAlso(f.kept, front, pr, pr.(x := nx, y := ny, life := pr.life - 1));
      assert front + [pr] == prs;
    } else {
      NothingKept();
    }
  }

  lemma NothingKept()
    ensures KeptFrom([], [])
  {
  }

  lemma StepProjectilesOk(env: Env, w: State, dt: real)
    requires WorldOk(w)
    ensures KeepsOk(w, StepProjectiles(env, w, dt))
  {
    hide FlyAll, PlayerOk, AscendingIds;
    FlyAllOk(env, w, w.projectiles, dt);
    var f := FlyAll(env, w, w.projectiles, dt);
    forall i | 0 <= i < |f.kept|
      ensures 1 <= f.kept[i].id <= MAX_ID && f.kept[i].id !in w.players && 0 <= f.kept[i].rewind <= MAX_REWIND
    {
      var j :| 0 <= j < |w.projectiles| && w.projectiles[j].id == f.kept[i].id
               && w.projectiles[j].rewind == f.kept[i].rewind;
    }
  }

  // ----- the rest of a tick

  lemma RespawnsOk(env: Env, w: State)
    requires EnvOk(env) && WorldOk(w)
    ensures KeepsOk(w, Respawns(env, w))
  {
    hide WorldOk, Respawn, EnvOk;
    forall s, id | WorldOk(s) && id in w.order
      ensures KeepsOk(s, RespawnOf(env)(s, id))
    {
      RespawnOk(env, s, id);
    }
    FoldOk(RespawnOf(env), w, w.order);
  }

  lemma StepPickupOk(env: Env, w: State, i: nat)
    requires WorldOk(w)
    ensures KeepsOk(w, StepPickup(env, w, i))
  {
    hide Legal, Taker, ShotsOk, AscendingIds;
    if i < |w.pickups| && i < |PICKUP_SPOTS| && w.pickups[i].active {
      var t := Taker(w, PICKUP_SPOTS[i], w.order);
      if t.Some? && t.value in w.players {
        PutOk(w, Blessed(w.players[t.value], w.pickups[i].kind, w.tick), StepPickup(env, w, i));
      }
    }
  }

  lemma StepPickupsOk(env: Env, w: State)
    requires WorldOk(w)
    ensures KeepsOk(w, StepPickups(env, w))
  {
    hide WorldOk, StepPickup;
    var spots: seq<nat> := [0, 1, 2, 3, 4];
    forall s, i | WorldOk(s) && i in spots
      ensures KeepsOk(s, PickupOf(env)(s, i))
    {
      StepPickupOk(env, s, i);
    }
    FoldOk(PickupOf(env), w, spots);
  }

  lemma ScoreZoneOk(w: State, z: Zone)
    requires WorldOk(w)
    ensures KeepsOk(w, ScoreZone(w, z))
  {
    hide Legal, Holds, AscendingIds;
    var w' := ScoreZone(w, z);
    assert w'.players.Keys == w.players.Keys;
    forall id | id in w'.players
      ensures w'.players[id].id == id && PlayerOk(w'.players[id])
    {
      assert w.players[id].id == id && PlayerOk(w.players[id]);
    }
    SameIdsShots(w.players, w'.players, w.projectiles);
    hide PlayerOk, ShotsOk;
  }

  lemma SameIdsShots(ps: map<nat, Player>, ps': map<nat, Player>, prs: seq<Projectile>)
    requires ps'.Keys == ps.Keys && ShotsOk(ps, prs)
    ensures ShotsOk(ps', prs)
  {
  }

  lemma ObjectivesOk(env: Env, w: State)
    requires WorldOk(w)
    ensures KeepsOk(w, Objectives(env, w))
  {
    hide WorldOk, StepPickups, ScoreZone;
    StepPickupsOk(env, w);
    var w1 := StepPickups(env, w);
    ScoreZoneOk(w1, HILL);
    var w2 := StepHill(w1);
    ScoreZoneOk(w2, DOM_POINTS[0]);
    ScoreZoneOk(ScoreZone(w2, DOM_POINTS[0]), DOM_POINTS[1]);
    ScoreZoneOk(ScoreZone(ScoreZone(w2, DOM_POINTS[0]), DOM_POINTS[1]), DOM_POINTS[2]);
  }

  lemma WithFlagOk(w: State, i: nat, f: Flag)
    requires WorldOk(w)
    ensures KeepsOk(w, WithFlag(w, i, f))
  {
    hide PlayerOk, AscendingIds, ShotsOk;
  }

  lemma TendFlagOk(w: State, i: nat)
    requires WorldOk(w)
    ensures KeepsOk(w, TendFlag(w, i))
  {
    hide WorldOk, WithFlag;
    forall f
      ensures KeepsOk(w, WithFlag(w, i, f))
    {
      WithFlagOk(w, i, f);
    }
  }

  lemma TouchFlagOk(w: State, id: nat, i: nat)
    requires WorldOk(w)
    ensures KeepsOk(w, TouchFlag(w, id, i))
  {
    hide WorldOk, WithFlag, Reaches;
    forall f
      ensures KeepsOk(w, WithFlag(w, i, f))
    {
      WithFlagOk(w, i, f);
    }
  }

  lemma CaptureFlagOk(w: State, id: nat)
    requires WorldOk(w)
    ensures KeepsOk(w, CaptureFlag(w, id))
  {
    hide Legal, CanCapture, ShotsOk, AscendingIds;
    if CanCapture(w, id) {
      CapturerIsPlayer(w, id);
      PutOk(w, w.players[id].(captures := w.players[id].captures + 1), CaptureFlag(w, id));
    }
  }

  lemma CapturerIsPlayer(w: State, id: nat)
    requires CanCapture(w, id)
    ensures id in w.players && |w.flags| == 2
  {
  }

  lemma TouchesOk(w: State)
    requires WorldOk(w)
    ensures KeepsOk(w, Touches(w))
  {
    hide WorldOk, TouchFlag;
    forall s, id | WorldOk(s) && id in w.order
      ensures KeepsOk(s, TouchOf()(s, id))
    {
      TouchFlagOk(s, id, 0);
      TouchFlagOk(TouchFlag(s, id, 0), id, 1);
    }
    FoldOk(TouchOf(), w, w.order);
  }

  lemma StepCTFOk(w: State)
    requires WorldOk(w)
    ensures KeepsOk(w, StepCTF(w))
  {
    hide WorldOk, TendFlag, TouchFlag, CaptureFlag;
    TendFlagOk(w, 0);
    TendFlagOk(TendFlag(w, 0), 1);
    var w1 := TendFlag(TendFlag(w, 0), 1);
    TouchesOk(w1);
    var w2 := Touches(w1);
    forall s, id | WorldOk(s) && id in w2.order
      ensures KeepsOk(s, CaptureOf()(s, id))
    {
      CaptureFlagOk(s, id);
    }
    FoldOk(CaptureOf(), w2, w2.order);
  }

  lemma ScoresCleared(w: State, id: nat)
    requires WorldOk(w) && id in w.players
    ensures w.players[id].id == id && KeepsOk(w, Put(w, Cleared(w.players[id])))
  {
    hide Legal;
    var p := Cleared(w.players[id]);
    PutOk(w, p, Put(w, p));
  }

  lemma RestartOk(env: Env, w: State, id: nat)
    requires EnvOk(env) && WorldOk(w)
    ensures KeepsOk(w, Restart(env, w, id))
  {
    hide Legal, Respawn, ShotsOk, AscendingIds, EnvOk;
    if id in w.players {
      var p := Cleared(w.players[id]);
      PutOk(w, p, Put(w, p));
      RespawnOk(env, Put(w, p), id);
    }
  }

  /** Fields the invariant does not mention, and flags as long as there are two. */
  lemma OtherFieldsOk(w: State, w': State)
    requires WorldOk(w) && w'.players == w.players && w'.order == w.order && w'.nextID == w.nextID
    requires w'.modes == w.modes && w'.projectiles == w.projectiles && |w'.pickups| == |w.pickups| && |w'.flags| == 2
    ensures WorldOk(w') && SameSeats(w, w')
  {
    hide PlayerOk, AscendingIds;
  }

  /** Sound still, with the same players, in the same tick. */
  ghost predicate SeatsOk(w: State, w': State) {
    WorldOk(w') && SameSeats(w, w') && w'.tick == w.tick
  }

  lemma SeatsOkSame(w: State)
    requires WorldOk(w)
    ensures SeatsOk(w, w)
  {
  }

  lemma StepMatchOk(env: Env, w: State)
    requires EnvOk(env) && WorldOk(w)
    ensures SeatsOk(w, StepMatch(env, w))
  {
    EndMatchOk(w);
    StartMatchOk(env, w);
    SeatsOkSame(w);
    hide WorldOk, EndMatch, StartMatch, EnvOk;
  }

  lemma EndMatchOk(w: State)
    requires WorldOk(w)
    ensures SeatsOk(w, EndMatch(w))
  {
    OtherFieldsOk(w, EndMatch(w));
  }

  lemma RestartsOk(env: Env, w: State)
    requires EnvOk(env) && WorldOk(w)
    ensures KeepsOk(w, Fold(RestartOf(env), w, w.order))
  {
    hide WorldOk, Restart, EnvOk;
    forall s, id | WorldOk(s) && id in w.order
      ensures KeepsOk(s, RestartOf(env)(s, id))
    {
      RestartOk(env, s, id);
    }
    FoldOk(RestartOf(env), w, w.order);
  }

  lemma ReopenedOk(w: State)
    requires WorldOk(w)
    ensures SeatsOk(w, Reopened(w))
  {
    OtherFieldsOk(w, Reopened(w));
  }

  lemma ResetFlagsOk(w: State)
    requires WorldOk(w)
    ensures KeepsOk(w, ResetFlags(w))
  {
    OtherFieldsOk(w, ResetFlags(w));
  }

  lemma StartMatchOk(env: Env, w: State)
    requires EnvOk(env) && WorldOk(w)
    ensures SeatsOk(w, StartMatch(env, w))
  {
    hide WorldOk, Fold, EnvOk, Reopened, ResetFlags;
    ReopenedOk(w);
    RestartsOk(env, Reopened(w));
    ResetFlagsOk(Fold(RestartOf(env), Reopened(w), w.order));
  }

  lemma RecordedOk(w: State, id: nat)
    requires WorldOk(w)
    ensures KeepsOk(w, Recorded(w, id))
  {
    hide Legal, ShotsOk, AscendingIds;
    if id in w.players {
      var p := w.players[id];
      PutOk(w, p.(posHist := p.posHist[HistSlot(w.tick) := Pos(p.move.x, p.move.y)]), Recorded(w, id));
    }
  }

  lemma RecordHistoryOk(w: State)
    requires WorldOk(w)
    ensures KeepsOk(w, RecordHistory(w))
  {
    hide WorldOk, Recorded;
    forall s, id | WorldOk(s) && id in w.order
      ensures KeepsOk(s, RecordOf()(s, id))
    {
      RecordedOk(s, id);
    }
    FoldOk(RecordOf(), w, w.order);
  }

  lemma CombatOk(env: Env, w: State, dt: real)
    requires EnvOk(env) && WorldOk(w)
    ensures KeepsOk(w, Combat(env, w, dt))
  {
    var w0 := w.(events := []);
    OtherFieldsOk(w, w0);
    hide WorldOk, PlayerTurns, StepProjectiles, Respawns, EnvOk;
    PlayerTurnsOk(env, w0);
    var w1 := PlayerTurns(env, w0);
    StepProjectilesOk(env, w1, dt);
    RespawnsOk(env, StepProjectiles(env, w1, dt));
  }

  /** One tick keeps the world sound, and neither adds nor removes a player. */
  lemma StepOk(env: Env, w: State, dt: real)
    requires EnvOk(env) && WorldOk(w)
    ensures var w' := Step(env, w, dt); WorldOk(w') && SameSeats(w, w') && w'.tick == w.tick + 1
  {
    hide WorldOk, Combat, Objectives, StepCTF, StepMatch, RecordHistory, EnvOk;
    CombatOk(env, w, dt);
    var w3 := Combat(env, w, dt);
    ObjectivesOk(env, w3);
    var w4 := Objectives(env, w3);
    StepCTFOk(w4);
    var w5 := StepCTF(w4);
    TickOk(w5);
    StepMatchOk(env, w5.(tick := w5.tick + 1));
    RecordHistoryOk(StepMatch(env, w5.(tick := w5.tick + 1)));
  }

  lemma TickOk(w: State)
    requires WorldOk(w)
    ensures WorldOk(w.(tick := w.tick + 1))
  {
    OtherFieldsOk(w, w.(tick := w.tick + 1));
  }
}
