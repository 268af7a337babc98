/** The mutable world, internal/game/world.go and its companions: every method runs one
    of the rules in place. Account ids and anti-cheat buffers are fields here but not
    part of `State()`, so the contracts also say that they never steer the simulation. */
module World {
  import opened Wrappers
  import opened Wire
  import opened Reals
  import opened Walls
  import opened Segments
  import opened Movement
  import opened Arena
  import opened Ids
  import HitGrid
  import R = Rules
  import opened WorldInvariant

  /** One recorded event, stamped with the tick before which it was applied. */
  datatype Logged =
    | Joined(tick: nat, name: Bytes)
    | Left(tick: nat, id: nat)
    | Queued(tick: nat, id: nat, inp: Input)

  // ----- deaths leave the grid valid

  ghost predicate SoundDeaths(w0: State, w: State) {
    KeepsOk(w0, w) && HitGrid.OnlyDeaths(w0, w)
  }

  lemma RecordKillDeaths(w: State, id: nat)
    requires OwnIds(w)
    ensures HitGrid.OnlyDeaths(w, R.RecordKill(w, id))
  {
  }

  lemma CreditDeaths(w: State, victim: nat, attacker: nat)
    requires OwnIds(w)
    ensures HitGrid.OnlyDeaths(w, R.Credit(w, victim, attacker))
  {
    hide R.RecordKill;
    if attacker != victim && attacker in w.players {
      var a := w.players[attacker].(kills := w.players[attacker].kills + 1);
      PutKeepsIds(w, a, Put(w, a));
      RecordKillDeaths(Put(w, a), attacker);
    }
  }

  lemma ApplyDamageDeaths(w: State, victim: nat, attacker: nat, dmg: nat)
    requires OwnIds(w)
    ensures HitGrid.OnlyDeaths(w, R.ApplyDamage(w, victim, attacker, dmg))
  {
    hide R.Credit;
    if victim in w.players && w.players[victim].hp != 0 {
      var p := R.Wounded(w.players[victim], dmg);
      if p.hp == 0 {
        var es := w.events + [Hit(attacker, victim, dmg, p.hp)] + [Death(attacker, victim)];
        var w2 := Put(Put(w, p), R.Killed(p, w.tick)).(events := es);
        assert w2.players == w.players[p.id := R.Killed(p, w.tick)];
        PutKeepsIds(w, R.Killed(p, w.tick), w2);
        CreditDeaths(w2, victim, attacker);
      }
    }
  }

  lemma PutKeepsIds(w: State, p: Player, w': State)
    requires OwnIds(w) && w'.players == w.players[p.id := p]
    ensures OwnIds(w')
  {
  }

  lemma DetonateDeaths(env: Env, w: State, pr: Projectile, victim: Option<nat>, wallHit: bool, ex: real, ey: real)
    requires WorldOk(w)
    ensures SoundDeaths(w, R.Detonate(env, w, pr, victim, wallHit, ex, ey))
  {
    DetonateOk(env, w, pr, victim, wallHit, ex, ey);
    hide R.ApplyDamage, WorldOk, R.Splash, WeaponSpecOf, HitGrid.OnlyDeaths;
    SoundDeathsReflexive(w);
    if victim.Some? {
      DamageSound(w, w, victim.value, pr.owner, WeaponSpecOf(pr.weapon).damage);
    }
    var inv := (s: State) => SoundDeaths(w, s);
    forall s, id | inv(s) && id in w.order
      ensures inv(R.SplashOf(env, pr, ex, ey)(s, id))
    {
      SplashSound(env, w, s, pr, ex, ey, id);
    }
    FoldInv(R.SplashOf(env, pr, ex, ey), w, w.order, inv);
  }

  lemma SoundDeathsReflexive(w: State)
    requires WorldOk(w)
    ensures SoundDeaths(w, w)
  {
  }

  lemma DamageSound(w0: State, w: State, victim: nat, attacker: nat, dmg: nat)
    requires WorldOk(w0) && SoundDeaths(w0, w)
    ensures SoundDeaths(w0, R.ApplyDamage(w, victim, attacker, dmg))
  {
    ApplyDamageOk(w, victim, attacker, dmg);
    PlayerIds(w);
    ApplyDamageDeaths(w, victim, attacker, dmg);
    hide R.ApplyDamage, PlayersOk, OrderOk, ShotsOk;
  }

  lemma SplashSound(env: Env, w0: State, w: State, pr: Projectile, ix: real, iy: real, id: nat)
    requires WorldOk(w0) && SoundDeaths(w0, w)
    ensures SoundDeaths(w0, R.Splash(env, w, pr, ix, iy, id))
  {
    hide WorldOk, SoundDeaths, R.ApplyDamage, R.SplashDamage, Sq, TargetPos, WeaponSpecOf;
    if HitGrid.Eligible(w, pr, id) {
      DamageSound(w0, w, id, pr.owner, R.SplashDamage(env, WeaponSpecOf(pr.weapon),
        var t := TargetPos(w.players[id], w.tick, pr.rewind); Sq(t.x - ix) + Sq(t.y - iy)));
    }
  }

  class World {
    const env: Env
    const modes: Modes
    const hitGrid: HitGrid.HitGrid
    var tick: nat
    var players: map<nat, Player>
    var order: seq<nat>
    var rng: int
    var nextID: nat
    var projectiles: seq<Projectile>
    var events: seq<Event>
    var phase: Phase
    var matchAt: nat
    var winner: nat
    var pickups: seq<Pickup>
    var flags: seq<Flag>
    // identity and anti-cheat: outside the simulation state
    var accounts: map<nat, int>
    var acCounts: map<int, nat>
    var acEvents: seq<(int, int)>
    // replay recording
    var recording: bool
    var log: seq<Logged>

    constructor (env: Env, seed: int, m: Modes, recording: bool)
      requires EnvOk(env)
      ensures Valid() && State() == R.NewWorld(seed, m)
      ensures this.env == env && this.recording == recording && log == [] && fresh(hitGrid) && fresh(hitGrid.cells)
    {
      this.env := env;
      hitGrid := new HitGrid.HitGrid();
      tick, players, order, rng, nextID := 0, map[], [], seed, 1;
      projectiles, events := [], [];
      phase, matchAt, winner := Active, MATCH_DURATION, 0;
      pickups := seq(|R.PICKUP_SPOTS|, _ => Pickup(false, 0, 0));
      modes := m;
      flags := [R.BaseFlag(0), R.BaseFlag(1)];
      accounts, acCounts, acEvents := map[], map[], [];
      this.recording, log := recording, [];
      new;
      NewWorldOk(seed, m);
    }

    function State(): State
      reads this
    {
      Arena.State(tick, players, order, rng, nextID, projectiles, events, phase, matchAt, winner, pickups, modes, flags)
    }

    ghost predicate Valid()
      reads this
    {
      EnvOk(env) && WorldOk(State()) && hitGrid.cells.Length == HitGrid.NUM_CELLS
    }

    // ----- ids

    method IdTaken(id: nat) returns (taken: bool)
      ensures taken <==> Taken(State(), id)
    {
      if id in players {
        return true;
      }
      for i := 0 to |projectiles|
        invariant forall k :: 0 <= k < i ==> projectiles[k].id != id
      {
        if projectiles[i].id == id {
          return true;
        }
      }
      return false;
    }

    method AllocID() returns (r: Option<nat>)
      modifies this`nextID
      ensures (r, nextID) == Alloc(old(State()))
    {
      hide Taken;
      for i := 0 to MAX_ID
        invariant Scan(old(State()), nextID, MAX_ID - i) == Alloc(old(State()))
      {
        var id := nextID;
        nextID := (nextID + 1) % 0x1_0000;
        if nextID == 0 {
          nextID := 1;
        }
        var taken := IdTaken(id);
        SameTaken(old(State()), State(), id);
        if id != 0 && !taken {
          return Some(id);
        }
      }
      return None;
    }

    // ----- joining and leaving

    method SpawnPoint() returns (m: MoveState)
      modifies this`rng
      ensures (m, rng) == R.SpawnPoint(env, old(rng))
    {
      hide ClearOf, ResolvedBy, R.SpawnCoord;
      var x, y := 0.0, 0.0;
      for i := 0 to R.SPAWN_TRIES
        invariant R.SpawnFrom(env, rng, R.SPAWN_TRIES - i, x, y) == R.SpawnPoint(env, old(rng))
      {
        x := R.SpawnCoord(env, rng);
        rng := env.afterUnit(rng);
        y := R.SpawnCoord(env, rng);
        rng := env.afterUnit(rng);
        var inside := InsideAnyWall(x, y, PLAYER_RADIUS + R.SPAWN_CLEARANCE, WALLS);
        if !inside {
          return MoveState(x, y, 0.0, 0.0, 0.0, 0.0);
        }
      }
      x, y := ResolveWalls(env.root, x, y, PLAYER_RADIUS, WALLS);
      return MoveState(x, y, 0.0, 0.0, 0.0, 0.0);
    }

    method SmallerTeam() returns (team: nat)
      ensures team == R.SmallerTeam(State())
    {
      var c0, c1 := 0, 0;
      for i := 0 to |order|
        invariant c0 == R.TeamCount(State(), order[..i], true) && c1 == R.TeamCount(State(), order[..i], false)
      {
        assert order[..i + 1][..i] == order[..i];
        if order[i] in players {
          if players[order[i]].team == 0 {
            c0 := c0 + 1;
          } else {
            c1 := c1 + 1;
          }
        }
      }
      assert order[..|order|] == order;
      return if c1 < c0 then 1 else 0;
    }

    /** `accountID` is attached after the player was placed; 0 stands for a guest. */
    method AddPlayer(name: Bytes, accountID: int) returns (r: Option<nat>)
      requires Valid()
      modifies this
      ensures Valid() && (State(), r) == R.AddPlayer(env, old(State()), name)
      ensures recording == old(recording)
      ensures log == if recording && r.Some? then old(log) + [Joined(old(tick), name)] else old(log)
    {
      AddPlayerOk(env, State(), name);
      Admitted(env, State(), name);
      hide WorldOk, R.SpawnPoint, R.SmallerTeam, Alloc, EnvOk, R.InsertId, R.NewPlayer, R.AddPlayer, State;
      r := AllocID();
      if r.None? {
        return;
      }
      var m := SpawnPoint();
      var team := 0;
      if modes.team {
        team := SmallerTeam();
        SameTeams(old(State()), State());
      }
      Enlist(r.value, R.NewPlayer(r.value, name, m, team), accountID);
    }

    method Enlist(id: nat, p: Player, accountID: int)
      modifies this`players, this`order, this`accounts, this`log
      ensures State() == old(State()).(players := old(players)[id := p], order := R.InsertId(old(order), id))
      ensures log == if recording then old(log) + [Joined(tick, p.name)] else old(log)
    {
      hide R.InsertId;
      players := players[id := p];
      order := R.InsertId(order, id);
      accounts := accounts[id := accountID];
      if recording {
        log := log + [Joined(tick, p.name)];
      }
    }

    method RemovePlayer(id: nat)
      requires Valid()
      modifies this
      ensures Valid() && State() == R.RemovePlayer(old(State()), id)
      ensures recording == old(recording)
      ensures log == if recording && id in old(players) then old(log) + [Left(old(tick), id)] else old(log)
    {
      RemovePlayerOk(State(), id);
      hide WorldOk, EnvOk, R.RemoveId;
      if id !in players {
        return;
      }
      players := players - {id};
      order := R.RemoveId(order, id);
      if recording {
        log := log + [Left(tick, id)];
      }
    }

    method EnqueueInput(id: nat, inp: Input)
      requires Valid()
      modifies this
      ensures Valid() && State() == R.EnqueueInput(old(State()), id, inp)
      ensures recording == old(recording)
      ensures log ==
        if recording && R.AcceptsInput(old(State()), id, inp) then old(log) + [Queued(old(tick), id, inp)] else old(log)
    {
      EnqueueInputOk(State(), id, inp);
      PlayerIds(State());
      hide WorldOk, EnvOk;
      if id !in players {
        return;
      }
      var p := players[id];
      if p.hasQueued && inp.seq_ <= p.lastQueuedSeq {
        return;
      }
      players := players[id := p.(inputs := p.inputs + [inp], lastQueuedSeq := inp.seq_, hasQueued := true)];
      if recording {
        log := log + [Queued(tick, id, inp)];
      }
    }

    // ----- firing

    method SpawnProjectile(id: nat, ang: real, rewind: int)
      requires Valid() && id in players && 0 <= rewind <= MAX_REWIND
      modifies this`nextID, this`projectiles
      ensures Valid() && State() == R.SpawnProjectile(env, old(State()), id, ang, rewind)
    {
      SpawnProjectileOk(env, State(), id, ang, rewind);
      hide WorldOk, EnvOk, Alloc, R.NewShot;
      if |projectiles| >= MAX_PROJECTILES {
        return;
      }
      var nid := AllocID();
      if nid.None? {
        return;
      }
      projectiles := projectiles + [R.NewShot(env, players[id], nid.value, ang, rewind)];
    }

    /** Anti-cheat accounting of one shot: counted and, for accounts, recorded. */
    method RecordAntiCheat(id: nat, kind: int)
      modifies this`acCounts, this`acEvents
    {
      acCounts := acCounts[kind := (if kind in acCounts then acCounts[kind] else 0) + 1];
      if id in accounts && accounts[id] != 0 {
        acEvents := acEvents + [(accounts[id], kind)];
      }
    }

    method TryFire(id: nat, inp: Input)
      requires Valid() && id in players
      modifies this`players, this`nextID, this`projectiles, this`acCounts, this`acEvents
      ensures Valid() && State() == R.TryFire(env, old(State()), id, inp)
    {
      hide WorldOk, EnvOk, R.Fire;
      if tick < players[id].nextFireTick || |projectiles| >= MAX_PROJECTILES {
        return;
      }
      Fire(id, inp);
    }

    method Fire(id: nat, inp: Input)
      requires Valid() && id in players
      modifies this`players, this`nextID, this`projectiles, this`acCounts, this`acEvents
      ensures Valid() && State() == R.Fire(env, old(State()), id, inp)
    {
      TriggeredOk(State(), id);
      hide WorldOk, EnvOk, WeaponSpecOf, R.Triggered, R.Volley, R.RewindOf;
      var p := players[id];
      var spec := WeaponSpecOf(p.weapon);
      players := players[id := R.Triggered(p, tick)];
      var rewind := StampRewind(id, inp.viewTick);
      var pellets: nat, step := spec.pellets, spec.spread;
      if tick < p.spreadUntil && pellets == 1 {
        pellets, step := SPREAD_COUNT, SPREAD_STEP;
      }
      Volley(id, env.radians(inp.aim), rewind, pellets, step);
    }

    method Volley(id: nat, ang: real, rewind: int, pellets: nat, step: real)
      requires Valid() && id in players && 0 <= rewind <= MAX_REWIND
      modifies this`nextID, this`projectiles
      ensures Valid() && State() == R.Volley(env, old(State()), id, ang, rewind, pellets, step)
    {
      hide WorldOk, EnvOk, Mul, R.SpawnProjectile, R.SpawnFan;
      if pellets <= 1 {
        SpawnProjectile(id, ang, rewind);
      } else {
        SpawnFan(id, ang - Mul(step, (pellets - 1) as real) / 2.0, step, rewind, pellets);
      }
    }

    method StampRewind(id: nat, viewTick: nat) returns (rewind: int)
      modifies this`acCounts, this`acEvents
      ensures State() == old(State()) && rewind == R.RewindOf(tick, viewTick) && 0 <= rewind <= MAX_REWIND
    {
      rewind := 0;
      if viewTick != 0 {
        var d := tick - viewTick;
        if d < 0 {
          RecordAntiCheat(id, 0);
        } else if d > MAX_REWIND {
          RecordAntiCheat(id, 1);
        }
        rewind := ClampRewind(d);
      }
    }

    method SpawnFan(id: nat, start: real, step: real, rewind: int, pellets: nat)
      requires Valid() && id in players && 0 <= rewind <= MAX_REWIND
      modifies this`nextID, this`projectiles
      ensures Valid() && State() == R.SpawnFan(env, old(State()), id, start, step, rewind, pellets)
    {
      hide WorldOk, EnvOk, Mul, R.SpawnProjectile;
      for k := 0 to pellets
        invariant Valid() && id in players && State() == R.SpawnFan(env, old(State()), id, start, step, rewind, k)
      {
        SpawnProjectile(id, start + Mul(step, k as real), rewind);
      }
    }

    // ----- one player's inputs

    method Drain(id: nat)
      requires Valid() && id in players
      modifies this`players
      ensures Valid() && State() == R.Drained(old(State()), id)
    {
      PlayerIds(State());
      DrainedOk(State(), id);
      hide WorldOk, EnvOk;
      players := players[id := players[id].(inputs := [])];
    }

    /** The first loop of `Step` for one player. */
    method TakeTurn(id: nat)
      requires Valid() && id in players
      modifies this`players, this`nextID, this`projectiles, this`acCounts, this`acEvents
      ensures Valid() && State() == R.PlayerTurn(env, old(State()), id)
    {
      hide WorldOk, EnvOk, R.ApplyInput, R.Drained;
      if !players[id].dead {
        TakeInputs(id, players[id].inputs);
      }
      Drain(id);
    }

    method TakeInputs(id: nat, inputs: seq<Input>)
      requires Valid() && id in players
      modifies this`players, this`nextID, this`projectiles, this`acCounts, this`acEvents
      ensures Valid() && id in players && State() == R.ApplyInputs(env, old(State()), id, inputs)
    {
      hide WorldOk, EnvOk, R.ApplyInput;
      ghost var w0 := State();
      for i := 0 to |inputs|
        invariant Valid() && id in players && State() == Fold(R.InputOf(env, id), w0, inputs[..i])
      {
        FoldStep(R.InputOf(env, id), w0, inputs, i);
        TakeInput(id, inputs[i]);
      }
      assert inputs[..|inputs|] == inputs;
    }

    method TakeInput(id: nat, inp: Input)
      requires Valid() && id in players
      modifies this`players, this`nextID, this`projectiles, this`acCounts, this`acEvents
      ensures Valid() && id in players && State() == R.ApplyInput(env, old(State()), id, inp)
    {
      ApplyInputOk(env, State(), id, inp);
      DrivenSound(env, State(), id, inp);
      PlayerIds(State());
      hide WorldOk, EnvOk, R.TryFire, R.Driven, Has;
      Drive(id, inp);
      if Has(inp.buttons, BTN_FIRE) {
        TryFire(id, inp);
      }
    }

    /** Movement, acknowledged sequence number and weapon switch of one input. */
    method Drive(id: nat, inp: Input)
      requires id in players
      modifies this`players
      ensures State() == old(State()).(players := old(players)[id := R.Driven(env, old(players)[id], inp)])
    {
      hide Moved;
      var p := players[id];
      p := p.(move := Moved(env.root, p.move, inp, INPUT_DT));
      if inp.seq_ > p.lastProcessedSeq {
        p := p.(lastProcessedSeq := inp.seq_);
      }
      var sel := R.WeaponSelect(inp);
      if sel != 0 && sel <= WEAPON_COUNT && p.weapon != sel {
        p := p.(weapon := sel);
      }
      players := players[id := p];
    }

    // ----- damage

    method RecordKill(attacker: nat)
      requires attacker in players && players[attacker].id == attacker
      modifies this`players, this`events
      ensures State() == R.RecordKill(old(State()), attacker)
    {
      var p := players[attacker];
      p := p.(streak := p.streak + 1);
      players := players[attacker := p];
      if p.streak % KILLSTREAK_STEP != 0 {
        return;
      }
      players := players[attacker := p.(hp := FULL_HP, invulnUntil := tick + KILLSTREAK_INVULN)];
      events := events + [Killstreak(attacker, p.streak)];
    }

    method Credit(victim: nat, attacker: nat)
      requires OwnIds(State())
      modifies this`players, this`events
      ensures State() == R.Credit(old(State()), victim, attacker)
    {
      hide R.RecordKill;
      if attacker != victim {
        if attacker in players {
          players := players[attacker := players[attacker].(kills := players[attacker].kills + 1)];
          RecordKill(attacker);
        }
      }
    }

    method ApplyDamage(victim: nat, attacker: nat, dmg: nat)
      requires Valid() && victim in players
      modifies this`players, this`events
      ensures Valid() && State() == R.ApplyDamage(old(State()), victim, attacker, dmg)
    {
      ApplyDamageOk(State(), victim, attacker, dmg);
      PlayerIds(State());
      hide WorldOk, EnvOk, R.Die;
      if players[victim].hp == 0 {
        return;
      }
      Hurt(victim, attacker, dmg);
      if players[victim].hp == 0 {
        Die(players[victim], attacker);
      }
    }

    method Hurt(victim: nat, attacker: nat, dmg: nat)
      requires victim in players
      modifies this`players, this`events
      ensures State() == old(State()).(players := old(players)[victim := R.Wounded(old(players)[victim], dmg)],
                                       events := old(events)
                                         + [Hit(attacker, victim, dmg, R.Wounded(old(players)[victim], dmg).hp)])
    {
      var p := players[victim];
      if dmg >= p.hp {
        p := p.(hp := 0);
      } else {
        p := p.(hp := p.hp - dmg);
      }
      players := players[victim := p];
      events := events + [Hit(attacker, victim, dmg, p.hp)];
    }

    method Die(victim: Player, attacker: nat)
      requires OwnIds(State()) && victim.id in players
      modifies this`players, this`events
      ensures State() == R.Die(old(State()), victim, attacker)
    {
      hide R.Credit;
      var p := victim.(dead := true, respawnAt := tick + RESPAWN_DELAY, move := victim.move.(vx := 0.0, vy := 0.0));
      events := events + [Death(attacker, p.id)];
      players := players[p.id := p.(deaths := p.deaths + 1, streak := 0)];
      Credit(p.id, attacker);
    }

    method Splash(pr: Projectile, ix: real, iy: real, id: nat)
      requires Valid() && id in players && WeaponSpecOf(pr.weapon).splashRadius > 0.0
      modifies this`players, this`events
      ensures Valid() && State() == R.Splash(env, old(State()), pr, ix, iy, id)
    {
      hide WorldOk, EnvOk, R.ApplyDamage, R.SplashDamage, Sq, TargetPos, WeaponSpecOf;
      var spec := WeaponSpecOf(pr.weapon);
      if id == pr.owner {
        return;
      }
      var p := players[id];
      if p.dead || Invulnerable(p, tick) || (modes.team && p.team == pr.team) {
        return;
      }
      var t := TargetPos(p, tick, pr.rewind);
      var d2 := Sq(t.x - ix) + Sq(t.y - iy);
      if d2 > Sq(spec.splashRadius) {
        return;
      }
      var dmg := R.SplashDamage(env, spec, d2);
      if dmg != 0 {
        ApplyDamage(id, pr.owner, dmg);
      }
    }

    method Explode(pr: Projectile, ix: real, iy: real)
      requires Valid() && WeaponSpecOf(pr.weapon).splashRadius > 0.0
      modifies this`players, this`events
      ensures Valid() && State() == R.Explode(env, old(State()), pr, ix, iy)
    {
      hide WorldOk, EnvOk, R.Splash, WeaponSpecOf;
      ghost var w0 := State();
      for i := 0 to |order|
        invariant Valid() && State() == Fold(R.SplashOf(env, pr, ix, iy), w0, order[..i])
      {
        FoldStep(R.SplashOf(env, pr, ix, iy), w0, order, i);
        Listed(State(), order[i]);
        Splash(pr, ix, iy, order[i]);
      }
      assert order[..|order|] == order;
    }

    // ----- projectiles

    method Detonate(pr: Projectile, victim: Option<nat>, wallHit: bool, ex: real, ey: real)
      requires Valid() && (victim.Some? ==> victim.value in players)
      modifies this`players, this`events
      ensures Valid() && State() == R.Detonate(env, old(State()), pr, victim, wallHit, ex, ey)
    {
      hide WorldOk, EnvOk, R.ApplyDamage, R.Explode, WeaponSpecOf;
      var spec := WeaponSpecOf(pr.weapon);
      if spec.splashRadius > 0.0 {
        if victim.Some? || wallHit {
          Explode(pr, ex, ey);
        }
      } else if victim.Some? {
        ApplyDamage(victim.value, pr.owner, spec.damage);
      }
    }

    /** One turn of the loop in `stepProjectiles`; the victim comes from the grid. */
    method Fly(pr: Projectile, dt: real) returns (keep: bool, moved: Projectile)
      requires Valid() && 0 <= pr.rewind <= MAX_REWIND
      requires HitGrid.Covers(hitGrid.cells[..], State())
      modifies this`players, this`events
      ensures Valid() && SoundDeaths(old(State()), State())
      ensures R.Fly(env, R.Flight(old(State()), []), pr, dt) == R.Flight(State(), if keep then [moved] else [])
    {
      hide WorldOk, EnvOk, Mul, HitGrid.Covers, HitGrid.LinearHit, R.Detonate, WeaponSpecOf, FirstWallTime;
      hide R.OutOfBounds, SoundDeaths;
      var nx, ny := pr.x + Mul(pr.vx, dt), pr.y + Mul(pr.vy, dt);
      ArenaIsSeparated();
      var wallHit, ex, ey := SegmentWallHit(pr.x, pr.y, nx, ny, WALLS);
      if !wallHit {
        ex, ey := nx, ny;
      }
      OrderIsSound(State());
      var victim := HitGrid.FindHit(hitGrid, State(), pr, ex, ey);
      VictimIsListed(State(), pr, ex, ey, State().order);
      DetonateDeaths(env, State(), pr, victim, wallHit, ex, ey);
      Detonate(pr, victim, wallHit, ex, ey);
      moved := pr.(x := nx, y := ny, life := pr.life - 1);
      keep := !(victim.Some? || wallHit || moved.life <= 0 || R.OutOfBounds(nx, ny));
    }

    method StepProjectiles(dt: real)
      requires Valid()
      modifies this`players, this`events, this`projectiles, hitGrid.cells
      ensures Valid() && State() == R.StepProjectiles(env, old(State()), dt)
    {
      StepProjectilesOk(env, State(), dt);
      OrderIsSound(State());
      RewindsAreSound(State());
      SoundDeathsReflexive(State());
      hide WorldOk, EnvOk, R.Fly, SoundDeaths, HitGrid.Covers, HitGrid.Filed;
      hitGrid.Build(State());
      ghost var w0, cells := State(), hitGrid.cells[..];
      HitGrid.FiledCovers(cells, w0);
      ghost var f := R.Flight(w0, []);
      var prs, j := projectiles, 0;
      for i := 0 to |prs|
        invariant |prs| == |w0.projectiles| && j <= i && prs[i..] == w0.projectiles[i..]
        invariant Valid() && SoundDeaths(w0, State()) && hitGrid.cells[..] == cells
        invariant f == Fold(R.FlyOf(env, dt), R.Flight(w0, []), w0.projectiles[..i])
        invariant State() == f.w && prs[..j] == f.kept
      {
        FoldStep(R.FlyOf(env, dt), R.Flight(w0, []), w0.projectiles, i);
        StillCovers(cells, w0, State());
        Compacted(prs, w0.projectiles, j, i);
        ghost var w := State();
        var keep, moved := Fly(prs[i], dt);
        FlyAppends(env, w, f.kept, w0.projectiles[i], dt);
        DeathsChain(w0, w, State());
        f := R.Fly(env, f, w0.projectiles[i], dt);
        if keep {
          prs := prs[j := moved];
          j := j + 1;
        }
      }
      assert w0.projectiles[..|prs|] == w0.projectiles;
      projectiles := prs[..j];
    }

    // ----- respawns

    method Respawn(id: nat)
      requires Valid() && id in players
      modifies this`players, this`rng, this`events
      ensures Valid() && State() == R.Respawn(env, old(State()), id)
    {
      RespawnOk(env, State(), id);
      PlayerIds(State());
      hide WorldOk, EnvOk, R.SpawnPoint, R.Respawned;
      var m := SpawnPoint();
      Reborn(players[id], m, tick);
      players := players[id := R.Respawned(players[id], m, tick)];
      events := events + [Spawn(id, m.x, m.y)];
    }

    method Respawns()
      requires Valid()
      modifies this`players, this`rng, this`events
      ensures Valid() && State() == R.Respawns(env, old(State()))
    {
      hide WorldOk, EnvOk, R.Respawn;
      ghost var w0 := State();
      for i := 0 to |order|
        invariant Valid() && State() == Fold(R.RespawnOf(env), w0, order[..i])
      {
        FoldStep(R.RespawnOf(env), w0, order, i);
        Listed(State(), order[i]);
        var p := players[order[i]];
        if p.dead && tick >= p.respawnAt {
          Respawn(order[i]);
        }
      }
      assert order[..|order|] == order;
    }

    // ----- pickups

    method Ripen(i: nat)
      requires Valid() && i < |pickups| && !pickups[i].active
      modifies this`pickups, this`rng
      ensures Valid() && State() == R.StepPickup(env, old(State()), i)
    {
      StepPickupOk(env, State(), i);
      PickupPlaces(State());
      hide WorldOk, EnvOk, R.Taker, R.Blessed;
      if tick >= pickups[i].readyAt {
        pickups := pickups[i := Pickup(true, 1 + env.pick(rng), pickups[i].readyAt)];
        rng := env.afterPick(rng);
      }
    }

    /** The inner loop of `stepPickups`: the first living player on the spot. */
    method FindTaker(spot: Pos) returns (taker: Option<nat>)
      requires Valid()
      ensures taker == R.Taker(State(), spot, order) && (taker.Some? ==> taker.value in players)
    {
      hide WorldOk, EnvOk, R.Reaches;
      for i := 0 to |order|
        invariant R.Taker(State(), spot, order[i..]) == R.Taker(State(), spot, order)
      {
        Listed(State(), order[i]);
        var p := players[order[i]];
        assert order[i..][1..] == order[i + 1..];
        if !p.dead && R.Reaches(p, spot.x, spot.y, PLAYER_RADIUS + R.PICKUP_RADIUS) {
          return Some(order[i]);
        }
      }
      return None;
    }

    method TakePickup(i: nat)
      requires Valid() && i < |pickups| && pickups[i].active
      modifies this`players, this`pickups
      ensures Valid() && State() == R.StepPickup(env, old(State()), i)
    {
      StepPickupOk(env, State(), i);
      PlayerIds(State());
      PickupPlaces(State());
      hide WorldOk, EnvOk, R.Taker, R.Blessed;
      var taker := FindTaker(R.PICKUP_SPOTS[i]);
      if taker.Some? {
        BlessedId(players[taker.value], pickups[i].kind, tick);
        players := players[taker.value := R.Blessed(players[taker.value], pickups[i].kind, tick)];
        pickups := pickups[i := Pickup(false, pickups[i].kind, tick + R.PICKUP_RESPAWN)];
      }
    }

    method StepPickups()
      requires Valid()
      modifies this`players, this`pickups, this`rng
      ensures Valid() && State() == R.StepPickups(env, old(State()))
    {
      hide WorldOk, EnvOk, R.StepPickup;
      ghost var w0 := State();
      ghost var spots: seq<nat> := [0, 1, 2, 3, 4];
      PickupPlaces(State());
      for i := 0 to |pickups|
        invariant |pickups| == |spots|
        invariant Valid() && State() == Fold(R.PickupOf(env), w0, spots[..i])
      {
        FoldStep(R.PickupOf(env), w0, spots, i);
        if !pickups[i].active {
          Ripen(i);
        } else {
          TakePickup(i);
        }
        PickupPlaces(State());
      }
      assert spots[..|spots|] == spots;
    }

    // ----- king of the hill and domination

    /** First pass over a zone: which sides stand inside, and how many players. */
    method SurveyZone(z: R.Zone) returns (side0: bool, side1: bool, count: nat, last: nat)
      requires Valid()
      ensures var ids := R.Insiders(State(), z, order);
        && side0 == R.SideAmong(State(), ids, 0) && side1 == R.SideAmong(State(), ids, 1)
        && count == |ids| && (ids != [] ==> last == ids[|ids| - 1])
    {
      OrderIsSound(State());
      NobodyInside(State(), z);
      hide WorldOk, EnvOk, R.Inside, R.SideAmong, R.Insiders;
      side0, side1, count, last := false, false, 0, 0;
      for i := 0 to |order|
        invariant var ids := R.Insiders(State(), z, order[..i]);
          && side0 == R.SideAmong(State(), ids, 0) && side1 == R.SideAmong(State(), ids, 1)
          && count == |ids| && (ids != [] ==> last == ids[|ids| - 1])
      {
        NextInside(State(), z, order, i);
        if !R.Inside(State(), z, order[i]) {
          continue;
        }
        if players[order[i]].team % 2 == 0 {
          side0 := true;
        } else {
          side1 := true;
        }
        count, last := count + 1, order[i];
      }
      assert order[..|order|] == order;
    }

    /** Second pass: every player of the controlling team inside. */
    method AwardTeam(z: R.Zone, ctrl: nat)
      requires Valid()
      modifies this`players
      ensures State() == AwardedTeam(old(State()), z, ctrl, old(order))
    {
      OrderIsSound(State());
      ghost var w0 := State();
      NoneAwarded(w0, z, ctrl);
      hide WorldOk, EnvOk, R.Reaches, R.Awarded, AwardedTeam;
      for i := 0 to |order|
        invariant State() == AwardedTeam(w0, z, ctrl, order[..i])
      {
        var id := order[i];
        AwardNext(w0, z, ctrl, order, i);
        AwardedFrame(w0, z, ctrl, order[..i]);
        var p := players[id];
        if p.dead || p.team != ctrl {
          continue;
        }
        if R.Reaches(p, z.x, z.y, z.r) {
          players := players[id := R.Awarded(p, z)];
        }
      }
      assert order[..|order|] == order;
    }

    method ScoreZone(z: R.Zone)
      requires Valid()
      modifies this`players
      ensures Valid() && State() == R.ScoreZone(old(State()), z)
    {
      ScoreZoneOk(State(), z);
      ZoneRuling(State(), z);
      hide WorldOk, EnvOk, R.ScoreZone, R.Insiders, AwardedTeam;
      var side0, side1, count, last := SurveyZone(z);
      if modes.team {
        if side0 != side1 {
          AwardTeam(z, if side1 then 1 else 0);
        }
      } else if count == 1 {
        players := players[last := R.Awarded(players[last], z)];
      }
    }

    method StepHill()
      requires Valid()
      modifies this`players
      ensures Valid() && State() == R.StepHill(old(State()))
    {
      hide WorldOk, EnvOk, R.ScoreZone;
      if modes.hill && phase == Active {
        ScoreZone(R.HILL);
      }
    }

    method StepDomination()
      requires Valid()
      modifies this`players
      ensures Valid() && State() == R.StepDomination(old(State()))
    {
      hide WorldOk, EnvOk, R.ScoreZone;
      if modes.dom && phase == Active {
        ScoreZone(R.DOM_POINTS[0]);
        ScoreZone(R.DOM_POINTS[1]);
        ScoreZone(R.DOM_POINTS[2]);
      }
    }

    method Objectives()
      requires Valid()
      modifies this`players, this`pickups, this`rng
      ensures Valid() && State() == R.Objectives(env, old(State()))
    {
      hide WorldOk, EnvOk, R.StepPickups, R.StepHill, R.StepDomination;
      StepPickups();
      StepHill();
      StepDomination();
    }

    // ----- capture the flag

    method TendFlag(i: nat)
      requires Valid() && i < 2
      modifies this`flags
      ensures Valid() && State() == R.TendFlag(old(State()), i)
    {
      TendFlagOk(State(), i);
      TwoFlags(State());
      hide WorldOk, EnvOk;
      var f := flags[i];
      match f.status
      case Carried =>
        if f.carrier !in players {
          flags := flags[i := R.BaseFlag(i)];
        } else {
          var p := players[f.carrier];
          if p.dead {
            flags := flags[i := Flag(Dropped, 0, p.move.x, p.move.y, tick + R.FLAG_RETURN)];
          } else {
            flags := flags[i := f.(x := p.move.x, y := p.move.y)];
          }
        }
      case Dropped =>
        if tick >= f.dropAt {
          flags := flags[i := R.BaseFlag(i)];
        }
      case AtBase =>
    }

    method TouchFlag(id: nat, i: nat)
      requires Valid() && i < 2 && id in players && !players[id].dead
      modifies this`flags
      ensures Valid() && State() == R.TouchFlag(old(State()), id, i)
    {
      TouchFlagOk(State(), id, i);
      TwoFlags(State());
      hide WorldOk, EnvOk, R.Reaches;
      var p, f := players[id], flags[i];
      if f.status.Carried? {
        return;
      }
      var fx, fy := f.x, f.y;
      if f.status.AtBase? {
        fx, fy := R.FLAG_BASES[i].x, R.FLAG_BASES[i].y;
      }
      if !R.Reaches(p, fx, fy, PLAYER_RADIUS + R.FLAG_GRAB_RADIUS) {
        return;
      }
      if p.team % 2 == i {
        if f.status.Dropped? {
          flags := flags[i := R.BaseFlag(i)];
        }
      } else {
        flags := flags[i := f.(status := Carried, carrier := id, x := p.move.x, y := p.move.y)];
      }
    }

    method Touches()
      requires Valid()
      modifies this`flags
      ensures Valid() && State() == R.Touches(old(State()))
    {
      hide WorldOk, EnvOk, R.TouchFlag;
      ghost var w0 := State();
      for k := 0 to |order|
        invariant Valid() && State() == Fold(R.TouchOf(), w0, order[..k])
      {
        FoldStep(R.TouchOf(), w0, order, k);
        Listed(State(), order[k]);
        if players[order[k]].dead {
          DeadTouchNothing(State(), order[k]);
          continue;
        }
        TouchFlag(order[k], 0);
        TouchFlag(order[k], 1);
      }
      assert order[..|order|] == order;
    }

    method CaptureFlag(id: nat)
      requires Valid() && id in players
      modifies this`players, this`flags, this`events
      ensures Valid() && State() == R.CaptureFlag(old(State()), id)
    {
      CaptureFlagOk(State(), id);
      PlayerIds(State());
      TwoFlags(State());
      hide WorldOk, EnvOk, R.Reaches;
      var p := players[id];
      if p.dead {
        return;
      }
      var t := p.team % 2;
      var enemy := flags[1 - t];
      if !enemy.status.Carried? || enemy.carrier != id {
        return;
      }
      if !flags[t].status.AtBase? {
        return;
      }
      if !R.Reaches(p, R.FLAG_BASES[t].x, R.FLAG_BASES[t].y, PLAYER_RADIUS + R.FLAG_BASE_RADIUS) {
        return;
      }
      flags := flags[1 - t := R.BaseFlag(1 - t)];
      players := players[id := p.(captures := p.captures + 1)];
      events := events + [Capture(id)];
    }

    method Captures()
      requires Valid()
      modifies this`players, this`flags, this`events
      ensures Valid() && State() == R.Captures(old(State()))
    {
      hide WorldOk, EnvOk, R.CaptureFlag;
      ghost var w0 := State();
      for k := 0 to |order|
        invariant Valid() && State() == Fold(R.CaptureOf(), w0, order[..k])
      {
        FoldStep(R.CaptureOf(), w0, order, k);
        Listed(State(), order[k]);
        CaptureFlag(order[k]);
      }
      assert order[..|order|] == order;
    }

    method StepCTF()
      requires Valid()
      modifies this`players, this`flags, this`events
      ensures Valid() && State() == R.StepCTF(old(State()))
    {
      hide WorldOk, EnvOk, R.TendFlag, R.Touches, R.Captures;
      if !modes.ctf || !modes.team || phase != Active {
        return;
      }
      TendFlag(0);
      TendFlag(1);
      Touches();
      Captures();
    }

    // ----- the match

    method WinningTeam(score: Player -> nat) returns (team: nat)
      requires Valid()
      ensures team == R.WinningTeam(State(), score)
    {
      hide WorldOk, EnvOk;
      var k0, k1 := 0, 0;
      for i := 0 to |order|
        invariant k0 == R.TeamSum(State(), order[..i], 0, score) && k1 == R.TeamSum(State(), order[..i], 1, score)
      {
        assert order[..i + 1][..i] == order[..i];
        Listed(State(), order[i]);
        var p := players[order[i]];
        if p.team % 2 == 0 {
          k0 := k0 + score(p);
        } else {
          k1 := k1 + score(p);
        }
      }
      assert order[..|order|] == order;
      return if k1 > k0 then 1 else 0;
    }

    method Leader(score: Player -> nat) returns (best: nat)
      requires Valid()
      ensures best == R.LeaderOf(State(), order, score).0
    {
      hide WorldOk, EnvOk;
      best := 0;
      var bestScore: int := -1;
      for i := 0 to |order|
        invariant (best, bestScore) == R.LeaderOf(State(), order[..i], score)
      {
        assert order[..i + 1][..i] == order[..i];
        Listed(State(), order[i]);
        var s := score(players[order[i]]);
        if s > bestScore {
          bestScore, best := s, order[i];
        }
      }
      assert order[..|order|] == order;
    }

    method PickWinner() returns (best: nat)
      requires Valid()
      ensures best == R.Winner(State())
    {
      hide WorldOk, EnvOk, R.WinningTeam, R.LeaderOf;
      if modes.hill && modes.team {
        best := WinningTeam(R.HillPoints);
      } else if modes.hill {
        best := Leader(R.HillPoints);
      } else if modes.dom && modes.team {
        best := WinningTeam(R.DomPoints);
      } else if modes.dom {
        best := Leader(R.DomPoints);
      } else if modes.ctf {
        best := WinningTeam(R.CapturePoints);
      } else if modes.team {
        best := WinningTeam(R.KillPoints);
      } else {
        best := Leader(R.KillPoints);
      }
    }

    method EndMatch()
      requires Valid()
      modifies this`phase, this`matchAt, this`winner
      ensures Valid() && State() == R.EndMatch(old(State()))
    {
      EndMatchOk(State());
      hide WorldOk, EnvOk, R.Winner;
      var best := PickWinner();
      phase, matchAt, winner := Intermission, tick + INTERMISSION, best;
    }

    method Restart(id: nat)
      requires Valid() && id in players
      modifies this`players, this`rng, this`events
      ensures Valid() && State() == R.Restart(env, old(State()), id)
    {
      ScoresCleared(State(), id);
      hide WorldOk, EnvOk, R.Respawn;
      players := players[id := R.Cleared(players[id])];
      if !players[id].dead {
        Respawn(id);
      }
    }

    method Restarts()
      requires Valid()
      modifies this`players, this`rng, this`events
      ensures Valid() && State() == Fold(R.RestartOf(env), old(State()), old(order))
    {
      hide WorldOk, EnvOk, R.Restart;
      ghost var w0 := State();
      for i := 0 to |order|
        invariant Valid() && State() == Fold(R.RestartOf(env), w0, order[..i])
      {
        FoldStep(R.RestartOf(env), w0, order, i);
        Listed(State(), order[i]);
        Restart(order[i]);
      }
      assert order[..|order|] == order;
    }

    method Reopen()
      requires Valid()
      modifies this`phase, this`matchAt, this`winner
      ensures Valid() && State() == R.Reopened(old(State()))
    {
      ReopenedOk(State());
      hide WorldOk, EnvOk;
      phase, matchAt, winner := Active, tick + MATCH_DURATION, 0;
    }

    method ResetFlags()
      requires Valid()
      modifies this`flags
      ensures Valid() && State() == R.ResetFlags(old(State()))
    {
      ResetFlagsOk(State());
      hide WorldOk, EnvOk;
      flags := [R.BaseFlag(0), R.BaseFlag(1)];
    }

    method StartMatch()
      requires Valid()
      modifies this`players, this`rng, this`events, this`phase, this`matchAt, this`winner, this`flags
      ensures Valid() && State() == R.StartMatch(env, old(State()))
    {
      hide WorldOk, EnvOk, Fold, R.Reopened, R.ResetFlags;
      Reopen();
      ReopenedOrder(old(State()));
      Restarts();
      ResetFlags();
    }

    method StepMatch()
      requires Valid()
      modifies this`players, this`rng, this`events, this`phase, this`matchAt, this`winner, this`flags
      ensures Valid() && State() == R.StepMatch(env, old(State()))
    {
      hide WorldOk, EnvOk, R.EndMatch, R.StartMatch;
      if tick < matchAt {
        return;
      }
      match phase
      case Active => EndMatch();
      case Intermission => StartMatch();
    }

    // ----- one tick

    method RecordHistory()
      requires Valid()
      modifies this`players
      ensures Valid() && State() == R.RecordHistory(old(State()))
    {
      hide WorldOk, EnvOk, R.Recorded;
      ghost var w0 := State();
      for i := 0 to |order|
        invariant Valid() && State() == Fold(R.RecordOf(), w0, order[..i])
      {
        FoldStep(R.RecordOf(), w0, order, i);
        Listed(State(), order[i]);
        Record(order[i]);
      }
      assert order[..|order|] == order;
    }

    method Record(id: nat)
      requires Valid() && id in players
      modifies this`players
      ensures Valid() && State() == R.Recorded(old(State()), id)
    {
      RecordedOk(State(), id);
      PlayerIds(State());
      hide WorldOk, EnvOk;
      var p := players[id];
      players := players[id := p.(posHist := p.posHist[HistSlot(tick) := Pos(p.move.x, p.move.y)])];
    }

    method PlayerTurns()
      requires Valid()
      modifies this`players, this`nextID, this`projectiles, this`acCounts, this`acEvents
      ensures Valid() && State() == R.PlayerTurns(env, old(State()))
    {
      hide WorldOk, EnvOk, R.PlayerTurn;
      ghost var w0 := State();
      for i := 0 to |order|
        invariant Valid() && State() == Fold(R.TurnOf(env), w0, order[..i])
      {
        FoldStep(R.TurnOf(env), w0, order, i);
        Listed(State(), order[i]);
        TakeTurn(order[i]);
      }
      assert order[..|order|] == order;
    }

    method Combat(dt: real)
      requires Valid()
      modifies this`players, this`nextID, this`projectiles, this`rng, this`events, this`acCounts
      modifies this`acEvents, hitGrid.cells
      ensures Valid() && State() == R.Combat(env, old(State()), dt)
    {
      OtherFieldsOk(State(), State().(events := []));
      hide WorldOk, EnvOk, KeepsOk, R.PlayerTurns, R.StepProjectiles, R.Respawns;
      events := [];
      PlayerTurns();
      StepProjectiles(dt);
      Respawns();
    }

    method Step(dt: real)
      requires Valid()
      modifies this`tick, this`players, this`rng, this`nextID, this`projectiles, this`events, this`phase
      modifies this`matchAt, this`winner
      modifies this`pickups, this`flags, this`acCounts, this`acEvents, hitGrid.cells
      ensures Valid() && State() == R.Step(env, old(State()), dt)
    {
      hide WorldOk, EnvOk, R.Combat, R.Objectives, R.StepCTF, R.StepMatch, R.RecordHistory;
      Combat(dt);
      Objectives();
      StepCTF();
      TickOk(State());
      tick := tick + 1;
      StepMatch();
      RecordHistory();
    }
  }

  lemma Reborn(p: Player, m: MoveState, tick: nat)
    ensures R.Respawned(p, m, tick).id == p.id
  {
  }

  lemma BlessedId(p: Player, kind: nat, tick: nat)
    ensures R.Blessed(p, kind, tick).id == p.id
  {
  }

  lemma PickupPlaces(w: State)
    requires WorldOk(w)
    ensures |w.pickups| == |R.PICKUP_SPOTS| == 5
  {
  }

  lemma TwoFlags(w: State)
    requires WorldOk(w)
    ensures |w.flags| == 2
  {
  }

  lemma ReopenedOrder(w: State)
    ensures R.Reopened(w).order == w.order
  {
  }

  lemma DeadTouchNothing(w: State, id: nat)
    requires id in w.players && w.players[id].dead
    ensures R.TouchFlags(w, id) == w
  {
  }

  lemma NobodyInside(w: State, z: R.Zone)
    ensures R.Insiders(w, z, []) == [] && !R.SideAmong(w, [], 0) && !R.SideAmong(w, [], 1)
  {
  }

  lemma NextInside(w: State, z: R.Zone, ids: seq<nat>, i: nat)
    requires i < |ids| && ids[i] in w.players
    ensures var (before, after) := (R.Insiders(w, z, ids[..i]), R.Insiders(w, z, ids[..i + 1]));
      if R.Inside(w, z, ids[i]) then
        after == before + [ids[i]] &&
        forall side ::
          R.SideAmong(w, after, side) <==> R.SideAmong(w, before, side) || w.players[ids[i]].team % 2 == side
      else after == before
  {
    hide R.Inside;
    assert ids[..i + 1][..i] == ids[..i];
    OneMoreInside(w, R.Insiders(w, z, ids[..i]), ids[i]);
  }

  lemma OneMoreInside(w: State, ids: seq<nat>, id: nat)
    requires id in w.players
    ensures forall side ::
      R.SideAmong(w, ids + [id], side) <==> R.SideAmong(w, ids, side) || w.players[id].team % 2 == side
  {
    forall side
      ensures R.SideAmong(w, ids + [id], side) <==> R.SideAmong(w, ids, side) || w.players[id].team % 2 == side
    {
      assert id in ids + [id];
      assert forall x :: x in ids ==> x in ids + [id];
    }
  }

  function AwardedTeam(w: State, z: R.Zone, ctrl: nat, ids: seq<nat>): State {
    w.(players := map id | id in w.players ::
         if id in ids && R.Inside(w, z, id) && w.players[id].team == ctrl then R.Awarded(w.players[id], z)
         else w.players[id])
  }

  lemma NoneAwarded(w: State, z: R.Zone, ctrl: nat)
    ensures AwardedTeam(w, z, ctrl, []) == w
  {
    hide R.Inside, R.Awarded;
    assert AwardedTeam(w, z, ctrl, []).players == w.players;
  }

  lemma AwardedFrame(w: State, z: R.Zone, ctrl: nat, ids: seq<nat>)
    ensures var s := AwardedTeam(w, z, ctrl, ids); s == w.(players := s.players) && s.players.Keys == w.players.Keys
  {
    hide R.Inside, R.Awarded;
  }

  lemma AwardNext(w: State, z: R.Zone, ctrl: nat, ids: seq<nat>, i: nat)
    requires i < |ids| && HitGrid.AscendingIds(ids) && ids[i] in w.players
    ensures var (s, id) := (AwardedTeam(w, z, ctrl, ids[..i]), ids[i]);
      && s.players[id] == w.players[id]
      && AwardedTeam(w, z, ctrl, ids[..i + 1]) ==
         if R.Inside(w, z, id) && w.players[id].team == ctrl
         then s.(players := s.players[id := R.Awarded(w.players[id], z)])
         else s
  {
    hide R.Inside, R.Awarded;
    assert ids[..i + 1] == ids[..i] + [ids[i]];
    assert ids[i] !in ids[..i];
    var (s, id) := (AwardedTeam(w, z, ctrl, ids[..i]), ids[i]);
    var s' := AwardedTeam(w, z, ctrl, ids[..i + 1]);
    if R.Inside(w, z, id) && w.players[id].team == ctrl {
      assert s'.players == s.players[id := R.Awarded(w.players[id], z)];
    } else {
      assert s'.players == s.players;
    }
  }

  /** Who is awarded, from what the survey finds. */
  lemma ZoneRuling(w: State, z: R.Zone)
    requires WorldOk(w)
    ensures var ids := R.Insiders(w, z, w.order);
      var (side0, side1) := (R.SideAmong(w, ids, 0), R.SideAmong(w, ids, 1));
      && (forall id :: id in ids ==> id in w.players)
      && R.ScoreZone(w, z) ==
        if w.modes.team then (if side0 != side1 then AwardedTeam(w, z, if side1 then 1 else 0, w.order) else w)
        else if |ids| == 1 then w.(players := w.players[ids[0] := R.Awarded(w.players[ids[0]], z)])
        else w
  {
    OrderIsSound(w);
    TeamsAreTwo(w);
    InsidersAre(w, z, w.order);
    hide WorldOk, R.Insiders, R.Inside, R.Awarded;
    var ids := R.Insiders(w, z, w.order);
    if w.modes.team {
      TeamRuling(w, z, ids);
    } else {
      SoloRuling(w, z, ids);
    }
  }

  lemma TeamsAreTwo(w: State)
    requires WorldOk(w)
    ensures forall id :: id in w.players ==> w.players[id].team <= 1
  {
  }

  lemma {:induction false} InsidersAre(w: State, z: R.Zone, ids: seq<nat>)
    requires HitGrid.AscendingIds(ids)
    ensures var inside := R.Insiders(w, z, ids);
      HitGrid.AscendingIds(inside) && forall id :: id in inside <==> id in ids && R.Inside(w, z, id)
  {
    hide R.Inside;
    if ids != [] {
      var n := |ids| - 1;
      InsidersAre(w, z, ids[..n]);
      assert ids == ids[..n] + [ids[n]];
      var front := R.Insiders(w, z, ids[..n]);
      forall k | 0 <= k < |front|
        ensures front[k] < ids[n]
      {
        assert front[k] in ids[..n];
      }
    }
  }

  lemma TeamRuling(w: State, z: R.Zone, ids: seq<nat>)
    requires w.modes.team && (forall id :: id in ids <==> id in w.order && R.Inside(w, z, id))
    requires forall id :: id in w.players ==> w.players[id].team <= 1
    requires forall id :: id in ids ==> id in w.players
    ensures var (side0, side1) := (R.SideAmong(w, ids, 0), R.SideAmong(w, ids, 1));
      R.ScoreZone(w, z) == if side0 != side1 then AwardedTeam(w, z, if side1 then 1 else 0, w.order) else w
  {
    hide R.Inside, R.Awarded;
    var (side0, side1) := (R.SideAmong(w, ids, 0), R.SideAmong(w, ids, 1));
    forall id | id in w.players
      ensures R.Holds(w, z, id) <==> id in ids && side0 != side1 && w.players[id].team == if side1 then 1 else 0
    {
      if R.Holds(w, z, id) {
        assert id in ids;
      }
    }
    var ctrl := if side1 then 1 else 0;
    assert R.ScoreZone(w, z).players == (if side0 != side1 then AwardedTeam(w, z, ctrl, w.order) else w).players;
  }

  lemma FirstTwoDiffer(ids: seq<nat>)
    requires HitGrid.AscendingIds(ids) && |ids| > 1
    ensures ids[0] != ids[1]
  {
  }

  lemma SoloRuling(w: State, z: R.Zone, ids: seq<nat>)
    requires !w.modes.team && HitGrid.AscendingIds(ids)
    requires forall id :: id in ids <==> id in w.order && R.Inside(w, z, id)
    requires forall id :: id in ids ==> id in w.players
    ensures R.ScoreZone(w, z) ==
      if |ids| == 1 then w.(players := w.players[ids[0] := R.Awarded(w.players[ids[0]], z)]) else w
  {
    hide R.Inside, R.Awarded;
    forall id | id in w.players
      ensures R.Holds(w, z, id) <==> |ids| == 1 && id == ids[0]
    {
      if R.Holds(w, z, id) {
        assert id in ids;
        forall k | 0 <= k < |ids|
          ensures ids[k] == id
        {
          assert ids[k] in ids;
        }
        if |ids| > 1 {
          FirstTwoDiffer(ids);
        }
      }
      if |ids| == 1 && id == ids[0] {
        assert id in ids;
      }
    }
    assert R.ScoreZone(w, z).players ==
      if |ids| == 1 then w.players[ids[0] := R.Awarded(w.players[ids[0]], z)] else w.players;
  }

  lemma Listed(w: State, id: nat)
    requires WorldOk(w) && id in w.order
    ensures id in w.players
  {
  }

  lemma OrderIsSound(w: State)
    requires WorldOk(w)
    ensures HitGrid.AscendingIds(w.order) && forall id :: id in w.order ==> id in w.players
  {
  }

  lemma RewindsAreSound(w: State)
    requires WorldOk(w)
    ensures forall i :: 0 <= i < |w.projectiles| ==> 0 <= w.projectiles[i].rewind <= MAX_REWIND
  {
  }

  lemma {:induction false} VictimIsListed(w: State, pr: Projectile, ex: real, ey: real, ids: seq<nat>)
    ensures var v := HitGrid.LinearHit(w, pr, ex, ey, ids); v.Some? ==> v.value in ids
  {
    hide HitGrid.Struck;
    if ids != [] {
      VictimIsListed(w, pr, ex, ey, ids[1..]);
    }
  }

  /** Writing a survivor back to slot `j` leaves the projectiles still to be handled alone. */
  lemma Compacted(prs: seq<Projectile>, all: seq<Projectile>, j: nat, i: nat)
    requires |prs| == |all| && j <= i < |all| && prs[i..] == all[i..]
    ensures prs[i] == all[i] && prs[i + 1..] == all[i + 1..]
    ensures forall moved :: prs[j := moved][i + 1..] == all[i + 1..] && prs[j := moved][..j + 1] == prs[..j] + [moved]
  {
    assert prs[i] == prs[i..][0];
    assert prs[i..][1..] == all[i..][1..];
  }

  lemma StillCovers(cells: seq<seq<nat>>, w0: State, w: State)
    requires HitGrid.Covers(cells, w0) && SoundDeaths(w0, w)
    ensures HitGrid.Covers(cells, w)
  {
    hide WorldOk, HitGrid.Covers, HitGrid.OnlyDeaths;
    HitGrid.CoversAfterDeaths(cells, w0, w);
  }

  lemma DeathsChain(w0: State, w1: State, w2: State)
    requires SoundDeaths(w0, w1) && SoundDeaths(w1, w2)
    ensures SoundDeaths(w0, w2)
  {
    hide WorldOk;
  }

  lemma FlyAppends(env: Env, w: State, kept: seq<Projectile>, pr: Projectile, dt: real)
    ensures var g := R.Fly(env, R.Flight(w, []), pr, dt);
      R.Fly(env, R.Flight(w, kept), pr, dt) == R.Flight(g.w, kept + g.kept)
  {
    hide Mul, HitGrid.LinearHit, R.Detonate, R.WallOf, R.OutOfBounds;
  }

  lemma DrivenSound(env: Env, w: State, id: nat, inp: Input)
    requires EnvOk(env) && WorldOk(w) && id in w.players
    ensures WorldOk(Put(w, R.Driven(env, w.players[id], inp))) && R.Driven(env, w.players[id], inp).id == id
  {
    hide PlayerOk, R.Driven;
    DrivenOk(env, w.players[id], inp);
    PutOk(w, R.Driven(env, w.players[id], inp), Put(w, R.Driven(env, w.players[id], inp)));
  }

  /** The two outcomes of a join, spelled out. */
  lemma Admitted(env: Env, w: State, name: Bytes)
    ensures var (id, cursor) := Alloc(w);
      && (id.None? ==> R.AddPlayer(env, w, name) == (w.(nextID := cursor), None))
      && (id.Some? ==> var (m, rng) := R.SpawnPoint(env, w.rng);
          var p := R.NewPlayer(id.value, name, m, if w.modes.team then R.SmallerTeam(w) else 0);
          && R.AddPlayer(env, w, name) == (w.(players := w.players[id.value := p], nextID := cursor, rng := rng,
                                              order := R.InsertId(w.order, id.value)), id)
          && forall t :: R.NewPlayer(id.value, name, m, t).name == name)
  {
    hide R.SpawnPoint, R.SmallerTeam, Alloc, R.InsertId;
  }

  lemma SameTaken(w: State, w': State, id: nat)
    requires w'.players == w.players && w'.projectiles == w.projectiles
    ensures Taken(w', id) == Taken(w, id)
  {
  }

  lemma SameTeams(w: State, w': State)
    requires w'.players == w.players && w'.order == w.order
    ensures R.SmallerTeam(w') == R.SmallerTeam(w)
  {
    SameTeamCount(w, w', w.order, true);
    SameTeamCount(w, w', w.order, false);
  }

  lemma {:induction false} SameTeamCount(w: State, w': State, ids: seq<nat>, team0: bool)
    requires w'.players == w.players
    ensures R.TeamCount(w', ids, team0) == R.TeamCount(w, ids, team0)
  {
    if ids != [] {
      SameTeamCount(w, w', ids[..|ids| - 1], team0);
    }
  }
}
