/** What the events of one tick say about every player, internal/game: deaths and frags
    are counted, lives begin and end, and the position history restarts at a spawn,
    exactly as the events tell. */
module Chronicle {
  import opened Wrappers
  import opened Wire
  import opened Reals
  import opened Segments
  import opened Movement
  import opened Arena
  import opened HitGrid
  import opened Rules
  import opened WorldInvariant

  // ----- reading events

  predicate Fells(e: Event, id: nat) {
    e.Death? && e.target == id
  }

  predicate Frags(e: Event, id: nat) {
    e.Death? && e.attacker == id && e.target != id
  }

  predicate Revives(e: Event, id: nat) {
    e.Spawn? && e.target == id
  }

  function DeathsOf(es: seq<Event>, id: nat): nat {
    if es == [] then 0 else DeathsOf(es[..|es| - 1], id) + (if Fells(es[|es| - 1], id) then 1 else 0)
  }

  function KillsOf(es: seq<Event>, id: nat): nat {
    if es == [] then 0 else KillsOf(es[..|es| - 1], id) + (if Frags(es[|es| - 1], id) then 1 else 0)
  }

  /** The position history after the events: a spawn floods it. */
  function HistoryAfter(h: PosHist, es: seq<Event>, id: nat): PosHist {
    if es == [] then h
    else
      var e := es[|es| - 1];
      if Revives(e, id) then Flat(e.x, e.y) else HistoryAfter(h, es[..|es| - 1], id)
  }

  /** Alive, or dead since a tick and with this much health. */
  datatype Fate = Alive | DeadSince(at: int, hp: nat)

  function FateOf(w: State, id: nat): Fate {
    if id in w.players && w.players[id].dead then DeadSince(w.players[id].respawnAt - RESPAWN_DELAY, w.players[id].hp)
    else Alive
  }

  predicate Rewards(e: Event, id: nat) {
    e.Killstreak? && e.target == id
  }

  /** Only the living die, with no health left; the dead return no sooner than the respawn
      delay, and only a milestone heals them before. */
  function Next(f: Fate, e: Event, id: nat, tick: nat): Option<Fate> {
    if Fells(e, id) then (if f.Alive? then Some(DeadSince(tick, 0)) else None)
    else if Revives(e, id) then (if f.DeadSince? && tick < f.at + RESPAWN_DELAY then None else Some(Alive))
    else if Rewards(e, id) && f.DeadSince? then Some(DeadSince(f.at, FULL_HP))
    else Some(f)
  }

  /** The fate after the events of one tick; None if they break the rules. */
  function FateAfter(f: Fate, es: seq<Event>, id: nat, tick: nat): Option<Fate> {
    if es == [] then Some(f)
    else
      var before := FateAfter(f, es[..|es| - 1], id, tick);
      if before.None? then None else Next(before.value, es[|es| - 1], id, tick)
  }

  // ----- the books of one tick

  /** The events since `w0` explain player `id`; with `scored`, its scores too. */
  ghost predicate Entry(w0: State, w: State, id: nat, scored: bool) {
    && FateAfter(FateOf(w0, id), w.events, id, w0.tick) == Some(FateOf(w, id))
    && (id in w0.players && id in w.players ==>
        && w.players[id].posHist == HistoryAfter(w0.players[id].posHist, w.events, id)
        && (scored ==>
            && w.players[id].deaths == w0.players[id].deaths + DeathsOf(w.events, id)
            && w.players[id].kills == w0.players[id].kills + KillsOf(w.events, id)))
  }

  ghost predicate Ledger(w0: State, w: State, scored: bool) {
    WorldOk(w) && SameSeats(w0, w) && forall id: nat :: Entry(w0, w, id, scored)
  }

  /** The fields the books are about. */
  ghost predicate Same(p: Player, p': Player) {
    && p'.deaths == p.deaths && p'.kills == p.kills && p'.dead == p.dead && p'.respawnAt == p.respawnAt
    && p'.posHist == p.posHist && (p.dead ==> p'.hp == p.hp)
  }

  /** A step that no book notices. */
  ghost predicate Still(w: State, w': State) {
    && KeepsOk(w, w') && w'.events == w.events
    && forall id :: id in w.players ==> Same(w.players[id], w'.players[id])
  }

  lemma StillKeeps(w0: State, w: State, w': State, scored: bool)
    requires Ledger(w0, w, scored) && Still(w, w')
    ensures Ledger(w0, w', scored)
  {
    hide WorldOk;
    forall id: nat
      ensures Entry(w0, w', id, scored)
    {
      assert Entry(w0, w, id, scored);
    }
  }

  lemma StillSame(w: State)
    requires WorldOk(w)
    ensures Still(w, w)
  {
  }

  lemma StillChain(a: State, b: State, c: State)
    requires Still(a, b) && Still(b, c)
    ensures Still(a, c)
  {
    hide WorldOk;
  }

  lemma FoldStill<A(!new)>(f: (State, A) -> State, w: State, xs: seq<A>)
    requires WorldOk(w)
    requires forall s, x :: WorldOk(s) && x in xs ==> Still(s, f(s, x))
    ensures Still(w, Fold(f, w, xs))
  {
    StillSame(w);
    hide WorldOk, Same;
    var inv := (s: State) => Still(w, s);
    forall s, x | inv(s) && x in xs
      ensures inv(f(s, x))
    {
      assert Still(s, f(s, x));
      StillChain(w, s, f(s, x));
    }
    FoldInv(f, w, xs, inv);
  }

  /** One player replaced by one that looks the same to the books. */
  lemma PutStill(w: State, p: Player, w': State)
    requires KeepsOk(w, w') && p.id in w.players && Same(w.players[p.id], p)
    requires w'.players == w.players[p.id := p] && w'.events == w.events
    ensures Still(w, w')
  {
    hide WorldOk;
  }

  lemma SamePlayers(w: State, w': State)
    requires KeepsOk(w, w') && w'.players == w.players && w'.events == w.events
    ensures Still(w, w')
  {
    hide WorldOk;
  }

  // ----- movement and firing

  lemma SpawnProjectileStill(env: Env, w: State, id: nat, ang: real, rewind: int)
    requires WorldOk(w) && 0 <= rewind <= MAX_REWIND
    ensures Still(w, SpawnProjectile(env, w, id, ang, rewind))
  {
    SpawnProjectileOk(env, w, id, ang, rewind);
    hide WorldOk, Same;
    SamePlayers(w, SpawnProjectile(env, w, id, ang, rewind));
  }

  lemma {:induction false} SpawnFanStill(env: Env, w: State, id: nat, start: real, step: real, rewind: int, n: nat)
    requires WorldOk(w) && 0 <= rewind <= MAX_REWIND
    ensures Still(w, SpawnFan(env, w, id, start, step, rewind, n))
  {
    hide SpawnProjectile, WorldOk, Mul, Same;
    if n == 0 {
      StillSame(w);
    } else {
      var w1 := SpawnFan(env, w, id, start, step, rewind, n - 1);
      SpawnFanStill(env, w, id, start, step, rewind, n - 1);
      SpawnProjectileStill(env, w1, id, start + Mul(step, (n - 1) as real), rewind);
      StillChain(w, w1, SpawnFan(env, w, id, start, step, rewind, n));
    }
  }

  lemma VolleyStill(env: Env, w: State, id: nat, ang: real, rewind: int, pellets: nat, step: real)
    requires WorldOk(w) && 0 <= rewind <= MAX_REWIND
    ensures Still(w, Volley(env, w, id, ang, rewind, pellets, step))
  {
    hide SpawnProjectile, SpawnFan, WorldOk, Still;
    SpawnProjectileStill(env, w, id, ang, rewind);
    SpawnFanStill(env, w, id, ang - Mul(step, (pellets - 1) as real) / 2.0, step, rewind, pellets);
  }

  lemma TryFireStill(env: Env, w: State, id: nat, inp: Input)
    requires WorldOk(w)
    ensures Still(w, TryFire(env, w, id, inp))
  {
    StillSame(w);
    hide Volley, WorldOk, WeaponSpecOf;
    if CanFire(w, id) {
      TriggeredOk(w, id);
      PlayerIds(w);
      var w1 := w.(players := w.players[id := Triggered(w.players[id], w.tick)]);
      PutStill(w, Triggered(w.players[id], w.tick), w1);
      var spec := WeaponSpecOf(w.players[id].weapon);
      var fan := w.tick < w.players[id].spreadUntil && spec.pellets == 1;
      VolleyStill(env, w1, id, env.radians(inp.aim), RewindOf(w.tick, inp.viewTick),
                  if fan then SPREAD_COUNT else spec.pellets, if fan then SPREAD_STEP else spec.spread);
      hide Still, Triggered;
      StillChain(w, w1, TryFire(env, w, id, inp));
    }
  }

  lemma DrivenStill(env: Env, w: State, id: nat, inp: Input)
    requires EnvOk(env) && WorldOk(w) && id in w.players
    ensures Still(w, Put(w, Driven(env, w.players[id], inp)))
  {
    hide Moved, PlayerOk;
    DrivenOk(env, w.players[id], inp);
    PlayerIds(w);
    PutOk(w, Driven(env, w.players[id], inp), Put(w, Driven(env, w.players[id], inp)));
    hide WorldOk;
    PutStill(w, Driven(env, w.players[id], inp), Put(w, Driven(env, w.players[id], inp)));
  }

  lemma ApplyInputStill(env: Env, w: State, id: nat, inp: Input)
    requires EnvOk(env) && WorldOk(w)
    ensures Still(w, ApplyInput(env, w, id, inp))
  {
    StillSame(w);
    hide WorldOk, EnvOk, Driven, TryFire, Same;
    if id in w.players {
      DrivenStill(env, w, id, inp);
      var w1 := Put(w, Driven(env, w.players[id], inp));
      TryFireStill(env, w1, id, inp);
      hide Still;
      if Has(inp.buttons, BTN_FIRE) {
        StillChain(w, w1, TryFire(env, w1, id, inp));
      }
    }
  }

  lemma DrainedStill(w: State, id: nat)
    requires WorldOk(w)
    ensures Still(w, Drained(w, id))
  {
    StillSame(w);
    DrainedOk(w, id);
    if id in w.players {
      PlayerIds(w);
      hide WorldOk;
      PutStill(w, w.players[id].(inputs := []), Drained(w, id));
    }
  }

  lemma PlayerTurnStill(env: Env, w: State, id: nat)
    requires EnvOk(env) && WorldOk(w)
    ensures Still(w, PlayerTurn(env, w, id))
  {
    StillSame(w);
    DrainedStill(w, id);
    hide WorldOk, EnvOk, ApplyInput, Drained, Same;
    if id in w.players && !w.players[id].dead {
      forall s, inp | WorldOk(s) && inp in w.players[id].inputs
        ensures Still(s, InputOf(env, id)(s, inp))
      {
        ApplyInputStill(env, s, id, inp);
      }
      FoldStill(InputOf(env, id), w, w.players[id].inputs);
      var w1 := ApplyInputs(env, w, id, w.players[id].inputs);
      DrainedStill(w1, id);
      StillChain(w, w1, Drained(w1, id));
    }
  }

  lemma PlayerTurnsStill(env: Env, w: State)
    requires EnvOk(env) && WorldOk(w)
    ensures Still(w, PlayerTurns(env, w))
  {
    hide WorldOk, EnvOk, PlayerTurn, Still;
    forall s, id | WorldOk(s) && id in w.order
      ensures Still(s, TurnOf(env)(s, id))
    {
      PlayerTurnStill(env, s, id);
    }
    FoldStill(TurnOf(env), w, w.order);
  }

  // ----- events

  /** One event appended, and every player as that event demands. */
  ghost predicate Noted(w: State, e: Event, w': State, tick: nat, scored: bool) {
    && w'.events == w.events + [e] && w'.players.Keys == w.players.Keys
    && (forall id: nat :: Next(FateOf(w, id), e, id, tick) == Some(FateOf(w', id)))
    && forall id :: id in w.players ==>
      var (p, p') := (w.players[id], w'.players[id]);
      && p'.posHist == (if Revives(e, id) then Flat(e.x, e.y) else p.posHist)
      && (scored ==>
          && p'.deaths == p.deaths + (if Fells(e, id) then 1 else 0)
          && p'.kills == p.kills + (if Frags(e, id) then 1 else 0))
  }

  lemma NotedKeeps(w0: State, w: State, e: Event, w': State, scored: bool)
    requires forall id: nat :: Entry(w0, w, id, scored)
    requires Noted(w, e, w', w0.tick, scored) && w.players.Keys == w0.players.Keys
    ensures forall id: nat :: Entry(w0, w', id, scored)
  {
    hide Next, FateOf, Fells, Frags, Revives;
    assert (w.events + [e])[..|w.events|] == w.events;
    forall id: nat
      ensures Entry(w0, w', id, scored)
    {
      assert Entry(w0, w, id, scored);
    }
  }

  /** Nothing happened that the books know of; without `scored`, scores may change. */
  ghost predicate Blank(w: State, w': State, scored: bool) {
    && w'.events == w.events && w'.players.Keys == w.players.Keys
    && forall id :: id in w.players ==>
      var (p, p') := (w.players[id], w'.players[id]);
      && p'.dead == p.dead && p'.respawnAt == p.respawnAt && p'.posHist == p.posHist && (p.dead ==> p'.hp == p.hp)
      && (scored ==> p'.deaths == p.deaths && p'.kills == p.kills)
  }

  lemma BlankKeeps(w0: State, w: State, w': State, scored: bool)
    requires forall id: nat :: Entry(w0, w, id, scored)
    requires Blank(w, w', scored)
    ensures forall id: nat :: Entry(w0, w', id, scored)
  {
    forall id: nat
      ensures Entry(w0, w', id, scored)
    {
      assert Entry(w0, w, id, scored);
    }
  }

  lemma RecordKillNoted(w: State, id: nat, tick: nat, scored: bool)
    requires id in w.players && w.players[id].id == id
    ensures var streak := w.players[id].streak + 1;
      if streak % KILLSTREAK_STEP != 0 then Blank(w, RecordKill(w, id), scored)
      else Noted(w, Killstreak(id, streak), RecordKill(w, id), tick, scored)
  {
  }

  lemma RecordKillKeeps(w0: State, w: State, id: nat, scored: bool)
    requires forall k: nat :: Entry(w0, w, k, scored)
    requires w.players.Keys == w0.players.Keys && (id in w.players ==> w.players[id].id == id)
    ensures forall k: nat :: Entry(w0, RecordKill(w, id), k, scored)
  {
    hide Entry, Noted, Blank;
    if id in w.players {
      var p := w.players[id].(streak := w.players[id].streak + 1);
      RecordKillNoted(w, id, w0.tick, scored);
      if p.streak % KILLSTREAK_STEP != 0 {
        BlankKeeps(w0, w, RecordKill(w, id), scored);
      } else {
        NotedKeeps(w0, w, Killstreak(id, p.streak), RecordKill(w, id), scored);
      }
    }
  }

  lemma HurtKeeps(w0: State, w: State, victim: nat, e: Event, dmg: nat, w1: State, scored: bool)
    requires forall k: nat :: Entry(w0, w, k, scored)
    requires w.players.Keys == w0.players.Keys && Living(w, victim) && e.Hit?
    requires w1 == w.(players := w.players[victim := Wounded(w.players[victim], dmg)], events := w.events + [e])
    ensures forall k: nat :: Entry(w0, w1, k, scored)
  {
    hide Entry;
    NotedKeeps(w0, w, e, w1, scored);
  }

  /** The dead, and the frag if there is one to credit. */
  function Fallen(w: State, p: Player, attacker: nat): State {
    var w1 := w.(players := w.players[p.id := Killed(p, w.tick)], events := w.events + [Death(attacker, p.id)]);
    if attacker != p.id && attacker in w1.players then
      w1.(players := w1.players[attacker := w1.players[attacker].(kills := w1.players[attacker].kills + 1)])
    else w1
  }

  lemma FallenFates(w: State, p: Player, attacker: nat)
    requires p.id in w.players && w.players[p.id] == p && !p.dead && p.hp == 0
    ensures forall id: nat ::
      Next(FateOf(w, id), Death(attacker, p.id), id, w.tick) == Some(FateOf(Fallen(w, p, attacker), id))
  {
  }

  lemma FallenNoted(w: State, p: Player, attacker: nat, scored: bool)
    requires p.id in w.players && w.players[p.id] == p && !p.dead && p.hp == 0
    ensures Noted(w, Death(attacker, p.id), Fallen(w, p, attacker), w.tick, scored)
  {
    FallenFates(w, p, attacker);
    hide Next, FateOf;
  }

  lemma FallenKeeps(w0: State, w: State, p: Player, attacker: nat, scored: bool)
    requires forall k: nat :: Entry(w0, w, k, scored)
    requires w.players.Keys == w0.players.Keys && w.tick == w0.tick
    requires p.id in w.players && w.players[p.id] == p && !p.dead && p.hp == 0
    ensures forall k: nat :: Entry(w0, Fallen(w, p, attacker), k, scored)
  {
    FallenNoted(w, p, attacker, scored);
    hide Entry, Noted, Fallen;
    NotedKeeps(w0, w, Death(attacker, p.id), Fallen(w, p, attacker), scored);
  }

  lemma DieIsFallen(w: State, p: Player, attacker: nat)
    requires p.id in w.players && forall id :: id in w.players ==> w.players[id].id == id
    ensures var f := Fallen(w, p, attacker);
      && Die(w, p, attacker) == (if attacker != p.id && attacker in w.players then RecordKill(f, attacker) else f)
      && f.players.Keys == w.players.Keys && forall id :: id in f.players ==> f.players[id].id == id
  {
    hide RecordKill;
  }

  lemma DieKeeps(w0: State, w: State, p: Player, attacker: nat, scored: bool)
    requires forall k: nat :: Entry(w0, w, k, scored)
    requires w.players.Keys == w0.players.Keys && w.tick == w0.tick
    requires forall id :: id in w.players ==> w.players[id].id == id
    requires p.id in w.players && w.players[p.id] == p && !p.dead && p.hp == 0
    ensures forall k: nat :: Entry(w0, Die(w, p, attacker), k, scored)
  {
    DieIsFallen(w, p, attacker);
    hide Entry, RecordKill, Die, Fallen;
    FallenKeeps(w0, w, p, attacker, scored);
    if attacker != p.id && attacker in w.players {
      RecordKillKeeps(w0, Fallen(w, p, attacker), attacker, scored);
    }
  }

  lemma WoundedLives(p: Player, dmg: nat)
    ensures Wounded(p, dmg).id == p.id && Wounded(p, dmg).dead == p.dead
  {
  }

  lemma ApplyDamageEntries(w0: State, w: State, victim: nat, attacker: nat, dmg: nat, scored: bool)
    requires forall k: nat :: Entry(w0, w, k, scored)
    requires w.players.Keys == w0.players.Keys && w.tick == w0.tick
    requires forall id :: id in w.players ==> w.players[id].id == id
    requires Living(w, victim)
    ensures forall k: nat :: Entry(w0, ApplyDamage(w, victim, attacker, dmg), k, scored)
  {
    WoundedLives(w.players[victim], dmg);
    hide Entry, Die, Wounded;
    if w.players[victim].hp != 0 {
      var p := Wounded(w.players[victim], dmg);
      var w1 := w.(players := w.players[victim := p], events := w.events + [Hit(attacker, victim, dmg, p.hp)]);
      HurtKeeps(w0, w, victim, Hit(attacker, victim, dmg, p.hp), dmg, w1, scored);
      if p.hp == 0 {
        DieKeeps(w0, w1, p, attacker, scored);
      }
    }
  }

  lemma ApplyDamageKeeps(w0: State, w: State, victim: nat, attacker: nat, dmg: nat, scored: bool)
    requires Ledger(w0, w, scored) && w.tick == w0.tick && Living(w, victim)
    ensures Ledger(w0, ApplyDamage(w, victim, attacker, dmg), scored)
  {
    ApplyDamageOk(w, victim, attacker, dmg);
    PlayerIds(w);
    hide Entry, WorldOk, ApplyDamage;
    ApplyDamageEntries(w0, w, victim, attacker, dmg, scored);
  }

  // ----- shots

  /** The books are right and the tick has not moved. */
  ghost predicate Fair(w0: State, w: State) {
    Ledger(w0, w, true) && w.tick == w0.tick
  }

  lemma ApplyDamageFair(w0: State, w: State, victim: nat, attacker: nat, dmg: nat)
    requires Fair(w0, w) && Living(w, victim)
    ensures Fair(w0, ApplyDamage(w, victim, attacker, dmg))
  {
    ApplyDamageKeeps(w0, w, victim, attacker, dmg, true);
    ApplyDamageOk(w, victim, attacker, dmg);
    hide Entry, WorldOk, ApplyDamage;
  }

  lemma SplashFair(env: Env, w0: State, w: State, pr: Projectile, ix: real, iy: real, id: nat)
    requires Fair(w0, w)
    ensures Fair(w0, Splash(env, w, pr, ix, iy, id))
  {
    hide Fair, ApplyDamage, SplashDamage, Sq, TargetPos, WeaponSpecOf;
    if Eligible(w, pr, id) {
      ApplyDamageFair(w0, w, id, pr.owner, SplashDamage(env, WeaponSpecOf(pr.weapon),
        var t := TargetPos(w.players[id], w.tick, pr.rewind); Sq(t.x - ix) + Sq(t.y - iy)));
    }
  }

  lemma DetonateFair(
    env: Env, w0: State, w: State, pr: Projectile, victim: Option<nat>, wallHit: bool, ex: real, ey: real)
    requires Fair(w0, w) && (victim.Some? ==> Living(w, victim.value))
    ensures Fair(w0, Detonate(env, w, pr, victim, wallHit, ex, ey))
  {
    hide Fair, ApplyDamage, Splash, WeaponSpecOf, Living;
    if victim.Some? {
      ApplyDamageFair(w0, w, victim.value, pr.owner, WeaponSpecOf(pr.weapon).damage);
    }
    var inv := (s: State) => Fair(w0, s);
    forall s, id | inv(s) && id in w.order
      ensures inv(SplashOf(env, pr, ex, ey)(s, id))
    {
      SplashFair(env, w0, s, pr, ex, ey, id);
    }
    FoldInv(SplashOf(env, pr, ex, ey), w, w.order, inv);
  }

  lemma {:induction false} VictimLives(w: State, pr: Projectile, ex: real, ey: real, ids: seq<nat>)
    ensures var v := LinearHit(w, pr, ex, ey, ids); v.Some? ==> Living(w, v.value)
  {
    hide SegmentCircleHit, TargetPos;
    if ids != [] {
      VictimLives(w, pr, ex, ey, ids[1..]);
    }
  }

  lemma FlyFair(env: Env, w0: State, f: Flight, pr: Projectile, dt: real)
    requires Fair(w0, f.w)
    ensures Fair(w0, Fly(env, f, pr, dt).w)
  {
    hide Fair, LinearHit, WallOf, PathEnd, Detonate, OutOfBounds, Mul, Living;
    var (nx, ny) := (pr.x + Mul(pr.vx, dt), pr.y + Mul(pr.vy, dt));
    var wall := WallOf(pr, nx, ny);
    var (ex, ey) := PathEnd(pr, nx, ny, wall);
    VictimLives(f.w, pr, ex, ey, f.w.order);
    DetonateFair(env, w0, f.w, pr, LinearHit(f.w, pr, ex, ey, f.w.order), wall.Some?, ex, ey);
  }

  lemma FlyAllFair(env: Env, w0: State, w: State, prs: seq<Projectile>, dt: real)
    requires Fair(w0, w)
    ensures Fair(w0, FlyAll(env, w, prs, dt).w)
  {
    hide Fair, Fly;
    var inv := (f: Flight) => Fair(w0, f.w);
    forall f, pr | inv(f) && pr in prs
      ensures inv(FlyOf(env, dt)(f, pr))
    {
      FlyFair(env, w0, f, pr, dt);
    }
    FoldInv(FlyOf(env, dt), Flight(w, []), prs, inv);
  }

  lemma StepProjectilesFair(env: Env, w0: State, w: State, dt: real)
    requires Fair(w0, w)
    ensures Fair(w0, StepProjectiles(env, w, dt))
  {
    FlyAllFair(env, w0, w, w.projectiles, dt);
    StepProjectilesOk(env, w, dt);
    hide WorldOk, FlyAll;
    BlankKeeps(w0, FlyAll(env, w, w.projectiles, dt).w, StepProjectiles(env, w, dt), true);
  }

  // ----- respawns and the rest

  /** A new life, noted: in time for the dead, and at any time for the living. */
  lemma ReviveNoted(w: State, p: Player, m: MoveState, w': State, tick: nat, scored: bool)
    requires p.id in w.players && w.players[p.id] == p && (p.dead ==> tick >= p.respawnAt)
    requires w'.players == w.players[p.id := Respawned(p, m, w.tick)] && w'.events == w.events + [Spawn(p.id, m.x, m.y)]
    ensures Noted(w, Spawn(p.id, m.x, m.y), w', tick, scored)
  {
  }

  lemma RespawnKeeps(env: Env, w0: State, w: State, id: nat, scored: bool)
    requires EnvOk(env) && Ledger(w0, w, scored)
    requires id in w.players && (w.players[id].dead ==> w0.tick >= w.players[id].respawnAt)
    ensures Ledger(w0, Respawn(env, w, id), scored) && SameRoster(w, Respawn(env, w, id))
  {
    RespawnOk(env, w, id);
    PlayerIds(w);
    var (m, rng) := SpawnPoint(env, w.rng);
    RespawnedId(w.players[id], m, w.tick);
    hide WorldOk, SpawnPoint, Entry, Noted, Respawned;
    ReviveNoted(w, w.players[id], m, Respawn(env, w, id), w0.tick, scored);
    NotedKeeps(w0, w, Spawn(id, m.x, m.y), Respawn(env, w, id), scored);
  }

  lemma RespawnedId(p: Player, m: MoveState, tick: nat)
    ensures Respawned(p, m, tick).id == p.id
  {
  }

  lemma RespawnsFair(env: Env, w0: State, w: State)
    requires EnvOk(env) && Fair(w0, w)
    ensures Fair(w0, Respawns(env, w))
  {
    hide WorldOk, Entry, Respawn, EnvOk;
    var inv := (s: State) => Fair(w0, s);
    forall s, id | inv(s) && id in w.order
      ensures inv(RespawnOf(env)(s, id))
    {
      if id in s.players && s.players[id].dead && s.tick >= s.players[id].respawnAt {
        RespawnKeeps(env, w0, s, id, true);
      }
    }
    FoldInv(RespawnOf(env), w, w.order, inv);
  }

  lemma {:induction false} TakerLives(w: State, spot: Pos, ids: seq<nat>)
    ensures var t := Taker(w, spot, ids); t.Some? ==> t.value in w.players && !w.players[t.value].dead
  {
    hide Reaches;
    if ids != [] {
      TakerLives(w, spot, ids[1..]);
    }
  }

  lemma BlessedSame(p: Player, kind: nat, tick: nat)
    requires !p.dead
    ensures Same(p, Blessed(p, kind, tick)) && Blessed(p, kind, tick).id == p.id
  {
  }

  lemma StepPickupStill(env: Env, w: State, i: nat)
    requires WorldOk(w)
    ensures Still(w, StepPickup(env, w, i))
  {
    StepPickupOk(env, w, i);
    PlayerIds(w);
    StillSame(w);
    hide WorldOk, Taker, Same, Blessed;
    if i < |w.pickups| && i < |PICKUP_SPOTS| && w.pickups[i].active {
      var t := Taker(w, PICKUP_SPOTS[i], w.order);
      TakerLives(w, PICKUP_SPOTS[i], w.order);
      if t.Some? {
        BlessedSame(w.players[t.value], w.pickups[i].kind, w.tick);
        PutStill(w, Blessed(w.players[t.value], w.pickups[i].kind, w.tick), StepPickup(env, w, i));
      }
    } else {
      SamePlayers(w, StepPickup(env, w, i));
    }
  }

  lemma StepPickupsStill(env: Env, w: State)
    requires WorldOk(w)
    ensures Still(w, StepPickups(env, w))
  {
    hide WorldOk, StepPickup, Still;
    var spots: seq<nat> := [0, 1, 2, 3, 4];
    forall s, i | WorldOk(s) && i in spots
      ensures Still(s, PickupOf(env)(s, i))
    {
      StepPickupStill(env, s, i);
    }
    FoldStill(PickupOf(env), w, spots);
  }

  lemma ScoreZoneStill(w: State, z: Zone)
    requires WorldOk(w)
    ensures Still(w, ScoreZone(w, z))
  {
    ScoreZoneOk(w, z);
    hide WorldOk, Holds;
  }

  lemma ObjectivesStill(env: Env, w: State)
    requires WorldOk(w)
    ensures Still(w, Objectives(env, w))
  {
    StepPickupsStill(env, w);
    var w1 := StepPickups(env, w);
    StillSame(w1);
    ObjectivesOk(env, w);
    hide WorldOk, StepPickups, ScoreZone, Same;
    ScoreZoneStill(w1, HILL);
    var w2 := StepHill(w1);
    StillChain(w, w1, w2);
    var (a, b, c) := (DOM_POINTS[0], DOM_POINTS[1], DOM_POINTS[2]);
    ScoreZoneStill(w2, a);
    ScoreZoneStill(ScoreZone(w2, a), b);
    ScoreZoneStill(ScoreZone(ScoreZone(w2, a), b), c);
    StillChain(w2, ScoreZone(w2, a), ScoreZone(ScoreZone(w2, a), b));
    StillChain(w2, ScoreZone(ScoreZone(w2, a), b), ScoreZone(ScoreZone(ScoreZone(w2, a), b), c));
    if w2.modes.dom && w2.phase.Active? {
      StillChain(w, w2, StepDomination(w2));
    }
  }

  lemma TendFlagStill(w: State, i: nat)
    requires WorldOk(w)
    ensures Still(w, TendFlag(w, i))
  {
    TendFlagOk(w, i);
    hide WorldOk;
    SamePlayers(w, TendFlag(w, i));
  }

  lemma TouchFlagsStill(w: State, id: nat)
    requires WorldOk(w)
    ensures Still(w, TouchFlags(w, id))
  {
    TouchFlagOk(w, id, 0);
    TouchFlagOk(TouchFlag(w, id, 0), id, 1);
    TouchesFlagsOnly(w, id, 0);
    TouchesFlagsOnly(TouchFlag(w, id, 0), id, 1);
    hide WorldOk, TouchFlag;
    SamePlayers(w, TouchFlags(w, id));
  }

  lemma TouchesFlagsOnly(w: State, id: nat, i: nat)
    ensures TouchFlag(w, id, i).players == w.players && TouchFlag(w, id, i).events == w.events
  {
    hide Reaches;
  }

  lemma CaptureNoted(w: State, id: nat, tick: nat)
    requires CanCapture(w, id) && w.players[id].id == id
    ensures Noted(w, Capture(id), CaptureFlag(w, id), tick, true)
  {
    hide Reaches;
  }

  lemma CaptureFlagFair(w0: State, w: State, id: nat)
    requires Fair(w0, w)
    ensures Fair(w0, CaptureFlag(w, id))
  {
    CaptureFlagOk(w, id);
    PlayerIds(w);
    hide WorldOk, Entry, CanCapture, Noted;
    if CanCapture(w, id) {
      CaptureNoted(w, id, w0.tick);
      NotedKeeps(w0, w, Capture(id), CaptureFlag(w, id), true);
    }
  }

  lemma StepCTFFair(w0: State, w: State)
    requires Fair(w0, w)
    ensures Fair(w0, StepCTF(w))
  {
    var (w1, w2) := (TendFlag(w, 0), TendFlag(TendFlag(w, 0), 1));
    TendFlagStill(w, 0);
    TendFlagStill(w1, 1);
    hide WorldOk, Entry, TendFlag, TouchFlag, CaptureFlag, Same;
    StillChain(w, w1, w2);
    forall s, id | WorldOk(s) && id in w2.order
      ensures Still(s, TouchOf()(s, id))
    {
      TouchFlagsStill(s, id);
    }
    FoldStill(TouchOf(), w2, w2.order);
    var w3 := Touches(w2);
    StillChain(w, w2, w3);
    StillKeeps(w0, w, w3, true);
    var inv := (s: State) => Fair(w0, s);
    forall s, id | inv(s) && id in w3.order
      ensures inv(CaptureOf()(s, id))
    {
      CaptureFlagFair(w0, s, id);
    }
    FoldInv(CaptureOf(), w3, w3.order, inv);
  }

  /** The tick up to the match clock. */
  ghost function Played(env: Env, w: State, dt: real): State {
    StepCTF(Objectives(env, Combat(env, w, dt)))
  }

  lemma BooksOpen(w: State)
    requires WorldOk(w)
    ensures Fair(w, w.(events := []))
  {
    OtherFieldsOk(w, w.(events := []));
    hide WorldOk;
  }

  lemma StillFair(w0: State, w: State, w': State)
    requires Fair(w0, w) && Still(w, w')
    ensures Fair(w0, w')
  {
    hide WorldOk;
    StillKeeps(w0, w, w', true);
  }

  lemma PlayedFair(env: Env, w: State, dt: real)
    requires EnvOk(env) && WorldOk(w)
    ensures Fair(w, Played(env, w, dt))
  {
    var w0 := w.(events := []);
    BooksOpen(w);
    FairIsOk(w, w0);
    PlayerTurnsStill(env, w0);
    var w1 := PlayerTurns(env, w0);
    hide Fair, Still, EnvOk, PlayerTurns, StepProjectiles, Respawns, Objectives, StepCTF;
    StillFair(w, w0, w1);
    StepProjectilesFair(env, w, w1, dt);
    RespawnsFair(env, w, StepProjectiles(env, w1, dt));
    var w3 := Combat(env, w, dt);
    FairIsOk(w, w3);
    ObjectivesStill(env, w3);
    StillFair(w, w3, Objectives(env, w3));
    StepCTFFair(w, Objectives(env, w3));
  }

  lemma FairIsOk(w0: State, w: State)
    requires Fair(w0, w)
    ensures WorldOk(w)
  {
  }

  lemma PlayedOk(env: Env, w: State, dt: real)
    requires EnvOk(env) && WorldOk(w)
    ensures KeepsOk(w, Played(env, w, dt))
  {
    hide WorldOk, Combat, Objectives, StepCTF, EnvOk;
    CombatOk(env, w, dt);
    ObjectivesOk(env, Combat(env, w, dt));
    StepCTFOk(Objectives(env, Combat(env, w, dt)));
  }

  // ----- the match clock

  lemma RestartKeeps(env: Env, w0: State, w: State, id: nat)
    requires EnvOk(env) && Ledger(w0, w, false) && id in w.players
    ensures Ledger(w0, Restart(env, w, id), false)
  {
    RestartOk(env, w, id);
    ScoresCleared(w, id);
    PlayerIds(w);
    var p := Cleared(w.players[id]);
    BlankPut(w, p);
    hide WorldOk, Entry, Respawn, Blank;
    BlankLedger(w0, w, Put(w, p), false);
    if !p.dead {
      RespawnKeeps(env, w0, Put(w, p), id, false);
    }
  }

  lemma BlankPut(w: State, p: Player)
    requires p.id in w.players && p.dead == w.players[p.id].dead && p.respawnAt == w.players[p.id].respawnAt
    requires p.posHist == w.players[p.id].posHist && p.hp == w.players[p.id].hp
    ensures Blank(w, Put(w, p), false)
  {
  }

  lemma RestartsKeep(env: Env, w0: State, w: State)
    requires EnvOk(env) && Ledger(w0, w, false)
    ensures Ledger(w0, Fold(RestartOf(env), w, w.order), false)
  {
    hide WorldOk, Entry, Restart, EnvOk;
    var inv := (s: State) => Ledger(w0, s, false);
    forall s, id | inv(s) && id in w.order
      ensures inv(RestartOf(env)(s, id))
    {
      if id in s.players {
        RestartKeeps(env, w0, s, id);
      } else {
        NobodyRestarts(env, s, id);
      }
    }
    FoldInv(RestartOf(env), w, w.order, inv);
  }

  lemma NobodyRestarts(env: Env, w: State, id: nat)
    requires id !in w.players
    ensures Restart(env, w, id) == w
  {
  }

  lemma BlankLedger(w0: State, w: State, w': State, scored: bool)
    requires Ledger(w0, w, scored) && WorldOk(w') && SameSeats(w, w') && Blank(w, w', scored)
    ensures Ledger(w0, w', scored)
  {
    hide WorldOk, Entry;
    BlankKeeps(w0, w, w', scored);
  }

  lemma StartMatchKeeps(env: Env, w0: State, w: State)
    requires EnvOk(env) && Ledger(w0, w, false)
    ensures Ledger(w0, StartMatch(env, w), false)
  {
    ReopenedOk(w);
    hide WorldOk, Entry, Fold, EnvOk;
    BlankLedger(w0, w, Reopened(w), false);
    RestartsKeep(env, w0, Reopened(w));
    var w2 := Fold(RestartOf(env), Reopened(w), w.order);
    ResetFlagsOk(w2);
    BlankLedger(w0, w2, ResetFlags(w2), false);
  }

  lemma Unscored(w0: State, w: State)
    requires Ledger(w0, w, true)
    ensures Ledger(w0, w, false)
  {
    hide WorldOk;
    forall id: nat
      ensures Entry(w0, w, id, false)
    {
      assert Entry(w0, w, id, true);
    }
  }

  /** Does the tick that starts at `w` start a new match? */
  predicate NewMatch(w: State) {
    w.phase.Intermission? && w.tick + 1 >= w.matchAt
  }

  /** The tick before positions are recorded. */
  ghost function Clocked(env: Env, w: State, dt: real): State {
    var w1 := Played(env, w, dt);
    StepMatch(env, w1.(tick := w1.tick + 1))
  }

  lemma ClockedKeeps(env: Env, w: State, dt: real)
    requires EnvOk(env) && WorldOk(w)
    ensures Ledger(w, Clocked(env, w, dt), !NewMatch(w)) && Clocked(env, w, dt).tick == w.tick + 1
  {
    PlayedFair(env, w, dt);
    PlayedOk(env, w, dt);
    var w1 := Played(env, w, dt);
    TickOk(w1);
    var w2 := w1.(tick := w1.tick + 1);
    hide WorldOk, Entry, Played, EnvOk, StartMatch, EndMatch;
    BlankLedger(w, w1, w2, true);
    if w2.tick >= w2.matchAt {
      if w2.phase.Active? {
        EndMatchOk(w2);
        EndMatchBlank(w2);
        BlankLedger(w, w2, EndMatch(w2), true);
      } else {
        Unscored(w, w2);
        StartMatchKeeps(env, w, w2);
        StartMatchOk(env, w2);
      }
    }
  }

  lemma EndMatchBlank(w: State)
    ensures Blank(w, EndMatch(w), true)
  {
  }

  // ----- recording positions

  lemma {:induction false} RecordedPrefix(w: State, ids: seq<nat>)
    requires forall id :: id in w.players ==> w.players[id].id == id
    ensures var w' := Fold(RecordOf(), w, ids);
      && w'.players.Keys == w.players.Keys && w'.events == w.events && w'.tick == w.tick
      && forall id :: id in w.players ==>
        w'.players[id] == if id in ids then
          var p := w.players[id];
          p.(posHist := p.posHist[HistSlot(w.tick) := Pos(p.move.x, p.move.y)])
        else w.players[id]
  {
    if ids != [] {
      var n := |ids| - 1;
      RecordedPrefix(w, ids[..n]);
      assert ids == ids[..n] + [ids[n]];
    }
  }

  /** After any tick the events account for every life, every history and, unless a match
      started, every score: exactly one death per death event, and exactly one kill for an
      attacker that is present and not the victim. */
  lemma StepBooks(env: Env, w: State, dt: real)
    requires EnvOk(env) && WorldOk(w)
    ensures var w' := Step(env, w, dt);
      && w'.players.Keys == w.players.Keys && w'.tick == w.tick + 1
      && (forall id: nat :: FateAfter(FateOf(w, id), w'.events, id, w.tick) == Some(FateOf(w', id)))
      && (forall id :: id in w.players ==>
          var (p, p') := (w.players[id], w'.players[id]);
          && p'.posHist == HistoryAfter(p.posHist, w'.events, id)[HistSlot(w'.tick) := Pos(p'.move.x, p'.move.y)]
          && (!NewMatch(w) ==>
              && p'.deaths == p.deaths + DeathsOf(w'.events, id)
              && p'.kills == p.kills + KillsOf(w'.events, id)))
  {
    ClockedKeeps(env, w, dt);
    var s := Clocked(env, w, dt);
    hide Clocked, Fold, Entry, FateAfter, HistoryAfter, DeathsOf, KillsOf, PlayersOk, ShotsOk, EnvOk, NewMatch;
    LedgerIds(w, s, !NewMatch(w));
    RecordedPrefix(s, s.order);
    StepIsClocked(env, w, dt);
    var w' := Step(env, w, dt);
    forall id: nat
      ensures FateAfter(FateOf(w, id), w'.events, id, w.tick) == Some(FateOf(w', id))
    {
      FateBook(w, s, w', id, !NewMatch(w));
    }
    forall id | id in w.players
      ensures var (p, p') := (w.players[id], w'.players[id]);
        p'.posHist == HistoryAfter(p.posHist, w'.events, id)[HistSlot(w'.tick) := Pos(p'.move.x, p'.move.y)]
      ensures !NewMatch(w) ==>
        && w'.players[id].deaths == w.players[id].deaths + DeathsOf(w'.events, id)
        && w'.players[id].kills == w.players[id].kills + KillsOf(w'.events, id)
    {
      PlayerBook(w, s, id, !NewMatch(w));
    }
  }

  lemma FateBook(w0: State, s: State, w: State, id: nat, scored: bool)
    requires Ledger(w0, s, scored) && w.events == s.events && w.players.Keys == s.players.Keys
    requires id in s.players ==>
      && w.players[id].dead == s.players[id].dead && w.players[id].respawnAt == s.players[id].respawnAt
      && w.players[id].hp == s.players[id].hp
    ensures FateAfter(FateOf(w0, id), w.events, id, w0.tick) == Some(FateOf(w, id))
  {
    hide WorldOk, FateAfter;
    assert Entry(w0, s, id, scored);
  }

  lemma PlayerBook(w0: State, s: State, id: nat, scored: bool)
    requires Ledger(w0, s, scored) && id in s.players
    ensures id in w0.players && s.players[id].posHist == HistoryAfter(w0.players[id].posHist, s.events, id)
    ensures scored ==>
      && s.players[id].deaths == w0.players[id].deaths + DeathsOf(s.events, id)
      && s.players[id].kills == w0.players[id].kills + KillsOf(s.events, id)
  {
    hide WorldOk, FateAfter;
    assert Entry(w0, s, id, scored);
  }

  lemma StepIsClocked(env: Env, w: State, dt: real)
    ensures Step(env, w, dt) == Fold(RecordOf(), Clocked(env, w, dt), Clocked(env, w, dt).order)
  {
  }

  lemma LedgerIds(w0: State, w: State, scored: bool)
    requires Ledger(w0, w, scored)
    ensures forall id :: id in w.players ==> w.players[id].id == id
    ensures w.players.Keys == w0.players.Keys && forall id :: id in w.players ==> id in w.order
  {
    hide Entry;
  }
}
