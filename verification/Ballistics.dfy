/** What shots do to the players, internal/game/combat.go: how a volley leaves, whom a
    projectile hurts and by how much, and where it is a tick later. */
module Ballistics {
  import opened Wrappers
  import opened Wire
  import opened Reals
  import opened Walls
  import opened Segments
  import opened Movement
  import opened Arena
  import opened Ids
  import HitGrid
  import opened Rules
  import opened WorldInvariant
  import opened FairPlay
  import S = Sessions
  import J = Journey

  // ----- whom a projectile can hurt

  /** Alive, not under protection, neither the shooter nor a team-mate of it. */
  predicate Exposed(w: State, pr: Projectile, id: nat) {
    && id in w.players && id != pr.owner
    && var p := w.players[id];
    !p.dead && w.tick >= p.invulnUntil && (w.modes.team ==> p.team != pr.team)
  }

  /** Where the shooter saw the player: now, or in the ring of the past. */
  function SeenAt(p: Player, tick: nat, rewind: nat): Pos {
    if rewind == 0 then Pos(p.move.x, p.move.y) else p.posHist[(tick - rewind) % 32]
  }

  /** Does the path from the projectile to (ex, ey) come within 20 of an exposed player? */
  ghost predicate Crosses(w: State, pr: Projectile, ex: real, ey: real, id: nat)
    requires pr.rewind >= 0
  {
    && Exposed(w, pr, id)
    && var t := SeenAt(w.players[id], w.tick, pr.rewind);
    exists u :: WithinAt(pr.x, pr.y, ex, ey, t.x, t.y, 20.0, u)
  }

  lemma CrossesIsStruck(w: State, pr: Projectile, ex: real, ey: real, id: nat)
    requires pr.rewind >= 0
    ensures Crosses(w, pr, ex, ey, id) <==> HitGrid.Struck(w, pr, ex, ey, id)
  {
    hide SegmentCircleHit, WithinAt;
    if Exposed(w, pr, id) {
      var t := SeenAt(w.players[id], w.tick, pr.rewind);
      assert t == TargetPos(w.players[id], w.tick, pr.rewind);
      HitIffWithin(pr.x, pr.y, ex, ey, t.x, t.y, 20.0);
    }
  }

  /** The player a bullet stops at: the least id it crosses. */
  ghost predicate Stopped(w: State, pr: Projectile, ex: real, ey: real, v: nat)
    requires pr.rewind >= 0
  {
    Crosses(w, pr, ex, ey, v) && forall id :: Crosses(w, pr, ex, ey, id) ==> v <= id
  }

  ghost predicate Untouched(w: State, pr: Projectile, ex: real, ey: real)
    requires pr.rewind >= 0
  {
    forall id :: !Crosses(w, pr, ex, ey, id)
  }

  lemma LinearHitMeans(w: State, pr: Projectile, ex: real, ey: real)
    requires OrderOk(w) && pr.rewind >= 0
    ensures match HitGrid.LinearHit(w, pr, ex, ey, w.order)
      case Some(v) => Stopped(w, pr, ex, ey, v)
      case None => Untouched(w, pr, ex, ey)
  {
    hide Crosses, HitGrid.Struck;
    FirstIsLeast(w, pr, ex, ey, w.order);
    forall id
      ensures Crosses(w, pr, ex, ey, id) ==> id in w.order && HitGrid.Struck(w, pr, ex, ey, id)
      ensures HitGrid.Struck(w, pr, ex, ey, id) ==> Crosses(w, pr, ex, ey, id)
    {
      CrossesIsStruck(w, pr, ex, ey, id);
      CrossedIsPlayer(w, pr, ex, ey, id);
    }
  }

  lemma CrossedIsPlayer(w: State, pr: Projectile, ex: real, ey: real, id: nat)
    requires pr.rewind >= 0
    ensures Crosses(w, pr, ex, ey, id) ==> id in w.players
  {
  }

  lemma {:induction false} FirstIsLeast(w: State, pr: Projectile, ex: real, ey: real, ids: seq<nat>)
    requires HitGrid.AscendingIds(ids)
    ensures match HitGrid.LinearHit(w, pr, ex, ey, ids)
      case Some(v) => HitGrid.Struck(w, pr, ex, ey, v) && v in ids
                      && forall id :: id in ids && HitGrid.Struck(w, pr, ex, ey, id) ==> v <= id
      case None => forall id :: id in ids ==> !HitGrid.Struck(w, pr, ex, ey, id)
    decreases |ids|
  {
    hide HitGrid.Struck;
    if ids != [] {
      assert ids == [ids[0]] + ids[1..];
      FirstIsLeast(w, pr, ex, ey, ids[1..]);
      forall id | id in ids[1..]
        ensures ids[0] < id
      {
      }
    }
  }

  // ----- where the tested path ends

  /** At the entry into the first inflated wall, or at the end of the tick's path. */
  ghost predicate Ends(pr: Projectile, nx: real, ny: real, wall: bool, ex: real, ey: real) {
    if wall then exists t :: EntersAt(pr, nx, ny, t, ex, ey)
    else NoWall(WALLS, PROJECTILE_RADIUS, pr.x, pr.y, nx - pr.x, ny - pr.y) && ex == nx && ey == ny
  }

  ghost predicate EntersAt(pr: Projectile, nx: real, ny: real, t: real, ex: real, ey: real) {
    && FirstWall(WALLS, PROJECTILE_RADIUS, pr.x, pr.y, nx - pr.x, ny - pr.y, t)
    && ex == pr.x + Mul(t, nx - pr.x) && ey == pr.y + Mul(t, ny - pr.y)
  }

  lemma WallIsFirst(pr: Projectile, nx: real, ny: real)
    ensures match WallOf(pr, nx, ny)
      case None => NoWall(WALLS, PROJECTILE_RADIUS, pr.x, pr.y, nx - pr.x, ny - pr.y)
      case Some(t) => FirstWall(WALLS, PROJECTILE_RADIUS, pr.x, pr.y, nx - pr.x, ny - pr.y, t)
  {
    hide FirstWall, NoWall, Separated, AllProper, FirstWallTime;
    ArenaIsSeparated();
    FirstWallTimeIsFirst(WALLS, PROJECTILE_RADIUS, pr.x, pr.y, nx - pr.x, ny - pr.y);
  }

  lemma PathEnds(pr: Projectile, nx: real, ny: real)
    ensures var wall := WallOf(pr, nx, ny);
      var (ex, ey) := PathEnd(pr, nx, ny, wall);
      Ends(pr, nx, ny, wall.Some?, ex, ey)
  {
    hide FirstWall, NoWall, Mul, WallOf;
    WallIsFirst(pr, nx, ny);
    var wall := WallOf(pr, nx, ny);
    if wall.Some? {
      var (ex, ey) := PathEnd(pr, nx, ny, wall);
      assert EntersAt(pr, nx, ny, wall.value, ex, ey);
    }
  }

  // ----- a bullet

  /** What pistol, shotgun and sniper rifle take from whoever is hit. */
  function BulletDamage(weapon: nat): nat {
    if weapon == 2 then 11 else if weapon == 3 then 80 else 25
  }

  /** A bullet takes its damage from the one it stops at, pays a frag to its shooter when
      that was all, and reports it; a bullet that meets nobody changes nothing. */
  ghost predicate BulletHits(w: State, pr: Projectile, ex: real, ey: real, w': State)
    requires pr.rewind >= 0
  {
    && (Untouched(w, pr, ex, ey) ==> w' == w)
    && forall v :: Stopped(w, pr, ex, ey, v) && v in w.players ==>
      var (p, dmg) := (w.players[v], BulletDamage(pr.weapon));
      var hurt := w.players[v := HurtBy(p, w.tick, dmg)];
      var frag := dmg >= p.hp && pr.owner in w.players;
      w' == w.(
        players := if frag then hurt[pr.owner := WithFrags(w.players[pr.owner], w.tick, 1)] else hurt,
        events := w.events + HitReports(w, v, pr.owner, dmg))
  }

  lemma BulletStrikes(env: Env, w: State, pr: Projectile, ex: real, ey: real, wall: bool)
    requires WorldOk(w) && pr.rewind >= 0 && pr.weapon != 4
    ensures BulletHits(w, pr, ex, ey, Detonate(env, w, pr, HitGrid.LinearHit(w, pr, ex, ey, w.order), wall, ex, ey))
  {
    hide ApplyDamage, HurtBy, WithFrags, HitReports, HitGrid.LinearHit, WorldOk, Crosses, HitGrid.Living;
    OrderSorted(w);
    LinearHitMeans(w, pr, ex, ey);
    var hit := HitGrid.LinearHit(w, pr, ex, ey, w.order);
    if hit.Some? {
      var v := hit.value;
      CrossedLives(w, pr, ex, ey, v);
      HitCosts(w, v, pr.owner, BulletDamage(pr.weapon));
      forall u | Stopped(w, pr, ex, ey, u)
        ensures u == v
      {
      }
    }
  }

  lemma OrderSorted(w: State)
    requires WorldOk(w)
    ensures OrderOk(w)
  {
  }

  lemma CrossedLives(w: State, pr: Projectile, ex: real, ey: real, v: nat)
    requires pr.rewind >= 0 && Crosses(w, pr, ex, ey, v)
    ensures HitGrid.Living(w, v) && pr.owner != v
  {
  }

  // ----- a blast

  /** What a rocket that goes off at (ex, ey) takes from a player: 65 at the centre, linearly
      less outwards, nothing from 130 on. */
  ghost function Blast(env: Env, w: State, pr: Projectile, ex: real, ey: real, id: nat): nat
    requires pr.rewind >= 0
  {
    if !Exposed(w, pr, id) then 0
    else
      var t := SeenAt(w.players[id], w.tick, pr.rewind);
      var d := env.root(Sq(t.x - ex) + Sq(t.y - ey));
      if d >= 130.0 then 0 else if d < 0.0 then 65 else (65.0 * (1.0 - d / 130.0)).Floor
  }

  ghost predicate Kills(env: Env, w: State, pr: Projectile, ex: real, ey: real, id: nat)
    requires pr.rewind >= 0
  {
    id in w.players && var dmg := Blast(env, w, pr, ex, ey, id); dmg > 0 && dmg >= w.players[id].hp
  }

  /** How many of `ids` a blast kills. */
  ghost function Fatal(env: Env, w: State, pr: Projectile, ex: real, ey: real, ids: seq<nat>): nat
    requires pr.rewind >= 0
  {
    if ids == [] then 0
    else
      var id := ids[|ids| - 1];
      Fatal(env, w, pr, ex, ey, ids[..|ids| - 1])
      + (if Kills(env, w, pr, ex, ey, id) then 1 else 0)
  }

  /** A blast takes from each exposed player of `ids` what its distance says, touches nobody
      else, and pays a frag to the shooter for everyone it kills. */
  ghost predicate Blasted(env: Env, w: State, pr: Projectile, ex: real, ey: real, ids: seq<nat>, w': State)
    requires pr.rewind >= 0
  {
    && w'.players.Keys == w.players.Keys && w.events <= w'.events
    && w' == w.(players := w'.players, events := w'.events)
    && (forall id :: id in w.players && id != pr.owner ==>
      var (p, dmg) := (w.players[id], Blast(env, w, pr, ex, ey, id));
      if id in ids && dmg > 0 then
        var left := HurtBy(p, w.tick, dmg);
        w'.players[id] == left && Hit(pr.owner, id, dmg, left.hp) in w'.events[|w.events|..]
      else w'.players[id] == p)
    && (pr.owner in w.players ==>
      w'.players[pr.owner] == WithFrags(w.players[pr.owner], w.tick, Fatal(env, w, pr, ex, ey, ids)))
  }

  /** The damage the room computes for a player in reach is what the distance says. */
  lemma SplashIsBlast(env: Env, w: State, pr: Projectile, ex: real, ey: real, id: nat)
    requires EnvOk(env) && pr.rewind >= 0 && pr.weapon == 4 && id in w.players
    ensures Splash(env, w, pr, ex, ey, id) ==
      var dmg := Blast(env, w, pr, ex, ey, id); if dmg == 0 then w else ApplyDamage(w, id, pr.owner, dmg)
  {
    hide ApplyDamage, IsRoot;
    if Exposed(w, pr, id) {
      var t := SeenAt(w.players[id], w.tick, pr.rewind);
      var d2 := Sq(t.x - ex) + Sq(t.y - ey);
      SqSigns(t.x - ex);
      SqSigns(t.y - ey);
      DamageAt(env, d2);
      hide Sq, SplashDamage;
    }
  }

  lemma DamageAt(env: Env, d2: real)
    requires EnvOk(env) && d2 >= 0.0
    ensures var (d, spec) := (env.root(d2), WeaponSpecOf(4));
      && d >= 0.0 && spec.splashRadius == 130.0
      && (d2 > Sq(130.0) ==> d >= 130.0)
      && (d2 <= Sq(130.0) ==> SplashDamage(env, spec, d2)
                              == if d >= 130.0 then 0 else (65.0 * (1.0 - d / 130.0)).Floor)
  {
    var d := env.root(d2);
    assert Sq(d) == d2;
    hide IsRoot, EnvOk;
    if d2 > Sq(130.0) && d < 130.0 {
      hide Sq;
      SqMono(d, 130.0);
    }
  }

  lemma NoBlastYet(env: Env, w: State, pr: Projectile, ex: real, ey: real)
    requires pr.rewind >= 0
    ensures Blasted(env, w, pr, ex, ey, [], w)
  {
    hide Blast;
  }

  /** A player not reached yet is still as it was, and so is what the blast takes from it. */
  lemma SameBlast(env: Env, w: State, s: State, pr: Projectile, ex: real, ey: real, id: nat)
    requires pr.rewind >= 0 && s.tick == w.tick && s.modes == w.modes
    requires id == pr.owner || (id in w.players <==> id in s.players)
    requires id != pr.owner && id in w.players ==> s.players[id] == w.players[id]
    ensures Blast(env, s, pr, ex, ey, id) == Blast(env, w, pr, ex, ey, id)
  {
  }

  lemma {:induction false} ExplodeBlasts(env: Env, w: State, pr: Projectile, ex: real, ey: real, ids: seq<nat>)
    requires EnvOk(env) && WorldOk(w) && pr.rewind >= 0 && pr.weapon == 4 && HitGrid.AscendingIds(ids)
    ensures var w' := Fold(SplashOf(env, pr, ex, ey), w, ids);
      WorldOk(w') && Blasted(env, w, pr, ex, ey, ids, w')
  {
    hide *;
    if ids == [] {
      FoldNone(SplashOf(env, pr, ex, ey), w);
      NoBlastYet(env, w, pr, ex, ey);
    } else {
      var (front, id) := (ids[..|ids| - 1], ids[|ids| - 1]);
      AscendingFront(ids);
      ExplodeBlasts(env, w, pr, ex, ey, front);
      var s := Fold(SplashOf(env, pr, ex, ey), w, front);
      FoldOne(SplashOf(env, pr, ex, ey), w, front, id);
      assert ids == front + [id];
      SplashCall(env, s, pr, ex, ey, id);
      SplashOk(env, s, pr, ex, ey, id);
      KeptIsOk(s, Splash(env, s, pr, ex, ey, id));
      OneMoreBlasted(env, w, s, pr, ex, ey, front, id);
    }
  }

  lemma FoldNone<S, A>(f: (S, A) -> S, s: S)
    ensures Fold(f, s, []) == s
  {
  }

  lemma KeptIsOk(w: State, w': State)
    requires KeepsOk(w, w')
    ensures WorldOk(w')
  {
  }

  lemma AscendingFront(ids: seq<nat>)
    requires ids != [] && HitGrid.AscendingIds(ids)
    ensures HitGrid.AscendingIds(ids[..|ids| - 1]) && ids[|ids| - 1] !in ids[..|ids| - 1]
  {
  }

  lemma SplashCall(env: Env, s: State, pr: Projectile, ex: real, ey: real, id: nat)
    ensures SplashOf(env, pr, ex, ey)(s, id) == Splash(env, s, pr, ex, ey, id)
  {
  }

  lemma OneMoreBlasted(env: Env, w: State, s: State, pr: Projectile, ex: real, ey: real, front: seq<nat>, id: nat)
    requires EnvOk(env) && WorldOk(w) && WorldOk(s) && pr.rewind >= 0 && pr.weapon == 4
    requires Blasted(env, w, pr, ex, ey, front, s) && id !in front
    ensures Blasted(env, w, pr, ex, ey, front + [id], Splash(env, s, pr, ex, ey, id))
  {
    hide *;
    BlastedSame(env, w, s, pr, ex, ey, front, id);
    SameBlast(env, w, s, pr, ex, ey, id);
    if id == pr.owner || id !in w.players {
      SplashSpares(env, s, pr, ex, ey, id);
      NoBlast(env, w, pr, ex, ey, id);
      NothingBlasted(env, w, s, pr, ex, ey, front, id);
    } else {
      SplashIsBlast(env, s, pr, ex, ey, id);
      if Blast(env, w, pr, ex, ey, id) == 0 {
        NothingBlasted(env, w, s, pr, ex, ey, front, id);
      } else {
        BlastedLives(env, s, pr, ex, ey, id);
        HitBlasted(env, w, s, pr, ex, ey, front, id);
      }
    }
  }

  /** What the blast so far leaves of its next candidate: everything. */
  lemma BlastedSame(env: Env, w: State, s: State, pr: Projectile, ex: real, ey: real, front: seq<nat>, id: nat)
    requires pr.rewind >= 0 && Blasted(env, w, pr, ex, ey, front, s) && id !in front
    ensures s.tick == w.tick && s.modes == w.modes && s.players.Keys == w.players.Keys
    ensures id != pr.owner && id in w.players ==> s.players[id] == w.players[id]
  {
    hide Blast, HurtBy, WithFrags, Fatal;
  }

  lemma SplashSpares(env: Env, s: State, pr: Projectile, ex: real, ey: real, id: nat)
    requires id == pr.owner || id !in s.players
    ensures Splash(env, s, pr, ex, ey, id) == s
  {
  }

  lemma NoBlast(env: Env, w: State, pr: Projectile, ex: real, ey: real, id: nat)
    requires pr.rewind >= 0 && (id == pr.owner || id !in w.players)
    ensures Blast(env, w, pr, ex, ey, id) == 0
  {
  }

  lemma BlastedLives(env: Env, s: State, pr: Projectile, ex: real, ey: real, id: nat)
    requires pr.rewind >= 0 && Blast(env, s, pr, ex, ey, id) > 0
    ensures HitGrid.Living(s, id) && id != pr.owner
  {
  }

  lemma FatalStep(env: Env, w: State, pr: Projectile, ex: real, ey: real, front: seq<nat>, id: nat)
    requires pr.rewind >= 0
    ensures Fatal(env, w, pr, ex, ey, front + [id])
         == Fatal(env, w, pr, ex, ey, front) + if Kills(env, w, pr, ex, ey, id) then 1 else 0
  {
    assert (front + [id])[..|front|] == front;
  }

  lemma NothingBlasted(env: Env, w: State, s: State, pr: Projectile, ex: real, ey: real, front: seq<nat>, id: nat)
    requires pr.rewind >= 0 && Blasted(env, w, pr, ex, ey, front, s) && Blast(env, w, pr, ex, ey, id) == 0
    ensures Blasted(env, w, pr, ex, ey, front + [id], s)
  {
    hide Blast, HurtBy, WithFrags, Fatal;
    FatalStep(env, w, pr, ex, ey, front, id);
    assert forall x :: x in front + [id] <==> x in front || x == id;
  }

  lemma FragsAdd(p: Player, tick: nat, n: nat)
    ensures WithFrags(WithFrags(p, tick, n), tick, 1) == WithFrags(p, tick, n + 1)
  {
    Thirds(p.streak, n);
  }

  lemma Thirds(k: nat, n: nat)
    ensures (k + n + 1) / 3 > k / 3 <==> (k + n + 1) / 3 > (k + n) / 3 || (k + n) / 3 > k / 3
  {
  }

  lemma HitBlasted(env: Env, w: State, s: State, pr: Projectile, ex: real, ey: real, front: seq<nat>, id: nat)
    requires WorldOk(s) && HitGrid.Living(s, id) && id != pr.owner && id in w.players && id !in front
    requires pr.rewind >= 0 && Blasted(env, w, pr, ex, ey, front, s)
    requires Blast(env, w, pr, ex, ey, id) > 0
    ensures Blasted(env, w, pr, ex, ey, front + [id], ApplyDamage(s, id, pr.owner, Blast(env, w, pr, ex, ey, id)))
  {
    hide Blast, HurtBy, WithFrags, Fatal, WorldOk, ApplyDamage, HitReports;
    var dmg := Blast(env, w, pr, ex, ey, id);
    FatalStep(env, w, pr, ex, ey, front, id);
    HitCosts(s, id, pr.owner, dmg);
    FirstReport(s, id, pr.owner, dmg);
    if pr.owner in w.players {
      FragsAdd(w.players[pr.owner], w.tick, Fatal(env, w, pr, ex, ey, front));
    }
    assert forall x :: x in front + [id] <==> x in front || x == id;
    var w' := ApplyDamage(s, id, pr.owner, dmg);
    assert w'.events[|w.events|..] == s.events[|w.events|..] + HitReports(s, id, pr.owner, dmg);
  }

  lemma FirstReport(s: State, id: nat, attacker: nat, dmg: nat)
    requires id in s.players
    ensures HitReports(s, id, attacker, dmg) != []
    ensures HitReports(s, id, attacker, dmg)[0] == Hit(attacker, id, dmg, HurtBy(s.players[id], s.tick, dmg).hp)
  {
  }

  // ----- one projectile's tick

  /** A rocket goes off when it meets a player or a wall, and only then. */
  ghost predicate RocketHits(env: Env, w: State, pr: Projectile, wall: bool, ex: real, ey: real, w': State)
    requires pr.rewind >= 0
  {
    if !wall && Untouched(w, pr, ex, ey) then w' == w else Blasted(env, w, pr, ex, ey, w.order, w')
  }

  /** A projectile flies on by velocity times dt, with one tick less to live, unless it met
      somebody or a wall, its life is over, or it left the map. */
  ghost predicate FliesOn(w: State, pr: Projectile, wall: bool, ex: real, ey: real, nx: real, ny: real,
                          kept: seq<Projectile>, kept': seq<Projectile>)
    requires pr.rewind >= 0
  {
    if !wall && Untouched(w, pr, ex, ey) && pr.life > 1 && 0.0 <= nx <= 4096.0 && 0.0 <= ny <= 4096.0
    then kept' == kept + [pr.(x := nx, y := ny, life := pr.life - 1)]
    else kept' == kept
  }

  ghost predicate Shot(env: Env, f: Flight, pr: Projectile, dt: real, f': Flight)
    requires pr.rewind >= 0
  {
    var (nx, ny) := (pr.x + Mul(pr.vx, dt), pr.y + Mul(pr.vy, dt));
    exists wall, ex, ey :: ShotTo(env, f, pr, nx, ny, wall, ex, ey, f')
  }

  ghost predicate ShotTo(
    env: Env, f: Flight, pr: Projectile, nx: real, ny: real, wall: bool, ex: real, ey: real, f': Flight)
    requires pr.rewind >= 0
  {
    && Ends(pr, nx, ny, wall, ex, ey)
    && (if pr.weapon == 4 then RocketHits(env, f.w, pr, wall, ex, ey, f'.w) else BulletHits(f.w, pr, ex, ey, f'.w))
    && FliesOn(f.w, pr, wall, ex, ey, nx, ny, f.kept, f'.kept)
  }

  lemma RocketStrikes(env: Env, w: State, pr: Projectile, ex: real, ey: real, wall: bool)
    requires EnvOk(env) && WorldOk(w) && pr.rewind >= 0 && pr.weapon == 4
    ensures RocketHits(env, w, pr, wall, ex, ey,
                       Detonate(env, w, pr, HitGrid.LinearHit(w, pr, ex, ey, w.order), wall, ex, ey))
  {
    hide HitGrid.LinearHit, WorldOk, EnvOk, Crosses, Blasted, Splash;
    OrderSorted(w);
    LinearHitMeans(w, pr, ex, ey);
    ExplodeBlasts(env, w, pr, ex, ey, w.order);
  }

  lemma FlyIsShot(env: Env, f: Flight, pr: Projectile, dt: real)
    requires EnvOk(env) && WorldOk(f.w) && pr.rewind >= 0
    ensures Shot(env, f, pr, dt, Fly(env, f, pr, dt))
  {
    hide HitGrid.LinearHit, WorldOk, EnvOk, Crosses, RocketHits, BulletHits, Ends, Detonate, WallOf, PathEnd, Mul;
    var (nx, ny) := (pr.x + Mul(pr.vx, dt), pr.y + Mul(pr.vy, dt));
    var wall := WallOf(pr, nx, ny);
    var (ex, ey) := PathEnd(pr, nx, ny, wall);
    PathEnds(pr, nx, ny);
    OrderSorted(f.w);
    LinearHitMeans(f.w, pr, ex, ey);
    if pr.weapon == 4 {
      RocketStrikes(env, f.w, pr, ex, ey, wall.Some?);
    } else {
      BulletStrikes(env, f.w, pr, ex, ey, wall.Some?);
    }
    assert ShotTo(env, f, pr, nx, ny, wall.Some?, ex, ey, Fly(env, f, pr, dt));
  }

  /** The projectiles of a tick, one after the other: each shot starts from what the ones
      before it left. */
  ghost predicate Volleys(env: Env, w: State, prs: seq<Projectile>, dt: real, fs: seq<Flight>)
    requires forall i :: 0 <= i < |prs| ==> prs[i].rewind >= 0
  {
    && |fs| == |prs| + 1 && fs[0] == Flight(w, [])
    && forall i :: 0 <= i < |prs| ==> Shot(env, fs[i], prs[i], dt, fs[i + 1])
  }

  lemma {:induction false} FlyAllIsVolleys(env: Env, w: State, prs: seq<Projectile>, dt: real) returns (fs: seq<Flight>)
    requires EnvOk(env) && WorldOk(w)
    requires forall i, j :: 0 <= i < j < |prs| ==> prs[i].id != prs[j].id
    requires forall i :: 0 <= i < |prs| ==> prs[i].rewind >= 0
    ensures Volleys(env, w, prs, dt, fs) && fs[|prs|] == FlyAll(env, w, prs, dt)
  {
    hide WorldOk, EnvOk, Shot, Fly;
    if prs == [] {
      fs := [Flight(w, [])];
    } else {
      var n := |prs| - 1;
      var front := FlyAllIsVolleys(env, w, prs[..n], dt);
      FlyAllOk(env, w, prs[..n], dt);
      KeptIsOk(w, front[n].w);
      FlyIsShot(env, front[n], prs[n], dt);
      fs := front + [Fly(env, front[n], prs[n], dt)];
    }
  }

  /** One tick of all projectiles: a volley of shots, each doing what it does to the players
      alone, and those that fly on are the projectiles of the next tick. */
  lemma StepProjectilesIsVolleys(env: Env, w: State, dt: real) returns (fs: seq<Flight>)
    requires EnvOk(env) && WorldOk(w)
    ensures forall i :: 0 <= i < |w.projectiles| ==> w.projectiles[i].rewind >= 0
    ensures Volleys(env, w, w.projectiles, dt, fs)
    ensures StepProjectiles(env, w, dt) == fs[|w.projectiles|].w.(projectiles := fs[|w.projectiles|].kept)
  {
    hide Volleys, FlyAll;
    fs := FlyAllIsVolleys(env, w, w.projectiles, dt);
  }

  // ----- the trigger

  function MuzzleSpeed(weapon: nat): real {
    if weapon == 2 then 620.0 else if weapon == 3 then 1500.0 else if weapon == 4 then 480.0 else 700.0
  }

  /** Five pellets from a shotgun, three from anything else with the fan, one without. */
  function PelletsOf(p: Player, tick: nat): nat {
    if p.weapon == 2 then 5 else if tick < p.spreadUntil then 3 else 1
  }

  function SpacingOf(p: Player): real {
    if p.weapon == 2 then 0.16 else 0.14
  }

  /** Ticks until the next shot, a third of them with rapid fire. */
  function WaitOf(p: Player, tick: nat): nat {
    var wait := if p.weapon == 2 then 18 else if p.weapon == 3 then 33 else if p.weapon == 4 then 39 else 9;
    if tick < p.rapidUntil then wait / 3 else wait
  }

  /** How far back the shot looks for its targets: to what the shooter saw, at most 10 ticks. */
  function LooksBack(tick: nat, viewTick: nat): nat {
    if viewTick == 0 || viewTick >= tick then 0 else if tick - viewTick > 10 then 10 else tick - viewTick
  }

  /** The angle of pellet `i` of `n`: as far left of the aim as its opposite is right of it. */
  function AngleOf(ang: real, step: real, n: nat, i: nat): real {
    ang + Mul(step, i as real - (n as real - 1.0) / 2.0)
  }

  lemma OppositeAngles(ang: real, step: real, n: nat, i: nat)
    requires i < n
    ensures AngleOf(ang, step, n, i) + AngleOf(ang, step, n, n - 1 - i) == 2.0 * ang
  {
    var d := i as real - (n as real - 1.0) / 2.0;
    assert (n - 1 - i) as real - (n as real - 1.0) / 2.0 == -d;
    MulNeg(step, d);
  }

  /** A pellet leaves 21 in front of the player, straight along its angle. */
  ghost predicate Leaves(env: Env, p: Player, pr: Projectile, ang: real, rewind: int) {
    var (dx, dy, v) := (env.cos(ang), env.sin(ang), MuzzleSpeed(p.weapon));
    && pr.owner == p.id && pr.team == p.team && pr.weapon == p.weapon && pr.life == 60 && pr.rewind == rewind
    && pr.x == p.move.x + Mul(dx, 21.0) && pr.y == p.move.y + Mul(dy, 21.0)
    && pr.vx == Mul(dx, v) && pr.vy == Mul(dy, v)
  }

  /** `shots` are the first pellets of a fan of `n`; one is missing only when 128 projectiles
      are in the air or no id is left. */
  ghost predicate Fan(
    env: Env, w: State, p: Player, start: real, step: real, rewind: int, n: nat, shots: seq<Projectile>, w': State)
  {
    && w' == w.(projectiles := w.projectiles + shots, nextID := w'.nextID)
    && |shots| <= n
    && (|shots| < n ==> |w'.projectiles| >= 128 || forall id :: 1 <= id <= 65535 ==> Taken(w', id))
    && forall i :: 0 <= i < |shots| ==> Leaves(env, p, shots[i], start + Mul(step, i as real), rewind)
  }

  lemma {:induction false} FanLeaves(
    env: Env, w: State, id: nat, start: real, step: real, rewind: int, n: nat) returns (shots: seq<Projectile>)
    requires WorldOk(w) && 0 <= rewind <= MAX_REWIND && id in w.players
    ensures Fan(env, w, w.players[id], start, step, rewind, n, shots, SpawnFan(env, w, id, start, step, rewind, n))
  {
    hide *;
    if n == 0 {
      shots := [];
      NoFan(env, w, id, start, step, rewind);
    } else {
      var front := FanLeaves(env, w, id, start, step, rewind, n - 1);
      var s := SpawnFan(env, w, id, start, step, rewind, n - 1);
      SpawnFanOk(env, w, id, start, step, rewind, n - 1);
      KeptIsOk(w, s);
      FanSame(env, w, w.players[id], start, step, rewind, n - 1, front, s);
      var last := OnePellet(env, s, id, start + Mul(step, (n - 1) as real), rewind);
      shots := front + last;
      LastOfFan(env, w, id, start, step, rewind, n);
      FanGrows(env, w, w.players[id], start, step, rewind, n, front, s, last,
               SpawnFan(env, w, id, start, step, rewind, n));
    }
  }

  lemma NoFan(env: Env, w: State, id: nat, start: real, step: real, rewind: int)
    requires id in w.players
    ensures Fan(env, w, w.players[id], start, step, rewind, 0, [], SpawnFan(env, w, id, start, step, rewind, 0))
  {
    assert w.projectiles + [] == w.projectiles;
  }

  lemma FanSame(env: Env, w: State, p: Player, start: real, step: real, rewind: int, n: nat,
                shots: seq<Projectile>, s: State)
    requires Fan(env, w, p, start, step, rewind, n, shots, s)
    ensures s.players == w.players
  {
    hide Leaves, Taken;
  }

  lemma LastOfFan(env: Env, w: State, id: nat, start: real, step: real, rewind: int, n: nat)
    requires n > 0
    ensures SpawnFan(env, w, id, start, step, rewind, n) ==
      SpawnProjectile(env, SpawnFan(env, w, id, start, step, rewind, n - 1), id,
                      start + Mul(step, (n - 1) as real), rewind)
  {
    hide SpawnProjectile;
  }

  /** One more pellet, unless there is no room for it. */
  ghost predicate Pellet(
    env: Env, w: State, p: Player, ang: real, rewind: int, shots: seq<Projectile>, w': State)
  {
    && w' == w.(projectiles := w.projectiles + shots, nextID := w'.nextID)
    && |shots| <= 1
    && (shots == [] ==> |w'.projectiles| >= 128 || forall id :: 1 <= id <= 65535 ==> Taken(w', id))
    && (shots != [] ==> |w.projectiles| < 128 && (exists id :: 1 <= id <= 65535 && !Taken(w, id))
                        && Leaves(env, p, shots[0], ang, rewind))
  }

  lemma OnePellet(env: Env, w: State, id: nat, ang: real, rewind: int) returns (shots: seq<Projectile>)
    requires WorldOk(w) && id in w.players
    ensures Pellet(env, w, w.players[id], ang, rewind, shots, SpawnProjectile(env, w, id, ang, rewind))
  {
    AllocRoom(w);
    PlayerIds(w);
    hide Alloc, WorldOk, Mul;
    var w' := SpawnProjectile(env, w, id, ang, rewind);
    if |w.projectiles| >= MAX_PROJECTILES || Alloc(w).0.None? {
      shots := [];
      assert w.projectiles + [] == w.projectiles;
      forall i | 1 <= i <= 65535 && |w.projectiles| < MAX_PROJECTILES
        ensures Taken(w', i)
      {
        assert Taken(w, i);
      }
    } else {
      shots := [NewShot(env, w.players[id], Alloc(w).0.value, ang, rewind)];
      assert !Taken(w, Alloc(w).0.value);
    }
  }

  lemma AllocRoom(w: State)
    requires WorldOk(w)
    ensures var r := Alloc(w).0;
      && (r.None? ==> forall id :: 1 <= id <= MAX_ID ==> Taken(w, id))
      && (r.Some? ==> 1 <= r.value <= MAX_ID && !Taken(w, r.value))
  {
    AllocIsExact(w);
    hide Alloc, Taken;
  }

  lemma FanGrows(
    env: Env, w: State, p: Player, start: real, step: real, rewind: int, n: nat, front: seq<Projectile>, s: State,
    last: seq<Projectile>, w': State)
    requires n > 0 && Fan(env, w, p, start, step, rewind, n - 1, front, s)
    requires Pellet(env, s, p, start + Mul(step, (n - 1) as real), rewind, last, w')
    ensures Fan(env, w, p, start, step, rewind, n, front + last, w')
  {
    hide Leaves, Mul, Taken;
    assert w.projectiles + front + last == w.projectiles + (front + last);
    if last == [] {
      assert front + last == front;
    } else {
      var id :| 1 <= id <= 65535 && !Taken(s, id);
      assert |front| == n - 1;
    }
  }

  /** What pulling the trigger does: nothing before the wait is over or with 128 projectiles
      in the air; otherwise a fan leaves, evenly spread around the aim, the wait starts and
      the shooter's own protection ends. */
  ghost predicate Fires(env: Env, w: State, id: nat, inp: Input, w': State)
    requires id in w.players
  {
    if w.tick < w.players[id].nextFireTick || |w.projectiles| >= 128 then w' == w
    else exists shots :: Fired(env, w, id, inp, shots, w')
  }

  ghost predicate Fired(env: Env, w: State, id: nat, inp: Input, shots: seq<Projectile>, w': State)
    requires id in w.players
  {
    var p := w.players[id];
    var q := p.(nextFireTick := w.tick + WaitOf(p, w.tick), invulnUntil := 0);
    Salvo(env, w.(players := w.players[id := q]), q, env.radians(inp.aim), SpacingOf(p),
          LooksBack(w.tick, inp.viewTick), PelletsOf(p, w.tick), shots, w')
  }

  /** `shots` are the first of `n` pellets spread evenly around `ang`. */
  ghost predicate Salvo(
    env: Env, w: State, p: Player, ang: real, step: real, rewind: int, n: nat, shots: seq<Projectile>, w': State)
  {
    && w' == w.(projectiles := w.projectiles + shots, nextID := w'.nextID)
    && |shots| <= n
    && (|shots| < n ==> |w'.projectiles| >= 128 || forall id :: 1 <= id <= 65535 ==> Taken(w', id))
    && forall i :: 0 <= i < |shots| ==> Leaves(env, p, shots[i], AngleOf(ang, step, n, i), rewind)
  }

  lemma FanIsSalvo(env: Env, w: State, p: Player, ang: real, step: real, rewind: int, n: nat,
                   shots: seq<Projectile>, w': State)
    requires Fan(env, w, p, ang - Mul(step, (n as real - 1.0) / 2.0), step, rewind, n, shots, w')
    ensures Salvo(env, w, p, ang, step, rewind, n, shots, w')
  {
    hide Leaves, Mul, Taken;
    var start := ang - Mul(step, (n as real - 1.0) / 2.0);
    forall i | 0 <= i < |shots|
      ensures Leaves(env, p, shots[i], AngleOf(ang, step, n, i), rewind)
    {
      MulSub(step, i as real, (n as real - 1.0) / 2.0);
      assert start + Mul(step, i as real) == AngleOf(ang, step, n, i);
    }
  }

  lemma PelletIsSalvo(env: Env, w: State, p: Player, ang: real, step: real, rewind: int,
                      shots: seq<Projectile>, w': State)
    requires Pellet(env, w, p, ang, rewind, shots, w')
    ensures Salvo(env, w, p, ang, step, rewind, 1, shots, w')
  {
    hide Leaves, Mul, Taken;
    MulUnits(step);
    assert AngleOf(ang, step, 1, 0) == ang;
  }

  lemma VolleyIsSalvo(env: Env, w: State, id: nat, ang: real, rewind: int, n: nat, step: real)
    returns (shots: seq<Projectile>)
    requires WorldOk(w) && 0 <= rewind <= MAX_REWIND && id in w.players && n >= 1
    ensures Salvo(env, w, w.players[id], ang, step, rewind, n, shots, Volley(env, w, id, ang, rewind, n, step))
  {
    hide WorldOk, Salvo, Fan, Pellet, Mul, SpawnFan, SpawnProjectile;
    if n == 1 {
      shots := OnePellet(env, w, id, ang, rewind);
      PelletIsSalvo(env, w, w.players[id], ang, step, rewind, shots, SpawnProjectile(env, w, id, ang, rewind));
    } else {
      var start := ang - Mul(step, (n - 1) as real) / 2.0;
      HalfStep(step, n);
      shots := FanLeaves(env, w, id, start, step, rewind, n);
      FanIsSalvo(env, w, w.players[id], ang, step, rewind, n, shots, SpawnFan(env, w, id, start, step, rewind, n));
    }
  }

  lemma HalfStep(step: real, n: nat)
    requires n >= 1
    ensures Mul(step, (n - 1) as real) / 2.0 == Mul(step, (n as real - 1.0) / 2.0)
  {
    var h := (n as real - 1.0) / 2.0;
    assert (n - 1) as real == h + h;
    MulAdd(step, h, h);
  }

  /** One pull of the trigger, from any sound world. */
  lemma TryFireIs(env: Env, w: State, id: nat, inp: Input)
    requires WorldOk(w) && id in w.players
    ensures Fires(env, w, id, inp, TryFire(env, w, id, inp))
  {
    hide WorldOk, Salvo, SpawnFan, SpawnProjectile, Mul;
    if CanFire(w, id) {
      var p := w.players[id];
      TriggeredOk(w, id);
      var q := p.(nextFireTick := w.tick + WaitOf(p, w.tick), invulnUntil := 0);
      var w1 := w.(players := w.players[id := q]);
      assert q == Triggered(p, w.tick);
      KeptIsOk(w, w1);
      var (ang, step) := (env.radians(inp.aim), SpacingOf(p));
      var (rewind, n) := (LooksBack(w.tick, inp.viewTick), PelletsOf(p, w.tick));
      var shots := VolleyIsSalvo(env, w1, id, ang, rewind, n, step);
      assert TryFire(env, w, id, inp) == Volley(env, w1, id, ang, rewind, n, step);
      assert Fired(env, w, id, inp, shots, TryFire(env, w, id, inp));
    }
  }

  // ----- shots over a run

  /** The player stays through the run and neither dies nor spawns. */
  ghost predicate LivesOn(env: Env, w: State, acts: seq<S.Action>, dt: real, id: nat)
    decreases |acts|
  {
    acts == [] ||
      (&& (acts[0].Leave? ==> acts[0].id != id)
       && (acts[0].Tick? ==> J.NoTurningPoint(Step(env, w, dt).events, id))
       && LivesOn(env, S.Act(env, w, acts[0], dt), acts[1..], dt, id))
  }

  lemma ActWaits(env: Env, w: State, a: S.Action, dt: real, id: nat)
    requires EnvOk(env) && WorldOk(w) && id in w.players && LivesOn(env, w, [a], dt, id)
    ensures var w' := S.Act(env, w, a, dt);
      && id in w'.players
      && if a.Tick? then J.Rested(w.players[id], w'.players[id], w.tick)
         else w'.players[id].nextFireTick == w.players[id].nextFireTick
  {
    assert LivesOn(env, w, [a], dt, id);
    match a
    case Tick =>
      hide WorldOk, Step, J.Rested, J.NoTurningPoint, LivesOn;
      NoTurn(env, w, dt, id);
      J.StepTells(env, w, dt, id);
    case Join(name) =>
      S.JoinTouches(env, w, name);
      S.JoinIsNew(w);
      hide Alloc, WorldOk, AddPlayer;
    case Leave(i) =>
    case Enqueue(i, inp) =>
      PlayerIds(w);
      hide WorldOk;
  }

  lemma NoTurn(env: Env, w: State, dt: real, id: nat)
    requires LivesOn(env, w, [S.Tick], dt, id)
    ensures J.LastTurn(Step(env, w, dt).events, id) == None
  {
    hide Step, J.LastTurn;
  }

  /** Waiting is never cut short. */
  lemma {:induction false} RunWaits(env: Env, w: State, acts: seq<S.Action>, dt: real, id: nat)
    requires EnvOk(env) && WorldOk(w) && id in w.players && LivesOn(env, w, acts, dt, id)
    ensures var w' := S.Run(env, w, acts, dt);
      WorldOk(w') && id in w'.players && w'.players[id].nextFireTick >= w.players[id].nextFireTick
    decreases |acts|
  {
    hide WorldOk, EnvOk, S.Act, J.NoTurningPoint;
    if acts != [] {
      FirstAct(env, w, acts, dt, id);
      ActWaits(env, w, acts[0], dt, id);
      S.ActOk(env, w, acts[0], dt);
      RunWaits(env, S.Act(env, w, acts[0], dt), acts[1..], dt, id);
    }
  }

  lemma FirstAct(env: Env, w: State, acts: seq<S.Action>, dt: real, id: nat)
    requires acts != [] && LivesOn(env, w, acts, dt, id)
    ensures LivesOn(env, w, [acts[0]], dt, id)
  {
    hide Step, S.Act, J.NoTurningPoint;
    assert [acts[0]][1..] == [];
  }

  /** Two volleys of one life are apart: the second leaves no earlier than the wait the first
      began is over, which is 3 ticks at the very least and what the weapon asks in full. */
  lemma VolleysAreApart(env: Env, w: State, acts: seq<S.Action>, dt: real, id: nat)
    requires EnvOk(env) && WorldOk(w) && id in w.players
    requires LivesOn(env, w, [S.Tick], dt, id)
    requires var w1 := Step(env, w, dt); LivesOn(env, w1, acts, dt, id)
    requires LivesOn(env, S.Run(env, Step(env, w, dt), acts, dt), [S.Tick], dt, id)
    ensures var w1 := Step(env, w, dt);
      var w2 := S.Run(env, w1, acts, dt);
      var w3 := Step(env, w2, dt);
      && id in w1.players && id in w2.players && id in w3.players
      && var (first, second) := (w1.players[id].nextFireTick, w3.players[id].nextFireTick);
      (first != w.players[id].nextFireTick && second != w2.players[id].nextFireTick ==>
        && first - w.tick in {9, 18, 33, 39, 3, 6, 11, 13}
        && w2.tick >= first)
  {
    hide WorldOk, EnvOk, Step, S.Run, LivesOn;
    var w1 := Step(env, w, dt);
    ActWaits(env, w, S.Tick, dt, id);
    S.ActOk(env, w, S.Tick, dt);
    RunWaits(env, w1, acts, dt, id);
    ActWaits(env, S.Run(env, w1, acts, dt), S.Tick, dt, id);
  }
}
