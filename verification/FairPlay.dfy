/** What single rules mean to the players, internal/game: who wins, who gets the pickup,
    what a hit and a blast cost, and where newcomers go. */
module FairPlay {
  import opened Wire
  import opened Reals
  import opened Walls
  import opened Arena
  import opened Ids
  import HitGrid
  import opened Rules
  import opened WorldInvariant

  // ----- the winner

  /** What a player has done for what the match is about: the hill, the control points, the
      flags or, in any other mode, kills. */
  ghost function Points(m: Modes, p: Player): nat {
    if m.hill then p.hillScore else if m.dom then p.domScore else if m.ctf then p.captures else p.kills
  }

  /** `best` has the most points of `ids`, and the least id among equals. */
  ghost predicate Best(w: State, ids: seq<nat>, best: nat) {
    && best in ids && best in w.players
    && forall id :: id in ids && id in w.players ==>
      var (mine, top) := (Points(w.modes, w.players[id]), Points(w.modes, w.players[best]));
      mine < top || (mine == top && best <= id)
  }

  lemma {:induction false} LeadersSoFar(w: State, ids: seq<nat>)
    requires HitGrid.AscendingIds(ids)
    ensures var (best, most) := LeaderOf(w, ids, Objective(w));
      if exists id :: id in ids && id in w.players then Best(w, ids, best) && most == Points(w.modes, w.players[best])
      else (best, most) == (0, -1)
  {
    if ids != [] {
      var n := |ids| - 1;
      LeadersSoFar(w, ids[..n]);
      assert ids == ids[..n] + [ids[n]];
      forall id | id in ids[..n]
        ensures id < ids[n]
      {
      }
      if ids[n] in w.players {
        ObjectiveIsPoints(w, w.players[ids[n]]);
      }
      hide Points, Objective;
    }
  }

  lemma ObjectiveIsPoints(w: State, p: Player)
    ensures Objective(w)(p) == Points(w.modes, p)
  {
  }

  predicate ByTeams(m: Modes) {
    m.team || (m.ctf && !m.hill && !m.dom)
  }

  /** Without teams the match goes to the player who did best at what the mode is about. */
  lemma WinnerIsBest(w: State)
    requires WorldOk(w) && !ByTeams(w.modes) && w.order != []
    ensures Best(w, w.order, EndMatch(w).winner)
  {
    hide PlayersOk, ShotsOk, Best, LeaderOf;
    LeadersSoFar(w, w.order);
    assert w.order[0] in w.order && w.order[0] in w.players;
  }

  /** The points of the members of a team, added up. */
  ghost function TeamPoints(w: State, ids: seq<nat>, team: nat): nat {
    if ids == [] then 0
    else
      (if ids[0] in w.players && w.players[ids[0]].team == team then Points(w.modes, w.players[ids[0]]) else 0)
      + TeamPoints(w, ids[1..], team)
  }

  lemma {:induction false} PointsOfOneMore(w: State, ids: seq<nat>, id: nat, team: nat)
    ensures TeamPoints(w, ids + [id], team) == TeamPoints(w, ids, team)
      + if id in w.players && w.players[id].team == team then Points(w.modes, w.players[id]) else 0
    decreases |ids|
  {
    hide Points;
    if ids == [] {
      assert ([] + [id])[1..] == [];
    } else {
      PointsOfOneMore(w, ids[1..], id, team);
      assert (ids + [id])[1..] == ids[1..] + [id];
    }
  }

  lemma {:induction false} TeamSumIsPoints(w: State, ids: seq<nat>, team: nat)
    requires team <= 1 && forall id :: id in w.players ==> w.players[id].team <= 1
    ensures TeamSum(w, ids, team, Objective(w)) == TeamPoints(w, ids, team)
  {
    if ids != [] {
      var n := |ids| - 1;
      TeamSumIsPoints(w, ids[..n], team);
      PointsOfOneMore(w, ids[..n], ids[n], team);
      assert ids == ids[..n] + [ids[n]];
      if ids[n] in w.players {
        ObjectiveIsPoints(w, w.players[ids[n]]);
      }
      hide Points, Objective;
    }
  }

  /** With teams it goes to the team with more points in all, and to team 0 on a tie. */
  lemma WinningTeamIsBest(w: State)
    requires WorldOk(w) && ByTeams(w.modes)
    ensures var zero, one := TeamPoints(w, w.order, 0), TeamPoints(w, w.order, 1);
      EndMatch(w).winner == if one > zero then 1 else 0
  {
    TeamsAreTwo(w);
    hide WorldOk, Objective;
    TeamSumIsPoints(w, w.order, 0);
    TeamSumIsPoints(w, w.order, 1);
  }

  lemma TeamsAreTwo(w: State)
    requires WorldOk(w)
    ensures forall id :: id in w.players ==> w.players[id].team <= 1
  {
    hide Legal, ShotsOk, OrderOk;
  }

  // ----- control zones

  /** A contested zone gives nothing: whoever scores in it is on one side. */
  lemma ContestedZoneIsIdle(w: State, z: Zone, a: nat, b: nat)
    requires a in w.players && b in w.order && Inside(w, z, b) && !SameSide(w, a, b)
    ensures ScoreZone(w, z).players[a] == w.players[a]
  {
    hide Reaches;
  }

  /** The control points lie so far apart that nobody is inside two of them. */
  lemma PointsApart(p: Player, i: nat, j: nat)
    requires i < j < 3 && Reaches(p, DOM_POINTS[i].x, DOM_POINTS[i].y, DOM_RADIUS)
    ensures !Reaches(p, DOM_POINTS[j].x, DOM_POINTS[j].y, DOM_RADIUS)
  {
    hide Sq;
    var (a, b) := (DOM_POINTS[i], DOM_POINTS[j]);
    if Reaches(p, b.x, b.y, DOM_RADIUS) {
      WithinReach(p.move.x - a.x, p.move.y - a.y, DOM_RADIUS);
      WithinReach(p.move.x - b.x, p.move.y - b.y, DOM_RADIUS);
    }
  }

  lemma WithinReach(dx: real, dy: real, r: real)
    requires r > 0.0 && Sq(dx) + Sq(dy) <= Sq(r)
    ensures -r <= dx <= r && -r <= dy <= r
  {
    hide Sq;
    SqSigns(dx);
    SqSigns(dy);
    AxisBound(dx, r);
    AxisBound(dy, r);
  }

  /** So a player gets at most one point of domination a tick. */
  lemma OnePointATick(w: State, id: nat)
    requires id in w.players
    ensures id in StepDomination(w).players
    ensures w.players[id].domScore <= StepDomination(w).players[id].domScore <= w.players[id].domScore + 1
  {
    var (w1, w2) := (ScoreZone(w, DOM_POINTS[0]), ScoreZone(ScoreZone(w, DOM_POINTS[0]), DOM_POINTS[1]));
    PointsApartFor(w.players[id]);
    ScoredPlayer(w, DOM_POINTS[0], id);
    ScoredPlayer(w1, DOM_POINTS[1], id);
    ScoredPlayer(w2, DOM_POINTS[2], id);
    hide Reaches, Holds, ScoreZone;
  }

  lemma ScoredPlayer(w: State, z: Zone, id: nat)
    requires id in w.players && !z.hill
    ensures id in ScoreZone(w, z).players
    ensures var (p, p') := (w.players[id], ScoreZone(w, z).players[id]);
      && p'.move == p.move && p.domScore <= p'.domScore <= p.domScore + 1
      && (p'.domScore != p.domScore ==> Reaches(p, z.x, z.y, z.r))
  {
    hide Reaches;
  }

  lemma PointsApartFor(p: Player)
    ensures forall i, j :: 0 <= i < j < 3 && Reaches(p, DOM_POINTS[i].x, DOM_POINTS[i].y, DOM_RADIUS) ==>
      !Reaches(p, DOM_POINTS[j].x, DOM_POINTS[j].y, DOM_RADIUS)
  {
    hide Reaches;
    forall i, j | 0 <= i < j < 3 && Reaches(p, DOM_POINTS[i].x, DOM_POINTS[i].y, DOM_RADIUS)
      ensures !Reaches(p, DOM_POINTS[j].x, DOM_POINTS[j].y, DOM_RADIUS)
    {
      PointsApart(p, i, j);
    }
  }

  // ----- pickups

  ghost predicate OnSpot(w: State, id: nat, spot: Pos) {
    id in w.players && !w.players[id].dead && Reaches(w.players[id], spot.x, spot.y, PLAYER_RADIUS + PICKUP_RADIUS)
  }

  /** The pickup goes to the least living id on the spot, if anybody is. */
  lemma {:induction false} TakerIsLeast(w: State, spot: Pos, ids: seq<nat>)
    requires HitGrid.AscendingIds(ids)
    ensures var t := Taker(w, spot, ids);
      && (t.Some? ==> t.value in ids && OnSpot(w, t.value, spot))
      && forall id :: id in ids && OnSpot(w, id, spot) ==> t.Some? && t.value <= id
    decreases |ids|
  {
    hide Reaches;
    if ids != [] {
      assert ids == [ids[0]] + ids[1..];
      TakerIsLeast(w, spot, ids[1..]);
      forall id | id in ids[1..]
        ensures ids[0] < id
      {
      }
    }
  }

  // ----- damage

  /** What is left of a player after `dmg`: less health, or a death on the spot that counts
      and starts the wait of 60 ticks. */
  ghost function HurtBy(p: Player, tick: nat, dmg: nat): Player {
    if dmg < p.hp then p.(hp := p.hp - dmg)
    else p.(hp := 0, dead := true, respawnAt := tick + 60, move := p.move.(vx := 0.0, vy := 0.0),
            deaths := p.deaths + 1, streak := 0)
  }

  /** What a player is after `frags` more kills: every third of a streak heals and shields. */
  ghost function WithFrags(p: Player, tick: nat, frags: nat): Player {
    var streak := p.streak + frags;
    var q := p.(kills := p.kills + frags, streak := streak);
    if streak / 3 > p.streak / 3 then q.(hp := 100, invulnUntil := tick + 45) else q
  }

  /** The reports of one hit, in order. */
  ghost function HitReports(w: State, victim: nat, attacker: nat, dmg: nat): seq<Event>
    requires victim in w.players
  {
    var hp := w.players[victim].hp;
    if dmg < hp then [Hit(attacker, victim, dmg, hp - dmg)]
    else
      [Hit(attacker, victim, dmg, 0), Death(attacker, victim)]
      + if attacker in w.players && (w.players[attacker].streak + 1) % 3 == 0
        then [Killstreak(attacker, w.players[attacker].streak + 1)] else []
  }

  /** A hit takes its damage from the victim's health, no more than there is, kills exactly
      when nothing is left, pays the frag to an attacker that is still there, and touches
      nothing else. */
  lemma HitCosts(w: State, victim: nat, attacker: nat, dmg: nat)
    requires WorldOk(w) && HitGrid.Living(w, victim) && attacker != victim
    ensures var p := w.players[victim];
      var frag := dmg >= p.hp && attacker in w.players;
      var hurt := w.players[victim := HurtBy(p, w.tick, dmg)];
      ApplyDamage(w, victim, attacker, dmg) == w.(
        players := if frag then hurt[attacker := WithFrags(w.players[attacker], w.tick, 1)] else hurt,
        events := w.events + HitReports(w, victim, attacker, dmg))
  {
    PlayerIds(w);
    hide WorldOk, HurtBy, WithFrags;
    if dmg >= w.players[victim].hp {
      KillCosts(w, victim, attacker, dmg);
    } else {
      WoundCosts(w, victim, attacker, dmg);
    }
  }

  lemma WoundCosts(w: State, victim: nat, attacker: nat, dmg: nat)
    requires OwnIds(w) && victim in w.players && dmg < w.players[victim].hp
    ensures ApplyDamage(w, victim, attacker, dmg) == w.(
      players := w.players[victim := HurtBy(w.players[victim], w.tick, dmg)],
      events := w.events + HitReports(w, victim, attacker, dmg))
  {
  }

  lemma KillCosts(w: State, victim: nat, attacker: nat, dmg: nat)
    requires OwnIds(w) && victim in w.players && 0 < w.players[victim].hp <= dmg && attacker != victim
    ensures var hurt := w.players[victim := HurtBy(w.players[victim], w.tick, dmg)];
      ApplyDamage(w, victim, attacker, dmg) == w.(
        players := if attacker in w.players then hurt[attacker := WithFrags(w.players[attacker], w.tick, 1)] else hurt,
        events := w.events + HitReports(w, victim, attacker, dmg))
  {
    hide WithFrags, RecordKill;
    var p := Wounded(w.players[victim], dmg);
    var w2 := w.(players := w.players[victim := HurtBy(w.players[victim], w.tick, dmg)],
                 events := w.events + [Hit(attacker, victim, dmg, 0), Death(attacker, victim)]);
    var w1 := Put(w, p).(events := w.events + [Hit(attacker, victim, dmg, 0)]);
    assert w1.players[victim := Killed(p, w.tick)] == w2.players;
    assert w2 == Put(w1, Killed(p, w.tick)).(events := w1.events + [Death(attacker, victim)]);
    assert ApplyDamage(w, victim, attacker, dmg) == Credit(w2, victim, attacker);
    if attacker in w.players {
      FragPays(w2, attacker);
    }
  }

  lemma FragPays(w: State, id: nat)
    requires id in w.players && w.players[id].id == id
    ensures var p := w.players[id];
      RecordKill(Put(w, p.(kills := p.kills + 1)), id) == w.(
        players := w.players[id := WithFrags(p, w.tick, 1)],
        events := w.events + if (p.streak + 1) % 3 == 0 then [Killstreak(id, p.streak + 1)] else [])
  {
  }

  // ----- blasts

  lemma RootMonotone(root: real -> real, a: real, b: real)
    requires IsRoot(root) && 0.0 <= a <= b
    ensures 0.0 <= root(a) <= root(b)
  {
    hide Mul;
    if root(b) < root(a) {
      SqStrict(root(b), root(a));
    }
  }

  /** Nearer to the centre of a blast never hurts less. */
  lemma NearerHurtsMore(env: Env, spec: WeaponSpec, near: real, far: real)
    requires IsRoot(env.root) && spec.splashRadius > 0.0 && 0.0 <= near <= far
    ensures SplashDamage(env, spec, far) <= SplashDamage(env, spec, near)
  {
    var (r, s) := (spec.splashRadius, spec.splashDamage as real);
    RootMonotone(env.root, near, far);
    var (a, b) := (env.root(near), env.root(far));
    assert Quot(a, r) <= Quot(b, r) by {
      QuotMono(a, b, r);
    }
    hide Mul, Quot, IsRoot;
    MulMono(1.0 - Quot(b, r), 1.0 - Quot(a, r), s);
  }

  lemma QuotMono(a: real, b: real, r: real)
    requires a <= b && r > 0.0
    ensures Quot(a, r) <= Quot(b, r)
  {
    DivMul(a, r);
    DivMul(b, r);
    hide Mul;
    if b / r < a / r {
      MulStrict(b / r, a / r, r);
    }
  }

  lemma QuotUnits(r: real)
    requires r > 0.0
    ensures Quot(0.0, r) == 0.0 && Quot(r, r) == 1.0
  {
    DivMul(r, r);
    MulUnits(r);
    hide Mul;
    if r / r < 1.0 {
      MulStrict(r / r, 1.0, r);
    } else if r / r > 1.0 {
      MulStrict(1.0, r / r, r);
    }
  }

  /** At the centre a blast does its full damage, and on its rim none. */
  lemma BlastExtremes(env: Env, spec: WeaponSpec)
    requires IsRoot(env.root) && spec.splashRadius > 0.0
    ensures SplashDamage(env, spec, 0.0) == spec.splashDamage && SplashDamage(env, spec, Sq(spec.splashRadius)) == 0
  {
    var (r, s) := (spec.splashRadius, spec.splashDamage as real);
    SqSigns(r);
    SqSigns(0.0);
    RootOfSquare(env.root, 0.0);
    RootOfSquare(env.root, r);
    QuotUnits(r);
    hide Mul, Quot, IsRoot;
    MulUnits(s);
  }

  lemma RootOfSquare(root: real -> real, v: real)
    requires IsRoot(root) && v >= 0.0
    ensures root(Sq(v)) == v
  {
    hide Mul;
    SqSigns(v);
    var d := root(Sq(v));
    if d < v {
      SqStrict(d, v);
    } else if v < d {
      SqStrict(v, d);
    }
  }

  // ----- teams

  ghost predicate Plays(w: State, id: nat, team0: bool) {
    id in w.players && (w.players[id].team == 0) == team0
  }

  ghost function Members(w: State, ids: seq<nat>, team0: bool): set<nat> {
    set id | id in ids && Plays(w, id, team0)
  }

  lemma MembersOfOneMore(w: State, front: seq<nat>, id: nat, team0: bool)
    requires id !in front
    ensures |Members(w, front + [id], team0)| == |Members(w, front, team0)| + if Plays(w, id, team0) then 1 else 0
  {
    hide Plays;
    var (before, after) := (Members(w, front, team0), Members(w, front + [id], team0));
    assert after == if Plays(w, id, team0) then before + {id} else before;
  }

  lemma {:induction false} TeamCountIsSize(w: State, ids: seq<nat>, team0: bool)
    requires HitGrid.AscendingIds(ids)
    ensures TeamCount(w, ids, team0) == |Members(w, ids, team0)|
  {
    if ids != [] {
      var (front, id) := (ids[..|ids| - 1], ids[|ids| - 1]);
      assert ids == front + [id] && id !in front;
      hide Members;
      TeamCountIsSize(w, front, team0);
      MembersOfOneMore(w, front, id, team0);
    }
  }

  /** In team mode the player that joins is seated in the smaller team, in team 0 on a tie. */
  lemma JoinBalances(env: Env, w: State, name: Bytes)
    requires WorldOk(w) && w.modes.team
    ensures var (w', r) := AddPlayer(env, w, name);
      var (zero, rest) := (|Members(w, w.order, true)|, |Members(w, w.order, false)|);
      r.Some? ==> r.value in w'.players && w'.players[r.value].team == if rest < zero then 1 else 0
  {
    OrderAscends(w);
    TeamCountIsSize(w, w.order, true);
    TeamCountIsSize(w, w.order, false);
    hide Alloc, SpawnPoint, InsertId, TeamCount, WorldOk, Members;
  }

  lemma OrderAscends(w: State)
    requires WorldOk(w)
    ensures HitGrid.AscendingIds(w.order)
  {
  }
}
