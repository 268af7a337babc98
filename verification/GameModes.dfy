/** What the rules of the modes come to for each player, internal/game: the control zones,
    the pickups, the flags, and the start and end of a match. */
module GameModes {
  import opened Wrappers
  import opened Wire
  import opened Reals
  import opened Walls
  import opened Movement
  import opened Arena
  import opened Ids
  import HitGrid
  import opened Rules
  import opened WorldInvariant
  import opened FairPlay
  import S = Sessions
  import J = Journey

  /** Within `r` of a point of the map. */
  ghost predicate Near(p: Player, x: real, y: real, r: real) {
    Sq(p.move.x - x) + Sq(p.move.y - y) <= Sq(r)
  }

  ghost predicate LivingNear(w: State, id: nat, x: real, y: real, r: real) {
    id in w.players && !w.players[id].dead && Near(w.players[id], x, y, r)
  }

  // ----- control zones

  /** Alive in the zone, with nobody of another side alive in it: one's own team in a team
      game, nobody else at all in any other. */
  ghost predicate Commands(w: State, id: nat, x: real, y: real, r: real)
    requires id in w.players
  {
    && LivingNear(w, id, x, y, r)
    && forall o :: LivingNear(w, o, x, y, r) ==>
      if w.modes.team then w.players[o].team == w.players[id].team else o == id
  }

  lemma HoldsIsCommands(w: State, z: Zone, id: nat)
    requires WorldOk(w) && id in w.players
    ensures Holds(w, z, id) <==> Commands(w, id, z.x, z.y, z.r)
  {
    hide ShotsOk, HitGrid.AscendingIds, Legal, Sq;
    forall o
      ensures LivingNear(w, o, z.x, z.y, z.r) <==> o in w.order && Inside(w, z, o)
      ensures o in w.players ==> w.players[o].team <= 1
    {
    }
    hide PlayersOk, OrderOk, Near, Inside;
  }

  /** On the hill, the 300 around the middle of the map, a commander gets a point a tick. */
  lemma HillPays(w: State, id: nat)
    requires WorldOk(w) && id in w.players
    ensures var (p, w') := (w.players[id], StepHill(w));
      && id in w'.players
      && w'.players[id] ==
         if w.modes.hill && w.phase.Active? && Commands(w, id, 2048.0, 2048.0, 300.0)
         then p.(hillScore := p.hillScore + 1) else p
  {
    HoldsIsCommands(w, HILL, id);
    hide Holds, Commands, WorldOk;
  }

  ghost function Point(b: bool): nat {
    if b then 1 else 0
  }

  /** At each of three points, the 256 around it, a commander gets a point a tick. */
  lemma DominationPays(w: State, id: nat)
    requires WorldOk(w) && id in w.players
    ensures var (p, w') := (w.players[id], StepDomination(w));
      var points := Point(Commands(w, id, 1024.0, 1024.0, 256.0)) + Point(Commands(w, id, 3072.0, 1024.0, 256.0))
                    + Point(Commands(w, id, 2048.0, 3300.0, 256.0));
      && id in w'.players
      && w'.players[id] == if w.modes.dom && w.phase.Active? then p.(domScore := p.domScore + points) else p
  {
    hide WorldOk, Commands;
    if w.modes.dom && w.phase.Active? {
      var (a, b, c) := (DOM_POINTS[0], DOM_POINTS[1], DOM_POINTS[2]);
      var w1 := ScoreZone(w, a);
      var w2 := ScoreZone(w1, b);
      ZonePays(w, w, a, id);
      ZoneKeeps(w, w, a);
      ZonePays(w, w1, b, id);
      ZoneKeeps(w, w1, b);
      ZonePays(w, w2, c, id);
      hide ScoreZone;
    }
  }

  /** The worlds between two control points differ in the scores alone. */
  ghost predicate SameField(w: State, s: State) {
    && WorldOk(s) && s.modes == w.modes && s.players.Keys == w.players.Keys
    && forall id :: id in w.players ==>
      && s.players[id].move == w.players[id].move && s.players[id].dead == w.players[id].dead
      && s.players[id].team == w.players[id].team
  }

  lemma ZoneKeeps(w: State, s: State, z: Zone)
    requires WorldOk(w) && SameField(w, s)
    ensures SameField(w, ScoreZone(s, z))
  {
    ScoreZoneOk(s, z);
    hide WorldOk, Holds;
  }

  lemma ZonePays(w: State, s: State, z: Zone, id: nat)
    requires WorldOk(w) && SameField(w, s) && id in w.players && !z.hill
    ensures var p := s.players[id];
      && id in ScoreZone(s, z).players
      && ScoreZone(s, z).players[id] == p.(domScore := p.domScore + Point(Commands(w, id, z.x, z.y, z.r)))
  {
    HoldsIsCommands(s, z, id);
    SameCommand(w, s, id, z.x, z.y, z.r);
    hide WorldOk, Holds, Commands, SameField;
  }

  lemma SameCommand(w: State, s: State, id: nat, x: real, y: real, r: real)
    requires SameField(w, s) && id in w.players
    ensures id in s.players && (Commands(s, id, x, y, r) <==> Commands(w, id, x, y, r))
  {
    hide WorldOk, Sq;
    forall o
      ensures LivingNear(s, o, x, y, r) <==> LivingNear(w, o, x, y, r)
    {
    }
    hide LivingNear;
  }

  // ----- pickups

  /** The five places of the map where pickups appear. */
  function SpotAt(i: nat): Pos {
    if i == 0 then Pos(700.0, 700.0) else if i == 1 then Pos(3396.0, 700.0) else if i == 2 then Pos(700.0, 3396.0)
    else if i == 3 then Pos(3396.0, 3396.0) else Pos(2048.0, 3300.0)
  }

  /** A medkit heals 50 up to full health; the other two last 180 ticks. */
  ghost function Boosted(p: Player, kind: nat, tick: nat): Player {
    if kind == 1 then p.(hp := if p.hp <= 50 then p.hp + 50 else 100)
    else if kind == 2 then p.(rapidUntil := tick + 180)
    else if kind == 3 then p.(spreadUntil := tick + 180)
    else p
  }

  /** Who takes what lies at spot `i`: the least id alive within 34 of it. */
  ghost predicate Takes(w: State, i: nat, id: nat) {
    var spot := SpotAt(i);
    && LivingNear(w, id, spot.x, spot.y, 34.0)
    && forall o :: LivingNear(w, o, spot.x, spot.y, 34.0) ==> id <= o
  }

  /** One spot in one tick: an empty one fills when its time has come, with one of three
      kinds; a full one goes to its taker, if there is one, and stays empty for 240 ticks. */
  ghost predicate SpotTurn(w: State, i: nat, w': State)
    requires i < |w.pickups|
  {
    var ps := w.pickups[i];
    if !ps.active then
      if w.tick < ps.readyAt then w' == w
      else
        && i < |w'.pickups| && 1 <= w'.pickups[i].kind <= 3
        && w' == w.(pickups := w.pickups[i := Pickup(true, w'.pickups[i].kind, ps.readyAt)], rng := w'.rng)
    else
      && (forall id :: Takes(w, i, id) && id in w.players ==>
        w' == w.(pickups := w.pickups[i := Pickup(false, ps.kind, w.tick + 240)],
                 players := w.players[id := Boosted(w.players[id], ps.kind, w.tick)]))
      && ((forall id :: !Takes(w, i, id)) ==> w' == w)
  }

  lemma StepPickupTurns(env: Env, w: State, i: nat)
    requires EnvOk(env) && WorldOk(w) && i < 5
    ensures i < |w.pickups| && SpotTurn(w, i, StepPickup(env, w, i))
  {
    WorldShape(w);
    hide WorldOk, EnvOk, Takes, Taker, Blessed, Boosted;
    KindsInRange(env, w);
    if w.pickups[i].active {
      TakerTakes(w, i);
      var t := Taker(w, PICKUP_SPOTS[i], w.order);
      if t.Some? {
        forall id | Takes(w, i, id)
          ensures id == t.value
        {
          OneTaker(w, i, id, t.value);
        }
        BlessedIsBoosted(w.players[t.value], w.pickups[i].kind, w.tick);
      }
    }
  }

  lemma WorldShape(w: State)
    requires WorldOk(w)
    ensures OwnIds(w) && HitGrid.AscendingIds(w.order) && (forall id :: id in w.players <==> id in w.order)
    ensures |w.pickups| == 5 && |w.flags| == 2
    ensures forall id :: id in w.players ==> w.players[id].hp <= 100 && w.players[id].team <= 1
  {
    hide Legal, ShotsOk;
  }

  lemma KindsInRange(env: Env, w: State)
    requires EnvOk(env)
    ensures env.pick(w.rng) < 3
  {
  }

  lemma BlessedIsBoosted(p: Player, kind: nat, tick: nat)
    requires p.hp <= 100
    ensures Blessed(p, kind, tick) == Boosted(p, kind, tick) && Blessed(p, kind, tick).id == p.id
  {
  }

  lemma OneTaker(w: State, i: nat, a: nat, b: nat)
    requires Takes(w, i, a) && Takes(w, i, b)
    ensures a == b
  {
    hide LivingNear;
  }

  lemma TakerTakes(w: State, i: nat)
    requires WorldOk(w) && i < 5
    ensures var t := Taker(w, PICKUP_SPOTS[i], w.order);
      && (t.Some? ==> t.value in w.players && Takes(w, i, t.value))
      && (t.None? ==> forall id :: !Takes(w, i, id))
  {
    WorldShape(w);
    hide WorldOk, Sq, Taker;
    var spot := PICKUP_SPOTS[i];
    TakerIsLeast(w, spot, w.order);
    assert spot == SpotAt(i);
    forall id
      ensures LivingNear(w, id, spot.x, spot.y, 34.0) <==> id in w.order && OnSpot(w, id, spot)
    {
    }
    hide LivingNear, OnSpot;
  }

  /** All five spots, one after the other. */
  lemma StepPickupsTurns(env: Env, w: State) returns (ws: seq<State>)
    requires EnvOk(env) && WorldOk(w)
    ensures |ws| == 6 && ws[0] == w && ws[5] == StepPickups(env, w)
    ensures forall i :: 0 <= i < 5 ==> i < |ws[i].pickups| && SpotTurn(ws[i], i, ws[i + 1])
  {
    hide WorldOk, EnvOk, SpotTurn, StepPickup;
    var (f, spots) := (PickupOf(env), [0, 1, 2, 3, 4]);
    ws := [w];
    for k := 0 to 5
      invariant |ws| == k + 1 && ws[0] == w && ws[k] == Fold(f, w, spots[..k]) && WorldOk(ws[k])
      invariant forall i :: 0 <= i < k ==> i < |ws[i].pickups| && SpotTurn(ws[i], i, ws[i + 1])
    {
      FoldStep(f, w, spots, k);
      StepPickupOk(env, ws[k], k);
      StepPickupTurns(env, ws[k], k);
      ws := ws + [StepPickup(env, ws[k], k)];
    }
    assert spots[..5] == spots;
  }

  // ----- flags

  function BaseAt(team: nat): Pos {
    if team == 0 then Pos(512.0, 2048.0) else Pos(3584.0, 2048.0)
  }

  function Home(team: nat): Flag {
    Flag(AtBase, 0, BaseAt(team).x, BaseAt(team).y, 0)
  }

  /** A flag moves with a living carrier, falls where its carrier died, goes home when the
      carrier is gone or after 600 ticks on the ground. */
  ghost function Tended(w: State, i: nat): Flag
    requires i < |w.flags|
  {
    var f := w.flags[i];
    match f.status
    case AtBase => f
    case Dropped => if w.tick >= f.dropAt then Home(i) else f
    case Carried =>
      if f.carrier !in w.players then Home(i)
      else
        var p := w.players[f.carrier];
        if p.dead then Flag(Dropped, 0, p.move.x, p.move.y, w.tick + 600) else f.(x := p.move.x, y := p.move.y)
  }

  lemma TendFlagIs(w: State, i: nat)
    requires |w.flags| == 2 && i < 2
    ensures TendFlag(w, i) == w.(flags := w.flags[i := Tended(w, i)])
  {
    assert w.flags[i := w.flags[i]] == w.flags;
  }

  /** A flag that nobody carries, with a living player within 44 of it: its own team brings
      it home from the ground, the other team takes it. */
  ghost function Touched(w: State, id: nat, i: nat): Flag
    requires i < |w.flags|
  {
    var f := w.flags[i];
    var at := if f.status.AtBase? then BaseAt(i) else Pos(f.x, f.y);
    if f.status.Carried? || !LivingNear(w, id, at.x, at.y, 44.0) then f
    else if w.players[id].team == i then (if f.status.Dropped? then Home(i) else f)
    else Flag(Carried, id, w.players[id].move.x, w.players[id].move.y, f.dropAt)
  }

  lemma TouchFlagIs(w: State, id: nat, i: nat)
    requires WorldOk(w) && i < 2
    ensures |w.flags| == 2 && TouchFlag(w, id, i) == w.(flags := w.flags[i := Touched(w, id, i)])
  {
    WorldShape(w);
    hide WorldOk, Sq;
    assert w.flags[i := w.flags[i]] == w.flags;
  }

  /** Alive within 80 of one's own base, one's own flag home, the other one in hand. */
  ghost predicate Scores(w: State, id: nat) {
    && |w.flags| == 2 && id in w.players && w.players[id].team <= 1
    && var t := w.players[id].team;
    && LivingNear(w, id, BaseAt(t).x, BaseAt(t).y, 80.0)
    && w.flags[t].status.AtBase? && w.flags[1 - t].status.Carried? && w.flags[1 - t].carrier == id
  }

  lemma CanCaptureIsScores(w: State, id: nat)
    requires WorldOk(w)
    ensures CanCapture(w, id) <==> Scores(w, id)
  {
    WorldShape(w);
    hide WorldOk, Sq;
  }

  /** A capture counts one for the player and sends the flag home. */
  ghost function Captured(w: State, id: nat): State {
    if Scores(w, id) then
      var p := w.players[id];
      w.(players := w.players[id := p.(captures := p.captures + 1)],
         flags := w.flags[1 - p.team := Home(1 - p.team)], events := w.events + [Capture(id)])
    else w
  }

  lemma CaptureFlagIs(w: State, id: nat)
    requires WorldOk(w)
    ensures CaptureFlag(w, id) == Captured(w, id)
  {
    CanCaptureIsScores(w, id);
    WorldShape(w);
    hide WorldOk, Near;
  }

  /** The flags after one player passed both. */
  ghost function Passed(w: State, id: nat): State
    requires |w.flags| == 2
  {
    w.(flags := [Touched(w, id, 0), Touched(w, id, 1)])
  }

  lemma TouchFlagsIs(w: State, id: nat)
    requires WorldOk(w)
    ensures |w.flags| == 2 && TouchFlags(w, id) == Passed(w, id) && WorldOk(Passed(w, id))
  {
    hide WorldOk, TouchFlag, Touched;
    TouchFlagIs(w, id, 0);
    TouchFlagOk(w, id, 0);
    var w1 := TouchFlag(w, id, 0);
    TouchFlagIs(w1, id, 1);
    TouchFlagOk(w1, id, 1);
    TouchedAlike(w, w1, id);
    assert w.flags[0 := Touched(w, id, 0)][1 := Touched(w, id, 1)] == [Touched(w, id, 0), Touched(w, id, 1)];
  }

  lemma TouchedAlike(w: State, w1: State, id: nat)
    requires w1.players == w.players && |w.flags| == |w1.flags| == 2 && w1.flags[1] == w.flags[1]
    ensures Touched(w1, id, 1) == Touched(w, id, 1)
  {
  }

  /** One tick of the flags, when the match is on: both are tended, then each player in order
      passes them, then each in order may score. `ts` and `cs` are the worlds on the way. */
  lemma StepCTFTurns(w: State) returns (ts: seq<State>, cs: seq<State>)
    requires WorldOk(w)
    ensures !(w.modes.ctf && w.modes.team && w.phase.Active?) ==> StepCTF(w) == w
    ensures |w.flags| == 2 && |ts| == |cs| == |w.order| + 1
    ensures ts[0] == w.(flags := [Tended(w, 0), Tended(w, 1)])
    ensures forall k :: 0 <= k < |w.order| ==> |ts[k].flags| == 2 && ts[k + 1] == Passed(ts[k], w.order[k])
    ensures cs[0] == ts[|w.order|]
    ensures forall k :: 0 <= k < |w.order| ==> cs[k + 1] == Captured(cs[k], w.order[k])
    ensures w.modes.ctf && w.modes.team && w.phase.Active? ==> StepCTF(w) == cs[|w.order|]
  {
    hide WorldOk, Tended, Passed, Captured, CaptureFlag, TouchFlags, TendFlag;
    var w1 := TendsIs(w);
    ts := PassedAll(w1, w.order);
    cs := CapturedAll(ts[|w.order|], w.order);
    OrderKept(w1);
  }

  lemma TendsIs(w: State) returns (w1: State)
    requires WorldOk(w)
    ensures WorldOk(w1) && w1 == TendFlag(TendFlag(w, 0), 1) && w1.order == w.order && |w.flags| == 2
    ensures w1 == w.(flags := [Tended(w, 0), Tended(w, 1)])
  {
    WorldShape(w);
    hide WorldOk, TendFlag;
    TendFlagOk(w, 0);
    var s := TendFlag(w, 0);
    TendFlagIs(w, 0);
    TendFlagIs(s, 1);
    TendFlagOk(s, 1);
    w1 := TendFlag(s, 1);
    assert Tended(s, 1) == Tended(w, 1);
    assert w.flags[0 := Tended(w, 0)][1 := Tended(w, 1)] == [Tended(w, 0), Tended(w, 1)];
  }

  lemma OrderKept(w: State)
    requires WorldOk(w)
    ensures Touches(w).order == w.order
  {
    TouchesOk(w);
    hide WorldOk, Touches;
  }

  lemma PassedAll(w: State, ids: seq<nat>) returns (ts: seq<State>)
    requires WorldOk(w)
    ensures |ts| == |ids| + 1 && ts[0] == w && ts[|ids|] == Fold(TouchOf(), w, ids) && WorldOk(ts[|ids|])
    ensures forall k :: 0 <= k < |ids| ==> |ts[k].flags| == 2 && ts[k + 1] == Passed(ts[k], ids[k])
  {
    hide WorldOk, Passed, TouchFlags;
    ts := [w];
    for k := 0 to |ids|
      invariant |ts| == k + 1 && ts[0] == w && ts[k] == Fold(TouchOf(), w, ids[..k]) && WorldOk(ts[k])
      invariant forall j :: 0 <= j < k ==> |ts[j].flags| == 2 && ts[j + 1] == Passed(ts[j], ids[j])
    {
      FoldStep(TouchOf(), w, ids, k);
      TouchFlagsIs(ts[k], ids[k]);
      ts := ts + [TouchFlags(ts[k], ids[k])];
    }
    assert ids[..|ids|] == ids;
  }

  lemma CapturedAll(w: State, ids: seq<nat>) returns (cs: seq<State>)
    requires WorldOk(w)
    ensures |cs| == |ids| + 1 && cs[0] == w && cs[|ids|] == Fold(CaptureOf(), w, ids)
    ensures forall k :: 0 <= k < |ids| ==> cs[k + 1] == Captured(cs[k], ids[k])
  {
    hide WorldOk, Captured, CaptureFlag;
    cs := [w];
    for k := 0 to |ids|
      invariant |cs| == k + 1 && cs[0] == w && cs[k] == Fold(CaptureOf(), w, ids[..k]) && WorldOk(cs[k])
      invariant forall j :: 0 <= j < k ==> cs[j + 1] == Captured(cs[j], ids[j])
    {
      FoldStep(CaptureOf(), w, ids, k);
      CaptureFlagIs(cs[k], ids[k]);
      CaptureFlagOk(cs[k], ids[k]);
      cs := cs + [CaptureFlag(cs[k], ids[k])];
    }
    assert ids[..|ids|] == ids;
  }

  // ----- no capture is missed

  /** A capture leaves nobody a second one that was not there before. */
  lemma CaptureSettles(w: State, k: nat, id: nat)
    requires WorldOk(w)
    ensures !Scores(CaptureFlag(w, k), k)
    ensures !Scores(w, id) ==> !Scores(CaptureFlag(w, k), id)
  {
    CaptureFlagIs(w, k);
    WorldShape(w);
    hide WorldOk, Sq;
  }

  lemma {:induction false} CapturesSettle(w: State, ids: seq<nat>)
    requires WorldOk(w)
    ensures var w' := Fold(CaptureOf(), w, ids);
      && WorldOk(w') && w'.players.Keys == w.players.Keys
      && forall id :: id in ids ==> !Scores(w', id)
  {
    hide WorldOk, Scores, CaptureFlag;
    if ids != [] {
      var n := |ids| - 1;
      CapturesSettle(w, ids[..n]);
      var s := Fold(CaptureOf(), w, ids[..n]);
      CaptureFlagOk(s, ids[n]);
      assert ids == ids[..n] + [ids[n]];
      forall id | id in ids
        ensures !Scores(CaptureFlag(s, ids[n]), id)
      {
        CaptureSettles(s, ids[n], id);
      }
    }
  }

  /** After a tick of the flags nobody stands at home with the other flag in hand and its own
      flag in place: every capture that could be made was counted. */
  lemma NoCaptureIsMissed(w: State, id: nat)
    requires WorldOk(w) && w.modes.ctf && w.modes.team && w.phase.Active?
    ensures !Scores(StepCTF(w), id)
  {
    hide WorldOk, Scores, TendFlag, CaptureFlag, TouchFlag;
    var w1 := TendFlag(TendFlag(w, 0), 1);
    TendFlagOk(w, 0);
    TendFlagOk(TendFlag(w, 0), 1);
    TouchesOk(w1);
    var w2 := Touches(w1);
    CapturesSettle(w2, w2.order);
    WorldShape(w2);
    NoScoreUnlisted(Captures(w2), id);
    hide Touches;
  }

  lemma NoScoreUnlisted(w: State, id: nat)
    ensures Scores(w, id) ==> id in w.players
  {
  }

  // ----- where a life begins

  /** The generator after `k` throws of two coordinates each. */
  function Thrown(env: Env, rng: int, k: nat): int {
    if k == 0 then rng else env.afterUnit(env.afterUnit(Thrown(env, rng, k - 1)))
  }

  /** Throw `k`: a point of the map at least 128 from its border. */
  function Throw(env: Env, rng: int, k: nat): Pos {
    var r := Thrown(env, rng, k);
    Pos(128.0 + Mul(env.unit(r), 3840.0), 128.0 + Mul(env.unit(env.afterUnit(r)), 3840.0))
  }

  /** Does a throw leave 48 between the player and every wall? */
  predicate Roomy(env: Env, rng: int, k: nat) {
    var at := Throw(env, rng, k);
    ClearOf(WALLS, at.x, at.y, 64.0)
  }

  ghost predicate Standing(m: MoveState, x: real, y: real) {
    m == MoveState(x, y, 0.0, 0.0, 0.0, 0.0)
  }

  lemma ThrownNext(env: Env, rng: int, k: nat)
    ensures Thrown(env, env.afterUnit(env.afterUnit(rng)), k) == Thrown(env, rng, k + 1)
  {
    if k > 0 {
      ThrownNext(env, rng, k - 1);
    }
  }

  lemma ThrowNext(env: Env, rng: int, k: nat)
    ensures Throw(env, env.afterUnit(env.afterUnit(rng)), k) == Throw(env, rng, k + 1)
    ensures Roomy(env, env.afterUnit(env.afterUnit(rng)), k) == Roomy(env, rng, k + 1)
  {
    ThrownNext(env, rng, k);
    hide ClearOf, Mul;
  }

  lemma FirstThrow(env: Env, rng: int, tries: nat, x: real, y: real)
    requires tries > 0
    ensures var (at, next) := (Throw(env, rng, 0), env.afterUnit(env.afterUnit(rng)));
      SpawnFrom(env, rng, tries, x, y) ==
        if Roomy(env, rng, 0) then (MoveState(at.x, at.y, 0.0, 0.0, 0.0, 0.0), next)
        else SpawnFrom(env, next, tries - 1, at.x, at.y)
  {
    assert Thrown(env, rng, 0) == rng;
    hide ClearOf, Mul;
  }

  /** `k` throws of `tries` were not roomy; the next one was, or there was none and the last
      one is pushed out of the walls. */
  ghost predicate Lands(env: Env, rng: int, tries: nat, k: nat, m: MoveState, after: int)
    requires tries > 0
  {
    && k <= tries && (forall j :: 0 <= j < k ==> !Roomy(env, rng, j))
    && var at := Throw(env, rng, if k < tries then k else tries - 1);
    if k < tries then Roomy(env, rng, k) && Standing(m, at.x, at.y) && after == Thrown(env, rng, k + 1)
    else after == Thrown(env, rng, tries)
         && var p := ResolvedBy(env.root, at.x, at.y, 16.0, WALLS); Standing(m, p.0, p.1)
  }

  lemma {:induction false} SpawnsAtFirst(env: Env, rng: int, tries: nat, x: real, y: real) returns (k: nat)
    requires tries > 0
    ensures var (m, after) := SpawnFrom(env, rng, tries, x, y); Lands(env, rng, tries, k, m, after)
    decreases tries
  {
    FirstThrow(env, rng, tries, x, y);
    var (at, next) := (Throw(env, rng, 0), env.afterUnit(env.afterUnit(rng)));
    if Roomy(env, rng, 0) {
      k := 0;
      hide Roomy, Throw;
      ThrownNext(env, rng, 0);
    } else if tries == 1 {
      k := 1;
      hide Roomy, Throw, ResolvedBy;
      ThrownNext(env, rng, 0);
    } else {
      hide Lands, SpawnFrom, Roomy, Throw;
      var i := SpawnsAtFirst(env, next, tries - 1, at.x, at.y);
      k := i + 1;
      var (m, after) := SpawnFrom(env, next, tries - 1, at.x, at.y);
      LandsLater(env, rng, tries, i, m, after);
    }
  }

  lemma LandsLater(env: Env, rng: int, tries: nat, i: nat, m: MoveState, after: int)
    requires tries > 1 && !Roomy(env, rng, 0)
    requires Lands(env, env.afterUnit(env.afterUnit(rng)), tries - 1, i, m, after)
    ensures Lands(env, rng, tries, i + 1, m, after)
  {
    hide Roomy, Throw, ResolvedBy, Thrown;
    ThrowNext(env, rng, i);
    ThrowNext(env, rng, if i < tries - 1 then i else tries - 2);
    ThrownNext(env, rng, i + 1);
    ThrownNext(env, rng, tries - 1);
    forall j | 0 <= j < i + 1
      ensures !Roomy(env, rng, j)
    {
      if j > 0 {
        ThrowNext(env, rng, j - 1);
      }
    }
  }

  /** A spawn point is the first roomy one of sixteen throws, at rest, and nothing is drawn
      after it. */
  lemma SpawnPointIsFirst(env: Env, rng: int) returns (k: nat)
    ensures var (m, after) := SpawnPoint(env, rng); Lands(env, rng, 16, k, m, after)
  {
    hide Lands, SpawnFrom;
    k := SpawnsAtFirst(env, rng, 16, 0.0, 0.0);
  }

  // ----- the queue of inputs

  /** An input is queued, last, exactly when its number is higher than that of every input
      queued before; nothing else changes. */
  lemma EnqueueIs(w: State, id: nat, inp: Input)
    requires OwnIds(w)
    ensures EnqueueInput(w, id, inp) ==
      if id in w.players && (w.players[id].hasQueued ==> inp.seq_ > w.players[id].lastQueuedSeq) then
        var p := w.players[id];
        w.(players := w.players[id := p.(inputs := p.inputs + [inp], lastQueuedSeq := inp.seq_, hasQueued := true)])
      else w
  {
  }

  /** The numbers waiting ascend strictly up to the last one accepted. */
  ghost predicate Queued(p: Player) {
    && (forall i, j :: 0 <= i < j < |p.inputs| ==> p.inputs[i].seq_ < p.inputs[j].seq_)
    && (p.inputs != [] ==> p.hasQueued && p.inputs[|p.inputs| - 1].seq_ == p.lastQueuedSeq)
  }

  ghost predicate AllQueued(w: State) {
    forall id :: id in w.players ==> Queued(w.players[id])
  }

  lemma ActQueues(env: Env, w: State, a: S.Action, dt: real)
    requires EnvOk(env) && WorldOk(w) && AllQueued(w)
    ensures AllQueued(S.Act(env, w, a, dt))
  {
    hide WorldOk, EnvOk, AllQueued, Step, AddPlayer, EnqueueInput, RemovePlayer;
    match a
    case Tick => TickEmpties(env, w, dt);
    case Join(name) => JoinQueues(env, w, name);
    case Leave(id) => LeaveQueues(w, id);
    case Enqueue(id, inp) => EnqueueQueues(w, id, inp);
  }

  lemma JoinQueues(env: Env, w: State, name: Bytes)
    requires EnvOk(env) && WorldOk(w) && AllQueued(w)
    ensures AllQueued(AddPlayer(env, w, name).0)
  {
    JoinBrings(env, w, name);
    hide WorldOk, EnvOk, AddPlayer, Legal, Taken;
  }

  lemma LeaveQueues(w: State, id: nat)
    requires AllQueued(w)
    ensures AllQueued(RemovePlayer(w, id))
  {
    hide RemoveId, Queued;
  }

  lemma EnqueueQueues(w: State, id: nat, inp: Input)
    requires WorldOk(w) && AllQueued(w)
    ensures AllQueued(EnqueueInput(w, id, inp))
  {
    WorldShape(w);
    EnqueueIs(w, id, inp);
    hide WorldOk, EnqueueInput;
  }

  /** A tick leaves every queue empty. */
  lemma TickEmpties(env: Env, w: State, dt: real)
    requires EnvOk(env) && WorldOk(w)
    ensures forall id :: id in Step(env, w, dt).players ==> Step(env, w, dt).players[id].inputs == []
    ensures AllQueued(Step(env, w, dt))
  {
    StepOk(env, w, dt);
    hide WorldOk, EnvOk, Step;
    forall id | id in Step(env, w, dt).players
      ensures Step(env, w, dt).players[id].inputs == []
    {
      J.StepTells(env, w, dt, id);
    }
  }

  /** In every run each queue holds strictly ascending numbers, so no input is applied twice
      or after a later one. */
  lemma {:induction false} RunQueues(env: Env, w: State, acts: seq<S.Action>, dt: real)
    requires EnvOk(env) && WorldOk(w) && AllQueued(w)
    ensures AllQueued(S.Run(env, w, acts, dt))
    decreases |acts|
  {
    hide WorldOk, EnvOk, AllQueued, S.Act;
    if acts != [] {
      S.ActOk(env, w, acts[0], dt);
      ActQueues(env, w, acts[0], dt);
      RunQueues(env, S.Act(env, w, acts[0], dt), acts[1..], dt);
    }
  }

  // ----- coming back to life

  /** A player given a new life: full health at rest in a legal place, shielded for 60 ticks,
      free to fire, without pickups and without a past; all else as it was. */
  ghost predicate Reborn(p: Player, tick: nat, p': Player) {
    && Legal(p'.move.x, p'.move.y) && p'.move == MoveState(p'.move.x, p'.move.y, 0.0, 0.0, 0.0, 0.0)
    && p'.posHist == seq(32, _ => Pos(p'.move.x, p'.move.y))
    && p' == p.(hp := 100, dead := false, move := p'.move, posHist := p'.posHist,
                nextFireTick := 0, rapidUntil := 0, spreadUntil := 0, invulnUntil := tick + 60)
  }

  lemma {:induction false} SpawnsAtRest(env: Env, rng: int, tries: nat, x: real, y: real)
    ensures var m := SpawnFrom(env, rng, tries, x, y).0; m == MoveState(m.x, m.y, 0.0, 0.0, 0.0, 0.0)
    decreases tries
  {
    hide SpawnCoord, ClearOf, ResolvedBy;
    if tries > 0 {
      var (x', rng1) := (SpawnCoord(env, rng), env.afterUnit(rng));
      SpawnsAtRest(env, env.afterUnit(rng1), tries - 1, x', SpawnCoord(env, rng1));
    }
  }

  lemma RespawnIs(env: Env, w: State, id: nat)
    requires EnvOk(env) && OwnIds(w) && id in w.players
    ensures var w' := Respawn(env, w, id);
      && id in w'.players && Reborn(w.players[id], w.tick, w'.players[id])
      && w' == w.(players := w.players[id := w'.players[id]], rng := w'.rng,
                  events := w.events + [Spawn(id, w'.players[id].move.x, w'.players[id].move.y)])
  {
    SpawnPointLegal(env, w.rng);
    SpawnsAtRest(env, w.rng, 16, 0.0, 0.0);
    hide SpawnFrom, Legal, EnvOk;
  }

  lemma AllocFresh(w: State)
    requires WorldOk(w)
    ensures var (r, cursor) := Alloc(w);
      (r.None? ==> cursor == w.nextID) && (r.Some? ==> !Taken(w, r.value))
  {
    AllocIsExact(w);
    hide Alloc, Taken;
  }

  lemma SpawnPointIs(env: Env, rng: int)
    requires EnvOk(env)
    ensures var m := SpawnPoint(env, rng).0; Legal(m.x, m.y) && m == MoveState(m.x, m.y, 0.0, 0.0, 0.0, 0.0)
  {
    SpawnPointLegal(env, rng);
    SpawnsAtRest(env, rng, 16, 0.0, 0.0);
    hide SpawnFrom, Legal, EnvOk;
  }

  /** Somebody new: full health and a pistol, at rest in a legal place, no score, nothing
      queued and no past. */
  ghost predicate Newcomer(p: Player, id: nat, name: Bytes) {
    && p.id == id && p.name == name && p.hp == 100 && !p.dead && p.weapon == 1 && p.inputs == [] && !p.hasQueued
    && Legal(p.move.x, p.move.y) && p.move == MoveState(p.move.x, p.move.y, 0.0, 0.0, 0.0, 0.0)
    && p.kills == p.deaths == p.hillScore == p.domScore == p.captures == p.streak == 0
    && p.lastProcessedSeq == p.lastQueuedSeq == p.nextFireTick == p.rapidUntil == p.spreadUntil == p.invulnUntil == 0
    && forall i :: 0 <= i < 32 ==> p.posHist[i] == Pos(p.move.x, p.move.y)
  }

  lemma NewPlayerIsNew(id: nat, name: Bytes, m: MoveState, team: nat)
    requires Legal(m.x, m.y) && m == MoveState(m.x, m.y, 0.0, 0.0, 0.0, 0.0)
    ensures Newcomer(NewPlayer(id, name, m, team), id, name)
  {
    hide Legal;
  }

  /** Who joins does so under an id nobody and nothing else has, and nobody else is touched. */
  lemma JoinBrings(env: Env, w: State, name: Bytes)
    requires EnvOk(env) && WorldOk(w)
    ensures var (w', r) := AddPlayer(env, w, name);
      && (r.None? ==> w' == w)
      && (r.Some? ==>
          && !Taken(w, r.value) && r.value in w'.players && Newcomer(w'.players[r.value], r.value, name)
          && w' == w.(players := w.players[r.value := w'.players[r.value]], order := w'.order,
                      rng := w'.rng, nextID := w'.nextID))
  {
    AllocFresh(w);
    SpawnPointIs(env, w.rng);
    hide Legal, EnvOk, WorldOk, Alloc, Taken, SmallerTeam, InsertId, SpawnPoint, NewPlayer, Newcomer;
    var r := Alloc(w).0;
    if r.Some? {
      var team := if w.modes.team then SmallerTeam(w) else 0;
      NewPlayerIsNew(r.value, name, SpawnPoint(env, w.rng).0, team);
      NewPlayerId(r.value, name, SpawnPoint(env, w.rng).0, team);
    }
  }

  lemma NewPlayerId(id: nat, name: Bytes, m: MoveState, team: nat)
    ensures NewPlayer(id, name, m, team).id == id
  {
  }

  // ----- the respawns of a tick

  /** After the turns of `ids`: the dead whose wait is over live again, the others are as
      they were. */
  ghost predicate Revived(w: State, ids: seq<nat>, w': State) {
    && w'.players.Keys == w.players.Keys && w'.tick == w.tick && w'.order == w.order
    && forall id :: id in w.players ==>
      if id in ids && w.players[id].dead && w.tick >= w.players[id].respawnAt
      then Reborn(w.players[id], w.tick, w'.players[id]) else w'.players[id] == w.players[id]
  }

  lemma RespawnIfDueIs(env: Env, w: State, id: nat)
    requires EnvOk(env) && OwnIds(w)
    ensures OwnIds(RespawnIfDue(env, w, id)) && Revived(w, [id], RespawnIfDue(env, w, id))
  {
    hide EnvOk, Respawn, Reborn;
    if id in w.players {
      RespawnIs(env, w, id);
      RebornIsOwn(w.players[id], w.tick, Respawn(env, w, id).players[id]);
    }
  }

  lemma OneMoreRevived(w: State, front: seq<nat>, s: State, id: nat, w': State)
    requires Revived(w, front, s) && Revived(s, [id], w') && id !in front
    ensures Revived(w, front + [id], w')
  {
    hide Reborn;
    assert forall x :: x in front + [id] <==> x in front || x == id;
  }

  lemma {:induction false} RespawnsRevive(env: Env, w: State, ids: seq<nat>)
    requires EnvOk(env) && OwnIds(w) && HitGrid.AscendingIds(ids)
    ensures var w' := Fold(RespawnOf(env), w, ids); OwnIds(w') && Revived(w, ids, w')
  {
    if ids != [] {
      var (front, id) := (ids[..|ids| - 1], ids[|ids| - 1]);
      assert ids == front + [id] && id !in front;
      hide EnvOk, RespawnIfDue, Revived, OwnIds;
      RespawnsRevive(env, w, front);
      var s := Fold(RespawnOf(env), w, front);
      RespawnIfDueIs(env, s, id);
      OneMoreRevived(w, front, s, id, RespawnIfDue(env, s, id));
    }
  }

  lemma RebornIsOwn(p: Player, tick: nat, p': Player)
    requires Reborn(p, tick, p')
    ensures p'.id == p.id
  {
  }

  /** In a tick exactly the dead whose wait is over come back to life. */
  lemma RespawnsAre(env: Env, w: State)
    requires EnvOk(env) && WorldOk(w)
    ensures Revived(w, w.order, Respawns(env, w))
  {
    WorldShape(w);
    hide WorldOk, Revived, OwnIds, EnvOk;
    RespawnsRevive(env, w, w.order);
  }

  // ----- a match begins

  /** The scores of a player at the start of a match: none; the living are reborn. */
  ghost predicate Restarted(p: Player, tick: nat, p': Player) {
    var q := p.(kills := 0, deaths := 0, hillScore := 0, domScore := 0, captures := 0, streak := 0);
    if p.dead then p' == q else Reborn(q, tick, p')
  }

  ghost predicate AllRestarted(w: State, ids: seq<nat>, w': State) {
    && w' == w.(players := w'.players, rng := w'.rng, events := w'.events) && w'.players.Keys == w.players.Keys
    && forall id :: id in w.players ==>
      if id in ids then Restarted(w.players[id], w.tick, w'.players[id]) else w'.players[id] == w.players[id]
  }

  lemma RestartIs(env: Env, w: State, id: nat)
    requires EnvOk(env) && OwnIds(w) && id in w.players
    ensures var w' := Restart(env, w, id);
      && id in w'.players && Restarted(w.players[id], w.tick, w'.players[id]) && w'.players[id].id == id
      && w' == w.(players := w.players[id := w'.players[id]], rng := w'.rng, events := w'.events)
  {
    hide EnvOk, Respawn, Legal;
    RespawnIs(env, Put(w, Cleared(w.players[id])), id);
  }

  lemma RestartedOne(env: Env, w: State, id: nat)
    requires EnvOk(env) && OwnIds(w)
    ensures OwnIds(Restart(env, w, id)) && AllRestarted(w, [id], Restart(env, w, id))
  {
    hide EnvOk, Restart, Restarted;
    if id in w.players {
      RestartIs(env, w, id);
    } else {
      NoRestart(env, w, id);
    }
  }

  lemma OneMoreRestarted(w: State, front: seq<nat>, s: State, id: nat, w': State)
    requires AllRestarted(w, front, s) && AllRestarted(s, [id], w') && id !in front
    ensures AllRestarted(w, front + [id], w')
  {
    hide Restarted;
    assert forall x :: x in front + [id] <==> x in front || x == id;
  }

  lemma {:induction false} RestartsAre(env: Env, w: State, ids: seq<nat>)
    requires EnvOk(env) && OwnIds(w) && HitGrid.AscendingIds(ids)
    ensures var w' := Fold(RestartOf(env), w, ids); OwnIds(w') && AllRestarted(w, ids, w')
  {
    if ids != [] {
      var (front, id) := (ids[..|ids| - 1], ids[|ids| - 1]);
      assert ids == front + [id] && id !in front;
      hide EnvOk, Restart, AllRestarted, OwnIds;
      RestartsAre(env, w, front);
      var s := Fold(RestartOf(env), w, front);
      RestartedOne(env, s, id);
      OneMoreRestarted(w, front, s, id, Restart(env, s, id));
    }
  }

  lemma NoRestart(env: Env, w: State, id: nat)
    requires id !in w.players
    ensures Restart(env, w, id) == w
  {
  }

  /** The clock of the match: it ends with its winner after 5400 ticks, the break after 300,
      and then the flags are home, nobody has a score and everyone alive is reborn. */
  ghost predicate MatchTurn(w: State, w': State) {
    if w.tick < w.matchAt then w' == w
    else if w.phase.Active? then
      && w' == w.(phase := Intermission, matchAt := w.tick + 300, winner := w'.winner)
      && (ByTeams(w.modes) ==>
          w'.winner == if TeamPoints(w, w.order, 1) > TeamPoints(w, w.order, 0) then 1 else 0)
      && (!ByTeams(w.modes) && w.order != [] ==> Best(w, w.order, w'.winner))
    else
      && AllRestarted(w.(phase := Active, matchAt := w.tick + 5400, winner := 0, flags := [Home(0), Home(1)]),
                      w.order, w')
  }

  lemma StepMatchTurns(env: Env, w: State)
    requires EnvOk(env) && WorldOk(w)
    ensures MatchTurn(w, StepMatch(env, w))
  {
    WorldShape(w);
    if w.tick >= w.matchAt {
      if w.phase.Active? {
        hide WorldOk, Winner, Best, TeamPoints, EnvOk;
        if ByTeams(w.modes) {
          WinningTeamIsBest(w);
        } else if w.order != [] {
          WinnerIsBest(w);
        }
      } else {
        hide WorldOk, Restarted, Restart, EnvOk, Fold;
        RestartsAre(env, Reopened(w), w.order);
        FlagsHome(w, Fold(RestartOf(env), Reopened(w), w.order));
      }
    }
  }

  /** The flags may as well be sent home first. */
  lemma FlagsHome(w: State, s: State)
    requires AllRestarted(Reopened(w), w.order, s)
    ensures AllRestarted(w.(phase := Active, matchAt := w.tick + 5400, winner := 0, flags := [Home(0), Home(1)]),
                         w.order, ResetFlags(s))
  {
    hide Restarted;
  }

  // ----- the clock of the match over a run

  function TicksOf(acts: seq<S.Action>): nat {
    if acts == [] then 0 else (if acts[0].Tick? then 1 else 0) + TicksOf(acts[1..])
  }

  ghost predicate SameClock(w: State, w': State) {
    w'.phase == w.phase && w'.matchAt == w.matchAt
  }

  /** The clock after one tick: it moves on, or the phase turns when its time has come. */
  ghost predicate ClockTurn(w: State, w': State) {
    && w'.tick == w.tick + 1
    && if w'.tick < w.matchAt then SameClock(w, w')
       else w'.phase == (if w.phase.Active? then Intermission else Active)
            && w'.matchAt == w'.tick + if w.phase.Active? then 300 else 5400
  }

  lemma StepTurnsClock(env: Env, w: State, dt: real)
    requires EnvOk(env) && WorldOk(w)
    ensures ClockTurn(w, Step(env, w, dt))
  {
    hide WorldOk, Combat, Objectives, StepCTF, StepMatch, RecordHistory, MatchTurn, KeepsOk, SeatsOk, EnvOk, Step;
    CombatOk(env, w, dt);
    var w3 := Combat(env, w, dt);
    KeptClock(w, w3);
    ObjectivesOk(env, w3);
    var w4 := Objectives(env, w3);
    KeptClock(w3, w4);
    StepCTFOk(w4);
    var w5 := StepCTF(w4);
    KeptClock(w4, w5);
    TickOk(w5);
    var w6 := w5.(tick := w5.tick + 1);
    StepMatchTurns(env, w6);
    StepMatchOk(env, w6);
    MatchClock(w6, StepMatch(env, w6));
    RecordHistoryOk(StepMatch(env, w6));
    KeptClock(StepMatch(env, w6), RecordHistory(StepMatch(env, w6)));
    StepIs(env, w, dt);
  }

  lemma StepIs(env: Env, w: State, dt: real)
    ensures var w5 := StepCTF(Objectives(env, Combat(env, w, dt)));
      Step(env, w, dt) == RecordHistory(StepMatch(env, w5.(tick := w5.tick + 1)))
  {
  }

  lemma KeptClock(w: State, w': State)
    requires KeepsOk(w, w')
    ensures WorldOk(w') && SameClock(w, w') && w'.tick == w.tick
  {
  }

  lemma MatchClock(w: State, w': State)
    requires MatchTurn(w, w') && SeatsOk(w, w')
    ensures WorldOk(w') && w'.tick == w.tick
    ensures if w.tick < w.matchAt then SameClock(w, w')
      else w'.phase == (if w.phase.Active? then Intermission else Active)
           && w'.matchAt == w.tick + if w.phase.Active? then 300 else 5400
  {
    hide WorldOk, TeamPoints, Best, Restarted;
  }

  /** In every run from a running clock: until the phase is due nothing about it changes, and
      the tick it is due turns it. So a match takes 5400 ticks and a break 300. */
  lemma {:induction false} ClockRuns(env: Env, w: State, acts: seq<S.Action>, dt: real)
    requires EnvOk(env) && WorldOk(w) && w.tick < w.matchAt
    ensures var (w', end) := (S.Run(env, w, acts, dt), w.tick + TicksOf(acts));
      && WorldOk(w') && w'.tick == end < w'.matchAt
      && (end < w.matchAt ==> SameClock(w, w'))
      && (end == w.matchAt ==> w'.phase != w.phase && w'.matchAt == end + if w.phase.Active? then 300 else 5400)
    decreases |acts|
  {
    hide WorldOk, EnvOk, S.Act;
    if acts != [] {
      var w1 := S.Act(env, w, acts[0], dt);
      S.ActOk(env, w, acts[0], dt);
      ActClock(env, w, acts[0], dt);
      ClockRuns(env, w1, acts[1..], dt);
    }
  }

  lemma ActClock(env: Env, w: State, a: S.Action, dt: real)
    requires EnvOk(env) && WorldOk(w)
    ensures var w' := S.Act(env, w, a, dt);
      if a.Tick? then ClockTurn(w, w') else SameClock(w, w') && w'.tick == w.tick
  {
    match a
    case Tick =>
      hide WorldOk, EnvOk, Step, ClockTurn;
      StepTurnsClock(env, w, dt);
    case _ =>
      hide WorldOk, EnvOk, SpawnPoint, SmallerTeam, InsertId, RemoveId, Step, ClockTurn;
  }
}
