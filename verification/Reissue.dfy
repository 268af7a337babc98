/** How an id comes to be handed on while its flag is still carried, internal/game/world.go
    and ctf.go: joins and leaves between two ticks move the id cursor, and nothing tends the
    flags meanwhile. */
module Reissue {
  import opened Wrappers
  import opened Wire
  import opened Reals
  import opened Walls
  import opened Movement
  import opened Arena
  import opened Ids
  import C = Chronicle
  import HitGrid
  import J = Journey
  import opened Rules
  import opened WorldInvariant
  import opened Sessions
  import opened CaptureTheFlag

  // ----- joins and leaves between two ticks

  predicate Shuffles(acts: seq<Action>) {
    forall a :: a in acts ==> a.Join? || a.Leave?
  }

  /** Only who is there, the id cursor and the generator differ. */
  ghost predicate SameRoom(w: State, w': State) {
    w' == w.(players := w'.players, order := w'.order, rng := w'.rng, nextID := w'.nextID)
  }

  /** The first of an order leaves. */
  lemma FirstLeaves(w: State)
    requires WorldOk(w) && w.order != []
    ensures RemovePlayer(w, w.order[0]) == w.(players := w.players - {w.order[0]}, order := w.order[1..])
  {
    hide ShotsOk, PlayersOk;
    assert w.order[0] in w.order;
  }

  lemma NobodyLeft(w: State)
    requires WorldOk(w) && w.order == []
    ensures w.players == map[]
  {
    hide ShotsOk, PlayersOk;
  }

  /** Everybody leaves. */
  lemma {:induction false} AllLeave(env: Env, w: State, dt: real) returns (acts: seq<Action>)
    requires WorldOk(w)
    ensures Shuffles(acts) && Run(env, w, acts, dt) == w.(players := map[], order := [])
    ensures WorldOk(w.(players := map[], order := []))
    decreases |w.order|
  {
    if w.order == [] {
      NobodyLeft(w);
      acts := [];
    } else {
      var a := Leave(w.order[0]);
      FirstLeaves(w);
      RemovePlayerOk(w, w.order[0]);
      hide WorldOk, RemovePlayer;
      var rest := AllLeave(env, RemovePlayer(w, w.order[0]), dt);
      acts := [a] + rest;
      RunOne(env, w, a, dt);
      RunConcat(env, w, [a], rest, dt);
    }
  }

  lemma {:induction false} InsertThenRemove(ids: seq<nat>, id: nat)
    requires id !in ids
    ensures RemoveId(InsertId(ids, id), id) == ids
    decreases |ids|
  {
    if ids != [] {
      assert ids == [ids[0]] + ids[1..];
      InsertThenRemove(ids[1..], id);
    }
  }

  /** A player that joins and leaves again only moves the cursor, and the generator. */
  lemma JoinAndLeave(env: Env, w: State, name: Bytes, id: nat)
    requires WorldOk(w) && Alloc(w).0 == Some(id)
    ensures var w' := RemovePlayer(AddPlayer(env, w, name).0, id);
      w' == w.(nextID := Following(id), rng := w'.rng)
  {
    JoinIsNew(w);
    AllocIsExact(w);
    InOrder(w, id);
    InsertThenRemove(w.order, id);
    hide WorldOk, Alloc, SpawnPoint, SmallerTeam, InsertId, RemoveId, Following, Taken, Visited;
    var p := AddPlayer(env, w, name).0.players[id];
    assert w.players[id := p] - {id} == w.players;
  }

  lemma InOrder(w: State, id: nat)
    requires WorldOk(w) && id !in w.players
    ensures id !in w.order
  {
  }

  lemma VisitedChain(from: nat, j: nat, d: nat)
    requires 1 <= from <= MAX_ID && j < d
    ensures Visited(Visited(from, j + 1), d - j - 1) == Visited(from, d)
  {
  }

  lemma RunTwo(env: Env, w: State, a: Action, b: Action, dt: real)
    ensures Run(env, w, [a, b], dt) == Act(env, Act(env, w, a, dt), b, dt)
  {
    RunOne(env, w, a, dt);
    RunOne(env, Act(env, w, a, dt), b, dt);
    RunConcat(env, w, [a], [b], dt);
    assert [a] + [b] == [a, b];
  }

  /** One more player comes and goes, and a free id is nearer. */
  lemma CursorMoves(env: Env, w: State, dt: real, id: nat, d: nat, n: nat, j: nat)
    requires EnvOk(env) && WorldOk(w) && !Taken(w, id) && Visited(w.nextID, d) == id
    requires Alloc(w).0 == Some(n) && n == Visited(w.nextID, j) && j < d
    ensures var w' := Run(env, w, [Join([]), Leave(n)], dt);
      && WorldOk(w') && w' == w.(nextID := w'.nextID, rng := w'.rng)
      && !Taken(w', id) && Visited(w'.nextID, d - j - 1) == id
  {
    CursorOk(w);
    JoinAndLeave(env, w, [], n);
    AddPlayerOk(env, w, []);
    RemovePlayerOk(AddPlayer(env, w, []).0, n);
    VisitedStep(w.nextID, j);
    VisitedChain(w.nextID, j, d);
    SameTaken(w, RemovePlayer(AddPlayer(env, w, []).0, n), id);
    RunTwo(env, w, Join([]), Leave(n), dt);
    hide WorldOk, EnvOk, AddPlayer, RemovePlayer, Alloc, Taken, Visited, Following, Run;
  }

  /** By joining and leaving often enough any free id becomes the next in line. */
  lemma {:induction false} CursorReaches(env: Env, w: State, dt: real, id: nat, d: nat) returns (acts: seq<Action>)
    requires EnvOk(env) && WorldOk(w) && !Taken(w, id) && d < MAX_ID && Visited(w.nextID, d) == id
    ensures Shuffles(acts)
    ensures var w' := Run(env, w, acts, dt);
      WorldOk(w') && Alloc(w').0 == Some(id) && w' == w.(nextID := w'.nextID, rng := w'.rng)
    decreases d
  {
    hide WorldOk, EnvOk, Act, Alloc, Taken, Visited, Following;
    var n, j := NextInLine(w, id, d);
    if n == id {
      acts := [];
    } else {
      CursorMoves(env, w, dt, id, d, n, j);
      var turn := [Join([]), Leave(n)];
      var rest := CursorReaches(env, Run(env, w, turn, dt), dt, id, d - j - 1);
      acts := turn + rest;
      RunConcat(env, w, turn, rest, dt);
    }
  }

  lemma SameTaken(w: State, w': State, id: nat)
    requires w' == w.(nextID := w'.nextID, rng := w'.rng)
    ensures Taken(w', id) == Taken(w, id)
  {
  }

  /** The next id to be handed out, and how far it is: no farther than a free one. */
  lemma NextInLine(w: State, id: nat, d: nat) returns (n: nat, j: nat)
    requires WorldOk(w) && !Taken(w, id) && d < MAX_ID && Visited(w.nextID, d) == id
    ensures Alloc(w).0 == Some(n) && n == Visited(w.nextID, j) && (n == id || j < d)
  {
    CursorOk(w);
    AllocIsExact(w);
    VisitedStep(w.nextID, d);
    hide WorldOk, Alloc, Taken, Visited, Following;
    n := Alloc(w).0.value;
    j :| 0 <= j < MAX_ID && n == Visited(w.nextID, j) && TakenUpTo(w, w.nextID, j);
  }

  lemma CursorOk(w: State)
    requires WorldOk(w)
    ensures 1 <= w.nextID <= MAX_ID
  {
  }

  /** A free id becomes the next in line, wherever the cursor stands. */
  lemma ComesUp(env: Env, w: State, dt: real, id: nat) returns (acts: seq<Action>)
    requires EnvOk(env) && WorldOk(w) && 1 <= id <= MAX_ID && !Taken(w, id)
    ensures Shuffles(acts)
    ensures var w' := Run(env, w, acts, dt);
      WorldOk(w') && Alloc(w').0 == Some(id) && w' == w.(nextID := w'.nextID, rng := w'.rng)
  {
    hide WorldOk, EnvOk, Run, Alloc, Taken, Visited;
    CursorOk(w);
    VisitedReaches(w.nextID, id);
    var d :| 0 <= d < MAX_ID && Visited(w.nextID, d) == id;
    acts := CursorReaches(env, w, dt, id, d);
  }

  // ----- enough ids are free

  lemma {:induction false} FewIds(prs: seq<Projectile>)
    ensures |set i | 0 <= i < |prs| :: prs[i].id| <= |prs|
  {
    var ids := set i | 0 <= i < |prs| :: prs[i].id;
    if prs != [] {
      var n := |prs| - 1;
      FewIds(prs[..n]);
      var front := set i | 0 <= i < n :: prs[..n][i].id;
      forall id | id in ids
        ensures id in front + {prs[n].id}
      {
        var i :| 0 <= i < |prs| && prs[i].id == id;
        assert i < n ==> prs[..n][i].id == id;
      }
      Smaller(ids, front + {prs[n].id});
    }
  }

  lemma {:induction false} Smaller<T>(a: set<T>, b: set<T>)
    requires a <= b
    ensures |a| <= |b|
    decreases a
  {
    if a != {} {
      var x :| x in a;
      Smaller(a - {x}, b - {x});
    }
  }

  function UpTo(n: nat): set<nat> {
    if n == 0 then {} else UpTo(n - 1) + {n}
  }

  lemma {:induction false} SoMany(n: nat)
    ensures |UpTo(n)| == n && forall k :: k in UpTo(n) <==> 1 <= k <= n
  {
    if n > 0 {
      SoMany(n - 1);
    }
  }

  /** In a world without players some id other than `id` is free. */
  lemma SomeFree(w: State, id: nat) returns (q: nat)
    requires WorldOk(w) && w.players == map[]
    ensures 1 <= q <= MAX_ID && q != id && !Taken(w, q)
  {
    var n := MAX_PROJECTILES + 2;
    var (all, ids) := (UpTo(n), set i | 0 <= i < |w.projectiles| :: w.projectiles[i].id);
    SoMany(n);
    FewIds(w.projectiles);
    if all <= ids + {id} {
      Smaller(all, ids + {id});
    }
    q :| q in all && q !in ids + {id};
    hide PlayersOk, OrderOk, ShotsOk;
  }

  // ----- from any carried flag to a stale carrier

  /** Nobody is dead or has anything queued. */
  ghost predicate Idle(w: State) {
    forall id :: id in w.players ==> w.players[id].id == id && w.players[id].inputs == [] && !w.players[id].dead
  }

  /** The first to join an empty team game is seated in team 0, and the next in team 1. */
  lemma FirstSeat(env: Env, w: State, id: nat)
    requires w.players == map[] && w.order == [] && w.modes.team && Alloc(w).0 == Some(id)
    ensures var w' := AddPlayer(env, w, []).0;
      && SmallerTeam(w) == 0 && SmallerTeam(w') == 1 && SameRoom(w, w') && Idle(w') && w'.players.Keys == {id}
      && w'.order == [id]
  {
    hide Alloc, SpawnPoint;
    var w' := AddPlayer(env, w, []).0;
    assert w'.order == [id] && w'.order[..0] == [];
    assert TeamCount(w', w'.order, true) == 1 && TeamCount(w', w'.order, false) == 0;
  }

  lemma OnlySeatTaken(env: Env, w: State, id: nat, other: nat)
    requires w.players == map[] && w.order == [] && Alloc(w).0 == Some(id) && other != id && !Taken(w, other)
    ensures !Taken(AddPlayer(env, w, []).0, other)
  {
    hide Alloc, SpawnPoint, SmallerTeam;
  }

  lemma SameTeamsAlike(w: State, w': State)
    requires w' == w.(nextID := w'.nextID, rng := w'.rng)
    ensures SmallerTeam(w') == SmallerTeam(w)
  {
    SameCounts(w, w', w.order, true);
    SameCounts(w, w', w.order, false);
  }

  lemma {:induction false} SameCounts(w: State, w': State, ids: seq<nat>, team0: bool)
    requires w'.players == w.players
    ensures TeamCount(w', ids, team0) == TeamCount(w, ids, team0)
  {
    if ids != [] {
      SameCounts(w, w', ids[..|ids| - 1], team0);
    }
  }

  /** From an empty room: a run after which a free id comes up when the smaller team is `i`. */
  lemma SeatsFor(env: Env, w: State, dt: real, i: nat, id: nat) returns (acts: seq<Action>)
    requires EnvOk(env) && WorldOk(w) && w.players == map[] && w.order == [] && w.modes.team && i < 2
    requires 1 <= id <= MAX_ID && !Taken(w, id)
    ensures Shuffles(acts)
    ensures var w' := Run(env, w, acts, dt);
      WorldOk(w') && SameRoom(w, w') && Idle(w') && SmallerTeam(w') == i && !Taken(w', id)
  {
    if i == 0 {
      acts := [];
    } else {
      var q := SomeFree(w, id);
      hide WorldOk, EnvOk, Alloc, Taken, SmallerTeam, AddPlayer, Run;
      var first := ComesUp(env, w, dt, q);
      var w1 := Run(env, w, first, dt);
      SameTaken(w, w1, id);
      FirstSeat(env, w1, q);
      OnlySeatTaken(env, w1, q, id);
      AddPlayerOk(env, w1, []);
      acts := first + [Join([])];
      RunConcat(env, w, first, [Join([])], dt);
      RunOne(env, w1, Join([]), dt);
    }
  }

  lemma CarrierGone(w: State, i: nat)
    requires WorldOk(w) && i < 2 && w.flags[i].carrier in w.players
    ensures var c := w.flags[i].carrier;
      1 <= c <= MAX_ID && !Taken(w.(players := map[], order := []), c) && |w.flags| == 2
  {
    hide Legal;
  }

  lemma ReissuesNext(w: State, i: nat)
    requires i < 2 && |w.flags| == 2 && w.modes.team && w.flags[i].status.Carried?
    requires Alloc(w).0 == Some(w.flags[i].carrier) && SmallerTeam(w) == i
    ensures Reissues(w, i)
  {
    hide Alloc, SmallerTeam;
  }

  /** From every sound world of a team game in which a flag is carried, joins and leaves
      alone, before the next tick, lead to a world that hands the carrier's id to the flag's
      own team. */
  lemma StaleIsNear(env: Env, w: State, dt: real, i: nat) returns (acts: seq<Action>)
    requires EnvOk(env) && WorldOk(w) && w.modes.team && i < 2
    requires w.flags[i].status.Carried? && w.flags[i].carrier in w.players
    ensures Shuffles(acts)
    ensures var w' := Run(env, w, acts, dt);
      WorldOk(w') && SameRoom(w, w') && Idle(w') && |w'.flags| == 2 && Reissues(w', i) && StaleCarrier(w')
  {
    var c := w.flags[i].carrier;
    CarrierGone(w, i);
    hide WorldOk, EnvOk, Alloc, Taken, SmallerTeam, Run, Reissues;
    var a := AllLeave(env, w, dt);
    var w1 := Run(env, w, a, dt);
    var b := SeatsFor(env, w1, dt, i, c);
    var w2 := Run(env, w1, b, dt);
    var d := ComesUp(env, w2, dt, c);
    var w3 := Run(env, w2, d, dt);
    SameTeamsAlike(w2, w3);
    ReissuesNext(w3, i);
    acts := a + b + d;
    RunConcat(env, w, a, b, dt);
    RunConcat(env, w, a + b, d, dt);
  }

  // ----- a run from an empty room

  const CTF := Modes(true, false, false, true)

  /** Everybody spawns on the base of team 0's flag. */
  function CornerEnv(root: real -> real): Env {
    Env(root, (a: real) => 0.0, (a: real) => 0.0, (q: U16) => 0.0,
        (s: int) => if s % 2 == 0 then 0.1 else 0.5, (s: int) => s + 1, (s: int) => 0, (s: int) => s)
  }

  lemma BaseCoords(root: real -> real, rng: int)
    requires rng % 2 == 0
    ensures var env := CornerEnv(root);
      SpawnCoord(env, rng) == 512.0 && SpawnCoord(env, rng + 1) == 2048.0
      && env.afterUnit(rng) == rng + 1 && env.afterUnit(rng + 1) == rng + 2
  {
    var env := CornerEnv(root);
    assert env.unit(rng) == 0.1 && env.unit(rng + 1) == 0.5;
  }

  lemma SpawnsOnBase(root: real -> real, rng: int)
    requires rng % 2 == 0
    ensures SpawnPoint(CornerEnv(root), rng) == (J.AtRest(512.0, 2048.0), rng + 2)
  {
    BaseCoords(root, rng);
    BaseIsClear();
    hide ClearOf, SpawnCoord, CornerEnv, ResolvedBy;
  }

  lemma BaseIsClear()
    ensures ClearOf(WALLS, 512.0, 2048.0, PLAYER_RADIUS + SPAWN_CLEARANCE)
  {
    forall i | 0 <= i < |WALLS|
      ensures Dist2(WALLS[i], 512.0, 2048.0) >= Sq(PLAYER_RADIUS + SPAWN_CLEARANCE)
    {
      var b := WALLS[i];
      hide Sq;
      SqMono(PLAYER_RADIUS + SPAWN_CLEARANCE, b.minX - 512.0);
      SqSigns(512.0 - b.minX);
      SqSigns(2048.0 - Clamp(2048.0, b.minY, b.maxY));
      assert 512.0 - Clamp(512.0, b.minX, b.maxX) == -(b.minX - 512.0);
      SqSigns(b.minX - 512.0);
    }
  }

  /** Two players, of different teams, on that base, and nothing else going on. */
  ghost predicate TwoOnBase(w: State) {
    && w.order == [1, 2] && w.players.Keys == {1, 2} && Idle(w) && w.projectiles == []
    && w.players[1].team == 0 && w.players[2].team == 1
    && w.players[1].move == w.players[2].move == J.AtRest(512.0, 2048.0)
    && w.modes == CTF && w.phase.Active? && w.flags == [BaseFlag(0), BaseFlag(1)]
  }

  function Seated(id: nat, team: nat): Player {
    NewPlayer(id, [], J.AtRest(512.0, 2048.0), team)
  }

  lemma FirstArrives(root: real -> real)
    ensures var w := NewWorld(0, CTF);
      AddPlayer(CornerEnv(root), w, []).0 == w.(players := map[1 := Seated(1, 0)], order := [1], rng := 2, nextID := 2)
  {
    var w := NewWorld(0, CTF);
    SpawnsOnBase(root, 0);
    AllocOne(w);
    hide SpawnPoint, Alloc, NewPlayer;
    SeatedId(1, 0);
    assert w.players[1 := Seated(1, 0)] == map[1 := Seated(1, 0)];
  }

  lemma SeatedId(id: nat, team: nat)
    ensures var p := Seated(id, team);
      p.id == id && p.team == team && p.inputs == [] && !p.dead && p.move == J.AtRest(512.0, 2048.0)
  {
  }

  lemma AllocOne(w: State)
    requires 1 <= w.nextID < 100 && !Taken(w, w.nextID)
    ensures Alloc(w) == (Some(w.nextID), w.nextID + 1)
  {
    hide Taken;
  }

  lemma SecondArrives(root: real -> real, w: State)
    requires w == NewWorld(0, CTF).(players := map[1 := Seated(1, 0)], order := [1], rng := 2, nextID := 2)
    ensures var w' := AddPlayer(CornerEnv(root), w, []).0;
      TwoOnBase(w') && w'.tick == 0 && w'.matchAt == MATCH_DURATION
  {
    SeatedId(1, 0);
    SeatedId(2, 1);
    SpawnsOnBase(root, 2);
    hide SpawnPoint, Alloc, NewPlayer, Seated;
    AllocOne(w);
    assert w.order[..0] == [];
    assert TeamCount(w, w.order, true) == 1 && TeamCount(w, w.order, false) == 0;
    assert InsertId([1], 2) == [1, 2];
  }

  // ----- a tick in which nobody is harmed

  /** Without rockets and inputs nobody comes to harm. */
  lemma {:induction false} IdleTurns(env: Env, w: State, ids: seq<nat>)
    requires forall id :: id in w.players ==> w.players[id].id == id && w.players[id].inputs == []
    ensures Fold(TurnOf(env), w, ids) == w
  {
    hide ApplyInput;
    if ids != [] {
      IdleTurns(env, w, ids[..|ids| - 1]);
    }
  }

  lemma {:induction false} IdleRespawns(env: Env, w: State, ids: seq<nat>)
    requires forall id :: id in w.players ==> !w.players[id].dead
    ensures Fold(RespawnOf(env), w, ids) == w
  {
    hide Respawn;
    if ids != [] {
      IdleRespawns(env, w, ids[..|ids| - 1]);
    }
  }

  lemma IdleCombat(env: Env, w: State, dt: real)
    requires forall id :: id in w.players ==>
      w.players[id].id == id && w.players[id].inputs == [] && !w.players[id].dead
    requires w.projectiles == []
    ensures Combat(env, w, dt) == w.(events := [])
  {
    var w0 := w.(events := []);
    IdleTurns(env, w0, w0.order);
    IdleRespawns(env, w0, w0.order);
    hide TurnOf, RespawnOf, FlyOf;
  }

  ghost predicate NoShots(w: State) {
    w.projectiles == []
  }

  lemma FoldNoShots<A(!new)>(f: (State, A) -> State, w: State, xs: seq<A>)
    requires NoShots(w) && forall s, x :: NoShots(s) ==> NoShots(f(s, x))
    ensures NoShots(Fold(f, w, xs))
  {
    hide NoShots;
    var inv := (s: State) => NoShots(s);
    FoldInv(f, w, xs, inv);
  }

  lemma ObjectivesNoShots(env: Env, w: State)
    requires NoShots(w)
    ensures NoShots(Objectives(env, w))
  {
    hide Taker, Holds;
    FoldNoShots(PickupOf(env), w, [0, 1, 2, 3, 4]);
  }

  lemma RecordNoShots(w: State)
    requires NoShots(w)
    ensures NoShots(RecordHistory(w))
  {
    FoldNoShots(RecordOf(), w, w.order);
  }

  // ----- the flag is taken

  /** On this base the one player is at home and the other takes the flag. */
  lemma FlagTaken(w: State)
    requires TwoOnBase(w)
    ensures StepCTF(w) == w.(flags := [Flag(Carried, 2, 512.0, 2048.0, 0), BaseFlag(1)])
  {
    var w1 := w.(flags := [Flag(Carried, 2, 512.0, 2048.0, 0), BaseFlag(1)]);
    assert TendFlag(TendFlag(w, 0), 1) == w;
    Distances(w.players[1]);
    Distances(w.players[2]);
    hide Reaches;
    assert TouchFlags(w, 1) == w;
    assert TouchFlag(w, 2, 0) == w1;
    assert TouchFlag(w1, 2, 1) == w1;
    assert !CanCapture(w1, 1) && !CanCapture(w1, 2);
    FoldPair(TouchOf(), w, 1, 2);
    FoldPair(CaptureOf(), w1, 1, 2);
  }

  lemma FoldPair<S, A>(f: (S, A) -> S, s: S, a: A, b: A)
    ensures Fold(f, s, [a, b]) == f(f(s, a), b)
  {
    FoldOne(f, s, [], a);
    FoldOne(f, s, [a], b);
    assert [] + [a] == [a] && [a] + [b] == [a, b];
  }

  lemma Distances(p: Player)
    requires p.move == J.AtRest(512.0, 2048.0)
    ensures Reaches(p, FLAG_BASES[0].x, FLAG_BASES[0].y, PLAYER_RADIUS + FLAG_GRAB_RADIUS)
    ensures !Reaches(p, FLAG_BASES[1].x, FLAG_BASES[1].y, PLAYER_RADIUS + FLAG_GRAB_RADIUS)
    ensures !Reaches(p, FLAG_BASES[1].x, FLAG_BASES[1].y, PLAYER_RADIUS + FLAG_BASE_RADIUS)
  {
  }

  lemma StillOnBase(env: Env, w: State)
    requires WorldOk(w) && TwoOnBase(w) && w.events == []
    ensures TwoOnBase(Objectives(env, w)) && KeepsOk(w, Objectives(env, w))
  {
    var w' := Objectives(env, w);
    ObjectivesOk(env, w);
    C.ObjectivesStill(env, w);
    J.ObjectivesTells(1, env, w);
    J.ObjectivesTells(2, env, w);
    ObjectivesUnflagged(env, w);
    ObjectivesNoShots(env, w);
    PlayerIds(w);
    hide WorldOk, Objectives, CapturesIn;
    assert J.NoTurningPoint(w'.events, 1) && J.NoTurningPoint(w'.events, 2);
  }

  /** Nobody is harmed, and player 2 takes the flag. */
  lemma TakenBeforeClock(env: Env, w: State, dt: real)
    requires EnvOk(env) && WorldOk(w) && TwoOnBase(w)
    ensures var w' := StepCTF(Objectives(env, Combat(env, w, dt)));
      && KeepsOk(w, w') && NoShots(w') && w'.flags == [Flag(Carried, 2, 512.0, 2048.0, 0), BaseFlag(1)]
  {
    var w0 := w.(events := []);
    IdleCombat(env, w, dt);
    OtherFieldsOk(w, w0);
    hide WorldOk, EnvOk, Combat, Objectives, StepCTF;
    StillOnBase(env, w0);
    FlagTaken(Objectives(env, w0));
    StepCTFOk(Objectives(env, w0));
  }

  /** The same, one tick later. */
  ghost predicate NextTick(w: State, w': State) {
    && WorldOk(w') && SameSeats(w, w') && w'.tick == w.tick + 1 && w'.phase == w.phase && w'.matchAt == w.matchAt
    && w'.flags == w.flags && (NoShots(w) ==> NoShots(w'))
  }

  lemma QuietClock(env: Env, w: State)
    requires WorldOk(w) && w.tick + 1 < w.matchAt
    ensures NextTick(w, RecordHistory(StepMatch(env, w.(tick := w.tick + 1))))
  {
    var w1 := w.(tick := w.tick + 1);
    TickOk(w);
    RecordHistoryOk(w1);
    PlayerIds(w1);
    RecordedKeepsPlace(w1, w1.order);
    if NoShots(w) {
      RecordNoShots(w1);
    }
    hide WorldOk, EndMatch, StartMatch, Fold;
  }

  /** Player 2 carries the flag of team 0 in a quiet match. */
  ghost predicate FlagAway(w: State) {
    && WorldOk(w) && NoShots(w) && w.modes == CTF && w.phase.Active? && w.tick + 1 < w.matchAt
    && |w.flags| == 2 && w.flags[0].status.Carried? && w.flags[0].carrier == 2 && 2 in w.players
  }

  lemma AwayAfter(w: State, w1: State, w2: State)
    requires TwoOnBase(w) && w.tick + 2 < w.matchAt && KeepsOk(w, w1) && NextTick(w1, w2)
    requires NoShots(w1) && w1.flags == [Flag(Carried, 2, 512.0, 2048.0, 0), BaseFlag(1)]
    ensures FlagAway(w2)
  {
    hide WorldOk, Idle;
  }

  lemma ClockRuns(w: State, w1: State)
    requires KeepsOk(w, w1) && w.tick + 2 < w.matchAt
    ensures WorldOk(w1) && w1.tick + 1 < w1.matchAt
  {
    hide WorldOk;
  }

  lemma StepParts(env: Env, w: State, dt: real)
    ensures var w1 := StepCTF(Objectives(env, Combat(env, w, dt)));
      Step(env, w, dt) == RecordHistory(StepMatch(env, w1.(tick := w1.tick + 1)))
  {
    hide Combat, Objectives, StepCTF, StepMatch, RecordHistory;
  }

  /** After that tick player 2 carries the flag. */
  lemma TickTakes(env: Env, w: State, dt: real)
    requires EnvOk(env) && WorldOk(w) && TwoOnBase(w) && w.tick + 2 < w.matchAt
    ensures FlagAway(Step(env, w, dt))
  {
    hide *;
    var w1 := StepCTF(Objectives(env, Combat(env, w, dt)));
    TakenBeforeClock(env, w, dt);
    ClockRuns(w, w1);
    QuietClock(env, w1);
    StepParts(env, w, dt);
    AwayAfter(w, w1, Step(env, w, dt));
  }

  lemma CarrierReturns(env: Env, w: State)
    requires EnvOk(env) && WorldOk(w) && |w.flags| == 2 && Reissues(w, 0) && Idle(w)
    ensures var w' := AddPlayer(env, w, []).0;
      && WorldOk(w') && Usurped(w', 0, w.flags[0].carrier) && Idle(w') && SameRoom(w, w')
  {
    AddPlayerOk(env, w, []);
    JoinTouches(env, w, []);
    NewcomerIdle(env, w);
    hide WorldOk, EnvOk, AddPlayer, Alloc, SmallerTeam;
  }

  lemma NewcomerIdle(env: Env, w: State)
    requires Idle(w)
    ensures Idle(AddPlayer(env, w, []).0) && SameRoom(w, AddPlayer(env, w, []).0)
  {
    hide Alloc, SpawnPoint, SmallerTeam, InsertId;
  }

  lemma CornerEnvOk(root: real -> real)
    requires IsRoot(root)
    ensures EnvOk(CornerEnv(root))
  {
  }

  lemma UsurpedIsThere(w: State, i: nat, id: nat)
    requires i < 2 && Usurped(w, i, id)
    ensures id in w.players
  {
  }

  lemma RunThree(env: Env, w: State, a: Action, b: Action, c: Action, dt: real)
    ensures Run(env, w, [a, b, c], dt) == Act(env, Act(env, Act(env, w, a, dt), b, dt), c, dt)
  {
    hide Act, Run;
    RunTwo(env, w, a, b, dt);
    RunOne(env, Act(env, Act(env, w, a, dt), b, dt), c, dt);
    RunConcat(env, w, [a, b], [c], dt);
    assert [a, b] + [c] == [a, b, c];
  }

  lemma JoinActs(env: Env, w: State, dt: real)
    ensures Act(env, w, Join([]), dt) == AddPlayer(env, w, []).0 && Act(env, w, Tick, dt) == Step(env, w, dt)
  {
  }

  const OPENING: seq<Action> := [Join([]), Join([]), Tick]

  lemma OpeningRun(root: real -> real, dt: real)
    requires IsRoot(root)
    ensures FlagAway(Run(CornerEnv(root), NewWorld(0, CTF), OPENING, dt))
  {
    var env := CornerEnv(root);
    var (w0, w1) := (NewWorld(0, CTF), AddPlayer(env, NewWorld(0, CTF), []).0);
    FirstArrives(root);
    SecondArrives(root, w1);
    hide *;
    CornerEnvOk(root);
    NewWorldOk(0, CTF);
    AddPlayerOk(env, w0, []);
    AddPlayerOk(env, w1, []);
    var w2 := AddPlayer(env, w1, []).0;
    TickTakes(env, w2, dt);
    RunThree(env, w0, Join([]), Join([]), Tick, dt);
    JoinActs(env, w0, dt);
    JoinActs(env, w1, dt);
    JoinActs(env, w2, dt);
  }

  /** One more join and a tick, where the carrier's id is the next in line. */
  lemma ClosingRun(env: Env, w: State, dt: real)
    requires EnvOk(env) && WorldOk(w) && |w.flags| == 2 && Reissues(w, 0) && Idle(w) && NoShots(w)
    requires w.phase.Active? && w.tick + 1 < w.matchAt
    ensures var w' := Run(env, w, [Join([]), Tick], dt);
      w'.modes == w.modes && w'.phase.Active? && Usurped(w', 0, w.flags[0].carrier) && !FlagsGood(w')
  {
    var (w1, id) := (AddPlayer(env, w, []).0, w.flags[0].carrier);
    CarrierReturns(env, w);
    UsurpedIsThere(w1, 0, id);
    IdleCombat(env, w1, dt);
    hide WorldOk, EnvOk, Run, Step, AddPlayer, Combat, Reissues, FlagsGood, Usurped;
    ReissueLasts(env, w1, dt, 0, id);
    StepOk(env, w1, dt);
    RunTwo(env, w, Join([]), Tick, dt);
  }

  lemma AwayStays(w: State, w': State)
    requires FlagAway(w) && SameRoom(w, w')
    ensures w'.modes == CTF && w'.phase.Active? && w'.tick + 1 < w'.matchAt && NoShots(w') && w'.flags[0].carrier == 2
  {
    hide WorldOk;
  }

  lemma AwayMeans(w: State)
    requires FlagAway(w)
    ensures WorldOk(w) && w.modes.team && w.flags[0].status.Carried? && w.flags[0].carrier in w.players
  {
    hide WorldOk;
  }

  /** From an empty room to wrong flags: a flag is taken, joins and leaves before the next
      tick bring up its carrier's id, somebody joins once more, and that tick leaves the flag
      with a living player of its own team. */
  lemma ReissuedCarrier(root: real -> real, dt: real) returns (shuffle: seq<Action>)
    requires IsRoot(root)
    ensures EnvOk(CornerEnv(root)) && Shuffles(shuffle)
    ensures var w := Run(CornerEnv(root), NewWorld(0, CTF), OPENING + shuffle + [Join([]), Tick], dt);
      w.modes == CTF && w.phase.Active? && Usurped(w, 0, 2) && !FlagsGood(w)
  {
    hide *;
    var (env, w0) := (CornerEnv(root), NewWorld(0, CTF));
    CornerEnvOk(root);
    OpeningRun(root, dt);
    var w3 := Run(env, w0, OPENING, dt);
    AwayMeans(w3);
    shuffle := StaleIsNear(env, w3, dt, 0);
    var w4 := Run(env, w3, shuffle, dt);
    AwayStays(w3, w4);
    ClosingRun(env, w4, dt);
    RunConcat(env, w0, OPENING, shuffle, dt);
    RunConcat(env, w0, OPENING + shuffle, [Join([]), Tick], dt);
  }
}
