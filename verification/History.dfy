/** Lag compensation, internal/game/combat.go: the ring of positions gives back what the
    snapshots showed, tick by tick, and the spawn point for ticks before the last spawn. */
module History {
  import opened Wrappers
  import opened Wire
  import opened Movement
  import opened Arena
  import opened Ids
  import HitGrid
  import R = Rules
  import opened WorldInvariant
  import opened Sessions
  import opened Chronicle
  import W = World

  // ----- what the clients were shown

  /** The positions published under each tick's label; and for each player the first label
      published since it last spawned or joined, and where that was. */
  datatype Show = Show(pub: map<nat, map<nat, Pos>>, since: map<nat, nat>, origin: map<nat, Pos>)

  function Positions(w: State): map<nat, Pos> {
    map id | id in w.players :: Pos(w.players[id].move.x, w.players[id].move.y)
  }

  function LastSpawn(es: seq<Event>, id: nat): Option<Pos> {
    if es == [] then None
    else
      var e := es[|es| - 1];
      if Revives(e, id) then Some(Pos(e.x, e.y)) else LastSpawn(es[..|es| - 1], id)
  }

  ghost function Watch(env: Env, w: State, a: Action, dt: real, s: Show): Show {
    var w' := Act(env, w, a, dt);
    match a
    case Join(name) =>
      var r := R.AddPlayer(env, w, name).1;
      if r.None? || r.value !in w'.players then s
      else s.(since := s.since[r.value := w.tick + 1], origin := s.origin[r.value := Positions(w')[r.value]])
    case Leave(_) => s
    case Enqueue(_, _) => s
    case Tick =>
      Show(s.pub[w'.tick := Positions(w')],
           map id | id in s.since :: if LastSpawn(w'.events, id).Some? then w'.tick else s.since[id],
           map id | id in s.origin ::
             if LastSpawn(w'.events, id).Some? then LastSpawn(w'.events, id).value else s.origin[id])
  }

  ghost function WatchAll(env: Env, w: State, acts: seq<Action>, dt: real, s: Show): Show
    decreases |acts|
  {
    if acts == [] then s else WatchAll(env, Act(env, w, acts[0], dt), acts[1..], dt, Watch(env, w, acts[0], dt, s))
  }

  /** Where the clients saw player `id` at the tick with this label: at the published
      position, or at the spawn point if it has (re)spawned since. */
  ghost predicate Saw(s: Show, id: nat, at: int, p: Pos) {
    && id in s.since && id in s.origin
    && if at >= s.since[id] then at in s.pub && id in s.pub[at] && p == s.pub[at][id] else p == s.origin[id]
  }

  // ----- the ring agrees

  /** The window of a player's ring shows what was seen. */
  ghost predicate RingOk(p: Player, id: nat, tick: nat, s: Show) {
    && id in s.since && s.since[id] <= tick + 1
    && forall at: int :: tick - HISTORY_LEN < at <= tick ==> Saw(s, id, at, p.posHist[HistSlot(at)])
  }

  ghost predicate RingsOk(w: State, s: Show) {
    forall id :: id in w.players ==> RingOk(w.players[id], id, w.tick, s)
  }

  lemma {:induction false} HistoryIsLastSpawn(h: PosHist, es: seq<Event>, id: nat)
    ensures var p := LastSpawn(es, id);
      HistoryAfter(h, es, id) == if p.Some? then Flat(p.value.x, p.value.y) else h
  {
    if es != [] {
      HistoryIsLastSpawn(h, es[..|es| - 1], id);
    }
  }

  lemma SlotsDiffer(at: int, tick: int)
    requires tick - HISTORY_LEN < at < tick
    ensures HistSlot(at) != HistSlot(tick)
  {
  }

  /** One tick of one ring. */
  lemma RingSteps(p: Player, p': Player, id: nat, tick: nat, es: seq<Event>, s: Show, s': Show)
    requires RingOk(p, id, tick, s)
    requires p'.posHist == HistoryAfter(p.posHist, es, id)[HistSlot(tick + 1) := Pos(p'.move.x, p'.move.y)]
    requires id in s'.since && id in s'.origin && id in s.origin
    requires tick + 1 in s'.pub && id in s'.pub[tick + 1] && s'.pub[tick + 1][id] == Pos(p'.move.x, p'.move.y)
    requires forall at :: at in s.pub && at != tick + 1 ==> at in s'.pub && s'.pub[at] == s.pub[at]
    requires var q := LastSpawn(es, id);
      && s'.since[id] == (if q.Some? then tick + 1 else s.since[id])
      && s'.origin[id] == (if q.Some? then q.value else s.origin[id])
    ensures RingOk(p', id, tick + 1, s')
  {
    HistoryIsLastSpawn(p.posHist, es, id);
    hide LastSpawn, HistoryAfter;
    forall at: int | tick + 1 - HISTORY_LEN < at <= tick + 1
      ensures Saw(s', id, at, p'.posHist[HistSlot(at)])
    {
      if at <= tick {
        SlotsDiffer(at, tick + 1);
        assert Saw(s, id, at, p.posHist[HistSlot(at)]);
      }
    }
  }

  /** What one tick adds to what was shown of one player. */
  lemma WatchedTick(w': State, es: seq<Event>, s: Show, s': Show, id: nat)
    requires id in w'.players && id in s.since && id in s.origin
    requires s' == Show(s.pub[w'.tick := Positions(w')],
                        map i | i in s.since :: if LastSpawn(es, i).Some? then w'.tick else s.since[i],
                        map i | i in s.origin :: if LastSpawn(es, i).Some? then LastSpawn(es, i).value else s.origin[i])
    ensures id in s'.since && id in s'.origin
    ensures w'.tick in s'.pub && id in s'.pub[w'.tick]
    ensures s'.pub[w'.tick][id] == Pos(w'.players[id].move.x, w'.players[id].move.y)
    ensures forall at :: at in s.pub && at != w'.tick ==> at in s'.pub && s'.pub[at] == s.pub[at]
    ensures var q := LastSpawn(es, id);
      && s'.since[id] == (if q.Some? then w'.tick else s.since[id])
      && s'.origin[id] == (if q.Some? then q.value else s.origin[id])
  {
    hide LastSpawn;
  }

  lemma BookOf(env: Env, w: State, dt: real, id: nat)
    requires EnvOk(env) && WorldOk(w)
    ensures var w' := R.Step(env, w, dt);
      && (id in w'.players <==> id in w.players) && w'.tick == w.tick + 1
      && (id in w.players ==>
          w'.players[id].posHist == HistoryAfter(w.players[id].posHist, w'.events, id)
            [HistSlot(w'.tick) := Pos(w'.players[id].move.x, w'.players[id].move.y)])
  {
    hide R.Step, WorldOk, EnvOk;
    StepBooks(env, w, dt);
  }

  lemma TickWatched(env: Env, w: State, dt: real, s: Show)
    requires EnvOk(env) && WorldOk(w) && RingsOk(w, s)
    ensures RingsOk(R.Step(env, w, dt), Watch(env, w, Tick, dt, s))
  {
    hide WorldOk, EnvOk, R.Step, HistoryAfter, LastSpawn, RingOk, Positions;
    var (w', s') := (R.Step(env, w, dt), Watch(env, w, Tick, dt, s));
    forall id | id in w'.players
      ensures RingOk(w'.players[id], id, w'.tick, s')
    {
      BookOf(env, w, dt, id);
      Known(w.players[id], id, w.tick, s);
      WatchedTick(w', w'.events, s, s', id);
      RingSteps(w.players[id], w'.players[id], id, w.tick, w'.events, s, s');
    }
  }

  lemma Known(p: Player, id: nat, tick: nat, s: Show)
    requires RingOk(p, id, tick, s)
    ensures id in s.since && id in s.origin
  {
    assert Saw(s, id, tick, p.posHist[HistSlot(tick)]);
  }

  /** A newcomer's ring shows its spawn point throughout. */
  lemma NewcomerRing(env: Env, w: State, name: Bytes)
    ensures var (w', r) := R.AddPlayer(env, w, name);
      w'.tick == w.tick && (r.Some? ==>
        && r.value in w'.players
        && w'.players[r.value].posHist == Flat(w'.players[r.value].move.x, w'.players[r.value].move.y))
  {
    hide Alloc, R.SpawnPoint, R.SmallerTeam, R.InsertId;
  }

  lemma JoinWatched(env: Env, w: State, name: Bytes, dt: real, s: Show)
    requires RingsOk(w, s)
    ensures RingsOk(Act(env, w, Join(name), dt), Watch(env, w, Join(name), dt, s))
  {
    JoinTouches(env, w, name);
    NewcomerRing(env, w, name);
    var (w', r) := R.AddPlayer(env, w, name);
    var s' := Watch(env, w, Join(name), dt, s);
    hide R.AddPlayer, LastSpawn;
    forall id | id in w'.players
      ensures RingOk(w'.players[id], id, w'.tick, s')
    {
      if r.Some? && id == r.value {
      } else {
        forall at: int | w.tick - HISTORY_LEN < at <= w.tick
          ensures Saw(s', id, at, w'.players[id].posHist[HistSlot(at)])
        {
          assert Saw(s, id, at, w.players[id].posHist[HistSlot(at)]);
        }
      }
    }
  }

  lemma ActWatched(env: Env, w: State, a: Action, dt: real, s: Show)
    requires EnvOk(env) && WorldOk(w) && RingsOk(w, s)
    ensures RingsOk(Act(env, w, a, dt), Watch(env, w, a, dt, s))
  {
    match a
    case Join(name) => JoinWatched(env, w, name, dt, s);
    case Leave(id) =>
    case Enqueue(id, inp) => EnqueueWatched(w, id, inp, s);
    case Tick => TickWatched(env, w, dt, s);
  }

  lemma EnqueueWatched(w: State, id: nat, inp: Input, s: Show)
    requires WorldOk(w) && RingsOk(w, s)
    ensures RingsOk(R.EnqueueInput(w, id, inp), s)
  {
    PlayerIds(w);
    hide WorldOk;
    var w' := R.EnqueueInput(w, id, inp);
    forall k | k in w'.players
      ensures RingOk(w'.players[k], k, w'.tick, s)
    {
      assert RingOk(w.players[k], k, w.tick, s);
    }
  }

  lemma {:induction false} RunWatched(env: Env, w: State, acts: seq<Action>, dt: real, s: Show)
    requires EnvOk(env) && WorldOk(w) && RingsOk(w, s)
    ensures RingsOk(Run(env, w, acts, dt), WatchAll(env, w, acts, dt, s))
    decreases |acts|
  {
    hide WorldOk, EnvOk, Act, Watch, RingsOk;
    if acts != [] {
      ActOk(env, w, acts[0], dt);
      ActWatched(env, w, acts[0], dt, s);
      RunWatched(env, Act(env, w, acts[0], dt), acts[1..], dt, Watch(env, w, acts[0], dt, s));
    }
  }

  /** In every reachable world, looking 1 to 31 ticks back at any player gives what the
      snapshot with that label showed, or its spawn point if it spawned since. */
  lemma TargetPosIsShown(env: Env, seed: int, m: Modes, acts: seq<Action>, dt: real, id: nat, rewind: int)
    requires EnvOk(env) && 1 <= rewind < HISTORY_LEN
    requires id in Run(env, R.NewWorld(seed, m), acts, dt).players
    ensures var w0 := R.NewWorld(seed, m);
      var w := Run(env, w0, acts, dt);
      var s := WatchAll(env, w0, acts, dt, Show(map[], map[], map[]));
      Saw(s, id, w.tick - rewind, TargetPos(w.players[id], w.tick, rewind))
  {
    var w0 := R.NewWorld(seed, m);
    var s0 := Show(map[], map[], map[]);
    NewWorldOk(seed, m);
    RunWatched(env, w0, acts, dt, s0);
    hide Run, WatchAll, WorldOk, Saw;
    var w := Run(env, w0, acts, dt);
    assert RingOk(w.players[id], id, w.tick, WatchAll(env, w0, acts, dt, s0));
  }

  // ----- the same in the middle of a tick

  lemma {:induction false} FlyAllDeaths(env: Env, w: State, prs: seq<Projectile>, dt: real)
    requires WorldOk(w)
    ensures W.SoundDeaths(w, R.FlyAll(env, w, prs, dt).w)
  {
    W.SoundDeathsReflexive(w);
    hide WorldOk, W.SoundDeaths, R.Fly;
    var inv := (f: R.Flight) => W.SoundDeaths(w, f.w);
    forall f, pr | inv(f) && pr in prs
      ensures inv(R.FlyOf(env, dt)(f, pr))
    {
      FlyDeaths(env, w, f, pr, dt);
    }
    FoldInv(R.FlyOf(env, dt), R.Flight(w, []), prs, inv);
  }

  lemma FlyDeaths(env: Env, w0: State, f: R.Flight, pr: Projectile, dt: real)
    requires W.SoundDeaths(w0, f.w)
    ensures W.SoundDeaths(w0, R.Fly(env, f, pr, dt).w)
  {
    hide WorldOk, R.Detonate, HitGrid.LinearHit, R.WallOf, R.OutOfBounds, HitGrid.OnlyDeaths;
    forall victim: Option<nat>, wallHit, ex, ey
      ensures W.SoundDeaths(w0, R.Detonate(env, f.w, pr, victim, wallHit, ex, ey))
    {
      W.DetonateDeaths(env, f.w, pr, victim, wallHit, ex, ey);
      W.DeathsChain(w0, f.w, R.Detonate(env, f.w, pr, victim, wallHit, ex, ey));
    }
  }

  /** Whenever `stepProjectiles` tests a player, after any shots and deaths earlier in the
      tick, the rewound position is the one that was shown. */
  lemma RewindIsShown(env: Env, w: State, dt: real, s: Show, n: nat, pr: Projectile, id: nat)
    requires EnvOk(env) && WorldOk(w) && RingsOk(w, s) && 1 <= pr.rewind <= MAX_REWIND
    requires var w1 := R.PlayerTurns(env, w.(events := []));
      n <= |w1.projectiles| && HitGrid.Eligible(R.FlyAll(env, w1, w1.projectiles[..n], dt).w, pr, id)
    ensures var w1 := R.PlayerTurns(env, w.(events := []));
      var now := R.FlyAll(env, w1, w1.projectiles[..n], dt).w;
      now.tick == w.tick && Saw(s, id, now.tick - pr.rewind, TargetPos(now.players[id], now.tick, pr.rewind))
  {
    hide *;
    var w0 := w.(events := []);
    TurnsTaken(env, w);
    var w1 := R.PlayerTurns(env, w0);
    FlyAllDeaths(env, w1, w1.projectiles[..n], dt);
    RewindAfterDeaths(w, w0, w1, R.FlyAll(env, w1, w1.projectiles[..n], dt).w, s, pr, id);
  }

  lemma TurnsTaken(env: Env, w: State)
    requires EnvOk(env) && WorldOk(w)
    ensures var w1 := R.PlayerTurns(env, w.(events := [])); WorldOk(w1) && Still(w.(events := []), w1)
  {
    OtherFieldsOk(w, w.(events := []));
    hide R.PlayerTurns, WorldOk;
    PlayerTurnsStill(env, w.(events := []));
  }

  lemma RewindAfterDeaths(w: State, w0: State, w1: State, now: State, s: Show, pr: Projectile, id: nat)
    requires RingsOk(w, s) && w0 == w.(events := []) && Still(w0, w1) && W.SoundDeaths(w1, now)
    requires HitGrid.Eligible(now, pr, id) && 1 <= pr.rewind <= MAX_REWIND
    ensures now.tick == w.tick && Saw(s, id, now.tick - pr.rewind, TargetPos(now.players[id], now.tick, pr.rewind))
  {
    hide WorldOk, Saw;
    assert HitGrid.Living(now, id);
    assert RingOk(w.players[id], id, w.tick, s);
  }
}
