/** Capture the flag, internal/game/ctf.go: who may hold a flag, where it is, and how often
    one tick can score. */
module CaptureTheFlag {
  import opened Wrappers
  import opened Wire
  import opened Reals
  import opened Movement
  import opened Arena
  import opened Ids
  import C = Chronicle
  import HitGrid
  import opened Rules
  import opened WorldInvariant
  import opened Sessions

  // ----- the properties

  /** Between any two steps: flags at home are as new, dropped ones have no carrier, a
      carrier that is present is an enemy of the flag, and nobody carries both. */
  ghost predicate FlagsSane(w: State) {
    && |w.flags| == 2 && FlagSane(w, 0) && FlagSane(w, 1)
    && !(w.flags[0].status.Carried? && w.flags[1].status.Carried? && w.flags[0].carrier == w.flags[1].carrier)
  }

  ghost predicate FlagSane(w: State, i: nat)
    requires i < 2 && |w.flags| == 2
  {
    var f := w.flags[i];
    match f.status
    case AtBase => f.x == FLAG_BASES[i].x && f.y == FLAG_BASES[i].y && f.carrier == 0
    case Dropped => f.carrier == 0
    case Carried => f.carrier in w.players ==> w.players[f.carrier].team % 2 != i
  }

  /** A carried flag has a present, living carrier of the other team and is where that is. */
  ghost predicate CarrierHolds(w: State, i: nat)
    requires i < 2 && |w.flags| == 2
  {
    var f := w.flags[i];
    f.status.Carried? ==>
      && f.carrier in w.players && !w.players[f.carrier].dead && w.players[f.carrier].team % 2 != i
      && f.x == w.players[f.carrier].move.x && f.y == w.players[f.carrier].move.y
  }

  /** The flags matter while a match is on; its start resets them. */
  ghost predicate SaneInPlay(w: State) {
    w.phase.Active? ==> FlagsSane(w)
  }

  ghost predicate FlagsGood(w: State) {
    FlagsSane(w) && CarrierHolds(w, 0) && CarrierHolds(w, 1)
  }

  function CapturesIn(es: seq<Event>): nat {
    if es == [] then 0 else CapturesIn(es[..|es| - 1]) + (if es[|es| - 1].Capture? then 1 else 0)
  }

  // ----- everything but the flag rules leaves flags alone

  /** Same flags, and no capture among the events. */
  ghost predicate Unflagged(w: State, w': State) {
    w'.flags == w.flags && (CapturesIn(w.events) == 0 ==> CapturesIn(w'.events) == 0)
  }

  lemma OneMore(es: seq<Event>, e: Event)
    ensures CapturesIn(es + [e]) == CapturesIn(es) + if e.Capture? then 1 else 0
  {
    assert (es + [e])[..|es|] == es;
  }

  lemma FoldUnflagged<A(!new)>(f: (State, A) -> State, w: State, xs: seq<A>)
    requires forall s, x :: Unflagged(s, f(s, x))
    ensures Unflagged(w, Fold(f, w, xs))
  {
    hide CapturesIn;
    var inv := (s: State) => Unflagged(w, s);
    forall s, x | inv(s) && x in xs
      ensures inv(f(s, x))
    {
      assert Unflagged(s, f(s, x));
    }
    FoldInv(f, w, xs, inv);
  }

  lemma {:induction false} SpawnFanUnflagged(env: Env, w: State, id: nat, start: real, step: real, rewind: int, n: nat)
    ensures Unflagged(w, SpawnFan(env, w, id, start, step, rewind, n))
  {
    hide Alloc, NewShot, Mul, CapturesIn;
    if n > 0 {
      SpawnFanUnflagged(env, w, id, start, step, rewind, n - 1);
    }
  }

  lemma VolleyUnflagged(env: Env, w: State, id: nat, ang: real, rewind: int, pellets: nat, step: real)
    ensures Unflagged(w, Volley(env, w, id, ang, rewind, pellets, step))
  {
    hide Alloc, NewShot, Mul, CapturesIn, SpawnFan;
    SpawnFanUnflagged(env, w, id, ang - Mul(step, (pellets - 1) as real) / 2.0, step, rewind, pellets);
  }

  lemma ApplyInputUnflagged(env: Env, w: State, id: nat, inp: Input)
    ensures Unflagged(w, ApplyInput(env, w, id, inp))
  {
    hide Driven, Triggered, Volley, CapturesIn, WeaponSpecOf, RewindOf, Has;
    forall w1: State, ang, rewind, pellets: nat, step
      ensures Unflagged(w1, Volley(env, w1, id, ang, rewind, pellets, step))
    {
      VolleyUnflagged(env, w1, id, ang, rewind, pellets, step);
    }
  }

  lemma PlayerTurnUnflagged(env: Env, w: State, id: nat)
    ensures Unflagged(w, PlayerTurn(env, w, id))
  {
    hide ApplyInput, CapturesIn;
    forall s, inp
      ensures Unflagged(s, InputOf(env, id)(s, inp))
    {
      ApplyInputUnflagged(env, s, id, inp);
    }
    if id in w.players {
      FoldUnflagged(InputOf(env, id), w, w.players[id].inputs);
    }
  }

  lemma PlayerTurnsUnflagged(env: Env, w: State)
    ensures Unflagged(w, PlayerTurns(env, w))
  {
    hide PlayerTurn, CapturesIn;
    forall s, id
      ensures Unflagged(s, TurnOf(env)(s, id))
    {
      PlayerTurnUnflagged(env, s, id);
    }
    FoldUnflagged(TurnOf(env), w, w.order);
  }

  lemma RecordKillUnflagged(w: State, id: nat)
    ensures Unflagged(w, RecordKill(w, id))
  {
    if id in w.players {
      OneMore(w.events, Killstreak(id, w.players[id].streak + 1));
    }
    hide CapturesIn;
  }

  lemma CreditUnflagged(w: State, victim: nat, attacker: nat)
    ensures Unflagged(w, Credit(w, victim, attacker))
  {
    hide RecordKill, CapturesIn;
    if attacker in w.players {
      RecordKillUnflagged(Put(w, w.players[attacker].(kills := w.players[attacker].kills + 1)), attacker);
    }
  }

  lemma ApplyDamageUnflagged(w: State, victim: nat, attacker: nat, dmg: nat)
    ensures Unflagged(w, ApplyDamage(w, victim, attacker, dmg))
  {
    if victim in w.players && w.players[victim].hp != 0 {
      var p := Wounded(w.players[victim], dmg);
      var es := w.events + [Hit(attacker, victim, dmg, p.hp)];
      OneMore(w.events, Hit(attacker, victim, dmg, p.hp));
      OneMore(es, Death(attacker, p.id));
      CreditUnflagged(Put(Put(w, p), Killed(p, w.tick)).(events := es + [Death(attacker, p.id)]), p.id, attacker);
    }
    hide CapturesIn, Credit;
  }

  lemma DetonateUnflagged(env: Env, w: State, pr: Projectile, victim: Option<nat>, wallHit: bool, ex: real, ey: real)
    ensures Unflagged(w, Detonate(env, w, pr, victim, wallHit, ex, ey))
  {
    hide ApplyDamage, CapturesIn, SplashDamage, TargetPos, Sq, WeaponSpecOf, HitGrid.Eligible;
    forall s: State, v: nat, a: nat, dmg: nat
      ensures Unflagged(s, ApplyDamage(s, v, a, dmg))
    {
      ApplyDamageUnflagged(s, v, a, dmg);
    }
    forall s, id
      ensures Unflagged(s, SplashOf(env, pr, ex, ey)(s, id))
    {
    }
    FoldUnflagged(SplashOf(env, pr, ex, ey), w, w.order);
  }

  lemma FlyAllUnflagged(env: Env, w: State, prs: seq<Projectile>, dt: real)
    ensures Unflagged(w, FlyAll(env, w, prs, dt).w)
  {
    hide Detonate, CapturesIn, HitGrid.LinearHit, WallOf, PathEnd, OutOfBounds, Mul;
    var inv := (f: Flight) => Unflagged(w, f.w);
    forall f, pr | inv(f) && pr in prs
      ensures inv(FlyOf(env, dt)(f, pr))
    {
      var (nx, ny) := (pr.x + Mul(pr.vx, dt), pr.y + Mul(pr.vy, dt));
      var wall := WallOf(pr, nx, ny);
      var (ex, ey) := PathEnd(pr, nx, ny, wall);
      DetonateUnflagged(env, f.w, pr, HitGrid.LinearHit(f.w, pr, ex, ey, f.w.order), wall.Some?, ex, ey);
    }
    FoldInv(FlyOf(env, dt), Flight(w, []), prs, inv);
  }

  lemma RespawnUnflagged(env: Env, w: State, id: nat)
    ensures Unflagged(w, Respawn(env, w, id))
  {
    hide SpawnPoint;
    var m := SpawnPoint(env, w.rng).0;
    OneMore(w.events, Spawn(id, m.x, m.y));
    hide CapturesIn;
  }

  lemma RespawnsUnflagged(env: Env, w: State)
    ensures Unflagged(w, Respawns(env, w))
  {
    hide Respawn, CapturesIn;
    forall s, id
      ensures Unflagged(s, RespawnOf(env)(s, id))
    {
      RespawnUnflagged(env, s, id);
    }
    FoldUnflagged(RespawnOf(env), w, w.order);
  }

  lemma StepPickupsUnflagged(env: Env, w: State)
    ensures Unflagged(w, StepPickups(env, w))
  {
    hide CapturesIn, Taker, Blessed;
    FoldUnflagged(PickupOf(env), w, [0, 1, 2, 3, 4]);
  }

  lemma ObjectivesUnflagged(env: Env, w: State)
    ensures Unflagged(w, Objectives(env, w))
  {
    StepPickupsUnflagged(env, w);
    hide CapturesIn, StepPickups, Holds;
  }

  lemma RestartsUnflagged(env: Env, w: State)
    ensures Unflagged(w, Fold(RestartOf(env), w, w.order))
  {
    hide Respawn, CapturesIn;
    forall s, id
      ensures Unflagged(s, RestartOf(env)(s, id))
    {
      forall s': State
        ensures Unflagged(s', Respawn(env, s', id))
      {
        RespawnUnflagged(env, s', id);
      }
    }
    FoldUnflagged(RestartOf(env), w, w.order);
  }

  lemma CombatUnflagged(env: Env, w: State, dt: real)
    ensures var w1 := Combat(env, w, dt); w1.flags == w.flags && CapturesIn(w1.events) == 0
  {
    var w0 := w.(events := []);
    PlayerTurnsUnflagged(env, w0);
    var w1 := PlayerTurns(env, w0);
    FlyAllUnflagged(env, w1, w1.projectiles, dt);
    RespawnsUnflagged(env, StepProjectiles(env, w1, dt));
    hide PlayerTurns, FlyAll, Respawns;
  }

  // ----- the flag rules

  /** What tending makes of one flag. */
  lemma TendedFlag(w: State, i: nat)
    requires |w.flags| == 2 && i < 2
    ensures var (f, w') := (w.flags[i], TendFlag(w, i));
      && w' == w.(flags := w.flags[i := w'.flags[i]]) && |w'.flags| == 2
      && var f' := w'.flags[i];
      && (f'.status.AtBase? ==> f' == BaseFlag(i) || f' == f)
      && (f'.status.Dropped? ==> f'.carrier == 0 || f' == f)
      && (f'.status.Carried? ==>
          && f.status.Carried? && f'.carrier == f.carrier && f.carrier in w.players && !w.players[f.carrier].dead
          && f'.x == w.players[f.carrier].move.x && f'.y == w.players[f.carrier].move.y)
  {
  }

  /** Flag `i` after tending is good, whatever it was. */
  lemma TendFlagGood(w: State, i: nat)
    requires FlagsSane(w) && i < 2
    ensures var w' := TendFlag(w, i);
      && FlagsSane(w') && CarrierHolds(w', i) && w'.flags[1 - i] == w.flags[1 - i]
      && w'.players == w.players && w'.order == w.order && w'.events == w.events
  {
    TendedFlag(w, i);
    hide TendFlag;
  }

  lemma TouchFlagGood(w: State, id: nat, i: nat)
    requires FlagsGood(w) && i < 2
    ensures var w' := TouchFlag(w, id, i);
      FlagsGood(w') && w'.players == w.players && w'.order == w.order && w'.events == w.events
  {
    hide Reaches;
  }

  lemma TouchesGood(w: State)
    requires FlagsGood(w)
    ensures var w' := Touches(w); FlagsGood(w') && w'.order == w.order && w'.events == w.events
  {
    hide FlagsGood, TouchFlag;
    var inv := (s: State) => FlagsGood(s) && s.order == w.order && s.events == w.events;
    forall s, id | inv(s) && id in w.order
      ensures inv(TouchOf()(s, id))
    {
      TouchFlagGood(s, id, 0);
      TouchFlagGood(TouchFlag(s, id, 0), id, 1);
    }
    FoldInv(TouchOf(), w, w.order, inv);
  }

  /** After a capture both flags are at home, so nobody captures again this tick. */
  ghost predicate AtMostOne(w: State) {
    && FlagsGood(w) && CapturesIn(w.events) <= 1
    && (CapturesIn(w.events) == 1 ==> w.flags[0].status.AtBase? && w.flags[1].status.AtBase?)
    && forall id :: id in w.players ==> w.players[id].id == id
  }

  lemma CaptureFlagGood(w: State, id: nat)
    requires FlagsGood(w) && CanCapture(w, id) && w.players[id].id == id
    ensures var w' := CaptureFlag(w, id);
      FlagsGood(w') && w'.flags[0].status.AtBase? && w'.flags[1].status.AtBase? && w'.events == w.events + [Capture(id)]
  {
    hide Reaches;
  }

  lemma CaptureFlagOnce(w: State, id: nat)
    requires AtMostOne(w)
    ensures AtMostOne(CaptureFlag(w, id))
  {
    OneMore(w.events, Capture(id));
    hide CapturesIn, Reaches;
    if CanCapture(w, id) {
      CaptureFlagGood(w, id);
    }
  }

  lemma CapturesOnce(w: State)
    requires AtMostOne(w)
    ensures AtMostOne(Captures(w))
  {
    hide AtMostOne, CaptureFlag;
    var inv := (s: State) => AtMostOne(s);
    forall s, id | inv(s) && id in w.order
      ensures inv(CaptureOf()(s, id))
    {
      CaptureFlagOnce(s, id);
    }
    FoldInv(CaptureOf(), w, w.order, inv);
  }

  lemma StepCTFGood(w: State)
    requires WorldOk(w) && SaneInPlay(w) && CapturesIn(w.events) == 0
    ensures SaneInPlay(StepCTF(w)) && CapturesIn(StepCTF(w).events) <= 1
    ensures w.modes.ctf && w.modes.team && w.phase.Active? ==> FlagsGood(StepCTF(w))
    ensures !w.phase.Active? ==> StepCTF(w) == w
  {
    PlayerIds(w);
    StepCTFOk(w);
    if w.modes.ctf && w.modes.team && w.phase.Active? {
      hide WorldOk, TendFlag, Touches, Captures, CapturesIn, FlagsSane, CarrierHolds;
      var w1 := TendFlag(w, 0);
      TendFlagGood(w, 0);
      TendFlagGood(w1, 1);
      BothTended(w, w1, TendFlag(w1, 1));
      var w2 := TendFlag(w1, 1);
      TouchesGood(w2);
      TouchesPlayers(w2);
      CapturesOnce(Touches(w2));
    }
  }

  lemma BothTended(w: State, w1: State, w2: State)
    requires FlagsSane(w1) && CarrierHolds(w1, 0) && w1.players == w.players
    requires FlagsSane(w2) && CarrierHolds(w2, 1) && w2.flags[0] == w1.flags[0] && w2.players == w1.players
    ensures FlagsGood(w2)
  {
  }

  lemma TouchesPlayers(w: State)
    requires FlagsGood(w)
    ensures Touches(w).players == w.players
  {
    hide FlagsGood, TouchFlag;
    var inv := (s: State) => FlagsGood(s) && s.players == w.players;
    forall s, id | inv(s) && id in w.order
      ensures inv(TouchOf()(s, id))
    {
      TouchFlagGood(s, id, 0);
      TouchFlagGood(TouchFlag(s, id, 0), id, 1);
    }
    FoldInv(TouchOf(), w, w.order, inv);
  }

  // ----- whole ticks

  /** Sanity speaks only of flags, of who is present, and of teams. */
  lemma SaneAlike(w: State, w': State)
    requires FlagsSane(w) && w'.flags == w.flags && SameSeats(w, w')
    ensures FlagsSane(w')
  {
  }

  /** Goodness also speaks of life and place. */
  lemma GoodAlike(w: State, w': State)
    requires FlagsGood(w) && w'.flags == w.flags && SameSeats(w, w')
    requires forall id :: id in w.players ==>
      w'.players[id].dead == w.players[id].dead && w'.players[id].move == w.players[id].move
    ensures FlagsGood(w')
  {
    SaneAlike(w, w');
  }

  lemma {:induction false} RecordedKeepsPlace(w: State, ids: seq<nat>)
    requires forall id :: id in w.players ==> w.players[id].id == id
    ensures var w' := Fold(RecordOf(), w, ids);
      && w'.players.Keys == w.players.Keys && w'.events == w.events && w'.flags == w.flags
      && (forall id :: id in w.players ==>
          && w'.players[id].id == id
          && w'.players[id].dead == w.players[id].dead && w'.players[id].move == w.players[id].move)
  {
    if ids != [] {
      RecordedKeepsPlace(w, ids[..|ids| - 1]);
    }
  }

  /** What the flags have to show for one tick. */
  ghost predicate TickGood(w: State) {
    && SaneInPlay(w) && CapturesIn(w.events) <= 1
    && (w.phase.Active? && w.modes.ctf && w.modes.team ==> FlagsGood(w))
  }

  lemma StepMatchGood(env: Env, w: State)
    requires EnvOk(env) && WorldOk(w) && TickGood(w)
    requires !w.phase.Active? ==> CapturesIn(w.events) == 0
    ensures TickGood(StepMatch(env, w))
  {
    StartMatchUnflagged(env, w);
    hide WorldOk, CapturesIn, Winner, StartMatch;
  }

  lemma StartMatchUnflagged(env: Env, w: State)
    ensures CapturesIn(w.events) == 0 ==> CapturesIn(StartMatch(env, w).events) == 0
    ensures FlagsGood(StartMatch(env, w))
  {
    RestartsUnflagged(env, Reopened(w));
    hide Fold, CapturesIn;
  }

  lemma StepGood(env: Env, w: State, dt: real)
    requires EnvOk(env) && WorldOk(w) && SaneInPlay(w)
    ensures TickGood(Step(env, w, dt))
  {
    hide WorldOk, Combat, Objectives, StepCTF, StepMatch, RecordHistory, FlagsSane, SaneInPlay, FlagsGood, TickGood;
    hide SameRoster, CapturesIn, EnvOk;
    BeforeCTF(env, w, dt);
    var w1 := Objectives(env, Combat(env, w, dt));
    StepCTFGood(w1);
    StepCTFOk(w1);
    AfterCTF(env, w1, StepCTF(w1));
    var w2 := StepCTF(w1).(tick := StepCTF(w1).tick + 1);
    StepMatchGood(env, w2);
    StepMatchOk(env, w2);
    Recording(env, w, dt, StepMatch(env, w2));
  }

  lemma BeforeCTF(env: Env, w: State, dt: real)
    requires EnvOk(env) && WorldOk(w)
    ensures var w1 := Objectives(env, Combat(env, w, dt));
      && KeepsOk(w, w1) && w1.flags == w.flags && CapturesIn(w1.events) == 0
      && (SaneInPlay(w) ==> SaneInPlay(w1))
  {
    CombatOk(env, w, dt);
    ObjectivesOk(env, Combat(env, w, dt));
    CombatUnflagged(env, w, dt);
    ObjectivesUnflagged(env, Combat(env, w, dt));
    hide Combat, Objectives, WorldOk, FlagsSane, CapturesIn;
    if FlagsSane(w) {
      SaneAlike(w, Objectives(env, Combat(env, w, dt)));
    }
  }

  lemma AfterCTF(env: Env, w1: State, w2: State)
    requires WorldOk(w2) && SameRoster(w1, w2) && SaneInPlay(w2) && CapturesIn(w2.events) <= 1
    requires w1.modes.ctf && w1.modes.team && w1.phase.Active? ==> FlagsGood(w2)
    requires CapturesIn(w1.events) == 0 && (!w1.phase.Active? ==> w2 == w1)
    ensures var w3 := w2.(tick := w2.tick + 1);
      WorldOk(w3) && TickGood(w3) && (!w3.phase.Active? ==> CapturesIn(w3.events) == 0)
  {
    TickOk(w2);
    hide WorldOk, CapturesIn;
    if FlagsSane(w2) {
      SaneAlike(w2, w2.(tick := w2.tick + 1));
    }
    if FlagsGood(w2) {
      GoodAlike(w2, w2.(tick := w2.tick + 1));
    }
  }

  lemma Recording(env: Env, w: State, dt: real, s: State)
    requires WorldOk(s) && TickGood(s) && Step(env, w, dt) == RecordHistory(s)
    ensures TickGood(Step(env, w, dt))
  {
    PlayerIds(s);
    RecordHistoryOk(s);
    RecordedKeepsPlace(s, s.order);
    hide WorldOk, CapturesIn, FlagsSane, Step;
    if FlagsSane(s) {
      SaneAlike(s, RecordHistory(s));
    }
    if FlagsGood(s) {
      GoodAlike(s, RecordHistory(s));
    }
  }

  // ----- whole runs

  /** Is flag `i` carried by an id that left, is next in line, and would be given to a
      player of the flag's own team? */
  ghost predicate Reissues(w: State, i: nat)
    requires i < 2 && |w.flags| == 2
  {
    && w.flags[i].status.Carried? && Alloc(w).0 == Some(w.flags[i].carrier)
    && (if w.modes.team then SmallerTeam(w) else 0) % 2 == i
  }

  ghost predicate StaleCarrier(w: State) {
    |w.flags| == 2 && (Reissues(w, 0) || Reissues(w, 1))
  }

  /** A join keeps the flags sane exactly when it does not hand on a carrier's id. */
  lemma JoinKeepsSaneIff(env: Env, w: State, name: Bytes)
    requires FlagsSane(w) && WorldOk(w)
    ensures FlagsSane(AddPlayer(env, w, name).0) <==> !StaleCarrier(w)
  {
    JoinTouches(env, w, name);
    JoinIsNew(w);
    hide AddPlayer, WorldOk, Alloc, SmallerTeam;
  }

  /** No join during a match hands on a carrier's id. */
  ghost predicate NoStaleCarrier(env: Env, w: State, acts: seq<Action>, dt: real)
    decreases |acts|
  {
    acts != [] ==>
      && !(acts[0].Join? && w.phase.Active? && StaleCarrier(w))
      && NoStaleCarrier(env, Act(env, w, acts[0], dt), acts[1..], dt)
  }

  /** The flags are sane in play, now and after every further action. */
  ghost predicate AlwaysSane(env: Env, w: State, acts: seq<Action>, dt: real)
    decreases |acts|
  {
    SaneInPlay(w) && (acts != [] ==> AlwaysSane(env, Act(env, w, acts[0], dt), acts[1..], dt))
  }

  lemma ActSane(env: Env, w: State, a: Action, dt: real)
    requires EnvOk(env) && WorldOk(w) && SaneInPlay(w)
    ensures SaneInPlay(Act(env, w, a, dt)) <==> !(a.Join? && w.phase.Active? && StaleCarrier(w))
  {
    match a
    case Join(name) =>
      JoinTouches(env, w, name);
      hide WorldOk, FlagsSane, AddPlayer, StaleCarrier;
      if w.phase.Active? {
        JoinKeepsSaneIff(env, w, name);
      }
    case Leave(id) =>
    case Enqueue(id, inp) => EnqueueSane(w, id, inp);
    case Tick => StepGood(env, w, dt);
  }

  lemma EnqueueSane(w: State, id: nat, inp: Input)
    requires WorldOk(w) && SaneInPlay(w)
    ensures SaneInPlay(EnqueueInput(w, id, inp))
  {
    EnqueueInputOk(w, id, inp);
    hide WorldOk, FlagsSane;
    if FlagsSane(w) {
      SaneAlike(w, EnqueueInput(w, id, inp));
    }
  }

  /** Over whole runs: the flags of a match in play are sane at every moment exactly when
      no join during a match hands on a carrier's id. */
  lemma {:induction false} RunSaneIff(env: Env, w: State, acts: seq<Action>, dt: real)
    requires EnvOk(env) && WorldOk(w) && SaneInPlay(w)
    ensures AlwaysSane(env, w, acts, dt) <==> NoStaleCarrier(env, w, acts, dt)
    ensures AlwaysSane(env, w, acts, dt) ==> SaneInPlay(Run(env, w, acts, dt))
    decreases |acts|
  {
    hide WorldOk, EnvOk, SaneInPlay, Act, StaleCarrier;
    if acts != [] {
      ActOk(env, w, acts[0], dt);
      ActSane(env, w, acts[0], dt);
      if SaneInPlay(Act(env, w, acts[0], dt)) {
        RunSaneIff(env, Act(env, w, acts[0], dt), acts[1..], dt);
      }
    }
  }

  /** After every tick of every run in this mode: if the match is on, the flags are good;
      and no tick captures twice. */
  lemma FlagsAreGood(env: Env, seed: int, m: Modes, acts: seq<Action>, dt: real)
    requires EnvOk(env) && m.team && m.ctf && NoStaleCarrier(env, NewWorld(seed, m), acts, dt)
    ensures var w := Step(env, Run(env, NewWorld(seed, m), acts, dt), dt);
      && CapturesIn(w.events) <= 1
      && (w.phase.Active? ==> FlagsGood(w))
  {
    var w0 := NewWorld(seed, m);
    NewWorldOk(seed, m);
    assert FlagsSane(w0);
    RunOk(env, w0, acts, dt);
    RunSaneIff(env, w0, acts, dt);
    var w := Run(env, w0, acts, dt);
    StepGood(env, w, dt);
    StepOk(env, w, dt);
    hide Step, Run, NewWorld, WorldOk, FlagsGood, FlagsSane, CapturesIn;
  }

  // ----- a reissued carrier

  /** Flag `i` is carried by a living player of the flag's own team. */
  ghost predicate Usurped(w: State, i: nat, id: nat)
    requires i < 2
  {
    && |w.flags| == 2 && w.flags[i].status.Carried? && w.flags[i].carrier == id
    && id in w.players && !w.players[id].dead && w.players[id].team % 2 == i
  }

  lemma UsurpedIsNotSane(w: State, i: nat, id: nat)
    requires i < 2 && Usurped(w, i, id)
    ensures !FlagsSane(w)
  {
  }

  /** The flag rules never take a flag from a living player of its own team. */
  lemma StepCTFUsurped(w: State, i: nat, id: nat)
    requires i < 2 && Usurped(w, i, id) && forall p :: p in w.players ==> w.players[p].id == p
    ensures Usurped(StepCTF(w), i, id)
  {
    if w.modes.ctf && w.modes.team && w.phase.Active? {
      var w1 := TendFlag(TendFlag(w, 0), 1);
      var inv := (s: State) => Usurped(s, i, id) && forall p :: p in s.players ==> s.players[p].id == p;
      TendUsurped(w, i, id, 0);
      TendUsurped(TendFlag(w, 0), i, id, 1);
      hide TouchFlag, CaptureFlag, TendFlag;
      forall s, o | inv(s)
        ensures inv(TouchOf()(s, o)) && inv(CaptureOf()(s, o))
      {
        TouchUsurped(s, i, id, o, 0);
        TouchUsurped(TouchFlag(s, o, 0), i, id, o, 1);
        CaptureUsurped(s, i, id, o);
      }
      FoldInv(TouchOf(), w1, w1.order, inv);
      FoldInv(CaptureOf(), Touches(w1), Touches(w1).order, inv);
    }
  }

  lemma TendUsurped(w: State, i: nat, id: nat, k: nat)
    requires i < 2 && k < 2 && Usurped(w, i, id)
    ensures Usurped(TendFlag(w, k), i, id) && TendFlag(w, k).players == w.players
  {
  }

  lemma TouchUsurped(w: State, i: nat, id: nat, o: nat, k: nat)
    requires i < 2 && k < 2 && Usurped(w, i, id)
    ensures Usurped(TouchFlag(w, o, k), i, id) && TouchFlag(w, o, k).players == w.players
  {
    hide Reaches;
  }

  lemma CaptureUsurped(w: State, i: nat, id: nat, o: nat)
    requires i < 2 && Usurped(w, i, id) && forall p :: p in w.players ==> w.players[p].id == p
    ensures var w' := CaptureFlag(w, o); Usurped(w', i, id) && forall p :: p in w'.players ==> w'.players[p].id == p
  {
    hide Reaches;
  }

  lemma BeforeUsurped(env: Env, w: State, dt: real, i: nat, id: nat)
    requires EnvOk(env) && WorldOk(w) && i < 2 && Usurped(w, i, id)
    requires id in Combat(env, w, dt).players && !Combat(env, w, dt).players[id].dead
    ensures var w1 := Objectives(env, Combat(env, w, dt)); KeepsOk(w, w1) && Usurped(w1, i, id)
  {
    hide WorldOk, Combat, Objectives, EnvOk, SaneInPlay;
    BeforeCTF(env, w, dt);
    CombatOk(env, w, dt);
    C.ObjectivesStill(env, Combat(env, w, dt));
  }

  lemma AfterUsurped(env: Env, w: State, i: nat, id: nat)
    requires WorldOk(w) && i < 2 && Usurped(w, i, id) && w.phase.Active? && w.tick + 1 < w.matchAt
    ensures var w1 := StepCTF(w).(tick := StepCTF(w).tick + 1);
      WorldOk(w1) && Usurped(w1, i, id) && StepMatch(env, w1) == w1 && w1.phase.Active?
  {
    PlayerIds(w);
    StepCTFOk(w);
    StepCTFUsurped(w, i, id);
    TickOk(StepCTF(w));
    hide WorldOk, StepCTF, EndMatch, StartMatch;
  }

  /** Once a carrier's id was handed on within its own team, the flags stay wrong through
      every tick that neither kills the new carrier nor ends the match. */
  lemma ReissueLasts(env: Env, w: State, dt: real, i: nat, id: nat)
    requires EnvOk(env) && WorldOk(w) && i < 2 && Usurped(w, i, id) && w.phase.Active? && w.tick + 1 < w.matchAt
    requires id in Combat(env, w, dt).players && !Combat(env, w, dt).players[id].dead
    ensures var w' := Step(env, w, dt); Usurped(w', i, id) && w'.phase.Active? && !FlagsGood(w')
  {
    hide WorldOk, Combat, Objectives, StepCTF, StepMatch, RecordHistory, EnvOk;
    BeforeUsurped(env, w, dt, i, id);
    var w1 := Objectives(env, Combat(env, w, dt));
    AfterUsurped(env, w1, i, id);
    RecordUsurped(StepCTF(w1).(tick := StepCTF(w1).tick + 1), i, id);
    UsurpedIsNotSane(Step(env, w, dt), i, id);
  }

  lemma RecordUsurped(w: State, i: nat, id: nat)
    requires WorldOk(w) && i < 2 && Usurped(w, i, id)
    ensures Usurped(RecordHistory(w), i, id) && RecordHistory(w).phase == w.phase
  {
    PlayerIds(w);
    RecordHistoryOk(w);
    RecordedKeepsPlace(w, w.order);
    hide WorldOk;
  }
}
