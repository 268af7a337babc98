/** Client and world together, web/game.js and internal/game/world.go: as long as one
    player lives, the real world, whatever else goes on in it, is the server that
    `Prediction` speaks of. */
module Lockstep {
  import opened Wire
  import opened Walls
  import opened Movement
  import opened Arena
  import opened Ids
  import R = Rules
  import opened WorldInvariant
  import opened Sessions
  import C = Chronicle
  import J = Journey
  import opened P = Prediction

  /** What happens next: something at the client or on the wire, or an action of the room. */
  datatype Turn = AtClient(h: Happening) | AtServer(a: Action)

  /** What an action of the room means to player `id`. */
  function Shadow(t: Turn, id: nat): seq<Happening> {
    match t
    case AtClient(h) => [h]
    case AtServer(Tick) => [Happening.Tick]
    case AtServer(Enqueue(i, _)) => if i == id then [Arrive] else []
    case AtServer(_) => []
  }

  function Shadows(ts: seq<Turn>, id: nat): seq<Happening> {
    if ts == [] then [] else Shadow(ts[0], id) + Shadows(ts[1..], id)
  }

  ghost function WorldAfter(env: Env, w: State, ts: seq<Turn>, dt: real): State
    decreases |ts|
  {
    if ts == [] then w
    else WorldAfter(env, if ts[0].AtServer? then Act(env, w, ts[0].a, dt) else w, ts[1..], dt)
  }

  function Actions(ts: seq<Turn>): seq<Action> {
    if ts == [] then [] else (if ts[0].AtServer? then [ts[0].a] else []) + Actions(ts[1..])
  }

  /** The room sees its own actions only. */
  lemma {:induction false} RoomRuns(env: Env, w: State, ts: seq<Turn>, dt: real)
    ensures WorldAfter(env, w, ts, dt) == Run(env, w, Actions(ts), dt)
    decreases |ts|
  {
    hide Act;
    if ts != [] {
      var rest := Actions(ts[1..]);
      RoomRuns(env, if ts[0].AtServer? then Act(env, w, ts[0].a, dt) else w, ts[1..], dt);
      assert ts[0].AtServer? ==> ([ts[0].a] + rest)[1..] == rest;
      assert [] + rest == rest;
    }
  }

  /** The world's player is the server's side of the life. */
  ghost predicate Linked(b: Birth, l: Life, w: State, id: nat) {
    && id in w.players && l.done <= l.arrived <= |l.sent|
    && var p := w.players[id];
    && !p.dead && p.move == l.server && p.lastProcessedSeq == l.lastSeq && w.tick == l.tick
    && p.inputs == l.sent[l.done..l.arrived]
    && (p.hasQueued ==> p.lastQueuedSeq <= b.base + l.arrived)
  }

  /** One turn of a life: the room hands over the player's inputs as they were sent, the
      player stays, and no tick fells or revives it. */
  ghost predicate OneLife(env: Env, l: Life, w: State, t: Turn, dt: real, id: nat) {
    match t
    case AtClient(h) => !h.Arrive? && !h.Tick?
    case AtServer(Enqueue(i, inp)) => i == id ==> l.arrived < |l.sent| && inp == l.sent[l.arrived]
    case AtServer(Leave(i)) => i != id
    case AtServer(Join(_)) => true
    case AtServer(Tick) => J.NoTurningPoint(R.Step(env, w, dt).events, id)
  }

  ghost predicate OneLifeLong(env: Env, b: Birth, l: Life, w: State, ts: seq<Turn>, dt: real, id: nat)
    decreases |ts|
  {
    ts != [] ==>
      && OneLife(env, l, w, ts[0], dt, id)
      && var (l', w') := (LiveAll(env.root, b, l, Shadow(ts[0], id)), WorldAfter(env, w, ts[..1], dt));
      OneLifeLong(env, b, l', w', ts[1..], dt, id)
  }

  lemma ClientTurn(root: real -> real, b: Birth, l: Life, w: State, h: Happening, id: nat)
    requires Linked(b, l, w, id) && !h.Arrive? && !h.Tick?
    ensures Linked(b, Live(root, b, l, h), w, id)
  {
    hide Pressed, Reconciled;
    var l' := Live(root, b, l, h);
    assert l'.sent[l.done..l.arrived] == l.sent[l.done..l.arrived];
  }

  /** The next input is always accepted. */
  lemma ArriveTurn(root: real -> real, b: Birth, l: Life, w: State, id: nat)
    requires Linked(b, l, w, id) && l.arrived < |l.sent| && Numbered(l.sent, b.base) && WorldOk(w)
    ensures Linked(b, Live(root, b, l, Arrive), R.EnqueueInput(w, id, l.sent[l.arrived]), id)
  {
    assert l.sent[l.done..l.arrived] + [l.sent[l.arrived]] == l.sent[l.done..l.arrived + 1];
    hide ShotsOk, PlayerOk;
  }

  lemma OtherTurn(env: Env, b: Birth, l: Life, w: State, a: Action, dt: real, id: nat)
    requires Linked(b, l, w, id) && WorldOk(w) && !a.Tick?
    requires match a case Enqueue(i, _) => i != id case Leave(i) => i != id case Join(_) => true
    ensures Linked(b, l, Act(env, w, a, dt), id)
  {
    match a
    case Join(name) =>
      JoinTouches(env, w, name);
      JoinIsNew(w);
      JoinTick(env, w, name);
      hide R.AddPlayer, Alloc, WorldOk;
    case Leave(i) =>
    case Enqueue(i, inp) => PlayerIds(w);
  }

  lemma JoinTick(env: Env, w: State, name: Bytes)
    ensures R.AddPlayer(env, w, name).0.tick == w.tick
  {
    hide Alloc, R.SpawnPoint, R.SmallerTeam, R.InsertId;
  }

  lemma {:induction false} SeqOfNumbered(last: nat, inputs: seq<Input>, base: nat)
    requires Numbered(inputs, base) && last <= base
    ensures J.SeqAfter(last, inputs) == if inputs == [] then last else inputs[|inputs| - 1].seq_
  {
    if inputs != [] {
      SeqOfNumbered(last, inputs[..|inputs| - 1], base);
    }
  }

  lemma TickTurn(env: Env, b: Birth, l: Life, w: State, dt: real, id: nat)
    requires EnvOk(env) && WorldOk(w) && Linked(b, l, w, id) && ServerOk(env.root, b, l)
    requires J.NoTurningPoint(R.Step(env, w, dt).events, id)
    ensures Linked(b, Live(env.root, b, l, Happening.Tick), R.Step(env, w, dt), id)
  {
    LinkedMeans(b, l, w, id);
    hide *;
    J.StepMovesByInputs(env, w, dt, id);
    StepOk(env, w, dt);
    NumberedFrom(env.root, b, l);
    SeqOfNumbered(l.lastSeq, l.sent[l.done..l.arrived], b.base + l.done);
    TickLinks(env.root, b, l, w, R.Step(env, w, dt), id);
  }

  lemma LinkedMeans(b: Birth, l: Life, w: State, id: nat)
    requires Linked(b, l, w, id)
    ensures l.done <= l.arrived <= |l.sent| && id in w.players
    ensures var p := w.players[id];
      !p.dead && p.inputs == l.sent[l.done..l.arrived] && p.move == l.server && p.lastProcessedSeq == l.lastSeq
  {
  }

  lemma TickLinks(root: real -> real, b: Birth, l: Life, w: State, w': State, id: nat)
    requires Linked(b, l, w, id) && id in w'.players && w'.tick == w.tick + 1
    requires var (p, p') := (w.players[id], w'.players[id]);
      && !p'.dead && p'.move == MovedAll(root, p.move, p.inputs) && p'.inputs == []
      && p'.hasQueued == p.hasQueued && p'.lastQueuedSeq == p.lastQueuedSeq
      && p'.lastProcessedSeq == if p.inputs == [] then l.lastSeq else p.inputs[|p.inputs| - 1].seq_
    ensures Linked(b, Live(root, b, l, Happening.Tick), w', id)
  {
    hide MovedAll;
    assert l.sent[l.arrived..l.arrived] == [];
  }

  lemma NumberedFrom(root: real -> real, b: Birth, l: Life)
    requires ServerOk(root, b, l)
    ensures Numbered(l.sent[l.done..l.arrived], b.base + l.done) && l.lastSeq <= b.base + l.done
  {
    hide At;
  }

  lemma TurnLinked(env: Env, b: Birth, l: Life, w: State, t: Turn, dt: real, id: nat)
    requires EnvOk(env) && WorldOk(w) && Linked(b, l, w, id) && Inv(env.root, b, l) && OneLife(env, l, w, t, dt, id)
    ensures var (l', w') := (LiveAll(env.root, b, l, Shadow(t, id)), if t.AtServer? then Act(env, w, t.a, dt) else w);
      Linked(b, l', w', id) && WorldOk(w') && Inv(env.root, b, l')
  {
    hide Linked, WorldOk, Live, EnvOk, J.NoTurningPoint, SnapsOk, Tracks, At;
    assert ServerOk(env.root, b, l) && Numbered(l.sent, b.base);
    LifeKeeps(env.root, b, l, Shadow(t, id));
    match t
    case AtClient(h) =>
      OneHappening(env.root, b, l, h);
      ClientTurn(env.root, b, l, w, h, id);
    case AtServer(a) =>
      ActOk(env, w, a, dt);
      hide Inv;
      match a
      case Tick =>
        OneHappening(env.root, b, l, Happening.Tick);
        TickTurn(env, b, l, w, dt, id);
      case Enqueue(i, inp) =>
        if i == id {
          OneHappening(env.root, b, l, Arrive);
          ArriveTurn(env.root, b, l, w, id);
        } else {
          OtherTurn(env, b, l, w, a, dt, id);
        }
      case _ => OtherTurn(env, b, l, w, a, dt, id);
  }

  /** A run of the room in which the player lives on is a run of its life: the world's
      player is, at the end, what that life says the server's player is. */
  lemma {:induction false} WorldIsLife(env: Env, b: Birth, l: Life, w: State, ts: seq<Turn>, dt: real, id: nat)
    requires EnvOk(env) && WorldOk(w) && Linked(b, l, w, id) && Inv(env.root, b, l)
    requires OneLifeLong(env, b, l, w, ts, dt, id)
    ensures var l' := LiveAll(env.root, b, l, Shadows(ts, id));
      && Linked(b, l', WorldAfter(env, w, ts, dt), id) && Inv(env.root, b, l')
      && WorldAfter(env, w, ts, dt) == Run(env, w, Actions(ts), dt)
    decreases |ts|
  {
    hide Linked, WorldOk, Live, EnvOk, Inv, OneLife, Shadow, Act, Run, Actions;
    RoomRuns(env, w, ts, dt);
    if ts != [] {
      var l1 := LiveAll(env.root, b, l, Shadow(ts[0], id));
      var w1 := if ts[0].AtServer? then Act(env, w, ts[0].a, dt) else w;
      assert ts[..1][1..] == [] && ts[..1][0] == ts[0];
      assert WorldAfter(env, w, ts[..1], dt) == w1;
      TurnLinked(env, b, l, w, ts[0], dt, id);
      WorldIsLife(env, b, l1, w1, ts[1..], dt, id);
      LiveConcat(env.root, b, l, Shadow(ts[0], id), Shadows(ts[1..], id));
    }
  }

  /** The prediction is where the player stands in the world, moved on by the inputs that
      are still under way. */
  ghost predicate Foretold(root: real -> real, l: Life, w: State, id: nat) {
    && id in w.players && l.done <= |l.sent|
    && l.client.pred == PointOf(MovedAll(root, w.players[id].move, l.sent[l.done..]))
  }

  lemma LinkedIsForetold(root: real -> real, b: Birth, l: Life, w: State, id: nat)
    requires ServerOk(root, b, l) && Exact(root, b, l) && Linked(b, l, w, id)
    ensures Foretold(root, l, w, id)
  {
    hide MovedAll, At, Numbered, Exact;
    PredictionAhead(root, b, l);
  }

  lemma InvServer(root: real -> real, b: Birth, l: Life)
    requires Inv(root, b, l)
    ensures ServerOk(root, b, l)
  {
  }

  /** So a prediction that is right once stays right about the real world. */
  lemma PredictionMeetsWorld(env: Env, b: Birth, l: Life, w: State, ts: seq<Turn>, dt: real, id: nat)
    requires EnvOk(env) && WorldOk(w) && Linked(b, l, w, id) && Inv(env.root, b, l) && Sound(env.root, b, l)
    requires OneLifeLong(env, b, l, w, ts, dt, id)
    ensures var (l', w') := (LiveAll(env.root, b, l, Shadows(ts, id)), Run(env, w, Actions(ts), dt));
      l'.client.ready ==>
        && Foretold(env.root, l', w', id)
        && forall j: nat :: Live(env.root, b, l', Deliver(j)).client.pred == l'.client.pred
  {
    hide *;
    WorldIsLife(env, b, l, w, ts, dt, id);
    LifeSound(env.root, b, l, Shadows(ts, id));
    var l' := LiveAll(env.root, b, l, Shadows(ts, id));
    if l'.client.ready {
      StaysPut(env.root, b, l');
      InvServer(env.root, b, l');
      LinkedIsForetold(env.root, b, l', WorldAfter(env, w, ts, dt), id);
    }
  }

  // ----- joining the room

  /** The life of a player that joined this world a moment ago. */
  function BirthIn(w: State, id: nat): Birth
    requires id in w.players
  {
    Birth(w.players[id].move, 0, 0, w.tick)
  }

  function FirstLife(b: Birth): Life {
    Life(JOINED, [], 0, 0, b.m, 0, b.tick, [], 0, true)
  }

  lemma JoinLinks(env: Env, w: State, name: Bytes)
    requires R.AddPlayer(env, w, name).1.Some?
    ensures var (w', r) := R.AddPlayer(env, w, name);
      && r.value in w'.players
      && var b := BirthIn(w', r.value);
      && FirstJoin(b, FirstLife(b)) && Linked(b, FirstLife(b), w', r.value) && Spent(b.m.dashCD, b.m.dashT)
  {
    J.ThrownAtRest(env, w.rng, R.SPAWN_TRIES, 0.0, 0.0);
    hide Alloc, R.SpawnFrom, R.SmallerTeam, R.InsertId;
  }

  /** Whoever joins a sound world, and whatever happens there as long as the player lives:
      once the browser predicts, it predicts the world, and no snapshot moves it. */
  lemma JoinerIsPredicted(env: Env, w: State, name: Bytes, ts: seq<Turn>, dt: real)
    requires EnvOk(env) && WorldOk(w) && R.AddPlayer(env, w, name).1.Some?
    requires var (w1, r) := R.AddPlayer(env, w, name);
      && r.value in w1.players
      && OneLifeLong(env, BirthIn(w1, r.value), FirstLife(BirthIn(w1, r.value)), w1, ts, dt, r.value)
    ensures var (w1, r) := R.AddPlayer(env, w, name);
      var b := BirthIn(w1, r.value);
      var (l', w') := (LiveAll(env.root, b, FirstLife(b), Shadows(ts, r.value)), Run(env, w1, Actions(ts), dt));
      l'.client.ready ==>
        && Foretold(env.root, l', w', r.value)
        && forall j: nat :: Live(env.root, b, l', Deliver(j)).client.pred == l'.client.pred
  {
    hide *;
    var (w1, r) := R.AddPlayer(env, w, name);
    var b := BirthIn(w1, r.value);
    AddPlayerOk(env, w, name);
    JoinLinks(env, w, name);
    FirstJoinSound(env.root, b, FirstLife(b));
    PredictionMeetsWorld(env, b, FirstLife(b), w1, ts, dt, r.value);
  }

  // ----- coming back to life

  /** The tick from `w` spawned player `id`, and leaves it alive. */
  ghost predicate Spawns(env: Env, w: State, dt: real, id: nat) {
    && id in w.players && (exists e :: e in R.Step(env, w, dt).events && C.Revives(e, id))
    && id in R.Step(env, w, dt).players && !R.Step(env, w, dt).players[id].dead
  }

  /** A birth as a player of this world has it: `base` is beyond every number the world has
      seen of it. */
  ghost predicate BornIn(b: Birth, w: State, id: nat) {
    && id in w.players
    && var p := w.players[id];
    b.m == p.move && b.last == p.lastProcessedSeq && b.tick == w.tick && (p.hasQueued ==> p.lastQueuedSeq <= b.base)
  }

  /** Every birth at such a tick is one of `Reborn`, at rest where the spawn was announced. */
  lemma RespawnLinks(env: Env, w: State, dt: real, id: nat, b: Birth, l: Life)
    requires EnvOk(env) && WorldOk(w) && Spawns(env, w, dt, id)
    requires BornIn(b, R.Step(env, w, dt), id) && Reborn(b, l)
    ensures var w' := R.Step(env, w, dt);
      && WorldOk(w') && Linked(b, l, w', id) && Inv(env.root, b, l) && !l.greeted && Standing(b.m)
      && var t := J.LastTurn(w'.events, id);
      t.Some? && C.Revives(t.value, id) && PointOf(b.m) == Point(t.value.x, t.value.y, 0.0, 0.0)
  {
    var e :| e in R.Step(env, w, dt).events && C.Revives(e, id);
    J.StepRevives(env, w, dt, id, e);
    StepOk(env, w, dt);
    BornOk(env.root, b, l);
    StandsLegally(R.Step(env, w, dt), id);
    assert l.sent[0..0] == [];
    hide R.Step, WorldOk, Inv, J.LastTurn, Legal;
  }

  lemma StandsLegally(w: State, id: nat)
    requires WorldOk(w) && id in w.players
    ensures Legal(w.players[id].move.x, w.players[id].move.y)
  {
    hide Legal;
  }

  lemma {:induction false} ShadowsConcat(a: seq<Turn>, b: seq<Turn>, id: nat)
    ensures Shadows(a + b, id) == Shadows(a, id) + Shadows(b, id)
  {
    hide Shadow;
    if a == [] {
      assert a + b == b;
    } else {
      ShadowsConcat(a[1..], b, id);
      assert (a + b)[1..] == a[1..] + b;
    }
  }

  /** The life of turns around one happening at the client. */
  lemma Around(root: real -> real, b: Birth, l: Life, pre: seq<Turn>, h: Happening, post: seq<Turn>, id: nat)
    ensures LiveAll(root, b, l, Shadows(pre + [AtClient(h)] + post, id))
         == LiveAll(root, b, Live(root, b, LiveAll(root, b, l, Shadows(pre, id)), h), Shadows(post, id))
  {
    hide Live;
    ShadowsConcat(pre + [AtClient(h)], post, id);
    ShadowsConcat(pre, [AtClient(h)], id);
    assert [AtClient(h)][1..] == [] && [h] + [] == [h];
    LiveConcat(root, b, l, Shadows(pre, id) + [h], Shadows(post, id));
    LiveConcat(root, b, l, Shadows(pre, id), [h]);
    OneHappening(root, b, LiveAll(root, b, l, Shadows(pre, id)), h);
  }

  /** After a spawn in the real world: when nothing sent before the client heard of it holds
      a direction, and no old snapshot that counts shows the player elsewhere, it predicts
      the world from that moment on. */
  lemma SpawnedIsPredicted(env: Env, w: State, dt: real, id: nat, b: Birth, l: Life, pre: seq<Turn>, post: seq<Turn>)
    requires EnvOk(env) && WorldOk(w) && Spawns(env, w, dt, id)
    requires BornIn(b, R.Step(env, w, dt), id) && Reborn(b, l)
    requires Still(l.sent) && AllHarmless(b, l) && Quiet(Shadows(pre, id))
    requires OneLifeLong(env, b, l, R.Step(env, w, dt), pre + [AtClient(Greet)] + post, dt, id)
    ensures var ts := pre + [AtClient(Greet)] + post;
      Foretold(env.root, LiveAll(env.root, b, l, Shadows(ts, id)), Run(env, R.Step(env, w, dt), Actions(ts), dt), id)
  {
    hide *;
    var (w1, ts) := (R.Step(env, w, dt), pre + [AtClient(Greet)] + post);
    RespawnLinks(env, w, dt, id, b, l);
    StillStory(env.root, b, l, Shadows(pre, id), Shadows(post, id));
    Around(env.root, b, l, pre, Greet, post, id);
    StoryIs(env.root, b, l, Shadows(pre, id), Shadows(post, id));
    WorldIsLife(env, b, l, w1, ts, dt, id);
    InvServer(env.root, b, LiveAll(env.root, b, l, Shadows(ts, id)));
    LinkedIsForetold(env.root, b, LiveAll(env.root, b, l, Shadows(ts, id)), WorldAfter(env, w1, ts, dt), id);
  }

  lemma StoryIs(root: real -> real, b: Birth, l: Life, pre: seq<Happening>, post: seq<Happening>)
    ensures Story(root, b, l, pre, post) == LiveAll(root, b, Live(root, b, LiveAll(root, b, l, pre), Greet), post)
  {
  }

  /** And whatever was sent before: from the first snapshot on that covers it, unless it
      left a dash running. */
  lemma SpawnedSettles(
    env: Env, w: State, dt: real, id: nat, b: Birth, l: Life, pre: seq<Turn>, k: nat, post: seq<Turn>)
    requires EnvOk(env) && WorldOk(w) && Spawns(env, w, dt, id)
    requires BornIn(b, R.Step(env, w, dt), id) && Reborn(b, l)
    requires var l1 := LiveAll(env.root, b, l, Shadows(pre, id));
      l1.greeted && l1.early <= |l1.sent| && Dashless(env.root, b, l1) && Settles(b, l1, k)
    requires OneLifeLong(env, b, l, R.Step(env, w, dt), pre + [AtClient(Deliver(k))] + post, dt, id)
    ensures var ts := pre + [AtClient(Deliver(k))] + post;
      Foretold(env.root, LiveAll(env.root, b, l, Shadows(ts, id)), Run(env, R.Step(env, w, dt), Actions(ts), dt), id)
  {
    hide *;
    var (w1, ts) := (R.Step(env, w, dt), pre + [AtClient(Deliver(k))] + post);
    RespawnLinks(env, w, dt, id, b, l);
    SettledIsExact(env.root, b, l, Shadows(pre, id), k, Shadows(post, id));
    Around(env.root, b, l, pre, Deliver(k), post, id);
    WorldIsLife(env, b, l, w1, ts, dt, id);
    InvServer(env.root, b, LiveAll(env.root, b, l, Shadows(ts, id)));
    LinkedIsForetold(env.root, b, LiveAll(env.root, b, l, Shadows(ts, id)), WorldAfter(env, w1, ts, dt), id);
  }
}
