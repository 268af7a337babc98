/** Lives over whole runs, internal/game/combat.go and killstreak.go: between two deaths
    of one player lies a spawn, at least the respawn delay after the first, and the health
    of the dead is told by what happened since. */
module Lives {
  import opened Wrappers
  import opened Wire
  import opened Arena
  import R = Rules
  import opened WorldInvariant
  import opened Sessions
  import opened Chronicle

  /** What an onlooker of the whole run writes down. */
  datatype Note =
    | Happened(tick: nat, event: Event)
    | Entered(id: nat)
    | Exited(id: nat)

  function Stamp(es: seq<Event>, tick: nat): (ns: seq<Note>)
    ensures |ns| == |es|
  {
    if es == [] then [] else Stamp(es[..|es| - 1], tick) + [Happened(tick, es[|es| - 1])]
  }

  ghost function NotesOf(env: Env, w: State, a: Action, dt: real): seq<Note> {
    match a
    case Join(name) =>
      var r := R.AddPlayer(env, w, name).1;
      if r.Some? then [Entered(r.value)] else []
    case Leave(id) => if id in w.players then [Exited(id)] else []
    case Enqueue(_, _) => []
    case Tick => Stamp(R.Step(env, w, dt).events, w.tick)
  }

  ghost function Trace(env: Env, w: State, acts: seq<Action>, dt: real): seq<Note>
    decreases |acts|
  {
    if acts == [] then [] else NotesOf(env, w, acts[0], dt) + Trace(env, Act(env, w, acts[0], dt), acts[1..], dt)
  }

  // ----- following one player through a trace

  predicate Resets(n: Note, id: nat) {
    !n.Happened? && n.id == id
  }

  predicate DeathNote(n: Note, id: nat) {
    n.Happened? && Fells(n.event, id)
  }

  predicate SpawnNote(n: Note, id: nat) {
    n.Happened? && Revives(n.event, id)
  }

  function Follow(f: Fate, n: Note, id: nat): Option<Fate> {
    match n
    case Happened(tick, e) => Next(f, e, id, tick)
    case Entered(i) => Some(if i == id then Alive else f)
    case Exited(i) => Some(if i == id then Alive else f)
  }

  function FollowAll(f: Fate, ns: seq<Note>, id: nat): Option<Fate> {
    if ns == [] then Some(f)
    else
      var before := FollowAll(f, ns[..|ns| - 1], id);
      if before.None? then None else Follow(before.value, ns[|ns| - 1], id)
  }

  lemma {:induction false} FollowStamp(f: Fate, es: seq<Event>, tick: nat, id: nat)
    ensures FollowAll(f, Stamp(es, tick), id) == FateAfter(f, es, id, tick)
  {
    if es != [] {
      FollowStamp(f, es[..|es| - 1], tick, id);
      assert Stamp(es, tick)[..|es| - 1] == Stamp(es[..|es| - 1], tick);
    }
  }

  lemma {:induction false} FollowConcat(f: Fate, a: seq<Note>, b: seq<Note>, id: nat)
    ensures var mid := FollowAll(f, a, id);
      FollowAll(f, a + b, id) == if mid.None? then None else FollowAll(mid.value, b, id)
    decreases |b|
  {
    if b == [] {
      assert a + b == a;
    } else {
      FollowConcat(f, a, b[..|b| - 1], id);
      assert (a + b)[..|a + b| - 1] == a + b[..|b| - 1];
    }
  }

  // ----- the run obeys the rules

  lemma NotesFollowed(env: Env, w: State, a: Action, dt: real, id: nat)
    requires EnvOk(env) && WorldOk(w)
    ensures FollowAll(FateOf(w, id), NotesOf(env, w, a, dt), id) == Some(FateOf(Act(env, w, a, dt), id))
  {
    match a
    case Join(name) => JoinFollowed(env, w, name, dt, id);
    case Leave(i) =>
    case Enqueue(i, inp) => PlayerIds(w);
    case Tick =>
      StepBooks(env, w, dt);
      FollowStamp(FateOf(w, id), R.Step(env, w, dt).events, w.tick, id);
      hide R.Step;
  }

  lemma JoinFollowed(env: Env, w: State, name: Bytes, dt: real, id: nat)
    requires WorldOk(w)
    ensures var a := Join(name);
      FollowAll(FateOf(w, id), NotesOf(env, w, a, dt), id) == Some(FateOf(Act(env, w, a, dt), id))
  {
    JoinTouches(env, w, name);
    hide R.AddPlayer, WorldOk;
  }

  /** No run ever breaks the rules of life and death. */
  lemma {:induction false} RunFollowed(env: Env, w: State, acts: seq<Action>, dt: real, id: nat)
    requires EnvOk(env) && WorldOk(w)
    ensures FollowAll(FateOf(w, id), Trace(env, w, acts, dt), id) == Some(FateOf(Run(env, w, acts, dt), id))
    decreases |acts|
  {
    hide WorldOk, EnvOk, Act, NotesOf, FateOf;
    if acts != [] {
      var w' := Act(env, w, acts[0], dt);
      ActOk(env, w, acts[0], dt);
      NotesFollowed(env, w, acts[0], dt, id);
      RunFollowed(env, w', acts[1..], dt, id);
      FollowConcat(FateOf(w, id), NotesOf(env, w, acts[0], dt), Trace(env, w', acts[1..], dt), id);
    }
  }

  // ----- what the rules mean

  lemma {:induction false} PrefixFollowed(f: Fate, ns: seq<Note>, id: nat, k: nat)
    requires FollowAll(f, ns, id).Some? && k <= |ns|
    ensures FollowAll(f, ns[..k], id).Some?
    decreases |ns|
  {
    if k == |ns| {
      assert ns[..k] == ns;
    } else {
      PrefixFollowed(f, ns[..|ns| - 1], id, k);
      assert ns[..|ns| - 1][..k] == ns[..k];
    }
  }

  /** After a death at `i`, as long as the player neither spawned nor left. */
  lemma {:induction false} StillDead(f: Fate, ns: seq<Note>, id: nat, i: nat, k: nat)
    requires FollowAll(f, ns, id).Some? && i < k <= |ns| && DeathNote(ns[i], id)
    requires forall m :: i < m < k ==> !SpawnNote(ns[m], id) && !Resets(ns[m], id)
    ensures var g := FollowAll(f, ns[..k], id); g.Some? && g.value.DeadSince? && g.value.at == ns[i].tick
    decreases k
  {
    PrefixFollowed(f, ns, id, k);
    assert ns[..k][..k - 1] == ns[..k - 1];
    if k > i + 1 {
      StillDead(f, ns, id, i, k - 1);
    }
  }

  /** The first spawn after position `i`, looking no further than `j`. */
  function FirstSpawn(ns: seq<Note>, id: nat, i: nat, j: nat): (k: nat)
    requires i <= j <= |ns|
    ensures i <= k <= j && (k < j ==> SpawnNote(ns[k], id))
    ensures forall m :: i <= m < k ==> !SpawnNote(ns[m], id)
    decreases j - i
  {
    if i == j || SpawnNote(ns[i], id) then i else FirstSpawn(ns, id, i + 1, j)
  }

  lemma DeathsApartInTrace(f: Fate, ns: seq<Note>, id: nat, i: nat, j: nat)
    requires FollowAll(f, ns, id).Some? && i < j < |ns| && DeathNote(ns[i], id) && DeathNote(ns[j], id)
    requires forall m :: i < m < j ==> !Resets(ns[m], id)
    ensures exists k :: i < k < j && SpawnNote(ns[k], id) && ns[k].tick >= ns[i].tick + RESPAWN_DELAY
  {
    var k := FirstSpawn(ns, id, i + 1, j);
    StillDead(f, ns, id, i, k);
    PrefixFollowed(f, ns, id, k + 1);
    assert ns[..k + 1][..k] == ns[..k];
  }

  /** In every run: two deaths of one player, who did not leave in between, are separated
      by one of its spawns, and that spawn comes 60 ticks after the first death or later. */
  lemma DeathsAreApart(env: Env, seed: int, m: Modes, acts: seq<Action>, dt: real, id: nat, i: nat, j: nat)
    requires EnvOk(env)
    requires var ns := Trace(env, R.NewWorld(seed, m), acts, dt);
      && i < j < |ns| && DeathNote(ns[i], id) && DeathNote(ns[j], id)
      && forall m :: i < m < j ==> !Resets(ns[m], id)
    ensures var ns := Trace(env, R.NewWorld(seed, m), acts, dt);
      exists k :: i < k < j && SpawnNote(ns[k], id) && ns[k].tick >= ns[i].tick + RESPAWN_DELAY
  {
    var w := R.NewWorld(seed, m);
    NewWorldOk(seed, m);
    RunFollowed(env, w, acts, dt, id);
    hide Trace, R.NewWorld;
    DeathsApartInTrace(FateOf(w, id), Trace(env, w, acts, dt), id, i, j);
  }

  // ----- the health of the dead

  predicate StreakNote(n: Note, id: nat) {
    n.Happened? && Rewards(n.event, id)
  }

  /** Note `i` is the death the player has not come back from. */
  ghost predicate LastDeath(ns: seq<Note>, id: nat, i: nat) {
    && i < |ns| && DeathNote(ns[i], id)
    && forall m :: i < m < |ns| ==> !DeathNote(ns[m], id) && !SpawnNote(ns[m], id) && !Resets(ns[m], id)
  }

  ghost predicate HealedSince(ns: seq<Note>, id: nat, i: nat) {
    exists k :: i < k < |ns| && StreakNote(ns[k], id)
  }

  lemma {:induction false} DeathStory(ns: seq<Note>, id: nat) returns (i: nat)
    requires FollowAll(Alive, ns, id).Some? && FollowAll(Alive, ns, id).value.DeadSince?
    ensures LastDeath(ns, id, i)
    ensures FollowAll(Alive, ns, id).value.hp == if HealedSince(ns, id, i) then FULL_HP else 0
  {
    var n := |ns| - 1;
    if DeathNote(ns[n], id) {
      i := n;
    } else {
      i := DeathStory(ns[..n], id);
      Told(ns, id, i);
    }
  }

  /** One more note that neither kills nor revives: only a milestone changes the story. */
  lemma Told(ns: seq<Note>, id: nat, i: nat)
    requires |ns| > 0 && LastDeath(ns[..|ns| - 1], id, i)
    ensures HealedSince(ns, id, i) <==> HealedSince(ns[..|ns| - 1], id, i) || StreakNote(ns[|ns| - 1], id)
    ensures var n := ns[|ns| - 1];
      !DeathNote(n, id) && !SpawnNote(n, id) && !Resets(n, id) ==> LastDeath(ns, id, i)
  {
    var front := ns[..|ns| - 1];
    if HealedSince(front, id, i) {
      var k :| i < k < |front| && StreakNote(front[k], id);
      assert ns[k] == front[k];
    }
    if HealedSince(ns, id, i) {
      var k :| i < k < |ns| && StreakNote(ns[k], id);
      assert k < |front| ==> front[k] == ns[k];
    }
    forall m | i < m < |front|
      ensures ns[m] == front[m]
    {
    }
  }

  /** In every reachable world, a dead player has no health exactly when it reached no
      milestone since it died, and full health exactly when it did. */
  lemma DeadHealth(env: Env, seed: int, m: Modes, acts: seq<Action>, dt: real, id: nat)
    requires EnvOk(env)
    requires var w := Run(env, R.NewWorld(seed, m), acts, dt); id in w.players && w.players[id].dead
    ensures var ns := Trace(env, R.NewWorld(seed, m), acts, dt);
      var hp := Run(env, R.NewWorld(seed, m), acts, dt).players[id].hp;
      exists i :: LastDeath(ns, id, i)
        && (hp == 0 <==> !HealedSince(ns, id, i)) && (hp == FULL_HP <==> HealedSince(ns, id, i))
  {
    var w := R.NewWorld(seed, m);
    NewWorldOk(seed, m);
    RunFollowed(env, w, acts, dt, id);
    assert FateOf(w, id) == Alive;
    hide Trace, Run, R.NewWorld;
    var i := DeathStory(Trace(env, w, acts, dt), id);
  }
}
