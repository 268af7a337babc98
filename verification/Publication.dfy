/** From the world to the wire, internal/game/world.go and room.go: whatever part of a
    reachable world a session is shown, it is a view the delta protocol can handle. */
module Publication {
  import opened Wire
  import opened Arena
  import HitGrid
  import H = History
  import opened WorldInvariant
  import opened SnapshotCodec
  import opened Delta
  import W = World

  function PlayerEntity(p: Player): Entity
    requires p.id <= MAX_ID && p.hp <= FULL_HP
  {
    Entity(p.id, KIND_PLAYER, p.move.x, p.move.y, p.move.vx, p.move.vy, p.hp)
  }

  function ShotEntity(pr: Projectile): Entity
    requires pr.id <= MAX_ID
  {
    Entity(pr.id, KIND_PROJECTILE, pr.x, pr.y, pr.vx, pr.vy, 1)
  }

  predicate Showable(w: State) {
    && (forall id :: id in w.players ==> w.players[id].id == id <= MAX_ID && w.players[id].hp <= FULL_HP)
    && (forall i :: 0 <= i < |w.projectiles| ==> w.projectiles[i].id <= MAX_ID)
  }

  /** The living players among `ids`, in order. */
  function PlayerEntities(w: State, ids: seq<nat>): (es: seq<Entity>)
    requires Showable(w)
  {
    if ids == [] then []
    else
      var (front, id) := (PlayerEntities(w, ids[..|ids| - 1]), ids[|ids| - 1]);
      if id in w.players && !w.players[id].dead then front + [PlayerEntity(w.players[id])] else front
  }

  function ShotEntities(prs: seq<Projectile>): (es: seq<Entity>)
    requires forall i :: 0 <= i < |prs| ==> prs[i].id <= MAX_ID
    ensures |es| == |prs| && forall i :: 0 <= i < |prs| ==> es[i] == ShotEntity(prs[i])
  {
    if prs == [] then [] else ShotEntities(prs[..|prs| - 1]) + [ShotEntity(prs[|prs| - 1])]
  }

  function Entities(w: State): seq<Entity>
    requires Showable(w)
  {
    PlayerEntities(w, w.order) + ShotEntities(w.projectiles)
  }

  lemma SoundIsShowable(w: State)
    requires WorldOk(w)
    ensures Showable(w) && HitGrid.AscendingIds(w.order) && forall id :: id in w.order ==> id in w.players
  {
  }

  method AppendPlayers(w: W.World, dst: seq<Entity>) returns (out: seq<Entity>)
    requires Showable(w.State()) && forall id :: id in w.order ==> id in w.players
    ensures out == dst + PlayerEntities(w.State(), w.order)
  {
    hide Showable;
    out := dst;
    for i := 0 to |w.order|
      invariant out == dst + PlayerEntities(w.State(), w.order[..i])
    {
      var p := w.players[w.order[i]];
      assert w.order[..i + 1][..i] == w.order[..i];
      if p.dead {
        continue;
      }
      Shown(w.State(), w.order[i]);
      out := out + [PlayerEntity(p)];
    }
    assert w.order[..|w.order|] == w.order;
  }

  lemma Shown(w: State, id: nat)
    requires Showable(w) && id in w.players
    ensures w.players[id].id <= MAX_ID && w.players[id].hp <= FULL_HP
  {
  }

  method AppendShots(dst: seq<Entity>, prs: seq<Projectile>) returns (out: seq<Entity>)
    requires forall i :: 0 <= i < |prs| ==> prs[i].id <= MAX_ID
    ensures out == dst + ShotEntities(prs)
  {
    out := dst;
    for i := 0 to |prs|
      invariant out == dst + ShotEntities(prs[..i])
    {
      assert prs[..i + 1][..i] == prs[..i];
      out := out + [ShotEntity(prs[i])];
    }
    assert prs[..|prs|] == prs;
  }

  method AppendEntities(w: W.World, dst: seq<Entity>) returns (out: seq<Entity>)
    requires w.Valid()
    ensures Showable(w.State()) && out == dst + Entities(w.State())
  {
    SoundIsShowable(w.State());
    hide WorldOk, EnvOk;
    out := AppendPlayers(w, dst);
    out := AppendShots(out, w.projectiles);
  }

  // ----- everybody is shown where it is

  /** What is shown of a living player and of a shot: kind, place, velocity and health. */
  ghost predicate Shows(w: State, e: Entity) {
    if e.kind == 1 then
      && e.id in w.players && !w.players[e.id].dead
      && var p := w.players[e.id];
      && H.Positions(w)[e.id] == Pos(e.x, e.y) && p.move.x == e.x && p.move.y == e.y
      && e.vx == p.move.vx && e.vy == p.move.vy && e.hp == p.hp
    else
      && e.kind == 2 && e.hp == 1
      && exists i :: 0 <= i < |w.projectiles| && ShotShown(w.projectiles[i], e)
  }

  ghost predicate ShotShown(pr: Projectile, e: Entity) {
    e.id == pr.id && e.x == pr.x && e.y == pr.y && e.vx == pr.vx && e.vy == pr.vy
  }

  lemma {:induction false} LivingAreShown(w: State, ids: seq<nat>)
    requires Showable(w)
    ensures forall e :: e in PlayerEntities(w, ids) ==> e.kind == 1 && Shows(w, e)
    ensures forall id :: id in ids && id in w.players && !w.players[id].dead ==>
      exists e :: e in PlayerEntities(w, ids) && e.id == id
  {
    if ids != [] {
      var (front, id) := (ids[..|ids| - 1], ids[|ids| - 1]);
      LivingAreShown(w, front);
      assert ids == front + [id];
      if id in w.players && !w.players[id].dead {
        var e := PlayerEntity(w.players[id]);
        assert e in PlayerEntities(w, ids) && Shows(w, e);
      }
      forall k | k in front && k in w.players && !w.players[k].dead
        ensures exists e :: e in PlayerEntities(w, ids) && e.id == k
      {
        var e :| e in PlayerEntities(w, front) && e.id == k;
        assert e in PlayerEntities(w, ids);
      }
    }
  }

  /** A sound world publishes every living player and every shot where it is, as looking back
      and predicting take it, and nothing else. */
  lemma EntitiesShow(w: State)
    requires WorldOk(w)
    ensures Showable(w)
    ensures forall e :: e in Entities(w) ==> Shows(w, e)
    ensures forall id :: id in w.players && !w.players[id].dead ==>
      exists e :: e in Entities(w) && e.kind == 1 && e.id == id
    ensures forall i :: 0 <= i < |w.projectiles| ==>
      exists e :: e in Entities(w) && e.kind == 2 && ShotShown(w.projectiles[i], e)
  {
    SoundIsShowable(w);
    EverybodyListed(w);
    LivingAreShown(w, w.order);
    var (ps, es) := (PlayerEntities(w, w.order), ShotEntities(w.projectiles));
    hide WorldOk, PlayerEntities, Showable;
    forall e | e in Entities(w)
      ensures Shows(w, e)
    {
      if e !in ps {
        var i :| 0 <= i < |es| && es[i] == e;
        assert ShotShown(w.projectiles[i], e);
      }
    }
    forall id | id in w.players && !w.players[id].dead
      ensures exists e :: e in Entities(w) && e.kind == 1 && e.id == id
    {
      var e :| e in ps && e.id == id;
      assert e in Entities(w);
    }
    forall i | 0 <= i < |w.projectiles|
      ensures exists e :: e in Entities(w) && e.kind == 2 && ShotShown(w.projectiles[i], e)
    {
      assert es[i] in Entities(w) && ShotShown(w.projectiles[i], es[i]);
    }
  }

  lemma EverybodyListed(w: State)
    requires WorldOk(w)
    ensures forall id :: id in w.players ==> id in w.order
  {
  }

  // ----- ids are unique among what is shown

  lemma {:induction false} ShownAreListed(w: State, ids: seq<nat>)
    requires Showable(w)
    ensures forall e :: e in PlayerEntities(w, ids) ==> e.id as int in ids && e.id as int in w.players
  {
    if ids != [] {
      ShownAreListed(w, ids[..|ids| - 1]);
      assert ids == ids[..|ids| - 1] + [ids[|ids| - 1]];
    }
  }

  lemma {:induction false} PlayerIdsShown(w: State, ids: seq<nat>)
    requires Showable(w) && HitGrid.AscendingIds(ids)
    ensures DistinctIds(PlayerEntities(w, ids))
  {
    if ids != [] {
      var n := |ids| - 1;
      PlayerIdsShown(w, ids[..n]);
      ShownAreListed(w, ids[..n]);
      assert ids[n] !in ids[..n];
    }
  }

  lemma EntitiesAreDistinct(w: State)
    requires WorldOk(w)
    ensures Showable(w) && DistinctIds(Entities(w))
  {
    SoundIsShowable(w);
    PlayerIdsShown(w, w.order);
    ShownAreListed(w, w.order);
    var (ps, es) := (PlayerEntities(w, w.order), Entities(w));
    hide PlayerOk, PlayerEntities, OrderOk;
    forall i, j | 0 <= i < j < |es|
      ensures es[i].id != es[j].id
    {
      if j >= |ps| {
        assert es[j].id == w.projectiles[j - |ps|].id;
        if i < |ps| {
          assert es[i] == ps[i] && ps[i] in ps;
        } else {
          assert es[i].id == w.projectiles[i - |ps|].id;
        }
      } else {
        assert es[i] == ps[i] && es[j] == ps[j];
      }
    }
  }

  lemma {:induction false} OnceEach(es: seq<Entity>, e: Entity)
    requires DistinctIds(es)
    ensures multiset(es)[e] <= 1
  {
    if es != [] {
      var n := |es| - 1;
      OnceEach(es[..n], e);
      assert es == es[..n] + [es[n]];
      if e == es[n] {
        assert e !in es[..n];
        assert e !in multiset(es[..n]);
      }
    }
  }

  lemma TwiceInMultiset(es: seq<Entity>, i: nat, j: nat)
    requires i < j < |es| && es[i] == es[j]
    ensures multiset(es)[es[i]] >= 2
  {
    assert es == es[..j] + es[j..];
    assert es[i] in es[..j] && es[j] in es[j..];
    assert multiset(es)[es[i]] == multiset(es[..j])[es[i]] + multiset(es[j..])[es[i]];
    assert es[i] in multiset(es[..j]) && es[i] in multiset(es[j..]);
  }

  /** Any part of what is shown still has distinct ids. */
  lemma PartIsDistinct(all: seq<Entity>, part: seq<Entity>)
    requires DistinctIds(all) && multiset(part) <= multiset(all)
    ensures DistinctIds(part)
  {
    forall i, j | 0 <= i < j < |part|
      ensures part[i].id != part[j].id
    {
      assert part[i] in multiset(part) && part[j] in multiset(part);
      assert part[i] in multiset(all) && part[j] in multiset(all);
      var a :| 0 <= a < |all| && all[a] == part[i];
      var b :| 0 <= b < |all| && all[b] == part[j];
      if part[i].id == part[j].id {
        SameIdSameEntity(all, a, b);
        TwiceInMultiset(part, i, j);
        OnceEach(all, part[i]);
      }
    }
  }

  lemma SameIdSameEntity(all: seq<Entity>, a: nat, b: nat)
    requires DistinctIds(all) && a < |all| && b < |all| && all[a].id == all[b].id
    ensures a == b
  {
  }

  ghost predicate InKeyOrder(es: seq<Entity>) {
    forall i, j :: 0 <= i < j < |es| ==> Key(es[i]) <= Key(es[j])
  }

  function Clipped(es: seq<Entity>): seq<Entity> {
    if |es| > MAX_ENTITIES then es[..MAX_ENTITIES] else es
  }

  /** Whatever selection of a sound world is shown, sorted by key and cut to the limit, it
      is a view: ids are unique and keys ascend, as the delta's merge and the receiver's
      rebuilding by id alone need. */
  lemma ShownIsView(w: State, shown: seq<Entity>)
    requires WorldOk(w) && Showable(w) && multiset(shown) <= multiset(Entities(w)) && InKeyOrder(shown)
    ensures View(Clipped(shown))
  {
    EntitiesAreDistinct(w);
    hide WorldOk, Entities;
    PartIsDistinct(Entities(w), shown);
    forall i, j | 0 <= i < j < |shown|
      ensures Key(shown[i]) < Key(shown[j])
    {
      KeyIdentifies(shown[i], shown[j]);
    }
  }
}
