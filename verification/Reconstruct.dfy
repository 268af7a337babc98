/** The receiver's half of the delta protocol, internal/bot/reconstruct.go: a store of
    recent reconstructed sets, patched by deltas and listed in key order. */
module Reconstruct {
  import opened Wrappers
  import opened Wire
  import opened SnapshotCodec
  import opened Delta

  const RECON_KEEP := 32

  type EntityMap = map<U16, Entity>

  // ----- what one snapshot does to a set

  function Without(m: EntityMap, ids: seq<U16>): EntityMap {
    m - (set id | id in ids)
  }

  /** A delta record laid over the set; an absent id starts from a zero record. */
  function PatchOne(m: EntityMap, e: Entity, mask: U8): EntityMap {
    m[e.id := Patch(if e.id in m then m[e.id] else ZERO, e, mask)]
  }

  function PatchEach(m: EntityMap, es: seq<Entity>, ms: seq<U8>): EntityMap
    requires |es| == |ms|
  {
    if es == [] then m
    else
      var n := |es| - 1;
      PatchOne(PatchEach(m, es[..n], ms[..n]), es[n], ms[n])
  }

  function PutEach(m: EntityMap, es: seq<Entity>): EntityMap {
    if es == [] then m
    else
      var n := |es| - 1;
      PutEach(m, es[..n])[es[n].id := es[n]]
  }

  predicate Parallel(s: Snapshot) {
    s.baseTick != 0 ==> |s.masks| == |s.entities|
  }

  /** The set a snapshot stands for, or None when its base is not stored. */
  function Rebuilt(store: map<nat, EntityMap>, s: Snapshot): Option<EntityMap>
    requires Parallel(s)
  {
    if s.baseTick == 0 then Some(PutEach(Without(map[], s.removed), s.entities))
    else if s.baseTick in store then Some(PatchEach(Without(store[s.baseTick], s.removed), s.entities, s.masks))
    else None
  }

  // ----- the store

  datatype Recon = Recon(store: map<nat, EntityMap>, order: seq<nat>)

  function Evict(r: Recon): Recon
    decreases |r.order|
  {
    if |r.order| > RECON_KEEP then Evict(Recon(r.store - {r.order[0]}, r.order[1..])) else r
  }

  function Remembered(r: Recon, tick: nat, ents: EntityMap): Recon {
    Evict(Recon(r.store[tick := ents], if tick in r.store then r.order else r.order + [tick]))
  }

  /** `ents` lists the set `m` in key order. */
  ghost predicate Lists(ents: seq<Entity>, m: EntityMap) {
    && Sorted(ents)
    && (forall e :: e in ents ==> e.id in m && m[e.id] == e)
    && (forall id :: id in m ==> m[id] in ents)
  }

  ghost predicate KeyedById(m: EntityMap) {
    forall id :: id in m ==> m[id].id == id
  }

  // ----- sorting

  function Insert(e: Entity, es: seq<Entity>): seq<Entity> {
    if es == [] || Key(e) <= Key(es[0]) then [e] + es else [es[0]] + Insert(e, es[1..])
  }

  function SortByKey(es: seq<Entity>): seq<Entity> {
    if es == [] then [] else Insert(es[0], SortByKey(es[1..]))
  }

  ghost predicate DistinctKeys(es: seq<Entity>) {
    forall i, j :: 0 <= i < j < |es| ==> Key(es[i]) != Key(es[j])
  }

  lemma {:induction false} InsertElements(e: Entity, es: seq<Entity>)
    ensures forall x :: x in Insert(e, es) <==> x == e || x in es
  {
    if !(es == [] || Key(e) <= Key(es[0])) {
      InsertElements(e, es[1..]);
      assert es == [es[0]] + es[1..];
    }
  }

  lemma {:induction false} InsertSorts(e: Entity, es: seq<Entity>)
    requires Sorted(es) && forall x :: x in es ==> Key(x) != Key(e)
    ensures Sorted(Insert(e, es))
  {
    if !(es == [] || Key(e) <= Key(es[0])) {
      InsertSorts(e, es[1..]);
      InsertElements(e, es[1..]);
      var rest := Insert(e, es[1..]);
      forall i | 0 <= i < |rest|
        ensures Key(es[0]) < Key(rest[i])
      {
        assert rest[i] in rest;
        if rest[i] != e {
          var k :| 0 <= k < |es[1..]| && es[1..][k] == rest[i];
          assert Key(es[0]) < Key(es[k + 1]);
        }
      }
    } else if es != [] {
      assert Key(e) < Key(es[0]) by {
        assert es[0] in es;
      }
    }
  }

  lemma {:induction false} SortByKeySorts(es: seq<Entity>)
    requires DistinctKeys(es)
    ensures Sorted(SortByKey(es)) && forall x :: x in SortByKey(es) <==> x in es
  {
    if es != [] {
      SortByKeySorts(es[1..]);
      InsertElements(es[0], SortByKey(es[1..]));
      InsertSorts(es[0], SortByKey(es[1..]));
      assert es == [es[0]] + es[1..];
    }
  }

  // ----- the reconstructor

  class Reconstructor {
    var store: map<nat, EntityMap>
    var order: seq<nat>

    constructor ()
      ensures State() == Recon(map[], [])
    {
      store, order := map[], [];
    }

    ghost function State(): Recon
      reads this
    {
      Recon(store, order)
    }

    method Remember(tick: nat, ents: EntityMap)
      modifies this
      ensures State() == Remembered(old(State()), tick, ents)
    {
      if tick !in store {
        order := order + [tick];
      }
      store := store[tick := ents];
      while |order| > RECON_KEEP
        invariant Evict(State()) == Remembered(old(State()), tick, ents)
        decreases |order|
      {
        store := store - {order[0]};
        order := order[1..];
      }
    }

    /** `apply`: rebuilds the set of a snapshot, remembers it as a possible base and
        lists it; a delta whose base is unknown changes nothing. */
    method Apply(s: Snapshot) returns (ents: seq<Entity>, ok: bool)
      requires Parallel(s) && forall t :: t in store ==> KeyedById(store[t])
      modifies this
      ensures ok <==> Rebuilt(old(store), s).Some?
      ensures !ok ==> State() == old(State())
      ensures ok ==> Lists(ents, Rebuilt(old(store), s).value)
      ensures ok ==> State() == Remembered(old(State()), s.tick, Rebuilt(old(store), s).value)
    {
      hide Lists, Without, PatchOne;
      var next: EntityMap := map[];
      if s.baseTick != 0 {
        if s.baseTick !in store {
          return [], false;
        }
        next := store[s.baseTick];
      }
      next := DeleteEach(next, s.removed);
      if s.baseTick == 0 {
        for i := 0 to |s.entities|
          invariant next == PutEach(Without(map[], s.removed), s.entities[..i])
        {
          assert s.entities[..i + 1][..i] == s.entities[..i];
          next := next[s.entities[i].id := s.entities[i]];
        }
      } else {
        for i := 0 to |s.entities|
          invariant next == PatchEach(Without(store[s.baseTick], s.removed), s.entities[..i], s.masks[..i])
        {
          assert s.entities[..i + 1][..i] == s.entities[..i] && s.masks[..i + 1][..i] == s.masks[..i];
          next := PatchOne(next, s.entities[i], s.masks[i]);
        }
        assert s.masks[..|s.masks|] == s.masks;
      }
      assert s.entities[..|s.entities|] == s.entities;
      RebuiltKeyed(store, s);
      Remember(s.tick, next);
      ents := Listing(next);
      ok := true;
    }
  }

  method DeleteEach(m: EntityMap, ids: seq<U16>) returns (r: EntityMap)
    ensures r == Without(m, ids)
  {
    r := m;
    for i := 0 to |ids|
      invariant r == Without(m, ids[..i])
    {
      assert ids[..i + 1] == ids[..i] + [ids[i]];
      r := r - {ids[i]};
    }
    assert ids[..|ids|] == ids;
  }

  /** Go ranges over the map in an unspecified order and then sorts. */
  method Listing(m: EntityMap) returns (ents: seq<Entity>)
    requires KeyedById(m)
    ensures Lists(ents, m)
  {
    ents := [];
    var left := m.Keys;
    while left != {}
      invariant left <= m.Keys
      invariant forall e :: e in ents ==> e.id in m && e.id !in left && m[e.id] == e
      invariant forall id :: id in m && id !in left ==> m[id] in ents
      invariant forall i, j :: 0 <= i < j < |ents| ==> ents[i].id != ents[j].id
      decreases left
    {
      var id :| id in left;
      forall i | 0 <= i < |ents|
        ensures ents[i].id != id
      {
        assert ents[i] in ents;
      }
      ents, left := ents + [m[id]], left - {id};
    }
    DistinctIdsMeanDistinctKeys(ents);
    SortByKeySorts(ents);
    ents := SortByKey(ents);
  }

  lemma DistinctIdsMeanDistinctKeys(es: seq<Entity>)
    requires DistinctIds(es)
    ensures DistinctKeys(es)
  {
    forall i, j | 0 <= i < j < |es|
      ensures Key(es[i]) != Key(es[j])
    {
      KeyIdentifies(es[i], es[j]);
    }
  }

  lemma {:induction false} PutEachKeyed(m: EntityMap, es: seq<Entity>)
    requires KeyedById(m)
    ensures KeyedById(PutEach(m, es))
  {
    if es != [] {
      PutEachKeyed(m, es[..|es| - 1]);
    }
  }

  lemma {:induction false} PatchEachKeyed(m: EntityMap, es: seq<Entity>, ms: seq<U8>)
    requires KeyedById(m) && |es| == |ms|
    ensures KeyedById(PatchEach(m, es, ms))
  {
    if es != [] {
      PatchEachKeyed(m, es[..|es| - 1], ms[..|es| - 1]);
    }
  }

  lemma RebuiltKeyed(store: map<nat, EntityMap>, s: Snapshot)
    requires Parallel(s) && forall t :: t in store ==> KeyedById(store[t])
    ensures Rebuilt(store, s).Some? ==> KeyedById(Rebuilt(store, s).value)
  {
    if s.baseTick == 0 {
      PutEachKeyed(Without(map[], s.removed), s.entities);
    } else if s.baseTick in store {
      PatchEachKeyed(Without(store[s.baseTick], s.removed), s.entities, s.masks);
    }
  }

  // ----- a listing is unique

  lemma {:induction false} SortedSameElements(a: seq<Entity>, b: seq<Entity>)
    requires Sorted(a) && Sorted(b) && forall e :: e in a <==> e in b
    ensures a == b
    decreases |a|
  {
    hide Sorted, Key;
    if a == [] {
      if b != [] {
        HeadIsElement(b);
      }
    } else {
      assert a[0] in b;
      var (x, y) := (a[|a| - 1], b[|b| - 1]);
      LastIsGreatest(a);
      LastIsGreatest(b);
      assert x in a && y in b;
      SameKeySameEntity(b, x, y);
      DropLastElements(a);
      DropLastElements(b);
      SortedPrefix(a);
      SortedPrefix(b);
      var (a', b') := (a[..|a| - 1], b[..|b| - 1]);
      forall e
        ensures e in a' <==> e in b'
      {
        assert (e in a' <==> e in a && e != x) && (e in b' <==> e in b && e != y);
      }
      SortedSameElements(a', b');
    }
  }

  lemma HeadIsElement(a: seq<Entity>)
    requires a != []
    ensures a[0] in a
  {
  }

  lemma SameKeySameEntity(es: seq<Entity>, x: Entity, y: Entity)
    requires Sorted(es) && x in es && y in es && Key(x) == Key(y)
    ensures x == y
  {
    var i :| 0 <= i < |es| && es[i] == x;
    var j :| 0 <= j < |es| && es[j] == y;
    SortedKeysAreUnique(es, i, j);
  }

  lemma SortedPrefix(es: seq<Entity>)
    requires Sorted(es) && es != []
    ensures Sorted(es[..|es| - 1])
  {
  }

  lemma LastIsGreatest(a: seq<Entity>)
    requires Sorted(a) && a != []
    ensures forall e :: e in a ==> Key(e) <= Key(a[|a| - 1])
  {
  }

  lemma DropLastElements(a: seq<Entity>)
    requires Sorted(a) && a != []
    ensures forall e :: e in a[..|a| - 1] <==> e in a && e != a[|a| - 1]
  {
    var n := |a| - 1;
    forall i | 0 <= i < n
      ensures a[i] != a[n]
    {
      assert Key(a[i]) < Key(a[n]);
    }
    assert a == a[..n] + [a[n]];
  }

  lemma ListingIsUnique(a: seq<Entity>, b: seq<Entity>, m: EntityMap)
    requires Lists(a, m) && Lists(b, m)
    ensures a == b
  {
    SortedSameElements(a, b);
  }

  // ----- a delta applied to the wire image of its base

  /** The set `m` is what the wire shows of `view`: one record per entity, no others. */
  ghost predicate Mirrors(m: EntityMap, view: seq<Entity>) {
    && (forall i :: 0 <= i < |view| ==> view[i].id in m && m[view[i].id] == OnWire(view[i]))
    && (forall id :: id in m ==> HasId(view, id))
  }

  ghost predicate HasId(view: seq<Entity>, id: U16) {
    exists i :: 0 <= i < |view| && view[i].id == id
  }

  lemma MirrorListing(m: EntityMap, view: seq<Entity>, ents: seq<Entity>)
    requires View(view) && Mirrors(m, view) && Lists(ents, m)
    ensures ents == OnWireAll(view)
  {
    var ws := OnWireAll(view);
    forall i, j | 0 <= i < j < |ws|
      ensures Key(ws[i]) < Key(ws[j])
    {
      assert Key(view[i]) < Key(view[j]);
    }
    forall e | e in ws
      ensures e.id in m && m[e.id] == e
    {
      var i :| 0 <= i < |ws| && ws[i] == e;
      assert view[i].id in m;
    }
    forall id | id in m
      ensures m[id] in ws
    {
      var i :| 0 <= i < |view| && view[i].id == id;
      assert m[id] == ws[i];
    }
    ListingIsUnique(ents, ws, m);
  }

  /** A full snapshot rebuilds the view it carries. */
  lemma {:induction false} FullMirrors(view: seq<Entity>)
    requires DistinctIds(view)
    ensures Mirrors(PutEach(map[], OnWireAll(view)), view)
  {
    if view != [] {
      var n := |view| - 1;
      FullMirrors(view[..n]);
      assert OnWireAll(view)[..n] == OnWireAll(view[..n]);
      MirrorAlso(PutEach(map[], OnWireAll(view[..n])), view);
    }
  }

  lemma MirrorAlso(m: EntityMap, view: seq<Entity>)
    requires DistinctIds(view) && view != [] && Mirrors(m, view[..|view| - 1])
    ensures var e := OnWire(view[|view| - 1]); Mirrors(m[e.id := e], view)
  {
    hide OnWire;
    var n := |view| - 1;
    var e := OnWire(view[n]);
    assert e.id == view[n].id by {
      OnWireKeepsKey(view[n]);
    }
    forall id | id in m[e.id := e]
      ensures HasId(view, id)
    {
      if id in m {
        var i :| 0 <= i < n && view[..n][i].id == id;
        assert view[i].id == id;
      }
    }
    forall i | 0 <= i < n
      ensures view[i].id in m && m[view[i].id] == OnWire(view[i])
    {
      assert view[..n][i] == view[i];
    }
  }

  lemma OnWireKeepsKey(e: Entity)
    ensures OnWire(e).id == e.id && Key(OnWire(e)) == Key(e)
  {
  }

  /** The set after the first `n` entities of the view were dealt with: those entities
      are current, everything else is still as the base left it. */
  ghost predicate Progress(before: EntityMap, m: EntityMap, view: seq<Entity>, n: nat)
    requires n <= |view|
  {
    && (forall i :: 0 <= i < n ==> view[i].id in m && m[view[i].id] == OnWire(view[i]))
    && (forall id :: id in m && !HasId(view[..n], id) ==> id in before && m[id] == before[id])
    && (forall id :: id in before && !HasId(view[..n], id) ==> id in m)
  }

  /** Removing the ids that went away leaves, of the base, exactly the records whose key
      the view still has; so an id that changed its kind starts from nothing. */
  lemma RemainingRecords(base: seq<Entity>, view: seq<Entity>, m: EntityMap, id: U16)
    requires View(base) && View(view) && Mirrors(m, base)
    ensures id in Without(m, Gone(base, view)) <==>
      exists i :: 0 <= i < |base| && base[i].id == id && HasKey(view, Key(base[i]))
  {
    GoneIds(base, view, id);
    if id in m {
      var i :| 0 <= i < |base| && base[i].id == id;
    }
  }

  lemma {:induction false} GoneIds(base: seq<Entity>, view: seq<Entity>, id: U16)
    ensures id in Gone(base, view) <==>
      exists i :: 0 <= i < |base| && base[i].id == id && !HasKey(view, Key(base[i]))
  {
    hide HasKey;
    if base != [] {
      var n := |base| - 1;
      GoneIds(base[..n], view, id);
      assert forall i :: 0 <= i < n ==> base[..n][i] == base[i];
    }
  }

  /** One entity of the view: patched when the diff sent it, left alone when its mask was
      empty; either way its record becomes current. */
  lemma EntityCurrent(base: seq<Entity>, view: seq<Entity>, m: EntityMap, before: EntityMap, cur: EntityMap, n: nat)
    requires View(base) && View(view) && n < |view| && Mirrors(m, base)
    requires before == Without(m, Gone(base, view)) && Progress(before, cur, view, n)
    ensures var (e, k) := (view[n], MaskAgainst(base, view[n]));
      Progress(before, if k == 0 then cur else PatchOne(cur, Masked(e, k), k), view, n + 1)
  {
    hide Gone, Masked, OnWire, Patch, MaskAgainst, View, Mirrors, Without;
    var (e, k) := (view[n], MaskAgainst(base, view[n]));
    ViewHasDistinctIds(view);
    EarlierIds(view, n);
    PatchesTo(base, view, m, before, n);
    var next := if k == 0 then cur else PatchOne(cur, Masked(e, k), k);
    assert next == cur[e.id := OnWire(e)];
    ProgressStep(before, cur, view, n);
  }

  lemma ViewHasDistinctIds(view: seq<Entity>)
    requires View(view)
    ensures DistinctIds(view)
  {
  }

  lemma EarlierIds(view: seq<Entity>, n: nat)
    requires DistinctIds(view) && n < |view|
    ensures !HasId(view[..n], view[n].id)
    ensures forall id :: HasId(view[..n + 1], id) <==> HasId(view[..n], id) || id == view[n].id
  {
    forall id
      ensures HasId(view[..n + 1], id) <==> HasId(view[..n], id) || id == view[n].id
    {
      assert view[..n + 1] == view[..n] + [view[n]];
      if HasId(view[..n], id) {
        var i :| 0 <= i < n && view[..n][i].id == id;
        assert view[..n + 1][i].id == id;
      }
      assert view[..n + 1][n].id == view[n].id;
    }
  }

  lemma ProgressStep(before: EntityMap, cur: EntityMap, view: seq<Entity>, n: nat)
    requires DistinctIds(view) && n < |view| && Progress(before, cur, view, n)
    ensures Progress(before, cur[view[n].id := OnWire(view[n])], view, n + 1)
  {
    hide OnWire, HasId;
    EarlierIds(view, n);
  }

  /** What the record of `view[n]` becomes, given what the set held for its id. */
  lemma PatchesTo(base: seq<Entity>, view: seq<Entity>, m: EntityMap, before: EntityMap, n: nat)
    requires View(base) && View(view) && n < |view| && Mirrors(m, base)
    requires before == Without(m, Gone(base, view))
    ensures var (e, k) := (view[n], MaskAgainst(base, view[n]));
      && Masked(e, k).id == e.id
      && (k == 0 ==> e.id in before && before[e.id] == OnWire(e))
      && (e.id in before ==> Patch(before[e.id], Masked(e, k), k) == OnWire(e))
      && (e.id !in before ==> Patch(ZERO, Masked(e, k), k) == OnWire(e))
  {
    var (e, k) := (view[n], MaskAgainst(base, view[n]));
    RemainingRecords(base, view, m, e.id);
    if HasKey(base, Key(e)) {
      var i := IndexOf(base, Key(e));
      KeyIdentifies(base[i], e);
      assert HasKey(view, Key(base[i]));
      PatchRestores(base[i], e);
      EmptyMaskMeansAlike(base[i], e);
    } else {
      PatchAll(ZERO, e);
      if e.id in before {
        PatchAll(before[e.id], e);
      }
    }
  }

  lemma {:induction false} DeltaProgress(base: seq<Entity>, view: seq<Entity>, m: EntityMap, n: nat)
    requires View(base) && View(view) && n <= |view| && Mirrors(m, base)
    ensures var (es, ms) := (Changed(base, view[..n]), ChangedMasks(base, view[..n]));
      var before := Without(m, Gone(base, view));
      Progress(before, PatchEach(before, MaskedAll(es, ms), Known(ms)), view, n)
  {
    hide Gone, Without, Masked, Progress, MaskAgainst, View, Mirrors, PatchOne, Changed, ChangedMasks;
    hide MaskedAll, Known, PatchEach;
    var before := Without(m, Gone(base, view));
    if n == 0 {
      assert view[..0] == [];
      NoProgress(base, before, view);
    } else {
      DeltaProgress(base, view, m, n - 1);
      ChangedStep(base, view, n - 1);
      var (es, ms) := (Changed(base, view[..n - 1]), ChangedMasks(base, view[..n - 1]));
      var cur := PatchEach(before, MaskedAll(es, ms), Known(ms));
      EntityCurrent(base, view, m, before, cur, n - 1);
      var (e, k) := (view[n - 1], MaskAgainst(base, view[n - 1]));
      if k == 0 {
        assert es + [] == es && ms + [] == ms;
      } else {
        PatchEachAppend(before, es, ms, e, k);
      }
    }
  }

  lemma NoProgress(base: seq<Entity>, before: EntityMap, view: seq<Entity>)
    ensures var (es, ms) := (Changed(base, []), ChangedMasks(base, []));
      Progress(before, PatchEach(before, MaskedAll(es, ms), Known(ms)), view, 0)
  {
  }

  lemma PatchEachAppend(before: EntityMap, es: seq<Entity>, ms: seq<U8>, e: Entity, k: U8)
    requires |es| == |ms| && k <= FIELD_ALL
    ensures PatchEach(before, MaskedAll(es + [e], ms + [k]), Known(ms + [k]))
         == PatchOne(PatchEach(before, MaskedAll(es, ms), Known(ms)), Masked(e, k), k)
  {
    hide Masked, PatchOne;
    var (fs, ks) := (MaskedAll(es + [e], ms + [k]), Known(ms + [k]));
    assert fs[..|es|] == MaskedAll(es, ms) && ks[..|es|] == Known(ms);
    assert k % 64 == k;
  }

  /** A delta laid over the image of its base is the image of the view, whatever changed:
      fields, membership, or the kind behind an id. */
  lemma DeltaMirrors(base: seq<Entity>, view: seq<Entity>, m: EntityMap)
    requires View(base) && View(view) && Mirrors(m, base)
    ensures var (es, ms) := (Changed(base, view), ChangedMasks(base, view));
      Mirrors(PatchEach(Without(m, Gone(base, view)), MaskedAll(es, ms), Known(ms)), view)
  {
    DeltaProgress(base, view, m, |view|);
    assert view[..|view|] == view;
    var before := Without(m, Gone(base, view));
    forall id | id in before
      ensures HasId(view, id)
    {
      RemainingRecords(base, view, m, id);
      var i :| 0 <= i < |base| && base[i].id == id && HasKey(view, Key(base[i]));
      var j := IndexOf(view, Key(base[i]));
      KeyIdentifies(base[i], view[j]);
    }
  }
}
