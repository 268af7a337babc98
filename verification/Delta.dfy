/** The server's half of the delta protocol, internal/game/delta.go and the send path
    of internal/game/room.go: the ring of sent views, the two-pointer difference, and
    the choice between a full snapshot and a delta. */
module Delta {
  import opened Wire
  import opened SnapshotCodec
  import opened Wrappers

  const RING_LEN := 16

  // ----- the baseline ring

  /** One slot: the view sent at `tick`, if the slot was ever used. */
  datatype SentSnap = SentSnap(tick: nat, ents: seq<Entity>, used: bool)

  const UNUSED: SentSnap := SentSnap(0, [], false)

  type Ring = r: seq<SentSnap> | |r| == RING_LEN witness seq(RING_LEN, _ => UNUSED)

  function EmptyRing(): Ring {
    seq(RING_LEN, _ => UNUSED)
  }

  function RingPut(r: Ring, tick: nat, ents: seq<Entity>): Ring {
    r[tick % RING_LEN := SentSnap(tick, ents, true)]
  }

  function RingGet(r: Ring, tick: nat): Option<seq<Entity>> {
    var s := r[tick % RING_LEN];
    if s.used && s.tick == tick then Some(s.ents) else None
  }

  /** Every used slot holds a view sent at a tick of its residue; tick 0 is never sent. */
  ghost predicate RingOk(r: Ring) {
    forall k :: 0 <= k < RING_LEN && r[k].used ==> r[k].tick > 0 && r[k].tick % RING_LEN == k && View(r[k].ents)
  }

  /** A view is found back exactly until a tick of the same residue replaces it. */
  lemma RingKeeps(r: Ring, put: nat, ents: seq<Entity>, get: nat)
    ensures RingGet(RingPut(r, put, ents), get)
         == if get == put then Some(ents)
            else if get % RING_LEN == put % RING_LEN then None
            else RingGet(r, get)
  {
  }

  class BaselineRing {
    const slots: array<SentSnap>

    constructor ()
      ensures Valid() && fresh(slots) && Contents() == EmptyRing()
    {
      slots := new SentSnap[RING_LEN](_ => UNUSED);
      new;
      assert slots[..] == EmptyRing();
    }

    ghost predicate Valid() {
      slots.Length == RING_LEN
    }

    ghost function Contents(): Ring
      requires Valid()
      reads slots
    {
      slots[..]
    }

    method Put(tick: nat, ents: seq<Entity>)
      requires Valid()
      modifies slots
      ensures Contents() == RingPut(old(Contents()), tick, ents)
    {
      slots[tick % RING_LEN] := SentSnap(tick, ents, true);
    }

    method Get(tick: nat) returns (ents: Option<seq<Entity>>)
      requires Valid()
      ensures ents == RingGet(Contents(), tick)
    {
      var s := slots[tick % RING_LEN];
      if s.used && s.tick == tick {
        ents := Some(s.ents);
      } else {
        ents := None;
      }
    }
  }

  // ----- views

  /** The total order of entities: players before projectiles, then by id. */
  function Key(e: Entity): int {
    e.kind as int * 0x1_0000 + e.id as int
  }

  lemma KeyIdentifies(a: Entity, b: Entity)
    ensures Key(a) == Key(b) <==> a.kind == b.kind && a.id == b.id
  {
  }

  ghost predicate Sorted(es: seq<Entity>) {
    forall i, j :: 0 <= i < j < |es| ==> Key(es[i]) < Key(es[j])
  }

  ghost predicate DistinctIds(es: seq<Entity>) {
    forall i, j :: 0 <= i < j < |es| ==> es[i].id != es[j].id
  }

  /** What a broadcast sends: sorted by key, one entity per id, cut to the wire's limit. */
  ghost predicate View(es: seq<Entity>) {
    Sorted(es) && DistinctIds(es) && |es| <= MAX_ENTITIES
  }

  // ----- the difference, defined entity by entity

  ghost predicate HasKey(es: seq<Entity>, k: int) {
    exists i :: 0 <= i < |es| && Key(es[i]) == k
  }

  ghost function IndexOf(es: seq<Entity>, k: int): (i: nat)
    requires HasKey(es, k)
    ensures i < |es| && Key(es[i]) == k
  {
    var i :| 0 <= i < |es| && Key(es[i]) == k;
    i
  }

  /** The fields of `e` a receiver that holds `base` still needs. */
  ghost function MaskAgainst(base: seq<Entity>, e: Entity): (m: U8)
    ensures m <= FIELD_ALL
  {
    if HasKey(base, Key(e)) then EntityFieldMask(base[IndexOf(base, Key(e))], e) else FIELD_ALL
  }

  ghost function Gone(base: seq<Entity>, view: seq<Entity>): (ids: seq<U16>)
    ensures |ids| <= |base|
  {
    if base == [] then []
    else
      var (front, e) := (base[..|base| - 1], base[|base| - 1]);
      Gone(front, view) + if HasKey(view, Key(e)) then [] else [e.id]
  }

  ghost function Changed(base: seq<Entity>, view: seq<Entity>): (es: seq<Entity>)
    ensures |es| <= |view|
  {
    if view == [] then []
    else
      var (front, e) := (view[..|view| - 1], view[|view| - 1]);
      Changed(base, front) + if MaskAgainst(base, e) == 0 then [] else [e]
  }

  ghost function ChangedMasks(base: seq<Entity>, view: seq<Entity>): (ms: seq<U8>)
    ensures |ms| == |Changed(base, view)|
  {
    if view == [] then []
    else
      var (front, e) := (view[..|view| - 1], view[|view| - 1]);
      ChangedMasks(base, front) + if MaskAgainst(base, e) == 0 then [] else [MaskAgainst(base, e)]
  }

  // ----- the two-pointer merge

  /** Everything before the two cursors is smaller than everything behind them. */
  ghost predicate Split(base: seq<Entity>, view: seq<Entity>, i: nat, j: nat)
    requires i <= |base| && j <= |view|
  {
    && (forall a, b :: 0 <= a < i && j <= b < |view| ==> Key(base[a]) < Key(view[b]))
    && (forall a, b :: i <= a < |base| && 0 <= b < j ==> Key(view[b]) < Key(base[a]))
  }

  lemma OnlyInBase(base: seq<Entity>, view: seq<Entity>, i: nat, j: nat)
    requires Sorted(base) && Sorted(view) && i < |base| && j <= |view| && Split(base, view, i, j)
    requires j < |view| ==> Key(base[i]) < Key(view[j])
    ensures !HasKey(view, Key(base[i])) && Split(base, view, i + 1, j)
  {
    forall b | 0 <= b < |view|
      ensures Key(view[b]) != Key(base[i])
    {
      if b > j {
        assert Key(view[j]) < Key(view[b]);
      }
    }
    forall b | j <= b < |view|
      ensures Key(base[i]) < Key(view[b])
    {
      assert j < b ==> Key(view[j]) < Key(view[b]);
    }
  }

  lemma OnlyInView(base: seq<Entity>, view: seq<Entity>, i: nat, j: nat)
    requires Sorted(base) && Sorted(view) && i <= |base| && j < |view| && Split(base, view, i, j)
    requires i < |base| ==> Key(view[j]) < Key(base[i])
    ensures !HasKey(base, Key(view[j])) && Split(base, view, i, j + 1)
  {
    forall a | 0 <= a < |base|
      ensures Key(base[a]) != Key(view[j])
    {
      if a > i {
        assert Key(base[i]) < Key(base[a]);
      }
    }
    forall a | i <= a < |base|
      ensures Key(view[j]) < Key(base[a])
    {
      assert i < a ==> Key(base[i]) < Key(base[a]);
    }
  }

  lemma InBoth(base: seq<Entity>, view: seq<Entity>, i: nat, j: nat)
    requires Sorted(base) && Sorted(view) && i < |base| && j < |view| && Split(base, view, i, j)
    requires Key(base[i]) == Key(view[j])
    ensures HasKey(view, Key(base[i])) && Split(base, view, i + 1, j + 1)
    ensures HasKey(base, Key(view[j])) && IndexOf(base, Key(view[j])) == i
  {
    SortedKeysAreUnique(base, i, IndexOf(base, Key(view[j])));
  }

  lemma SortedKeysAreUnique(es: seq<Entity>, i: nat, k: nat)
    requires Sorted(es) && i < |es| && k < |es| && Key(es[i]) == Key(es[k])
    ensures i == k
  {
  }

  lemma GoneStep(base: seq<Entity>, view: seq<Entity>, i: nat)
    requires i < |base|
    ensures Gone(base[..i + 1], view)
         == Gone(base[..i], view) + if HasKey(view, Key(base[i])) then [] else [base[i].id]
  {
    hide HasKey;
    assert base[..i + 1][..i] == base[..i];
  }

  lemma ChangedStep(base: seq<Entity>, view: seq<Entity>, j: nat)
    requires j < |view|
    ensures Changed(base, view[..j + 1])
         == Changed(base, view[..j]) + if MaskAgainst(base, view[j]) == 0 then [] else [view[j]]
    ensures ChangedMasks(base, view[..j + 1])
         == ChangedMasks(base, view[..j]) + if MaskAgainst(base, view[j]) == 0 then [] else [MaskAgainst(base, view[j])]
  {
    hide MaskAgainst;
    assert view[..j + 1][..j] == view[..j];
  }

  /** What the merge has emitted when its cursors stand at `i` and `j`. */
  ghost predicate Merged(base: seq<Entity>, view: seq<Entity>, i: nat, j: nat,
                         changed: seq<Entity>, masks: seq<U8>, removed: seq<U16>)
    requires i <= |base| && j <= |view|
  {
    && Split(base, view, i, j)
    && removed == Gone(base[..i], view)
    && changed == Changed(base, view[..j])
    && masks == ChangedMasks(base, view[..j])
  }

  lemma MergeRemoved(
    base: seq<Entity>, view: seq<Entity>, i: nat, j: nat, changed: seq<Entity>, masks: seq<U8>, removed: seq<U16>)
    requires Sorted(base) && Sorted(view) && i < |base| && j <= |view|
    requires Merged(base, view, i, j, changed, masks, removed)
    requires j < |view| ==> Key(base[i]) < Key(view[j])
    ensures Merged(base, view, i + 1, j, changed, masks, removed + [base[i].id])
  {
    hide Changed, ChangedMasks;
    OnlyInBase(base, view, i, j);
    GoneStep(base, view, i);
  }

  lemma MergeAdded(
    base: seq<Entity>, view: seq<Entity>, i: nat, j: nat, changed: seq<Entity>, masks: seq<U8>, removed: seq<U16>)
    requires Sorted(base) && Sorted(view) && i <= |base| && j < |view|
    requires Merged(base, view, i, j, changed, masks, removed)
    requires i < |base| ==> Key(view[j]) < Key(base[i])
    ensures Merged(base, view, i, j + 1, changed + [view[j]], masks + [FIELD_ALL], removed)
  {
    hide Gone;
    OnlyInView(base, view, i, j);
    ChangedStep(base, view, j);
  }

  lemma MergeShared(
    base: seq<Entity>, view: seq<Entity>, i: nat, j: nat, changed: seq<Entity>, masks: seq<U8>, removed: seq<U16>)
    requires Sorted(base) && Sorted(view) && i < |base| && j < |view|
    requires Merged(base, view, i, j, changed, masks, removed)
    requires Key(base[i]) == Key(view[j])
    ensures var m := EntityFieldMask(base[i], view[j]);
      Merged(base, view, i + 1, j + 1,
             if m == 0 then changed else changed + [view[j]], if m == 0 then masks else masks + [m], removed)
  {
    hide EntityFieldMask, Split, Gone, Changed, ChangedMasks;
    InBoth(base, view, i, j);
    GoneStep(base, view, i);
    ChangedStep(base, view, j);
  }

  /** `diffEntities`: one merge pass over two sorted views appends exactly the entities
      whose wire image changed, their masks, and the ids of the keys that went away. */
  method DiffEntities(base: seq<Entity>, view: seq<Entity>)
    returns (changed: seq<Entity>, masks: seq<U8>, removed: seq<U16>)
    requires Sorted(base) && Sorted(view)
    ensures changed == Changed(base, view) && masks == ChangedMasks(base, view) && removed == Gone(base, view)
  {
    hide Merged, Changed, ChangedMasks, Gone;
    changed, masks, removed := [], [], [];
    MergeStarts(base, view);
    var i, j := 0, 0;
    while i < |base| && j < |view|
      invariant i <= |base| && j <= |view|
      invariant Merged(base, view, i, j, changed, masks, removed)
      decreases |base| - i + |view| - j
    {
      var ki, kj := Key(base[i]), Key(view[j]);
      if ki < kj {
        MergeRemoved(base, view, i, j, changed, masks, removed);
        removed := removed + [base[i].id];
        i := i + 1;
      } else if ki > kj {
        MergeAdded(base, view, i, j, changed, masks, removed);
        changed, masks := changed + [view[j]], masks + [FIELD_ALL];
        j := j + 1;
      } else {
        MergeShared(base, view, i, j, changed, masks, removed);
        var m := EntityFieldMask(base[i], view[j]);
        if m != 0 {
          changed, masks := changed + [view[j]], masks + [m];
        }
        i, j := i + 1, j + 1;
      }
    }
    while i < |base|
      invariant i <= |base| && j <= |view| && (i < |base| ==> j == |view|)
      invariant Merged(base, view, i, j, changed, masks, removed)
    {
      MergeRemoved(base, view, i, j, changed, masks, removed);
      removed := removed + [base[i].id];
      i := i + 1;
    }
    while j < |view|
      invariant i == |base| && j <= |view|
      invariant Merged(base, view, i, j, changed, masks, removed)
    {
      MergeAdded(base, view, i, j, changed, masks, removed);
      changed, masks := changed + [view[j]], masks + [FIELD_ALL];
      j := j + 1;
    }
    MergeEnds(base, view, changed, masks, removed);
  }

  lemma MergeStarts(base: seq<Entity>, view: seq<Entity>)
    ensures Merged(base, view, 0, 0, [], [], [])
  {
  }

  lemma MergeEnds(base: seq<Entity>, view: seq<Entity>, changed: seq<Entity>, masks: seq<U8>, removed: seq<U16>)
    requires Merged(base, view, |base|, |view|, changed, masks, removed)
    ensures changed == Changed(base, view) && masks == ChangedMasks(base, view) && removed == Gone(base, view)
  {
    assert base[..|base|] == base && view[..|view|] == view;
  }

  // ----- the send path

  /** The snapshot `sendSnapshotTo` builds: a delta against the acknowledged view when
      the ring still holds it and the delta has fewer records than the view. */
  ghost function SnapshotFor(ring: Ring, ackTick: nat, tick: U32, lastSeq: U32, view: seq<Entity>): Snapshot
    requires ackTick <= tick
  {
    match RingGet(ring, ackTick)
    case None => FullSnapshot(tick, lastSeq, view)
    case Some(base) =>
      if |Changed(base, view)| + |Gone(base, view)| < |view| then DeltaSnapshot(ackTick, base, tick, lastSeq, view)
      else FullSnapshot(tick, lastSeq, view)
  }

  function FullSnapshot(tick: U32, lastSeq: U32, view: seq<Entity>): Snapshot {
    Snapshot(tick, 0, lastSeq, view, [], [])
  }

  ghost function DeltaSnapshot(baseTick: U32, base: seq<Entity>, tick: U32, lastSeq: U32, view: seq<Entity>): Snapshot {
    Snapshot(tick, baseTick, lastSeq, Changed(base, view), ChangedMasks(base, view), Gone(base, view))
  }

  /** A session's side of the protocol, owned by the room's loop. */
  class Session {
    const baseline: BaselineRing
    var ackTick: nat

    constructor ()
      ensures Valid() && fresh(baseline) && fresh(baseline.slots)
      ensures baseline.Contents() == EmptyRing() && ackTick == 0
    {
      baseline := new BaselineRing();
      ackTick := 0;
    }

    ghost predicate Valid() {
      baseline.Valid()
    }

    /** The ack of an input: never from the future, never moving back. */
    method HandleAck(ack: nat, worldTick: nat)
      modifies this
      ensures ackTick == AckAfter(old(ackTick), ack, worldTick)
      ensures ackTick >= old(ackTick) && (ackTick <= worldTick || ackTick == old(ackTick))
      ensures ackTick >= ack || ackTick >= worldTick
      ensures ackTick == old(ackTick) || ackTick == ack || ackTick == worldTick
    {
      var a := ack;
      if a > worldTick {
        a := worldTick;
      }
      if a > ackTick {
        ackTick := a;
      }
    }

    /** Builds, encodes and enqueues one snapshot. `accepted` is the queue's answer: a
        view becomes a base only when its snapshot was enqueued. */
    method SendSnapshot(tick: U32, lastSeq: U32, view: seq<Entity>, accepted: bool) returns (out: Result<Bytes>)
      requires Valid() && RingOk(baseline.Contents()) && View(view) && ackTick <= tick && tick > 0
      modifies baseline.slots
      ensures RingOk(baseline.Contents())
      ensures Encodable(old(SnapshotFor(baseline.Contents(), ackTick, tick, lastSeq, view)))
      ensures out == Ok(Encode(old(SnapshotFor(baseline.Contents(), ackTick, tick, lastSeq, view))))
      ensures Decode(out.value).Ok? && Decode(out.value).value.IsSnapshot?
      ensures Says(Decode(out.value).value.snap, old(RingGet(baseline.Contents(), ackTick)), old(ackTick), tick, lastSeq,
                   view)
      ensures baseline.Contents() ==
        if accepted then RingPut(old(baseline.Contents()), tick, view) else old(baseline.Contents())
    {
      hide View, Changed, ChangedMasks, Gone, Encode, Decode, Says;
      SnapshotIsEncodable(baseline.Contents(), ackTick, tick, lastSeq, view);
      SnapshotSays(baseline.Contents(), ackTick, tick, lastSeq, view);
      var base := baseline.Get(ackTick);
      var snap := FullSnapshot(tick, lastSeq, view);
      if base.Some? {
        ViewIsSorted(base.value);
        ViewIsSorted(view);
        var changed, masks, removed := DiffEntities(base.value, view);
        if |changed| + |removed| < |view| {
          snap := Snapshot(tick, ackTick, lastSeq, changed, masks, removed);
        }
      }
      out := AppendSnapshot([], snap);
      assert [] + Encode(snap) == Encode(snap);
      if accepted {
        baseline.Put(tick, view);
      }
    }
  }

  /** What the receiver of a snapshot reads: its tick, the newest input the server has
      processed, and either the whole view or, exactly when the acknowledged view is still
      there and that is shorter, the changes against it. */
  ghost predicate Says(
    s: Snapshot, base: Option<seq<Entity>>, ackTick: nat, tick: U32, lastSeq: U32, view: seq<Entity>)
  {
    && s.tick == tick && s.lastSeq == lastSeq
    && (s.baseTick == 0 || s.baseTick == ackTick)
    && (s.baseTick == 0 ==> s.entities == OnWireAll(view) && s.removed == [])
    && (s.baseTick != 0 ==> |s.entities| + |s.removed| < |view|)
    && (s.baseTick != 0 <==> base.Some? && |Changed(base.value, view)| + |Gone(base.value, view)| < |view|)
  }

  lemma SnapshotSays(ring: Ring, ackTick: nat, tick: U32, lastSeq: U32, view: seq<Entity>)
    requires RingOk(ring) && View(view) && ackTick <= tick
    requires Encodable(SnapshotFor(ring, ackTick, tick, lastSeq, view))
    ensures var data := Encode(SnapshotFor(ring, ackTick, tick, lastSeq, view));
      && Decode(data).Ok? && Decode(data).value.IsSnapshot?
      && Says(Decode(data).value.snap, RingGet(ring, ackTick), ackTick, tick, lastSeq, view)
  {
    hide Encode, Decode, Encodable, View, Changed, ChangedMasks, Gone, OnWireAll, MaskedAll;
    SnapshotIsEncodable(ring, ackTick, tick, lastSeq, view);
    RoundTrip(SnapshotFor(ring, ackTick, tick, lastSeq, view));
  }

  const DEFAULT_QUEUE := 8

  /** A session's snapshots on their way out. Only the room adds to the queue; the write
      pump takes from its front at any time. */
  class SnapshotQueue {
    const capacity: nat
    var snapshots: seq<Bytes>
    var backlog: nat
    var dropped: nat

    constructor (configured: int)
      ensures Valid() && snapshots == []
    {
      capacity := if configured <= 0 then DEFAULT_QUEUE else configured;
      snapshots, backlog, dropped := [], 0, 0;
    }

    ghost predicate Valid()
      reads this
    {
      0 < capacity && |snapshots| <= capacity
    }

    /** The write pump takes up to `n` snapshots. */
    method Take(n: nat)
      requires Valid()
      modifies this`snapshots
      ensures Valid() && snapshots == old(snapshots)[if n < |old(snapshots)| then n else |old(snapshots)|..]
    {
      snapshots := snapshots[if n < |snapshots| then n else |snapshots|..];
    }

    /** `enqueueSnapshot`, with the pump taking `first` and `second` snapshots between its
        steps: the new snapshot always gets in, last, and no older one is dropped unless the
        queue was full, and then one at most. */
    method Enqueue(b: Bytes, first: nat, second: nat) returns (ok: bool)
      requires Valid()
      modifies this
      ensures ok && Valid()
      ensures |old(snapshots)| < capacity ==>
        snapshots == old(snapshots) + [b] && backlog == 0 && dropped == old(dropped)
      ensures |old(snapshots)| == capacity ==>
        && snapshots != [] && snapshots == old(snapshots)[capacity - |snapshots| + 1..] + [b]
        && |snapshots| + first + second >= capacity
        && backlog == old(backlog) + 1 && dropped == old(dropped) + 1
    {
      if |snapshots| < capacity {
        snapshots, backlog := snapshots + [b], 0;
        return true;
      }
      Take(first);
      if snapshots != [] {
        snapshots := snapshots[1..];
      }
      backlog, dropped := backlog + 1, dropped + 1;
      Take(second);
      if |snapshots| < capacity {
        snapshots := snapshots + [b];
        return true;
      }
      return false;
    }
  }

  lemma ViewIsSorted(view: seq<Entity>)
    requires View(view)
    ensures Sorted(view)
  {
  }

  /** Encoding a snapshot the room builds cannot fail: no count exceeds one byte. */
  lemma SnapshotIsEncodable(ring: Ring, ackTick: nat, tick: U32, lastSeq: U32, view: seq<Entity>)
    requires RingOk(ring) && View(view) && ackTick <= tick
    ensures Encodable(SnapshotFor(ring, ackTick, tick, lastSeq, view))
    ensures RingGet(ring, 0) == None
  {
  }

  /** Against an empty base everything is new, so the full snapshot is chosen: an empty
      stored view behaves like none at all. */
  lemma EmptyBaseIsFull(ring: Ring, ackTick: nat, tick: U32, lastSeq: U32, view: seq<Entity>)
    requires ackTick <= tick && RingGet(ring, ackTick) == Some([])
    ensures SnapshotFor(ring, ackTick, tick, lastSeq, view) == FullSnapshot(tick, lastSeq, view)
  {
    AllChanged(view);
  }

  lemma {:induction false} AllChanged(view: seq<Entity>)
    ensures |Changed([], view)| == |view|
  {
    if view != [] {
      AllChanged(view[..|view| - 1]);
    }
  }

  function AckAfter(current: nat, ack: nat, worldTick: nat): nat {
    var a := if ack > worldTick then worldTick else ack;
    if a > current then a else current
  }
}
