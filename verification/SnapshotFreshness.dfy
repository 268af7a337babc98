/** Why an honest client never misses a base: the rate divider of internal/game/room.go,
    the 16-slot ring of the server and the 32-entry store of the client fit together. */
module SnapshotFreshness {
  import opened Wrappers
  import opened Division
  import opened Wire
  import opened SnapshotCodec
  import opened Delta
  import opened Reconstruct
  import opened SnapshotProtocol

  // ----- the rate divider

  class RateDivider {
    var accum: nat
    const num: nat
    const den: nat
    ghost var ticks: nat

    constructor (num: nat, den: nat)
      requires 0 < num <= den
      ensures Valid() && ticks == 0 && this.num == num && this.den == den
    {
      this.num, this.den, accum, ticks := num, den, 0, 0;
    }

    ghost predicate Valid()
      reads this
    {
      0 < num <= den && accum == (num * ticks) % den
    }

    /** Says yes exactly when the running quota `num * ticks / den` grows. */
    method Tick() returns (due: bool)
      requires Valid()
      modifies this
      ensures Valid() && ticks == old(ticks) + 1
      ensures due <==> Due(num, den, ticks)
    {
      QuotaStep(num, den, ticks);
      accum := accum + num;
      ticks := ticks + 1;
      if accum >= den {
        accum := accum - den;
        return true;
      }
      return false;
    }
  }

  /** The Bresenham rule: tick `t` sends when the whole part of its quota grows. */
  ghost predicate Due(num: nat, den: nat, t: nat)
    requires den > 0 && t > 0
  {
    (num * t) / den == (num * (t - 1)) / den + 1
  }

  lemma QuotaStep(num: nat, den: nat, t: nat)
    requires 0 < num <= den
    ensures var a := (num * t) % den + num;
      && (num * (t + 1)) % den == (if a >= den then a - den else a)
      && (Due(num, den, t + 1) <==> a >= den)
  {
    var (q, r) := ((num * t) / den, (num * t) % den);
    assert num * (t + 1) == num * t + num == q * den + (r + num);
    if r + num >= den {
      Divided(den, q + 1, r + num - den, num * (t + 1));
    } else {
      Divided(den, q, r + num, num * (t + 1));
    }
  }

  datatype Schedule = EveryTick | TwentyOfThirty

  /** The ticks at which a snapshot goes out at the default rate and at 20 Hz on 30 Hz. */
  predicate Sends(sch: Schedule, t: nat) {
    match sch
    case EveryTick => true
    case TwentyOfThirty => t % 3 != 1
  }

  lemma SendsIsDue(rate: nat, t: nat)
    requires rate > 0 && t > 0
    ensures Due(rate, rate, t) && (Due(20, 30, t) <==> Sends(TwentyOfThirty, t))
  {
    assert rate * t == t * rate + 0 && rate * (t - 1) == (t - 1) * rate + 0;
    Divided(rate, t, 0, rate * t);
    Divided(rate, t - 1, 0, rate * (t - 1));
    assert (20 * t) / 30 == (2 * t) / 3 && (20 * (t - 1)) / 30 == (2 * (t - 1)) / 3;
  }

  // ----- honest runs

  /** A step of an honest session: snapshots follow the schedule and are enqueued, as
      `SnapshotQueue.Enqueue` promises of every one that is sent, and every ack the server
      sees was sent by the client. */
  ghost predicate HonestStep(sch: Schedule, s: System, e: Event, s': System) {
    && Step(s, e, s')
    && match e
       case Tick(b) => (b.Some? <==> Sends(sch, s.tick + 1)) && (b.Some? ==> b.value.accepted)
       case HandleAck(a) => a in s.up
       case _ => true
  }

  ghost predicate HonestRun(sch: Schedule, states: seq<System>, events: seq<Event>, joinTick: nat) {
    && |states| == |events| + 1
    && Init(states[0], joinTick)
    && forall i :: 0 <= i < |events| ==> HonestStep(sch, states[i], events[i], states[i + 1])
  }

  ghost function Ticks(shown: seq<Shown>): (ts: seq<nat>)
    ensures |ts| == |shown|
  {
    seq(|shown|, i requires 0 <= i < |shown| => shown[i].tick)
  }

  ghost function Last(ts: seq<nat>, n: nat): seq<nat> {
    if |ts| <= n then ts else ts[|ts| - n..]
  }

  ghost predicate ZeroOr(t: nat, ts: seq<nat>) {
    t == 0 || t in ts
  }

  /** A message whose base the client has shown and that is at most 32 ticks younger. */
  ghost predicate NearBase(sent: map<nat, seq<Entity>>, shown: seq<nat>, data: Bytes) {
    exists t: U32, b: U32, lastSeq: U32 :: Carries(sent, data, t, b, lastSeq) && (b != 0 ==> b in shown && t <= b + 32)
  }

  ghost predicate RingIsCurrent(ring: Ring, sent: map<nat, seq<Entity>>) {
    forall t :: t in sent ==> ring[t % RING_LEN].used && t <= ring[t % RING_LEN].tick
  }

  ghost predicate StoreIsRecent(r: Recon, shown: seq<nat>) {
    r.order == Last(shown, RECON_KEEP) && forall t :: t in r.store <==> t in r.order
  }

  /** Everything due since the session began at world tick `start`, and nothing else. */
  ghost predicate Scheduled(sch: Schedule, start: nat, sent: map<nat, seq<Entity>>, tick: nat) {
    start <= tick && forall t :: t in sent <==> start < t <= tick && Sends(sch, t)
  }

  ghost predicate Fresh(sch: Schedule, start: nat, s: System) {
    var shown := Ticks(s.shown);
    && Inv(s)
    && Scheduled(sch, start, s.sent, s.tick)
    && RingIsCurrent(s.ring, s.sent)
    && StoreIsRecent(s.client.recon, shown)
    && ZeroOr(s.client.ack, shown) && ZeroOr(s.ackTick, shown)
    && (forall a :: a in s.up ==> ZeroOr(a, shown))
    && (forall data :: data in s.down ==> NearBase(s.sent, shown, data))
  }

  /** Within 32 ticks the schedule sends again at a tick of the same residue. */
  lemma ResidueReturns(sch: Schedule, base: nat) returns (t: nat)
    requires Sends(sch, base)
    ensures base < t <= base + 32 && t % RING_LEN == base % RING_LEN && Sends(sch, t)
  {
    if sch.TwentyOfThirty? && base % 3 == 0 {
      t := base + 32;
    } else {
      t := base + 16;
    }
  }

  /** So a view still in the ring is at most 32 ticks old. */
  lemma RingIsYoung(sch: Schedule, start: nat, sent: map<nat, seq<Entity>>, ring: Ring, tick: nat, base: nat)
    requires Scheduled(sch, start, sent, tick) && RingIsCurrent(ring, sent)
    requires base in sent && RingGet(ring, base).Some?
    ensures tick + 1 <= base + 32
  {
    var t := ResidueReturns(sch, base);
    var slot := ring[t % RING_LEN];
    assert t !in sent || t <= slot.tick;
  }

  /** When the last ack is more than 32 ticks old, what goes out is a full snapshot. */
  lemma StaleAckMeansFull(sch: Schedule, start: nat, s: System, lastSeq: U32, view: seq<Entity>)
    requires Fresh(sch, start, s) && s.tick + 1 > s.ackTick + 32 && s.tick + 1 < 0x1_0000_0000
    ensures SnapshotFor(s.ring, s.ackTick, s.tick + 1, lastSeq, view) == FullSnapshot(s.tick + 1, lastSeq, view)
  {
    hide NearBase, StoreIsRecent;
    if RingGet(s.ring, s.ackTick).Some? {
      assert s.ackTick in s.sent;
      RingIsYoung(sch, start, s.sent, s.ring, s.tick, s.ackTick);
    }
  }

  lemma SentIsNear(sch: Schedule, start: nat, s: System, b: Broadcast)
    requires Fresh(sch, start, s) && View(b.view) && s.tick + 1 < 0x1_0000_0000
    ensures var sent' := s.sent[s.tick + 1 := b.view];
      var snap := SnapshotFor(s.ring, s.ackTick, s.tick + 1, b.lastSeq, b.view);
      Encodable(snap) ==> NearBase(sent', Ticks(s.shown), Encode(snap))
  {
    hide View, Encode, Changed, ChangedMasks, Gone, Encodable, StoreIsRecent, Mirrors;
    var t := s.tick + 1;
    var sent' := s.sent[t := b.view];
    var snap := SnapshotFor(s.ring, s.ackTick, t, b.lastSeq, b.view);
    if Encodable(snap) {
      var base := RingGet(s.ring, s.ackTick);
      if base.None? || snap.baseTick == 0 {
        assert Carries(sent', Encode(snap), t, 0, b.lastSeq);
      } else {
        assert s.ackTick in Ticks(s.shown);
        RingIsYoung(sch, start, s.sent, s.ring, s.tick, s.ackTick);
        assert Carries(sent', Encode(snap), t, s.ackTick, b.lastSeq);
      }
    }
  }

  lemma StillNear(sent: map<nat, seq<Entity>>, t: nat, view: seq<Entity>, shown: seq<nat>, data: Bytes)
    requires NearBase(sent, shown, data) && t !in sent
    ensures NearBase(sent[t := view], shown, data)
  {
    hide Encode, Encodable;
    var u: U32, b: U32, l: U32 :| Carries(sent, data, u, b, l) && (b != 0 ==> b in shown && u <= b + 32);
    assert Carries(sent[t := view], data, u, b, l);
  }

  lemma NearAfterShowing(sent: map<nat, seq<Entity>>, shown: seq<nat>, t: nat, data: Bytes)
    requires NearBase(sent, shown, data)
    ensures NearBase(sent, shown + [t], data)
  {
    hide Carries;
    var u: U32, b: U32, l: U32 :| Carries(sent, data, u, b, l) && (b != 0 ==> b in shown && u <= b + 32);
    assert b != 0 ==> b in shown + [t];
  }

  lemma TickFresh(sch: Schedule, start: nat, s: System, b: Option<Broadcast>, s': System)
    requires Fresh(sch, start, s) && HonestStep(sch, s, Tick(b), s')
    ensures Fresh(sch, start, s')
  {
    if b.Some? {
      BroadcastFresh(sch, start, s, b.value, s');
    } else {
      QuietTickFresh(sch, start, s, s');
    }
  }

  lemma QuietTickFresh(sch: Schedule, start: nat, s: System, s': System)
    requires Fresh(sch, start, s) && HonestStep(sch, s, Tick(None), s')
    ensures Fresh(sch, start, s')
  {
    StepInv(s, Tick(None), s');
    hide View, Encode, NearBase, SnapshotFor, StoreIsRecent, Encodable, Inv, Scheduled, RingIsCurrent, ZeroOr, Ticks;
    StillScheduled(sch, start, s, None);
  }

  lemma BroadcastFresh(sch: Schedule, start: nat, s: System, b: Broadcast, s': System)
    requires Fresh(sch, start, s) && HonestStep(sch, s, Tick(Some(b)), s')
    ensures Fresh(sch, start, s')
  {
    hide View, Encode, NearBase, SnapshotFor, StoreIsRecent, Encodable, Inv, Scheduled, RingIsCurrent, ZeroOr, Ticks;
    StepInv(s, Tick(Some(b)), s');
    InvHistory(s);
    StillScheduled(sch, start, s, Some(b));
    SentIsNear(sch, start, s, b);
    DownAfterTick(s, b, s');
    CurrentAfterPut(s, s.tick + 1, b.view);
  }

  lemma InvHistory(s: System)
    requires Inv(s)
    ensures forall t :: t in s.sent ==> 0 < t <= s.tick
  {
  }

  lemma StillScheduled(sch: Schedule, start: nat, s: System, b: Option<Broadcast>)
    requires Scheduled(sch, start, s.sent, s.tick) && (b.Some? <==> Sends(sch, s.tick + 1))
    ensures Scheduled(sch, start, if b.Some? then s.sent[s.tick + 1 := b.value.view] else s.sent, s.tick + 1)
  {
  }

  lemma DownAfterTick(s: System, b: Broadcast, s': System)
    requires b.accepted && Step(s, Tick(Some(b)), s') && (forall t :: t in s.sent ==> 0 < t <= s.tick)
    requires forall data :: data in s.down ==> NearBase(s.sent, Ticks(s.shown), data)
    requires var snap := SnapshotFor(s.ring, s.ackTick, s.tick + 1, b.lastSeq, b.view);
      Encodable(snap) ==> NearBase(s'.sent, Ticks(s.shown), Encode(snap))
    ensures forall data :: data in s'.down ==> NearBase(s'.sent, Ticks(s'.shown), data)
  {
    hide View, Encode, NearBase, SnapshotFor, Encodable, Ticks;
    forall data | data in s'.down
      ensures NearBase(s'.sent, Ticks(s'.shown), data)
    {
      if data in s.down {
        StillNear(s.sent, s.tick + 1, b.view, Ticks(s.shown), data);
      }
    }
  }

  lemma CurrentAfterPut(s: System, t: nat, view: seq<Entity>)
    requires RingIsCurrent(s.ring, s.sent) && (forall u :: u in s.sent ==> u < t)
    ensures RingIsCurrent(RingPut(s.ring, t, view), s.sent[t := view])
  {
  }

  lemma RememberedIsRecent(r: Recon, shown: seq<nat>, t: nat, m: EntityMap)
    requires StoreIsRecent(r, shown) && (forall i :: 0 <= i < |shown| ==> shown[i] < t)
    requires forall i, j :: 0 <= i < j < |shown| ==> shown[i] < shown[j]
    ensures StoreIsRecent(Remembered(r, t, m), shown + [t])
  {
    var order := r.order + [t];
    NewTick(shown, t);
    assert t !in r.store;
    HeadOccursOnce(order);
    RememberedTicks(r.store[t := m], order);
    if |order| > RECON_KEEP {
      assert order[1..] == Last(shown + [t], RECON_KEEP);
    } else {
      assert order == Last(shown + [t], RECON_KEEP);
    }
  }

  /** At most one tick is evicted, the first. */
  lemma RememberedTicks(store: map<nat, EntityMap>, order: seq<nat>)
    requires 0 < |order| <= RECON_KEEP + 1 && order[0] !in order[1..] && forall t :: t in store <==> t in order
    ensures var r := Evict(Recon(store, order));
      && r.order == (if |order| > RECON_KEEP then order[1..] else order)
      && forall t :: t in r.store <==> t in r.order
  {
    assert order == [order[0]] + order[1..];
    if |order| > RECON_KEEP {
      assert Evict(Recon(store, order)) == Recon(store - {order[0]}, order[1..]);
    }
  }

  lemma NewTick(shown: seq<nat>, t: nat)
    requires forall i :: 0 <= i < |shown| ==> shown[i] < t
    ensures t !in Last(shown, RECON_KEEP)
  {
  }

  lemma HeadOccursOnce(ts: seq<nat>)
    requires |ts| > 0 && forall i, j :: 0 <= i < j < |ts| ==> ts[i] < ts[j]
    ensures ts[0] !in ts[1..]
  {
  }

  lemma DeliverFresh(sch: Schedule, start: nat, s: System, data: Bytes, ents: seq<Entity>, s': System)
    requires Fresh(sch, start, s) && HonestStep(sch, s, Deliver(data, ents), s')
    ensures Fresh(sch, start, s')
  {
    hide *;
    FreshIsInv(sch, start, s);
    HonestIsStep(sch, s, Deliver(data, ents), s');
    StepInv(s, Deliver(data, ents), s');
    Delivered(s, data, ents, s');
    if Accepted(s.client, data).Some? {
      var snap := Accepted(s.client, data).value;
      ShownTicksAscend(s);
      ShownTicksAscend(s');
      TicksAppend(s.shown, snap.tick, snap.lastSeq, ents);
      NewestIsGreatest(Ticks(s.shown), snap.tick);
      ShowingFresh(sch, start, s, snap.tick, RebuiltBy(s.client, data), s');
    }
  }

  lemma FreshIsInv(sch: Schedule, start: nat, s: System)
    requires Fresh(sch, start, s)
    ensures Inv(s)
  {
  }

  lemma HonestIsStep(sch: Schedule, s: System, e: Event, s': System)
    requires HonestStep(sch, s, e, s')
    ensures Step(s, e, s')
  {
    hide Step;
  }

  /** A newer snapshot shown leaves everything fresh. */
  lemma ShowingFresh(sch: Schedule, start: nat, s: System, t: nat, m: EntityMap, s': System)
    requires Fresh(sch, start, s) && Inv(s') && Ticks(s'.shown) == Ticks(s.shown) + [t]
    requires s' == s.(client := ClientState(t, true, t, Remembered(s.client.recon, t, m)), shown := s'.shown)
    requires var ts := Ticks(s.shown); forall i, j :: 0 <= i < j < |ts| ==> ts[i] < ts[j]
    requires forall i :: 0 <= i < |Ticks(s.shown)| ==> Ticks(s.shown)[i] < t
    ensures Fresh(sch, start, s')
  {
    hide NearBase, Inv, Remembered, StoreIsRecent, Scheduled, RingIsCurrent, Ticks, ZeroOr;
    var shown := Ticks(s.shown);
    RememberedIsRecent(s.client.recon, shown, t, m);
    ZeroOrGrows(shown, t);
    DownAfterShowing(s.down, s.sent, shown, t);
  }

  lemma NewestIsGreatest(shown: seq<nat>, t: nat)
    requires var ts := shown + [t]; forall i, j :: 0 <= i < j < |ts| ==> ts[i] < ts[j]
    ensures forall i :: 0 <= i < |shown| ==> shown[i] < t
  {
    var ts := shown + [t];
    forall i | 0 <= i < |shown|
      ensures shown[i] < t
    {
      assert ts[i] < ts[|shown|];
    }
  }

  lemma DownAfterShowing(down: set<Bytes>, sent: map<nat, seq<Entity>>, shown: seq<nat>, t: nat)
    requires forall d :: d in down ==> NearBase(sent, shown, d)
    ensures forall d :: d in down ==> NearBase(sent, shown + [t], d)
  {
    hide NearBase;
    forall d | d in down
      ensures NearBase(sent, shown + [t], d)
    {
      NearAfterShowing(sent, shown, t, d);
    }
  }

  lemma Delivered(s: System, data: Bytes, ents: seq<Entity>, s': System)
    requires Step(s, Deliver(data, ents), s')
    ensures Accepted(s.client, data).None? ==> s' == s
    ensures Accepted(s.client, data).Some? ==>
      var snap := Accepted(s.client, data).value;
      var t := snap.tick;
      s' == s.(client := ClientState(t, true, t, Remembered(s.client.recon, t, RebuiltBy(s.client, data))),
               shown := s.shown + [Shown(t, snap.lastSeq, ents)])
  {
    hide Accepted, RebuiltBy, Remembered, Lists;
  }

  lemma ZeroOrGrows(shown: seq<nat>, t: nat)
    ensures ZeroOr(t, shown + [t])
    ensures forall a :: ZeroOr(a, shown) ==> ZeroOr(a, shown + [t])
  {
  }

  lemma TicksAppend(shown: seq<Shown>, t: nat, lastSeq: nat, ents: seq<Entity>)
    ensures Ticks(shown + [Shown(t, lastSeq, ents)]) == Ticks(shown) + [t]
  {
  }

  lemma ShownTicksAscend(s: System)
    requires Inv(s)
    ensures var ts := Ticks(s.shown); forall i, j :: 0 <= i < j < |ts| ==> ts[i] < ts[j]
  {
  }

  lemma HonestStepFresh(sch: Schedule, start: nat, s: System, e: Event, s': System)
    requires Fresh(sch, start, s) && HonestStep(sch, s, e, s')
    ensures Fresh(sch, start, s')
  {
    match e
    case Tick(b) => TickFresh(sch, start, s, b, s');
    case Deliver(data, ents) => DeliverFresh(sch, start, s, data, ents, s');
    case _ =>
      StepInv(s, e, s');
      hide NearBase, StoreIsRecent, Inv, RingIsCurrent, Scheduled;
  }

  lemma {:induction false} HonestRunFresh(sch: Schedule, states: seq<System>, events: seq<Event>, joinTick: nat, n: nat)
    requires HonestRun(sch, states, events, joinTick) && n < |states|
    ensures Fresh(sch, states[0].tick, states[n])
  {
    hide Fresh, HonestStep;
    if n == 0 {
      InitFresh(sch, states[0], joinTick);
    } else {
      HonestRunFresh(sch, states, events, joinTick, n - 1);
      HonestStepFresh(sch, states[0].tick, states[n - 1], events[n - 1], states[n]);
    }
  }

  lemma InitFresh(sch: Schedule, s: System, joinTick: nat)
    requires Init(s, joinTick)
    ensures Fresh(sch, s.tick, s)
  {
    InitInv(s, joinTick);
  }

  // ----- the base is always there

  lemma {:induction false} AscendingGap(ts: seq<nat>, i: nat, j: nat)
    requires i <= j < |ts| && forall a, b :: 0 <= a < b < |ts| ==> ts[a] < ts[b]
    ensures ts[i] + (j - i) <= ts[j]
  {
    if i < j {
      AscendingGap(ts, i, j - 1);
    }
  }

  /** A base at most 31 ticks behind the newest shown tick is among the last 32 shown. */
  lemma RecentIsStored(r: Recon, shown: seq<nat>, b: nat)
    requires StoreIsRecent(r, shown) && b in shown
    requires forall i, j :: 0 <= i < j < |shown| ==> shown[i] < shown[j]
    requires shown[|shown| - 1] < b + 32
    ensures b in r.store
  {
    var p :| 0 <= p < |shown| && shown[p] == b;
    AscendingGap(shown, p, |shown| - 1);
    if |shown| > RECON_KEEP {
      assert Last(shown, RECON_KEEP)[p - (|shown| - RECON_KEEP)] == b;
    }
  }

  /** In every honest run at either rate, whenever the client joined, a snapshot that is
      not stale is never dropped: the client takes it, whatever was lost, duplicated or overtaken on the way. */
  lemma FreshSnapshotsAreNeverMissed(
    sch: Schedule, states: seq<System>, events: seq<Event>, joinTick: nat, n: nat, data: Bytes)
    requires HonestRun(sch, states, events, joinTick) && n < |states| && data in states[n].down
    ensures var c := states[n].client;
      && Decode(data).Ok? && Decode(data).value.IsSnapshot?
      && (Accepted(c, data).None? <==> c.hasSnap && Decode(data).value.snap.tick <= c.tick)
  {
    HonestRunFresh(sch, states, events, joinTick, n);
    FreshIsAccepted(sch, states[0].tick, states[n], data);
  }

  lemma FreshIsAccepted(sch: Schedule, start: nat, s: System, data: Bytes)
    requires Fresh(sch, start, s) && data in s.down
    ensures Decode(data).Ok? && Decode(data).value.IsSnapshot?
    ensures Accepted(s.client, data).None? <==> s.client.hasSnap && Decode(data).value.snap.tick <= s.client.tick
  {
    hide *;
    var shown := Ticks(s.shown);
    var t, b, l := CarriedBy(sch, start, s, data);
    CarriedDecodes(s.sent, data, t, b, l);
    NewestShown(sch, start, s);
    if b != 0 && !(s.client.hasSnap && t <= s.client.tick) {
      RecentIsStored(s.client.recon, shown, b);
    }
    AcceptedIff(s.client, data);
  }

  lemma CarriedBy(sch: Schedule, start: nat, s: System, data: Bytes) returns (t: U32, b: U32, l: U32)
    requires Fresh(sch, start, s) && data in s.down
    ensures Carries(s.sent, data, t, b, l) && (b != 0 ==> b in Ticks(s.shown) && t <= b + 32)
  {
    hide Carries, Inv, Scheduled, RingIsCurrent, StoreIsRecent, ZeroOr, Ticks;
    assert NearBase(s.sent, Ticks(s.shown), data);
    t, b, l :| Carries(s.sent, data, t, b, l) && (b != 0 ==> b in Ticks(s.shown) && t <= b + 32);
  }

  lemma CarriedDecodes(sent: map<nat, seq<Entity>>, data: Bytes, t: U32, b: U32, l: U32)
    requires Carries(sent, data, t, b, l)
    ensures Decode(data).Ok? && Decode(data).value.IsSnapshot?
    ensures Decode(data).value.snap.tick == t && Decode(data).value.snap.baseTick == b
  {
    hide Encode, Decode, Encodable, Changed, ChangedMasks, Gone, OnWireAll, MaskedAll, Known;
    RoundTrip(Carried(sent, t, b, l));
  }

  /** The newest tick shown is the client's. */
  lemma NewestShown(sch: Schedule, start: nat, s: System)
    requires Fresh(sch, start, s)
    ensures var ts := Ticks(s.shown);
      && StoreIsRecent(s.client.recon, ts)
      && (forall i, j :: 0 <= i < j < |ts| ==> ts[i] < ts[j])
      && (if s.client.hasSnap then ts != [] && ts[|ts| - 1] == s.client.tick else ts == [])
  {
    ShownTicksAscend(s);
    hide NearBase, Scheduled, RingIsCurrent, StoreIsRecent, ZeroOr, RingIsHistory, InFlight, Mirrors, ShownIsSent;
  }

  lemma AcceptedIff(c: ClientState, data: Bytes)
    requires Decode(data).Ok? && Decode(data).value.IsSnapshot?
    ensures var s := Decode(data).value.snap;
      && (c.hasSnap && s.tick <= c.tick ==> Accepted(c, data).None?)
      && (!(c.hasSnap && s.tick <= c.tick) && (s.baseTick == 0 || s.baseTick in c.recon.store) ==>
          Accepted(c, data).Some?)
  {
    hide Decode, PutEach, PatchEach, Without;
  }

  /** In every honest run, once the newest ack is more than 32 ticks old every snapshot is full. */
  lemma SilenceMeansFullSnapshots(
    sch: Schedule, states: seq<System>, events: seq<Event>, joinTick: nat, n: nat, lastSeq: U32, view: seq<Entity>)
    requires HonestRun(sch, states, events, joinTick) && n < |states|
    requires states[n].ackTick + 32 < states[n].tick + 1 < 0x1_0000_0000
    ensures var s := states[n];
      SnapshotFor(s.ring, s.ackTick, s.tick + 1, lastSeq, view) == FullSnapshot(s.tick + 1, lastSeq, view)
  {
    HonestRunFresh(sch, states, events, joinTick, n);
    StaleAckMeansFull(sch, states[0].tick, states[n], lastSeq, view);
  }
}
