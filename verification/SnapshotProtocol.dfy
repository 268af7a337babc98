/** The delta-snapshot protocol end to end: one session of the room, a network that
    loses, duplicates and reorders, and the receiving client of internal/bot/bot.go.
    Every message in flight is its bytes, so the codec is part of what is proved. */
module SnapshotProtocol {
  import opened Wrappers
  import opened Wire
  import opened SnapshotCodec
  import opened Delta
  import opened Reconstruct

  // ----- the client

  datatype ClientState = ClientState(tick: nat, hasSnap: bool, ack: nat, recon: Recon)

  lemma {:induction false} ParsedDeltasAreParallel(b: Bytes, n: nat, es: seq<Entity>, ms: seq<U8>)
    requires |es| == |ms|
    ensures ParseDeltas(b, n, es, ms).Ok? ==>
      |ParseDeltas(b, n, es, ms).value.entities| == |ParseDeltas(b, n, es, ms).value.masks|
    decreases n
  {
    hide FieldsAt, DeltaFieldBytes, Get16;
    if n > 0 && |b| >= 3 {
      var m: U8 := b[2] % 64;
      var need := DeltaFieldBytes(m);
      if |b| >= 3 + need {
        ParsedDeltasAreParallel(b[3 + need..], n - 1, es + [FieldsAt(Get16(b, 0), m, b[3..])], ms + [m]);
      }
    }
  }

  lemma DecodedIsParallel(data: Bytes)
    ensures Decode(data).Ok? && Decode(data).value.IsSnapshot? ==> Parallel(Decode(data).value.snap)
  {
    hide Get32, ParseDeltas, ParseFull, ParseRemoved;
    if |data| >= 14 {
      ParsedDeltasAreParallel(data[14..], data[13], [], []);
    }
  }

  /** The snapshot a message is taken for: of the right type, not stale, base known. */
  function Accepted(c: ClientState, data: Bytes): Option<Snapshot> {
    DecodedIsParallel(data);
    match Decode(data)
    case Ok(IsSnapshot(s)) =>
      if c.hasSnap && s.tick <= c.tick then None
      else if Rebuilt(c.recon.store, s).None? then None
      else Some(s)
    case _ => None
  }

  function RebuiltBy(c: ClientState, data: Bytes): EntityMap
    requires Accepted(c, data).Some?
  {
    DecodedIsParallel(data);
    Rebuilt(c.recon.store, Accepted(c, data).value).value
  }

  function ClientAfter(c: ClientState, data: Bytes): ClientState {
    match Accepted(c, data)
    case None => c
    case Some(s) => ClientState(s.tick, true, s.tick, Remembered(c.recon, s.tick, RebuiltBy(c, data)))
  }

  datatype ReadResult = Blocked | Failed(error: Error) | Got(tick: nat, lastSeq: nat, entities: seq<Entity>)

  lemma {:induction false} EvictKeeps(r: Recon)
    ensures Evict(r).store.Keys <= r.store.Keys
    ensures forall t :: t in Evict(r).store ==> Evict(r).store[t] == r.store[t]
    decreases |r.order|
  {
    if |r.order| > RECON_KEEP {
      EvictKeeps(Recon(r.store - {r.order[0]}, r.order[1..]));
    }
  }

  lemma StaysKeyed(r: Recon, s: Snapshot)
    requires Parallel(s) && (forall t :: t in r.store ==> KeyedById(r.store[t])) && Rebuilt(r.store, s).Some?
    ensures forall t :: t in Remembered(r, s.tick, Rebuilt(r.store, s).value).store ==>
      KeyedById(Remembered(r, s.tick, Rebuilt(r.store, s).value).store[t])
  {
    var m := Rebuilt(r.store, s).value;
    RebuiltKeyed(r.store, s);
    hide Rebuilt, KeyedById, Evict;
    EvictKeeps(Recon(r.store[s.tick := m], if s.tick in r.store then r.order else r.order + [s.tick]));
  }

  class Client {
    var tick: nat
    var hasSnap: bool
    var ack: nat
    const rc: Reconstructor

    constructor (joinTick: nat)
      ensures State() == ClientState(joinTick, false, 0, Recon(map[], [])) && fresh(rc)
    {
      tick, hasSnap, ack := joinTick, false, 0;
      rc := new Reconstructor();
    }

    ghost function State(): ClientState
      reads this, rc
    {
      ClientState(tick, hasSnap, ack, rc.State())
    }

    ghost predicate Valid()
      reads rc
    {
      forall t :: t in rc.store ==> KeyedById(rc.store[t])
    }

    /** `ReadSnapshot` on the messages that arrive: skips what is not a fresh snapshot
        with a known base, stops at a decode error, and returns the first accepted one. */
    method ReadSnapshot(inbox: seq<Bytes>) returns (consumed: nat, r: ReadResult)
      requires Valid()
      modifies this, rc
      ensures Valid() && consumed <= |inbox|
      ensures r.Got? ==> consumed > 0 && forall i :: 0 <= i < consumed - 1 ==> Accepted(old(State()), inbox[i]).None?
      ensures r.Got? ==> var data := inbox[consumed - 1];
        && Accepted(old(State()), data).Some? && State() == ClientAfter(old(State()), data)
        && r.tick == Accepted(old(State()), data).value.tick && r.lastSeq == Accepted(old(State()), data).value.lastSeq
        && Lists(r.entities, RebuiltBy(old(State()), data))
      ensures !r.Got? ==> State() == old(State())
      ensures r.Blocked? ==>
        consumed == |inbox| && forall i :: 0 <= i < |inbox| ==> Accepted(old(State()), inbox[i]).None?
      ensures r.Failed? ==> consumed > 0 && Decode(inbox[consumed - 1]) == Err(r.error)
    {
      hide Decode, Lists, Rebuilt, Remembered, KeyedById;
      consumed := 0;
      while consumed < |inbox|
        invariant consumed <= |inbox| && Valid() && State() == old(State())
        invariant forall i :: 0 <= i < consumed ==> Accepted(State(), inbox[i]).None?
      {
        var data := inbox[consumed];
        consumed := consumed + 1;
        var msg := DecodeServer(data);
        match msg {
          case Err(e) =>
            return consumed, Failed(e);
          case Ok(OtherType(_)) =>
          case Ok(IsSnapshot(s)) =>
            if !(hasSnap && s.tick <= tick) {
              DecodedIsParallel(data);
              if Rebuilt(rc.store, s).Some? {
                StaysKeyed(rc.State(), s);
              }
              var ents, ok := rc.Apply(s);
              if ok {
                tick, hasSnap, ack := s.tick, true, s.tick;
                return consumed, Got(s.tick, s.lastSeq, ents);
              }
            }
        }
      }
      return consumed, Blocked;
    }
  }

  // ----- the system

  /** A snapshot handed to the game by `ReadSnapshot`. */
  datatype Shown = Shown(tick: nat, lastSeq: nat, entities: seq<Entity>)

  datatype System = System(
    tick: nat,                        // World.Tick
    ring: Ring, ackTick: nat,         // the session
    down: set<Bytes>, up: set<nat>,   // everything ever sent either way
    client: ClientState,
    sent: map<nat, seq<Entity>>,      // history: the view enqueued at each tick
    acks: map<nat, U32>,              // history: the input acknowledged with it
    shown: seq<Shown>)                // history: what ReadSnapshot returned

  datatype Broadcast = Broadcast(view: seq<Entity>, lastSeq: U32, accepted: bool)

  /** One step. Messages stay in `down` and `up` once sent and may be delivered never,
      often or late: loss, duplication and reordering. */
  datatype Event =
    | Tick(broadcast: Option<Broadcast>)
    | SendInput
    | HandleAck(ack: nat)
    | Deliver(data: Bytes, entities: seq<Entity>)

  ghost predicate Init(s: System, joinTick: nat) {
    s == System(s.tick, EmptyRing(), 0, {}, {}, ClientState(joinTick, false, 0, Recon(map[], [])), map[], map[], [])
  }

  ghost predicate Step(s: System, e: Event, s': System) {
    match e
    case Tick(None) => s' == s.(tick := s.tick + 1)
    case Tick(Some(b)) =>
      && View(b.view) && s.tick + 1 < 0x1_0000_0000 && s.ackTick <= s.tick
      && var snap := SnapshotFor(s.ring, s.ackTick, s.tick + 1, b.lastSeq, b.view);
      && Encodable(snap)
      && s' == if b.accepted
               then s.(tick := s.tick + 1, ring := RingPut(s.ring, s.tick + 1, b.view),
                       down := s.down + {Encode(snap)},
                       sent := s.sent[s.tick + 1 := b.view], acks := s.acks[s.tick + 1 := b.lastSeq])
               else s.(tick := s.tick + 1)
    case SendInput => s' == s.(up := s.up + {s.client.ack})
    case HandleAck(a) => s' == s.(ackTick := AckAfter(s.ackTick, a, s.tick))
    case Deliver(data, ents) =>
      && data in s.down
      && match Accepted(s.client, data)
         case None => s' == s
         case Some(snap) =>
           && Lists(ents, RebuiltBy(s.client, data))
           && s' == s.(client := ClientAfter(s.client, data), shown := s.shown + [Shown(snap.tick, snap.lastSeq, ents)])
  }

  ghost predicate Run(states: seq<System>, events: seq<Event>, joinTick: nat) {
    && |states| == |events| + 1
    && Init(states[0], joinTick)
    && forall i :: 0 <= i < |events| ==> Step(states[i], events[i], states[i + 1])
  }

  // ----- what every run keeps

  ghost predicate RingIsHistory(ring: Ring, sent: map<nat, seq<Entity>>) {
    RingOk(ring) && forall k :: 0 <= k < RING_LEN && ring[k].used ==>
      ring[k].tick in sent && sent[ring[k].tick] == ring[k].ents
  }

  ghost predicate History(sent: map<nat, seq<Entity>>, tick: nat) {
    forall t :: t in sent ==> 0 < t <= tick && t < 0x1_0000_0000 && View(sent[t])
  }

  /** The snapshot that carries tick `t`: full, or a delta against the view of tick `b`. */
  ghost function Carried(sent: map<nat, seq<Entity>>, t: U32, b: U32, lastSeq: U32): Snapshot
    requires t in sent && (b != 0 ==> b in sent)
  {
    if b == 0 then FullSnapshot(t, lastSeq, sent[t]) else DeltaSnapshot(b, sent[b], t, lastSeq, sent[t])
  }

  ghost predicate Carries(sent: map<nat, seq<Entity>>, data: Bytes, t: U32, b: U32, lastSeq: U32) {
    && t in sent && (b != 0 ==> b in sent && b < t)
    && Encodable(Carried(sent, t, b, lastSeq)) && data == Encode(Carried(sent, t, b, lastSeq))
  }

  ghost predicate InFlight(sent: map<nat, seq<Entity>>, acks: map<nat, U32>, data: Bytes) {
    exists t: U32, b: U32 :: t in acks && Carries(sent, data, t, b, acks[t])
  }

  /** Whatever the client stores under a tick is the wire image of the view of that tick. */
  ghost predicate StoreMirrors(store: map<nat, EntityMap>, sent: map<nat, seq<Entity>>) {
    forall t :: t in store ==> t in sent && Mirrors(store[t], sent[t])
  }

  /** The safety property: every snapshot shown is the quantized view of its tick, with the
      input number acknowledged at that tick. */
  ghost predicate ShownIsSent(shown: seq<Shown>, sent: map<nat, seq<Entity>>, acks: map<nat, U32>) {
    forall i :: 0 <= i < |shown| ==>
      && shown[i].tick in sent && shown[i].entities == OnWireAll(sent[shown[i].tick])
      && shown[i].tick in acks && shown[i].lastSeq == acks[shown[i].tick]
  }

  ghost predicate Ascending(shown: seq<Shown>) {
    forall i, j :: 0 <= i < j < |shown| ==> shown[i].tick < shown[j].tick
  }

  ghost predicate Inv(s: System) {
    && s.ackTick <= s.tick
    && History(s.sent, s.tick)
    && RingIsHistory(s.ring, s.sent)
    && s.acks.Keys == s.sent.Keys
    && (forall data :: data in s.down ==> InFlight(s.sent, s.acks, data))
    && StoreMirrors(s.client.recon.store, s.sent)
    && ShownIsSent(s.shown, s.sent, s.acks)
    && Ascending(s.shown)
    && (if s.client.hasSnap then s.shown != [] && s.shown[|s.shown| - 1].tick == s.client.tick else s.shown == [])
  }

  lemma InitInv(s: System, joinTick: nat)
    requires Init(s, joinTick)
    ensures Inv(s)
  {
  }

  // ----- sending

  lemma SentCarries(s: System, b: Broadcast)
    requires Inv(s) && View(b.view) && s.tick + 1 < 0x1_0000_0000
    ensures var sent' := s.sent[s.tick + 1 := b.view];
      var snap := SnapshotFor(s.ring, s.ackTick, s.tick + 1, b.lastSeq, b.view);
      Encodable(snap) ==> InFlight(sent', s.acks[s.tick + 1 := b.lastSeq], Encode(snap))
  {
    hide View, Encode, Changed, ChangedMasks, Gone, Encodable, Mirrors;
    var t := s.tick + 1;
    var (sent', acks') := (s.sent[t := b.view], s.acks[t := b.lastSeq]);
    var snap := SnapshotFor(s.ring, s.ackTick, t, b.lastSeq, b.view);
    if Encodable(snap) {
      var base := RingGet(s.ring, s.ackTick);
      if base.None? || snap.baseTick == 0 {
        assert Carries(sent', Encode(snap), t, 0, acks'[t]);
      } else {
        assert Carries(sent', Encode(snap), t, s.ackTick, acks'[t]);
      }
    }
  }

  lemma StillInFlight(
    sent: map<nat, seq<Entity>>, acks: map<nat, U32>, t: nat, view: seq<Entity>, lastSeq: U32, data: Bytes)
    requires InFlight(sent, acks, data) && t !in sent
    ensures InFlight(sent[t := view], acks[t := lastSeq], data)
  {
    hide Encode, Encodable;
    var u: U32, b: U32 :| u in acks && Carries(sent, data, u, b, acks[u]);
    assert Carries(sent[t := view], data, u, b, acks[t := lastSeq][u]);
  }

  lemma BroadcastInv(s: System, b: Broadcast, s': System)
    requires Inv(s) && Step(s, Tick(Some(b)), s')
    ensures Inv(s')
  {
    hide View, Encode, InFlight, Mirrors, SnapshotFor, OnWireAll, Encodable;
    SentCarries(s, b);
    if b.accepted {
      var t := s.tick + 1;
      assert t !in s.sent;
      forall data | data in s'.down
        ensures InFlight(s'.sent, s'.acks, data)
      {
        if data in s.down {
          StillInFlight(s.sent, s.acks, t, b.view, b.lastSeq, data);
        }
      }
    }
  }

  // ----- receiving

  /** What the client makes of a message in flight, if it takes it at all. */
  lemma DeliveredIsSent(sent: map<nat, seq<Entity>>, acks: map<nat, U32>, tick: nat, c: ClientState, data: Bytes)
    requires History(sent, tick) && StoreMirrors(c.recon.store, sent) && InFlight(sent, acks, data)
    requires Accepted(c, data).Some?
    ensures var snap := Accepted(c, data).value;
      && snap.tick in sent && Mirrors(RebuiltBy(c, data), sent[snap.tick])
      && snap.tick in acks && snap.lastSeq == acks[snap.tick]
  {
    hide Encode, Decode, Mirrors, View, Encodable, Changed, ChangedMasks, Gone, OnWireAll, MaskedAll, Known;
    hide PutEach, PatchEach, Without;
    var t: U32, b: U32 :| t in acks && Carries(sent, data, t, b, acks[t]);
    RoundTrip(Carried(sent, t, b, acks[t]));
    if b == 0 {
      FullRebuilds(sent[t]);
    } else {
      DeltaMirrors(sent[b], sent[t], c.recon.store[b]);
    }
  }

  lemma FullRebuilds(view: seq<Entity>)
    requires View(view)
    ensures Mirrors(PutEach(Without(map[], []), OnWireAll(view)), view)
  {
    hide PutEach, OnWireAll, Mirrors;
    FullMirrors(view);
    assert Without(map[], []) == map[];
  }

  lemma DeliverInv(s: System, data: Bytes, ents: seq<Entity>, s': System)
    requires Inv(s) && Step(s, Deliver(data, ents), s')
    ensures Inv(s')
  {
    hide View, Mirrors, InFlight, RebuiltBy, Lists, RingIsHistory, OnWireAll, Evict;
    if Accepted(s.client, data).Some? {
      var t := Accepted(s.client, data).value.tick;
      AcceptedIsFresh(s.client, data);
      DeliveredIsSent(s.sent, s.acks, s.tick, s.client, data);
      var m := RebuiltBy(s.client, data);
      var r := s.client.recon;
      EvictKeeps(Recon(r.store[t := m], if t in r.store then r.order else r.order + [t]));
      MirrorListing(m, s.sent[t], ents);
    }
  }

  lemma AcceptedIsFresh(c: ClientState, data: Bytes)
    requires Accepted(c, data).Some?
    ensures c.hasSnap ==> Accepted(c, data).value.tick > c.tick
  {
    hide Decode, Rebuilt;
  }

  lemma StepInv(s: System, e: Event, s': System)
    requires Inv(s) && Step(s, e, s')
    ensures Inv(s')
  {
    match e
    case Tick(Some(b)) => BroadcastInv(s, b, s');
    case Deliver(data, ents) => DeliverInv(s, data, ents, s');
    case _ => QuietInv(s, e, s');
  }

  lemma QuietInv(s: System, e: Event, s': System)
    requires Inv(s) && Step(s, e, s') && (e.SendInput? || e.HandleAck? || e == Tick(None))
    ensures Inv(s')
  {
    hide View, Mirrors, InFlight, RingIsHistory, ShownIsSent;
  }

  lemma {:induction false} RunInv(states: seq<System>, events: seq<Event>, joinTick: nat, n: nat)
    requires Run(states, events, joinTick) && n < |states|
    ensures Inv(states[n])
  {
    hide Inv, Step, Init;
    if n == 0 {
      InitInv(states[0], joinTick);
    } else {
      RunInv(states, events, joinTick, n - 1);
      StepInv(states[n - 1], events[n - 1], states[n]);
    }
  }

  /** In every run, whatever the network and the acks do, each snapshot shown is exactly
      the quantized view the server sent under that tick, with the input number it acknowledged
      then, and ticks only move forward. */
  lemma ShownSnapshotsAreExact(states: seq<System>, events: seq<Event>, joinTick: nat, n: nat)
    requires Run(states, events, joinTick) && n < |states|
    ensures ShownIsSent(states[n].shown, states[n].sent, states[n].acks) && Ascending(states[n].shown)
  {
    RunInv(states, events, joinTick, n);
  }
}
