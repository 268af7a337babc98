/** Snapshots on the wire, internal/protocol/codec.go: full 12-byte records, delta
    records of an id, a field mask and only the marked fields, and the removed ids. */
module SnapshotCodec {
  import opened Wire

  datatype Error = EmptyMessage | ShortMessage | UnknownType | TooManyEntities | Malformed

  datatype Result<+T> = Ok(value: T) | Err(error: Error)

  const MSG_SNAPSHOT: U8 := 0x10
  const MAX_ENTITIES := 255
  const ENTITY_SIZE := 12

  datatype Snapshot = Snapshot(
    tick: U32, baseTick: U32, lastSeq: U32,
    entities: seq<Entity>, masks: seq<U8>, removed: seq<U16>)

  // ----- the layout

  function FullRecord(e: Entity): (b: Bytes)
    ensures |b| == ENTITY_SIZE
  {
    Put16(e.id) + [e.kind] + Put16(QuantizeCoord(e.x)) + Put16(QuantizeCoord(e.y))
    + Put16(ToU16(QuantizeVel(e.vx))) + Put16(ToU16(QuantizeVel(e.vy))) + [e.hp]
  }

  function AddIf(dst: Bytes, present: bool, b: Bytes): Bytes {
    if present then dst + b else dst
  }

  /** `dst` followed by the fields a mask marks, in the order kind, x, y, vx, vy, hp. */
  function WithFields(dst: Bytes, e: Entity, m: U8): Bytes {
    var d1 := AddIf(dst, Has(m, FIELD_KIND), [e.kind]);
    var d2 := AddIf(d1, Has(m, FIELD_X), Put16(QuantizeCoord(e.x)));
    var d3 := AddIf(d2, Has(m, FIELD_Y), Put16(QuantizeCoord(e.y)));
    var d4 := AddIf(d3, Has(m, FIELD_VX), Put16(ToU16(QuantizeVel(e.vx))));
    var d5 := AddIf(d4, Has(m, FIELD_VY), Put16(ToU16(QuantizeVel(e.vy))));
    AddIf(d5, Has(m, FIELD_HP), [e.hp])
  }

  function DeltaRecord(e: Entity, m: U8): Bytes {
    Put16(e.id) + [m] + WithFields([], e, m)
  }

  function FullRecords(es: seq<Entity>): (b: Bytes)
    ensures |b| == ENTITY_SIZE * |es|
  {
    if es == [] then [] else FullRecords(es[..|es| - 1]) + FullRecord(es[|es| - 1])
  }

  function DeltaRecords(es: seq<Entity>, ms: seq<U8>): Bytes
    requires |es| == |ms|
  {
    if es == [] then [] else DeltaRecord(es[0], ms[0]) + DeltaRecords(es[1..], ms[1..])
  }

  function Ids(ids: seq<U16>): (b: Bytes)
    ensures |b| == 2 * |ids|
  {
    if ids == [] then [] else Ids(ids[..|ids| - 1]) + Put16(ids[|ids| - 1])
  }

  /** A full record takes twelve bytes, and a delta record with every field marked differs
      from it by its mask. */
  lemma RecordLayout(e: Entity)
    ensures var r := FullRecord(e);
      && |r| == 12 && r[0..2] == Put16(e.id) && r[2] == e.kind
      && r[3..5] == Put16(QuantizeCoord(e.x)) && r[5..7] == Put16(QuantizeCoord(e.y))
      && r[7..9] == Put16(ToU16(QuantizeVel(e.vx))) && r[9..11] == Put16(ToU16(QuantizeVel(e.vy))) && r[11] == e.hp
    ensures DeltaRecord(e, 63) == FullRecord(e)[0..2] + [63] + FullRecord(e)[2..]
  {
    hide Put16, QuantizeCoord, QuantizeVel;
    assert WithFields([], e, 63) == FullRecord(e)[2..];
  }

  /** What the encoder accepts. */
  predicate Encodable(s: Snapshot) {
    && |s.entities| <= MAX_ENTITIES && |s.removed| <= MAX_ENTITIES
    && (s.baseTick != 0 ==> |s.masks| == |s.entities|)
  }

  function Header(s: Snapshot): (b: Bytes)
    requires Encodable(s)
    ensures |b| == 14
  {
    [MSG_SNAPSHOT] + Put32(s.tick) + Put32(s.baseTick) + Put32(s.lastSeq) + [|s.entities|]
  }

  function Records(s: Snapshot): Bytes
    requires Encodable(s)
  {
    if s.baseTick == 0 then FullRecords(s.entities) else DeltaRecords(s.entities, s.masks)
  }

  function Encode(s: Snapshot): Bytes
    requires Encodable(s)
  {
    Header(s) + (Records(s) + ([|s.removed|] + Ids(s.removed)))
  }

  // ----- the encoder

  lemma AddIfAfter(p: Bytes, dst: Bytes, present: bool, b: Bytes)
    ensures AddIf(p + dst, present, b) == p + AddIf(dst, present, b)
  {
    Assoc(p, dst, b);
  }

  lemma WithFieldsAfter(dst: Bytes, e: Entity, m: U8)
    ensures WithFields(dst, e, m) == dst + WithFields([], e, m)
  {
    hide Has, Put16, ToU16, QuantizeCoord, QuantizeVel, AddIf;
    var d0: Bytes := [];
    assert dst + d0 == dst;
    AddIfAfter(dst, d0, Has(m, FIELD_KIND), [e.kind]);
    var d1 := AddIf(d0, Has(m, FIELD_KIND), [e.kind]);
    AddIfAfter(dst, d1, Has(m, FIELD_X), Put16(QuantizeCoord(e.x)));
    var d2 := AddIf(d1, Has(m, FIELD_X), Put16(QuantizeCoord(e.x)));
    AddIfAfter(dst, d2, Has(m, FIELD_Y), Put16(QuantizeCoord(e.y)));
    var d3 := AddIf(d2, Has(m, FIELD_Y), Put16(QuantizeCoord(e.y)));
    AddIfAfter(dst, d3, Has(m, FIELD_VX), Put16(ToU16(QuantizeVel(e.vx))));
    var d4 := AddIf(d3, Has(m, FIELD_VX), Put16(ToU16(QuantizeVel(e.vx))));
    AddIfAfter(dst, d4, Has(m, FIELD_VY), Put16(ToU16(QuantizeVel(e.vy))));
    var d5 := AddIf(d4, Has(m, FIELD_VY), Put16(ToU16(QuantizeVel(e.vy))));
    AddIfAfter(dst, d5, Has(m, FIELD_HP), [e.hp]);
  }

  method AppendEntityDelta(dst: Bytes, e: Entity, m: U8) returns (out: Bytes)
    ensures out == dst + DeltaRecord(e, m)
  {
    hide Put16, QuantizeCoord, QuantizeVel, ToU16, Has;
    out := dst + Put16(e.id);
    out := out + [m];
    ghost var start := out;
    if Has(m, FIELD_KIND) {
      out := out + [e.kind];
    }
    if Has(m, FIELD_X) {
      out := out + Put16(QuantizeCoord(e.x));
    }
    if Has(m, FIELD_Y) {
      out := out + Put16(QuantizeCoord(e.y));
    }
    if Has(m, FIELD_VX) {
      out := out + Put16(ToU16(QuantizeVel(e.vx)));
    }
    if Has(m, FIELD_VY) {
      out := out + Put16(ToU16(QuantizeVel(e.vy)));
    }
    if Has(m, FIELD_HP) {
      out := out + [e.hp];
    }
    RecordComplete(dst, e, m, start, out);
  }

  lemma RecordComplete(dst: Bytes, e: Entity, m: U8, start: Bytes, out: Bytes)
    requires start == dst + Put16(e.id) + [m] && out == WithFields(start, e, m)
    ensures out == dst + DeltaRecord(e, m)
  {
    hide Has, Put16, WithFields;
    WithFieldsAfter(start, e, m);
    Assoc(dst, Put16(e.id), [m]);
    Assoc(dst, Put16(e.id) + [m], WithFields([], e, m));
  }

  lemma {:induction false} DeltaRecordsSplit(es: seq<Entity>, ms: seq<U8>, i: nat)
    requires |es| == |ms| && i < |es|
    ensures DeltaRecords(es[..i + 1], ms[..i + 1]) == DeltaRecords(es[..i], ms[..i]) + DeltaRecord(es[i], ms[i])
  {
    hide DeltaRecord;
    if i == 0 {
      assert es[..1][1..] == [] && ms[..1][1..] == [];
    } else {
      DeltaRecordsSplit(es[1..], ms[1..], i - 1);
      assert es[..i + 1][1..] == es[1..][..i] && ms[..i + 1][1..] == ms[1..][..i];
      assert es[..i][1..] == es[1..][..i - 1] && ms[..i][1..] == ms[1..][..i - 1];
    }
  }

  method AppendSnapshot(dst: Bytes, s: Snapshot) returns (r: Result<Bytes>)
    ensures r.Ok? <==> Encodable(s)
    ensures r.Ok? ==> r.value == dst + Encode(s)
    ensures |s.entities| > MAX_ENTITIES || |s.removed| > MAX_ENTITIES ==> r == Err(TooManyEntities)
  {
    hide Put32, FullRecord, DeltaRecord, Put16, Ids, FullRecords, DeltaRecords;
    if |s.entities| > MAX_ENTITIES || |s.removed| > MAX_ENTITIES {
      return Err(TooManyEntities);
    }
    if s.baseTick != 0 && |s.masks| != |s.entities| {
      return Err(Malformed);
    }
    var out := dst + [MSG_SNAPSHOT];
    out := out + Put32(s.tick);
    out := out + Put32(s.baseTick);
    out := out + Put32(s.lastSeq);
    out := out + [|s.entities|];
    HeaderComplete(dst, s, out);
    if s.baseTick == 0 {
      out := AppendFullRecords(out, s.entities);
    } else {
      out := AppendDeltaRecords(out, s.entities, s.masks);
    }
    out := out + [|s.removed|];
    out := AppendIds(out, s.removed);
    Assoc(dst, Header(s), Records(s));
    Assoc(dst + (Header(s) + Records(s)), [|s.removed|], Ids(s.removed));
    Assoc(dst, Header(s) + Records(s), [|s.removed|] + Ids(s.removed));
    Assoc(Header(s), Records(s), [|s.removed|] + Ids(s.removed));
    return Ok(out);
  }

  lemma HeaderComplete(dst: Bytes, s: Snapshot, out: Bytes)
    requires Encodable(s)
    requires out == dst + [MSG_SNAPSHOT] + Put32(s.tick) + Put32(s.baseTick) + Put32(s.lastSeq) + [|s.entities|]
    ensures out == dst + Header(s)
  {
    hide Put32;
    var (h1, h2, h3, h4) := ([MSG_SNAPSHOT], Put32(s.tick), Put32(s.baseTick), Put32(s.lastSeq));
    Assoc(dst, h1, h2);
    Assoc(dst, h1 + h2, h3);
    Assoc(dst, h1 + h2 + h3, h4);
    Assoc(dst, h1 + h2 + h3 + h4, [|s.entities|]);
  }

  /** The three loops of `AppendSnapshot`. */
  method AppendFullRecords(dst: Bytes, es: seq<Entity>) returns (out: Bytes)
    ensures out == dst + FullRecords(es)
  {
    hide FullRecord;
    out := dst;
    for i := 0 to |es|
      invariant out == dst + FullRecords(es[..i])
    {
      assert es[..i + 1][..i] == es[..i];
      Assoc(dst, FullRecords(es[..i]), FullRecord(es[i]));
      out := out + FullRecord(es[i]);
    }
    assert es[..|es|] == es;
  }

  method AppendDeltaRecords(dst: Bytes, es: seq<Entity>, ms: seq<U8>) returns (out: Bytes)
    requires |es| == |ms|
    ensures out == dst + DeltaRecords(es, ms)
  {
    hide DeltaRecord;
    out := dst;
    for i := 0 to |es|
      invariant out == dst + DeltaRecords(es[..i], ms[..i])
    {
      DeltaRecordsSplit(es, ms, i);
      Assoc(dst, DeltaRecords(es[..i], ms[..i]), DeltaRecord(es[i], ms[i]));
      out := AppendEntityDelta(out, es[i], ms[i]);
    }
    assert es[..|es|] == es && ms[..|ms|] == ms;
  }

  method AppendIds(dst: Bytes, ids: seq<U16>) returns (out: Bytes)
    ensures out == dst + Ids(ids)
  {
    hide Put16;
    out := dst;
    for i := 0 to |ids|
      invariant out == dst + Ids(ids[..i])
    {
      assert ids[..i + 1][..i] == ids[..i];
      Assoc(dst, Ids(ids[..i]), Put16(ids[i]));
      out := out + Put16(ids[i]);
    }
    assert ids[..|ids|] == ids;
  }

  // ----- the decoder

  function FullEntityAt(b: Bytes, off: nat): Entity
    requires off + ENTITY_SIZE <= |b|
  {
    Entity(Get16(b, off), b[off + 2],
           DequantizeCoord(Get16(b, off + 3)), DequantizeCoord(Get16(b, off + 5)),
           DequantizeVel(ToI16(Get16(b, off + 7))), DequantizeVel(ToI16(Get16(b, off + 9))),
           b[off + 11])
  }

  /** The size of the fields a mask marks. */
  function DeltaFieldBytes(m: U8): nat {
    Flag(Has(m, FIELD_KIND), 1) + Flag(Has(m, FIELD_X), 2) + Flag(Has(m, FIELD_Y), 2)
    + Flag(Has(m, FIELD_VX), 2) + Flag(Has(m, FIELD_VY), 2) + Flag(Has(m, FIELD_HP), 1)
  }

  /** Reads the marked fields with one cursor; unmarked ones stay zero. */
  function FieldsAt(id: U16, m: U8, b: Bytes): Entity
    requires |b| >= DeltaFieldBytes(m)
  {
    var o1 := Flag(Has(m, FIELD_KIND), 1);
    var o2 := o1 + Flag(Has(m, FIELD_X), 2);
    var o3 := o2 + Flag(Has(m, FIELD_Y), 2);
    var o4 := o3 + Flag(Has(m, FIELD_VX), 2);
    var o5 := o4 + Flag(Has(m, FIELD_VY), 2);
    Entity(id,
           if Has(m, FIELD_KIND) then b[0] else 0,
           if Has(m, FIELD_X) then DequantizeCoord(Get16(b, o1)) else 0.0,
           if Has(m, FIELD_Y) then DequantizeCoord(Get16(b, o2)) else 0.0,
           if Has(m, FIELD_VX) then DequantizeVel(ToI16(Get16(b, o3))) else 0.0,
           if Has(m, FIELD_VY) then DequantizeVel(ToI16(Get16(b, o4))) else 0.0,
           if Has(m, FIELD_HP) then b[o5] else 0)
  }

  datatype Deltas = Deltas(entities: seq<Entity>, masks: seq<U8>, rest: Bytes)

  /** `n` delta records read off `b` behind those already read. */
  function ParseDeltas(b: Bytes, n: nat, es: seq<Entity>, ms: seq<U8>): Result<Deltas> {
    if n == 0 then Ok(Deltas(es, ms, b))
    else if |b| < 3 then Err(ShortMessage)
    else
      var m: U8 := b[2] % 64;
      var need := DeltaFieldBytes(m);
      if |b| < 3 + need then Err(ShortMessage)
      else ParseDeltas(b[3 + need..], n - 1, es + [FieldsAt(Get16(b, 0), m, b[3..])], ms + [m])
  }

  function ParseFull(b: Bytes, n: nat): (es: seq<Entity>)
    requires |b| >= n * ENTITY_SIZE
    ensures |es| == n
  {
    seq(n, i requires 0 <= i < n => FullEntityAt(b, i * ENTITY_SIZE))
  }

  function ParseIds(b: Bytes, n: nat): (ids: seq<U16>)
    requires |b| >= 2 * n
    ensures |ids| == n
  {
    seq(n, i requires 0 <= i < n => Get16(b, 2 * i))
  }

  /** The list of removed ids, behind its count. */
  function ParseRemoved(b: Bytes): Result<seq<U16>> {
    if |b| < 1 then Err(ShortMessage)
    else if |b| < 1 + b[0] as int * 2 then Err(ShortMessage)
    else Ok(ParseIds(b[1..], b[0]))
  }

  /** A message decoded as a snapshot; None when it is of another type. */
  datatype Decoded = IsSnapshot(snap: Snapshot) | OtherType(kind: U8)

  function Decode(data: Bytes): Result<Decoded> {
    if |data| == 0 then Err(EmptyMessage)
    else if data[0] != MSG_SNAPSHOT then Ok(OtherType(data[0]))
    else if |data| < 14 then Err(ShortMessage)
    else
      var (tick, base, last) := (Get32(data, 1), Get32(data, 5), Get32(data, 9));
      var (count, body) := (data[13] as int, data[14..]);
      if base == 0 then
        if |body| < count * ENTITY_SIZE then Err(ShortMessage)
        else match ParseRemoved(body[count * ENTITY_SIZE..])
          case Err(e) => Err(e)
          case Ok(ids) => Ok(IsSnapshot(Snapshot(tick, base, last, ParseFull(body, count), [], ids)))
      else match ParseDeltas(body, count, [], [])
        case Err(e) => Err(e)
        case Ok(d) =>
          match ParseRemoved(d.rest)
          case Err(e) => Err(e)
          case Ok(ids) => Ok(IsSnapshot(Snapshot(tick, base, last, d.entities, d.masks, ids)))
  }

  lemma ParsedFull(b: Bytes, n: nat, es: seq<Entity>)
    requires |b| >= n * ENTITY_SIZE && |es| == n
    requires forall k :: 0 <= k < n ==> es[k] == FullEntityAt(b, k * ENTITY_SIZE)
    ensures es == ParseFull(b, n)
  {
  }

  lemma ParsedIds(b: Bytes, n: nat, ids: seq<U16>)
    requires |b| >= 2 * n && |ids| == n
    requires forall k :: 0 <= k < n ==> ids[k] == Get16(b, 2 * k)
    ensures ids == ParseIds(b, n)
  {
  }

  method ReadFull(body: Bytes, count: nat) returns (ents: seq<Entity>)
    requires |body| >= count * ENTITY_SIZE
    ensures ents == ParseFull(body, count)
  {
    hide FullEntityAt;
    ents := [];
    for i := 0 to count
      invariant |ents| == i && forall k :: 0 <= k < i ==> ents[k] == FullEntityAt(body, k * ENTITY_SIZE)
    {
      ents := ents + [FullEntityAt(body, i * ENTITY_SIZE)];
    }
    ParsedFull(body, count, ents);
  }

  method ReadDeltas(data: Bytes, count: nat) returns (r: Result<Deltas>)
    ensures r == ParseDeltas(data, count, [], [])
  {
    hide FieldsAt, Get16, DeltaFieldBytes;
    var body := data;
    var ents: seq<Entity> := [];
    var masks: seq<U8> := [];
    for i := 0 to count
      invariant ParseDeltas(data, count, [], []) == ParseDeltas(body, count - i, ents, masks)
    {
      if |body| < 3 {
        return Err(ShortMessage);
      }
      var m: U8 := body[2] % 64;
      var need := DeltaFieldBytes(m);
      if |body| < 3 + need {
        return Err(ShortMessage);
      }
      ents, masks := ents + [FieldsAt(Get16(body, 0), m, body[3..])], masks + [m];
      body := body[3 + need..];
    }
    return Ok(Deltas(ents, masks, body));
  }

  method ReadRemoved(data: Bytes) returns (r: Result<seq<U16>>)
    ensures r == ParseRemoved(data)
  {
    hide Get16, ParseIds;
    if |data| < 1 {
      return Err(ShortMessage);
    }
    var rcount: nat := data[0];
    var body := data[1..];
    if |body| < rcount * 2 {
      return Err(ShortMessage);
    }
    var rem: seq<U16> := [];
    for i := 0 to rcount
      invariant |rem| == i && forall k :: 0 <= k < i ==> rem[k] == Get16(body, 2 * k)
    {
      rem := rem + [Get16(body, i * 2)];
    }
    ParsedIds(body, rcount, rem);
    return Ok(rem);
  }

  method DecodeServer(data: Bytes) returns (r: Result<Decoded>)
    ensures r == Decode(data)
  {
    if |data| == 0 {
      return Err(EmptyMessage);
    }
    if data[0] != MSG_SNAPSHOT {
      return Ok(OtherType(data[0]));
    }
    if |data| < 14 {
      return Err(ShortMessage);
    }
    hide Get32, ParseDeltas, ParseRemoved, ParseFull;
    var tick, base, last := Get32(data, 1), Get32(data, 5), Get32(data, 9);
    var count: nat := data[13];
    var body := data[14..];
    var ents: seq<Entity> := [];
    var masks: seq<U8> := [];
    if base == 0 {
      if |body| < count * ENTITY_SIZE {
        return Err(ShortMessage);
      }
      ents := ReadFull(body, count);
      body := body[count * ENTITY_SIZE..];
    } else {
      var d := ReadDeltas(body, count);
      if d.Err? {
        return Err(d.error);
      }
      ents, masks, body := d.value.entities, d.value.masks, d.value.rest;
    }
    var rem := ReadRemoved(body);
    if rem.Err? {
      return Err(rem.error);
    }
    return Ok(IsSnapshot(Snapshot(tick, base, last, ents, masks, rem.value)));
  }

  // ----- the round trip

  function OnWireAll(es: seq<Entity>): (ws: seq<Entity>)
    ensures |ws| == |es|
  {
    seq(|es|, i requires 0 <= i < |es| => OnWire(es[i]))
  }

  function MaskedAll(es: seq<Entity>, ms: seq<U8>): (ws: seq<Entity>)
    requires |es| == |ms|
    ensures |ws| == |es|
  {
    seq(|es|, i requires 0 <= i < |es| => Masked(es[i], ms[i] % 64))
  }

  function Known(ms: seq<U8>): (r: seq<U8>)
    ensures |r| == |ms|
  {
    seq(|ms|, i requires 0 <= i < |ms| => ms[i] % 64)
  }

  /** What the receiver gets of `s`: quantized records, and only the marked fields of a delta. */
  function Received(s: Snapshot): Snapshot
    requires Encodable(s)
  {
    if s.baseTick == 0 then s.(entities := OnWireAll(s.entities), masks := [])
    else s.(entities := MaskedAll(s.entities, s.masks), masks := Known(s.masks))
  }

  lemma FullRecordRoundTrip(e: Entity, b: Bytes, off: nat)
    requires off + ENTITY_SIZE <= |b| && b[off..off + ENTITY_SIZE] == FullRecord(e)
    ensures FullEntityAt(b, off) == OnWire(e)
  {
    hide QuantizeCoord, QuantizeVel, DequantizeCoord, DequantizeVel;
    var r := b[off..off + ENTITY_SIZE];
    forall i | 0 <= i < ENTITY_SIZE
      ensures b[off + i] == r[i]
    {
    }
  }

  lemma {:induction false} FullRecordAt(es: seq<Entity>, i: nat)
    requires i < |es|
    ensures ENTITY_SIZE * i + ENTITY_SIZE <= |FullRecords(es)|
    ensures FullRecords(es)[ENTITY_SIZE * i..ENTITY_SIZE * i + ENTITY_SIZE] == FullRecord(es[i])
  {
    hide FullRecord;
    if i < |es| - 1 {
      FullRecordAt(es[..|es| - 1], i);
    }
  }

  lemma FullRoundTrip(es: seq<Entity>, rest: Bytes)
    ensures ParseFull(FullRecords(es) + rest, |es|) == OnWireAll(es)
  {
    hide FullRecord, OnWire, FullEntityAt, FullRecords;
    var b := FullRecords(es) + rest;
    forall i | 0 <= i < |es|
      ensures FullEntityAt(b, i * ENTITY_SIZE) == OnWire(es[i])
    {
      FullRecordAt(es, i);
      assert b[ENTITY_SIZE * i..ENTITY_SIZE * i + ENTITY_SIZE] == FullRecord(es[i]);
      FullRecordRoundTrip(es[i], b, ENTITY_SIZE * i);
    }
  }

  lemma {:induction false} IdAt(ids: seq<U16>, i: nat)
    requires i < |ids|
    ensures Ids(ids)[2 * i..2 * i + 2] == Put16(ids[i])
  {
    if i < |ids| - 1 {
      IdAt(ids[..|ids| - 1], i);
    }
  }

  lemma ParseIdsOf(ids: seq<U16>)
    ensures ParseIds(Ids(ids), |ids|) == ids
  {
    hide Ids, Get16, Put16;
    var b := Ids(ids);
    forall i | 0 <= i < |ids|
      ensures Get16(b, 2 * i) == ids[i]
    {
      IdAt(ids, i);
      Get16Of(b, 2 * i, ids[i]);
    }
  }

  lemma IdsRoundTrip(ids: seq<U16>)
    requires |ids| <= MAX_ENTITIES
    ensures ParseRemoved([|ids|] + Ids(ids)) == Ok(ids)
  {
    hide Ids, ParseIds;
    ParseIdsOf(ids);
    assert ([|ids|] + Ids(ids))[1..] == Ids(ids);
  }

  // a delta record read back

  lemma FieldSizes(e: Entity, m: U8)
    ensures |WithFields([], e, m)| == DeltaFieldBytes(m)
  {
    hide Has, Put16, ToU16, QuantizeCoord, QuantizeVel;
  }

  // Remainders survive `% 64`, one power of two at a time.

  lemma LowBits2(m: int)
    requires 0 <= m < 256
    ensures (m % 64) % 2 == m % 2
  {
  }

  lemma LowBits4(m: int)
    requires 0 <= m < 256
    ensures (m % 64) % 4 == m % 4
  {
  }

  lemma LowBits8(m: int)
    requires 0 <= m < 256
    ensures (m % 64) % 8 == m % 8
  {
  }

  lemma LowBits16(m: int)
    requires 0 <= m < 256
    ensures (m % 64) % 16 == m % 16
  {
  }

  lemma LowBits32(m: int)
    requires 0 <= m < 256
    ensures (m % 64) % 32 == m % 32
  {
  }

  lemma LowBits(m: U8)
    ensures var k := m % 64;
      && Has(k, FIELD_KIND) == Has(m, FIELD_KIND) && Has(k, FIELD_X) == Has(m, FIELD_X)
      && Has(k, FIELD_Y) == Has(m, FIELD_Y) && Has(k, FIELD_VX) == Has(m, FIELD_VX)
      && Has(k, FIELD_VY) == Has(m, FIELD_VY) && Has(k, FIELD_HP) == Has(m, FIELD_HP)
  {
    LowBits2(m);
    LowBits4(m);
    LowBits8(m);
    LowBits16(m);
    LowBits32(m);
  }

  /** A field that was written can be read where the cursor stood before it. */
  lemma WordWritten(w: Bytes, d: Bytes, present: bool, v: U16)
    requires AddIf(d, present, Put16(v)) <= w
    ensures d <= w && (present ==> |d| + 2 <= |w| && Get16(w, |d|) == v)
  {
    if present {
      assert w[..|d| + 2] == d + Put16(v);
      assert w[|d|] == (d + Put16(v))[|d|] && w[|d| + 1] == (d + Put16(v))[|d| + 1];
    }
  }

  lemma ByteWritten(w: Bytes, d: Bytes, present: bool, v: U8)
    requires AddIf(d, present, [v]) <= w
    ensures d <= w && (present ==> |d| < |w| && w[|d|] == v)
  {
    if present {
      assert w[..|d| + 1] == d + [v];
      assert w[|d|] == (d + [v])[|d|];
    }
  }

  lemma FieldsRoundTrip(e: Entity, m: U8, rest: Bytes)
    ensures |WithFields([], e, m)| == DeltaFieldBytes(m)
    ensures FieldsAt(e.id, m, WithFields([], e, m) + rest) == Masked(e, m)
  {
    hide Has, Put16, Get16, QuantizeCoord, QuantizeVel, DequantizeCoord, DequantizeVel;
    FieldSizes(e, m);
    var d1 := AddIf([], Has(m, FIELD_KIND), [e.kind]);
    var d2 := AddIf(d1, Has(m, FIELD_X), Put16(QuantizeCoord(e.x)));
    var d3 := AddIf(d2, Has(m, FIELD_Y), Put16(QuantizeCoord(e.y)));
    var d4 := AddIf(d3, Has(m, FIELD_VX), Put16(ToU16(QuantizeVel(e.vx))));
    var d5 := AddIf(d4, Has(m, FIELD_VY), Put16(ToU16(QuantizeVel(e.vy))));
    var d6 := AddIf(d5, Has(m, FIELD_HP), [e.hp]);
    var w := d6 + rest;
    ByteWritten(w, d5, Has(m, FIELD_HP), e.hp);
    WordWritten(w, d4, Has(m, FIELD_VY), ToU16(QuantizeVel(e.vy)));
    WordWritten(w, d3, Has(m, FIELD_VX), ToU16(QuantizeVel(e.vx)));
    WordWritten(w, d2, Has(m, FIELD_Y), QuantizeCoord(e.y));
    WordWritten(w, d1, Has(m, FIELD_X), QuantizeCoord(e.x));
    ByteWritten(w, [], Has(m, FIELD_KIND), e.kind);
  }

  lemma FieldsIgnoreHighBits(e: Entity, m: U8)
    ensures WithFields([], e, m) == WithFields([], e, m % 64)
  {
    LowBits(m);
  }

  /** One delta record is read back exactly, and exactly its bytes are consumed. */
  lemma DeltaRecordRoundTrip(e: Entity, m: U8, rest: Bytes, n: nat, es: seq<Entity>, ms: seq<U8>)
    ensures ParseDeltas(DeltaRecord(e, m) + rest, n + 1, es, ms)
         == ParseDeltas(rest, n, es + [Masked(e, m % 64)], ms + [m % 64])
  {
    hide Has, FieldsAt, WithFields, Masked, DeltaFieldBytes;
    var k: U8 := m % 64;
    FieldsIgnoreHighBits(e, m);
    FieldsRoundTrip(e, k, rest);
    var f := WithFields([], e, k);
    var b := DeltaRecord(e, m) + rest;
    assert b == Put16(e.id) + [m] + (f + rest);
    assert b[2] == m && b[3..] == f + rest;
    assert b[3 + |f|..] == rest;
    assert b[0..2] == Put16(e.id);
    Get16Of(b, 0, e.id);
  }

  lemma {:induction false} DeltasRoundTrip(es: seq<Entity>, ms: seq<U8>, rest: Bytes, es0: seq<Entity>, ms0: seq<U8>)
    requires |es| == |ms|
    ensures ParseDeltas(DeltaRecords(es, ms) + rest, |es|, es0, ms0)
         == Ok(Deltas(es0 + MaskedAll(es, ms), ms0 + Known(ms), rest))
    decreases |es|
  {
    hide DeltaRecord, Masked, FieldsAt, DeltaFieldBytes;
    if es == [] {
      assert DeltaRecords(es, ms) + rest == rest;
      assert es0 + MaskedAll(es, ms) == es0 && ms0 + Known(ms) == ms0;
    } else {
      var (e, m) := (Masked(es[0], ms[0] % 64), ms[0] % 64);
      var tail := DeltaRecords(es[1..], ms[1..]) + rest;
      Assoc(DeltaRecord(es[0], ms[0]), DeltaRecords(es[1..], ms[1..]), rest);
      DeltaRecordRoundTrip(es[0], ms[0], tail, |es| - 1, es0, ms0);
      DeltasRoundTrip(es[1..], ms[1..], rest, es0 + [e], ms0 + [m]);
      assert es0 + [e] + MaskedAll(es[1..], ms[1..]) == es0 + MaskedAll(es, ms);
      assert ms0 + [m] + Known(ms[1..]) == ms0 + Known(ms);
    }
  }

  lemma HeaderRoundTrip(s: Snapshot, body: Bytes)
    requires Encodable(s)
    ensures var b := Header(s) + body;
      && b[0] == MSG_SNAPSHOT && b[13] == |s.entities| && b[14..] == body
      && Get32(b, 1) == s.tick && Get32(b, 5) == s.baseTick && Get32(b, 9) == s.lastSeq
  {
    hide Put32, Get32;
    var b := Header(s) + body;
    assert b[1..5] == Put32(s.tick);
    assert b[5..9] == Put32(s.baseTick);
    assert b[9..13] == Put32(s.lastSeq);
    Get32Of(b, 1, s.tick);
    Get32Of(b, 5, s.baseTick);
    Get32Of(b, 9, s.lastSeq);
  }

  /** `DecodeServer` undoes `AppendSnapshot` up to quantization, for every full snapshot
      and every field-masked delta within the limits. */
  lemma RoundTrip(s: Snapshot)
    requires Encodable(s)
    ensures Decode(Encode(s)) == Ok(IsSnapshot(Received(s)))
  {
    hide Get32, Header, FullRecords, DeltaRecords, ParseDeltas, ParseFull, ParseRemoved, Ids, OnWireAll;
    hide MaskedAll, Known;
    var tail := [|s.removed|] + Ids(s.removed);
    var body := Records(s) + tail;
    HeaderRoundTrip(s, body);
    IdsRoundTrip(s.removed);
    if s.baseTick == 0 {
      FullRoundTrip(s.entities, tail);
      assert body[|s.entities| * ENTITY_SIZE..] == tail;
    } else {
      DeltasRoundTrip(s.entities, s.masks, tail, [], []);
      assert [] + MaskedAll(s.entities, s.masks) == MaskedAll(s.entities, s.masks);
      assert [] + Known(s.masks) == Known(s.masks);
    }
  }
}
