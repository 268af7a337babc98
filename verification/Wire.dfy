/** The wire's vocabulary: machine integers, little-endian bytes, and the fixed-point
    quantization of internal/protocol/quantize.go. */
module Wire {

  type U8 = x: int | 0 <= x < 0x100
  type U16 = x: int | 0 <= x < 0x1_0000
  type U32 = x: int | 0 <= x < 0x1_0000_0000
  type I16 = x: int | -0x8000 <= x < 0x8000

  type Bytes = seq<U8>

  const COORD_SCALE := 16.0

  function Put16(v: U16): (b: Bytes)
    ensures |b| == 2
  {
    [v % 256, v / 256]
  }

  function Get16(b: Bytes, off: nat): U16
    requires off + 2 <= |b|
  {
    b[off] as int + 256 * (b[off + 1] as int)
  }

  function Put32(v: U32): (b: Bytes)
    ensures |b| == 4
  {
    Put16(v % 0x1_0000) + Put16(v / 0x1_0000)
  }

  function Get32(b: Bytes, off: nat): U32
    requires off + 4 <= |b|
  {
    Get16(b, off) as int + 0x1_0000 * (Get16(b, off + 2) as int)
  }

  /** Numbers travel with their least byte first. */
  lemma LittleEndian(v: U32, u: U16)
    ensures var b := Put32(v);
      v == b[0] as int + 0x100 * b[1] as int + 0x1_0000 * b[2] as int + 0x100_0000 * b[3] as int
    ensures var b := Put16(u); u == b[0] as int + 0x100 * b[1] as int
  {
    var (lo, hi) := (Put16(v % 0x1_0000), Put16(v / 0x1_0000));
    assert Put32(v)[2] == hi[0] && Put32(v)[3] == hi[1];
  }

  lemma Get16Of(b: Bytes, off: nat, v: U16)
    requires off + 2 <= |b| && b[off..off + 2] == Put16(v)
    ensures Get16(b, off) == v
  {
    assert b[off] == b[off..off + 2][0] && b[off + 1] == b[off..off + 2][1];
  }

  lemma Get32Of(b: Bytes, off: nat, v: U32)
    requires off + 4 <= |b| && b[off..off + 4] == Put32(v)
    ensures Get32(b, off) == v
  {
    var q := b[off..off + 4];
    assert b[off..off + 2] == q[..2] == Put16(v % 0x1_0000);
    assert b[off + 2..off + 4] == q[2..] == Put16(v / 0x1_0000);
    Get16Of(b, off, v % 0x1_0000);
    Get16Of(b, off + 2, v / 0x1_0000);
  }

  /** The two's complement reading of an int16. */
  function ToU16(q: I16): U16 {
    if q < 0 then q as int + 0x1_0000 else q
  }

  function ToI16(u: U16): I16 {
    if u >= 0x8000 then u as int - 0x1_0000 else u
  }

  // ----- quantization

  /** math.Round: to the nearest integer, halves away from zero. */
  function Round(v: real): int {
    if v >= 0.0 then (v + 0.5).Floor else -((0.5 - v).Floor)
  }

  function QuantizeCoord(v: real): U16 {
    var q := Round(v * COORD_SCALE);
    if q < 0 then 0 else if q > 0xffff then 0xffff else q
  }

  function DequantizeCoord(q: U16): real {
    q as real / COORD_SCALE
  }

  function QuantizeVel(v: real): I16 {
    var q := Round(v * COORD_SCALE);
    if q < -0x8000 then -0x8000 else if q > 0x7fff then 0x7fff else q
  }

  function DequantizeVel(q: I16): real {
    q as real / COORD_SCALE
  }

  lemma QuantizeIsStable(q: U16, w: I16)
    ensures QuantizeCoord(DequantizeCoord(q)) == q && QuantizeVel(DequantizeVel(w)) == w
  {
    assert DequantizeCoord(q) * COORD_SCALE == q as real;
    assert DequantizeVel(w) * COORD_SCALE == w as real;
    RoundInteger(q);
    RoundInteger(w);
  }

  lemma RoundInteger(n: int)
    ensures Round(n as real) == n
  {
    if n < 0 {
      assert 0.5 - n as real == (-n) as real + 0.5;
    }
  }

  /** On the map, a coordinate loses at most half a step. */
  lemma CoordError(v: real)
    requires 0.0 <= v <= 4095.96875
    ensures -0.03125 <= DequantizeCoord(QuantizeCoord(v)) - v <= 0.03125
  {
    var s := v * COORD_SCALE;
    assert s + 0.5 - 1.0 < Round(s) as real <= s + 0.5;
    assert s - 0.5 <= QuantizeCoord(v) as real <= s + 0.5;
  }

  /** Up to 2047 units a second, a velocity loses no more. */
  lemma VelError(v: real)
    requires -2047.0 <= v <= 2047.0
    ensures -0.03125 <= DequantizeVel(QuantizeVel(v)) - v <= 0.03125
  {
    var s := v * COORD_SCALE;
    if s >= 0.0 {
      assert s + 0.5 - 1.0 < Round(s) as real <= s + 0.5;
    } else {
      assert s - 0.5 <= Round(s) as real < s - 0.5 + 1.0;
    }
    assert s - 0.5 <= QuantizeVel(v) as real <= s + 0.5;
  }

  // ----- entities

  datatype Entity = Entity(id: U16, kind: U8, x: real, y: real, vx: real, vy: real, hp: U8)

  const ZERO: Entity := Entity(0, 0, 0.0, 0.0, 0.0, 0.0, 0)

  const KIND_PLAYER: U8 := 1
  const KIND_PROJECTILE: U8 := 2

  /** What survives the wire of an entity: the same fields on the quantized grid. */
  function OnWire(e: Entity): Entity {
    Entity(e.id, e.kind,
           DequantizeCoord(QuantizeCoord(e.x)), DequantizeCoord(QuantizeCoord(e.y)),
           DequantizeVel(QuantizeVel(e.vx)), DequantizeVel(QuantizeVel(e.vy)), e.hp)
  }

  // ----- field masks

  const FIELD_KIND: int := 1
  const FIELD_X: int := 2
  const FIELD_Y: int := 4
  const FIELD_VX: int := 8
  const FIELD_VY: int := 16
  const FIELD_HP: int := 32
  const FIELD_ALL: U8 := 63

  /** Is the bit of weight `field` set? */
  predicate Has(m: U8, field: int)
    requires field > 0
  {
    m % (2 * field) >= field
  }

  function Flag(b: bool, field: int): int {
    if b then field else 0
  }

  /** The fields in which `cur` differs from `base` once both are quantized. */
  function EntityFieldMask(base: Entity, cur: Entity): (m: U8)
    ensures m <= FIELD_ALL
  {
    Flag(base.kind != cur.kind, FIELD_KIND)
    + Flag(QuantizeCoord(base.x) != QuantizeCoord(cur.x), FIELD_X)
    + Flag(QuantizeCoord(base.y) != QuantizeCoord(cur.y), FIELD_Y)
    + Flag(QuantizeVel(base.vx) != QuantizeVel(cur.vx), FIELD_VX)
    + Flag(QuantizeVel(base.vy) != QuantizeVel(cur.vy), FIELD_VY)
    + Flag(base.hp != cur.hp, FIELD_HP)
  }

  lemma MaskBits(a: bool, b: bool, c: bool, d: bool, e: bool, f: bool)
    ensures var m := Flag(a, 1) + Flag(b, 2) + Flag(c, 4) + Flag(d, 8) + Flag(e, 16) + Flag(f, 32);
      && (Has(m, FIELD_KIND) <==> a) && (Has(m, FIELD_X) <==> b) && (Has(m, FIELD_Y) <==> c)
      && (Has(m, FIELD_VX) <==> d) && (Has(m, FIELD_VY) <==> e) && (Has(m, FIELD_HP) <==> f)
  {
  }

  /** Two entities of one id have an empty mask exactly when they look alike on the wire. */
  lemma EmptyMaskMeansAlike(base: Entity, cur: Entity)
    requires base.id == cur.id
    ensures EntityFieldMask(base, cur) == 0 <==> OnWire(base) == OnWire(cur)
  {
    QuantizeIsStable(QuantizeCoord(base.x), QuantizeVel(base.vx));
    QuantizeIsStable(QuantizeCoord(base.y), QuantizeVel(base.vy));
    QuantizeIsStable(QuantizeCoord(cur.x), QuantizeVel(cur.vx));
    QuantizeIsStable(QuantizeCoord(cur.y), QuantizeVel(cur.vy));
  }

  /** The receiver's patch: the marked fields from `e`, the others from `cur`. */
  function Patch(cur: Entity, e: Entity, m: U8): Entity {
    Entity(e.id,
           if Has(m, FIELD_KIND) then e.kind else cur.kind,
           if Has(m, FIELD_X) then e.x else cur.x,
           if Has(m, FIELD_Y) then e.y else cur.y,
           if Has(m, FIELD_VX) then e.vx else cur.vx,
           if Has(m, FIELD_VY) then e.vy else cur.vy,
           if Has(m, FIELD_HP) then e.hp else cur.hp)
  }

  /** What a delta record delivers: the marked fields, zero elsewhere. */
  function Masked(e: Entity, m: U8): Entity {
    Patch(ZERO, OnWire(e), m)
  }

  /** Patching the base with the fields that differ yields the current entity. */
  lemma PatchRestores(base: Entity, cur: Entity)
    requires base.id == cur.id
    ensures var m := EntityFieldMask(base, cur);
      Patch(OnWire(base), Masked(cur, m), m) == OnWire(cur)
  {
    MaskBits(base.kind != cur.kind,
             QuantizeCoord(base.x) != QuantizeCoord(cur.x), QuantizeCoord(base.y) != QuantizeCoord(cur.y),
             QuantizeVel(base.vx) != QuantizeVel(cur.vx), QuantizeVel(base.vy) != QuantizeVel(cur.vy),
             base.hp != cur.hp);
  }

  /** A record with every field marked does not depend on what was there before. */
  lemma PatchAll(any: Entity, cur: Entity)
    ensures Patch(any, Masked(cur, FIELD_ALL), FIELD_ALL) == OnWire(cur)
  {
    MaskBits(true, true, true, true, true, true);
  }

  lemma Assoc(a: Bytes, b: Bytes, c: Bytes)
    ensures (a + b) + c == a + (b + c)
  {
  }
}
