/** Segments against walls and players, internal/game/walls.go and combat.go: the slab
    method finds the first moment a segment is inside a box, and the earliest over all
    walls cuts a projectile's path. */
module Segments {
  import opened Wrappers
  import opened Reals
  import opened Walls

  // ----- one axis

  ghost predicate InAxis(a: real, d: real, lo: real, hi: real, t: real) {
    lo <= a + Mul(t, d) <= hi
  }

  /** The window of parameters left after one axis, or None when the axis excludes all. */
  function Slab(a: real, d: real, lo: real, hi: real, tmin: real, tmax: real): Option<(real, real)> {
    if d != 0.0 then
      var (u1, u2) := ((lo - a) / d, (hi - a) / d);
      var (t1, t2) := if u1 > u2 then (u2, u1) else (u1, u2);
      Some((if t1 > tmin then t1 else tmin, if t2 < tmax then t2 else tmax))
    else if a < lo || a > hi then None
    else Some((tmin, tmax))
  }

  lemma QuotientOrder(p: real, d: real, t: real)
    requires d != 0.0
    ensures d > 0.0 ==> (p / d <= t <==> p <= Mul(t, d)) && (t <= p / d <==> Mul(t, d) <= p)
    ensures d < 0.0 ==> (p / d <= t <==> Mul(t, d) <= p) && (t <= p / d <==> p <= Mul(t, d))
  {
    hide Mul;
    DivMul(p, d);
    var q := p / d;
    if d > 0.0 {
      OrderedProducts(q, t, d);
      OrderedProducts(t, q, d);
    } else {
      MulNeg(q, d);
      MulNeg(t, d);
      OrderedProducts(q, t, -d);
      OrderedProducts(t, q, -d);
    }
  }

  lemma OrderedProducts(a: real, b: real, d: real)
    requires d > 0.0
    ensures a <= b <==> Mul(a, d) <= Mul(b, d)
  {
    hide Mul;
    if a <= b {
      MulMono(a, b, d);
    } else {
      MulSub(d, a, b);
      MulPos(a - b, d);
    }
  }

  /** The window keeps exactly the parameters at which the axis is within bounds. */
  lemma SlabExact(a: real, d: real, lo: real, hi: real, tmin: real, tmax: real, t: real)
    requires lo <= hi
    ensures var w := Slab(a, d, lo, hi, tmin, tmax);
      (w.Some? && w.value.0 <= t <= w.value.1) <==> (tmin <= t <= tmax && InAxis(a, d, lo, hi, t))
  {
    hide Mul;
    if d != 0.0 {
      QuotientOrder(lo - a, d, t);
      QuotientOrder(hi - a, d, t);
      QuotientOrder(lo - a, d, (hi - a) / d);
      DivMul(hi - a, d);
    } else {
      MulUnits(t);
    }
  }

  // ----- a box

  ghost predicate InBox(b: Box, x: real, y: real) {
    b.minX <= x <= b.maxX && b.minY <= y <= b.maxY
  }

  ghost predicate InBoxAt(b: Box, ax: real, ay: real, dx: real, dy: real, t: real) {
    InBox(b, ax + Mul(t, dx), ay + Mul(t, dy))
  }

  function SegAABBEntry(ax: real, ay: real, dx: real, dy: real, b: Box): Option<real> {
    match Slab(ax, dx, b.minX, b.maxX, 0.0, 1.0)
    case None => None
    case Some(wx) =>
      match Slab(ay, dy, b.minY, b.maxY, wx.0, wx.1)
      case None => None
      case Some(w) => if w.0 > w.1 then None else Some(w.0)
  }

  /** The slab method succeeds exactly when some t in [0, 1] puts the segment inside the
      box, and then answers the least such t. */
  lemma EntryIsFirst(ax: real, ay: real, dx: real, dy: real, b: Box)
    requires Proper(b)
    ensures var e := SegAABBEntry(ax, ay, dx, dy, b);
      && (e.Some? <==> exists t :: 0.0 <= t <= 1.0 && InBoxAt(b, ax, ay, dx, dy, t))
      && (e.Some? ==> 0.0 <= e.value <= 1.0 && InBoxAt(b, ax, ay, dx, dy, e.value))
      && (e.Some? ==> forall t :: 0.0 <= t <= 1.0 && InBoxAt(b, ax, ay, dx, dy, t) ==> e.value <= t)
  {
    hide Mul, Slab;
    var e := SegAABBEntry(ax, ay, dx, dy, b);
    forall t
      ensures 0.0 <= t <= 1.0 && InBoxAt(b, ax, ay, dx, dy, t) ==> e.Some? && e.value <= t
    {
      WindowExact(ax, ay, dx, dy, b, t);
    }
    if e.Some? {
      WindowExact(ax, ay, dx, dy, b, e.value);
    }
  }

  lemma WindowExact(ax: real, ay: real, dx: real, dy: real, b: Box, t: real)
    requires Proper(b)
    ensures var e := SegAABBEntry(ax, ay, dx, dy, b);
      && (0.0 <= t <= 1.0 && InBoxAt(b, ax, ay, dx, dy, t) ==> e.Some? && e.value <= t)
      && (e == Some(t) ==> 0.0 <= t <= 1.0 && InBoxAt(b, ax, ay, dx, dy, t))
  {
    hide Mul, Slab;
    SlabExact(ax, dx, b.minX, b.maxX, 0.0, 1.0, t);
    var wx := Slab(ax, dx, b.minX, b.maxX, 0.0, 1.0);
    if wx.Some? {
      SlabExact(ay, dy, b.minY, b.maxY, wx.value.0, wx.value.1, t);
    }
  }

  // ----- all walls

  function Inflate(b: Box, r: real): Box {
    Box(b.minX - r, b.minY - r, b.maxX + r, b.maxY + r)
  }

  /** At parameter t the segment is inside some wall inflated by r. */
  ghost predicate InWalls(ws: seq<Box>, r: real, ax: real, ay: real, dx: real, dy: real, t: real) {
    exists i :: 0 <= i < |ws| && InBoxAt(Inflate(ws[i], r), ax, ay, dx, dy, t)
  }

  /** `t` is the first moment in [0, 1] at which the segment is inside a wall. */
  ghost predicate FirstWall(ws: seq<Box>, r: real, ax: real, ay: real, dx: real, dy: real, t: real) {
    && 0.0 <= t <= 1.0 && InWalls(ws, r, ax, ay, dx, dy, t)
    && forall u :: 0.0 <= u < t ==> !InWalls(ws, r, ax, ay, dx, dy, u)
  }

  ghost predicate NoWall(ws: seq<Box>, r: real, ax: real, ay: real, dx: real, dy: real) {
    forall u :: 0.0 <= u <= 1.0 ==> !InWalls(ws, r, ax, ay, dx, dy, u)
  }

  ghost function FirstWallTime(ws: seq<Box>, r: real, ax: real, ay: real, dx: real, dy: real): Option<real>
    requires AllProper(ws) && r >= 0.0
  {
    if ws == [] then None
    else
      var n := |ws| - 1;
      Earlier(FirstWallTime(ws[..n], r, ax, ay, dx, dy), SegAABBEntry(ax, ay, dx, dy, Inflate(ws[n], r)))
  }

  function Earlier(a: Option<real>, b: Option<real>): Option<real> {
    match (a, b)
    case (_, None) => a
    case (None, _) => b
    case (Some(s), Some(t)) => if t < s then b else a
  }

  lemma {:induction false} FirstWallTimeIsFirst(ws: seq<Box>, r: real, ax: real, ay: real, dx: real, dy: real)
    requires AllProper(ws) && r >= 0.0
    ensures match FirstWallTime(ws, r, ax, ay, dx, dy)
      case None => NoWall(ws, r, ax, ay, dx, dy)
      case Some(t) => FirstWall(ws, r, ax, ay, dx, dy, t)
  {
    hide SegAABBEntry, InBoxAt, Inflate;
    if ws != [] {
      var n := |ws| - 1;
      FirstWallTimeIsFirst(ws[..n], r, ax, ay, dx, dy);
      InflateProper(ws[n], r);
      EntryIsFirst(ax, ay, dx, dy, Inflate(ws[n], r));
      forall t
        ensures InWalls(ws, r, ax, ay, dx, dy, t) ==
          (InWalls(ws[..n], r, ax, ay, dx, dy, t) || InBoxAt(Inflate(ws[n], r), ax, ay, dx, dy, t))
      {
        InOneMoreWall(ws, r, ax, ay, dx, dy, t);
      }
    }
  }

  lemma InflateProper(b: Box, r: real)
    requires Proper(b) && r >= 0.0
    ensures Proper(Inflate(b, r))
  {
  }

  lemma InOneMoreWall(ws: seq<Box>, r: real, ax: real, ay: real, dx: real, dy: real, t: real)
    requires ws != []
    ensures var n := |ws| - 1;
      InWalls(ws, r, ax, ay, dx, dy, t) ==
        (InWalls(ws[..n], r, ax, ay, dx, dy, t) || InBoxAt(Inflate(ws[n], r), ax, ay, dx, dy, t))
  {
    hide InBoxAt, Inflate;
    var n := |ws| - 1;
    assert forall i :: 0 <= i < n ==> ws[..n][i] == ws[i];
    if InWalls(ws[..n], r, ax, ay, dx, dy, t) {
      var i :| 0 <= i < n && InBoxAt(Inflate(ws[..n][i], r), ax, ay, dx, dy, t);
      assert InBoxAt(Inflate(ws[i], r), ax, ay, dx, dy, t);
    }
  }

  /** The part of a projectile's path that is tested for hits ends at the first wall: no
      earlier point of it touches an inflated wall. */
  lemma TestedPathIsClear(ws: seq<Box>, r: real, ax: real, ay: real, dx: real, dy: real, t: real, v: real, i: nat)
    requires FirstWall(ws, r, ax, ay, dx, dy, t) && 0.0 < t && 0.0 <= v < 1.0 && i < |ws|
    ensures !InBox(Inflate(ws[i], r), ax + Mul(v, Mul(t, dx)), ay + Mul(v, Mul(t, dy)))
  {
    hide Mul, Inflate;
    MulMono(0.0, v, t);
    MulUnits(t);
    MulSub(t, 1.0, v);
    MulPos(1.0 - v, t);
    MulAssoc(v, t, dx);
    MulAssoc(v, t, dy);
    assert !InWalls(ws, r, ax, ay, dx, dy, Mul(v, t));
  }

  /** math.MaxFloat32, the start value of the search for the earliest entry. */
  const MAX_FLOAT: real := 340282346638528859811704183484516925440.0

  /** `segmentWallHit`: the entry point of the wall hit first, if any wall is hit. */
  method SegmentWallHit(ax: real, ay: real, bx: real, by': real, ws: seq<Box>) returns (hit: bool, ex: real, ey: real)
    requires AllProper(ws)
    ensures var t := FirstWallTime(ws, PROJECTILE_RADIUS, ax, ay, bx - ax, by' - ay);
      && (hit <==> t.Some?)
      && (hit ==> ex == ax + Mul(t.value, bx - ax) && ey == ay + Mul(t.value, by' - ay))
      && (!hit ==> ex == 0.0 && ey == 0.0)
  {
    hide SegAABBEntry, Mul, Proper;
    var dx, dy := bx - ax, by' - ay;
    var bestT := MAX_FLOAT;
    hit := false;
    for i := 0 to |ws|
      invariant FirstWallTime(ws[..i], PROJECTILE_RADIUS, ax, ay, dx, dy) == if hit then Some(bestT) else None
      invariant !hit ==> bestT == MAX_FLOAT
    {
      assert ws[..i + 1][..i] == ws[..i];
      InflateProper(ws[i], PROJECTILE_RADIUS);
      EntryIsFirst(ax, ay, dx, dy, Inflate(ws[i], PROJECTILE_RADIUS));
      var e := SegAABBEntry(ax, ay, dx, dy, Inflate(ws[i], PROJECTILE_RADIUS));
      if e.Some? && e.value < bestT {
        bestT, hit := e.value, true;
      }
    }
    assert ws[..|ws|] == ws;
    if !hit {
      return false, 0.0, 0.0;
    }
    return true, ax + Mul(bestT, dx), ay + Mul(bestT, dy);
  }

  // ----- a circle

  /** Does the segment A-B come within r of C? */
  function SegmentCircleHit(ax: real, ay: real, bx: real, by': real, cx: real, cy: real, r: real): bool {
    var (dx, dy) := (bx - ax, by' - ay);
    var seg2 := Sq(dx) + Sq(dy);
    var t := if seg2 > 0.0 then Clamp((Mul(cx - ax, dx) + Mul(cy - ay, dy)) / seg2, 0.0, 1.0) else 0.0;
    var (px, py) := (ax + Mul(t, dx), ay + Mul(t, dy));
    Sq(px - cx) + Sq(py - cy) <= Sq(r)
  }

  /** A circle that is hit lies in the segment's bounding box widened by r. */
  lemma HitIsNearby(ax: real, ay: real, bx: real, by': real, cx: real, cy: real, r: real)
    requires r > 0.0 && SegmentCircleHit(ax, ay, bx, by', cx, cy, r)
    ensures Min(ax, bx) - r <= cx <= Max(ax, bx) + r
    ensures Min(ay, by') - r <= cy <= Max(ay, by') + r
  {
    hide Mul, Sq;
    var (dx, dy) := (bx - ax, by' - ay);
    var seg2 := Sq(dx) + Sq(dy);
    var t := if seg2 > 0.0 then Clamp((Mul(cx - ax, dx) + Mul(cy - ay, dy)) / seg2, 0.0, 1.0) else 0.0;
    OnSegment(ax, bx, t);
    OnSegment(ay, by', t);
    var (px, py) := (ax + Mul(t, dx), ay + Mul(t, dy));
    SqSigns(px - cx);
    SqSigns(py - cy);
    AxisBound(px - cx, r);
    AxisBound(py - cy, r);
  }

  lemma OnSegment(a: real, b: real, t: real)
    requires 0.0 <= t <= 1.0
    ensures Min(a, b) <= a + Mul(t, b - a) <= Max(a, b)
  {
    hide Mul;
    MulUnits(b - a);
    if b >= a {
      MulMono(0.0, t, b - a);
      MulMono(t, 1.0, b - a);
    } else {
      MulNeg(t, b - a);
      MulUnits(a - b);
      MulMono(0.0, t, a - b);
      MulMono(t, 1.0, a - b);
    }
  }

  /** The hit test finds the closest approach: it is true exactly when some point of the
      segment is within r of C. */
  lemma HitIsExact(ax: real, ay: real, bx: real, by': real, cx: real, cy: real, r: real, u: real)
    requires 0.0 <= u <= 1.0
    requires Sq(ax + Mul(u, bx - ax) - cx) + Sq(ay + Mul(u, by' - ay) - cy) <= Sq(r)
    ensures SegmentCircleHit(ax, ay, bx, by', cx, cy, r)
  {
    hide Mul, Sq, Clamp;
    var (dx, dy, ex, ey) := (bx - ax, by' - ay, ax - cx, ay - cy);
    var seg2 := Sq(dx) + Sq(dy);
    SqSigns(dx);
    SqSigns(dy);
    if seg2 > 0.0 {
      var dot := Mul(cx - ax, dx) + Mul(cy - ay, dy);
      var s := dot / seg2;
      var t := Clamp(s, 0.0, 1.0);
      MulNeg(ex, dx);
      MulNeg(ey, dy);
      DivMul(dot, seg2);
      DistanceAlong(ex, ey, dx, dy, s, u);
      DistanceAlong(ex, ey, dx, dy, s, t);
      ClosestOfClamped(s, u, t, seg2);
      assert ax + Mul(t, dx) - cx == ex + Mul(t, dx) && ay + Mul(t, dy) - cy == ey + Mul(t, dy);
      assert ax + Mul(u, dx) - cx == ex + Mul(u, dx) && ay + Mul(u, dy) - cy == ey + Mul(u, dy);
    } else {
      assert dx == 0.0 && dy == 0.0;
      MulUnits(u);
      MulUnits(dx);
    }
  }

  /** The point at u of the segment A-B is within r of C. */
  ghost predicate WithinAt(ax: real, ay: real, bx: real, by': real, cx: real, cy: real, r: real, u: real) {
    0.0 <= u <= 1.0 && Sq(ax + Mul(u, bx - ax) - cx) + Sq(ay + Mul(u, by' - ay) - cy) <= Sq(r)
  }

  /** So the test is true exactly when the segment comes within r of C. */
  lemma HitIffWithin(ax: real, ay: real, bx: real, by': real, cx: real, cy: real, r: real)
    ensures SegmentCircleHit(ax, ay, bx, by', cx, cy, r) <==> exists u :: WithinAt(ax, ay, bx, by', cx, cy, r, u)
  {
    hide Mul, Sq;
    if SegmentCircleHit(ax, ay, bx, by', cx, cy, r) {
      var (dx, dy) := (bx - ax, by' - ay);
      var seg2 := Sq(dx) + Sq(dy);
      var t := if seg2 > 0.0 then Clamp((Mul(cx - ax, dx) + Mul(cy - ay, dy)) / seg2, 0.0, 1.0) else 0.0;
      assert WithinAt(ax, ay, bx, by', cx, cy, r, t);
    }
    forall u | WithinAt(ax, ay, bx, by', cx, cy, r, u)
      ensures SegmentCircleHit(ax, ay, bx, by', cx, cy, r)
    {
      HitIsExact(ax, ay, bx, by', cx, cy, r, u);
    }
  }

  /** The squared distance along a line is a parabola with its vertex at s. */
  lemma DistanceAlong(ex: real, ey: real, dx: real, dy: real, s: real, u: real)
    requires Mul(s, Sq(dx) + Sq(dy)) == -(Mul(ex, dx) + Mul(ey, dy))
    ensures Sq(ex + Mul(u, dx)) + Sq(ey + Mul(u, dy))
         == Sq(ex) + Sq(ey) - Mul(Sq(s), Sq(dx) + Sq(dy)) + Mul(Sq(u - s), Sq(dx) + Sq(dy))
  {
    hide Mul, Sq;
    var seg2 := Sq(dx) + Sq(dy);
    SqOfSum(ex, dx, u);
    SqOfSum(ey, dy, u);
    MulAdd(u, Mul(ex, dx), Mul(ey, dy));
    MulAdd(Sq(u), Sq(dx), Sq(dy));
    MulNeg(u, Mul(s, seg2));
    SqOfDifference(u, s);
    MulAdd(seg2, Sq(u) - 2.0 * Mul(u, s), Sq(s));
    MulSub(seg2, Sq(u), 2.0 * Mul(u, s));
    MulAdd(seg2, Mul(u, s), Mul(u, s));
    MulAssoc(u, s, seg2);
  }

  lemma SqOfSum(e: real, d: real, u: real)
    ensures Sq(e + Mul(u, d)) == Sq(e) + 2.0 * Mul(u, Mul(e, d)) + Mul(Sq(u), Sq(d))
  {
    hide Mul, Sq;
    var p := Mul(u, d);
    SqOfDifference(e, -p);
    MulNeg(e, p);
    SqSigns(p);
    SqOfProduct(u, d);
    MulAssoc(e, u, d);
    MulComm(e, u);
    MulAssoc(u, e, d);
  }

  lemma SqOfDifference(u: real, s: real)
    ensures Sq(u - s) == Sq(u) - 2.0 * Mul(u, s) + Sq(s)
  {
    hide Mul;
    MulSub(u - s, u, s);
    MulSub(u, u, s);
    MulSub(s, u, s);
    MulComm(u, s);
  }

  lemma ClosestOfClamped(s: real, u: real, t: real, seg2: real)
    requires seg2 > 0.0 && 0.0 <= u <= 1.0 && t == Clamp(s, 0.0, 1.0)
    ensures Mul(Sq(t - s), seg2) <= Mul(Sq(u - s), seg2)
  {
    hide Mul, Sq;
    if s < 0.0 {
      SqMono(t - s, u - s);
    } else if s > 1.0 {
      SqSigns(t - s);
      SqSigns(u - s);
      SqMono(s - t, s - u);
    } else {
      SqSigns(0.0);
      SqSigns(u - s);
    }
    MulMono(Sq(t - s), Sq(u - s), seg2);
  }
}
