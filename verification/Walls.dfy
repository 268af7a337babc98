/** Static walls, internal/game/walls.go, over exact reals: pushing a circle out of
    boxes, and the slab test for a segment against a box. */
module Walls {
  import opened Reals

  datatype Box = Box(minX: real, minY: real, maxX: real, maxY: real)

  const WALLS: seq<Box> := [
    Box(1500.0, 1500.0, 1620.0, 1900.0),
    Box(2200.0, 1400.0, 2320.0, 2000.0),
    Box(1600.0, 2300.0, 2400.0, 2420.0),
    Box(2600.0, 1900.0, 3100.0, 2020.0)]

  const MAP_SIZE := 4096.0
  const PLAYER_RADIUS := 16.0
  const PROJECTILE_RADIUS := 4.0

  ghost predicate Proper(b: Box) {
    b.minX <= b.maxX && b.minY <= b.maxY
  }

  /** The squared distance from (x, y) to the nearest point of the box. */
  function Dist2(b: Box, x: real, y: real): (d: real)
    ensures d >= 0.0
  {
    SqSigns(x - Clamp(x, b.minX, b.maxX));
    SqSigns(y - Clamp(y, b.minY, b.maxY));
    Sq(x - Clamp(x, b.minX, b.maxX)) + Sq(y - Clamp(y, b.minY, b.maxY))
  }

  /** Square root as the one non-negative real whose square is the argument. */
  ghost predicate IsRoot(root: real -> real) {
    forall x: real :: x >= 0.0 ==> root(x) >= 0.0 && Sq(root(x)) == x
  }

  // ----- pushing a circle out of one wall

  function ResolveWall(root: real -> real, cx: real, cy: real, r: real, b: Box): (real, real)
  {
    var (qx, qy) := (Clamp(cx, b.minX, b.maxX), Clamp(cy, b.minY, b.maxY));
    var (dx, dy) := (cx - qx, cy - qy);
    var d2 := Sq(dx) + Sq(dy);
    if d2 >= Sq(r) then (cx, cy)
    else if d2 > 0.0 then
      var d := root(d2);
      var push := r - d;
      (cx + Mul(Quot(dx, d), push), cy + Mul(Quot(dy, d), push))
    else
      var (left, right, top, bottom) := (cx - b.minX, b.maxX - cx, cy - b.minY, b.maxY - cy);
      var m := Min(Min(Min(left, right), top), bottom);
      if m == left then (b.minX - r, cy)
      else if m == right then (b.maxX + r, cy)
      else if m == top then (cx, b.minY - r)
      else (cx, b.maxY + r)
  }

  lemma PositiveRoot(root: real -> real, x: real)
    requires IsRoot(root) && x > 0.0
    ensures root(x) > 0.0 && Sq(root(x)) == x
  {
    hide Sq;
    SqSigns(root(x));
  }

  /** Moving away from the nearest point of an interval does not change it. */
  lemma ClampAlongNormal(c: real, lo: real, hi: real, k: real)
    requires lo <= hi && k >= 0.0
    ensures var q := Clamp(c, lo, hi); Clamp(q + Mul(k, c - q), lo, hi) == q
  {
    hide Mul;
    var q := Clamp(c, lo, hi);
    if c < lo {
      MulNonNeg(k, q - c);
      MulNeg(k, q - c);
    } else if c > hi {
      MulNonNeg(k, c - q);
    } else {
      MulUnits(k);
    }
  }

  /** A wall pushes a circle that touches it to distance exactly `r`, and leaves any
      other circle alone. */
  lemma ResolveWallDistance(root: real -> real, cx: real, cy: real, r: real, b: Box)
    requires IsRoot(root) && Proper(b) && r > 0.0
    ensures var (x, y) := ResolveWall(root, cx, cy, r, b);
      && (Dist2(b, cx, cy) >= Sq(r) ==> (x, y) == (cx, cy))
      && (Dist2(b, cx, cy) < Sq(r) ==> Dist2(b, x, y) == Sq(r))
  {
    var (qx, qy) := (Clamp(cx, b.minX, b.maxX), Clamp(cy, b.minY, b.maxY));
    var (dx, dy) := (cx - qx, cy - qy);
    var d2 := Sq(dx) + Sq(dy);
    hide Sq;
    SqSigns(r);
    if 0.0 < d2 < Sq(r) {
      OutsidePush(root, cx, cy, r, b);
    } else if d2 == 0.0 {
      InsidePush(root, cx, cy, r, b);
    }
  }

  lemma InsideMeansOnBox(cx: real, cy: real, b: Box)
    requires Proper(b) && Dist2(b, cx, cy) == 0.0
    ensures b.minX <= cx <= b.maxX && b.minY <= cy <= b.maxY
  {
    hide Sq;
    SqSigns(cx - Clamp(cx, b.minX, b.maxX));
    SqSigns(cy - Clamp(cy, b.minY, b.maxY));
  }

  lemma InsidePush(root: real -> real, cx: real, cy: real, r: real, b: Box)
    requires IsRoot(root) && Proper(b) && r > 0.0 && Dist2(b, cx, cy) == 0.0
    ensures var (x, y) := ResolveWall(root, cx, cy, r, b); Dist2(b, x, y) == Sq(r)
  {
    InsideMeansOnBox(cx, cy, b);
    hide Sq;
    SqSigns(r);
    SqSigns(0.0);
  }

  lemma OutsidePush(root: real -> real, cx: real, cy: real, r: real, b: Box)
    requires IsRoot(root) && Proper(b) && r > 0.0 && 0.0 < Dist2(b, cx, cy) < Sq(r)
    ensures var (x, y) := ResolveWall(root, cx, cy, r, b); Dist2(b, x, y) == Sq(r)
  {
    hide Sq, Mul, Clamp, IsRoot, ResolveWall;
    var (qx, qy) := (Clamp(cx, b.minX, b.maxX), Clamp(cy, b.minY, b.maxY));
    var d := root(Dist2(b, cx, cy));
    OutsidePushPoint(root, cx, cy, r, b);
    var k := r / d;
    ClampAlongNormal(cx, b.minX, b.maxX, k);
    ClampAlongNormal(cy, b.minY, b.maxY, k);
    SqOfProduct(k, cx - qx);
    SqOfProduct(k, cy - qy);
    MulAdd(Sq(k), Sq(cx - qx), Sq(cy - qy));
    PositiveRoot(root, Dist2(b, cx, cy));
    SqOfProduct(k, d);
    DivMul(r, d);
  }

  /** The pushed point: the nearest point plus the offset stretched to length r. */
  lemma OutsidePushPoint(root: real -> real, cx: real, cy: real, r: real, b: Box)
    requires IsRoot(root) && Proper(b) && r > 0.0 && 0.0 < Dist2(b, cx, cy) < Sq(r)
    ensures var (qx, qy) := (Clamp(cx, b.minX, b.maxX), Clamp(cy, b.minY, b.maxY));
      var d := root(Dist2(b, cx, cy));
      && d > 0.0 && r / d > 0.0
      && ResolveWall(root, cx, cy, r, b) == (qx + Mul(r / d, cx - qx), qy + Mul(r / d, cy - qy))
  {
    hide Sq, Mul, Clamp, IsRoot;
    var d := root(Dist2(b, cx, cy));
    PositiveRoot(root, Dist2(b, cx, cy));
    PushIsScaling(cx, Clamp(cx, b.minX, b.maxX), d, r);
    PushIsScaling(cy, Clamp(cy, b.minY, b.maxY), d, r);
  }

  lemma PushIsScaling(c: real, q: real, d: real, r: real)
    requires d > 0.0 && r > 0.0
    ensures c + Mul(Quot(c - q, d), r - d) == q + Mul(r / d, c - q) && r / d > 0.0
  {
    hide Mul;
    var u := (c - q) / d;
    MulSub(u, r, d);
    DivMul(c - q, d);
    DivMul(r, d);
    MulAssoc(u, d, r / d);
    MulComm(r / d, d);
    MulComm(c - q, r / d);
    if r / d <= 0.0 {
      MulMono(r / d, 0.0, d);
      MulUnits(d);
    }
  }

  // ----- one pass over all walls

  ghost predicate AllProper(ws: seq<Box>) {
    forall i :: 0 <= i < |ws| ==> Proper(ws[i])
  }

  /** Some axis keeps the two boxes at least `gap` apart. */
  ghost predicate Apart(a: Box, b: Box, gap: real) {
    a.maxX + gap <= b.minX || b.maxX + gap <= a.minX || a.maxY + gap <= b.minY || b.maxY + gap <= a.minY
  }

  /** Walls at least 2r apart: a circle pushed out of one cannot touch another. */
  ghost predicate Separated(ws: seq<Box>, r: real) {
    AllProper(ws) && forall i, j :: 0 <= i < j < |ws| ==> Apart(ws[i], ws[j], 2.0 * r)
  }

  predicate ClearOf(ws: seq<Box>, x: real, y: real, r: real) {
    forall i :: 0 <= i < |ws| ==> Dist2(ws[i], x, y) >= Sq(r)
  }

  function ResolvedBy(root: real -> real, cx: real, cy: real, r: real, ws: seq<Box>): (real, real)
  {
    if ws == [] then (cx, cy)
    else
      var (x, y) := ResolvedBy(root, cx, cy, r, ws[..|ws| - 1]);
      ResolveWall(root, x, y, r, ws[|ws| - 1])
  }

  /** A circle clear of all walls is not moved. */
  lemma {:induction false} NobodyPushed(root: real -> real, x: real, y: real, r: real, ws: seq<Box>)
    requires ClearOf(ws, x, y, r)
    ensures ResolvedBy(root, x, y, r, ws) == (x, y)
  {
    if ws != [] {
      var n := |ws| - 1;
      assert forall i :: 0 <= i < n ==> ws[..n][i] == ws[i];
      NobodyPushed(root, x, y, r, ws[..n]);
      NotPushed(root, x, y, r, ws[n]);
      hide Dist2, ResolveWall;
    }
  }

  lemma NotPushed(root: real -> real, x: real, y: real, r: real, w: Box)
    requires Dist2(w, x, y) >= Sq(r)
    ensures ResolveWall(root, x, y, r, w) == (x, y)
  {
    hide Sq;
  }

  method ResolveWalls(root: real -> real, x0: real, y0: real, r: real, ws: seq<Box>) returns (cx: real, cy: real)
    ensures (cx, cy) == ResolvedBy(root, x0, y0, r, ws)
  {
    hide ResolveWall;
    cx, cy := x0, y0;
    for i := 0 to |ws|
      invariant (cx, cy) == ResolvedBy(root, x0, y0, r, ws[..i])
    {
      assert ws[..i + 1][..i] == ws[..i];
      var p := ResolveWall(root, cx, cy, r, ws[i]);
      cx, cy := p.0, p.1;
    }
    assert ws[..|ws|] == ws;
  }

  method InsideAnyWall(cx: real, cy: real, r: real, ws: seq<Box>) returns (inside: bool)
    ensures inside <==> !ClearOf(ws, cx, cy, r)
  {
    hide Dist2, Sq;
    for i := 0 to |ws|
      invariant forall j :: 0 <= j < i ==> Dist2(ws[j], cx, cy) >= Sq(r)
    {
      if Dist2(ws[i], cx, cy) < Sq(r) {
        return true;
      }
    }
    return false;
  }

  /** A point at distance at most r from one of two boxes 2r apart is at least r from the other. */
  lemma TouchesOnlyOne(a: Box, b: Box, x: real, y: real, r: real)
    requires Proper(a) && Proper(b) && r > 0.0 && (Apart(a, b, 2.0 * r) || Apart(b, a, 2.0 * r))
    requires Dist2(a, x, y) <= Sq(r)
    ensures Dist2(b, x, y) >= Sq(r)
  {
    hide Sq;
    AxisWithin(a, x, y, r);
    var (bx, by') := (x - Clamp(x, b.minX, b.maxX), y - Clamp(y, b.minY, b.maxY));
    SqSigns(bx);
    SqSigns(by');
    if bx >= r {
      SqMono(r, bx);
    } else if bx <= -r {
      SqMono(r, -bx);
    } else if by' >= r {
      SqMono(r, by');
    } else {
      SqMono(r, -by');
    }
  }

  lemma AxisWithin(a: Box, x: real, y: real, r: real)
    requires Proper(a) && r > 0.0 && Dist2(a, x, y) <= Sq(r)
    ensures a.minX - r <= x <= a.maxX + r && a.minY - r <= y <= a.maxY + r
  {
    hide Sq;
    var (ax, ay) := (x - Clamp(x, a.minX, a.maxX), y - Clamp(y, a.minY, a.maxY));
    SqSigns(ax);
    SqSigns(ay);
    AxisBound(ax, r);
    AxisBound(ay, r);
  }

  lemma AxisBound(v: real, r: real)
    requires r > 0.0 && Sq(v) <= Sq(r)
    ensures -r <= v <= r
  {
    hide Sq;
    SqSigns(v);
    if v >= 0.0 {
      SqStrict(r, v);
    } else {
      SqStrict(r, -v);
    }
  }

  /** One sequential pass clears every wall of a separated layout: a wall that pushes
      leaves the circle out of reach of those handled before it. */
  lemma {:induction false} OnePassClears(root: real -> real, cx: real, cy: real, r: real, ws: seq<Box>)
    requires IsRoot(root) && Separated(ws, r) && r > 0.0
    ensures var (x, y) := ResolvedBy(root, cx, cy, r, ws);
      ClearOf(ws, x, y, r) && ((x, y) == (cx, cy) || exists i :: 0 <= i < |ws| && Dist2(ws[i], x, y) == Sq(r))
  {
    hide IsRoot, ResolveWall, Dist2, Sq, Apart;
    if ws != [] {
      var n := |ws| - 1;
      var front := ws[..n];
      assert forall i :: 0 <= i < n ==> front[i] == ws[i];
      OnePassClears(root, cx, cy, r, front);
      var (px, py) := ResolvedBy(root, cx, cy, r, front);
      ResolveWallDistance(root, px, py, r, ws[n]);
      var (x, y) := ResolveWall(root, px, py, r, ws[n]);
      if Dist2(ws[n], px, py) < Sq(r) {
        forall i | 0 <= i < n
          ensures Dist2(ws[i], x, y) >= Sq(r)
        {
          TouchesOnlyOne(ws[n], ws[i], x, y, r);
        }
      }
    }
  }

  // ----- the arena

  lemma ArenaIsSeparated()
    ensures Separated(WALLS, PLAYER_RADIUS)
  {
  }

  /** Where a player's centre may be: on the map with its radius to spare, and at least
      its radius away from every wall. */
  ghost predicate Legal(x: real, y: real) {
    && PLAYER_RADIUS <= x <= MAP_SIZE - PLAYER_RADIUS && PLAYER_RADIUS <= y <= MAP_SIZE - PLAYER_RADIUS
    && ClearOf(WALLS, x, y, PLAYER_RADIUS)
  }

  /** Clamping to the map and one pass over the walls lands in a legal place, whatever
      the place before; pushing out never leaves the map again. */
  lemma ResolvedIsLegal(root: real -> real, x: real, y: real)
    requires IsRoot(root)
    requires PLAYER_RADIUS <= x <= MAP_SIZE - PLAYER_RADIUS && PLAYER_RADIUS <= y <= MAP_SIZE - PLAYER_RADIUS
    ensures Separated(WALLS, PLAYER_RADIUS)
    ensures var (px, py) := ResolvedBy(root, x, y, PLAYER_RADIUS, WALLS); Legal(px, py)
  {
    ArenaIsSeparated();
    hide IsRoot, ResolvedBy, Dist2, Sq, Separated;
    OnePassClears(root, x, y, PLAYER_RADIUS, WALLS);
    var (px, py) := ResolvedBy(root, x, y, PLAYER_RADIUS, WALLS);
    if (px, py) != (x, y) {
      var i :| 0 <= i < |WALLS| && Dist2(WALLS[i], px, py) == Sq(PLAYER_RADIUS);
      AxisWithin(WALLS[i], px, py, PLAYER_RADIUS);
    }
  }
}
