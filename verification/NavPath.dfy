/** Nav of internal/bot/ai.go: building the grid, snapping to the nearest free cell,
    and the A* search over mutable score and parent arrays. */
module NavPath {
  import opened Wrappers
  import opened NavGrid
  import opened NavSearch
  import opened CellHeap

  const MAP_SIZE: real := 4096.0
  const NAV_CELL: real := 128.0
  const NAV_INFLATE: real := 22.0
  const NAV_COLS: nat := 32

  datatype Rect = Rect(minX: real, minY: real, maxX: real, maxY: real)

  /** Does the cell (cx, cy) overlap the obstacle inflated by NAV_INFLATE? */
  predicate Overlaps(o: Rect, cx: int, cy: int) {
    var (x0, y0) := (cx as real * NAV_CELL, cy as real * NAV_CELL);
    && x0 + NAV_CELL > o.minX - NAV_INFLATE && x0 < o.maxX + NAV_INFLATE
    && y0 + NAV_CELL > o.minY - NAV_INFLATE && y0 < o.maxY + NAV_INFLATE
  }

  /** The grid of a map: 32 by 32 cells, blocked exactly where an obstacle overlaps. */
  ghost predicate Built(obstacles: seq<Rect>, nav: Nav) {
    && nav.Valid() && nav.cols == NAV_COLS && nav.cell == NAV_CELL
    && forall cx, cy :: nav.InBounds(cx, cy) ==>
      (nav.IsBlocked(cx, cy) <==> exists o :: o in obstacles && Overlaps(o, cx, cy))
  }

  /** Is a point nearer to the obstacle than 22 on both axes? */
  predicate Near(o: Rect, x: real, y: real) {
    o.minX - 22.0 < x < o.maxX + 22.0 && o.minY - 22.0 < y < o.maxY + 22.0
  }

  predicate Within(cx: int, cy: int, x: real, y: real) {
    && cx as real * 128.0 < x < (cx + 1) as real * 128.0
    && cy as real * 128.0 < y < (cy + 1) as real * 128.0
  }

  function Middle(lo: real, hi: real): real {
    (lo + hi) / 2.0
  }

  function Higher(a: real, b: real): real {
    if a < b then b else a
  }

  function Lower(a: real, b: real): real {
    if a < b then a else b
  }

  /** A cell overlaps an obstacle exactly when one of its inner points is near it. */
  lemma OverlapIsNear(o: Rect, cx: int, cy: int)
    requires o.minX <= o.maxX && o.minY <= o.maxY
    ensures Overlaps(o, cx, cy) <==> exists x, y :: Within(cx, cy, x, y) && Near(o, x, y)
  {
    var (x0, y0) := (cx as real * 128.0, cy as real * 128.0);
    if Overlaps(o, cx, cy) {
      var x := Middle(Higher(x0, o.minX - 22.0), Lower(x0 + 128.0, o.maxX + 22.0));
      var y := Middle(Higher(y0, o.minY - 22.0), Lower(y0 + 128.0, o.maxY + 22.0));
      assert Within(cx, cy, x, y) && Near(o, x, y);
    }
  }

  method NewNav(obstacles: seq<Rect>) returns (nav: Nav)
    ensures Built(obstacles, nav)
  {
    hide Overlaps;
    var blocked := new bool[NAV_COLS * NAV_COLS](_ => false);
    for cy := 0 to NAV_COLS
      invariant Marked(obstacles, blocked[..], cy * NAV_COLS)
    {
      for cx := 0 to NAV_COLS
        invariant Marked(obstacles, blocked[..], cy * NAV_COLS + cx)
      {
        var u := cy * NAV_COLS + cx;
        var k := 0;
        while k < |obstacles|
          invariant 0 <= k <= |obstacles| && Marked(obstacles, blocked[..], u)
          invariant forall j :: 0 <= j < k ==> !Overlaps(obstacles[j], cx, cy)
        {
          if Overlaps(obstacles[k], cx, cy) {
            assert u % NAV_COLS == cx && u / NAV_COLS == cy && obstacles[k] in obstacles;
            assert Hit(obstacles, u);
            blocked[u] := true;
            break;
          }
          k := k + 1;
        }
      }
    }
    nav := Nav(NAV_COLS, NAV_CELL, blocked[..]);
  }

  /** The cells before `n` are marked exactly when an obstacle hits them, the others not yet. */
  ghost predicate Marked(obstacles: seq<Rect>, blocked: seq<bool>, n: int)
    requires |blocked| == NAV_COLS * NAV_COLS
  {
    forall u :: 0 <= u < |blocked| ==> (blocked[u] <==> u < n && Hit(obstacles, u))
  }

  ghost predicate Hit(obstacles: seq<Rect>, u: int) {
    exists o :: o in obstacles && Overlaps(o, u % NAV_COLS, u / NAV_COLS)
  }

  // ----- the nearest free cell

  function Max(a: int, b: int): int {
    if a < b then b else a
  }

  /** The ring of (x, y) around (cx, cy): the Chebyshev distance. */
  ghost function Ring(cx: int, cy: int, x: int, y: int): int {
    Max(Abs(x - cx), Abs(y - cy))
  }

  /** The order in which the search meets cells: ring by ring, and inside a ring row
      by row and left to right. */
  ghost predicate NoLater(cx: int, cy: int, ax: int, ay: int, qx: int, qy: int) {
    var (ra, rb) := (Ring(cx, cy, ax, ay), Ring(cx, cy, qx, qy));
    ra < rb || (ra == rb && (ay < qy || (ay == qy && ax <= qx)))
  }

  ghost predicate Free(nav: Nav, x: int, y: int)
    requires nav.Valid()
  {
    !nav.IsBlocked(x, y)
  }

  /** (fx, fy) is the free cell met first, or (cx, cy) itself when nothing is free. */
  ghost predicate Nearest(nav: Nav, cx: int, cy: int, fx: int, fy: int)
    requires nav.Valid()
  {
    if Free(nav, fx, fy) then forall x, y :: Free(nav, x, y) ==> NoLater(cx, cy, fx, fy, x, y)
    else (forall x, y :: !Free(nav, x, y)) && (fx, fy) == (cx, cy)
  }

  lemma NearestIsUnique(nav: Nav, cx: int, cy: int, ax: int, ay: int, qx: int, qy: int)
    requires nav.Valid() && Nearest(nav, cx, cy, ax, ay) && Nearest(nav, cx, cy, qx, qy)
    ensures (ax, ay) == (qx, qy)
  {
    if Free(nav, ax, ay) && Free(nav, qx, qy) {
      assert NoLater(cx, cy, ax, ay, qx, qy) && NoLater(cx, cy, qx, qy, ax, ay);
    }
  }

  /** Every cell met before row `y`, column `x` of ring `r` is blocked. */
  ghost predicate BlockedBefore(nav: Nav, cx: int, cy: int, r: int, x: int, y: int)
    requires nav.Valid()
  {
    forall ax, ay :: Free(nav, ax, ay) ==>
      var ra := Ring(cx, cy, ax, ay);
      ra > r || (ra == r && (ay > y || (ay == y && ax >= x)))
  }

  lemma CellPassed(nav: Nav, cx: int, cy: int, r: int, x: int, y: int)
    requires nav.Valid() && BlockedBefore(nav, cx, cy, r, x, y)
    requires Free(nav, x, y) ==> Ring(cx, cy, x, y) < r
    ensures BlockedBefore(nav, cx, cy, r, x + 1, y)
  {
    hide Free;
  }

  lemma RowPassed(nav: Nav, cx: int, cy: int, r: int, y: int)
    requires nav.Valid() && BlockedBefore(nav, cx, cy, r, cx + r + 1, y)
    ensures BlockedBefore(nav, cx, cy, r, cx - r, y + 1)
  {
    hide Free;
  }

  lemma RingPassed(nav: Nav, cx: int, cy: int, r: int)
    requires nav.Valid() && BlockedBefore(nav, cx, cy, r, cx - r, cy + r + 1)
    ensures BlockedBefore(nav, cx, cy, r + 1, cx - r - 1, cy - r - 1)
  {
    hide Free;
  }

  lemma GridExhausted(nav: Nav, cx: int, cy: int)
    requires nav.Valid() && nav.InBounds(cx, cy)
    requires BlockedBefore(nav, cx, cy, nav.cols, cx - nav.cols, cy - nav.cols)
    ensures Nearest(nav, cx, cy, cx, cy)
  {
    forall x, y
      ensures !Free(nav, x, y)
    {
      assert nav.InBounds(x, y) ==> Ring(cx, cy, x, y) < nav.cols;
    }
  }

  method NearestFree(nav: Nav, cx: int, cy: int) returns (fx: int, fy: int)
    requires nav.Valid() && nav.InBounds(cx, cy)
    ensures nav.InBounds(fx, fy) && Nearest(nav, cx, cy, fx, fy)
  {
    if !nav.IsBlocked(cx, cy) {
      return cx, cy;
    }
    FirstRing(nav, cx, cy);
    hide BlockedBefore, Nearest, NoLater;
    var r := 1;
    while r < nav.cols
      invariant 1 <= r <= nav.cols
      invariant BlockedBefore(nav, cx, cy, r, cx - r, cy - r)
    {
      var dy := -r;
      while dy <= r
        invariant -r <= dy <= r + 1
        invariant BlockedBefore(nav, cx, cy, r, cx - r, cy + dy)
      {
        var dx := -r;
        while dx <= r
          invariant -r <= dx <= r + 1
          invariant BlockedBefore(nav, cx, cy, r, cx + dx, cy + dy)
        {
          if !(dx > -r && dx < r && dy > -r && dy < r) {
            if !nav.IsBlocked(cx + dx, cy + dy) {
              FirstMet(nav, cx, cy, r, cx + dx, cy + dy);
              return cx + dx, cy + dy;
            }
          }
          CellPassed(nav, cx, cy, r, cx + dx, cy + dy);
          dx := dx + 1;
        }
        RowPassed(nav, cx, cy, r, cy + dy);
        dy := dy + 1;
      }
      RingPassed(nav, cx, cy, r);
      r := r + 1;
    }
    GridExhausted(nav, cx, cy);
    return cx, cy;
  }

  lemma FirstRing(nav: Nav, cx: int, cy: int)
    requires nav.Valid() && nav.IsBlocked(cx, cy)
    ensures BlockedBefore(nav, cx, cy, 1, cx - 1, cy - 1)
  {
  }

  lemma FirstMet(nav: Nav, cx: int, cy: int, r: int, x: int, y: int)
    requires nav.Valid() && BlockedBefore(nav, cx, cy, r, x, y)
    requires Free(nav, x, y) && Ring(cx, cy, x, y) == r
    ensures Nearest(nav, cx, cy, x, y)
  {
  }

  /** The cell a position is snapped to before the search. */
  ghost predicate Snapped(nav: Nav, x: real, y: real, u: int)
    requires nav.Valid()
  {
    nav.IsCell(u) && Nearest(nav, nav.CellCoord(x), nav.CellCoord(y), nav.Col(u), nav.Row(u))
  }

  // ----- the search

  /** The points that lead along a route: each one before the last lies in the middle of the
      route's next cell, the start's own being left out, and the last one is the target. */
  ghost predicate Guides(nav: Nav, r: seq<int>, target: Point, points: seq<Point>)
    requires nav.cols > 0
  {
    && |points| == (if |r| <= 1 then 1 else |r| - 1)
    && points[|points| - 1] == target
    && forall i :: 0 <= i < |points| - 1 ==> nav.InMiddle(points[i], nav.Col(r[i + 1]), nav.Row(r[i + 1]))
  }

  /** What Path answers for the snapped cells `s` and `t`: nothing when no legal route joins
      them, otherwise points that lead along a cheapest one. */
  ghost predicate Answer(nav: Nav, s: int, t: int, target: Point, path: Option<seq<Point>>)
    requires nav.Valid()
  {
    match path
    case None => forall r :: !Route(nav, s, t, r)
    case Some(points) => exists r :: Shortest(nav, s, t, r) && Guides(nav, r, target, points)
  }

  method Reconstruct(nav: Nav, came: array<int>, goal: int, target: Point,
                     ghost start: int, ghost g: seq<int>) returns (points: seq<Point>)
    requires nav.Valid() && Tree(nav, start, g, came[..]) && Known(g, goal)
    ensures Guided(nav, Chain(nav, start, g, came[..], goal), target, points)
  {
    hide Tree, Chain, Guided;
    ghost var chain := Chain(nav, start, g, came[..], goal);
    var cells := [];
    var cur := goal;
    while cur != -1
      invariant cur == -1 || Known(g, cur)
      invariant cur == -1 ==> Reversed(cells) == chain
      invariant cur != -1 ==> Chain(nav, start, g, came[..], cur) + Reversed(cells) == chain
      decreases if cur == -1 then -1 else g[cur]
    {
      ChainStep(nav, start, g, came[..], cur);
      ReversedAppend(cells, cur);
      cells := cells + [cur];
      cur := came[cur];
    }
    var out := [];
    var i := |cells| - 2;
    while i >= 0
      invariant -1 <= i <= |cells| - 2 || (i == |cells| - 2 == -1)
      invariant |out| == |cells| - 2 - i
      invariant forall k :: 0 <= k < |out| ==> CenterOf(nav, out[k], cells[|cells| - 2 - k])
    {
      var cx, cy := cells[i] % nav.cols, cells[i] / nav.cols;
      out := out + [nav.Center(cx, cy)];
      i := i - 1;
    }
    if |out| > 0 {
      out := out[|out| - 1 := target];
    }
    GuidedBy(nav, chain, target, out);
    return out;
  }

  lemma ChainStep(nav: Nav, start: int, g: seq<int>, came: seq<int>, u: int)
    requires nav.Valid() && Tree(nav, start, g, came) && Known(g, u)
    ensures 0 <= u < |came| == |g| && 0 <= g[u]
    ensures u == start ==> came[u] == -1 && Chain(nav, start, g, came, u) == [u]
    ensures u != start ==>
      && came[u] != -1 && Known(g, came[u]) && 0 <= g[came[u]] < g[u]
      && Chain(nav, start, g, came, u) == Chain(nav, start, g, came, came[u]) + [u]
  {
    assert u != start ==> Hangs(nav, g, came[u], u);
  }

  ghost predicate CenterOf(nav: Nav, p: Point, u: int)
    requires nav.cols > 0
  {
    nav.InMiddle(p, nav.Col(u), nav.Row(u))
  }

  /** What a chain of parents is turned into: nothing for the start alone. */
  ghost predicate Guided(nav: Nav, r: seq<int>, target: Point, points: seq<Point>)
    requires nav.Valid()
  {
    if |r| <= 1 then points == [] else Guides(nav, r, target, points)
  }

  lemma GuidedBy(nav: Nav, r: seq<int>, target: Point, out: seq<Point>)
    requires nav.Valid() && |r| > 0 && |out| == |r| - 1
    requires forall k :: 0 <= k < |out| - 1 ==> CenterOf(nav, out[k], r[k + 1])
    requires |out| > 0 ==> out[|out| - 1] == target
    ensures Guided(nav, r, target, out)
  {
  }

  lemma ReversedAppend(s: seq<int>, x: int)
    ensures Reversed(s + [x]) == [x] + Reversed(s)
  {
  }

  ghost function Reversed(s: seq<int>): (r: seq<int>)
    ensures |r| == |s|
  {
    seq(|s|, i requires 0 <= i < |s| => s[|s| - 1 - i])
  }

  /** The search state while direction `k` of `cur` is about to be tried. */
  ghost predicate Expanding(nav: Nav, start: int, goal: int, g: seq<int>, came: seq<int>, heap: Heap, cur: int, k: int)
    requires nav.Valid() && nav.IsCell(goal) && 0 <= k <= 8
  {
    Tree(nav, start, g, came) && Frontier(nav, goal, g, heap, cur) && Known(g, cur) && AllTried(nav, g, cur, k)
  }

  lemma DirectionSkipped(nav: Nav, start: int, goal: int, g: seq<int>, came: seq<int>, heap: Heap, cur: int, k: int)
    requires nav.Valid() && nav.IsCell(goal) && 0 <= k < 8
    requires Expanding(nav, start, goal, g, came, heap, cur, k)
    requires Open(nav, nav.Col(cur), nav.Row(cur), k) ==>
      nav.IsCell(Neighbour(nav, cur, k)) && g[Neighbour(nav, cur, k)] <= g[cur] + Dir(k).2
    ensures Expanding(nav, start, goal, g, came, heap, cur, k + 1)
  {
    hide Frontier, Open, Neighbour, Dir;
  }

  lemma DirectionTaken(
    nav: Nav, start: int, goal: int, g: seq<int>, came: seq<int>, heap: Heap, cur: int, k: int, v: int, ng: int)
    requires nav.Valid() && nav.IsCell(goal) && 0 <= k < 8 && nav.IsCell(cur)
    requires Expanding(nav, start, goal, g, came, heap, cur, k)
    requires Open(nav, nav.Col(cur), nav.Row(cur), k) && v == Neighbour(nav, cur, k)
    requires Move(nav, cur, v) && ng == g[cur] + Dir(k).2 < g[v]
    ensures var heap' := heap + multiset{(v, ng + H(nav, v, goal))};
      Expanding(nav, start, goal, g[v := ng], came[v := cur], heap', cur, k + 1)
  {
    hide Frontier, Open, Neighbour, Dir, AllTried, H, Move;
    OpenIsMove(nav, cur, k);
    ImprovedTree(nav, start, g, came, cur, v, ng);
    ImprovedFrontier(nav, goal, g, heap, cur, v, ng);
    AllTriedKept(nav, g, cur, k, v, ng);
  }

  lemma AllTriedKept(nav: Nav, g: seq<int>, cur: int, n: int, v: int, ng: int)
    requires nav.Valid() && |g| == nav.cols * nav.cols && nav.IsCell(cur) && nav.IsCell(v) && v != cur
    requires 0 <= n < 8 && v == Neighbour(nav, cur, n)
    requires ng == g[cur] + Dir(n).2 <= g[v]
    requires AllTried(nav, g, cur, n)
    ensures AllTried(nav, g[v := ng], cur, n + 1)
  {
    hide Open, Neighbour, Dir;
    var g' := g[v := ng];
    forall k | 0 <= k < n + 1
      ensures Tried(nav, g', cur, k)
    {
      assert k < n ==> Tried(nav, g, cur, k);
    }
  }

  /** No int32 arithmetic overflows when a neighbour is scored. */
  lemma ExpandingRoom(nav: Nav, start: int, goal: int, g: seq<int>, came: seq<int>, heap: Heap, cur: int, k: int)
    requires nav.Valid() && nav.IsCell(goal) && 0 <= k <= 8
    requires Expanding(nav, start, goal, g, came, heap, cur, k)
    ensures |g| == |came| == nav.cols * nav.cols && nav.IsCell(cur)
    ensures 0 <= g[cur] && g[cur] + 14 + 14 * nav.cols < INF
  {
    hide Frontier, AllTried;
    ScoreRoom(nav, start, g, came, cur);
  }

  /** `Nav.Path`: nil exactly when the snapped cells are not connected by legal moves,
      otherwise the waypoints of a cheapest route. */
  method Path(nav: Nav, sx: real, sy: real, tx: real, ty: real) returns (path: Option<seq<Point>>)
    requires nav.Valid()
    ensures exists s, t :: Snapped(nav, sx, sy, s) && Snapped(nav, tx, ty, t) && Answer(nav, s, t, Point(tx, ty), path)
  {
    var scx, scy := NearestFree(nav, nav.CellCoord(sx), nav.CellCoord(sy));
    var tcx, tcy := NearestFree(nav, nav.CellCoord(tx), nav.CellCoord(ty));
    CellIndex(nav, scx, scy);
    CellIndex(nav, tcx, tcy);
    var start, goal := nav.Idx(scx, scy), nav.Idx(tcx, tcy);
    assert Snapped(nav, sx, sy, start) && Snapped(nav, tx, ty, goal);
    if start == goal {
      StayPut(nav, start, Point(tx, ty));
      path := Some([Point(tx, ty)]);
    } else {
      path := Search(nav, start, goal, Point(tx, ty));
    }
  }

  /** A route from a cell to itself need not move. */
  lemma StayPut(nav: Nav, u: int, target: Point)
    requires nav.Valid()
    ensures Answer(nav, u, u, target, Some([target]))
  {
    hide Move, StepCost;
    assert Cost(nav, [u]) == 0;
    assert Shortest(nav, u, u, [u]) && Guides(nav, [u], target, [target]);
  }

  /** The point a share `t` of the way from `p` to `q`. */
  function Along(p: Point, q: Point, t: real): Point {
    Point(p.x + t * (q.x - p.x), p.y + t * (q.y - p.y))
  }

  /** On a map of obstacles a bot that walks straight from one point of a path to the next
      comes nowhere near one, as long as neither point is the target itself. */
  lemma LegsAreClear(obstacles: seq<Rect>, nav: Nav, r: seq<int>, target: Point, points: seq<Point>, i: nat, t: real)
    requires Built(obstacles, nav) && Walk(nav, r) && Guides(nav, r, target, points)
    requires i < |points| - 2 && 0.0 <= t <= 1.0
    ensures var p := Along(points[i], points[i + 1], t); forall o :: o in obstacles ==> !Near(o, p.x, p.y)
  {
    hide *;
    BuiltIsValid(obstacles, nav);
    LegOf(nav, r, target, points, i);
    var (p, q) := (points[i], points[i + 1]);
    var (u, v) := (r[i + 1], r[i + 2]);
    MoveIsFree(nav, r[i], u);
    MoveIsFree(nav, u, v);
    LegIsClear(obstacles, nav, p, u, q, v, t);
  }

  lemma BuiltIsValid(obstacles: seq<Rect>, nav: Nav)
    requires Built(obstacles, nav)
    ensures nav.Valid()
  {
  }

  lemma LegOf(nav: Nav, r: seq<int>, target: Point, points: seq<Point>, i: nat)
    requires nav.Valid() && nav.cols > 0 && Walk(nav, r) && Guides(nav, r, target, points) && i < |points| - 2
    ensures |r| > i + 2 && Move(nav, r[i], r[i + 1]) && Move(nav, r[i + 1], r[i + 2])
    ensures CenterOf(nav, points[i], r[i + 1]) && CenterOf(nav, points[i + 1], r[i + 2])
  {
    hide Move, Nav.InMiddle, Nav.Col, Nav.Row;
    var (k, n) := (i + 1, i + 2);
    assert Move(nav, r[k - 1], r[k]) && Move(nav, r[n - 1], r[n]);
  }

  lemma MoveIsFree(nav: Nav, u: int, v: int)
    requires nav.Valid() && Move(nav, u, v)
    ensures nav.InBounds(nav.Col(v), nav.Row(v)) && !nav.IsBlocked(nav.Col(v), nav.Row(v))
    ensures Abs(nav.Col(v) - nav.Col(u)) <= 1 && Abs(nav.Row(v) - nav.Row(u)) <= 1
  {
    CellSplit(nav, v);
  }

  lemma LegIsClear(obstacles: seq<Rect>, nav: Nav, p: Point, u: int, q: Point, v: int, t: real)
    requires Built(obstacles, nav) && 0.0 <= t <= 1.0
    requires nav.InBounds(nav.Col(u), nav.Row(u)) && !nav.IsBlocked(nav.Col(u), nav.Row(u)) && CenterOf(nav, p, u)
    requires nav.InBounds(nav.Col(v), nav.Row(v)) && !nav.IsBlocked(nav.Col(v), nav.Row(v)) && CenterOf(nav, q, v)
    requires Abs(nav.Col(v) - nav.Col(u)) <= 1 && Abs(nav.Row(v) - nav.Row(u)) <= 1
    ensures var a := Along(p, q, t); forall o :: o in obstacles ==> !Near(o, a.x, a.y)
  {
    hide Near, Along, Touches, Abs;
    var (px, py, qx, qy) := (nav.Col(u), nav.Row(u), nav.Col(v), nav.Row(v));
    var a := Along(p, q, t);
    if t <= 0.5 {
      Halfway(nav, p, px, py, q, qx, qy, t);
    } else {
      AbsBack(px, qx);
      AbsBack(py, qy);
      Halfway(nav, q, qx, qy, p, px, py, 1.0 - t);
      AlongBack(p, q, t);
    }
    forall o | o in obstacles
      ensures !Near(o, a.x, a.y)
    {
      if t <= 0.5 {
        NearIsBlocked(obstacles, nav, o, px, py, a);
      } else {
        NearIsBlocked(obstacles, nav, o, qx, qy, a);
      }
    }
  }

  lemma AbsBack(a: int, b: int)
    ensures Abs(a - b) == Abs(b - a)
  {
  }

  lemma AlongBack(p: Point, q: Point, t: real)
    ensures Along(q, p, 1.0 - t) == Along(p, q, t)
  {
    Back(p.x, q.x, t);
    Back(p.y, q.y, t);
  }

  lemma Back(p: real, q: real, t: real)
    ensures q + (1.0 - t) * (p - q) == p + t * (q - p)
  {
  }

  predicate Touches(cx: int, cy: int, p: Point) {
    cx as real * 128.0 <= p.x <= (cx + 1) as real * 128.0 && cy as real * 128.0 <= p.y <= (cy + 1) as real * 128.0
  }

  /** Up to half way to the middle of a neighbour one is still in one's own cell. */
  lemma Halfway(nav: Nav, p: Point, px: int, py: int, q: Point, qx: int, qy: int, t: real)
    requires nav.cell == 128.0 && 0.0 <= t <= 0.5 && nav.InMiddle(p, px, py) && nav.InMiddle(q, qx, qy)
    requires Abs(qx - px) <= 1 && Abs(qy - py) <= 1
    ensures Touches(px, py, Along(p, q, t))
  {
    assert p.x == px as real * 128.0 + 64.0 && q.x == qx as real * 128.0 + 64.0;
    assert p.y == py as real * 128.0 + 64.0 && q.y == qy as real * 128.0 + 64.0;
    Share(t, q.x - p.x);
    Share(t, q.y - p.y);
  }

  lemma Share(t: real, d: real)
    requires 0.0 <= t <= 0.5 && -128.0 <= d <= 128.0
    ensures -64.0 <= t * d <= 64.0
  {
    NotNegative(0.5 - t, 128.0 - d);
    NotNegative(0.5 - t, 128.0 + d);
    NotNegative(t, 128.0 - d);
    NotNegative(t, 128.0 + d);
  }

  lemma NotNegative(a: real, b: real)
    requires a >= 0.0 && b >= 0.0
    ensures a * b >= 0.0
  {
  }

  lemma NearIsBlocked(obstacles: seq<Rect>, nav: Nav, o: Rect, cx: int, cy: int, p: Point)
    requires Built(obstacles, nav) && o in obstacles && nav.InBounds(cx, cy) && !nav.IsBlocked(cx, cy)
    requires Touches(cx, cy, p)
    ensures !Near(o, p.x, p.y)
  {
    assert !Overlaps(o, cx, cy);
  }

  /** Where the loop can end: at an empty heap. */
  lemma NothingLeft(nav: Nav, start: int, goal: int, target: Point, g: seq<int>, came: seq<int>,
                    cells: seq<int>, fs: seq<int>)
    requires nav.Valid() && nav.IsCell(goal) && start != goal && |cells| == |fs| == 0
    requires Tree(nav, start, g, came) && Frontier(nav, goal, g, multiset(Zip(cells, fs)), -1)
    ensures Answer(nav, start, goal, target, None)
  {
    hide Tree, Frontier, Route;
    assert Zip(cells, fs) == [];
    forall r
      ensures !Route(nav, start, goal, r)
    {
      EmptyHeapMeansNoRoute(nav, start, goal, g, came, r);
    }
  }

  /** Or with the goal on top of the heap. */
  lemma Arrived(nav: Nav, start: int, goal: int, target: Point, g: seq<int>, came: seq<int>, heap: Heap, f: int)
    requires nav.Valid() && Tree(nav, start, g, came) && nav.IsCell(goal) && start != goal
    requires Frontier(nav, goal, g, heap, -1)
    requires (goal, f) in heap && forall e :: e in heap ==> f <= e.1
    ensures Known(g, goal)
    ensures forall points :: Guided(nav, Chain(nav, start, g, came, goal), target, points) ==>
      Answer(nav, start, goal, target, Some(points))
  {
    hide Tree, Frontier, Chain, Guides;
    ChainIsShortest(nav, start, goal, g, came, heap, f);
  }

  /** The popped cell is not the goal: its neighbours are tried. */
  method ExpandPopped(nav: Nav, gScore: array<Int32>, came: array<int>, h: CellHeap, cur: int,
                      ghost start: int, goal: int, ghost before: Heap, ghost f: int)
    requires gScore.Length == came.Length == nav.cols * nav.cols
    requires nav.Valid() && nav.IsCell(goal) && cur != goal && h.Valid()
    requires Tree(nav, start, gScore[..], came[..]) && Frontier(nav, goal, gScore[..], before, -1)
    requires h.Entries() + multiset{(cur, f)} == before
    modifies gScore, came, h
    ensures h.Valid() && Tree(nav, start, gScore[..], came[..]) && Frontier(nav, goal, gScore[..], h.Entries(), -1)
    ensures Total(gScore[..]) < old(Total(gScore[..]))
         || (Total(gScore[..]) == old(Total(gScore[..])) && |h.cells| == old(|h.cells|))
    ensures Total(gScore[..]) >= 0
  {
    hide Tree, Frontier, Total, Zip;
    Popped(nav, goal, gScore[..], before, h.Entries(), cur, f);
    Expand(nav, gScore, came, h, cur, start, goal);
  }

  /** The search loop of `Nav.Path`, from one cell index to another. */
  method Search(nav: Nav, start: int, goal: int, target: Point) returns (path: Option<seq<Point>>)
    requires nav.Valid() && nav.IsCell(start) && nav.IsCell(goal) && start != goal
    ensures Answer(nav, start, goal, target, path)
  {
    hide Tree, Frontier, Chain, Guided, Heuristic, Total, Zip, Answer, Known;
    var nCells := nav.cols * nav.cols;
    var gScore := new Int32[nCells](_ => INF);
    var came := new int[nCells](_ => -1);
    gScore[start] := 0;
    var h := new CellHeap();
    h.Push(start, Heuristic(start % nav.cols, start / nav.cols, goal % nav.cols, goal / nav.cols));
    Started(nav, start, goal, gScore[..], came[..], h.Entries());
    while |h.cells| > 0
      invariant h.Valid()
      invariant Tree(nav, start, gScore[..], came[..]) && Frontier(nav, goal, gScore[..], h.Entries(), -1)
      decreases Total(gScore[..]), |h.cells|
    {
      ghost var before, f := h.Entries(), h.fs[0];
      var cur := h.Pop();
      assert (cur, f) in before;
      if cur == goal {
        Arrived(nav, start, goal, target, gScore[..], came[..], before, f);
        var points := Reconstruct(nav, came, goal, target, start, gScore[..]);
        return Some(points);
      }
      ExpandPopped(nav, gScore, came, h, cur, start, goal, before, f);
    }
    NothingLeft(nav, start, goal, target, gScore[..], came[..], h.cells, h.fs);
    return None;
  }

  /** The inner loop of `Nav.Path`: try the eight directions out of `cur`. */
  method Expand(nav: Nav, gScore: array<Int32>, came: array<int>, h: CellHeap, cur: int, ghost start: int, goal: int)
    requires gScore.Length == came.Length == nav.cols * nav.cols
    requires nav.Valid() && nav.IsCell(goal) && nav.IsCell(cur) && cur != goal && h.Valid()
    requires Expanding(nav, start, goal, gScore[..], came[..], h.Entries(), cur, 0)
    modifies gScore, came, h
    ensures h.Valid() && Tree(nav, start, gScore[..], came[..]) && Frontier(nav, goal, gScore[..], h.Entries(), -1)
    ensures Total(gScore[..]) < old(Total(gScore[..]))
         || (Total(gScore[..]) == old(Total(gScore[..])) && |h.cells| == old(|h.cells|))
    ensures Total(gScore[..]) >= 0
  {
    hide Tree, Frontier, Expanding, Heuristic, Open, Dir, Move;
    ExpandingRoom(nav, start, goal, gScore[..], came[..], h.Entries(), cur, 0);
    var cx, cy := cur % nav.cols, cur / nav.cols;
    for k := 0 to 8
      invariant h.Valid()
      invariant Expanding(nav, start, goal, gScore[..], came[..], h.Entries(), cur, k)
      invariant Total(gScore[..]) < old(Total(gScore[..]))
             || (Total(gScore[..]) == old(Total(gScore[..])) && |h.cells| == old(|h.cells|))
    {
      ExpandingRoom(nav, start, goal, gScore[..], came[..], h.Entries(), cur, k);
      if !Open(nav, cx, cy, k) {
        DirectionSkipped(nav, start, goal, gScore[..], came[..], h.Entries(), cur, k);
        continue;
      }
      var (nx, ny) := (cx + Dir(k).0, cy + Dir(k).1);
      OpenIsMove(nav, cur, k);
      var ni := nav.Idx(nx, ny);
      MoveStaysOnGrid(nav, cur, ni);
      HeuristicBounds(nav, ni, goal);
      var ng: Int32 := gScore[cur] + Dir(k).2;
      if ng < gScore[ni] {
        DirectionTaken(nav, start, goal, gScore[..], came[..], h.Entries(), cur, k, ni, ng);
        TotalUpdate(gScore[..], ni, ng);
        ghost var (g, c) := (gScore[..], came[..]);
        gScore[ni] := ng;
        came[ni] := cur;
        assert gScore[..] == g[ni := ng] && came[..] == c[ni := cur];
        var f: Int32 := ng + Heuristic(nx, ny, goal % nav.cols, goal / nav.cols);
        h.Push(ni, f);
      } else {
        DirectionSkipped(nav, start, goal, gScore[..], came[..], h.Entries(), cur, k);
      }
    }
    ExpandedAll(nav, start, goal, gScore[..], came[..], h.Entries(), cur);
  }

  lemma MoveStaysOnGrid(nav: Nav, u: int, v: int)
    requires nav.Valid() && Move(nav, u, v)
    ensures nav.IsCell(u) && nav.IsCell(v) && u != v
  {
  }

  lemma ExpandedAll(nav: Nav, start: int, goal: int, g: seq<int>, came: seq<int>, heap: Heap, cur: int)
    requires nav.Valid() && nav.IsCell(goal) && cur != goal
    requires Expanding(nav, start, goal, g, came, heap, cur, 8)
    ensures Tree(nav, start, g, came) && Frontier(nav, goal, g, heap, -1) && Total(g) >= 0
  {
    Expanded(nav, goal, g, heap, cur);
    TotalNonNegative(g);
  }
}
