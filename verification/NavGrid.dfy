/** The navigation grid of internal/bot/ai.go: blocked cells, legal moves without
    corner cutting, routes and their 10/14 cost, the octile heuristic, and the
    search for the nearest free cell. */
module NavGrid {
  import opened Division
  import opened Reals

  const MAX_INT32 := 0x7fff_ffff

  type Int32 = x: int | -0x8000_0000 <= x <= MAX_INT32

  datatype Point = Point(x: real, y: real)

  /** A read-only grid of cols x cols cells, built once and shared by all bots. */
  datatype Nav = Nav(cols: nat, cell: real, blocked: seq<bool>) {
    /** The bound keeps every score inside int32; NewNav builds 32 columns. */
    ghost predicate Valid() {
      && 0 < cols
      && cell > 0.0
      && |blocked| == cols * cols
      && 14 * (cols * cols) + 28 * cols <= MAX_INT32
    }

    ghost predicate IsCell(u: int) {
      0 <= u < cols * cols
    }

    predicate InBounds(cx: int, cy: int) {
      cx >= 0 && cy >= 0 && cx < cols && cy < cols
    }

    function Idx(cx: int, cy: int): int {
      cy * cols + cx
    }

    function Col(u: int): int
      requires cols > 0
    {
      u % cols
    }

    function Row(u: int): int
      requires cols > 0
    {
      u / cols
    }

    predicate IsBlocked(cx: int, cy: int)
      requires Valid()
    {
      if InBounds(cx, cy) then
        CellIndex(this, cx, cy);
        blocked[Idx(cx, cy)]
      else true
    }

    function Center(cx: int, cy: int): (p: Point)
      ensures cell > 0.0 ==> InMiddle(p, cx, cy)
    {
      Point((cx as real + 0.5) * cell, (cy as real + 0.5) * cell)
    }

    /** Is `p` inside the square of the cell (cx, cy), as far from one side as from the other? */
    ghost predicate InMiddle(p: Point, cx: int, cy: int) {
      && cx as real * cell < p.x < (cx + 1) as real * cell
      && cy as real * cell < p.y < (cy + 1) as real * cell
      && p.x - cx as real * cell == (cx + 1) as real * cell - p.x
      && p.y - cy as real * cell == (cy + 1) as real * cell - p.y
    }

    /** A coordinate truncated to a column or row and clamped into the grid. */
    function CellCoord(v: real): (c: int)
      requires Valid()
      ensures 0 <= c < cols
      ensures 0.0 <= v < cols as real * cell ==> c as real * cell <= v < (c + 1) as real * cell
      ensures v < 0.0 ==> c == 0
      ensures v >= cols as real * cell ==> c == cols - 1
    {
      QuotBounds(v, cell, cols);
      var c := Truncate(v / cell);
      if c < 0 then 0 else if c >= cols then cols - 1 else c
    }
  }

  function Abs(v: int): int {
    if v < 0 then -v else v
  }

  /** The quotient of a position by the cell size, compared with whole numbers. */
  lemma QuotBounds(v: real, cell: real, cols: nat)
    requires cell > 0.0
    ensures var q := v / cell;
      && (q < 0.0 <==> v < 0.0) && (q < cols as real <==> v < cols as real * cell)
      && q.Floor as real * cell <= v < (q.Floor + 1) as real * cell
  {
    var q := v / cell;
    assert q * cell == v;
    Below(q, 0.0, cell);
    Below(q, cols as real, cell);
    Between(q, q.Floor, cell, v);
  }

  lemma Between(q: real, n: int, cell: real, v: real)
    requires cell > 0.0 && n as real <= q < (n + 1) as real && v == q * cell
    ensures n as real * cell <= v < (n + 1) as real * cell
  {
    Below(q, n as real, cell);
    Below(q, (n + 1) as real, cell);
  }

  lemma Below(a: real, b: real, cell: real)
    requires cell > 0.0
    ensures a < b <==> a * cell < b * cell
  {
    if a < b {
      assert (b - a) * cell > 0.0;
    } else {
      assert (a - b) * cell >= 0.0;
    }
  }

  lemma CellIndex(nav: Nav, cx: int, cy: int)
    requires nav.cols > 0 && nav.InBounds(cx, cy)
    ensures nav.IsCell(nav.Idx(cx, cy))
    ensures nav.Col(nav.Idx(cx, cy)) == cx && nav.Row(nav.Idx(cx, cy)) == cy
  {
    var n := nav.cols;
    assert 0 <= cy * n <= (n - 1) * n;
    DivModUnique(n, cy, cx);
  }

  lemma CellSplit(nav: Nav, u: int)
    requires nav.cols > 0 && nav.IsCell(u)
    ensures nav.InBounds(nav.Col(u), nav.Row(u)) && nav.Idx(nav.Col(u), nav.Row(u)) == u
  {
    var n := nav.cols;
    assert u == (u / n) * n + u % n;
    RowsApart(n, n - 1, u / n);
  }

  // ----- moves, routes, cost

  /** A move to one of the eight neighbours: onto a free cell, and diagonally only
      past two free cells. */
  ghost predicate Move(nav: Nav, u: int, v: int)
    requires nav.Valid()
  {
    && nav.IsCell(u) && nav.IsCell(v) && u != v
    && var (ux, uy, vx, vy) := (nav.Col(u), nav.Row(u), nav.Col(v), nav.Row(v));
    && Abs(vx - ux) <= 1 && Abs(vy - uy) <= 1
    && !nav.IsBlocked(vx, vy)
    && (vx != ux && vy != uy ==> !nav.IsBlocked(vx, uy) && !nav.IsBlocked(ux, vy))
  }

  ghost function StepCost(nav: Nav, u: int, v: int): (c: int)
    requires nav.cols > 0
    ensures c == 10 || c == 14
  {
    if nav.Col(u) != nav.Col(v) && nav.Row(u) != nav.Row(v) then 14 else 10
  }

  ghost predicate Walk(nav: Nav, r: seq<int>)
    requires nav.Valid()
  {
    forall i :: 0 < i < |r| ==> Move(nav, r[i - 1], r[i])
  }

  /** A legal route: it starts at `s`, ends at `t`, and every step is a move. */
  ghost predicate Route(nav: Nav, s: int, t: int, r: seq<int>)
    requires nav.Valid()
  {
    |r| > 0 && r[0] == s && r[|r| - 1] == t && Walk(nav, r)
  }

  ghost function Cost(nav: Nav, r: seq<int>): (c: int)
    requires nav.cols > 0
    ensures c >= 0
  {
    if |r| <= 1 then 0
    else Cost(nav, r[..|r| - 1]) + StepCost(nav, r[|r| - 2], r[|r| - 1])
  }

  ghost predicate Shortest(nav: Nav, s: int, t: int, r: seq<int>)
    requires nav.Valid()
  {
    Route(nav, s, t, r) && forall q :: Route(nav, s, t, q) ==> Cost(nav, r) <= Cost(nav, q)
  }

  // ----- the octile heuristic

  function Heuristic(cx: int, cy: int, tx: int, ty: int): (h: int)
  {
    var (dx, dy) := (Abs(cx - tx), Abs(cy - ty));
    if dx > dy then 14 * dy + 10 * (dx - dy) else 14 * dx + 10 * (dy - dx)
  }

  ghost function H(nav: Nav, u: int, t: int): int
    requires nav.cols > 0
  {
    Heuristic(nav.Col(u), nav.Row(u), nav.Col(t), nav.Row(t))
  }

  lemma HeuristicBounds(nav: Nav, u: int, t: int)
    requires nav.cols > 0 && nav.IsCell(u) && nav.IsCell(t)
    ensures 0 <= H(nav, u, t) <= 14 * nav.cols
    ensures H(nav, t, t) == 0
  {
    CellSplit(nav, u);
    CellSplit(nav, t);
  }

  /** Consistency: one move never lowers the estimate by more than it costs. */
  lemma HeuristicConsistent(nav: Nav, u: int, v: int, t: int)
    requires nav.Valid() && Move(nav, u, v)
    ensures H(nav, u, t) <= StepCost(nav, u, v) + H(nav, v, t)
  {
    CellSplit(nav, u);
    CellSplit(nav, v);
    HeuristicStep(nav.Col(u), nav.Row(u), nav.Col(v), nav.Row(v), nav.Col(t), nav.Row(t));
  }

  lemma HeuristicStep(ux: int, uy: int, vx: int, vy: int, tx: int, ty: int)
    requires Abs(vx - ux) <= 1 && Abs(vy - uy) <= 1 && (ux, uy) != (vx, vy)
    ensures Heuristic(ux, uy, tx, ty)
      <= (if ux != vx && uy != vy then 14 else 10) + Heuristic(vx, vy, tx, ty)
  {
  }

  /** Admissibility along a walk: the cost of a prefix plus the estimate at its end
      never exceeds what a longer prefix reaches. */
  lemma {:induction false} PrefixEstimate(nav: Nav, r: seq<int>, i: nat, t: int)
    requires nav.Valid() && Walk(nav, r) && i < |r|
    ensures Cost(nav, r[..i + 1]) + H(nav, r[i], t) <= Cost(nav, r) + H(nav, r[|r| - 1], t)
  {
    hide Move, StepCost, H;
    if i == |r| - 1 {
      assert r[..i + 1] == r;
    } else {
      var q := r[..|r| - 1];
      PrefixEstimate(nav, q, i, t);
      assert q[..i + 1] == r[..i + 1];
      assert Move(nav, r[|r| - 2], r[|r| - 1]);
      HeuristicConsistent(nav, r[|r| - 2], r[|r| - 1], t);
    }
  }

  ghost predicate AllFree(nav: Nav)
    requires nav.Valid()
  {
    forall x, y :: nav.InBounds(x, y) ==> !nav.IsBlocked(x, y)
  }

  function Toward(from: int, to: int): int {
    if from < to then from + 1 else if from > to then from - 1 else from
  }

  /** Where nothing is in the way the estimate is what a cheapest route costs. */
  lemma {:induction false} EstimateIsExact(nav: Nav, u: int, t: int) returns (r: seq<int>)
    requires nav.Valid() && AllFree(nav) && nav.IsCell(u) && nav.IsCell(t)
    ensures Shortest(nav, u, t, r) && Cost(nav, r) == H(nav, u, t)
    decreases H(nav, u, t)
  {
    HeuristicBounds(nav, u, t);
    CellSplit(nav, u);
    CellSplit(nav, t);
    if u == t {
      r := [u];
      HeuristicBounds(nav, t, t);
    } else {
      var (tx, ty) := (Toward(nav.Col(t), nav.Col(u)), Toward(nav.Row(t), nav.Row(u)));
      var v := nav.Idx(tx, ty);
      CellIndex(nav, tx, ty);
      StepBack(nav, u, v, t);
      hide Move, H, StepCost, AllFree, Nav.Col, Nav.Row, Nav.Idx;
      var front := EstimateIsExact(nav, u, v);
      r := front + [t];
      RouteGrows(nav, front, u, v, t);
    }
    NeverCheaper(nav, r, u, t);
  }

  /** One step from `t` back towards `u` takes off the estimate what the step costs. */
  lemma StepBack(nav: Nav, u: int, v: int, t: int)
    requires nav.Valid() && AllFree(nav) && nav.IsCell(u) && nav.IsCell(t) && nav.IsCell(v) && u != t
    requires nav.Col(v) == Toward(nav.Col(t), nav.Col(u)) && nav.Row(v) == Toward(nav.Row(t), nav.Row(u))
    ensures Move(nav, v, t) && H(nav, u, v) + StepCost(nav, v, t) == H(nav, u, t)
  {
    CellSplit(nav, u);
    CellSplit(nav, v);
    CellSplit(nav, t);
    BackTowards(nav.Col(u), nav.Row(u), nav.Col(t), nav.Row(t));
    hide Heuristic;
  }

  lemma BackTowards(ux: int, uy: int, tx: int, ty: int)
    requires ux != tx || uy != ty
    ensures var (vx, vy) := (Toward(tx, ux), Toward(ty, uy));
      Heuristic(ux, uy, vx, vy) + (if vx != tx && vy != ty then 14 else 10) == Heuristic(ux, uy, tx, ty)
  {
  }

  lemma RouteGrows(nav: Nav, front: seq<int>, u: int, v: int, t: int)
    requires nav.Valid() && Route(nav, u, v, front) && Move(nav, v, t)
    ensures Route(nav, u, t, front + [t]) && Cost(nav, front + [t]) == Cost(nav, front) + StepCost(nav, v, t)
  {
    hide Move, StepCost;
    assert (front + [t])[..|front|] == front;
  }

  lemma NeverCheaper(nav: Nav, r: seq<int>, u: int, t: int)
    requires nav.Valid() && nav.IsCell(u) && nav.IsCell(t) && Route(nav, u, t, r) && Cost(nav, r) == H(nav, u, t)
    ensures Shortest(nav, u, t, r)
  {
    hide Move, StepCost, H;
    forall q | Route(nav, u, t, q)
      ensures Cost(nav, r) <= Cost(nav, q)
    {
      PrefixEstimate(nav, q, 0, t);
      HeuristicBounds(nav, t, t);
      assert q[..1] == [u];
    }
  }

  // ----- the eight directions the search tries

  function Dir(k: int): (int, int, int)
    requires 0 <= k < 8
  {
    if k == 0 then (1, 0, 10)
    else if k == 1 then (-1, 0, 10)
    else if k == 2 then (0, 1, 10)
    else if k == 3 then (0, -1, 10)
    else if k == 4 then (1, 1, 14)
    else if k == 5 then (1, -1, 14)
    else if k == 6 then (-1, 1, 14)
    else (-1, -1, 14)
  }

  /** The cell one direction away from `u`, as an index. */
  function Neighbour(nav: Nav, u: int, k: int): int
    requires nav.cols > 0 && 0 <= k < 8
  {
    nav.Idx(nav.Col(u) + Dir(k).0, nav.Row(u) + Dir(k).1)
  }

  /** The tests the search makes before it takes direction `k` from (cx, cy). */
  predicate Open(nav: Nav, cx: int, cy: int, k: int)
    requires nav.Valid() && 0 <= k < 8
  {
    var d := Dir(k);
    && !nav.IsBlocked(cx + d.0, cy + d.1)
    && !(d.0 != 0 && d.1 != 0 && (nav.IsBlocked(cx + d.0, cy) || nav.IsBlocked(cx, cy + d.1)))
  }

  lemma OpenIsMove(nav: Nav, u: int, k: int)
    requires nav.Valid() && nav.IsCell(u) && 0 <= k < 8 && Open(nav, nav.Col(u), nav.Row(u), k)
    ensures var v := Neighbour(nav, u, k);
      && Move(nav, u, v) && StepCost(nav, u, v) == Dir(k).2
      && nav.Col(v) == nav.Col(u) + Dir(k).0 && nav.Row(v) == nav.Row(u) + Dir(k).1
  {
    CellSplit(nav, u);
    CellIndex(nav, nav.Col(u) + Dir(k).0, nav.Row(u) + Dir(k).1);
  }

  lemma MoveIsOpen(nav: Nav, u: int, v: int) returns (k: int)
    requires nav.Valid() && Move(nav, u, v)
    ensures 0 <= k < 8 && Open(nav, nav.Col(u), nav.Row(u), k)
    ensures v == Neighbour(nav, u, k)
  {
    CellSplit(nav, u);
    CellSplit(nav, v);
    var (dx, dy) := (nav.Col(v) - nav.Col(u), nav.Row(v) - nav.Row(u));
    k := if dy == 0 then (if dx == 1 then 0 else 1)
         else if dx == 0 then (if dy == 1 then 2 else 3)
         else if dx == 1 then (if dy == 1 then 4 else 5)
         else (if dy == 1 then 6 else 7);
    assert Dir(k).0 == dx && Dir(k).1 == dy;
  }
}
