/** Broad-phase collision, internal/game/combat.go and grid.go: a grid of the players'
    rewind windows, and why the victim it finds is the one a linear scan finds. */
module HitGrid {
  import opened Wrappers
  import opened Reals
  import opened Segments
  import opened Arena

  const CELL_SIZE := 256
  const COLS := 16
  const NUM_CELLS := 256
  const HIT_RADIUS := 20.0

  // ----- cells

  function CellCoord(v: real): (c: int)
    ensures 0 <= c < COLS
  {
    var n := Truncate(v);
    var c := if n >= 0 then n / CELL_SIZE else -((-n) / CELL_SIZE);
    if c < 0 then 0 else if c >= COLS then COLS - 1 else c
  }

  lemma CellCoordMonotone(a: real, b: real)
    requires a <= b
    ensures CellCoord(a) <= CellCoord(b)
  {
  }

  datatype Range = Range(minX: real, minY: real, maxX: real, maxY: real)

  predicate Spans(b: Range, cx: int, cy: int) {
    CellCoord(b.minX) <= cx <= CellCoord(b.maxX) && CellCoord(b.minY) <= cy <= CellCoord(b.maxY)
  }

  ghost predicate Contains(b: Range, p: Pos) {
    b.minX <= p.x <= b.maxX && b.minY <= p.y <= b.maxY
  }

  // ----- the window of positions a player can be rewound to

  function Widen(b: Range, p: Pos): Range {
    Range(Min(b.minX, p.x), Min(b.minY, p.y), Max(b.maxX, p.x), Max(b.maxY, p.y))
  }

  function Window(p: Player, tick: nat, n: nat): Range {
    if n == 0 then Range(p.move.x, p.move.y, p.move.x, p.move.y)
    else Widen(Window(p, tick, n - 1), p.posHist[HistSlot(tick - n)])
  }

  method RewindAABB(p: Player, tick: nat) returns (b: Range)
    ensures b == Window(p, tick, MAX_REWIND)
  {
    b := Range(p.move.x, p.move.y, p.move.x, p.move.y);
    for r := 1 to MAX_REWIND + 1
      invariant b == Window(p, tick, r - 1)
    {
      b := Widen(b, p.posHist[HistSlot(tick - r)]);
    }
  }

  lemma {:induction false} WindowCovers(p: Player, tick: nat, n: nat, rewind: int)
    requires 0 <= rewind <= n
    ensures Contains(Window(p, tick, n), TargetPos(p, tick, rewind))
  {
    if n > 0 && rewind < n {
      WindowCovers(p, tick, n - 1, rewind);
    }
  }

  // ----- the grid

  /** Does the rewind window of player `id` span cell `k`? */
  ghost predicate Occupies(w: State, id: nat, k: int)
    requires id in w.players
  {
    Spans(Window(w.players[id], w.tick, MAX_REWIND), k % COLS, k / COLS)
  }

  /** An id is filed in a cell exactly when it is a living player of `ids` whose window
      spans the cell. */
  ghost predicate Filed(cells: seq<seq<nat>>, w: State, ids: seq<nat>)
    requires |cells| == NUM_CELLS
  {
    forall k, id :: 0 <= k < NUM_CELLS ==>
      (id in cells[k] <==> id in ids && Living(w, id) && Occupies(w, id, k))
  }

  ghost predicate Living(w: State, id: nat) {
    id in w.players && !w.players[id].dead
  }

  class HitGrid {
    const cells: array<seq<nat>>

    constructor ()
      ensures cells.Length == NUM_CELLS && fresh(cells)
    {
      cells := new seq<nat>[NUM_CELLS](_ => []);
    }

    method Build(w: State)
      requires cells.Length == NUM_CELLS && forall id :: id in w.order ==> id in w.players
      modifies cells
      ensures Filed(cells[..], w, w.order)
    {
      hide Window, Spans, Occupies, Inserted;
      for i := 0 to cells.Length
        invariant forall k :: 0 <= k < i ==> cells[k] == []
      {
        cells[i] := [];
      }
      for i := 0 to |w.order|
        invariant Filed(cells[..], w, w.order[..i])
      {
        var id := w.order[i];
        assert w.order[..i + 1] == w.order[..i] + [id];
        if w.players[id].dead {
          continue;
        }
        ghost var before := cells[..];
        var b := RewindAABB(w.players[id], w.tick);
        Insert(id, b);
        FiledAfterInsert(before, cells[..], w, w.order[..i], id, b);
      }
      assert w.order[..|w.order|] == w.order;
    }

    /** The inner loops of `build`: file `id` in every cell its window spans. */
    method Insert(id: nat, b: Range)
      requires cells.Length == NUM_CELLS
      modifies cells
      ensures Inserted(old(cells[..]), cells[..], id, b, CellCoord(b.maxY) + 1)
    {
      var x0, x1, y0, y1 := CellCoord(b.minX), CellCoord(b.maxX), CellCoord(b.minY), CellCoord(b.maxY);
      hide CellCoord;
      ghost var before := cells[..];
      var cy := y0;
      while cy <= y1
        invariant y0 <= cy && cy <= (if y0 <= y1 then y1 + 1 else y0)
        invariant Inserted(before, cells[..], id, b, cy)
      {
        var row := cy * COLS;
        var cx := x0;
        while cx <= x1
          invariant x0 <= cx && cx <= (if x0 <= x1 then x1 + 1 else x0)
          invariant forall k :: 0 <= k < NUM_CELLS ==>
            cells[k] == if Spans(b, k % COLS, k / COLS) && (k / COLS < cy || (k / COLS == cy && k % COLS < cx))
                        then before[k] + [id] else before[k]
        {
          cells[row + cx] := cells[row + cx] + [id];
          cx := cx + 1;
        }
        cy := cy + 1;
      }
    }

    /** `query`: everything filed in the cells the box touches. */
    method Query(b: Range) returns (dst: seq<nat>)
      requires cells.Length == NUM_CELLS
      ensures forall id :: id in dst <==> Met(cells[..], b, id, CellCoord(b.minX), CellCoord(b.maxY) + 1)
    {
      var x0, x1, y0, y1 := CellCoord(b.minX), CellCoord(b.maxX), CellCoord(b.minY), CellCoord(b.maxY);
      dst := [];
      var cy := y0;
      NothingMet(cells[..], b);
      hide Spans, Met;
      while cy <= y1
        invariant y0 <= cy <= Later(y0, y1)
        invariant forall id :: id in dst <==> Met(cells[..], b, id, x0, cy)
      {
        var row := cy * COLS;
        var cx := x0;
        while cx <= x1
          invariant x0 <= cx <= Later(x0, x1)
          invariant forall id :: id in dst <==> Met(cells[..], b, id, cx, cy)
        {
          MetStep(cells[..], b, cx, cy);
          dst := dst + cells[row + cx];
          cx := cx + 1;
        }
        RowMet(cells[..], b, cx, cy);
        cy := cy + 1;
      }
      AllMet(cells[..], b, cy);
    }
  }

  function Later(a: int, b: int): int {
    if a <= b then b + 1 else a
  }

  /** `id` is filed in a cell of the box that comes before column `cx` of row `cy`. */
  ghost predicate Met(cells: seq<seq<nat>>, b: Range, id: nat, cx: int, cy: int)
    requires |cells| == NUM_CELLS
  {
    exists k :: 0 <= k < NUM_CELLS && Spans(b, k % COLS, k / COLS) && k < cy * COLS + cx && id in cells[k]
  }

  lemma NothingMet(cells: seq<seq<nat>>, b: Range)
    requires |cells| == NUM_CELLS
    ensures forall id :: !Met(cells, b, id, CellCoord(b.minX), CellCoord(b.minY))
  {
    hide CellCoord;
  }

  lemma MetStep(cells: seq<seq<nat>>, b: Range, cx: int, cy: int)
    requires |cells| == NUM_CELLS
    requires CellCoord(b.minX) <= cx <= CellCoord(b.maxX) && CellCoord(b.minY) <= cy <= CellCoord(b.maxY)
    ensures forall id :: Met(cells, b, id, cx + 1, cy) <==> Met(cells, b, id, cx, cy) || id in cells[cy * COLS + cx]
  {
    hide CellCoord;
    var k := cy * COLS + cx;
    assert k % COLS == cx && k / COLS == cy;
    forall id
      ensures Met(cells, b, id, cx + 1, cy) <==> Met(cells, b, id, cx, cy) || id in cells[k]
    {
      if id in cells[k] {
        assert Spans(b, k % COLS, k / COLS);
      }
    }
  }

  lemma RowMet(cells: seq<seq<nat>>, b: Range, cx: int, cy: int)
    requires |cells| == NUM_CELLS && CellCoord(b.maxX) < cx && CellCoord(b.minX) <= cx <= COLS
    ensures forall id :: Met(cells, b, id, CellCoord(b.minX), cy + 1) <==> Met(cells, b, id, cx, cy)
  {
    var x0 := CellCoord(b.minX);
    hide CellCoord;
    forall id
      ensures Met(cells, b, id, x0, cy + 1) <==> Met(cells, b, id, cx, cy)
    {
      if Met(cells, b, id, x0, cy + 1) {
        var k :| 0 <= k < NUM_CELLS && Spans(b, k % COLS, k / COLS) && k < (cy + 1) * COLS + x0 && id in cells[k];
        assert k < cy * COLS + cx;
      }
      if Met(cells, b, id, cx, cy) {
        var k :| 0 <= k < NUM_CELLS && Spans(b, k % COLS, k / COLS) && k < cy * COLS + cx && id in cells[k];
        assert k < (cy + 1) * COLS + x0;
      }
    }
  }

  lemma AllMet(cells: seq<seq<nat>>, b: Range, cy: int)
    requires |cells| == NUM_CELLS
    requires CellCoord(b.maxY) < cy && CellCoord(b.minY) <= cy <= Later(CellCoord(b.minY), CellCoord(b.maxY))
    ensures forall id ::
      Met(cells, b, id, CellCoord(b.minX), cy) <==> Met(cells, b, id, CellCoord(b.minX), CellCoord(b.maxY) + 1)
  {
    var (x0, y0, y1) := (CellCoord(b.minX), CellCoord(b.minY), CellCoord(b.maxY));
    hide CellCoord;
    if y0 > y1 {
      assert forall k :: 0 <= k < NUM_CELLS ==> !Spans(b, k % COLS, k / COLS);
    }
  }

  lemma MetCell(cells: seq<seq<nat>>, b: Range, id: nat, cx: int, cy: int)
    requires |cells| == NUM_CELLS && 0 <= cx < COLS && 0 <= cy < COLS && Spans(b, cx, cy) && id in cells[cy * COLS + cx]
    ensures Met(cells, b, id, CellCoord(b.minX), CellCoord(b.maxY) + 1)
  {
    hide CellCoord;
    var k := cy * COLS + cx;
    assert k % COLS == cx && k / COLS == cy;
  }

  /** The rows above `bound` are done: the id was added exactly where the range spans. */
  ghost predicate Inserted(before: seq<seq<nat>>, after: seq<seq<nat>>, id: nat, b: Range, bound: int) {
    && |before| == |after| == NUM_CELLS
    && forall k :: 0 <= k < NUM_CELLS ==>
      after[k] == if Spans(b, k % COLS, k / COLS) && k / COLS < bound then before[k] + [id] else before[k]
  }

  lemma FiledAfterInsert(before: seq<seq<nat>>, after: seq<seq<nat>>, w: State, ids: seq<nat>, id: nat, b: Range)
    requires |before| == |after| == NUM_CELLS && Filed(before, w, ids)
    requires Living(w, id) && b == Window(w.players[id], w.tick, MAX_REWIND)
    requires Inserted(before, after, id, b, CellCoord(b.maxY) + 1)
    ensures Filed(after, w, ids + [id])
  {
    forall k | 0 <= k < NUM_CELLS
      ensures after[k] == if Occupies(w, id, k) then before[k] + [id] else before[k]
    {
      InsertedCell(before, after, id, b, k);
    }
    hide Inserted, Occupies, Living;
    forall k, x | 0 <= k < NUM_CELLS
      ensures x in after[k] <==> x in ids + [id] && Living(w, x) && Occupies(w, x, k)
    {
      assert x in before[k] <==> x in ids && Living(w, x) && Occupies(w, x, k);
    }
  }

  lemma InsertedCell(before: seq<seq<nat>>, after: seq<seq<nat>>, id: nat, b: Range, k: nat)
    requires k < NUM_CELLS && Inserted(before, after, id, b, CellCoord(b.maxY) + 1)
    ensures after[k] == if Spans(b, k % COLS, k / COLS) then before[k] + [id] else before[k]
  {
    hide CellCoord;
  }

  // ----- who is hit

  /** May this projectile hit this player at all? Not its owner, the dead, the shielded
      or, in team mode, an ally. */
  predicate Eligible(w: State, pr: Projectile, id: nat) {
    && id != pr.owner && id in w.players
    && var p := w.players[id];
    !p.dead && !Invulnerable(p, w.tick) && !(w.modes.team && p.team == pr.team)
  }

  predicate Struck(w: State, pr: Projectile, ex: real, ey: real, id: nat) {
    && Eligible(w, pr, id)
    && var t := TargetPos(w.players[id], w.tick, pr.rewind);
    SegmentCircleHit(pr.x, pr.y, ex, ey, t.x, t.y, HIT_RADIUS)
  }

  /** The linear scan: the first player of `ids` the projectile strikes. */
  function LinearHit(w: State, pr: Projectile, ex: real, ey: real, ids: seq<nat>): Option<nat> {
    if ids == [] then None
    else if Struck(w, pr, ex, ey, ids[0]) then Some(ids[0])
    else LinearHit(w, pr, ex, ey, ids[1..])
  }

  /** The grid knows at least every living player of the world, under its whole window,
      and no id that is not a player. */
  ghost predicate Covers(cells: seq<seq<nat>>, w: State) {
    && |cells| == NUM_CELLS
    && forall k, id :: 0 <= k < NUM_CELLS ==>
      && (id in w.order && Living(w, id) && Occupies(w, id, k) ==> id in cells[k])
      && (id in cells[k] ==> id in w.order)
  }

  lemma FiledCovers(cells: seq<seq<nat>>, w: State)
    requires |cells| == NUM_CELLS && Filed(cells, w, w.order)
    ensures Covers(cells, w)
  {
    hide Occupies, Living;
  }

  /** Between the build and a later query of the same tick, players may only have died. */
  ghost predicate OnlyDeaths(w0: State, w: State) {
    && w.order == w0.order && w.tick == w0.tick
    && forall id :: Living(w, id) ==>
      Living(w0, id) && w.players[id].move.x == w0.players[id].move.x && w.players[id].move.y == w0.players[id].move.y
      && w.players[id].posHist == w0.players[id].posHist
  }

  lemma CoversAfterDeaths(cells: seq<seq<nat>>, w0: State, w: State)
    requires Covers(cells, w0) && OnlyDeaths(w0, w)
    ensures Covers(cells, w)
  {
    forall k, id | 0 <= k < NUM_CELLS && Living(w, id)
      ensures Living(w0, id) && Occupies(w, id, k) == Occupies(w0, id, k)
    {
      SameWindow(w0.players[id], w.players[id], w.tick, MAX_REWIND);
    }
    hide Occupies, Living;
  }

  lemma {:induction false} SameWindow(p: Player, q: Player, tick: nat, n: nat)
    requires p.move.x == q.move.x && p.move.y == q.move.y && p.posHist == q.posHist
    ensures Window(p, tick, n) == Window(q, tick, n)
  {
    if n > 0 {
      SameWindow(p, q, tick, n - 1);
    }
  }

  /** The box a projectile's segment is looked up with. */
  function SegmentBox(pr: Projectile, nx: real, ny: real): Range {
    Range(Min(pr.x, nx) - HIT_RADIUS, Min(pr.y, ny) - HIT_RADIUS,
          Max(pr.x, nx) + HIT_RADIUS, Max(pr.y, ny) + HIT_RADIUS)
  }

  /** Whoever is struck is among the candidates. */
  lemma StruckIsCandidate(cells: seq<seq<nat>>, w: State, pr: Projectile, nx: real, ny: real, id: nat)
    requires Covers(cells, w) && 0 <= pr.rewind <= MAX_REWIND && id in w.order && Struck(w, pr, nx, ny, id)
    ensures var b := SegmentBox(pr, nx, ny); Met(cells, b, id, CellCoord(b.minX), CellCoord(b.maxY) + 1)
  {
    hide SegmentCircleHit, Window;
    var b := SegmentBox(pr, nx, ny);
    var t := TargetPos(w.players[id], w.tick, pr.rewind);
    var win := Window(w.players[id], w.tick, MAX_REWIND);
    HitIsNearby(pr.x, pr.y, nx, ny, t.x, t.y, HIT_RADIUS);
    WindowCovers(w.players[id], w.tick, MAX_REWIND, pr.rewind);
    CellCoordMonotone(win.minX, t.x);
    CellCoordMonotone(t.x, win.maxX);
    CellCoordMonotone(win.minY, t.y);
    CellCoordMonotone(t.y, win.maxY);
    CellCoordMonotone(b.minX, t.x);
    CellCoordMonotone(t.x, b.maxX);
    CellCoordMonotone(b.minY, t.y);
    CellCoordMonotone(t.y, b.maxY);
    var (cx, cy) := (CellCoord(t.x), CellCoord(t.y));
    var k := cy * COLS + cx;
    assert k % COLS == cx && k / COLS == cy;
    hide CellCoord;
    assert Occupies(w, id, k);
    MetCell(cells, b, id, cx, cy);
  }

  ghost predicate AscendingIds(ids: seq<nat>) {
    forall i, j :: 0 <= i < j < |ids| ==> ids[i] < ids[j]
  }

  /** The least struck id of an ascending order is the one a linear scan meets first. */
  lemma {:induction false} LeastIsFirst(w: State, pr: Projectile, ex: real, ey: real, ids: seq<nat>, best: Option<nat>)
    requires AscendingIds(ids)
    requires best.Some? ==> best.value in ids && Struck(w, pr, ex, ey, best.value)
    requires forall id :: id in ids && Struck(w, pr, ex, ey, id) ==> best.Some? && best.value <= id
    ensures LinearHit(w, pr, ex, ey, ids) == best
    decreases |ids|
  {
    hide Struck;
    if ids != [] {
      assert ids == [ids[0]] + ids[1..];
      if !Struck(w, pr, ex, ey, ids[0]) {
        LeastIsFirst(w, pr, ex, ey, ids[1..], best);
      }
    }
  }

  /** The tests on one candidate that is not the owner: alive, vulnerable, no team-mate,
      and in the way. */
  method Strikes(w: State, pr: Projectile, nx: real, ny: real, id: nat) returns (hit: bool)
    requires id in w.players && id != pr.owner
    ensures hit <==> Struck(w, pr, nx, ny, id)
  {
    StruckMeans(w, pr, nx, ny, id);
    hide SegmentCircleHit, TargetPos, Invulnerable, Struck;
    var tgt := w.players[id];
    if tgt.dead || Invulnerable(tgt, w.tick) {
      return false;
    }
    if w.modes.team && tgt.team == pr.team {
      return false;
    }
    var t := TargetPos(tgt, w.tick, pr.rewind);
    hit := SegmentCircleHit(pr.x, pr.y, nx, ny, t.x, t.y, HIT_RADIUS);
  }

  lemma OwnerIsSafe(w: State, pr: Projectile, nx: real, ny: real)
    ensures !Struck(w, pr, nx, ny, pr.owner)
  {
  }

  /** `best` is the least of `cand` that is struck. */
  ghost predicate LeastStruck(w: State, pr: Projectile, nx: real, ny: real, cand: seq<nat>, best: Option<nat>) {
    && (best.Some? ==> best.value in cand && Struck(w, pr, nx, ny, best.value))
    && forall id :: id in cand && Struck(w, pr, nx, ny, id) ==> best.Some? && best.value <= id
  }

  lemma OneMoreCandidate(w: State, pr: Projectile, nx: real, ny: real, cand: seq<nat>, best: Option<nat>, id: nat)
    requires LeastStruck(w, pr, nx, ny, cand, best)
    ensures LeastStruck(w, pr, nx, ny, cand + [id],
                        if Struck(w, pr, nx, ny, id) && (best.None? || id < best.value) then Some(id) else best)
  {
    hide Struck;
    assert forall x :: x in cand + [id] <==> x in cand || x == id;
  }

  /** `findHit`: over candidates in no particular order and with repetitions, the victim
      is exactly the one the linear scan of `order` picks. */
  method FindHit(grid: HitGrid, w: State, pr: Projectile, nx: real, ny: real) returns (best: Option<nat>)
    requires grid.cells.Length == NUM_CELLS && Covers(grid.cells[..], w)
    requires AscendingIds(w.order) && 0 <= pr.rewind <= MAX_REWIND
    requires forall id :: id in w.order ==> id in w.players
    ensures best == LinearHit(w, pr, nx, ny, w.order)
  {
    var b := SegmentBox(pr, nx, ny);
    var cand := grid.Query(b);
    CandidatesAreRight(grid.cells[..], w, pr, nx, ny, cand);
    OwnerIsSafe(w, pr, nx, ny);
    hide Covers, Met, SegmentBox, Struck;
    best := None;
    for i := 0 to |cand|
      invariant LeastStruck(w, pr, nx, ny, cand[..i], best)
    {
      var id := cand[i];
      OneMoreCandidate(w, pr, nx, ny, cand[..i], best, id);
      assert cand[..i] + [id] == cand[..i + 1];
      if id == pr.owner {
        continue;
      }
      if best.Some? && id >= best.value {
        continue;
      }
      var hit := Strikes(w, pr, nx, ny, id);
      if hit {
        best := Some(id);
      }
    }
    assert cand[..|cand|] == cand;
    LeastIsFirst(w, pr, nx, ny, w.order, best);
  }

  lemma StruckMeans(w: State, pr: Projectile, nx: real, ny: real, id: nat)
    requires id in w.players
    ensures var p := w.players[id];
      Struck(w, pr, nx, ny, id) <==>
        && id != pr.owner && !p.dead && !Invulnerable(p, w.tick) && !(w.modes.team && p.team == pr.team)
        && var t := TargetPos(p, w.tick, pr.rewind); SegmentCircleHit(pr.x, pr.y, nx, ny, t.x, t.y, HIT_RADIUS)
  {
    hide SegmentCircleHit, TargetPos;
  }

  /** The candidates are players, and everyone struck is among them. */
  lemma CandidatesAreRight(cells: seq<seq<nat>>, w: State, pr: Projectile, nx: real, ny: real, cand: seq<nat>)
    requires Covers(cells, w) && 0 <= pr.rewind <= MAX_REWIND
    requires var b := SegmentBox(pr, nx, ny);
      forall id :: id in cand <==> Met(cells, b, id, CellCoord(b.minX), CellCoord(b.maxY) + 1)
    ensures forall id :: id in cand ==> id in w.order
    ensures forall id :: id in w.order && Struck(w, pr, nx, ny, id) ==> id in cand
  {
    hide Struck, SegmentBox, CellCoord, Occupies, Spans;
    forall id | id in w.order && Struck(w, pr, nx, ny, id)
      ensures id in cand
    {
      StruckIsCandidate(cells, w, pr, nx, ny, id);
    }
  }
}
