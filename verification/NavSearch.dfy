/** What the A* search of internal/bot/ai.go keeps true between heap operations,
    and why that makes the first popped goal optimal and an empty heap a proof
    that no route exists. There is no closed set and the heap may hold stale
    entries, so the invariant speaks of relaxed cells and of live entries. */
module NavSearch {
  import opened NavGrid
  import CellHeap

  type Heap = multiset<CellHeap.Entry>

  const INF := MAX_INT32

  ghost predicate Known(g: seq<int>, u: int) {
    0 <= u < |g| && g[u] < INF
  }

  ghost function KnownCells(g: seq<int>): set<int> {
    set u | 0 <= u < |g| && g[u] < INF
  }

  /** Each known cell but the start hangs below a known parent, at least one step
      dearer, and no score exceeds 14 per known cell. */
  ghost predicate Tree(nav: Nav, start: int, g: seq<int>, came: seq<int>)
    requires nav.Valid()
  {
    && |g| == |came| == nav.cols * nav.cols
    && nav.IsCell(start) && g[start] == 0 && came[start] == -1
    && (forall u :: 0 <= u < |g| ==> 0 <= g[u] <= INF)
    && (forall u :: Known(g, u) ==> g[u] <= 14 * (|KnownCells(g)| - 1))
    && (forall u :: Known(g, u) && u != start ==> Hangs(nav, g, came[u], u))
  }

  ghost predicate Hangs(nav: Nav, g: seq<int>, p: int, u: int)
    requires nav.Valid() && 0 <= u < |g|
  {
    Known(g, p) && Move(nav, p, u) && g[p] + StepCost(nav, p, u) <= g[u]
  }

  /** No move out of `u` would improve a score. */
  ghost predicate Relaxed(nav: Nav, g: seq<int>, u: int)
    requires nav.Valid() && |g| == nav.cols * nav.cols && 0 <= u < |g|
  {
    forall v :: Move(nav, u, v) ==> g[v] <= g[u] + StepCost(nav, u, v)
  }

  ghost predicate Live(nav: Nav, goal: int, g: seq<int>, heap: Heap, u: int)
    requires nav.Valid() && 0 <= u < |g|
  {
    (u, g[u] + H(nav, u, goal)) in heap
  }

  /** Entries never promise less than the score they stand for. */
  ghost predicate EntriesSound(nav: Nav, goal: int, g: seq<int>, heap: Heap)
    requires nav.Valid()
  {
    forall e :: e in heap ==> Known(g, e.0) && g[e.0] + H(nav, e.0, goal) <= e.1
  }

  /** Every known cell other than `exempt` has a live heap entry or is relaxed. */
  ghost predicate Covered(nav: Nav, goal: int, g: seq<int>, heap: Heap, exempt: int)
    requires nav.Valid() && |g| == nav.cols * nav.cols
  {
    forall u :: Known(g, u) && u != exempt ==> Live(nav, goal, g, heap, u) || Relaxed(nav, g, u)
  }

  /** A known goal is still in the heap. */
  ghost predicate GoalWaits(nav: Nav, goal: int, g: seq<int>, heap: Heap)
    requires nav.Valid() && 0 <= goal < |g|
  {
    Known(g, goal) ==> Live(nav, goal, g, heap, goal)
  }

  ghost predicate Frontier(nav: Nav, goal: int, g: seq<int>, heap: Heap, exempt: int)
    requires nav.Valid() && |g| == nav.cols * nav.cols && nav.IsCell(goal)
  {
    && EntriesSound(nav, goal, g, heap)
    && Covered(nav, goal, g, heap, exempt)
    && GoalWaits(nav, goal, g, heap)
  }

  lemma {:induction false} BoundedSet(s: set<int>, n: nat)
    requires forall u :: u in s ==> 0 <= u < n
    ensures |s| <= n
  {
    if n > 0 {
      BoundedSet(s - {n - 1}, n - 1);
    } else {
      forall u | u in s
        ensures false
      {
      }
      assert s == {};
    }
  }

  /** A known score is far enough below INF that one step more still fits. */
  lemma ScoreRoom(nav: Nav, start: int, g: seq<int>, came: seq<int>, u: int)
    requires nav.Valid() && Tree(nav, start, g, came) && Known(g, u)
    ensures 0 <= g[u] && g[u] + 14 + 14 * nav.cols < INF
  {
    BoundedSet(KnownCells(g), nav.cols * nav.cols);
  }

  lemma Started(nav: Nav, start: int, goal: int, g: seq<int>, came: seq<int>, heap: Heap)
    requires nav.Valid() && nav.IsCell(start) && nav.IsCell(goal)
    requires |g| == |came| == nav.cols * nav.cols
    requires forall u :: 0 <= u < |g| ==> came[u] == -1 && g[u] == if u == start then 0 else INF
    requires heap == multiset{(start, H(nav, start, goal))}
    ensures Tree(nav, start, g, came) && Frontier(nav, goal, g, heap, -1)
  {
    assert KnownCells(g) == {start};
  }

  /** Taking the entry of `cur` off the heap only exempts `cur`. */
  lemma Popped(nav: Nav, goal: int, g: seq<int>, before: Heap, after: Heap, cur: int, f: int)
    requires nav.Valid() && |g| == nav.cols * nav.cols && nav.IsCell(goal)
    requires Frontier(nav, goal, g, before, -1) && after + multiset{(cur, f)} == before && cur != goal
    ensures Known(g, cur) && Frontier(nav, goal, g, after, cur)
  {
    assert (cur, f) in before;
    forall u | Known(g, u) && u != cur && Live(nav, goal, g, before, u)
      ensures Live(nav, goal, g, after, u)
    {
      var e := (u, g[u] + H(nav, u, goal));
      assert before[e] == after[e];
    }
  }

  lemma ImprovedTree(nav: Nav, start: int, g: seq<int>, came: seq<int>, cur: int, v: int, ng: int)
    requires nav.Valid() && Tree(nav, start, g, came) && Known(g, cur) && Move(nav, cur, v)
    requires ng == g[cur] + StepCost(nav, cur, v) < g[v]
    ensures Tree(nav, start, g[v := ng], came[v := cur])
    ensures v != start
  {
    var (g', came') := (g[v := ng], came[v := cur]);
    assert KnownCells(g') == KnownCells(g) + {v};
    assert cur in KnownCells(g);
    forall u | Known(g', u) && u != start
      ensures Hangs(nav, g', came'[u], u)
    {
      if u != v {
        assert Hangs(nav, g, came[u], u);
      }
    }
  }

  lemma RelaxedKept(nav: Nav, g: seq<int>, u: int, v: int, ng: int)
    requires nav.Valid() && |g| == nav.cols * nav.cols && 0 <= u < |g| && 0 <= v < |g|
    requires u != v && ng <= g[v] && Relaxed(nav, g, u)
    ensures Relaxed(nav, g[v := ng], u)
  {
    forall w | Move(nav, u, w)
      ensures g[v := ng][w] <= g[v := ng][u] + StepCost(nav, u, w)
    {
      assert g[w] <= g[u] + StepCost(nav, u, w);
    }
  }

  lemma StillCovered(nav: Nav, goal: int, g: seq<int>, heap: Heap, u: int, v: int, ng: int)
    requires nav.Valid() && |g| == nav.cols * nav.cols && 0 <= u < |g| && 0 <= v < |g|
    requires Live(nav, goal, g, heap, u) || Relaxed(nav, g, u)
    requires u != v && ng <= g[v]
    ensures var (g', heap') := (g[v := ng], heap + multiset{(v, ng + H(nav, v, goal))});
      Live(nav, goal, g', heap', u) || Relaxed(nav, g', u)
  {
    if !Live(nav, goal, g, heap, u) {
      RelaxedKept(nav, g, u, v, ng);
    }
  }

  lemma ImprovedFrontier(nav: Nav, goal: int, g: seq<int>, heap: Heap, cur: int, v: int, ng: int)
    requires nav.Valid() && |g| == nav.cols * nav.cols && nav.IsCell(goal) && nav.IsCell(v)
    requires Frontier(nav, goal, g, heap, cur) && 0 <= ng < g[v] <= INF && v != cur
    ensures Frontier(nav, goal, g[v := ng], heap + multiset{(v, ng + H(nav, v, goal))}, cur)
  {
    ImprovedEntries(nav, goal, g, heap, v, ng);
    ImprovedCovered(nav, goal, g, heap, cur, v, ng);
    ImprovedGoal(nav, goal, g, heap, v, ng);
  }

  lemma ImprovedCovered(nav: Nav, goal: int, g: seq<int>, heap: Heap, cur: int, v: int, ng: int)
    requires nav.Valid() && |g| == nav.cols * nav.cols && nav.IsCell(v)
    requires Covered(nav, goal, g, heap, cur) && 0 <= ng < g[v] <= INF
    ensures Covered(nav, goal, g[v := ng], heap + multiset{(v, ng + H(nav, v, goal))}, cur)
  {
    var g' := g[v := ng];
    var heap' := heap + multiset{(v, ng + H(nav, v, goal))};
    assert Live(nav, goal, g', heap', v);
    forall u | Known(g', u) && u != cur
      ensures Live(nav, goal, g', heap', u) || Relaxed(nav, g', u)
    {
      if u != v {
        assert Known(g, u);
        StillCovered(nav, goal, g, heap, u, v, ng);
      }
    }
  }

  lemma ImprovedGoal(nav: Nav, goal: int, g: seq<int>, heap: Heap, v: int, ng: int)
    requires nav.Valid() && 0 <= goal < |g| && 0 <= v < |g|
    requires GoalWaits(nav, goal, g, heap) && 0 <= ng < g[v] <= INF
    ensures GoalWaits(nav, goal, g[v := ng], heap + multiset{(v, ng + H(nav, v, goal))})
  {
  }

  lemma ImprovedEntries(nav: Nav, goal: int, g: seq<int>, heap: Heap, v: int, ng: int)
    requires nav.Valid() && 0 <= v < |g|
    requires EntriesSound(nav, goal, g, heap) && 0 <= ng < g[v] <= INF
    ensures EntriesSound(nav, goal, g[v := ng], heap + multiset{(v, ng + H(nav, v, goal))})
  {
  }

  /** Once all eight directions were tried, the popped cell is relaxed too. */
  lemma Expanded(nav: Nav, goal: int, g: seq<int>, heap: Heap, cur: int)
    requires nav.Valid() && |g| == nav.cols * nav.cols && nav.IsCell(goal) && Known(g, cur) && cur != goal
    requires Frontier(nav, goal, g, heap, cur)
    requires AllTried(nav, g, cur, 8)
    ensures Frontier(nav, goal, g, heap, -1)
  {
    forall v | Move(nav, cur, v)
      ensures g[v] <= g[cur] + StepCost(nav, cur, v)
    {
      var k := MoveIsOpen(nav, cur, v);
      OpenIsMove(nav, cur, k);
      assert Tried(nav, g, cur, k);
    }
    assert Relaxed(nav, g, cur);
  }

  ghost predicate Tried(nav: Nav, g: seq<int>, cur: int, k: int)
    requires nav.Valid() && |g| == nav.cols * nav.cols && 0 <= cur < |g| && 0 <= k < 8
  {
    Open(nav, nav.Col(cur), nav.Row(cur), k) ==>
      var v := Neighbour(nav, cur, k);
      0 <= v < |g| && g[v] <= g[cur] + Dir(k).2
  }

  ghost predicate AllTried(nav: Nav, g: seq<int>, cur: int, n: int)
    requires nav.Valid() && |g| == nav.cols * nav.cols && 0 <= cur < |g| && 0 <= n <= 8
  {
    forall k :: 0 <= k < n ==> Tried(nav, g, cur, k)
  }

  ghost predicate Promises(heap: Heap, bound: int) {
    exists e :: e in heap && e.1 <= bound
  }

  /** From a known cell reached at cost `c`, a move either stays within its cost or a
      live entry still promises `c` plus the estimate. */
  lemma MoveCovered(nav: Nav, start: int, goal: int, g: seq<int>, came: seq<int>, heap: Heap, u: int, v: int, c: int)
    requires nav.Valid() && Tree(nav, start, g, came) && nav.IsCell(goal)
    requires Covered(nav, goal, g, heap, -1)
    requires Known(g, u) && g[u] <= c && Move(nav, u, v)
    ensures (Known(g, v) && g[v] <= c + StepCost(nav, u, v)) || Promises(heap, c + H(nav, u, goal))
  {
    if Live(nav, goal, g, heap, u) {
      assert (u, g[u] + H(nav, u, goal)) in heap;
    } else {
      assert Relaxed(nav, g, u);
      ScoreRoom(nav, start, g, came, u);
    }
  }

  /** Along any route, either the score at its end is no more than its cost, or some
      heap entry promises no more than the whole route. */
  lemma {:induction false} RouteCovered(
    nav: Nav, start: int, goal: int, g: seq<int>, came: seq<int>, heap: Heap, r: seq<int>, i: nat)
    requires nav.Valid() && Tree(nav, start, g, came) && nav.IsCell(goal)
    requires Covered(nav, goal, g, heap, -1)
    requires Route(nav, start, goal, r) && i < |r|
    ensures (Known(g, r[i]) && g[r[i]] <= Cost(nav, r[..i + 1])) || Promises(heap, Cost(nav, r))
  {
    if i > 0 {
      RouteCovered(nav, start, goal, g, came, heap, r, i - 1);
      var p := r[..i + 1];
      assert p[..i] == r[..i] && Move(nav, r[i - 1], r[i]);
      assert Cost(nav, p) == Cost(nav, r[..i]) + StepCost(nav, r[i - 1], r[i]);
      if !Promises(heap, Cost(nav, r)) {
        MoveCovered(nav, start, goal, g, came, heap, r[i - 1], r[i], Cost(nav, r[..i]));
        PrefixEstimate(nav, r, i - 1, goal);
        HeuristicBounds(nav, goal, goal);
      }
    }
  }

  /** Optimality: when the goal is popped, its score is at most the cost of any route. */
  lemma PoppedGoalIsOptimal(
    nav: Nav, start: int, goal: int, g: seq<int>, came: seq<int>, heap: Heap, f: int, r: seq<int>)
    requires nav.Valid() && Tree(nav, start, g, came) && nav.IsCell(goal)
    requires Frontier(nav, goal, g, heap, -1)
    requires (goal, f) in heap && forall e :: e in heap ==> f <= e.1
    requires Route(nav, start, goal, r)
    ensures g[goal] <= Cost(nav, r)
  {
    RouteCovered(nav, start, goal, g, came, heap, r, |r| - 1);
    assert r[..|r| - 1 + 1] == r;
    HeuristicBounds(nav, goal, goal);
  }

  /** Completeness: an empty heap leaves no route. */
  lemma EmptyHeapMeansNoRoute(nav: Nav, start: int, goal: int, g: seq<int>, came: seq<int>, r: seq<int>)
    requires nav.Valid() && Tree(nav, start, g, came) && nav.IsCell(goal)
    requires Frontier(nav, goal, g, multiset{}, -1)
    ensures !Route(nav, start, goal, r)
  {
    if Route(nav, start, goal, r) {
      RouteCovered(nav, start, goal, g, came, multiset{}, r, |r| - 1);
    }
  }

  // ----- the came-chain

  /** The chain of parents from `u` back to the start, reversed. */
  ghost function Chain(nav: Nav, start: int, g: seq<int>, came: seq<int>, u: int): (r: seq<int>)
    requires nav.Valid() && Tree(nav, start, g, came) && Known(g, u)
    ensures |r| > 0 && r[|r| - 1] == u
    decreases g[u]
  {
    if u == start then [u]
    else
      assert Hangs(nav, g, came[u], u);
      Chain(nav, start, g, came, came[u]) + [u]
  }

  lemma {:induction false} ChainIsRoute(nav: Nav, start: int, g: seq<int>, came: seq<int>, u: int)
    requires nav.Valid() && Tree(nav, start, g, came) && Known(g, u)
    ensures Route(nav, start, u, Chain(nav, start, g, came, u))
    ensures Cost(nav, Chain(nav, start, g, came, u)) <= g[u]
    decreases g[u]
  {
    if u != start {
      assert Hangs(nav, g, came[u], u);
      ChainIsRoute(nav, start, g, came, came[u]);
      var q := Chain(nav, start, g, came, came[u]);
      var r := q + [u];
      assert r[..|r| - 1] == q;
      forall i | 0 < i < |r|
        ensures Move(nav, r[i - 1], r[i])
      {
        assert i < |q| ==> Move(nav, q[i - 1], q[i]);
      }
    }
  }

  lemma ChainIsShortest(nav: Nav, start: int, goal: int, g: seq<int>, came: seq<int>, heap: Heap, f: int)
    requires nav.Valid() && Tree(nav, start, g, came) && nav.IsCell(goal)
    requires Frontier(nav, goal, g, heap, -1)
    requires (goal, f) in heap && forall e :: e in heap ==> f <= e.1
    ensures Known(g, goal) && Shortest(nav, start, goal, Chain(nav, start, g, came, goal))
  {
    ChainIsRoute(nav, start, g, came, goal);
    forall q | Route(nav, start, goal, q)
      ensures Cost(nav, Chain(nav, start, g, came, goal)) <= Cost(nav, q)
    {
      PoppedGoalIsOptimal(nav, start, goal, g, came, heap, f, q);
    }
  }

  // ----- termination

  ghost function Total(g: seq<int>): int {
    if |g| == 0 then 0 else Total(g[..|g| - 1]) + g[|g| - 1]
  }

  lemma {:induction false} TotalUpdate(g: seq<int>, i: nat, x: int)
    requires i < |g|
    ensures Total(g[i := x]) == Total(g) - g[i] + x
  {
    var n := |g| - 1;
    if i < n {
      TotalUpdate(g[..n], i, x);
      assert g[i := x][..n] == g[..n][i := x];
    } else {
      assert g[i := x][..n] == g[..n];
    }
  }

  lemma {:induction false} TotalNonNegative(g: seq<int>)
    requires forall i :: 0 <= i < |g| ==> 0 <= g[i]
    ensures Total(g) >= 0
  {
    if |g| > 0 {
      TotalNonNegative(g[..|g| - 1]);
    }
  }
}
