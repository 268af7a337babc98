/** Entity ids, `allocID` of internal/game/world.go: 16-bit ids scanned forward from the
    last one handed out, skipping zero and whatever is in use. */
module Ids {
  import opened Wrappers
  import opened Arena

  predicate ProjectileHas(w: State, id: nat) {
    exists i :: 0 <= i < |w.projectiles| && w.projectiles[i].id == id
  }

  predicate Taken(w: State, id: nat) {
    id in w.players || ProjectileHas(w, id)
  }

  /** The uint16 increment of `nextID`, with zero skipped. */
  function Following(id: nat): nat {
    var n := (id + 1) % 0x1_0000;
    if n == 0 then 1 else n
  }

  /** `tries` turns of the scan: the id found, if any, and the cursor afterwards. */
  function Scan(w: State, cursor: nat, tries: nat): (Option<nat>, nat)
    decreases tries
  {
    if tries == 0 then (None, cursor)
    else if cursor != 0 && !Taken(w, cursor) then (Some(cursor), Following(cursor))
    else Scan(w, Following(cursor), tries - 1)
  }

  function Alloc(w: State): (Option<nat>, nat) {
    Scan(w, w.nextID, MAX_ID)
  }

  /** The id the scan looks at on its k-th turn when it starts at `from`. */
  function Visited(from: nat, k: nat): nat
    requires 1 <= from <= MAX_ID
  {
    (from - 1 + k) % MAX_ID + 1
  }

  ghost predicate TakenUpTo(w: State, from: nat, n: nat)
    requires 1 <= from <= MAX_ID
  {
    forall k :: 0 <= k < n ==> Taken(w, Visited(from, k))
  }

  lemma VisitedStep(from: nat, k: nat)
    requires 1 <= from <= MAX_ID
    ensures 1 <= Visited(from, k) <= MAX_ID
    ensures Following(Visited(from, k)) == Visited(from, k + 1)
    ensures Visited(from, 0) == from && Visited(from, MAX_ID) == from
  {
  }

  lemma VisitedReaches(from: nat, id: nat)
    requires 1 <= from <= MAX_ID && 1 <= id <= MAX_ID
    ensures exists k :: 0 <= k < MAX_ID && Visited(from, k) == id
  {
    var k := if id >= from then id - from else id + MAX_ID - from;
    assert Visited(from, k) == id;
  }

  lemma {:induction false} ScanFrom(w: State, from: nat, k: nat, tries: nat)
    requires 1 <= from <= MAX_ID && TakenUpTo(w, from, k)
    ensures var (r, cursor) := Scan(w, Visited(from, k), tries);
      match r
      case None => TakenUpTo(w, from, k + tries) && cursor == Visited(from, k + tries)
      case Some(id) =>
        exists j :: k <= j < k + tries && id == Visited(from, j) && TakenUpTo(w, from, j)
                    && !Taken(w, id) && cursor == Visited(from, j + 1)
    decreases tries
  {
    hide Taken, Following, Visited;
    VisitedStep(from, k);
    if tries > 0 && Taken(w, Visited(from, k)) {
      ScanFrom(w, from, k + 1, tries - 1);
    }
  }

  /** `allocID` fails exactly when all 65535 ids are in use, and then leaves the cursor
      where it was; otherwise it takes the first free id after the cursor. */
  lemma AllocIsExact(w: State)
    requires 1 <= w.nextID <= MAX_ID
    ensures var (r, cursor) := Alloc(w);
      && 1 <= cursor <= MAX_ID
      && (r.None? <==> forall id :: 1 <= id <= MAX_ID ==> Taken(w, id))
      && (r.None? ==> cursor == w.nextID)
      && (r.Some? ==> 1 <= r.value <= MAX_ID && !Taken(w, r.value) && cursor == Following(r.value))
      && (r.Some? ==> exists j :: 0 <= j < MAX_ID && r.value == Visited(w.nextID, j) && TakenUpTo(w, w.nextID, j))
  {
    hide Taken, Scan, Visited, Following;
    var (from, r) := (w.nextID, Alloc(w).0);
    VisitedStep(from, 0);
    ScanFrom(w, from, 0, MAX_ID);
    if r.None? {
      forall id | 1 <= id <= MAX_ID
        ensures Taken(w, id)
      {
        VisitedReaches(from, id);
      }
    } else {
      var j :| 0 <= j < MAX_ID && r.value == Visited(from, j) && TakenUpTo(w, from, j)
               && !Taken(w, r.value) && Alloc(w).1 == Visited(from, j + 1);
      VisitedStep(from, j);
      VisitedStep(from, j + 1);
    }
  }
}
