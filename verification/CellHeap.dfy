/** The hand-written binary heap of internal/bot/ai.go: two parallel slices, a
    cell and its priority, ordered by priority. */
module CellHeap {

  /** One heap entry: a grid cell and the priority it was pushed with. */
  type Entry = (int, int)

  /** The parallel slices read as one sequence of pairs. */
  ghost function Zip(cells: seq<int>, fs: seq<int>): (z: seq<Entry>)
    requires |cells| == |fs|
  {
    seq(|cells|, i requires 0 <= i < |cells| => (cells[i], fs[i]))
  }

  ghost function Exchange<T>(s: seq<T>, i: nat, j: nat): (t: seq<T>)
    requires i < |s| && j < |s|
  {
    s[i := s[j]][j := s[i]]
  }

  function Parent(k: int): int {
    (k - 1) / 2
  }

  ghost predicate Respects(fs: seq<int>, p: int, k: int)
    requires 0 <= p < |fs| && 0 <= k < |fs|
  {
    fs[p] <= fs[k]
  }

  /** No entry is smaller than its parent, except possibly the one in slot `skip`. */
  ghost predicate HeapExcept(fs: seq<int>, skip: int) {
    forall k :: 0 < k < |fs| && k != skip ==> Respects(fs, Parent(k), k)
  }

  /** No entry is smaller than its parent, except possibly the children of slot `skip`. */
  ghost predicate HeapAbove(fs: seq<int>, skip: int) {
    forall k :: 0 < k < |fs| && Parent(k) != skip ==> Respects(fs, Parent(k), k)
  }

  /** The children of slot `i` respect the parent of `i`. */
  ghost predicate Skips(fs: seq<int>, i: int) {
    0 < i < |fs| ==> forall k :: 0 < k < |fs| && Parent(k) == i ==> Respects(fs, Parent(i), k)
  }

  ghost predicate Heap(fs: seq<int>) {
    HeapExcept(fs, 0)
  }

  lemma SiftUpStep(fs: seq<int>, i: nat)
    requires 0 < i < |fs| && HeapExcept(fs, i) && Skips(fs, i) && fs[Parent(i)] > fs[i]
    ensures var t := Exchange(fs, i, Parent(i));
      HeapExcept(t, Parent(i)) && Skips(t, Parent(i))
  {
    var p := Parent(i);
    var t := Exchange(fs, i, p);
    forall k | 0 < k < |t| && k != p
      ensures Respects(t, Parent(k), k)
    {
      assert k != i ==> Respects(fs, Parent(k), k);
      assert Parent(k) == i ==> Respects(fs, p, k);
    }
    if 0 < p {
      assert Respects(fs, Parent(p), p);
      forall k | 0 < k < |t| && Parent(k) == p
        ensures Respects(t, Parent(p), k)
      {
        assert k != i ==> Respects(fs, p, k);
      }
    }
  }

  lemma SiftDownStep(fs: seq<int>, i: nat, s: nat)
    requires i < |fs| && 0 < s < |fs| && Parent(s) == i && HeapAbove(fs, i) && Skips(fs, i) && fs[s] < fs[i]
    requires forall k :: 0 < k < |fs| && Parent(k) == i ==> Respects(fs, s, k)
    ensures var t := Exchange(fs, i, s);
      HeapAbove(t, s) && Skips(t, s)
  {
    var t := Exchange(fs, i, s);
    forall k | 0 < k < |t| && Parent(k) != s
      ensures Respects(t, Parent(k), k)
    {
      if Parent(k) == i {
        assert Respects(fs, s, k);
      } else if k == i {
        assert Respects(fs, Parent(i), s);
      } else {
        assert Respects(fs, Parent(k), k);
      }
    }
    forall k | 0 < k < |t| && Parent(k) == s
      ensures Respects(t, i, k)
    {
      assert Respects(fs, s, k);
    }
  }

  /** One turn of the sift: `s` is the smallest of slot `i` and its children. */
  lemma SiftDownTurn(fs: seq<int>, i: nat, s: nat)
    requires i < |fs| && s < |fs| && HeapAbove(fs, i) && Skips(fs, i)
    requires s == i || (Parent(s) == i && 0 < s && fs[s] < fs[i])
    requires 2 * i + 1 < |fs| ==> fs[s] <= fs[2 * i + 1]
    requires 2 * i + 2 < |fs| ==> fs[s] <= fs[2 * i + 2]
    ensures s == i ==> Heap(fs)
    ensures s != i ==> var t := Exchange(fs, i, s); HeapAbove(t, s) && Skips(t, s)
  {
    forall k | 0 < k < |fs| && Parent(k) == i
      ensures Respects(fs, s, k)
    {
      assert k == 2 * i + 1 || k == 2 * i + 2;
    }
    if s == i {
      forall k | 0 < k < |fs|
        ensures Respects(fs, Parent(k), k)
      {
      }
    } else {
      SiftDownStep(fs, i, s);
    }
  }

  lemma {:induction false} RootIsMinimum(fs: seq<int>, k: nat)
    requires Heap(fs) && k < |fs|
    ensures fs[0] <= fs[k]
  {
    if k > 0 {
      assert Respects(fs, Parent(k), k);
      RootIsMinimum(fs, Parent(k));
    }
  }

  lemma RootIsLeastEntry(cells: seq<int>, fs: seq<int>)
    requires |cells| == |fs| > 0 && Heap(fs)
    ensures forall e :: e in multiset(Zip(cells, fs)) ==> fs[0] <= e.1
  {
    forall e | e in multiset(Zip(cells, fs))
      ensures fs[0] <= e.1
    {
      var k :| 0 <= k < |cells| && e == Zip(cells, fs)[k];
      RootIsMinimum(fs, k);
    }
  }

  lemma PushedLast(fs: seq<int>, f: int)
    requires Heap(fs)
    ensures HeapExcept(fs + [f], |fs|) && Skips(fs + [f], |fs|)
  {
    var t := fs + [f];
    forall k | 0 < k < |fs|
      ensures Respects(t, Parent(k), k)
    {
      assert Respects(fs, Parent(k), k);
    }
  }

  lemma ExchangeKeepsEntries(cells: seq<int>, fs: seq<int>, i: nat, j: nat)
    requires |cells| == |fs| && i < |fs| && j < |fs|
    ensures multiset(Zip(Exchange(cells, i, j), Exchange(fs, i, j))) == multiset(Zip(cells, fs))
  {
    var z := Zip(cells, fs);
    assert Zip(Exchange(cells, i, j), Exchange(fs, i, j)) == z[i := z[j]][j := z[i]];
  }

  lemma ZipLast(cells: seq<int>, fs: seq<int>)
    requires |cells| == |fs| > 0
    ensures var n := |cells| - 1;
      Zip(cells, fs) == Zip(cells[..n], fs[..n]) + [(cells[n], fs[n])]
  {
  }

  /** What is left once the root was exchanged with the last slot and cut off. */
  lemma RootRemoved(cells: seq<int>, fs: seq<int>)
    requires |cells| == |fs| > 0 && Heap(fs)
    ensures var n := |fs| - 1;
      var (cs, gs) := (Exchange(cells, 0, n)[..n], Exchange(fs, 0, n)[..n]);
      && HeapAbove(gs, 0)
      && multiset(Zip(cs, gs)) + multiset{(cells[0], fs[0])} == multiset(Zip(cells, fs))
  {
    var n := |fs| - 1;
    var (cs, gs) := (Exchange(cells, 0, n), Exchange(fs, 0, n));
    forall k | 0 < k < n && Parent(k) != 0
      ensures Respects(gs[..n], Parent(k), k)
    {
      assert Respects(fs, Parent(k), k);
    }
    ExchangeKeepsEntries(cells, fs, 0, n);
    ZipLast(cs, gs);
  }

  class CellHeap {
    var cells: seq<int>
    var fs: seq<int>

    constructor ()
      ensures Valid() && Entries() == multiset{} && |cells| == 0
    {
      cells, fs := [], [];
    }

    ghost predicate Paired()
      reads this
    {
      |cells| == |fs|
    }

    ghost predicate Valid()
      reads this
    {
      Paired() && Heap(fs)
    }

    ghost function Entries(): multiset<Entry>
      requires Paired()
      reads this
    {
      multiset(Zip(cells, fs))
    }

    method Swap(i: nat, j: nat)
      requires Paired() && i < |cells| && j < |cells|
      modifies this
      ensures Paired() && cells == Exchange(old(cells), i, j) && fs == Exchange(old(fs), i, j)
      ensures Entries() == old(Entries())
    {
      ExchangeKeepsEntries(cells, fs, i, j);
      cells := cells[i := cells[j]][j := cells[i]];
      fs := fs[i := fs[j]][j := fs[i]];
    }

    method Push(cell: int, f: int)
      requires Valid()
      modifies this
      ensures Valid() && |cells| == old(|cells|) + 1
      ensures Entries() == old(Entries()) + multiset{(cell, f)}
    {
      cells, fs := cells + [cell], fs + [f];
      ZipLast(cells, fs);
      assert cells[..|cells| - 1] == old(cells) && fs[..|fs| - 1] == old(fs);
      var i := |cells| - 1;
      PushedLast(old(fs), f);
      while i > 0
        invariant Paired() && 0 <= i < |fs| == old(|fs|) + 1
        invariant HeapExcept(fs, i) && Skips(fs, i)
        invariant Entries() == old(Entries()) + multiset{(cell, f)}
      {
        var p := (i - 1) / 2;
        if fs[p] <= fs[i] {
          assert Respects(fs, Parent(i), i);
          break;
        }
        SiftUpStep(fs, i);
        Swap(i, p);
        i := p;
      }
    }

    /** Removes an entry of least priority and returns its cell. */
    method Pop() returns (top: int)
      requires Valid() && |cells| > 0
      modifies this
      ensures Valid() && |cells| == old(|cells|) - 1
      ensures top == old(cells[0])
      ensures Entries() + multiset{(top, old(fs[0]))} == old(Entries())
      ensures forall e :: e in old(Entries()) ==> old(fs[0]) <= e.1
    {
      RootIsLeastEntry(cells, fs);
      top := cells[0];
      var last := |cells| - 1;
      RootRemoved(cells, fs);
      Swap(0, last);
      cells, fs := cells[..last], fs[..last];
      SiftDown(last);
    }

    /** The loop that ends `pop`: restores the order below the root. */
    method SiftDown(m: nat)
      requires Paired() && |cells| == m && HeapAbove(fs, 0)
      modifies this
      ensures Valid() && |cells| == m && Entries() == old(Entries())
    {
      var i := 0;
      while true
        invariant Paired() && |fs| == m && (0 <= i < m || i == m == 0)
        invariant HeapAbove(fs, i) && Skips(fs, i)
        invariant Entries() == old(Entries())
        decreases m - i
      {
        var l, r, s := 2 * i + 1, 2 * i + 2, i;
        if l < m && fs[l] < fs[s] {
          s := l;
        }
        if r < m && fs[r] < fs[s] {
          s := r;
        }
        if m > 0 {
          SiftDownTurn(fs, i, s);
        }
        if s == i {
          break;
        }
        Swap(i, s);
        i := s;
      }
    }
  }
}
