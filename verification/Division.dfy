/** Integer division by rows: quotient and remainder are determined. */
module Division {
  lemma DivModUnique(n: int, q: int, r: int)
    requires n > 0 && 0 <= r < n
    ensures (q * n + r) / n == q && (q * n + r) % n == r
  {
    var u := q * n + r;
    assert u == (u / n) * n + u % n;
    RowsApart(n, u / n, q);
    RowsApart(n, q, u / n);
  }

  lemma RowsApart(n: int, a: int, b: int)
    requires n > 0
    ensures a < b ==> a * n + n <= b * n
  {
    if a < b {
      var k := b - a - 1;
      assert k * n >= 0;
      assert b * n == a * n + n + k * n;
    }
  }

  lemma Divided(n: int, q: int, r: int, x: int)
    requires n > 0 && 0 <= r < n && x == q * n + r
    ensures x / n == q && x % n == r
  {
    DivModUnique(n, q, r);
  }
}
