/** Products of reals behind a name, and the few laws the geometry needs: the solver
    keeps its footing when proofs name the law they use. */
module Reals {
  function Mul(a: real, b: real): real {
    a * b
  }

  function Sq(v: real): real {
    Mul(v, v)
  }

  function Min(a: real, b: real): real {
    if a < b then a else b
  }

  function Max(a: real, b: real): real {
    if a > b then a else b
  }

  /** Division made total; the geometry only ever divides by positive lengths. */
  function Quot(a: real, b: real): real {
    if b == 0.0 then 0.0 else a / b
  }

  function Clamp(v: real, lo: real, hi: real): (r: real)
    ensures lo <= hi ==> lo <= r <= hi
  {
    if v < lo then lo else if v > hi then hi else v
  }

  /** Go's conversion of a float to an int: the fraction is dropped. */
  function Truncate(x: real): int {
    if x >= 0.0 then x.Floor else -((-x).Floor)
  }

  lemma MulComm(a: real, b: real)
    ensures Mul(a, b) == Mul(b, a)
  {
  }

  lemma MulAssoc(a: real, b: real, c: real)
    ensures Mul(Mul(a, b), c) == Mul(a, Mul(b, c))
  {
  }

  lemma MulAdd(a: real, b: real, c: real)
    ensures Mul(a, b + c) == Mul(a, b) + Mul(a, c)
    ensures Mul(b + c, a) == Mul(b, a) + Mul(c, a)
  {
  }

  lemma MulSub(a: real, b: real, c: real)
    ensures Mul(a, b - c) == Mul(a, b) - Mul(a, c)
    ensures Mul(b - c, a) == Mul(b, a) - Mul(c, a)
  {
  }

  lemma MulNeg(a: real, b: real)
    ensures Mul(-a, b) == -Mul(a, b) && Mul(a, -b) == -Mul(a, b)
  {
  }

  lemma MulUnits(a: real)
    ensures Mul(a, 0.0) == 0.0 == Mul(0.0, a) && Mul(1.0, a) == a == Mul(a, 1.0)
  {
  }

  lemma MulPos(a: real, b: real)
    requires a > 0.0 && b > 0.0
    ensures Mul(a, b) > 0.0
  {
  }

  lemma MulNonNeg(a: real, b: real)
    requires a >= 0.0 && b >= 0.0
    ensures Mul(a, b) >= 0.0
  {
  }

  lemma MulMono(a: real, b: real, c: real)
    requires a <= b && c >= 0.0
    ensures Mul(a, c) <= Mul(b, c) && Mul(c, a) <= Mul(c, b)
  {
    hide Mul;
    MulSub(c, b, a);
    MulNonNeg(b - a, c);
    MulNonNeg(c, b - a);
  }

  lemma MulStrict(a: real, b: real, c: real)
    requires a < b && c > 0.0
    ensures Mul(a, c) < Mul(b, c)
  {
    hide Mul;
    MulPos(b - a, c);
    MulSub(c, b, a);
  }

  lemma DivMul(a: real, b: real)
    requires b != 0.0
    ensures Mul(a / b, b) == a
  {
  }

  lemma SqSigns(v: real)
    ensures Sq(v) >= 0.0 && (Sq(v) == 0.0 <==> v == 0.0) && Sq(-v) == Sq(v)
  {
    hide Mul;
    MulNeg(v, v);
    MulNeg(v, -v);
    MulUnits(v);
    if v > 0.0 {
      MulPos(v, v);
    } else if v < 0.0 {
      MulPos(-v, -v);
    }
  }

  lemma SqOfProduct(a: real, b: real)
    ensures Sq(Mul(a, b)) == Mul(Sq(a), Sq(b))
  {
    hide Mul;
    var p := Mul(a, b);
    MulAssoc(a, b, p);
    MulAssoc(b, a, b);
    MulComm(b, a);
    MulComm(p, b);
    MulAssoc(a, b, b);
    MulAssoc(a, Mul(a, b), b);
    MulAssoc(a, a, Mul(b, b));
    MulAssoc(b, p, 1.0);
    assert Mul(b, p) == Mul(a, Mul(b, b)) by {
      assert Mul(b, Mul(a, b)) == Mul(Mul(b, a), b) == Mul(Mul(a, b), b) == Mul(a, Mul(b, b));
    }
    assert Mul(p, p) == Mul(a, Mul(b, p)) == Mul(a, Mul(a, Mul(b, b))) == Mul(Mul(a, a), Mul(b, b));
  }

  lemma SqMono(a: real, b: real)
    requires 0.0 <= a <= b
    ensures Sq(a) <= Sq(b)
  {
    hide Mul;
    MulMono(a, b, a);
    MulMono(a, b, b);
    MulComm(a, b);
  }

  lemma SqStrict(a: real, b: real)
    requires 0.0 <= a && 0.0 <= b
    ensures a < b <==> Sq(a) < Sq(b)
  {
    hide Mul;
    if a < b {
      MulMono(a, b, a);
      MulSub(b, b, a);
      MulPos(b, b - a);
      MulComm(a, b);
    } else {
      SqMono(b, a);
    }
  }
}
