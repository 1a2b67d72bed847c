/** The few nonlinear facts the accounting proofs rest on, each proved once. */
module Arithmetic {

  lemma MulMonotone(a: int, b: int, c: nat)
    requires a <= b
    ensures a * c <= b * c
    ensures c * a <= c * b
  {
    assert (b - a) * c >= 0;
  }

  lemma CancelMul(c: int, a: int, b: int)
    requires c > 0
    ensures c * a <= c * b ==> a <= b
    ensures c * a < c * b ==> a < b
  {
    if b < a {
      MulMonotone(b + 1, a, c);
    }
  }

  lemma Distribute(c: int, a: int, b: int)
    ensures c * (a + b) == c * a + c * b
    ensures (a + b) * c == a * c + b * c
  {
  }

  /** Floor division, stated by its defining inequality and its bound. */
  lemma DivBounds(a: nat, b: nat)
    requires b > 0
    ensures 0 <= a / b <= a
    ensures b * (a / b) == a - a % b
    ensures b * (a / b) <= a < b * (a / b) + b
  {
    var q := a / b;
    assert a == b * q + a % b;
    assert 0 <= q;
    MulMonotone(1, b, q);
  }

  /** Floor division is the only quotient that fits. */
  lemma DivUnique(a: nat, b: nat, q: int)
    requires b > 0 && b * q <= a < b * q + b
    ensures a / b == q
  {
    var r := a / b;
    DivBounds(a, b);
    if r < q {
      MulMonotone(r + 1, q, b);
    } else if q < r {
      MulMonotone(q + 1, r, b);
    }
  }

  lemma DivMonotone(a: nat, c: nat, b: nat)
    requires b > 0 && a <= c
    ensures a / b <= c / b
  {
    DivBounds(a, b);
    DivBounds(c, b);
    if c / b < a / b {
      MulMonotone(c / b + 1, a / b, b);
    }
  }

  /** Taking whole units away from a floor quotient. */
  lemma DivMinusMultiple(a: nat, b: nat, d: int)
    requires b > 0 && b * d <= a
    ensures (a - b * d) / b == a / b - d
    ensures (a - b * d) % b == a % b
  {
    DivBounds(a, b);
    var q := a / b - d;
    Distribute(b, a / b, -d);
    assert b * (-d) == -(b * d);
    DivUnique(a - b * d, b, q);
    DivBounds(a - b * d, b);
  }
}
