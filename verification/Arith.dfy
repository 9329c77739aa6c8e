/** Facts about products and quotients that the solver needs one at a time. */
module Arith {

  const WRAP := 0x1_0000_0000

  /** A value reduced to unsigned 32 bits. */
  function Wrap(x: int): nat { x % WRAP }

  lemma MulLe(a: nat, b: nat, m: nat)
    requires a <= b
    ensures a * m <= b * m
  {
  }

  lemma Product(a: nat, b: nat, c: nat)
    ensures a * b * c == a * (b * c) == a * c * b == (a * c) * b
  {
    assert a * b * c == a * (b * c);
    assert a * c * b == a * (c * b);
  }

  lemma MulMono(a: nat, b: nat, m: nat)
    requires a < b
    ensures a * m + m <= b * m
  {
    assert b * m == (b - a - 1) * m + a * m + m;
  }

  /** A quotient is determined by the multiple below. */
  lemma DivUnique(x: nat, q: nat, m: nat)
    requires q * m <= x < q * m + m
    ensures x / m == q && x % m == x - q * m
  {
    var d := x / m;
    assert d * m <= x < d * m + m;
    if d < q { MulMono(d, q, m); }
    if q < d { MulMono(q, d, m); }
  }

  lemma DivMultiple(k: nat, m: nat)
    requires m >= 1
    ensures k * m / m == k && k * m % m == 0
  {
    DivUnique(k * m, k, m);
  }

  lemma DivBounds(x: nat, m: nat)
    requires m >= 1
    ensures x / m * m <= x < x / m * m + m && x % m == x - x / m * m
  {
  }

  /** A quotient below a bound. */
  lemma DivBelow(x: nat, m: nat, w: nat)
    requires m >= 1 && x < m * w
    ensures x / m < w
  {
    DivBounds(x, m);
    assert w * m == m * w;
    if w < x / m { MulMono(w, x / m, m); }
  }

  lemma DivRise(x: nat, y: nat, m: nat)
    requires m >= 1 && x <= y
    ensures x / m <= y / m
  {
    DivBounds(x, m);
    DivBounds(y, m);
    if y / m < x / m { MulMono(y / m, x / m, m); }
  }
}
