/** Unsigned machine words as naturals: the bit operators of C on single bits,
    by recursion on the binary digits, with the laws the allocators need. */
module Bits {

  /** `(m >> i) & 1` */
  predicate Test(m: nat, i: nat) {
    if i == 0 then m % 2 == 1 else Test(m / 2, i - 1)
  }

  /** `m | (1 << i)` */
  function Set(m: nat, i: nat): nat {
    if i == 0 then m - m % 2 + 1 else m % 2 + 2 * Set(m / 2, i - 1)
  }

  /** `m & ~(1 << i)` */
  function Clear(m: nat, i: nat): nat {
    if i == 0 then m - m % 2 else m % 2 + 2 * Clear(m / 2, i - 1)
  }

  lemma {:induction false} SetTest(m: nat, i: nat, j: nat)
    ensures Test(Set(m, i), j) <==> i == j || Test(m, j)
  {
    if i > 0 && j > 0 {
      SetTest(m / 2, i - 1, j - 1);
      assert Set(m, i) / 2 == Set(m / 2, i - 1);
    } else if j > 0 {
      assert Set(m, 0) / 2 == m / 2;
    }
  }

  lemma {:induction false} ClearTest(m: nat, i: nat, j: nat)
    ensures Test(Clear(m, i), j) <==> i != j && Test(m, j)
  {
    if i > 0 && j > 0 {
      ClearTest(m / 2, i - 1, j - 1);
      assert Clear(m, i) / 2 == Clear(m / 2, i - 1);
    } else if j > 0 {
      assert Clear(m, 0) / 2 == m / 2;
    }
  }

  lemma {:induction false} ZeroTest(j: nat)
    ensures !Test(0, j)
  {
    if j > 0 { ZeroTest(j - 1); }
  }

  /** A word is determined by its bits. */
  lemma {:induction false} SameBits(m: nat, n: nat)
    requires forall i: nat :: Test(m, i) == Test(n, i)
    ensures m == n
  {
    assert Test(m, 0) == Test(n, 0);
    if m > 0 || n > 0 {
      forall i: nat ensures Test(m / 2, i) == Test(n / 2, i) {
        assert Test(m, i + 1) == Test(n, i + 1);
      }
      SameBits(m / 2, n / 2);
    }
  }

  // ----- Words combined bit by bit -----

  function And(a: nat, b: nat): nat {
    if a == 0 then 0 else (if a % 2 == 1 && b % 2 == 1 then 1 else 0) + 2 * And(a / 2, b / 2)
  }

  function Or(a: nat, b: nat): nat
    decreases a + b
  {
    if a == 0 then b else if b == 0 then a
    else (if a % 2 == 1 || b % 2 == 1 then 1 else 0) + 2 * Or(a / 2, b / 2)
  }

  function Xor(a: nat, b: nat): nat
    decreases a + b
  {
    if a == 0 then b else if b == 0 then a
    else (if a % 2 == b % 2 then 0 else 1) + 2 * Xor(a / 2, b / 2)
  }

  lemma {:induction false} AndTest(a: nat, b: nat, i: nat)
    ensures Test(And(a, b), i) <==> Test(a, i) && Test(b, i)
    decreases i
  {
    if a == 0 { ZeroTest(i); }
    else if i > 0 { AndTest(a / 2, b / 2, i - 1); assert And(a, b) / 2 == And(a / 2, b / 2); }
  }

  lemma {:induction false} OrHalf(a: nat, b: nat)
    requires a > 0 && b > 0
    ensures Or(a, b) / 2 == Or(a / 2, b / 2)
    ensures Or(a, b) % 2 == 1 <==> a % 2 == 1 || b % 2 == 1
  {
    var h := Or(a / 2, b / 2);
    assert Or(a, b) == (if a % 2 == 1 || b % 2 == 1 then 1 else 0) + 2 * h;
  }

  lemma {:induction false} OrTest(a: nat, b: nat, i: nat)
    ensures Test(Or(a, b), i) <==> Test(a, i) || Test(b, i)
    decreases i
  {
    if a == 0 || b == 0 { ZeroTest(i); }
    else {
      OrHalf(a, b);
      if i > 0 { OrTest(a / 2, b / 2, i - 1); }
    }
  }

  lemma {:induction false} XorTest(a: nat, b: nat, i: nat)
    ensures Test(Xor(a, b), i) <==> (Test(a, i) <==> !Test(b, i))
    decreases i
  {
    if a == 0 || b == 0 { ZeroTest(i); }
    else if i > 0 { XorTest(a / 2, b / 2, i - 1); assert Xor(a, b) / 2 == Xor(a / 2, b / 2); }
  }

  function Pow2(n: nat): (p: nat)
    ensures p >= 1
  {
    if n == 0 then 1 else 2 * Pow2(n - 1)
  }

  lemma {:induction false} Pow2Add(a: nat, b: nat)
    ensures Pow2(a + b) == Pow2(a) * Pow2(b)
  {
    if a > 0 {
      Pow2Add(a - 1, b);
      assert 2 * Pow2(a - 1) * Pow2(b) == 2 * (Pow2(a - 1) * Pow2(b));
    }
  }

  /** Fields that do not overlap are ORed by adding them. */
  lemma {:induction false} OrDisjoint(x: nat, y: nat, k: nat)
    requires x < Pow2(k)
    ensures Or(x, y * Pow2(k)) == x + y * Pow2(k)
    decreases k
  {
    if k > 0 && x > 0 && y > 0 {
      OrDisjoint(x / 2, y, k - 1);
      assert y * Pow2(k) == 2 * (y * Pow2(k - 1));
      assert y * Pow2(k) > 0;
    }
  }

  /** `x >> k` */
  function Shr(x: nat, k: nat): nat { if k == 0 then x else Shr(x / 2, k - 1) }

  /** `x & ((1 << k) - 1)` */
  function Low(x: nat, k: nat): nat { if k == 0 then 0 else x % 2 + 2 * Low(x / 2, k - 1) }

  lemma {:induction false} LowShr(x: nat, k: nat)
    ensures x == Low(x, k) + Shr(x, k) * Pow2(k) && Low(x, k) < Pow2(k)
    decreases k
  {
    if k > 0 {
      LowShr(x / 2, k - 1);
      assert Shr(x, k) * Pow2(k) == 2 * (Shr(x / 2, k - 1) * Pow2(k - 1));
    }
  }

  lemma {:induction false} AndHalf(a: nat, b: nat)
    ensures And(a, b) / 2 == And(a / 2, b / 2)
    ensures And(a, b) % 2 == if a % 2 == 1 && b % 2 == 1 then 1 else 0
  {
  }

  lemma {:induction false} AndParts(a: nat, b: nat, k: nat)
    ensures Shr(And(a, b), k) == And(Shr(a, k), Shr(b, k))
    ensures Low(And(a, b), k) == And(Low(a, k), Low(b, k))
    decreases k
  {
    if k > 0 {
      AndHalf(a, b);
      AndParts(a / 2, b / 2, k - 1);
      AndHalf(Low(a, k), Low(b, k));
    }
  }

  /** A word below a power of two has no bit from there on. */
  lemma {:induction false} HighBits(x: nat, k: nat)
    requires x < Pow2(k)
    ensures Shr(x, k) == 0
    decreases k
  {
    if k > 0 { HighBits(x / 2, k - 1); }
  }
}
