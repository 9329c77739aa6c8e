/** The collision-free hash over MPIDR values that `smp_build_mpidr_hash` prepares,
    and the first logical CPU map of `smp_setup_processor_id`. */
module MpidrHash {
  import opened Bits
  import opened Arith

  /** `MPIDR_AFFINITY_LEVEL` */
  function Level(x: nat, i: nat): nat { Low(Shr(x, 8 * i), 8) }

  /** Position of the last set bit, counted from 1; 0 for 0 (`fls`). */
  function Fls(x: nat): nat { if x == 0 then 0 else 1 + Fls(x / 2) }

  /** Position of the first set bit, counted from 1; 0 for 0 (`ffs`). */
  function Ffs(x: nat): nat { if x == 0 then 0 else if x % 2 == 1 then 1 else 1 + Ffs(x / 2) }

  function FirstBit(a: nat): nat { if a == 0 then 0 else Ffs(a) - 1 }

  /** `struct mpidr_hash` */
  datatype Hash = Hash(mask: nat, shift: seq<nat>, bits: nat)

  /** Mask the id, split it into its three levels in place, shift each level
      right by its shift, and OR the results. */
  function Index(h: Hash, id: nat): nat
    requires |h.shift| == 3
  {
    var x := And(id, h.mask);
    Or(Or(Shr(Level(x, 0), h.shift[0]),
          Shr(Level(x, 1) * Pow2(8), h.shift[1])),
       Shr(Level(x, 2) * Pow2(16), h.shift[2]))
  }

  /** The bits in which some id differs from the first. */
  function Differing(ids: seq<nat>, n: nat): nat
    requires n <= |ids|
  {
    if n == 0 then 0 else Or(Differing(ids, n - 1), Xor(ids[n - 1], ids[0]))
  }

  // ----- One affinity level -----

  lemma {:induction false} FlsBounds(x: nat)
    ensures x < Pow2(Fls(x))
    ensures x > 0 ==> Pow2(Fls(x) - 1) <= x && FirstBit(x) < Fls(x)
  {
    if x > 0 { FlsBounds(x / 2); }
  }

  lemma {:induction false} FlsSmall(x: nat, k: nat)
    requires x < Pow2(k)
    ensures Fls(x) <= k
    decreases k
  {
    if x > 0 { FlsSmall(x / 2, k - 1); }
  }

  lemma {:induction false} AndSmall(x: nat, a: nat)
    ensures And(x, a) <= a && And(x, a) <= x
  {
    if x > 0 { AndSmall(x / 2, a / 2); }
  }

  /** What is left of a level under its mask is a multiple of the mask's first bit. */
  lemma {:induction false} AndAligned(x: nat, a: nat)
    ensures And(x, a) % Pow2(FirstBit(a)) == 0
    decreases a
  {
    if a > 0 && a % 2 == 0 {
      AndAligned(x / 2, a / 2);
      var q, p := And(x / 2, a / 2), Pow2(FirstBit(a / 2));
      assert And(x, a) == 2 * q by { if x == 0 { } }
      assert q == q / p * p;
      assert 2 * q == q / p * (2 * p);
      DivMultiple(q / p, 2 * p);
    }
  }

  lemma Pow2Eight()
    ensures Pow2(8) == 256 && Pow2(0) == 1
  {
    assert Pow2(4) == 16;
    Pow2Add(4, 4);
  }

  lemma FlsZero()
    ensures Fls(0) == 0 && FirstBit(0) == 0
  {
  }

  /** The field of a level: what is left of it after compression. */
  function Field(a: nat, l: nat): nat { l / Pow2(FirstBit(a)) }
  function Width(a: nat): nat
    requires a == 0 || FirstBit(a) < Fls(a)
  {
    Fls(a) - FirstBit(a)
  }

  lemma {:induction false} FieldOf(x: nat, a: nat)
    requires a < 256
    ensures a == 0 || FirstBit(a) < Fls(a)
    ensures Width(a) <= 8
    ensures var l := And(x, a);
      l == Field(a, l) * Pow2(FirstBit(a)) && Field(a, l) < Pow2(Width(a))
  {
    hide Pow2, And, FirstBit, Fls;
    FlsBounds(a);
    Pow2Eight();
    FlsZero();
    FlsSmall(a, 8);
    AndSmall(x, a);
    AndAligned(x, a);
    Pow2Add(FirstBit(a), Width(a));
    DivBounds(And(x, a), Pow2(FirstBit(a)));
    DivBelow(And(x, a), Pow2(FirstBit(a)), Pow2(Width(a)));
  }

  lemma {:induction false} ShrIsDiv(x: nat, k: nat)
    ensures Shr(x, k) == x / Pow2(k)
  {
    LowShr(x, k);
    DivUnique(x, Shr(x, k), Pow2(k));
  }

  /** Shifting a level in place right by `up + f - below` puts its field at `below`. */
  lemma ShiftPlaces(c: nat, f: nat, up: nat, below: nat)
    requires below <= up
    ensures Shr(c * Pow2(f) * Pow2(up), up + f - below) == c * Pow2(below)
  {
    hide Pow2, Shr;
    var s, b := Pow2(up + f - below), Pow2(below);
    ShrIsDiv(c * Pow2(f) * Pow2(up), up + f - below);
    Pow2Add(f, up);
    Pow2Add(up + f - below, below);
    Reassociate(c, Pow2(f), Pow2(up), s, b);
    DivMultiple(c * b, s);
  }

  lemma Reassociate(c: nat, f: nat, u: nat, s: nat, b: nat)
    requires f * u == s * b
    ensures c * f * u == c * b * s
  {
    assert c * f * u == c * (f * u);
    assert c * b * s == c * (s * b);
  }

  // ----- The whole hash -----

  lemma LevelSmall(x: nat, i: nat)
    ensures Level(x, i) < 256
  {
    hide Pow2;
    LowShr(Shr(x, 8 * i), 8);
    Pow2Eight();
  }

  lemma LevelWidth(mask: nat, i: nat)
    ensures var a := Level(mask, i); (a == 0 || FirstBit(a) < Fls(a)) && Width(a) <= 8
  {
    hide Level, FirstBit, Fls;
    LevelSmall(mask, i);
    FieldOf(0, Level(mask, i));
  }

  /** What the loops compute from the mask of differing bits. */
  function Build(mask: nat): (h: Hash)
    ensures |h.shift| == 3
  {
    hide Level, FirstBit, Fls;
    var a0, a1, a2 := Level(mask, 0), Level(mask, 1), Level(mask, 2);
    LevelWidth(mask, 0);
    LevelWidth(mask, 1);
    LevelWidth(mask, 2);
    Hash(mask,
         [FirstBit(a0), 8 + FirstBit(a1) - Width(a0), 16 + FirstBit(a2) - (Width(a1) + Width(a0))],
         Width(a2) + Width(a1) + Width(a0))
  }

  /** The fields of an id, side by side. */
  lemma IndexIs(mask: nat, id: nat)
    ensures var a0, a1, a2 := Level(mask, 0), Level(mask, 1), Level(mask, 2);
      && (a0 == 0 || FirstBit(a0) < Fls(a0)) && (a1 == 0 || FirstBit(a1) < Fls(a1)) && (a2 == 0 || FirstBit(a2) < Fls(a2))
      && var c0, c1, c2 := Field(a0, And(Level(id, 0), a0)), Field(a1, And(Level(id, 1), a1)), Field(a2, And(Level(id, 2), a2));
      && c0 < Pow2(Width(a0)) && c1 < Pow2(Width(a1)) && c2 < Pow2(Width(a2))
      && Index(Build(mask), id) == Join3(c0, c1, c2, Width(a0), Width(a1))
  {
    hide Pow2, Shr, Low, Fls, Ffs, FirstBit, And, Or, Field;
    var a0, a1, a2 := Level(mask, 0), Level(mask, 1), Level(mask, 2);
    LevelSmall(mask, 0);
    LevelSmall(mask, 1);
    LevelSmall(mask, 2);
    LevelAnd(id, mask, 0);
    LevelAnd(id, mask, 1);
    LevelAnd(id, mask, 2);
    FieldOf(0, a0);
    FieldOf(0, a1);
    FieldOf(0, a2);
    var h := Build(mask);
    var c0 := LevelPart(Level(id, 0), a0, 0, 0);
    var c1 := LevelPart(Level(id, 1), a1, 8, Width(a0));
    var c2 := LevelPart(Level(id, 2), a2, 16, Width(a1) + Width(a0));
    JoinIs(c0, c1, c2, Width(a0), Width(a1));
    ZeroUp(And(Level(id, 0), a0), c0);
  }

  /** The contribution of one level to the index. */
  lemma LevelPart(x: nat, a: nat, up: nat, below: nat) returns (c: nat)
    requires a < 256 && below <= up
    ensures a == 0 || FirstBit(a) < Fls(a)
    ensures c == Field(a, And(x, a)) < Pow2(Width(a))
    ensures Shr(And(x, a) * Pow2(up), up + FirstBit(a) - below) == c * Pow2(below)
  {
    hide Pow2, Shr, Fls, Ffs, FirstBit, And, Field;
    FieldOf(x, a);
    c := Field(a, And(x, a));
    ShiftPlaces(c, FirstBit(a), up, below);
  }

  lemma ZeroUp(l: nat, c: nat)
    ensures l * Pow2(0) == l && c * Pow2(0) == c
  {
  }

  lemma {:induction false} LevelAnd(x: nat, m: nat, i: nat)
    ensures Level(And(x, m), i) == And(Level(x, i), Level(m, i))
  {
    AndParts(x, m, 8 * i);
    AndParts(Shr(x, 8 * i), Shr(m, 8 * i), 8);
  }

  /** Three fields of given widths, side by side. */
  function Join3(c0: nat, c1: nat, c2: nat, w0: nat, w1: nat): nat {
    c0 + c1 * Pow2(w0) + c2 * Pow2(w0 + w1)
  }

  lemma JoinBound(c0: nat, c1: nat, w0: nat, w1: nat)
    requires c0 < Pow2(w0) && c1 < Pow2(w1)
    ensures c0 + c1 * Pow2(w0) < Pow2(w0 + w1)
  {
    Pow2Add(w1, w0);
    MulMono(c1, Pow2(w1), Pow2(w0));
  }

  lemma {:induction false} JoinIs(c0: nat, c1: nat, c2: nat, w0: nat, w1: nat)
    requires c0 < Pow2(w0) && c1 < Pow2(w1)
    ensures Or(Or(c0, c1 * Pow2(w0)), c2 * Pow2(w1 + w0)) == Join3(c0, c1, c2, w0, w1)
  {
    hide Or, Pow2;
    OrDisjoint(c0, c1, w0);
    JoinBound(c0, c1, w0, w1);
    OrDisjoint(c0 + c1 * Pow2(w0), c2, w0 + w1);
  }

  /** The three fields can be read back. */
  lemma {:induction false} JoinInjective(c0: nat, c1: nat, c2: nat, d0: nat, d1: nat, d2: nat, w0: nat, w1: nat)
    requires c0 < Pow2(w0) && c1 < Pow2(w1) && d0 < Pow2(w0) && d1 < Pow2(w1)
    requires Join3(c0, c1, c2, w0, w1) == Join3(d0, d1, d2, w0, w1)
    ensures c0 == d0 && c1 == d1 && c2 == d2
  {
    hide Pow2, Join3;
    JoinParts(c0, c1, c2, w0, w1);
    JoinParts(d0, d1, d2, w0, w1);
  }

  lemma JoinParts(c0: nat, c1: nat, c2: nat, w0: nat, w1: nat)
    requires c0 < Pow2(w0) && c1 < Pow2(w1)
    ensures var j, p, q := Join3(c0, c1, c2, w0, w1), Pow2(w0), Pow2(w0 + w1);
      j / q == c2 && j % q / p == c1 && j % q % p == c0
  {
    hide Pow2;
    JoinBound(c0, c1, w0, w1);
    DivUnique(Join3(c0, c1, c2, w0, w1), c2, Pow2(w0 + w1));
    DivUnique(c0 + c1 * Pow2(w0), c1, Pow2(w0));
  }

  /** Every index is below two to the number of hash bits. */
  lemma IndexBound(mask: nat, id: nat)
    ensures Index(Build(mask), id) < Pow2(Build(mask).bits)
  {
    hide Pow2, Level, Fls, Ffs, FirstBit, And, Or, Shr, Index, Join3, Field;
    IndexIs(mask, id);
    var a0, a1, a2 := Level(mask, 0), Level(mask, 1), Level(mask, 2);
    var c0, c1, c2 := Field(a0, And(Level(id, 0), a0)), Field(a1, And(Level(id, 1), a1)), Field(a2, And(Level(id, 2), a2));
    Join3Bound(c0, c1, c2, Width(a0), Width(a1), Width(a2));
    assert Width(a0) + Width(a1) + Width(a2) == Build(mask).bits;
  }

  lemma Join3Bound(c0: nat, c1: nat, c2: nat, w0: nat, w1: nat, w2: nat)
    requires c0 < Pow2(w0) && c1 < Pow2(w1) && c2 < Pow2(w2)
    ensures Join3(c0, c1, c2, w0, w1) < Pow2(w0 + w1 + w2)
  {
    hide Pow2;
    JoinBound(c0, c1, w0, w1);
    JoinBound(c0 + c1 * Pow2(w0), c2, w0 + w1, w2);
  }

  /** Equal indices come from ids that agree on the mask. */
  lemma {:induction false} IndexDetermines(mask: nat, a: nat, b: nat)
    requires mask < Pow2(24) && Index(Build(mask), a) == Index(Build(mask), b)
    ensures And(a, mask) == And(b, mask)
  {
    hide Pow2, Fls, Ffs, FirstBit, And, Or, Shr, Index, Build, Level, Width;
    var m0, m1, m2 := Level(mask, 0), Level(mask, 1), Level(mask, 2);
    IndexIs(mask, a);
    IndexIs(mask, b);
    JoinInjective(Field(m0, And(Level(a, 0), m0)), Field(m1, And(Level(a, 1), m1)), Field(m2, And(Level(a, 2), m2)),
                  Field(m0, And(Level(b, 0), m0)), Field(m1, And(Level(b, 1), m1)), Field(m2, And(Level(b, 2), m2)),
                  Width(m0), Width(m1));
    SameLevel(a, b, mask, 0);
    SameLevel(a, b, mask, 1);
    SameLevel(a, b, mask, 2);
    Levels(And(a, mask), mask, a);
    Levels(And(b, mask), mask, b);
  }

  lemma {:induction false} SameLevel(a: nat, b: nat, mask: nat, i: nat)
    requires var m := Level(mask, i); Field(m, And(Level(a, i), m)) == Field(m, And(Level(b, i), m))
    ensures Level(And(a, mask), i) == Level(And(b, mask), i)
  {
    hide Pow2, Fls, Ffs, FirstBit, And, Shr, Field;
    LevelSmall(mask, i);
    LevelAnd(a, mask, i);
    LevelAnd(b, mask, i);
    FieldOf(Level(a, i), Level(mask, i));
    FieldOf(Level(b, i), Level(mask, i));
  }

  /** A masked id is its three levels. */
  lemma {:induction false} Levels(x: nat, mask: nat, id: nat)
    requires mask < Pow2(24) && x == And(id, mask)
    ensures x == Level(x, 0) + (Level(x, 1) + Level(x, 2) * Pow2(8)) * Pow2(8)
  {
    hide Pow2, Low, Shr;
    AndSmall(id, mask);
    HighBits(x, 24);
    ShrShr(x, 8, 8);
    ShrShr(x, 16, 8);
    LowShr(x, 8);
    LowShr(Shr(x, 8), 8);
    LowShr(Shr(x, 16), 8);
    ShrNone(x);
  }

  lemma {:induction false} ShrNone(x: nat)
    ensures Shr(x, 0) == x
  {
  }

  lemma {:induction false} ShrShr(x: nat, a: nat, b: nat)
    ensures Shr(Shr(x, a), b) == Shr(x, a + b)
    decreases a
  {
    if a > 0 { ShrShr(x / 2, a - 1, b); }
  }

  // ----- The set of CPUs -----

  lemma {:induction false} DifferingTest(ids: seq<nat>, n: nat, i: nat, j: nat)
    requires i < n <= |ids|
    ensures !Test(Differing(ids, n), j) ==> Test(ids[i], j) == Test(ids[0], j)
  {
    OrTest(Differing(ids, n - 1), Xor(ids[n - 1], ids[0]), j);
    XorTest(ids[n - 1], ids[0], j);
    if i < n - 1 { DifferingTest(ids, n - 1, i, j); }
  }

  /** The mask has exactly the bits in which two of the ids differ. */
  lemma {:induction false} MaskExact(ids: seq<nat>, n: nat, j: nat)
    requires 1 <= n <= |ids|
    ensures Test(Differing(ids, n), j) <==> exists i, k :: 0 <= i < n && 0 <= k < n && Test(ids[i], j) != Test(ids[k], j)
  {
    hide Differing;
    if Test(Differing(ids, n), j) {
      var i := DiffersFrom(ids, n, j);
      assert Test(ids[i], j) != Test(ids[0], j);
    } else {
      forall i | 0 <= i < n ensures Test(ids[i], j) == Test(ids[0], j) { DifferingTest(ids, n, i, j); }
    }
  }

  lemma {:induction false} DiffersFrom(ids: seq<nat>, n: nat, j: nat) returns (i: nat)
    requires n <= |ids| && Test(Differing(ids, n), j)
    ensures i < n && Test(ids[i], j) != Test(ids[0], j)
  {
    if n == 0 {
      ZeroTest(j);
    } else {
      OrTest(Differing(ids, n - 1), Xor(ids[n - 1], ids[0]), j);
      XorTest(ids[n - 1], ids[0], j);
      if Test(Differing(ids, n - 1), j) { i := DiffersFrom(ids, n - 1, j); } else { i := n - 1; }
    }
  }

  lemma {:induction false} OrSmall(a: nat, b: nat, k: nat)
    requires a < Pow2(k) && b < Pow2(k)
    ensures Or(a, b) < Pow2(k) && Xor(a, b) < Pow2(k)
    decreases k
  {
    if k > 0 { OrSmall(a / 2, b / 2, k - 1); }
  }

  lemma {:induction false} DifferingSmall(ids: seq<nat>, n: nat)
    requires n <= |ids| && forall i | 0 <= i < |ids| :: ids[i] < Pow2(24)
    ensures Differing(ids, n) < Pow2(24)
  {
    hide Pow2;
    if n > 0 {
      DifferingSmall(ids, n - 1);
      OrSmall(ids[n - 1], ids[0], 24);
      OrSmall(Differing(ids, n - 1), Xor(ids[n - 1], ids[0]), 24);
    }
  }

  /** For any number of CPUs with pairwise distinct 24-bit ids the indices are
      pairwise distinct, and all below two to the number of bits. */
  lemma {:induction false} CollisionFree(ids: seq<nat>, a: nat, b: nat)
    requires forall i | 0 <= i < |ids| :: ids[i] < Pow2(24)
    requires a < |ids| && b < |ids| && ids[a] != ids[b]
    ensures var h := Build(Differing(ids, |ids|));
      Index(h, ids[a]) != Index(h, ids[b]) && Index(h, ids[a]) < Pow2(h.bits)
  {
    hide Index, Build, Pow2;
    var mask := Differing(ids, |ids|);
    IndexBound(mask, ids[a]);
    DifferingSmall(ids, |ids|);
    if Index(Build(mask), ids[a]) == Index(Build(mask), ids[b]) {
      IndexDetermines(mask, ids[a], ids[b]);
      forall j: nat ensures Test(ids[a], j) == Test(ids[b], j) {
        DifferingTest(ids, |ids|, a, j);
        DifferingTest(ids, |ids|, b, j);
        AndTest(ids[a], mask, j);
        AndTest(ids[b], mask, j);
      }
      SameBits(ids[a], ids[b]);
    }
  }

  predicate LevelBit(mask: nat, level: nat, j: nat) { j < 8 && Test(mask, 8 * level + j) }

  /** From the lowest to the highest bit of the mask in a level there are `w` bits. */
  ghost predicate Span(mask: nat, level: nat, w: nat) {
    if forall j: nat :: !LevelBit(mask, level, j) then w == 0
    else exists lo: nat, hi: nat :: SpanIs(mask, level, lo, hi) && w == hi - lo + 1
  }

  ghost predicate SpanIs(mask: nat, level: nat, lo: nat, hi: nat) {
    && LevelBit(mask, level, lo) && LevelBit(mask, level, hi)
    && forall j: nat | LevelBit(mask, level, j) :: lo <= j <= hi
  }

  lemma {:induction false} FlsTest(a: nat)
    requires a > 0
    ensures Fls(a) >= 1 && Test(a, Fls(a) - 1) && forall j: nat | j >= Fls(a) :: !Test(a, j)
  {
    if a == 1 {
      forall j: nat | j >= 1 ensures !Test(a, j) { ZeroTest(j - 1); }
    } else {
      FlsTest(a / 2);
      forall j: nat | j >= Fls(a) ensures !Test(a, j) { assert Test(a, j) == Test(a / 2, j - 1); }
    }
  }

  lemma {:induction false} FfsTest(a: nat)
    requires a > 0
    ensures Test(a, FirstBit(a)) && forall j: nat | j < FirstBit(a) :: !Test(a, j)
  {
    if a % 2 == 0 {
      FfsTest(a / 2);
      assert FirstBit(a) == FirstBit(a / 2) + 1;
      forall j: nat | j < FirstBit(a) ensures !Test(a, j) {
        if j > 0 { assert Test(a, j) == Test(a / 2, j - 1); }
      }
    }
  }

  lemma {:induction false} ShrTest(x: nat, k: nat, j: nat)
    ensures Test(Shr(x, k), j) == Test(x, k + j)
  {
    if k > 0 { ShrTest(x / 2, k - 1, j); }
  }

  lemma {:induction false} LowTest(x: nat, k: nat, j: nat)
    ensures Test(Low(x, k), j) <==> j < k && Test(x, j)
    decreases k
  {
    if k == 0 {
      ZeroTest(j);
    } else if j > 0 {
      assert Low(x, k) / 2 == Low(x / 2, k - 1);
      LowTest(x / 2, k - 1, j - 1);
    }
  }

  lemma {:induction false} LevelTest(x: nat, level: nat, j: nat)
    ensures Test(Level(x, level), j) <==> LevelBit(x, level, j)
  {
    hide Test, Shr, Low;
    LowTest(Shr(x, 8 * level), 8, j);
    ShrTest(x, 8 * level, j);
  }

  lemma LevelSpan(mask: nat, level: nat)
    ensures var a := Level(mask, level); (a == 0 || FirstBit(a) < Fls(a)) && Span(mask, level, Width(a))
  {
    hide Test, Level, FirstBit, Fls, LevelBit;
    var a := Level(mask, level);
    LevelWidth(mask, level);
    forall j: nat ensures Test(a, j) <==> LevelBit(mask, level, j) { LevelTest(mask, level, j); }
    if a == 0 {
      forall j: nat ensures !LevelBit(mask, level, j) { ZeroTest(j); }
      FlsZero();
    } else {
      FlsTest(a);
      FfsTest(a);
      var lo, hi := FirstBit(a), Fls(a) - 1;
      assert Test(a, lo) && Test(a, hi);
      forall j: nat | LevelBit(mask, level, j) ensures lo <= j <= hi { assert Test(a, j); }
      assert SpanIs(mask, level, lo, hi);
    }
  }

  /** The hash has as many bits as the spans of the mask in the three levels. */
  lemma BitsExact(mask: nat)
    ensures exists a: nat, b: nat, c: nat ::
      Span(mask, 0, a) && Span(mask, 1, b) && Span(mask, 2, c) && Build(mask).bits == a + b + c
    ensures Build(mask).mask == mask
  {
    hide Span, Level, FirstBit, Fls;
    LevelSpan(mask, 0);
    LevelSpan(mask, 1);
    LevelSpan(mask, 2);
  }

  /** `smp_build_mpidr_hash`, over the logical map `ids`. */
  method BuildMpidrHash(ids: seq<nat>) returns (h: Hash)
    requires ids != [] && forall i | 0 <= i < |ids| :: ids[i] < Pow2(24)
    ensures h == Build(Differing(ids, |ids|))
  {
    hide Level, Fls, Ffs, Pow2, Or, Xor;
    var mask := 0;
    for i := 0 to |ids|
      invariant mask == Differing(ids, i)
    {
      mask := Or(mask, Xor(ids[i], ids[0]));
    }
    var fs, bits := new nat[3], new nat[3];
    for i := 0 to 3
      invariant forall k | 0 <= k < i :: fs[k] == FirstBit(Level(mask, k))
      invariant forall k | 0 <= k < i :: bits[k] == Fls(Level(mask, k)) - fs[k] && bits[k] <= 8
    {
      var affinity := Level(mask, i);
      LevelSmall(mask, i);
      FieldOf(0, affinity);
      var ls := Fls(affinity);
      fs[i] := if affinity != 0 then Ffs(affinity) - 1 else 0;
      bits[i] := ls - fs[i];
    }
    h := Hash(mask, [fs[0], 8 + fs[1] - bits[0], 2 * 8 + fs[2] - (bits[1] + bits[0])], bits[2] + bits[1] + bits[0]);
  }

  // ----- The logical map at boot -----

  /** `smp_setup_processor_id`: CPU 0 is the boot CPU, and nobody else is. */
  method SetupProcessorId(mpidr: nat, nrCpus: nat) returns (logical: array<nat>)
    requires nrCpus >= 1
    ensures logical.Length == nrCpus && logical[0] == Level(mpidr, 0)
    ensures forall i, j | 0 <= i < j < nrCpus :: logical[i] != logical[j]
    ensures forall i | 0 <= i < nrCpus && i != Level(mpidr, 0) :: logical[i] == i || i == 0
    ensures Level(mpidr, 0) < nrCpus ==> logical[Level(mpidr, 0)] == 0
  {
    hide Level;
    var cpu := Level(mpidr, 0);
    logical := new nat[nrCpus];
    logical[0] := cpu;
    for i := 1 to nrCpus
      invariant logical[0] == cpu
      invariant forall k | 1 <= k < i :: logical[k] == if k == cpu then 0 else k
    {
      logical[i] := if i == cpu then 0 else i;
    }
  }
}
