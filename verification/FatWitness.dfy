/** Volumes on which `newfs_msdos` writes FATs that are too small, or a number of
    clusters that makes a reader take the volume for another FAT type. */
module FatWitness {
  import opened Arith
  import opened Buffers
  import opened FatLayout
  import opened FatFormat
  import opened FatPlan
  import opened FatCover

  /** What a reader finds in the layout of a plan. */
  lemma ReadOff(u: Setup, b: Bpb, attempts: nat)
    requires OwnFat(u, b) && HasRoom(u, b, attempts) && Inside(PlanOf(u, b, attempts))
    requires Reported(PlanOf(u, b, attempts)) >= MinCls(u.fat)
    ensures var l, q := Lay(u, b, attempts), PlanOf(u, b, attempts);
      && l.Laid? && l.b.spc == q.spc >= 1 && l.b.nft == q.nft && DataStart(l) <= l.b.bsec && l.fat == q.fat
      && l.cls == Reported(q) && ReaderClusters(l) == Derived(q) && FatType(l.fat) && Entries(l) == Holds(q)
      && l.trimmed == Trims(q) && l.warned == (q.spf < q.asked)
      && (!l.trimmed ==> l.clipped == (Counted(q) > Holds(q) - RESFTE))
  {
    hide Lay, PlanOf, Reported, Derived, Trims, Holds, Counted, Start, MetaData, EntriesIn, Between, MinCls, HasRoom;
    LaidExactly(u, b, attempts);
    LayFollows(u, b, attempts);
  }

  /** A FAT16 volume of 131616 sectors and a cluster size of two, aligned: although its
      first estimate meets every condition but the limit on the clusters, it ends with
      65535 clusters, 65536 entries and no sign of it, and a reader takes it for FAT32. */
  lemma AlignedShort(u: Setup, b: Bpb)
    requires b == Bpb(512, 2, 0, 2, 0, 131616, 0) && u == SetupOf(16, 1, b, true)
    ensures OwnFat(u, b) && Repeats(u, b, 0) && Chosen(u, b, 0).spc >= b.nft
    ensures MetaData(1, 32, 1, 2) == 35 && RemainderKept(16, Chosen(u, b, 0), 131616 - 35)
    ensures var l := Lay(u, b, 0);
      && l.Laid? && l.b.spc >= 1 && DataStart(l) <= l.b.bsec && !l.clipped && !l.warned && !l.trimmed
      && l.fat == 16 && l.cls == 65280 && ReaderClusters(l) == 65535 && Entries(l) == 65536
      && ReaderType(ReaderClusters(l)) == 32
  {
    hide FirstPlan, SecondPlan, Chosen, MetaData, RemainderKept, Reported, Derived, Trims, Holds, Counted, Lay;
    AlignedShortFirst(u, b);
    AlignedShortSecond(u, b);
    AlignedShortEnd(PlanOf(u, b, 0));
    ReadOff(u, b, 0);
  }

  lemma AlignedShortFirst(u: Setup, b: Bpb)
    requires b == Bpb(512, 2, 0, 2, 0, 131616, 0) && u == SetupOf(16, 1, b, true)
    ensures CanSize(u, b) && FirstPlan(u, b) == Plan(16, 512, 131616, 1, 32, 256, 2, 2, 0, 256)
    ensures Chosen(u, b, 0) == Bpb(512, 2, 1, 2, 512, 131616, 0)
    ensures MetaData(1, 32, 1, 2) == 35 && RemainderKept(16, Chosen(u, b, 0), 131616 - 35)
  {
    var c := Chosen(u, b, 0);
    assert RootSectors(16, c) == 32;
    assert Estimate(16, c, 131581) == 65535;
    assert FatSectors(16, c, 65525) == 256;
  }

  lemma AlignedShortSecond(u: Setup, b: Bpb)
    requires b == Bpb(512, 2, 0, 2, 0, 131616, 0) && u == SetupOf(16, 1, b, true)
    requires CanSize(u, b) && FirstPlan(u, b) == Plan(16, 512, 131616, 1, 32, 256, 2, 2, 0, 256)
    ensures SecondPlan(u, b) == Plan(16, 512, 131616, 2, 32, 256, 2, 2, 510, 256)
  {
    hide FirstPlan;
    var c := Chosen(u, b, 1);
    assert c == Bpb(512, 2, 2, 2, 512, 131616, 0);
    assert OffBy(1, 256, 2, 2) == 1;
    assert Estimate(16, c, 131070) <= 65525;
    assert FatSectors(16, c, 65280) == 256;
  }

  lemma AlignedShortEnd(q: Plan)
    requires q == Plan(16, 512, 131616, 2, 32, 256, 2, 2, 510, 256)
    ensures Inside(q) && Start(q) == 546 && Off(q) == 0 && !Trims(q) && Holds(q) == 65536
    ensures Counted(q) == Reported(q) == 65280 && Derived(q) == 65535
  {
  }

  /** A FAT12 volume of 32669 sectors, aligned, with the cluster size left to the program:
      the second pass halves the clusters and keeps the FAT of the first, which has 2048
      entries for 4077 clusters. The program warns. */
  lemma HalvedShort(u: Setup, b: Bpb)
    requires b == Bpb(512, 0, 0, 1, 0, 32669, 0) && u == SetupOf(12, 1, b, true)
    ensures OwnFat(u, b) && Repeats(u, b, 0) && FirstPlan(u, b).spc == 16
    ensures var l := Lay(u, b, 0);
      && l.Laid? && l.b.spc == 8 && DataStart(l) <= l.b.bsec && l.clipped && l.warned && !l.trimmed
      && l.fat == 12 && l.cls == 2046 && ReaderClusters(l) == 4077 && Entries(l) == 2048
  {
    hide FirstPlan, SecondPlan, Chosen, MetaData, Reported, Derived, Trims, Holds, Counted, Lay;
    HalvedShortFirst(u, b);
    HalvedShortSecond(u, b);
    HalvedShortEnd(PlanOf(u, b, 0));
    ReadOff(u, b, 0);
  }

  lemma HalvedShortFirst(u: Setup, b: Bpb)
    requires b == Bpb(512, 0, 0, 1, 0, 32669, 0) && u == SetupOf(12, 1, b, true)
    ensures CanSize(u, b) && FirstPlan(u, b) == Plan(12, 512, 32669, 1, 32, 6, 1, 16, 0, 6)
    ensures MetaData(1, 32, 1, 1) == 34
  {
    var c := Chosen(u, b, 0);
    HalvedShortSpc(b.(res := 1, rde := 512));
    assert c == Bpb(512, 16, 1, 1, 512, 32669, 0);
    assert RootSectors(12, c) == 32;
    assert Estimate(12, c, 32635) == 2040;
    assert FatSectors(12, c, 2040) == 6;
  }

  /** The clusters are doubled once from the default, and with more reserved sectors not at all. */
  lemma HalvedShortSpc(c: Bpb)
    requires c == Bpb(512, 0, c.res, 1, 512, 32669, 0) && (c.res == 1 || c.res == 10)
    ensures DefaultSpc(12, 512) == 8
    ensures PickSpc(FixedSectors(12, c, c.res), MaxCls(12), 32669, 8) == if c.res == 1 then 16 else 8
  {
    assert FatSectors(12, c, 4077) == 12;
    assert FixedSectors(12, c, c.res) == c.res + 44;
    if c.res == 1 { assert PickSpc(45, 4077, 32669, 16) == 16; }
  }

  lemma HalvedShortSecond(u: Setup, b: Bpb)
    requires b == Bpb(512, 0, 0, 1, 0, 32669, 0) && u == SetupOf(12, 1, b, true)
    requires CanSize(u, b) && FirstPlan(u, b) == Plan(12, 512, 32669, 1, 32, 6, 1, 16, 0, 6)
    ensures SecondPlan(u, b) == Plan(12, 512, 32669, 10, 32, 6, 1, 8, 5, 12)
  {
    hide FirstPlan, PickSpc;
    HalvedShortSpc(b.(res := 10, rde := 512));
    var c := Chosen(u, b, 9);
    assert c == Bpb(512, 8, 10, 1, 512, 32669, 0);
    assert OffBy(1, 6, 1, 16) == 7;
    assert Estimate(12, c, 32621) == 4077;
    assert FatSectors(12, c, 4077) == 12;
  }

  lemma HalvedShortEnd(q: Plan)
    requires q == Plan(12, 512, 32669, 10, 32, 6, 1, 8, 5, 12)
    ensures Inside(q) && Start(q) == 48 && Off(q) == 0 && !Trims(q) && Holds(q) == 2048
    ensures Counted(q) > Reported(q) == 2046 && Derived(q) == 4077
  {
  }

  /** The largest FAT16 volume has 65525 clusters, which makes a reader take it for FAT32:
      without `-A`, any volume that is trimmed ends there. */
  lemma LargestMisread(u: Setup, b: Bpb)
    requires b == Bpb(512, 4, 0, 2, 0, 400000, 0) && u == SetupOf(16, 1, b, false)
    ensures OwnFat(u, b) && !Repeats(u, b, 0)
    ensures var l := Lay(u, b, 0);
      && l.Laid? && l.b.spc >= 1 && DataStart(l) <= l.b.bsec && l.trimmed && Covered(l)
      && l.fat == 16 && ReaderClusters(l) == l.cls == 65525 && ReaderType(ReaderClusters(l)) == 32
  {
    hide FirstPlan, SecondPlan, Chosen, MetaData, Reported, Derived, Trims, Holds, Counted, Lay;
    LargestFirst(u, b);
    LargestEnd(PlanOf(u, b, 0));
    ReadOff(u, b, 0);
  }

  lemma LargestFirst(u: Setup, b: Bpb)
    requires b == Bpb(512, 4, 0, 2, 0, 400000, 0) && u == SetupOf(16, 1, b, u.align)
    ensures CanSize(u, b) && FirstPlan(u, b) == Plan(16, 512, 400000, 1, 32, 256, 2, 4, 0, 256)
    ensures MetaData(1, 32, 1, 2) == 35
  {
    var c := Chosen(u, b, 0);
    assert c == Bpb(512, 4, 1, 2, 512, 400000, 0);
    assert RootSectors(16, c) == 32;
    assert Estimate(16, c, 399965) > 65525;
    assert FatSectors(16, c, 65525) == 256;
  }

  lemma LargestEnd(q: Plan)
    requires q == Plan(16, 512, 400000, 1, 32, 256, 2, 4, 0, 256)
    ensures Inside(q) && Trims(q) && Holds(q) == 65536 && Reported(q) == Derived(q) == 65525
  {
    assert CeilDiv(0, 4) == 0;
  }

  /** The same volume with `-A`: the clusters kept beyond the limit have no entries. */
  lemma AlignedTrimmedShort(u: Setup, b: Bpb)
    requires b == Bpb(512, 4, 0, 2, 0, 400000, 0) && u == SetupOf(16, 1, b, true)
    ensures OwnFat(u, b) && Repeats(u, b, 0)
    ensures var l := Lay(u, b, 0);
      && l.Laid? && l.b.spc >= 1 && DataStart(l) <= l.b.bsec && l.trimmed && !l.warned
      && l.cls == 65525 && ReaderClusters(l) == 65653 && Entries(l) == 65536
  {
    hide FirstPlan, SecondPlan, Chosen, MetaData, Reported, Derived, Trims, Holds, Counted, Lay;
    LargestFirst(u, b);
    LargestSecond(u, b);
    LargestSecondEnd(PlanOf(u, b, 0));
    ReadOff(u, b, 0);
  }

  lemma LargestSecond(u: Setup, b: Bpb)
    requires b == Bpb(512, 4, 0, 2, 0, 400000, 0) && u == SetupOf(16, 1, b, true)
    requires CanSize(u, b) && FirstPlan(u, b) == Plan(16, 512, 400000, 1, 32, 256, 2, 4, 0, 256)
    ensures SecondPlan(u, b) == Plan(16, 512, 400000, 4, 32, 256, 2, 4, 510, 256)
  {
    hide FirstPlan;
    var c := Chosen(u, b, 3);
    assert c == Bpb(512, 4, 4, 2, 512, 400000, 0);
    assert OffBy(1, 256, 2, 4) == 1;
    assert Estimate(16, c, 399452) > 65525;
    assert FatSectors(16, c, 65525) == 256;
  }

  lemma LargestSecondEnd(q: Plan)
    requires q == Plan(16, 512, 400000, 4, 32, 256, 2, 4, 510, 256)
    ensures Inside(q) && Start(q) == 548 && Trims(q) && Holds(q) == 65536 && Reported(q) == 65525 && Derived(q) == 65653
  {
    assert CeilDiv(510, 4) == 128;
  }
}
