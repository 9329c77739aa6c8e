/** What `newfs_msdos` chooses when an option leaves it open: the FAT type, the reserved
    sectors, the root directory and the cluster size, for the layout it ends with. */
module NewfsChoice {
  import opened Arith
  import opened BootFields
  import opened Buffers
  import opened FatFormat
  import opened FatLayout
  import opened FatPlan
  import opened Newfs

  // ----- The FAT type -----

  /** Laid out with FATs of a type that have entries for `k` clusters, and a root
      directory of `rde` entries, the volume has at least `n` clusters of `spc` sectors. */
  predicate HasClusters(b: Bpb, bss: nat, fat: nat, rde: nat, k: nat, spc: nat, n: nat)
    requires b.bps >= 32 && spc >= 1
  {
    var res := if b.res > 0 then b.res else bss;
    var start := MetaData(res, CeilDiv(rde, b.bps / 32), FatSectors(fat, b, k), b.nft);
    start <= b.bsec && Between(start, b.bsec, spc) >= n
  }

  /** Too small for FAT16: fewer clusters than its least, or, when the cluster size is
      open, no more than FAT12 has in clusters of 4096 bytes. */
  predicate Small(b: Bpb, bss: nat)
    requires SectorSize(b.bps)
  {
    var rde := if b.rde > 0 then b.rde else 512;
    if b.spc > 0 then !HasClusters(b, bss, 16, rde, MINCLS16, b.spc, MINCLS16)
    else
      PositiveBlocks(b.bps);
      !HasClusters(b, bss, 12, rde, MAXCLS12 + 1, CeilDiv(4096, b.bps), MAXCLS12 + 1)
  }

  /** Too large for FAT16: more clusters than it has, of the size given or of 8192 bytes. */
  predicate Large(b: Bpb, bss: nat)
    requires SectorSize(b.bps)
  {
    PositiveBlocks(b.bps);
    HasClusters(b, bss, 16, 512, MAXCLS16, if b.spc > 0 then b.spc else CeilDiv(8192, b.bps), MAXCLS16 + 1)
  }

  lemma PositiveBlocks(bps: nat)
    requires SectorSize(bps)
    ensures CeilDiv(4096, bps) >= 1 && CeilDiv(8192, bps) >= CeilDiv(4096, bps)
  {
  }

  lemma RoomIsSize(b: Bpb, bss: nat, fat: nat, rde: nat, k: nat, spc: nat, n: nat)
    requires b.bps >= 32 && spc >= 1
    ensures HasClusters(b, bss, fat, rde, k, spc, n)
      <==> b.bsec >= VolumeSize(ReservedOr(b, bss), FatSectors(fat, b, k), b.nft, CeilDiv(rde, b.bps / 32), n, spc)
  {
    hide MetaData, FatSectors, CeilDiv, Between;
    var start := MetaData(ReservedOr(b, bss), CeilDiv(rde, b.bps / 32), FatSectors(fat, b, k), b.nft);
    if start <= b.bsec { BetweenAtLeast(start, b.bsec, spc, n); }
  }

  /** FATs of two-byte entries, counted in bytes or in nibbles. */
  lemma TwoByteFats(b: Bpb, k: nat)
    requires SectorSize(b.bps)
    ensures FatSectors(16, b, k) == CeilDiv((RESFTE + k) * 2, b.bps)
  {
    var q := CeilDiv((RESFTE + k) * 2, b.bps);
    DivBounds((RESFTE + k) * 2 + b.bps - 1, b.bps);
    assert q * (b.bps * 2) == q * b.bps * 2;
    DivUnique((RESFTE + k) * 4 + b.bps * 2 - 1, q, b.bps * 2);
  }

  lemma ChooseIs(b: Bpb, bss: nat)
    requires SectorSize(b.bps)
    ensures ChooseFat(b, bss) == 12 <==> Small(b, bss)
    ensures ChooseFat(b, bss) == 32 <==> !Small(b, bss) && b.rde == 0 && Large(b, bss)
    ensures FatType(ChooseFat(b, bss))
  {
    hide VolumeSize, FatSectors, HasClusters, CeilDiv;
    var rde := if b.rde > 0 then b.rde else 512;
    PositiveBlocks(b.bps);
    TwoByteFats(b, MAXCLS16);
    if b.spc > 0 {
      RoomIsSize(b, bss, 16, rde, MINCLS16, b.spc, MINCLS16);
      RoomIsSize(b, bss, 16, 512, MAXCLS16, b.spc, MAXCLS16 + 1);
    } else {
      RoomIsSize(b, bss, 12, rde, MAXCLS12 + 1, CeilDiv(4096, b.bps), MAXCLS12 + 1);
      RoomIsSize(b, bss, 16, 512, MAXCLS16, CeilDiv(8192, b.bps), MAXCLS16 + 1);
    }
  }

  // ----- A restart keeps the type, also of a cluster size it chose -----

  /** A chosen cluster size is the default, or the largest volume of the type leaves
      sectors over in clusters of half of it. */
  lemma {:induction false} PickSpcDoubled(fixed: nat, clusters: nat, bsec: nat, spc: nat)
    requires spc >= 1
    ensures var r := PickSpc(fixed, clusters, bsec, spc);
      r == spc || (r % 2 == 0 && r / 2 >= spc && fixed + (clusters + 1) * (r / 2) <= bsec)
    decreases MAXSPC - spc
  {
    if spc < MAXSPC && fixed + (clusters + 1) * spc <= bsec {
      PickSpcDoubled(fixed, clusters, bsec, 2 * spc);
    }
  }

  predicate Doubled(fat: nat, bps: nat, bsec: nat, spc: nat)
    requires bps > 0
  {
    spc == DefaultSpc(fat, bps) || (spc % 2 == 0 && (MaxCls(fat) + 1) * (spc / 2) <= bsec)
  }

  lemma ChosenDoubled(u: Setup, b: Bpb, extra: nat)
    requires CanSize(u, b) && u.setSpc
    ensures Doubled(u.fat, b.bps, b.bsec, Chosen(u, b, extra).spc)
  {
    hide FixedSectors, BaseReserved, MaxCls, DefaultSpc;
    var c := b.(res := if u.setRes then BaseReserved(u, b.bps) + extra else b.res, rde := RootEntries(u.fat, b.rde));
    PickSpcDoubled(FixedSectors(u.fat, c, c.res), MaxCls(u.fat), b.bsec, DefaultSpc(u.fat, b.bps));
  }

  lemma PassChosen(u: Setup, b: Bpb, extra: nat, attempts: nat)
    requires CanSize(u, b)
    ensures var p := OnePass(u, b, extra, attempts);
      p.Sized? ==> p.b.spc == Chosen(u, b, extra).spc && p.b.bps == b.bps && p.b.bsec == b.bsec
  {
    hide PickSpc, FixedSectors, RootSectors, DefaultSpc, FatSectors, Clusters, MetaData, BaseReserved, MaxCls,
      Alignment, Extra;
  }

  lemma {:induction false} SizingDoubled(u: Setup, b: Bpb, attempts: nat)
    requires CanSize(u, b) && u.setSpc
    ensures var p := Sizing(u, b, 0, attempts); p.Sized? ==> Doubled(u.fat, b.bps, b.bsec, p.b.spc)
  {
    hide OnePass, Sizing, Chosen, Doubled;
    SizingStep(u, b, 0, attempts);
    ChosenDoubled(u, b, 0);
    PassChosen(u, b, 0, attempts);
    var p := OnePass(u, b, 0, attempts);
    if p.Sized? && CanSize(u, p.b) && u.align && p.alignment != 0 && p.attempts < 2 {
      SizingStep(u, p.b, p.extra, p.attempts);
      ChosenDoubled(u, p.b, p.extra);
      PassChosen(u, p.b, p.extra, p.attempts);
    }
  }

  /** Halves of a cluster size chosen for FAT32 leave the volume too large for FAT16. */
  lemma HalfKeepsFat32(b: Bpb, bss: nat, spc: nat)
    requires Parsed(b) && b.spc == 0 && 1 <= bss <= MAXU16 && ChooseFat(b, bss) == 32
    requires spc >= 2 && Doubled(32, b.bps, b.bsec, spc)
    ensures ChooseFat(b.(spc := spc / 2), bss) == 32
  {
    hide CeilDiv, MetaData, DefaultSpc, FatSectors;
    var half := b.(spc := spc / 2);
    SmallFats(b, half);
    if spc == DefaultSpc(32, b.bps) {
      DefaultHalf(b.bps);
      MulLe(spc / 2, CeilDiv(8192, b.bps), MAXCLS16 + 1);
      SizesRise(half, b, bss);
    } else {
      assert half.(spc := 0) == b;
      LargeAnyway(half, bss);
    }
  }

  lemma DefaultHalf(bps: nat)
    requires SectorSize(bps)
    ensures DefaultSpc(32, bps) / 2 <= CeilDiv(8192, bps)
  {
  }

  lemma SmallFats(b: Bpb, c: Bpb)
    requires Parsed(b) && c == b.(spc := c.spc)
    ensures FatSectors(16, c, MINCLS16) <= CeilDiv((RESFTE + MAXCLS16) * 2, b.bps) <= 256
    ensures CeilDiv(512, b.bps / 32) <= 32
  {
    hide FatSectors;
    TwoByteFats(c, MAXCLS16);
    FatSectorsRise(16, c, MINCLS16, MAXCLS16);
    LargestTwoByte(b.bps);
  }

  lemma LargestTwoByte(bps: nat)
    requires SectorSize(bps)
    ensures CeilDiv((RESFTE + MAXCLS16) * 2, bps) <= 256 && CeilDiv(512, bps / 32) <= 32
  {
  }

  lemma SizesRise(half: Bpb, b: Bpb, bss: nat)
    requires Parsed(b) && b.spc == 0 && half == b.(spc := half.spc) && half.spc >= 1 && b.rde == 0
    requires b.bsec >= Fat16Below(b, bss)
    requires (MAXCLS16 + 1) * half.spc <= (MAXCLS16 + 1) * CeilDiv(8192, b.bps)
    requires FatSectors(16, half, MINCLS16) <= CeilDiv((RESFTE + MAXCLS16) * 2, b.bps)
    ensures half.bsec >= Fat12Below(half, bss) && half.bsec >= Fat16Below(half, bss)
  {
    hide CeilDiv, FatSectors;
    MulLe(FatSectors(16, half, MINCLS16), CeilDiv((RESFTE + MAXCLS16) * 2, b.bps), b.nft);
  }

  lemma LargeAnyway(b: Bpb, bss: nat)
    requires Parsed(b.(spc := 0)) && b.spc >= 1 && 1 <= bss <= MAXU16 && b.rde == 0
    requires (MaxCls(32) + 1) * b.spc <= b.bsec
    requires FatSectors(16, b, MINCLS16) <= CeilDiv((RESFTE + MAXCLS16) * 2, b.bps) <= 256
    requires CeilDiv(512, b.bps / 32) <= 32
    ensures b.bsec >= Fat12Below(b, bss) && b.bsec >= Fat16Below(b, bss)
  {
    hide CeilDiv, FatSectors;
    MulLe(FatSectors(16, b, MINCLS16), 256, b.nft);
    MulLe(CeilDiv((RESFTE + MAXCLS16) * 2, b.bps), 256, b.nft);
    MulLe(b.nft, 16, 256);
  }

  /** A restart does not change the type. */
  lemma RestartType(c: Command, spc: nat, attempts: nat)
    requires CommandOk(c) && (spc == 0 || ClusterSize(spc)) && TooFew(Attempt(c, spc, attempts))
    ensures var l := Attempt(c, spc, attempts);
      ClusterSize(l.b.spc) && ClusterSize(l.b.spc / 2) && FatOf(c, l.b.spc / 2) == FatOf(c, spc) == 32
  {
    hide Attempt, ChooseFat, AreaOf, SetupFor, Sizing, Finish, Doubled, ClusterSize;
    var l := Attempt(c, spc, attempts);
    AttemptSpc(c, spc, attempts);
    HalfSize(l.b.spc);
    if c.fat == 0 {
      if spc == 0 {
        AttemptIs(c, spc, attempts);
        SetupFits(c, spc);
        var u, b := SetupFor(c, spc), c.b.(spc := spc);
        FinishSpc(u.fat, Sizing(u, b, 0, attempts));
        SizingDoubled(u, b, attempts);
        HalfKeepsFat32(b, c.bss, l.b.spc);
        assert b.(spc := l.b.spc / 2) == c.b.(spc := l.b.spc / 2);
      } else {
        RestartKeepsType(c, spc);
      }
    }
  }

  lemma FinishSpc(fat: nat, p: Sized)
    requires FatType(fat) && (p.Sized? ==> p.b.spc >= 1)
    ensures Finish(fat, p).Laid? ==> p.Sized? && Finish(fat, p).b.spc == p.b.spc
  {
    hide AllClusters, EntryLimit, MinCls, MaxCls;
  }

  lemma {:induction false} LastType(c: Command, spc: nat, attempts: nat)
    requires CommandOk(c) && (spc == 0 || ClusterSize(spc))
    ensures FatOf(c, LastStart(c, spc, attempts).spc) == FatOf(c, spc)
    decreases if spc == 0 then 2 * MAXSPC else spc
  {
    hide Attempt, ClusterSize, FatOf;
    var l := Attempt(c, spc, attempts);
    AttemptSpc(c, spc, attempts);
    if TooFew(l) {
      HalfSize(l.b.spc);
      RestartType(c, spc, attempts);
      LastType(c, l.b.spc / 2, l.attempts);
    }
  }

  /** The FAT type of the layout the program ends with, whatever it restarts: the one
      given; or FAT12 on volumes too small for FAT16, FAT32 on volumes too large for it
      unless a root directory size is given, and FAT16 on the others. */
  lemma {:induction false} FormatType(c: Command, spc: nat, attempts: nat)
    requires CommandOk(c) && (spc == 0 || ClusterSize(spc))
    ensures var l, b := Format(c, spc, attempts).layout, c.b.(spc := spc);
      l.Laid? ==>
        && FatType(l.fat) && (c.fat != 0 ==> l.fat == c.fat)
        && (c.fat == 0 ==> (l.fat == 12 <==> Small(b, c.bss)))
        && (c.fat == 0 ==> (l.fat == 32 <==> !Small(b, c.bss) && b.rde == 0 && Large(b, c.bss)))
  {
    hide Attempt, Format, ChooseFat, Small, Large, LastStart, ClusterSize;
    var s := LastStart(c, spc, attempts);
    LastLayout(c, spc, attempts);
    LastType(c, spc, attempts);
    AttemptSpc(c, s.spc, s.attempts);
    FatOfType(c, spc);
    ChooseIs(c.b.(spc := spc), c.bss);
  }

  // ----- Reserved sectors, root directory and cluster size -----

  /** The last pass of a sizing loop worked on the parameters it was given, with some
      more reserved sectors if it aligns. */
  lemma PassNumbers(u: Setup, b: Bpb, extra: nat, attempts: nat)
    requires CanSize(u, b)
    ensures var p, c := OnePass(u, b, extra, attempts), Chosen(u, b, extra);
      p.Sized? ==>
        && p.b == c.(bspf := p.b.bspf) && p.rds == RootSectors(u.fat, c) && (!u.setSpf ==> p.b.bspf == b.bspf)
        && (u.setRes ==> p.extra == extra + c.spc - p.alignment && p.alignment < c.spc)
        && (!u.setRes ==> p.alignment == 0)
  {
    hide Chosen, FatSectors, RootSectors, Clusters, MetaData;
  }

  ghost predicate Sizes(u: Setup, b: Bpb, attempts: nat, extra: nat, p: Sized)
    requires CanSize(u, b)
  {
    && p.Sized? && p.b == Chosen(u, b, extra).(bspf := p.b.bspf) && p.rds == RootSectors(u.fat, Chosen(u, b, extra))
    && (!u.setSpf ==> p.b.bspf == b.bspf)
    && extra <= MAXSPC && (extra == 0 || (u.align && u.setRes && attempts == 0))
  }

  lemma {:induction false} SizingNumbers(u: Setup, b: Bpb, attempts: nat)
    requires CanSize(u, b) && SectorSize(b.bps) && (b.spc == 0 || ClusterSize(b.spc))
    ensures Sizing(u, b, 0, attempts).Sized? ==>
      exists extra: nat :: Sizes(u, b, attempts, extra, Sizing(u, b, 0, attempts))
  {
    hide OnePass, Sizing, Chosen, RootSectors, SectorSize, Sizes;
    var p := OnePass(u, b, 0, attempts);
    SizingStep(u, b, 0, attempts);
    PassNumbers(u, b, 0, attempts);
    PassSpc(u, b, 0, attempts);
    if p.Sized? {
      if CanSize(u, p.b) && u.align && p.alignment != 0 && p.attempts < 2 {
        var extra := p.extra;
        SizingStep(u, p.b, extra, p.attempts);
        PassNumbers(u, p.b, extra, p.attempts);
        ChosenAgain(u, b, p.b.bspf, extra);
        SecondSizes(u, b, attempts, extra, p.b.bspf, OnePass(u, p.b, extra, p.attempts));
      } else {
        FirstSizes(u, b, attempts, p);
      }
    }
  }

  lemma FirstSizes(u: Setup, b: Bpb, attempts: nat, p: Sized)
    requires CanSize(u, b) && p.Sized? && p.b == Chosen(u, b, 0).(bspf := p.b.bspf)
    requires p.rds == RootSectors(u.fat, Chosen(u, b, 0)) && (!u.setSpf ==> p.b.bspf == b.bspf)
    ensures Sizes(u, b, attempts, 0, p)
  {
  }

  lemma SecondSizes(u: Setup, b: Bpb, attempts: nat, extra: nat, spf: nat, p: Sized)
    requires CanSize(u, b) && u.align && u.setRes && attempts == 0 && extra <= MAXSPC
    requires p.Sized? ==>
      && p.b == Chosen(u, b, extra).(bspf := p.b.bspf) && (!u.setSpf ==> p.b.bspf == spf == b.bspf)
      && p.rds == RootSectors(u.fat, Chosen(u, b, extra).(bspf := spf))
    ensures p.Sized? ==> Sizes(u, b, attempts, extra, p)
  {
  }

  /** The fewest reserved sectors: up to the end of the boot, info and backup sectors, and
      on FAT32 no fewer than 4, nor than 16384 bytes. */
  predicate FewestReserved(fat: nat, least: nat, bps: nat, res: nat) {
    && res >= least && (fat == 32 ==> res >= 4 && res * bps >= 16384)
    && (res == least || (fat == 32 && (res == 4 || res * bps == 16384)))
  }

  lemma BaseIsFewest(u: Setup, bps: nat)
    requires SetupOk(u) && SectorSize(bps)
    ensures FewestReserved(u.fat, u.least, bps, BaseReserved(u, bps))
  {
  }

  /** The smallest number of sectors of at least so many bytes. */
  predicate FewestSectors(bytes: nat, bps: nat, n: nat) { n >= 1 && n * bps >= bytes && (n - 1) * bps < bytes }

  lemma DefaultIsFewest(fat: nat, bps: nat)
    requires SectorSize(bps)
    ensures FewestSectors(if fat == 16 then 2048 else 4096, bps, DefaultSpc(fat, bps))
  {
  }

  /** `spc` is `start` doubled while the largest volume of the type leaves sectors over. */
  predicate DoubledUntil(start: nat, fixed: nat, clusters: nat, bsec: nat, spc: nat) {
    && (spc >= MAXSPC || fixed + (clusters + 1) * spc > bsec)
    && (spc == start || (spc % 2 == 0 && spc / 2 >= start && spc / 2 < MAXSPC && fixed + (clusters + 1) * (spc / 2) <= bsec))
    && start >= 1 && spc % start == 0
  }

  lemma {:induction false} PickSpcIs(fixed: nat, clusters: nat, bsec: nat, spc: nat)
    requires spc >= 1
    ensures DoubledUntil(spc, fixed, clusters, bsec, PickSpc(fixed, clusters, bsec, spc))
    decreases MAXSPC - spc
  {
    PickSpcMultiple(fixed, clusters, bsec, spc);
    if spc < MAXSPC && fixed + (clusters + 1) * spc <= bsec {
      PickSpcIs(fixed, clusters, bsec, 2 * spc);
    }
  }

  /** The fields that the options leave open, for a setup, with `extra` more reserved
      sectors than needed. */
  ghost predicate ChosenWell(u: Setup, b: Bpb, extra: nat, c: Bpb, rds: nat)
    requires b.bps >= 32
  {
    && c.bps == b.bps && c.nft == b.nft && c.bsec == b.bsec
    && c.rde == (if u.fat != 32 && b.rde == 0 then 512 else b.rde) && rds == CeilDiv(c.rde, b.bps / 32)
    && (if u.setRes then c.res >= extra && FewestReserved(u.fat, u.least, b.bps, c.res - extra) else c.res == b.res)
    && (if u.setSpc then SpcChosen(u.fat, c, rds) else c.spc == b.spc)
  }

  /** 2048 or 4096 bytes, doubled while the type leaves sectors over. */
  ghost predicate SpcChosen(fat: nat, c: Bpb, rds: nat)
    requires c.bps >= 32
  {
    var fixed := MetaData(c.res, rds, FatSectors(fat, c, MaxCls(fat)), c.nft);
    exists start: nat {:trigger DoubledUntil(start, fixed, MaxCls(fat), c.bsec, c.spc)} ::
      && FewestSectors(if fat == 16 then 2048 else 4096, c.bps, start)
      && DoubledUntil(start, fixed, MaxCls(fat), c.bsec, c.spc)
  }

  lemma ChosenFixed(u: Setup, b: Bpb, extra: nat)
    requires CanSize(u, b)
    ensures var c, rds := Chosen(u, b, extra), RootSectors(u.fat, Chosen(u, b, extra));
      && c.bps == b.bps && c.nft == b.nft && c.bsec == b.bsec
      && c.rde == (if u.fat != 32 && b.rde == 0 then 512 else b.rde) && rds == CeilDiv(c.rde, b.bps / 32)
      && c.res == (if u.setRes then BaseReserved(u, b.bps) + extra else b.res)
      && (if u.setSpc then
            c.spc == PickSpc(MetaData(c.res, rds, FatSectors(u.fat, c, MaxCls(u.fat)), c.nft), MaxCls(u.fat), c.bsec,
                             DefaultSpc(u.fat, c.bps))
          else c.spc == b.spc)
  {
    hide BaseReserved, PickSpc, DefaultSpc, CeilDiv, MaxCls;
  }

  lemma ChosenIsWell(u: Setup, b: Bpb, extra: nat)
    requires CanSize(u, b) && SetupOk(u) && SectorSize(b.bps)
    ensures ChosenWell(u, b, extra, Chosen(u, b, extra), RootSectors(u.fat, Chosen(u, b, extra)))
  {
    hide BaseReserved, PickSpc, DefaultSpc, CeilDiv, MaxCls, Chosen, RootSectors, MetaData, FatSectors, FewestReserved,
      FewestSectors, DoubledUntil;
    var c, rds := Chosen(u, b, extra), RootSectors(u.fat, Chosen(u, b, extra));
    ChosenFixed(u, b, extra);
    BaseIsFewest(u, b.bps);
    DefaultIsFewest(u.fat, b.bps);
    PickSpcIs(MetaData(c.res, rds, FatSectors(u.fat, c, MaxCls(u.fat)), c.nft), MaxCls(u.fat), c.bsec,
              DefaultSpc(u.fat, c.bps));
  }

  lemma WellSame(u: Setup, b: Bpb, extra: nat, c: Bpb, d: Bpb, rds: nat)
    requires b.bps >= 32 && ChosenWell(u, b, extra, c, rds) && d == c.(bspf := d.bspf)
    ensures ChosenWell(u, b, extra, d, rds) && d.bsec == b.bsec
  {
    hide FewestSectors, DoubledUntil, MaxCls, FewestReserved;
    assert FatSectors(u.fat, d, MaxCls(u.fat)) == FatSectors(u.fat, c, MaxCls(u.fat));
  }

  /** How far the reserved sectors may exceed the fewest. */
  ghost predicate MayAlign(c: Command, s: Beginning, extra: nat) {
    extra <= MAXSPC && (extra == 0 || (c.align && c.b.res == 0 && s.attempts == 0))
  }

  /** The layout the program ends with keeps what was given, and chooses the fewest
      reserved sectors (more only to align), 512 root entries, and for the cluster size
      2048 or 4096 bytes doubled while the FAT type leaves sectors over. */
  lemma {:induction false} FormatNumbers(c: Command, spc: nat, attempts: nat)
    requires CommandOk(c) && (spc == 0 || ClusterSize(spc))
    ensures var l, s := Format(c, spc, attempts).layout, LastStart(c, spc, attempts);
      l.Laid? ==>
        && AreaOf(c, s.spc).Area? && c.b.bps >= 32 && (c.b.bspf > 0 ==> l.b.bspf == c.b.bspf)
        && (!l.trimmed ==> l.b.bsec == c.b.bsec)
        && exists extra: nat ::
             && MayAlign(c, s, extra)
             && ChosenWell(SetupFor(c, s.spc), c.b.(spc := s.spc), extra, l.b.(bsec := c.b.bsec), l.rds)
  {
    hide Attempt, Format, LastStart, AreaOf, FatOf, ClusterSize, SectorSize, Sizing, Chosen, RootSectors, ChosenWell,
      Finish, SetupFor;
    var s := LastStart(c, spc, attempts);
    LastLayout(c, spc, attempts);
    AttemptIs(c, s.spc, s.attempts);
    AttemptSpc(c, s.spc, s.attempts);
    var l := Attempt(c, s.spc, s.attempts);
    if l.Laid? {
      SetupFits(c, s.spc);
      var u, b := SetupFor(c, s.spc), c.b.(spc := s.spc);
      var p := Sizing(u, b, 0, s.attempts);
      FinishKeeps(u.fat, p);
      SizingNumbers(u, b, s.attempts);
      var extra: nat :| Sizes(u, b, s.attempts, extra, p);
      ChosenIsWell(u, b, extra);
      WellSame(u, b, extra, Chosen(u, b, extra), p.b, p.rds);
      assert l.b.(bsec := c.b.bsec) == p.b;
      assert MayAlign(c, s, extra);
    }
  }

  lemma FinishKeeps(fat: nat, p: Sized)
    requires FatType(fat) && (p.Sized? ==> p.b.spc >= 1)
    ensures var l := Finish(fat, p);
      l.Laid? ==> p.Sized? && l.b == p.b.(bsec := l.b.bsec) && l.rds == p.rds && (!l.trimmed ==> l.b == p.b) && l.fat == fat
  {
    hide AllClusters, EntryLimit, MinCls, MaxCls;
  }

  // ----- Info and backup sectors, and refusals -----

  /** On FAT32 the info sector goes to the end of the boot code and the backup behind it,
      unless they are given (65535: none); the reserved area ends behind all of them. It
      is refused when a sector to choose is taken or out of numbers, or both coincide. */
  lemma SystemAreaExact(bss: nat, infs0: nat, bkbs0: nat)
    requires 1 <= bss <= MAXU16 && infs0 <= MAXU16 && bkbs0 <= MAXU16
    ensures var infs := if infs0 == 0 then bss else infs0;
      var behind := if infs != MAXU16 && infs >= bss then infs + 1 else bss;
      var bkbs := if bkbs0 == 0 then behind else bkbs0;
      var a := SystemArea(32, bss, infs0, bkbs0);
      && (a.NoRoomThere? <==> (infs0 == 0 && infs == MAXU16) || (bkbs0 == 0 && bkbs == MAXU16)
                              || (infs == bkbs && bkbs != MAXU16))
      && (a.Area? ==>
            && a.infs == infs && a.bkbs == bkbs && a.least >= bss
            && (infs != MAXU16 ==> infs < a.least) && (bkbs != MAXU16 ==> bkbs < a.least)
            && (a.least == bss || (a.least == infs + 1 <= MAXU16) || (a.least == bkbs + 1 <= MAXU16)))
    ensures forall fat | fat == 12 || fat == 16 :: SystemArea(fat, bss, infs0, bkbs0) == Area(bss, infs0, bkbs0)
  {
  }

  /** The refusals of one pass, before the clusters are counted. */
  lemma PassRefuses(u: Setup, b: Bpb, extra: nat, attempts: nat)
    requires CanSize(u, b)
    ensures var p, c := OnePass(u, b, extra, attempts), Chosen(u, b, extra);
      && (p == Bad(FewReserved) <==> !u.setRes && b.res < u.least)
      && (p == Bad(ManySectorsPerFat) <==> (u.setRes || b.res >= u.least) && u.fat != 32 && b.bspf > MAXU16)
      && (p.Bad? ==> p.error in {FewReserved, ManySectorsPerFat, MetaDataExceeds})
      && (p == Bad(MetaDataExceeds) ==>
            MetaData(c.res, RootSectors(u.fat, c), if b.bspf > 0 then b.bspf else 1, c.nft) > b.bsec)
  {
    hide FatSectors, RootSectors, Clusters, MetaData, PickSpc, FixedSectors, DefaultSpc, BaseReserved;
  }

  lemma FinishRefuses(fat: nat, p: Sized)
    requires FatType(fat) && (p.Sized? ==> p.b.spc >= 1)
    ensures var l := Finish(fat, p);
      && (p.Bad? ==> l == Failed(p.error)) && (p.Sized? && l.Failed? ==> l == Failed(FewClusters))
  {
    hide AllClusters, EntryLimit, MinCls, MaxCls, TrimmedSize;
  }

  /** Why there is no layout, when the FAT size is the program's choice. */
  lemma AttemptRefuses(c: Command, spc: nat, attempts: nat)
    requires CommandOk(c) && (spc == 0 || ClusterSize(spc)) && c.b.bspf == 0
    ensures var l := Attempt(c, spc, attempts);
      && (l == Failed(NoRoom) <==> AreaOf(c, spc).NoRoomThere?)
      && (AreaOf(c, spc).Area? ==>
            var least, u, b := AreaOf(c, spc).least, SetupFor(c, spc), c.b.(spc := spc);
            && Planned(c, spc)
            && (l == Failed(FewReserved) <==> 0 < c.b.res < least)
            && (l == Failed(MetaDataExceeds) <==> !(0 < c.b.res < least) && !HasRoom(u, b, attempts))
            && (l == Failed(FewClusters) <==> HasRoom(u, b, attempts) && !l.Laid?)
            && l != Failed(ManySectorsPerFat))
  {
    hide Attempt, AreaOf, FatOf, SetupFor, Finish, Sizing, OnePass, HasRoom, Chosen, RootSectors, MetaData;
    AttemptIs(c, spc, attempts);
    if AreaOf(c, spc).Area? {
      SetupFits(c, spc);
      var u, b := SetupFor(c, spc), c.b.(spc := spc);
      LeastIs(c, spc);
      var p := Sizing(u, b, 0, attempts);
      FinishRefuses(u.fat, p);
      SizedExactly(u, b, attempts);
      SizingRefuses(u, b, attempts);
    }
  }

  lemma LeastIs(c: Command, spc: nat)
    requires CommandOk(c) && AreaOf(c, spc).Area?
    ensures SetupFor(c, spc).least == AreaOf(c, spc).least
  {
    hide AreaOf, FatOf;
  }

  lemma {:induction false} SizingRefuses(u: Setup, b: Bpb, attempts: nat)
    requires OwnFat(u, b) && u.setRes == (b.res == 0)
    ensures var p := Sizing(u, b, 0, attempts);
      && (p == Bad(FewReserved) <==> 0 < b.res < u.least)
      && (p.Bad? ==> p.error == FewReserved || p.error == MetaDataExceeds)
  {
    hide OnePass, Sizing, Chosen, RootSectors, MetaData, FatSectors;
    SizingStep(u, b, 0, attempts);
    PassRefuses(u, b, 0, attempts);
    PassShape(u, b, attempts);
    PassNumbers(u, b, 0, attempts);
    var p := OnePass(u, b, 0, attempts);
    if p.Sized? && CanSize(u, p.b) && u.align && p.alignment != 0 && p.attempts < 2 {
      SizingStep(u, p.b, p.extra, p.attempts);
      PassRefuses(u, p.b, p.extra, p.attempts);
      LargestFits(u.fat, p.b, Min(Estimate(u.fat, p.b, Left(p)), MaxCls(u.fat)));
    }
  }
}
