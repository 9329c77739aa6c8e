/** The layout part of `newfs_msdos_main`: the choice of FAT type, the sizing loop as
    the program runs it, and the restart of the whole layout with smaller clusters. */
module Newfs {
  import opened Arith
  import opened Buffers
  import opened FatLayout
  import opened FatFormat
  import opened FatPlan

  /** What the options and the disk give: the `bpb` with its default cluster size, the
      FAT type (0: to be chosen), the size of the boot code, the info and backup
      sectors (0: to be chosen), and `-A`. */
  datatype Command = Command(b: Bpb, fat: nat, bss: nat, infs: nat, bkbs: nat, align: bool)

  predicate CommandOk(c: Command) {
    && Parsed(c.b) && (c.fat == 0 || FatType(c.fat))
    && 1 <= c.bss <= MAXU16 && c.infs <= MAXU16 && c.bkbs <= MAXU16
  }

  // ----- FAT type and system sectors -----

  /** The sectors of a volume with so many clusters. */
  function VolumeSize(res: nat, spf: nat, nft: nat, rds: nat, clusters: nat, spc: nat): nat {
    MetaData(res, rds, spf, nft) + clusters * spc
  }

  function ReservedOr(b: Bpb, bss: nat): nat { if b.res > 0 then b.res else bss }

  /** The sizes below which lines 561 and 570 choose FAT12 and FAT16. */
  function Fat12Below(b: Bpb, bss: nat): nat
    requires b.bps >= 32
  {
    var rds := CeilDiv(if b.rde > 0 then b.rde else 512, b.bps / 32);
    if b.spc > 0 then
      VolumeSize(ReservedOr(b, bss), FatSectors(16, b, MINCLS16), b.nft, rds, MINCLS16, b.spc)
    else
      VolumeSize(ReservedOr(b, bss), FatSectors(12, b, MAXCLS12 + 1), b.nft, rds, MAXCLS12 + 1, CeilDiv(4096, b.bps))
  }

  function Fat16Below(b: Bpb, bss: nat): nat
    requires b.bps >= 32
  {
    VolumeSize(ReservedOr(b, bss), CeilDiv((RESFTE + MAXCLS16) * 2, b.bps), b.nft, CeilDiv(512, b.bps / 32),
               MAXCLS16 + 1, if b.spc > 0 then b.spc else CeilDiv(8192, b.bps))
  }

  function ChooseFat(b: Bpb, bss: nat): nat
    requires b.bps >= 32
  {
    if b.bsec < Fat12Below(b, bss) then 12
    else if b.rde > 0 || b.bsec < Fat16Below(b, bss) then 16
    else 32
  }

  datatype Area = NoRoomThere | Area(least: nat, infs: nat, bkbs: nat)

  /** Lines 580-597: where the info and backup sectors go, and the end of them all. */
  function SystemArea(fat: nat, bss: nat, infs0: nat, bkbs0: nat): Area {
    if fat != 32 then Area(bss, infs0, bkbs0)
    else if infs0 == 0 && (bss == MAXU16 || bss == bkbs0) then NoRoomThere
    else
      var infs := if infs0 == 0 then bss else infs0;
      var x := if infs != MAXU16 && bss <= infs then infs + 1 else bss;
      if bkbs0 == 0 && x == MAXU16 then NoRoomThere
      else if bkbs0 != 0 && bkbs0 != MAXU16 && bkbs0 == infs then NoRoomThere
      else
        var bkbs := if bkbs0 == 0 then x else bkbs0;
        Area(if bkbs != MAXU16 && x <= bkbs then bkbs + 1 else x, infs, bkbs)
  }

  /** The system sectors lie below `least`, and the backup is neither of the others. */
  lemma SystemAreaApart(bss: nat, infs0: nat, bkbs0: nat)
    requires 1 <= bss <= MAXU16 && infs0 <= MAXU16 && bkbs0 <= MAXU16
    ensures var a := SystemArea(32, bss, infs0, bkbs0);
      a.Area? ==>
        && bss <= a.least <= MAXU16
        && (a.infs != MAXU16 ==> a.infs < a.least) && (a.bkbs != MAXU16 ==> 1 <= a.bkbs < a.least && a.bkbs != a.infs)
        && (infs0 == 0 ==> a.infs == bss) && (infs0 == 0 && bkbs0 == 0 ==> a.bkbs == bss + 1 && a.least == bss + 2)
  {
  }

  // ----- One layout, and the restart -----

  function FatOf(c: Command, spc: nat): nat
    requires c.b.bps >= 32
  {
    if c.fat != 0 then c.fat else ChooseFat(c.b.(spc := spc), c.bss)
  }

  function AreaOf(c: Command, spc: nat): Area
    requires c.b.bps >= 32
  {
    SystemArea(FatOf(c, spc), c.bss, c.infs, c.bkbs)
  }

  /** The sizing loop, with a given cluster size or one to be chosen (0). */
  function SizeWith(c: Command, spc: nat, least: nat, attempts: nat): (p: Sized)
    requires CommandOk(c) && (spc == 0 || ClusterSize(spc))
    ensures p.Sized? ==> ClusterSize(p.b.spc) && (spc != 0 ==> p.b.spc == spc)
  {
    hide Sizing, ClusterSize, FatOf;
    var b := c.b.(spc := spc);
    var u := SetupOf(FatOf(c, spc), least, b, c.align);
    SizingSpc(u, b, 0, attempts);
    Sizing(u, b, 0, attempts)
  }

  lemma FatOfType(c: Command, spc: nat)
    requires CommandOk(c)
    ensures FatType(FatOf(c, spc))
  {
    hide Fat12Below, Fat16Below;
  }

  /** Lines 558-676 */
  function Attempt(c: Command, spc: nat, attempts: nat): Layout
    requires CommandOk(c) && (spc == 0 || ClusterSize(spc))
  {
    hide Sizing, FatOf, Finish, SizeWith;
    FatOfType(c, spc);
    var area := AreaOf(c, spc);
    if area.NoRoomThere? then Failed(NoRoom) else Finish(FatOf(c, spc), SizeWith(c, spc, area.least, attempts))
  }

  lemma AttemptSpc(c: Command, spc: nat, attempts: nat)
    requires CommandOk(c) && (spc == 0 || ClusterSize(spc))
    ensures var l := Attempt(c, spc, attempts);
      l.Laid? ==> l.fat == FatOf(c, spc) && ClusterSize(l.b.spc) && (spc != 0 ==> l.b.spc == spc)
  {
    hide Sizing, FatOf, SizeWith, AreaOf, AllClusters, EntryLimit, TrimmedSize, MinCls, MaxCls, ClusterSize;
    FatOfType(c, spc);
  }

  lemma {:induction false} PickSpcSize(fixed: nat, clusters: nat, bsec: nat, spc: nat)
    requires ClusterSize(spc)
    ensures ClusterSize(PickSpc(fixed, clusters, bsec, spc))
    decreases MAXSPC - spc
  {
    if spc < MAXSPC && fixed + (clusters + 1) * spc <= bsec {
      PickSpcSize(fixed, clusters, bsec, 2 * spc);
    }
  }

  lemma DefaultSize(fat: nat, bps: nat)
    requires SectorSize(bps)
    ensures ClusterSize(DefaultSpc(fat, bps))
  {
  }

  lemma PassSpc(u: Setup, b: Bpb, extra: nat, attempts: nat)
    requires CanSize(u, b) && SectorSize(b.bps) && (b.spc == 0 || ClusterSize(b.spc))
    ensures var p := OnePass(u, b, extra, attempts);
      p.Sized? ==> ClusterSize(p.b.spc) && p.b.bps == b.bps && (!u.setSpc ==> p.b.spc == b.spc)
                   && p.attempts == attempts + 1
  {
    hide PickSpc, FixedSectors, RootSectors, DefaultSpc, FatSectors, Clusters, MetaData, BaseReserved, ClusterSize,
      MaxCls, Alignment, Extra;
    var c := b.(res := if u.setRes then BaseReserved(u, b.bps) + extra else b.res, rde := RootEntries(u.fat, b.rde));
    DefaultSize(u.fat, b.bps);
    PickSpcSize(FixedSectors(u.fat, c, c.res), MaxCls(u.fat), b.bsec, DefaultSpc(u.fat, b.bps));
    assert CanSize(u, b) && !u.setSpc ==> b.spc != 0;
  }

  lemma {:induction false} SizingSpc(u: Setup, b: Bpb, extra: nat, attempts: nat)
    requires CanSize(u, b) && SectorSize(b.bps) && (b.spc == 0 || ClusterSize(b.spc))
    ensures var p := Sizing(u, b, extra, attempts);
      p.Sized? ==> ClusterSize(p.b.spc) && (!u.setSpc ==> p.b.spc == b.spc) && p.attempts > attempts
    decreases 2 - attempts
  {
    hide OnePass;
    PassSpc(u, b, extra, attempts);
    var p := OnePass(u, b, extra, attempts);
    if p.Sized? && u.align && p.alignment != 0 && p.attempts < 2 {
      SizingSpc(u, p.b, p.extra, p.attempts);
    }
  }

  /** Line 678: too few clusters for some readers, and clusters can be made smaller. */
  predicate TooFew(l: Layout) {
    l.Laid? && l.fat == 32 && l.cls < MINCLS32_MS_WINDOWS && l.b.spc > 1
  }

  datatype Run = Run(layout: Layout, tried: seq<nat>)

  /** The layouts from `set_option_again` on, with the cluster sizes tried. */
  function Format(c: Command, spc: nat, attempts: nat): Run
    requires CommandOk(c) && (spc == 0 || ClusterSize(spc))
    decreases if spc == 0 then 2 * MAXSPC else spc
  {
    hide Attempt, ClusterSize;
    var l := Attempt(c, spc, attempts);
    AttemptSpc(c, spc, attempts);
    if TooFew(l) then
      HalfSize(l.b.spc);
      var r := Format(c, l.b.spc / 2, l.attempts);
      Run(r.layout, [l.b.spc] + r.tried)
    else Run(l, if l.Laid? then [l.b.spc] else [])
  }

  predicate Halves(tried: seq<nat>) {
    && (forall i | 0 <= i < |tried| :: ClusterSize(tried[i]))
    && (forall i | 1 <= i < |tried| :: tried[i] == tried[i - 1] / 2)
  }

  /** The restart halves the cluster size each time, so there are at most eight
      layouts; the one it settles on is not FAT32, or has enough clusters for every
      reader, or has clusters of one sector. */
  lemma {:induction false} RestartEnds(c: Command, spc: nat, attempts: nat)
    requires CommandOk(c) && (spc == 0 || ClusterSize(spc))
    ensures var r := Format(c, spc, attempts);
      && Halves(r.tried) && |r.tried| <= 8
      && (|r.tried| > 0 && spc != 0 ==> r.tried[0] == spc)
      && (r.layout.Laid? ==>
            && |r.tried| > 0 && r.layout.b.spc == r.tried[|r.tried| - 1]
            && (r.layout.fat != 32 || r.layout.cls >= MINCLS32_MS_WINDOWS || r.layout.b.spc <= 1))
    decreases if spc == 0 then 2 * MAXSPC else spc
  {
    hide Attempt, ClusterSize, Halves, FatOf;
    var l := Attempt(c, spc, attempts);
    AttemptSpc(c, spc, attempts);
    if TooFew(l) {
      HalfSize(l.b.spc);
      RestartEnds(c, l.b.spc / 2, l.attempts);
      HalvesExtend(l.b.spc, Format(c, l.b.spc / 2, l.attempts).tried);
    } else {
      HalvesNone();
      if l.Laid? {
        HalvesExtend(l.b.spc, []);
        assert [l.b.spc] + [] == [l.b.spc];
      }
    }
  }

  lemma HalvesNone()
    ensures Halves([])
  {
  }

  lemma HalvesExtend(spc: nat, tried: seq<nat>)
    requires ClusterSize(spc) && Halves(tried) && (|tried| > 0 ==> tried[0] == spc / 2)
    ensures Halves([spc] + tried) && |tried| < 8
  {
    hide ClusterSize;
    HalvesBound([spc] + tried);
  }

  lemma HalfSize(spc: nat)
    requires ClusterSize(spc) && spc > 1
    ensures ClusterSize(spc / 2) && spc / 2 < spc
  {
  }

  function Doublings(n: nat): nat { if n <= 1 then 1 else 1 + Doublings(n / 2) }

  lemma {:induction false} HalvesBound(tried: seq<nat>)
    requires Halves(tried) && |tried| > 0
    ensures |tried| <= Doublings(tried[0]) <= 8
  {
    if |tried| > 1 {
      HalvesBound(tried[1..]);
      assert tried[1] == tried[0] / 2;
    }
    assert Doublings(tried[0]) <= 8;
  }

  // ----- What the reader of the final layout sees -----

  /** The reader counts the clusters that were reported, and one FAT has an entry for
      each of them. */
  predicate Covers(l: Layout)
    requires l.Laid?
  {
    && FatType(l.fat) && l.b.spc >= 1 && DataStart(l) <= l.b.bsec
    && ReaderClusters(l) == l.cls <= MaxCls(l.fat)
    && ReaderClusters(l) + RESFTE <= Entries(l)
  }

  /** The estimate of the FAT size lost no remainder to 32 bits. */
  predicate EstimateSound(c: Command, l: Layout)
    requires l.Laid?
  {
    && MetaData(l.b.res, l.rds, 1, l.b.nft) <= c.b.bsec && l.b.bps > 0 && l.b.spc > 0
    && RemainderKept(l.fat, l.b, c.b.bsec - MetaData(l.b.res, l.rds, 1, l.b.nft))
  }

  /** A reader that goes by the cluster count takes the volume for this type. */
  predicate ReadAs(l: Layout, fat: nat)
    requires l.Laid?
  {
    l.b.spc >= 1 && DataStart(l) <= l.b.bsec && ReaderType(ReaderClusters(l)) == fat
  }

  /** The setup of a layout, given its cluster size or 0. */
  function SetupFor(c: Command, spc: nat): Setup
    requires CommandOk(c) && AreaOf(c, spc).Area?
  {
    SetupOf(FatOf(c, spc), AreaOf(c, spc).least, c.b.(spc := spc), c.align)
  }

  lemma SetupFits(c: Command, spc: nat)
    requires CommandOk(c) && (spc == 0 || ClusterSize(spc)) && AreaOf(c, spc).Area?
    ensures var u, b := SetupFor(c, spc), c.b.(spc := spc);
      SetupOk(u) && Parsed(b) && CanSize(u, b) && u.fat == FatOf(c, spc) && u.align == c.align
      && u.setRes == (c.b.res == 0) && u.setSpf == (c.b.bspf == 0) && (c.b.bspf == 0 ==> OwnFat(u, b))
  {
    hide FatOf, SystemArea;
    FatOfType(c, spc);
    AreaLeast(FatOf(c, spc), c.bss, c.infs, c.bkbs);
  }

  /** A layout is the end of the sizing loop for its setup. */
  lemma {:induction false} AttemptIs(c: Command, spc: nat, attempts: nat)
    requires CommandOk(c) && (spc == 0 || ClusterSize(spc))
    ensures AreaOf(c, spc).NoRoomThere? ==> Attempt(c, spc, attempts) == Failed(NoRoom)
    ensures AreaOf(c, spc).Area? ==>
      var u, b := SetupFor(c, spc), c.b.(spc := spc);
      CanSize(u, b) && FatType(u.fat)
      && (Sizing(u, b, 0, attempts).Sized? ==> Sizing(u, b, 0, attempts).b.spc >= 1)
      && Attempt(c, spc, attempts) == Finish(u.fat, Sizing(u, b, 0, attempts))
  {
    hide FatOf, AreaOf, Finish, Sizing, SizeWith;
    FatOfType(c, spc);
    if AreaOf(c, spc).Area? {
      SetupFits(c, spc);
      SizeWithIs(c, spc, AreaOf(c, spc).least, attempts);
    }
  }

  /** With a FAT size of the program's choice: whether the layout covers the clusters a
      reader derives is what its plan says, and without `-A` the reported count, the clip
      and the warning follow from the estimate. */
  lemma AttemptCovers(c: Command, spc: nat, attempts: nat)
    requires CommandOk(c) && (spc == 0 || ClusterSize(spc)) && c.b.bspf == 0
    ensures var l := Attempt(c, spc, attempts);
      l.Laid? ==>
        && Planned(c, spc) && PlanOk(PlanFor(c, spc, attempts))
        && (Covered(l) <==> Enough(PlanFor(c, spc, attempts)))
        && (ReadAs(l, l.fat) <==> TypeKept(PlanFor(c, spc, attempts)))
        && (!c.align ==> (Covers(l) <==> !l.clipped || l.trimmed))
        && (!c.align && l.b.spc >= l.b.nft && EstimateSound(c, l) ==> Covers(l) && !l.warned)
  {
    hide OnePass, FatOf, AllClusters, EntryLimit, TrimmedSize, MaxCls, MinCls, MetaData, FatSectors, EntriesIn,
      Between, Estimate, AreaOf, PlanOf, Enough, TypeKept, Covered, SetupFor, Attempt;
    AttemptIs(c, spc, attempts);
    if Attempt(c, spc, attempts).Laid? {
      SetupFits(c, spc);
      CoversExactly(SetupFor(c, spc), c.b.(spc := spc), attempts);
      TypeRead(SetupFor(c, spc), c.b.(spc := spc), attempts);
      PlanFat(SetupFor(c, spc), c.b.(spc := spc), attempts);
      if !c.align { AttemptCoversOnce(c, spc, attempts); }
    }
  }

  lemma AttemptCoversOnce(c: Command, spc: nat, attempts: nat)
    requires CommandOk(c) && (spc == 0 || ClusterSize(spc)) && c.b.bspf == 0 && !c.align
    requires Attempt(c, spc, attempts).Laid?
    ensures var l := Attempt(c, spc, attempts);
      && (Covers(l) <==> !l.clipped || l.trimmed)
      && (l.b.spc >= l.b.nft && EstimateSound(c, l) ==> Covers(l) && !l.warned)
  {
    hide OnePass, FatOf, AllClusters, EntryLimit, TrimmedSize, MaxCls, MinCls, MetaData, FatSectors, EntriesIn,
      Between, Estimate, AreaOf, SetupFor, Attempt;
    AttemptIs(c, spc, attempts);
    SetupFits(c, spc);
    var u, b := SetupFor(c, spc), c.b.(spc := spc);
    SinglePassCovers(u, b, attempts);
    CoversUnlessClipped(u, b, attempts);
    PassPlain(u, b, attempts);
    FinishPlain(u.fat, OnePass(u, b, 0, attempts));
  }

  lemma AreaLeast(fat: nat, bss: nat, infs: nat, bkbs: nat)
    requires 1 <= bss <= MAXU16 && infs <= MAXU16 && bkbs <= MAXU16
    ensures var a := SystemArea(fat, bss, infs, bkbs); a.Area? ==> 1 <= a.least <= MAXU16
  {
    if fat == 32 { SystemAreaApart(bss, infs, bkbs); }
  }

  /** The plan of a layout with a FAT size of the program's choice. */
  predicate Planned(c: Command, spc: nat) {
    && CommandOk(c) && c.b.bspf == 0 && AreaOf(c, spc).Area?
    && CanSize(SetupFor(c, spc), c.b.(spc := spc))
  }

  function PlanFor(c: Command, spc: nat, attempts: nat): Plan
    requires Planned(c, spc)
  {
    PlanOf(SetupFor(c, spc), c.b.(spc := spc), attempts)
  }

  datatype Beginning = Beginning(spc: nat, attempts: nat)

  /** What the last of the layouts starts from. */
  function LastStart(c: Command, spc: nat, attempts: nat): (s: Beginning)
    requires CommandOk(c) && (spc == 0 || ClusterSize(spc))
    ensures s.spc == 0 || ClusterSize(s.spc)
    decreases if spc == 0 then 2 * MAXSPC else spc
  {
    hide Attempt, ClusterSize;
    var l := Attempt(c, spc, attempts);
    AttemptSpc(c, spc, attempts);
    if TooFew(l) then
      HalfSize(l.b.spc);
      LastStart(c, l.b.spc / 2, l.attempts)
    else Beginning(spc, attempts)
  }

  lemma {:induction false} LastLayout(c: Command, spc: nat, attempts: nat)
    requires CommandOk(c) && (spc == 0 || ClusterSize(spc))
    ensures var s := LastStart(c, spc, attempts); Format(c, spc, attempts).layout == Attempt(c, s.spc, s.attempts)
    decreases if spc == 0 then 2 * MAXSPC else spc
  {
    hide Attempt, ClusterSize;
    var l := Attempt(c, spc, attempts);
    AttemptSpc(c, spc, attempts);
    if TooFew(l) {
      HalfSize(l.b.spc);
      LastLayout(c, l.b.spc / 2, l.attempts);
    }
  }

  /** With a FAT size of the program's choice, whatever the restart does, the final layout
      has an entry for every cluster a reader derives, and is read as its own type, exactly
      if the plan of the last start says so; without `-A`, the exceptions are the volumes clipped at line 663
      alone, which needs fewer sectors per cluster than FATs or a lost remainder. */
  lemma {:induction false} FormatCovers(c: Command, spc: nat, attempts: nat)
    requires CommandOk(c) && (spc == 0 || ClusterSize(spc)) && c.b.bspf == 0
    ensures var l, s := Format(c, spc, attempts).layout, LastStart(c, spc, attempts);
      l.Laid? ==>
        && Planned(c, s.spc) && PlanOk(PlanFor(c, s.spc, s.attempts))
        && (Covered(l) <==> Enough(PlanFor(c, s.spc, s.attempts)))
        && (ReadAs(l, l.fat) <==> TypeKept(PlanFor(c, s.spc, s.attempts)))
        && (!c.align ==> (Covers(l) <==> !l.clipped || l.trimmed))
        && (!c.align && l.b.spc >= l.b.nft && EstimateSound(c, l) ==> Covers(l) && !l.warned)
  {
    hide Attempt, Covers, Covered, ReadAs, EstimateSound, Planned, PlanFor, Enough, TypeKept, PlanOk, ClusterSize,
      Format, LastStart;
    LastLayout(c, spc, attempts);
    AttemptCovers(c, LastStart(c, spc, attempts).spc, LastStart(c, spc, attempts).attempts);
  }

  /** The plan of a layout says that it is FAT32 with too few clusters for some readers,
      and that they can be made smaller. */
  predicate Restarts(c: Command, spc: nat, attempts: nat) {
    && Planned(c, spc) && HasRoom(SetupFor(c, spc), c.b.(spc := spc), attempts)
    && var q := PlanFor(c, spc, attempts);
       q.fat == 32 && Inside(q) && 2 <= Reported(q) < MINCLS32_MS_WINDOWS && q.spc > 1
  }

  /** The passes a layout makes. */
  function Passes(c: Command, spc: nat, attempts: nat): nat
    requires Planned(c, spc)
  {
    if Repeats(SetupFor(c, spc), c.b.(spc := spc), attempts) then 2 else 1
  }

  /** Whether there is a restart, and with what, can be read off the plan beforehand. */
  lemma RestartsExactly(c: Command, spc: nat, attempts: nat)
    requires CommandOk(c) && (spc == 0 || ClusterSize(spc)) && c.b.bspf == 0
    ensures var l := Attempt(c, spc, attempts);
      && (TooFew(l) <==> Restarts(c, spc, attempts))
      && (TooFew(l) ==>
            && l.b.spc == PlanFor(c, spc, attempts).spc && l.attempts == attempts + Passes(c, spc, attempts)
            && ClusterSize(l.b.spc) && (spc != 0 ==> l.b.spc == spc))
  {
    hide FatOf, AreaOf, PlanOf, Reported, Inside, HasRoom, SetupFor, Attempt, Derived, Holds, Trims, Covered, Lay,
      Finish, Sizing, ClusterSize, Repeats;
    AttemptIs(c, spc, attempts);
    AttemptSpc(c, spc, attempts);
    if AreaOf(c, spc).Area? {
      var u, b := SetupFor(c, spc), c.b.(spc := spc);
      SetupFits(c, spc);
      AttemptIsLay(c, spc, attempts);
      LaidExactly(u, b, attempts);
      LayFollows(u, b, attempts);
      PlanFat(u, b, attempts);
    }
  }

  /** What the last layout starts from, by the plans alone. */
  function PlannedStart(c: Command, spc: nat, attempts: nat): (s: Beginning)
    requires CommandOk(c) && (spc == 0 || ClusterSize(spc)) && c.b.bspf == 0
    decreases if spc == 0 then 2 * MAXSPC else spc
  {
    hide Attempt, ClusterSize, Planned, Restarts, PlanFor, Passes;
    RestartsExactly(c, spc, attempts);
    if Restarts(c, spc, attempts) then
      PlannedNext(c, spc, attempts);
      PlannedStart(c, PlanFor(c, spc, attempts).spc / 2, attempts + Passes(c, spc, attempts))
    else Beginning(spc, attempts)
  }

  lemma PlannedNext(c: Command, spc: nat, attempts: nat)
    requires CommandOk(c) && (spc == 0 || ClusterSize(spc)) && c.b.bspf == 0 && Restarts(c, spc, attempts)
    ensures Planned(c, spc) && var next := PlanFor(c, spc, attempts).spc;
      ClusterSize(next) && ClusterSize(next / 2) && next / 2 < next
      && (if spc == 0 then next <= MAXSPC else next == spc)
  {
    hide Attempt, PlanFor, HasRoom, Inside, Reported, SetupFor, AreaOf, Passes;
    RestartsExactly(c, spc, attempts);
    HalfSize(PlanFor(c, spc, attempts).spc);
  }

  lemma {:induction false} LastStartPlanned(c: Command, spc: nat, attempts: nat)
    requires CommandOk(c) && (spc == 0 || ClusterSize(spc)) && c.b.bspf == 0
    ensures LastStart(c, spc, attempts) == PlannedStart(c, spc, attempts)
    decreases if spc == 0 then 2 * MAXSPC else spc
  {
    hide Attempt, ClusterSize, Planned, Restarts, PlanFor, Passes;
    RestartsExactly(c, spc, attempts);
    AttemptSpc(c, spc, attempts);
    var l := Attempt(c, spc, attempts);
    if TooFew(l) {
      HalfSize(l.b.spc);
      PlannedNext(c, spc, attempts);
      LastStartPlanned(c, l.b.spc / 2, l.attempts);
    }
  }

  lemma AttemptIsLay(c: Command, spc: nat, attempts: nat)
    requires CommandOk(c) && (spc == 0 || ClusterSize(spc)) && c.b.bspf == 0 && AreaOf(c, spc).Area?
    ensures var u, b := SetupFor(c, spc), c.b.(spc := spc);
      OwnFat(u, b) && Attempt(c, spc, attempts) == Lay(u, b, attempts)
  {
    hide FatOf, AreaOf, SetupFor, Attempt, Finish, Sizing;
    AttemptIs(c, spc, attempts);
    SetupFits(c, spc);
  }

  // ----- The type chosen -----

  /** Smaller clusters do not change the choice of FAT32, so a restart keeps the type. */
  lemma RestartKeepsType(c: Command, spc: nat)
    requires CommandOk(c) && spc > 1 && ClusterSize(spc) && FatOf(c, spc) == 32
    ensures FatOf(c, spc / 2) == 32
  {
    hide CeilDiv, MetaData;
    var b, half := c.b.(spc := spc), c.b.(spc := spc / 2);
    MulLe(spc / 2, spc, MINCLS16);
    MulLe(spc / 2, spc, MAXCLS16 + 1);
    assert Fat12Below(half, c.bss) <= Fat12Below(b, c.bss);
    assert Fat16Below(half, c.bss) <= Fat16Below(b, c.bss);
  }

  /** The numbers behind the choice of FAT16. */
  lemma Fat16Room(u: Setup, b: Bpb, bss: nat, attempts: nat)
    requires OwnFat(u, b) && u == SetupOf(16, bss, b, u.align) && b.spc >= 1 && b.bsec >= Fat12Below(b, bss)
    ensures var p := OnePass(u, b, 0, attempts);
      if p.Bad? then p == Bad(FewReserved)
      else p.b.spc == b.spc && p.b.bps == b.bps && p.b.nft == b.nft && p.b.bsec == b.bsec
           && p.b.bsec >= VolumeSize(p.b.res, FatSectors(16, b, MINCLS16), b.nft, p.rds, MINCLS16, b.spc)
  {
    hide FatSectors, Clusters, CeilDiv, Alignment, Extra;
    FatPositive(16, b, MINCLS16);
    MulLe(1, FatSectors(16, b, MINCLS16), b.nft);
  }

  /** When FAT16 is chosen for a given cluster size, the layout is never refused for
      too few clusters, nor for its metadata. */
  lemma ChosenTypeFits(u: Setup, b: Bpb, bss: nat, attempts: nat)
    requires OwnFat(u, b) && u == SetupOf(16, bss, b, u.align) && b.spc >= b.nft && ChooseFat(b, bss) == 16
    ensures var p, l := OnePass(u, b, 0, attempts), LaidOnce(u, b, attempts);
      if p.Bad? then l == Failed(FewReserved)
      else MetaData(p.b.res, p.rds, 1, p.b.nft) <= p.b.bsec
           && (RemainderKept(16, p.b, Left(p)) ==> l.Laid? && l.cls >= MINCLS16)
  {
    hide OnePass, Estimate, RemainderKept, FatSectors, MetaData, Between, EntriesIn, AllClusters, EntryLimit,
      TrimmedSize;
    Fat16Room(u, b, bss, attempts);
    PassPlain(u, b, attempts);
    EstimateExact(u, b, attempts);
    var p := OnePass(u, b, 0, attempts);
    if p.Sized? {
      LargestFat(16, p.b);
      PlainNumbers(16, p);
      Fat16Clusters(u, b, p, attempts);
    }
  }

  lemma Fat16Clusters(u: Setup, b: Bpb, p: Sized, attempts: nat)
    requires OwnFat(u, b) && u.fat == 16 && b.spc >= 1 && p == OnePass(u, b, 0, attempts) && p.Sized?
    requires p.b.spc == b.spc && p.b.bps == b.bps && p.b.nft == b.nft && p.b.bsec == b.bsec && p.x1 <= p.b.bsec
    requires b.bsec >= VolumeSize(p.b.res, FatSectors(16, b, MINCLS16), b.nft, p.rds, MINCLS16, b.spc)
    ensures Between(p.x1, p.b.bsec, p.b.spc) >= MINCLS16
  {
    hide OnePass, Estimate, FatSectors;
    PassShape(u, b, attempts);
    var y := Min(Estimate(16, p.b, Left(p)), MaxCls(16));
    BetweenAtLeast(p.x1, p.b.bsec, p.b.spc, MINCLS16);
    SameFatSectors(b, p.b, MINCLS16);
    if y <= MINCLS16 {
      FatSectorsRise(16, p.b, y, MINCLS16);
      MulLe(p.b.bspf, FatSectors(16, b, MINCLS16), b.nft);
    } else {
      Fat16Many(p, y);
    }
  }

  lemma SameFatSectors(b: Bpb, c: Bpb, x: nat)
    requires b.bps == c.bps > 0
    ensures FatSectors(16, b, x) == FatSectors(16, c, x)
  {
  }

  lemma Fat16Many(p: Sized, y: nat)
    requires p.Sized? && p.b.bps >= 512 && 1 <= p.b.nft <= 16 && p.b.spc >= 1 && p.b.bspf >= 1
    requires MetaData(p.b.res, p.rds, 1, p.b.nft) <= p.b.bsec && y > MINCLS16
    requires y == Min(Estimate(16, p.b, Left(p)), MaxCls(16)) && p.b.bspf == FatSectors(16, p.b, y)
    requires p.x1 == MetaData(p.b.res, p.rds, p.b.bspf, p.b.nft) <= p.b.bsec
    ensures Between(p.x1, p.b.bsec, p.b.spc) >= MINCLS16
  {
    hide Estimate;
    var x, n, f := Estimate(16, p.b, Left(p)), NibblesPerSector(p.b), p.b.bspf;
    EstimateBounds(16, p.b, Left(p));
    CeilMul((RESFTE + y) * 4, n);
    EstimateLow(Left(p), p.b.spc, n, 4, p.b.nft, x, y, f);
    assert f * p.b.nft == (f - 1) * p.b.nft + p.b.nft;
    BetweenAtLeast(p.x1, p.b.bsec, p.b.spc, MINCLS16);
    MulLe(MINCLS16, y - 1, p.b.spc);
  }

  // ----- The program -----

  /** The `for` loop of lines 622-629 */
  method DoubleSpc(fat: nat, b: Bpb, rds: nat) returns (spc: nat)
    requires b.bps >= 32 && rds == RootSectors(fat, b)
    ensures spc == PickSpc(FixedSectors(fat, b, b.res), MaxCls(fat), b.bsec, DefaultSpc(fat, b.bps))
  {
    hide CeilDiv, MaxCls;
    spc := CeilDiv(if fat == 16 then 2048 else 4096, b.bps);
    CeilDivPositive(if fat == 16 then 2048 else 4096, b.bps);
    ghost var fixed := FixedSectors(fat, b, b.res);
    while spc < MAXSPC && b.res + FatSectors(fat, b, MaxCls(fat)) * b.nft + rds + (MaxCls(fat) + 1) * spc <= b.bsec
      invariant spc >= 1
      invariant PickSpc(fixed, MaxCls(fat), b.bsec, spc)
             == PickSpc(fixed, MaxCls(fat), b.bsec, DefaultSpc(fat, b.bps))
      decreases MAXSPC - spc
    {
      spc := 2 * spc;
    }
  }

  /** Lines 632-659: one estimate, and the FAT size and alignment that follow. */
  method EstimatePass(u: Setup, b0: Bpb, rds: nat, extra: nat, attempts: nat) returns (p: Sized)
    requires b0.bps >= 32 && b0.spc >= 1
    requires MetaData(b0.res, rds, FirstSpf(b0), b0.nft) <= b0.bsec
    ensures var x2 := FatSectors(u.fat, b0, Clusters(u.fat, b0, MetaData(b0.res, rds, FirstSpf(b0), b0.nft)));
      var spf := if u.setSpf && b0.bspf == 0 then x2 else b0.bspf;
      p == Sized(b0.(bspf := spf), rds,
                 if u.setSpf then Wrap(MetaData(b0.res, rds, FirstSpf(b0), b0.nft) + (spf - 1) * b0.nft)
                 else MetaData(b0.res, rds, FirstSpf(b0), b0.nft),
                 x2, Alignment(u, b0, spf), Extra(u, b0, spf, extra), attempts + 1)
  {
    hide FatSectors, MaxCls;
    var b := b0;
    var x := if b.bspf > 0 then b.bspf else 1;
    var x1 := b.res + rds + x * b.nft;
    x := Estimate(u.fat, b, b.bsec - x1);
    var x2 := FatSectors(u.fat, b, Min(x, MaxCls(u.fat)));
    if u.setSpf {
      if b.bspf == 0 { b := b.(bspf := x2); }
      x1 := Wrap(x1 + (b.bspf - 1) * b.nft);
    }
    var alignment, more := 0, extra;
    if u.setRes {
      alignment := (b.res + b.bspf * b.nft) % b.spc;
      more := extra + b.spc - alignment;
    }
    p := Sized(b, rds, x1, x2, alignment, more, attempts + 1);
  }

  lemma {:induction false} SizingStep(u: Setup, b: Bpb, extra: nat, attempts: nat)
    requires CanSize(u, b)
    ensures var p := OnePass(u, b, extra, attempts);
      Sizing(u, b, extra, attempts)
      == if p.Sized? && CanSize(u, p.b) && u.align && p.alignment != 0 && p.attempts < 2
         then Sizing(u, p.b, p.extra, p.attempts) else p
    ensures OnePass(u, b, extra, attempts).Sized? ==> OnePass(u, b, extra, attempts).attempts == attempts + 1
  {
    hide OnePass;
    PassAttempts(u, b, extra, attempts);
  }

  /** The `do` loop of lines 612-657 */
  method SizingLoop(u: Setup, b0: Bpb, attempts0: nat) returns (p: Sized)
    requires CanSize(u, b0)
    ensures p == Sizing(u, b0, 0, attempts0)
  {
    hide FixedSectors, PickSpc, DefaultSpc, FatSectors, Clusters, MetaData, Alignment, Extra, BaseReserved, CeilDiv,
      Sizing;
    var b, extra, attempts := b0, 0, attempts0;
    while true
      invariant CanSize(u, b) && Sizing(u, b, extra, attempts) == Sizing(u, b0, 0, attempts0)
      decreases if attempts < 2 then 2 - attempts else 0
    {
      ghost var start, before := b, extra;
      SizingStep(u, b, extra, attempts);
      if u.setRes {
        b := b.(res := BaseReserved(u, b.bps) + extra);
      } else if b.res < u.least {
        return Bad(FewReserved);
      }
      if u.fat != 32 && b.rde == 0 { b := b.(rde := 512); }
      var rds := CeilDiv(b.rde, b.bps / 32);
      if u.setSpc {
        var spc := DoubleSpc(u.fat, b, rds);
        b := b.(spc := spc);
      }
      assert b == Chosen(u, start, before);
      if u.fat != 32 && b.bspf > MAXU16 { return Bad(ManySectorsPerFat); }
      if MetaData(b.res, rds, FirstSpf(b), b.nft) > b.bsec { return Bad(MetaDataExceeds); }
      p := EstimatePass(u, b, rds, extra, attempts);
      assert p == OnePass(u, start, before, attempts);
      b, extra, attempts := p.b, p.extra, p.attempts;
      if !(u.align && p.alignment != 0 && attempts < 2) { return; }
    }
  }

  lemma {:induction false} SizeWithIs(c: Command, spc: nat, least: nat, attempts: nat)
    requires CommandOk(c) && (spc == 0 || ClusterSize(spc))
    ensures var b := c.b.(spc := spc);
      SizeWith(c, spc, least, attempts) == Sizing(SetupOf(FatOf(c, spc), least, b, c.align), b, 0, attempts)
  {
    hide Sizing, FatOf;
  }

  /** Lines 558-673 */
  method LayOut(c: Command, spc: nat, attempts: nat) returns (l: Layout)
    requires CommandOk(c) && (spc == 0 || ClusterSize(spc))
    ensures l == Attempt(c, spc, attempts)
  {
    hide Sizing, ChooseFat, SystemArea, FatSectors, EntriesIn, MaxCls, MinCls, SizeWith;
    FatOfType(c, spc);
    var b, fat := c.b.(spc := spc), c.fat;
    if fat == 0 { fat := ChooseFat(b, c.bss); }
    var area := SystemArea(fat, c.bss, c.infs, c.bkbs);
    if area.NoRoomThere? { return Failed(NoRoom); }
    var p := SizingLoop(SetupOf(fat, area.least, b, c.align), b, attempts);
    SizeWithIs(c, spc, area.least, attempts);
    if p.Bad? { return Failed(p.error); }
    b := p.b;
    var cls := AllClusters(p);
    var x := EntryLimit(fat, p);
    var clipped := cls > x;
    if clipped { cls := x; }
    if cls < MinCls(fat) { return Failed(FewClusters); }
    var trimmed := cls > MaxCls(fat);
    if trimmed {
      cls := MaxCls(fat);
      b := b.(bsec := Wrap(p.x1 + (cls + 1) * b.spc - 1));
    }
    l := Laid(fat, b, p.rds, cls, clipped, b.bspf < p.x2, trimmed, p.alignment, p.attempts);
  }

  lemma {:induction false} FormatStep(c: Command, spc: nat, attempts: nat)
    requires CommandOk(c) && (spc == 0 || ClusterSize(spc))
    ensures var l := Attempt(c, spc, attempts);
      if TooFew(l) then
        && ClusterSize(l.b.spc / 2) && l.b.spc / 2 < l.b.spc && (spc == 0 || l.b.spc == spc) && l.b.spc <= MAXSPC
        && Format(c, spc, attempts).layout == Format(c, l.b.spc / 2, l.attempts).layout
        && Format(c, spc, attempts).tried == [l.b.spc] + Format(c, l.b.spc / 2, l.attempts).tried
      else Format(c, spc, attempts) == Run(l, if l.Laid? then [l.b.spc] else [])
  {
    hide Attempt;
    AttemptSpc(c, spc, attempts);
    if TooFew(Attempt(c, spc, attempts)) { HalfSize(Attempt(c, spc, attempts).b.spc); }
  }

  /** From `set_option_again` to the layout that is written */
  method NewfsMsdos(c: Command) returns (l: Layout, tried: seq<nat>)
    requires CommandOk(c)
    ensures Run(l, tried) == Format(c, c.b.spc, 0)
  {
    hide Attempt, ClusterSize, Format;
    var opt_c: nat, attempts: nat := c.b.spc, 0;
    tried := [];
    while true
      invariant opt_c == 0 || ClusterSize(opt_c)
      invariant Format(c, c.b.spc, 0).layout == Format(c, opt_c, attempts).layout
      invariant Format(c, c.b.spc, 0).tried == tried + Format(c, opt_c, attempts).tried
      decreases if opt_c == 0 then 2 * MAXSPC else opt_c
    {
      l := LayOut(c, opt_c, attempts);
      FormatStep(c, opt_c, attempts);
      if l.Laid? { tried := tried + [l.b.spc]; }
      if !(l.Laid? && l.fat == 32 && l.cls < MINCLS32_MS_WINDOWS && l.b.spc > 1) { return; }
      opt_c, attempts := l.b.spc / 2, l.attempts;
    }
  }
}
