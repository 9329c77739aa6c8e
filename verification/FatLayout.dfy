/** The layout arithmetic of `newfs_msdos`: the choice of FAT type, the sizing loop
    with its alignment, and the restart with smaller clusters. Unsigned 32-bit
    arithmetic wraps where the operands can be large enough for it. */
module FatLayout {
  import opened Arith
  import opened Buffers

  const MAXU16 := 0xffff
  const RESFTE := 2
  const MAXSPC := 128
  const MINCLS16 := 0x1000
  const MAXCLS12 := 0xfed
  const MAXCLS16 := 0xfff5
  const MINCLS32_MS_WINDOWS := 65527 + 20

  function Max(a: nat, b: nat): nat { if a < b then b else a }

  function MinCls(fat: nat): nat { if fat == 12 then 1 else if fat == 16 then MINCLS16 else 2 }
  function MaxCls(fat: nat): nat { if fat == 12 then MAXCLS12 else if fat == 16 then MAXCLS16 else 0xffffff5 }

  predicate FatType(fat: nat) { fat == 12 || fat == 16 || fat == 32 }
  predicate SectorSize(n: nat) {
    n == 512 || n == 1024 || n == 2048 || n == 4096 || n == 8192 || n == 16384 || n == 32768
  }
  predicate ClusterSize(n: nat) {
    n == 1 || n == 2 || n == 4 || n == 8 || n == 16 || n == 32 || n == 64 || n == 128
  }

  /** The fields of `struct bpb` that the layout works on; 0 stands for "choose". */
  datatype Bpb = Bpb(bps: nat, spc: nat, res: nat, nft: nat, rde: nat, bsec: nat, bspf: nat)

  /** What option parsing leaves in it (lines 449-559). */
  predicate Parsed(b: Bpb) {
    && SectorSize(b.bps) && (b.spc == 0 || ClusterSize(b.spc)) && 1 <= b.nft <= 16
    && b.res <= MAXU16 && b.rde <= MAXU16 && b.bsec < WRAP && b.bspf < WRAP
  }

  /** What stays fixed during the sizing loop: the FAT type, the end of the boot, info
      and backup sectors, which fields are to be chosen, and `-A`. */
  datatype Setup = Setup(fat: nat, least: nat, setRes: bool, setSpf: bool, setSpc: bool, align: bool)

  function SetupOf(fat: nat, least: nat, b: Bpb, align: bool): Setup {
    Setup(fat, least, b.res == 0, b.bspf == 0, b.spc == 0, align)
  }

  predicate SetupOk(u: Setup) { FatType(u.fat) && 1 <= u.least <= MAXU16 }

  // ----- One pass of the sizing loop -----

  function Nibbles(fat: nat): nat { fat / 4 }
  function NibblesPerSector(b: Bpb): nat { b.bps * 2 }

  function BaseReserved(u: Setup, bps: nat): nat
    requires bps > 0
  {
    if u.fat == 32 then Max(u.least, Max(16384 / bps, 4)) else u.least
  }

  function RootEntries(fat: nat, rde: nat): nat { if fat != 32 && rde == 0 then 512 else rde }

  function RootSectors(fat: nat, b: Bpb): nat
    requires b.bps >= 32
  {
    CeilDiv(RootEntries(fat, b.rde), b.bps / 32)
  }

  /** The sectors one FAT needs for a number of clusters. */
  function FatSectors(fat: nat, b: Bpb, clusters: nat): nat
    requires b.bps > 0
  {
    CeilDiv((RESFTE + clusters) * Nibbles(fat), NibblesPerSector(b))
  }

  lemma CeilDivPositive(n: nat, m: nat)
    requires n >= 1 && m >= 1
    ensures CeilDiv(n, m) >= 1
  {
    DivBounds(n + m - 1, m);
  }

  /** Double the cluster size while the largest volume of the FAT type leaves sectors over. */
  function PickSpc(fixed: nat, clusters: nat, bsec: nat, spc: nat): (r: nat)
    requires spc >= 1
    ensures r >= spc
    decreases MAXSPC - spc
  {
    if spc < MAXSPC && fixed + (clusters + 1) * spc <= bsec then PickSpc(fixed, clusters, bsec, 2 * spc) else spc
  }

  function FixedSectors(fat: nat, b: Bpb, res: nat): nat
    requires b.bps >= 32
  {
    res + FatSectors(fat, b, MaxCls(fat)) * b.nft + RootSectors(fat, b)
  }

  function DefaultSpc(fat: nat, bps: nat): (r: nat)
    requires bps > 0
    ensures r >= 1
  {
    CeilDivPositive(if fat == 16 then 2048 else 4096, bps);
    CeilDiv(if fat == 16 then 2048 else 4096, bps)
  }

  /** Line 637 and the round-up of line 640, whose product is 32 bits wide. */
  function Estimate(fat: nat, b: Bpb, left: nat): nat
    requires b.bps > 0 && b.spc > 0
  {
    var d := b.spc * NibblesPerSector(b) + Nibbles(fat) * b.nft;
    left * NibblesPerSector(b) / d + if Wrap(left * NibblesPerSector(b)) % d > 0 then 1 else 0
  }

  datatype Error = FewReserved | ManySectorsPerFat | MetaDataExceeds | FewClusters | NoRoom

  /** The variables of the loop at the end of a pass. `alignment` stays 0 when the
      reserved sectors are given. */
  datatype Sized = Bad(error: Error)
                 | Sized(b: Bpb, rds: nat, x1: nat, x2: nat, alignment: nat, extra: nat, attempts: nat)

  /** A cluster size is given, or about to be chosen. */
  predicate CanSize(u: Setup, b: Bpb) { b.bps >= 32 && (u.setSpc || b.spc >= 1) }

  /** Lines 613-629: reserved sectors, root entries and cluster size. */
  function Chosen(u: Setup, b: Bpb, extra: nat): (c: Bpb)
    requires CanSize(u, b)
    ensures c.bps == b.bps && c.spc >= 1 && c.bspf == b.bspf
  {
    var c := b.(res := if u.setRes then BaseReserved(u, b.bps) + extra else b.res,
                rde := RootEntries(u.fat, b.rde));
    if u.setSpc then
      c.(spc := PickSpc(FixedSectors(u.fat, c, c.res), MaxCls(u.fat), c.bsec, DefaultSpc(u.fat, c.bps)))
    else c
  }

  /** The sectors before the clusters, for a FAT size. */
  function MetaData(res: nat, rds: nat, spf: nat, nft: nat): nat { res + rds + spf * nft }

  /** The clusters between the metadata and the end of the volume. */
  function Between(start: nat, bsec: nat, spc: nat): nat
    requires spc >= 1 && start <= bsec
  {
    (bsec - start) / spc
  }

  /** The entries that fit in a FAT of `spf` sectors. */
  function EntriesIn(fat: nat, bps: nat, spf: nat): nat
    requires Nibbles(fat) >= 1
  {
    spf * (bps * 2) / Nibbles(fat)
  }

  /** The FAT size the estimate is made with: one sector while it is unknown. */
  function FirstSpf(b: Bpb): nat { if b.bspf > 0 then b.bspf else 1 }

  function Clusters(fat: nat, b: Bpb, x1: nat): nat
    requires b.bps > 0 && b.spc > 0 && x1 <= b.bsec
  {
    Min(Estimate(fat, b, b.bsec - x1), MaxCls(fat))
  }

  function Alignment(u: Setup, b: Bpb, spf: nat): (a: nat)
    requires b.spc > 0
    ensures a < b.spc
  {
    if u.setRes then (b.res + spf * b.nft) % b.spc else 0
  }

  function Extra(u: Setup, b: Bpb, spf: nat, extra: nat): nat
    requires b.spc > 0
  {
    if u.setRes then extra + b.spc - Alignment(u, b, spf) else extra
  }

  function OnePass(u: Setup, b0: Bpb, extra: nat, attempts: nat): Sized
    requires CanSize(u, b0)
  {
    var b := Chosen(u, b0, extra);
    var rds := RootSectors(u.fat, b);
    var x1 := MetaData(b.res, rds, FirstSpf(b), b.nft);
    if !u.setRes && b.res < u.least then Bad(FewReserved)
    else if u.fat != 32 && b.bspf > MAXU16 then Bad(ManySectorsPerFat)
    else if x1 > b.bsec then Bad(MetaDataExceeds)
    else
      var x2 := FatSectors(u.fat, b, Clusters(u.fat, b, x1));
      var spf := if u.setSpf && b.bspf == 0 then x2 else b.bspf;
      Sized(b.(bspf := spf), rds,
            if u.setSpf then Wrap(x1 + (spf - 1) * b.nft) else x1, x2,
            Alignment(u, b, spf), Extra(u, b, spf, extra), attempts + 1)
  }

  function Sizing(u: Setup, b: Bpb, extra: nat, attempts: nat): Sized
    requires CanSize(u, b)
    decreases 2 - attempts
  {
    var p := OnePass(u, b, extra, attempts);
    if p.Sized? && CanSize(u, p.b) && u.align && p.alignment != 0 && p.attempts < 2
    then Sizing(u, p.b, p.extra, p.attempts) else p
  }

  // ----- The clusters -----

  /** A layout: the final `bpb`, what was reported, and whether the clips at lines 663
      and 669 and the warning at line 665 took effect. */
  datatype Layout = Failed(error: Error)
                  | Laid(fat: nat, b: Bpb, rds: nat, cls: nat, clipped: bool, warned: bool, trimmed: bool,
                         alignment: nat, attempts: nat)

  /** Lines 661 and 662 */
  function AllClusters(p: Sized): nat
    requires p.Sized? && p.b.spc >= 1
  {
    Wrap(p.b.bsec - p.x1) / p.b.spc
  }

  function EntryLimit(fat: nat, p: Sized): nat
    requires p.Sized? && Nibbles(fat) >= 1
  {
    Wrap(EntriesIn(fat, p.b.bps, p.b.bspf) - RESFTE)
  }

  function TrimmedSize(fat: nat, p: Sized): nat
    requires p.Sized?
  {
    Wrap(p.x1 + (MaxCls(fat) + 1) * p.b.spc - 1)
  }

  function Finish(fat: nat, p: Sized): (l: Layout)
    requires p.Sized? ==> p.b.spc >= 1 && Nibbles(fat) >= 1
    ensures p.Bad? ==> l == Failed(p.error)
  {
    if p.Bad? then Failed(p.error)
    else
      var all, limit := AllClusters(p), EntryLimit(fat, p);
      var cls := Min(all, limit);
      if cls < MinCls(fat) then Failed(FewClusters)
      else if cls > MaxCls(fat) then
        Laid(fat, p.b.(bsec := TrimmedSize(fat, p)), p.rds, MaxCls(fat),
             all > limit, p.b.bspf < p.x2, true, p.alignment, p.attempts)
      else Laid(fat, p.b, p.rds, cls, all > limit, p.b.bspf < p.x2, false, p.alignment, p.attempts)
  }

  // ----- What a reader derives (FAT32 File System Specification 1.03) -----

  function DataStart(l: Layout): nat
    requires l.Laid?
  {
    MetaData(l.b.res, l.rds, l.b.bspf, l.b.nft)
  }

  /** The count of clusters of section "FAT Type Determination" */
  function ReaderClusters(l: Layout): nat
    requires l.Laid? && l.b.spc >= 1 && l.b.bsec >= DataStart(l)
  {
    Between(DataStart(l), l.b.bsec, l.b.spc)
  }

  /** The FAT type of the same section */
  function ReaderType(clusters: nat): nat {
    if clusters < 4085 then 12 else if clusters < 65525 then 16 else 32
  }

  function Entries(l: Layout): nat
    requires l.Laid? && Nibbles(l.fat) >= 1
  {
    EntriesIn(l.fat, l.b.bps, l.b.bspf)
  }

  // ----- Arithmetic of the estimate -----

  /** A product below the least multiple above. */
  lemma CeilMul(n: nat, m: nat)
    requires m >= 1
    ensures n <= CeilDiv(n, m) * m < n + m
  {
    DivBounds(n + m - 1, m);
  }

  /** FAT sectors for x clusters hold x + 2 entries. */
  lemma SectorsHold(x: nat, e: nat, n: nat, f: nat)
    requires e >= 1 && f * n >= (RESFTE + x) * e
    ensures f * n / e >= x + RESFTE
  {
    DivBounds(f * n, e);
    if f * n / e < x + RESFTE { MulMono(f * n / e, x + RESFTE, e); }
  }

  /** When the estimate is rounded up, it is no less than the clusters that remain
      once the FATs have their final size. */
  lemma EstimateCovers(left: nat, spc: nat, n: nat, e: nat, nft: nat, x: nat, f: nat)
    requires spc >= nft >= 1 && e >= 1 && n >= 1 && f >= 1
    requires left * n <= x * (spc * n + e * nft)
    requires f * n >= (RESFTE + x) * e
    requires (f - 1) * nft <= left
    ensures (left - (f - 1) * nft) / spc <= x
  {
    var rest := left - (f - 1) * nft;
    if rest / spc > x {
      DivBounds(rest, spc);
      MulLe(x + 1, rest / spc, spc);
      TooMany(left, spc, n, e, nft, x, f);
    }
  }

  lemma TooMany(left: nat, spc: nat, n: nat, e: nat, nft: nat, x: nat, f: nat)
    requires spc >= nft >= 1 && e >= 1 && n >= 1 && f >= 1
    requires left * n <= x * (spc * n + e * nft)
    requires f * n >= (RESFTE + x) * e
    ensures (x + 1) * spc + (f - 1) * nft > left
  {
    var sum := (x + 1) * spc + (f - 1) * nft;
    Scaled(spc, n, nft, x, f);
    FatScaled(n, e, nft, x, f);
    assert x * (spc * n + e * nft) == x * (spc * n) + x * (e * nft);
    MulLe(nft, spc, n);
    assert e * nft >= 1;
    if sum <= left { MulLe(sum, left, n); }
  }

  lemma Scaled(spc: nat, n: nat, nft: nat, x: nat, f: nat)
    requires f >= 1
    ensures ((x + 1) * spc + (f - 1) * nft) * n == x * (spc * n) + spc * n + f * (nft * n) - nft * n
  {
    Product(x + 1, spc, n);
    Product(f - 1, nft, n);
    assert ((x + 1) * spc + (f - 1) * nft) * n == (x + 1) * spc * n + (f - 1) * nft * n;
  }

  lemma FatScaled(n: nat, e: nat, nft: nat, x: nat, f: nat)
    requires f * n >= (RESFTE + x) * e
    ensures f * (nft * n) >= x * (e * nft) + 2 * (e * nft)
  {
    MulLe((RESFTE + x) * e, f * n, nft);
    Product(RESFTE + x, e, nft);
    Product(f, n, nft);
    assert n * nft == nft * n;
  }

  /** The FATs leave room: their final size takes at most half of what the estimate
      was made with. */
  lemma FatsFit(left: nat, spc: nat, n: nat, e: nat, nft: nat, x: nat, f: nat)
    requires spc >= 1 && n >= 1024 && 1 <= e <= 8 && 1 <= nft <= 16 && f >= 1
    requires x >= 1 ==> (x - 1) * (spc * n + e * nft) <= left * n
    requires f * n < (RESFTE + x) * e + n
    ensures f == 1 || 2 * ((f - 1) * nft) + spc <= left
  {
    if f > 1 {
      FewFatSectors(n, e, x, f);
      RoomPerCluster(left, spc, n, e * nft, x - 1);
      RoomAbove(x - 1, spc);
      FewMore(f - 1, nft);
    }
  }

  lemma RoomAbove(x: nat, spc: nat)
    requires x >= 1 && spc >= 1
    ensures x * spc >= x - 1 + spc
  {
    MulLe(1, spc, x - 1);
    assert x * spc == (x - 1) * spc + spc;
  }

  lemma FewMore(f: nat, nft: nat)
    requires nft <= 16
    ensures f * nft <= 16 * f
  {
    MulLe(nft, 16, f);
  }

  lemma FewFatSectors(n: nat, e: nat, x: nat, f: nat)
    requires n >= 1024 && e <= 8 && f >= 1 && f * n < (RESFTE + x) * e + n
    ensures 128 * (f - 1) <= 1 + x
  {
    assert f * n == (f - 1) * n + n;
    MulLe(1024, n, f - 1);
    MulLe(e, 8, RESFTE + x);
  }

  lemma RoomPerCluster(left: nat, spc: nat, n: nat, t: nat, x: nat)
    requires n >= 1 && x * (spc * n + t) <= left * n
    ensures x * spc <= left
  {
    assert x * (spc * n + t) == x * (spc * n) + x * t;
    Product(x, spc, n);
    if x * spc > left { MulMono(left, x * spc, n); }
  }

  /** ... and no more than one more. */
  lemma EstimateLow(left: nat, spc: nat, n: nat, e: nat, nft: nat, x: nat, y: nat, f: nat)
    requires n >= 1024 && e <= 8 && nft <= 16 && f >= 1 && 1 <= y <= x
    requires (x - 1) * (spc * n + e * nft) <= left * n
    requires f * n < (RESFTE + y) * e + n
    ensures (y - 1) * spc + (f - 1) * nft <= left
  {
    var sum, t := (y - 1) * spc + (f - 1) * nft, e * nft;
    LowScaled(spc, n, e, nft, y, f);
    assert (y - 1) * (spc * n + t) == (y - 1) * (spc * n) + (y - 1) * t;
    MulLe(y - 1, x - 1, spc * n + t);
    MulLe(e, 8, nft);
    if sum > left { MulMono(left, sum, n); }
  }

  lemma LowScaled(spc: nat, n: nat, e: nat, nft: nat, y: nat, f: nat)
    requires f >= 1 && y >= 1 && f * n < (RESFTE + y) * e + n
    ensures ((y - 1) * spc + (f - 1) * nft) * n <= (y - 1) * (spc * n) + (y - 1) * (e * nft) + 3 * (e * nft)
  {
    Product(y - 1, spc, n);
    Product(f - 1, nft, n);
    Product(RESFTE + y, e, nft);
    assert f * n == (f - 1) * n + n;
    MulLe((f - 1) * n, (RESFTE + y) * e, nft);
    assert (RESFTE + y) * (e * nft) == (y - 1) * (e * nft) + 3 * (e * nft);
    assert ((y - 1) * spc + (f - 1) * nft) * n == (y - 1) * spc * n + (f - 1) * nft * n;
  }

  // ----- One pass with a FAT size of its own choice -----

  /** The 32-bit product of line 640 loses no remainder. */
  predicate RemainderKept(fat: nat, b: Bpb, left: nat)
    requires b.bps > 0 && b.spc > 0
  {
    var d := b.spc * NibblesPerSector(b) + Nibbles(fat) * b.nft;
    left * NibblesPerSector(b) % d > 0 ==> Wrap(left * NibblesPerSector(b)) % d > 0
  }

  /** ... as when it does not wrap. */
  lemma SmallKept(fat: nat, b: Bpb, left: nat)
    requires b.bps > 0 && b.spc > 0 && left * NibblesPerSector(b) < WRAP
    ensures RemainderKept(fat, b, left)
  {
  }

  lemma EstimateBounds(fat: nat, b: Bpb, left: nat)
    requires b.bps > 0 && b.spc > 0
    ensures var x, d := Estimate(fat, b, left), b.spc * NibblesPerSector(b) + Nibbles(fat) * b.nft;
      && (x >= 1 ==> (x - 1) * d <= left * NibblesPerSector(b))
      && (RemainderKept(fat, b, left) ==> left * NibblesPerSector(b) <= x * d)
  {
    var n := left * NibblesPerSector(b);
    var d := b.spc * NibblesPerSector(b) + Nibbles(fat) * b.nft;
    var q := n / d;
    DivBounds(n, d);
    assert (q + 1) * d == q * d + d;
    var x := Estimate(fat, b, left);
    if x == q { if x >= 1 { MulLe(x - 1, q, d); } }
  }

  /** A FAT for the largest volume of its type has entries to spare. */
  lemma LargestFat(fat: nat, b: Bpb)
    requires FatType(fat) && SectorSize(b.bps)
    ensures var f := FatSectors(fat, b, MaxCls(fat));
      MaxCls(fat) + RESFTE < EntriesIn(fat, b.bps, f) < WRAP
  {
  }

  lemma FatSectorsRise(fat: nat, b: Bpb, x: nat, y: nat)
    requires b.bps > 0 && x <= y
    ensures FatSectors(fat, b, x) <= FatSectors(fat, b, y)
  {
    var n, e := NibblesPerSector(b), Nibbles(fat);
    MulLe(RESFTE + x, RESFTE + y, e);
    CeilMul((RESFTE + y) * e, n);
    CeilDivCovers((RESFTE + x) * e, n, FatSectors(fat, b, y));
  }

  /** The pass is one that makes its own choice of the FAT size. */
  predicate OwnFat(u: Setup, b: Bpb) { SetupOk(u) && Parsed(b) && CanSize(u, b) && u.setSpf && b.bspf == 0 }

  /** What the estimate is made with: all sectors but the metadata with one-sector FATs. */
  function Left(p: Sized): nat
    requires p.Sized? && MetaData(p.b.res, p.rds, 1, p.b.nft) <= p.b.bsec
  {
    p.b.bsec - MetaData(p.b.res, p.rds, 1, p.b.nft)
  }

  lemma OwnPass(u: Setup, b0: Bpb, attempts: nat)
    requires OwnFat(u, b0)
    ensures var p := OnePass(u, b0, 0, attempts);
      p.Sized? ==>
        && p.b.bps == b0.bps && p.b.bsec == b0.bsec && p.b.nft == b0.nft && p.b.spc >= 1
        && MetaData(p.b.res, p.rds, 1, p.b.nft) <= p.b.bsec
        && p.x2 == p.b.bspf == FatSectors(u.fat, p.b, Min(Estimate(u.fat, p.b, Left(p)), MaxCls(u.fat)))
        && p.x1 == Wrap(MetaData(p.b.res, p.rds, 1, p.b.nft) + (p.b.bspf - 1) * p.b.nft)
  {
    hide PickSpc, FixedSectors, RootSectors, DefaultSpc, CeilDiv, BaseReserved, MaxCls, MetaData, Alignment, Extra;
    var p := OnePass(u, b0, 0, attempts);
    if p.Sized? {
      SameSizes(u.fat, Chosen(u, b0, 0), p.b, MetaData(p.b.res, p.rds, 1, p.b.nft));
    }
  }

  lemma SameSizes(fat: nat, b: Bpb, c: Bpb, x1: nat)
    requires b.bps > 0 && b.spc > 0 && x1 <= b.bsec && c == b.(bspf := c.bspf)
    ensures FatSectors(fat, b, Clusters(fat, b, x1)) == FatSectors(fat, c, Clusters(fat, c, x1))
  {
  }

  lemma FatSectorsBounds(fat: nat, b: Bpb, clusters: nat)
    requires FatType(fat) && b.bps > 0
    ensures var f, n := FatSectors(fat, b, clusters), b.bps * 2;
      f >= 1 && (RESFTE + clusters) * Nibbles(fat) <= f * n < (RESFTE + clusters) * Nibbles(fat) + n
  {
    CeilMul((RESFTE + clusters) * Nibbles(fat), NibblesPerSector(b));
    assert (RESFTE + clusters) * Nibbles(fat) >= 1;
  }

  /** The final metadata fit, and `x1` is where they end. */
  lemma PassShape(u: Setup, b0: Bpb, attempts: nat)
    requires OwnFat(u, b0)
    ensures var p := OnePass(u, b0, 0, attempts);
      p.Sized? ==>
        && p.b.bps == b0.bps && p.b.bsec == b0.bsec && p.b.nft == b0.nft && p.b.spc >= 1 && p.b.bspf >= 1
        && MetaData(p.b.res, p.rds, 1, p.b.nft) <= p.b.bsec
        && p.x2 == p.b.bspf == FatSectors(u.fat, p.b, Min(Estimate(u.fat, p.b, Left(p)), MaxCls(u.fat)))
        && (p.b.bspf == 1 || 2 * ((p.b.bspf - 1) * p.b.nft) + p.b.spc <= Left(p))
        && p.x1 == MetaData(p.b.res, p.rds, p.b.bspf, p.b.nft) <= p.b.bsec
  {
    hide OnePass, FatSectors, Estimate, MaxCls, MetaData;
    OwnPass(u, b0, attempts);
    var p := OnePass(u, b0, 0, attempts);
    if p.Sized? {
      var x := Estimate(u.fat, p.b, Left(p));
      FatSectorsBounds(u.fat, p.b, Min(x, MaxCls(u.fat)));
      EstimateBounds(u.fat, p.b, Left(p));
      MulLe(RESFTE + Min(x, MaxCls(u.fat)), RESFTE + x, Nibbles(u.fat));
      FatsFit(Left(p), p.b.spc, NibblesPerSector(p.b), Nibbles(u.fat), p.b.nft, x, p.b.bspf);
      MetaDataSplit(p.b.res, p.rds, p.b.bspf, p.b.nft);
    }
  }

  lemma MetaDataSplit(res: nat, rds: nat, f: nat, nft: nat)
    requires f >= 1
    ensures MetaData(res, rds, f, nft) == MetaData(res, rds, 1, nft) + (f - 1) * nft
  {
    assert f * nft == (f - 1) * nft + nft;
  }

  /** An estimate below the limit of the type is no less than the clusters there are. */
  lemma EstimateExact(u: Setup, b0: Bpb, attempts: nat)
    requires OwnFat(u, b0)
    ensures var p := OnePass(u, b0, 0, attempts);
      p.Sized? && p.b.spc >= p.b.nft && MetaData(p.b.res, p.rds, 1, p.b.nft) <= p.b.bsec && p.x1 <= p.b.bsec
      && RemainderKept(u.fat, p.b, Left(p)) && Estimate(u.fat, p.b, Left(p)) <= MaxCls(u.fat)
      ==> Between(p.x1, p.b.bsec, p.b.spc) <= Estimate(u.fat, p.b, Left(p))
          <= EntriesIn(u.fat, p.b.bps, p.b.bspf) - RESFTE
  {
    hide OnePass, Estimate, RemainderKept, MaxCls, CeilDiv;
    PassShape(u, b0, attempts);
    var p := OnePass(u, b0, 0, attempts);
    if p.Sized? && p.b.spc >= p.b.nft && RemainderKept(u.fat, p.b, Left(p))
       && Estimate(u.fat, p.b, Left(p)) <= MaxCls(u.fat) {
      var n, e, f := NibblesPerSector(p.b), Nibbles(u.fat), p.b.bspf;
      var x := Estimate(u.fat, p.b, Left(p));
      EstimateBounds(u.fat, p.b, Left(p));
      CeilMul((RESFTE + x) * e, n);
      assert f * p.b.nft == (f - 1) * p.b.nft + p.b.nft;
      EstimateCovers(Left(p), p.b.spc, n, e, p.b.nft, x, f);
      SectorsHold(x, e, n, f);
    }
  }

  /** The layout of a single pass. */
  function LaidOnce(u: Setup, b: Bpb, attempts: nat): Layout
    requires OwnFat(u, b)
  {
    PassShape(u, b, attempts);
    Finish(u.fat, OnePass(u, b, 0, attempts))
  }

  lemma EntriesRise(fat: nat, bps: nat, g: nat, f: nat)
    requires g <= f && Nibbles(fat) >= 1
    ensures EntriesIn(fat, bps, g) <= EntriesIn(fat, bps, f)
  {
    MulLe(g, f, bps * 2);
    DivRise(g * (bps * 2), f * (bps * 2), Nibbles(fat));
  }

  lemma ClassesOrdered(fat: nat)
    ensures 1 <= MinCls(fat) < MaxCls(fat)
  {
  }

  /** Trimming leaves exactly as many clusters as asked for. */
  lemma TrimExact(bsec: nat, x1: nat, spc: nat, m: nat)
    requires spc >= 1 && x1 <= bsec && (bsec - x1) / spc > m
    ensures x1 <= x1 + (m + 1) * spc - 1 < bsec && ((m + 1) * spc - 1) / spc == m
  {
    var all := (bsec - x1) / spc;
    DivBounds(bsec - x1, spc);
    MulLe(m + 1, all, spc);
    assert (m + 1) * spc == m * spc + spc;
    DivUnique((m + 1) * spc - 1, m, spc);
  }

  /** `x1` is where the metadata end, and the FATs hold a sensible number of entries. */
  predicate Plain(fat: nat, p: Sized) {
    && p.Sized? && FatType(fat) && p.b.spc >= 1 && p.b.bsec < WRAP
    && p.x1 == MetaData(p.b.res, p.rds, p.b.bspf, p.b.nft) <= p.b.bsec
    && RESFTE <= EntriesIn(fat, p.b.bps, p.b.bspf) < WRAP
  }

  lemma PlainNumbers(fat: nat, p: Sized)
    requires Plain(fat, p)
    ensures AllClusters(p) == Between(p.x1, p.b.bsec, p.b.spc)
    ensures EntryLimit(fat, p) + RESFTE == EntriesIn(fat, p.b.bps, p.b.bspf)
    ensures AllClusters(p) > MaxCls(fat) ==>
      p.x1 <= TrimmedSize(fat, p) < p.b.bsec && Between(p.x1, TrimmedSize(fat, p), p.b.spc) == MaxCls(fat)
  {
    hide MaxCls, MetaData, EntriesIn, Between, AllClusters, TrimmedSize;
    AllIsBetween(p);
    if Between(p.x1, p.b.bsec, p.b.spc) > MaxCls(fat) { TrimmedIs(fat, p); }
  }

  lemma AllIsBetween(p: Sized)
    requires p.Sized? && p.b.spc >= 1 && p.x1 <= p.b.bsec < WRAP
    ensures AllClusters(p) == Between(p.x1, p.b.bsec, p.b.spc)
  {
  }

  lemma TrimmedIs(fat: nat, p: Sized)
    requires p.Sized? && p.b.spc >= 1 && p.x1 <= p.b.bsec < WRAP && Between(p.x1, p.b.bsec, p.b.spc) > MaxCls(fat)
    ensures p.x1 <= TrimmedSize(fat, p) == p.x1 + (MaxCls(fat) + 1) * p.b.spc - 1 < p.b.bsec
    ensures Between(p.x1, TrimmedSize(fat, p), p.b.spc) == MaxCls(fat)
  {
    hide MaxCls;
    TrimExact(p.b.bsec, p.x1, p.b.spc, MaxCls(fat));
  }

  /** The clusters of such a layout: all there are, or all that the FAT type allows. */
  lemma FinishPlain(fat: nat, p: Sized)
    requires Plain(fat, p)
    ensures var l := Finish(fat, p);
      l.Laid? ==>
        && l.fat == fat && l.rds == p.rds && l.b == p.b.(bsec := l.b.bsec)
        && DataStart(l) == p.x1 <= l.b.bsec && Entries(l) == EntryLimit(fat, p) + RESFTE
        && l.clipped == (AllClusters(p) > EntryLimit(fat, p)) && l.warned == (p.b.bspf < p.x2)
        && l.cls <= MaxCls(fat)
        && if l.trimmed then l.cls == ReaderClusters(l) == MaxCls(fat) < Min(AllClusters(p), EntryLimit(fat, p))
           else l.b == p.b && l.cls == Min(AllClusters(p), EntryLimit(fat, p)) && ReaderClusters(l) == AllClusters(p)
  {
    hide MaxCls, MinCls, AllClusters, EntryLimit, TrimmedSize, MetaData, Between, EntriesIn;
    ClassesOrdered(fat);
    PlainNumbers(fat, p);
  }

  lemma PassPlain(u: Setup, b: Bpb, attempts: nat)
    requires OwnFat(u, b)
    ensures var p := OnePass(u, b, 0, attempts);
      p.Sized? ==>
        && Plain(u.fat, p) && p.b.bps == b.bps && p.b.bsec == b.bsec && p.x2 == p.b.bspf
        && MetaData(p.b.res, p.rds, 1, p.b.nft) <= p.b.bsec
        && EntriesIn(u.fat, p.b.bps, p.b.bspf) <= EntriesIn(u.fat, p.b.bps, FatSectors(u.fat, p.b, MaxCls(u.fat)))
        && (Estimate(u.fat, p.b, Left(p)) > MaxCls(u.fat) ==> p.b.bspf == FatSectors(u.fat, p.b, MaxCls(u.fat)))
  {
    hide OnePass, Estimate, MaxCls, CeilDiv, FatSectors, MetaData, EntriesIn;
    PassShape(u, b, attempts);
    var p := OnePass(u, b, 0, attempts);
    if p.Sized? {
      LargestFat(u.fat, p.b);
      FatSectorsRise(u.fat, p.b, Min(Estimate(u.fat, p.b, Left(p)), MaxCls(u.fat)), MaxCls(u.fat));
      EntriesRise(u.fat, p.b.bps, p.b.bspf, FatSectors(u.fat, p.b, MaxCls(u.fat)));
      EntriesRise(u.fat, p.b.bps, 1, p.b.bspf);
      SmallestFat(u.fat, p.b.bps);
    }
  }

  lemma SmallestFat(fat: nat, bps: nat)
    requires FatType(fat) && SectorSize(bps)
    ensures EntriesIn(fat, bps, 1) >= 128
  {
  }

  /** When the cluster size is no less than the number of FATs and line 640 loses no
      remainder, one FAT has an entry for every cluster a reader derives, and that is
      the number the formatter reports; its FAT size is never too small. The clip at
      line 663 takes effect only on volumes that are trimmed at line 671 anyway. */
  lemma SinglePassCovers(u: Setup, b: Bpb, attempts: nat)
    requires OwnFat(u, b)
    ensures var p, l := OnePass(u, b, 0, attempts), LaidOnce(u, b, attempts);
      l.Laid? && l.b.spc >= l.b.nft && MetaData(p.b.res, p.rds, 1, p.b.nft) <= p.b.bsec
      && RemainderKept(u.fat, p.b, Left(p))
      ==>
        && l.b.spc >= 1 && DataStart(l) <= l.b.bsec
        && ReaderClusters(l) == l.cls <= MaxCls(u.fat)
        && ReaderClusters(l) + RESFTE <= Entries(l)
        && !l.warned && (l.clipped ==> l.trimmed)
        && (Estimate(u.fat, p.b, Left(p)) <= MaxCls(u.fat) ==> !l.clipped && !l.trimmed)
  {
    hide OnePass, Estimate, RemainderKept, MaxCls, FatSectors, MetaData, Between, EntriesIn, Finish,
      AllClusters, EntryLimit;
    PassPlain(u, b, attempts);
    EstimateExact(u, b, attempts);
    var p := OnePass(u, b, 0, attempts);
    if p.Sized? {
      LargestFat(u.fat, p.b);
      PlainNumbers(u.fat, p);
      FinishPlain(u.fat, p);
    }
  }

  /** For any cluster size and any remainder: the FAT covers the reader's clusters
      exactly when the clip at line 663 does not take effect or the trim does. */
  lemma CoversUnlessClipped(u: Setup, b: Bpb, attempts: nat)
    requires OwnFat(u, b)
    ensures var l := LaidOnce(u, b, attempts);
      l.Laid? ==>
        && l.b.spc >= 1 && DataStart(l) <= l.b.bsec
        && (ReaderClusters(l) + RESFTE <= Entries(l) <==> !l.clipped || l.trimmed)
        && (ReaderClusters(l) == l.cls <==> !l.clipped || l.trimmed)
  {
    hide OnePass, MaxCls, FatSectors, MetaData, Between, EntriesIn, Finish, AllClusters, EntryLimit;
    PassPlain(u, b, attempts);
    var p := OnePass(u, b, 0, attempts);
    if p.Sized? { FinishPlain(u.fat, p); }
  }

  /** The size from which a volume has more clusters than the largest FAT of its type
      has entries for. */
  function ClipSize(fat: nat, p: Sized): nat
    requires p.Sized? && p.b.bps > 0 && Nibbles(fat) >= 1
  {
    var f := FatSectors(fat, p.b, MaxCls(fat));
    MetaData(p.b.res, p.rds, f, p.b.nft) + Max(1, EntriesIn(fat, p.b.bps, f)) * p.b.spc - p.b.spc
  }

  /** The clip at line 663 takes effect exactly on volumes of that size. */
  lemma SinglePassClip(u: Setup, b: Bpb, attempts: nat)
    requires OwnFat(u, b)
    ensures var p, l := OnePass(u, b, 0, attempts), LaidOnce(u, b, attempts);
      l.Laid? && l.b.spc >= l.b.nft && MetaData(p.b.res, p.rds, 1, p.b.nft) <= p.b.bsec
      && RemainderKept(u.fat, p.b, Left(p))
      ==> (l.clipped <==> b.bsec >= ClipSize(u.fat, p))
  {
    hide OnePass, Estimate, RemainderKept, MaxCls, FatSectors, Between, EntriesIn, Finish, AllClusters, EntryLimit;
    PassPlain(u, b, attempts);
    EstimateExact(u, b, attempts);
    var p := OnePass(u, b, 0, attempts);
    if p.Sized? {
      var f := FatSectors(u.fat, p.b, MaxCls(u.fat));
      LargestFat(u.fat, p.b);
      PlainNumbers(u.fat, p);
      FinishPlain(u.fat, p);
      var k := EntriesIn(u.fat, p.b.bps, f) - 1;
      BetweenAtLeast(p.x1, p.b.bsec, p.b.spc, k);
      assert (k + 1) * p.b.spc - p.b.spc == k * p.b.spc;
      FatSectorsRise(u.fat, p.b, Min(Estimate(u.fat, p.b, Left(p)), MaxCls(u.fat)), MaxCls(u.fat));
      PassShape(u, b, attempts);
      MulLe(p.b.bspf, f, p.b.nft);
    }
  }

  lemma BetweenAtLeast(start: nat, bsec: nat, spc: nat, k: nat)
    requires spc >= 1 && start <= bsec
    ensures Between(start, bsec, spc) >= k <==> bsec >= start + k * spc
  {
    var c := Between(start, bsec, spc);
    DivBounds(bsec - start, spc);
    if c >= k { MulLe(k, c, spc); } else { MulMono(c, k, spc); }
  }

  /** A FAT32 pass with the reserved sectors and the cluster size given. */
  lemma GivenPass(u: Setup, b: Bpb, x: nat, f: nat)
    requires OwnFat(u, b) && u == SetupOf(32, 3, b, false) && b.res >= 3 && b.spc >= 1 && b.rde == 0
    requires b.res + b.nft <= b.bsec && Estimate(32, b, b.bsec - b.res - b.nft) == x <= MaxCls(32)
    requires f == FatSectors(32, b, x) && f >= 1
    ensures OnePass(u, b, 0, 0) == Sized(b.(bspf := f), 0, Wrap(b.res + b.nft + (f - 1) * b.nft), f, 0, 0, 1)
    ensures Estimate(32, b.(bspf := f), b.bsec - b.res - b.nft) == x
  {
    hide FatSectors;
    assert CeilDiv(0, b.bps / 32) == 0 by { DivUnique(0 + b.bps / 32 - 1, 0, b.bps / 32); }
    var c := Chosen(u, b, 0);
    assert c == b;
    assert MetaData(b.res, 0, FirstSpf(b), b.nft) == b.res + b.nft;
  }

  /** Two FATs and one-sector clusters: 511 clusters, 512 entries. */
  lemma TooManyFats(b: Bpb, u: Setup)
    requires b == Bpb(512, 1, 32, 2, 0, 551, 0) && u == SetupOf(32, 3, b, false)
    ensures OwnFat(u, b) && OnePass(u, b, 0, 0).Sized? && MetaData(32, 0, 1, 2) <= 551
    ensures var l := LaidOnce(u, b, 0);
      && l.Laid? && l.b.spc == 1 && l.b.nft == 2 && RemainderKept(32, l.b, 517)
      && DataStart(l) <= l.b.bsec && ReaderClusters(l) == 511 && Entries(l) == 512
  {
    hide Estimate, FatSectors, OnePass, Finish, MetaData, Between, EntriesIn, Wrap;
    TooManyFatsNumbers(b);
    GivenPass(u, b, 510, 4);
    TooManyFatsEnd(OnePass(u, b, 0, 0));
    SmallKept(32, b.(bspf := 4), 517);
  }

  lemma TooManyFatsEnd(p: Sized)
    requires p == Sized(Bpb(512, 1, 32, 2, 0, 551, 4), 0, Wrap(40), 4, 0, 0, 1)
    ensures Finish(32, p) == Laid(32, p.b, 0, 510, true, false, false, 0, 1)
    ensures MetaData(32, 0, 1, 2) == 34 && MetaData(32, 0, 4, 2) == 40
    ensures Between(40, 551, 1) == 511 && EntriesIn(32, 512, 4) == 512
  {
  }

  lemma TooManyFatsNumbers(b: Bpb)
    requires b == Bpb(512, 1, 32, 2, 0, 551, 0)
    ensures Estimate(32, b, 517) == 510 && FatSectors(32, b, 510) == 4
  {
    assert 517 * 1024 == 529408 && 529408 / 1040 == 509 && 529408 % 1040 == 48;
  }

  /** A remainder lost to 32 bits: 4161791 clusters, 4161792 entries. */
  lemma RemainderLost(b: Bpb, u: Setup)
    requires b == Bpb(512, 2, 32, 2, 0, 8388642, 0) && u == SetupOf(32, 3, b, false)
    ensures OwnFat(u, b)
    ensures var l := LaidOnce(u, b, 0);
      && l.Laid? && l.b.spc == l.b.nft == 2
      && DataStart(l) <= l.b.bsec && ReaderClusters(l) == 4161791 && Entries(l) == 4161792
  {
    hide Estimate, FatSectors, OnePass, Finish, MetaData, Between, EntriesIn, Wrap;
    RemainderLostNumbers(b);
    GivenPass(u, b, 4161790, 32514);
    RemainderLostEnd(OnePass(u, b, 0, 0));
  }

  lemma RemainderLostEnd(p: Sized)
    requires p == Sized(Bpb(512, 2, 32, 2, 0, 8388642, 32514), 0, Wrap(65060), 32514, 0, 0, 1)
    ensures Finish(32, p) == Laid(32, p.b, 0, 4161790, true, false, false, 0, 1)
    ensures MetaData(32, 0, 32514, 2) == 65060
    ensures Between(65060, 8388642, 2) == 4161791 && EntriesIn(32, 512, 32514) == 4161792
  {
  }

  lemma RemainderLostNumbers(b: Bpb)
    requires b == Bpb(512, 2, 32, 2, 0, 8388642, 0)
    ensures Estimate(32, b, 8388608) == 4161790 && FatSectors(32, b, 4161790) == 32514
  {
    assert 8388608 * 1024 == 8589934592 && 8589934592 / 2064 == 4161790 && 8589934592 % WRAP == 0;
  }
}
