/** The layout in the boot sector: the fields `newfs_msdos` writes into sector 0 and its
    backup, and what a reader gets out of them (FAT32 File System Specification 1.03,
    section "Boot Sector and BPB"). */
module BootFields {
  import opened Arith
  import opened Buffers
  import opened FatFormat
  import opened FatLayout
  import opened FatPlan
  import opened Newfs
  import opened SectorWriter

  // ----- What is written (lines 725-745) -----

  /** The bytes of a 16-bit value (`mk2`). */
  function Low(x: nat): Byte { x % 0x100 }
  function High(x: nat): Byte { x / 0x100 % 0x100 }

  /** Lines 691-698: the sector count and the FAT size each go to a 16-bit or a 32-bit field. */
  predicate SmallVolume(l: Layout, hid: nat)
    requires l.Laid?
  {
    Wrap(hid + l.b.bsec) <= MAXU16
  }

  function Sec(l: Layout, hid: nat): nat requires l.Laid? { if SmallVolume(l, hid) then l.b.bsec else 0 }
  function BigSec(l: Layout, hid: nat): nat requires l.Laid? { if SmallVolume(l, hid) then 0 else l.b.bsec }
  function Spf(l: Layout): nat requires l.Laid? { if l.fat == 32 then 0 else l.b.bspf }

  /** What does not come from the layout: hidden sectors, media byte, disk geometry, and
      the numbers of the info and backup sectors. */
  datatype Disk = Disk(hid: nat, mid: Byte, spt: nat, hds: nat, infs: nat, bkbs: nat)

  function BpbBytes(l: Layout, d: Disk): (s: seq<Byte>)
    requires l.Laid?
    ensures |s| == 25
  {
    [Low(l.b.bps), High(l.b.bps), Low(l.b.spc), Low(l.b.res), High(l.b.res), Low(l.b.nft), Low(l.b.rde), High(l.b.rde),
     Low(Sec(l, d.hid)), High(Sec(l, d.hid)), d.mid, Low(Spf(l)), High(Spf(l)),
     Low(d.spt), High(d.spt), Low(d.hds), High(d.hds)]
    + Bytes4(d.hid) + Bytes4(BigSec(l, d.hid))
  }

  function Fat32Bytes(l: Layout, d: Disk): (s: seq<Byte>)
    requires l.Laid?
    ensures |s| == 16
  {
    Bytes4(l.b.bspf)
    + [0, 0, 0, 0, RESFTE, 0, 0, 0, Low(d.infs), High(d.infs), Low(d.bkbs), High(d.bkbs)]
  }

  /** The layout's fields, then the rest of the boot sector: signature, volume number,
      label, type, jump, OEM name, boot code and magic. */
  function FieldPatches(l: Layout, d: Disk, rest: seq<Patch>): seq<Patch>
    requires l.Laid?
  {
    [Patch(11, BpbBytes(l, d))] + (if l.fat == 32 then [Patch(36, Fat32Bytes(l, d))] else []) + rest
  }

  /** The rest keeps clear of the layout's fields. */
  predicate Clear(fat: nat, rest: seq<Patch>) {
    forall p | p in rest :: p.at + |p.bytes| <= 11 || p.at >= (if fat == 32 then 52 else 36)
  }

  // ----- What is read -----

  datatype Geometry = Geometry(bps: nat, spc: nat, res: nat, nft: nat, rde: nat, total: nat, spf: nat)

  function Word(s: seq<Byte>, i: nat): nat
    requires i + 1 < |s|
  {
    s[i] + Weighted(s, i + 1, 0x100)
  }

  function Long(s: seq<Byte>, i: nat): nat
    requires i + 3 < |s|
  {
    Word(s, i) + 0x1_0000 * Word(s, i + 2)
  }

  /** BPB_TotSec16 and BPB_FATSz16 are 0 when their 32-bit fields hold the value. */
  function ReadGeometry(s: seq<Byte>): Geometry
    requires |s| >= 40
  {
    Geometry(Word(s, 11), s[13], Word(s, 14), s[16], Word(s, 17),
             if Word(s, 19) != 0 then Word(s, 19) else Long(s, 32),
             if Word(s, 22) != 0 then Word(s, 22) else Long(s, 36))
  }

  function GeometryOf(l: Layout): Geometry
    requires l.Laid?
  {
    Geometry(l.b.bps, l.b.spc, l.b.res, l.b.nft, l.b.rde, l.b.bsec, l.b.bspf)
  }

  /** The count of clusters of section "FAT Type Determination", from what was read. */
  function CountOf(g: Geometry): int
    requires g.bps > 0 && g.spc > 0
  {
    var root := CeilDiv(g.rde * 32, g.bps);
    (g.total - (g.res + g.nft * g.spf + root)) / g.spc
  }

  // ----- The round trip -----

  lemma WordBytes(x: nat, s: seq<Byte>, i: nat)
    requires i + 1 < |s| && s[i] == Low(x) && s[i + 1] == High(x)
    ensures Word(s, i) == x % 0x1_0000
  {
    LowDigits(x);
  }

  lemma LongBytes(x: nat, s: seq<Byte>, i: nat)
    requires i + 3 < |s| && x < WRAP
    requires forall k | 0 <= k < 4 :: Bytes4(x)[k] == s[i + k]
    ensures Long(s, i) == x
  {
    var b := Bytes4(x);
    assert s[i] == b[0] && s[i + 1] == b[1] && s[i + 2] == b[2] && s[i + 3] == b[3];
    Digits(x);
  }

  lemma Digits(x: nat)
    requires x < WRAP
    ensures x % 0x100 + 0x100 * (x / 0x100 % 0x100)
            + 0x1_0000 * (x / 0x1_0000 % 0x100 + 0x100 * (x / 0x100_0000 % 0x100)) == x
  {
    var lo, hi := x % 0x1_0000, x / 0x1_0000;
    LowDigits(x);
    TwoDigits(hi);
    assert hi < 0x1_0000;
    assert hi / 0x100 == x / 0x100_0000;
  }

  lemma LowDigits(x: nat)
    ensures x % 0x100 + 0x100 * (x / 0x100 % 0x100) == x % 0x1_0000
  {
    var q := x / 0x1_0000;
    assert x / 0x100 % 0x100 == x / 0x100 - 0x100 * q;
  }

  lemma TwoDigits(y: nat)
    requires y < 0x1_0000
    ensures y % 0x100 + 0x100 * (y / 0x100 % 0x100) == y
  {
    assert y / 0x100 < 0x100;
  }

  lemma {:induction false} PatchedStep(s: seq<Byte>, ps: seq<Patch>, p: Patch)
    requires |s| >= MINBPS && Fits(ps + [p])
    ensures Fits(ps) && p.at + |p.bytes| <= MINBPS
    ensures Patched(s, ps + [p]) == Overwrite(Patched(s, ps), p.at, p.bytes)
  {
    hide Overwrite;
    assert (ps + [p])[..|ps|] == ps;
    assert p in ps + [p];
    assert forall q | q in ps :: q in ps + [p];
  }

  lemma OverwriteElsewhere(t: seq<Byte>, at: nat, bytes: seq<Byte>, from: nat, to: nat)
    requires at + |bytes| <= |t| && from <= to <= |t| && (at + |bytes| <= from || at >= to)
    ensures Overwrite(t, at, bytes)[from..to] == t[from..to]
  {
    var a, b := Overwrite(t, at, bytes)[from..to], t[from..to];
    assert forall k | 0 <= k < |b| :: a[k] == b[k];
  }

  /** Later patches elsewhere leave a stretch alone. */
  lemma {:induction false} PatchedElsewhere(s: seq<Byte>, first: seq<Patch>, rest: seq<Patch>, from: nat, to: nat)
    requires |s| >= MINBPS && Fits(first + rest) && Fits(first) && from <= to <= MINBPS
    requires forall p | p in rest :: p.at + |p.bytes| <= from || p.at >= to
    ensures Patched(s, first + rest)[from..to] == Patched(s, first)[from..to]
    decreases |rest|
  {
    hide Patched, Overwrite, Fits;
    if rest == [] {
      assert first + rest == first;
    } else {
      var n := |rest| - 1;
      var all, p := first + rest[..n], rest[n];
      assert first + rest == all + [p];
      assert p in rest && forall x | x in rest[..n] :: x in rest;
      PatchedStep(s, all, p);
      OverwriteElsewhere(Patched(s, all), p.at, p.bytes, from, to);
      PatchedElsewhere(s, first, rest[..n], from, to);
    }
  }

  lemma {:induction false} PatchedLast(s: seq<Byte>, ps: seq<Patch>, p: Patch)
    requires |s| >= MINBPS && Fits(ps + [p])
    ensures Patched(s, ps + [p])[p.at..p.at + |p.bytes|] == p.bytes
  {
    hide Patched;
    PatchedStep(s, ps, p);
  }

  /** The layout's fields in a boot sector. */
  lemma {:induction false} FieldsThere(s: seq<Byte>, l: Layout, d: Disk, rest: seq<Patch>)
    requires |s| >= MINBPS && l.Laid? && Fits(FieldPatches(l, d, rest)) && Clear(l.fat, rest)
    ensures var t := Patched(s, FieldPatches(l, d, rest));
      t[11..36] == BpbBytes(l, d) && (l.fat == 32 ==> t[36..52] == Fat32Bytes(l, d))
  {
    hide BpbBytes, Fat32Bytes, Patched;
    var p, q := Patch(11, BpbBytes(l, d)), Patch(36, Fat32Bytes(l, d));
    assert [p] + [q] + rest == [p] + ([q] + rest);
    assert forall x | x in rest :: x in FieldPatches(l, d, rest);
    assert forall x | x in [q] + rest :: x == q || x in rest;
    assert [] + [p] == [p];
    PatchedLast(s, [], p);
    if l.fat == 32 {
      PatchedElsewhere(s, [p], [q] + rest, 11, 36);
      PatchedElsewhere(s, [p] + [q], rest, 36, 52);
      PatchedLast(s, [p], q);
    } else {
      assert [p] + [] + rest == [p] + rest;
      PatchedElsewhere(s, [p], rest, 11, 36);
    }
  }

  /** The widths of the fields the layout is written to. */
  predicate FieldsOk(l: Layout) {
    && l.Laid? && FatType(l.fat) && SectorSize(l.b.bps) && 1 <= l.b.spc < 0x100 && l.b.nft < 0x100
    && l.b.rde <= MAXU16 && l.b.bsec < WRAP && 1 <= l.b.bspf < WRAP && (l.fat != 32 ==> l.b.bspf <= MAXU16)
  }

  lemma FieldsRead(t: seq<Byte>, l: Layout, d: Disk)
    requires |t| >= MINBPS && FieldsOk(l)
    requires t[11..36] == BpbBytes(l, d) && (l.fat == 32 ==> t[36..52] == Fat32Bytes(l, d))
    ensures ReadGeometry(t)
         == GeometryOf(l).(res := l.b.res % 0x1_0000,
                           total := if SmallVolume(l, d.hid) then l.b.bsec % 0x1_0000 else l.b.bsec)
  {
    hide Bytes4, Word, Long, High, Sec, BigSec, Spf, SectorSize, SmallVolume, BpbBytes, Fat32Bytes;
    var b := BpbBytes(l, d);
    assert forall k | 0 <= k < 25 :: b[k] == t[11 + k];
    BpbParts(l, d);
    SplitSizes(l, d.hid);
    WordBytes(l.b.bps, t, 11);
    WordBytes(l.b.res, t, 14);
    WordBytes(l.b.rde, t, 17);
    SizesRead(t, l, d);
  }

  lemma BpbParts(l: Layout, d: Disk)
    requires l.Laid?
    ensures var b := BpbBytes(l, d);
      && b[0] == Low(l.b.bps) && b[1] == High(l.b.bps) && b[2] == Low(l.b.spc)
      && b[3] == Low(l.b.res) && b[4] == High(l.b.res) && b[5] == Low(l.b.nft)
      && b[6] == Low(l.b.rde) && b[7] == High(l.b.rde)
      && b[8] == Low(Sec(l, d.hid)) && b[9] == High(Sec(l, d.hid)) && b[11] == Low(Spf(l)) && b[12] == High(Spf(l))
      && forall k | 0 <= k < 4 :: Bytes4(BigSec(l, d.hid))[k] == b[21 + k]
    ensures forall k | 0 <= k < 4 :: Bytes4(l.b.bspf)[k] == Fat32Bytes(l, d)[k]
  {
    hide Low, High, Bytes4, Sec, BigSec, Spf;
    FourBytes(BigSec(l, d.hid));
    FourBytes(d.hid);
    FourBytes(l.b.bspf);
  }

  lemma FourBytes(x: nat)
    ensures |Bytes4(x)| == 4
  {
  }

  lemma SplitSizes(l: Layout, hid: nat)
    requires FieldsOk(l)
    ensures BigSec(l, hid) < WRAP && l.b.bps % 0x1_0000 == l.b.bps
    ensures if SmallVolume(l, hid) then Sec(l, hid) == l.b.bsec && BigSec(l, hid) == 0
            else Sec(l, hid) == 0 && BigSec(l, hid) == l.b.bsec
    ensures Spf(l) == if l.fat == 32 then 0 else l.b.bspf
  {
  }

  /** A reader of the boot sector, or of its backup, finds the layout exactly if the
      reserved sectors fit in 16 bits, and so does the sector count whenever the sum
      with the hidden sectors, in 32 bits, does. */
  lemma BootRoundTrip(v: Volume, l: Layout, d: Disk, rest: seq<Patch>, lsn: nat)
    requires VolumeOk(v) && FieldsOk(l) && v.fields == FieldPatches(l, d, rest) && Clear(l.fat, rest)
    requires lsn == 0 || (v.fat == 32 && v.bkbs != MAXU16 && lsn == v.bkbs)
    ensures ReadGeometry(SectorBytes(v, lsn)) == GeometryOf(l)
            <==> l.b.res <= MAXU16 && (Wrap(d.hid + l.b.bsec) <= MAXU16 ==> l.b.bsec <= MAXU16)
  {
    hide SectorSize, FatType, Base, Patched, ReadGeometry, BpbBytes, Fat32Bytes, Wrap;
    BaseLength(v, lsn);
    FieldsThere(Base(v, lsn), l, d, rest);
    FieldsRead(SectorBytes(v, lsn), l, d);
    Fit16(l.b.res);
    Fit16(l.b.bsec);
  }

  /** Where the sizes go: the sector count to the 32-bit field alone when the sum with the
      hidden sectors, in 32 bits, is above 65535, and to the 16-bit field alone otherwise;
      the FAT size to the 32-bit field alone exactly on FAT32. */
  lemma SizeFields(v: Volume, l: Layout, d: Disk, rest: seq<Patch>, lsn: nat)
    requires VolumeOk(v) && FieldsOk(l) && v.fields == FieldPatches(l, d, rest) && Clear(l.fat, rest)
    requires lsn == 0 || (v.fat == 32 && v.bkbs != MAXU16 && lsn == v.bkbs)
    ensures var s, sum := SectorBytes(v, lsn), (d.hid + l.b.bsec) % 0x1_0000_0000;
      && |s| >= 52
      && (if sum > MAXU16 then Word(s, 19) == 0 && Long(s, 32) == l.b.bsec
          else Word(s, 19) == l.b.bsec % 0x1_0000 && Long(s, 32) == 0)
      && (if l.fat == 32 then Word(s, 22) == 0 && Long(s, 36) == l.b.bspf else Word(s, 22) == l.b.bspf)
  {
    hide SectorSize, FatType, Base, Patched, BpbBytes, Fat32Bytes, Word, Long, High, Bytes4, Sec, BigSec, Spf;
    BaseLength(v, lsn);
    FieldsThere(Base(v, lsn), l, d, rest);
    SizesRead(SectorBytes(v, lsn), l, d);
    SplitSizes(l, d.hid);
  }

  lemma SizesRead(t: seq<Byte>, l: Layout, d: Disk)
    requires |t| >= MINBPS && FieldsOk(l)
    requires t[11..36] == BpbBytes(l, d) && (l.fat == 32 ==> t[36..52] == Fat32Bytes(l, d))
    ensures Word(t, 19) == Sec(l, d.hid) % 0x1_0000 && Long(t, 32) == BigSec(l, d.hid)
    ensures Word(t, 22) == Spf(l) % 0x1_0000 && (l.fat == 32 ==> Long(t, 36) == l.b.bspf)
  {
    hide Bytes4, Word, Long, High, Sec, BigSec, Spf, SectorSize, SmallVolume, BpbBytes, Fat32Bytes;
    var b, e := BpbBytes(l, d), Fat32Bytes(l, d);
    assert forall k | 0 <= k < 25 :: b[k] == t[11 + k];
    BpbParts(l, d);
    SplitSizes(l, d.hid);
    WordBytes(Sec(l, d.hid), t, 19);
    WordBytes(Spf(l), t, 22);
    LongBytes(BigSec(l, d.hid), t, 32);
    if l.fat == 32 {
      assert forall k | 0 <= k < 16 :: e[k] == t[36 + k];
      LongBytes(l.b.bspf, t, 36);
    }
  }

  /** The same reader finds the media byte, the disk geometry and the hidden sectors; on
      FAT32 also the first cluster of the root directory, version 0 and the numbers of the
      info and backup sectors. The 16-bit fields are right exactly if the values fit. */
  lemma DiskRoundTrip(v: Volume, l: Layout, d: Disk, rest: seq<Patch>, lsn: nat)
    requires VolumeOk(v) && FieldsOk(l) && v.fields == FieldPatches(l, d, rest) && Clear(l.fat, rest)
    requires (lsn == 0 || (v.fat == 32 && v.bkbs != MAXU16 && lsn == v.bkbs)) && d.hid < WRAP
    ensures var s := SectorBytes(v, lsn);
      && |s| >= 52 && s[21] == d.mid && Long(s, 28) == d.hid
      && (Word(s, 24) == d.spt <==> d.spt <= MAXU16) && (Word(s, 26) == d.hds <==> d.hds <= MAXU16)
      && (l.fat == 32 ==>
            && Long(s, 40) == 0 && Long(s, 44) == RESFTE
            && (Word(s, 48) == d.infs <==> d.infs <= MAXU16) && (Word(s, 50) == d.bkbs <==> d.bkbs <= MAXU16))
  {
    hide SectorSize, FatType, Base, Patched, SmallVolume, BpbBytes, Fat32Bytes, Word, Long, Low, High, Bytes4;
    BaseLength(v, lsn);
    FieldsThere(Base(v, lsn), l, d, rest);
    DiskThere(SectorBytes(v, lsn), l, d);
    DiskRead(SectorBytes(v, lsn), d, l.fat == 32);
    Fit16(d.spt);
    Fit16(d.hds);
    Fit16(d.infs);
    Fit16(d.bkbs);
  }

  ghost predicate HoldsDisk(t: seq<Byte>, d: Disk, large: bool) {
    && |t| >= MINBPS && t[21] == d.mid
    && t[24] == Low(d.spt) && t[25] == High(d.spt) && t[26] == Low(d.hds) && t[27] == High(d.hds)
    && (forall k | 0 <= k < 4 :: Bytes4(d.hid)[k] == t[28 + k])
    && (large ==>
          && (forall k | 40 <= k < 48 :: t[k] == if k == 44 then RESFTE else 0)
          && t[48] == Low(d.infs) && t[49] == High(d.infs) && t[50] == Low(d.bkbs) && t[51] == High(d.bkbs))
  }

  lemma DiskThere(t: seq<Byte>, l: Layout, d: Disk)
    requires |t| >= MINBPS && FieldsOk(l)
    requires t[11..36] == BpbBytes(l, d) && (l.fat == 32 ==> t[36..52] == Fat32Bytes(l, d))
    ensures HoldsDisk(t, d, l.fat == 32)
  {
    hide Low, High, Bytes4, Sec, BigSec, Spf, SectorSize;
    var b, e := BpbBytes(l, d), Fat32Bytes(l, d);
    FourBytes(BigSec(l, d.hid));
    FourBytes(d.hid);
    FourBytes(l.b.bspf);
    assert forall k | 0 <= k < 25 :: b[k] == t[11 + k];
    assert forall k | 0 <= k < 4 :: b[17 + k] == Bytes4(d.hid)[k];
    if l.fat == 32 {
      assert forall k | 36 <= k < 52 :: t[k] == e[k - 36];
      assert forall k | 4 <= k < 12 :: e[k] == if k == 8 then RESFTE else 0;
    }
  }

  lemma DiskRead(t: seq<Byte>, d: Disk, large: bool)
    requires HoldsDisk(t, d, large) && d.hid < WRAP
    ensures Long(t, 28) == d.hid && Word(t, 24) == d.spt % 0x1_0000 && Word(t, 26) == d.hds % 0x1_0000
    ensures large ==> Long(t, 40) == 0 && Long(t, 44) == RESFTE
    ensures large ==> Word(t, 48) == d.infs % 0x1_0000 && Word(t, 50) == d.bkbs % 0x1_0000
  {
    hide Word, Long, Bytes4;
    LongBytes(d.hid, t, 28);
    WordBytes(d.spt, t, 24);
    WordBytes(d.hds, t, 26);
    if large {
      assert t[40] == t[41] == t[42] == t[43] == 0 && t[44] == RESFTE && t[45] == t[46] == t[47] == 0;
      SmallBytes(0);
      SmallBytes(RESFTE);
      LongBytes(0, t, 40);
      LongBytes(RESFTE, t, 44);
      WordBytes(d.infs, t, 48);
      WordBytes(d.bkbs, t, 50);
    }
  }

  lemma SmallBytes(x: Byte)
    ensures Bytes4(x) == [x, 0, 0, 0]
  {
  }

  lemma Fit16(x: nat)
    ensures x % 0x1_0000 == x <==> x <= MAXU16
  {
  }

  /** The same root directory, counted by a reader in bytes. */
  lemma RootSame(rde: nat, bps: nat)
    requires SectorSize(bps)
    ensures CeilDiv(rde * 32, bps) == CeilDiv(rde, bps / 32)
  {
    var m := bps / 32;
    assert bps == m * 32;
    var q := CeilDiv(rde, m);
    DivBounds(rde + m - 1, m);
    assert q * bps == q * m * 32;
    DivUnique(rde * 32 + bps - 1, q, bps);
  }

  /** ... and so counts the clusters of the layout. */
  lemma CountRead(l: Layout)
    requires FieldsOk(l) && l.rds == CeilDiv(l.b.rde, l.b.bps / 32) && DataStart(l) <= l.b.bsec
    ensures CountOf(GeometryOf(l)) == ReaderClusters(l)
  {
    hide SectorSize;
    RootSame(l.b.rde, l.b.bps) by { WholeRoots(l.b.bps); }
    assert l.b.nft * l.b.bspf == l.b.bspf * l.b.nft;
  }

  lemma WholeRoots(bps: nat)
    ensures SectorSize(bps) ==> bps >= 512
  {
  }

  // ----- The layouts of the program -----

  /** What a pass starts from. */
  predicate Enters(u: Setup, b: Bpb) {
    && SetupOk(u) && CanSize(u, b) && SectorSize(b.bps) && 1 <= b.nft <= 16 && b.rde <= MAXU16 && b.bsec < WRAP
    && b.bspf < WRAP && b.res <= MAXU16 && (b.bspf == 0 ==> u.setSpf)
  }

  /** A FAT for the largest volume of its type fits in its field. */
  lemma LargestFits(fat: nat, b: Bpb, x: nat)
    requires FatType(fat) && SectorSize(b.bps) && x <= MaxCls(fat)
    ensures 1 <= FatSectors(fat, b, x) < WRAP && (fat != 32 ==> FatSectors(fat, b, x) <= MAXU16)
  {
    hide FatSectors;
    FatSectorsRise(fat, b, x, MaxCls(fat));
    FatPositive(fat, b, x);
    LargestSectors(fat, b);
  }

  lemma LargestSectors(fat: nat, b: Bpb)
    requires FatType(fat) && SectorSize(b.bps)
    ensures FatSectors(fat, b, MaxCls(fat)) < WRAP && (fat != 32 ==> FatSectors(fat, b, MaxCls(fat)) <= MAXU16)
  {
  }

  lemma PassEnters(u: Setup, b: Bpb, extra: nat, attempts: nat)
    requires Enters(u, b)
    ensures var p := OnePass(u, b, extra, attempts);
      p.Sized? ==>
        && p.b.bps == b.bps && p.b.nft == b.nft && p.b.bsec == b.bsec && p.b.rde <= MAXU16 && p.b.spc >= 1
        && p.rds == CeilDiv(p.b.rde, p.b.bps / 32)
        && 1 <= p.b.bspf < WRAP && (u.fat != 32 ==> p.b.bspf <= MAXU16)
        && p.b.res == (if u.setRes then BaseReserved(u, b.bps) + extra else b.res)
  {
    hide FatSectors, SectorSize, CeilDiv, MetaData, BaseReserved, PickSpc, FixedSectors, DefaultSpc, Estimate, MaxCls,
      Alignment, Extra;
    var p := OnePass(u, b, extra, attempts);
    if p.Sized? {
      var c := Chosen(u, b, extra);
      assert c.bps == b.bps;
      var x1 := MetaData(c.res, RootSectors(u.fat, c), FirstSpf(c), c.nft);
      LargestFits(u.fat, c, Clusters(u.fat, c, x1));
    }
  }

  lemma BaseFits(u: Setup, bps: nat)
    requires SetupOk(u) && SectorSize(bps)
    ensures BaseReserved(u, bps) <= MAXU16
  {
  }

  /** One pass leaves the reserved sectors in 16 bits. */
  lemma {:induction false} SizingFields(u: Setup, b: Bpb, attempts: nat)
    requires Enters(u, b)
    ensures var p := Sizing(u, b, 0, attempts);
      p.Sized? ==>
        && p.b.bps == b.bps && p.b.nft == b.nft && p.b.bsec == b.bsec && p.b.rde <= MAXU16 && p.b.spc >= 1
        && p.rds == CeilDiv(p.b.rde, p.b.bps / 32)
        && 1 <= p.b.bspf < WRAP && (u.fat != 32 ==> p.b.bspf <= MAXU16)
        && (!u.align || !u.setRes || attempts >= 1 ==> p.b.res <= MAXU16)
  {
    hide OnePass, SectorSize, CeilDiv, BaseReserved, Sizing;
    var p := OnePass(u, b, 0, attempts);
    PassEnters(u, b, 0, attempts);
    BaseFits(u, b.bps);
    SizingStep(u, b, 0, attempts);
    if !u.setRes { GivenNoAlignment(u, b, attempts); }
    if p.Sized? && u.align && p.alignment != 0 && p.attempts < 2 {
      assert Enters(u, p.b);
      SizingStep(u, p.b, p.extra, p.attempts);
      PassEnters(u, p.b, p.extra, p.attempts);
    }
  }

  lemma GivenNoAlignment(u: Setup, b: Bpb, attempts: nat)
    requires CanSize(u, b) && !u.setRes
    ensures OnePass(u, b, 0, attempts).Sized? ==> OnePass(u, b, 0, attempts).alignment == 0
  {
    hide Chosen, RootSectors, FatSectors, Clusters, MetaData;
  }

  lemma FinishFields(fat: nat, p: Sized)
    requires p.Sized? && FatType(fat) && p.b.spc >= 1
    ensures var l := Finish(fat, p);
      l.Laid? ==> l.fat == fat && l.b == p.b.(bsec := l.b.bsec) && l.rds == p.rds && (l.b.bsec < WRAP || l.b == p.b)
  {
    hide AllClusters, EntryLimit, MinCls, MaxCls;
  }

  /** Every layout the program ends with fits the fields; its reserved sectors do unless
      they were moved by `-A`. */
  lemma {:induction false} FormatFields(c: Command, spc: nat, attempts: nat)
    requires CommandOk(c) && (spc == 0 || ClusterSize(spc))
    ensures var l := Format(c, spc, attempts).layout;
      l.Laid? ==>
        && FieldsOk(l) && l.rds == CeilDiv(l.b.rde, l.b.bps / 32)
        && (!c.align || c.b.res > 0 || LastStart(c, spc, attempts).attempts >= 1 ==> l.b.res <= MAXU16)
  {
    hide Attempt, Format, LastStart, Finish, Sizing, AreaOf, FatOf, SetupFor, SectorSize, CeilDiv;
    var s := LastStart(c, spc, attempts);
    LastLayout(c, spc, attempts);
    AttemptIs(c, s.spc, s.attempts);
    AttemptSpc(c, s.spc, s.attempts);
    if Attempt(c, s.spc, s.attempts).Laid? {
      SetupFits(c, s.spc);
      var u, b := SetupFor(c, s.spc), c.b.(spc := s.spc);
      BadIsFailed(u.fat, Sizing(u, b, 0, s.attempts));
      SizingFields(u, b, s.attempts);
      FinishFields(u.fat, Sizing(u, b, 0, s.attempts));
    }
  }

  lemma BadIsFailed(fat: nat, p: Sized)
    requires FatType(fat) && (p.Sized? ==> p.b.spc >= 1)
    ensures Finish(fat, p).Laid? ==> p.Sized?
  {
  }

  /** Sector 0 of a volume says what its layout is exactly if `-A` did not move the
      reserved sectors out of 16 bits and the sum of the hidden sectors and the sectors
      does not wrap into them; then a reader counts the clusters of the layout. */
  lemma {:induction false} FormatRoundTrip(c: Command, spc: nat, l: Layout, v: Volume, d: Disk, rest: seq<Patch>)
    requires CommandOk(c) && (spc == 0 || ClusterSize(spc)) && l == Format(c, spc, 0).layout && l.Laid?
    requires VolumeOk(v) && v.fields == FieldPatches(l, d, rest) && Clear(l.fat, rest)
    ensures FieldsOk(l)
    ensures var g := ReadGeometry(SectorBytes(v, 0));
      && (g == GeometryOf(l) <==> l.b.res <= MAXU16 && (Wrap(d.hid + l.b.bsec) <= MAXU16 ==> l.b.bsec <= MAXU16))
      && (!c.align || c.b.res > 0 ==> l.b.res <= MAXU16)
      && (g == GeometryOf(l) && DataStart(l) <= l.b.bsec ==> CountOf(g) == ReaderClusters(l))
  {
    hide Format, FieldPatches, ReadGeometry, GeometryOf, FieldsOk, SectorBytes, CommandOk, VolumeOk, SmallVolume;
    FormatFields(c, spc, 0);
    FirstIsBoot(v);
    BootRoundTrip(v, l, d, rest, 0);
    WholeSizes(l);
    if DataStart(l) <= l.b.bsec { CountRead(l); }
  }

  lemma WholeSizes(l: Layout)
    requires FieldsOk(l)
    ensures l.b.spc >= 1 && l.b.bps >= 1 && GeometryOf(l).bps == l.b.bps && GeometryOf(l).spc == l.b.spc
  {
  }

  lemma FirstIsBoot(v: Volume)
    requires VolumeOk(v)
    ensures KindOf(v, 0).BootSector?
  {
  }

  // ----- Reserved sectors beyond 16 bits -----

  /** `-A` with the backup at sector 65534: the second pass reserves 65538 sectors, and
      the boot sector says 2. */
  lemma {:induction false} ReservedTruncated(c: Command, v: Volume, d: Disk, rest: seq<Patch>)
    requires c == Command(Bpb(512, 8, 0, 2, 0, 10000000, 0), 32, 1, 0, 65534, true) && VolumeOk(v)
    requires Format(c, 8, 0).layout.Laid? ==>
      v.fields == FieldPatches(Format(c, 8, 0).layout, d, rest) && Clear(Format(c, 8, 0).layout.fat, rest)
    ensures var l := Format(c, 8, 0).layout;
      l.Laid? && l.b.res == 65538 && ReadGeometry(SectorBytes(v, 0)).res == 2
  {
    hide Format, Attempt, FieldPatches, ReadGeometry, SectorBytes, VolumeOk, FieldsOk, Base, SetupFor, AreaOf,
      FirstPlan, SecondPlan, Chosen, MetaData, Reported, Holds, Patched;
    TruncatedSetup(c);
    var u, b := SetupFor(c, 8), c.b;
    assert c.b.(spc := 8) == b;
    TruncatedFirst(u, b);
    TruncatedSecond(u, b);
    TruncatedEnd(PlanOf(u, b, 0));
    AttemptIsLay(c, 8, 0);
    LaidExactly(u, b, 0);
    LayFollows(u, b, 0);
    FormatStep(c, 8, 0);
    var l := Format(c, 8, 0).layout;
    FormatFields(c, 8, 0);
    FirstIsBoot(v);
    BaseLength(v, 0);
    TruncatedRead(v, l, d, rest);
  }

  lemma TruncatedRead(v: Volume, l: Layout, d: Disk, rest: seq<Patch>)
    requires VolumeOk(v) && FieldsOk(l) && l.b.res == 65538 && KindOf(v, 0).BootSector?
    requires v.fields == FieldPatches(l, d, rest) && Clear(l.fat, rest)
    ensures ReadGeometry(SectorBytes(v, 0)).res == 2
  {
    hide SectorSize, FatType, Base, Patched, ReadGeometry, SmallVolume, BpbBytes, Fat32Bytes;
    BaseLength(v, 0);
    FieldsThere(Base(v, 0), l, d, rest);
    FieldsRead(SectorBytes(v, 0), l, d);
  }

  lemma TruncatedSetup(c: Command)
    requires c == Command(Bpb(512, 8, 0, 2, 0, 10000000, 0), 32, 1, 0, 65534, true)
    ensures CommandOk(c) && AreaOf(c, 8) == Area(65535, 1, 65534)
    ensures SetupFor(c, 8) == SetupOf(32, 65535, c.b, true) && OwnFat(SetupFor(c, 8), c.b)
  {
    assert c.b.(spc := 8) == c.b;
  }

  lemma TruncatedFirst(u: Setup, b: Bpb)
    requires b == Bpb(512, 8, 0, 2, 0, 10000000, 0) && u == SetupOf(32, 65535, b, true)
    ensures CanSize(u, b) && FirstPlan(u, b) == Plan(32, 512, 10000000, 65535, 0, 9683, 2, 8, 0, 9683)
    ensures MetaData(65535, 0, 1, 2) == 65537
  {
    var c := Chosen(u, b, 0);
    assert c == Bpb(512, 8, 65535, 2, 0, 10000000, 0);
    assert RootSectors(32, c) == 0;
    assert Estimate(32, c, 9934463) == 1239388;
    assert FatSectors(32, c, 1239388) == 9683;
  }

  lemma TruncatedSecond(u: Setup, b: Bpb)
    requires b == Bpb(512, 8, 0, 2, 0, 10000000, 0) && u == SetupOf(32, 65535, b, true)
    requires CanSize(u, b) && FirstPlan(u, b) == Plan(32, 512, 10000000, 65535, 0, 9683, 2, 8, 0, 9683)
    ensures SecondPlan(u, b) == Plan(32, 512, 10000000, 65538, 0, 9683, 2, 8, 19364, 9664)
  {
    hide FirstPlan;
    var c := Chosen(u, b, 3);
    assert c == Bpb(512, 8, 65538, 2, 0, 10000000, 0);
    assert OffBy(65535, 9683, 2, 8) == 5;
    assert Estimate(32, c, 9915096) == 1236972;
    assert FatSectors(32, c, 1236972) == 9664;
  }

  lemma TruncatedEnd(q: Plan)
    requires q == Plan(32, 512, 10000000, 65538, 0, 9683, 2, 8, 19364, 9664)
    ensures Inside(q) && FatPlan.Start(q) == 84904 && Reported(q) == 1236966
  {
  }
}
