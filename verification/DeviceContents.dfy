/** What is in each sector that `newfs_msdos` writes: boot, info and FAT sectors as the
    FAT32 File System Specification 1.03 wants them, the root directory, and nothing else. */
module DeviceContents {
  import opened Arith
  import opened BootFields
  import opened Buffers
  import opened FatFormat
  import opened FatLayout
  import opened FatPlan
  import opened Newfs
  import opened NewfsChoice
  import opened SectorWriter

  // ----- Bytes of a patched sector -----

  predicate Touched(ps: seq<Patch>, k: nat) { exists p :: p in ps && p.at <= k < p.at + |p.bytes| }

  /** Bytes that no patch covers are those of the sector below. */
  lemma {:induction false} UntouchedSame(s: seq<Byte>, ps: seq<Patch>, k: nat)
    requires |s| >= MINBPS && Fits(ps) && k < |s| && !Touched(ps, k)
    ensures Patched(s, ps)[k] == s[k]
    decreases |ps|
  {
    hide Overwrite, Fits;
    if ps == [] {
    } else {
      var n := |ps| - 1;
      var q, p := ps[..n], ps[n];
      assert ps == q + [p];
      assert p in ps && forall x | x in q :: x in ps;
      PatchedStep(s, q, p);
      OverwriteElsewhere(Patched(s, q), p.at, p.bytes, k, k + 1);
      var t, r := Patched(s, ps), Patched(s, q);
      assert t[k] == t[k..k + 1][0] && r[k] == r[k..k + 1][0];
      assert !Touched(q, k);
      UntouchedSame(s, q, k);
    }
  }

  lemma FitsPart(a: seq<Patch>, b: seq<Patch>)
    requires Fits(a + b)
    ensures Fits(a)
  {
    assert forall x | x in a :: x in a + b;
  }

  /** A patch that no later one touches is there. */
  lemma {:induction false} PatchThere(s: seq<Byte>, before: seq<Patch>, p: Patch, after: seq<Patch>)
    requires |s| >= MINBPS && Fits(before + [p] + after)
    requires forall q | q in after :: q.at + |q.bytes| <= p.at || q.at >= p.at + |p.bytes|
    ensures p.at + |p.bytes| <= MINBPS
    ensures Patched(s, before + [p] + after)[p.at..p.at + |p.bytes|] == p.bytes
  {
    hide Patched, Overwrite, Fits;
    var first := before + [p];
    FitsPart(first, after);
    PatchedStep(s, before, p);
    PatchedElsewhere(s, first, after, p.at, p.at + |p.bytes|);
    PatchedLast(s, before, p);
  }

  lemma {:induction false} PatchedNone(s: seq<Byte>)
    requires |s| >= MINBPS
    ensures Fits([]) && Patched(s, []) == s
  {
  }

  // ----- What lies where -----

  /** The boot sector and its backup. */
  predicate IsBoot(v: Volume, lsn: nat) { lsn == 0 || (v.fat == 32 && v.bkbs != MAXU16 && lsn == v.bkbs) }

  /** The info sector and its backup. */
  predicate IsInfo(v: Volume, lsn: nat) {
    && !IsBoot(v, lsn) && v.fat == 32 && v.infs != MAXU16
    && (lsn == v.infs || (v.bkbs != MAXU16 && lsn == v.bkbs + v.infs))
  }

  /** The first sector of a FAT. */
  ghost predicate IsHead(v: Volume, lsn: nat) { !IsInfo(v, lsn) && exists k: nat :: HeadAt(v, lsn, k) }

  /** The first sector behind the FATs, when there is a label. */
  predicate IsLabel(v: Volume, lsn: nat) { lsn == v.res + v.spf * v.nft && v.labelEntry != [] && !IsInfo(v, lsn) }

  lemma KindsAre(v: Volume, lsn: nat)
    requires VolumeOk(v) && (v.fat == 32 ==> SystemInside(v))
    ensures KindOf(v, lsn).BootSector? <==> IsBoot(v, lsn)
    ensures KindOf(v, lsn).InfoSector? <==> IsInfo(v, lsn)
    ensures KindOf(v, lsn).FatHead? <==> IsHead(v, lsn)
    ensures KindOf(v, lsn).Label? <==> IsLabel(v, lsn)
  {
    HeadsExact(v, lsn);
    if exists k: nat :: HeadAt(v, lsn, k) {
      var k: nat :| HeadAt(v, lsn, k);
      MulMono(k, v.nft, v.spf);
      assert v.nft * v.spf == v.spf * v.nft;
    }
  }

  // ----- The info sector (section "FAT32 FSInfo Sector Structure and Backup Boot Sector") -----

  /** Both signatures, an unknown free count, and where to look for a free cluster. */
  predicate InfoFields(s: seq<Byte>, next: nat)
    requires |s| >= MINBPS
  {
    && Long(s, 0) == 0x41615252 && Long(s, 484) == 0x61417272 && Long(s, 488) == 0xffff_ffff && Long(s, 492) == next
    && s[510] == 0x55 && s[511] == 0xaa
  }

  lemma LongThere(s: seq<Byte>, i: nat, x: nat)
    requires i + 4 <= |s| && x < WRAP && |Bytes4(x)| == 4 && s[i..i + 4] == Bytes4(x)
    ensures Long(s, i) == x
  {
    hide Bytes4, Long;
    var b := s[i..i + 4];
    assert forall k | 0 <= k < 4 :: Bytes4(x)[k] == s[i + k] by {
      assert forall k | 0 <= k < 4 :: b[k] == s[i + k];
    }
    LongBytes(x, s, i);
  }

  lemma InfoFits(v: Volume)
    ensures Fits(InfoPatches(v))
  {
  }

  lemma {:induction false} InfoThere(s: seq<Byte>, v: Volume)
    requires |s| >= MINBPS && v.rdcl < WRAP && Fits(InfoPatches(v))
    ensures InfoFields(Patched(s, InfoPatches(v)), v.rdcl)
  {
    hide Patched, Bytes4, Long, Fits;
    var a, b := Patch(0, Bytes4(0x41615252)), Patch(MINBPS - 28, Bytes4(0x61417272));
    var c := Patch(MINBPS - 24, Bytes4(0xffffffff));
    var d, e := Patch(MINBPS - 20, Bytes4(v.rdcl)), Patch(MINBPS - 2, [0x55, 0xaa]);
    var ps := InfoPatches(v);
    var t := Patched(s, ps);
    FourBytes(0x41615252);
    FourBytes(0x61417272);
    FourBytes(0xffffffff);
    FourBytes(v.rdcl);
    assert ps == [] + [a] + [b, c, d, e] == [a] + [b] + [c, d, e] == [a, b] + [c] + [d, e];
    assert ps == [a, b, c] + [d] + [e] == [a, b, c, d] + [e] + [];
    PatchThere(s, [], a, [b, c, d, e]);
    PatchThere(s, [a], b, [c, d, e]);
    PatchThere(s, [a, b], c, [d, e]);
    PatchThere(s, [a, b, c], d, [e]);
    PatchThere(s, [a, b, c, d], e, []);
    LongThere(t, 0, 0x41615252);
    LongThere(t, 484, 0x61417272);
    LongThere(t, 488, 0xffffffff);
    LongThere(t, 492, v.rdcl);
    assert t[510] == t[510..512][0] && t[511] == t[510..512][1];
  }

  // ----- The boot file -----

  /** Below everything else: the sectors of the boot file from sector 0, and again from the
      backup boot sector when it fits below that; otherwise zeros. */
  lemma BaseIs(v: Volume, lsn: nat)
    requires VolumeOk(v)
    ensures var again := v.fat == 32 && v.bkbs != MAXU16 && |v.boot| <= v.bkbs;
      Base(v, lsn)
      == if lsn < |v.boot| then v.boot[lsn]
         else if again && v.bkbs <= lsn < v.bkbs + |v.boot| then v.boot[lsn - v.bkbs]
         else seq(v.bps, _ => 0)
  {
  }

  // ----- Every sector -----

  /** Each kind of sector, and that there is nothing more: what is written over the boot
      file or the zeros below. */
  lemma SectorIs(v: Volume, lsn: nat)
    requires VolumeOk(v) && (v.fat == 32 ==> SystemInside(v) && v.rdcl < WRAP)
    ensures var s, below := SectorBytes(v, lsn), Base(v, lsn);
      && |s| == |below| == v.bps >= MINBPS
      && (IsBoot(v, lsn) ==> s == Patched(below, v.fields))
      && (IsInfo(v, lsn) ==> InfoFields(s, v.rdcl))
      && (IsInfo(v, lsn) ==>
            forall k | 0 <= k < v.bps && !(k < 4 || 484 <= k < 496 || 510 <= k < 512) :: s[k] == below[k])
      && (IsHead(v, lsn) && !IsBoot(v, lsn) ==>
            |HeadBytes(v)| <= v.bps && s[..|HeadBytes(v)|] == HeadBytes(v)
            && forall k | |HeadBytes(v)| <= k < v.bps :: s[k] == below[k])
      && (IsLabel(v, lsn) && !IsBoot(v, lsn) && !IsHead(v, lsn) ==> s == Patched(below, v.labelEntry))
      && (!IsBoot(v, lsn) && !IsInfo(v, lsn) && !IsHead(v, lsn) && !IsLabel(v, lsn) ==> s == below)
  {
    hide Base, Patched, InfoFields, HeadBytes, KindOf, Fits, InfoPatches, IsHead, IsBoot, IsLabel;
    KindsAre(v, lsn);
    KindsApart(v, lsn);
    BaseLength(v, lsn);
    PatchesFit(v, lsn);
    var below := Base(v, lsn);
    PatchedNone(below);
    if IsInfo(v, lsn) {
      InfoFits(v);
      InfoThere(below, v);
      InfoElsewhere(below, v);
    }
    if IsHead(v, lsn) {
      assert Patches(v, lsn) == [Patch(0, HeadBytes(v))];
      HeadThere(below, v);
    }
  }

  lemma KindsApart(v: Volume, lsn: nat)
    requires VolumeOk(v) && (v.fat == 32 ==> SystemInside(v))
    ensures IsBoot(v, lsn) ==> !IsInfo(v, lsn) && !IsHead(v, lsn) && !IsLabel(v, lsn)
    ensures IsHead(v, lsn) ==> !IsLabel(v, lsn)
  {
    if exists k: nat :: HeadAt(v, lsn, k) {
      var k: nat :| HeadAt(v, lsn, k);
      MulMono(k, v.nft, v.spf);
      assert v.nft * v.spf == v.spf * v.nft;
    }
  }

  lemma {:induction false} InfoElsewhere(s: seq<Byte>, v: Volume)
    requires |s| >= MINBPS && Fits(InfoPatches(v))
    ensures forall k | 0 <= k < |s| && !(k < 4 || 484 <= k < 496 || 510 <= k < 512) ::
              Patched(s, InfoPatches(v))[k] == s[k]
  {
    hide Patched, Fits, Bytes4;
    FourBytes(0x41615252);
    FourBytes(0x61417272);
    FourBytes(0xffffffff);
    FourBytes(v.rdcl);
    forall k | 0 <= k < |s| && !(k < 4 || 484 <= k < 496 || 510 <= k < 512)
      ensures Patched(s, InfoPatches(v))[k] == s[k]
    {
      UntouchedSame(s, InfoPatches(v), k);
    }
  }

  lemma {:induction false} HeadThere(s: seq<Byte>, v: Volume)
    requires |s| >= MINBPS && FatType(v.fat) && Fits([Patch(0, HeadBytes(v))])
    ensures |HeadBytes(v)| <= MINBPS && Patched(s, [Patch(0, HeadBytes(v))])[..|HeadBytes(v)|] == HeadBytes(v)
    ensures forall k | |HeadBytes(v)| <= k < |s| :: Patched(s, [Patch(0, HeadBytes(v))])[k] == s[k]
  {
    hide Patched, HeadBytes;
    var p := Patch(0, HeadBytes(v));
    assert [] + [p] == [p];
    assert p in [p];
    PatchedLast(s, [], p);
    forall k | |HeadBytes(v)| <= k < |s| ensures Patched(s, [p])[k] == s[k] { UntouchedSame(s, [p], k); }
  }

  // ----- The root directory and the FATs -----

  /** Neither a boot file nor the info sector's backup reaches a sector. */
  predicate OnlyFat(v: Volume, lsn: nat) { v.boot == [] && !InfoBackup(v, lsn) }

  /** The root directory, on FAT32 its cluster, holds the label entry and is empty
      otherwise; so are the FATs behind their heads. */
  lemma RootAndFats(v: Volume, l: Layout, bytes: seq<Byte>, lsn: nat)
    requires VolumeOk(v) && Shows(v, l) && OnDevice(v, l, bytes) && (v.fat == 32 ==> SystemInside(v) && v.rdcl < WRAP)
    requires v.res <= lsn < RootEnd(l) && OnlyFat(v, lsn)
    ensures var s := SectorAt(bytes, v.bps, lsn);
      && |s| == v.bps
      && (lsn == RootStart(l) && v.labelEntry != [] ==> s == Patched(seq(v.bps, _ => 0), v.labelEntry))
      && (lsn == RootStart(l) ==> forall k | 0 <= k < v.bps && !Touched(v.labelEntry, k) :: s[k] == 0)
      && (lsn > RootStart(l) ==> forall k | 0 <= k < v.bps :: s[k] == 0)
      && (lsn < RootStart(l) ==>
            if IsHead(v, lsn) then
              |HeadBytes(v)| <= v.bps && s[..|HeadBytes(v)|] == HeadBytes(v)
              && forall k | |HeadBytes(v)| <= k < v.bps :: s[k] == 0
            else forall k | 0 <= k < v.bps :: s[k] == 0)
  {
    hide SectorBytes, Patched, HeadBytes, InfoFields, IsHead, Touched, SectorAt, Fits, Base;
    SectorIs(v, lsn);
    BaseIs(v, lsn);
    HeadsBelow(v, l, lsn);
    assert Fits(v.labelEntry);
    if lsn == RootStart(l) {
      forall k | 0 <= k < v.bps && !Touched(v.labelEntry, k) ensures SectorBytes(v, lsn)[k] == 0 {
        if v.labelEntry != [] { UntouchedSame(Base(v, lsn), v.labelEntry, k); }
      }
    }
  }

  lemma HeadsBelow(v: Volume, l: Layout, lsn: nat)
    requires VolumeOk(v) && Shows(v, l)
    ensures IsHead(v, lsn) ==> v.res <= lsn < RootStart(l)
  {
    if exists k: nat :: HeadAt(v, lsn, k) {
      var k: nat :| HeadAt(v, lsn, k);
      MulMono(k, v.nft, v.spf);
      assert v.nft * v.spf == v.spf * v.nft;
    }
  }

  // ----- The root directory of FAT32 -----

  /** Sector `lsn` was written. */
  ghost predicate Written(bytes: seq<Byte>, bps: nat, lsn: nat) { |SectorAt(bytes, bps, lsn)| == bps }

  /** The root directory of FAT32 is the first cluster, where a reader looks for it behind
      the sectors of the root entries; the program writes a cluster right behind the FATs. */
  lemma RootClusterExact(v: Volume, l: Layout, bytes: seq<Byte>)
    requires VolumeOk(v) && Shows(v, l) && l.fat == 32 && l.b.spc >= 1 && OnDevice(v, l, bytes)
    ensures (forall lsn: nat | DataStart(l) <= lsn < DataStart(l) + l.b.spc :: Written(bytes, v.bps, lsn)) <==> l.rds == 0
  {
    hide SectorBytes, Base;
    var last := DataStart(l) + l.b.spc - 1;
    if l.rds == 0 {
      forall lsn: nat | DataStart(l) <= lsn < DataStart(l) + l.b.spc ensures Written(bytes, v.bps, lsn) {
        assert SectorAt(bytes, v.bps, lsn) == SectorBytes(v, lsn);
      }
    } else {
      BehindEnd(bytes, v.bps, RootEnd(l), last);
      assert !Written(bytes, v.bps, last);
    }
  }

  lemma BehindEnd(bytes: seq<Byte>, bps: nat, n: nat, lsn: nat)
    requires |bytes| == n * bps && n <= lsn && bps >= 1
    ensures SectorAt(bytes, bps, lsn) == []
  {
    MulLe(n, lsn, bps);
  }

  /** So the root directory of a FAT32 volume is written exactly if no root directory size
      was given with `-e`. */
  lemma {:induction false} RootClusterWritten(c: Command, spc: nat, l: Layout, v: Volume, bytes: seq<Byte>)
    requires CommandOk(c) && (spc == 0 || ClusterSize(spc)) && l == Format(c, spc, 0).layout && l.Laid? && l.fat == 32
    requires VolumeOk(v) && Shows(v, l) && OnDevice(v, l, bytes)
    ensures (forall lsn: nat | DataStart(l) <= lsn < DataStart(l) + l.b.spc :: Written(bytes, v.bps, lsn))
            <==> c.b.rde == 0
  {
    hide Format, LastStart, AreaOf, SetupFor, ChosenWell, MayAlign, Attempt, VolumeOk, Shows, OnDevice, DataStart,
      FatOf, ClusterSize, Written, CommandOk;
    FormatFields(c, spc, 0);
    FormatNumbers(c, spc, 0);
    var s := LastStart(c, spc, 0);
    LastLayout(c, spc, 0);
    AttemptSpc(c, s.spc, s.attempts);
    SetupFits(c, s.spc);
    var extra: nat :| ChosenWell(SetupFor(c, s.spc), c.b.(spc := s.spc), extra, l.b.(bsec := c.b.bsec), l.rds);
    SameRoot(SetupFor(c, s.spc), c.b.(spc := s.spc), extra, l.b.(bsec := c.b.bsec), l.rds);
    RootClusterExact(v, l, bytes);
  }

  lemma SameRoot(u: Setup, b: Bpb, extra: nat, c: Bpb, rds: nat)
    requires b.bps >= 32 && ChosenWell(u, b, extra, c, rds) && u.fat == 32
    ensures rds == 0 <==> b.rde == 0
  {
    var m := b.bps / 32;
    if b.rde > 0 { DivBounds(b.rde + m - 1, m); }
  }

  /** `-F 32 -c 8 -e 512` on 4000000 sectors: 499017 clusters, and 32 sectors of root entries
      between the FATs and the first cluster, of which 8 are written. */
  lemma {:induction false} RootUnwritten(c: Command)
    requires c == Command(Bpb(512, 8, 0, 2, 512, 4000000, 0), 32, 1, 0, 0, false)
    ensures var l := Format(c, 8, 0).layout;
      l.Laid? && l.fat == 32 && l.rds == 32 && l.b.spc == 8 && l.cls == 499017
      && RootEnd(l) == 7838 && DataStart(l) == 7862
  {
    hide Format, Attempt, SetupFor, AreaOf, Chosen, FirstPlan, SecondPlan, Reported, Holds, RootEnd;
    UnwrittenSetup(c);
    var u, b := SetupFor(c, 8), c.b;
    assert c.b.(spc := 8) == b;
    UnwrittenPlan(u, b);
    var q := Plan(32, 512, 4000000, 32, 32, 3899, 2, 8, 0, 3899);
    UnwrittenEnd(q);
    AttemptIsLay(c, 8, 0);
    LaidExactly(u, b, 0);
    LayFollows(u, b, 0);
    FormatStep(c, 8, 0);
    UnwrittenLayout(Format(c, 8, 0).layout);
  }

  lemma UnwrittenLayout(l: Layout)
    requires l.Laid? && l.fat == 32 && l.b.res == 32 && l.b.bspf == 3899 && l.b.nft == 2 && l.rds == 32 && l.b.spc == 8
    ensures RootEnd(l) == 7838 && DataStart(l) == 7862
  {
  }

  lemma UnwrittenSetup(c: Command)
    requires c == Command(Bpb(512, 8, 0, 2, 512, 4000000, 0), 32, 1, 0, 0, false)
    ensures CommandOk(c) && AreaOf(c, 8) == Area(3, 1, 2)
    ensures SetupFor(c, 8) == SetupOf(32, 3, c.b, false) && OwnFat(SetupFor(c, 8), c.b)
  {
    assert c.b.(spc := 8) == c.b;
  }

  lemma UnwrittenPlan(u: Setup, b: Bpb)
    requires b == Bpb(512, 8, 0, 2, 512, 4000000, 0) && u == SetupOf(32, 3, b, false)
    ensures CanSize(u, b) && FirstPlan(u, b) == Plan(32, 512, 4000000, 32, 32, 3899, 2, 8, 0, 3899)
    ensures MetaData(32, 32, 1, 2) == 66
  {
    var c := Chosen(u, b, 0);
    assert c == Bpb(512, 8, 32, 2, 512, 4000000, 0);
    assert RootSectors(32, c) == 32;
    assert Estimate(32, c, 3999934) == 499018;
    assert FatSectors(32, c, 499018) == 3899;
  }

  lemma UnwrittenEnd(q: Plan)
    requires q == Plan(32, 512, 4000000, 32, 32, 3899, 2, 8, 0, 3899)
    ensures Inside(q) && FatPlan.Start(q) == 7862 && Reported(q) == 499017
  {
  }
}
