/** How `newfs_msdos` emits the boot, info, FAT and root directory sectors through its
    I/O buffer. */
module SectorWriter {
  import opened Arith
  import opened Buffers
  import opened FatLayout
  import Newfs

  const IO_BUFFER_SIZE := 512 * 1024
  const MINBPS := 512

  /** Bytes written over a sector at an offset. */
  datatype Patch = Patch(at: nat, bytes: seq<Byte>)

  /** The final `bpb`, the sectors of the boot file (none without `-B`), and the bytes
      of the boot sector fields and of the volume label entry (none without `-L`). */
  datatype Volume = Volume(
    fat: nat, bps: nat, spc: nat, res: nat, spf: nat, nft: nat, rds: nat,
    infs: nat, bkbs: nat, mid: Byte, rdcl: nat,
    boot: seq<seq<Byte>>, fields: seq<Patch>, labelEntry: seq<Patch>)

  predicate Fits(ps: seq<Patch>) { forall p | p in ps :: p.at + |p.bytes| <= MINBPS }

  predicate VolumeOk(v: Volume) {
    && FatType(v.fat) && SectorSize(v.bps) && 1 <= v.spf && 1 <= v.nft && v.res >= 1
    && (forall s | s in v.boot :: |s| == v.bps) && Fits(v.fields) && Fits(v.labelEntry)
  }

  /** The first sector of the root directory, and the end of what is written. */
  function Dir(v: Volume): nat { v.res + v.spf * v.nft }
  function End(v: Volume): nat { Dir(v) + if v.fat == 32 then v.spc else v.rds }

  // ----- The sectors -----

  /** The boot code is copied again at the backup sector. */
  predicate Restarts(v: Volume) {
    v.boot != [] && v.fat == 32 && v.bkbs != MAXU16 && |v.boot| <= v.bkbs
  }

  /** The sector of the boot file that belongs at `lsn`, if any does. */
  function BootIndex(v: Volume, lsn: nat): nat {
    if Restarts(v) && lsn >= v.bkbs then lsn - v.bkbs else lsn
  }

  predicate FromBoot(v: Volume, lsn: nat) { BootIndex(v, lsn) < |v.boot| }

  function Zeros(n: nat): seq<Byte> { seq(n, _ => 0) }

  function Base(v: Volume, lsn: nat): seq<Byte> {
    if FromBoot(v, lsn) then v.boot[BootIndex(v, lsn)] else Zeros(v.bps)
  }

  datatype Kind = BootSector | InfoSector | FatHead | Label | Plain

  /** The chain of lines 722-800. */
  function KindOf(v: Volume, lsn: nat): Kind
    requires v.spf >= 1
  {
    if lsn == 0 || (v.fat == 32 && v.bkbs != MAXU16 && lsn == v.bkbs) then BootSector
    else if v.fat == 32 && v.infs != MAXU16 && (lsn == v.infs || (v.bkbs != MAXU16 && lsn == v.bkbs + v.infs))
    then InfoSector
    else if v.res <= lsn < Dir(v) && (lsn - v.res) % v.spf == 0 then FatHead
    else if lsn == Dir(v) && v.labelEntry != [] then Label
    else Plain
  }

  /** Little-endian bytes of a 32-bit value (`mk4`). */
  function Bytes4(x: nat): seq<Byte> {
    [x % 0x100, x / 0x100 % 0x100, x / 0x1_0000 % 0x100, x / 0x100_0000 % 0x100]
  }

  function InfoPatches(v: Volume): seq<Patch> {
    [Patch(0, Bytes4(0x41615252)), Patch(MINBPS - 28, Bytes4(0x61417272)), Patch(MINBPS - 24, Bytes4(0xffffffff)),
     Patch(MINBPS - 20, Bytes4(v.rdcl)), Patch(MINBPS - 2, [0x55, 0xaa])]
  }

  function HeadLength(fat: nat): nat { fat * (if fat == 32 then 3 else 2) / 8 }

  function HeadByte(v: Volume, x: nat): Byte {
    if x == 0 then v.mid else if v.fat == 32 && x % 4 == 3 then 0x0f else 0xff
  }

  function HeadBytes(v: Volume): seq<Byte> {
    seq(HeadLength(v.fat), x requires 0 <= x < HeadLength(v.fat) => HeadByte(v, x))
  }

  function Patches(v: Volume, lsn: nat): seq<Patch>
    requires v.spf >= 1
  {
    match KindOf(v, lsn)
    case BootSector => v.fields
    case InfoSector => InfoPatches(v)
    case FatHead => [Patch(0, HeadBytes(v))]
    case Label => v.labelEntry
    case Plain => []
  }

  function Patched(s: seq<Byte>, ps: seq<Patch>): (r: seq<Byte>)
    requires |s| >= MINBPS && Fits(ps)
    ensures |r| == |s|
  {
    if ps == [] then s
    else
      var p := ps[|ps| - 1];
      assert p in ps;
      Overwrite(Patched(s, ps[..|ps| - 1]), p.at, p.bytes)
  }

  lemma PatchesFit(v: Volume, lsn: nat)
    requires VolumeOk(v)
    ensures Fits(Patches(v, lsn))
  {
  }

  function SectorBytes(v: Volume, lsn: nat): (s: seq<Byte>)
    requires VolumeOk(v)
    ensures |s| == v.bps
  {
    PatchesFit(v, lsn);
    Patched(Base(v, lsn), Patches(v, lsn))
  }

  /** What an unbuffered writer would put on the device: sectors 0 to n - 1 in order. */
  function Image(v: Volume, n: nat): (r: seq<Byte>)
    requires VolumeOk(v)
    ensures |r| == n * v.bps
  {
    if n == 0 then [] else Image(v, n - 1) + SectorBytes(v, n - 1)
  }

  /** Sector `lsn` of the image is `SectorBytes(v, lsn)`. */
  lemma {:induction false} ImageSector(v: Volume, n: nat, lsn: nat)
    requires VolumeOk(v) && lsn < n
    ensures lsn * v.bps + v.bps <= n * v.bps
    ensures Image(v, n)[lsn * v.bps..lsn * v.bps + v.bps] == SectorBytes(v, lsn)
  {
    hide SectorBytes, VolumeOk;
    assert n * v.bps == (n - 1) * v.bps + v.bps;
    if lsn < n - 1 {
      ImageSector(v, n - 1, lsn);
      MulMono(lsn, n, v.bps);
    }
  }

  // ----- How far it goes -----

  /** The volume is written with the numbers of a layout. */
  predicate Shows(v: Volume, l: Layout) {
    && l.Laid? && v.fat == l.fat && v.bps == l.b.bps && v.spc == l.b.spc && v.res == l.b.res && v.spf == l.b.bspf
    && v.nft == l.b.nft && v.rds == l.rds
  }

  /** The root directory starts behind the FATs; it ends where the clusters start, and on
      FAT32 it has the size of a cluster. */
  function RootStart(l: Layout): nat
    requires l.Laid?
  {
    l.b.res + l.b.bspf * l.b.nft
  }

  function RootEnd(l: Layout): nat
    requires l.Laid?
  {
    if l.fat == 32 then RootStart(l) + l.b.spc else DataStart(l)
  }

  /** Every sector up to the end of the root directory is there, and no more. */
  ghost predicate OnDevice(v: Volume, l: Layout, bytes: seq<Byte>)
    requires VolumeOk(v) && l.Laid?
  {
    && |bytes| == RootEnd(l) * v.bps
    && forall lsn: nat | lsn < RootEnd(l) :: SectorAt(bytes, v.bps, lsn) == SectorBytes(v, lsn)
  }

  /** Sector `lsn` of a device. */
  function SectorAt(bytes: seq<Byte>, bps: nat, lsn: nat): seq<Byte> {
    if lsn * bps + bps <= |bytes| then bytes[lsn * bps..lsn * bps + bps] else []
  }

  /** ... for the layout that the volume is written with. */
  ghost predicate Complete(v: Volume, bytes: seq<Byte>)
    requires VolumeOk(v)
  {
    forall l | Shows(v, l) :: OnDevice(v, l, bytes)
  }

  lemma {:induction false} WholeVolume(v: Volume, l: Layout)
    requires VolumeOk(v) && Shows(v, l)
    ensures End(v) == RootEnd(l) && OnDevice(v, l, Image(v, End(v)))
    ensures RootEnd(l) == if l.fat != 32 then DataStart(l) else DataStart(l) - l.rds + l.b.spc
  {
    hide SectorBytes, Image, VolumeOk;
    assert End(v) == RootEnd(l) by { assert VolumeOk(v); }
    forall lsn: nat | lsn < RootEnd(l)
      ensures SectorAt(Image(v, End(v)), v.bps, lsn) == SectorBytes(v, lsn)
    {
      ImageSector(v, End(v), lsn);
    }
  }

  // ----- Where the FAT heads are -----

  /** The start of FAT `k`. */
  predicate HeadAt(v: Volume, lsn: nat, k: nat) { k < v.nft && lsn == v.res + k * v.spf }

  /** The info and backup sectors lie in the reserved area. */
  predicate SystemInside(v: Volume) {
    && (v.bkbs != MAXU16 ==> v.bkbs < v.res)
    && (v.infs != MAXU16 ==> v.infs < v.res)
  }

  /** The backup of the info sector. */
  predicate InfoBackup(v: Volume, lsn: nat) {
    v.fat == 32 && v.infs != MAXU16 && v.bkbs != MAXU16 && lsn == v.bkbs + v.infs
  }

  /** A sector gets the FAT head pattern exactly when it is the first of a FAT and not
      where the info sector is backed up. */
  lemma HeadsExact(v: Volume, lsn: nat)
    requires VolumeOk(v) && (v.fat == 32 ==> SystemInside(v))
    ensures KindOf(v, lsn).FatHead? <==> (exists k: nat :: HeadAt(v, lsn, k)) && !InfoBackup(v, lsn)
  {
    if v.res <= lsn < Dir(v) && (lsn - v.res) % v.spf == 0 {
      var k := (lsn - v.res) / v.spf;
      DivBounds(lsn - v.res, v.spf);
      DivBelow(lsn - v.res, v.spf, v.nft);
      assert HeadAt(v, lsn, k);
    }
    forall k: nat | HeadAt(v, lsn, k)
      ensures v.res <= lsn < Dir(v) && (lsn - v.res) % v.spf == 0
    {
      DivMultiple(k, v.spf);
      MulMono(k, v.nft, v.spf);
      assert v.nft * v.spf == v.spf * v.nft;
    }
  }

  /** Every FAT starts with the pattern exactly when the info sector's backup misses
      the FATs' first sectors. */
  lemma AllHeads(v: Volume)
    requires VolumeOk(v) && (v.fat == 32 ==> SystemInside(v))
    ensures (forall lsn: nat, k: nat | HeadAt(v, lsn, k) :: KindOf(v, lsn).FatHead?)
      <==> !(exists lsn: nat, k: nat :: HeadAt(v, lsn, k) && InfoBackup(v, lsn))
  {
    forall lsn: nat, k: nat | HeadAt(v, lsn, k)
      ensures KindOf(v, lsn).FatHead? <==> !InfoBackup(v, lsn)
    {
      HeadsExact(v, lsn);
    }
  }

  /** ... as it does when the program chooses the reserved, info and backup sectors and
      there is no boot file. */
  lemma DefaultHeads(v: Volume, lsn: nat)
    requires VolumeOk(v) && (v.fat == 32 ==> v.infs == 1 && v.bkbs == 2 && v.res >= 4)
    ensures KindOf(v, lsn).FatHead? <==> exists k: nat :: HeadAt(v, lsn, k)
  {
    HeadsExact(v, lsn);
  }

  /** What the program chooses, at every sector size. */
  lemma DefaultArea(bps: nat)
    requires SectorSize(bps)
    ensures Newfs.SystemArea(32, 1, 0, 0) == Newfs.Area(3, 1, 2)
    ensures BaseReserved(Setup(32, 3, true, true, true, false), bps) >= 4
  {
  }

  /** A boot file of two sectors whose info backup lands on the second FAT. */
  lemma HeadOverwritten(v: Volume)
    requires VolumeOk(v) && v.fat == 32 && v.res == 4 && v.spf == 1 && v.nft == 2 && v.infs == 2 && v.bkbs == 3
    ensures SystemInside(v) && HeadAt(v, 5, 1) && KindOf(v, 5).InfoSector?
  {
  }

  /** The FAT sectors start out blank exactly when the second copy of the boot code
      ends in the reserved area. */
  lemma FatsBlank(v: Volume)
    requires VolumeOk(v) && SystemInside(v) && |v.boot| <= v.res
    ensures (forall lsn: nat | v.res <= lsn < Dir(v) :: !FromBoot(v, lsn))
      <==> !Restarts(v) || v.bkbs + |v.boot| <= v.res
  {
    assert v.spf * v.nft >= 1;
    if Restarts(v) { assert FromBoot(v, v.res) <==> v.bkbs + |v.boot| > v.res; }
  }

  // ----- The reserved FAT entries (section "FAT Data Structure") -----

  /** Byte `i` at a place value. */
  function Weighted(bytes: seq<Byte>, i: nat, weight: nat): nat
    requires i < |bytes|
  {
    weight * bytes[i]
  }

  /** Entry `i` of a FAT, from its bytes. */
  function Entry(fat: nat, bytes: seq<Byte>, i: nat): nat
    requires fat == 12 ==> i < 2 && |bytes| >= 3
    requires fat == 16 ==> 2 * i + 1 < |bytes|
    requires fat != 12 && fat != 16 ==> 4 * i + 3 < |bytes|
  {
    if fat == 12 then
      if i == 0 then bytes[0] + 256 * (bytes[1] % 16) else bytes[1] / 16 + Weighted(bytes, 2, 16)
    else if fat == 16 then bytes[2 * i] + Weighted(bytes, 2 * i + 1, 0x100)
    else bytes[4 * i] + Weighted(bytes, 4 * i + 1, 0x100) + Weighted(bytes, 4 * i + 2, 0x1_0000)
         + Weighted(bytes, 4 * i + 3, 0x100_0000)
  }

  function EntryOnes(fat: nat): nat { if fat == 12 then 0xfff else if fat == 16 then 0xffff else 0x0fff_ffff }

  /** The first entry is the media byte under ones, the second is the end-of-chain mark,
      and on FAT32 so is the third, the root directory's cluster; no more is written. */
  lemma HeadEntries(v: Volume)
    requires VolumeOk(v)
    ensures var b := HeadBytes(v);
      && |b| == (if v.fat == 12 then 3 else if v.fat == 16 then 4 else 12)
      && Entry(v.fat, b, 0) == EntryOnes(v.fat) - 0xff + v.mid
      && Entry(v.fat, b, 1) == EntryOnes(v.fat)
      && (v.fat == 32 ==> Entry(v.fat, b, 2) == EntryOnes(v.fat))
  {
  }

  // ----- The buffered writer -----

  /** The position in the boot file before sector `lsn`. */
  function ReadPos(v: Volume, lsn: nat): nat {
    if Restarts(v) && lsn > v.bkbs then Min(lsn - v.bkbs, |v.boot|) else Min(lsn, |v.boot|)
  }

  lemma OverwriteInside(buf: seq<Byte>, at: nat, s: seq<Byte>, off: nat, bytes: seq<Byte>)
    requires at + |s| <= |buf| && off + |bytes| <= |s|
    ensures Overwrite(Overwrite(buf, at, s), at + off, bytes) == Overwrite(buf, at, Overwrite(s, off, bytes))
  {
  }

  /** The chunks a writer makes of an image. */
  function Chunks(v: Volume): nat
    requires VolumeOk(v)
  {
    CeilDiv(|Image(v, End(v))|, IO_BUFFER_SIZE)
  }

  /** A whole number of sectors fills the buffer. */
  lemma BufferFills(bps: nat, img: nat)
    requires SectorSize(bps) && img % bps == 0 && img < IO_BUFFER_SIZE
    ensures img + bps <= IO_BUFFER_SIZE && (img + bps) % bps == 0
  {
    hide SectorSize;
    BufferMultiple(bps);
    NextMultiple(img / bps, bps, IO_BUFFER_SIZE / bps);
    DivBounds(img, bps);
  }

  lemma BufferMultiple(bps: nat)
    requires SectorSize(bps)
    ensures bps >= 1 && IO_BUFFER_SIZE == IO_BUFFER_SIZE / bps * bps
  {
  }

  lemma NextMultiple(q: nat, m: nat, n: nat)
    requires m >= 1 && q * m < n * m
    ensures q * m + m <= n * m && (q * m + m) % m == 0
  {
    if n <= q { MulLe(n, q, m); }
    MulMono(q, n, m);
    assert q * m + m == (q + 1) * m;
    DivMultiple(q + 1, m);
  }

  lemma BaseLength(v: Volume, lsn: nat)
    requires VolumeOk(v)
    ensures |Base(v, lsn)| == v.bps >= MINBPS
  {
  }

  class Writer {
    const io_buffer: array<Byte>
    var img: nat                   // the current sector within `io_buffer`
    var pos: nat                   // position in the boot file
    var device: seq<seq<Byte>>     // what was written, write by write

    constructor ()
      ensures fresh(io_buffer) && io_buffer.Length == IO_BUFFER_SIZE
      ensures img == 0 && pos == 0 && device == []
    {
      io_buffer := new Byte[IO_BUFFER_SIZE](_ => 0);
      img, pos, device := 0, 0, [];
    }

    method Fill(at: nat, bytes: seq<Byte>)
      requires at + |bytes| <= io_buffer.Length
      modifies io_buffer
      ensures io_buffer[..] == Overwrite(old(io_buffer[..]), at, bytes)
    {
      var i := 0;
      while i < |bytes|
        invariant i <= |bytes|
        invariant forall k | 0 <= k < i :: io_buffer[at + k] == bytes[k]
        invariant forall k | 0 <= k < io_buffer.Length && !(at <= k < at + i) :: io_buffer[k] == old(io_buffer[k])
      {
        io_buffer[at + i] := bytes[i];
        i := i + 1;
      }
    }

    method Apply(ps: seq<Patch>, ghost s: seq<Byte>, ghost buf: seq<Byte>)
      requires |s| >= MINBPS && img + |s| <= io_buffer.Length == |buf| && Fits(ps)
      requires io_buffer[..] == Overwrite(buf, img, s)
      modifies io_buffer
      ensures io_buffer[..] == Overwrite(buf, img, Patched(s, ps))
    {
      var i := 0;
      assert ps[..0] == [];
      while i < |ps|
        invariant i <= |ps| && Fits(ps[..i])
        invariant io_buffer[..] == Overwrite(buf, img, Patched(s, ps[..i]))
      {
        assert ps[i] in ps;
        assert ps[..i + 1][..i] == ps[..i];
        OverwriteInside(buf, img, Patched(s, ps[..i]), ps[i].at, ps[i].bytes);
        Fill(img + ps[i].at, ps[i].bytes);
        i := i + 1;
      }
      assert ps[..|ps|] == ps;
    }

    /** Lines 709-721: the boot code, or zeros. */
    method FillBase(v: Volume, lsn: nat)
      requires VolumeOk(v) && img + v.bps <= io_buffer.Length && pos == ReadPos(v, lsn)
      modifies this`pos, io_buffer
      ensures io_buffer[..] == Overwrite(old(io_buffer[..]), img, Base(v, lsn))
      ensures pos == ReadPos(v, lsn + 1)
    {
      hide Overwrite;
      var x := lsn;
      if v.boot != [] && v.fat == 32 && v.bkbs != MAXU16 && |v.boot| <= v.bkbs && x >= v.bkbs {
        x := x - v.bkbs;
        if x == 0 { pos := 0; }
      }
      if v.boot != [] && x < |v.boot| {
        Fill(img, v.boot[pos]);
        pos := pos + 1;
      } else {
        Fill(img, Zeros(v.bps));
      }
    }

    /** Lines 709-800: one sector, built in place. */
    method Sector(v: Volume, lsn: nat)
      requires VolumeOk(v) && img + v.bps <= io_buffer.Length && pos == ReadPos(v, lsn)
      modifies this`pos, io_buffer
      ensures io_buffer[..] == Overwrite(old(io_buffer[..]), img, SectorBytes(v, lsn))
      ensures pos == ReadPos(v, lsn + 1)
    {
      hide Overwrite, Patched, Base, HeadBytes, InfoPatches, ReadPos, Fits, Dir;
      ghost var buf := io_buffer[..];
      FillBase(v, lsn);
      PatchesFit(v, lsn);
      var ps: seq<Patch>;
      if lsn == 0 || (v.fat == 32 && v.bkbs != MAXU16 && lsn == v.bkbs) {
        ps := v.fields;
      } else if v.fat == 32 && v.infs != MAXU16 &&
                (lsn == v.infs || (v.bkbs != MAXU16 && lsn == v.bkbs + v.infs)) {
        ps := InfoPatches(v);
      } else if v.res <= lsn < Dir(v) && (lsn - v.res) % v.spf == 0 {
        ps := [Patch(0, HeadBytes(v))];
      } else if lsn == Dir(v) && v.labelEntry != [] {
        ps := v.labelEntry;
      } else {
        ps := [];
      }
      assert ps == Patches(v, lsn);
      BaseLength(v, lsn);
      Apply(ps, Base(v, lsn), buf);
    }

    /** The first `done` bytes of the image are on the device or in the buffer. */
    ghost predicate Holds(image: seq<Byte>, bps: nat, done: nat)
      requires bps >= 1
      reads this, io_buffer
    {
      && io_buffer.Length == IO_BUFFER_SIZE && img < IO_BUFFER_SIZE && img % bps == 0
      && |device| * IO_BUFFER_SIZE + img == done <= |image|
      && io_buffer[..img] == image[done - img..done]
      && device == Packets(image, IO_BUFFER_SIZE, |device|)
    }

    /** Lines 709-812: one sector, and the write when it fills the buffer. */
    method Emit(v: Volume, lsn: nat, accepted: nat, ghost image: seq<Byte>, ghost done: nat) returns (ok: bool)
      requires VolumeOk(v) && Holds(image, v.bps, done) && pos == ReadPos(v, lsn) && |device| <= accepted
      requires done + v.bps <= |image| && image[done..done + v.bps] == SectorBytes(v, lsn)
      modifies this`img, this`pos, this`device, io_buffer
      ensures ok ==> Holds(image, v.bps, done + v.bps) && pos == ReadPos(v, lsn + 1) && |device| <= accepted
      ensures !ok ==> device == old(device) && |device| == accepted < CeilDiv(|image|, IO_BUFFER_SIZE)
    {
      hide SectorBytes, CeilDiv, SectorSize, ReadPos, Packets;
      BufferFills(v.bps, img);
      Sector(v, lsn);
      img := img + v.bps;
      assert io_buffer[..img] == image[done + v.bps - img..done + v.bps];
      if img >= IO_BUFFER_SIZE {
        var k := |device|;
        NextChunk(image, k);
        if k == accepted { return false; }
        device := device + [io_buffer[..IO_BUFFER_SIZE]];
        img := 0;
      }
      return true;
    }

    /** Lines 815-823 */
    method FlushRest(accepted: nat, ghost image: seq<Byte>, ghost bps: nat) returns (ok: bool)
      requires bps >= 1 && Holds(image, bps, |image|) && |device| <= accepted
      modifies this`device
      ensures ok <==> accepted >= CeilDiv(|image|, IO_BUFFER_SIZE)
      ensures device == Packets(image, IO_BUFFER_SIZE, Min(accepted, CeilDiv(|image|, IO_BUFFER_SIZE)))
    {
      hide CeilDiv, Packets;
      LastChunk(image, |device|, img);
      assert io_buffer[..img] == image[|device| * IO_BUFFER_SIZE..];
      if img != 0 {
        if |device| == accepted { return false; }
        device := device + [io_buffer[..img]];
      }
      return true;
    }

    /** Lines 702-823: `accepted` is the number of writes that succeed. */
    method WriteAll(v: Volume, accepted: nat) returns (ok: bool)
      requires VolumeOk(v) && io_buffer.Length == IO_BUFFER_SIZE && img == 0 && pos == 0 && device == []
      modifies this`img, this`pos, this`device, io_buffer
      ensures ok <==> accepted >= Chunks(v)
      ensures device == Packets(Image(v, End(v)), IO_BUFFER_SIZE, Min(accepted, Chunks(v)))
      ensures ok ==> Complete(v, Concat(device))
    {
      hide SectorBytes, Image, VolumeOk, End, CeilDiv, SectorSize, Packets, Offset, ReadPos, Complete, Concat;
      ghost var image := Image(v, End(v));
      FirstOffset(v, image);
      FirstRead(v);
      var lsn := 0;
      while lsn < End(v)
        invariant lsn <= End(v) && pos == ReadPos(v, lsn) && |device| <= accepted
        invariant Holds(image, v.bps, Offset(lsn, v.bps))
      {
        NextOffset(v, lsn);
        var more := Emit(v, lsn, accepted, image, Offset(lsn, v.bps));
        if !more { return false; }
        lsn := lsn + 1;
      }
      ok := FlushRest(accepted, image, v.bps);
      if ok { DeviceComplete(v, device); }
    }
  }

  function Offset(lsn: nat, bps: nat): nat { lsn * bps }

  lemma {:induction false} FirstOffset(v: Volume, image: seq<Byte>)
    requires VolumeOk(v)
    ensures v.bps >= 1 && Offset(0, v.bps) == 0 && |Image(v, End(v))| == Offset(End(v), v.bps)
    ensures Packets(image, IO_BUFFER_SIZE, 0) == []
  {
  }

  lemma FirstRead(v: Volume)
    ensures ReadPos(v, 0) == 0
  {
  }

  lemma {:induction false} NextOffset(v: Volume, lsn: nat)
    requires VolumeOk(v) && lsn < End(v)
    ensures var done, image := Offset(lsn, v.bps), Image(v, End(v));
      && Offset(lsn + 1, v.bps) == done + v.bps <= |image|
      && image[done..done + v.bps] == SectorBytes(v, lsn)
  {
    hide SectorBytes, VolumeOk, End;
    ImageSector(v, End(v), lsn);
  }

  /** A buffer full is the next packet. */
  lemma NextChunk(image: seq<Byte>, k: nat)
    requires (k + 1) * IO_BUFFER_SIZE <= |image|
    ensures k < CeilDiv(|image|, IO_BUFFER_SIZE)
    ensures Packets(image, IO_BUFFER_SIZE, k + 1)
         == Packets(image, IO_BUFFER_SIZE, k) + [image[k * IO_BUFFER_SIZE..k * IO_BUFFER_SIZE + IO_BUFFER_SIZE]]
  {
    CeilDivCovers(|image|, IO_BUFFER_SIZE, k);
  }

  /** ... and what is left at the end is the last. */
  lemma LastChunk(image: seq<Byte>, k: nat, img: nat)
    requires img < IO_BUFFER_SIZE && k * IO_BUFFER_SIZE + img == |image|
    ensures CeilDiv(|image|, IO_BUFFER_SIZE) == if img == 0 then k else k + 1
    ensures Packets(image, IO_BUFFER_SIZE, k + 1)
         == Packets(image, IO_BUFFER_SIZE, k) + [image[k * IO_BUFFER_SIZE..]]
  {
    CeilDivCovers(|image|, IO_BUFFER_SIZE, k);
    CeilDivCovers(|image|, IO_BUFFER_SIZE, k + 1);
    if k > 0 { CeilDivCovers(|image|, IO_BUFFER_SIZE, k - 1); }
    assert Packet(image, IO_BUFFER_SIZE, k) == image[k * IO_BUFFER_SIZE..];
  }

  /** The writes put together are the image the unbuffered writer produces, and all but
      the last fill the buffer. */
  lemma {:induction false} ChunksMakeImage(v: Volume)
    requires VolumeOk(v)
    ensures var image, ps := Image(v, End(v)), Packets(Image(v, End(v)), IO_BUFFER_SIZE, Chunks(v));
      && Concat(ps) == image && |ps| == Chunks(v)
      && (forall i | 0 <= i < |ps| :: 1 <= |ps[i]| <= IO_BUFFER_SIZE)
      && (forall i | 0 <= i < |ps| - 1 :: |ps[i]| == IO_BUFFER_SIZE)
  {
    hide Image, End, CeilDiv, VolumeOk;
    var image := Image(v, End(v));
    PacketsCarry(image, IO_BUFFER_SIZE, Chunks(v));
    CeilDivCovers(|image|, IO_BUFFER_SIZE, Chunks(v));
    forall i: nat | i < Chunks(v)
      ensures var p := Packet(image, IO_BUFFER_SIZE, i);
        1 <= |p| <= IO_BUFFER_SIZE && (i < Chunks(v) - 1 ==> |p| == IO_BUFFER_SIZE)
    {
      PacketSizes(image, IO_BUFFER_SIZE, i);
    }
  }

  /** When all writes succeed the whole volume is on the device. */
  lemma {:induction false} DeviceComplete(v: Volume, device: seq<seq<Byte>>)
    requires VolumeOk(v) && device == Packets(Image(v, End(v)), IO_BUFFER_SIZE, Chunks(v))
    ensures Complete(v, Concat(device))
  {
    hide Image, End, CeilDiv, VolumeOk, OnDevice, Packets, Concat;
    ChunksMakeImage(v);
    forall l | Shows(v, l) ensures OnDevice(v, l, Concat(device)) {
      WholeVolume(v, l);
    }
  }
}
