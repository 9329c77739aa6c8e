/** The shared FIFO RAM of the controller, handed out in 512-byte slots above
    the 64 bytes of endpoint 0: the bit-mask search of the driver, and the pool
    of disjoint runs it implements. */
module Slots {
  import opened Wrappers
  import Bits

  /** `dynamic_fifo_total_slot` */
  const TOTAL_SLOTS: nat := 15

  datatype Run = Run(start: nat, len: nat)

  predicate Covers(r: Run, i: nat) {
    r.start <= i < r.start + r.len
  }

  function Cells(r: Run): set<nat> {
    set i: nat | i < r.start + r.len && Covers(r, i)
  }

  /** The set bits of a mask of at most 32 bits. */
  function Used(mask: nat): set<nat> {
    set i: nat | i < 32 && Bits.Test(mask, i)
  }

  ghost predicate IsFree(used: set<nat>, r: Run, total: nat) {
    r.start + r.len <= total && Cells(r) !! used
  }

  // ----- The bit-mask search -----

  /** The fixed-size search and marking loops. `start < 0` is the failure return. */
  method AllocRun(mask: nat, n: nat, total: nat) returns (start: int, mask': nat)
    requires 1 <= n && total <= 32
    ensures start < 0 ==> mask' == mask && forall s: nat :: !IsFree(Used(mask), Run(s, n), total)
    ensures start >= 0 ==>
      && IsFree(Used(mask), Run(start, n), total)
      && (forall s: nat | s < start :: !IsFree(Used(mask), Run(s, n), total))
      && Used(mask') == Used(mask) + Cells(Run(start, n))
  {
    ghost var used := Used(mask);
    var free, found, i := 0, false, 0;
    mask' := mask;
    while i < total && !found
      invariant i <= total && free <= n
      invariant found ==> i < total && free == n
      invariant !found ==> free < n
      invariant var top := if found then i + 1 else i;
        && free <= top
        && (forall k: nat | top - free <= k < top :: k !in used)
        && (free < top && free < n ==> top - free - 1 in used)
        && forall s: nat | s < top - free && s + n <= top :: !IsFree(used, Run(s, n), total)
      decreases total - i, !found
    {
      if !Bits.Test(mask, i) {
        assert i !in used;
        free := free + 1;
      } else {
        assert i in used;
        forall s: nat | s < i + 1 && s + n <= i + 1
          ensures !IsFree(used, Run(s, n), total)
        {
          if s + n == i + 1 { assert i in Cells(Run(s, n)); }
        }
        free := 0;
      }
      if free == n {
        found := true;
      } else {
        i := i + 1;
      }
    }
    if !found {
      forall s: nat ensures !IsFree(used, Run(s, n), total) {
        if s + n <= total && s >= total - free {}
      }
      return -1, mask;
    }
    start := i - (n - 1);
    assert Cells(Run(start, n)) !! used;
    forall s: nat | s < start ensures !IsFree(used, Run(s, n), total) {
    }
    var k := 0;
    while k < n
      invariant k <= n
      invariant Used(mask') == used + Cells(Run(start, k))
    {
      ghost var before := mask';
      mask' := Bits.Set(mask', start + k);
      forall j: nat ensures Bits.Test(mask', j) <==> j == start + k || Bits.Test(before, j) {
        Bits.SetTest(before, start + k, j);
      }
      k := k + 1;
    }
  }

  /** The release loop: the first slot is decoded from the FIFO address register. */
  method FreeRun(mask: nat, address: nat, n: nat) returns (mask': nat)
    requires address >= 8 && DecodeStart(address) + n <= 32
    ensures Used(mask') == Used(mask) - Cells(Run(DecodeStart(address), n))
  {
    var start := (address - 64 / 8) / (512 / 8);
    mask' := mask;
    var k := 0;
    while k < n
      invariant k <= n
      invariant Used(mask') == Used(mask) - Cells(Run(start, k))
    {
      ghost var before := mask';
      mask' := Bits.Clear(mask', start + k);
      forall j: nat ensures Bits.Test(mask', j) <==> j != start + k && Bits.Test(before, j) {
        Bits.ClearTest(before, start + k, j);
      }
      assert Used(mask') == Used(before) - {start + k};
      assert Cells(Run(start, k + 1)) == Cells(Run(start, k)) + {start + k};
      k := k + 1;
    }
  }

  // ----- FIFO registers, in units of 8 bytes -----

  /** The FIFO address register of a run starting at slot `start`. */
  function EncodeStart(start: nat): nat { 64 / 8 + start * (512 / 8) }

  function DecodeStart(address: nat): nat
    requires address >= 8
  {
    (address - 64 / 8) / (512 / 8)
  }

  /** A FIFO of size code `c` holds `8 << c` bytes. */
  function SizeBytes(code: nat): nat {
    if code == 0 then 8 else 2 * SizeBytes(code - 1)
  }

  /** Slots and size code the `dynamic_fifo` allocator asks for. */
  function Units(maxPacket: nat): nat { if maxPacket <= 512 then 1 else 2 }
  function SizeCode(maxPacket: nat): nat { if maxPacket <= 512 then 6 else 7 }

  /** The size code the isochronous variant writes for `bytes` of packet memory. */
  function BirdSizeCode(bytes: nat): nat {
    if bytes <= 512 then 6 else if bytes <= 1024 then 7 else if bytes <= 2048 then 8
    else if bytes <= 4096 then 9 else 0
  }

  /** The registers of a run name exactly the bytes of its slots: runs with
      disjoint slots get disjoint FIFO memory, never the first 64 bytes. */
  lemma ByteRanges(r: Run, t: Run, maxR: nat, maxT: nat, b: nat)
    requires r.len == Units(maxR) && t.len == Units(maxT)
    requires 8 * EncodeStart(r.start) <= b < 8 * EncodeStart(r.start) + SizeBytes(SizeCode(maxR))
    requires 8 * EncodeStart(t.start) <= b < 8 * EncodeStart(t.start) + SizeBytes(SizeCode(maxT))
    ensures b >= 64 && (b - 64) / 512 in Cells(r) * Cells(t)
    ensures DecodeStart(EncodeStart(r.start)) == r.start
  {
    SizeCodes();
  }

  lemma SizeCodes()
    ensures SizeBytes(6) == 512 && SizeBytes(7) == 1024 && SizeBytes(8) == 2048 && SizeBytes(9) == 4096
  {
    assert SizeBytes(3) == 64;
    assert SizeBytes(6) == 512;
    assert SizeBytes(9) == 4096;
  }

  /** The registers name all bytes of the slots taken. They hold a packet exactly up to 1024
      bytes, and no fewer slots would. */
  lemma FifoFits(maxPacket: nat)
    ensures SizeBytes(SizeCode(maxPacket)) == 512 * Units(maxPacket)
    ensures SizeBytes(SizeCode(maxPacket)) >= maxPacket <==> maxPacket <= 1024
    ensures Units(maxPacket) >= 1 && (Units(maxPacket) > 1 ==> 512 * (Units(maxPacket) - 1) < maxPacket)
  {
    SizeCodes();
  }

  /** The isochronous variant reserves `(bytes + 511) / 512` slots but programs a power of
      two of them, and over 4096 bytes size code 0, which is 8 bytes: the FIFO stays
      inside its reservation exactly when that is 1, 2, 4, or at least 8 slots, and
      holds the packet memory exactly up to 4096 bytes. */
  lemma BirdFifoFits(bytes: nat)
    requires bytes >= 1
    ensures SizeBytes(BirdSizeCode(bytes)) <= 512 * ((bytes + 511) / 512)
            <==> (bytes + 511) / 512 in {1, 2, 4} || (bytes + 511) / 512 >= 8
    ensures SizeBytes(BirdSizeCode(bytes)) >= bytes <==> bytes <= 4096
  {
    SizeCodes();
  }

  // ----- The pool of runs -----

  /** The slots in use and the run each owner holds. */
  datatype Pool<K> = Pool(used: set<nat>, held: map<K, Run>)

  ghost predicate Owned<K>(p: Pool<K>, i: nat) {
    exists k :: k in p.held && i in Cells(p.held[k])
  }

  /** The used slots are the disjoint union of the held runs. */
  ghost predicate PoolOk<K>(p: Pool<K>, total: nat) {
    && (forall k | k in p.held :: p.held[k].len >= 1 && p.held[k].start + p.held[k].len <= total)
    && (forall j, k | j in p.held && k in p.held && j != k :: Cells(p.held[j]) !! Cells(p.held[k]))
    && (forall i: nat :: i in p.used <==> Owned(p, i))
  }

  /** The lowest start not below `from` of `n` free slots. */
  function FirstFree(used: set<nat>, n: nat, total: nat, from: nat): (r: Option<nat>)
    decreases total - from
  {
    if from + n > total || from >= total then None
    else if Cells(Run(from, n)) !! used then Some(from)
    else FirstFree(used, n, total, from + 1)
  }

  lemma {:induction false} FirstFreeIsLowest(used: set<nat>, n: nat, total: nat, from: nat)
    requires n >= 1
    ensures match FirstFree(used, n, total, from)
      case None => forall s: nat | s >= from :: !IsFree(used, Run(s, n), total)
      case Some(f) => from <= f && IsFree(used, Run(f, n), total)
                      && forall s: nat | from <= s < f :: !IsFree(used, Run(s, n), total)
    decreases total - from
  {
    if from + n <= total && from < total && !(Cells(Run(from, n)) !! used) {
      FirstFreeIsLowest(used, n, total, from + 1);
    }
  }

  /** Give owner `k` the lowest free run of `n` slots. */
  function Take<K>(p: Pool<K>, k: K, n: nat, total: nat): (r: Option<Pool<K>>) {
    match FirstFree(p.used, n, total, 0)
    case None => None
    case Some(f) => Some(Pool(p.used + Cells(Run(f, n)), p.held[k := Run(f, n)]))
  }

  /** Take back the run of owner `k`. */
  function Give<K>(p: Pool<K>, k: K): Pool<K> {
    if k !in p.held then p else Pool(p.used - Cells(p.held[k]), p.held - {k})
  }

  lemma TakeKeeps<K>(p: Pool<K>, k: K, n: nat, total: nat)
    requires PoolOk(p, total) && k !in p.held && n >= 1 && Take(p, k, n, total).Some?
    ensures var q := Take(p, k, n, total).value;
      PoolOk(q, total) && q.held[k].len == n && p.used < q.used && Give(q, k) == p
  {
    FirstFreeIsLowest(p.used, n, total, 0);
    var q := Take(p, k, n, total).value;
    var r := q.held[k];
    forall j | j in p.held ensures Cells(p.held[j]) !! Cells(r) {
      forall i | i in Cells(p.held[j]) ensures i !in Cells(r) { assert Owned(p, i); }
    }
    forall i: nat ensures i in q.used <==> Owned(q, i) {
      if i in Cells(r) { assert k in q.held && i in Cells(q.held[k]); }
      else if Owned(p, i) {
        var j :| j in p.held && i in Cells(p.held[j]);
        assert j in q.held && i in Cells(q.held[j]);
      }
    }
    assert r.start in Cells(r);
    assert Give(q, k).held == p.held;
    assert Give(q, k).used == p.used;
  }

  lemma GiveKeeps<K>(p: Pool<K>, k: K, total: nat)
    requires PoolOk(p, total)
    ensures PoolOk(Give(p, k), total)
    ensures k in p.held ==> forall i: nat :: i in Give(p, k).used <==> i in p.used && i !in Cells(p.held[k])
  {
    var q := Give(p, k);
    forall i: nat ensures i in q.used <==> Owned(q, i) {
      if i in q.used {
        var j :| j in p.held && i in Cells(p.held[j]);
        assert j in q.held && i in Cells(q.held[j]);
      }
    }
  }

  // ----- Histories -----

  datatype Request<K> = Allocate(owner: K, units: nat) | Release(owner: K)

  /** One request; an owner that already holds a run asks for nothing more. */
  function Serve<K>(p: Pool<K>, r: Request<K>, total: nat): Pool<K> {
    match r
    case Release(k) => Give(p, k)
    case Allocate(k, n) =>
      if k in p.held || n == 0 then p
      else match Take(p, k, n, total) case None => p case Some(q) => q
  }

  function ServeAll<K>(rs: seq<Request<K>>, total: nat): Pool<K> {
    if rs == [] then Pool({}, map[])
    else Serve(ServeAll(rs[..|rs| - 1], total), rs[|rs| - 1], total)
  }

  /** Slots are conserved by every history of allocations and releases. */
  lemma {:induction false} HistoryConserves<K>(rs: seq<Request<K>>, total: nat)
    ensures PoolOk(ServeAll(rs, total), total)
  {
    if rs != [] {
      var before := ServeAll(rs[..|rs| - 1], total);
      HistoryConserves(rs[..|rs| - 1], total);
      match rs[|rs| - 1]
      case Release(k) => GiveKeeps(before, k, total);
      case Allocate(k, n) =>
        if k !in before.held && n >= 1 && Take(before, k, n, total).Some? {
          TakeKeeps(before, k, n, total);
        }
    }
  }
}
