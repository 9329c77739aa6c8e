/** Moving bytes between memory and an endpoint FIFO in 32, 16 and 8-bit
    accesses (`musb_write_fifo`, `musb_read_fifo`), on a little-endian bus. */
module FifoMover {
  import opened Arith
  import opened Buffers

  /** The value of an access that moves these bytes. */
  function Word(bytes: seq<Byte>): nat {
    if bytes == [] then 0 else bytes[0] + 256 * Word(bytes[1..])
  }

  /** The bytes of an access `width` bytes wide. */
  function Split(value: nat, width: nat): (r: seq<Byte>)
    ensures |r| == width
  {
    if width == 0 then [] else [value % 256] + Split(value / 256, width - 1)
  }

  /** What one side puts into an access the other side takes out. */
  lemma {:induction false} SplitWord(bytes: seq<Byte>)
    ensures Split(Word(bytes), |bytes|) == bytes
  {
    hide Split;
    if bytes != [] {
      SplitWord(bytes[1..]);
      FirstByte(bytes[0], Word(bytes[1..]));
      SplitStep(Word(bytes), |bytes|);
      assert [bytes[0]] + bytes[1..] == bytes;
    }
  }

  lemma FirstByte(b: Byte, rest: nat)
    ensures (b + 256 * rest) % 256 == b && (b + 256 * rest) / 256 == rest
  {
  }

  lemma SplitStep(value: nat, width: nat)
    requires width > 0
    ensures Split(value, width) == [value % 256] + Split(value / 256, width - 1)
  {
  }

  lemma {:induction false} WordSplit(value: nat, width: nat)
    requires value < Power256(width)
    ensures Word(Split(value, width)) == value
  {
    if width > 0 { WordSplit(value / 256, width - 1); }
  }

  function Power256(n: nat): nat { if n == 0 then 1 else 256 * Power256(n - 1) }

  /** A FIFO port: an access of any width pushes or pops its bytes in address order. */
  class Fifo {
    var bytes: seq<Byte>

    constructor ()
      ensures bytes == []
    {
      bytes := [];
    }

    /** `musb_writel`, `musb_writew` and `musb_writeb` on the port */
    method Push(value: nat, width: nat)
      modifies this
      ensures bytes == old(bytes) + Split(value, width)
    {
      bytes := bytes + Split(value, width);
    }

    /** `musb_readl`, `musb_readw` and `musb_readb` on the port */
    method Pop(width: nat) returns (value: nat)
      requires |bytes| >= width
      modifies this
      ensures value == Word(old(bytes)[..width]) && bytes == old(bytes)[width..]
    {
      value := Word(bytes[..width]);
      bytes := bytes[width..];
    }
  }

  /** A load of `width` bytes from memory, as one access. */
  function Load(a: seq<Byte>, at: nat, width: nat): nat
    requires at + width <= |a|
  {
    Word(a[at..at + width])
  }

  /** A store of one access to memory. */
  method Store(a: array<Byte>, at: nat, value: nat, width: nat)
    requires at + width <= a.Length
    modifies a
    ensures a[..] == old(a[..at]) + Split(value, width) + old(a[at + width..])
  {
    var v := value;
    for k := 0 to width
      invariant a[..at] == old(a[..at]) && a[at + width..] == old(a[at + width..])
      invariant a[at..at + k] + Split(v, width - k) == Split(value, width)
    {
      ghost var before := a[at..at + k];
      a[at + k] := v % 256;
      assert a[at..at + k + 1] == before + [v % 256];
      v := v / 256;
    }
    assert a[..] == a[..at] + a[at..at + width] + a[at + width..];
  }

  lemma Join<T>(s: seq<T>, a: nat, b: nat, c: nat)
    requires a <= b <= c <= |s|
    ensures s[a..b] + s[b..c] == s[a..c]
  {
  }

  /** One access from memory to the port. */
  method WriteOne(fifo: Fifo, src: array<Byte>, at: nat, width: nat)
    requires at + width <= src.Length
    modifies fifo
    ensures fifo.bytes == old(fifo.bytes) + src[..][at..at + width]
  {
    SplitWord(src[..][at..at + width]);
    fifo.Push(Load(src[..], at, width), width);
  }

  /** Access `i + 1` of `count`. */
  lemma NextAccess(i: nat, count: nat, width: nat)
    requires i < count
    ensures width * (i + 1) == width * i + width <= width * count
  {
    MulMono(i, count, width);
  }

  /** `iowrite{8,16,32}_rep` */
  method WriteRep(fifo: Fifo, src: array<Byte>, at: nat, width: nat, count: nat, ghost total: nat)
    requires total == width * count && at + total <= src.Length
    modifies fifo
    ensures fifo.bytes == old(fifo.bytes) + src[at..at + total]
  {
    hide Word, Split;
    ghost var s, before := src[..], fifo.bytes;
    var i, p := 0, at;
    while i < count
      invariant i <= count && p == at + width * i <= at + total
      invariant fifo.bytes == before + s[at..p]
    {
      NextAccess(i, count, width);
      Join(s, at, p, p + width);
      WriteOne(fifo, src, p, width);
      i, p := i + 1, p + width;
    }
    assert s[at..at + total] == src[at..at + total];
  }

  /** `musb_write_fifo`, for a source that starts at address `addr`. */
  method WriteFifo(fifo: Fifo, src: array<Byte>, at: nat, len: nat, addr: nat)
    requires at + len <= src.Length && len < 0x10000
    modifies fifo
    ensures fifo.bytes == old(fifo.bytes) + src[at..at + len]
  {
    if len == 0 { return; }
    if addr % 2 == 0 {
      var index := WriteEven(fifo, src, at, len, addr);
      if len % 2 == 1 {
        Join(src[..], at, at + index, at + len);
        WriteOne(fifo, src, at + index, 1);
        assert src[..][at..at + len] == src[at..at + len];
      }
    } else {
      WriteRep(fifo, src, at, 1, len, len);
    }
  }

  /** The 32-bit and 16-bit accesses: everything but an odd last byte. */
  method WriteEven(fifo: Fifo, src: array<Byte>, at: nat, len: nat, addr: nat) returns (index: nat)
    requires at + len <= src.Length && addr % 2 == 0
    modifies fifo
    ensures index == len - len % 2
    ensures fifo.bytes == old(fifo.bytes) + src[..][at..at + index]
  {
    hide Word, Split;
    ghost var s := src[..];
    index := 0;
    if addr % 4 < 2 {
      if len >= 4 {
        WriteRep(fifo, src, at, 4, len / 4, len - len % 4);
        index := len - len % 4;
      }
      assert fifo.bytes == old(fifo.bytes) + s[at..at + index];
      if len % 4 >= 2 {
        Join(s, at, at + index, at + index + 2);
        WriteOne(fifo, src, at + index, 2);
        index := index + 2;
      }
    } else if len >= 2 {
      WriteRep(fifo, src, at, 2, len / 2, len - len % 2);
      index := len - len % 2;
    }
  }

  // ----- The other direction -----

  /** `now` is `before` with the first `p` bytes of `all` stored at `at`. */
  ghost predicate Moved(now: seq<Byte>, before: seq<Byte>, all: seq<Byte>, at: nat, p: nat)
    requires at + p <= |before| && p <= |all|
  {
    now == before[..at] + all[..p] + before[at + p..]
  }

  lemma MovedNone(before: seq<Byte>, all: seq<Byte>, at: nat)
    requires at <= |before|
    ensures Moved(before, before, all, at, 0)
  {
  }

  /** Storing the next `width` bytes extends the part that was moved. */
  lemma MovedMore(now: seq<Byte>, before: seq<Byte>, all: seq<Byte>, at: nat, p: nat, width: nat)
    requires at + p + width <= |before| && p + width <= |all| && Moved(now, before, all, at, p)
    ensures |now| == |before|
    ensures Moved(now[..at + p] + all[p..p + width] + now[at + p + width..], before, all, at, p + width)
  {
  }

  /** One access from the port to memory. */
  method ReadOne(fifo: Fifo, dst: array<Byte>, at: nat, p: nat, width: nat, ghost before: seq<Byte>, ghost all: seq<Byte>)
    requires at + p + width <= |before| && p + width <= |all|
    requires fifo.bytes == all[p..] && dst.Length == |before| && Moved(dst[..], before, all, at, p)
    modifies fifo, dst
    ensures fifo.bytes == all[p + width..] && Moved(dst[..], before, all, at, p + width)
  {
    MovedMore(dst[..], before, all, at, p, width);
    SplitWord(all[p..p + width]);
    assert all[p..][..width] == all[p..p + width];
    var v := fifo.Pop(width);
    ghost var now := dst[..];
    Store(dst, at + p, v, width);
    assert old(dst[..at + p]) == now[..at + p] && old(dst[at + p + width..]) == now[at + p + width..];
  }

  /** `ioread{8,16,32}_rep` */
  method ReadRep(fifo: Fifo, dst: array<Byte>, at: nat, width: nat, count: nat, ghost total: nat)
    requires total == width * count && at + total <= dst.Length && |fifo.bytes| >= total
    modifies fifo, dst
    ensures fifo.bytes == old(fifo.bytes)[total..]
    ensures Moved(dst[..], old(dst[..]), old(fifo.bytes), at, total)
  {
    hide Moved;
    ghost var all, before := fifo.bytes, dst[..];
    var i, p := 0, 0;
    MovedNone(before, all, at);
    while i < count
      invariant i <= count && p == width * i <= total
      invariant fifo.bytes == all[p..] && Moved(dst[..], before, all, at, p)
    {
      NextAccess(i, count, width);
      ReadOne(fifo, dst, at, p, width, before, all);
      i, p := i + 1, p + width;
    }
  }

  /** `musb_read_fifo`, for a destination that starts at address `addr`. */
  method ReadFifo(fifo: Fifo, dst: array<Byte>, at: nat, len: nat, addr: nat)
    requires at + len <= dst.Length && len < 0x10000 && |fifo.bytes| >= len
    modifies fifo, dst
    ensures fifo.bytes == old(fifo.bytes)[len..]
    ensures dst[..] == old(dst[..at]) + old(fifo.bytes)[..len] + old(dst[at + len..])
  {
    ghost var all, before := fifo.bytes, dst[..];
    MovedNone(before, all, at);
    if len == 0 { return; }
    if addr % 2 == 0 {
      var index := ReadEven(fifo, dst, at, len, addr);
      if len % 2 == 1 {
        ReadOne(fifo, dst, at, index, 1, before, all);
      }
    } else {
      ReadRep(fifo, dst, at, 1, len, len);
    }
  }

  method ReadEven(fifo: Fifo, dst: array<Byte>, at: nat, len: nat, addr: nat) returns (index: nat)
    requires at + len <= dst.Length && addr % 2 == 0 && |fifo.bytes| >= len
    modifies fifo, dst
    ensures index == len - len % 2
    ensures fifo.bytes == old(fifo.bytes)[index..]
    ensures Moved(dst[..], old(dst[..]), old(fifo.bytes), at, index)
  {
    hide Moved, Word, Split;
    ghost var all, before := fifo.bytes, dst[..];
    MovedNone(before, all, at);
    index := 0;
    if addr % 4 < 2 {
      if len >= 4 {
        ReadRep(fifo, dst, at, 4, len / 4, len - len % 4);
        index := len - len % 4;
      }
      if len % 4 >= 2 {
        ReadOne(fifo, dst, at, index, 2, before, all);
        index := index + 2;
      }
    } else if len >= 2 {
      ReadRep(fifo, dst, at, 2, len / 2, len - len % 2);
      index := len - len % 2;
    }
  }

  /** What was written to an empty port comes back unchanged, whatever the two
      alignments. */
  method Loopback(fifo: Fifo, src: array<Byte>, dst: array<Byte>, len: nat, from: nat, to: nat)
    requires fifo.bytes == [] && src != dst && len <= src.Length && len <= dst.Length && len < 0x10000
    modifies fifo, dst
    ensures dst[..len] == src[..len] && dst[len..] == old(dst[len..]) && fifo.bytes == []
  {
    WriteFifo(fifo, src, 0, len, from);
    ReadFifo(fifo, dst, 0, len, to);
  }
}
