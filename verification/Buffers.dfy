/** Byte buffers and the packets they are cut into. */
module Buffers {
  type Byte = x: int | 0 <= x < 256

  function Min(a: nat, b: nat): nat { if a < b then a else b }

  /** A buffer with `bytes` stored at `at`. */
  function Overwrite(buf: seq<Byte>, at: nat, bytes: seq<Byte>): seq<Byte>
    requires at + |bytes| <= |buf|
  {
    buf[..at] + bytes + buf[at + |bytes|..]
  }

  lemma OverwriteTail(buf: seq<Byte>, got: seq<Byte>, p: seq<Byte>)
    requires |got| + |p| <= |buf|
    ensures Overwrite(got + buf[|got|..], |got|, p) == (got + p) + buf[|got + p|..]
  {
  }

  function CeilDiv(n: nat, m: nat): nat
    requires m >= 1
  {
    (n + m - 1) / m
  }

  /** Packet `i` of a buffer cut at multiples of `m`. */
  function Packet(buf: seq<Byte>, m: nat, i: nat): seq<Byte> {
    buf[Min(i * m, |buf|)..Min(i * m + m, |buf|)]
  }

  function Concat(ps: seq<seq<Byte>>): seq<Byte> {
    if ps == [] then [] else Concat(ps[..|ps| - 1]) + ps[|ps| - 1]
  }

  /** The first `k` packets of a buffer. */
  function Packets(buf: seq<Byte>, m: nat, k: nat): seq<seq<Byte>> {
    if k == 0 then [] else Packets(buf, m, k - 1) + [Packet(buf, m, k - 1)]
  }

  lemma StartsInside(n: nat, m: nat, i: nat)
    requires m >= 1 && i < CeilDiv(n, m)
    ensures i * m < n
  {
    var c := CeilDiv(n, m);
    assert c * m <= n + m - 1;
    assert (i + 1) * m <= c * m;
  }

  lemma CeilDivCovers(n: nat, m: nat, k: nat)
    requires m >= 1
    ensures k * m >= n <==> k >= CeilDiv(n, m)
  {
    var c := CeilDiv(n, m);
    assert c * m <= n + m - 1 < c * m + m;
    if k >= c { assert k * m >= c * m; } else { assert (k + 1) * m <= c * m; }
  }

  lemma PacketIs(buf: seq<Byte>, m: nat, i: nat, at: nat)
    requires at == i * m <= |buf|
    ensures Packet(buf, m, i) == buf[at..Min(at + m, |buf|)]
  {
  }

  /** Together the packets are the start of the buffer. */
  lemma {:induction false} PacketsCarry(buf: seq<Byte>, m: nat, k: nat)
    ensures var ps := Packets(buf, m, k);
      && |ps| == k && Concat(ps) == buf[..Min(k * m, |buf|)]
      && forall i | 0 <= i < k :: ps[i] == Packet(buf, m, i)
  {
    hide Packet;
    if k > 0 {
      PacketsCarry(buf, m, k - 1);
      PacketJoins(buf, m, k - 1);
      assert Packets(buf, m, k)[..k - 1] == Packets(buf, m, k - 1);
    }
  }

  lemma PacketJoins(buf: seq<Byte>, m: nat, i: nat)
    ensures buf[..Min(i * m, |buf|)] + Packet(buf, m, i) == buf[..Min((i + 1) * m, |buf|)]
  {
    assert (i + 1) * m == i * m + m;
  }

  /** All packets but the last are full, and none of them is empty. */
  lemma PacketSizes(buf: seq<Byte>, m: nat, i: nat)
    requires m >= 1 && i < CeilDiv(|buf|, m)
    ensures 1 <= |Packet(buf, m, i)| <= m
    ensures i + 1 < CeilDiv(|buf|, m) ==> |Packet(buf, m, i)| == m
  {
    hide CeilDiv;
    StartsInside(|buf|, m, i);
    var at := i * m;
    assert (i + 1) * m == at + m;
    if i + 1 < CeilDiv(|buf|, m) { StartsInside(|buf|, m, i + 1); }
  }
}
