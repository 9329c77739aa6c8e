/** Bulk and interrupt OUT transfers by programmed I/O (`musb_start_urb`,
    `musb_ep_program`, `musb_host_tx`) of an URB that starts at its beginning. */
module Transmit {
  import opened Arith
  import opened Buffers

  const EINPROGRESS := -115

  /** `sent` are the packets put into the FIFO so far. */
  datatype Tx = Tx(buf: seq<Byte>, maxPacket: nat, zeroPacket: bool,
                   offset: nat, segsize: nat, actual: nat, status: int, done: bool, sent: seq<seq<Byte>>)

  /** A TX interrupt: the packet was taken, a fault, or a NAK timeout. */
  datatype Event = Sent | Fault(code: int) | Nak

  predicate Ok(x: Tx) {
    (x.done || x.offset + x.segsize <= |x.buf|) && x.maxPacket >= 1
  }

  /** The first packet is loaded when the URB is started. */
  function Begin(buf: seq<Byte>, maxPacket: nat, zeroPacket: bool): Tx {
    var load := Min(maxPacket, |buf|);
    Tx(buf, maxPacket, zeroPacket, 0, load, 0, EINPROGRESS, false, [buf[..load]])
  }

  /** `musb_host_tx`, until the URB is given back. An URB whose status was set meanwhile
      ends with the packet that was taken. */
  function Step(x: Tx, e: Event): (y: Tx)
    requires Ok(x)
    ensures Ok(y)
  {
    if x.done then x else
    match e
    case Nak => x
    case Fault(code) => x.(done := true, status := code, actual := x.offset)
    case Sent =>
      var offset := x.offset + x.segsize;
      var end := x.segsize < x.maxPacket || (offset == |x.buf| && !x.zeroPacket);
      if end || x.status != EINPROGRESS then
        x.(offset := offset, done := true, status := if x.status != EINPROGRESS then x.status else 0, actual := offset)
      else
        var length := Min(|x.buf| - offset, x.maxPacket);
        x.(offset := offset, segsize := length, sent := x.sent + [x.buf[offset..offset + length]])
  }

  function Run(x: Tx, es: seq<Event>): (y: Tx)
    requires Ok(x)
    ensures Ok(y)
  {
    if es == [] then x else Step(Run(x, es[..|es| - 1]), es[|es| - 1])
  }

  /** The number of packets a buffer takes: full ones and one short one, which is
      left out when the length is a positive multiple of the packet size and no
      zero-length packet was asked for. */
  function PacketCount(n: nat, m: nat, zeroPacket: bool): nat
    requires m >= 1
  {
    if n > 0 && n % m == 0 && !zeroPacket then n / m else n / m + 1
  }

  function Taken(es: seq<Event>): nat {
    if es == [] then 0 else Taken(es[..|es| - 1]) + if es[|es| - 1].Sent? then 1 else 0
  }

  ghost predicate Faultless(es: seq<Event>) {
    forall i | 0 <= i < |es| :: !es[i].Fault?
  }

  /** The state with packets `0..k` sent and packet `k` in the FIFO. */
  function Sending(buf: seq<Byte>, m: nat, zero: bool, at: nat, sent: seq<seq<Byte>>): Tx
    requires at <= |buf|
  {
    Tx(buf, m, zero, at, Min(m, |buf| - at), 0, EINPROGRESS, false, sent)
  }

  lemma SentStep(buf: seq<Byte>, m: nat, zero: bool, at: nat, sent: seq<seq<Byte>>)
    requires m >= 1 && at <= |buf|
    ensures var x := Sending(buf, m, zero, at, sent);
      Step(x, Sent) ==
        if at + m < |buf| || (at + m == |buf| && zero)
        then Sending(buf, m, zero, at + m, sent + [buf[at + m..Min(at + m + m, |buf|)]])
        else x.(offset := |buf|, done := true, status := 0, actual := |buf|)
  {
  }

  lemma Multiples(n: nat, m: nat, zero: bool, k: nat)
    requires m >= 1
    ensures (k + 1) * m == k * m + m
    ensures k < PacketCount(n, m, zero) ==> k * m <= n
    ensures k + 1 < PacketCount(n, m, zero) <==> (k + 1) * m < n || ((k + 1) * m == n && zero)
  {
    DivBounds(n, m);
    assert (k + 1) * m == k * m + m;
    if k < n / m { MulMono(k, n / m, m); } else { MulLe(n / m, k, m); }
    if k + 1 < n / m { MulMono(k + 1, n / m, m); } else { MulLe(n / m, k + 1, m); }
  }

  lemma {:induction false} Progress(buf: seq<Byte>, m: nat, zero: bool, es: seq<Event>)
    requires m >= 1 && Faultless(es) && Taken(es) < PacketCount(|buf|, m, zero)
    ensures Taken(es) * m <= |buf|
    ensures Run(Begin(buf, m, zero), es)
         == Sending(buf, m, zero, Taken(es) * m, Packets(buf, m, Taken(es) + 1))
  {
    hide Step, PacketCount, Packet;
    Multiples(|buf|, m, zero, Taken(es));
    PacketIs(buf, m, Taken(es), Taken(es) * m);
    if es == [] {
      assert 0 * m == 0;
      assert Packets(buf, m, 1) == [buf[..Min(m, |buf|)]] by { assert Packets(buf, m, 0) == []; }
    } else {
      var l := es[..|es| - 1];
      Progress(buf, m, zero, l);
      if es[|es| - 1].Sent? {
        Multiples(|buf|, m, zero, Taken(l));
        SentStep(buf, m, zero, Taken(l) * m, Packets(buf, m, Taken(l) + 1));
      } else {
        Stutter(Run(Begin(buf, m, zero), l));
      }
    }
  }

  lemma Stutter(x: Tx)
    requires Ok(x)
    ensures Step(x, Nak) == x
  {
  }

  /** A transfer without faults sends its buffer, in order, as `PacketCount`
      packets, and ends when the last one is taken, with the whole length
      transferred; NAK timeouts only delay it. */
  lemma {:induction false} Transfer(buf: seq<Byte>, m: nat, zero: bool, es: seq<Event>)
    requires m >= 1 && Faultless(es) && Taken(es) < PacketCount(|buf|, m, zero)
    ensures !Run(Begin(buf, m, zero), es).done
    ensures var t, x := PacketCount(|buf|, m, zero), Run(Begin(buf, m, zero), es + [Sent]);
      && (x.done <==> Taken(es) + 1 == t)
      && (x.done ==> x.status == 0 && x.actual == |buf| && x.sent == Packets(buf, m, t) && Concat(x.sent) == buf)
  {
    hide Step, PacketCount, Packets, Packet;
    var k := Taken(es);
    Progress(buf, m, zero, es);
    Multiples(|buf|, m, zero, k);
    SentStep(buf, m, zero, k * m, Packets(buf, m, k + 1));
    assert (es + [Sent])[..|es|] == es;
    if k + 1 == PacketCount(|buf|, m, zero) {
      PacketsCarry(buf, m, k + 1);
      assert Min((k + 1) * m, |buf|) == |buf|;
      assert buf[..|buf|] == buf;
    }
  }

  /** All packets but the last are full; a zero-length one is sent iff the buffer
      is empty, or its length is a multiple of the packet size and the URB asked
      for it. */
  lemma PacketLengths(buf: seq<Byte>, m: nat, zero: bool, i: nat)
    requires m >= 1 && i < PacketCount(|buf|, m, zero)
    ensures i + 1 < PacketCount(|buf|, m, zero) ==> |Packet(buf, m, i)| == m
    ensures |Packet(buf, m, i)| == 0 <==>
      i + 1 == PacketCount(|buf|, m, zero) && (|buf| == 0 || (|buf| % m == 0 && zero))
  {
    hide Packet;
    Multiples(|buf|, m, zero, i);
    DivBounds(|buf|, m);
    PacketIs(buf, m, i, i * m);
    if i < |buf| / m { MulMono(i, |buf| / m, m); }
  }

  /** A fault reports exactly the bytes of the packets that were taken. */
  lemma {:induction false} FaultEnds(buf: seq<Byte>, m: nat, zero: bool, es: seq<Event>, code: int)
    requires m >= 1 && Faultless(es) && Taken(es) < PacketCount(|buf|, m, zero)
    ensures var x := Run(Begin(buf, m, zero), es + [Fault(code)]);
      x.done && x.status == code && x.actual == Taken(es) * m
  {
    hide PacketCount, Packets;
    Progress(buf, m, zero, es);
    assert (es + [Fault(code)])[..|es|] == es;
  }

  /** An URB whose status was set while it was sent ends with the next packet that is
      taken, with that status and the bytes taken so far; nothing more is sent. */
  lemma {:induction false} AbortEnds(buf: seq<Byte>, m: nat, zero: bool, es: seq<Event>, status: int)
    requires m >= 1 && Faultless(es) && Taken(es) < PacketCount(|buf|, m, zero) && status != EINPROGRESS
    ensures var x := Run(Begin(buf, m, zero), es).(status := status);
      && !x.done && Step(x, Nak) == x
      && Step(x, Sent) == x.(done := true, offset := x.offset + x.segsize, actual := Min(Taken(es) * m + m, |buf|))
  {
    hide PacketCount, Packets;
    Progress(buf, m, zero, es);
  }
}
