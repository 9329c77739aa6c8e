/** Control transfers on endpoint 0, one interrupt at a time
    (`musb_h_ep0_irq`, `musb_h_ep0_continue`), against section 8.5.3 of the
    USB 2.0 specification. */
module ControlTransfer {
  import opened Wrappers
  import opened Buffers

  const EINPROGRESS := -115
  const EOVERFLOW := -75
  const EPIPE := -32
  const EPROTO := -71

  datatype Stage = Idle | Start | In | Out | Status

  /** What the host puts on the bus. */
  datatype Token = Setup | OutData(bytes: seq<Byte>) | InToken | StatusIn | StatusOut

  /** The URB in flight: `reqIn` and `wLength` are in its setup packet. */
  datatype Xfer = Xfer(reqIn: bool, wLength: nat, pipeIn: bool, maxPacket: nat,
                       stage: Stage, buf: seq<Byte>, actual: nat, status: int, bus: seq<Token>)

  /** The line state an interrupt finds: an error (STALL or no response), and the
      packet in the FIFO if one was received. */
  datatype Irq = Irq(error: int, packet: Option<seq<Byte>>)

  predicate WellFormed(x: Xfer) {
    x.actual <= |x.buf| && x.maxPacket >= 1
  }

  /** `musb_start_urb`: control transfers always start with SETUP. */
  function Begin(reqIn: bool, wLength: nat, pipeIn: bool, maxPacket: nat, buf: seq<Byte>): Xfer {
    Xfer(reqIn, wLength, pipeIn, maxPacket, Start, buf, 0, EINPROGRESS, [Setup])
  }

  /** The OUT part of `musb_h_ep0_continue`; `more` is its result so far. */
  function ContinueOut(x: Xfer, more: bool): (r: (Xfer, bool, seq<Byte>))
    requires WellFormed(x)
    ensures WellFormed(r.0)
  {
    var n := Min(x.maxPacket, |x.buf| - x.actual);
    if n == 0 then (x, more, [])
    else (x.(actual := x.actual + n), true, x.buf[x.actual..x.actual + n])
  }

  /** `musb_h_ep0_continue`: the new state, whether the data stage goes on, and
      the bytes put into the FIFO. */
  function Continue(x: Xfer, packet: seq<Byte>): (r: (Xfer, bool, seq<Byte>))
    requires WellFormed(x)
    ensures WellFormed(r.0)
  {
    match x.stage
    case In =>
      var n := Min(|packet|, |x.buf| - x.actual);
      var y := x.(buf := Overwrite(x.buf, x.actual, packet[..n]), actual := x.actual + n,
                  status := if n < |packet| then EOVERFLOW else x.status);
      (y, |packet| >= x.maxPacket && y.actual < |y.buf|, [])
    case Start =>
      if x.wLength == 0 then (x, false, [])
      else if x.reqIn then (x.(stage := In), true, [])
      else ContinueOut(x.(stage := Out), true)
    case Out => ContinueOut(x, false)
    case _ => (x, false, [])
  }

  /** `musb_h_ep0_irq`; a transfer that went idle is done. */
  function Step(x: Xfer, irq: Irq): (y: Xfer)
    requires WellFormed(x)
    ensures WellFormed(y)
  {
    hide Continue;
    if irq.error != 0 then x.(stage := Idle, status := irq.error)
    else if x.stage == Status then x.(stage := Idle)
    else
      var (y, more, bytes) := Continue(x, if irq.packet.Some? then irq.packet.value else []);
      if more then y.(bus := y.bus + [if y.stage == In then InToken else OutData(bytes)])
      else y.(stage := Status, bus := y.bus + [if !y.pipeIn || |y.buf| == 0 then StatusIn else StatusOut])
  }

  /** `musb_advance_schedule` reports an URB still in progress as a success. */
  function Result(x: Xfer): int { if x.status == EINPROGRESS then 0 else x.status }

  function Run(x: Xfer, irqs: seq<Irq>): (y: Xfer)
    requires WellFormed(x)
    ensures WellFormed(y)
  {
    if irqs == [] then x else Step(Run(x, irqs[..|irqs| - 1]), irqs[|irqs| - 1])
  }

  ghost predicate Clean(irqs: seq<Irq>) {
    forall i | 0 <= i < |irqs| :: irqs[i].error == 0
  }

  function Datas(ps: seq<seq<Byte>>): seq<Token> {
    seq(|ps|, i requires 0 <= i < |ps| => OutData(ps[i]))
  }

  // ----- OUT transfers -----

  function OutState(buf: seq<Byte>, m: nat, at: nat, bus: seq<Token>): Xfer {
    Begin(false, |buf|, false, m, buf).(stage := Out, actual := at, bus := bus)
  }

  lemma OutStep(buf: seq<Byte>, m: nat, at: nat, bus: seq<Token>, irq: Irq)
    requires m >= 1 && at < |buf| && irq.error == 0
    ensures var next := OutState(buf, m, Min(at + m, |buf|), bus + [OutData(buf[at..Min(at + m, |buf|)])]);
      && Step(OutState(buf, m, at, bus), irq) == next
      && (at == 0 && bus == [Setup] ==> Step(Begin(false, |buf|, false, m, buf), irq) == next)
  {
  }

  lemma {:induction false} OutProgress(buf: seq<Byte>, m: nat, irqs: seq<Irq>)
    requires m >= 1 && |buf| > 0 && Clean(irqs) && 1 <= |irqs| <= CeilDiv(|buf|, m)
    ensures Run(Begin(false, |buf|, false, m, buf), irqs)
      == OutState(buf, m, Min(|irqs| * m, |buf|), [Setup] + Datas(Packets(buf, m, |irqs|)))
  {
    hide CeilDiv, Step, Packet, Begin, OutState;
    var k := |irqs|;
    var at := (k - 1) * m;
    StartsInside(|buf|, m, k - 1);
    assert k * m == at + m;
    PacketIs(buf, m, k - 1, at);
    DatasSnoc(Packets(buf, m, k - 1), Packet(buf, m, k - 1));
    OutStep(buf, m, at, [Setup] + Datas(Packets(buf, m, k - 1)), irqs[k - 1]);
    if k > 1 {
      OutProgress(buf, m, irqs[..k - 1]);
    } else {
      assert irqs[..0] == [];
      assert [Setup] + Datas([]) == [Setup];
    }
  }

  lemma DatasSnoc(ps: seq<seq<Byte>>, p: seq<Byte>)
    ensures [Setup] + Datas(ps + [p]) == [Setup] + Datas(ps) + [OutData(p)]
  {
  }

  /** After the last packet: the status stage, then completion. */
  lemma OutEnd(buf: seq<Byte>, m: nat, bus: seq<Token>, a: Irq, b: Irq)
    requires m >= 1 && |buf| > 0 && a.error == 0 && b.error == 0
    ensures var x := OutState(buf, m, |buf|, bus);
      && Step(x, a) == x.(stage := Status, bus := bus + [StatusIn])
      && Step(Step(x, a), b) == x.(stage := Idle, bus := bus + [StatusIn])
  {
  }

  /** An OUT transfer without errors sends its buffer in order in packets of at
      most the maximum size, closes with an IN status stage, and completes at
      interrupt ceil(len / maxpacket) + 2, not before. */
  lemma {:induction false} OutTransfer(buf: seq<Byte>, m: nat, irqs: seq<Irq>)
    requires m >= 8 && |buf| > 0 && Clean(irqs)
    requires |irqs| <= CeilDiv(|buf|, m) + 2
    ensures var p, x := CeilDiv(|buf|, m), Run(Begin(false, |buf|, false, m, buf), irqs);
      && x.buf == buf && Result(x) == 0
      && (x.stage == Idle <==> |irqs| == p + 2)
      && (|irqs| == p + 2 ==>
            var ps := Packets(buf, m, p);
            && x.actual == |buf| && x.bus == [Setup] + Datas(ps) + [StatusIn]
            && Concat(ps) == buf && |ps| == p
            && (forall i | 0 <= i < p :: 1 <= |ps[i]| <= m)
            && (forall i | 0 <= i < p - 1 :: |ps[i]| == m))
  {
    hide CeilDiv, Step, Packets, Concat, Packet;
    var k, p := |irqs|, CeilDiv(|buf|, m);
    CeilDivCovers(|buf|, m, p);
    CeilDivCovers(|buf|, m, 0);
    if 1 <= k <= p {
      OutProgress(buf, m, irqs);
    } else if k > p {
      var bus := [Setup] + Datas(Packets(buf, m, p));
      OutProgress(buf, m, irqs[..p]);
      assert irqs[..p + 1][..p] == irqs[..p];
      assert buf[..|buf|] == buf;
      PacketsCarry(buf, m, p);
      forall i: nat | i < p ensures 1 <= |Packet(buf, m, i)| <= m && (i + 1 < p ==> |Packet(buf, m, i)| == m) {
        PacketSizes(buf, m, i);
      }
      assert Min(p * m, |buf|) == |buf|;
      OutEnd(buf, m, bus, irqs[p], if k == p + 2 then irqs[p + 1] else irqs[p]);
      if k == p + 1 { assert irqs[..p + 1] == irqs; }
      else { assert irqs[..k - 1] == irqs[..p + 1]; }
    }
  }

  /** A transfer without a data stage: SETUP, then an IN status stage. */
  lemma {:induction false} NoDataTransfer(reqIn: bool, pipeIn: bool, m: nat, irqs: seq<Irq>)
    requires m >= 8 && Clean(irqs) && |irqs| == 2
    ensures var x := Run(Begin(reqIn, 0, pipeIn, m, []), irqs);
      x.stage == Idle && Result(x) == 0 && x.bus == [Setup, StatusIn] && x.actual == 0
  {
    var x := Begin(reqIn, 0, pipeIn, m, []);
    assert irqs[..1][..0] == [];
    assert Run(x, irqs[..1]) == Step(x, irqs[0]);
  }

  // ----- IN transfers -----

  /** Packets after which the data stage goes on: none short, buffer not full. */
  ghost predicate Continuing(ps: seq<seq<Byte>>, n: nat, m: nat) {
    && (forall i | 0 <= i < |ps| :: |ps[i]| >= m)
    && |Concat(ps)| < n
  }

  function Received(first: Irq, ps: seq<seq<Byte>>): seq<Irq> {
    [first] + seq(|ps|, i requires 0 <= i < |ps| => Irq(0, Some(ps[i])))
  }

  function InTokens(k: nat): seq<Token> {
    if k == 0 then [] else InTokens(k - 1) + [InToken]
  }

  function InState(buf: seq<Byte>, m: nat, got: seq<Byte>, k: nat): Xfer
    requires |got| <= |buf|
  {
    Begin(true, |buf|, true, m, buf).(stage := In, actual := |got|, buf := got + buf[|got|..],
      bus := [Setup] + InTokens(k))
  }

  /** A packet in the data stage. */
  lemma InContinue(buf: seq<Byte>, m: nat, got: seq<Byte>, k: nat, p: seq<Byte>)
    requires m >= 1 && |got| <= |buf|
    ensures var n := Min(|p|, |buf| - |got|);
      Continue(InState(buf, m, got, k), p)
      == (InState(buf, m, got + p[..n], k).(status := if n < |p| then EOVERFLOW else EINPROGRESS),
          |p| >= m && |got| + n < |buf|, [])
  {
    hide Overwrite;
    OverwriteTail(buf, got, p[..Min(|p|, |buf| - |got|)]);
  }

  lemma InStep(buf: seq<Byte>, m: nat, got: seq<Byte>, k: nat, p: seq<Byte>)
    requires m >= 1 && |got| <= |buf|
    ensures var n := Min(|p|, |buf| - |got|);
      var y := InState(buf, m, got + p[..n], k).(status := if n < |p| then EOVERFLOW else EINPROGRESS);
      Step(InState(buf, m, got, k), Irq(0, Some(p)))
      == if |p| >= m && |got| + n < |buf| then y.(bus := [Setup] + InTokens(k + 1))
         else y.(stage := Status, bus := [Setup] + InTokens(k) + [if |buf| == 0 then StatusIn else StatusOut])
  {
    hide Overwrite, Continue;
    InContinue(buf, m, got, k, p);
    assert [Setup] + InTokens(k + 1) == [Setup] + InTokens(k) + [InToken];
  }

  lemma {:induction false} InProgress(buf: seq<Byte>, m: nat, first: Irq, ps: seq<seq<Byte>>)
    requires m >= 1 && |buf| > 0 && first.error == 0 && Continuing(ps, |buf|, m)
    ensures Run(Begin(true, |buf|, true, m, buf), Received(first, ps)) == InState(buf, m, Concat(ps), |ps| + 1)
    ensures |ps| * m <= |Concat(ps)|
    decreases |ps|
  {
    hide Step, InState;
    var irqs := Received(first, ps);
    if ps == [] {
      assert irqs[..0] == [];
      InFirst(buf, m, first);
    } else {
      var l, p := ps[..|ps| - 1], ps[|ps| - 1];
      assert irqs[..|irqs| - 1] == Received(first, l);
      InProgress(buf, m, first, l);
      InStep(buf, m, Concat(l), |l| + 1, p);
      assert p[..|p|] == p;
      SameStatus(buf, m, Concat(ps), |ps|);
      assert |ps| * m == |l| * m + m;
    }
  }

  lemma InFirst(buf: seq<Byte>, m: nat, first: Irq)
    requires m >= 1 && |buf| > 0 && first.error == 0
    ensures Step(Begin(true, |buf|, true, m, buf), first) == InState(buf, m, [], 1)
  {
    assert [] + buf[0..] == buf;
    assert [Setup] + InTokens(1) == [Setup, InToken];
  }

  lemma SameStatus(buf: seq<Byte>, m: nat, got: seq<Byte>, k: nat)
    requires |got| <= |buf|
    ensures InState(buf, m, got, k).(status := EINPROGRESS, bus := [Setup] + InTokens(k + 1)) == InState(buf, m, got, k + 1)
  {
  }

  /** An IN transfer without errors stops at the first packet that is short or
      fills the buffer. The buffer then starts with the packets, truncated to its
      length, and an OUT status stage follows; it takes at most
      ceil(len / maxpacket) + 2 interrupts. */
  lemma {:induction false} InTransfer(buf: seq<Byte>, m: nat, first: Irq, ps: seq<seq<Byte>>, last: seq<Byte>, status: Irq)
    requires m >= 8 && |buf| > 0 && first.error == 0 && status.error == 0
    requires Continuing(ps, |buf|, m) && !Continuing(ps + [last], |buf|, m)
    ensures var c := Concat(ps) + last;
      var got := Min(|c|, |buf|);
      var irqs := Received(first, ps + [last]) + [status];
      var x := Run(Begin(true, |buf|, true, m, buf), irqs);
      && x.stage == Idle && x.actual == got && x.buf == c[..got] + buf[got..]
      && (Result(x) == if |c| > |buf| then EOVERFLOW else 0)
      && x.bus == [Setup] + InTokens(|ps| + 1) + [StatusOut]
      && |irqs| <= CeilDiv(|buf|, m) + 2
  {
    hide CeilDiv, Continue;
    var irqs := Received(first, ps + [last]) + [status];
    assert irqs[..|irqs| - 1][..|irqs| - 2] == Received(first, ps);
    assert irqs[|irqs| - 2] == Irq(0, Some(last));
    InProgress(buf, m, first, ps);
    CeilDivCovers(|buf|, m, |ps|);
    InLast(ps, last, |buf|, m);
    var d := Concat(ps);
    InStep(buf, m, d, |ps| + 1, last);
    var n := Min(|last|, |buf| - |d|);
    assert d + last[..n] == (d + last)[..|d| + n];
  }

  lemma {:induction false} InLast(ps: seq<seq<Byte>>, last: seq<Byte>, n: nat, m: nat)
    requires Continuing(ps, n, m) && !Continuing(ps + [last], n, m)
    ensures |last| < m || |Concat(ps)| + |last| >= n
  {
    assert (ps + [last])[..|ps|] == ps;
  }

  /** An error at any stage completes the transfer at once with that error. */
  lemma ErrorCompletes(x: Xfer, irq: Irq)
    requires WellFormed(x) && irq.error != 0 && irq.error != EINPROGRESS
    ensures Step(x, irq).stage == Idle && Result(Step(x, irq)) == irq.error
    ensures Step(x, irq).buf == x.buf && Step(x, irq).bus == x.bus
  {
  }
}
