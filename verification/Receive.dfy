/** Bulk and interrupt IN transfers by programmed I/O (`musb_host_rx`,
    `musb_host_packet_rx`), against the rules of section 5.8.3 of the USB 2.0
    specification: a short packet or a full buffer ends the transfer. */
module Receive {
  import opened Buffers

  const EINPROGRESS := -115
  const EOVERFLOW := -75
  const EREMOTEIO := -121

  /** The URB and queue head fields the receive path uses. */
  datatype Rx = Rx(buf: seq<Byte>, maxPacket: nat, shortNotOk: bool,
                   offset: nat, actual: nat, status: int, done: bool)

  /** What an RX interrupt finds: a fault, a NAK timeout, nothing, or a packet. */
  datatype Event = Fault(code: int) | Nak | NoPacket | Data(packet: seq<Byte>)

  predicate Ok(x: Rx) {
    x.offset == x.actual <= |x.buf| && x.maxPacket >= 1
  }

  function Begin(buf: seq<Byte>, maxPacket: nat, shortNotOk: bool): Rx {
    Rx(buf, maxPacket, shortNotOk, 0, 0, EINPROGRESS, false)
  }

  /** `musb_host_packet_rx` */
  function PacketRx(x: Rx, packet: seq<Byte>): (y: Rx)
    requires Ok(x)
    ensures Ok(y)
  {
    var room := |x.buf| - x.offset;
    var n := if |packet| > room then room else |packet|;
    var status := if |packet| > room && x.status == EINPROGRESS then EOVERFLOW else x.status;
    var actual := x.actual + n;
    var done := actual == |x.buf| || |packet| < x.maxPacket || status != EINPROGRESS;
    x.(buf := Overwrite(x.buf, x.offset, packet[..n]), offset := x.offset + n, actual := actual, done := done,
       status := if done && status == EINPROGRESS && x.shortNotOk && actual < |x.buf| then EREMOTEIO else status)
  }

  /** `musb_host_rx`: the final status of an URB without one is that of the event. */
  function Step(x: Rx, e: Event): (y: Rx)
    requires Ok(x)
    ensures Ok(y)
  {
    match e
    case Fault(code) => x.(done := true, status := if x.status == EINPROGRESS then code else x.status)
    case Nak => x
    case NoPacket => x
    case Data(p) =>
      if x.status != EINPROGRESS then x
      else
        var y := PacketRx(x, p);
        if y.done && y.status == EINPROGRESS then y.(status := 0) else y
  }

  function Run(x: Rx, es: seq<Event>): (y: Rx)
    requires Ok(x)
    ensures Ok(y)
  {
    if es == [] then x else Step(Run(x, es[..|es| - 1]), es[|es| - 1])
  }

  /** The packets among the events. */
  function Arrived(es: seq<Event>): seq<seq<Byte>> {
    if es == [] then []
    else
      var r := Arrived(es[..|es| - 1]);
      if es[|es| - 1].Data? then r + [es[|es| - 1].packet] else r
  }

  ghost predicate Faultless(es: seq<Event>) {
    forall i | 0 <= i < |es| :: !es[i].Fault?
  }

  /** Packets after which the transfer goes on: none short, and the buffer not full. */
  ghost predicate Continuing(ps: seq<seq<Byte>>, n: nat, m: nat) {
    (forall i | 0 <= i < |ps| :: |ps[i]| >= m) && (ps != [] ==> |Concat(ps)| < n)
  }

  function Filled(buf: seq<Byte>, got: seq<Byte>): seq<Byte>
    requires |got| <= |buf|
  {
    got + buf[|got|..]
  }

  function Partial(buf: seq<Byte>, m: nat, shortNotOk: bool, got: seq<Byte>): Rx
    requires |got| <= |buf|
  {
    Rx(Filled(buf, got), m, shortNotOk, |got|, |got|, EINPROGRESS, false)
  }

  /** The status the specification asks for when the transfer ends with `c` received. */
  function EndStatus(n: nat, shortNotOk: bool, c: nat): int {
    if c > n then EOVERFLOW else if c < n && shortNotOk then EREMOTEIO else 0
  }

  lemma PacketStep(buf: seq<Byte>, m: nat, snok: bool, got: seq<Byte>, p: seq<Byte>)
    requires m >= 1 && |got| <= |buf|
    ensures var c := got + p;
      var n := Min(|c|, |buf|);
      Step(Partial(buf, m, snok, got), Data(p)) ==
        if |p| >= m && |c| < |buf| then Partial(buf, m, snok, c)
        else Rx(Filled(buf, c[..n]), m, snok, n, n, EndStatus(|buf|, snok, |c|), true)
  {
    hide Overwrite;
    var c := got + p;
    var n := Min(|c|, |buf|);
    OverwriteTail(buf, got, p[..n - |got|]);
    assert got + p[..n - |got|] == c[..n];
    assert n == |c| ==> c[..n] == c;
  }

  lemma {:induction false} Progress(buf: seq<Byte>, m: nat, snok: bool, es: seq<Event>)
    requires m >= 1 && Faultless(es) && Continuing(Arrived(es), |buf|, m)
    ensures |Concat(Arrived(es))| <= |buf|
    ensures Run(Begin(buf, m, snok), es) == Partial(buf, m, snok, Concat(Arrived(es)))
  {
    hide Step, Partial;
    if es == [] {
      BeginPartial(buf, m, snok);
    } else {
      var l, e := es[..|es| - 1], es[|es| - 1];
      ArrivedPrefix(es, |buf|, m);
      Progress(buf, m, snok, l);
      if e.Data? {
        PacketStep(buf, m, snok, Concat(Arrived(l)), e.packet);
        assert Arrived(es)[..|Arrived(l)|] == Arrived(l);
      } else {
        Stutter(Run(Begin(buf, m, snok), l), e);
      }
    }
  }

  lemma BeginPartial(buf: seq<Byte>, m: nat, snok: bool)
    ensures Begin(buf, m, snok) == Partial(buf, m, snok, [])
  {
  }

  lemma Stutter(x: Rx, e: Event)
    requires Ok(x) && (e.Nak? || e.NoPacket?)
    ensures Step(x, e) == x
  {
  }

  lemma {:induction false} ArrivedPrefix(es: seq<Event>, n: nat, m: nat)
    requires es != [] && Continuing(Arrived(es), n, m)
    ensures Continuing(Arrived(es[..|es| - 1]), n, m)
  {
    var l := Arrived(es[..|es| - 1]);
    var a := Arrived(es);
    if es[|es| - 1].Data? {
      assert a[..|l|] == l;
      assert forall i | 0 <= i < |l| :: l[i] == a[i];
    }
  }

  /** A transfer without faults ends exactly at the first packet that is short,
      fills the buffer or overflows it, whatever NAK timeouts and empty interrupts
      come between. Then the buffer starts with the packets in order, cut to its
      length; `actual` and `offset` are what it got; and the status is overflow
      iff the packets exceed the buffer, a short-read error iff they do not fill
      it and short reads were refused, and success otherwise. */
  lemma {:induction false} Transfer(buf: seq<Byte>, m: nat, snok: bool, es: seq<Event>, last: seq<Byte>)
    requires m >= 1 && Faultless(es) && Continuing(Arrived(es), |buf|, m)
    ensures !Run(Begin(buf, m, snok), es).done
    ensures var c := Concat(Arrived(es)) + last;
      var n := Min(|c|, |buf|);
      var x := Run(Begin(buf, m, snok), es + [Data(last)]);
      && (x.done <==> !Continuing(Arrived(es) + [last], |buf|, m))
      && x.actual == x.offset == n && x.buf == Filled(buf, c[..n])
      && (x.done ==> x.status == EndStatus(|buf|, snok, |c|))
  {
    hide Step, Arrived, Continuing, Concat;
    var ps := Arrived(es);
    Progress(buf, m, snok, es);
    PacketStep(buf, m, snok, Concat(ps), last);
    assert (es + [Data(last)])[..|es|] == es;
    ContinuingSnoc(ps, last, |buf|, m);
    var c := Concat(ps) + last;
    if |c| < |buf| { assert c[..|c|] == c; }
  }

  lemma {:induction false} ContinuingSnoc(ps: seq<seq<Byte>>, last: seq<Byte>, n: nat, m: nat)
    requires Continuing(ps, n, m)
    ensures Continuing(ps + [last], n, m) <==> |last| >= m && |Concat(ps) + last| < n
  {
    assert (ps + [last])[..|ps|] == ps;
    assert (ps + [last])[|ps|] == last;
    assert forall i | 0 <= i < |ps| :: (ps + [last])[i] == ps[i];
  }

  /** A fault ends the transfer and keeps what was received. */
  lemma {:induction false} FaultEnds(buf: seq<Byte>, m: nat, snok: bool, es: seq<Event>, code: int)
    requires m >= 1 && Faultless(es) && Continuing(Arrived(es), |buf|, m)
    ensures |Concat(Arrived(es))| <= |buf|
    ensures Run(Begin(buf, m, snok), es + [Fault(code)])
         == Partial(buf, m, snok, Concat(Arrived(es))).(done := true, status := code)
  {
    Progress(buf, m, snok, es);
    assert (es + [Fault(code)])[..|es|] == es;
  }

  /** An URB whose status was set while it was receiving takes no more packets, and a fault
      ends it with its own status. */
  lemma {:induction false} AbortEnds(buf: seq<Byte>, m: nat, shortNotOk: bool, es: seq<Event>, status: int, e: Event)
    requires m >= 1 && Faultless(es) && Continuing(Arrived(es), |buf|, m) && status != EINPROGRESS
    ensures var x := Run(Begin(buf, m, shortNotOk), es).(status := status);
      !x.done && Step(x, e) == x.(done := e.Fault?) && Concat(Arrived(es)) <= x.buf && x.actual == |Concat(Arrived(es))|
  {
    Progress(buf, m, shortNotOk, es);
  }
}
