/** Control transfers whose pipe, setup packet and buffer need not agree: what each of
    them decides (`musb_h_ep0_irq`, `musb_h_ep0_continue`), against section 8.5.3 of the
    USB 2.0 specification. */
module ControlStages {
  import opened Wrappers
  import opened Buffers
  import opened ControlTransfer

  predicate IsStatus(t: Token) { t.StatusIn? || t.StatusOut? }

  /** The status stage runs against the data stage, and IN when there is none. */
  predicate Opposite(reqIn: bool, wLength: nat, t: Token) {
    if wLength == 0 || !reqIn then t.StatusIn? else t.StatusOut?
  }

  // ----- The status stage -----

  /** What an interrupt leaves alone, and the status tokens there are. */
  predicate Keeps(x: Xfer, y: Xfer) {
    && y.reqIn == x.reqIn && y.wLength == x.wLength && y.pipeIn == x.pipeIn && y.maxPacket == x.maxPacket
    && |y.buf| == |x.buf| && x.bus <= y.bus
  }

  predicate Statuses(x: Xfer) {
    && (forall t | t in x.bus && IsStatus(t) :: t == if x.pipeIn && |x.buf| > 0 then StatusOut else StatusIn)
    && (x.stage.Status? ==> x.bus != [] && IsStatus(x.bus[|x.bus| - 1]))
  }

  lemma ContinueKeeps(x: Xfer, packet: seq<Byte>)
    requires WellFormed(x)
    ensures var (y, more, _) := Continue(x, packet);
      Keeps(x, y) && y.bus == x.bus && (more ==> !y.stage.Status?)
  {
  }

  lemma StepStatuses(x: Xfer, irq: Irq)
    requires WellFormed(x) && Statuses(x)
    ensures Keeps(x, Step(x, irq)) && Statuses(Step(x, irq))
  {
    hide Continue;
    ContinueKeeps(x, if irq.packet.Some? then irq.packet.value else []);
  }

  lemma {:induction false} RunStatuses(x: Xfer, irqs: seq<Irq>)
    requires WellFormed(x) && Statuses(x)
    ensures Keeps(x, Run(x, irqs)) && Statuses(Run(x, irqs))
  {
    hide Step, Statuses;
    if irqs != [] {
      RunStatuses(x, irqs[..|irqs| - 1]);
      StepStatuses(Run(x, irqs[..|irqs| - 1]), irqs[|irqs| - 1]);
    }
  }

  /** Whatever the interrupts find, a transfer in its status stage put a status token on the
      bus last, and it is the one the specification asks for exactly if the pipe and the
      buffer agree with the setup packet on whether there is IN data. */
  lemma {:induction false} StatusExact(reqIn: bool, wLength: nat, pipeIn: bool, m: nat, buf: seq<Byte>, irqs: seq<Irq>)
    requires m >= 1
    ensures var x := Run(Begin(reqIn, wLength, pipeIn, m, buf), irqs);
      && [Setup] <= x.bus
      && (x.stage.Status? ==>
            var t := x.bus[|x.bus| - 1];
            && IsStatus(t) && (t.StatusOut? <==> pipeIn && buf != [])
            && (Opposite(reqIn, wLength, t) <==> ((reqIn && wLength > 0) <==> (pipeIn && buf != []))))
  {
    RunStatuses(Begin(reqIn, wLength, pipeIn, m, buf), irqs);
  }

  // ----- The data stage -----

  /** The same transfer, up to the value of a length that is not 0 and the direction of
      the pipe, and of the status stage with it. */
  predicate Alike(x: Xfer, y: Xfer) {
    && x.reqIn == y.reqIn && (x.wLength == 0 <==> y.wLength == 0) && x.maxPacket == y.maxPacket
    && x.stage == y.stage && x.buf == y.buf && x.actual == y.actual && x.status == y.status
    && BusAlike(x.bus, y.bus)
  }

  predicate BusAlike(a: seq<Token>, b: seq<Token>) {
    && |a| == |b|
    && forall i | 0 <= i < |a| :: if IsStatus(a[i]) then IsStatus(b[i]) else a[i] == b[i]
  }

  function With(x: Xfer, y: Xfer): Xfer { x.(wLength := y.wLength, pipeIn := y.pipeIn, bus := y.bus) }

  lemma ContinueWith(x: Xfer, y: Xfer, packet: seq<Byte>)
    requires WellFormed(x) && (x.wLength == 0 <==> y.wLength == 0)
    ensures var a := Continue(x, packet);
      && Continue(With(x, y), packet) == (With(a.0, y), a.1, a.2)
      && a.0.bus == x.bus && (a.0.wLength == 0 <==> x.wLength == 0)
  {
    hide Overwrite;
    if x.stage.In? {
      assert Min(|packet|, |With(x, y).buf| - With(x, y).actual) == Min(|packet|, |x.buf| - x.actual);
    }
  }

  lemma ContinueAlike(x: Xfer, y: Xfer, packet: seq<Byte>)
    requires WellFormed(x) && WellFormed(y) && Alike(x, y)
    ensures var (a, b) := (Continue(x, packet), Continue(y, packet));
      Alike(a.0, b.0) && a.1 == b.1 && a.2 == b.2
  {
    hide Continue, BusAlike;
    assert y == With(x, y);
    ContinueWith(x, y, packet);
  }

  lemma StepAlike(x: Xfer, y: Xfer, irq: Irq)
    requires WellFormed(x) && WellFormed(y) && Alike(x, y)
    ensures Alike(Step(x, irq), Step(y, irq))
  {
    hide Continue;
    ContinueAlike(x, y, if irq.packet.Some? then irq.packet.value else []);
  }

  /** How long the setup packet says the data is decides nothing but whether there is a data
      stage, and the pipe decides nothing but the status stage. */
  lemma {:induction false} RunAlike(x: Xfer, y: Xfer, irqs: seq<Irq>)
    requires WellFormed(x) && WellFormed(y) && Alike(x, y)
    ensures Alike(Run(x, irqs), Run(y, irqs))
  {
    hide Step, Alike;
    if irqs != [] {
      RunAlike(x, y, irqs[..|irqs| - 1]);
      StepAlike(Run(x, irqs[..|irqs| - 1]), Run(y, irqs[..|irqs| - 1]), irqs[|irqs| - 1]);
    }
  }

  /** So a transfer of any length and pipe has the data stage, result and number of
      interrupts of the one whose setup packet fits its buffer. */
  lemma {:induction false} DataStageExact(reqIn: bool, wLength: nat, pipeIn: bool, m: nat, buf: seq<Byte>, irqs: seq<Irq>)
    requires m >= 1 && wLength > 0 && buf != []
    ensures var x := Run(Begin(reqIn, wLength, pipeIn, m, buf), irqs);
      var y := Run(Begin(reqIn, |buf|, reqIn, m, buf), irqs);
      Alike(x, y) && Result(x) == Result(y) && (pipeIn == reqIn ==> x.bus == y.bus)
  {
    var x, y := Begin(reqIn, wLength, pipeIn, m, buf), Begin(reqIn, |buf|, reqIn, m, buf);
    RunAlike(x, y, irqs);
    RunStatuses(x, irqs);
    RunStatuses(y, irqs);
  }

  /** Without a data stage the buffer is left alone, whatever its size. */
  lemma {:induction false} NoDataExact(reqIn: bool, pipeIn: bool, m: nat, buf: seq<Byte>, irqs: seq<Irq>)
    requires m >= 1 && Clean(irqs) && |irqs| == 2
    ensures var x := Run(Begin(reqIn, 0, pipeIn, m, buf), irqs);
      && x.stage == Idle && Result(x) == 0 && x.actual == 0 && x.buf == buf
      && x.bus == [Setup, if pipeIn && buf != [] then StatusOut else StatusIn]
  {
    TwoIrqs(irqs);
    var x := Begin(reqIn, 0, pipeIn, m, buf);
    assert Run(x, irqs[..1]) == Step(x, irqs[0]) by { assert Run(x, []) == x; }
  }

  lemma TwoIrqs(irqs: seq<Irq>)
    requires |irqs| >= 1
    ensures irqs[..1][..0] == [] && irqs[..1][0] == irqs[0]
  {
  }

  /** A data stage into an empty buffer: one empty packet OUT; or one packet IN, which
      overflows unless it is empty too. */
  lemma {:induction false} EmptyBuffer(reqIn: bool, wLength: nat, pipeIn: bool, m: nat, irqs: seq<Irq>)
    requires m >= 1 && wLength > 0 && Clean(irqs) && |irqs| == 3
    ensures var x := Run(Begin(reqIn, wLength, pipeIn, m, []), irqs);
      && x.stage == Idle && x.actual == 0 && x.buf == []
      && x.bus == [Setup, if reqIn then InToken else OutData([]), StatusIn]
      && Result(x) == if reqIn && irqs[1].packet.Some? && irqs[1].packet.value != [] then EOVERFLOW else 0
  {
    hide Step, Run;
    TwoIrqs(irqs);
    var x := Begin(reqIn, wLength, pipeIn, m, []);
    assert irqs[..2][..1] == irqs[..1];
    RunEmpty(x);
    RunSnoc(x, irqs[..1]);
    RunSnoc(x, irqs[..2]);
    RunSnoc(x, irqs);
    EmptySteps(x, irqs[0], irqs[1], irqs[2]);
  }

  lemma {:induction false} RunEmpty(x: Xfer)
    requires WellFormed(x)
    ensures Run(x, []) == x
  {
  }

  lemma {:induction false} RunSnoc(x: Xfer, irqs: seq<Irq>)
    requires WellFormed(x) && irqs != []
    ensures Run(x, irqs) == Step(Run(x, irqs[..|irqs| - 1]), irqs[|irqs| - 1])
  {
  }

  lemma EmptySteps(x: Xfer, a: Irq, b: Irq, c: Irq)
    requires x == Begin(x.reqIn, x.wLength, x.pipeIn, x.maxPacket, []) && x.maxPacket >= 1 && x.wLength > 0
    requires a.error == 0 && b.error == 0 && c.error == 0
    ensures Step(Step(Step(x, a), b), c)
      == x.(stage := Idle, bus := [Setup, if x.reqIn then InToken else OutData([]), StatusIn],
            status := if x.reqIn && b.packet.Some? && b.packet.value != [] then EOVERFLOW else EINPROGRESS)
  {
  }
}
