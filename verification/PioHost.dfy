/** The programmed-I/O paths of the host driver in the form they run: URB and queue
    head fields updated in place, with the data moved through the FIFO port. */
module PioHost {
  import opened Wrappers
  import opened Buffers
  import opened FifoMover
  import R = Receive
  import T = Transmit
  import C = ControlTransfer

  /** A bulk or interrupt IN URB on its hardware endpoint. */
  class RxUrb {
    const buf: array<Byte>       // transfer_buffer, at address addr
    const addr: nat
    const maxPacket: nat
    const shortNotOk: bool
    var offset: nat              // qh->offset
    var actual: nat              // actual_length
    var status: int

    ghost function View(done: bool): R.Rx
      reads this, buf
    {
      R.Rx(buf[..], maxPacket, shortNotOk, offset, actual, status, done)
    }

    /** `musb_start_urb` for an IN URB */
    constructor (buf: array<Byte>, addr: nat, maxPacket: nat, shortNotOk: bool)
      requires maxPacket >= 1
      ensures View(false) == R.Begin(buf[..], maxPacket, shortNotOk) && this.buf == buf
    {
      this.buf, this.addr, this.maxPacket, this.shortNotOk := buf, addr, maxPacket, shortNotOk;
      offset, actual, status := 0, 0, R.EINPROGRESS;
    }

    /** `musb_host_packet_rx` */
    method PacketRx(fifo: Fifo, rxCount: nat) returns (done: bool)
      requires R.Ok(View(false)) && |fifo.bytes| == rxCount < 0x10000
      modifies this, buf, fifo
      ensures View(done) == R.PacketRx(old(View(false)), old(fifo.bytes))
      ensures fifo.bytes == []
    {
      hide Overwrite;
      var length := buf.Length - offset;
      var flush := false;
      if rxCount > length {
        if status == R.EINPROGRESS { status := R.EOVERFLOW; }
        flush := true;
      } else {
        length := rxCount;
      }
      var at := offset;
      actual := actual + length;
      offset := offset + length;
      done := actual == buf.Length || rxCount < maxPacket || status != R.EINPROGRESS;
      if done && status == R.EINPROGRESS && shortNotOk && actual < buf.Length {
        status := R.EREMOTEIO;
      }
      ReadFifo(fifo, buf, at, length, addr + at);
      ReadOverwrites(old(buf[..]), buf[..], at, old(fifo.bytes)[..length]);
      if flush { fifo.bytes := []; }
    }

    /** `musb_host_rx`; `fault` is zero when the line is clean. */
    method HostRx(fifo: Fifo, fault: int, nak: bool, ready: bool) returns (done: bool)
      requires R.Ok(View(false)) && |fifo.bytes| < 0x10000
      modifies this, buf, fifo
      ensures View(done) == R.Step(old(View(false)),
        if fault != 0 then R.Fault(fault) else if nak then R.Nak
        else if ready then R.Data(old(fifo.bytes)) else R.NoPacket)
    {
      var s := 0;
      done := false;
      if fault != 0 {
        s := fault;
        done := true;
      } else if nak {
      } else if status == R.EINPROGRESS {
        if !ready {
          s := C.EPROTO;
        } else {
          done := PacketRx(fifo, |fifo.bytes|);
        }
      }
      if done && status == R.EINPROGRESS { status := s; }
    }
  }

  /** A bulk or interrupt OUT URB on its hardware endpoint. */
  class TxUrb {
    const buf: array<Byte>
    const addr: nat
    const maxPacket: nat
    const zeroPacket: bool
    var offset: nat
    var segsize: nat
    var actual: nat
    var status: int
    ghost var sent: seq<seq<Byte>>

    ghost function View(done: bool): T.Tx
      reads this, buf
    {
      T.Tx(buf[..], maxPacket, zeroPacket, offset, segsize, actual, status, done, sent)
    }

    constructor (buf: array<Byte>, addr: nat, maxPacket: nat, zeroPacket: bool)
      ensures this.buf == buf && this.maxPacket == maxPacket && this.zeroPacket == zeroPacket
      ensures actual == 0 && status == T.EINPROGRESS && sent == []
    {
      this.buf, this.addr, this.maxPacket, this.zeroPacket := buf, addr, maxPacket, zeroPacket;
      offset, segsize, actual, status, sent := 0, 0, 0, T.EINPROGRESS, [];
    }

    /** `musb_start_urb` and the OUT part of `musb_ep_program` */
    method StartUrb(fifo: Fifo)
      requires 1 <= maxPacket < 0x10000 && fifo.bytes == []
      requires actual == 0 && status == T.EINPROGRESS && sent == []
      modifies this, fifo
      ensures View(false) == T.Begin(buf[..], maxPacket, zeroPacket)
      ensures fifo.bytes == sent[|sent| - 1]
    {
      offset, segsize := 0, 0;
      var load := if maxPacket < buf.Length then maxPacket else buf.Length;
      if load != 0 {
        segsize := load;
        WriteFifo(fifo, buf, 0, load, addr);
      }
      sent := sent + [buf[..][..load]];
      assert buf[..][..load] == buf[0..load];
    }

    /** `musb_host_tx` */
    method HostTx(fifo: Fifo, fault: int, nak: bool) returns (done: bool)
      requires T.Ok(View(false)) && maxPacket < 0x10000 && fifo.bytes == []
      modifies this, fifo
      ensures View(done) == T.Step(old(View(false)),
        if fault != 0 then T.Fault(fault) else if nak then T.Nak else T.Sent)
      ensures !done && fault == 0 && !nak ==> fifo.bytes == sent[|sent| - 1]
    {
      done := fault != 0;
      var s := fault;
      if fault == 0 && nak { return false; }
      var length := 0;
      if fault == 0 {
        length := segsize;
        offset := offset + length;
        if segsize < maxPacket {
          done := true;
        } else if offset == buf.Length && !zeroPacket {
          done := true;
        }
        if !done { length := buf.Length - offset; }
      }
      if status != T.EINPROGRESS {
        done := true;
        if s == 0 { s := status; }
      }
      if done {
        status := s;
        actual := offset;
        return;
      }
      if length > maxPacket { length := maxPacket; }
      WriteFifo(fifo, buf, offset, length, addr + offset);
      assert buf[offset..offset + length] == buf[..][offset..offset + length];
      sent := sent + [buf[..][offset..offset + length]];
      segsize := length;
    }
  }

  /** What `ReadFifo` leaves in memory. */
  lemma ReadOverwrites(before: seq<Byte>, after: seq<Byte>, at: nat, bytes: seq<Byte>)
    requires at + |bytes| <= |before|
    requires after == before[..at] + bytes + before[at + |bytes|..]
    ensures after == Overwrite(before, at, bytes)
  {
  }

  /** A control URB on endpoint 0. */
  class ControlUrb {
    const buf: array<Byte>
    const addr: nat
    const reqIn: bool
    const wLength: nat
    const pipeIn: bool
    const maxPacket: nat
    var stage: C.Stage           // ep0_stage
    var actual: nat
    var status: int
    ghost var bus: seq<C.Token>

    ghost function View(): C.Xfer
      reads this, buf
    {
      C.Xfer(reqIn, wLength, pipeIn, maxPacket, stage, buf[..], actual, status, bus)
    }

    constructor (buf: array<Byte>, addr: nat, reqIn: bool, wLength: nat, pipeIn: bool, maxPacket: nat)
      ensures View() == C.Begin(reqIn, wLength, pipeIn, maxPacket, buf[..]) && this.buf == buf
    {
      this.buf, this.addr, this.reqIn, this.wLength := buf, addr, reqIn, wLength;
      this.pipeIn, this.maxPacket := pipeIn, maxPacket;
      stage, actual, status, bus := C.Start, 0, C.EINPROGRESS, [C.Setup];
    }

    /** The IN case of `musb_h_ep0_continue`; `len` bytes wait in the FIFO. */
    method ReceiveData(fifo: Fifo, len: nat) returns (more: bool)
      requires C.WellFormed(View()) && stage == C.In
      requires len <= |fifo.bytes| && |fifo.bytes| < 0x10000 && buf.Length < 0x10000
      modifies this, buf, fifo
      ensures (View(), more, []) == C.Continue(old(View()), old(fifo.bytes)[..len])
    {
      var count := if len < buf.Length - actual then len else buf.Length - actual;
      if count < len { status := C.EOVERFLOW; }
      ReadFifo(fifo, buf, actual, count, addr + actual);
      assert old(fifo.bytes)[..len][..count] == old(fifo.bytes)[..count];
      assert buf[..] == Overwrite(old(buf[..]), actual, old(fifo.bytes)[..count]);
      actual := actual + count;
      more := len >= maxPacket && actual < buf.Length;
    }

    /** The OUT case: the next packet, if data are left. */
    method LoadData(fifo: Fifo, more0: bool) returns (more: bool)
      requires C.WellFormed(View()) && fifo.bytes == [] && buf.Length < 0x10000
      modifies this`actual, fifo
      ensures (View(), more, fifo.bytes) == C.ContinueOut(old(View()), more0)
    {
      more := more0;
      var count := if maxPacket < buf.Length - actual then maxPacket else buf.Length - actual;
      if count != 0 {
        WriteFifo(fifo, buf, actual, count, addr + actual);
        assert fifo.bytes == buf[..][actual..actual + count];
        actual := actual + count;
        more := true;
      }
    }

    /** `musb_h_ep0_continue` */
    method Ep0Continue(fifo: Fifo, len: nat) returns (more: bool)
      requires C.WellFormed(View()) && len <= |fifo.bytes| && |fifo.bytes| < 0x10000 && buf.Length < 0x10000
      requires stage != C.In ==> fifo.bytes == []
      modifies this, buf, fifo
      ensures (View(), more, if old(stage) == C.In then [] else fifo.bytes)
           == C.Continue(old(View()), old(fifo.bytes)[..len])
    {
      hide C.ContinueOut, Overwrite;
      more := false;
      if stage == C.In {
        more := ReceiveData(fifo, len);
        return;
      }
      if stage == C.Start {
        if wLength == 0 { return; }
        if reqIn {
          stage := C.In;
          return true;
        }
        stage := C.Out;
        more := true;
      }
      if stage == C.Out { more := LoadData(fifo, more); }
    }

    /** `musb_h_ep0_irq`; after it, an idle stage means the URB is given back. */
    method Ep0Irq(fifo: Fifo, error: int, ready: bool)
      requires C.WellFormed(View()) && |fifo.bytes| < 0x10000 && buf.Length < 0x10000
      requires !ready || stage != C.In ==> fifo.bytes == []
      modifies this, buf, fifo
      ensures View() == C.Step(old(View()), C.Irq(error, if ready then Some(old(fifo.bytes)) else None))
    {
      var len := if ready then |fifo.bytes| else 0;
      var complete := stage == C.Status;
      if error != 0 {
        status := error;
        complete := true;
      }
      if complete {
        stage := C.Idle;
        return;
      }
      assert fifo.bytes[..len] == if ready then fifo.bytes else [];
      ghost var wasIn := stage == C.In;
      var more := Ep0Continue(fifo, len);
      if more {
        bus := bus + [if stage == C.In then C.InToken else C.OutData(fifo.bytes)];
      } else {
        bus := bus + [if !pipeIn || buf.Length == 0 then C.StatusIn else C.StatusOut];
        stage := C.Status;
      }
    }
  }
}
