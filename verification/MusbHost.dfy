/** The host driver in the form it runs: one object whose methods update the
    hardware bindings, the lists, the slot mask and the FIFO registers in place. */
module MusbHost {
  import opened Wrappers
  import Bits
  import opened Slots
  import opened Scheduler
  import opened SchedulerInvariant
  import opened SchedulerGiveback
  import opened SchedulerAdvance
  import opened SchedulerRuns

  /** The runs named by the FIFO address and size registers. */
  function Registers(add: map<Side, nat>, size: map<Side, nat>): map<Side, Run> {
    map side | side in size && size[side] != 0 && side in add && add[side] >= 8
      :: Run(DecodeStart(add[side]), if size[side] == 6 then 1 else 2)
  }

  lemma RegistersSet(add: map<Side, nat>, size: map<Side, nat>, side: Side, start: nat, n: nat)
    requires n == 1 || n == 2
    ensures Registers(add[side := EncodeStart(start)], size[side := 5 + n]) == Registers(add, size)[side := Run(start, n)]
  {
    assert DecodeStart(EncodeStart(start)) == start;
  }

  lemma RegistersClear(add: map<Side, nat>, size: map<Side, nat>, side: Side)
    ensures Registers(add[side := 0], size[side := 0]) == Registers(add, size) - {side}
  {
  }

  /** The run the search finds is the one the pool gives. */
  lemma SearchIsTake(p: Pool<Side>, side: Side, n: nat, start: int)
    requires n >= 1
    requires start < 0 ==> forall s: nat :: !IsFree(p.used, Run(s, n), TOTAL_SLOTS)
    requires start >= 0 ==>
      && IsFree(p.used, Run(start, n), TOTAL_SLOTS)
      && forall s: nat | s < start :: !IsFree(p.used, Run(s, n), TOTAL_SLOTS)
    ensures Take(p, side, n, TOTAL_SLOTS) ==
      if start < 0 then None
      else Some(Pool(p.used + Cells(Run(start, n)), p.held[side := Run(start, n)]))
  {
    hide Cells, IsFree;
    FirstFreeIsLowest(p.used, n, TOTAL_SLOTS, 0);
  }

  class Musb {
    const nEps: nat                      // nr_endpoints
    var isHost: bool
    var isActive: bool
    var bound: map<Side, nat>            // in_qh, out_qh
    var ring: seq<nat>                   // control
    var qhs: map<nat, Qh>
    var queue: map<Endpoint, seq<Urb>>
    var hcpriv: map<Endpoint, nat>
    var urbQh: map<Urb, nat>
    var mask: nat                        // musb_host_dynamic_fifo_usage_msk
    var fifoAdd: map<Side, nat>          // {tx,rx}fifoadd
    var fifoSize: map<Side, nat>         // {tx,rx}fifosz
    var submitted: seq<Urb>              // what usbcore linked, gave back and cancelled
    var given: seq<Urb>
    var cancelled: set<Urb>

    ghost function Snapshot(): State
      reads this
    {
      State(nEps, isHost, isActive, false, bound, ring, qhs, queue, hcpriv, urbQh,
            Pool(Used(mask), Registers(fifoAdd, fifoSize)), submitted, given, cancelled)
    }

    constructor (nEps: nat)
      ensures Snapshot() == Fresh(nEps)
    {
      this.nEps := nEps;
      isHost, isActive := false, false;
      bound, ring, qhs, queue, hcpriv, urbQh := map[], [], map[], map[], map[], map[];
      mask, fifoAdd, fifoSize := 0, map[], map[];
      submitted, given, cancelled := [], [], {};
      new;
      forall i: nat ensures !Bits.Test(0, i) { Bits.ZeroTest(i); }
    }

    // ----- FIFO slots -----

    /** `musb_host_alloc_ep_fifo` */
    method AllocEpFifo(side: Side, maxPacket: nat) returns (ret: int)
      modifies this`mask, this`fifoAdd, this`fifoSize
      ensures match Take(old(Snapshot()).pool, side, Units(maxPacket), TOTAL_SLOTS)
        case None => ret == -1 && Snapshot() == old(Snapshot())
        case Some(p) => ret == 0 && Snapshot() == old(Snapshot()).(pool := p)
      ensures ret == 0 ==> side in fifoSize && fifoSize[side] == SizeCode(maxPacket)
    {
      hide Cells, IsFree, Take, Used, Registers;
      var n, code := 1, 6;
      if maxPacket > 512 { n, code := 2, 7; }
      var start, mask' := AllocRun(mask, n, TOTAL_SLOTS);
      SearchIsTake(old(Snapshot()).pool, side, n, start);
      if start < 0 { return -1; }
      RegistersSet(fifoAdd, fifoSize, side, start, n);
      mask := mask';
      fifoSize := fifoSize[side := code];
      fifoAdd := fifoAdd[side := 64 / 8 + start * (512 / 8)];
      ret := 0;
    }

    /** `musb_host_free_ep_fifo` */
    method FreeEpFifo(side: Side, maxPacket: nat)
      requires side in Registers(fifoAdd, fifoSize)
      requires Registers(fifoAdd, fifoSize)[side].len == Units(maxPacket)
      requires Registers(fifoAdd, fifoSize)[side].start + Units(maxPacket) <= TOTAL_SLOTS
      modifies this`mask, this`fifoAdd, this`fifoSize
      ensures Snapshot() == old(Snapshot()).(pool := Give(old(Snapshot()).pool, side))
    {
      RegistersClear(fifoAdd, fifoSize, side);
      var n := if maxPacket <= 512 then 1 else 2;
      mask := FreeRun(mask, fifoAdd[side], n);
      fifoSize := fifoSize[side := 0];
      fifoAdd := fifoAdd[side := 0];
    }

    // ----- Bindings -----

    /** `musb_ep_set_qh` */
    method EpSetQh(num: nat, isIn: bool, q: nat)
      modifies this`bound
      ensures Snapshot() == Bind(old(Snapshot()), num, isIn, q)
    {
      if isIn || num == 0 { bound := bound[Side(num, true) := q]; }
      if !isIn || num == 0 { bound := bound[Side(num, false) := q]; }
      assert bound == old(bound) + map x | x in Sides(num, isIn) :: q;
    }

    /** `musb_ep_set_qh` with NULL */
    method EpClearQh(num: nat, isIn: bool)
      modifies this`bound
      ensures Snapshot() == Unbind(old(Snapshot()), num, isIn)
    {
      if isIn || num == 0 { bound := bound - {Side(num, true)}; }
      if !isIn || num == 0 { bound := bound - {Side(num, false)}; }
      assert bound == old(bound) - Sides(num, isIn);
    }

    /** `musb_start_urb`, as far as the schedule is concerned. */
    method StartUrb(q: nat, isIn: bool)
      requires q in qhs && Queue(Snapshot(), qhs[q].hep) != []
      modifies this`bound
      ensures Snapshot() == Start(old(Snapshot()), q, isIn)
    {
      hide Bind, Queue, Registers, Used;
      var dir := isIn;
      if qhs[q].hep.kind.Control? { dir := false; }
      EpSetQh(qhs[q].hw, dir, q);
    }

    // ----- Submission -----

    /** `musb_schedule` */
    method ScheduleQh(q: nat, h: Endpoint) returns (ret: int)
      requires q in qhs && qhs[q] == Qh(h, 0, false, true) && h !in hcpriv
      requires Queue(Snapshot(), h) != []
      modifies this
      ensures match Schedule(old(Snapshot()), q, h)
        case None => ret == ENOSPC && Snapshot() == old(Snapshot())
        case Some(t) => ret == 0 && Snapshot() == t
    {
      hide Queue, Registers, Used, Take, Bind;
      if h.kind.Control? {
        var idle := ring == [];
        ring := ring + [q];
        qhs := qhs[q := Qh(h, 0, true, true)];
        hcpriv := hcpriv[h := q];
        SameQueue(old(Snapshot()), Snapshot(), h);
        if idle { StartUrb(q, h.dirIn); }
        return 0;
      }
      var epnum, hwEnd := 1, 0;
      while epnum < nEps && hwEnd == 0
        invariant epnum >= 1
        invariant hwEnd == 0 ==> FreeEp(bound, nEps, h.dirIn, 1) == FreeEp(bound, nEps, h.dirIn, epnum)
        invariant hwEnd != 0 ==> FreeEp(bound, nEps, h.dirIn, 1) == Some(hwEnd)
        decreases nEps - epnum, hwEnd == 0
      {
        if Side(epnum, h.dirIn) in bound {
          epnum := epnum + 1;
        } else {
          hwEnd := epnum;
        }
      }
      if hwEnd == 0 { return ENOSPC; }
      qhs := qhs[q := Qh(h, hwEnd, false, true)];
      hcpriv := hcpriv[h := q];
      var fifo := AllocEpFifo(Side(hwEnd, h.dirIn), h.maxPacket);
      if fifo != 0 {
        qhs := qhs[q := Qh(h, 0, false, true)];
        hcpriv := hcpriv - {h};
        assert qhs == old(qhs) && hcpriv == old(hcpriv);
        return ENOSPC;
      }
      SameQueue(old(Snapshot()), Snapshot(), h);
      StartUrb(q, h.dirIn);
      ret := 0;
    }

    /** `list_add_tail` and `list_del` on an URB list */
    method SetQueue(h: Endpoint, urbs: seq<Urb>)
      modifies this`queue
      ensures Snapshot() == WithQueue(old(Snapshot()), h, urbs)
    {
      queue := if urbs == [] then queue - {h} else queue[h := urbs];
    }

    /** The part of `musb_urb_enqueue` that needs a new queue head: on failure the
        queue head and the link of `u` are undone. */
    method NewQh(u: Urb, q: nat, urbs: seq<Urb>, ghost s: State) returns (ret: int)
      requires Snapshot() == Linked(s, u) && urbs == Queue(s, u.ep)
      requires q !in qhs && u.ep !in hcpriv && (u.ep in s.queue ==> s.queue[u.ep] != [])
      modifies this
      ensures match Schedule(Linked(s, u), q, u.ep)
        case None => ret == ENOSPC && Snapshot() == s
        case Some(t) => ret == 0 && Snapshot() == Accepted(t, u, q)
    {
      hide Registers, Used, Schedule, Linked, Queue, WithQueue;
      LinkIs(s, u);
      LinkedShape(s, u);
      qhs := qhs[q := Qh(u.ep, 0, false, true)];
      SameQueue(Linked(s, u), Snapshot(), u.ep);
      AddedEarly(Linked(s, u), q, u.ep);
      ret := ScheduleQh(q, u.ep);
      if ret == 0 {
        urbQh := urbQh[u := q];
        submitted := submitted + [u];
      } else {
        FreeNewQh(u, q, urbs, s);
      }
    }

    /** The failure path: the endpoint forgets the queue head, which is freed. */
    method FreeNewQh(u: Urb, q: nat, urbs: seq<Urb>, ghost s: State)
      requires q !in s.qhs && u.ep !in s.hcpriv && (u.ep in s.queue ==> s.queue[u.ep] != [])
      requires Snapshot() == Linked(s, u).(qhs := s.qhs[q := Qh(u.ep, 0, false, true)])
      requires urbs == Queue(s, u.ep)
      modifies this
      ensures Snapshot() == s
    {
      hide Registers, Used, Linked, Queue, WithQueue;
      LinkIs(s, u);
      hcpriv := hcpriv - {u.ep};
      qhs := qhs - {q};
      assert hcpriv == s.hcpriv && qhs == s.qhs;
      UndoLink(s, u);
      SetQueue(u.ep, urbs);
    }

    /** `musb_urb_enqueue` */
    method UrbEnqueue(c: Submission, ghost open: Option<Endpoint>) returns (ret: int)
      requires Inv(Snapshot(), open)
      modifies this
      ensures (Snapshot(), ret) == Enqueue(old(Snapshot()), c)
      ensures Inv(Snapshot(), open)
    {
      hide Registers, Used, Schedule, Inv, Linked;
      var u, h := c.urb, c.urb.ep;
      ghost var s := Snapshot();
      EnqueueKeeps(s, c, open);
      NonEmptyQueues(s, open);
      if !isHost || !isActive { return ENODEV; }
      ret := if c.linkError != 0 then c.linkError else if u in submitted then EBUSY else 0;
      if ret != 0 { return; }
      var urbs := if h in queue then queue[h] else [];
      SetQueue(h, urbs + [u]);
      LinkIs(s, u);
      if h in hcpriv {
        urbQh := urbQh[u := hcpriv[h]];
        submitted := submitted + [u];
        return 0;
      }
      UndoLink(s, u);
      if c.newQh.None? || c.newQh.value in qhs {
        SetQueue(h, urbs);
        return ENOMEM;
      }
      ret := NewQh(u, c.newQh.value, urbs, s);
    }

    // ----- Giveback and advance -----

    method MarkReady(q: nat, ready: bool)
      requires q in qhs
      modifies this`qhs
      ensures Snapshot() == SetReady(old(Snapshot()), q, ready)
    {
      qhs := qhs[q := qhs[q].(ready := ready)];
    }

    /** `usb_hcd_unlink_urb_from_ep` */
    method UnlinkUrb(u: Urb, cancel: bool)
      modifies this
      ensures Snapshot() == Unlinked(old(Snapshot()), u, cancel)
    {
      hide Registers, Used;
      var urbs := if u.ep in queue then queue[u.ep] else [];
      SetQueue(u.ep, Without(urbs, u));
      urbQh := urbQh - {u};
      given := given + [u];
      if cancel { cancelled := cancelled + {u}; }
    }

    /** `musb_giveback`: the completion callback makes the calls `cs`. */
    method GivebackUrb(u: Urb, cancel: bool, cs: seq<Submission>)
      requires Inv(Snapshot(), Some(u.ep)) && u in Queue(Snapshot(), u.ep)
      requires cancel || Queue(Snapshot(), u.ep)[0] == u
      modifies this
      ensures Snapshot() == Giveback(old(Snapshot()), u, cancel, cs)
      ensures Inv(Snapshot(), Some(u.ep))
    {
      hide Inv, Unlinked, Enqueue, Queue, Snapshot;
      UnlinkKeeps(Snapshot(), u, cancel);
      UnlinkUrb(u, cancel);
      var i := 0;
      while i < |cs|
        invariant i <= |cs|
        invariant Inv(Snapshot(), Some(u.ep))
        invariant EnqueueAll(Snapshot(), cs[i..]) == Giveback(old(Snapshot()), u, cancel, cs)
      {
        var ret := UrbEnqueue(cs[i], Some(u.ep));
        assert cs[i..][1..] == cs[i + 1..];
        i := i + 1;
      }
    }

    /** Freeing a queue head whose list is empty. */
    method Kfree(q: nat, isIn: bool)
      requires q in qhs
      requires !qhs[q].hep.kind.Control? ==> var side, run := Side(qhs[q].hw, isIn), Units(qhs[q].hep.maxPacket);
        && side in Snapshot().pool.held && Snapshot().pool.held[side].len == run
        && Snapshot().pool.held[side].start + run <= TOTAL_SLOTS
      modifies this
      ensures Snapshot() == FreeQh(old(Snapshot()), q, isIn)
    {
      hide Registers, Used, Give;
      hcpriv := hcpriv - {qhs[q].hep};
      if !qhs[q].hep.kind.Control? {
        FreeEpFifo(Side(qhs[q].hw, isIn), qhs[q].hep.maxPacket);
      }
      ring := Without(ring, q);
      qhs := qhs - {q};
    }

    /** The empty-list branch of `musb_advance_schedule`. */
    method Retire(q: nat, isIn: bool)
      requires q in qhs && Inv(Snapshot(), Some(qhs[q].hep)) && Queue(Snapshot(), qhs[q].hep) == []
      requires if qhs[q].hep.kind.Control? then ring != [] && ring[0] == q else isIn == qhs[q].hep.dirIn
      modifies this
      ensures Snapshot() == RetireQh(old(Snapshot()), q, isIn)
    {
      hide Inv, Queue, Registers, Used, FreeQh, Unbind, FollowPrev;
      var x := qhs[q];
      RetireFacts(Snapshot(), q);
      EpClearQh(x.hw, isIn);
      UnbindRest(old(Snapshot()), x.hw, isIn);
      var next := FollowPrev(ring, q);
      if x.hep.kind.Control? { FollowPrevOfHead(ring); }
      Kfree(q, isIn);
      if x.mux && (x.hep.kind.Control? || x.hep.kind.Bulk?) {
        match next {
          case NoQh =>
          case Entry(n) =>
            RetireNext(old(Snapshot()), q, n, isIn);
            if qhs[n].ready { StartUrb(n, isIn); }
        }
      }
    }

    /** `musb_advance_schedule` */
    method AdvanceSchedule(u: Urb, side: Side, cancel: bool, cs: seq<Submission>, ghost open: Option<Endpoint>)
      requires Inv(Snapshot(), open) && side in bound && bound[side] in qhs
      requires qhs[bound[side]].hep == u.ep && (open == None || open == Some(u.ep))
      requires u in Queue(Snapshot(), u.ep) && (cancel || Queue(Snapshot(), u.ep)[0] == u)
      modifies this
      ensures Snapshot() == Advance(old(Snapshot()), u, side, cancel, cs)
    {
      hide Inv, Registers, Used, Queue, SetReady, Giveback, RetireQh, Held, Start;
      ghost var s := Snapshot();
      var q := bound[side];
      var ready := qhs[q].ready;
      ReturnedKeeps(s, u, q, cancel, cs, open);
      HeldSides(s, u, q, cancel, Returned(s, u, q, cancel, cs));
      SetReadyKeeps(s, q, false, open, Some(u.ep));
      ReadyShape(s, q, false);
      MarkReady(q, false);
      SameQueue(s, Snapshot(), u.ep);
      GivebackUrb(u, cancel, cs);
      if side !in bound { return; }
      ReadyShape(Snapshot(), q, ready);
      MarkReady(q, ready);
      SideOfQh(Snapshot(), side, Some(u.ep));
      var urbs := if u.ep in queue then queue[u.ep] else [];
      QueueIs(Snapshot(), u.ep);
      if urbs == [] {
        Retire(q, side.isIn);
      } else if ready {
        StartUrb(q, side.isIn);
      }
    }

    // ----- Role -----

    /** The CONNECT branch of `musb_stage0_irq`. */
    method ConnectIrq()
      modifies this`mask, this`isActive
      ensures Snapshot() == Step(old(Snapshot()), Connect)
    {
      isActive := true;
      mask := 0;
      forall i: nat ensures !Bits.Test(0, i) { Bits.ZeroTest(i); }
    }

    // ----- Unlinking and disabling -----

    /** `musb_urb_dequeue` */
    method UrbDequeue(u: Urb, refused: bool, cs: seq<Submission>)
      requires Inv(Snapshot(), None)
      modifies this
      ensures Snapshot() == Dequeue(old(Snapshot()), u, refused, cs)
      ensures Inv(Snapshot(), None)
    {
      hide Inv, Registers, Used, Queue, SetReady, Giveback, FreeQh, Advance;
      ghost var s := Snapshot();
      DequeueKeeps(s, u, refused, cs);
      var urbs := if u.ep in queue then queue[u.ep] else [];
      QueueIs(s, u.ep);
      if refused || u !in urbs || u !in urbQh { return; }
      ListFacts(s, u.ep, None);
      var q := urbQh[u];
      QhFacts(s, q, None);
      var side := Side(qhs[q].hw, PipeIn(u));
      if !qhs[q].ready || urbs[0] != u || side !in bound || bound[side] != q {
        DequeueIdleKeeps(s, u, side, cs);
        DequeueIdleShape(s, u, refused, cs);
        DequeueIdle(u, q, side, cs);
      } else {
        AdvanceSchedule(u, side, true, cs, None);
      }
    }

    /** The branch of `musb_urb_dequeue` for an URB the hardware does not have. */
    method DequeueIdle(u: Urb, q: nat, side: Side, cs: seq<Submission>)
      requires Inv(Snapshot(), None) && u in Queue(Snapshot(), u.ep)
      requires u.ep in hcpriv && hcpriv[u.ep] == q && q in qhs && qhs[q].hep == u.ep && side == Side(qhs[q].hw, PipeIn(u))
      requires qhs[q].ready
      requires Queue(Snapshot(), u.ep)[0] != u || side !in bound || bound[side] != q
      modifies this
      ensures var r := Returned(old(Snapshot()), u, old(hcpriv)[u.ep], true, cs);
        q in r.qhs && Snapshot() == if Queue(r, u.ep) == [] then FreeQh(r, q, side.isIn) else r
    {
      hide Inv, Registers, Used, Queue, SetReady, Giveback, FreeQh, Held;
      ghost var s := Snapshot();
      var ready := qhs[q].ready;
      DequeueIdleKeeps(s, u, side, cs);
      DequeueIdleOwner(s, u, side, cs);
      SetReadyKeeps(s, q, false, None, Some(u.ep));
      ReadyShape(s, q, false);
      MarkReady(q, false);
      SameQueue(s, Snapshot(), u.ep);
      GivebackUrb(u, true, cs);
      ReadyShape(Snapshot(), q, ready);
      MarkReady(q, ready);
      var urbs := if u.ep in queue then queue[u.ep] else [];
      QueueIs(Snapshot(), u.ep);
      if ready && urbs == [] { Kfree(q, side.isIn); }
    }

    /** `musb_h_disable` once the queue head is found. */
    method DisableHead(q: nat, isIn: bool, cb: Callbacks)
      requires Inv(Snapshot(), None) && q in qhs && (!qhs[q].hep.kind.Control? ==> isIn == qhs[q].hep.dirIn)
      modifies this
      ensures Snapshot() == DisableQh(old(Snapshot()), q, isIn, cb)
      ensures Inv(Snapshot(), None)
    {
      hide Inv, Registers, Used, Queue, SetReady, DisableQh;
      ghost var s := Snapshot();
      var h := qhs[q].hep;
      var side := Side(qhs[q].hw, isIn);
      DisableQhKeeps(s, q, isIn, cb);
      DisableStart(s, q, isIn);
      MarkReady(q, false);
      if side in bound && bound[side] == q {
        DrainHead(q, h, side, cb, s);
      } else {
        DrainWaiting(q, h, side, cb, s);
      }
    }

    /** The hardware-owning branch: abort the first URB, then nuke the others. */
    method DrainHead(q: nat, h: Endpoint, side: Side, cb: Callbacks, ghost s: State)
      requires q in s.qhs && Snapshot() == SetReady(s, q, false) && s.qhs[q].hep == h
      requires Inv(Snapshot(), Some(h)) && q in qhs && qhs[q] == s.qhs[q].(ready := false)
      requires Queue(Snapshot(), h) == Queue(s, h) != []
      requires side == Side(s.qhs[q].hw, side.isIn) && side in s.bound && s.bound[side] == q && bound == s.bound
      requires forall u | u in Queue(s, h) :: var x := Side(s.qhs[q].hw, PipeIn(u)); x in s.bound && s.bound[x] == q
      modifies this
      ensures Snapshot() == DisableQh(s, q, side.isIn, cb)
    {
      hide Inv, Registers, Used, Queue, SetReady, DisableQh, DrainBound, Advance, Refusing, First, Rest, Dropped, Returned,
        Held, Drained, LogsGrow;
      ghost var t := Snapshot();
      ListFacts(t, h, Some(h));
      QueueIs(t, h);
      var u := queue[h][0];
      assert u in Queue(s, h);
      DisableBoundShape(s, q, side.isIn, cb);
      DrainStart(t, h, q, side, u, cb);
      AdvanceSchedule(u, Side(side.num, PipeIn(u)), false, Refusing(First(cb), h), Some(h));
      var rest := Rest(cb);
      while h in queue && queue[h] != []
        invariant DrainBound(Snapshot(), h, q, side.isIn, rest, |Queue(Snapshot(), h)|) == DisableQh(s, q, side.isIn, cb)
        invariant Queue(Snapshot(), h) != [] ==> Draining(Snapshot(), h, q, side.isIn, |Queue(Snapshot(), h)|)
        invariant Queue(Snapshot(), h) != [] ==> q in qhs && qhs[q].hw == side.num
        decreases |Queue(Snapshot(), h)|
      {
        QueueIs(Snapshot(), h);
        ghost var r := Snapshot();
        DrainBoundStep(r, h, q, side.isIn, rest, |Queue(r, h)|);
        DrainNext(r, h, q, side.isIn, rest, |Queue(r, h)|);
        ListFacts(r, h, Some(h));
        assert queue[h][0] in Queue(r, h);
        AdvanceSchedule(queue[h][0], side, false, Refusing(First(rest), h), Some(h));
        rest := Rest(rest);
        DrainNothing(Snapshot(), h, q, side.isIn, rest);
      }
      QueueIs(Snapshot(), h);
      DrainNothing(Snapshot(), h, q, side.isIn, rest);
    }

    /** The other branch: the queue head waits, and is freed once its list is empty. */
    method DrainWaiting(q: nat, h: Endpoint, side: Side, cb: Callbacks, ghost s: State)
      requires q in s.qhs && Snapshot() == SetReady(s, q, false) && s.qhs[q].hep == h && h.kind.Control?
      requires Inv(Snapshot(), Some(h)) && q in qhs && qhs[q] == s.qhs[q].(ready := false)
      requires Queue(Snapshot(), h) == Queue(s, h) && !(side in s.bound && s.bound[side] == q)
      requires side == Side(s.qhs[q].hw, side.isIn) && ring != [] && ring[0] != q
      modifies this
      ensures Snapshot() == DisableQh(s, q, side.isIn, cb)
    {
      hide Inv, Registers, Used, Queue, SetReady, DisableQh, DrainIdle, Giveback, Refusing, First, Rest, Drained, LogsGrow,
        FreeQh;
      ghost var d := DrainIdle(Snapshot(), h, cb, |Queue(s, h)|);
      DisableIdleShape(s, q, side.isIn, cb);
      var rest := cb;
      while h in queue && queue[h] != []
        invariant DrainIdle(Snapshot(), h, rest, |Queue(Snapshot(), h)|) == d
        invariant Inv(Snapshot(), Some(h)) && ring != [] && ring[0] != q
        invariant q in qhs && qhs[q].hep == h && !qhs[q].ready
        decreases |Queue(Snapshot(), h)|
      {
        QueueIs(Snapshot(), h);
        ghost var r := Snapshot();
        DrainIdleUnfold(r, h, rest, |Queue(r, h)|);
        DrainIdleStep(r, h, q, First(rest));
        ListFacts(r, h, Some(h));
        assert queue[h][0] in Queue(r, h);
        GivebackUrb(queue[h][0], false, Refusing(First(rest), h));
        rest := Rest(rest);
      }
      QueueIs(Snapshot(), h);
      DrainedNone(Snapshot(), h);
      Kfree(q, side.isIn);
    }

    /** `musb_h_disable` */
    method HDisable(h: Endpoint, cb: Callbacks)
      requires Inv(Snapshot(), None)
      modifies this
      ensures Snapshot() == Disable(old(Snapshot()), h, cb)
      ensures Inv(Snapshot(), None)
    {
      hide Inv, DisableQh, Registers, Used;
      if h !in hcpriv { return; }
      HcprivFacts(Snapshot(), h);
      DisableHead(hcpriv[h], h.dirIn, cb);
    }

    /** `musb_h_disable` for the placeholder endpoint of `musb_h_pre_disable` */
    method HDisableSide(side: Side, cb: Callbacks)
      requires Inv(Snapshot(), None)
      modifies this
      ensures Snapshot() == DisableSide(old(Snapshot()), side, cb)
      ensures Inv(Snapshot(), None)
    {
      hide Inv, DisableQh, Registers, Used;
      if side !in bound { return; }
      SideOfQh(Snapshot(), side, None);
      DisableHead(bound[side], side.isIn, cb);
    }

    /** `musb_h_pre_disable` */
    method HPreDisable(cb: Side -> Callbacks)
      requires Inv(Snapshot(), None)
      modifies this
      ensures Snapshot() == PreDisable(old(Snapshot()), 0, nEps, cb)
      ensures Inv(Snapshot(), None)
    {
      hide Inv, DisableSide, Snapshot;
      var i := 0;
      while i < nEps
        invariant i <= nEps && Inv(Snapshot(), None)
        invariant PreDisable(Snapshot(), i, nEps, cb) == PreDisable(old(Snapshot()), 0, nEps, cb)
      {
        HDisableSide(Side(i, true), cb(Side(i, true)));
        HDisableSide(Side(i, false), cb(Side(i, false)));
        i := i + 1;
      }
    }

    /** The interrupt handlers, when the first URB of the side is finished. */
    method Interrupt(side: Side, cs: seq<Submission>)
      requires Inv(Snapshot(), None)
      modifies this
      ensures Snapshot() == Complete(old(Snapshot()), side, cs)
      ensures Inv(Snapshot(), None)
    {
      hide Inv, Advance, Registers, Used, Queue;
      ghost var s := Snapshot();
      CompleteKeeps(s, side, cs);
      if side !in bound { return; }
      SideOfQh(s, side, None);
      var h := qhs[bound[side]].hep;
      QueueIs(s, h);
      var urbs := if h in queue then queue[h] else [];
      if urbs == [] { return; }
      ListFacts(s, h, None);
      assert urbs[0] in Queue(s, h);
      AdvanceSchedule(urbs[0], side, false, cs, None);
    }
  }

  lemma LinkIs(s: State, u: Urb)
    ensures Linked(s, u) == WithQueue(s, u.ep, Queue(s, u.ep) + [u])
    ensures Linked(s, u) == s.(queue := Linked(s, u).queue)
  {
  }

  lemma NonEmptyQueues(s: State, open: Option<Endpoint>)
    requires Inv(s, open)
    ensures forall h | h in s.queue :: s.queue[h] != []
  {
    forall h | h in s.queue ensures s.queue[h] != [] { assert QueueOk(s, h); }
  }

  lemma UndoLink(s: State, u: Urb)
    requires u.ep in s.queue ==> s.queue[u.ep] != []
    ensures WithQueue(Linked(s, u), u.ep, Queue(s, u.ep)) == s
  {
  }

  /** The queue head may exist before it is scheduled. */
  lemma AddedEarly(s: State, q: nat, h: Endpoint)
    ensures Schedule(s.(qhs := s.qhs[q := Qh(h, 0, false, true)]), q, h) == Schedule(s, q, h)
  {
    hide Start, Take, FreeEp;
    var y := Qh(h, 0, false, true);
    assert s.qhs[q := y][q := Qh(h, 0, true, true)] == s.qhs[q := Qh(h, 0, true, true)];
    var e := FreeEp(s.bound, s.nEps, h.dirIn, 1);
    if e.Some? {
      assert s.qhs[q := y][q := Qh(h, e.value, false, true)] == s.qhs[q := Qh(h, e.value, false, true)];
    }
  }

  lemma QueueIs(s: State, h: Endpoint)
    ensures Queue(s, h) == if h in s.queue then s.queue[h] else []
  {
  }

  lemma HeldSides(s: State, u: Urb, q: nat, cancel: bool, r: State)
    requires Held(s, u, q, cancel, r)
    ensures q in r.qhs && q in s.qhs && r.qhs[q] == s.qhs[q]
    ensures forall side | side in s.bound :: side in r.bound && r.bound[side] == s.bound[side]
  {
  }

  lemma UnbindRest(s: State, num: nat, isIn: bool)
    ensures Unbind(s, num, isIn) == s.(bound := Unbind(s, num, isIn).bound)
  {
  }

  /** What a queue head owns when it is retired. */
  lemma RetireFacts(s: State, q: nat)
    requires q in s.qhs && Inv(s, Some(s.qhs[q].hep))
    ensures s.qhs[q].mux <==> s.qhs[q].hep.kind.Control?
    ensures s.qhs[q].hep.kind.Control? ==> s.qhs[q].hw == 0
    ensures !s.qhs[q].hep.kind.Control? ==>
      var side := Side(s.qhs[q].hw, s.qhs[q].hep.dirIn);
      && side in s.pool.held && s.pool.held[side].len == Units(s.qhs[q].hep.maxPacket)
      && s.pool.held[side].start + s.pool.held[side].len <= TOTAL_SLOTS
  {
    hide LogOk, QueuesOk, NoDup, SidesOk, EndpointsOk;
    assert QhOk(s, q, Some(s.qhs[q].hep));
  }

  /** The next queue head of the ring is live and has an URB to start. */
  lemma RetireNext(s: State, q: nat, n: nat, isIn: bool)
    requires q in s.qhs && Inv(s, Some(s.qhs[q].hep)) && s.ring != [] && s.ring[0] == q
    requires FollowPrev(s.ring, q) == Entry(n) && s.qhs[q].hep.kind.Control?
    ensures var t := FreeQh(Unbind(s, s.qhs[q].hw, isIn), q, isIn);
      n in t.qhs && t.qhs[n].ready && Queue(t, t.qhs[n].hep) != []
  {
    hide LogOk, QueuesOk, SidesOk, EndpointsOk, PoolHeld, FreeQh, Unbind, Queue;
    FollowPrevOfHead(s.ring);
    assert n == s.ring[1] && n != q && n in s.qhs;
    NextReady(s, q, n);
    assert s.qhs[q].hw == 0 by { RetireFacts(s, q); }
    UnbindQhs(s, 0, isIn);
    FreeHead(s, q, isIn);
    SameQueue(s, FreeQh(Unbind(s, 0, isIn), q, isIn), s.qhs[n].hep);
  }

  lemma {:induction false} DrainNothing(s: State, h: Endpoint, q: nat, isIn: bool, cb: Callbacks)
    ensures DrainBound(s, h, q, isIn, cb, 0) == s
  {
  }

  lemma {:induction false} DisableIdleShape(s: State, q: nat, isIn: bool, cb: Callbacks)
    requires q in s.qhs && var side := Side(s.qhs[q].hw, isIn); !(side in s.bound && s.bound[side] == q)
    ensures var d := DrainIdle(SetReady(s, q, false), s.qhs[q].hep, cb, |Queue(s, s.qhs[q].hep)|);
      DisableQh(s, q, isIn, cb) == if q in d.qhs then FreeQh(d, q, isIn) else Fault(d)
  {
    hide DrainIdle, SetReady, Queue;
  }

  /** Only a control queue head loses its last URB without being programmed. */
  lemma DequeueIdleOwner(s: State, u: Urb, side: Side, cs: seq<Submission>)
    requires Inv(s, None) && u in Queue(s, u.ep) && u.ep in s.hcpriv && s.hcpriv[u.ep] in s.qhs
    requires s.qhs[s.hcpriv[u.ep]].hep == u.ep && side == Side(s.qhs[s.hcpriv[u.ep]].hw, PipeIn(u))
    requires Queue(s, u.ep)[0] != u || side !in s.bound || s.bound[side] != s.hcpriv[u.ep]
    ensures Queue(Returned(s, u, s.hcpriv[u.ep], true, cs), u.ep) == [] ==> u.ep.kind.Control?
  {
    hide Inv, Queue, Without, Giveback, SetReady, Returned;
    var q := s.hcpriv[u.ep];
    QhFacts(s, q, None);
    ReturnedKeeps(s, u, q, true, cs, None);
    if Queue(Returned(s, u, q, true, cs), u.ep) == [] {
      assert Queue(s, u.ep)[0] == u by { OnlyElement(Queue(s, u.ep), u); }
    }
  }

  lemma DrainStart(t: State, h: Endpoint, q: nat, side: Side, u: Urb, cb: Callbacks)
    requires Inv(t, Some(h)) && q in t.qhs && t.qhs[q].hep == h && !t.qhs[q].ready && t.qhs[q].hw == side.num
    requires Queue(t, h) != [] && Queue(t, h)[0] == u && side in t.bound && t.bound[side] == q
    requires var x := Side(side.num, PipeIn(u)); x in t.bound && t.bound[x] == q
    ensures var r := Advance(t, u, Side(side.num, PipeIn(u)), false, Refusing(First(cb), h));
      && Queue(r, h) == Queue(t, h)[1..]
      && (Queue(r, h) != [] ==> Draining(r, h, q, side.isIn, |Queue(r, h)|) && q in r.qhs && r.qhs[q].hw == side.num)
  {
    hide Inv, Advance, Queue, Refusing, First, Returned, Dropped, LogsGrow;
    DrainStep(t, h, q, Side(side.num, PipeIn(u)), First(cb));
  }

  lemma DrainNext(r: State, h: Endpoint, q: nat, isIn: bool, cb: Callbacks, n: nat)
    requires Draining(r, h, q, isIn, n) && n >= 1
    ensures var t := Advance(r, Queue(r, h)[0], Side(r.qhs[q].hw, isIn), false, Refusing(First(cb), h));
      && |Queue(t, h)| == n - 1
      && (n > 1 ==> q in t.qhs && t.qhs[q].hw == r.qhs[q].hw)
  {
    hide Inv, Advance, Queue, Refusing, First, Returned, Dropped, LogsGrow;
    DrainStep(r, h, q, Side(r.qhs[q].hw, isIn), First(cb));
  }

  lemma DequeueIdleShape(s: State, u: Urb, refused: bool, cs: seq<Submission>)
    requires !refused && u in Queue(s, u.ep) && u in s.urbQh && s.urbQh[u] in s.qhs && s.qhs[s.urbQh[u]].ready
    requires var q := s.urbQh[u];
      && q in Giveback(SetReady(s, q, false), u, true, cs).qhs
      && q in Returned(s, u, q, true, cs).qhs && Returned(s, u, q, true, cs).qhs[q].hep == u.ep
    requires var side := Side(s.qhs[s.urbQh[u]].hw, PipeIn(u));
      Queue(s, u.ep)[0] != u || side !in s.bound || s.bound[side] != s.urbQh[u]
    ensures var q, r := s.urbQh[u], Returned(s, u, s.urbQh[u], true, cs);
      Dequeue(s, u, refused, cs) == if Queue(r, u.ep) == [] then FreeQh(r, q, PipeIn(u)) else r
  {
    hide Queue, SetReady, Giveback, FreeQh;
  }
}
