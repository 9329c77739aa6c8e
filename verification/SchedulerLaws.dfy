/** What each entry point of the host scheduler does, in terms of its state before and
    after: which URBs are accepted, given back or stay, and what a queue head gets or loses. */
module SchedulerLaws {
  import opened Wrappers
  import opened Slots
  import opened Scheduler
  import opened SchedulerInvariant
  import opened SchedulerGiveback
  import opened SchedulerAdvance
  import opened SchedulerRuns
  import opened SchedulerOpens

  // ----- Completion and cancellation -----

  /** What the completion callback of `u` finds, cancelled or not. */
  function AtCallback(s: State, q: nat, u: Urb, cancel: bool): State { Unlinked(SetReady(s, q, false), u, cancel) }

  /** One URB left its endpoint in state `s`; its callback submitted `cs`. */
  ghost predicate Gone(s: State, u: Urb, q: nat, cancel: bool, cs: seq<Submission>, t: State) {
    && t.given == s.given + [u]
    && t.cancelled == (if cancel then s.cancelled + {u} else s.cancelled)
    && t.submitted == EnqueueAll(AtCallback(s, q, u, cancel), cs).submitted
    // the other URBs stay, in order, and what the callback submits joins behind them
    && Without(Queue(s, u.ep), u) <= Queue(t, u.ep) && u !in Queue(t, u.ep)
    && (forall k | k != u.ep :: Queue(s, k) <= Queue(t, k))
    // the endpoint keeps its queue head exactly while it has URBs
    && (u.ep in t.hcpriv <==> Queue(t, u.ep) != [])
    && (u.ep in t.hcpriv ==> t.hcpriv[u.ep] == q && q in t.qhs && t.qhs[q].hep == u.ep)
    // the ring keeps its order, and no other endpoint above 0 is touched
    && (if u.ep in t.hcpriv then s.ring else Without(s.ring, q)) <= t.ring
    && (forall x | x in s.bound && x.num > 0 && (u.ep in t.hcpriv || s.bound[x] != q) ::
          x in t.bound && t.bound[x] == s.bound[x])
    && t.host == s.host && t.active == s.active && t.nEps == s.nEps
  }

  /** Everything but the fate of the queue head, before it is decided. */
  ghost predicate Back(s: State, u: Urb, q: nat, cancel: bool, cs: seq<Submission>, r: State) {
    && r.given == s.given + [u]
    && r.cancelled == (if cancel then s.cancelled + {u} else s.cancelled)
    && r.submitted == EnqueueAll(AtCallback(s, q, u, cancel), cs).submitted
    && Without(Queue(s, u.ep), u) <= Queue(r, u.ep)
    && (forall k | k != u.ep :: Queue(s, k) <= Queue(r, k))
    && u.ep in r.hcpriv && r.hcpriv[u.ep] == q
    && s.ring <= r.ring && (forall x | x in s.bound :: x in r.bound && r.bound[x] == s.bound[x])
    && r.host == s.host && r.active == s.active && r.nEps == s.nEps
  }

  lemma {:induction false} UnlinkedOthers(s: State, u: Urb, q: nat, cancel: bool)
    requires QueuesOk(s) && u in Queue(s, u.ep)
    ensures var c := Unlinked(s, u, cancel);
      && (forall k | k != u.ep :: Queue(c, k) == Queue(s, k)) && Queue(c, u.ep) == Without(Queue(s, u.ep), u)
      && c.given == s.given + [u] && c.cancelled == (if cancel then s.cancelled + {u} else s.cancelled)
      && c.hcpriv == s.hcpriv
  {
    hide Queue, Without;
    UnlinkQueues(s, u, cancel);
  }

  lemma ReadyLeaves(s: State, q: nat, ready: bool)
    requires q in s.qhs
    ensures var t := SetReady(s, q, ready);
      && t.queue == s.queue && t.given == s.given && t.cancelled == s.cancelled && t.submitted == s.submitted
      && t.hcpriv == s.hcpriv && t.qhs.Keys == s.qhs.Keys
  {
  }

  lemma {:induction false} ReturnedBack(s: State, u: Urb, q: nat, cancel: bool, cs: seq<Submission>)
    requires Inv(s, None) && q in s.qhs && s.qhs[q].hep == u.ep && u in Queue(s, u.ep)
    requires cancel || Queue(s, u.ep)[0] == u
    ensures Back(s, u, q, cancel, cs, Returned(s, u, q, cancel, cs))
  {
    hide Inv, Queue, Without, SetReady, EnqueueAll, QueuesOk, Unlinked;
    var t := SetReady(s, q, false);
    var c := AtCallback(s, q, u, cancel);
    var g := EnqueueAll(c, cs);
    ReadyLeaves(s, q, false);
    forall k ensures Queue(t, k) == Queue(s, k) { SameQueue(s, t, k); }
    SetReadyKeeps(s, q, false, None, Some(u.ep));
    QueuesOfInv(t, Some(u.ep));
    UnlinkedOthers(t, u, q, cancel);
    GivebackKeeps(t, u, cancel, cs);
    GrowsParts(c, g, u.ep);
    ReturnedKeeps(s, u, q, cancel, cs, None);
    ReadyLeaves(g, q, s.qhs[q].ready);
    var r := Returned(s, u, q, cancel, cs);
    forall k ensures Queue(r, k) == Queue(g, k) { SameQueue(g, r, k); }
    QhFacts(s, q, None);
    HeldFrame(s, u, q, cancel, r);
  }

  lemma HeldFrame(s: State, u: Urb, q: nat, cancel: bool, r: State)
    requires Held(s, u, q, cancel, r)
    ensures s.ring <= r.ring && (forall x | x in s.bound :: x in r.bound && r.bound[x] == s.bound[x])
    ensures r.host == s.host && r.active == s.active && r.nEps == s.nEps
  {
  }

  /** What a queue head leaves alone when it goes. */
  ghost predicate Leaves(r: State, q: nat, t: State) {
    && t.given == r.given && t.cancelled == r.cancelled && t.submitted == r.submitted && t.queue == r.queue
    && t.ring == Without(r.ring, q)
    && (forall x | x in r.bound && x.num > 0 && r.bound[x] != q :: x in t.bound && t.bound[x] == r.bound[x])
    && t.host == r.host && t.active == r.active && t.nEps == r.nEps
  }

  lemma GrowsParts(s: State, t: State, h: Endpoint)
    requires Grows(s, t)
    ensures t.given == s.given && t.cancelled == s.cancelled && (forall k :: Queue(s, k) <= Queue(t, k))
    ensures h in s.hcpriv ==> h in t.hcpriv && t.hcpriv[h] == s.hcpriv[h]
  {
    hide Queue;
  }

  /** The queue head stays or goes with the list. */
  lemma BackIsGone(s: State, u: Urb, q: nat, cancel: bool, cs: seq<Submission>, r: State, t: State)
    requires Back(s, u, q, cancel, cs, r) && Inv(t, None) && NoDup(r.ring)
    requires if Queue(r, u.ep) == [] then Leaves(r, q, t) && u.ep !in t.hcpriv else t == r
    ensures Gone(s, u, q, cancel, cs, t)
  {
    hide Inv, Queue, Without, EnqueueAll, AtCallback;
    forall k ensures Queue(t, k) == Queue(r, k) { SameQueue(r, t, k); }
    if u.ep in t.hcpriv { HcprivFacts(t, u.ep); }
    GivenNotQueued(t, u);
    if Queue(r, u.ep) == [] { WithoutPrefix(s.ring, r.ring, q); }
  }

  lemma {:induction false} WithoutPrefix(a: seq<nat>, b: seq<nat>, q: nat)
    requires a <= b && NoDup(b)
    ensures Without(a, q) <= Without(b, q)
  {
    hide Without;
    var more := b[|a|..];
    assert b == a + more;
    if q in a {
      WithoutFound(a, more, q);
    } else {
      WithoutConcat(a, more, q);
      WithoutConcat(a, [], q);
      NothingWithout(q);
      assert a + [] == a;
    }
  }

  lemma {:induction false} NothingWithout(q: nat)
    ensures Without([], q) == []
  {
  }

  lemma {:induction false} WithoutFound(a: seq<nat>, more: seq<nat>, q: nat)
    requires q in a
    ensures Without(a + more, q) == Without(a, q) + more
  {
    if a[0] == q {
      assert (a + more)[1..] == a[1..] + more;
    } else {
      assert (a + more)[1..] == a[1..] + more;
      WithoutFound(a[1..], more, q);
    }
  }

  lemma RingNoDup(s: State, open: Option<Endpoint>)
    requires Inv(s, open)
    ensures NoDup(s.ring) && forall q | q in s.ring :: q in s.qhs && s.qhs[q].hep.kind.Control?
  {
  }

  lemma GivenNotQueued(t: State, u: Urb)
    requires Inv(t, None)
    ensures u in t.given ==> u !in Queue(t, u.ep)
  {
    assert UrbOk(t, u);
  }

  /** Where a queue head is bound, and whether it is in the ring. */
  lemma WhereBound(r: State, side: Side, open: Option<Endpoint>)
    requires Inv(r, open) && side in r.bound
    ensures var q := r.bound[side];
      && q in r.qhs && NoDup(r.ring)
      && (if r.qhs[q].hep.kind.Control? then r.ring != [] && r.ring[0] == q
          else q !in r.ring && side == Side(r.qhs[q].hw, r.qhs[q].hep.dirIn))
  {
    hide Inv;
    RingNoDup(r, open);
    SideOfQh(r, side, open);
  }

  lemma DroppedLeaves(r: State, side: Side, open: Option<Endpoint>)
    requires Inv(r, open) && side in r.bound && r.bound[side] in r.qhs
    requires r.qhs[r.bound[side]].hep.kind.Control? ==> r.ring != []
    ensures var q := r.bound[side]; Leaves(r, q, Dropped(r, q)) && r.qhs[q].hep !in Dropped(r, q).hcpriv
  {
    hide Inv, DroppedHead, DroppedBound, Leaves;
    WhereBound(r, side, open);
    var q := r.bound[side];
    if r.qhs[q].hep.kind.Control? { HeadLeaves(r, q); } else { BoundLeaves(r, q); }
  }

  lemma HeadLeaves(r: State, q: nat)
    requires q in r.qhs && r.ring != [] && r.ring[0] == q
    ensures Leaves(r, q, DroppedHead(r, q)) && r.qhs[q].hep !in DroppedHead(r, q).hcpriv
  {
    WithoutFirst(r.ring);
  }

  lemma BoundLeaves(r: State, q: nat)
    requires q in r.qhs && q !in r.ring
    requires var x := Side(r.qhs[q].hw, r.qhs[q].hep.dirIn); x in r.bound && r.bound[x] == q
    ensures Leaves(r, q, DroppedBound(r, q)) && r.qhs[q].hep !in DroppedBound(r, q).hcpriv
  {
    hide Without;
    WithoutConcat(r.ring, [], q);
    NothingWithout(q);
    assert r.ring + [] == r.ring;
  }

  lemma AdvanceGone(s: State, u: Urb, side: Side, cancel: bool, cs: seq<Submission>)
    requires Inv(s, None) && side in s.bound && s.bound[side] in s.qhs && s.qhs[s.bound[side]].hep == u.ep
    requires u in Queue(s, u.ep) && (cancel || Queue(s, u.ep)[0] == u)
    ensures Gone(s, u, s.bound[side], cancel, cs, Advance(s, u, side, cancel, cs))
  {
    hide Inv, Queue, Without, Advance, Returned, Back, Gone, NoDup, Leaves;
    var q := s.bound[side];
    var r, t := Returned(s, u, q, cancel, cs), Advance(s, u, side, cancel, cs);
    QhFacts(s, q, None);
    AdvanceKeeps(s, u, side, cancel, cs, None);
    ReturnedBack(s, u, q, cancel, cs);
    AdvanceHeld(s, u, q, cancel, r);
    RingNoDup(r, Some(u.ep));
    if Queue(r, u.ep) == [] { DroppedLeaves(r, side, Some(u.ep)); }
    BackIsGone(s, u, q, cancel, cs, r, t);
  }

  lemma AdvanceHeld(s: State, u: Urb, q: nat, cancel: bool, r: State)
    requires Held(s, u, q, cancel, r)
    ensures q in r.qhs && q in s.qhs && r.qhs[q] == s.qhs[q]
    ensures forall x | x in s.bound :: x in r.bound && r.bound[x] == s.bound[x]
  {
  }

  /** An interrupt that completes a side gives back the first URB of its queue head,
      and no other; on an unbound side it does nothing. */
  lemma FinishExact(s: State, side: Side, cs: seq<Submission>)
    requires Inv(s, None)
    ensures side !in s.bound ==> Step(s, Finish(side, cs)) == s
    ensures side in s.bound ==>
      && s.bound[side] in s.qhs && Queue(s, s.qhs[s.bound[side]].hep) != []
      && var h := s.qhs[s.bound[side]].hep;
         var u, t := Queue(s, h)[0], Step(s, Finish(side, cs));
         && u.ep == h && Gone(s, u, s.bound[side], false, cs, t) && Queue(s, h)[1..] <= Queue(t, h)
  {
    hide Inv, Queue, Advance, Gone;
    if side in s.bound {
      SideOfQh(s, side, None);
      var q := s.bound[side];
      var h := s.qhs[q].hep;
      QhFacts(s, q, None);
      ListFacts(s, h, None);
      var u := Queue(s, h)[0];
      assert u in Queue(s, h);
      AdvanceGone(s, u, side, false, cs);
      GoneParts(s, u, q, false, cs, Advance(s, u, side, false, cs));
      WithoutFirst(Queue(s, h));
    }
  }

  lemma {:induction false} GoneParts(s: State, u: Urb, q: nat, cancel: bool, cs: seq<Submission>, t: State)
    requires Gone(s, u, q, cancel, cs, t)
    ensures Without(Queue(s, u.ep), u) <= Queue(t, u.ep)
  {
  }

  /** A dequeue that is not refused gives back the URB if it is queued, wherever it is in
      its list, and no other; in every other case it does nothing. */
  lemma UnlinkExact(s: State, u: Urb, refused: bool, cs: seq<Submission>)
    requires Inv(s, None)
    ensures refused || u !in Queue(s, u.ep) ==> Step(s, Unlink(u, refused, cs)) == s
    ensures !refused && u in Queue(s, u.ep) ==>
      && u in s.urbQh && u.ep in s.hcpriv && s.urbQh[u] == s.hcpriv[u.ep]
      && Gone(s, u, s.hcpriv[u.ep], true, cs, Step(s, Unlink(u, refused, cs)))
    ensures Step(s, Unlink(u, refused, cs)).given
            == s.given + if !refused && u in Queue(s, u.ep) then [u] else []
  {
    hide Inv, Queue, Advance, Gone, Giveback, SetReady, FreeQh, Returned, Without, NoDup, Leaves;
    if !refused && u in Queue(s, u.ep) {
      ListFacts(s, u.ep, None);
      var q := s.urbQh[u];
      QhFacts(s, q, None);
      var side := Side(s.qhs[q].hw, PipeIn(u));
      var t := Dequeue(s, u, refused, cs);
      if Queue(s, u.ep)[0] != u || side !in s.bound || s.bound[side] != q {
        DequeueIdleShape(s, u, side, cs);
        DequeueIdleKeeps(s, u, side, cs);
        ReturnedBack(s, u, q, true, cs);
        var r := Returned(s, u, q, true, cs);
        ReturnedKeeps(s, u, q, true, cs, None);
        RingNoDup(r, Some(u.ep));
        if Queue(r, u.ep) == [] { FreeLeaves(r, q, side.isIn); }
        BackIsGone(s, u, q, true, cs, r, t);
      } else {
        AdvanceGone(s, u, side, true, cs);
      }
      GoneGiven(s, u, q, cs, t);
    }
  }

  lemma GoneGiven(s: State, u: Urb, q: nat, cs: seq<Submission>, t: State)
    requires Gone(s, u, q, true, cs, t)
    ensures t.given == s.given + [u]
  {
  }

  lemma FreeLeaves(r: State, q: nat, isIn: bool)
    requires q in r.qhs
    ensures Leaves(r, q, FreeQh(r, q, isIn)) && r.qhs[q].hep !in FreeQh(r, q, isIn).hcpriv
  {
  }

  /** The branch of a queue head that is not programmed into the hardware. */
  lemma DequeueIdleShape(s: State, u: Urb, side: Side, cs: seq<Submission>)
    requires Inv(s, None) && u in Queue(s, u.ep) && u.ep in s.hcpriv && s.hcpriv[u.ep] in s.qhs && u in s.urbQh
    requires s.urbQh[u] == s.hcpriv[u.ep] && s.qhs[s.hcpriv[u.ep]].hep == u.ep && s.qhs[s.hcpriv[u.ep]].ready
    requires side == Side(s.qhs[s.hcpriv[u.ep]].hw, PipeIn(u))
    requires Queue(s, u.ep)[0] != u || side !in s.bound || s.bound[side] != s.hcpriv[u.ep]
    ensures var q := s.hcpriv[u.ep];
      var r := Returned(s, u, q, true, cs);
      && q in r.qhs && r.qhs[q].hep == u.ep
      && Dequeue(s, u, false, cs) == (if Queue(r, u.ep) == [] then FreeQh(r, q, side.isIn) else r)
  {
    hide Inv, Queue, Giveback, SetReady, FreeQh;
    DequeueIdleKeeps(s, u, side, cs);
  }

  // ----- Submission -----

  ghost predicate FreeSide(s: State, e: nat, isIn: bool) { 1 <= e < s.nEps && Side(e, isIn) !in s.bound }

  ghost predicate FreeSlots(s: State, start: nat, units: nat) { IsFree(s.pool.used, Run(start, units), TOTAL_SLOTS) }

  /** A queue head of endpoint `h` could be scheduled. */
  ghost predicate Room(s: State, h: Endpoint) {
    h.kind.Control?
    || ((exists e: nat :: FreeSide(s, e, h.dirIn)) && (exists start: nat :: FreeSlots(s, start, Units(h.maxPacket))))
  }

  lemma ScheduleExact(s: State, q: nat, h: Endpoint)
    ensures Schedule(s, q, h).Some? <==> Room(s, h)
  {
    hide Start, AddQh;
    if !h.kind.Control? {
      FreeEpIsLowest(s.bound, s.nEps, h.dirIn, 1);
      FirstFreeIsLowest(s.pool.used, Units(h.maxPacket), TOTAL_SLOTS, 0);
      match FreeEp(s.bound, s.nEps, h.dirIn, 1) {
        case None => assert forall e: nat :: !FreeSide(s, e, h.dirIn);
        case Some(e) => assert FreeSide(s, e, h.dirIn);
      }
      match FirstFree(s.pool.used, Units(h.maxPacket), TOTAL_SLOTS, 0) {
        case None => assert forall start: nat :: !FreeSlots(s, start, Units(h.maxPacket));
        case Some(f) => assert FreeSlots(s, f, Units(h.maxPacket));
      }
    }
  }

  lemma RoomSame(s: State, t: State, h: Endpoint)
    requires t.bound == s.bound && t.nEps == s.nEps && t.pool == s.pool
    ensures Room(t, h) <==> Room(s, h)
  {
    forall e: nat ensures FreeSide(t, e, h.dirIn) <==> FreeSide(s, e, h.dirIn) { }
    forall f: nat ensures FreeSlots(t, f, Units(h.maxPacket)) <==> FreeSlots(s, f, Units(h.maxPacket)) { }
    if Room(s, h) && !h.kind.Control? {
      var e: nat, f: nat :| FreeSide(s, e, h.dirIn) && FreeSlots(s, f, Units(h.maxPacket));
      assert FreeSide(t, e, h.dirIn) && FreeSlots(t, f, Units(h.maxPacket));
    }
    if Room(t, h) && !h.kind.Control? {
      var e: nat, f: nat :| FreeSide(t, e, h.dirIn) && FreeSlots(t, f, Units(h.maxPacket));
      assert FreeSide(s, e, h.dirIn) && FreeSlots(s, f, Units(h.maxPacket));
    }
  }

  /** The result of a submission, by what the state and the core answer. */
  lemma SubmitCode(s: State, c: Submission)
    ensures var r, h := Enqueue(s, c).1, c.urb.ep;
      if !s.host || !s.active then r == ENODEV
      else if c.linkError != 0 then r == c.linkError
      else if c.urb in s.submitted then r == EBUSY
      else if h in s.hcpriv then r == 0
      else if c.newQh.None? || c.newQh.value in s.qhs then r == ENOMEM
      else r == (if Room(s, h) then 0 else ENOSPC)
  {
    hide Schedule, Room;
    if c.newQh.Some? {
      ScheduleExact(Linked(s, c.urb), c.newQh.value, c.urb.ep);
      RoomSame(s, Linked(s, c.urb), c.urb.ep);
    }
  }

  /** An accepted URB is the last of its endpoint's list. */
  ghost predicate Joined(s: State, u: Urb, t: State) {
    && t.submitted == s.submitted + [u] && t.given == s.given && t.cancelled == s.cancelled
    && Queue(t, u.ep) == Queue(s, u.ep) + [u] && (forall k | k != u.ep :: Queue(t, k) == Queue(s, k))
    && u.ep in t.hcpriv && u in t.urbQh && t.urbQh[u] == t.hcpriv[u.ep]
  }

  /** ... and its endpoint has a queue head: the one it had; or a new one, which a control
      endpoint adds to the ring, and another binds to the lowest endpoint and the lowest
      slots that are free. */
  ghost predicate Served(s: State, u: Urb, newQh: Option<nat>, t: State) {
    if u.ep in s.hcpriv then t.hcpriv == s.hcpriv && t.ring == s.ring && t.bound == s.bound && t.pool == s.pool
    else
      && newQh.Some? && newQh.value !in s.qhs && t.hcpriv == s.hcpriv[u.ep := newQh.value]
      && if u.ep.kind.Control? then t.ring == s.ring + [newQh.value] && t.pool == s.pool
         else t.ring == s.ring && exists e: nat, start: nat :: Takes(s, u.ep, newQh.value, e, start, t)
  }

  ghost predicate Takes(s: State, h: Endpoint, q: nat, e: nat, start: nat, t: State) {
    && FreeSide(s, e, h.dirIn) && (forall f: nat | f < e :: !FreeSide(s, f, h.dirIn))
    && t.bound == s.bound[Side(e, h.dirIn) := q]
    && FreeSlots(s, start, Units(h.maxPacket))
    && (forall f: nat | f < start :: !FreeSlots(s, f, Units(h.maxPacket)))
    && t.pool.held == s.pool.held[Side(e, h.dirIn) := Run(start, Units(h.maxPacket))]
    && t.pool.used == s.pool.used + Cells(Run(start, Units(h.maxPacket)))
  }

  lemma LinkedJoins(s: State, u: Urb, q: nat, t: State)
    requires t.queue == Linked(s, u).queue && t.submitted == s.submitted + [u]
    requires t.given == s.given && t.cancelled == s.cancelled
    requires t.urbQh == s.urbQh[u := q] && u.ep in t.hcpriv && t.hcpriv[u.ep] == q
    ensures Joined(s, u, t)
  {
  }

  lemma BoundTakes(s: State, u: Urb, q: nat, e: nat, p: Pool<Side>)
    requires 1 <= e < s.nEps && Side(e, u.ep.dirIn) !in s.bound
    requires forall f | 1 <= f < e :: Side(f, u.ep.dirIn) in s.bound
    requires Take(s.pool, Side(e, u.ep.dirIn), Units(u.ep.maxPacket), TOTAL_SLOTS) == Some(p)
    ensures exists f: nat :: Takes(s, u.ep, q, e, f, NewBound(s, u, q, e, p))
  {
    hide Queue, Linked;
    FirstFreeIsLowest(s.pool.used, Units(u.ep.maxPacket), TOTAL_SLOTS, 0);
    var f := FirstFree(s.pool.used, Units(u.ep.maxPacket), TOTAL_SLOTS, 0).value;
    assert Takes(s, u.ep, q, e, f, NewBound(s, u, q, e, p));
  }

  /** A submission that succeeds links its URB and serves its endpoint; one that fails
      changes nothing. */
  lemma SubmitExact(s: State, c: Submission)
    ensures var (t, r) := Enqueue(s, c);
      if r == 0 then Joined(s, c.urb, t) && Served(s, c.urb, c.newQh, t) else t == s
  {
    hide Linked, Schedule, Joined, Takes, NewBound, Queue;
    var u, h := c.urb, c.urb.ep;
    if s.host && s.active && LinkResult(s, c) == 0 {
      if h in s.hcpriv {
        AcceptedIs(s, u, s.hcpriv[h]);
        LinkedJoins(s, u, s.hcpriv[h], Enqueue(s, c).0);
      } else if c.newQh.Some? && c.newQh.value !in s.qhs {
        var q := c.newQh.value;
        if h.kind.Control? {
          NewControlShape(s, u, q);
          LinkedJoins(s, u, q, NewControl(s, u, q));
        } else if Schedule(Linked(s, u), q, h).Some? {
          var e, p := NewBoundShape(s, u, q);
          BoundTakes(s, u, q, e, p);
          NewBoundIs(s, u, q, e, p);
          LinkedJoins(s, u, q, NewBound(s, u, q, e, p));
        }
      }
    }
  }

  lemma AcceptedIs(s: State, u: Urb, q: nat)
    ensures var t := Accepted(Linked(s, u), u, q);
      && t.queue == Linked(s, u).queue && t.submitted == s.submitted + [u] && t.given == s.given
      && t.cancelled == s.cancelled && t.urbQh == s.urbQh[u := q] && t.hcpriv == s.hcpriv
      && t.ring == s.ring && t.bound == s.bound && t.pool == s.pool
  {
  }

  lemma NewBoundIs(s: State, u: Urb, q: nat, e: nat, p: Pool<Side>)
    ensures var t := NewBound(s, u, q, e, p);
      && t.queue == Linked(s, u).queue && t.submitted == s.submitted + [u] && t.given == s.given
      && t.cancelled == s.cancelled && t.urbQh == s.urbQh[u := q] && t.hcpriv == s.hcpriv[u.ep := q]
      && t.ring == s.ring
  {
  }

  /** A submission to the endpoint that is being disabled fails with ENOENT, unless the
      core or the driver refuses it for another reason first, and links nothing; one to
      another endpoint is not affected. */
  lemma DisabledRefuses(s: State, h: Endpoint, cs: seq<Submission>, i: nat)
    requires i < |cs|
    ensures |Refusing(cs, h)| == |cs|
    ensures var c := Refusing(cs, h)[i];
      if cs[i].urb.ep != h then c == cs[i]
      else
        && c.urb == cs[i].urb && Enqueue(s, c).0 == s
        && Enqueue(s, c).1 == if !s.host || !s.active then ENODEV else if cs[i].linkError != 0 then cs[i].linkError
                                   else ENOENT
  {
    hide Schedule, Queue;
  }
}
