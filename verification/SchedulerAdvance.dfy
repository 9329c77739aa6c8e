/** `musb_advance_schedule`, and the queue heads it frees from the control ring. */
module SchedulerAdvance {
  import opened Wrappers
  import opened Slots
  import opened Scheduler
  import opened SchedulerInvariant
  import opened SchedulerGiveback

  // ----- The control ring -----

  /** The first control queue head goes; endpoint 0 moves on to the second. */
  function DroppedHead(s: State, q: nat): State
    requires q in s.qhs && s.ring != []
  {
    s.(bound := if |s.ring| == 1 then s.bound - {Side(0, true), Side(0, false)}
                else s.bound + map[Side(0, true) := s.ring[1], Side(0, false) := s.ring[1]],
       hcpriv := s.hcpriv - {s.qhs[q].hep}, ring := s.ring[1..], qhs := s.qhs - {q})
  }

  /** A control queue head leaves the ring without touching endpoint 0. */
  function DroppedIdle(s: State, q: nat): State
    requires q in s.qhs
  {
    s.(hcpriv := s.hcpriv - {s.qhs[q].hep}, ring := Without(s.ring, q), qhs := s.qhs - {q})
  }

  /** Why `head = qh->ring.prev` is right: the retired queue head is first. */
  lemma FollowPrevOfHead(ring: seq<nat>)
    requires ring != []
    ensures FollowPrev(ring, ring[0]) == if |ring| == 1 then NoQh else Entry(ring[1])
  {
  }

  /** ... and would be wrong for the last of several: it reads the list head as a queue head. */
  lemma FollowPrevOfLast(ring: seq<nat>)
    requires |ring| > 1 && NoDup(ring)
    ensures FollowPrev(ring, ring[|ring| - 1]) == ListHead
  {
    var i := IndexOf(ring, ring[|ring| - 1]);
    assert ring[i] == ring[|ring| - 1];
  }

  lemma StartZero(t: State, n: nat, isIn: bool)
    requires n in t.qhs && t.qhs[n].ready && t.qhs[n].hw == 0 && t.qhs[n].hep.kind.Control?
    requires Queue(t, t.qhs[n].hep) != []
    ensures StartIfReady(t, n, isIn) == t.(bound := t.bound + map[Side(0, true) := n, Side(0, false) := n])
  {
    hide Queue;
    BindZero(t, n);
  }

  /** `n` is in order while the URB of another endpoint is being given back. */
  lemma NextReady(s: State, q: nat, n: nat)
    requires q in s.qhs && n in s.qhs && n != q && QhsOk(s, Some(s.qhs[q].hep)) && s.qhs[n].hep.kind.Control?
    ensures s.qhs[n].ready && s.qhs[n].hw == 0 && s.qhs[n].hep != s.qhs[q].hep && Queue(s, s.qhs[n].hep) != []
  {
    assert QhOk(s, n, Some(s.qhs[q].hep)) && QhOk(s, q, Some(s.qhs[q].hep));
  }

  lemma UnbindQhs(s: State, num: nat, isIn: bool)
    ensures Unbind(s, num, isIn).qhs == s.qhs
  {
  }

  lemma FreeHead(s: State, q: nat, isIn: bool)
    requires q in s.qhs && s.qhs[q].hep.kind.Control? && s.ring != [] && s.ring[0] == q
    ensures FreeQh(Unbind(s, 0, isIn), q, isIn)
         == s.(bound := s.bound - {Side(0, true), Side(0, false)},
               hcpriv := s.hcpriv - {s.qhs[q].hep}, ring := s.ring[1..], qhs := s.qhs - {q})
  {
    assert Without(s.ring, q) == s.ring[1..];
  }

  lemma RetireHeadShape(s: State, q: nat, isIn: bool)
    requires q in s.qhs && QhsOk(s, Some(s.qhs[q].hep)) && RingOk(s) && s.ring != [] && s.ring[0] == q
    ensures RetireQh(s, q, isIn) == DroppedHead(s, q)
  {
    hide FollowPrev, FreeQh, Unbind, StartIfReady, Queue;
    assert s.qhs[q].hw == 0 && s.qhs[q].mux && s.qhs[q].hep.kind.Control? by {
      assert QhOk(s, q, Some(s.qhs[q].hep));
    }
    FollowPrevOfHead(s.ring);
    FreeHead(s, q, isIn);
    var t := s.(bound := s.bound - {Side(0, true), Side(0, false)},
                hcpriv := s.hcpriv - {s.qhs[q].hep}, ring := s.ring[1..], qhs := s.qhs - {q});
    assert q in Unbind(s, 0, isIn).qhs by { UnbindQhs(s, 0, isIn); }
    if |s.ring| > 1 {
      var n := s.ring[1];
      assert n in s.qhs && n != q;
      NextReady(s, q, n);
      SameQueue(s, t, s.qhs[n].hep);
      StartZero(t, n, isIn);
      assert s.bound - {Side(0, true), Side(0, false)} + map[Side(0, true) := n, Side(0, false) := n]
          == s.bound + map[Side(0, true) := n, Side(0, false) := n];
    }
  }

  lemma RetireHeadSides(s: State, q: nat)
    requires SidesOk(s) && RingOk(s) && PoolHeld(s)
    requires q in s.qhs && s.ring != [] && s.ring[0] == q
    ensures var t := DroppedHead(s, q);
      && SidesOk(t) && RingOk(t) && PoolHeld(t)
      && (forall side | side in s.bound && side.num > 0 :: side in t.bound && t.bound[side] == s.bound[side])
      && (forall p | p in s.ring && p != q :: p in t.ring)
  {
    hide PoolOk, QhOk;
    var t := DroppedHead(s, q);
    forall x | x in t.bound ensures SideOk(t, x) { assert x in s.bound ==> SideOk(s, x); }
    assert RingOk(t);
  }

  lemma RetireHeadKeeps(s: State, q: nat, isIn: bool)
    requires q in s.qhs && Inv(s, Some(s.qhs[q].hep)) && Queue(s, s.qhs[q].hep) == []
    requires s.ring != [] && s.ring[0] == q
    ensures RetireQh(s, q, isIn) == DroppedHead(s, q)
    ensures Inv(DroppedHead(s, q), None)
  {
    RetireHeadShape(s, q, isIn);
    var t := DroppedHead(s, q);
    RetireHeadSides(s, q);
    DropKeeps(s, t, q);
    SameLog(s, t);
    SameQueues(s, t, s.qhs[q].hep);
  }

  lemma DropIdleSides(s: State, q: nat)
    requires SidesOk(s) && RingOk(s) && PoolHeld(s)
    requires q in s.qhs && s.ring != [] && s.ring[0] != q && q in s.ring && s.qhs[q].hep.kind.Control?
    ensures var t := DroppedIdle(s, q);
      && SidesOk(t) && RingOk(t) && PoolHeld(t)
      && (forall p | p in s.ring && p != q :: p in t.ring)
  {
    hide PoolOk;
    var t := DroppedIdle(s, q);
    WithoutElems(s.ring, q);
    forall x | x in t.bound ensures SideOk(t, x) { assert SideOk(s, x); }
    assert RingOk(t);
  }

  /** A control queue head that waits behind another one is freed. */
  lemma FreeIdleKeeps(s: State, q: nat, isIn: bool)
    requires q in s.qhs && Inv(s, Some(s.qhs[q].hep)) && Queue(s, s.qhs[q].hep) == []
    requires s.qhs[q].hep.kind.Control? && s.ring[0] != q
    ensures FreeQh(s, q, isIn) == DroppedIdle(s, q)
    ensures Inv(DroppedIdle(s, q), None)
  {
    assert QhOk(s, q, Some(s.qhs[q].hep));
    var t := DroppedIdle(s, q);
    DropIdleSides(s, q);
    DropKeeps(s, t, q);
    SameLog(s, t);
    SameQueues(s, t, s.qhs[q].hep);
  }

  // ----- Callbacks that leave an endpoint alone -----

  ghost predicate Refuses(cs: seq<Submission>, h: Endpoint) {
    forall i | 0 <= i < |cs| :: cs[i].urb.ep == h ==> cs[i].linkError != 0
  }

  lemma ScheduleQueue(s: State, q: nat, h: Endpoint)
    ensures Schedule(s, q, h).Some? ==> Schedule(s, q, h).value.queue == s.queue
  {
    hide FreeEp, Take, Start;
    forall t: State, isIn: bool ensures Start(t, q, isIn).queue == t.queue { StartQueue(t, q, isIn); }
  }

  lemma StartQueue(s: State, q: nat, isIn: bool)
    ensures Start(s, q, isIn).queue == s.queue
  {
    hide Queue, Bind;
    forall num: nat, i: bool ensures Bind(s, num, i, q).queue == s.queue { BindQueue(s, num, i, q); }
  }

  lemma BindQueue(s: State, num: nat, isIn: bool, q: nat)
    ensures Bind(s, num, isIn, q).queue == s.queue
  {
  }

  lemma EnqueueOther(s: State, c: Submission, h: Endpoint)
    requires c.urb.ep == h ==> c.linkError != 0
    ensures Queue(Enqueue(s, c).0, h) == Queue(s, h)
  {
    hide Schedule;
    if c.newQh.Some? { ScheduleQueue(Linked(s, c.urb), c.newQh.value, c.urb.ep); }
  }

  lemma {:induction false} EnqueueAllOther(s: State, cs: seq<Submission>, h: Endpoint)
    requires Refuses(cs, h)
    ensures Queue(EnqueueAll(s, cs), h) == Queue(s, h)
    decreases |cs|
  {
    hide Enqueue, Queue;
    if cs != [] {
      EnqueueOther(s, cs[0], h);
      EnqueueAllOther(Enqueue(s, cs[0]).0, cs[1..], h);
    }
  }

  // ----- Advance -----

  /** The state in which `Advance` decides what to do next. */
  function Returned(s: State, u: Urb, q: nat, cancel: bool, cs: seq<Submission>): State
    requires q in s.qhs
  {
    SetReady(Giveback(SetReady(s, q, false), u, cancel, cs), q, s.qhs[q].ready)
  }

  /** After the giveback everything the driver still holds is where it was. */
  ghost predicate Held(s: State, u: Urb, q: nat, cancel: bool, r: State) {
    && r.nEps == s.nEps && r.host == s.host && r.active == s.active
    && r.given == s.given + [u] && s.submitted <= r.submitted
    && r.cancelled == (if cancel then s.cancelled + {u} else s.cancelled)
    && q in s.qhs && q in r.qhs && r.qhs[q] == s.qhs[q]
    && (forall side | side in s.bound :: side in r.bound && r.bound[side] == s.bound[side])
    && s.ring <= r.ring
    && Without(Queue(s, u.ep), u) <= Queue(r, u.ep)
  }

  lemma {:induction false} GivebackHeld(s: State, u: Urb, q: nat, cancel: bool, t: State)
    requires q in s.qhs && Grows(Unlinked(SetReady(s, q, false), u, cancel), t)
    requires Queue(Unlinked(SetReady(s, q, false), u, cancel), u.ep) == Without(Queue(s, u.ep), u)
    ensures q in t.qhs && Held(s, u, q, cancel, SetReady(t, q, s.qhs[q].ready))
  {
    SameQueue(t, SetReady(t, q, s.qhs[q].ready), u.ep);
  }

  lemma {:induction false} ReturnedKeeps(s: State, u: Urb, q: nat, cancel: bool, cs: seq<Submission>, open: Option<Endpoint>)
    requires Inv(s, open) && q in s.qhs
    requires s.qhs[q].hep == u.ep && (open == None || open == Some(u.ep))
    requires u in Queue(s, u.ep) && (cancel || Queue(s, u.ep)[0] == u)
    ensures var r, t := Returned(s, u, q, cancel, cs), Giveback(SetReady(s, q, false), u, cancel, cs);
      && q in t.qhs && !t.qhs[q].ready && (forall side | side in s.bound :: side in t.bound)
      && Inv(r, Some(u.ep)) && Held(s, u, q, cancel, r)
      && (Refuses(cs, u.ep) ==> Queue(r, u.ep) == Without(Queue(s, u.ep), u))
  {
    var s1 := SetReady(s, q, false);
    ReadyShape(s, q, false);
    SameQueue(s, s1, u.ep);
    SetReadyKeeps(s, q, false, open, Some(u.ep));
    GivebackKeeps(s1, u, cancel, cs);
    QueuesOfInv(s1, Some(u.ep));
    UnlinkQueues(s1, u, cancel);
    var t := Giveback(s1, u, cancel, cs);
    GivebackHeld(s, u, q, cancel, t);
    var r := SetReady(t, q, s.qhs[q].ready);
    UnlinkedQhs(s1, u, cancel, t, q);
    ReadyShape(t, q, s.qhs[q].ready);
    SetReadyKeeps(t, q, s.qhs[q].ready, Some(u.ep), Some(u.ep));
    SameQueue(t, r, u.ep);
    if Refuses(cs, u.ep) { GivebackOther(s1, u, cancel, cs); }
  }

  lemma ReadyShape(s: State, q: nat, ready: bool)
    requires q in s.qhs
    ensures var t := SetReady(s, q, ready);
      && t.bound == s.bound && t.queue == s.queue
      && t.qhs.Keys == s.qhs.Keys && t.qhs[q] == s.qhs[q].(ready := ready)
  {
  }

  lemma UnlinkedQhs(s: State, u: Urb, cancel: bool, t: State, q: nat)
    requires Grows(Unlinked(s, u, cancel), t) && q in s.qhs
    ensures q in t.qhs && t.qhs[q] == s.qhs[q]
    ensures forall side | side in s.bound :: side in t.bound && t.bound[side] == s.bound[side]
  {
    hide Queue;
  }

  lemma QueuesOfInv(s: State, open: Option<Endpoint>)
    requires Inv(s, open)
    ensures QueuesOk(s)
  {
  }

  lemma GivebackOther(s: State, u: Urb, cancel: bool, cs: seq<Submission>)
    requires Refuses(cs, u.ep)
    ensures Queue(Giveback(s, u, cancel, cs), u.ep) == Queue(Unlinked(s, u, cancel), u.ep)
  {
    EnqueueAllOther(Unlinked(s, u, cancel), cs, u.ep);
  }

  /** The queue head of a started URB is bound where `Advance` binds it again. */
  lemma RestartSame(s: State, q: nat, side: Side)
    requires q in s.qhs && side in s.bound && s.bound[side] == q && Queue(s, s.qhs[q].hep) != []
    requires s.qhs[q].hw == side.num
    requires side.num == 0 ==> forall x | x in Sides(0, side.isIn) :: x in s.bound && s.bound[x] == q
    requires s.qhs[q].hep.kind.Control? ==> side.num == 0
    ensures Start(s, q, side.isIn) == s
  {
    hide Queue;
    var isIn := side.isIn && !s.qhs[q].hep.kind.Control?;
    assert s.bound + (map x | x in Sides(side.num, isIn) :: q) == s.bound;
  }

  /** Where a bound side of a queue head can be. */
  lemma SideOfQh(s: State, side: Side, open: Option<Endpoint>)
    requires Inv(s, open) && side in s.bound
    ensures s.bound[side] in s.qhs
    ensures var x := s.qhs[s.bound[side]];
      && x.hw == side.num && (side.num == 0 <==> x.hep.kind.Control?)
      && (side.num > 0 ==> x.hep.dirIn == side.isIn)
      && (side.num == 0 ==> s.ring != [] && s.ring[0] == s.bound[side])
      && (side.num == 0 ==> forall y | y in Sides(0, side.isIn) :: y in s.bound && s.bound[y] == s.bound[side])
      && x.hep in s.hcpriv && s.hcpriv[x.hep] == s.bound[side]
  {
    hide LogOk, QueuesOk, PoolHeld, NoDup;
    assert SideOk(s, side);
    if side.num == 0 {
      assert Side(0, true) in s.bound && Side(0, false) in s.bound;
      assert SideOk(s, Side(0, true)) && SideOk(s, Side(0, false));
    }
    assert QhOk(s, s.bound[side], open);
  }

  /** The queue head `q` leaves, in the way its kind leaves. */
  function Dropped(s: State, q: nat): State
    requires q in s.qhs && (s.qhs[q].hep.kind.Control? ==> s.ring != [])
  {
    if s.qhs[q].hep.kind.Control? then DroppedHead(s, q) else DroppedBound(s, q)
  }

  /** Completing or aborting the URB `u` of a bound side. */
  lemma {:induction false} AdvanceKeeps(s: State, u: Urb, side: Side, cancel: bool, cs: seq<Submission>, open: Option<Endpoint>)
    requires Inv(s, open) && side in s.bound && s.bound[side] in s.qhs
    requires s.qhs[s.bound[side]].hep == u.ep && (open == None || open == Some(u.ep))
    requires u in Queue(s, u.ep) && (cancel || Queue(s, u.ep)[0] == u)
    ensures var q, r, t := s.bound[side], Returned(s, u, s.bound[side], cancel, cs), Advance(s, u, side, cancel, cs);
      && Held(s, u, q, cancel, r) && Inv(r, Some(u.ep))
      && (Refuses(cs, u.ep) ==> Queue(r, u.ep) == Without(Queue(s, u.ep), u))
      && (u.ep.kind.Control? ==> r.ring != [])
      && t == (if Queue(r, u.ep) == [] then Dropped(r, q) else r)
      && Inv(t, if Queue(r, u.ep) == [] || s.qhs[q].ready then None else Some(u.ep))
  {
    var q, r := s.bound[side], Returned(s, u, s.bound[side], cancel, cs);
    ReturnedKeeps(s, u, q, cancel, cs, open);
    assert r.qhs[q] == s.qhs[q] && r.bound[side] == q;
    SideOfQh(r, side, Some(u.ep));
    if Queue(r, u.ep) == [] {
      if u.ep.kind.Control? {
        RetireHeadKeeps(r, q, side.isIn);
      } else {
        RetireBoundKeeps(r, q);
      }
    } else {
      RestartSame(r, q, side);
      if s.qhs[q].ready {
        SetReadyKeeps(r, q, true, Some(u.ep), None);
        ReadySame(r, q);
      }
    }
  }

  lemma ReadySame(s: State, q: nat)
    requires q in s.qhs && s.qhs[q].ready
    ensures SetReady(s, q, true) == s
  {
    assert s.qhs[q].(ready := true) == s.qhs[q];
    assert s.qhs[q := s.qhs[q]] == s.qhs;
  }
}
