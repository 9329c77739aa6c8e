/** What every entry point of the host scheduler keeps. */
module SchedulerInvariant {
  import opened Wrappers
  import opened Slots
  import opened Scheduler

  // ----- The invariant -----

  /** Live queue heads. `open` is the endpoint whose URB is being given back: its
      list may be empty and its queue head marked not ready. */
  ghost predicate QhOk(s: State, q: nat, open: Option<Endpoint>)
    requires q in s.qhs
  {
    var x := s.qhs[q];
    && x.hep in s.hcpriv && s.hcpriv[x.hep] == q
    && (x.mux <==> x.hep.kind.Control?)
    && (if x.hep.kind.Control? then x.hw == 0 && q in s.ring
        else
          var side := Side(x.hw, x.hep.dirIn);
          && 1 <= x.hw < s.nEps
          && side in s.bound && s.bound[side] == q
          && side in s.pool.held && s.pool.held[side].len == Units(x.hep.maxPacket))
    && (open != Some(x.hep) ==> x.ready && Queue(s, x.hep) != [])
  }

  ghost predicate EndpointOk(s: State, h: Endpoint)
    requires h in s.hcpriv
  {
    s.hcpriv[h] in s.qhs && s.qhs[s.hcpriv[h]].hep == h
  }

  ghost predicate SideOk(s: State, side: Side)
    requires side in s.bound
  {
    && s.bound[side] in s.qhs
    && var x := s.qhs[s.bound[side]];
       if side.num == 0 then s.ring != [] && s.bound[side] == s.ring[0]
       else x.hw == side.num && x.hep.dirIn == side.isIn && !x.hep.kind.Control?
  }

  ghost predicate NoDup<T>(xs: seq<T>) {
    forall i, j | 0 <= i < j < |xs| :: xs[i] != xs[j]
  }

  ghost predicate QueueOk(s: State, h: Endpoint)
    requires h in s.queue
  {
    && s.queue[h] != [] && NoDup(s.queue[h])
    && h in s.hcpriv
    && forall u | u in s.queue[h] :: u.ep == h && u in s.urbQh && s.urbQh[u] == s.hcpriv[h]
  }

  ghost predicate RingOk(s: State) {
    && NoDup(s.ring)
    && (forall q | q in s.ring :: q in s.qhs && s.qhs[q].hep.kind.Control?)
    && (s.ring != [] ==> Side(0, true) in s.bound && Side(0, false) in s.bound)
  }

  ghost predicate PoolHeld(s: State) {
    && PoolOk(s.pool, TOTAL_SLOTS)
    && forall side | side in s.pool.held :: side in s.bound && side.num > 0
  }

  /** The URBs of endpoint `h` in a log, in order, without the cancelled ones. */
  function Proj(log: seq<Urb>, h: Endpoint, cut: set<Urb>): seq<Urb> {
    if log == [] then []
    else
      var r, u := Proj(log[..|log| - 1], h, cut), log[|log| - 1];
      if u.ep == h && u !in cut then r + [u] else r
  }

  /** An URB was accepted iff it is pending or was given back, and never both;
      only pending URBs point at a queue head. */
  ghost predicate UrbOk(s: State, u: Urb) {
    && (u in s.submitted <==> u in s.given || u in Queue(s, u.ep))
    && (u in s.given ==> u !in Queue(s, u.ep))
    && (u in s.urbQh <==> u in Queue(s, u.ep))
    && (u in s.cancelled ==> u in s.given)
  }

  /** Apart from cancelled URBs, an endpoint completes in submission order. */
  ghost predicate OrderOk(s: State, h: Endpoint) {
    Proj(s.submitted, h, s.cancelled) == Proj(s.given, h, s.cancelled) + Queue(s, h)
  }

  ghost predicate LogOk(s: State) {
    && NoDup(s.submitted) && NoDup(s.given)
    && (forall u :: UrbOk(s, u))
    && (forall h :: OrderOk(s, h))
  }

  ghost predicate QhsOk(s: State, open: Option<Endpoint>) { forall q | q in s.qhs :: QhOk(s, q, open) }
  ghost predicate EndpointsOk(s: State) { forall h | h in s.hcpriv :: EndpointOk(s, h) }
  ghost predicate SidesOk(s: State) { forall side | side in s.bound :: SideOk(s, side) }
  ghost predicate QueuesOk(s: State) { forall h | h in s.queue :: QueueOk(s, h) }

  ghost predicate Inv(s: State, open: Option<Endpoint>) {
    && !s.fault && QhsOk(s, open) && EndpointsOk(s) && SidesOk(s) && QueuesOk(s)
    && RingOk(s) && PoolHeld(s) && LogOk(s)
  }

  /** What a submission leaves alone. */
  ghost predicate Grows(s: State, t: State) {
    && t.nEps == s.nEps && t.host == s.host && t.active == s.active
    && t.given == s.given && t.cancelled == s.cancelled && s.submitted <= t.submitted
    && (forall q | q in s.qhs :: q in t.qhs && t.qhs[q] == s.qhs[q])
    && (forall side | side in s.bound :: side in t.bound && t.bound[side] == s.bound[side])
    && (forall h | h in s.hcpriv :: h in t.hcpriv && t.hcpriv[h] == s.hcpriv[h])
    && (forall side | side in s.pool.held :: side in t.pool.held && t.pool.held[side] == s.pool.held[side])
    && s.ring <= t.ring
    && (forall h :: Queue(s, h) <= Queue(t, h))
  }

  // ----- Submission -----

  lemma {:induction false} ProjAppend(log: seq<Urb>, u: Urb, h: Endpoint, cut: set<Urb>)
    ensures Proj(log + [u], h, cut) == Proj(log, h, cut) + if u.ep == h && u !in cut then [u] else []
  {
    assert (log + [u])[..|log|] == log;
  }

  lemma Append<T>(xs: seq<T>, x: T)
    requires x !in xs
    ensures forall y :: y in xs + [x] <==> y in xs || y == x
    ensures NoDup(xs) ==> NoDup(xs + [x])
  {
  }

  /** Linking an URB that was never submitted. */
  lemma LinkKeepsLog(s: State, u: Urb, q: nat, t: State)
    requires LogOk(s) && u !in s.submitted
    requires t.submitted == s.submitted + [u] && t.given == s.given && t.cancelled == s.cancelled
    requires t.urbQh == s.urbQh[u := q]
    requires t.queue == Linked(s, u).queue
    ensures LogOk(t)
  {
    assert UrbOk(s, u);
    Append(s.submitted, u);
    Append(Queue(s, u.ep), u);
    assert Queue(t, u.ep) == Queue(s, u.ep) + [u];
    forall v ensures UrbOk(t, v) {
      assert UrbOk(s, v);
      if v.ep != u.ep { assert Queue(t, v.ep) == Queue(s, v.ep); }
    }
    forall h ensures OrderOk(t, h) {
      assert OrderOk(s, h);
      ProjAppend(s.submitted, u, h, s.cancelled);
      if h != u.ep { assert Queue(t, h) == Queue(s, h); }
    }
  }

  /** Old queue heads and sides stay in order when the state only grows. */
  lemma GrowsKeeps(s: State, t: State, open: Option<Endpoint>)
    requires Grows(s, t)
    ensures forall q | q in s.qhs && QhOk(s, q, open) :: QhOk(t, q, open)
    ensures forall h | h in s.hcpriv && EndpointOk(s, h) :: EndpointOk(t, h)
    ensures forall side | side in s.bound && SideOk(s, side) :: SideOk(t, side)
  {
    forall q | q in s.qhs && QhOk(s, q, open) ensures QhOk(t, q, open) {
      assert Queue(s, s.qhs[q].hep) <= Queue(t, s.qhs[q].hep);
    }
  }

  /** Growth by URBs alone. */
  lemma SameQhs(s: State, t: State, open: Option<Endpoint>)
    requires Grows(s, t) && QhsOk(s, open) && EndpointsOk(s) && SidesOk(s) && RingOk(s) && PoolHeld(s)
    requires t.qhs == s.qhs && t.hcpriv == s.hcpriv && t.bound == s.bound && t.ring == s.ring && t.pool == s.pool
    ensures QhsOk(t, open) && EndpointsOk(t) && SidesOk(t) && RingOk(t) && PoolHeld(t)
  {
    hide QhOk, EndpointOk, SideOk;
    assert RingOk(t);
    assert PoolHeld(t);
    GrowsKeeps(s, t, open);
  }

  /** Growth by one queue head. */
  lemma OneMoreQh(s: State, t: State, q: nat, open: Option<Endpoint>)
    requires Grows(s, t) && QhsOk(s, open) && EndpointsOk(s)
    requires q in t.qhs && t.qhs.Keys == s.qhs.Keys + {q}
    requires t.hcpriv.Keys == s.hcpriv.Keys + {t.qhs[q].hep}
    requires QhOk(t, q, open)
    ensures QhsOk(t, open) && EndpointsOk(t)
  {
    hide SideOk;
    GrowsKeeps(s, t, open);
    forall h | h in t.hcpriv ensures EndpointOk(t, h) {
      if h in s.hcpriv { assert EndpointOk(s, h); }
    }
  }

  lemma GrowsTrans(s: State, t: State, r: State)
    requires Grows(s, t) && Grows(t, r)
    ensures Grows(s, r)
  {
    hide Queue;
    forall h ensures Queue(s, h) <= Queue(r, h) {
      assert Queue(s, h) <= Queue(t, h) <= Queue(r, h);
    }
  }

  /** The URB lists after linking `u`, when its queue head is `q`. */
  lemma LinkKeepsQueues(s: State, u: Urb, q: nat, t: State)
    requires QueuesOk(s) && u !in Queue(s, u.ep)
    requires u.ep in s.hcpriv ==> q == s.hcpriv[u.ep]
    requires t.queue == Linked(s, u).queue && t.urbQh == s.urbQh[u := q]
    requires t.hcpriv == s.hcpriv[u.ep := q]
    ensures QueuesOk(t)
    ensures forall h :: Queue(s, h) <= Queue(t, h)
    ensures Queue(t, u.ep) == Queue(s, u.ep) + [u]
  {
    Append(Queue(s, u.ep), u);
    forall h | h in t.queue ensures QueueOk(t, h) {
      assert h in s.queue ==> QueueOk(s, h);
      if h != u.ep {
        assert t.queue[h] == s.queue[h];
      } else {
        assert t.queue[h] == Queue(s, h) + [u];
      }
    }
  }

  lemma AppendKeeps(s: State, u: Urb, open: Option<Endpoint>)
    requires Inv(s, open) && u.ep in s.hcpriv && u !in s.submitted
    ensures var t := Accepted(Linked(s, u), u, s.hcpriv[u.ep]);
      Inv(t, open) && Grows(s, t)
  {
    hide QhsOk, EndpointsOk, SidesOk, QueuesOk, RingOk, PoolHeld, LogOk;
    var t := Accepted(Linked(s, u), u, s.hcpriv[u.ep]);
    NeverQueued(s, u);
    LinkKeepsLog(s, u, s.hcpriv[u.ep], t);
    LinkKeepsQueues(s, u, s.hcpriv[u.ep], t);
    assert Grows(s, t);
    SameQhs(s, t, open);
  }

  lemma NeverQueued(s: State, u: Urb)
    requires LogOk(s) && u !in s.submitted
    ensures u !in Queue(s, u.ep)
  {
    assert UrbOk(s, u);
  }

  /** The state after a new control queue head was scheduled. */
  function NewControl(s: State, u: Urb, q: nat): State {
    s.(queue := Linked(s, u).queue, urbQh := s.urbQh[u := q], submitted := s.submitted + [u],
       ring := s.ring + [q],
       qhs := s.qhs[q := Qh(u.ep, 0, true, true)], hcpriv := s.hcpriv[u.ep := q],
       bound := if s.ring == [] then s.bound + map[Side(0, true) := q, Side(0, false) := q] else s.bound)
  }

  lemma NewControlShape(s: State, u: Urb, q: nat)
    requires u.ep.kind.Control?
    ensures Schedule(Linked(s, u), q, u.ep).Some?
    ensures Accepted(Schedule(Linked(s, u), q, u.ep).value, u, q) == NewControl(s, u, q)
  {
    hide Linked, Queue;
    LinkedShape(s, u);
    var ls := Linked(s, u);
    var t := AddQh(ls.(ring := ls.ring + [q]), q, Qh(u.ep, 0, true, true));
    assert Queue(t, u.ep) == Queue(ls, u.ep) by { SameQueue(t, ls, u.ep); }
    assert Start(t, q, u.ep.dirIn) == Bind(t, 0, false, q);
    BindZero(t, q);
  }

  lemma LinkedShape(s: State, u: Urb)
    ensures Linked(s, u) == s.(queue := Linked(s, u).queue)
    ensures Queue(Linked(s, u), u.ep) == Queue(s, u.ep) + [u]
  {
  }

  lemma SameQueue(s: State, t: State, h: Endpoint)
    requires s.queue == t.queue
    ensures Queue(s, h) == Queue(t, h)
  {
  }

  lemma BindZero(s: State, q: nat)
    ensures Bind(s, 0, false, q) == s.(bound := s.bound + map[Side(0, true) := q, Side(0, false) := q])
  {
    assert (map x | x in Sides(0, false) :: q) == map[Side(0, true) := q, Side(0, false) := q];
  }

  lemma NewControlGrows(s: State, u: Urb, q: nat)
    requires SidesOk(s) && u.ep !in s.hcpriv && q !in s.qhs
    requires forall h :: Queue(s, h) <= Queue(NewControl(s, u, q), h)
    ensures Grows(s, NewControl(s, u, q))
  {
    hide Queue;
    BoundKept(s, NewControl(s, u, q));
  }

  lemma PoolStays(s: State, t: State)
    requires PoolHeld(s) && t.pool == s.pool && Grows(s, t)
    ensures PoolHeld(t)
  {
    hide PoolOk;
  }

  /** A new control queue head: appended to the ring, started when it is alone. */
  lemma NewControlKeeps(s: State, u: Urb, q: nat, open: Option<Endpoint>)
    requires Inv(s, open) && u !in s.submitted
    requires u.ep.kind.Control? && u.ep !in s.hcpriv && q !in s.qhs
    ensures var t := NewControl(s, u, q);
      Inv(t, open) && Grows(s, t)
  {
    hide QhsOk, EndpointsOk, QueuesOk, LogOk, RingOk, SidesOk, PoolHeld, Grows;
    var t := NewControl(s, u, q);
    NeverQueued(s, u);
    LinkKeepsLog(s, u, q, t);
    LinkKeepsQueues(s, u, q, t);
    NewControlGrows(s, u, q);
    PoolStays(s, t);
    RingGrows(s, t, q);
    OneMoreQh(s, t, q, open);
  }

  lemma BoundKept(s: State, t: State)
    requires SidesOk(s)
    requires s.ring != [] ==> t.bound == s.bound
    requires s.ring == [] ==> forall side | side in s.bound && side.num != 0 :: side in t.bound && t.bound[side] == s.bound[side]
    ensures forall side | side in s.bound :: side in t.bound && t.bound[side] == s.bound[side]
  {
    assert forall side | side in s.bound :: SideOk(s, side);
  }

  /** The ring and the bindings of endpoint 0 when control queue head `q` joins. */
  lemma RingGrows(s: State, t: State, q: nat)
    requires RingOk(s) && SidesOk(s) && q !in s.qhs && Grows(s, t)
    requires t.ring == s.ring + [q] && q in t.qhs && t.qhs[q].hep.kind.Control?
    requires t.bound.Keys == if s.ring == [] then s.bound.Keys + {Side(0, true), Side(0, false)} else s.bound.Keys
    requires s.ring == [] ==> t.bound[Side(0, true)] == q && t.bound[Side(0, false)] == q
    ensures RingOk(t) && SidesOk(t)
  {
    Append(s.ring, q);
    assert RingOk(t);
    GrowsKeeps(s, t, None);
    forall side | side in t.bound ensures SideOk(t, side) {
      assert side in s.bound ==> SideOk(s, side);
    }
  }

  // ----- A new queue head of another kind -----

  lemma {:induction false} FreeEpIsLowest(bound: map<Side, nat>, nEps: nat, isIn: bool, from: nat)
    ensures match FreeEp(bound, nEps, isIn, from)
      case None => forall e | from <= e < nEps :: Side(e, isIn) in bound
      case Some(f) => from <= f < nEps && Side(f, isIn) !in bound
                      && forall e | from <= e < f :: Side(e, isIn) in bound
    decreases nEps - from
  {
    if from < nEps && Side(from, isIn) in bound { FreeEpIsLowest(bound, nEps, isIn, from + 1); }
  }

  function NewBound(s: State, u: Urb, q: nat, e: nat, p: Pool<Side>): State {
    s.(queue := Linked(s, u).queue, urbQh := s.urbQh[u := q], submitted := s.submitted + [u],
       pool := p,
       qhs := s.qhs[q := Qh(u.ep, e, false, true)], hcpriv := s.hcpriv[u.ep := q],
       bound := s.bound[Side(e, u.ep.dirIn) := q])
  }

  lemma NewBoundShape(s: State, u: Urb, q: nat) returns (e: nat, p: Pool<Side>)
    requires !u.ep.kind.Control? && Schedule(Linked(s, u), q, u.ep).Some?
    ensures Accepted(Schedule(Linked(s, u), q, u.ep).value, u, q) == NewBound(s, u, q, e, p)
    ensures 1 <= e < s.nEps && Side(e, u.ep.dirIn) !in s.bound
    ensures forall f | 1 <= f < e :: Side(f, u.ep.dirIn) in s.bound
    ensures Take(s.pool, Side(e, u.ep.dirIn), Units(u.ep.maxPacket), TOTAL_SLOTS) == Some(p)
  {
    hide Take, Linked, Queue;
    LinkedShape(s, u);
    FreeEpIsLowest(s.bound, s.nEps, u.ep.dirIn, 1);
    e := FreeEp(s.bound, s.nEps, u.ep.dirIn, 1).value;
    p := Take(s.pool, Side(e, u.ep.dirIn), Units(u.ep.maxPacket), TOTAL_SLOTS).value;
    var ls := Linked(s, u);
    var t := AddQh(ls.(pool := p), q, Qh(u.ep, e, false, true));
    assert Queue(t, u.ep) == Queue(ls, u.ep) by { SameQueue(t, ls, u.ep); }
    assert Start(t, q, u.ep.dirIn) == Bind(t, e, u.ep.dirIn, q);
    assert s.bound + (map x | x in Sides(e, u.ep.dirIn) :: q) == s.bound[Side(e, u.ep.dirIn) := q];
  }

  /** Bound to an endpoint that was free, with slots of its own. */
  lemma NewBoundKeeps(s: State, u: Urb, q: nat, e: nat, p: Pool<Side>, open: Option<Endpoint>)
    requires Inv(s, open) && u !in s.submitted
    requires !u.ep.kind.Control? && u.ep !in s.hcpriv && q !in s.qhs
    requires 1 <= e < s.nEps && Side(e, u.ep.dirIn) !in s.bound
    requires Take(s.pool, Side(e, u.ep.dirIn), Units(u.ep.maxPacket), TOTAL_SLOTS) == Some(p)
    ensures var t := NewBound(s, u, q, e, p);
      Inv(t, open) && Grows(s, t)
  {
    hide QhsOk, EndpointsOk, QueuesOk, LogOk, RingOk, SidesOk, PoolHeld, Take, Grows;
    var t := NewBound(s, u, q, e, p);
    NeverQueued(s, u);
    LinkKeepsLog(s, u, q, t);
    LinkKeepsQueues(s, u, q, t);
    NewBoundGrows(s, u, q, e, p);
    SideJoins(s, t, Side(e, u.ep.dirIn));
    OneMoreQh(s, t, q, open);
  }

  lemma NewBoundGrows(s: State, u: Urb, q: nat, e: nat, p: Pool<Side>)
    requires PoolHeld(s) && u.ep !in s.hcpriv && q !in s.qhs
    requires 1 <= e && Side(e, u.ep.dirIn) !in s.bound
    requires Take(s.pool, Side(e, u.ep.dirIn), Units(u.ep.maxPacket), TOTAL_SLOTS) == Some(p)
    requires forall h :: Queue(s, h) <= Queue(NewBound(s, u, q, e, p), h)
    ensures var t := NewBound(s, u, q, e, p);
      && Grows(s, t) && PoolHeld(t)
      && Side(e, u.ep.dirIn) in t.pool.held && t.pool.held[Side(e, u.ep.dirIn)].len == Units(u.ep.maxPacket)
  {
    hide Queue, PoolOk, Take;
    TakeKeeps(s.pool, Side(e, u.ep.dirIn), Units(u.ep.maxPacket), TOTAL_SLOTS);
    TakeHolds(s.pool, Side(e, u.ep.dirIn), Units(u.ep.maxPacket), TOTAL_SLOTS);
  }

  lemma TakeHolds<K>(p: Pool<K>, k: K, n: nat, total: nat)
    requires k !in p.held && Take(p, k, n, total).Some?
    ensures var q := Take(p, k, n, total).value;
      && q.held.Keys == p.held.Keys + {k}
      && forall j | j in p.held :: q.held[j] == p.held[j]
  {
  }

  lemma SideJoins(s: State, t: State, side: Side)
    requires RingOk(s) && SidesOk(s) && Grows(s, t)
    requires t.ring == s.ring && side.num > 0
    requires t.bound.Keys == s.bound.Keys + {side} && SideOk(t, side)
    ensures RingOk(t) && SidesOk(t)
  {
    assert RingOk(t);
    GrowsKeeps(s, t, None);
    forall x | x in t.bound ensures SideOk(t, x) {
      assert x in s.bound ==> SideOk(s, x);
    }
  }

  // ----- All submissions -----

  /** A submission keeps the invariant, also inside a completion callback, and
      one that fails changes nothing. */
  lemma EnqueueKeeps(s: State, c: Submission, open: Option<Endpoint>)
    requires Inv(s, open)
    ensures var (t, r) := Enqueue(s, c);
      && Inv(t, open) && Grows(s, t)
      && (r != 0 ==> t == s)
      && (r == 0 ==> t.submitted == s.submitted + [c.urb])
  {
    hide Inv, Grows, Accepted, Linked, Schedule;
    var u, h := c.urb, c.urb.ep;
    GrowsRefl(s);
    if s.host && s.active && LinkResult(s, c) == 0 {
      if h in s.hcpriv {
        AppendKeeps(s, u, open);
        AcceptedLogs(Linked(s, u), u, s.hcpriv[h]);
        LinkedLogs(s, u);
      } else if c.newQh.Some? && c.newQh.value !in s.qhs {
        var q := c.newQh.value;
        if h.kind.Control? {
          NewControlShape(s, u, q);
          NewControlKeeps(s, u, q, open);
        } else if Schedule(Linked(s, u), q, h).Some? {
          var e, p := NewBoundShape(s, u, q);
          NewBoundKeeps(s, u, q, e, p, open);
        }
      }
    }
  }

  lemma GrowsRefl(s: State)
    ensures Grows(s, s)
  {
  }

  lemma AcceptedLogs(s: State, u: Urb, q: nat)
    ensures Accepted(s, u, q).submitted == s.submitted + [u]
  {
  }

  lemma LinkedLogs(s: State, u: Urb)
    ensures Linked(s, u).submitted == s.submitted
  {
  }

  lemma {:induction false} EnqueueAllKeeps(s: State, cs: seq<Submission>, open: Option<Endpoint>)
    requires Inv(s, open)
    ensures Inv(EnqueueAll(s, cs), open) && Grows(s, EnqueueAll(s, cs))
    decreases |cs|
  {
    hide Inv, Grows, Enqueue;
    if cs == [] {
      GrowsRefl(s);
    } else {
      EnqueueKeeps(s, cs[0], open);
      var t := Enqueue(s, cs[0]).0;
      EnqueueAllKeeps(t, cs[1..], open);
      GrowsTrans(s, t, EnqueueAll(s, cs));
    }
  }
}
