/** Giving back an URB, advancing to the next one, and freeing queue heads. */
module SchedulerGiveback {
  import opened Wrappers
  import opened Slots
  import opened Scheduler
  import opened SchedulerInvariant

  // ----- Lists without an element -----

  lemma {:induction false} WithoutElems<T>(xs: seq<T>, x: T)
    requires NoDup(xs)
    ensures NoDup(Without(xs, x))
    ensures forall y :: y in Without(xs, x) <==> y in xs && y != x
    ensures x in xs ==> |Without(xs, x)| == |xs| - 1
    ensures x !in xs ==> Without(xs, x) == xs
  {
    if xs != [] && xs[0] != x {
      WithoutElems(xs[1..], x);
      assert xs[0] !in Without(xs[1..], x);
    }
  }

  lemma {:induction false} WithoutConcat<T>(xs: seq<T>, ys: seq<T>, x: T)
    requires x !in xs
    ensures Without(xs + ys, x) == xs + Without(ys, x)
  {
    if xs == [] { assert xs + ys == ys; }
    else {
      assert (xs + ys)[1..] == xs[1..] + ys;
      WithoutConcat(xs[1..], ys, x);
    }
  }

  lemma {:induction false} WithoutSnoc<T>(xs: seq<T>, y: T, x: T)
    requires x != y
    ensures Without(xs + [y], x) == Without(xs, x) + [y]
  {
    if xs != [] {
      assert (xs + [y])[1..] == xs[1..] + [y];
      WithoutSnoc(xs[1..], y, x);
    }
  }

  lemma {:induction false} ProjElems(log: seq<Urb>, h: Endpoint, cut: set<Urb>)
    ensures forall u :: u in Proj(log, h, cut) ==> u in log && u.ep == h && u !in cut
  {
    if log != [] { ProjElems(log[..|log| - 1], h, cut); }
  }

  /** Cutting one more URB takes it out of the projection. */
  lemma {:induction false} ProjCut(log: seq<Urb>, h: Endpoint, cut: set<Urb>, u: Urb)
    requires NoDup(log)
    ensures Proj(log, h, cut + {u}) == Without(Proj(log, h, cut), u)
  {
    if log != [] {
      var l, w := log[..|log| - 1], log[|log| - 1];
      ProjCut(l, h, cut, u);
      ProjElems(l, h, cut);
      var r := Proj(l, h, cut);
      if w == u {
        WithoutConcat(r, [u], u);
        WithoutConcat(r, [], u);
        assert r + [] == r;
      } else {
        WithoutSnoc(r, w, u);
      }
    }
  }

  // ----- Unlinking -----

  lemma {:induction false} CancelOrder(s: State, u: Urb, h: Endpoint)
    requires LogOk(s) && u in Queue(s, u.ep)
    ensures Proj(s.submitted, h, s.cancelled + {u}) == Proj(s.given, h, s.cancelled + {u}) + Without(Queue(s, h), u)
  {
    assert UrbOk(s, u) && OrderOk(s, h);
    ProjCut(s.submitted, h, s.cancelled, u);
    ProjCut(s.given, h, s.cancelled, u);
    ProjElems(s.given, h, s.cancelled);
    var g := Proj(s.given, h, s.cancelled);
    WithoutConcat(g, Queue(s, h), u);
    WithoutConcat(g, [], u);
    assert g + [] == g;
  }

  lemma {:induction false} NotQueuedElsewhere(s: State, u: Urb, h: Endpoint)
    requires QueuesOk(s) && h != u.ep
    ensures u !in Queue(s, h) && Without(Queue(s, h), u) == Queue(s, h)
  {
    if h in s.queue {
      assert QueueOk(s, h);
      WithoutConcat(Queue(s, h), [], u);
      assert Queue(s, h) + [] == Queue(s, h);
    }
  }

  lemma UnlinkOrder(s: State, u: Urb, cancel: bool, h: Endpoint)
    requires LogOk(s) && QueuesOk(s) && u in Queue(s, u.ep)
    requires cancel || Queue(s, u.ep)[0] == u
    ensures OrderOk(Unlinked(s, u, cancel), h)
  {
    hide Proj, Without, QueuesOk;
    var t := Unlinked(s, u, cancel);
    assert UrbOk(s, u) && OrderOk(s, h);
    ProjAppend(s.given, u, h, t.cancelled);
    assert Queue(t, h) == if h == u.ep then Without(Queue(s, h), u) else Queue(s, h);
    if h != u.ep { NotQueuedElsewhere(s, u, h); }
    if cancel {
      CancelOrder(s, u, h);
    } else if h == u.ep {
      FirstOut(Queue(s, h), u);
    }
  }

  lemma {:induction false} FirstOut<T>(xs: seq<T>, x: T)
    requires xs != [] && xs[0] == x
    ensures xs == [x] + Without(xs, x)
  {
  }

  lemma UnlinkLog(s: State, u: Urb, cancel: bool)
    requires LogOk(s) && QueuesOk(s) && u in Queue(s, u.ep)
    requires cancel || Queue(s, u.ep)[0] == u
    ensures LogOk(Unlinked(s, u, cancel))
  {
    var t := Unlinked(s, u, cancel);
    assert UrbOk(s, u) && QueueOk(s, u.ep);
    WithoutElems(Queue(s, u.ep), u);
    Append(s.given, u);
    forall v ensures UrbOk(t, v) {
      assert UrbOk(s, v);
      assert Queue(t, v.ep) == if v.ep == u.ep then Without(Queue(s, v.ep), u) else Queue(s, v.ep);
    }
    forall h ensures OrderOk(t, h) { UnlinkOrder(s, u, cancel, h); }
  }

  lemma {:induction false} UnlinkQueues(s: State, u: Urb, cancel: bool)
    requires QueuesOk(s) && u in Queue(s, u.ep)
    ensures QueuesOk(Unlinked(s, u, cancel))
    ensures Queue(Unlinked(s, u, cancel), u.ep) == Without(Queue(s, u.ep), u)
    ensures forall h | h != u.ep :: Queue(Unlinked(s, u, cancel), h) == Queue(s, h)
  {
    var t := Unlinked(s, u, cancel);
    assert QueueOk(s, u.ep);
    WithoutElems(Queue(s, u.ep), u);
    forall h | h in t.queue ensures QueueOk(t, h) {
      assert QueueOk(s, h);
    }
  }

  lemma UnlinkQhs(s: State, u: Urb, cancel: bool)
    requires QhsOk(s, Some(u.ep))
    requires forall h | h != u.ep :: Queue(Unlinked(s, u, cancel), h) == Queue(s, h)
    ensures QhsOk(Unlinked(s, u, cancel), Some(u.ep))
  {
    hide Queue;
    var t := Unlinked(s, u, cancel);
    forall q | q in t.qhs ensures QhOk(t, q, Some(u.ep)) { assert QhOk(s, q, Some(u.ep)); }
  }

  /** Facts that do not depend on the URB lists. */
  lemma SameBindings(s: State, t: State)
    requires t.qhs == s.qhs && t.hcpriv == s.hcpriv && t.bound == s.bound && t.ring == s.ring && t.pool == s.pool
    requires EndpointsOk(s) && SidesOk(s) && RingOk(s) && PoolHeld(s)
    ensures EndpointsOk(t) && SidesOk(t) && RingOk(t) && PoolHeld(t)
  {
    hide PoolOk, NoDup;
    forall h | h in t.hcpriv ensures EndpointOk(t, h) { assert EndpointOk(s, h); }
    forall side | side in t.bound ensures SideOk(t, side) { assert SideOk(s, side); }
  }

  lemma UnlinkKeeps(s: State, u: Urb, cancel: bool)
    requires Inv(s, Some(u.ep)) && u in Queue(s, u.ep)
    requires cancel || Queue(s, u.ep)[0] == u
    ensures Inv(Unlinked(s, u, cancel), Some(u.ep))
  {
    hide QhsOk, EndpointsOk, SidesOk, RingOk, PoolHeld, QueuesOk, LogOk;
    UnlinkQueues(s, u, cancel);
    UnlinkQhs(s, u, cancel);
    SameBindings(s, Unlinked(s, u, cancel));
    UnlinkLog(s, u, cancel);
  }

  /** A giveback, whatever its completion callback submits. */
  lemma GivebackKeeps(s: State, u: Urb, cancel: bool, cs: seq<Submission>)
    requires Inv(s, Some(u.ep)) && u in Queue(s, u.ep)
    requires cancel || Queue(s, u.ep)[0] == u
    ensures var t := Giveback(s, u, cancel, cs);
      Inv(t, Some(u.ep)) && Grows(Unlinked(s, u, cancel), t)
  {
    hide Inv, Grows;
    UnlinkKeeps(s, u, cancel);
    EnqueueAllKeeps(Unlinked(s, u, cancel), cs, Some(u.ep));
  }

  // ----- Opening and closing the giveback window -----

  lemma SetReadyQhs(s: State, q: nat, ready: bool, before: Option<Endpoint>, after: Option<Endpoint>)
    requires QhsOk(s, before) && q in s.qhs
    requires before == None || before == Some(s.qhs[q].hep)
    requires after == Some(s.qhs[q].hep) || (after == None && ready && Queue(s, s.qhs[q].hep) != [])
    ensures QhsOk(SetReady(s, q, ready), after)
  {
    var t := SetReady(s, q, ready);
    assert QhOk(s, q, before);
    forall p | p in t.qhs ensures QhOk(t, p, after) {
      assert QhOk(s, p, before);
      SameQueue(s, t, t.qhs[p].hep);
    }
  }

  lemma SetReadySides(s: State, q: nat, ready: bool)
    requires EndpointsOk(s) && SidesOk(s) && RingOk(s) && PoolHeld(s) && q in s.qhs
    ensures var t := SetReady(s, q, ready);
      EndpointsOk(t) && SidesOk(t) && RingOk(t) && PoolHeld(t)
  {
    hide PoolOk;
    var t := SetReady(s, q, ready);
    forall h | h in t.hcpriv ensures EndpointOk(t, h) { assert EndpointOk(s, h); }
    forall side | side in t.bound ensures SideOk(t, side) { assert SideOk(s, side); }
    assert RingOk(t);
  }

  lemma SetReadyKeeps(s: State, q: nat, ready: bool, before: Option<Endpoint>, after: Option<Endpoint>)
    requires Inv(s, before) && q in s.qhs
    requires before == None || before == Some(s.qhs[q].hep)
    requires after == Some(s.qhs[q].hep) || (after == None && ready && Queue(s, s.qhs[q].hep) != [])
    ensures Inv(SetReady(s, q, ready), after)
  {
    hide QhsOk, EndpointsOk, SidesOk, RingOk, PoolHeld, QueuesOk, LogOk;
    SetReadyQhs(s, q, ready, before, after);
    SetReadySides(s, q, ready);
    SameLogs(s, SetReady(s, q, ready));
  }

  lemma SameLog(s: State, t: State)
    requires t.submitted == s.submitted && t.given == s.given && t.cancelled == s.cancelled
    requires t.queue == s.queue && t.urbQh == s.urbQh
    requires LogOk(s)
    ensures LogOk(t)
  {
    forall u ensures UrbOk(t, u) { assert UrbOk(s, u); SameQueue(s, t, u.ep); }
    forall h ensures OrderOk(t, h) { assert OrderOk(s, h); SameQueue(s, t, h); }
  }

  /** The lists of the endpoints other than `h`, which has none. */
  lemma SameQueues(s: State, t: State, h: Endpoint)
    requires t.queue == s.queue && t.urbQh == s.urbQh && t.hcpriv == s.hcpriv - {h}
    requires QueuesOk(s) && Queue(s, h) == []
    ensures QueuesOk(t)
  {
    forall k | k in t.queue ensures QueueOk(t, k) { assert QueueOk(s, k); }
  }

  lemma SameLogs(s: State, t: State)
    requires t.submitted == s.submitted && t.given == s.given && t.cancelled == s.cancelled
    requires t.queue == s.queue && t.urbQh == s.urbQh && t.hcpriv == s.hcpriv
    requires LogOk(s) && QueuesOk(s)
    ensures LogOk(t) && QueuesOk(t)
  {
    SameLog(s, t);
    forall h | h in t.queue ensures QueueOk(t, h) { assert QueueOk(s, h); }
  }

  // ----- Freeing a queue head -----

  /** The other queue heads when `q` goes. */
  lemma DropKeeps(s: State, t: State, q: nat)
    requires q in s.qhs && QhsOk(s, Some(s.qhs[q].hep)) && EndpointsOk(s)
    requires t.qhs == s.qhs - {q} && t.hcpriv == s.hcpriv - {s.qhs[q].hep}
    requires t.queue == s.queue && t.nEps == s.nEps
    requires forall side | side in s.bound && side.num > 0 && s.bound[side] != q ::
               && side in t.bound && t.bound[side] == s.bound[side]
               && (side in s.pool.held ==> side in t.pool.held && t.pool.held[side] == s.pool.held[side])
    requires forall p | p in s.ring && p != q :: p in t.ring
    ensures QhsOk(t, None) && EndpointsOk(t)
  {
    var h := s.qhs[q].hep;
    assert QhOk(s, q, Some(h));
    forall p | p in t.qhs ensures QhOk(t, p, None) {
      assert QhOk(s, p, Some(h));
      SameQueue(s, t, t.qhs[p].hep);
    }
    forall k | k in t.hcpriv ensures EndpointOk(t, k) { assert EndpointOk(s, k); }
  }

  /** A queue head that holds an endpoint of its own frees it, with its slots. */
  function DroppedBound(s: State, q: nat): State
    requires q in s.qhs
  {
    var x := s.qhs[q];
    var side := Side(x.hw, x.hep.dirIn);
    s.(bound := s.bound - {side}, hcpriv := s.hcpriv - {x.hep}, pool := Give(s.pool, side), qhs := s.qhs - {q})
  }

  lemma RetireBoundShape(s: State, q: nat)
    requires RingOk(s) && q in s.qhs && QhOk(s, q, Some(s.qhs[q].hep)) && !s.qhs[q].hep.kind.Control?
    ensures RetireQh(s, q, s.qhs[q].hep.dirIn) == DroppedBound(s, q)
  {
    hide NoDup, Give;
    WithoutConcat(s.ring, [], q);
    assert s.ring + [] == s.ring;
  }

  lemma RetireBoundSides(s: State, q: nat)
    requires SidesOk(s) && RingOk(s) && PoolHeld(s)
    requires q in s.qhs && QhOk(s, q, Some(s.qhs[q].hep)) && !s.qhs[q].hep.kind.Control?
    ensures var t := DroppedBound(s, q);
      && SidesOk(t) && RingOk(t) && PoolHeld(t)
      && (forall side | side in s.bound && s.bound[side] != q ::
            && side in t.bound
            && (side in s.pool.held ==> side in t.pool.held && t.pool.held[side] == s.pool.held[side]))
  {
    hide PoolOk, NoDup;
    var t := DroppedBound(s, q);
    var side := Side(s.qhs[q].hw, s.qhs[q].hep.dirIn);
    GiveKeeps(s.pool, side, TOTAL_SLOTS);
    forall x | x in t.bound ensures SideOk(t, x) { assert SideOk(s, x); }
    forall x | x in s.bound && s.bound[x] != q ensures x in t.bound { assert SideOk(s, x); }
    assert RingOk(t);
  }

  lemma RetireBoundKeeps(s: State, q: nat)
    requires q in s.qhs && Inv(s, Some(s.qhs[q].hep)) && Queue(s, s.qhs[q].hep) == []
    requires !s.qhs[q].hep.kind.Control?
    ensures RetireQh(s, q, s.qhs[q].hep.dirIn) == DroppedBound(s, q)
    ensures Inv(DroppedBound(s, q), None)
  {
    assert QhOk(s, q, Some(s.qhs[q].hep));
    var t := DroppedBound(s, q);
    RetireBoundShape(s, q);
    RetireBoundSides(s, q);
    DropKeeps(s, t, q);
    SameLog(s, t);
    SameQueues(s, t, s.qhs[q].hep);
  }
}
