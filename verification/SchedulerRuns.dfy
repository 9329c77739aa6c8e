/** Completion, unlinking, disabling, and whole runs of the host scheduler. */
module SchedulerRuns {
  import opened Wrappers
  import opened Slots
  import opened Scheduler
  import opened SchedulerInvariant
  import opened SchedulerGiveback
  import opened SchedulerAdvance

  /** Nothing is forgotten: the logs only grow. */
  ghost predicate LogsGrow(s: State, t: State) {
    s.submitted <= t.submitted && s.given <= t.given && t.nEps == s.nEps
  }

  /** A live queue head outside a giveback, or with `open` its own endpoint. */
  lemma QhFacts(s: State, q: nat, open: Option<Endpoint>)
    requires Inv(s, open) && q in s.qhs
    ensures var x := s.qhs[q];
      && x.hep in s.hcpriv && s.hcpriv[x.hep] == q
      && (open != Some(x.hep) ==> x.ready && Queue(s, x.hep) != [])
      && (x.hep.kind.Control? ==> x.hw == 0 && q in s.ring)
      && (!x.hep.kind.Control? ==> var side := Side(x.hw, x.hep.dirIn);
            x.hw > 0 && side in s.bound && s.bound[side] == q)
  {
    hide LogOk, QueuesOk, PoolHeld, NoDup, SidesOk, EndpointsOk;
    assert QhOk(s, q, open);
  }

  /** The URBs of a list and the queue head they point at. */
  lemma ListFacts(s: State, h: Endpoint, open: Option<Endpoint>)
    requires Inv(s, open) && Queue(s, h) != []
    ensures h in s.hcpriv && s.hcpriv[h] in s.qhs && s.qhs[s.hcpriv[h]].hep == h
    ensures forall u | u in Queue(s, h) :: u.ep == h && u in s.urbQh && s.urbQh[u] == s.hcpriv[h]
    ensures NoDup(Queue(s, h))
  {
    hide LogOk, PoolHeld, SidesOk, QhsOk;
    assert QueueOk(s, h) && EndpointOk(s, h);
  }

  /** The ring head is the queue head of endpoint 0. */
  lemma RingFacts(s: State, q: nat, open: Option<Endpoint>)
    requires Inv(s, open) && q in s.ring
    ensures q in s.qhs && s.qhs[q].hep.kind.Control?
    ensures forall isIn :: Side(0, isIn) in s.bound && s.bound[Side(0, isIn)] == s.ring[0]
  {
    hide LogOk, PoolHeld, QhsOk, QueuesOk, EndpointsOk;
    forall isIn: bool ensures Side(0, isIn) in s.bound && s.bound[Side(0, isIn)] == s.ring[0] {
      assert Side(0, true) in s.bound && Side(0, false) in s.bound;
      assert SideOk(s, Side(0, isIn));
    }
  }

  // ----- Completion -----

  lemma CompleteKeeps(s: State, side: Side, cs: seq<Submission>)
    requires Inv(s, None)
    ensures Inv(Complete(s, side, cs), None) && LogsGrow(s, Complete(s, side, cs))
  {
    hide Inv, Advance;
    if side in s.bound {
      SideOfQh(s, side, None);
      var q := s.bound[side];
      var h := s.qhs[q].hep;
      if Queue(s, h) != [] {
        ListFacts(s, h, None);
        QhFacts(s, q, None);
        var u := Queue(s, h)[0];
        assert u in Queue(s, h);
        AdvanceKeeps(s, u, side, false, cs, None);
        AdvanceLogs(s, u, side, false, cs);
      }
    }
  }

  lemma AdvanceLogs(s: State, u: Urb, side: Side, cancel: bool, cs: seq<Submission>)
    requires side in s.bound && s.bound[side] in s.qhs
    requires var q, r := s.bound[side], Returned(s, u, s.bound[side], cancel, cs);
      && Held(s, u, q, cancel, r) && (u.ep.kind.Control? ==> r.ring != []) && u.ep == s.qhs[q].hep
      && Advance(s, u, side, cancel, cs) == (if Queue(r, u.ep) == [] then Dropped(r, q) else r)
    ensures var t := Advance(s, u, side, cancel, cs);
      LogsGrow(s, t) && t.given == s.given + [u] && t.active == s.active
  {
    hide Queue, Advance, Returned, Without;
  }

  // ----- Unlinking -----

  lemma FreeQhLogs(s: State, q: nat, isIn: bool)
    requires q in s.qhs
    ensures LogsGrow(s, FreeQh(s, q, isIn))
  {
  }

  /** The queue head that stays or goes after a cancelled URB was given back. */
  lemma DequeueEndKeeps(s: State, r: State, u: Urb, isIn: bool)
    requires Inv(r, Some(u.ep)) && u.ep in s.hcpriv && s.hcpriv[u.ep] in r.qhs
    requires var x := r.qhs[s.hcpriv[u.ep]];
      x.hep == u.ep && x.ready && (Queue(r, u.ep) == [] ==> x.hep.kind.Control?)
    requires Queue(r, u.ep) == [] ==> r.ring != [] && r.ring[0] != s.hcpriv[u.ep]
    ensures var q := s.hcpriv[u.ep];
      Inv(if Queue(r, u.ep) == [] then FreeQh(r, q, isIn) else r, None)
  {
    hide Inv, Queue, SetReady, FreeQh, DroppedIdle;
    var q := s.hcpriv[u.ep];
    if Queue(r, u.ep) == [] {
      FreeIdleKeeps(r, q, isIn);
    } else {
      SetReadyKeeps(r, q, true, Some(u.ep), None);
      ReadySame(r, q);
    }
  }

  lemma HeldLogs(s: State, u: Urb, q: nat, cancel: bool, r: State)
    requires Held(s, u, q, cancel, r)
    ensures LogsGrow(s, r)
  {
  }

  /** A cancelled URB that is not programmed into the hardware. */
  lemma DequeueIdleKeeps(s: State, u: Urb, side: Side, cs: seq<Submission>)
    requires Inv(s, None) && u in Queue(s, u.ep) && u.ep in s.hcpriv && s.hcpriv[u.ep] in s.qhs
    requires s.qhs[s.hcpriv[u.ep]].hep == u.ep && side == Side(s.qhs[s.hcpriv[u.ep]].hw, PipeIn(u))
    requires Queue(s, u.ep)[0] != u || side !in s.bound || s.bound[side] != s.hcpriv[u.ep]
    ensures var q := s.hcpriv[u.ep];
      var r := Returned(s, u, q, true, cs);
      && q in Giveback(SetReady(s, q, false), u, true, cs).qhs && q in r.qhs && r.qhs[q].hep == u.ep
      && var t := if Queue(r, u.ep) == [] then FreeQh(r, q, side.isIn) else r;
         Inv(t, None) && LogsGrow(s, t)
  {
    hide Inv, Queue, Without, Giveback, SetReady, FreeQh, Returned;
    var q := s.hcpriv[u.ep];
    var r := Returned(s, u, q, true, cs);
    QhFacts(s, q, None);
    ReturnedKeeps(s, u, q, true, cs, None);
    if Queue(r, u.ep) == [] {
      assert Queue(s, u.ep)[0] == u by { OnlyElement(Queue(s, u.ep), u); }
      assert u.ep.kind.Control?;
      RingFacts(s, q, None);
      assert s.ring[0] == r.ring[0];
      FreeQhLogs(r, q, side.isIn);
    }
    assert r.qhs[q].ready;
    DequeueEndKeeps(s, r, u, side.isIn);
  }

  lemma {:induction false} OnlyElement<T>(xs: seq<T>, x: T)
    requires x in xs && Without(xs, x) == []
    ensures xs == [x]
  {
  }

  lemma DequeueKeeps(s: State, u: Urb, refused: bool, cs: seq<Submission>)
    requires Inv(s, None)
    ensures Inv(Dequeue(s, u, refused, cs), None) && LogsGrow(s, Dequeue(s, u, refused, cs))
  {
    hide Inv, Advance, Giveback, SetReady, FreeQh;
    if !refused && u in Queue(s, u.ep) && u in s.urbQh {
      ListFacts(s, u.ep, None);
      var q := s.urbQh[u];
      QhFacts(s, q, None);
      var side := Side(s.qhs[q].hw, PipeIn(u));
      if Queue(s, u.ep)[0] != u || side !in s.bound || s.bound[side] != q {
        DequeueIdleKeeps(s, u, side, cs);
      } else {
        AdvanceKeeps(s, u, side, true, cs, None);
        AdvanceLogs(s, u, side, true, cs);
      }
    }
  }

  // ----- Disabling -----

  lemma RefusingRefuses(cs: seq<Submission>, h: Endpoint)
    ensures Refuses(Refusing(cs, h), h)
  {
  }

  /** A disabled endpoint has no queue head and no URB left, and what it had was
      given back in order. */
  ghost predicate Disabled(s: State, h: Endpoint, t: State) {
    h !in t.hcpriv && Drained(s, h, t)
  }

  ghost predicate Drained(s: State, h: Endpoint, t: State) {
    LogsGrow(s, t) && t.active == s.active && t.given == s.given + Queue(s, h)
  }

  lemma DrainedStep(s: State, h: Endpoint, r: State, t: State)
    requires Queue(s, h) != [] && r.given == s.given + [Queue(s, h)[0]] && Queue(r, h) == Queue(s, h)[1..]
    requires LogsGrow(s, r) && r.active == s.active && Drained(r, h, t)
    ensures Drained(s, h, t)
  {
    assert r.given + Queue(r, h) == s.given + Queue(s, h);
  }

  lemma {:induction false} DrainedNone(s: State, h: Endpoint)
    requires Queue(s, h) == []
    ensures Drained(s, h, s)
    ensures forall cb :: DrainIdle(s, h, cb, 0) == s
  {
    assert s.given + Queue(s, h) == s.given;
  }

  lemma DrainedLast(s: State, h: Endpoint, t: State)
    requires |Queue(s, h)| == 1 && t.given == s.given + [Queue(s, h)[0]]
    requires LogsGrow(s, t) && t.active == s.active
    ensures Drained(s, h, t)
  {
    assert Queue(s, h) == [Queue(s, h)[0]];
  }

  lemma DroppedFacts(r: State, q: nat)
    requires q in r.qhs && (r.qhs[q].hep.kind.Control? ==> r.ring != [])
    ensures var t := Dropped(r, q);
      && r.qhs[q].hep !in t.hcpriv && LogsGrow(r, t) && t.active == r.active
      && t.given == r.given && t.queue == r.queue
      && (r.qhs[q].hep.kind.Control? ==> t.ring == r.ring[1..])
      && (!r.qhs[q].hep.kind.Control? ==> t.ring == r.ring && t.bound == r.bound - {Side(r.qhs[q].hw, r.qhs[q].hep.dirIn)})
  {
  }

  /** One round of the drain of a bound queue head: the first URB goes, in order. */
  lemma DrainStep(s: State, h: Endpoint, q: nat, side: Side, cs: seq<Submission>)
    requires Inv(s, Some(h)) && q in s.qhs && s.qhs[q].hep == h && !s.qhs[q].ready && Queue(s, h) != []
    requires side in s.bound && s.bound[side] == q
    ensures var u, r, t := Queue(s, h)[0], Returned(s, Queue(s, h)[0], q, false, Refusing(cs, h)),
                           Advance(s, Queue(s, h)[0], side, false, Refusing(cs, h));
      && u.ep == h && LogsGrow(s, t) && t.given == s.given + [u] && t.active == s.active
      && Held(s, u, q, false, r) && Queue(t, h) == Queue(s, h)[1..] && (h.kind.Control? ==> r.ring != [])
      && (|Queue(s, h)| == 1 ==> t == Dropped(r, q) && Inv(t, None) && h !in t.hcpriv)
      && (|Queue(s, h)| > 1 ==> t == r && Inv(t, Some(h)))
  {
    var u := Queue(s, h)[0];
    assert u in Queue(s, h);
    ListFacts(s, h, Some(h));
    RefusingRefuses(cs, h);
    AdvanceKeeps(s, u, side, false, Refusing(cs, h), Some(h));
    AdvanceLogs(s, u, side, false, Refusing(cs, h));
    assert Without(Queue(s, h), u) == Queue(s, h)[1..] by { WithoutFirst(Queue(s, h)); }
    var r := Returned(s, u, q, false, Refusing(cs, h));
    if |Queue(s, h)| == 1 {
      DroppedFacts(r, q);
      SameQueue(Dropped(r, q), r, h);
    }
  }

  lemma {:induction false} WithoutFirst<T>(xs: seq<T>)
    requires xs != []
    ensures Without(xs, xs[0]) == xs[1..]
  {
  }

  /** A bound queue head that is being disabled, with `n` URBs to go. */
  ghost predicate Draining(s: State, h: Endpoint, q: nat, isIn: bool, n: nat) {
    && Inv(s, Some(h)) && q in s.qhs && s.qhs[q].hep == h && !s.qhs[q].ready && |Queue(s, h)| == n
    && var side := Side(s.qhs[q].hw, isIn); side in s.bound && s.bound[side] == q
  }

  lemma DrainBoundStep(s: State, h: Endpoint, q: nat, isIn: bool, cb: Callbacks, n: nat)
    requires Draining(s, h, q, isIn, n) && n >= 1
    ensures var t := Advance(s, Queue(s, h)[0], Side(s.qhs[q].hw, isIn), false, Refusing(First(cb), h));
      && DrainBound(s, h, q, isIn, cb, n) == (if n == 1 then t else DrainBound(t, h, q, isIn, Rest(cb), n - 1))
      && (if n == 1 then Inv(t, None) && Disabled(s, h, t)
          else Draining(t, h, q, isIn, n - 1)
               && forall r :: Drained(t, h, r) ==> Drained(s, h, r))
  {
    DrainBoundUnfold(s, h, q, isIn, cb, n);
    var side := Side(s.qhs[q].hw, isIn);
    var t := Advance(s, Queue(s, h)[0], side, false, Refusing(First(cb), h));
    DrainStep(s, h, q, side, First(cb));
    if n == 1 {
      DrainedLast(s, h, t);
    } else {
      assert q in t.qhs && t.qhs[q] == s.qhs[q] && side in t.bound && t.bound[side] == q;
      forall r | Drained(t, h, r) ensures Drained(s, h, r) { DrainedStep(s, h, t, r); }
    }
  }

  lemma {:induction false} DrainBoundKeeps(s: State, h: Endpoint, q: nat, isIn: bool, cb: Callbacks, n: nat)
    requires Draining(s, h, q, isIn, n) && n >= 1
    ensures var t := DrainBound(s, h, q, isIn, cb, n);
      Inv(t, None) && Disabled(s, h, t)
    decreases n
  {
    hide Inv, Advance, Queue, Refusing, DrainBound, First, Rest, Drained;
    var t := Advance(s, Queue(s, h)[0], Side(s.qhs[q].hw, isIn), false, Refusing(First(cb), h));
    DrainBoundStep(s, h, q, isIn, cb, n);
    if n > 1 { DrainBoundKeeps(t, h, q, isIn, Rest(cb), n - 1); }
  }

  lemma DrainBoundUnfold(s: State, h: Endpoint, q: nat, isIn: bool, cb: Callbacks, n: nat)
    requires n >= 1 && Queue(s, h) != [] && q in s.qhs
    ensures var t := Advance(s, Queue(s, h)[0], Side(s.qhs[q].hw, isIn), false, Refusing(First(cb), h));
      DrainBound(s, h, q, isIn, cb, n) == (if n == 1 then t else DrainBound(t, h, q, isIn, Rest(cb), n - 1))
  {
    hide Advance, Queue, Refusing, First, Rest;
  }

  lemma DrainIdleUnfold(s: State, h: Endpoint, cb: Callbacks, n: nat)
    requires n >= 1 && Queue(s, h) != []
    ensures var t := Giveback(s, Queue(s, h)[0], false, Refusing(First(cb), h));
      DrainIdle(s, h, cb, n) == DrainIdle(t, h, Rest(cb), n - 1)
  {
    hide Giveback, Queue, Refusing, First, Rest;
  }

  lemma {:induction false} DrainIdleKeeps(s: State, h: Endpoint, q: nat, cb: Callbacks, n: nat)
    requires Inv(s, Some(h)) && q in s.qhs && s.qhs[q].hep == h && !s.qhs[q].ready && |Queue(s, h)| == n
    requires s.ring != [] && s.ring[0] != q
    ensures var t := DrainIdle(s, h, cb, n);
      && Inv(t, Some(h)) && q in t.qhs && t.qhs[q].hep == h && Queue(t, h) == []
      && t.ring != [] && t.ring[0] == s.ring[0]
      && Drained(s, h, t)
    decreases n
  {
    hide Inv, Giveback, Queue, DrainIdle, Refusing, First, Rest, LogsGrow, Drained;
    if n == 0 {
      DrainedNone(s, h);
    } else {
      var t := Giveback(s, Queue(s, h)[0], false, Refusing(First(cb), h));
      DrainIdleUnfold(s, h, cb, n);
      DrainIdleStep(s, h, q, First(cb));
      DrainIdleKeeps(t, h, q, Rest(cb), n - 1);
      DrainedStep(s, h, t, DrainIdle(s, h, cb, n));
    }
  }

  lemma DrainIdleStep(s: State, h: Endpoint, q: nat, cs: seq<Submission>)
    requires Inv(s, Some(h)) && q in s.qhs && s.qhs[q].hep == h && !s.qhs[q].ready && Queue(s, h) != []
    requires s.ring != [] && s.ring[0] != q
    ensures var t := Giveback(s, Queue(s, h)[0], false, Refusing(cs, h));
      && Inv(t, Some(h)) && q in t.qhs && t.qhs[q] == s.qhs[q] && Queue(t, h) == Queue(s, h)[1..]
      && t.ring != [] && t.ring[0] == s.ring[0]
      && LogsGrow(s, t) && t.active == s.active && t.given == s.given + [Queue(s, h)[0]]
  {
    hide Inv, Giveback, Without, SetReady, Returned, Refusing, Queue, LogsGrow;
    var u := Queue(s, h)[0];
    assert u in Queue(s, h);
    ListFacts(s, h, Some(h));
    RefusingRefuses(cs, h);
    NotReadySame(s, q);
    ReturnedKeeps(s, u, q, false, Refusing(cs, h), Some(h));
    ReturnedSame(s, u, q, Refusing(cs, h));
    HeldLogs(s, u, q, false, Giveback(s, u, false, Refusing(cs, h)));
    assert Without(Queue(s, h), u) == Queue(s, h)[1..] by { WithoutFirst(Queue(s, h)); }
  }

  lemma NotReadySame(s: State, q: nat)
    requires q in s.qhs && !s.qhs[q].ready
    ensures SetReady(s, q, false) == s
  {
    assert s.qhs[q].(ready := false) == s.qhs[q];
    assert s.qhs[q := s.qhs[q]] == s.qhs;
  }

  /** Giving back without the ready flag changing. */
  lemma ReturnedSame(s: State, u: Urb, q: nat, cs: seq<Submission>)
    requires q in s.qhs && !s.qhs[q].ready
    requires var t := Giveback(SetReady(s, q, false), u, false, cs); q in t.qhs && !t.qhs[q].ready
    ensures Returned(s, u, q, false, cs) == Giveback(s, u, false, cs)
  {
    NotReadySame(s, q);
    var t := Giveback(s, u, false, cs);
    NotReadySame(t, q);
  }

  /** The state `musb_h_disable` drains. */
  lemma DisableStart(s: State, q: nat, isIn: bool)
    requires Inv(s, None) && q in s.qhs && (!s.qhs[q].hep.kind.Control? ==> isIn == s.qhs[q].hep.dirIn)
    ensures var t, h, side := SetReady(s, q, false), s.qhs[q].hep, Side(s.qhs[q].hw, isIn);
      && Inv(t, Some(h)) && q in t.qhs && t.qhs[q] == s.qhs[q].(ready := false)
      && Queue(t, h) == Queue(s, h) != [] && t.bound == s.bound && t.ring == s.ring
      && LogsGrow(s, t) && t.given == s.given && t.active == s.active
      && (side in s.bound && s.bound[side] == q ==>
           forall u | u in Queue(s, h) :: var x := Side(s.qhs[q].hw, PipeIn(u)); x in s.bound && s.bound[x] == q)
      && (!(side in s.bound && s.bound[side] == q) ==> h.kind.Control? && s.ring != [] && s.ring[0] != q)
  {
    hide Inv, Queue;
    var h := s.qhs[q].hep;
    QhFacts(s, q, None);
    ListFacts(s, h, None);
    SetReadyKeeps(s, q, false, None, Some(h));
    SameQueue(s, SetReady(s, q, false), h);
    if h.kind.Control? { RingFacts(s, q, None); }
  }

  lemma DisableBoundKeeps(s: State, t: State, q: nat, isIn: bool, cb: Callbacks)
    requires q in s.qhs && t == SetReady(s, q, false)
    requires Inv(t, Some(s.qhs[q].hep)) && q in t.qhs && t.qhs[q] == s.qhs[q].(ready := false)
    requires Queue(t, s.qhs[q].hep) == Queue(s, s.qhs[q].hep) != []
    requires var side := Side(s.qhs[q].hw, isIn); side in s.bound && s.bound[side] == q && t.bound == s.bound
    requires var x := Side(s.qhs[q].hw, PipeIn(Queue(s, s.qhs[q].hep)[0])); x in s.bound && s.bound[x] == q
    ensures Inv(DisableQh(s, q, isIn, cb), None) && Disabled(t, s.qhs[q].hep, DisableQh(s, q, isIn, cb))
  {
    hide Inv, Advance, Queue, Returned, Dropped, Refusing, DrainBound, Without, First, Rest, LogsGrow, Drained, SetReady;
    var h := s.qhs[q].hep;
    var n := |Queue(s, h)|;
    var x := Side(s.qhs[q].hw, PipeIn(Queue(s, h)[0]));
    var r := Advance(t, Queue(s, h)[0], x, false, Refusing(First(cb), h));
    DrainStep(t, h, q, x, First(cb));
    DisableBoundShape(s, q, isIn, cb);
    if n == 1 {
      DrainedLast(t, h, r);
    } else {
      DrainBoundKeeps(r, h, q, isIn, Rest(cb), n - 1);
      DrainedStep(t, h, r, DrainBound(r, h, q, isIn, Rest(cb), n - 1));
    }
  }

  lemma {:induction false} DisableBoundShape(s: State, q: nat, isIn: bool, cb: Callbacks)
    requires q in s.qhs && Queue(s, s.qhs[q].hep) != []
    requires var side := Side(s.qhs[q].hw, isIn); side in s.bound && s.bound[side] == q
    ensures var h, n := s.qhs[q].hep, |Queue(s, s.qhs[q].hep)|;
      var x := Side(s.qhs[q].hw, PipeIn(Queue(s, h)[0]));
      var r := Advance(SetReady(s, q, false), Queue(s, h)[0], x, false, Refusing(First(cb), h));
      && DisableQh(s, q, isIn, cb) == DrainBound(r, h, q, isIn, Rest(cb), n - 1)
      && (n == 1 ==> DisableQh(s, q, isIn, cb) == r)
  {
    hide Advance, Queue, Refusing, First, Rest, SetReady;
  }

  lemma DisableIdleKeeps(s: State, t: State, q: nat, isIn: bool, cb: Callbacks)
    requires q in s.qhs && t == SetReady(s, q, false)
    requires Inv(t, Some(s.qhs[q].hep)) && q in t.qhs && t.qhs[q] == s.qhs[q].(ready := false)
    requires Queue(t, s.qhs[q].hep) == Queue(s, s.qhs[q].hep)
    requires var side := Side(s.qhs[q].hw, isIn); !(side in s.bound && s.bound[side] == q)
    requires s.qhs[q].hep.kind.Control? && t.ring != [] && t.ring[0] != q
    ensures Inv(DisableQh(s, q, isIn, cb), None) && Disabled(t, s.qhs[q].hep, DisableQh(s, q, isIn, cb))
  {
    hide Inv, Queue, DrainIdle, SetReady;
    var h := s.qhs[q].hep;
    var d := DrainIdle(t, h, cb, |Queue(s, h)|);
    DrainIdleKeeps(t, h, q, cb, |Queue(s, h)|);
    FreeIdleKeeps(d, q, isIn);
  }

  /** `musb_h_disable` gives every URB of the endpoint back, in order, and unbinds it. */
  lemma DisableQhKeeps(s: State, q: nat, isIn: bool, cb: Callbacks)
    requires Inv(s, None) && q in s.qhs && (!s.qhs[q].hep.kind.Control? ==> isIn == s.qhs[q].hep.dirIn)
    ensures Inv(DisableQh(s, q, isIn, cb), None)
    ensures Disabled(s, s.qhs[q].hep, DisableQh(s, q, isIn, cb))
  {
    hide Inv, Queue, DisableQh, SetReady;
    var t := SetReady(s, q, false);
    var h := s.qhs[q].hep;
    DisableStart(s, q, isIn);
    var side := Side(s.qhs[q].hw, isIn);
    if side in s.bound && s.bound[side] == q {
      assert Queue(s, h)[0] in Queue(s, h);
      DisableBoundKeeps(s, t, q, isIn, cb);
    } else {
      DisableIdleKeeps(s, t, q, isIn, cb);
    }
  }

  lemma DisableKeeps(s: State, h: Endpoint, cb: Callbacks)
    requires Inv(s, None)
    ensures Inv(Disable(s, h, cb), None) && LogsGrow(s, Disable(s, h, cb))
    ensures h in s.hcpriv ==> Disabled(s, h, Disable(s, h, cb))
  {
    hide Inv, Queue, DisableQh;
    if h in s.hcpriv {
      HcprivFacts(s, h);
      DisableQhKeeps(s, s.hcpriv[h], h.dirIn, cb);
    }
  }

  lemma HcprivFacts(s: State, h: Endpoint)
    requires Inv(s, None) && h in s.hcpriv
    ensures s.hcpriv[h] in s.qhs && s.qhs[s.hcpriv[h]].hep == h
  {
    assert EndpointOk(s, h);
  }

  /** ... also on whatever is bound to a side. */
  lemma DisableSideKeeps(s: State, side: Side, cb: Callbacks)
    requires Inv(s, None)
    ensures Inv(DisableSide(s, side, cb), None) && LogsGrow(s, DisableSide(s, side, cb))
    ensures DisableSide(s, side, cb).active == s.active
    ensures side in s.bound ==> s.bound[side] in s.qhs && Disabled(s, s.qhs[s.bound[side]].hep, DisableSide(s, side, cb))
  {
    hide Inv, Queue, DisableQh;
    if side in s.bound {
      SideOfQh(s, side, None);
      DisableQhKeeps(s, s.bound[side], side.isIn, cb);
    }
  }

  lemma {:induction false} PreDisableKeeps(s: State, from: nat, last: nat, cb: Side -> Callbacks)
    requires Inv(s, None)
    ensures Inv(PreDisable(s, from, last, cb), None) && LogsGrow(s, PreDisable(s, from, last, cb))
    decreases last - from
  {
    hide Inv, DisableSide;
    if from < last {
      var t := DisableSide(s, Side(from, true), cb(Side(from, true)));
      var r := DisableSide(t, Side(from, false), cb(Side(from, false)));
      DisableSideKeeps(s, Side(from, true), cb(Side(from, true)));
      DisableSideKeeps(t, Side(from, false), cb(Side(from, false)));
      PreDisableKeeps(r, from + 1, last, cb);
    }
  }
}
