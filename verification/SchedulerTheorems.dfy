/** The main results about runs of the host scheduler, in terms of its state. */
module SchedulerTheorems {
  import opened Wrappers
  import opened Slots
  import opened Scheduler
  import opened SchedulerInvariant
  import opened SchedulerGiveback
  import opened SchedulerAdvance
  import opened SchedulerRuns

  lemma FreshOk(nEps: nat)
    ensures Inv(Fresh(nEps), None)
  {
    var s := Fresh(nEps);
    forall u ensures UrbOk(s, u) { }
    forall h ensures OrderOk(s, h) { }
    forall i: nat ensures !Owned(s.pool, i) { }
  }

  lemma SetRoleKeeps(s: State, host: bool, active: bool)
    requires Inv(s, None)
    ensures Inv(s.(host := host, active := active), None)
  {
    hide EndpointsOk, SidesOk, RingOk, PoolHeld, QueuesOk, LogOk;
    var t := s.(host := host, active := active);
    forall q | q in t.qhs ensures QhOk(t, q, None) { assert QhOk(s, q, None); SameQueue(s, t, t.qhs[q].hep); }
    SameBindings(s, t);
    SameLogs(s, t);
  }

  // ----- CONNECT -----

  /** The slots in use are those of the bound endpoints other than 0. */
  lemma SlotsOfBound(s: State)
    requires Inv(s, None)
    ensures forall side :: side in s.pool.held <==> side in s.bound && side.num > 0
    ensures forall side | side in s.bound && side.num > 0 :: s.pool.held[side].start in s.pool.used
    ensures s.pool.used == {} <==> forall side | side in s.bound :: side.num == 0
    ensures s.pool.used == {} ==> s.pool.held == map[]
  {
    hide LogOk, QueuesOk, RingOk, EndpointsOk, NoDup, QhsOk, SidesOk, QhOk, SideOk;
    forall side | side in s.bound && side.num > 0 ensures side in s.pool.held && s.pool.held[side].start in s.pool.used {
      HeldSide(s, side);
      assert s.pool.held[side].start in Cells(s.pool.held[side]);
      assert Owned(s.pool, s.pool.held[side].start);
    }
    if forall side | side in s.bound :: side.num == 0 {
      forall i: nat ensures i !in s.pool.used { assert !Owned(s.pool, i); }
    }
  }

  lemma HeldSide(s: State, side: Side)
    requires Inv(s, None) && side in s.bound && side.num > 0
    ensures side in s.pool.held && s.bound[side] in s.qhs
    ensures s.pool.held[side].len == Units(s.qhs[s.bound[side]].hep.maxPacket)
  {
    hide LogOk, QueuesOk, RingOk, EndpointsOk, NoDup, PoolHeld, PoolOk;
    assert SideOk(s, side);
    assert QhOk(s, s.bound[side], None);
  }

  /** Clearing the slot mask on CONNECT is right exactly when no endpoint other
      than 0 is bound. */
  lemma ConnectExact(s: State)
    requires Inv(s, None)
    ensures Inv(Step(s, Connect), None) <==> forall side | side in s.bound :: side.num == 0
  {
    hide Inv;
    SlotsOfBound(s);
    var t := Step(s, Connect);
    if s.pool.used == {} {
      SetRoleKeeps(s, s.host, true);
      assert s.pool.(used := {}) == s.pool;
    } else if Inv(t, None) {
      SlotsOfBound(t);
    }
  }

  // ----- Steps and runs -----

  lemma StepKeeps(s: State, e: Event)
    requires Inv(s, None) && Allowed(s, e)
    ensures Inv(Step(s, e), None) && LogsGrow(s, Step(s, e))
  {
    hide Inv, Complete, Dequeue, Disable, PreDisable, Enqueue;
    match e
    case Submit(c) => EnqueueKeeps(s, c, None); GrowsLogs(s, Enqueue(s, c).0);
    case Finish(side, cs) => CompleteKeeps(s, side, cs);
    case Unlink(u, refused, cs) => DequeueKeeps(s, u, refused, cs);
    case DisableEndpoint(h, cb) => DisableKeeps(s, h, cb);
    case DisableAll(cb) => PreDisableKeeps(s, 0, s.nEps, cb);
    case SetRole(host, active) => SetRoleKeeps(s, host, active);
    case Connect => ConnectExact(s);
  }

  lemma GrowsLogs(s: State, t: State)
    requires Grows(s, t)
    ensures LogsGrow(s, t)
  {
  }

  lemma {:induction false} RunKeeps(states: seq<State>, events: seq<Event>, i: nat)
    requires IsRun(states, events) && i < |states|
    ensures Inv(states[i], None)
  {
    hide Inv, Step, Allowed;
    if i == 0 {
      FreshOk(states[0].nEps);
    } else {
      RunKeeps(states, events, i - 1);
      assert Allowed(states[i - 1], events[i - 1]) && states[i] == Step(states[i - 1], events[i - 1]);
      StepKeeps(states[i - 1], events[i - 1]);
    }
  }

  lemma {:induction false} RunLogs(states: seq<State>, events: seq<Event>, i: nat, j: nat)
    requires IsRun(states, events) && i <= j < |states|
    ensures states[i].given <= states[j].given && states[i].submitted <= states[j].submitted
    decreases j
  {
    hide Inv, Step, Allowed;
    if i < j {
      RunLogs(states, events, i, j - 1);
      RunKeeps(states, events, j - 1);
      assert Allowed(states[j - 1], events[j - 1]) && states[j] == Step(states[j - 1], events[j - 1]);
      StepKeeps(states[j - 1], events[j - 1]);
    }
  }

  /** In every run the driver never follows a bad pointer, and the bindings, the
      control ring and the slots agree. */
  lemma RunBindings(states: seq<State>, events: seq<Event>, i: nat)
    requires IsRun(states, events) && i < |states|
    ensures var s := states[i];
      && !s.fault
      // each bound side holds a live queue head whose endpoint points back at it
      && (forall side | side in s.bound :: s.bound[side] in s.qhs
           && var x := s.qhs[s.bound[side]];
              x.hw == side.num && x.hep in s.hcpriv && s.hcpriv[x.hep] == s.bound[side])
      // no queue head is bound to two endpoints or directions, but to both directions of 0
      && (forall a, b | a in s.bound && b in s.bound && s.bound[a] == s.bound[b] :: a.num == b.num && (a.num > 0 ==> a == b))
      // every queue head is bound, or waits on the control ring
      && (forall q | q in s.qhs :: q in s.bound.Values || q in s.ring)
      // endpoint 0 serves the first queue head of the ring
      && (forall isIn :: Side(0, isIn) in s.bound <==> s.ring != [])
      && (forall isIn | s.ring != [] :: s.bound[Side(0, isIn)] == s.ring[0])
  {
    var s := states[i];
    RunKeeps(states, events, i);
    NoFault(s);
    forall side | side in s.bound
      ensures s.bound[side] in s.qhs
      ensures var x := s.qhs[s.bound[side]];
        && x.hw == side.num && x.hep in s.hcpriv && s.hcpriv[x.hep] == s.bound[side]
        && (side.num > 0 ==> x.hep.dirIn == side.isIn)
        && (side.num == 0 ==> s.ring != [])
    {
      SideOfQh(s, side, None);
    }
    forall q | q in s.qhs ensures q in s.bound.Values || q in s.ring {
      QhFacts(s, q, None);
      if !s.qhs[q].hep.kind.Control? { assert Side(s.qhs[q].hw, s.qhs[q].hep.dirIn) in s.bound; }
    }
    if s.ring != [] { RingFacts(s, s.ring[0], None); }
  }

  lemma NoFault(s: State)
    requires Inv(s, None)
    ensures !s.fault
  {
  }

  /** In every run the used slots are the disjoint union of the runs of the bound
      endpoints other than 0, as large as their packets need. */
  lemma RunSlots(states: seq<State>, events: seq<Event>, i: nat)
    requires IsRun(states, events) && i < |states|
    ensures var s := states[i];
      && PoolOk(s.pool, TOTAL_SLOTS)
      && (forall side :: side in s.pool.held <==> side in s.bound && side.num > 0)
      && (forall side | side in s.bound && side.num > 0 ::
           s.bound[side] in s.qhs && s.pool.held[side].len == Units(s.qhs[s.bound[side]].hep.maxPacket))
  {
    var s := states[i];
    RunKeeps(states, events, i);
    SlotsOfBound(s);
    forall side | side in s.bound && side.num > 0
      ensures s.bound[side] in s.qhs && s.pool.held[side].len == Units(s.qhs[s.bound[side]].hep.maxPacket)
    {
      HeldSide(s, side);
    }
  }

  /** In every run no two bound endpoints other than 0 share a byte of FIFO memory,
      and none uses the 64 bytes of endpoint 0. */
  lemma RunFifoBytes(states: seq<State>, events: seq<Event>, i: nat, a: Side, b: Side, byte: nat)
    requires IsRun(states, events) && i < |states|
    requires a in states[i].bound && a.num > 0 && b in states[i].bound && b.num > 0
    requires forall side | side in {a, b} :: side in states[i].pool.held && states[i].bound[side] in states[i].qhs
    requires forall side | side in {a, b} ::
      var add, p := EncodeStart(states[i].pool.held[side].start), states[i].qhs[states[i].bound[side]].hep.maxPacket;
      8 * add <= byte < 8 * add + SizeBytes(SizeCode(p))
    ensures byte >= 64 && a == b
  {
    var s := states[i];
    RunSlots(states, events, i);
    assert a in {a, b} && b in {a, b};
    ByteRanges(s.pool.held[a], s.pool.held[b], s.qhs[s.bound[a]].hep.maxPacket, s.qhs[s.bound[b]].hep.maxPacket, byte);
  }

  /** In every run each accepted URB is either pending or was given back once,
      for good, and the URBs of an endpoint that were not cancelled are given
      back in the order of their submission. */
  lemma {:induction false} RunUrbs(states: seq<State>, events: seq<Event>, i: nat, u: Urb, h: Endpoint)
    requires IsRun(states, events) && i < |states|
    ensures var s := states[i];
      && (u in s.submitted <==> u in s.given || u in Queue(s, u.ep))
      && !(u in s.given && u in Queue(s, u.ep))
      && multiset(s.given)[u] <= 1 && multiset(s.submitted)[u] <= 1
      && (forall j | i <= j < |states| :: s.given <= states[j].given)
      && Proj(s.submitted, h, s.cancelled) == Proj(s.given, h, s.cancelled) + Queue(s, h)
  {
    var s := states[i];
    RunKeeps(states, events, i);
    assert UrbOk(s, u) && OrderOk(s, h);
    NoDupOnce(s.given, u);
    NoDupOnce(s.submitted, u);
    forall j | i <= j < |states| ensures s.given <= states[j].given { RunLogs(states, events, i, j); }
  }

  lemma {:induction false} NoDupOnce<T>(xs: seq<T>, x: T)
    requires NoDup(xs)
    ensures multiset(xs)[x] <= 1
  {
    if xs != [] {
      var l := xs[..|xs| - 1];
      assert xs == l + [xs[|xs| - 1]];
      NoDupOnce(l, x);
      if x == xs[|xs| - 1] { assert x !in l; assert x !in multiset(l); }
    }
  }
}
