/** Runs of the host scheduler whose shutdown leaves an endpoint bound. */
module SchedulerWitness {
  import opened Wrappers
  import opened Slots
  import opened Scheduler
  import opened SchedulerInvariant
  import opened SchedulerGiveback
  import opened SchedulerAdvance
  import opened SchedulerRuns
  import opened SchedulerTheorems
  import opened SchedulerOpens
  import opened SchedulerShutdown

  function Active(nEps: nat): State { Step(Fresh(nEps), SetRole(true, true)) }

  // ----- A completion that opens a queue head behind the loop -----

  /** There is a slot to take when one is free. */
  lemma OneSlot<K>(p: Pool<K>, k: K, i: nat)
    requires i < TOTAL_SLOTS && i !in p.used
    ensures Take(p, k, 1, TOTAL_SLOTS).Some?
  {
    FirstFreeIsLowest(p.used, 1, TOTAL_SLOTS, 0);
    assert IsFree(p.used, Run(i, 1), TOTAL_SLOTS);
  }

  /** A bulk endpoint without a queue head gets endpoint 1 when that is free. */
  lemma OpensOne(s: State, u: Urb, q: nat, slot: nat)
    requires s.host && s.active && s.nEps >= 2 && u !in s.submitted && u.ep !in s.hcpriv && q !in s.qhs
    requires u.ep.kind.Bulk? && u.ep.maxPacket <= 512 && Side(1, u.ep.dirIn) !in s.bound
    requires slot < TOTAL_SLOTS && slot !in s.pool.used
    ensures var (t, r) := Enqueue(s, Submission(u, 0, Some(q)));
      && r == 0
      && exists p :: t == NewBound(s, u, q, 1, p) && Take(s.pool, Side(1, u.ep.dirIn), 1, TOTAL_SLOTS) == Some(p)
  {
    hide Linked, Take, FirstFree;
    OneSlot(s.pool, Side(1, u.ep.dirIn), slot);
    LinkedShape(s, u);
    assert Schedule(Linked(s, u), q, u.ep).Some?;
    var e, p := NewBoundShape(s, u, q);
    assert e == 1;
  }

  /** One bulk OUT endpoint is served, and its URB's completion submits to a bulk IN
      endpoint while the loop is past endpoint 1 IN: that side is bound at the end. */
  lemma Rebound(a: Urb, b: Urb, cb: Side -> Callbacks) returns (states: seq<State>)
    requires a.ep.kind.Bulk? && !a.ep.dirIn && a.ep.maxPacket <= 512
    requires b.ep.kind.Bulk? && b.ep.dirIn && b.ep.maxPacket <= 512
    requires cb(Side(1, false)) == [[Submission(b, 0, Some(1))]]
    ensures IsRun(states, [SetRole(true, true), Submit(Submission(a, 0, Some(0))), DisableAll(cb)])
    ensures Side(1, true) in states[3].bound
  {
    hide Step, Inv, OpenedAt;
    var events := [SetRole(true, true), Submit(Submission(a, 0, Some(0))), DisableAll(cb)];
    var s1 := Active(2);
    var s2 := Step(s1, events[1]);
    states := [Fresh(2), s1, s2, Step(s2, events[2])];
    RunKeeps(states, events, 2);
    FirstStep(a);
    BehindLoop(s2, a, b, cb);
    LastStep(s2, cb);
    ShutdownExact(s2, cb);
    ShutdownVisited(s2, cb);
    StaysBound(s2, 3, 4, cb, true);
  }

  lemma {:induction false} LastStep(s: State, cb: Side -> Callbacks)
    ensures Step(s, DisableAll(cb)) == PreDisable(s, 0, s.nEps, cb)
  {
  }

  /** What the first submission leads to. */
  ghost predicate OneOut(s: State, a: Urb) {
    && s.nEps == 2 && s.host && s.active && s.submitted == [a]
    && s.bound == map[Side(1, false) := 0] && s.hcpriv == map[a.ep := 0] && s.qhs == map[0 := Qh(a.ep, 1, false, true)]
    && s.queue == map[a.ep := [a]] && s.pool.used == {0}
  }

  lemma FirstStep(a: Urb)
    requires a.ep.kind.Bulk? && !a.ep.dirIn && a.ep.maxPacket <= 512
    ensures OneOut(Step(Active(2), Submit(Submission(a, 0, Some(0)))), a)
  {
    hide Take;
    var s := Active(2);
    OpensOne(s, a, 0, 0);
    var p :| Enqueue(s, Submission(a, 0, Some(0))).0 == NewBound(s, a, 0, 1, p)
             && Take(s.pool, Side(1, false), 1, TOTAL_SLOTS) == Some(p);
    FirstTaken(p);
    var t := NewBound(s, a, 0, 1, p);
    assert Queue(s, a.ep) + [a] == [a];
    assert t.queue == map[a.ep := [a]];
  }

  lemma FirstTaken(p: Pool<Side>)
    requires Take(Pool({}, map[]), Side(1, false), 1, TOTAL_SLOTS) == Some(p)
    ensures p.used == {0}
  {
    assert Cells(Run(0, 1)) == {0};
    assert FirstFree({}, 1, TOTAL_SLOTS, 0) == Some(0);
  }

  lemma BehindLoop(s: State, a: Urb, b: Urb, cb: Side -> Callbacks)
    requires OneOut(s, a) && a.ep.kind.Bulk? && !a.ep.dirIn
    requires b.ep.kind.Bulk? && b.ep.dirIn && b.ep.maxPacket <= 512
    requires cb(Side(1, false)) == [[Submission(b, 0, Some(1))]]
    ensures OpenedAt(s, 3, cb, OfDir(true)) > 0
  {
    hide Enqueue, OpenedDrain, OpenedSide, OpenedBy, InCallback, Advance, SetReady, Visited;
    NothingBefore(s, a, cb);
    assert VisitSide(3) == Side(1, false);
    var given := Submission(b, 0, Some(1));
    assert Refusing([given], a.ep) == [given];
    OpenedSideShape(s, Side(1, false), cb(Side(1, false)), OfDir(true));
    BehindLoopOpens(s, a, given);
  }

  lemma BehindLoopOpens(s: State, a: Urb, c: Submission)
    requires OneOut(s, a) && c.urb.ep.kind.Bulk? && c.urb.ep.dirIn && c.urb.ep.maxPacket <= 512
    requires !a.ep.dirIn && c.linkError == 0 && c.newQh == Some(1)
    ensures OpenedBy(InCallback(SetReady(s, 0, false), 0, a), [c], OfDir(true)) >= 1
  {
    hide Enqueue, InCallback, SetReady;
    CallbackState(s, a);
    OpensOne(InCallback(SetReady(s, 0, false), 0, a), c.urb, 1, 1);
  }

  lemma {:induction false} NothingBefore(s: State, a: Urb, cb: Side -> Callbacks)
    requires OneOut(s, a)
    ensures Visited(s, 3, cb) == s
  {
    assert Visited(s, 1, cb) == s;
    assert Visited(s, 2, cb) == s;
  }

  lemma CallbackState(s: State, a: Urb)
    requires OneOut(s, a)
    ensures var c := InCallback(SetReady(s, 0, false), 0, a);
      c.nEps == 2 && c.host && c.active && c.submitted == [a] && c.bound == s.bound && c.hcpriv == s.hcpriv
      && c.qhs.Keys == {0} && c.pool == s.pool
  {
    hide Queue, Without;
  }

  // ----- More control queue heads than the loop frees -----

  ghost predicate Controls(s: State, us: seq<Urb>) {
    && s.host && s.active && s.nEps == 1 && s.submitted == us && s.ring == seq(|us|, i => i)
    && (forall q | q in s.qhs :: q < |us|) && (forall h | h in s.hcpriv :: exists u :: u in us && u.ep == h)
  }

  lemma OneMoreControl(s: State, us: seq<Urb>, u: Urb)
    requires Controls(s, us) && u.ep.kind.Control? && forall v | v in us :: v.ep != u.ep
    ensures Controls(Step(s, Submit(Submission(u, 0, Some(|us|)))), us + [u])
  {
    hide Schedule, Linked, Queue;
    var q := |us|;
    NewControlShape(s, u, q);
    var t := Enqueue(s, Submission(u, 0, Some(q))).0;
    assert u !in us && u.ep !in s.hcpriv && q !in s.qhs;
    assert t == NewControl(s, u, q);
    ControlsJoin(s, us, u, t);
  }

  lemma ControlsJoin(s: State, us: seq<Urb>, u: Urb, t: State)
    requires Controls(s, us) && t == NewControl(s, u, |us|)
    ensures Controls(t, us + [u])
  {
    assert s.ring + [|us|] == seq(|us| + 1, i => i);
    assert u in us + [u];
    forall h | h in t.hcpriv ensures exists v :: v in us + [u] && v.ep == h {
      if h != u.ep {
        var v :| v in us && v.ep == h;
        assert v in us + [u];
      }
    }
  }

  /** Three control endpoints have URBs queued; nothing is submitted during the shutdown.
      The third queue head is still on the ring and bound to endpoint 0. */
  lemma ThreeControls(us: seq<Urb>, cb: Side -> Callbacks) returns (states: seq<State>)
    requires |us| == 3 && (forall u | u in us :: u.ep.kind.Control?)
    requires forall i, j | 0 <= i < j < 3 :: us[i].ep != us[j].ep
    requires forall side :: cb(side) == []
    ensures IsRun(states, [SetRole(true, true), Submit(Submission(us[0], 0, Some(0))),
                           Submit(Submission(us[1], 0, Some(1))), Submit(Submission(us[2], 0, Some(2))),
                           DisableAll(cb)])
    ensures states[4].ring == [0, 1, 2]
    ensures states[5].ring == [2] && Side(0, true) in states[5].bound && states[5].bound[Side(0, true)] == 2
  {
    hide Step, Inv, Controls;
    var events := [SetRole(true, true), Submit(Submission(us[0], 0, Some(0))), Submit(Submission(us[1], 0, Some(1))),
                   Submit(Submission(us[2], 0, Some(2))), DisableAll(cb)];
    var s1 := Active(1);
    NoControls();
    var s2 := Step(s1, events[1]);
    OneMoreControl(s1, [], us[0]);
    assert [] + [us[0]] == [us[0]];
    var s3 := Step(s2, events[2]);
    OneMoreControl(s2, [us[0]], us[1]);
    var s4 := Step(s3, events[3]);
    OneMoreControl(s3, [us[0]] + [us[1]], us[2]);
    var s5 := Step(s4, events[4]);
    states := [Fresh(1), s1, s2, s3, s4, s5];
    RunKeeps(states, events, 4);
    ThreeOnRing(s4, us);
    LastStep(s4, cb);
    NoCallbacks(s4, cb);
    ShutdownClears(s4, cb);
    RingFacts(s5, 2, None);
  }

  lemma NoControls()
    ensures Controls(Active(1), [])
  {
  }

  lemma ThreeOnRing(s: State, us: seq<Urb>)
    requires |us| == 3 && Controls(s, [us[0]] + [us[1]] + [us[2]])
    ensures s.ring == [0, 1, 2] && s.nEps == 1
  {
  }

  lemma NoCallbacks(s: State, cb: Side -> Callbacks)
    requires forall side :: cb(side) == []
    ensures AllRefused(s, cb)
  {
    hide Visited;
  }
}
