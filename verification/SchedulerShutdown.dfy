/** What `musb_h_pre_disable` leaves behind, whatever the completion callbacks submit. */
module SchedulerShutdown {
  import opened Wrappers
  import opened Slots
  import opened Scheduler
  import opened SchedulerInvariant
  import opened SchedulerGiveback
  import opened SchedulerAdvance
  import opened SchedulerRuns
  import opened SchedulerTheorems
  import opened SchedulerOpens

  // ----- The loop, one side at a time -----

  /** The sides in the order of the loop: IN and OUT of endpoint 0, of 1, and so on. */
  function VisitSide(k: nat): Side { Side(k / 2, k % 2 == 0) }

  function Visit(side: Side): nat { 2 * side.num + if side.isIn then 0 else 1 }

  lemma VisitOnce(k: nat, side: Side)
    ensures VisitSide(k) == side <==> k == Visit(side)
  {
  }

  /** The state before the `k`th visit. */
  function Visited(s: State, k: nat, cb: Side -> Callbacks): State {
    if k == 0 then s else DisableSide(Visited(s, k - 1, cb), VisitSide(k - 1), cb(VisitSide(k - 1)))
  }

  lemma {:induction false} VisitedAll(s: State, from: nat, last: nat, cb: Side -> Callbacks)
    requires from <= last
    ensures PreDisable(Visited(s, 2 * from, cb), from, last, cb) == Visited(s, 2 * last, cb)
    decreases last - from
  {
    hide DisableSide;
    if from < last {
      VisitOnce(2 * from, Side(from, true));
      VisitOnce(2 * from + 1, Side(from, false));
      VisitedAll(s, from + 1, last, cb);
    }
  }

  lemma {:induction false} VisitedKeeps(s: State, j: nat, k: nat, cb: Side -> Callbacks)
    requires Inv(s, None) && j <= k
    ensures Inv(Visited(s, k, cb), None) && LogsGrow(Visited(s, j, cb), Visited(s, k, cb))
    ensures Visited(s, k, cb).active == Visited(s, j, cb).active
    decreases k
  {
    hide Inv, DisableSide;
    if j < k {
      VisitedKeeps(s, j, k - 1, cb);
      DisableSideKeeps(Visited(s, k - 1, cb), VisitSide(k - 1), cb(VisitSide(k - 1)));
    } else if k > 0 {
      VisitedKeeps(s, k - 1, k - 1, cb);
      DisableSideKeeps(Visited(s, k - 1, cb), VisitSide(k - 1), cb(VisitSide(k - 1)));
    }
  }

  /** The queue heads that callbacks open during the `k`th visit. */
  function OpenedAt(s: State, k: nat, cb: Side -> Callbacks, x: Target): nat {
    OpenedSide(Visited(s, k, cb), VisitSide(k), cb(VisitSide(k)), x)
  }

  lemma VisitLeft(s: State, k: nat, cb: Side -> Callbacks, x: Target)
    requires Inv(s, None)
    ensures var r, t, side := Visited(s, k, cb), Visited(s, k + 1, cb), VisitSide(k);
      if side in r.bound then Left(r, side, t, x, OpenedAt(s, k, cb, x)) else t == r && OpenedAt(s, k, cb, x) == 0
  {
    hide Inv, DisableSide, OpenedSide, Left, VisitSide;
    VisitedKeeps(s, k, k, cb);
    if VisitSide(k) in Visited(s, k, cb).bound {
      SideLeft(Visited(s, k, cb), VisitSide(k), cb(VisitSide(k)), x);
    } else {
      UnboundSame(Visited(s, k, cb), VisitSide(k), cb(VisitSide(k)), x);
    }
  }

  lemma UnboundSame(s: State, side: Side, cb: Callbacks, x: Target)
    requires side !in s.bound
    ensures DisableSide(s, side, cb) == s && OpenedSide(s, side, cb, x) == 0
  {
  }

  // ----- Endpoints other than 0 -----

  /** While no callback opens a queue head of a direction, the sides visited stay unbound. */
  lemma {:induction false} StaysUnbound(s: State, m: nat, cb: Side -> Callbacks, isIn: bool)
    requires Inv(s, None)
    requires forall k: nat | Visit(Side(1, isIn)) < k < m :: OpenedAt(s, k, cb, OfDir(isIn)) == 0
    ensures forall e: nat | e > 0 && Visit(Side(e, isIn)) < m :: Side(e, isIn) !in Visited(s, m, cb).bound
    decreases m
  {
    hide Inv, Visited, OpenedAt;
    if m > 0 {
      var k := m - 1;
      StaysUnbound(s, k, cb, isIn);
      VisitLeft(s, k, cb, OfDir(isIn));
      forall e: nat | e > 0 && Visit(Side(e, isIn)) < m ensures Side(e, isIn) !in Visited(s, m, cb).bound {
        VisitOnce(k, Side(e, isIn));
      }
    }
  }

  /** Once a callback opened one after the visit of endpoint 1, that side stays bound. */
  lemma {:induction false} StaysBound(s: State, k: nat, m: nat, cb: Side -> Callbacks, isIn: bool)
    requires Inv(s, None) && Visit(Side(1, isIn)) < k < m && OpenedAt(s, k, cb, OfDir(isIn)) > 0
    ensures Side(1, isIn) in Visited(s, m, cb).bound
    decreases m
  {
    hide Inv, Visited, OpenedAt;
    VisitLeft(s, m - 1, cb, OfDir(isIn));
    VisitOnce(m - 1, Side(1, isIn));
    if k < m - 1 { StaysBound(s, k, m - 1, cb, isIn); }
  }

  /** No callback opens a queue head of a direction after the visit of endpoint 1. */
  ghost predicate NoneOpened(s: State, cb: Side -> Callbacks, isIn: bool) {
    forall k: nat | Visit(Side(1, isIn)) < k < 2 * s.nEps :: OpenedAt(s, k, cb, OfDir(isIn)) == 0
  }

  /** Whatever the callbacks do: the shutdown leaves every endpoint but 0 unbound in a
      direction exactly if no callback opens a queue head of that direction after the
      loop visited endpoint 1; and no slot is in use exactly if that holds for both. */
  lemma {:induction false} ShutdownExact(s: State, cb: Side -> Callbacks)
    requires Inv(s, None) && s.nEps >= 1
    ensures var t := PreDisable(s, 0, s.nEps, cb);
      && Inv(t, None)
      && (forall isIn :: (forall e: nat | e > 0 :: Side(e, isIn) !in t.bound) <==> NoneOpened(s, cb, isIn))
      && (t.pool.used == {} <==> NoneOpened(s, cb, true) && NoneOpened(s, cb, false))
      && (t.pool.used == {} ==> t.pool.held == map[])
  {
    hide Inv, Visited, OpenedAt, PreDisable;
    var t := PreDisable(s, 0, s.nEps, cb);
    ShutdownVisited(s, cb);
    forall isIn: bool ensures (forall e: nat | e > 0 :: Side(e, isIn) !in t.bound) <==> NoneOpened(s, cb, isIn) {
      DirectionExact(s, t, cb, isIn);
    }
    SlotsOfBound(t);
    SidesOfBothDirections(t);
  }

  lemma {:induction false} ShutdownVisited(s: State, cb: Side -> Callbacks)
    requires Inv(s, None)
    ensures PreDisable(s, 0, s.nEps, cb) == Visited(s, 2 * s.nEps, cb)
    ensures Inv(PreDisable(s, 0, s.nEps, cb), None) && PreDisable(s, 0, s.nEps, cb).nEps == s.nEps
  {
    hide Inv, PreDisable, VisitSide;
    assert Visited(s, 0, cb) == s;
    VisitedAll(s, 0, s.nEps, cb);
    VisitedKeeps(s, 0, 2 * s.nEps, cb);
  }

  lemma {:induction false} DirectionExact(s: State, t: State, cb: Side -> Callbacks, isIn: bool)
    requires Inv(s, None) && t == Visited(s, 2 * s.nEps, cb) && Inv(t, None) && t.nEps == s.nEps
    ensures (forall e: nat | e > 0 :: Side(e, isIn) !in t.bound) <==> NoneOpened(s, cb, isIn)
  {
    hide Inv, Visited, OpenedAt;
    if NoneOpened(s, cb, isIn) {
      StaysUnbound(s, 2 * s.nEps, cb, isIn);
      BoundBelow(t);
      forall e: nat | e > 0 ensures Side(e, isIn) !in t.bound { }
    } else {
      var k: nat :| Visit(Side(1, isIn)) < k < 2 * s.nEps && OpenedAt(s, k, cb, OfDir(isIn)) != 0;
      StaysBound(s, k, 2 * s.nEps, cb, isIn);
    }
  }

  lemma SidesOfBothDirections(t: State)
    ensures (forall side | side in t.bound :: side.num == 0)
            <==> (forall isIn, e: nat | e > 0 :: Side(e, isIn) !in t.bound)
  {
    if forall isIn, e: nat | e > 0 :: Side(e, isIn) !in t.bound {
      forall side | side in t.bound ensures side.num == 0 { assert side == Side(side.num, side.isIn); }
    }
  }

  lemma BoundBelow(s: State)
    requires Inv(s, None)
    ensures forall side | side in s.bound && side.num > 0 :: side.num < s.nEps
  {
    hide LogOk, PoolHeld, QueuesOk, EndpointsOk, RingOk;
    forall side | side in s.bound && side.num > 0 ensures side.num < s.nEps {
      assert SideOk(s, side);
      assert QhOk(s, s.bound[side], None);
    }
  }

  // ----- The control ring -----

  lemma ZeroBound(s: State)
    requires Inv(s, None)
    ensures forall isIn :: Side(0, isIn) in s.bound <==> s.ring != []
  {
    hide LogOk, PoolHeld, QhsOk, QueuesOk, EndpointsOk;
    forall isIn: bool ensures Side(0, isIn) in s.bound <==> s.ring != [] {
      if Side(0, isIn) in s.bound { assert SideOk(s, Side(0, isIn)); }
    }
  }

  function ControlOpened(s: State, k: nat, cb: Side -> Callbacks): nat { OpenedAt(s, k, cb, ControlQh) }

  /** Endpoint 0 is visited once per direction, so two control queue heads go. */
  lemma {:induction false} RingAfterZero(s: State, cb: Side -> Callbacks)
    requires Inv(s, None)
    ensures var r := Visited(s, 2, cb).ring;
      && (s.ring == [] ==> r == [])
      && (s.ring != [] && |s.ring| + ControlOpened(s, 0, cb) == 1 ==> r == [])
      && (s.ring != [] && |s.ring| + ControlOpened(s, 0, cb) >= 2 ==>
            |r| + 2 == |s.ring| + ControlOpened(s, 0, cb) + ControlOpened(s, 1, cb))
      && (|s.ring| >= 2 ==> s.ring[2..] <= r)
  {
    hide Inv, DisableSide, OpenedAt;
    VisitLeft(s, 0, cb, ControlQh);
    VisitLeft(s, 1, cb, ControlQh);
    VisitedKeeps(s, 0, 1, cb);
    ZeroBound(s);
    ZeroBound(Visited(s, 1, cb));
    assert VisitSide(0) == Side(0, true) && VisitSide(1) == Side(0, false);
    assert Visited(s, 0, cb) == s;
    var m := Visited(s, 1, cb).ring;
    if |s.ring| >= 2 {
      assert s.ring[1..] <= m;
      assert s.ring[2..] == s.ring[1..][1..] <= m[1..];
    }
  }

  lemma {:induction false} RingLater(s: State, m: nat, cb: Side -> Callbacks)
    requires Inv(s, None) && m >= 2
    ensures Visited(s, 2, cb).ring <= Visited(s, m, cb).ring
    ensures Visited(s, 2, cb).ring == Visited(s, m, cb).ring
            <==> forall k: nat | 2 <= k < m :: ControlOpened(s, k, cb) == 0
    decreases m
  {
    hide Inv, Visited, OpenedAt;
    if m > 2 {
      RingLater(s, m - 1, cb);
      VisitLeft(s, m - 1, cb, ControlQh);
      assert VisitSide(m - 1).num != 0;
      var a, b, c := Visited(s, 2, cb).ring, Visited(s, m - 1, cb).ring, Visited(s, m, cb).ring;
      assert b <= c && |c| == |b| + ControlOpened(s, m - 1, cb);
    }
  }

  /** Whatever the callbacks do: endpoint 0 ends unbound exactly if no more than two
      control queue heads are on the ring or join it while the loop is at endpoint 0,
      and none joins later. */
  lemma {:induction false} RingExact(s: State, cb: Side -> Callbacks)
    requires Inv(s, None) && s.nEps >= 1
    ensures var t := PreDisable(s, 0, s.nEps, cb);
      && (|s.ring| >= 2 ==> s.ring[2..] <= t.ring)
      && (Side(0, true) !in t.bound && Side(0, false) !in t.bound
          <==> && (s.ring == [] || |s.ring| + ControlOpened(s, 0, cb) + ControlOpened(s, 1, cb) <= 2)
               && forall k: nat | 2 <= k < 2 * s.nEps :: ControlOpened(s, k, cb) == 0)
  {
    hide Inv, Visited, OpenedAt, PreDisable;
    var t := PreDisable(s, 0, s.nEps, cb);
    ShutdownVisited(s, cb);
    ZeroBound(t);
    RingAfterZero(s, cb);
    RingLater(s, 2 * s.nEps, cb);
    OneControl(s, cb);
  }

  /** Nothing is drained at the second visit when the first emptied the ring. */
  lemma OneControl(s: State, cb: Side -> Callbacks)
    requires Inv(s, None)
    ensures s.ring != [] && |s.ring| + ControlOpened(s, 0, cb) == 1 ==> ControlOpened(s, 1, cb) == 0
  {
    hide Inv, DisableSide, OpenedAt;
    VisitLeft(s, 0, cb, ControlQh);
    VisitLeft(s, 1, cb, ControlQh);
    VisitedKeeps(s, 0, 1, cb);
    ZeroBound(s);
    ZeroBound(Visited(s, 1, cb));
    assert VisitSide(0) == Side(0, true) && VisitSide(1) == Side(0, false);
    assert Visited(s, 0, cb) == s;
  }

  // ----- Callbacks that get nothing accepted -----

  ghost predicate Silent(active: bool, cs: seq<Submission>) {
    !active || forall i | 0 <= i < |cs| :: cs[i].linkError != 0
  }

  /** Once endpoint `h` refuses, nothing that the callbacks submit is accepted. */
  ghost predicate SilentFor(active: bool, cb: Callbacks, h: Endpoint) {
    forall k | 0 <= k < |cb| :: Silent(active, Refusing(cb[k], h))
  }

  /** Callbacks that resubmit to their own endpoint are silent during its drain. */
  lemma OwnRefused(active: bool, cb: Callbacks, h: Endpoint)
    requires forall k, i | 0 <= k < |cb| && 0 <= i < |cb[k]| :: cb[k][i].urb.ep == h || cb[k][i].linkError != 0
    ensures SilentFor(active, cb, h)
  {
  }

  lemma {:induction false} SilentOpens(s: State, cs: seq<Submission>, x: Target)
    requires Silent(s.active, cs)
    ensures OpenedBy(s, cs, x) == 0
    decreases |cs|
  {
    if cs != [] {
      SilentOne(s, cs[0]);
      SilentOpens(s, cs[1..], x);
    }
  }

  lemma SilentOne(s: State, c: Submission)
    requires s.active ==> c.linkError != 0
    ensures Enqueue(s, c).0 == s && Enqueue(s, c).1 != 0
  {
    hide Schedule;
  }

  lemma CallbacksSilent(active: bool, cb: Callbacks, h: Endpoint)
    requires SilentFor(active, cb, h)
    ensures Silent(active, Refusing(First(cb), h)) && SilentFor(active, Rest(cb), h)
  {
    if cb != [] {
      assert forall k | 0 <= k < |Rest(cb)| :: Rest(cb)[k] == cb[k + 1];
    } else {
      assert Refusing([], h) == [];
    }
  }

  lemma {:induction false} SilentDrain(s: State, h: Endpoint, q: nat, side: Side, cb: Callbacks, n: nat, x: Target)
    requires Draining(s, h, q, side.isIn, n) && n >= 1 && side.num == s.qhs[q].hw
    requires !h.kind.Control? ==> side.isIn == h.dirIn
    requires SilentFor(s.active, cb, h)
    ensures OpenedDrain(s, h, q, side.isIn, cb, n, x) == 0
    decreases n
  {
    hide Inv, Advance, Queue, Refusing, OpenedDrain, First, Rest, OpenedBy, InCallback, Left, Changed, Silent,
      SilentFor;
    OpenedDrainUnfold(s, h, q, side.isIn, cb, n, x);
    CallbacksSilent(s.active, cb, h);
    ActiveInCallback(s, q, Queue(s, h)[0]);
    SilentOpens(InCallback(s, q, Queue(s, h)[0]), Refusing(First(cb), h), x);
    if n > 1 {
      RoundLeft(s, h, q, side, First(cb), n, x);
      DrainStep(s, h, q, side, First(cb));
      SilentDrain(Advance(s, Queue(s, h)[0], side, false, Refusing(First(cb), h)), h, q, side, Rest(cb), n - 1, x);
    }
  }

  lemma ActiveInCallback(s: State, q: nat, u: Urb)
    ensures InCallback(s, q, u).active == s.active
  {
    hide Queue, Without, SetReady;
    SetReadySame(s, q, false);
  }

  lemma SilentSide(s: State, side: Side, cb: Callbacks, x: Target)
    requires Inv(s, None)
    requires side in s.bound && s.bound[side] in s.qhs ==> SilentFor(s.active, cb, s.qhs[s.bound[side]].hep)
    ensures OpenedSide(s, side, cb, x) == 0
  {
    hide Inv, Queue, Advance, OpenedDrain, OpenedSide, OpenedBy, InCallback, SetReady, Refusing, First, Rest, Silent,
      SilentFor, Left, Changed, LogsGrow;
    if side in s.bound {
      SideDraining(s, side);
      var q, h := s.bound[side], s.qhs[s.bound[side]].hep;
      var t, n, u := SetReady(s, q, false), |Queue(s, h)|, Queue(s, h)[0];
      var pipe := Side(side.num, PipeIn(u));
      OpenedSideShape(s, side, cb, x);
      CallbacksSilent(s.active, cb, h);
      ActiveInCallback(t, q, u);
      SilentOpens(InCallback(t, q, u), Refusing(First(cb), h), x);
      if n > 1 {
        var r := Advance(t, u, pipe, false, Refusing(First(cb), h));
        RoundLeft(t, h, q, pipe, First(cb), n, x);
        DrainStep(t, h, q, pipe, First(cb));
        OtherSide(r, h, q, pipe, side, n - 1);
        SilentDrain(r, h, q, side, Rest(cb), n - 1, x);
      }
    } else {
      UnboundSame(s, side, cb, x);
    }
  }

  /** The callbacks of each visit are silent once the endpoint found there refuses. */
  ghost predicate AllRefused(s: State, cb: Side -> Callbacks) {
    forall k: nat | k < 2 * s.nEps ::
      var r, side := Visited(s, k, cb), VisitSide(k);
      side in r.bound && r.bound[side] in r.qhs ==> SilentFor(s.active, cb(side), r.qhs[r.bound[side]].hep)
  }

  lemma NothingOpened(s: State, k: nat, cb: Side -> Callbacks, x: Target)
    requires Inv(s, None) && AllRefused(s, cb) && k < 2 * s.nEps
    ensures OpenedAt(s, k, cb, x) == 0
  {
    hide Inv, Visited, OpenedSide, SilentFor, VisitSide;
    VisitedKeeps(s, 0, k, cb);
    assert Visited(s, 0, cb) == s by { VisitedZero(s, cb); }
    SilentSide(Visited(s, k, cb), VisitSide(k), cb(VisitSide(k)), x);
  }

  lemma {:induction false} VisitedZero(s: State, cb: Side -> Callbacks)
    ensures Visited(s, 0, cb) == s
  {
  }

  /** Then every endpoint but 0 is unbound and no slot is in use; of the control queue
      heads the first two are gone, and endpoint 0 is unbound exactly when there were
      no more. */
  lemma {:induction false} ShutdownClears(s: State, cb: Side -> Callbacks)
    requires Inv(s, None) && s.nEps >= 1 && AllRefused(s, cb)
    ensures var t := PreDisable(s, 0, s.nEps, cb);
      && Inv(t, None)
      && (forall side | side in t.bound :: side.num == 0)
      && t.pool.used == {} && t.pool.held == map[]
      && t.ring == (if |s.ring| <= 2 then [] else s.ring[2..])
      && (t.bound == map[] <==> |s.ring| <= 2)
  {
    hide Inv, PreDisable, Visited, OpenedAt, AllRefused;
    var t := PreDisable(s, 0, s.nEps, cb);
    forall k: nat, x | k < 2 * s.nEps ensures OpenedAt(s, k, cb, x) == 0 { NothingOpened(s, k, cb, x); }
    ShutdownExact(s, cb);
    ShutdownVisited(s, cb);
    SlotsOfBound(t);
    ZeroBound(t);
    RingAfterZero(s, cb);
    RingLater(s, 2 * s.nEps, cb);
    if |s.ring| > 2 { assert Side(0, true) in t.bound; }
    else { assert t.bound.Keys == {}; }
  }
}
