/** `musb_h_pre_disable` frees every queue head that was bound to an endpoint above 0 and
    gives all its URBs back, whatever the completion callbacks submit. */
module SchedulerReturns {
  import opened Wrappers
  import opened Slots
  import opened Scheduler
  import opened SchedulerInvariant
  import opened SchedulerGiveback
  import opened SchedulerAdvance
  import opened SchedulerRuns
  import opened SchedulerOpens
  import opened SchedulerShutdown

  /** The queue head of a side is left alone, but for URBs that join its list. */
  ghost predicate Kept(s: State, t: State, y: Side) {
    && y in s.bound && s.bound[y] in s.qhs && y in t.bound && t.bound[y] == s.bound[y] && t.bound[y] in t.qhs
    && t.qhs[t.bound[y]].hep == s.qhs[s.bound[y]].hep
    && Queue(s, s.qhs[s.bound[y]].hep) <= Queue(t, s.qhs[s.bound[y]].hep)
  }

  lemma KeptTrans(s: State, t: State, r: State, y: Side)
    requires Kept(s, t, y) && Kept(t, r, y)
    ensures Kept(s, r, y)
  {
    hide Queue;
    var h := s.qhs[s.bound[y]].hep;
    assert Queue(s, h) <= Queue(t, h) <= Queue(r, h);
  }

  lemma KeptReady(s: State, q: nat, ready: bool, y: Side)
    requires q in s.qhs && y in s.bound && s.bound[y] in s.qhs
    ensures Kept(s, SetReady(s, q, ready), y)
  {
    SameQueue(s, SetReady(s, q, ready), s.qhs[s.bound[y]].hep);
  }

  lemma KeptGrows(s: State, t: State, y: Side)
    requires Grows(s, t) && y in s.bound && s.bound[y] in s.qhs
    ensures Kept(s, t, y)
  {
    hide Queue;
  }

  lemma {:induction false} KeptUnlinked(s: State, u: Urb, y: Side)
    requires QueuesOk(s) && u in Queue(s, u.ep)
    requires y in s.bound && s.bound[y] in s.qhs && s.qhs[s.bound[y]].hep != u.ep
    ensures Kept(s, Unlinked(s, u, false), y)
  {
    hide Queue, Without;
    UnlinkQueues(s, u, false);
  }

  /** Giving back an URB of another endpoint. */
  lemma KeptReturned(s: State, u: Urb, q: nat, cs: seq<Submission>, y: Side)
    requires Inv(s, Some(u.ep)) && q in s.qhs && s.qhs[q].hep == u.ep && Queue(s, u.ep) != [] && Queue(s, u.ep)[0] == u
    requires y in s.bound && s.bound[y] in s.qhs && s.qhs[s.bound[y]].hep != u.ep
    ensures Kept(s, Returned(s, u, q, false, cs), y)
  {
    hide Inv, Queue, Without, SetReady, Kept, Unlinked, Grows, QueuesOk;
    var t := SetReady(s, q, false);
    KeptReady(s, q, false, y);
    KeptQh(s, t, y);
    ReadyShape(s, q, false);
    SameQueue(s, t, u.ep);
    assert u in Queue(t, u.ep);
    SetReadyKeeps(s, q, false, Some(u.ep), Some(u.ep));
    QueuesOfInv(t, Some(u.ep));
    var c := Unlinked(t, u, false);
    KeptUnlinked(t, u, y);
    KeptQh(t, c, y);
    GivebackKeeps(t, u, false, cs);
    var g := Giveback(t, u, false, cs);
    KeptGrows(c, g, y);
    KeptQh(c, g, y);
    UnlinkedQhs(t, u, false, g, q);
    KeptReady(g, q, s.qhs[q].ready, y);
    KeptTrans(s, t, c, y);
    KeptTrans(s, c, g, y);
    KeptTrans(s, g, Returned(s, u, q, false, cs), y);
  }

  lemma KeptQh(s: State, t: State, y: Side)
    requires Kept(s, t, y)
    ensures y in s.bound && s.bound[y] in s.qhs && y in t.bound && t.bound[y] == s.bound[y] && t.bound[y] in t.qhs
    ensures t.qhs[t.bound[y]].hep == s.qhs[s.bound[y]].hep
  {
  }

  lemma KeptDropped(r: State, q: nat, y: Side)
    requires q in r.qhs && (r.qhs[q].hep.kind.Control? ==> r.ring != [])
    requires y in r.bound && y.num > 0 && r.bound[y] in r.qhs && r.bound[y] != q
    requires !r.qhs[q].hep.kind.Control? ==> y != Side(r.qhs[q].hw, r.qhs[q].hep.dirIn)
    ensures Kept(r, Dropped(r, q), y)
  {
    SameQueue(r, Dropped(r, q), r.qhs[r.bound[y]].hep);
  }

  /** Two sides above endpoint 0 have queue heads of their own. */
  lemma OwnQh(s: State, a: Side, b: Side, open: Option<Endpoint>)
    requires Inv(s, open) && a in s.bound && b in s.bound && a != b && b.num > 0
    ensures s.bound[a] in s.qhs && s.bound[b] in s.qhs && s.bound[a] != s.bound[b]
    ensures s.qhs[s.bound[a]].hep != s.qhs[s.bound[b]].hep
    ensures !s.qhs[s.bound[a]].hep.kind.Control? ==> b != Side(s.qhs[s.bound[a]].hw, s.qhs[s.bound[a]].hep.dirIn)
  {
    hide Inv;
    SideOfQh(s, a, open);
    SideOfQh(s, b, open);
  }

  // ----- A drain -----

  /** One round of the drain of `side`, seen from another side `y`. */
  lemma RoundKept(s: State, h: Endpoint, q: nat, side: Side, cs: seq<Submission>, n: nat, y: Side)
    requires Draining(s, h, q, side.isIn, n) && n >= 1 && side.num == s.qhs[q].hw
    requires y in s.bound && y != side && y.num > 0
    ensures Kept(s, Advance(s, Queue(s, h)[0], side, false, Refusing(cs, h)), y)
  {
    hide Inv, Advance, Queue, Returned, Refusing, Held, Dropped, Kept;
    var u := Queue(s, h)[0];
    var r := Returned(s, u, q, false, Refusing(cs, h));
    OwnQh(s, side, y, Some(h));
    DrainStep(s, h, q, side, cs);
    HeldQh(s, u, q, r);
    KeptReturned(s, u, q, Refusing(cs, h), y);
    KeptQh(s, r, y);
    if n == 1 {
      KeptDropped(r, q, y);
      KeptTrans(s, r, Dropped(r, q), y);
    }
  }

  lemma {:induction false} DrainKept(s: State, h: Endpoint, q: nat, side: Side, cb: Callbacks, n: nat, y: Side)
    requires Draining(s, h, q, side.isIn, n) && n >= 1 && side.num == s.qhs[q].hw
    requires !h.kind.Control? ==> side.isIn == h.dirIn
    requires y in s.bound && y != side && y.num > 0
    ensures Kept(s, DrainBound(s, h, q, side.isIn, cb, n), y)
    decreases n
  {
    hide Inv, Advance, Queue, Refusing, DrainBound, First, Rest, Drained, Kept, OpenedBy, InCallback, Left, Changed;
    var t := Advance(s, Queue(s, h)[0], side, false, Refusing(First(cb), h));
    DrainBoundStep(s, h, q, side.isIn, cb, n);
    RoundKept(s, h, q, side, First(cb), n, y);
    KeptQh(s, t, y);
    if n > 1 {
      RoundLeft(s, h, q, side, First(cb), n, ControlQh);
      DrainKept(t, h, q, side, Rest(cb), n - 1, y);
      KeptTrans(s, t, DrainBound(s, h, q, side.isIn, cb, n), y);
    }
  }

  /** Disabling a side leaves the others above endpoint 0 alone. */
  lemma SideKept(s: State, side: Side, cb: Callbacks, y: Side)
    requires Inv(s, None) && y in s.bound && y != side && y.num > 0
    ensures Kept(s, DisableSide(s, side, cb), y)
  {
    hide Inv, Queue, Advance, DrainBound, Kept, SetReady, Refusing, First, Rest, DisableQh, LogsGrow, Changed, Left,
      OpenedBy, InCallback;
    SideOfQh(s, y, None);
    if side in s.bound {
      SideDraining(s, side);
      var q, h := s.bound[side], s.qhs[s.bound[side]].hep;
      var t, n, u := SetReady(s, q, false), |Queue(s, h)|, Queue(s, h)[0];
      var pipe := Side(side.num, PipeIn(u));
      var r := Advance(t, u, pipe, false, Refusing(First(cb), h));
      DisableSideShape(s, side, cb);
      DisableBoundShape(s, q, side.isIn, cb);
      KeptReady(s, q, false, y);
      KeptQh(s, t, y);
      RoundKept(t, h, q, pipe, First(cb), n, y);
      KeptQh(t, r, y);
      KeptTrans(s, t, r, y);
      if n > 1 {
        RoundLeft(t, h, q, pipe, First(cb), n, ControlQh);
        OtherSide(r, h, q, pipe, side, n - 1);
        DrainKept(r, h, q, side, Rest(cb), n - 1, y);
        KeptTrans(s, r, DisableSide(s, side, cb), y);
      }
    } else {
      KeptSame(s, y);
    }
  }

  lemma KeptSame(s: State, y: Side)
    requires y in s.bound && s.bound[y] in s.qhs
    ensures Kept(s, s, y)
  {
  }

  // ----- The shutdown -----

  /** Until its visit the queue head of a side is left alone. */
  lemma {:induction false} UntouchedBefore(s: State, k: nat, cb: Side -> Callbacks, y: Side)
    requires Inv(s, None) && y in s.bound && y.num > 0 && k <= Visit(y)
    ensures Kept(s, Visited(s, k, cb), y)
    decreases k
  {
    hide Inv, DisableSide, Kept, VisitSide;
    SideOfQh(s, y, None);
    if k == 0 {
      KeptSame(s, y);
    } else {
      UntouchedBefore(s, k - 1, cb, y);
      VisitedKeeps(s, 0, k - 1, cb);
      VisitOnce(k - 1, y);
      KeptQh(s, Visited(s, k - 1, cb), y);
      SideKept(Visited(s, k - 1, cb), VisitSide(k - 1), cb(VisitSide(k - 1)), y);
      KeptTrans(s, Visited(s, k - 1, cb), Visited(s, k, cb), y);
    }
  }

  /** Whatever the callbacks do: the queue head of a bound endpoint above 0 is still bound,
      with at least its URBs, when the loop comes to it. The visit gives all of them back
      one after the other, frees the queue head and leaves the side unbound; what was
      given back stays given back. */
  lemma ShutdownReturns(s: State, cb: Side -> Callbacks, y: Side)
    requires Inv(s, None) && y in s.bound && y.num > 0
    ensures s.bound[y] in s.qhs && y.num < s.nEps
    ensures var h, r, v := s.qhs[s.bound[y]].hep, Visited(s, Visit(y), cb), Visited(s, Visit(y) + 1, cb);
      var t := PreDisable(s, 0, s.nEps, cb);
      && y in r.bound && r.bound[y] == s.bound[y] && Queue(s, h) <= Queue(r, h)
      && y !in v.bound && h !in v.hcpriv && (forall q | q in v.qhs :: v.qhs[q].hep != h)
      && v.given == r.given + Queue(r, h) && v.given <= t.given
      && (forall u | u in Queue(s, h) :: u in t.given)
  {
    hide Inv, DisableSide, Kept, VisitSide, PreDisable, Queue, OpenedAt;
    SideOfQh(s, y, None);
    BoundBelow(s);
    var h, k := s.qhs[s.bound[y]].hep, Visit(y);
    var r := Visited(s, k, cb);
    UntouchedBefore(s, k, cb, y);
    KeptQh(s, r, y);
    KeptQueue(s, r, y);
    VisitedKeeps(s, 0, k, cb);
    VisitOnce(k, y);
    VisitLeft(s, k, cb, OfDir(y.isIn));
    DisableSideKeeps(r, y, cb(y));
    ShutdownVisited(s, cb);
    NoQhLeft(Visited(s, k + 1, cb), h);
    VisitedKeeps(s, k + 1, 2 * s.nEps, cb);
    PrefixMembers(r.given, Queue(s, h), Queue(r, h), PreDisable(s, 0, s.nEps, cb).given);
  }

  lemma NoQhLeft(s: State, h: Endpoint)
    requires Inv(s, None) && h !in s.hcpriv
    ensures forall q | q in s.qhs :: s.qhs[q].hep != h
  {
    forall q | q in s.qhs ensures s.qhs[q].hep != h { QhFacts(s, q, None); }
  }

  lemma KeptQueue(s: State, t: State, y: Side)
    requires Kept(s, t, y)
    ensures Queue(s, s.qhs[s.bound[y]].hep) <= Queue(t, s.qhs[s.bound[y]].hep)
  {
  }

  lemma PrefixMembers(g: seq<Urb>, q: seq<Urb>, r: seq<Urb>, all: seq<Urb>)
    requires q <= r && g + r <= all
    ensures forall u | u in q :: u in all
  {
    forall u | u in q ensures u in all {
      var i :| 0 <= i < |q| && q[i] == u;
      assert r[i] == u && (g + r)[|g| + i] == u;
    }
  }
}
