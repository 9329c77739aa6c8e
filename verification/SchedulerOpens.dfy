/** The queue heads that completion callbacks open while an endpoint is being drained,
    and what they do to the bindings and the control ring. */
module SchedulerOpens {
  import opened Wrappers
  import opened Slots
  import opened Scheduler
  import opened SchedulerInvariant
  import opened SchedulerGiveback
  import opened SchedulerAdvance
  import opened SchedulerRuns

  /** What is counted: control queue heads, or the others of one direction. */
  datatype Target = ControlQh | OfDir(isIn: bool)

  predicate Matches(h: Endpoint, x: Target) {
    match x
    case ControlQh => h.kind.Control?
    case OfDir(isIn) => !h.kind.Control? && h.dirIn == isIn
  }

  /** A submission that is accepted for an endpoint without a queue head. */
  predicate Opens(s: State, c: Submission, x: Target) {
    Matches(c.urb.ep, x) && c.urb.ep !in s.hcpriv && Enqueue(s, c).1 == 0
  }

  function OpenedBy(s: State, cs: seq<Submission>, x: Target): nat
    decreases |cs|
  {
    if cs == [] then 0 else (if Opens(s, cs[0], x) then 1 else 0) + OpenedBy(Enqueue(s, cs[0]).0, cs[1..], x)
  }

  /** What submissions do that open `n` queue heads: the ring grows by that many; the
      first new binding of a direction is that of endpoint 1, unless it was bound. */
  ghost predicate Changed(s: State, t: State, x: Target, n: nat) {
    match x
    case ControlQh => s.ring <= t.ring && |t.ring| == |s.ring| + n
    case OfDir(d) =>
      && (n > 0 ==> Side(1, d) in t.bound)
      && (n == 0 ==> forall e: nat | e > 0 && Side(e, d) in t.bound :: Side(e, d) in s.bound)
      && (forall e: nat | e > 0 && Side(e, d) in s.bound :: Side(e, d) in t.bound)
  }

  lemma ChangedTrans(s: State, t: State, r: State, x: Target, n: nat, m: nat)
    requires Changed(s, t, x, n) && Changed(t, r, x, m)
    ensures Changed(s, r, x, n + m)
  {
  }

  lemma ChangedSame(s: State, t: State, x: Target)
    requires s.ring == t.ring && s.bound == t.bound
    ensures Changed(s, t, x, 0)
  {
  }

  // ----- Submissions -----

  lemma NewControlChanged(s: State, u: Urb, q: nat, x: Target)
    requires u.ep.kind.Control?
    ensures Changed(s, NewControl(s, u, q), x, if x.ControlQh? then 1 else 0)
  {
  }

  lemma NewBoundChanged(s: State, u: Urb, q: nat, e: nat, p: Pool<Side>, x: Target)
    requires 1 <= e && Side(e, u.ep.dirIn) !in s.bound && !u.ep.kind.Control?
    requires forall f | 1 <= f < e :: Side(f, u.ep.dirIn) in s.bound
    ensures Changed(s, NewBound(s, u, q, e, p), x, if x == OfDir(u.ep.dirIn) then 1 else 0)
  {
    if e > 1 { assert Side(1, u.ep.dirIn) in s.bound; }
  }

  lemma EnqueueChanged(s: State, c: Submission, x: Target)
    ensures Changed(s, Enqueue(s, c).0, x, if Opens(s, c, x) then 1 else 0)
  {
    hide Changed, Accepted, Linked, Schedule, NewControl, NewBound;
    var u, h := c.urb, c.urb.ep;
    ChangedSame(s, s, x);
    if s.host && s.active && LinkResult(s, c) == 0 {
      if h in s.hcpriv {
        LinkedSame(s, u, s.hcpriv[h]);
        ChangedSame(s, Enqueue(s, c).0, x);
      } else if c.newQh.Some? && c.newQh.value !in s.qhs {
        var q := c.newQh.value;
        if h.kind.Control? {
          NewControlShape(s, u, q);
          NewControlChanged(s, u, q, x);
        } else if Schedule(Linked(s, u), q, h).Some? {
          var e, p := NewBoundShape(s, u, q);
          NewBoundChanged(s, u, q, e, p, x);
        }
      }
    }
  }

  lemma LinkedSame(s: State, u: Urb, q: nat)
    ensures var t := Accepted(Linked(s, u), u, q); t.ring == s.ring && t.bound == s.bound
  {
  }

  lemma {:induction false} OpenedByChanged(s: State, cs: seq<Submission>, x: Target)
    ensures Changed(s, EnqueueAll(s, cs), x, OpenedBy(s, cs, x))
    decreases |cs|
  {
    hide Changed, Enqueue, Opens;
    if cs == [] {
      ChangedSame(s, s, x);
    } else {
      var t := Enqueue(s, cs[0]).0;
      EnqueueChanged(s, cs[0], x);
      OpenedByChanged(t, cs[1..], x);
      ChangedTrans(s, t, EnqueueAll(t, cs[1..]), x, if Opens(s, cs[0], x) then 1 else 0, OpenedBy(t, cs[1..], x));
    }
  }

  // ----- One giveback -----

  /** What the completion callback of `u` finds. */
  function InCallback(s: State, q: nat, u: Urb): State { Unlinked(SetReady(s, q, false), u, false) }

  lemma {:induction false} ReturnedChanged(s: State, u: Urb, q: nat, cs: seq<Submission>, x: Target)
    requires q in s.qhs
    ensures Changed(s, Returned(s, u, q, false, cs), x, OpenedBy(InCallback(s, q, u), cs, x))
  {
    hide Changed, Queue, OpenedBy, EnqueueAll, InCallback, Returned;
    var c, r := InCallback(s, q, u), Returned(s, u, q, false, cs);
    var t, n := EnqueueAll(c, cs), OpenedBy(c, cs, x);
    OpenedByChanged(c, cs, x);
    InCallbackSame(s, u, q);
    ReturnedBindings(s, u, q, cs);
    ChangedSame(s, c, x);
    ChangedTrans(s, c, t, x, 0, n);
    ChangedSame(t, r, x);
    ChangedTrans(s, t, r, x, n, 0);
  }

  lemma InCallbackSame(s: State, u: Urb, q: nat)
    requires q in s.qhs
    ensures InCallback(s, q, u).bound == s.bound && InCallback(s, q, u).ring == s.ring
  {
    hide Queue, Without;
  }

  lemma {:induction false} ReturnedBindings(s: State, u: Urb, q: nat, cs: seq<Submission>)
    requires q in s.qhs
    ensures var t, r := EnqueueAll(InCallback(s, q, u), cs), Returned(s, u, q, false, cs);
      r.bound == t.bound && r.ring == t.ring
  {
    hide EnqueueAll, Queue, Without;
    var t := EnqueueAll(InCallback(s, q, u), cs);
    assert Giveback(SetReady(s, q, false), u, false, cs) == t;
    SetReadySame(t, q, s.qhs[q].ready);
  }

  lemma SetReadySame(s: State, q: nat, ready: bool)
    ensures var t := SetReady(s, q, ready); t.bound == s.bound && t.ring == s.ring && t.active == s.active
  {
    if q in s.qhs {
      WithQhs(s, s.qhs[q := s.qhs[q].(ready := ready)]);
    }
  }

  lemma WithQhs(s: State, qhs: map<nat, Qh>)
    ensures var t := s.(qhs := qhs); t.bound == s.bound && t.ring == s.ring && t.active == s.active
  {
  }

  /** What the drain of the queue head on a side leaves, with `n` opened meanwhile. */
  ghost predicate Left(s: State, side: Side, t: State, x: Target, n: nat) {
    match x
    case ControlQh =>
      if side.num == 0 then s.ring != [] && s.ring[1..] <= t.ring && |t.ring| + 1 == |s.ring| + n
      else s.ring <= t.ring && |t.ring| == |s.ring| + n
    case OfDir(d) =>
      && (side.num > 0 && side.isIn == d ==> side !in t.bound)
      && (n > 0 && side != Side(1, d) ==> Side(1, d) in t.bound)
      && (n == 0 ==> forall e: nat | e > 0 && Side(e, d) in t.bound :: Side(e, d) in s.bound)
      && (forall e: nat | e > 0 && Side(e, d) in s.bound && Side(e, d) != side :: Side(e, d) in t.bound)
  }

  lemma LeftTrans(s: State, t: State, side: Side, r: State, x: Target, n: nat, m: nat)
    requires Changed(s, t, x, n) && Left(t, side, r, x, m) && (side.num == 0 ==> s.ring != [])
    ensures Left(s, side, r, x, n + m)
  {
    if x.ControlQh? && side.num == 0 { assert s.ring[1..] <= t.ring[1..]; }
  }

  lemma DroppedLeft(r: State, q: nat, side: Side, x: Target)
    requires q in r.qhs && side.num == r.qhs[q].hw
    requires if r.qhs[q].hep.kind.Control? then side.num == 0 && r.ring != []
             else side.num > 0 && r.qhs[q].hep.dirIn == side.isIn
    ensures Left(r, side, Dropped(r, q), x, 0)
  {
  }

  // ----- A drain -----

  function OpenedDrain(s: State, h: Endpoint, q: nat, isIn: bool, cb: Callbacks, n: nat, x: Target): nat
    decreases n
  {
    if n == 0 || Queue(s, h) == [] || q !in s.qhs then 0
    else
      OpenedBy(InCallback(s, q, Queue(s, h)[0]), Refusing(First(cb), h), x)
      + OpenedDrain(Advance(s, Queue(s, h)[0], Side(s.qhs[q].hw, isIn), false, Refusing(First(cb), h)),
                    h, q, isIn, Rest(cb), n - 1, x)
  }

  lemma OpenedDrainUnfold(s: State, h: Endpoint, q: nat, isIn: bool, cb: Callbacks, n: nat, x: Target)
    requires n >= 1 && Queue(s, h) != [] && q in s.qhs
    ensures var u, cs := Queue(s, h)[0], Refusing(First(cb), h);
      var t := Advance(s, u, Side(s.qhs[q].hw, isIn), false, cs);
      OpenedDrain(s, h, q, isIn, cb, n, x)
      == OpenedBy(InCallback(s, q, u), cs, x) + (if n == 1 then 0 else OpenedDrain(t, h, q, isIn, Rest(cb), n - 1, x))
  {
    hide Advance, Queue, Refusing, First, Rest, InCallback, OpenedBy;
  }

  /** One round: what the callback opened, and the queue head gone if it was the last. */
  lemma {:induction false} RoundLeft(s: State, h: Endpoint, q: nat, side: Side, cs: seq<Submission>, n: nat, x: Target)
    requires Draining(s, h, q, side.isIn, n) && n >= 1 && side.num == s.qhs[q].hw
    requires !h.kind.Control? ==> side.isIn == h.dirIn
    ensures var t := Advance(s, Queue(s, h)[0], side, false, Refusing(cs, h));
      var c := OpenedBy(InCallback(s, q, Queue(s, h)[0]), Refusing(cs, h), x);
      && (side.num == 0 ==> s.ring != [])
      && if n == 1 then Left(s, side, t, x, c)
         else Changed(s, t, x, c) && q in t.qhs && t.qhs[q].hw == s.qhs[q].hw && Draining(t, h, q, side.isIn, n - 1)
  {
    hide Inv, Advance, Queue, Returned, Refusing, Held, Changed, Left, OpenedBy, InCallback, Dropped;
    var u := Queue(s, h)[0];
    var r := Returned(s, u, q, false, Refusing(cs, h));
    SideOfQh(s, side, Some(h));
    DrainStep(s, h, q, side, cs);
    HeldQh(s, u, q, r);
    ReturnedChanged(s, u, q, Refusing(cs, h), x);
    if n == 1 {
      DroppedLeft(r, q, side, x);
      LeftTrans(s, r, side, Dropped(r, q), x, OpenedBy(InCallback(s, q, u), Refusing(cs, h), x), 0);
    }
  }

  lemma HeldQh(s: State, u: Urb, q: nat, r: State)
    requires Held(s, u, q, false, r)
    ensures q in r.qhs && q in s.qhs && r.qhs[q] == s.qhs[q]
    ensures forall side | side in s.bound :: side in r.bound && r.bound[side] == s.bound[side]
  {
  }

  lemma {:induction false} DrainLeft(s: State, h: Endpoint, q: nat, side: Side, cb: Callbacks, n: nat, x: Target)
    requires Draining(s, h, q, side.isIn, n) && n >= 1 && side.num == s.qhs[q].hw
    requires !h.kind.Control? ==> side.isIn == h.dirIn
    ensures Left(s, side, DrainBound(s, h, q, side.isIn, cb, n), x, OpenedDrain(s, h, q, side.isIn, cb, n, x))
    decreases n
  {
    hide Inv, Advance, Queue, Refusing, DrainBound, OpenedDrain, First, Rest, Drained, OpenedBy, InCallback, Left,
      Changed;
    var t := Advance(s, Queue(s, h)[0], side, false, Refusing(First(cb), h));
    DrainBoundStep(s, h, q, side.isIn, cb, n);
    RoundLeft(s, h, q, side, First(cb), n, x);
    OpenedDrainUnfold(s, h, q, side.isIn, cb, n, x);
    if n > 1 {
      DrainLeft(t, h, q, side, Rest(cb), n - 1, x);
      LeftTrans(s, t, side, DrainBound(s, h, q, side.isIn, cb, n), x,
                OpenedBy(InCallback(s, q, Queue(s, h)[0]), Refusing(First(cb), h), x),
                OpenedDrain(t, h, q, side.isIn, Rest(cb), n - 1, x));
    }
  }

  // ----- Disabling what is bound to a side -----

  /** The queue heads opened while `musb_h_disable` works on a bound side. */
  function OpenedSide(s: State, side: Side, cb: Callbacks, x: Target): nat {
    if side !in s.bound || s.bound[side] !in s.qhs then 0
    else
      var q := s.bound[side];
      var h, t := s.qhs[q].hep, SetReady(s, q, false);
      var n := |Queue(s, h)|;
      if n == 0 then 0
      else
        var u, cs := Queue(s, h)[0], Refusing(First(cb), h);
        OpenedBy(InCallback(t, q, u), cs, x)
        + OpenedDrain(Advance(t, u, Side(s.qhs[q].hw, PipeIn(u)), false, cs), h, q, side.isIn, Rest(cb), n - 1, x)
  }

  lemma {:induction false} OpenedSideShape(s: State, side: Side, cb: Callbacks, x: Target)
    requires side in s.bound && s.bound[side] in s.qhs && Queue(s, s.qhs[s.bound[side]].hep) != []
    ensures var q, h := s.bound[side], s.qhs[s.bound[side]].hep;
      var n, u, cs := |Queue(s, h)|, Queue(s, h)[0], Refusing(First(cb), h);
      var r := Advance(SetReady(s, q, false), u, Side(s.qhs[q].hw, PipeIn(u)), false, cs);
      OpenedSide(s, side, cb, x)
      == OpenedBy(InCallback(SetReady(s, q, false), q, u), cs, x)
         + (if n == 1 then 0 else OpenedDrain(r, h, q, side.isIn, Rest(cb), n - 1, x))
  {
    hide Advance, Queue, Refusing, First, Rest, InCallback, OpenedBy, SetReady;
  }

  lemma DisableSideShape(s: State, side: Side, cb: Callbacks)
    requires side in s.bound && s.bound[side] in s.qhs
    ensures DisableSide(s, side, cb) == DisableQh(s, s.bound[side], side.isIn, cb)
  {
    hide DisableQh;
  }

  /** The drain of a bound side starts with the pipe of its first URB. */
  lemma SideDraining(s: State, side: Side)
    requires Inv(s, None) && side in s.bound
    ensures s.bound[side] in s.qhs
    ensures var q, h := s.bound[side], s.qhs[s.bound[side]].hep;
      var t, n := SetReady(s, q, false), |Queue(s, h)|;
      && n >= 1 && q in t.qhs && t.qhs[q].hw == side.num == s.qhs[q].hw && t.bound == s.bound && t.ring == s.ring
      && (side.num == 0 <==> h.kind.Control?) && (side.num > 0 ==> side.isIn == h.dirIn == PipeIn(Queue(s, h)[0]))
      && Queue(t, h) == Queue(s, h) && Draining(t, h, q, PipeIn(Queue(s, h)[0]), n)
      && LogsGrow(s, t) && t.given == s.given && t.active == s.active
  {
    hide Inv, Queue, SetReady, LogsGrow;
    SideOfQh(s, side, None);
    var q := s.bound[side];
    var h := s.qhs[q].hep;
    DisableStart(s, q, side.isIn);
    ListFacts(s, h, None);
    assert Queue(s, h)[0] in Queue(s, h);
  }

  lemma LeftSides(s: State, a: Side, b: Side, t: State, x: Target, n: nat)
    requires a.num == b.num && (a.num > 0 ==> a == b) && Left(s, a, t, x, n)
    ensures Left(s, b, t, x, n)
  {
  }

  lemma LeftSame(s: State, t: State, side: Side, r: State, x: Target, n: nat)
    requires t.bound == s.bound && t.ring == s.ring && Left(t, side, r, x, n)
    ensures Left(s, side, r, x, n)
  {
  }

  /** Disabling a bound side frees it, or the head of the ring, whatever the callbacks do. */
  lemma SideLeft(s: State, side: Side, cb: Callbacks, x: Target)
    requires Inv(s, None) && side in s.bound
    ensures Left(s, side, DisableSide(s, side, cb), x, OpenedSide(s, side, cb, x))
  {
    hide Inv, Queue, Advance, DrainBound, OpenedDrain, Left, Changed, SetReady, Refusing, First, Rest, DisableQh,
      OpenedSide, OpenedBy, InCallback, LogsGrow, DisableSide;
    SideDraining(s, side);
    var q, h := s.bound[side], s.qhs[s.bound[side]].hep;
    var t, n, u := SetReady(s, q, false), |Queue(s, h)|, Queue(s, h)[0];
    var pipe := Side(side.num, PipeIn(u));
    var r := Advance(t, u, pipe, false, Refusing(First(cb), h));
    DisableSideShape(s, side, cb);
    DisableBoundShape(s, q, side.isIn, cb);
    OpenedSideShape(s, side, cb, x);
    RoundLeft(t, h, q, pipe, First(cb), n, x);
    if n == 1 {
      LeftSides(t, pipe, side, r, x, OpenedSide(s, side, cb, x));
    } else {
      assert Draining(r, h, q, side.isIn, n - 1) by { OtherSide(r, h, q, pipe, side, n - 1); }
      DrainLeft(r, h, q, side, Rest(cb), n - 1, x);
      LeftTrans(t, r, side, DisableSide(s, side, cb), x, OpenedBy(InCallback(t, q, u), Refusing(First(cb), h), x),
                OpenedDrain(r, h, q, side.isIn, Rest(cb), n - 1, x));
    }
    LeftSame(s, t, side, DisableSide(s, side, cb), x, OpenedSide(s, side, cb, x));
  }

  /** Endpoint 0 drains through either direction. */
  lemma OtherSide(s: State, h: Endpoint, q: nat, a: Side, b: Side, n: nat)
    requires Draining(s, h, q, a.isIn, n) && s.qhs[q].hw == a.num == b.num && (a.num > 0 ==> a == b)
    ensures Draining(s, h, q, b.isIn, n)
  {
    hide Inv, Queue;
    SideOfQh(s, a, Some(h));
  }
}
