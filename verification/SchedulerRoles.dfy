/** The host and active flags over a run: which submissions `musb_urb_enqueue` refuses
    for want of a device, read off the history of role changes. */
module SchedulerRoles {
  import opened Wrappers
  import opened Slots
  import opened Scheduler
  import opened SchedulerLaws

  /** The flags, and the number of endpoints, are as before. */
  ghost predicate SameRole(s: State, t: State) {
    t.host == s.host && t.active == s.active && t.nEps == s.nEps
  }

  // ----- What leaves the flags alone -----

  lemma StartRole(s: State, q: nat, isIn: bool)
    ensures SameRole(s, Start(s, q, isIn)) && SameRole(s, StartIfReady(s, q, isIn))
  {
    hide Queue;
  }

  lemma NewQhRole(s: State, ring: seq<nat>, p: Pool<Side>, q: nat, x: Qh)
    ensures SameRole(s, AddQh(s.(ring := ring), q, x)) && SameRole(s, AddQh(s.(pool := p), q, x))
  {
  }

  lemma ScheduleRole(s: State, q: nat, h: Endpoint)
    ensures Schedule(s, q, h).Some? ==> SameRole(s, Schedule(s, q, h).value)
  {
    hide Start, FreeEp, Take, AddQh;
    forall ring: seq<nat>, p: Pool<Side>, x: Qh
      ensures SameRole(s, AddQh(s.(ring := ring), q, x)) && SameRole(s, AddQh(s.(pool := p), q, x))
    {
      NewQhRole(s, ring, p, q, x);
    }
    forall t: State, isIn: bool ensures SameRole(t, Start(t, q, isIn)) { StartRole(t, q, isIn); }
  }

  lemma LinkedRole(s: State, u: Urb, q: nat)
    ensures SameRole(s, Linked(s, u)) && SameRole(s, Accepted(s, u, q))
  {
    hide Queue;
  }

  lemma EnqueueRole(s: State, c: Submission)
    ensures SameRole(s, Enqueue(s, c).0)
  {
    hide Schedule, Linked, Accepted, LinkResult;
    var ls := Linked(s, c.urb);
    forall t: State, q: nat ensures SameRole(t, Accepted(t, c.urb, q)) { LinkedRole(t, c.urb, q); }
    LinkedRole(s, c.urb, 0);
    if c.newQh.Some? { ScheduleRole(ls, c.newQh.value, c.urb.ep); }
  }

  lemma {:induction false} EnqueueAllRole(s: State, cs: seq<Submission>)
    ensures SameRole(s, EnqueueAll(s, cs))
    decreases |cs|
  {
    hide Enqueue;
    if cs != [] {
      EnqueueRole(s, cs[0]);
      EnqueueAllRole(Enqueue(s, cs[0]).0, cs[1..]);
    }
  }

  lemma GivebackRole(s: State, u: Urb, cancel: bool, cs: seq<Submission>)
    ensures SameRole(s, Giveback(s, u, cancel, cs))
  {
    hide Queue, Without;
    EnqueueAllRole(Unlinked(s, u, cancel), cs);
  }

  lemma ReadyRole(s: State, q: nat, ready: bool)
    ensures SameRole(s, SetReady(s, q, ready))
  {
  }

  lemma ReadyKeys(s: State, q: nat, ready: bool)
    requires q in s.qhs
    ensures SetReady(s, q, ready).qhs.Keys == s.qhs.Keys
  {
  }

  lemma FreeRole(s: State, q: nat, isIn: bool)
    requires q in s.qhs
    ensures SameRole(s, FreeQh(s, q, isIn))
  {
    hide Without, Give;
  }

  lemma RetireRole(s: State, q: nat, isIn: bool)
    requires q in s.qhs
    ensures SameRole(s, RetireQh(s, q, isIn))
  {
    hide FollowPrev, StartIfReady, FreeQh;
    var t := Unbind(s, s.qhs[q].hw, isIn);
    assert t.qhs == s.qhs && SameRole(s, t);
    FreeRole(t, q, isIn);
    forall n: nat ensures SameRole(FreeQh(t, q, isIn), StartIfReady(FreeQh(t, q, isIn), n, isIn)) {
      StartRole(FreeQh(t, q, isIn), n, isIn);
    }
  }

  /** The flags of a state after a giveback between two changes of `ready`. */
  lemma ReturnedRole(s: State, u: Urb, q: nat, cancel: bool, cs: seq<Submission>, ready: bool)
    ensures var t := Giveback(SetReady(s, q, false), u, cancel, cs);
      SameRole(s, t) && SameRole(s, SetReady(t, q, ready)) && (q in t.qhs ==> q in SetReady(t, q, ready).qhs)
  {
    hide SetReady, Giveback;
    var t := Giveback(SetReady(s, q, false), u, cancel, cs);
    ReadyRole(s, q, false);
    GivebackRole(SetReady(s, q, false), u, cancel, cs);
    ReadyRole(t, q, ready);
    if q in t.qhs { ReadyKeys(t, q, ready); }
  }

  lemma AdvanceRole(s: State, u: Urb, side: Side, cancel: bool, cs: seq<Submission>)
    ensures SameRole(s, Advance(s, u, side, cancel, cs))
  {
    hide Queue, SetReady, Giveback, RetireQh, StartIfReady;
    if side in s.bound && s.bound[side] in s.qhs {
      var q := s.bound[side];
      var t := Giveback(SetReady(s, q, false), u, cancel, cs);
      var r := SetReady(t, q, s.qhs[q].ready);
      ReturnedRole(s, u, q, cancel, cs, s.qhs[q].ready);
      StartRole(r, q, side.isIn);
      if q in r.qhs { RetireRole(r, q, side.isIn); }
    }
  }

  lemma DequeueRole(s: State, u: Urb, refused: bool, cs: seq<Submission>)
    ensures SameRole(s, Dequeue(s, u, refused, cs))
  {
    hide Queue, SetReady, Giveback, FreeQh, Advance;
    if u in s.urbQh && s.urbQh[u] in s.qhs {
      var q := s.urbQh[u];
      var t := Giveback(SetReady(s, q, false), u, true, cs);
      var r := SetReady(t, q, s.qhs[q].ready);
      ReturnedRole(s, u, q, true, cs, s.qhs[q].ready);
      AdvanceRole(s, u, Side(s.qhs[q].hw, PipeIn(u)), true, cs);
      if q in r.qhs { FreeRole(r, q, PipeIn(u)); }
    }
  }

  lemma {:induction false} DrainBoundRole(s: State, h: Endpoint, q: nat, isIn: bool, cb: Callbacks, n: nat)
    ensures SameRole(s, DrainBound(s, h, q, isIn, cb, n))
    decreases n
  {
    hide Queue, Advance;
    if n > 0 && Queue(s, h) != [] && q in s.qhs {
      var u, side, cs := Queue(s, h)[0], Side(s.qhs[q].hw, isIn), Refusing(First(cb), h);
      AdvanceRole(s, u, side, false, cs);
      DrainBoundRole(Advance(s, u, side, false, cs), h, q, isIn, Rest(cb), n - 1);
    }
  }

  lemma {:induction false} DrainIdleRole(s: State, h: Endpoint, cb: Callbacks, n: nat)
    ensures SameRole(s, DrainIdle(s, h, cb, n))
    decreases n
  {
    hide Queue, Giveback;
    if n > 0 && Queue(s, h) != [] {
      var u, cs := Queue(s, h)[0], Refusing(First(cb), h);
      GivebackRole(s, u, false, cs);
      DrainIdleRole(Giveback(s, u, false, cs), h, Rest(cb), n - 1);
    }
  }

  lemma DisableQhRole(s: State, q: nat, isIn: bool, cb: Callbacks)
    requires q in s.qhs
    ensures SameRole(s, DisableQh(s, q, isIn, cb))
  {
    hide Queue, SetReady, Advance, DrainBound, DrainIdle, FreeQh;
    var h, t := s.qhs[q].hep, SetReady(s, q, false);
    ReadyRole(s, q, false);
    var d := DrainIdle(t, h, cb, |Queue(s, h)|);
    DrainIdleRole(t, h, cb, |Queue(s, h)|);
    if q in d.qhs { FreeRole(d, q, isIn); }
    if Queue(s, h) != [] {
      var u := Queue(s, h)[0];
      var a := Advance(t, u, Side(s.qhs[q].hw, PipeIn(u)), false, Refusing(First(cb), h));
      AdvanceRole(t, u, Side(s.qhs[q].hw, PipeIn(u)), false, Refusing(First(cb), h));
      DrainBoundRole(a, h, q, isIn, Rest(cb), |Queue(s, h)| - 1);
    }
  }

  lemma DisableSideRole(s: State, side: Side, cb: Callbacks)
    ensures SameRole(s, DisableSide(s, side, cb))
  {
    hide DisableQh;
    if side in s.bound && s.bound[side] in s.qhs { DisableQhRole(s, s.bound[side], side.isIn, cb); }
  }

  lemma {:induction false} PreDisableRole(s: State, from: nat, last: nat, cb: Side -> Callbacks)
    ensures SameRole(s, PreDisable(s, from, last, cb))
    decreases last - from
  {
    hide DisableSide;
    if from < last {
      var t := DisableSide(s, Side(from, true), cb(Side(from, true)));
      DisableSideRole(s, Side(from, true), cb(Side(from, true)));
      DisableSideRole(t, Side(from, false), cb(Side(from, false)));
      PreDisableRole(DisableSide(t, Side(from, false), cb(Side(from, false))), from + 1, last, cb);
    }
  }

  /** Whatever the callbacks submit, only a role change or a connection changes a flag. */
  lemma StepRole(s: State, e: Event)
    ensures var t := Step(s, e);
      && t.nEps == s.nEps
      && t.host == (if e.SetRole? then e.host else s.host)
      && t.active == (if e.SetRole? then e.active else e.Connect? || s.active)
  {
    hide Enqueue, Complete, Dequeue, Disable, PreDisable;
    match e
    case Submit(c) => EnqueueRole(s, c);
    case Finish(side, cs) => CompleteRole(s, side, cs);
    case Unlink(u, refused, cs) => DequeueRole(s, u, refused, cs);
    case DisableEndpoint(h, cb) => DisableRole(s, h, cb);
    case DisableAll(cb) => PreDisableRole(s, 0, s.nEps, cb);
    case SetRole(_, _) =>
    case Connect =>
  }

  lemma CompleteRole(s: State, side: Side, cs: seq<Submission>)
    ensures SameRole(s, Complete(s, side, cs))
  {
    hide Queue, Advance;
    if side in s.bound && s.bound[side] in s.qhs && Queue(s, s.qhs[s.bound[side]].hep) != [] {
      AdvanceRole(s, Queue(s, s.qhs[s.bound[side]].hep)[0], side, false, cs);
    }
  }

  lemma DisableRole(s: State, h: Endpoint, cb: Callbacks)
    ensures SameRole(s, Disable(s, h, cb))
  {
    hide DisableQh;
    if h in s.hcpriv && s.hcpriv[h] in s.qhs { DisableQhRole(s, s.hcpriv[h], h.dirIn, cb); }
  }

  // ----- Over a run -----

  /** The last event among the first `i` that changes the host flag, or the active flag. */
  ghost predicate LastOf(events: seq<Event>, i: nat, j: nat, connects: bool)
    requires i <= |events|
  {
    && j < i && (events[j].SetRole? || (connects && events[j].Connect?))
    && forall k | j < k < i :: !(events[k].SetRole? || (connects && events[k].Connect?))
  }

  /** The last role change made the controller a host. */
  ghost predicate HostAt(events: seq<Event>, i: nat)
    requires i <= |events|
  {
    exists j: nat :: LastOf(events, i, j, false) && events[j].host
  }

  /** The last role change or connection made it active. */
  ghost predicate ActiveAt(events: seq<Event>, i: nat)
    requires i <= |events|
  {
    exists j: nat :: LastOf(events, i, j, true) && (events[j].Connect? || events[j].active)
  }

  lemma LastStep(events: seq<Event>, i: nat, j: nat, connects: bool)
    requires i < |events|
    ensures LastOf(events, i + 1, j, connects)
      <==> if events[i].SetRole? || (connects && events[i].Connect?) then j == i else LastOf(events, i, j, connects)
  {
  }

  lemma HostStep(events: seq<Event>, i: nat)
    requires i < |events|
    ensures HostAt(events, i + 1) <==> if events[i].SetRole? then events[i].host else HostAt(events, i)
  {
    if HostAt(events, i + 1) {
      var j: nat :| LastOf(events, i + 1, j, false) && events[j].host;
      LastStep(events, i, j, false);
    }
    if !events[i].SetRole? && HostAt(events, i) {
      var j: nat :| LastOf(events, i, j, false) && events[j].host;
      LastStep(events, i, j, false);
    }
    LastStep(events, i, i, false);
  }

  lemma ActiveStep(events: seq<Event>, i: nat)
    requires i < |events|
    ensures ActiveAt(events, i + 1)
      <==> if events[i].SetRole? then events[i].active else events[i].Connect? || ActiveAt(events, i)
  {
    if ActiveAt(events, i + 1) {
      var j: nat :| LastOf(events, i + 1, j, true) && (events[j].Connect? || events[j].active);
      LastStep(events, i, j, true);
    }
    if !events[i].SetRole? && !events[i].Connect? && ActiveAt(events, i) {
      var j: nat :| LastOf(events, i, j, true) && (events[j].Connect? || events[j].active);
      LastStep(events, i, j, true);
    }
    LastStep(events, i, i, true);
  }

  lemma {:induction false} RunRoles(states: seq<State>, events: seq<Event>, i: nat)
    requires IsRun(states, events) && i <= |events|
    ensures states[i].host <==> HostAt(events, i)
    ensures states[i].active <==> ActiveAt(events, i)
    ensures states[i].nEps == states[0].nEps
  {
    hide Step, HostAt, ActiveAt;
    if i == 0 {
      NothingYet(events);
    } else {
      RunRoles(states, events, i - 1);
      StepRole(states[i - 1], events[i - 1]);
      HostStep(events, i - 1);
      ActiveStep(events, i - 1);
      assert states[i] == Step(states[i - 1], events[i - 1]);
    }
  }

  lemma NothingYet(events: seq<Event>)
    ensures !HostAt(events, 0) && !ActiveAt(events, 0)
  {
  }

  /** In every run a submission that the core would link fails with ENODEV exactly if the
      last role change did not make the controller a host, or the last role change or
      connection did not make it active; then it leaves the state as it was. */
  lemma {:induction false} RunRefuses(states: seq<State>, events: seq<Event>, i: nat)
    requires IsRun(states, events) && i < |events| && events[i].Submit?
    ensures var ready := HostAt(events, i) && ActiveAt(events, i);
      && (events[i].call.linkError != ENODEV ==> (Enqueue(states[i], events[i].call).1 == ENODEV <==> !ready))
      && (!ready ==> states[i + 1] == states[i])
  {
    hide Enqueue, Room, HostAt, ActiveAt, Joined, Served;
    RunRoles(states, events, i);
    SubmitCode(states[i], events[i].call);
    SubmitExact(states[i], events[i].call);
    assert states[i + 1] == Step(states[i], events[i]);
  }
}
