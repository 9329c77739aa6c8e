/** The MUSB host scheduler: what each entry point of the driver does to the
    queue heads, the hardware bindings, the control ring, the URB lists and the
    FIFO slots. Every step is total: `fault` records that the driver would have
    followed a null, freed or misread pointer. */
module Scheduler {
  import opened Wrappers
  import opened Slots

  datatype Xfer = Control | Isochronous | Bulk | Interrupt

  /** A peripheral endpoint (`usb_host_endpoint`) and the parts of its descriptor used here. */
  datatype Endpoint = Endpoint(id: nat, dirIn: bool, kind: Xfer, maxPacket: nat)

  /** One submission of an URB. `setupIn` is the pipe direction of a control URB;
      for the other kinds the pipe has the direction of the endpoint. */
  datatype Urb = Urb(id: nat, ep: Endpoint, setupIn: bool)

  function PipeIn(u: Urb): bool {
    if u.ep.kind.Control? then u.setupIn else u.ep.dirIn
  }

  /** One direction of a hardware endpoint. */
  datatype Side = Side(num: nat, isIn: bool)

  /** Hardware endpoint 0 is a shared FIFO: its two queue pointers are set together. */
  function Sides(num: nat, isIn: bool): set<Side> {
    if num == 0 then {Side(0, true), Side(0, false)} else {Side(num, isIn)}
  }

  /** `musb_qh` */
  datatype Qh = Qh(hep: Endpoint, hw: nat, mux: bool, ready: bool)

  datatype State = State(
    nEps: nat, host: bool, active: bool, fault: bool,
    bound: map<Side, nat>,               // in_qh and out_qh of the hardware endpoints
    ring: seq<nat>,                      // musb->control
    qhs: map<nat, Qh>,                   // the allocated queue heads
    queue: map<Endpoint, seq<Urb>>,      // the non-empty hep->urb_list
    hcpriv: map<Endpoint, nat>,          // the non-null hep->hcpriv
    urbQh: map<Urb, nat>,                // urb->hcpriv of the linked URBs
    pool: Pool<Side>,                    // FIFO slots
    submitted: seq<Urb>, given: seq<Urb>, cancelled: set<Urb>) // history

  function Fresh(nEps: nat): State {
    State(nEps, false, false, false, map[], [], map[], map[], map[], map[], Pool({}, map[]), [], [], {})
  }

  const ENODEV := -19
  const ENOMEM := -12
  const ENOSPC := -28
  const ENOENT := -2
  const EBUSY := -16

  function Queue(s: State, h: Endpoint): seq<Urb> {
    if h in s.queue then s.queue[h] else []
  }

  function WithQueue(s: State, h: Endpoint, q: seq<Urb>): State {
    s.(queue := if q == [] then s.queue - {h} else s.queue[h := q])
  }

  /** A list without the first occurrence of an element (`list_del`). */
  function Without<T(==)>(xs: seq<T>, x: T): seq<T> {
    if xs == [] then [] else if xs[0] == x then xs[1..] else [xs[0]] + Without(xs[1..], x)
  }

  function Fault(s: State): State { s.(fault := true) }

  /** `musb_ep_set_qh` */
  function Bind(s: State, num: nat, isIn: bool, q: nat): State {
    s.(bound := s.bound + map x | x in Sides(num, isIn) :: q)
  }

  function Unbind(s: State, num: nat, isIn: bool): State {
    s.(bound := s.bound - Sides(num, isIn))
  }

  /** `musb_start_urb`: program the first URB of `q`, which must exist. */
  function Start(s: State, q: nat, isIn: bool): State {
    if q !in s.qhs || Queue(s, s.qhs[q].hep) == [] then Fault(s)
    else Bind(s, s.qhs[q].hw, isIn && !s.qhs[q].hep.kind.Control?, q)
  }

  // ----- Enqueue -----

  /** A call of the submission path: the verdict of `usb_hcd_link_urb_to_ep` and
      the address `kzalloc` would return (an address in use is no answer). */
  datatype Submission = Submission(urb: Urb, linkError: int, newQh: Option<nat>)

  function LinkResult(s: State, c: Submission): int {
    if c.linkError != 0 then c.linkError else if c.urb in s.submitted then EBUSY else 0
  }

  /** The lowest hardware endpoint from `from` on with this direction unclaimed. */
  function FreeEp(bound: map<Side, nat>, nEps: nat, isIn: bool, from: nat): Option<nat>
    decreases nEps - from
  {
    if from >= nEps then None
    else if Side(from, isIn) !in bound then Some(from)
    else FreeEp(bound, nEps, isIn, from + 1)
  }

  function AddQh(s: State, q: nat, x: Qh): State {
    s.(qhs := s.qhs[q := x], hcpriv := s.hcpriv[x.hep := q])
  }

  /** `musb_schedule`, for a new queue head of endpoint `h`. */
  function Schedule(s: State, q: nat, h: Endpoint): Option<State> {
    if h.kind.Control? then
      var t := AddQh(s.(ring := s.ring + [q]), q, Qh(h, 0, true, true));
      Some(if s.ring == [] then Start(t, q, h.dirIn) else t)
    else
      match FreeEp(s.bound, s.nEps, h.dirIn, 1)
      case None => None
      case Some(e) =>
        match Take(s.pool, Side(e, h.dirIn), Units(h.maxPacket), TOTAL_SLOTS)
        case None => None
        case Some(p) => Some(Start(AddQh(s.(pool := p), q, Qh(h, e, false, true)), q, h.dirIn))
  }

  function Linked(s: State, u: Urb): State {
    WithQueue(s, u.ep, Queue(s, u.ep) + [u])
  }

  function Accepted(s: State, u: Urb, q: nat): State {
    s.(urbQh := s.urbQh[u := q], submitted := s.submitted + [u])
  }

  /** `musb_urb_enqueue` */
  function Enqueue(s: State, c: Submission): (State, int) {
    var u, h := c.urb, c.urb.ep;
    if !s.host || !s.active then (s, ENODEV)
    else if LinkResult(s, c) != 0 then (s, LinkResult(s, c))
    else if h in s.hcpriv then (Accepted(Linked(s, u), u, s.hcpriv[h]), 0)
    else if c.newQh.None? || c.newQh.value in s.qhs then (s, ENOMEM)
    else match Schedule(Linked(s, u), c.newQh.value, h)
         case None => (s, ENOSPC)
         case Some(t) => (Accepted(t, u, c.newQh.value), 0)
  }

  function EnqueueAll(s: State, cs: seq<Submission>): State
    decreases |cs|
  {
    if cs == [] then s else EnqueueAll(Enqueue(s, cs[0]).0, cs[1..])
  }

  // ----- Giveback and advance -----

  function SetReady(s: State, q: nat, ready: bool): State {
    if q in s.qhs then s.(qhs := s.qhs[q := s.qhs[q].(ready := ready)]) else Fault(s)
  }

  /** Unlink an URB and record how it left. */
  function Unlinked(s: State, u: Urb, cancel: bool): State {
    WithQueue(s, u.ep, Without(Queue(s, u.ep), u)).(
      urbQh := s.urbQh - {u}, given := s.given + [u],
      cancelled := if cancel then s.cancelled + {u} else s.cancelled)
  }

  /** `musb_giveback`: the completion callback submits `cs` while the lock is dropped. */
  function Giveback(s: State, u: Urb, cancel: bool, cs: seq<Submission>): State {
    EnqueueAll(Unlinked(s, u, cancel), cs)
  }

  /** What `first_qh(qh->ring.prev)` finds after `list_del(&qh->ring)`; when `qh`
      was last but not first, it is the list head misread as a queue head. */
  datatype RingLink = NoQh | Entry(q: nat) | ListHead

  function IndexOf(ring: seq<nat>, q: nat): (i: nat)
    requires q in ring
    ensures i < |ring| && ring[i] == q && q !in ring[..i]
  {
    if ring[0] == q then 0 else 1 + IndexOf(ring[1..], q)
  }

  function FollowPrev(ring: seq<nat>, q: nat): RingLink {
    if q !in ring then ListHead
    else
      var i := IndexOf(ring, q);
      if i + 1 < |ring| then Entry(ring[i + 1]) else if i == 0 then NoQh else ListHead
  }

  /** Free a queue head: its endpoint forgets it, its FIFO run and ring link go. */
  function FreeQh(s: State, q: nat, isIn: bool): State
    requires q in s.qhs
  {
    var x := s.qhs[q];
    s.(hcpriv := s.hcpriv - {x.hep},
       pool := if x.hep.kind.Control? then s.pool else Give(s.pool, Side(x.hw, isIn)),
       ring := Without(s.ring, q),
       qhs := s.qhs - {q})
  }

  function StartIfReady(s: State, q: nat, isIn: bool): State {
    if q !in s.qhs then Fault(s) else if s.qhs[q].ready then Start(s, q, isIn) else s
  }

  /** The part of `musb_advance_schedule` after the URB list was found empty. */
  function RetireQh(s: State, q: nat, isIn: bool): State
    requires q in s.qhs
  {
    var t := FreeQh(Unbind(s, s.qhs[q].hw, isIn), q, isIn);
    if !(s.qhs[q].mux && (s.qhs[q].hep.kind.Control? || s.qhs[q].hep.kind.Bulk?)) then t
    else match FollowPrev(s.ring, q)
         case NoQh => t
         case ListHead => Fault(t)
         case Entry(next) => StartIfReady(t, next, isIn)
  }

  /** `musb_advance_schedule` */
  function Advance(s: State, u: Urb, side: Side, cancel: bool, cs: seq<Submission>): State {
    if side !in s.bound || s.bound[side] !in s.qhs then Fault(s)
    else
      var q := s.bound[side];
      var ready := s.qhs[q].ready;
      var t := Giveback(SetReady(s, q, false), u, cancel, cs);
      if side !in t.bound then t
      else if q !in t.qhs then Fault(t)
      else
        var r := SetReady(t, q, ready);
        if Queue(r, r.qhs[q].hep) == [] then RetireQh(r, q, side.isIn)
        else StartIfReady(r, q, side.isIn)
  }

  /** An interrupt that finishes the first URB of a side
      (`musb_host_tx`, `musb_host_rx`, `musb_h_ep0_irq`). */
  function Complete(s: State, side: Side, cs: seq<Submission>): State {
    if side !in s.bound then s
    else if s.bound[side] !in s.qhs then Fault(s)
    else
      var list := Queue(s, s.qhs[s.bound[side]].hep);
      if list == [] then s else Advance(s, list[0], side, false, cs)
  }

  // ----- Dequeue and disable -----

  /** `musb_urb_dequeue`; `refused` is a failing `usb_hcd_check_unlink_urb`. */
  function Dequeue(s: State, u: Urb, refused: bool, cs: seq<Submission>): State {
    if refused || u !in Queue(s, u.ep) || u !in s.urbQh then s
    else
      var q := s.urbQh[u];
      if q !in s.qhs then Fault(s)
      else
        var side := Side(s.qhs[q].hw, PipeIn(u));
        if !s.qhs[q].ready || Queue(s, u.ep)[0] != u || side !in s.bound || s.bound[side] != q then
          var ready := s.qhs[q].ready;
          var t := Giveback(SetReady(s, q, false), u, true, cs);
          if q !in t.qhs then Fault(t)
          else
            var r := SetReady(t, q, ready);
            if ready && Queue(r, r.qhs[q].hep) == [] then FreeQh(r, q, side.isIn) else r
        else Advance(s, u, side, true, cs)
  }

  /** A disabled endpoint links no URB any more. */
  function Refusing(cs: seq<Submission>, h: Endpoint): seq<Submission> {
    seq(|cs|, i requires 0 <= i < |cs| =>
      if cs[i].urb.ep == h && cs[i].linkError == 0 then cs[i].(linkError := ENOENT) else cs[i])
  }

  /** What the callbacks of the successive givebacks of a drain submit. */
  type Callbacks = seq<seq<Submission>>

  function First(cb: Callbacks): seq<Submission> { if cb == [] then [] else cb[0] }
  function Rest(cb: Callbacks): Callbacks { if cb == [] then [] else cb[1..] }

  /** The first of the two drain loops of `musb_h_disable`, `n` URBs long. */
  function DrainBound(s: State, h: Endpoint, q: nat, isIn: bool, cb: Callbacks, n: nat): State
    decreases n
  {
    if n == 0 then s
    else if Queue(s, h) == [] || q !in s.qhs then Fault(s)
    else DrainBound(Advance(s, Queue(s, h)[0], Side(s.qhs[q].hw, isIn), false, Refusing(First(cb), h)),
                    h, q, isIn, Rest(cb), n - 1)
  }

  /** The second drain loop. */
  function DrainIdle(s: State, h: Endpoint, cb: Callbacks, n: nat): State
    decreases n
  {
    if n == 0 then s
    else if Queue(s, h) == [] then Fault(s)
    else DrainIdle(Giveback(s, Queue(s, h)[0], false, Refusing(First(cb), h)), h, Rest(cb), n - 1)
  }

  /** `musb_h_disable` once the queue head is found. The abort of the first URB
      advances the schedule in the direction of that URB's pipe. */
  function DisableQh(s: State, q: nat, isIn: bool, cb: Callbacks): State
    requires q in s.qhs
  {
    var h := s.qhs[q].hep;
    var side := Side(s.qhs[q].hw, isIn);
    var t := SetReady(s, q, false);
    var n := |Queue(s, h)|;
    if side in s.bound && s.bound[side] == q then
      if n == 0 then t
      else
        var u := Queue(s, h)[0];
        DrainBound(Advance(t, u, Side(s.qhs[q].hw, PipeIn(u)), false, Refusing(First(cb), h)),
                   h, q, isIn, Rest(cb), n - 1)
    else
      var d := DrainIdle(t, h, cb, n);
      if q in d.qhs then FreeQh(d, q, isIn) else Fault(d)
  }

  /** `musb_h_disable` on an endpoint of a device. */
  function Disable(s: State, h: Endpoint, cb: Callbacks): State {
    if h !in s.hcpriv then s
    else if s.hcpriv[h] !in s.qhs then Fault(s)
    else DisableQh(s, s.hcpriv[h], h.dirIn, cb)
  }

  /** `musb_h_disable` on whatever is bound to a side (the `pre_hep` case). */
  function DisableSide(s: State, side: Side, cb: Callbacks): State {
    if side !in s.bound then s
    else if s.bound[side] !in s.qhs then Fault(s)
    else DisableQh(s, s.bound[side], side.isIn, cb)
  }

  /** `musb_h_pre_disable`, from hardware endpoint `from` to the last one. */
  function PreDisable(s: State, from: nat, last: nat, cb: Side -> Callbacks): State
    decreases last - from
  {
    if from >= last then s
    else
      var t := DisableSide(s, Side(from, true), cb(Side(from, true)));
      PreDisable(DisableSide(t, Side(from, false), cb(Side(from, false))), from + 1, last, cb)
  }

  // ----- Runs -----

  datatype Event =
    | Submit(call: Submission)
    | Finish(side: Side, callback: seq<Submission>)
    | Unlink(urb: Urb, refused: bool, callback: seq<Submission>)
    | DisableEndpoint(ep: Endpoint, callbacks: Callbacks)
    | DisableAll(perSide: Side -> Callbacks)
    | SetRole(host: bool, active: bool)
    | Connect

  function Step(s: State, e: Event): State {
    match e
    case Submit(c) => Enqueue(s, c).0
    case Finish(side, cs) => Complete(s, side, cs)
    case Unlink(u, refused, cs) => Dequeue(s, u, refused, cs)
    case DisableEndpoint(h, cb) => Disable(s, h, cb)
    case DisableAll(cb) => PreDisable(s, 0, s.nEps, cb)
    case SetRole(host, active) => s.(host := host, active := active)
    case Connect => s.(active := true, pool := s.pool.(used := {}))
  }

  /** CONNECT clears the slot mask whatever is bound; the other events are unconditional. */
  predicate Allowed(s: State, e: Event) {
    e.Connect? ==> forall side | side in s.bound :: side.num == 0
  }

  ghost predicate IsRun(states: seq<State>, events: seq<Event>) {
    && |states| == |events| + 1
    && states[0] == Fresh(states[0].nEps)
    && forall i | 0 <= i < |events| ::
         Allowed(states[i], events[i]) && states[i + 1] == Step(states[i], events[i])
  }
}
