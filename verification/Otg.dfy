/** The OTG role machine: id-pin work, the OTG timer and the stage-0 interrupts,
    each one step, interleaved in any way (OTG Supplement 1.3, section 6.8). */
module Otg {

  datatype Role = AIdle | AWaitVrise | AWaitBcon | AHost | ASuspend | APeripheral | AWaitVfall | AVbusErr
                | BIdle | BSrpInit | BPeripheral | BWaitAcon | BHost | Undefined

  /** `armed`: the timer is pending. `fired`: it expired and its handler has not
      taken the lock yet. */
  datatype State = State(role: Role, isHost: bool, isActive: bool, isBHost: bool,
                         armed: bool, fired: bool, ignoreDisconnect: bool)

  const Probed := State(BIdle, false, false, false, false, false, false)

  predicate HostRole(r: Role) { r.AHost? || r.ASuspend? || r.BHost? }

  /** What a helper that is not shown (`musb_g_*`, `musb_root_disconnect`) does. It
      enters no host role and not B_WAIT_ACON, clears `is_host` only when it does
      not end in a host role, and leaves the timer and `is_b_host` alone. */
  datatype Effect = Effect(role: Role, isHost: bool, isActive: bool)

  function Apply(s: State, e: Effect): State {
    if e.role != s.role && (HostRole(e.role) || e.role.BWaitAcon?) then s
    else if !e.isHost && HostRole(e.role) then s
    else s.(role := e.role, isHost := e.isHost, isActive := e.isActive)
  }

  datatype Helpers = Helpers(gResume: Effect, gSuspend: Effect, gReset: Effect, gDisconnect: Effect,
                             hnpDisconnect: Effect, rootDisconnect: Effect)

  /** The registers and flags an interrupt finds. */
  datatype Irq = Irq(resume: bool, sessReq: bool, suspend: bool,
                     connect: bool, disconnect: bool, reset: bool,
                     hostMode: bool, bDevice: bool, vbus: nat, suspendM: bool,
                     gadgetHnp: bool, hostHnp: bool, compliance: bool, helpers: Helpers)

  const VBUS_VALID := 3

  // ----- The parts of musb_stage0_irq, in order -----

  function Resume(s: State, i: Irq): State {
    if !i.resume then s
    else if i.hostMode then
      match s.role
      case ASuspend => if i.suspendM then s else s.(role := AHost, isActive := true)
      case BWaitAcon => s.(role := BPeripheral, isActive := true, isHost := false)
      case _ => s
    else
      match s.role
      case ASuspend => s.(role := AHost)
      case BWaitAcon => if i.vbus != VBUS_VALID then s else Apply(s, i.helpers.gResume)
      case BPeripheral => if i.vbus != VBUS_VALID then s else Apply(s, i.helpers.gResume)
      case _ => s
  }

  /** A session request on the B side ends the interrupt. */
  predicate SessionEndsIrq(i: Irq) { i.sessReq && i.vbus == VBUS_VALID && i.bDevice }

  function SessionRequest(s: State, i: Irq): State {
    if i.sessReq && i.compliance then s.(role := AIdle, isHost := true) else s
  }

  function Suspend(s: State, i: Irq): State {
    if !i.suspend then s
    else match s.role
      case APeripheral => Apply(s, i.helpers.rootDisconnect)
      case BIdle => if s.isActive then SuspendGadget(s, i) else s
      case BPeripheral => SuspendGadget(s, i)
      case AWaitBcon => s
      case AHost => s.(role := ASuspend, isActive := i.hostHnp)
      case BHost => s
      case _ => s.(isActive := false)
  }

  /** Suspended as a peripheral: with HNP enabled, wait for the A device, with the timer running. */
  function SuspendGadget(s: State, i: Irq): State {
    var t := Apply(s, i.helpers.gSuspend).(isActive := i.gadgetHnp);
    if i.gadgetHnp then t.(role := BWaitAcon, armed := true) else t
  }

  function BecomeBHost(s: State): State {
    s.(role := BHost, isBHost := true, ignoreDisconnect := false, armed := false)
  }

  function Connect(s: State, i: Irq): State {
    if !i.connect then s
    else
      var t := s.(isActive := true);
      var u := match s.role
        case BPeripheral => if i.suspend then BecomeBHost(t) else t
        case BWaitAcon => BecomeBHost(t)
        case _ => if i.vbus == VBUS_VALID then t.(role := AHost, isBHost := false) else t;
      u.(isHost := true)
  }

  /** `musb_hnp_stop` */
  function HnpStop(s: State, compliance: bool, gDisconnect: Effect): State {
    match s.role
    case APeripheral => Apply(s, gDisconnect)
    case AHost => if compliance then s.(role := ASuspend) else s
    case BHost => s.(isBHost := false, role := BPeripheral, isHost := false)
    case _ => s
  }

  function Disconnect(s: State, i: Irq): State {
    if !i.disconnect || s.ignoreDisconnect then s
    else
      var t := s.(isActive := false);
      match s.role
      case AHost => Apply(t, i.helpers.rootDisconnect)
      case ASuspend => Apply(t, i.helpers.rootDisconnect)
      case BHost =>
        Apply(Apply(t, i.helpers.rootDisconnect).(isBHost := false, role := BPeripheral, isHost := false),
              i.helpers.gDisconnect)
      case APeripheral =>
        Apply(Apply(HnpStop(t, i.compliance, i.helpers.hnpDisconnect), i.helpers.rootDisconnect), i.helpers.gDisconnect)
      case BWaitAcon => Apply(t, i.helpers.gDisconnect)
      case BPeripheral => Apply(t, i.helpers.gDisconnect)
      case BIdle => Apply(t, i.helpers.gDisconnect)
      case _ => t
  }

  function Reset(s: State, i: Irq): State {
    if !i.reset || i.hostMode then s
    else match s.role
      case ASuspend => Apply(s.(ignoreDisconnect := true), i.helpers.gReset).(armed := true)
      case AWaitBcon => s.(armed := true)
      case APeripheral => Apply(s.(ignoreDisconnect := false, armed := false), i.helpers.gReset)
      case BWaitAcon => Apply(s.(role := BPeripheral), i.helpers.gReset)
      case BIdle => Apply(s.(role := BPeripheral), i.helpers.gReset)
      case BPeripheral => Apply(s, i.helpers.gReset)
      case _ => s
  }

  /** `musb_stage0_irq` */
  function Stage0(s: State, i: Irq): State {
    if SessionEndsIrq(i) then Resume(s, i)
    else Reset(Disconnect(Connect(Suspend(SessionRequest(Resume(s, i), i), i), i), i), i)
  }

  /** The OTG timer handler, once it has the lock. */
  function TimerHandler(s: State, gDisconnect: Effect): State {
    var t := match s.role
      case BWaitAcon => Apply(s, gDisconnect).(role := BPeripheral, isActive := false)
      case ASuspend => s.(role := AWaitVfall)
      case AWaitBcon => s.(role := AWaitVfall)
      case _ => s;
    t.(ignoreDisconnect := false, fired := false)
  }

  /** `musb_id_pin_work`: `pin` is the role it reads, or flips when a plug test runs. It
      starts the controller as a host (`musb_start`), or stops it (`musb_stop`). */
  datatype IdPin = IdPin(blocked: bool, ipoOff: bool, flip: bool, pin: bool, rootDisconnect: Effect)

  function IdPinWork(s: State, p: IdPin): State {
    if p.blocked || p.ipoOff then s
    else
      var t := s.(isHost := if p.flip then !s.isHost else p.pin);
      if t.isHost then t.(isActive := true)
      else
        var u := if t.isActive then Apply(t, p.rootDisconnect) else t;
        u.(role := BIdle, isHost := false, isActive := false)
  }

  datatype Event =
    | Interrupt(irq: Irq)
    | TimerExpires
    | TimerRuns(gDisconnect: Effect)
    | IdPinEvent(pin: IdPin)
    | StopHnp(compliance: bool, effect: Effect)

  function Step(s: State, e: Event): State {
    match e
    case Interrupt(i) => Stage0(s, i)
    case TimerExpires => if s.armed then s.(armed := false, fired := true) else s
    case TimerRuns(g) => if s.fired then TimerHandler(s, g) else s
    case IdPinEvent(p) => IdPinWork(s, p)
    case StopHnp(c, g) => HnpStop(s, c, g)
  }

  function Run(es: seq<Event>): State {
    if es == [] then Probed else Step(Run(es[..|es| - 1]), es[|es| - 1])
  }

  // ----- Invariants -----

  predicate Inv(s: State) {
    && (HostRole(s.role) ==> s.isHost)
    && (s.role.BHost? ==> s.isBHost)
    && (s.role.BWaitAcon? ==> s.armed || s.fired)
  }

  /** A helper keeps the invariant, and cannot touch the timer. */
  lemma ApplyKeeps()
    ensures forall s: State, e: Effect :: Inv(s) ==> Inv(Apply(s, e))
    ensures forall s: State, e: Effect :: Apply(s, e).fired == s.fired
  {
  }

  lemma Stage0Keeps(s: State, i: Irq)
    requires Inv(s)
    ensures Inv(Stage0(s, i)) && Stage0(s, i).fired == s.fired
  {
    hide Resume, SessionRequest, Suspend, Connect, Disconnect, Reset;
    ResumeKeeps(s, i);
    var a := SessionRequest(Resume(s, i), i);
    SessionKeeps(Resume(s, i), i);
    SuspendKeeps(a, i);
    ConnectKeeps(Suspend(a, i), i);
    DisconnectKeeps(Connect(Suspend(a, i), i), i);
    ResetKeeps(Disconnect(Connect(Suspend(a, i), i), i), i);
  }

  lemma ResumeKeeps(s: State, i: Irq)
    requires Inv(s)
    ensures Inv(Resume(s, i)) && Resume(s, i).fired == s.fired
  {
    hide Apply;
    ApplyKeeps();
  }

  lemma SessionKeeps(s: State, i: Irq)
    requires Inv(s)
    ensures Inv(SessionRequest(s, i)) && SessionRequest(s, i).fired == s.fired
  {
  }

  lemma SuspendKeeps(s: State, i: Irq)
    requires Inv(s)
    ensures Inv(Suspend(s, i)) && Suspend(s, i).fired == s.fired
  {
    hide Apply, SuspendGadget;
    ApplyKeeps();
    SuspendGadgetKeeps(s, i);
  }

  lemma SuspendGadgetKeeps(s: State, i: Irq)
    requires Inv(s)
    ensures Inv(SuspendGadget(s, i)) && SuspendGadget(s, i).fired == s.fired
  {
    hide Apply;
    ApplyKeeps();
  }

  lemma ConnectKeeps(s: State, i: Irq)
    requires Inv(s)
    ensures Inv(Connect(s, i)) && Connect(s, i).fired == s.fired
  {
  }

  lemma DisconnectKeeps(s: State, i: Irq)
    requires Inv(s)
    ensures Inv(Disconnect(s, i)) && Disconnect(s, i).fired == s.fired
  {
    hide Apply;
    ApplyKeeps();
  }

  lemma ResetKeeps(s: State, i: Irq)
    requires Inv(s)
    ensures Inv(Reset(s, i)) && Reset(s, i).fired == s.fired
  {
    hide Apply;
    ApplyKeeps();
  }

  /** In every interleaving the host roles have `is_host`, B_HOST has `is_b_host`,
      and B_WAIT_ACON is always about to be ended by the timer. */
  lemma {:induction false} RunInvariant(es: seq<Event>)
    ensures Inv(Run(es))
  {
    hide Stage0, TimerHandler, IdPinWork, HnpStop;
    if es != [] {
      var s := Run(es[..|es| - 1]);
      RunInvariant(es[..|es| - 1]);
      match es[|es| - 1]
      case Interrupt(i) => Stage0Keeps(s, i);
      case TimerExpires =>
      case TimerRuns(g) => TimerKeeps(s, g);
      case IdPinEvent(p) => IdPinKeeps(s, p);
      case StopHnp(c, g) => HnpKeeps(s, c, g);
    }
  }

  lemma TimerKeeps(s: State, g: Effect) requires Inv(s) ensures Inv(TimerHandler(s, g)) {}
  lemma IdPinKeeps(s: State, p: IdPin) requires Inv(s) ensures Inv(IdPinWork(s, p)) {}
  lemma HnpKeeps(s: State, c: bool, g: Effect) requires Inv(s) ensures Inv(HnpStop(s, c, g)) {}

  /** The handler always leaves B_WAIT_ACON. */
  lemma TimerLeavesWait(s: State, g: Effect)
    ensures !TimerHandler(s, g).role.BWaitAcon?
  {
  }

  lemma {:induction false} FiredUntilRuns(es: seq<Event>, more: seq<Event>)
    requires Run(es).fired && forall j | 0 <= j < |more| :: !more[j].TimerRuns?
    ensures Run(es + more).fired
  {
    if more == [] {
      assert es + more == es;
    } else {
      assert (es + more)[..|es + more| - 1] == es + more[..|more| - 1];
      FiredUntilRuns(es, more[..|more| - 1]);
      RunInvariant(es + more[..|more| - 1]);
      FiredStays(Run(es + more[..|more| - 1]), more[|more| - 1]);
    }
  }

  lemma FiredStays(s: State, e: Event)
    requires Inv(s) && s.fired && !e.TimerRuns?
    ensures Step(s, e).fired
  {
    hide Stage0, Apply;
    ApplyKeeps();
    if e.Interrupt? { Stage0Keeps(s, e.irq); }
  }

  /** In every run, once B_WAIT_ACON is entered the timer is pending or its handler
      is due; when the timer then expires and the handler runs, whatever happens in
      between, the machine is not in B_WAIT_ACON. */
  lemma {:induction false} WaitAconEnds(es: seq<Event>, between: seq<Event>, g: Effect)
    requires Run(es).role.BWaitAcon? && forall j | 0 <= j < |between| :: !between[j].TimerRuns?
    ensures Run(es + [TimerExpires]).fired
    ensures Run(es + [TimerExpires] + between).fired
    ensures !Run(es + [TimerExpires] + between + [TimerRuns(g)]).role.BWaitAcon?
  {
    RunInvariant(es);
    var e1 := es + [TimerExpires];
    assert e1[..|es|] == es;
    FiredUntilRuns(e1, between);
    var e2 := e1 + between;
    assert (e2 + [TimerRuns(g)])[..|e2|] == e2;
    TimerLeavesWait(Run(e2), g);
  }

  // ----- The driver object -----

  class Controller {
    var role: Role
    var isHost: bool
    var isActive: bool
    var isBHost: bool
    var armed: bool
    var fired: bool
    var ignoreDisconnect: bool

    ghost function View(): State
      reads this
    {
      State(role, isHost, isActive, isBHost, armed, fired, ignoreDisconnect)
    }

    constructor ()
      ensures View() == Probed && Inv(View())
    {
      role, isHost, isActive, isBHost := BIdle, false, false, false;
      armed, fired, ignoreDisconnect := false, false, false;
    }

    /** A helper outside this file. */
    method Helper(e: Effect)
      modifies this`role, this`isHost, this`isActive
      ensures View() == Apply(old(View()), e)
    {
      if e.role != role && (HostRole(e.role) || e.role.BWaitAcon?) { return; }
      if !e.isHost && HostRole(e.role) { return; }
      role, isHost, isActive := e.role, e.isHost, e.isActive;
    }

    method ResumeIrq(i: Irq)
      modifies this
      ensures View() == Resume(old(View()), i)
    {
      if !i.resume { return; }
      if i.hostMode {
        if role.ASuspend? {
          if !i.suspendM { role := AHost; isActive := true; }
        } else if role.BWaitAcon? {
          role := BPeripheral;
          isActive := true;
          isHost := false;
        }
      } else if role.ASuspend? {
        role := AHost;
      } else if role.BWaitAcon? || role.BPeripheral? {
        if i.vbus == VBUS_VALID { Helper(i.helpers.gResume); }
      }
    }

    method SuspendIrq(i: Irq)
      modifies this
      ensures View() == Suspend(old(View()), i)
    {
      if !i.suspend { return; }
      match role {
        case APeripheral => Helper(i.helpers.rootDisconnect);
        case AWaitBcon =>
        case AHost => role := ASuspend; isActive := i.hostHnp;
        case BHost =>
        case BIdle =>
          if isActive { SuspendAsGadget(i); }
        case BPeripheral => SuspendAsGadget(i);
        case _ => isActive := false;
      }
    }

    method SuspendAsGadget(i: Irq)
      modifies this
      ensures View() == SuspendGadget(old(View()), i)
    {
      Helper(i.helpers.gSuspend);
      isActive := i.gadgetHnp;
      if isActive {
        role := BWaitAcon;
        armed := true;
      }
    }

    method ConnectIrq(i: Irq)
      modifies this
      ensures View() == Connect(old(View()), i)
    {
      if !i.connect { return; }
      isActive := true;
      if role.BWaitAcon? || (role.BPeripheral? && i.suspend) {
        role := BHost;
        isBHost := true;
        ignoreDisconnect := false;
        armed := false;
      } else if !role.BPeripheral? && i.vbus == VBUS_VALID {
        role := AHost;
        isBHost := false;
      }
      isHost := true;
    }

    method StopHnpSteps(compliance: bool, e: Effect)
      modifies this
      ensures View() == HnpStop(old(View()), compliance, e)
    {
      match role {
        case APeripheral => Helper(e);
        case AHost =>
          if compliance { role := ASuspend; }
        case BHost =>
          isBHost := false;
          role := BPeripheral;
          isHost := false;
        case _ =>
      }
    }

    method DisconnectIrq(i: Irq)
      modifies this
      ensures View() == Disconnect(old(View()), i)
    {
      if !i.disconnect || ignoreDisconnect { return; }
      isActive := false;
      match role {
        case AHost => Helper(i.helpers.rootDisconnect);
        case ASuspend => Helper(i.helpers.rootDisconnect);
        case BHost =>
          Helper(i.helpers.rootDisconnect);
          isBHost := false;
          role := BPeripheral;
          isHost := false;
          Helper(i.helpers.gDisconnect);
        case APeripheral =>
          StopHnpSteps(i.compliance, i.helpers.hnpDisconnect);
          Helper(i.helpers.rootDisconnect);
          Helper(i.helpers.gDisconnect);
        case BWaitAcon => Helper(i.helpers.gDisconnect);
        case BPeripheral => Helper(i.helpers.gDisconnect);
        case BIdle => Helper(i.helpers.gDisconnect);
        case _ =>
      }
    }

    method ResetIrq(i: Irq)
      modifies this
      ensures View() == Reset(old(View()), i)
    {
      if !i.reset || i.hostMode { return; }
      match role {
        case ASuspend =>
          ignoreDisconnect := true;
          Helper(i.helpers.gReset);
          armed := true;
        case AWaitBcon => armed := true;
        case APeripheral =>
          ignoreDisconnect := false;
          armed := false;
          Helper(i.helpers.gReset);
        case BWaitAcon =>
          role := BPeripheral;
          Helper(i.helpers.gReset);
        case BIdle =>
          role := BPeripheral;
          Helper(i.helpers.gReset);
        case BPeripheral => Helper(i.helpers.gReset);
        case _ =>
      }
    }

    /** `musb_stage0_irq` */
    method Stage0Irq(i: Irq)
      requires Inv(View())
      modifies this
      ensures View() == Stage0(old(View()), i) && Inv(View())
    {
      hide Resume, Suspend, Connect, Disconnect, Reset;
      Stage0Keeps(View(), i);
      ResumeIrq(i);
      if SessionEndsIrq(i) { return; }
      if i.sessReq && i.compliance { role := AIdle; isHost := true; }
      SuspendIrq(i);
      ConnectIrq(i);
      DisconnectIrq(i);
      ResetIrq(i);
    }

    /** `musb_otg_timer_func` */
    method OtgTimerFunc(e: Effect)
      requires Inv(View())
      modifies this
      ensures View() == TimerHandler(old(View()), e) && Inv(View()) && !role.BWaitAcon?
    {
      match role {
        case BWaitAcon =>
          Helper(e);
          role := BPeripheral;
          isActive := false;
        case ASuspend => role := AWaitVfall;
        case AWaitBcon => role := AWaitVfall;
        case _ =>
      }
      ignoreDisconnect := false;
      fired := false;
    }

    /** `musb_id_pin_work` */
    method IdPinWorkStep(p: IdPin)
      requires Inv(View())
      modifies this
      ensures View() == IdPinWork(old(View()), p) && Inv(View())
    {
      if p.blocked || p.ipoOff { return; }
      isHost := if p.flip then !isHost else p.pin;
      if isHost {
        isActive := true;
      } else {
        if isActive { Helper(p.rootDisconnect); }
        isActive := false;
        role := BIdle;
        isHost := false;
      }
    }
  }
}
