/** Which way each interrupt, the timer and the other steps move the OTG role machine. */
module OtgTransitions {
  import opened Otg

  // ----- One cause at a time -----

  /** The interrupt with none of its causes, and with one of them. The registers, flags
      and helpers it finds stay. */
  function Quiet(i: Irq): Irq {
    i.(resume := false, sessReq := false, suspend := false, connect := false, disconnect := false, reset := false)
  }

  function ResumeOf(i: Irq): Irq { Quiet(i).(resume := i.resume) }
  function SessReqOf(i: Irq): Irq { Quiet(i).(sessReq := i.sessReq) }
  function SuspendOf(i: Irq): Irq { Quiet(i).(suspend := i.suspend) }
  function ConnectOf(i: Irq): Irq { Quiet(i).(suspend := i.suspend, connect := i.connect) }
  function DisconnectOf(i: Irq): Irq { Quiet(i).(disconnect := i.disconnect) }
  function ResetOf(i: Irq): Irq { Quiet(i).(reset := i.reset) }

  /** A part of the handler whose cause is missing does nothing. */
  lemma NoCause(s: State, i: Irq)
    ensures !i.resume ==> Resume(s, i) == s
    ensures !i.sessReq ==> SessionRequest(s, i) == s && !SessionEndsIrq(i)
    ensures !i.suspend ==> Suspend(s, i) == s
    ensures !i.connect ==> Connect(s, i) == s
    ensures !i.disconnect ==> Disconnect(s, i) == s
    ensures !i.reset ==> Reset(s, i) == s
  {
    hide Apply, SuspendGadget, HnpStop, BecomeBHost;
  }

  /** The same registers, flags and helpers. */
  predicate SameRest(i: Irq, j: Irq) {
    && i.hostMode == j.hostMode && i.bDevice == j.bDevice && i.vbus == j.vbus && i.suspendM == j.suspendM
    && i.gadgetHnp == j.gadgetHnp && i.hostHnp == j.hostHnp && i.compliance == j.compliance && i.helpers == j.helpers
  }

  /** A part of the handler looks at no cause but its own, and a connection at the suspend. */
  lemma SameResume(s: State, i: Irq, j: Irq)
    requires SameRest(i, j) && i.resume == j.resume
    ensures Resume(s, i) == Resume(s, j)
  {
    hide Apply;
  }

  lemma SameSessionRequest(s: State, i: Irq, j: Irq)
    requires SameRest(i, j) && i.sessReq == j.sessReq
    ensures SessionRequest(s, i) == SessionRequest(s, j)
  {
  }

  lemma SameSuspend(s: State, i: Irq, j: Irq)
    requires SameRest(i, j) && i.suspend == j.suspend
    ensures Suspend(s, i) == Suspend(s, j)
  {
    hide Apply;
  }

  lemma SameConnect(s: State, i: Irq, j: Irq)
    requires SameRest(i, j) && i.connect == j.connect && i.suspend == j.suspend
    ensures Connect(s, i) == Connect(s, j)
  {
    hide BecomeBHost;
  }

  lemma SameDisconnect(s: State, i: Irq, j: Irq)
    requires SameRest(i, j) && i.disconnect == j.disconnect
    ensures Disconnect(s, i) == Disconnect(s, j)
  {
    hide Apply, HnpStop;
  }

  lemma SameReset(s: State, i: Irq, j: Irq)
    requires SameRest(i, j) && i.reset == j.reset
    ensures Reset(s, i) == Reset(s, j)
  {
    hide Apply;
  }

  lemma RestOf(i: Irq)
    ensures SameRest(Quiet(i), i) && SameRest(ResumeOf(i), i) && SameRest(SessReqOf(i), i) && SameRest(SuspendOf(i), i)
    ensures SameRest(ConnectOf(i), i) && SameRest(DisconnectOf(i), i) && SameRest(ResetOf(i), i)
  {
  }

  /** Without a cause nothing happens; with one, its part of the handler. */
  lemma QuietNothing(s: State, i: Irq)
    ensures Stage0(s, Quiet(i)) == s
  {
    hide Resume, SessionRequest, Suspend, Connect, Disconnect, Reset, SessionEndsIrq, SameRest;
    NoCause(s, Quiet(i));
  }

  lemma ResumeCause(s: State, i: Irq)
    ensures Stage0(s, ResumeOf(i)) == Resume(s, i)
  {
    hide Resume, SessionRequest, Suspend, Connect, Disconnect, Reset, SessionEndsIrq, SameRest;
    var e := ResumeOf(i);
    RestOf(i);
    SameResume(s, e, i);
    NoCause(Resume(s, e), e);
  }

  lemma SessionCause(s: State, i: Irq)
    ensures Stage0(s, SessReqOf(i)) == if SessionEndsIrq(i) then s else SessionRequest(s, i)
  {
    hide Resume, SessionRequest, Suspend, Connect, Disconnect, Reset, SameRest;
    var e := SessReqOf(i);
    RestOf(i);
    SameSessionRequest(s, e, i);
    NoCause(s, e);
    NoCause(SessionRequest(s, e), e);
  }

  lemma SuspendCause(s: State, i: Irq)
    ensures Stage0(s, SuspendOf(i)) == Suspend(s, i)
  {
    hide Resume, SessionRequest, Suspend, Connect, Disconnect, Reset, SessionEndsIrq, SameRest;
    var e := SuspendOf(i);
    RestOf(i);
    SameSuspend(s, e, i);
    NoCause(s, e);
    NoCause(Suspend(s, e), e);
  }

  lemma ConnectCause(s: State, i: Irq)
    ensures Stage0(s, ConnectOf(i)) == Connect(Suspend(s, i), i)
  {
    hide Resume, SessionRequest, Suspend, Connect, Disconnect, Reset, SessionEndsIrq, SameRest;
    var e := ConnectOf(i);
    RestOf(i);
    SameSuspend(s, e, i);
    SameConnect(Suspend(s, e), e, i);
    NoCause(s, e);
    NoCause(Connect(Suspend(s, e), e), e);
  }

  lemma DisconnectCause(s: State, i: Irq)
    ensures Stage0(s, DisconnectOf(i)) == Disconnect(s, i)
  {
    hide Resume, SessionRequest, Suspend, Connect, Disconnect, Reset, SessionEndsIrq, SameRest;
    var e := DisconnectOf(i);
    RestOf(i);
    SameDisconnect(s, e, i);
    NoCause(s, e);
    NoCause(Disconnect(s, e), e);
  }

  lemma ResetCause(s: State, i: Irq)
    ensures Stage0(s, ResetOf(i)) == Reset(s, i)
  {
    hide Resume, SessionRequest, Suspend, Connect, Disconnect, Reset, SessionEndsIrq, SameRest;
    var e := ResetOf(i);
    RestOf(i);
    SameReset(s, e, i);
    NoCause(s, e);
  }

  /** The causes of an interrupt are served in one order, each as if it came alone; but a
      connection is served knowing of a suspend that came with it, and a session request
      on the B side ends the interrupt. */
  lemma OneAtATime(s: State, i: Irq)
    ensures SessionEndsIrq(i) ==> Stage0(s, i) == Stage0(s, ResumeOf(i))
    ensures !SessionEndsIrq(i) ==>
      var a := Stage0(Stage0(s, ResumeOf(i)), SessReqOf(i));
      Stage0(s, i) == Stage0(Stage0(Stage0(a, ConnectOf(i)), DisconnectOf(i)), ResetOf(i))
  {
    hide Resume, SessionRequest, Suspend, Connect, Disconnect, Reset, SessionEndsIrq, ResumeOf, SessReqOf, ConnectOf,
      DisconnectOf, ResetOf;
    var r := Stage0(s, ResumeOf(i));
    var a := Stage0(r, SessReqOf(i));
    var b := Stage0(a, ConnectOf(i));
    ResumeCause(s, i);
    SessionCause(r, i);
    ConnectCause(a, i);
    DisconnectCause(b, i);
    ResetCause(Stage0(b, DisconnectOf(i)), i);
  }

  // ----- What each cause does -----

  /** What a helper may leave: nothing changed; or a role that is no host role it did not
      have and not B_WAIT_ACON, with host roles still as hosts. */
  predicate Helped(s: State, e: Effect, t: State) {
    if (e.role == s.role || (!(e.role.AHost? || e.role.ASuspend? || e.role.BHost? || e.role.BWaitAcon?)))
       && (e.isHost || !(e.role.AHost? || e.role.ASuspend? || e.role.BHost?))
    then t == s.(role := e.role, isHost := e.isHost, isActive := e.isActive)
    else t == s
  }

  lemma ApplyHelps(s: State, e: Effect)
    ensures Helped(s, e, Apply(s, e))
  {
  }

  /** A connection in B_WAIT_ACON, or in B_PERIPHERAL with a suspend, makes the B device
      host; elsewhere valid VBUS makes the A device host. The machine is active and host
      in any case. */
  lemma ConnectMoves(s: State, i: Irq)
    requires i.connect && !i.suspend
    ensures var t := Stage0(s, ConnectOf(i));
      && t.isHost && t.isActive
      && (s.role.BWaitAcon? ==>
            t == s.(role := BHost, isHost := true, isActive := true, isBHost := true, armed := false,
                    ignoreDisconnect := false))
      && (!(s.role.BWaitAcon? || s.role.BPeripheral?) && i.vbus == VBUS_VALID ==>
            t == s.(role := AHost, isHost := true, isActive := true, isBHost := false))
      && (s.role.BPeripheral? || (!s.role.BWaitAcon? && i.vbus != VBUS_VALID) ==> t == s.(isHost := true, isActive := true))
  {
    hide Stage0, ConnectOf, Suspend, Resume, Disconnect, Reset, SessionRequest;
    ConnectCause(s, i);
    NoCause(s, i);
  }

  lemma ConnectSuspendMoves(s: State, i: Irq)
    requires i.connect && i.suspend
    ensures var r, t := Stage0(s, SuspendOf(i)), Stage0(s, ConnectOf(i));
      && t.isHost && t.isActive
      && ((r.role.BWaitAcon? || r.role.BPeripheral?) ==>
            t == r.(role := BHost, isHost := true, isActive := true, isBHost := true, armed := false,
                    ignoreDisconnect := false))
      && (!(r.role.BWaitAcon? || r.role.BPeripheral?) && i.vbus == VBUS_VALID ==>
            t == r.(role := AHost, isHost := true, isActive := true, isBHost := false))
      && (!(r.role.BWaitAcon? || r.role.BPeripheral?) && i.vbus != VBUS_VALID ==> t == r.(isHost := true, isActive := true))
  {
    hide Stage0, ConnectOf, SuspendOf, Suspend, Resume, Disconnect, Reset, SessionRequest;
    ConnectCause(s, i);
    SuspendCause(s, i);
  }

  /** A resume ends A_SUSPEND, unless the bus is still suspended in host mode; in host mode
      it ends B_WAIT_ACON as a peripheral; in device mode a peripheral with valid VBUS resumes. */
  lemma ResumeMoves(s: State, i: Irq)
    requires i.resume
    ensures var t := Stage0(s, ResumeOf(i));
      && (s.role.ASuspend? ==>
            t == if !i.hostMode then s.(role := AHost)
                 else if i.suspendM then s
                 else s.(role := AHost, isActive := true))
      && (s.role.BWaitAcon? && i.hostMode ==> t == s.(role := BPeripheral, isActive := true, isHost := false))
      && ((s.role.BWaitAcon? || s.role.BPeripheral?) && !i.hostMode ==>
            if i.vbus == VBUS_VALID then Helped(s, i.helpers.gResume, t) else t == s)
      && (!(s.role.ASuspend? || s.role.BWaitAcon?) && (i.hostMode || !s.role.BPeripheral?) ==> t == s)
  {
    hide Stage0, ResumeOf, Suspend, Connect, Disconnect, Reset, SessionRequest;
    ResumeCause(s, i);
  }

  /** A session request makes an A device of it in compliance builds. */
  lemma SessionMoves(s: State, i: Irq)
    requires i.sessReq
    ensures Stage0(s, SessReqOf(i))
         == if i.compliance && !(i.vbus == VBUS_VALID && i.bDevice) then s.(role := AIdle, isHost := true) else s
  {
    hide Stage0, SessReqOf, Suspend, Connect, Disconnect, Reset, Resume;
    SessionCause(s, i);
  }

  /** A suspend takes A_HOST to A_SUSPEND, active exactly with HNP; it takes a peripheral
      with HNP to B_WAIT_ACON with the timer running; without HNP, and in the other roles
      but A_WAIT_BCON and B_HOST, the machine is no longer active. */
  lemma SuspendMoves(s: State, i: Irq)
    requires i.suspend
    ensures var t := Stage0(s, SuspendOf(i));
      && (s.role.AHost? ==> t == s.(role := ASuspend, isActive := i.hostHnp))
      && (s.role.BPeripheral? || (s.role.BIdle? && s.isActive) ==>
            && t.isActive == i.gadgetHnp
            && (i.gadgetHnp ==> t.role.BWaitAcon? && t.armed)
            && (!i.gadgetHnp ==> exists r :: Helped(s, i.helpers.gSuspend, r) && t == r.(isActive := false)))
      && (s.role.APeripheral? ==> Helped(s, i.helpers.rootDisconnect, t))
      && ((s.role.AWaitBcon? || s.role.BHost?) || (s.role.BIdle? && !s.isActive) ==> t == s)
      && (!(s.role.AHost? || s.role.BPeripheral? || s.role.BIdle? || s.role.APeripheral? || s.role.AWaitBcon?
           || s.role.BHost?) ==>
            t == s.(isActive := false))
  {
    hide Stage0, SuspendOf, Resume, Connect, Disconnect, Reset, SessionRequest, Apply, Helped;
    SuspendCause(s, i);
    ApplyHelps(s, i.helpers.gSuspend);
    ApplyHelps(s, i.helpers.rootDisconnect);
    if s.role.BPeripheral? || (s.role.BIdle? && s.isActive) {
      assert Helped(s, i.helpers.gSuspend, Apply(s, i.helpers.gSuspend));
    }
  }

  /** A disconnect that is not ignored ends B_HOST as a peripheral, tells the root hub of a
      host and the gadget of a peripheral, and leaves the machine inactive unless a helper
      says otherwise. */
  lemma DisconnectMoves(s: State, i: Irq)
    requires i.disconnect
    ensures var t := Stage0(s, DisconnectOf(i));
      && (s.ignoreDisconnect ==> t == s)
      && (!s.ignoreDisconnect ==>
            var off := s.(isActive := false);
            && ((s.role.AHost? || s.role.ASuspend?) ==> Helped(off, i.helpers.rootDisconnect, t))
            && ((s.role.BWaitAcon? || s.role.BPeripheral? || s.role.BIdle?) ==> Helped(off, i.helpers.gDisconnect, t))
            && (s.role.BHost? ==>
                  && !t.isBHost && !(t.role.AHost? || t.role.ASuspend? || t.role.BHost? || t.role.BWaitAcon?)
                  && exists r :: Helped(off, i.helpers.rootDisconnect, r)
                       && Helped(r.(isBHost := false, role := BPeripheral, isHost := false), i.helpers.gDisconnect, t))
            && (s.role.APeripheral? ==>
                  exists r, q :: Helped(off, i.helpers.hnpDisconnect, r) && Helped(r, i.helpers.rootDisconnect, q)
                                 && Helped(q, i.helpers.gDisconnect, t))
            && (!(HostRole(s.role) || s.role.APeripheral? || s.role.BWaitAcon? || s.role.BPeripheral? || s.role.BIdle?)
                ==> t == off))
  {
    hide Stage0, DisconnectOf, Resume, Connect, Suspend, Reset, SessionRequest, Apply, Helped;
    DisconnectCause(s, i);
    var off := s.(isActive := false);
    ApplyHelps(off, i.helpers.rootDisconnect);
    ApplyHelps(off, i.helpers.gDisconnect);
    if s.role.BHost? {
      var r := Apply(off, i.helpers.rootDisconnect).(isBHost := false, role := BPeripheral, isHost := false);
      ApplyHelps(r, i.helpers.gDisconnect);
      HelpedEnters(r, i.helpers.gDisconnect, Apply(r, i.helpers.gDisconnect));
      HelpedKeeps(r, i.helpers.gDisconnect, Apply(r, i.helpers.gDisconnect));
    } else if s.role.APeripheral? {
      HnpEnters(off, i.compliance, i.helpers.hnpDisconnect);
      var r := Apply(off, i.helpers.hnpDisconnect);
      ApplyHelps(off, i.helpers.hnpDisconnect);
      ApplyHelps(r, i.helpers.rootDisconnect);
      ApplyHelps(Apply(r, i.helpers.rootDisconnect), i.helpers.gDisconnect);
    }
  }

  lemma HelpedKeeps(s: State, e: Effect, t: State)
    requires Helped(s, e, t)
    ensures t.isBHost == s.isBHost
  {
  }

  /** A bus reset in device mode makes a peripheral of B_IDLE and B_WAIT_ACON; in A_SUSPEND
      it starts the timer and has the disconnect that follows ignored, which a reset of
      A_PERIPHERAL ends; in host mode it does nothing here. */
  lemma ResetMoves(s: State, i: Irq)
    requires i.reset
    ensures var t, reset := Stage0(s, ResetOf(i)), i.helpers.gReset;
      && (i.hostMode ==> t == s)
      && (!i.hostMode ==>
            && ((s.role.BIdle? || s.role.BWaitAcon? || s.role.BPeripheral?) ==> Helped(s.(role := BPeripheral), reset, t))
            && (s.role.ASuspend? ==>
                  t.armed && exists r :: Helped(s.(ignoreDisconnect := true), reset, r) && t == r.(armed := true))
            && (s.role.AWaitBcon? ==> t == s.(armed := true))
            && (s.role.APeripheral? ==> Helped(s.(ignoreDisconnect := false, armed := false), reset, t))
            && (!(s.role.BIdle? || s.role.BWaitAcon? || s.role.BPeripheral? || s.role.ASuspend? || s.role.AWaitBcon?
                  || s.role.APeripheral?) ==>
                  t == s))
  {
    hide Stage0, ResetOf, Resume, Connect, Suspend, Disconnect, SessionRequest;
    ResetCause(s, i);
    if s.role.ASuspend? {
      assert Helped(s.(ignoreDisconnect := true), i.helpers.gReset, Apply(s.(ignoreDisconnect := true), i.helpers.gReset));
    }
  }

  // ----- The other steps -----

  /** The timer gives up B_WAIT_ACON as a peripheral, and A_SUSPEND and A_WAIT_BCON by
      letting VBUS fall; a disconnect is no longer ignored. */
  lemma TimerMoves(s: State, g: Effect)
    requires s.fired
    ensures var t := Step(s, TimerRuns(g));
      && !t.fired && !t.ignoreDisconnect && t.armed == s.armed && t.isBHost == s.isBHost
      && (s.role.BWaitAcon? ==> t.role.BPeripheral? && !t.isActive)
      && ((s.role.ASuspend? || s.role.AWaitBcon?) ==> t == s.(role := AWaitVfall, ignoreDisconnect := false, fired := false))
      && (!(s.role.BWaitAcon? || s.role.ASuspend? || s.role.AWaitBcon?) ==> t == s.(ignoreDisconnect := false, fired := false))
  {
  }

  lemma TimerExpiry(s: State)
    ensures var t := Step(s, TimerExpires);
      t == if s.armed then s.(armed := false, fired := true) else s
    ensures !s.fired ==> forall g :: Step(s, TimerRuns(g)) == s
  {
  }

  /** The end of HNP: B_HOST becomes a peripheral again, A_PERIPHERAL disconnects its gadget. */
  lemma HnpMoves(s: State, compliance: bool, g: Effect)
    ensures var t := Step(s, StopHnp(compliance, g));
      && (s.role.BHost? ==> t == s.(role := BPeripheral, isBHost := false, isHost := false))
      && (s.role.APeripheral? ==> Helped(s, g, t))
      && (s.role.AHost? ==> t == if compliance then s.(role := ASuspend) else s)
      && (!(s.role.BHost? || s.role.APeripheral? || s.role.AHost?) ==> t == s)
  {
  }

  /** The id pin: unless it does nothing, the work leaves an active host in the role it had,
      or an inactive device in B_IDLE. */
  lemma IdPinMoves(s: State, p: IdPin)
    ensures var t := Step(s, IdPinEvent(p));
      if p.blocked || p.ipoOff then t == s
      else if (if p.flip then !s.isHost else p.pin) then t == s.(isHost := true, isActive := true)
      else t.role.BIdle? && !t.isHost && !t.isActive && t.armed == s.armed && t.fired == s.fired
           && t.isBHost == s.isBHost && t.ignoreDisconnect == s.ignoreDisconnect
  {
  }

  // ----- What makes it a host -----

  /** A helper enters no host role and not B_WAIT_ACON. */
  lemma HelpedEnters(s: State, e: Effect, t: State)
    requires Helped(s, e, t)
    ensures t.role == s.role || !(HostRole(t.role) || t.role.BWaitAcon?)
  {
  }

  /** An interrupt with one cause enters A_HOST exactly on a connection with valid VBUS
      outside B_PERIPHERAL and B_WAIT_ACON, or on a resume that ends A_SUSPEND; B_HOST on a
      connection in B_WAIT_ACON; and B_WAIT_ACON on a suspend of an active peripheral with HNP. */
  lemma ConnectEnters(s: State, i: Irq)
    requires !i.suspend
    ensures var t := Stage0(s, ConnectOf(i)).role;
      && (!s.role.AHost? ==> (t.AHost? <==> i.connect && i.vbus == VBUS_VALID && !s.role.BPeripheral? && !s.role.BWaitAcon?))
      && (!s.role.BHost? ==> (t.BHost? <==> i.connect && s.role.BWaitAcon?))
      && (t.BWaitAcon? ==> s.role.BWaitAcon?)
  {
    hide Stage0, ConnectOf;
    if i.connect { ConnectMoves(s, i); } else { SameQuiet(s, i); }
  }

  lemma SameQuiet(s: State, i: Irq)
    ensures !i.connect && !i.suspend ==> Stage0(s, ConnectOf(i)) == s
    ensures !i.resume ==> Stage0(s, ResumeOf(i)) == s
    ensures !i.suspend ==> Stage0(s, SuspendOf(i)) == s
    ensures !i.sessReq ==> Stage0(s, SessReqOf(i)) == s
    ensures !i.disconnect ==> Stage0(s, DisconnectOf(i)) == s
    ensures !i.reset ==> Stage0(s, ResetOf(i)) == s
  {
    hide Stage0;
    QuietNothing(s, i);
  }

  lemma ResumeEnters(s: State, i: Irq)
    ensures var t := Stage0(s, ResumeOf(i)).role;
      && (!s.role.AHost? ==> (t.AHost? <==> i.resume && s.role.ASuspend? && !(i.hostMode && i.suspendM)))
      && (t.BHost? ==> s.role.BHost?) && (t.BWaitAcon? ==> s.role.BWaitAcon?)
  {
    hide Stage0, ResumeOf, Helped;
    if i.resume {
      ResumeMoves(s, i);
      var t := Stage0(s, ResumeOf(i));
      if Helped(s, i.helpers.gResume, t) { HelpedEnters(s, i.helpers.gResume, t); }
    } else {
      SameQuiet(s, i);
    }
  }

  lemma SuspendEnters(s: State, i: Irq)
    ensures var t := Stage0(s, SuspendOf(i)).role;
      && (!s.role.BWaitAcon? ==>
            (t.BWaitAcon? <==> i.suspend && i.gadgetHnp && (s.role.BPeripheral? || (s.role.BIdle? && s.isActive))))
      && (t.AHost? ==> s.role.AHost?) && (t.BHost? ==> s.role.BHost?)
  {
    hide Stage0, SuspendOf, Helped;
    if i.suspend {
      SuspendMoves(s, i);
      var t := Stage0(s, SuspendOf(i));
      if Helped(s, i.helpers.rootDisconnect, t) { HelpedEnters(s, i.helpers.rootDisconnect, t); }
      if (s.role.BPeripheral? || (s.role.BIdle? && s.isActive)) && !i.gadgetHnp {
        var r :| Helped(s, i.helpers.gSuspend, r) && t == r.(isActive := false);
        HelpedEnters(s, i.helpers.gSuspend, r);
      }
    } else {
      SameQuiet(s, i);
    }
  }

  /** The other causes enter none of the three. */
  lemma OthersEnterNone(s: State, i: Irq)
    ensures var t := Stage0(s, SessReqOf(i)).role; t == s.role || t.AIdle?
    ensures forall t | t == Stage0(s, DisconnectOf(i)).role || t == Stage0(s, ResetOf(i)).role ::
              t == s.role || !(HostRole(t) || t.BWaitAcon?)
  {
    hide Stage0, SessReqOf, DisconnectOf, ResetOf, Disconnect, Reset;
    SessionCause(s, i);
    DisconnectCause(s, i);
    ResetCause(s, i);
    DisconnectEnters(s, i);
    ResetEnters(s, i);
  }

  lemma DisconnectEnters(s: State, i: Irq)
    ensures var t := Disconnect(s, i).role; t == s.role || !(HostRole(t) || t.BWaitAcon?)
  {
    hide Apply;
    ApplyEnters();
    HnpEnters(s.(isActive := false), i.compliance, i.helpers.hnpDisconnect);
  }

  lemma HnpEnters(s: State, c: bool, g: Effect)
    ensures s.role.APeripheral? ==> HnpStop(s, c, g) == Apply(s, g)
  {
  }

  lemma ApplyEnters()
    ensures forall s: State, e: Effect ::
      Apply(s, e).role == s.role || !(HostRole(Apply(s, e).role) || Apply(s, e).role.BWaitAcon?)
  {
  }

  lemma ResetEnters(s: State, i: Irq)
    ensures var t := Reset(s, i).role; t == s.role || !(HostRole(t) || t.BWaitAcon?)
  {
    hide Apply;
    ApplyEnters();
  }
}
