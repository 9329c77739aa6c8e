/** The pause and wake protocol between an audio record thread and the threads that
    control it. Each section under `mMyLock` is one step, so is each point where
    the thread runs without it; a waiting thread may wake up at any time. */
module RecordThread {

  /** What `processAudioBuffer` returns. */
  datatype Result = Again | Inactive | Never | Whenever | After(ns: int)

  /** Where the thread is. `Returned` is between `processAudioBuffer` and the lock
      of `pauseInternal`. */
  datatype Pc = Top | WaitPaused | WaitInternal(timed: bool) | Processing | Returned(ns: int) | Exited

  /** `signalled`: the waiting thread was signalled and has not run since. */
  datatype State = State(paused: bool, pausedInt: bool, pausedNs: int, ignoreNext: bool, pc: Pc, signalled: bool)

  const INT64_MAX := 0x7fff_ffff_ffff_ffff
  const Created := State(true, false, 0, false, Top, false)

  function Signal(s: State): State {
    if s.pc.WaitPaused? || s.pc.WaitInternal? then s.(signalled := true) else s
  }

  function Paused(s: State): State { s.(paused := true) }

  function Resumed(s: State): State {
    var t := s.(ignoreNext := true);
    if s.paused || s.pausedInt then Signal(t.(paused := false, pausedInt := false)) else t
  }

  function Woken(s: State): State {
    if s.paused then s
    else
      var t := s.(ignoreNext := true);
      if s.pausedInt && s.pausedNs > 0 then Signal(t.(pausedInt := false)) else t
  }

  /** The locked section at the top of `threadLoop`. */
  function EnterLoop(s: State): State {
    if s.paused then s.(pc := WaitPaused, signalled := false)
    else
      var t := if s.ignoreNext then s.(ignoreNext := false, pausedInt := false) else s;
      if t.pausedInt then t.(pc := WaitInternal(t.pausedNs > 0), signalled := false)
      else t.(pc := Processing)
  }

  /** The end of a wait: by a signal, a timeout or spuriously. */
  function WakeUp(s: State): State {
    if s.pc.WaitPaused? then s.(pc := Top, signalled := false)
    else s.(pausedInt := false, pc := Top, signalled := false)
  }

  function ProcessReturns(s: State, r: Result): State {
    match r
    case Again => s.(pc := Top)
    case Inactive => s.(pc := Returned(0))
    case Never => s.(pc := Exited)
    case Whenever => s.(pc := Returned(INT64_MAX))
    case After(ns) => s.(pc := Returned(ns))
  }

  function PausedInternally(s: State, ns: int): State {
    s.(pausedInt := true, pausedNs := ns, pc := Top)
  }

  datatype Event = DoPause | DoResume | DoWake | Loop | EndWait | Return(result: Result) | SetInternal

  /** A step of a controller is always possible, one of the thread where it stands. */
  predicate Enabled(s: State, e: Event) {
    match e
    case Loop => s.pc.Top?
    case EndWait => s.pc.WaitPaused? || s.pc.WaitInternal?
    case Return(_) => s.pc.Processing?
    case SetInternal => s.pc.Returned?
    case _ => true
  }

  function Step(s: State, e: Event): State
    requires Enabled(s, e)
  {
    match e
    case DoPause => Paused(s)
    case DoResume => Resumed(s)
    case DoWake => Woken(s)
    case Loop => EnterLoop(s)
    case EndWait => WakeUp(s)
    case Return(r) => ProcessReturns(s, r)
    case SetInternal => PausedInternally(s, s.pc.ns)
  }

  ghost predicate IsRun(states: seq<State>, events: seq<Event>) {
    && |states| == |events| + 1
    && states[0] == Created
    && forall i | 0 <= i < |events| ::
         Enabled(states[i], events[i]) && states[i + 1] == Step(states[i], events[i])
  }

  // ----- Invariants -----

  /** A thread that waits unsignalled waits for a reason that still holds. */
  predicate Inv(s: State) {
    && (s.pc.WaitPaused? && !s.signalled ==> s.paused)
    && (s.pc.WaitInternal? && !s.signalled ==> s.pausedInt)
    && (s.pc.WaitInternal? ==> (s.pc.timed <==> s.pausedNs > 0))
  }

  /** The thread will call `processAudioBuffer` before it blocks again, and if it is
      waiting it was signalled. */
  predicate Owed(s: State) {
    !s.paused &&
    match s.pc
    case Top => s.ignoreNext || !s.pausedInt
    case WaitPaused => s.signalled && (s.ignoreNext || !s.pausedInt)
    case WaitInternal(_) => s.signalled
    case Processing => s.ignoreNext
    case Returned(_) => s.ignoreNext
    case Exited => true
  }

  predicate Waiting(s: State) { s.pc.WaitPaused? || s.pc.WaitInternal? }

  /** The step after which the thread is owed a call. */
  predicate Obliges(s: State, e: Event) {
    || e.DoResume?
    || (e.DoWake? && !s.paused && (s.pc != WaitInternal(false) || s.signalled))
  }

  /** The thread calls `processAudioBuffer`, or blocks on the condition. */
  predicate Calls(s: State, e: Event)
    requires Enabled(s, e)
  {
    e.Loop? && Step(s, e).pc.Processing?
  }

  predicate Blocks(s: State, e: Event)
    requires Enabled(s, e)
  {
    e.Loop? && Waiting(Step(s, e))
  }

  lemma StepKeeps(s: State, e: Event)
    requires Inv(s) && Enabled(s, e)
    ensures Inv(Step(s, e))
    ensures Obliges(s, e) ==> Owed(Step(s, e))
    ensures Owed(s) && !e.DoPause? ==> !Blocks(s, e) && (Owed(Step(s, e)) || Calls(s, e))
  {
  }

  /** `wake()` obliges the thread exactly when it is not paused and not in an
      untimed internal wait that nobody ended. */
  lemma WakeExact(s: State)
    requires Inv(s) && !s.pc.Exited?
    ensures Owed(Woken(s)) <==> Obliges(s, DoWake)
  {
  }

  lemma {:induction false} RunInv(states: seq<State>, events: seq<Event>, i: nat)
    requires IsRun(states, events) && i < |states|
    ensures Inv(states[i])
  {
    hide Inv, Step;
    if i == 0 {
      CreatedOk();
    } else {
      RunInv(states, events, i - 1);
      assert Enabled(states[i - 1], events[i - 1]) && states[i] == Step(states[i - 1], events[i - 1]);
      StepKeeps(states[i - 1], events[i - 1]);
    }
  }

  lemma CreatedOk()
    ensures Inv(Created)
  {
  }

  lemma {:induction false} OwedUntilCall(states: seq<State>, events: seq<Event>, i: nat, j: nat)
    requires IsRun(states, events) && i < j < |states| && Obliges(states[i], events[i])
    requires forall k | i < k < j :: !events[k].DoPause?
    requires forall k | i < k < j :: Enabled(states[k], events[k]) ==> !Calls(states[k], events[k])
    ensures Owed(states[j])
    decreases j
  {
    hide Inv, Step, Owed, Calls, Obliges, Blocks;
    RunInv(states, events, j - 1);
    assert Enabled(states[j - 1], events[j - 1]) && states[j] == Step(states[j - 1], events[j - 1]);
    StepKeeps(states[j - 1], events[j - 1]);
    if i < j - 1 { OwedUntilCall(states, events, i, j - 1); }
  }

  /** No wakeup is lost: between a step that obliges the thread and the next time it
      blocks it calls `processAudioBuffer`, unless it is paused in between. */
  lemma NoLostWakeup(states: seq<State>, events: seq<Event>, i: nat, j: nat)
    requires IsRun(states, events) && i < j < |events| && Obliges(states[i], events[i])
    requires forall k | i < k < j :: !events[k].DoPause?
    requires Enabled(states[j], events[j]) && Blocks(states[j], events[j])
    ensures exists k :: i < k < j && Enabled(states[k], events[k]) && Calls(states[k], events[k])
  {
    hide Inv, Step, Owed, Calls, Obliges, Blocks;
    if forall k | i < k < j :: Enabled(states[k], events[k]) ==> !Calls(states[k], events[k]) {
      OwedUntilCall(states, events, i, j);
      RunInv(states, events, j);
      BlockedWhileOwed(states[j], events[j]);
    }
  }

  lemma BlockedWhileOwed(s: State, e: Event)
    requires Inv(s) && Enabled(s, e) && Blocks(s, e)
    ensures !Owed(s)
  {
  }

  /** ... and until that call it never waits without having been signalled. */
  lemma NeverStuck(states: seq<State>, events: seq<Event>, i: nat, j: nat)
    requires IsRun(states, events) && i < j < |states| && Obliges(states[i], events[i])
    requires forall k | i < k < j :: !events[k].DoPause?
    requires forall k | i < k < j :: Enabled(states[k], events[k]) ==> !Calls(states[k], events[k])
    ensures Waiting(states[j]) ==> states[j].signalled
  {
    OwedUntilCall(states, events, i, j);
  }

  // ----- The thread object -----

  class AudioRecordThread {
    var mPaused: bool
    var mPausedInt: bool
    var mPausedNs: int
    var mIgnoreNextPausedInt: bool
    var pc: Pc                 // where the record thread stands
    var signalled: bool        // its condition variable

    ghost function View(): State
      reads this
    {
      State(mPaused, mPausedInt, mPausedNs, mIgnoreNextPausedInt, pc, signalled)
    }

    constructor ()
      ensures View() == Created
    {
      mPaused, mPausedInt, mPausedNs, mIgnoreNextPausedInt := true, false, 0, false;
      pc, signalled := Top, false;
    }

    method CondSignal()
      modifies this`signalled
      ensures View() == Signal(old(View()))
    {
      if pc.WaitPaused? || pc.WaitInternal? { signalled := true; }
    }

    method Pause()
      modifies this
      ensures View() == Paused(old(View()))
    {
      mPaused := true;
    }

    method Resume()
      modifies this
      ensures View() == Resumed(old(View()))
    {
      mIgnoreNextPausedInt := true;
      if mPaused || mPausedInt {
        mPaused := false;
        mPausedInt := false;
        CondSignal();
      }
    }

    method Wake()
      modifies this
      ensures View() == Woken(old(View()))
    {
      if !mPaused {
        mIgnoreNextPausedInt := true;
        if mPausedInt && mPausedNs > 0 {
          mPausedInt := false;
          CondSignal();
        }
      }
    }

    method PauseInternal(ns: int)
      requires pc == Returned(ns)
      modifies this
      ensures View() == PausedInternally(old(View()), ns)
    {
      mPausedInt := true;
      mPausedNs := ns;
      pc := Top;
    }

    /** `threadLoop` up to the wait or the call of `processAudioBuffer` */
    method ThreadLoop()
      requires pc.Top?
      modifies this
      ensures View() == EnterLoop(old(View()))
    {
      if mPaused {
        pc, signalled := WaitPaused, false;
        return;
      }
      if mIgnoreNextPausedInt {
        mIgnoreNextPausedInt := false;
        mPausedInt := false;
      }
      if mPausedInt {
        if mPausedNs > 0 {
          pc, signalled := WaitInternal(true), false;
        } else {
          pc, signalled := WaitInternal(false), false;
        }
        return;
      }
      pc := Processing;
    }

    /** `threadLoop` after a wait */
    method WaitEnds()
      requires Waiting(View())
      modifies this
      ensures View() == WakeUp(old(View()))
    {
      if pc.WaitInternal? { mPausedInt := false; }
      pc, signalled := Top, false;
    }

    /** `threadLoop` after `processAudioBuffer`, up to the lock of `pauseInternal` */
    method AfterProcess(r: Result)
      requires pc.Processing?
      modifies this
      ensures View() == ProcessReturns(old(View()), r)
    {
      match r {
        case Again => pc := Top;
        case Inactive => pc := Returned(0);
        case Never => pc := Exited;
        case Whenever => pc := Returned(INT64_MAX);
        case After(ns) => pc := Returned(ns);
      }
    }
  }
}
