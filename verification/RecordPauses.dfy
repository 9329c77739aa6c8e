/** When the audio record thread calls `processAudioBuffer` and when it waits, from the
    events of its run alone. */
module RecordPauses {
  import opened RecordThread

  // ----- What a history of events amounts to -----

  /** The last of `pause()` and `resume()` was a `pause()`; the thread starts paused. */
  predicate PausedAfter(es: seq<Event>) {
    if es == [] then true
    else match es[|es| - 1]
      case DoPause => true
      case DoResume => false
      case _ => PausedAfter(es[..|es| - 1])
  }

  /** Since the thread last looked, unpaused, there was a `resume()`, or a `wake()` that
      was not paused either. */
  predicate Pending(es: seq<Event>) {
    if es == [] then false
    else
      var p := es[..|es| - 1];
      match es[|es| - 1]
      case DoResume => true
      case DoWake => Pending(p) || !PausedAfter(p)
      case Loop => Pending(p) && PausedAfter(p)
      case _ => Pending(p)
  }

  /** What `processAudioBuffer` last asked for, as a time to pause. */
  function LastNs(es: seq<Event>): int {
    if es == [] then 0
    else match es[|es| - 1]
      case Return(Inactive) => 0
      case Return(Whenever) => INT64_MAX
      case Return(After(ns)) => ns
      case _ => LastNs(es[..|es| - 1])
  }

  /** The thread last looked while it was paused. */
  predicate LookedPaused(es: seq<Event>) {
    if es == [] then true
    else if es[|es| - 1].Loop? then PausedAfter(es[..|es| - 1])
    else LookedPaused(es[..|es| - 1])
  }

  datatype Nap = Awake | Asleep(ns: int)

  /** The internal pause that is in force: set after `processAudioBuffer`, ended by
      `resume()`, by `wake()` when it has a time limit, when the thread looks with a call
      pending, and at the end of its wait. */
  function NapAfter(es: seq<Event>): Nap {
    if es == [] then Awake
    else
      var p := es[..|es| - 1];
      match es[|es| - 1]
      case SetInternal => Asleep(LastNs(p))
      case DoResume => Awake
      case DoWake => if !PausedAfter(p) && NapAfter(p).Asleep? && NapAfter(p).ns > 0 then Awake else NapAfter(p)
      case Loop => if !PausedAfter(p) && Pending(p) then Awake else NapAfter(p)
      case EndWait => if LookedPaused(p) then NapAfter(p) else Awake
      case _ => NapAfter(p)
  }

  /** A state is the one its history says. */
  predicate Tells(es: seq<Event>, s: State) {
    && s.paused == PausedAfter(es) && s.ignoreNext == Pending(es)
    && (match NapAfter(es) case Awake => !s.pausedInt case Asleep(ns) => s.pausedInt && s.pausedNs == ns)
    && (s.pc.WaitPaused? ==> LookedPaused(es)) && (s.pc.WaitInternal? ==> !LookedPaused(es))
    && (s.pc.Returned? ==> s.pc.ns == LastNs(es))
    && (s.pc.Processing? || s.pc.Returned? ==> NapAfter(es) == Awake)
  }

  lemma {:induction false} TellsStep(es: seq<Event>, s: State, e: Event)
    requires Tells(es, s) && Enabled(s, e)
    ensures Tells(es + [e], Step(s, e))
  {
    assert (es + [e])[..|es|] == es;
  }

  lemma {:induction false} HistoryTells(states: seq<State>, events: seq<Event>, k: nat)
    requires IsRun(states, events) && k < |states|
    ensures Tells(events[..k], states[k])
  {
    hide Tells, Step, Enabled;
    if k == 0 {
      NoHistory();
    } else {
      HistoryTells(states, events, k - 1);
      assert Enabled(states[k - 1], events[k - 1]) && states[k] == Step(states[k - 1], events[k - 1]);
      TellsStep(events[..k - 1], states[k - 1], events[k - 1]);
      assert events[..k - 1] + [events[k - 1]] == events[..k];
    }
  }

  lemma NoHistory()
    ensures Tells([], Created)
  {
  }

  // ----- Calls and waits -----

  /** In every run, when the thread looks: paused, it waits for a signal; else it calls
      `processAudioBuffer` if a call is pending or no internal pause is in force; else it
      waits, with a time limit exactly if the pause has one. */
  lemma LoopExact(states: seq<State>, events: seq<Event>, k: nat)
    requires IsRun(states, events) && k < |events| && events[k].Loop?
    ensures var p := events[..k];
      && Enabled(states[k], Loop)
      && (PausedAfter(p) ==> Blocks(states[k], Loop) && states[k + 1].pc == WaitPaused)
      && (!PausedAfter(p) && (Pending(p) || NapAfter(p).Awake?) ==> Calls(states[k], Loop))
      && (!PausedAfter(p) && !Pending(p) && NapAfter(p).Asleep? ==>
            Blocks(states[k], Loop) && states[k + 1].pc == WaitInternal(NapAfter(p).ns > 0))
  {
    HistoryTells(states, events, k);
    assert Enabled(states[k], events[k]) && states[k + 1] == Step(states[k], events[k]);
  }

  lemma {:induction false} StillPaused(es: seq<Event>, i: nat)
    requires i < |es| && es[i].DoPause? && forall j | i < j < |es| :: !es[j].DoResume?
    ensures PausedAfter(es)
  {
    var n := |es| - 1;
    if i < n {
      assert es[..n][i] == es[i];
      assert forall j | i < j < n :: es[..n][j] == es[j];
      StillPaused(es[..n], i);
    }
  }

  /** `pause()` stops the thread: until the next `resume()` there is no call, and each time
      the thread looks it waits without a time limit. */
  lemma PauseStops(states: seq<State>, events: seq<Event>, i: nat, k: nat)
    requires IsRun(states, events) && i < k < |events| && events[i].DoPause?
    requires forall j | i < j < k :: !events[j].DoResume?
    ensures Enabled(states[k], events[k]) && !Calls(states[k], events[k])
    ensures events[k].Loop? ==> Blocks(states[k], Loop) && states[k + 1].pc == WaitPaused
  {
    assert Enabled(states[k], events[k]);
    if events[k].Loop? {
      StillPaused(events[..k], i);
      LoopExact(states, events, k);
    }
  }

  /** Before the first `resume()` there is no call either. */
  lemma {:induction false} PausedAtFirst(es: seq<Event>)
    requires forall j | 0 <= j < |es| :: !es[j].DoResume?
    ensures PausedAfter(es)
  {
    if es != [] { PausedAtFirst(es[..|es| - 1]); }
  }

  lemma NoCallAtFirst(states: seq<State>, events: seq<Event>, k: nat)
    requires IsRun(states, events) && k < |events| && forall j | 0 <= j < k :: !events[j].DoResume?
    ensures Enabled(states[k], events[k]) && !Calls(states[k], events[k])
  {
    assert Enabled(states[k], events[k]);
    if events[k].Loop? {
      PausedAtFirst(events[..k]);
      LoopExact(states, events, k);
    }
  }

  /** Nothing that ends an internal pause, or makes a call pending, from event `i` on. */
  predicate Undisturbed(es: seq<Event>, i: nat) {
    forall j | i < j < |es| :: !es[j].DoResume? && !es[j].DoWake? && !es[j].EndWait? && !es[j].SetInternal?
  }

  lemma {:induction false} StillAsleep(es: seq<Event>, i: nat)
    requires i < |es| && es[i].SetInternal? && !Pending(es[..i]) && Undisturbed(es, i)
    ensures !Pending(es) && NapAfter(es) == Asleep(LastNs(es[..i]))
  {
    var n := |es| - 1;
    if i < n {
      assert es[..n][..i] == es[..i] && es[..n][i] == es[i];
      assert forall j | i < j < n :: es[..n][j] == es[j];
      StillAsleep(es[..n], i);
    }
  }

  /** An internal pause stops the thread too: until a `resume()`, a `wake()` or the end of
      the wait there is no call, and the wait has a time limit exactly if a positive time
      was asked for, by a number of nanoseconds or by NS_WHENEVER. */
  lemma InternalPauseStops(states: seq<State>, events: seq<Event>, i: nat, k: nat)
    requires IsRun(states, events) && i < k < |events| && events[i].SetInternal? && !Pending(events[..i])
    requires Undisturbed(events[..k], i)
    ensures Enabled(states[k], events[k]) && !Calls(states[k], events[k])
    ensures events[k].Loop? && !PausedAfter(events[..k]) ==>
      Blocks(states[k], Loop) && states[k + 1].pc == WaitInternal(LastNs(events[..i]) > 0)
  {
    assert Enabled(states[k], events[k]);
    if events[k].Loop? {
      assert events[..k][..i] == events[..i];
      StillAsleep(events[..k], i);
      LoopExact(states, events, k);
    }
  }

  /** What is asked for by each result: `Inactive` a wait without limit, the others with one. */
  lemma {:induction false} ReturnAsks(es: seq<Event>, r: Result)
    ensures LastNs(es + [Return(r)]) == match r
      case Inactive => 0
      case Whenever => INT64_MAX
      case After(ns) => ns
      case _ => LastNs(es)
    ensures INT64_MAX > 0
  {
    assert (es + [Return(r)])[..|es|] == es;
  }

  /** After a result that asks for no pause the thread calls again as soon as it looks, unless
      it is paused; after NS_NEVER it never looks again. */
  lemma AgainCalls(states: seq<State>, events: seq<Event>, i: nat)
    requires IsRun(states, events) && i + 1 < |events| && events[i] == Return(Again)
    requires events[i + 1].Loop? && !PausedAfter(events[..i + 1])
    ensures Enabled(states[i + 1], Loop) && Calls(states[i + 1], Loop)
  {
    HistoryTells(states, events, i);
    assert Enabled(states[i], events[i]);
    assert events[..i + 1][..i] == events[..i];
    LoopExact(states, events, i + 1);
  }

  lemma {:induction false} NeverAgain(states: seq<State>, events: seq<Event>, i: nat, k: nat)
    requires IsRun(states, events) && i < k < |states| && events[i] == Return(Never)
    ensures states[k].pc.Exited? && !Enabled(states[k], Loop)
    decreases k
  {
    assert Enabled(states[k - 1], events[k - 1]) && states[k] == Step(states[k - 1], events[k - 1]);
    if i < k - 1 { NeverAgain(states, events, i, k - 1); }
  }
}
