/** The NEW_POS callbacks of an audio record, kept in 32-bit positions that wrap. */
module PositionCallbacks {
  import opened Arith

  const HALF := 0x8000_0000

  /** `operator>=` of `Modulo<uint32_t>`: the sign of the wrapped difference. */
  predicate AtOrAfter(a: nat, b: nat) { Wrap(a - b) < HALF }

  function WrapAll(xs: seq<int>): seq<nat> {
    seq(|xs|, i requires 0 <= i < |xs| => Wrap(xs[i]))
  }

  // ----- What is promised, on positions that do not wrap -----

  /** All of n, n + p, n + 2p, ... up to `position`. */
  function Ladder(n: int, p: nat, position: int): seq<int>
    requires p > 0
    decreases position - n
  {
    if n > position then [] else [n] + Ladder(n + p, p, position)
  }

  /** The first of n, n + p, n + 2p, ... beyond `position`. */
  function FirstBeyond(n: int, p: nat, position: int): int
    requires p > 0
    decreases position - n
  {
    if n > position then n else FirstBeyond(n + p, p, position)
  }

  /** The ladder reports every multiple crossed, once and in order. */
  lemma {:induction false} LadderExact(n: int, p: nat, position: int)
    requires p > 0
    ensures var l := Ladder(n, p, position);
      && (forall i | 0 <= i < |l| :: l[i] == n + i * p <= position)
      && FirstBeyond(n, p, position) == n + |l| * p > position
      && (n <= position ==> FirstBeyond(n, p, position) <= position + p)
    decreases position - n
  {
    if n <= position {
      LadderExact(n + p, p, position);
      var l, t := Ladder(n, p, position), Ladder(n + p, p, position);
      assert |l| * p == p + |t| * p;
      forall i | 0 <= i < |l| ensures l[i] == n + i * p <= position {
        if i > 0 {
          assert l[i] == t[i - 1];
          assert i * p == p + (i - 1) * p;
        }
      }
    }
  }

  lemma {:induction false} LadderSplits(n: int, p: nat, q: int, position: int)
    requires p > 0 && q <= position
    ensures Ladder(n, p, position) == Ladder(n, p, q) + Ladder(FirstBeyond(n, p, q), p, position)
    ensures FirstBeyond(n, p, position) == FirstBeyond(FirstBeyond(n, p, q), p, position)
    decreases q - n
  {
    if n <= q { LadderSplits(n + p, p, q, position); }
  }

  // ----- What the code does, on wrapped positions -----

  function Count(newPosition: nat, period: nat, position: nat): nat {
    if period > 0 && AtOrAfter(position, newPosition) then Wrap(position - newPosition) / period + 1 else 0
  }

  function Calls(newPosition: nat, period: nat, count: nat): seq<nat>
    decreases count
  {
    if count == 0 then [] else [newPosition] + Calls(Wrap(newPosition + period), period, count - 1)
  }

  function Advanced(newPosition: nat, period: nat, position: nat): nat {
    Wrap(newPosition + period * Count(newPosition, period, position))
  }

  // ----- One call -----

  lemma {:induction false} CallsWrap(n: int, p: nat, count: nat)
    requires p > 0
    ensures Calls(Wrap(n), p, count) == WrapAll(seq(count, i => n + i * p))
    decreases count
  {
    if count > 0 {
      assert Wrap(Wrap(n) + p) == Wrap(n + p);
      CallsWrap(n + p, p, count - 1);
      forall i | 0 < i < count ensures n + i * p == n + p + (i - 1) * p { }
    }
  }

  lemma {:induction false} LadderLength(n: int, p: nat, position: int)
    requires p > 0
    ensures |Ladder(n, p, position)| == if n > position then 0 else (position - n) / p + 1
  {
    if n <= position {
      LadderExact(n, p, position);
      var k := |Ladder(n, p, position)| - 1;
      assert Ladder(n, p, position)[k] == n + k * p;
      assert (k + 1) * p == k * p + p;
      DivUnique(position - n, k, p);
    }
  }

  lemma WrapDifference(position: int, n: int)
    requires -WRAP < position - n < WRAP
    ensures Wrap(Wrap(position) - Wrap(n)) == if position >= n then position - n else position - n + WRAP
  {
  }

  /** One call reports exactly the multiples crossed and moves on to the first one
      beyond the position, as long as the two are no further apart than half a wrap. */
  lemma {:induction false} CallExact(n: int, p: nat, position: int)
    requires p > 0 && -HALF <= position - n < HALF
    ensures var c := Count(Wrap(n), p, Wrap(position));
      && Calls(Wrap(n), p, c) == WrapAll(Ladder(n, p, position))
      && Advanced(Wrap(n), p, Wrap(position)) == Wrap(FirstBeyond(n, p, position))
  {
    WrapDifference(position, n);
    LadderLength(n, p, position);
    LadderExact(n, p, position);
    var l := Ladder(n, p, position);
    CallsWrap(n, p, |l|);
    assert l == seq(|l|, i => n + i * p);
    assert p * |l| == |l| * p;
    WrapSum(n, |l| * p);
  }

  lemma WrapSum(n: int, d: nat)
    ensures Wrap(Wrap(n) + d) == Wrap(n + d)
  {
  }

  /** Within one wrap of each other, that is also the only case: further behind, due
      callbacks are not made; further ahead, callbacks are made that are not due. */
  lemma {:induction false} CallExactOnly(n: int, p: nat, position: int)
    requires p > 0 && -WRAP < position - n < WRAP
    ensures |Calls(Wrap(n), p, Count(Wrap(n), p, Wrap(position)))| == |Ladder(n, p, position)|
      <==> -HALF <= position - n < HALF
  {
    WrapDifference(position, n);
    LadderLength(n, p, position);
    CallsWrap(n, p, Count(Wrap(n), p, Wrap(position)));
  }

  // ----- A run of calls -----

  function RunCalls(newPosition: nat, p: nat, positions: seq<nat>): seq<nat> {
    if positions == [] then []
    else
      var before := positions[..|positions| - 1];
      var m := RunPosition(newPosition, p, before);
      RunCalls(newPosition, p, before) + Calls(m, p, Count(m, p, positions[|positions| - 1]))
  }

  /** `mNewPosition` after a run. */
  function RunPosition(newPosition: nat, p: nat, positions: seq<nat>): nat {
    if positions == [] then newPosition
    else Advanced(RunPosition(newPosition, p, positions[..|positions| - 1]), p, positions[|positions| - 1])
  }

  /** The positions never go back, and never jump by more than half a wrap. */
  ghost predicate Steady(n: int, positions: seq<int>) {
    && (positions != [] ==> -HALF <= positions[0] - n < HALF)
    && (forall i | 1 <= i < |positions| :: 0 <= positions[i] - positions[i - 1] <= HALF)
  }

  lemma {:induction false} SteadyRises(n: int, positions: seq<int>, i: nat)
    requires Steady(n, positions) && i < |positions|
    ensures positions[0] <= positions[i]
  {
    if i > 0 { SteadyRises(n, positions, i - 1); }
  }

  lemma WrapAllAppend(xs: seq<int>, ys: seq<int>)
    ensures WrapAll(xs + ys) == WrapAll(xs) + WrapAll(ys)
  {
  }

  /** Over any run the callbacks are n, n + p, n + 2p, ... up to the last position,
      each once and in order. */
  lemma {:induction false} RunExact(n: int, p: nat, positions: seq<int>)
    requires 0 < p <= HALF && positions != [] && Steady(n, positions)
    ensures var last := positions[|positions| - 1];
      && RunCalls(Wrap(n), p, WrapAll(positions)) == WrapAll(Ladder(n, p, last))
      && RunPosition(Wrap(n), p, WrapAll(positions)) == Wrap(FirstBeyond(n, p, last))
    decreases |positions|
  {
    var k := |positions| - 1;
    var before, last := positions[..k], positions[k];
    assert WrapAll(positions)[..k] == WrapAll(before);
    if k == 0 {
      CallExact(n, p, last);
      RunOne(Wrap(n), p, WrapAll(positions));
    } else {
      RunExact(n, p, before);
      var q := before[k - 1];
      var m := FirstBeyond(n, p, q);
      LadderExact(n, p, q);
      SteadyRises(n, positions, k);
      SteadyRises(n, positions, k - 1);
      CallExact(m, p, last);
      LadderSplits(n, p, q, last);
      WrapAllAppend(Ladder(n, p, q), Ladder(m, p, last));
    }
  }

  lemma {:induction false} RunOne(m: nat, p: nat, positions: seq<nat>)
    requires |positions| == 1
    ensures RunCalls(m, p, positions) == Calls(m, p, Count(m, p, positions[0]))
    ensures RunPosition(m, p, positions) == Advanced(m, p, positions[0])
  {
    assert positions[..0] == [];
  }

  // ----- The record object -----

  class AudioRecord {
    var mNewPosition: nat
    var mUpdatePeriod: nat

    /** The position callback part of `processAudioBuffer`: which positions the
        client is called with. */
    method ProcessAudioBuffer(position: nat) returns (callbacks: seq<nat>)
      requires mNewPosition < WRAP && position < WRAP
      modifies this`mNewPosition
      ensures mNewPosition < WRAP
      ensures mNewPosition == Advanced(old(mNewPosition), mUpdatePeriod, position)
      ensures callbacks == Calls(old(mNewPosition), mUpdatePeriod,
                                 Count(old(mNewPosition), mUpdatePeriod, position))
    {
      var newPosCount: nat := 0;
      var newPosition: nat := mNewPosition;
      var updatePeriod := mUpdatePeriod;
      if updatePeriod > 0 && AtOrAfter(position, newPosition) {
        newPosCount := Wrap(position - newPosition) / updatePeriod + 1;
        mNewPosition := Wrap(mNewPosition + updatePeriod * newPosCount);
      }
      callbacks := [];
      ghost var all := Calls(newPosition, updatePeriod, newPosCount);
      while newPosCount > 0
        invariant callbacks + Calls(newPosition, updatePeriod, newPosCount) == all
      {
        callbacks := callbacks + [newPosition];
        newPosition := Wrap(newPosition + updatePeriod);
        newPosCount := newPosCount - 1;
      }
    }
  }
}
