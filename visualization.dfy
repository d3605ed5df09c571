/**
 * The spectrum bars of `Visualization`: 32 heights that, on every 50 ms tick while
 * the engine is busy, sink by one (never below 0) and are each, at random, replaced
 * by a fresh peak between 10 and 60. The random draws are a parameter of the tick.
 */
module Bars {
  import opened Wrappers

  /** `len(self.bars)`: the bar list is created with 32 entries and never resized. */
  const BarCount: nat := 32

  /** The tallest a bar can be: the upper end of `randint(10, 60)`. */
  const MaxHeight: int := 60

  /** A value `random.randint(10, 60)` can return. */
  type Peak = h: int | 10 <= h <= 60 witness 10

  /**
   * The randomness of one tick, one entry per bar: `Some(h)` when
   * `random.random() < 0.3` held for that bar and `randint` gave h, `None` otherwise.
   */
  type Draws = seq<Option<Peak>>

  /** Every height lies in 0..MaxHeight. */
  predicate InRange(hs: seq<int>)
  {
    forall i :: 0 <= i < |hs| ==> 0 <= hs[i] <= MaxHeight
  }

  /** One bar after a busy tick: sunk by one, unless the draw replaced it. */
  function NextHeight(h: int, d: Option<Peak>): (r: int)
    ensures d.Some? ==> 10 <= r <= MaxHeight
    ensures d.None? ==> r >= 0 && (h > 0 ==> r == h - 1) && (h <= 0 ==> r == 0)
  {
    var sunk := if 0 > h - 1 then 0 else h - 1;
    if d.Some? then d.value else sunk
  }

  /** All bars after a busy tick. */
  function Tick(hs: seq<int>, draws: Draws): (r: seq<int>)
    requires |draws| == |hs|
    ensures |r| == |hs|
  {
    seq(|hs|, i requires 0 <= i < |hs| => NextHeight(hs[i], draws[i]))
  }

  /** A tick keeps every bar in 0..MaxHeight. */
  lemma TickInRange(hs: seq<int>, draws: Draws)
    requires |draws| == |hs| && InRange(hs)
    ensures InRange(Tick(hs, draws))
  {
    var r := Tick(hs, draws);
    forall i | 0 <= i < |r|
      ensures 0 <= r[i] <= MaxHeight
    {
      assert r[i] == NextHeight(hs[i], draws[i]);
    }
  }

  /** No draw at all for n bars: a tick where `random.random()` never fell below 0.3. */
  function Quiet(n: nat): (d: Draws)
    ensures |d| == n && forall i :: 0 <= i < n ==> d[i].None?
  {
    seq(n, _ => None)
  }

  /** The state after k quiet busy ticks. */
  function QuietTicks(hs: seq<int>, k: nat): (r: seq<int>)
    ensures |r| == |hs|
    decreases k
  {
    if k == 0 then hs else QuietTicks(Tick(hs, Quiet(|hs|)), k - 1)
  }

  /** Without fresh peaks every bar falls by one per tick until it rests at 0. */
  lemma {:induction false} QuietTicksFall(hs: seq<int>, k: nat, i: nat)
    requires i < |hs| && hs[i] >= 0
    ensures QuietTicks(hs, k)[i] == if hs[i] > k then hs[i] - k else 0
    decreases k
  {
    if k > 0 {
      var next := Tick(hs, Quiet(|hs|));
      assert next[i] == NextHeight(hs[i], None);
      QuietTicksFall(next, k - 1, i);
    }
  }

  /** Every bar is flat. */
  predicate Flat(hs: seq<int>)
  {
    forall i :: 0 <= i < |hs| ==> hs[i] == 0
  }

  /** Sixty quiet ticks bring bars that started in range all the way down. */
  lemma QuietTicksSettle(hs: seq<int>)
    requires InRange(hs)
    ensures Flat(QuietTicks(hs, MaxHeight as nat))
  {
    var r := QuietTicks(hs, MaxHeight as nat);
    forall i | 0 <= i < |r|
      ensures r[i] == 0
    {
      QuietTicksFall(hs, MaxHeight as nat, i);
    }
  }

  class Visualization {
    /** `self.bars`: one height per bar. */
    var bars: array<int>

    ghost predicate Valid()
      reads this, bars
    {
      bars.Length == BarCount && InRange(bars[..])
    }

    /** `__init__`: 32 bars, all at height 0. */
    constructor ()
      ensures Valid() && fresh(bars)
      ensures bars[..] == seq(BarCount, _ => 0)
    {
      bars := new int[BarCount](_ => 0);
    }

    /**
     * `update_bars`, given `get_busy()` and this tick's draws: while the engine is
     * busy every bar takes its next height, rewritten in place one by one;
     * otherwise the bars stay as they are.
     */
    method UpdateBars(busy: bool, draws: Draws)
      requires Valid() && |draws| == bars.Length
      modifies bars
      ensures Valid()
      ensures busy ==> bars[..] == Tick(old(bars[..]), draws)
      ensures !busy ==> bars[..] == old(bars[..])
    {
      if busy {
        var i := 0;
        while i < bars.Length
          invariant 0 <= i <= bars.Length
          invariant forall k :: 0 <= k < i ==> bars[k] == NextHeight(old(bars[k]), draws[k])
          invariant forall k :: i <= k < bars.Length ==> bars[k] == old(bars[k])
        {
          bars[i] := if 0 > bars[i] - 1 then 0 else bars[i] - 1;
          if draws[i].Some? {
            bars[i] := draws[i].value;
          }
          i := i + 1;
        }
        TickInRange(old(bars[..]), draws);
      }
    }
  }
}
