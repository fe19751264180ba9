/** The timer of the self-contained rewrite (class `Timer` of
    src/_internal.cpp). Its `run` is the same down-counter step as
    `stepTimer`, modelled by `Timers.StepTimer`; what is new is
    `fastforward`, which jumps over any number of cycles in closed form and
    reports how many times the timer fired on the way. */
module InternalTimer {
  import opened Bits
  import opened Timers

  /** `Timer::fastforward`. With fewer cycles than the counter holds, the
      counter just drops. Otherwise the first fire uses up the counter and
      every further `period` cycles fire once more; the counter is left at
      what remains of the current period. The division needs a non-zero
      period. */
  function FastForward(t: Timer, cycles: nat): (r: (Timer, nat))
    requires Running(t)
    ensures r == Run(t, cycles)
    ensures Running(r.0) && r.0.period == t.period
    ensures cycles < t.timer <==> r.1 == 0
    ensures cycles < t.timer ==> r.0.timer == t.timer - cycles
    ensures cycles >= t.timer ==> 1 <= r.0.timer <= t.period
  {
    RunIsElapse(t, cycles);
    if cycles < t.timer then (t.(timer := t.timer - cycles), 0)
    else
      var rest := cycles - t.timer;
      var clocks := rest / t.period + 1;
      (t.(timer := t.period - rest % t.period), clocks)
  }

  /** The cycles that `clocks` fires take from a timer: the counter, then
      one whole period for each further fire. */
  function CyclesToFire(t: Timer, clocks: nat): nat
    requires clocks > 0
  {
    t.timer + (clocks - 1) * t.period
  }

  /** The number of fires is exact: the last one lands within the cycles
      given, and one more would not. */
  lemma FastForwardCountsFires(t: Timer, cycles: nat)
    requires Running(t)
    ensures var clocks := FastForward(t, cycles).1;
            && (clocks > 0 ==> CyclesToFire(t, clocks) <= cycles)
            && cycles < CyclesToFire(t, clocks + 1)
  {
    var clocks := FastForward(t, cycles).1;
    if cycles >= t.timer {
      var rest := cycles - t.timer;
      var q := rest / t.period;
      assert rest == q * t.period + rest % t.period;
      assert clocks == q + 1;
      assert CyclesToFire(t, clocks) == t.timer + q * t.period;
      assert CyclesToFire(t, clocks + 1) == t.timer + (q + 1) * t.period;
      MulSucc(q, t.period);
    }
  }

  /** Fast-forwarding in two goes lands where one go lands, and the fires
      add up: `fastforward` can be called at any chunk boundary. */
  lemma FastForwardSplit(t: Timer, a: nat, b: nat)
    requires Running(t)
    ensures var (t1, k1) := FastForward(t, a);
            var (t2, k2) := FastForward(t1, b);
            t2 == FastForward(t, a + b).0 && k1 + k2 == FastForward(t, a + b).1
  {
    RunSplit(t, a, b);
  }

  /** Chunked stepping can be cut anywhere. */
  lemma {:induction false} RunSplit(t: Timer, a: nat, b: nat)
    requires Running(t)
    ensures var (t1, k1) := Run(t, a);
            Running(t1) &&
            var (t2, k2) := Run(t1, b);
            t2 == Run(t, a + b).0 && k1 + k2 == Run(t, a + b).1
    decreases a
  {
    RunIsElapse(t, a);
    if a == 0 {
    } else if a < t.timer {
      RunChunkMerge(t, a, b);
    } else {
      var (t', fired) := StepTimer(t, t.timer);
      assert Min(t.timer, a) == t.timer == Min(t.timer, a + b);
      RunSplit(t', a - t.timer, b);
      assert a + b - t.timer == (a - t.timer) + b;
    }
  }

  /** When the first `a` cycles end before the next fire, running them and
      then `b` more is one run of `a + b`. */
  lemma RunChunkMerge(t: Timer, a: nat, b: nat)
    requires Running(t) && 0 < a < t.timer
    ensures Run(t, a) == (Timer(t.timer - a, t.period), 0)
    ensures Run(Run(t, a).0, b) == Run(t, a + b)
  {
    RunIsElapse(t, a);
    RunIsElapse(Timer(t.timer - a, t.period), b);
    RunIsElapse(t, a + b);
  }
}
