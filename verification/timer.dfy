/** The reloadable down-counter every channel and the frame sequencer
    inherit (class `Timer`, src/Timer.cpp). */
module Timers {
  import opened Bits

  /** `timer` is `mTimer`, the cycles left until the next fire; `period` is
      `mPeriod`, the reload value. */
  datatype Timer = Timer(timer: nat, period: nat)

  /** A timer that can be stepped forever: it never sits at 0 and it reloads
      with a non-zero period. */
  predicate Running(t: Timer)
  {
    t.timer > 0 && t.period > 0
  }

  /** The constructor: both counters start at `period`. */
  function New(period: nat): (t: Timer)
    ensures t.timer == period && t.period == period
    ensures period > 0 ==> Running(t)
  {
    Timer(period, period)
  }

  /** `stepTimer`: the caller must never step past the next fire (the
      source asserts it). The result reports whether the timer fired. */
  function StepTimer(t: Timer, cycles: nat): (r: (Timer, bool))
    requires cycles <= t.timer
    ensures r.1 <==> cycles == t.timer
    ensures r.1 ==> r.0.timer == t.period
    ensures !r.1 ==> r.0.timer == t.timer - cycles && r.0.timer > 0
    ensures r.0.period == t.period
    ensures t.period > 0 ==> Running(r.0)
  {
    var left := t.timer - cycles;
    if left == 0 then (Timer(t.period, t.period), true) else (Timer(left, t.period), false)
  }

  /** Closed form of the counter after `cycles` cycles of stepping. */
  function Elapse(t: Timer, cycles: nat): (r: Timer)
    requires Running(t)
    ensures Running(r) && r.period == t.period
    ensures cycles >= t.timer ==> r.timer <= t.period
  {
    if cycles < t.timer then Timer(t.timer - cycles, t.period)
    else Timer(t.period - (cycles - t.timer) % t.period, t.period)
  }

  /** Closed form of the number of fires in `cycles` cycles. */
  function Fires(t: Timer, cycles: nat): nat
    requires Running(t)
  {
    if cycles < t.timer then 0 else (cycles - t.timer) / t.period + 1
  }

  /** The step loops of the channels and of the APU step in chunks of
      `min(timer, remaining)`: one such chunk moves the closed forms along. */
  lemma ElapseChunk(t: Timer, cycles: nat)
    requires Running(t) && cycles > 0
    ensures var n := Min(t.timer, cycles);
            var (t', fired) := StepTimer(t, n);
            && Running(t')
            && Elapse(t', cycles - n) == Elapse(t, cycles)
            && Fires(t', cycles - n) + (if fired then 1 else 0) == Fires(t, cycles)
  {
    var n := Min(t.timer, cycles);
    var (t', fired) := StepTimer(t, n);
    if cycles >= t.timer {
      assert fired && t' == Timer(t.period, t.period);
      var rest := cycles - t.timer;
      if rest >= t.period {
        SubPeriod(rest, t.period);
      } else {
        DivModUnique(rest, t.period, 0, rest);
      }
    }
  }

  /** The reference behaviour: step in chunks of `min(timer, remaining)`,
      counting fires, exactly as the channel loops do. */
  function Run(t: Timer, cycles: nat): (r: (Timer, nat))
    requires Running(t)
    decreases cycles
  {
    if cycles == 0 then (t, 0)
    else
      var n := Min(t.timer, cycles);
      var (t', fired) := StepTimer(t, n);
      var (last, fires) := Run(t', cycles - n);
      (last, fires + if fired then 1 else 0)
  }

  /** Chunked stepping agrees with the closed forms: the counter ends at
      `Elapse` and the timer fires `Fires` times. */
  lemma {:induction false} RunIsElapse(t: Timer, cycles: nat)
    requires Running(t)
    ensures Run(t, cycles) == (Elapse(t, cycles), Fires(t, cycles))
    decreases cycles
  {
    if cycles > 0 {
      var n := Min(t.timer, cycles);
      var (t', fired) := StepTimer(t, n);
      ElapseChunk(t, cycles);
      RunIsElapse(t', cycles - n);
    }
  }

  /** The counter stays positive, but it is not bounded by the period: a
      period shortened by a frequency write leaves the counter above it. */
  lemma TimerMayExceedPeriod()
    ensures var t := Timer(10, 4);
            StepTimer(t, 3).0.timer > t.period
  {
  }
}
