/** The closed form of the rewrite's `fastforward` against the step-by-step
    reference: running a channel's timer chunk by chunk (`Timer::run`) and
    clocking it on each fire lands on the state that one jump of the timer
    and one jump of the oscillator reach. */
module InternalFastForward {
  import opened Bits
  import opened Timers
  import opened InternalChannels
  import IT = InternalTimer

  /** `k > 0` clocks in a row are one jump of the oscillator by `k`
      followed by one refresh. */
  lemma {:induction false} ClockTimesIsClocked(c: Channel, k: nat, volume: nat)
    requires Valid(c) && volume <= 15 && k > 0
    ensures ClockTimes(c, k, volume) == Refresh(c.(osc := Clocked(c.osc, k)), volume)
    decreases k
  {
    var c1 := Clock(c, volume);
    if k > 1 {
      ClockTimesIsClocked(c1, k - 1, volume);
      ClockThenJump(c, k - 1, volume);
    }
  }

  /** One clock and then a jump by `k` refresh to one jump by `k + 1`: the
      refresh in between only touches what the last refresh recomputes. */
  lemma ClockThenJump(c: Channel, k: nat, volume: nat)
    requires Valid(c) && volume <= 15
    ensures Valid(Clock(c, volume).(osc := Clocked(Clock(c, volume).osc, k)))
    ensures var c1 := Clock(c, volume);
            Refresh(c1.(osc := Clocked(c1.osc, k)), volume) ==
            Refresh(c.(osc := Clocked(c.osc, k + 1)), volume)
  {
    ClockedAdd(c.osc, k);
    var c1 := Clock(c, volume);
    ValidClocked(c1, k);
    match c.osc
    case Pulse(_, _, _) =>
      assert c1.osc == Clocked(c.osc, 1);
    case Wave(_, _, _, _, _) =>
      assert Clocked(c1.osc, k) == Clocked(Clocked(c.osc, 1), k).(sampleBuffer := Clocked(c1.osc, k).sampleBuffer);
    case Noise(_, _, _) =>
      assert c1.osc == Clocked(c.osc, 1);
  }

  /** Clocking once and then `k` times moves the oscillator by `k + 1`. */
  lemma ClockedAdd(osc: Osc, k: nat)
    requires ValidOsc(osc)
    ensures Clocked(Clocked(osc, 1), k) == Clocked(osc, k + 1)
  {
    match osc
    case Pulse(_, _, i) => ModSucc(i, k, 8);
    case Wave(_, _, i, _, _) => ModSucc(i, k, 32);
    case Noise(_, _, _) =>
  }

  lemma ModSucc(i: nat, k: nat, m: nat)
    requires m > 0
    ensures ((i + 1) % m + k) % m == (i + k + 1) % m
  {
    var q := (i + 1) / m;
    assert i + 1 == q * m + (i + 1) % m;
    SubMultiple((i + 1) % m + k, q, m);
  }

  /** Adding a multiple of the modulus does not change the remainder. */
  lemma SubMultiple(x: nat, q: nat, m: nat)
    requires m > 0
    ensures (x + q * m) % m == x % m
  {
    DivModUnique(x + q * m, m, x / m + q, x % m);
  }

  /** Stepping through the fires one by one clocks the channel as many
      times as the timer fires, and leaves the timer where the closed form
      puts it. */
  lemma {:induction false} StepRunIsClockTimes(c: Channel, cycles: nat, volume: nat)
    requires Valid(c) && volume <= 15
    ensures StepRun(c, cycles, volume) ==
            ClockTimes(c, Fires(c.timer, cycles), volume).(timer := Elapse(c.timer, cycles))
    decreases cycles
  {
    if cycles > 0 {
      var n := Min(c.timer.timer, cycles);
      var c2 := Chunk(c, cycles, volume);
      StepRunIsClockTimes(c2, cycles - n, volume);
      ChunkStep(c, cycles, volume);
    }
  }

  /** After one chunk, the closed form of the rest is the closed form of
      the whole. */
  lemma ChunkStep(c: Channel, cycles: nat, volume: nat)
    requires Valid(c) && volume <= 15 && cycles > 0
    ensures var c2 := Chunk(c, cycles, volume);
            var rest := cycles - Min(c.timer.timer, cycles);
            ClockTimes(c2, Fires(c2.timer, rest), volume).(timer := Elapse(c2.timer, rest)) ==
            ClockTimes(c, Fires(c.timer, cycles), volume).(timer := Elapse(c.timer, cycles))
  {
    var n := Min(c.timer.timer, cycles);
    var (t, fired) := StepTimer(c.timer, n);
    ElapseChunk(c.timer, cycles);
    ValidRetimed(c, t);
    var c1 := c.(timer := t);
    var k := Fires(t, cycles - n);
    if fired {
      assert Chunk(c, cycles, volume) == Clock(c1, volume);
      ClockRetimed(c, t, k, volume);
    } else {
      assert Chunk(c, cycles, volume) == c1;
      ClockTimesTimer(c, t, k, volume);
    }
  }

  /** A fire at the end of a chunk is the first of the clocks that follow. */
  lemma ClockRetimed(c: Channel, t: Timer, k: nat, volume: nat)
    requires Valid(c) && volume <= 15 && Running(t) && t.period == c.timer.period
    ensures Valid(c.(timer := t))
    ensures ClockTimes(Clock(c.(timer := t), volume), k, volume) ==
            ClockTimes(c, k + 1, volume).(timer := t)
  {
    ValidRetimed(c, t);
    ClockTimesTimer(c, t, k + 1, volume);
  }

  /** Clocking does not look at the timer, so the timer can be replaced
      before or after. */
  lemma {:induction false} ClockTimesTimer(c: Channel, t: Timer, k: nat, volume: nat)
    requires Valid(c) && volume <= 15 && Running(t) && t.period == c.timer.period
    ensures ClockTimes(c.(timer := t), k, volume) == ClockTimes(c, k, volume).(timer := t)
    decreases k
  {
    if k > 0 {
      ValidRetimed(c, t);
      assert Clock(c.(timer := t), volume) == Clock(c, volume).(timer := t);
      ClockTimesTimer(Clock(c, volume), t, k - 1, volume);
    }
  }

  /** `fastforward` agrees with stepping the channel fire by fire whenever
      the timer fires at least once; with no fire it only refreshes the
      output, which a step-by-step run does not do. */
  lemma FastForwardIsStepRun(c: Channel, cycles: nat, volume: nat)
    requires Valid(c) && volume <= 15 && cycles >= c.timer.timer
    ensures FastForward(c, cycles, volume) == StepRun(c, cycles, volume)
  {
    var (t, k) := IT.FastForward(c.timer, cycles);
    RunIsElapse(c.timer, cycles);
    StepRunIsClockTimes(c, cycles, volume);
    ClockTimesIsClocked(c, k, volume);
  }
}
