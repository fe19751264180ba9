/** The modulation units of the self-contained rewrite (src/_internal.cpp):
    `LengthCounter`, `Envelope` and `Sweep` are objects of their own that
    act on the channel they are clocked with. The envelope and sweep records
    are those of the class hierarchy (`Channels.Envelope`,
    `Channels.Sweep`), and so are their restart latches
    (`Channels.EnvLatch`, `Channels.SweepLatch`), which `Envelope::restart`
    and `Sweep::restart` repeat field for field. */
module InternalModulators {
  import opened Bits
  import opened Constants
  import C = Channels
  import IC = InternalChannels

  // ------------------------------------------------------ length counter ---

  /** `mEnabled`, `mCounter`, `mCounterMax`. */
  datatype LengthCounter = LengthCounter(enabled: bool, counter: nat, counterMax: nat)

  /** The constructor: disabled, at 0, with the channel's maximum. */
  function NewLengthCounter(max: nat): (lc: LengthCounter)
    ensures !lc.enabled && lc.counter == 0 && lc.counterMax == max
  {
    LengthCounter(false, 0, max)
  }

  /** `LengthCounter::clock`: a disabled counter does nothing; an enabled
      one at 0 disables the channel and stays at 0, otherwise it counts
      down. The channel is touched only to disable it. */
  function LengthClock(lc: LengthCounter, ch: IC.Channel): (r: (LengthCounter, IC.Channel))
    requires IC.Valid(ch)
    ensures IC.Valid(r.1)
    ensures r.0.enabled == lc.enabled && r.0.counterMax == lc.counterMax
    ensures !lc.enabled ==> r == (lc, ch)
    ensures lc.enabled && lc.counter == 0 ==> r == (lc, IC.Disable(ch))
    ensures lc.enabled && lc.counter > 0 ==> r == (lc.(counter := lc.counter - 1), ch)
  {
    if lc.enabled then
      if lc.counter == 0 then (lc, IC.Disable(ch))
      else (lc.(counter := lc.counter - 1), ch)
    else (lc, ch)
  }

  function LengthClockTimes(lc: LengthCounter, ch: IC.Channel, k: nat): (r: (LengthCounter, IC.Channel))
    requires IC.Valid(ch)
    ensures IC.Valid(r.1)
    decreases k
  {
    if k == 0 then (lc, ch)
    else
      var (lc1, ch1) := LengthClock(lc, ch);
      LengthClockTimes(lc1, ch1, k - 1)
  }

  /** An enabled counter at `n` leaves the channel alone for `n` clocks and
      disables it on clock `n + 1`: a counter of 1 needs two clocks. */
  lemma {:induction false} LengthExpires(lc: LengthCounter, ch: IC.Channel, k: nat)
    requires IC.Valid(ch) && lc.enabled && k <= lc.counter
    ensures LengthClockTimes(lc, ch, k) == (lc.(counter := lc.counter - k), ch)
    ensures LengthClockTimes(lc, ch, lc.counter + 1) == (lc.(counter := 0), IC.Disable(ch))
    decreases lc.counter
  {
    if lc.counter > 0 {
      var lc1 := lc.(counter := lc.counter - 1);
      if k > 0 {
        LengthExpires(lc1, ch, k - 1);
      }
      LengthExpires(lc1, ch, 0);
    } else {
      assert LengthClockTimes(lc, ch, 1) == LengthClockTimes(lc, IC.Disable(ch), 0);
    }
  }

  /** `LengthCounter::reset`: disabled and at 0; the maximum stays. */
  function LengthReset(lc: LengthCounter): (r: LengthCounter)
    ensures !r.enabled && r.counter == 0 && r.counterMax == lc.counterMax
  {
    lc.(enabled := false, counter := 0)
  }

  /** `LengthCounter::restart`: an expired counter reloads the maximum, a
      running one keeps its count. */
  function LengthRestart(lc: LengthCounter): (r: LengthCounter)
    ensures r.counter == if lc.counter == 0 then lc.counterMax else lc.counter
    ensures r.enabled == lc.enabled && r.counterMax == lc.counterMax
    ensures lc.counterMax > 0 ==> r.counter > 0
  {
    if lc.counter == 0 then lc.(counter := lc.counterMax) else lc
  }

  // ------------------------------------------------------------ envelope ---

  /** `Envelope::writeRegister`: the register is stored verbatim and the
      DAC of the channel is on exactly when the upper five bits (initial
      volume and direction) are not all zero. */
  function EnvelopeWrite(e: C.Envelope, ch: IC.Channel, value: bv8): (r: (C.Envelope, IC.Channel))
    requires IC.Valid(ch)
    ensures IC.Valid(r.1)
    ensures r.0 == e.(register := value)
    ensures r.1.dacOn <==> value & 0xF8 != 0
    ensures value & 0xF8 == 0 ==> !r.1.enabled
    ensures value & 0xF8 != 0 ==> r.1.enabled == ch.enabled
    ensures r.1.(dacOn := ch.dacOn, enabled := ch.enabled) == ch
  {
    (e.(register := value), IC.SetDacEnabled(ch, value & 0xF8 != 0))
  }

  /** `Envelope::clock`: nothing with period 0; otherwise the counter
      counts up to the period and then the volume takes one saturating
      step. */
  function EnvelopeClock(e: C.Envelope): (r: C.Envelope)
    requires C.ValidEnvelope(e)
    ensures C.ValidEnvelope(r)
    ensures e.period == 0 ==> r == e
    ensures r.register == e.register && r.period == e.period && r.amplify == e.amplify
    ensures r.volume == e.volume || r.volume == C.VolumeStep(e.volume, e.amplify)
  {
    if e.period == 0 then e
    else
      var k := e.counter + 1;
      if k == e.period then e.(counter := 0, volume := C.VolumeStep(e.volume, e.amplify))
      else e.(counter := k)
  }

  /** The rewrite's envelope clock is the class hierarchy's: its counter
      never comes near the uint8 wrap that the other one models, so
      `Channels.EnvelopeStepsEveryPeriod` holds for it too. */
  lemma EnvelopeClockAgrees(e: C.Envelope)
    requires C.ValidEnvelope(e)
    ensures EnvelopeClock(e) == C.EnvelopeClock(e)
  {
  }

  /** `Envelope::reset` (and the constructor). */
  function EnvelopeReset(): (e: C.Envelope)
    ensures C.ValidEnvelope(e) && e.volume == 0 && e.register == 0 && e.period == 0
  {
    C.Envelope(0, 0, 0, false, 0)
  }

  // --------------------------------------------------------------- sweep ---

  /** `Sweep::writeRegister`: bit 7 is dropped. */
  function SweepWrite(s: C.Sweep, value: bv8): (r: C.Sweep)
    requires C.ValidSweep(s)
    ensures C.ValidSweep(r)
    ensures r == s.(register := value & 0x7F)
  {
    s.(register := value & 0x7F)
  }

  /** `Sweep::reset` (and the constructor). */
  function SweepReset(): (s: C.Sweep)
    ensures C.ValidSweep(s) && s.time == 0 && s.register == 0
  {
    C.Sweep(false, 0, 0, 0, 0, 0)
  }

  /** `Sweep::clock` on channel 1. A sweep time of 0 does nothing; otherwise
      the counter counts up to the time, and then the shadow frequency moves
      by itself shifted right by the shift. An addition past 2047 disables
      the channel; any other result becomes channel 1's frequency (and so
      its period) and the new shadow. */
  function SweepClock(s: C.Sweep, ch1: IC.Channel): (r: (C.Sweep, IC.Channel))
    requires C.ValidSweep(s) && IC.Valid(ch1) && ch1.osc.Pulse?
    ensures C.ValidSweep(r.0) && IC.Valid(r.1) && r.1.osc.Pulse?
    ensures r.0.time == s.time && r.0.shift == s.shift && r.0.subtraction == s.subtraction
    ensures r.0.register == s.register
    ensures s.time == 0 ==> r == (s, ch1)
    ensures r.1.frequency != ch1.frequency ==> r.1.frequency == r.0.shadow
    ensures r.1.timer.timer == ch1.timer.timer && r.1.osc == ch1.osc && r.1.output == ch1.output
    ensures ch1.enabled == r.1.enabled || !r.1.enabled
  {
    if s.time == 0 then (s, ch1)
    else
      var counter := s.counter + 1;
      if counter < s.time then (s.(counter := counter), ch1)
      else
        var s0 := s.(counter := 0);
        if s.shift == 0 then (s0, ch1)
        else
          var delta := Shr(s.shadow as nat, s.shift);
          if s.subtraction then
            var f := s.shadow - delta;
            if f < 0 then (s0, ch1) else (s0.(shadow := f), IC.SetFrequency(ch1, f))
          else
            var f := s.shadow + delta;
            if f > MAX_FREQUENCY then (s0, IC.Disable(ch1))
            else (s0.(shadow := f), IC.SetFrequency(ch1, f))
  }

  /** The sweep fires on this clock: a non-zero time that the counter
      reaches. */
  predicate SweepFires(s: C.Sweep)
  {
    s.time != 0 && s.counter + 1 >= s.time
  }

  /** Without firing, only the counter moves; firing with shift 0 only
      rearms the counter. */
  lemma SweepQuiet(s: C.Sweep, ch1: IC.Channel)
    requires C.ValidSweep(s) && IC.Valid(ch1) && ch1.osc.Pulse?
    ensures s.time != 0 && !SweepFires(s) ==> SweepClock(s, ch1) == (s.(counter := s.counter + 1), ch1)
    ensures SweepFires(s) && s.shift == 0 ==> SweepClock(s, ch1) == (s.(counter := 0), ch1)
  {
  }

  /** An addition past 2047 disables channel 1 and leaves its frequency,
      its timer and the shadow register as they were. */
  lemma SweepOverflowDisables(s: C.Sweep, ch1: IC.Channel)
    requires C.ValidSweep(s) && IC.Valid(ch1) && ch1.osc.Pulse?
    requires SweepFires(s) && s.shift != 0 && !s.subtraction
    requires s.shadow + Shr(s.shadow as nat, s.shift) > MAX_FREQUENCY as int
    ensures var (s', ch) := SweepClock(s, ch1);
            && !ch.enabled && ch.frequency == ch1.frequency && ch.timer == ch1.timer
            && s'.shadow == s.shadow && s'.counter == 0
  {
  }

  /** Every other firing clock with a non-zero shift writes back: the
      subtraction cannot go below 0, so its early return is never taken.
      The new frequency is within 0..2047 and the period follows it. */
  lemma SweepWritesBack(s: C.Sweep, ch1: IC.Channel)
    requires C.ValidSweep(s) && IC.Valid(ch1) && ch1.osc.Pulse?
    requires SweepFires(s) && s.shift != 0
    requires !s.subtraction ==> s.shadow + Shr(s.shadow as nat, s.shift) <= MAX_FREQUENCY as int
    ensures var (s', ch) := SweepClock(s, ch1);
            var f := if s.subtraction then s.shadow - Shr(s.shadow as nat, s.shift)
                     else s.shadow + Shr(s.shadow as nat, s.shift);
            && 0 <= f <= MAX_FREQUENCY as int
            && ch.frequency == f && s'.shadow == f && s'.counter == 0
            && ch.timer.period == (2048 - f) * C.PULSE_MULTIPLIER
            && ch.enabled == ch1.enabled
  {
  }
}
