/** The channels of the self-contained rewrite (src/_internal.cpp): the
    `Channel` base class with its DAC and enable flags, and the pulse, wave
    and noise channels with their per-clock step and their closed-form
    `fastforward`.

    A pulse or noise channel reads the volume of an `Envelope` it holds by
    reference; here that volume is a parameter of the operations that
    refresh the output. The duty waveforms, the LFSR shift, the wave nibble
    and the noise period are the ones the class hierarchy uses and are
    taken from `Channels`. */
module InternalChannels {
  import opened Bits
  import opened Constants
  import opened Timers
  import C = Channels
  import IT = InternalTimer

  /** `Duty75`, the duty a pulse channel starts with. The enumeration's
      declaration is not part of this model; its value is taken to be the
      NR11 duty field for 75%. */
  const DUTY_75: bv8 := 3

  /** The wave volume codes, taken to be the NR32 field values. */
  const VOLUME_MUTE: bv8 := 0
  const VOLUME_FULL: bv8 := 1
  const VOLUME_HALF: bv8 := 2

  /** The per-kind part of a channel: `PulseChannel` (`mDuty`,
      `mDutyWaveform`, `mDutyCounter`), `WaveChannel` (`mWaveVolume`,
      `mVolumeShift`, `mWaveIndex`, `mSampleBuffer`, `mWaveram`) and
      `NoiseChannel` (`mValidScf`, `mHalfWidth`, `mLfsr`). */
  datatype Osc =
    | Pulse(duty: bv8, waveform: bv8, dutyCounter: nat)
    | Wave(waveVolume: bv8, volumeShift: nat, waveIndex: nat, sampleBuffer: nat, waveram: seq<bv8>)
    | Noise(validScf: bool, halfWidth: bool, lfsr: bv16)

  /** `Channel`: `mFrequency`, `mOutput`, `mDacOn`, `mEnabled`, `mTimer`. */
  datatype Channel = Channel(frequency: nat, output: nat, dacOn: bool, enabled: bool, timer: Timer, osc: Osc)

  predicate SameKind(a: Osc, b: Osc)
  {
    && (a.Pulse? <==> b.Pulse?)
    && (a.Wave? <==> b.Wave?)
    && (a.Noise? <==> b.Noise?)
  }

  // ------------------------------------------------------------ periods ---

  /** `(2048 - f) * MULTIPLIER` as C++ evaluates it for a uint16 `f`: an int
      difference converted to unsigned for the product, so the result is
      taken modulo 2^32. */
  function FrequencyPeriod(f: nat, multiplier: nat): (p: nat)
    requires multiplier == C.PULSE_MULTIPLIER || multiplier == C.WAVE_MULTIPLIER
    ensures f <= MAX_FREQUENCY ==> p == (2048 - f) * multiplier
    ensures f <= MAX_FREQUENCY ==> multiplier <= p <= 2048 * multiplier
    ensures f == 2048 ==> p == 0
  {
    ((2048 - f) * multiplier) % U32
  }

  /** The invariant every operation keeps: the timer can run, the channel is
      enabled only while its DAC is on, the output is a 4-bit level, and the
      period is the one the frequency gives. */
  ghost predicate Valid(c: Channel)
  {
    && Running(c.timer)
    && (c.enabled ==> c.dacOn)
    && c.output <= 15
    && ValidOsc(c.osc)
    && match c.osc
       case Pulse(_, _, _) =>
         c.frequency <= MAX_FREQUENCY && c.timer.period == (2048 - c.frequency) * C.PULSE_MULTIPLIER
       case Wave(_, _, _, _, _) =>
         c.frequency <= MAX_FREQUENCY && c.timer.period == (2048 - c.frequency) * C.WAVE_MULTIPLIER
       case Noise(validScf, halfWidth, _) =>
         && c.frequency <= 0xFF
         && c.timer.period == C.NoisePeriod(c.frequency)
         && (validScf <==> c.frequency / 16 < 14)
         && (halfWidth <==> (c.frequency / 8) % 2 == 1)
  }

  /** The oscillator fields stay in their ranges. */
  ghost predicate ValidOsc(osc: Osc)
  {
    match osc
    case Pulse(duty, waveform, k) => duty < 4 && waveform == C.DutyWaveform(duty) && k < 8
    case Wave(_, shift, i, b, ram) => shift <= 4 && i < 32 && b <= 15 && |ram| == WAVE_RAMSIZE
    case Noise(_, _, lfsr) => lfsr < 0x8000
  }

  // ------------------------------------------------------- constructors ---

  /** `PulseChannel(envelope)`: duty 75%, period for frequency 0. */
  function NewPulse(): (c: Channel)
    ensures Valid(c) && c.osc.Pulse?
    ensures c.osc.duty == DUTY_75 && c.osc.waveform == 0x7E
    ensures !c.dacOn && !c.enabled && c.frequency == 0 && c.output == 0
  {
    Channel(0, 0, false, false, New(C.PULSE_DEFAULT_PERIOD), Pulse(DUTY_75, C.DutyWaveform(DUTY_75), 0))
  }

  /** `WaveChannel()`: muted, zeroed wave RAM. */
  function NewWave(): (c: Channel)
    ensures Valid(c) && c.osc.Wave?
    ensures c.osc.waveVolume == VOLUME_MUTE && c.osc.waveram == Zeroes(WAVE_RAMSIZE)
    ensures !c.dacOn && !c.enabled && c.frequency == 0 && c.output == 0
  {
    Channel(0, 0, false, false, New(C.WAVE_DEFAULT_PERIOD), Wave(VOLUME_MUTE, 0, 0, 0, Zeroes(WAVE_RAMSIZE)))
  }

  /** `NoiseChannel(envelope)`: the LFSR is all ones, period 8. */
  function NewNoise(): (c: Channel)
    ensures Valid(c) && c.osc.Noise?
    ensures c.osc.lfsr == C.LFSR_INIT && c.osc.validScf && !c.osc.halfWidth
    ensures !c.dacOn && !c.enabled && c.frequency == 0 && c.output == 0
  {
    assert C.NoisePeriod(0) == 8 by { assert Pow2(0) == 1; }
    Channel(0, 0, false, false, New(C.NOISE_DEFAULT_PERIOD), Noise(true, false, C.LFSR_INIT))
  }

  // ------------------------------------------------------ base channel ---

  /** `Channel::disable`. */
  function Disable(c: Channel): (r: Channel)
    requires Valid(c)
    ensures Valid(r) && !r.enabled
    ensures r.(enabled := c.enabled) == c
  {
    c.(enabled := false)
  }

  /** `Channel::setDacEnabled`: turning the DAC off disables the channel,
      turning it on does not enable it. */
  function SetDacEnabled(c: Channel, enabled: bool): (r: Channel)
    requires Valid(c)
    ensures Valid(r) && r.dacOn == enabled
    ensures !enabled ==> !r.enabled
    ensures enabled ==> r.enabled == c.enabled
    ensures r.(dacOn := c.dacOn, enabled := c.enabled) == c
  {
    var d := c.(dacOn := enabled);
    if !enabled then d.(enabled := false) else d
  }

  /** `Channel::restart`: the timer reloads and the channel is enabled
      exactly when its DAC is on. */
  function BaseRestart(c: Channel): (r: Channel)
    requires Valid(c)
    ensures Valid(r) && r.enabled == c.dacOn
    ensures r.timer == Timer(c.timer.period, c.timer.period)
    ensures r.(timer := c.timer, enabled := c.enabled) == c
  {
    c.(timer := c.timer.(timer := c.timer.period), enabled := c.dacOn)
  }

  // ------------------------------------------------------------- output ---

  /** `updateOutput` of each kind, given the envelope volume (the wave
      channel has none): a pulse outputs the volume when the waveform bit
      at the duty step is set, the noise channel when bit 0 of the LFSR is
      clear, the wave channel its sample shifted right by the volume shift. */
  function Output(osc: Osc, volume: nat): (out: nat)
    requires ValidOsc(osc) && volume <= 15
    ensures out <= 15
    ensures osc.Pulse? ==> out == C.PulseOutput(osc.waveform, osc.dutyCounter, volume)
    ensures osc.Noise? ==> out == if osc.lfsr & 1 == 0 then volume else 0
    ensures osc.Wave? ==> out == Shr(osc.sampleBuffer, osc.volumeShift)
    ensures osc.Wave? && osc.volumeShift == 4 ==> out == 0
  {
    match osc
    case Pulse(_, waveform, k) => C.PulseOutput(waveform, k, volume)
    case Wave(_, shift, _, b, _) =>
      if shift == 4 then C.MuteShiftSilences(b); Shr(b, shift) else Shr(b, shift)
    case Noise(_, _, lfsr) => if lfsr & 1 == 0 then volume else 0
  }

  /** What `fastforward` ends with, and what `clock` does after moving the
      oscillator: the wave channel reloads its sample buffer from the
      current position (`updateSampleBuffer`), and every channel recomputes
      its output. A noise channel with an invalid shift clock frequency is
      left alone. */
  function Refresh(c: Channel, volume: nat): (r: Channel)
    requires Valid(c) && volume <= 15
    ensures Valid(r)
    ensures r.(output := c.output, osc := c.osc) == c
    ensures c.osc.Wave? ==> r.osc == c.osc.(sampleBuffer := C.WaveSample(c.osc.waveram, c.osc.waveIndex))
    ensures !c.osc.Wave? ==> r.osc == c.osc
    ensures c.osc.Noise? && !c.osc.validScf ==> r == c
    ensures !(c.osc.Noise? && !c.osc.validScf) ==> r.output == Output(r.osc, volume)
  {
    match c.osc
    case Pulse(_, _, _) => c.(output := Output(c.osc, volume))
    case Wave(v, shift, i, _, ram) =>
      var osc := Wave(v, shift, i, C.WaveSample(ram, i), ram);
      c.(osc := osc, output := Output(osc, volume))
    case Noise(validScf, _, _) => if validScf then c.(output := Output(c.osc, volume)) else c
  }

  // -------------------------------------------------------- oscillators ---

  /** `k` LFSR shifts, as the `fastforward` loop of the noise channel does
      them. */
  function LfsrTimes(lfsr: bv16, halfWidth: bool, k: nat): (r: bv16)
    requires lfsr < 0x8000
    ensures r < 0x8000
    decreases k
  {
    if k == 0 then lfsr else LfsrTimes(C.ClockLfsr(lfsr, halfWidth), halfWidth, k - 1)
  }

  /** The oscillator position after `k` clocks, before the output is
      refreshed: the duty step moves modulo 8, the wave position modulo 32,
      and the LFSR shifts `k` times unless the shift clock frequency is
      invalid. */
  function Clocked(osc: Osc, k: nat): (r: Osc)
    requires ValidOsc(osc)
    ensures ValidOsc(r) && SameKind(r, osc)
    ensures osc.Pulse? ==> r == osc.(dutyCounter := (osc.dutyCounter + k) % 8)
    ensures osc.Wave? ==> r == osc.(waveIndex := (osc.waveIndex + k) % 32)
    ensures osc.Noise? && osc.validScf ==> r == osc.(lfsr := LfsrTimes(osc.lfsr, osc.halfWidth, k))
    ensures osc.Noise? && !osc.validScf ==> r == osc
  {
    match osc
    case Pulse(_, _, i) => osc.(dutyCounter := (i + k) % 8)
    case Wave(_, _, i, _, _) => osc.(waveIndex := (i + k) % 32)
    case Noise(validScf, halfWidth, lfsr) =>
      if validScf then osc.(lfsr := LfsrTimes(lfsr, halfWidth, k)) else osc
  }

  /** `clock()` of each kind: one step of the oscillator, then the output. */
  function Clock(c: Channel, volume: nat): (r: Channel)
    requires Valid(c) && volume <= 15
    ensures Valid(r) && SameKind(r.osc, c.osc)
    ensures r.timer == c.timer && r.frequency == c.frequency
    ensures r.dacOn == c.dacOn && r.enabled == c.enabled
    ensures c.osc.Pulse? ==> r.osc.dutyCounter == (c.osc.dutyCounter + 1) % 8
    ensures c.osc.Wave? ==> && r.osc.waveIndex == (c.osc.waveIndex + 1) % 32
                            && r.osc.sampleBuffer == C.WaveSample(c.osc.waveram, r.osc.waveIndex)
    ensures c.osc.Noise? && c.osc.validScf ==> r.osc.lfsr == C.ClockLfsr(c.osc.lfsr, c.osc.halfWidth)
    ensures c.osc.Noise? && !c.osc.validScf ==> r == c
  {
    ValidClocked(c, 1);
    Refresh(c.(osc := Clocked(c.osc, 1)), volume)
  }

  /** The three kinds of `fastforward`: the timer jumps in closed form and
      reports its fires, the oscillator moves by that many clocks at once,
      and the output is refreshed. */
  function FastForward(c: Channel, cycles: nat, volume: nat): (r: Channel)
    requires Valid(c) && volume <= 15
    ensures Valid(r) && SameKind(r.osc, c.osc)
    ensures r.timer == IT.FastForward(c.timer, cycles).0
    ensures r.frequency == c.frequency && r.dacOn == c.dacOn && r.enabled == c.enabled
    ensures cycles < c.timer.timer ==> r == Refresh(c.(timer := r.timer), volume)
  {
    var (t, clocks) := IT.FastForward(c.timer, cycles);
    ValidRetimed(c, t);
    ValidClocked(c.(timer := t), clocks);
    Refresh(c.(timer := t, osc := Clocked(c.osc, clocks)), volume)
  }

  /** One chunk of `Timer::run`: up to the next fire or the end of the
      cycles, clocking the channel if the timer fired. */
  function Chunk(c: Channel, cycles: nat, volume: nat): (r: Channel)
    requires Valid(c) && volume <= 15 && cycles > 0
    ensures Valid(r) && r.timer == StepTimer(c.timer, Min(c.timer.timer, cycles)).0
  {
    var (t, fired) := StepTimer(c.timer, Min(c.timer.timer, cycles));
    ValidRetimed(c, t);
    var c1 := c.(timer := t);
    if fired then Clock(c1, volume) else c1
  }

  /** The reference for `fastforward`: run the timer in chunks that end at
      each fire (`Timer::run`), clocking the channel whenever it fires. */
  function StepRun(c: Channel, cycles: nat, volume: nat): (r: Channel)
    requires Valid(c) && volume <= 15
    ensures Valid(r)
    decreases cycles
  {
    if cycles == 0 then c
    else StepRun(Chunk(c, cycles, volume), cycles - Min(c.timer.timer, cycles), volume)
  }

  /** `k` clocks in a row. */
  function ClockTimes(c: Channel, k: nat, volume: nat): (r: Channel)
    requires Valid(c) && volume <= 15
    ensures Valid(r) && r.timer == c.timer
    decreases k
  {
    if k == 0 then c else ClockTimes(Clock(c, volume), k - 1, volume)
  }

  /** Another counter with the same period keeps a channel valid. */
  lemma ValidRetimed(c: Channel, t: Timer)
    requires Valid(c) && Running(t) && t.period == c.timer.period
    ensures Valid(c.(timer := t))
  {
  }

  /** Moving the oscillator keeps a channel valid. */
  lemma ValidClocked(c: Channel, k: nat)
    requires Valid(c)
    ensures Valid(c.(osc := Clocked(c.osc, k)))
  {
  }

  // --------------------------------------------------------------- pulse ---

  /** `PulseChannel::setDuty`: the waveform is the byte of `DUTY_MASK` that
      the duty selects. The output is not refreshed. A duty of 4 or more
      would shift the 32-bit mask by 32 or more, which C++ leaves undefined. */
  function SetDuty(c: Channel, duty: bv8): (r: Channel)
    requires Valid(c) && c.osc.Pulse? && duty < 4
    ensures Valid(r) && r.osc.Pulse? && r.osc.duty == duty
    ensures r.osc.waveform == ((C.DUTY_MASK >> ((duty as nat) * 8)) & 0xFF) as bv8
    ensures r.(osc := c.osc) == c && r.osc.dutyCounter == c.osc.dutyCounter
  {
    C.DutyWaveformIsMaskByte(duty);
    c.(osc := c.osc.(duty := duty, waveform := C.DutyWaveform(duty)))
  }

  /** `setFrequency` of the pulse and wave channels: the counter is not
      reloaded, only the period changes. Frequencies above 2047 wrap the
      32-bit period, and 2048 gives a period of 0. */
  function SetFrequency(c: Channel, f: nat): (r: Channel)
    requires !c.osc.Noise? && f <= 0xFFFF
    ensures r.frequency == f && r.timer.timer == c.timer.timer
    ensures r.timer.period == FrequencyPeriod(f, if c.osc.Wave? then C.WAVE_MULTIPLIER else C.PULSE_MULTIPLIER)
    ensures r.(frequency := c.frequency, timer := c.timer) == c
    ensures Valid(c) && f <= MAX_FREQUENCY ==> Valid(r)
  {
    var multiplier := if c.osc.Wave? then C.WAVE_MULTIPLIER else C.PULSE_MULTIPLIER;
    c.(frequency := f, timer := c.timer.(period := FrequencyPeriod(f, multiplier)))
  }

  /** The pulse period over the whole 11-bit frequency range. */
  lemma PulsePeriodRange(c: Channel, f: nat)
    requires c.osc.Pulse? && f <= MAX_FREQUENCY
    ensures 4 <= SetFrequency(c, f).timer.period <= 8192
    ensures SetFrequency(c, f).timer.period >= C.PULSE_MIN_PERIOD <==> f <= 2042
  {
  }

  // ---------------------------------------------------------------- wave ---

  /** The volume shift a wave volume code selects: mute shifts the 4-bit
      sample out entirely. */
  function VolumeShift(volume: bv8): (shift: nat)
    ensures shift <= 4
    ensures shift == 4 <==> volume == VOLUME_MUTE
    ensures shift == 0 <==> volume == VOLUME_FULL
    ensures shift == 1 <==> volume == VOLUME_HALF
  {
    if volume == VOLUME_MUTE then 4
    else if volume == VOLUME_FULL then 0
    else if volume == VOLUME_HALF then 1
    else 2
  }

  /** `WaveChannel::setVolume`, which refreshes the output at once. */
  function SetVolume(c: Channel, volume: bv8): (r: Channel)
    requires Valid(c) && c.osc.Wave?
    ensures Valid(r) && r.osc.Wave?
    ensures r.osc == c.osc.(waveVolume := volume, volumeShift := VolumeShift(volume))
    ensures r.output == Shr(c.osc.sampleBuffer, VolumeShift(volume))
    ensures volume == VOLUME_MUTE ==> r.output == 0
    ensures r.(output := c.output, osc := c.osc) == c
  {
    var osc := c.osc.(waveVolume := volume, volumeShift := VolumeShift(volume));
    c.(osc := osc, output := Output(osc, 0))
  }

  /** A byte stored through the pointer `waveram()` hands out. */
  function WriteWaveram(c: Channel, index: nat, value: bv8): (r: Channel)
    requires Valid(c) && c.osc.Wave? && index < WAVE_RAMSIZE
    ensures Valid(r) && r.osc.Wave?
    ensures r.osc.waveram[index] == value
    ensures forall j :: 0 <= j < WAVE_RAMSIZE && j != index ==> r.osc.waveram[j] == c.osc.waveram[j]
    ensures r.(osc := c.osc) == c && r.osc.(waveram := c.osc.waveram) == c.osc
  {
    c.(osc := c.osc.(waveram := c.osc.waveram[index := value]))
  }

  // --------------------------------------------------------------- noise ---

  /** `NoiseChannel::setNoise`: NR43 becomes the frequency; the period is
      the divisor shifted by the shift clock frequency (bits 4-7), bit 3
      selects the 7-bit LFSR, and a shift clock frequency of 14 or 15 stops
      the clocks. */
  function SetNoise(c: Channel, noisereg: bv8): (r: Channel)
    requires c.osc.Noise?
    ensures var f := noisereg as nat;
            && r.osc.Noise? && r.frequency == f
            && r.timer.period == C.NoiseDivisor(f) * Pow2(f / 16)
            && (r.osc.validScf <==> f / 16 < 14)
            && (r.osc.halfWidth <==> (f / 8) % 2 == 1)
    ensures r.timer.timer == c.timer.timer && r.osc.lfsr == c.osc.lfsr
    ensures r.output == c.output && r.dacOn == c.dacOn && r.enabled == c.enabled
    ensures Valid(c) ==> Valid(r)
  {
    var f := noisereg as nat;
    c.(frequency := f,
       timer := c.timer.(period := C.NoisePeriod(f)),
       osc := c.osc.(validScf := f / 16 < 14, halfWidth := (f / 8) % 2 == 1))
  }

  /** With a shift clock frequency of 14 or 15 the channel never changes
      on a clock, and `fastforward` moves only its timer. */
  lemma InvalidScfFreezes(c: Channel, cycles: nat, volume: nat)
    requires Valid(c) && c.osc.Noise? && !c.osc.validScf && volume <= 15
    ensures Clock(c, volume) == c
    ensures FastForward(c, cycles, volume) == c.(timer := IT.FastForward(c.timer, cycles).0)
  {
  }

  // ------------------------------------------------------ restart/reset ---

  /** The virtual `restart`: the base restart, then the wave channel goes
      back to the first sample and the noise channel reseeds its LFSR and
      falls silent. */
  function Restart(c: Channel): (r: Channel)
    requires Valid(c)
    ensures Valid(r) && SameKind(r.osc, c.osc)
    ensures r.enabled == c.dacOn && r.dacOn == c.dacOn
    ensures r.timer == Timer(c.timer.period, c.timer.period) && r.frequency == c.frequency
    ensures c.osc.Pulse? ==> r.osc == c.osc && r.output == c.output
    ensures c.osc.Wave? ==> r.osc == c.osc.(waveIndex := 0) && r.output == c.output
    ensures c.osc.Noise? ==> r.osc == c.osc.(lfsr := C.LFSR_INIT) && r.output == 0
  {
    var b := BaseRestart(c);
    match c.osc
    case Pulse(_, _, _) => b
    case Wave(_, _, _, _, _) => b.(osc := c.osc.(waveIndex := 0))
    case Noise(_, _, _) => b.(osc := c.osc.(lfsr := C.LFSR_INIT), output := 0)
  }

  /** `Channel::reset`. */
  function BaseReset(c: Channel): (r: Channel)
    ensures !r.dacOn && !r.enabled && r.frequency == 0 && r.output == 0
    ensures r.timer == c.timer && r.osc == c.osc
  {
    c.(dacOn := false, enabled := false, frequency := 0, output := 0)
  }

  /** The virtual `reset`. The period goes back to the default of the kind
      but the counter is not reloaded. */
  function Reset(c: Channel): (r: Channel)
    requires Valid(c)
    ensures Valid(r) && SameKind(r.osc, c.osc)
    ensures r.timer.timer == c.timer.timer
    ensures !r.dacOn && !r.enabled && r.frequency == 0 && r.output == 0
    ensures r.timer.period == match c.osc
      case Pulse(_, _, _) => C.PULSE_DEFAULT_PERIOD
      case Wave(_, _, _, _, _) => C.WAVE_DEFAULT_PERIOD
      case Noise(_, _, _) => C.NOISE_DEFAULT_PERIOD
  {
    var b := BaseReset(c);
    match c.osc
    case Pulse(_, _, _) =>
      b.(timer := c.timer.(period := C.PULSE_DEFAULT_PERIOD), osc := Pulse(DUTY_75, C.DutyWaveform(DUTY_75), 0))
    case Wave(_, _, _, _, _) =>
      b.(timer := c.timer.(period := C.WAVE_DEFAULT_PERIOD), osc := Wave(VOLUME_MUTE, 0, 0, 0, Zeroes(WAVE_RAMSIZE)))
    case Noise(_, _, _) =>
      assert C.NoisePeriod(0) == 8 by { assert Pow2(0) == 1; }
      b.(timer := c.timer.(period := C.NOISE_DEFAULT_PERIOD), osc := Noise(true, false, C.LFSR_INIT))
  }

  /** A reset channel is a freshly constructed one, except that its timer
      counter is whatever it was. */
  lemma ResetIsNew(c: Channel)
    requires Valid(c)
    ensures c.osc.Pulse? ==> Reset(c) == NewPulse().(timer := Timer(c.timer.timer, C.PULSE_DEFAULT_PERIOD))
    ensures c.osc.Wave? ==> Reset(c) == NewWave().(timer := Timer(c.timer.timer, C.WAVE_DEFAULT_PERIOD))
    ensures c.osc.Noise? ==> Reset(c) == NewNoise().(timer := Timer(c.timer.timer, C.NOISE_DEFAULT_PERIOD))
  {
  }

  /** After a reset the wave channel is muted by its volume code, yet its
      volume shift is 0 (full), as in the constructor: a sample loaded
      before the next `setVolume` plays at full volume. */
  lemma ResetWaveShiftIsFull(c: Channel)
    requires Valid(c) && c.osc.Wave?
    ensures Reset(c).osc.waveVolume == VOLUME_MUTE && Reset(c).osc.volumeShift == 0
    ensures VolumeShift(Reset(c).osc.waveVolume) == 4
  {
  }
}
