/** The four sound channels of the class hierarchy that `Apu` drives:
    `ChannelBase` (length counter, DAC, frequency registers, the step loop),
    `EnvChannelBase` (volume envelope) and the oscillators `PulseChannel`,
    `SweepPulseChannel`, `WaveChannel` and `NoiseChannel`.

    The C++ virtual calls (`setPeriod`, `stepOscillator`, `restart`,
    `reset`) become a match on the `Osc` variant of a single `Channel`
    record. */
module Channels {
  import opened Bits
  import opened Constants
  import opened Timers
  import MixModes

  const PULSE_MULTIPLIER: nat := 4
  const WAVE_MULTIPLIER: nat := 2
  /** The four 8-step duty waveforms, one per byte (12.5%, 25%, 50%, 75%). */
  const DUTY_MASK: bv32 := 0x7EE18180
  const PULSE_DEFAULT_PERIOD: nat := 8192
  /** Frequency 2042 (about 21845 Hz) and above are not mixed. */
  const PULSE_MIN_PERIOD: nat := 24
  const WAVE_DEFAULT_PERIOD: nat := 4096
  const WAVE_MIN_PERIOD: nat := 0
  const NOISE_DEFAULT_PERIOD: nat := 8
  const NOISE_MIN_PERIOD: nat := 8
  const LFSR_INIT: bv16 := 0x7FFF
  /** Cycles after the channel's own RAM fetch during which the bus may use wave RAM. */
  const RAM_ACCESS_THRESHOLD: nat := 4

  /** `mEnvelopeRegister`, `mEnvelopeCounter`, `mEnvelopePeriod`,
      `mEnvelopeAmplify` and `mVolume` of `EnvChannelBase`. */
  datatype Envelope = Envelope(register: bv8, counter: nat, period: nat, amplify: bool, volume: nat)

  /** The sweep unit of channel 1 (`SweepPulseChannel`); `shadow` is an int16. */
  datatype Sweep = Sweep(subtraction: bool, time: nat, shift: nat, counter: nat, register: bv8, shadow: int)

  datatype Osc =
    | Pulse(duty: bv8, waveform: bv8, dutyCounter: nat)
    | SweepPulse(duty: bv8, waveform: bv8, dutyCounter: nat, sweep: Sweep)
    | Wave(lastRamAccess: nat, volumeShift: nat, volume: nat, waveIndex: nat, sampleBuffer: nat, waveram: seq<bv8>)
    | Noise(validScf: bool, halfWidth: bool, lfsr: bv16)

  /** One channel. `disabled` is `mDisabled`: set by the length counter,
      the sweep overflow or the DAC, cleared only by a restart. The wave
      channel carries an envelope record that nothing writes. */
  datatype Channel = Channel(
    timer: Timer,
    frequency: nat,
    output: nat,
    lastOutput: nat,
    dacOn: bool,
    lengthCounter: nat,
    lengthEnabled: bool,
    disabled: bool,
    env: Envelope,
    osc: Osc)

  /** A transition handed to the mixer: `delta` at cycle `time`. */
  datatype MixEvent = MixEvent(delta: int, time: nat)

  function SumDeltas(events: seq<MixEvent>): int
  {
    if |events| == 0 then 0 else events[0].delta + SumDeltas(events[1..])
  }

  lemma {:induction false} SumDeltasAppend(a: seq<MixEvent>, b: seq<MixEvent>)
    ensures SumDeltas(a + b) == SumDeltas(a) + SumDeltas(b)
    decreases |a|
  {
    if |a| > 0 {
      assert (a + b)[0] == a[0];
      assert (a + b)[1..] == a[1..] + b;
      SumDeltasAppend(a[1..], b);
    } else {
      assert a + b == b;
    }
  }

  predicate IsSquare(osc: Osc)
  {
    osc.Pulse? || osc.SweepPulse?
  }

  predicate SameKind(a: Osc, b: Osc)
  {
    && (a.Pulse? <==> b.Pulse?)
    && (a.SweepPulse? <==> b.SweepPulse?)
    && (a.Wave? <==> b.Wave?)
    && (a.Noise? <==> b.Noise?)
  }

  // ------------------------------------------------------------ constants ---

  function DefaultPeriod(osc: Osc): nat
  {
    if osc.Wave? then WAVE_DEFAULT_PERIOD
    else if osc.Noise? then NOISE_DEFAULT_PERIOD
    else PULSE_DEFAULT_PERIOD
  }

  function MinPeriod(osc: Osc): nat
  {
    if osc.Wave? then WAVE_MIN_PERIOD
    else if osc.Noise? then NOISE_MIN_PERIOD
    else PULSE_MIN_PERIOD
  }

  function LengthMax(osc: Osc): nat
  {
    if osc.Wave? then 256 else 64
  }

  /** The noise channel uses only the low 8 bits of its frequency. */
  function FrequencyLimit(osc: Osc): nat
  {
    if osc.Noise? then 0xFF else MAX_FREQUENCY
  }

  // ------------------------------------------------------------- periods ---

  /** The divisor chosen by bits 0-2 of NR43: 8 for 0, else 16 times the field. */
  function NoiseDivisor(frequency: nat): (d: nat)
    ensures 8 <= d <= 112
  {
    var drf := frequency % 8;
    if drf == 0 then 8 else drf * 16
  }

  /** `NoiseChannel::setPeriod`: the divisor shifted left by bits 4-7. */
  function NoisePeriod(frequency: nat): (p: nat)
    requires frequency <= 0xFF
    ensures p >= 8
    ensures p == NoiseDivisor(frequency) * Pow2(frequency / 16)
  {
    Shl(NoiseDivisor(frequency), frequency / 16)
  }

  /** The period `setPeriod` computes for a frequency, per channel kind. */
  function PeriodFor(osc: Osc, frequency: nat): (p: nat)
    requires frequency <= FrequencyLimit(osc)
    ensures p > 0
    ensures IsSquare(osc) ==> 4 <= p <= 8192 && (p >= PULSE_MIN_PERIOD <==> frequency <= 2042)
    ensures osc.Wave? ==> 2 <= p <= 4096
    ensures p == DefaultPeriod(osc) <==> (frequency == 0 || (osc.Noise? && NoisePeriod(frequency) == 8))
  {
    if osc.Wave? then (2048 - frequency) * WAVE_MULTIPLIER
    else if osc.Noise? then NoisePeriod(frequency)
    else (2048 - frequency) * PULSE_MULTIPLIER
  }

  // ---------------------------------------------------------- invariants ---

  ghost predicate ValidEnvelope(e: Envelope)
  {
    && e.volume <= 15
    && e.period <= 7
    && (e.counter < e.period || e.counter == 0)
  }

  ghost predicate ValidSweep(s: Sweep)
  {
    && s.time <= 7
    && s.shift <= 7
    && s.counter < 256
    && s.register < 0x80
    && 0 <= s.shadow <= MAX_FREQUENCY as int
  }

  ghost predicate ValidOsc(osc: Osc)
  {
    match osc
    case Pulse(duty, waveform, counter) =>
      duty < 4 && waveform == DutyWaveform(duty) && counter < 8
    case SweepPulse(duty, waveform, counter, sweep) =>
      duty < 4 && waveform == DutyWaveform(duty) && counter < 8 && ValidSweep(sweep)
    case Wave(last, shift, volume, index, sample, ram) =>
      && last == 0
      && (shift == 0 || shift == 1 || shift == 2 || shift == 4)
      && index < 32
      && sample <= 15
      && |ram| == WAVE_RAMSIZE
    case Noise(_, _, lfsr) =>
      lfsr < 0x8000
  }

  /** The state invariant every operation preserves. It includes the
      DAC gate: a channel that is not disabled has its DAC on. */
  ghost predicate Valid(c: Channel)
  {
    && c.timer.timer > 0
    && c.frequency <= FrequencyLimit(c.osc)
    && c.timer.period == PeriodFor(c.osc, c.frequency)
    && c.output <= 15
    && c.lastOutput <= 15
    && ValidEnvelope(c.env)
    && (!c.disabled ==> c.dacOn)
    && ValidOsc(c.osc)
  }

  lemma ValidIsRunning(c: Channel)
    requires Valid(c)
    ensures Running(c.timer)
  {
  }

  /** What the register reads of the APU can observe of a channel. */
  datatype Visible = Visible(dacOn: bool, lengthEnabled: bool, envRegister: bv8, osc: VisibleOsc)
  datatype VisibleOsc =
    | PulseRegs(duty: bv8)
    | SweepRegs(duty: bv8, sweepRegister: bv8)
    | WaveRegs(volumeShift: nat, waveram: seq<bv8>, lastRamAccess: nat)
    | NoiseRegs(frequency: nat)

  function VisibleOf(c: Channel): Visible
  {
    Visible(c.dacOn, c.lengthEnabled, c.env.register,
      match c.osc
      case Pulse(duty, _, _) => PulseRegs(duty)
      case SweepPulse(duty, _, _, sweep) => SweepRegs(duty, sweep.register)
      case Wave(last, shift, _, _, _, ram) => WaveRegs(shift, ram, last)
      case Noise(_, _, _) => NoiseRegs(c.frequency))
  }

  // -------------------------------------------------------- constructors ---

  function NewBase(osc: Osc): (c: Channel)
  {
    Channel(New(DefaultPeriod(osc)), 0, 0, 0, false, 0, false, true, Envelope(0, 0, 0, false, 0), osc)
  }

  /** The base fields as the `ChannelBase` and `EnvChannelBase`
      initializer lists leave them: the timer loaded with the default
      period, DAC off, channel disabled, and every counter, level and
      envelope field zero. */
  ghost predicate Initial(c: Channel, period: nat)
  {
    && c.timer == Timer(period, period) && c.frequency == 0
    && c.output == 0 && c.lastOutput == 0
    && !c.dacOn && c.disabled
    && c.lengthCounter == 0 && !c.lengthEnabled
    && c.env == Envelope(0, 0, 0, false, 0)
  }

  function NewPulse(): (c: Channel)
    ensures Valid(c) && Initial(c, 8192)
    ensures c.osc.Pulse? && c.osc.duty == 3 && c.osc.waveform == 0x7E && c.osc.dutyCounter == 0
  {
    NewBase(Pulse(3, DutyWaveform(3), 0))
  }

  function NewSweepPulse(): (c: Channel)
    ensures Valid(c) && Initial(c, 8192)
    ensures c.osc.SweepPulse? && c.osc.duty == 3 && c.osc.waveform == 0x7E && c.osc.dutyCounter == 0
    ensures c.osc.sweep == Sweep(false, 0, 0, 0, 0, 0)
  {
    NewBase(SweepPulse(3, DutyWaveform(3), 0, Sweep(false, 0, 0, 0, 0, 0)))
  }

  function NewWave(): (c: Channel)
    ensures Valid(c) && Initial(c, 4096) && c.osc.Wave?
    ensures c.osc.volumeShift == 0 && c.osc.volume == 15
    ensures c.osc.lastRamAccess == 0 && c.osc.waveIndex == 0 && c.osc.sampleBuffer == 0
    ensures |c.osc.waveram| == 16 && forall i :: 0 <= i < 16 ==> c.osc.waveram[i] == 0
  {
    NewBase(Wave(0, 0, 15, 0, 0, Zeroes(WAVE_RAMSIZE)))
  }

  function NewNoise(): (c: Channel)
    ensures Valid(c) && Initial(c, 8)
    ensures c.osc == Noise(true, false, 0x7FFF)
  {
    NewBase(Noise(true, false, LFSR_INIT))
  }

  // ------------------------------------------------------------- pulse ---

  /** The waveform of a duty setting, one bit per duty step. */
  function DutyWaveform(duty: bv8): (w: bv8)
    requires duty < 4
  {
    if duty == 0 then 0x80 else if duty == 1 then 0x81 else if duty == 2 then 0xE1 else 0x7E
  }

  /** The waveforms are the bytes of `DUTY_MASK`, picked by eight times
      the duty setting. */
  lemma DutyWaveformIsMaskByte(duty: bv8)
    requires duty < 4
    ensures DutyWaveform(duty) == ((DUTY_MASK >> ((duty as nat) * 8)) & 0xFF) as bv8
  {
    if duty == 0 {
    } else if duty == 1 {
      assert (duty as nat) * 8 == 8;
    } else if duty == 2 {
      assert (duty as nat) * 8 == 16;
    } else {
      assert (duty as nat) * 8 == 24;
    }
  }

  function BitCount(w: bv8, n: nat): nat
    requires n <= 8
  {
    if n == 0 then 0 else BitCount(w, n - 1) + (if (w >> (n - 1)) & 1 == 1 then 1 else 0)
  }

  /** The four waveforms and their high steps out of 8: 12.5%, 25%, 50%, 75%. */
  lemma DutyWaveforms()
    ensures DutyWaveform(0) == 0x80 && BitCount(DutyWaveform(0), 8) == 1
    ensures DutyWaveform(1) == 0x81 && BitCount(DutyWaveform(1), 8) == 2
    ensures DutyWaveform(2) == 0xE1 && BitCount(DutyWaveform(2), 8) == 4
    ensures DutyWaveform(3) == 0x7E && BitCount(DutyWaveform(3), 8) == 6
  {
  }

  /** Output of a square channel at a duty step: the envelope volume when
      the waveform bit is set, silence otherwise. */
  function PulseOutput(waveform: bv8, step: nat, volume: nat): (out: nat)
    requires step < 8
    ensures out == 0 || out == volume
    ensures out == volume <==> ((waveform >> step) & 1 == 1 || volume == 0)
  {
    if (waveform >> step) & 1 == 1 then volume else 0
  }

  /** `PulseChannel::writeDuty`; the APU passes the top two bits of NRx1. */
  function WriteDuty(c: Channel, duty: bv8): (r: Channel)
    requires IsSquare(c.osc) && duty < 4
    ensures IsSquare(r.osc) && SameKind(r.osc, c.osc)
    ensures r.osc.duty == duty && r.osc.waveform == DutyWaveform(duty)
    ensures r == c.(osc := r.osc)
    ensures r.osc.dutyCounter == c.osc.dutyCounter
    ensures c.osc.SweepPulse? ==> r.osc.sweep == c.osc.sweep
    ensures Valid(c) ==> Valid(r)
  {
    match c.osc
    case Pulse(_, _, k) => c.(osc := Pulse(duty, DutyWaveform(duty), k))
    case SweepPulse(_, _, k, sweep) => c.(osc := SweepPulse(duty, DutyWaveform(duty), k, sweep))
  }

  /** `PulseChannel::readDuty`: the duty in bits 6-7. */
  function ReadDuty(c: Channel): (v: bv8)
    requires IsSquare(c.osc) && c.osc.duty < 4
    ensures v & 0x3F == 0 && v >> 6 == c.osc.duty
  {
    c.osc.duty << 6
  }

  // ------------------------------------------------------------- sweep ---

  /** `SweepPulseChannel::writeSweep`: bit 7 of NR10 is not stored. */
  function WriteSweep(c: Channel, value: bv8): (r: Channel)
    requires c.osc.SweepPulse?
    ensures r.osc.SweepPulse? && ReadSweep(r) == value & 0x7F
    ensures r == c.(osc := c.osc.(sweep := c.osc.sweep.(register := value & 0x7F)))
    ensures Valid(c) ==> Valid(r)
  {
    c.(osc := c.osc.(sweep := c.osc.sweep.(register := value & 0x7F)))
  }

  function ReadSweep(c: Channel): bv8
    requires c.osc.SweepPulse?
  {
    c.osc.sweep.register
  }

  /** The sweep half of `SweepPulseChannel::restart`: the fields of NR10
      are latched and the shadow register copies the frequency. */
  function SweepLatch(s: Sweep, frequency: nat): (r: Sweep)
    ensures r.shift == (s.register & 0x7) as nat
    ensures r.subtraction == ((s.register >> 3) & 1 == 1)
    ensures r.time == ((s.register >> 4) & 0x7) as nat
    ensures r.counter == 0 && r.shadow == frequency && r.register == s.register
  {
    Sweep((s.register >> 3) & 1 == 1, ((s.register >> 4) & 0x7) as nat, (s.register & 0x7) as nat, 0, s.register, frequency)
  }

  /** A successful sweep step writes the new frequency to the channel and
      to the shadow register and recomputes the period. */
  function SweepWrite(c: Channel, f: nat): (r: Channel)
    requires c.osc.SweepPulse? && f <= MAX_FREQUENCY
    ensures r.frequency == f && r.osc.SweepPulse? && r.osc.sweep.shadow == f
    ensures r.timer.period == PeriodFor(c.osc, f)
  {
    var SweepPulse(duty, waveform, k, s) := c.osc;
    c.(frequency := f,
       timer := c.timer.(period := (2048 - f) * PULSE_MULTIPLIER),
       osc := SweepPulse(duty, waveform, k, s.(shadow := f)))
  }

  /** `SweepPulseChannel::stepSweep`, clocked at 128 Hz. */
  function StepSweep(c: Channel): (r: Channel)
    requires Valid(c) && c.osc.SweepPulse?
    ensures Valid(r) && r.osc.SweepPulse?
    ensures VisibleOf(r) == VisibleOf(c)
    ensures c.osc.sweep.time == 0 ==> r == c
    ensures c.disabled ==> r.disabled
    ensures r.frequency != c.frequency ==> r.frequency == r.osc.sweep.shadow
    ensures r.timer.timer == c.timer.timer && r.lengthCounter == c.lengthCounter && r.env == c.env
    ensures r.output == c.output && r.lastOutput == c.lastOutput
  {
    var SweepPulse(duty, waveform, k, s) := c.osc;
    if s.time == 0 then c
    else
      var counter := (s.counter + 1) % 256;
      if counter < s.time then c.(osc := SweepPulse(duty, waveform, k, s.(counter := counter)))
      else
        var c0 := c.(osc := SweepPulse(duty, waveform, k, s.(counter := 0)));
        if s.shift == 0 then c0
        else
          var delta := Shr(s.shadow, s.shift);
          if s.subtraction then
            var f := s.shadow - delta;
            if f < 0 then c0 else SweepWrite(c0, f)
          else
            var f := s.shadow + delta;
            if f > MAX_FREQUENCY then c0.(disabled := true) else SweepWrite(c0, f)
  }

  /** The sweep fires when its counter reaches the sweep time. */
  predicate SweepFires(s: Sweep)
  {
    s.time != 0 && (s.counter + 1) % 256 >= s.time
  }

  /** An additive sweep past 2047 disables the channel and leaves the
      frequency, the period and the shadow register alone. */
  lemma SweepOverflowDisables(c: Channel)
    requires Valid(c) && c.osc.SweepPulse?
    requires var s := c.osc.sweep;
             SweepFires(s) && s.shift != 0 && !s.subtraction
             && s.shadow + Shr(s.shadow, s.shift) > MAX_FREQUENCY as int
    ensures var r := StepSweep(c);
            && r.disabled
            && r.frequency == c.frequency
            && r.timer == c.timer
            && r.osc.sweep.shadow == c.osc.sweep.shadow
  {
  }

  /** Otherwise a firing sweep with a non-zero shift always succeeds: the
      subtractive result cannot go below zero, so its early return is never
      taken, and the additive result is at most 2047. */
  lemma SweepUpdatesFrequency(c: Channel)
    requires Valid(c) && c.osc.SweepPulse?
    requires var s := c.osc.sweep;
             SweepFires(s) && s.shift != 0
             && (s.subtraction || s.shadow + Shr(s.shadow, s.shift) <= MAX_FREQUENCY as int)
    ensures var s := c.osc.sweep;
            var f := if s.subtraction then s.shadow - Shr(s.shadow, s.shift)
                     else s.shadow + Shr(s.shadow, s.shift);
            var r := StepSweep(c);
            && 0 <= f <= MAX_FREQUENCY as int
            && r.frequency == f
            && r.osc.sweep.shadow == f
            && r.timer.period == (2048 - f) * PULSE_MULTIPLIER
            && r.disabled == c.disabled
  {
  }

  // ---------------------------------------------------------------- wave ---

  /** `WaveChannel::canAccessRam`. The difference is taken in unsigned 32-bit
      arithmetic, so it is never negative. */
  function CanAccessRam(c: Channel, timestamp: nat): (r: bool)
    requires c.osc.Wave?
    ensures !c.dacOn ==> r
    ensures Valid(c) && c.dacOn ==> (r <==> timestamp % U32 < RAM_ACCESS_THRESHOLD)
  {
    if c.dacOn then (timestamp - c.osc.lastRamAccess) % U32 < RAM_ACCESS_THRESHOLD else true
  }

  /** NR32 volume code 0, 1, 2, 3 selects shift 4 (mute), 0, 1, 2. */
  function VolumeShiftOf(value: bv8): (shift: nat)
    ensures shift == 0 || shift == 1 || shift == 2 || shift == 4
  {
    var code := (value >> 5) & 3;
    if code == 0 then 4 else (code - 1) as nat
  }

  /** `WaveChannel::readVolume`: the NR32 code of a shift. */
  function Nr32Of(shift: nat): bv8
    requires shift <= 4
  {
    [0x20, 0x40, 0x60, 0x00, 0x00][shift]
  }

  /** `WaveChannel::writeVolume`: the shift is applied to the current sample
      at once. */
  function WriteVolume(c: Channel, value: bv8): (r: Channel)
    requires Valid(c) && c.osc.Wave?
    ensures Valid(r) && r.osc.Wave?
    ensures r.osc.volumeShift == VolumeShiftOf(value)
    ensures r.osc.volume == Shr(15, r.osc.volumeShift)
    ensures r.output == Shr(c.osc.sampleBuffer, r.osc.volumeShift)
    ensures ReadVolume(r) == value & 0x60
    ensures r == c.(osc := r.osc, output := r.output)
  {
    var shift := VolumeShiftOf(value);
    c.(osc := c.osc.(volumeShift := shift, volume := Shr(15, shift)),
       output := Shr(c.osc.sampleBuffer, shift))
  }

  function ReadVolume(c: Channel): bv8
    requires c.osc.Wave? && c.osc.volumeShift <= 4
  {
    Nr32Of(c.osc.volumeShift)
  }

  /** The nibble at a wave position: high nibble for even positions, low
      nibble for odd ones. */
  function WaveSample(ram: seq<bv8>, index: nat): (s: nat)
    requires |ram| == WAVE_RAMSIZE && index < 32
    ensures s <= 15
    ensures index % 2 == 0 ==> s == (ram[index / 2] >> 4) as nat
    ensures index % 2 == 1 ==> s == (ram[index / 2] & 0xF) as nat
  {
    var b := ram[index / 2];
    if index % 2 == 1 then (b & 0xF) as nat else (b >> 4) as nat
  }

  /** Muting is a shift by 4 of a 4-bit sample. */
  lemma MuteShiftSilences(sample: nat)
    requires sample <= 15
    ensures Shr(sample, 4) == 0
  {
    assert Pow2(4) == 16;
  }

  // --------------------------------------------------------------- noise ---

  /** The feedback bit of the LFSR: bit 0 xor bit 1. */
  function LfsrFeedback(lfsr: bv16): (b: bv16)
    ensures b <= 1
    ensures b == 1 <==> (lfsr & 1 != (lfsr >> 1) & 1)
  {
    (lfsr & 1) ^ ((lfsr >> 1) & 1)
  }

  /** One LFSR shift: the feedback bit goes into bit 14, and also replaces
      bit 6 in half-width (7-bit) mode. */
  function ClockLfsr(lfsr: bv16, halfWidth: bool): (r: bv16)
    requires lfsr < 0x8000
    ensures r < 0x8000
    ensures (r >> 14) & 1 == LfsrFeedback(lfsr)
    ensures (r >> 6) & 1 == if halfWidth then LfsrFeedback(lfsr) else (lfsr >> 7) & 1
  {
    var result := LfsrFeedback(lfsr);
    var shifted := (lfsr >> 1) | (result << 14);
    if halfWidth then (shifted & 0xFFBF) | (result << 6) else shifted
  }

  /** Every other bit moves down by one place. */
  lemma ClockLfsrShifts(lfsr: bv16)
    requires lfsr < 0x8000
    ensures ClockLfsr(lfsr, false) & 0x3FFF == (lfsr >> 1) & 0x3FFF
    ensures ClockLfsr(lfsr, true) & 0x3FBF == (lfsr >> 1) & 0x3FBF
  {
  }

  /** `NoiseChannel::readNoise`: the low byte of the frequency (NR43). */
  function ReadNoise(c: Channel): bv8
    requires c.osc.Noise?
  {
    (c.frequency % 256) as bv8
  }

  /** The result of a C++ shift whose count may exceed the operand width. */
  datatype Shifted = Defined(value: nat) | Undefined

  /** `NoiseChannel::setPeriod` as written, for any frequency the channel
      can hold: the uint8 `drf` is promoted to a 32-bit `int`, shifted by
      `scf` and stored in a uint32. A shift count of 32 or more is
      undefined. Below that, a result past the `int` range is undefined
      before C++20; C++20 defines the shift modulo 2^32, which is the value
      taken here. */
  function NoisePeriodAsWritten(frequency: nat): (r: Shifted)
    ensures frequency / 16 >= 32 <==> r.Undefined?
  {
    var scf := frequency / 16;
    if scf >= 32 then Undefined else Defined(Shl(NoiseDivisor(frequency), scf) % U32)
  }

  /** The frequency `writeFrequencyMsb` leaves: bits 8-10 from the value,
      the low byte kept. This is what the source does on every channel,
      the noise channel included. */
  function FrequencyWithMsb(frequency: nat, value: bv8): (f: nat)
    ensures f % 256 == frequency % 256 && f / 256 == (value & 7) as nat
    ensures f <= MAX_FREQUENCY
  {
    (value & 7) as nat * 256 + frequency % 256
  }

  /** `writeFrequencyLsb`: the low byte replaced, the rest kept. */
  function FrequencyWithLsb(frequency: nat, value: bv8): (f: nat)
    ensures f % 256 == value as nat && f / 256 == frequency / 256
  {
    frequency / 256 * 256 + value as nat
  }

  /** The NR44 write as written: NR43 = 0xC1 followed by NR44 = 0x81 leaves
      the noise frequency at 0x1C1, whose shift-clock field is 28. The
      period `16 << 28` overflows `int`: undefined before C++20, and 0
      under C++20's modulo-2^32 rule, which is the reading taken. The restart of the same write then
      loads the timer with 0, and the step loop advances by
      `min(0, cycles) = 0` forever. */
  lemma NoiseTriggerZeroPeriod()
    ensures FrequencyWithMsb(0xC1, 0x81) == 0x1C1
    ensures 0x1C1 > FrequencyLimit(Noise(true, false, LFSR_INIT))
    ensures NoisePeriodAsWritten(0x1C1) == Defined(0)
  {
    assert Pow2(4) == 16;
    Pow2Add(4, 4);
    Pow2Add(8, 8);
    Pow2Add(16, 8);
    Pow2Add(24, 4);
  }

  // ----------------------------------------------------- ChannelBase ops ---

  /** `setDacEnable`: turning the DAC off disables the channel; turning it
      on does not re-enable it. */
  function SetDacEnable(c: Channel, enabled: bool): (r: Channel)
    ensures r.dacOn == enabled
    ensures r.disabled <==> (c.disabled || !enabled)
    ensures r == c.(dacOn := enabled, disabled := r.disabled)
    ensures Valid(c) ==> Valid(r)
  {
    c.(dacOn := enabled, disabled := c.disabled || !enabled)
  }

  /** `stepLengthCounter`, clocked at 256 Hz. */
  function StepLengthCounter(c: Channel): (r: Channel)
    ensures !c.lengthEnabled ==> r == c
    ensures c.lengthEnabled && c.lengthCounter == 0 ==> r == c.(disabled := true)
    ensures c.lengthEnabled && c.lengthCounter > 0 ==> r == c.(lengthCounter := c.lengthCounter - 1)
    ensures c.disabled ==> r.disabled
    ensures Valid(c) ==> Valid(r) && VisibleOf(r) == VisibleOf(c)
  {
    if !c.lengthEnabled then c
    else if c.lengthCounter == 0 then c.(disabled := true)
    else c.(lengthCounter := c.lengthCounter - 1)
  }

  function StepLengthCounterTimes(c: Channel, n: nat): Channel
    decreases n
  {
    if n == 0 then c else StepLengthCounterTimes(StepLengthCounter(c), n - 1)
  }

  /** With length enabled, a counter of `n` disables the channel on the
      clock after it reaches 0: the first `n` clocks only count down and
      leave the disable flag alone, clock `n + 1` disables. So a counter of
      1 needs two clocks. */
  lemma {:induction false} LengthCounterExpires(c: Channel, k: nat)
    requires c.lengthEnabled && k <= c.lengthCounter
    ensures StepLengthCounterTimes(c, k) == c.(lengthCounter := c.lengthCounter - k)
    ensures k == c.lengthCounter ==>
      StepLengthCounterTimes(c, k + 1) == c.(lengthCounter := 0, disabled := true)
    decreases k
  {
    if k > 0 {
      LengthCounterExpires(StepLengthCounter(c), k - 1);
    } else {
      assert StepLengthCounterTimes(c, 1) == StepLengthCounterTimes(StepLengthCounter(c), 0);
    }
  }

  /** `writeLengthCounter`: the value is loaded as is. */
  function WriteLengthCounter(c: Channel, value: nat): (r: Channel)
    ensures r.lengthCounter == value
    ensures r == c.(lengthCounter := value)
    ensures Valid(c) ==> Valid(r)
  {
    c.(lengthCounter := value)
  }

  /** The virtual `setPeriod`: recomputes the period from the frequency;
      the noise channel also decodes the width and shift-clock fields. The
      timer's counter is left alone. */
  function SetPeriod(c: Channel): (r: Channel)
    requires c.frequency <= FrequencyLimit(c.osc)
    ensures r.timer == Timer(c.timer.timer, PeriodFor(c.osc, c.frequency))
    ensures SameKind(r.osc, c.osc)
    ensures !c.osc.Noise? ==> r == c.(timer := r.timer)
    ensures c.osc.Noise? ==>
      && r.osc.halfWidth == ((c.frequency / 8) % 2 == 1)
      && (r.osc.validScf <==> c.frequency / 16 < 14)
      && r.osc.lfsr == c.osc.lfsr
      && r == c.(timer := r.timer, osc := r.osc)
  {
    var t := c.timer.(period := PeriodFor(c.osc, c.frequency));
    if c.osc.Noise? then
      c.(timer := t, osc := c.osc.(halfWidth := (c.frequency / 8) % 2 == 1, validScf := c.frequency / 16 < 14))
    else c.(timer := t)
  }

  /** `writeFrequencyLsb` (NRx3; NR43 for the noise channel). */
  function WriteFrequencyLsb(c: Channel, value: bv8): (r: Channel)
    requires Valid(c)
    ensures Valid(r)
    ensures r.frequency % 256 == value as nat
    ensures r.frequency / 256 == c.frequency / 256
    ensures r.timer == Timer(c.timer.timer, PeriodFor(c.osc, r.frequency))
    ensures r.disabled == c.disabled && r.dacOn == c.dacOn && r.lengthEnabled == c.lengthEnabled
    ensures SameKind(r.osc, c.osc)
  {
    SetPeriod(c.(frequency := FrequencyWithLsb(c.frequency, value)))
  }

  /** The restart the virtual `restart` of each class performs. */
  function BaseRestart(c: Channel): (r: Channel)
    ensures r.timer == Timer(c.timer.period, c.timer.period)
    ensures r.lengthCounter == if c.lengthCounter == 0 then LengthMax(c.osc) else c.lengthCounter
    ensures r.disabled == !c.dacOn
    ensures r == c.(timer := r.timer, lengthCounter := r.lengthCounter, disabled := r.disabled)
  {
    c.(timer := c.timer.(timer := c.timer.period),
       lengthCounter := if c.lengthCounter == 0 then LengthMax(c.osc) else c.lengthCounter,
       disabled := !c.dacOn)
  }

  /** The envelope half of `EnvChannelBase::restart`. */
  function EnvLatch(e: Envelope): (r: Envelope)
    ensures ValidEnvelope(r)
    ensures r.period == (e.register & 7) as nat
    ensures r.amplify == (e.register & 8 != 0)
    ensures r.volume == (e.register >> 4) as nat
    ensures r.counter == 0 && r.register == e.register
  {
    Envelope(e.register, 0, (e.register & 7) as nat, e.register & 8 != 0, (e.register >> 4) as nat)
  }

  /** The virtual `restart` (a trigger: bit 7 of NRx4). */
  function Restart(c: Channel): (r: Channel)
    ensures SameKind(r.osc, c.osc)
    ensures r.timer == Timer(c.timer.period, c.timer.period)
    ensures r.lengthCounter == if c.lengthCounter == 0 then LengthMax(c.osc) else c.lengthCounter
    ensures r.disabled == !c.dacOn && r.dacOn == c.dacOn
    ensures r.frequency == c.frequency && r.lengthEnabled == c.lengthEnabled
    ensures r.lastOutput == c.lastOutput
    ensures !c.osc.Wave? ==> r.env == EnvLatch(c.env)
    ensures c.osc.Wave? ==> r.env == c.env
    ensures IsSquare(c.osc) ==> r.osc.duty == c.osc.duty && r.osc.dutyCounter == c.osc.dutyCounter
    ensures c.osc.SweepPulse? ==> r.osc.sweep == SweepLatch(c.osc.sweep, c.frequency)
    ensures c.osc.Wave? ==>
      r.osc == c.osc.(waveIndex := 0) && r.output == c.output
    ensures c.osc.Noise? ==>
      r.osc == c.osc.(lfsr := LFSR_INIT) && r.output == 0
  {
    match c.osc
    case Pulse(_, _, _) => BaseRestart(c.(env := EnvLatch(c.env)))
    case SweepPulse(duty, waveform, k, sweep) =>
      BaseRestart(c.(env := EnvLatch(c.env), osc := SweepPulse(duty, waveform, k, SweepLatch(sweep, c.frequency))))
    case Wave(last, shift, volume, _, sample, ram) =>
      BaseRestart(c.(osc := Wave(last, shift, volume, 0, sample, ram)))
    case Noise(valid, half, _) =>
      BaseRestart(c.(env := EnvLatch(c.env), osc := Noise(valid, half, LFSR_INIT), output := 0))
  }

  /** A restart keeps the invariant and changes nothing the registers show. */
  lemma RestartValid(c: Channel)
    requires Valid(c)
    ensures Valid(Restart(c)) && VisibleOf(Restart(c)) == VisibleOf(c)
  {
  }

  /** `writeFrequencyMsb` (NRx4): frequency bits 8-10, the length enable
      from bit 6 and a restart when bit 7 is set. On the noise channel the
      frequency is left alone: only bits 6 and 7 of NR44 have a meaning
      there (see `NoiseTriggerZeroPeriod` for the write as the source has it). */
  function WriteFrequencyMsb(c: Channel, value: bv8): (r: Channel)
    requires Valid(c)
    ensures Valid(r)
    ensures !c.osc.Noise? ==> r.frequency == FrequencyWithMsb(c.frequency, value)
    ensures c.osc.Noise? ==> r.frequency == c.frequency
    ensures r.timer.period == PeriodFor(c.osc, r.frequency)
    ensures r.lengthEnabled == (value & 0x40 != 0)
    ensures r.dacOn == c.dacOn
    ensures value & 0x80 == 0 ==> r.disabled == c.disabled && r.timer.timer == c.timer.timer
    ensures value & 0x80 != 0 ==> r.disabled == !c.dacOn && r.timer.timer == r.timer.period
    ensures SameKind(r.osc, c.osc)
  {
    var f := if c.osc.Noise? then c.frequency else FrequencyWithMsb(c.frequency, value);
    var c1 := SetPeriod(c.(frequency := f)).(lengthEnabled := value & 0x40 != 0);
    if value & 0x80 != 0 then RestartValid(c1); Restart(c1) else c1
  }

  /** On the noise channel an NR44 write never changes the frequency, so
      the period stays at least 8 cycles and the timer keeps advancing. */
  lemma NoiseTriggerKeepsPeriod(c: Channel, value: bv8)
    requires Valid(c) && c.osc.Noise?
    ensures var r := WriteFrequencyMsb(c, value);
            && r.frequency == c.frequency <= 0xFF
            && r.timer.period == NoisePeriod(c.frequency) >= NOISE_DEFAULT_PERIOD
            && r.timer.timer > 0
  {
  }

  // ------------------------------------------------------ EnvChannelBase ---

  /** `writeEnvelope`: the DAC is on iff any of bits 3-7 is set; the byte is
      stored as is for `readEnvelope`. */
  function WriteEnvelope(c: Channel, value: bv8): (r: Channel)
    ensures r.dacOn == (value & 0xF8 != 0)
    ensures r.env.register == value
    ensures r.disabled == (c.disabled || value & 0xF8 == 0)
    ensures r == c.(dacOn := r.dacOn, disabled := r.disabled, env := c.env.(register := value))
    ensures Valid(c) ==> Valid(r)
  {
    var d := SetDacEnable(c, value & 0xF8 != 0);
    d.(env := d.env.(register := value))
  }

  /** The saturating step of the volume: up when amplifying, down otherwise,
      within 0..15. */
  function VolumeStep(volume: nat, amplify: bool): (v: nat)
    requires volume <= 15
    ensures v <= 15
    ensures amplify ==> v == if volume < 15 then volume + 1 else 15
    ensures !amplify ==> v == if volume > 0 then volume - 1 else 0
  {
    if amplify then (if volume < 15 then volume + 1 else volume)
    else (if volume > 0 then volume - 1 else volume)
  }

  /** One 64 Hz clock of an envelope (the body of `stepEnvelope`). The
      counter is a uint8. */
  function EnvelopeClock(e: Envelope): (r: Envelope)
    requires ValidEnvelope(e)
    ensures ValidEnvelope(r)
    ensures e.period == 0 ==> r == e
    ensures r.register == e.register && r.period == e.period && r.amplify == e.amplify
  {
    if e.period == 0 then e
    else
      var k := (e.counter + 1) % 256;
      if k == e.period then e.(counter := 0, volume := VolumeStep(e.volume, e.amplify))
      else e.(counter := k)
  }

  function EnvelopeClockTimes(e: Envelope, n: nat): (r: Envelope)
    requires ValidEnvelope(e)
    ensures ValidEnvelope(r)
    decreases n
  {
    if n == 0 then e else EnvelopeClockTimes(EnvelopeClock(e), n - 1)
  }

  /** With a non-zero period the volume holds for `period - 1` clocks and
      takes one saturating step on clock `period`, which also rearms the
      counter. */
  lemma {:induction false} EnvelopeStepsEveryPeriod(e: Envelope, k: nat)
    requires ValidEnvelope(e) && e.period > 0 && e.counter + k < e.period
    ensures EnvelopeClockTimes(e, k) == e.(counter := e.counter + k)
    ensures e.counter + k + 1 == e.period ==>
      EnvelopeClockTimes(e, k + 1) == e.(counter := 0, volume := VolumeStep(e.volume, e.amplify))
    decreases k
  {
    if k > 0 {
      var e1 := EnvelopeClock(e);
      assert e1 == e.(counter := e.counter + 1);
      EnvelopeStepsEveryPeriod(e1, k - 1);
      if e.counter + k + 1 == e.period {
        assert EnvelopeClockTimes(e, k + 1) == EnvelopeClockTimes(e1, k);
      }
    } else {
      assert EnvelopeClockTimes(e, 1) == EnvelopeClockTimes(EnvelopeClock(e), 0);
    }
  }

  /** `stepEnvelope` on a channel. */
  function StepEnvelope(c: Channel): (r: Channel)
    requires Valid(c)
    ensures Valid(r) && VisibleOf(r) == VisibleOf(c)
    ensures r == c.(env := EnvelopeClock(c.env))
  {
    c.(env := EnvelopeClock(c.env))
  }

  function ReadEnvelope(c: Channel): bv8
  {
    c.env.register
  }

  // ---------------------------------------------------------------- reset ---

  function BaseReset(c: Channel): (r: Channel)
    ensures r.timer == New(DefaultPeriod(c.osc))
    ensures !r.dacOn && r.disabled && r.frequency == 0 && r.lengthCounter == 0 && !r.lengthEnabled
    ensures r.lastOutput == 0 && r.output == c.output && r.osc == c.osc && r.env == c.env
  {
    c.(dacOn := false, disabled := true, frequency := 0, lengthCounter := 0, lengthEnabled := false,
       timer := New(DefaultPeriod(c.osc)), lastOutput := 0)
  }

  function EnvReset(c: Channel): (r: Channel)
    ensures r == BaseReset(c).(env := Envelope(0, 0, 0, false, 0))
  {
    BaseReset(c).(env := Envelope(0, 0, 0, false, 0))
  }

  /** The virtual `reset`. The square channels and the wave channel end
      with a restart (which reloads the cleared length counter); channel 1
      restarts twice, the second time with NR10 cleared. The noise channel
      keeps its width flag and its output. */
  function Reset(c: Channel): (r: Channel)
    requires Valid(c)
    ensures Valid(r) && SameKind(r.osc, c.osc)
    ensures !r.dacOn && r.disabled && r.frequency == 0 && !r.lengthEnabled
    ensures r.timer == New(DefaultPeriod(c.osc)) && r.lastOutput == 0
    ensures r.lengthCounter == if c.osc.Noise? then 0 else LengthMax(c.osc)
    ensures !c.osc.Wave? ==> r.env.register == 0 && r.env.volume == 0
    ensures IsSquare(c.osc) ==> r.osc.duty == 3 && r.osc.dutyCounter == 0
    ensures c.osc.SweepPulse? ==> r.osc.sweep == Sweep(false, 0, 0, 0, 0, 0)
    ensures c.osc.Wave? ==>
      && r.osc.waveram == Zeroes(WAVE_RAMSIZE) && r.osc.sampleBuffer == 0
      && r.osc.volumeShift == 0 && r.osc.waveIndex == 0 && r.osc.volume == 15
    ensures c.osc.Noise? ==> r.osc.lfsr == LFSR_INIT && r.osc.validScf && r.output == c.output
  {
    match c.osc
    case Pulse(duty, waveform, _) =>
      var p := WriteDuty(EnvReset(c.(osc := Pulse(duty, waveform, 0))), 3);
      RestartValid(p);
      Restart(p)
    case SweepPulse(duty, waveform, _, sweep) =>
      var p := WriteDuty(EnvReset(c.(osc := SweepPulse(duty, waveform, 0, sweep))), 3);
      RestartValid(p);
      var q := WriteSweep(Restart(p), 0);
      RestartValid(q);
      Restart(q)
    case Wave(_, _, _, index, _, _) =>
      var w := BaseReset(c.(osc := Wave(0, 0, 15, index, 0, Zeroes(WAVE_RAMSIZE))));
      RestartValid(w);
      Restart(w)
    case Noise(_, half, _) =>
      EnvReset(c.(osc := Noise(true, half, LFSR_INIT)))
  }

  // ------------------------------------------------------------- stepping ---

  /** `PulseChannel::stepOscillator`: the duty counter moves on modulo 8
      and the output follows the waveform bit it lands on. */
  function PulseStep(c: Channel): (r: Channel)
    requires Valid(c) && IsSquare(c.osc)
    ensures Valid(r) && SameKind(r.osc, c.osc) && VisibleOf(r) == VisibleOf(c)
    ensures r.osc.dutyCounter == (c.osc.dutyCounter + 1) % 8
    ensures r.output == PulseOutput(c.osc.waveform, r.osc.dutyCounter, c.env.volume)
    ensures r == c.(osc := r.osc, output := r.output)
  {
    match c.osc
    case Pulse(duty, waveform, counter) =>
      var k := (counter + 1) % 8;
      c.(osc := Pulse(duty, waveform, k), output := PulseOutput(waveform, k, c.env.volume))
    case SweepPulse(duty, waveform, counter, sweep) =>
      var k := (counter + 1) % 8;
      c.(osc := SweepPulse(duty, waveform, k, sweep), output := PulseOutput(waveform, k, c.env.volume))
  }

  /** `WaveChannel::stepOscillator`: the position moves on modulo 32, the
      sample buffer takes the nibble there and the output is the sample
      shifted by the volume code. */
  function WaveStep(c: Channel): (r: Channel)
    requires Valid(c) && c.osc.Wave?
    ensures Valid(r) && r.osc.Wave? && VisibleOf(r) == VisibleOf(c)
    ensures r.osc.waveIndex == (c.osc.waveIndex + 1) % 32
    ensures r.osc.sampleBuffer == WaveSample(c.osc.waveram, r.osc.waveIndex)
    ensures r.output == Shr(r.osc.sampleBuffer, c.osc.volumeShift)
    ensures r == c.(osc := r.osc, output := r.output)
  {
    var Wave(last, shift, volume, index, _, ram) := c.osc;
    var i := (index + 1) % 32;
    var sample := WaveSample(ram, i);
    c.(osc := Wave(last, shift, volume, i, sample, ram), output := Shr(sample, shift))
  }

  /** `NoiseChannel::stepOscillator`: with a usable shift clock the LFSR
      shifts once and the output is the volume when bit 0 is clear. */
  function NoiseStep(c: Channel): (r: Channel)
    requires Valid(c) && c.osc.Noise?
    ensures Valid(r) && r.osc.Noise? && VisibleOf(r) == VisibleOf(c)
    ensures !c.osc.validScf ==> r == c
    ensures c.osc.validScf ==>
      && r.osc.lfsr == ClockLfsr(c.osc.lfsr, c.osc.halfWidth)
      && r.output == (if r.osc.lfsr & 1 == 0 then c.env.volume else 0)
    ensures r == c.(osc := r.osc, output := r.output)
  {
    var Noise(valid, half, lfsr) := c.osc;
    if !valid then c
    else
      var l := ClockLfsr(lfsr, half);
      c.(osc := Noise(valid, half, l), output := if l & 1 == 0 then c.env.volume else 0)
  }

  /** The virtual `stepOscillator`, run each time the channel's timer fires. */
  function StepOscillator(c: Channel): (r: Channel)
    requires Valid(c)
    ensures Valid(r) && SameKind(r.osc, c.osc) && VisibleOf(r) == VisibleOf(c)
    ensures r == c.(osc := r.osc, output := r.output)
  {
    if IsSquare(c.osc) then PulseStep(c)
    else if c.osc.Wave? then WaveStep(c)
    else NoiseStep(c)
  }

  /** One chunk of the step loop: the timer runs to its next fire or to the
      end of the cycles, and the oscillator steps if it fired. */
  function StepChunk(c: Channel, cycles: nat): (r: Channel)
    requires Valid(c) && cycles > 0
    ensures Valid(r) && SameKind(r.osc, c.osc) && VisibleOf(r) == VisibleOf(c)
    ensures r.lastOutput == c.lastOutput && r.disabled == c.disabled && r.frequency == c.frequency
    ensures r.env == c.env && r.lengthCounter == c.lengthCounter
    ensures Elapse(r.timer, cycles - Min(c.timer.timer, cycles)) == Elapse(c.timer, cycles)
  {
    var n := Min(c.timer.timer, cycles);
    var (t, fired) := StepTimer(c.timer, n);
    ElapseChunk(c.timer, cycles);
    var c1 := c.(timer := t);
    if fired then StepOscillator(c1) else c1
  }

  /** `stepImpl` in mute mode: the oscillator runs, nothing is mixed, and at
      the end the last output catches up with the output. */
  function RunMuted(c: Channel, cycles: nat): (r: Channel)
    requires Valid(c)
    ensures Valid(r) && SameKind(r.osc, c.osc) && VisibleOf(r) == VisibleOf(c)
    ensures r.timer == Elapse(c.timer, cycles)
    ensures r.lastOutput == r.output
    ensures r.disabled == c.disabled && r.frequency == c.frequency
    ensures r.env == c.env && r.lengthCounter == c.lengthCounter
    decreases cycles
  {
    if cycles == 0 then c.(lastOutput := c.output)
    else RunMuted(StepChunk(c, cycles), cycles - Min(c.timer.timer, cycles))
  }

  /** The change of output a channel hands to the mixer before a chunk: one
      event when the output moved since it was last mixed, none otherwise. */
  function ChangeEvent(c: Channel, time: nat): (ev: seq<MixEvent>)
    ensures SumDeltas(ev) == c.output - c.lastOutput
    ensures forall i :: 0 <= i < |ev| ==> ev[i].time == time
  {
    if c.lastOutput != c.output then [MixEvent(c.output - c.lastOutput, time)] else []
  }

  /** The channel after the change is mixed and one chunk has run. */
  function AudibleNext(c: Channel, cycles: nat): (r: Channel)
    requires Valid(c) && cycles > 0
    ensures Valid(r) && SameKind(r.osc, c.osc) && VisibleOf(r) == VisibleOf(c)
    ensures r.lastOutput == c.output
    ensures r.disabled == c.disabled && r.frequency == c.frequency
    ensures r.env == c.env && r.lengthCounter == c.lengthCounter
    ensures Elapse(r.timer, cycles - Min(c.timer.timer, cycles)) == Elapse(c.timer, cycles)
  {
    StepChunk(c.(lastOutput := c.output), cycles)
  }

  /** `stepImpl` in an audible mode: before each chunk, a change of output
      is handed to the mixer at the current cycle and remembered. The
      changes add up to the change of the last output, and all fall inside
      the run. */
  function RunAudible(c: Channel, time: nat, cycles: nat): (r: (Channel, seq<MixEvent>))
    requires Valid(c)
    ensures Valid(r.0) && SameKind(r.0.osc, c.osc) && VisibleOf(r.0) == VisibleOf(c)
    ensures r.0.timer == Elapse(c.timer, cycles)
    ensures r.0.disabled == c.disabled && r.0.frequency == c.frequency
    ensures r.0.env == c.env && r.0.lengthCounter == c.lengthCounter
    ensures SumDeltas(r.1) == r.0.lastOutput - c.lastOutput
    ensures forall i :: 0 <= i < |r.1| ==> time <= r.1[i].time < time + cycles
    ensures cycles == 0 ==> r == (c, [])
    decreases cycles
  {
    if cycles == 0 then (c, [])
    else
      var n := Min(c.timer.timer, cycles);
      var ev := ChangeEvent(c, time);
      var rest := RunAudible(AudibleNext(c, cycles), time + n, cycles - n);
      SumDeltasAppend(ev, rest.1);
      EventsWithin(ev, rest.1, time, time + n, time + cycles);
      (rest.0, ev + rest.1)
  }

  /** Events at the start of a span followed by events inside its tail all
      fall inside the span. */
  lemma EventsWithin(ev: seq<MixEvent>, rest: seq<MixEvent>, start: nat, mid: nat, end: nat)
    requires start <= mid
    requires forall i :: 0 <= i < |ev| ==> ev[i].time == start
    requires start < end || |ev| == 0
    requires forall i :: 0 <= i < |rest| ==> mid <= rest[i].time < end
    ensures forall i :: 0 <= i < |ev + rest| ==> start <= (ev + rest)[i].time < end
  {
    forall i | 0 <= i < |ev + rest|
      ensures start <= (ev + rest)[i].time < end
    {
      if i >= |ev| {
        assert (ev + rest)[i] == rest[i - |ev|];
      }
    }
  }

  /** `ChannelBase::step`. Nothing happens while the DAC is off (the timer
      does not advance). A disabled channel runs muted and ends silent,
      after the mixer is told to drop its last output. A period below the
      channel's minimum, or a mode that pans nowhere, runs muted. */
  function Step(c: Channel, mode: bv8, time: nat, cycles: nat): (r: (Channel, seq<MixEvent>))
    requires Valid(c)
    ensures Valid(r.0) && SameKind(r.0.osc, c.osc) && VisibleOf(r.0) == VisibleOf(c)
    ensures !c.dacOn ==> r == (c, [])
    ensures c.dacOn ==> r.0.timer == Elapse(c.timer, cycles)
    ensures r.0.disabled == c.disabled && r.0.frequency == c.frequency
    ensures r.0.env == c.env && r.0.lengthCounter == c.lengthCounter
    ensures c.dacOn && c.disabled ==> r.0.output == 0 && r.0.lastOutput == 0
    ensures c.dacOn && !c.disabled && !(MixModes.Audible(mode) && c.timer.period >= MinPeriod(c.osc)) ==>
      r.0.lastOutput == r.0.output && r.1 == []
  {
    if !c.dacOn then (c, [])
    else if c.disabled then
      var ev := if c.lastOutput != 0 then [MixEvent(-(c.lastOutput as int), time)] else [];
      (RunMuted(c, cycles).(output := 0, lastOutput := 0), ev)
    else if c.timer.period < MinPeriod(c.osc) || !MixModes.Audible(mode) then (RunMuted(c, cycles), [])
    else RunAudible(c, time, cycles)
  }

  /** On a disabled channel (whatever the mode), and on an audible one,
      what a step hands to the mixer adds up to the change of the channel's
      last output; every change falls inside the step. */
  lemma StepEvents(c: Channel, mode: bv8, time: nat, cycles: nat)
    requires Valid(c)
    ensures var r := Step(c, mode, time, cycles);
            c.disabled || (MixModes.Audible(mode) && c.timer.period >= MinPeriod(c.osc)) ==>
            SumDeltas(r.1) == r.0.lastOutput - c.lastOutput
    ensures var r := Step(c, mode, time, cycles);
            forall i :: 0 <= i < |r.1| ==> time <= r.1[i].time <= time + cycles
  {
  }

  // --------------------------------------------------------- channel file ---

  /** `ChannelFile`: channel 1 sweeps, channel 2 is a plain square, then the
      wave and noise channels. */
  datatype ChannelFile = ChannelFile(ch1: Channel, ch2: Channel, ch3: Channel, ch4: Channel)

  ghost predicate ValidFile(cf: ChannelFile)
  {
    && Valid(cf.ch1) && cf.ch1.osc.SweepPulse?
    && Valid(cf.ch2) && cf.ch2.osc.Pulse?
    && Valid(cf.ch3) && cf.ch3.osc.Wave?
    && Valid(cf.ch4) && cf.ch4.osc.Noise?
  }

  function NewFile(): (cf: ChannelFile)
    ensures ValidFile(cf)
    ensures cf.ch1.osc.SweepPulse? && cf.ch2.osc.Pulse? && cf.ch3.osc.Wave? && cf.ch4.osc.Noise?
    ensures Initial(cf.ch1, 8192) && Initial(cf.ch2, 8192) && Initial(cf.ch3, 4096) && Initial(cf.ch4, 8)
  {
    ChannelFile(NewSweepPulse(), NewPulse(), NewWave(), NewNoise())
  }
}
