# gbapu in Dafny

This project models the integer core of gbapu, a Game Boy audio processing
unit (APU) emulator. It covers both generations of the core that live side by
side in the repository.

**The class hierarchy that `Apu` drives.** Modules `Bits`, `Constants`,
`MixModes`, `Timers`, `Channels`, `FrameSequencer` and `Gbapu` model:

- `Timer::stepTimer`;
- `ChannelBase`/`EnvChannelBase`: the length counter, the DAC, the
  frequency registers, restart and reset, the envelope, and the step loop;
- the oscillators: the pulse duty, the channel 1 sweep, the wave RAM and
  the noise LFSR;
- the 5-entry frame `Sequencer`;
- the `Apu` register file: power gating, read masks, NR50/NR51/NR52, wave
  RAM gating, `step` and `stepTo`;
- the `MixMode` bit helpers.

**The self-contained rewrite of src/_internal.cpp.** Modules
`InternalTimer`, `InternalChannels`, `InternalFastForward`, `InternalModulators` and
`InternalHardware` model:

- the stand-alone `LengthCounter`, `Envelope` and `Sweep` objects;
- `Timer::run` and the closed-form `Timer::fastforward`;
- the channels with their `clock` and `fastforward`;
- `Sequencer::run` and `Hardware::run`.

Each C++ channel class becomes one `Channel` record with an `Osc` variant per
oscillator kind, and the virtual calls become a match on that variant. State
is immutable: every operation is a function, or a method with a loop, that
returns the new state. The mixer is a sink. Stepping a channel returns the
transitions it would hand to the mixer as integer (delta, time) events, and
the contracts say that those deltas add up to the change in the channel's
last output level and fall inside the stepped interval.

The main results:

- **Timers.** `fastforward` equals chunked `run`. It can be split at any
  point, and it counts fires exactly. A channel's `fastforward` equals
  clocking it once per fire.
- **Invariants.** Every operation keeps these: a channel is enabled only
  while its DAC is on; the envelope volume stays within 0..15; the sweep
  frequency stays within 0..2047; the LFSR stays below 2^15.
- **Frame sequencer.** It runs through its five triggers in table order.
  Five triggers take 65536 cycles and return to the same state. They clock
  the length counters 4 times, the sweep twice and the envelopes once.
- **Registers.** For every register, a read after a write returns the
  source's read mask applied to the written value. Powering off clears
  every register and turns every DAC off.
- **The step loops.** Both loops consume exactly the cycles asked for, in
  chunks that never overrun the sequencer's counter. Each loop ends in the
  state a chunk-by-chunk recursion gives (`Gbapu.SteppedTo`,
  `InternalHardware.RunState` and `RunEvents`). In each chunk the channels
  run and the sequencer's fire clocks the length counters, the sweep or the
  envelopes.

## Model

| member | source | states |
|---|---|---|
| Timers.New | src/Timer.cpp:8-12 | A new timer has counter and period equal to the given period, and runs when the period is positive. |
| Timers.StepTimer | src/Timer.cpp:14-25 | Requires cycles ≤ counter. It fires exactly when the counter reaches 0 and then reloads the period; otherwise the counter drops by exactly `cycles` and stays positive. The period is never touched. |
| Timers.ElapseChunk | src/Timer.cpp:14-25 | One `stepTimer` chunk of `min(counter, remaining)` cycles, as the callers' chunk loops take it, moves the closed-form counter and fire count along, so a chunked loop reaches the same state as one closed-form jump. |
| Timers.RunIsElapse | src/Timer.cpp:14-25 | Repeated `stepTimer` in chunks of `min(counter, remaining)` ends at the closed-form counter and fires the closed-form number of times. |
| Timers.TimerMayExceedPeriod | src/Timer.cpp:14-25 | counter ≤ period is not an invariant: a counter of 10 with period 4 stays above the period after a step of 3. |
| MixModes.Compose | include/gbapu.hpp:30-44 | The mode built from the quality, left and right flags has exactly those flags. |
| MixModes.ComposeFlags | include/gbapu.hpp:35-60 | Every one of the eight modes is rebuilt from its three flag tests, so the tests decode the enumeration exactly. |
| MixModes.SetQuality | include/gbapu.hpp:62-68 | The quality bit becomes the given flag and the panning bits stay as they were. |
| MixModes.SetPanning | include/gbapu.hpp:70-74 | For a panning with only bits 0 and 4 set: the result pans right iff bit 0 is set and left iff bit 4 is set, and the quality bit is kept. |
| Constants.MirrorIndex | include/gbapu.hpp:433-466 | NR10..NR52 map into the 23-byte register mirror, NR10 first and NR52 last. |
| Channels.NoisePeriod | src/_internal/NoiseChannel.cpp:54-67 | For a byte frequency the period is the divisor (8 for drf 0, else 16·drf) times 2^scf, and is at least 8. |
| Channels.NewPulse | src/_internal/PulseChannel.cpp:34-40 | A new pulse channel has duty 3 (waveform 0x7E) and duty counter 0. Its timer counter and period are 8192, frequency and outputs are 0, the DAC is off, the channel is disabled, the length counter is 0 and not enabled, and the envelope fields are all 0. |
| Channels.NewSweepPulse | src/SweepPulseChannel.cpp:6-15 | Channel 1 starts as a new pulse channel. Its sweep is not subtracting, and time, shift, counter, register and shadow are all 0. |
| Channels.NewWave | src/_internal/WaveChannel.cpp:27-36 | A new wave channel has 16 zeroed RAM bytes, shift 0 and volume 15. Its wave index, sample buffer and last RAM access are 0, and it has period 4096. Like every new channel it has its DAC off, is disabled and has length counter 0. |
| Channels.NewNoise | src/_internal/NoiseChannel.cpp:8-14 | A new noise channel has LFSR 0x7FFF, a valid scf, the full 15-bit width and period 8. Like every new channel it has its DAC off, is disabled and has length counter 0. |
| Channels.DutyWaveformIsMaskByte | src/_internal/PulseChannel.cpp:16-26 | Duty byte `d` of the 0x7EE18180 mask is 0x80, 0x81, 0xE1 or 0x7E for duty 0..3. |
| Channels.DutyWaveforms | src/_internal/PulseChannel.cpp:10-14 | The four waveforms have 1, 2, 4 and 6 high steps out of 8. |
| Channels.PulseOutput | src/_internal/PulseChannel.cpp:63-71 | The output is the volume when the waveform bit at the duty step is set, else 0. |
| Channels.WriteDuty | src/_internal/PulseChannel.cpp:58-61 | The duty is stored and the waveform becomes the duty's byte of the mask. The duty step and everything else are kept. |
| Channels.ReadDuty | src/_internal/PulseChannel.cpp:42-44 | The read is the duty in bits 6-7 and zero below. |
| Channels.WriteSweep | src/SweepPulseChannel.cpp:36-38 | The register keeps bits 0-6 of the value, and `readSweep` returns exactly that. |
| Channels.SweepLatch | src/SweepPulseChannel.cpp:27-34 | On restart, shift = bits 0-2, subtraction = bit 3, time = bits 4-6, counter 0 and shadow = frequency. |
| Channels.SweepWrite | src/SweepPulseChannel.cpp:59-63 | A write-back sets the frequency and the shadow to the new value, and the period follows the frequency. |
| Channels.StepSweep | src/SweepPulseChannel.cpp:40-67 | Time 0 changes nothing. A disabled channel stays disabled. A changed frequency equals the new shadow. The counter, output and length are untouched. |
| Channels.SweepOverflowDisables | src/SweepPulseChannel.cpp:51-57 | An addition past 2047 disables the channel and leaves the frequency, the timer and the shadow unchanged. |
| Channels.SweepUpdatesFrequency | src/SweepPulseChannel.cpp:45-63 | The subtraction never goes below 0, so the underflow return is unreachable. Any result ≤ 2047 becomes frequency and shadow, with period (2048−f)·4. |
| Channels.CanAccessRam | src/_internal/WaveChannel.cpp:42-50 | With the DAC off, access is always allowed. With the DAC on, it is allowed iff (timestamp − lastRamAccess) mod 2^32 < 4; the last access is always 0. |
| Channels.WriteVolume | src/_internal/WaveChannel.cpp:79-96 | The shift follows the code, the volume is 15 >> shift, and the output is the sample shifted. `readVolume` then returns exactly `value & 0x60`. |
| Channels.WaveSample | src/_internal/WaveChannel.cpp:98-113 | The sample is the high nibble of byte i/2 for even i and the low nibble for odd i, so it is ≤ 15. |
| Channels.MuteShiftSilences | src/_internal/WaveChannel.cpp:123-125 | Shift 4 turns every 4-bit sample into 0. |
| Channels.LfsrFeedback | src/_internal/NoiseChannel.cpp:37-38 | The feedback bit is 1 iff bits 0 and 1 of the LFSR differ. |
| Channels.ClockLfsr | src/_internal/NoiseChannel.cpp:37-47 | The LFSR stays below 2^15. Bit 14 becomes the feedback, and in half-width mode bit 6 does too; otherwise bit 6 is the old bit 7. |
| Channels.ClockLfsrShifts | src/_internal/NoiseChannel.cpp:39-47 | All bits other than those set by the feedback are the old register shifted right by one. |
| Channels.FrequencyWithMsb | src/_internal/Channel.cpp:129-131 | The low byte is kept and bits 8-10 become `value & 7`, so the frequency is ≤ 2047. |
| Channels.FrequencyWithLsb | src/_internal/Channel.cpp:124-126 | The low byte becomes the value and the high part is kept. |
| Channels.NoisePeriodAsWritten | src/_internal/NoiseChannel.cpp:54-67 | The noise period of any frequency the channel holds, as the code computes it: `drf` promoted to `int` and shifted by scf. The shift is undefined for scf ≥ 32. Below that, the model takes C++20's modulo-2^32 result; before C++20 an overflowing shift is undefined too. |
| Channels.NoiseTriggerZeroPeriod | src/Apu.cpp:266-273 | NR43 = 0xC1 and then NR44 = 0x81 give the noise channel frequency 0x1C1 and a uint32 period of 0 (see Findings). |
| Channels.SetDacEnable | src/_internal/Channel.cpp:44-49 | The DAC flag is set. Turning it off disables the channel; turning it on does not re-enable it. |
| Channels.StepLengthCounter | src/_internal/Channel.cpp:51-59 | It is a no-op when length is disabled. When enabled and at 0 it disables the channel and the counter stays 0; otherwise the counter drops by one. |
| Channels.LengthCounterExpires | src/_internal/Channel.cpp:51-59 | An enabled counter at n takes n clocks to reach 0 and one more to disable the channel, so a counter of 1 needs two clocks. |
| Channels.WriteLengthCounter | src/_internal/Channel.cpp:139-141 | Only the length counter changes. |
| Channels.SetPeriod | src/_internal/PulseChannel.cpp:73-75 | The period is (2048−f)·4 for a square channel, (2048−f)·2 for the wave channel and the noise period for the noise channel. The counter is kept. |
| Channels.WriteFrequencyLsb | src/_internal/Channel.cpp:124-127 | The low byte is replaced and bits 8 and up are kept. The period is recomputed; the counter, the DAC and the flags are kept. |
| Channels.BaseRestart | src/_internal/Channel.cpp:156-162 | The counter reloads the period. The length counter reloads its maximum only if it was 0. The channel is enabled iff its DAC is on. |
| Channels.EnvLatch | src/_internal/Channel.cpp:187-193 | On restart, period = reg & 7, amplify = bit 3, volume = reg >> 4, and counter 0. |
| Channels.Restart | src/_internal/Channel.cpp:156-193 | The base restart plus, per kind: the envelope latch; the sweep latch for channel 1; wave index 0 with the sample buffer kept; LFSR 0x7FFF and output 0 for noise. The duty step is not reset. |
| Channels.RestartValid | src/_internal/Channel.cpp:156-162 | Restart keeps the channel invariant, including enabled ⇒ DAC on, and changes nothing a register read can see. |
| Channels.WriteFrequencyMsb | src/_internal/Channel.cpp:129-137 | Bits 8-10 are set and the low byte kept, except on the noise channel. The period is recomputed and length-enable latches bit 6. Bit 7 restarts the channel; without it, the counter and the disabled flag are kept. |
| Channels.NoiseTriggerKeepsPeriod | src/_internal/NoiseChannel.cpp:54-67 | In the corrected model an NR44 write keeps the noise frequency a byte, so the period stays the noise period (≥ 8) and the counter stays positive. |
| Channels.WriteEnvelope | src/_internal/Channel.cpp:182-185 | The register is stored verbatim. The DAC is on iff `value & 0xF8 != 0`, and a DAC turned off disables the channel. |
| Channels.VolumeStep | src/_internal/Channel.cpp:200-208 | One envelope step goes up iff amplifying and saturates within 0..15. |
| Channels.EnvelopeClock | src/_internal/Channel.cpp:195-211 | Period 0 changes nothing. The register, period and direction never change, and the volume stays within 0..15. |
| Channels.EnvelopeStepsEveryPeriod | src/_internal/Channel.cpp:195-211 | From counter c, clocks only count up until the period; clock `period − c` resets the counter and moves the volume one step. |
| Channels.StepEnvelope | src/_internal/Channel.cpp:195-211 | Only the envelope changes, and the channel invariant holds. |
| Channels.BaseReset | src/_internal/Channel.cpp:143-154 | The DAC is off, the channel disabled, frequency 0, length 0 and disabled, the timer back at the default period, and last output 0. |
| Channels.Reset | src/_internal/PulseChannel.cpp:46-52 | The reset of each kind, including its trailing restart: duty 3 and step 0; a zeroed sweep; zeroed wave RAM with shift 0 and volume 15; LFSR 0x7FFF. |
| Channels.PulseStep | src/_internal/PulseChannel.cpp:63-71 | The duty step advances mod 8 and the output is read from the new step. |
| Channels.WaveStep | src/_internal/WaveChannel.cpp:98-113 | The wave index advances mod 32, the sample buffer is fetched from the new index, and the output is the sample shifted. |
| Channels.NoiseStep | src/_internal/NoiseChannel.cpp:33-52 | An invalid scf changes nothing. Otherwise the LFSR is clocked and the output is the volume iff bit 0 is clear. |
| Channels.StepChunk | src/_internal/Channel.cpp:109-114 | One chunk of the step loop keeps the invariant and moves the timer along its closed form. |
| Channels.RunMuted | src/_internal/Channel.cpp:100-122 | Muted stepping consumes exactly `cycles`, ends at the closed-form counter and sets last output = output. |
| Channels.ChangeEvent | src/_internal/Channel.cpp:103-107 | A changed output hands its difference to the mixer at the current time. |
| Channels.StepOscillator | src/_internal/Channel.cpp:109-112 | Stepping the oscillator on a fire keeps the channel's kind, its invariant and everything a register read shows; only the oscillator and the output change. |
| Channels.RunAudible | src/_internal/Channel.cpp:100-122 | Audible stepping consumes exactly `cycles`. Its event deltas sum to the change in last output, and every event time is within [time, time + cycles). |
| Channels.Step | src/_internal/Channel.cpp:61-97 | With the DAC off nothing happens and the timer does not move. A disabled channel ends with output = last output = 0. A muted or too-fast channel steps silently and ends with last output = output. |
| Channels.StepEvents | src/_internal/Channel.cpp:61-97 | For a disabled channel in any mode, and for an audible step, the events sum to the change in last output. In every case they fall within the stepped interval. |
| Channels.NewFile | include/gbapu.hpp:379-392 | The channel file starts valid. Channel 1 is the sweep pulse channel, 2 the pulse channel, 3 the wave channel and 4 the noise channel. Each is in its constructor's initial state, with periods 8192, 8192, 4096 and 8. |
| FrameSequencer.Reset | src/Sequencer.cpp:46-49 | Period and counter are 16384 and the index is 0. |
| FrameSequencer.Advance | src/Sequencer.cpp:51-75 | Before the fire only the counter drops. On the fire, the index moves to the table's next entry and the counter reloads the old period, which is then replaced by the entry's next period. |
| FrameSequencer.ApplyTrigger | src/Sequencer.cpp:54-70 | `lc` clocks the four length counters. `lcSweep` clocks the sweep of channel 1 first and then the length counters. `env` clocks the envelopes of channels 1, 2 and 4. |
| FrameSequencer.Step | src/Sequencer.cpp:51-75 | The sequencer advances, and the channels change only on a fire, as the table entry says. |
| FrameSequencer.FireAdvances | src/Sequencer.cpp:24-37 | A fire moves the index 0→1→2→3→4→0 and leaves the next gap as the counter. |
| FrameSequencer.FrameOfFiveTriggers | src/Sequencer.cpp:4-37 | From any state aligned on a trigger, five triggers return to the same state after 65536 cycles. They clock the length counters 4 times, the sweep twice and the envelopes once. |
| FrameSequencer.FiresInTableOrder | src/Sequencer.cpp:24-37 | Trigger k after an aligned state is table entry (index + k) mod 5. |
| FrameSequencer.ResetFirstTrigger | src/Sequencer.cpp:4-17 | After a reset the first trigger is `lc`, 16384 cycles later. The gaps after each entry are 16384, 16384, 16384, 8192 and 8192. |
| Gbapu.WithQuality | src/Apu.cpp:439-446 | Low sets no channel to high quality, medium sets only channels 1 and 2, and high sets all four. The panning bits are kept. |
| Gbapu.New | src/Apu.cpp:10-32 | A new APU is powered off at cycle 0 with zeroed registers and volumes 1. Its pannings are four zero modes with the quality flags `updateQuality` sets, so they are silent. It keeps the given model and quality, and its channel file and sequencer are new. |
| Gbapu.Reset | src/Apu.cpp:40-58 | Reset powers off. It zeroes the register mirror and resets the volumes to 1, silences every panning but keeps its quality, and turns every DAC off. |
| Gbapu.ResetModel | src/Apu.cpp:60-63 | Reset with a new model keeps that model. |
| Gbapu.StepChunk | src/Apu.cpp:402-413 | The sequencer advances by the chunk. A chunk that ends on its fire first applies the table entry's trigger to the channels (`ApplyTrigger`: length counters, sweep or envelopes). Then channels 1-4 step from the chunk's start time, and their transitions are appended to the mixer's in channel order. Cycletime moves by the chunk; nothing else changes. |
| Gbapu.ChunkTo | src/Apu.cpp:404 | A chunk is at least one cycle long. It never passes the target time or the sequencer's next fire. |
| Gbapu.SteppedToKeeps | src/Apu.cpp:400-415 | Stepping to a time keeps the invariant and everything a register read sees, and lands exactly on that time. |
| Gbapu.SteppedToAppends | src/Apu.cpp:400-415 | Stepping only appends to what the mixer has received. |
| Gbapu.Step | src/Apu.cpp:400-415 | The loop ends in the state `SteppedTo` gives at cycletime + `cycles`: `StepChunk` after `StepChunk`, each chunk up to the sequencer's next fire. The sequencer lands on its closed form `FrameSequencer.After`. Nothing a register read sees changes, the mixer only gains events, and 0 cycles leave the state alone. |
| Gbapu.StepTo | src/Apu.cpp:417-423 | The result is `SteppedTo` at the given time. A time not after the current one is a no-op; otherwise the APU ends at exactly that time. |
| Gbapu.EndFrame | src/Apu.cpp:425-429 | Ending a frame restarts the cycle counter at 0 and changes nothing else, so nothing a register read sees changes. |
| Gbapu.EndFrameOpensWaveRam | src/Apu.cpp:179 | Right after a frame ends, wave RAM reads as stored. On the DMG with the wave DAC on, the access window is counted from that frame end: at time t it is open iff t mod 2^32 < 4. |
| Gbapu.LengthStatus | src/Apu.cpp:100-101 | NRx4 reads 0xFF with length enabled and 0xBF otherwise. |
| Gbapu.Nr52Status | src/Apu.cpp:145-161 | NR52 reads 0xF0 when powered and 0x70 otherwise, with bit i set iff channel i+1's DAC is on. |
| Gbapu.WaveRamOpenWhen | src/Apu.cpp:179 | Wave RAM is reachable iff the model is CGB, the wave DAC is off, or cycletime mod 2^32 < 4. |
| Gbapu.ReadWaveRam | src/Apu.cpp:163-183 | On the CGB, with the wave DAC off, or within 4 cycles (mod 2^32) of the last RAM access, the read gives the stored byte; on the DMG with the DAC on and outside that window it gives 0xFF. |
| Gbapu.VolumeRoundTrip | src/Apu.cpp:142 | A terminal volume decoded from 3 bits reads back as those 3 bits. |
| Gbapu.ReadNow | src/Apu.cpp:84-186 | While powered off, every register below NR52 reads 0xFF. Unlisted registers read 0xFF. NR52 reads its status, and wave RAM reads through the gate. |
| Gbapu.ReadRegister | src/Apu.cpp:65-187 | The read first steps `autostep` cycles (to the state `SteppedTo` gives) and then reads. Apart from wave RAM, whose gate depends on the time, the value equals the read before the step. |
| Gbapu.MirrorValue | src/Apu.cpp:200-313 | The mirror stores only bits of the written value. |
| Gbapu.MirrorKeepsReadBack | src/Apu.cpp:200-313 | The mirrored value reads back as the written value would, and mirroring it again changes nothing. |
| Gbapu.WriteSquare | src/Apu.cpp:204-237 | The DAC of a square channel changes only on an envelope write, to `value & 0xF8 != 0`. |
| Gbapu.WriteChannel1 | src/Apu.cpp:200-220 | Channel 1 stays a valid sweep pulse channel; its DAC changes only on NR12, to `value & 0xF8 != 0`. |
| Gbapu.WriteChannel2 | src/Apu.cpp:221-237 | Channel 2 stays a valid pulse channel; its DAC changes only on NR22, to `value & 0xF8 != 0`. |
| Gbapu.WriteChannel3 | src/Apu.cpp:238-257 | The wave DAC changes only on NR30, to bit 7. |
| Gbapu.WriteChannel4 | src/Apu.cpp:258-273 | The noise DAC changes only on NR42, and channel 4 stays a valid noise channel. NR44 takes the corrected write of the Findings table. |
| Gbapu.WritePannings | src/Apu.cpp:316-346 | After an NR51 write, channel i pans right iff bit i and left iff bit i+4, and keeps its quality bit. |
| Gbapu.WriteEffect | src/Apu.cpp:199-346 | A channel or control write changes only the DAC of the register's own channel. The volumes change only on NR50, and the pannings only on NR51. |
| Gbapu.WriteWaveRam | src/Apu.cpp:370-394 | A reachable write sets exactly one wave RAM byte; an unreachable one changes nothing. |
| Gbapu.WriteNow | src/Apu.cpp:199-397 | Unlisted registers ignore writes, and wave RAM writes go through the gate. |
| Gbapu.WriteGated | src/Apu.cpp:193-196 | While powered off, writes below NR52 are dropped. |
| Gbapu.PowerOn | src/Apu.cpp:358-366 | Power-on sets power and bit 7 of the NR52 mirror, and resets the sequencer. |
| Gbapu.PowerOff | src/Apu.cpp:350-357 | Power-off writes 0 to every register NR10..NR51, each write stepping 3 cycles. It ends powered down: all registers and DACs cleared, pannings silent, volumes 1. |
| Gbapu.WriteNr52 | src/Apu.cpp:347-369 | Only a change of bit 7 acts. Power-off clears everything, after 22 auto-stepped writes; power-on is `PowerOn`. |
| Gbapu.WriteOther | src/Apu.cpp:189-398 | Powered writes to NR10..NR51 read back with the register's mask. Dropped writes change nothing. NR51 sets the pannings, and wave RAM writes obey the gate. |
| Gbapu.WriteRegister | src/Apu.cpp:189-398 | After the autostep: a powered write reads back with its mask; NR51 sets the pannings; NR52 switches power (power-off reads 0x70 afterwards); wave RAM obeys the gate. A dropped write leaves exactly the stepped state `SteppedTo`. |
| Gbapu.ReadBack | src/Apu.cpp:89-144 | For every register NR10..NR51 while powered: read-after-write gives NR10 v&0x7F; NR11/21 v\|0x3F; NR12/22/42/43/51 v; NR13/23/31/33/41 0xFF; NR14/24/34/44 (v&0x40)\|0xBF; NR30 (v&0x80)\|0x7F; NR32 v\|0x9F; NR50 v&0x77; the unused addresses 0xFF. |
| Gbapu.ReadBackChannel1 | src/Apu.cpp:92-101 | The read-after-write table for channel 1. |
| Gbapu.ReadBackChannel3 | src/Apu.cpp:116-125 | The read-after-write table for the wave channel. |
| Gbapu.ReadBackChannel4 | src/Apu.cpp:129-136 | The read-after-write table for the noise channel. |
| Gbapu.ReadBackNr50 | src/Apu.cpp:140-142 | NR50 reads back as `value & 0x77`. |
| Gbapu.PanningFromNr51 | src/Apu.cpp:316-346 | NR51 reads back verbatim, and each channel's panning bits follow bits i and i+4 with its quality kept. |
| Gbapu.WaveRamGate | src/Apu.cpp:163-183 | A reachable wave RAM byte reads back what was written. An unreachable one ignores the write and reads 0xFF. |
| Gbapu.ResetReadsAsNew | src/Apu.cpp:40-58 | Every register reads after a reset as on a new APU. |
| Gbapu.ZeroWriteClears | src/Apu.cpp:353-355 | Writing 0 to register i of the power-off loop clears it, and keeps the registers before it cleared. |
| Gbapu.PoweredDownNr52 | src/Apu.cpp:145-161 | After power-off, NR52 reads 0x70. |
| InternalTimer.FastForward | src/_internal.cpp:209-219 | `fastforward` equals chunked `run`. Fewer cycles than the counter: no fires and the counter drops by `cycles`. Otherwise the counter ends within [1, period]. The period is kept. |
| InternalTimer.FastForwardCountsFires | src/_internal.cpp:209-219 | The fire count is exact: the last fire lies within the cycles, and one more would not. |
| InternalTimer.FastForwardSplit | src/_internal.cpp:209-219 | Two fast-forwards of a and b land where one of a+b lands, and their fire counts add up. |
| InternalTimer.RunSplit | src/_internal.cpp:198-207 | Chunked `run` can be cut at any point. |
| InternalChannels.FrequencyPeriod | src/_internal.cpp:417-420 | (2048−f)·m for f ≤ 2047, computed modulo 2^32 as C++ does; frequency 2048 gives period 0. |
| InternalChannels.NewPulse | src/_internal.cpp:399-406 | A new pulse channel has duty 75% (waveform 0x7E), period 8192, and its DAC off and channel disabled. |
| InternalChannels.NewWave | src/_internal.cpp:460-469 | A new wave channel has the mute volume code, zeroed RAM and period 4096. |
| InternalChannels.NewNoise | src/_internal.cpp:293-300 | A new noise channel has LFSR 0x7FFF, a valid scf and period 8. |
| InternalChannels.Disable | src/_internal.cpp:248-250 | Only the enabled flag is cleared. |
| InternalChannels.SetDacEnabled | src/_internal.cpp:252-257 | The DAC flag is set. Turning it off disables the channel; turning it on leaves the enabled flag alone. |
| InternalChannels.BaseRestart | src/_internal.cpp:278-281 | The counter reloads the period and the channel is enabled iff the DAC is on. |
| InternalChannels.Output | src/_internal.cpp:443-445 | Pulse: the volume iff the waveform bit is set. Noise: the volume iff LFSR bit 0 is clear. Wave: the sample shifted, and 0 at shift 4. |
| InternalChannels.Refresh | src/_internal.cpp:529-543 | The wave sample is refetched and the output recomputed. An invalid-scf noise channel is left alone. |
| InternalChannels.Clocked | src/_internal.cpp:437-441 | k clocks move the duty step by k mod 8 and the wave index by k mod 32, and shift the LFSR k times (none with an invalid scf). |
| InternalChannels.Clock | src/_internal.cpp:422-428 | One clock: duty step +1 mod 8; or wave index +1 mod 32 with the sample refetched; or one LFSR shift. An invalid scf changes nothing. |
| InternalChannels.FastForward | src/_internal.cpp:341-351 | The timer jumps by `Timer::fastforward` and the oscillator by the fire count. Frequency, DAC and enabled are kept. |
| InternalFastForward.ClockTimesIsClocked | src/_internal.cpp:437-441 | k clocks one by one equal one jump of the oscillator by k followed by one refresh. |
| InternalFastForward.StepRunIsClockTimes | src/_internal.cpp:198-207 | Running the timer chunk by chunk and clocking on each fire equals clocking as many times as the closed form fires. |
| InternalFastForward.FastForwardIsStepRun | src/_internal.cpp:523-527 | Once the counter is reached, every channel's `fastforward` equals repeated `run` with a `clock` on each fire. |
| InternalChannels.SetDuty | src/_internal.cpp:412-415 | The duty is stored, the waveform becomes its byte of 0x7EE18180, and the duty step is kept. |
| InternalChannels.SetFrequency | src/_internal.cpp:498-501 | The frequency is stored, the period becomes (2048−f)·4 or ·2 modulo 2^32, and the counter is kept. |
| InternalChannels.PulsePeriodRange | src/_internal.cpp:417-420 | For f ≤ 2047 the pulse period lies in 4..8192, and it is ≥ 24 iff f ≤ 2042. |
| InternalChannels.VolumeShift | src/_internal.cpp:479-496 | Mute gives shift 4, full 0, half 1, and any other code 2. |
| InternalChannels.SetVolume | src/_internal.cpp:479-496 | The code and shift are stored and the output recomputed; mute gives output 0. |
| InternalChannels.WriteWaveram | src/_internal.cpp:471-473 | Writing through the wave RAM pointer changes exactly one byte. |
| InternalChannels.SetNoise | src/_internal.cpp:302-316 | The frequency is the register. The period is divisor·2^scf. validScf iff scf < 14, and halfWidth is bit 3. The counter and LFSR are kept. |
| InternalChannels.InvalidScfFreezes | src/_internal.cpp:318-323 | With an invalid scf, a clock changes nothing and a fast-forward only moves the timer. |
| InternalChannels.Restart | src/_internal.cpp:335-339 | The base restart plus: wave index 0 with the sample kept, or LFSR 0x7FFF and output 0 for noise. |
| InternalChannels.BaseReset | src/_internal.cpp:271-276 | The DAC is off, the channel disabled, and frequency and output 0. |
| InternalChannels.Reset | src/_internal.cpp:430-435 | A reset keeps the kind and the counter, turns the DAC off, disables the channel, zeroes frequency and output, and sets the kind's default period. The wave and noise resets are at src/_internal.cpp:508-516 and 325-333. |
| InternalChannels.ResetIsNew | src/_internal.cpp:430-435 | Every kind resets to its newly constructed state, except that the counter is not reloaded. |
| InternalChannels.ResetWaveShiftIsFull | src/_internal.cpp:508-516 | A wave reset leaves the mute code with shift 0, although `setVolume` would give the mute code shift 4. |
| InternalModulators.NewLengthCounter | src/_internal.cpp:16-21 | A new counter is disabled, at 0, with the given maximum. |
| InternalModulators.LengthClock | src/_internal.cpp:39-47 | A disabled counter does nothing. An enabled one at 0 disables the channel and stays at 0; otherwise it counts down. |
| InternalModulators.LengthExpires | src/_internal.cpp:39-47 | An enabled counter at n leaves the channel alone for n clocks and disables it on clock n+1. |
| InternalModulators.LengthReset | src/_internal.cpp:49-52 | Reset disables the counter and zeroes it, and keeps the maximum. |
| InternalModulators.LengthRestart | src/_internal.cpp:54-58 | Restart reloads the maximum only at 0, so a positive maximum leaves the counter positive. |
| InternalModulators.EnvelopeWrite | src/_internal.cpp:75-78 | The register is stored and the DAC is on iff `value & 0xF8 != 0`. A DAC turned off disables the channel. |
| InternalModulators.EnvelopeClock | src/_internal.cpp:80-96 | Period 0 does nothing. Otherwise the volume moves at most one saturating step, and the register, period and direction are kept. |
| InternalModulators.EnvelopeClockAgrees | src/_internal.cpp:80-96 | The rewrite's envelope clock equals the class hierarchy's, so `Channels.EnvelopeStepsEveryPeriod` applies to it. |
| InternalModulators.EnvelopeReset | src/_internal.cpp:98-104 | Reset zeroes the envelope. |
| InternalModulators.SweepWrite | src/_internal.cpp:133-135 | The register keeps bits 0-6. |
| InternalModulators.SweepReset | src/_internal.cpp:165-172 | Reset zeroes the sweep. |
| InternalModulators.SweepClock | src/_internal.cpp:137-163 | Time 0 does nothing. A changed frequency equals the new shadow. The channel's counter, oscillator and output are kept, and an enabled flag can only be cleared. |
| InternalModulators.SweepQuiet | src/_internal.cpp:137-141 | Without a fire only the counter moves. A fire with shift 0 only rearms the counter. |
| InternalModulators.SweepOverflowDisables | src/_internal.cpp:148-154 | An addition past 2047 disables channel 1 and keeps its frequency, its timer and the shadow. |
| InternalModulators.SweepWritesBack | src/_internal.cpp:142-159 | The subtraction never underflows. Otherwise the new frequency is within 0..2047, becomes frequency and shadow, and sets period (2048−f)·4. |
| InternalHardware.MixChange | src/_internal.cpp:764-770 | A change of output hands exactly its difference to the mixer at the current time; no change hands nothing. |
| InternalHardware.NewHardware | src/_internal.cpp:617-636 | The constructed hardware satisfies the invariant, with length maxima 64, 64, 256 and 64. |
| InternalHardware.Reset | src/_internal.cpp:638-650 | Every length counter is disabled at 0 with its maximum kept; the envelopes, sweep and sequencer are reset; each channel takes its own reset; every mix mode is Mute and every last output 0. |
| InternalHardware.ResetIsNew | src/_internal.cpp:638-650 | Reset gives the constructed hardware, except that the channel counters are not reloaded. |
| InternalHardware.ClockEnvelopes | src/_internal.cpp:652-654 | All three envelopes clock, and nothing else changes. |
| InternalHardware.ClockLengthCounters | src/_internal.cpp:656-661 | Each length counter clocks its own channel, and nothing else changes. |
| InternalHardware.ClockSweep | src/_internal.cpp:663-665 | The sweep clocks channel 1 only. |
| InternalHardware.SequencerRun | src/_internal.cpp:592-609 | The sequencer's timer runs. A fire clocks what the table entry names (sweep before length counters) and moves to the next entry and period. |
| InternalHardware.SetMix | src/_internal.cpp:671-704 | The new mix is stored and nothing else changes. |
| InternalHardware.ClockLoop | src/_internal.cpp:783-788 | k clocks equal `ClockTimes`. The events sum to the change in last output and fall one period apart from the first fire on. |
| InternalHardware.RunAudible | src/_internal.cpp:751-790 | The channel ends as its `fastforward` would. The events sum to the change in last output and fall within [time, time + cycles]. |
| InternalHardware.RunOne | src/_internal.cpp:729-802 | A silenced channel ends with last output 0. A muted one fast-forwards without events. An audible one hands every change of output to the mixer. All three end with the timer where `fastforward` puts it. |
| InternalHardware.RunChannel | src/_internal.cpp:729-749 | Running channel i changes only that channel and its last output. |
| InternalHardware.RunChannels | src/_internal.cpp:718-721 | The four channels run in turn. Each channel's events sum to the change in its last output, and all of them fall within the chunk. |
| InternalHardware.SequencerAfterFires | src/_internal.cpp:592-609 | Running the sequencer for the cycles of n fires lands on the state n fires give. |
| InternalHardware.SequencerFrame | src/_internal.cpp:565-578 | From an aligned state the sequencer returns to the same state after 65536 cycles. |
| InternalHardware.ChunkLength | src/_internal.cpp:717 | A chunk is at least one cycle long. It never passes the cycles left or the sequencer's counter, so `Timer::run`'s precondition always holds. |
| InternalHardware.ChunkState | src/_internal.cpp:717-722 | After a chunk the invariant and the mix are kept, and the sequencer has advanced by the chunk. |
| InternalHardware.ChunkEvents | src/_internal.cpp:718-721 | A chunk's events sum, per channel, to the change in last output, and fall within the chunk. |
| InternalHardware.RunKeeps | src/_internal.cpp:714-727 | Over a whole run the invariant and the mix are kept, and the sequencer lands on `FrameSequencer.After`. Per channel the events sum to the change in last output, and all fall within the run. |
| InternalHardware.Run | src/_internal.cpp:714-727 | `run` ends in the state and with the events of `RunState`/`RunEvents`. Chunk by chunk, each up to the sequencer's next fire, the four channels run and then the sequencer; a fire clocks the length counters, sweep or envelopes. So it keeps the invariant and the mix, and the sequencer lands on `FrameSequencer.After`. Per channel, the events sum to the change in last output, all within [cycletime, cycletime + cycles]. |

## Left out

- The float band-limited mixer is left out: `Mixer`, the step table, the high-pass accumulator, and `readSamples`/`removeSamples`. So are the float DC terms of `Hardware::setMix` and `silence`. These are floating-point numerics. The mixer is a sink that receives integer (delta, time) events.
- The blip_buf wrappers are left out, because they are foreign calls whose behaviour is not visible. This covers `availableSamples`, `readSamples`, `clearSamples`, `setVolume`, `setSamplerate`, `setBuffersize`, `resizeBuffer` and `updateVolume`. `setQuality` is left out too, apart from its quality rule, which is `Gbapu.WithQuality`.
- `endFrame` is modelled only by its effect on the APU state, the cycle counter restarting at 0 (`Gbapu.EndFrame`). Its `blip_end_frame` calls on the mixer buffers are left out with the mixer.
- The fixed-point deltas that the NR50 and NR51 writes hand to the mixer depend on its float volumes and DC, so they are left out. The register effects of those writes are modelled.
- The demo programs and the superseded earlier generation of channel classes are left out. They are not wired into `Apu`, and they contradict the live code.
- `cycletime` is an unbounded natural. Its uint32 wrap-around is modelled only where the code depends on it: the modular difference in `canAccessRam`.
- `Channels.Step`: the source's switch on the mode names enumerators that the shipped `MixMode` does not declare. The model takes a mode as audible when it pans to a terminal, and ignores the quality bit. Its audible contract (`Channels.StepEvents`) is stated only for that reading. The event that drops a disabled channel's last output is handed to the mixer whatever the mode, as the source does.
- Gbapu.WriteChannel4: an NR44 write goes through the corrected `Channels.WriteFrequencyMsb`, which keeps the noise frequency the NR43 byte. So `Gbapu.WriteRegister` and `Gbapu.PowerOff` model NR44 as intended rather than as src/Apu.cpp:270-271 writes it. The as-written half is `Channels.FrequencyWithMsb` with `Channels.NoisePeriodAsWritten` (see the Findings table).
- `InternalChannels.SetDuty`: requires duty < 4. A larger duty makes the mask shift 32 or more bits, which is undefined in C++.
- `InternalChannels.SetFrequency`: requires a 16-bit frequency, as the `uint16_t` parameter does.
- The rewrite's `Envelope::restart` and `Sweep::restart` repeat the class hierarchy's latches field for field. They are modelled once, by `Channels.EnvLatch` and `Channels.SweepLatch`.
- The header that declares the rewrite's classes and enumerations is not part of this model. The values taken are `Duty75` = 3 and the wave volume codes Mute = 0, Full = 1, Half = 2. `waveram()` returns a raw pointer; writes through it are modelled as `InternalChannels.WriteWaveram`. `mMix()` in the `Hardware` constructor (src/_internal.cpp:633) value-initialises the modes; the shipped header declares no `mute`, so `InternalHardware.NewHardware` takes every mode as `Mute`, as `Hardware::reset` fills them.
- The wave channel's constructor passes two arguments to a three-argument base constructor. The model takes a minimum period of 0 and a length maximum of 256, as the hardware and the rewrite do. The `mVolume` it sets belongs to `EnvChannelBase` only, so it is a field of the wave oscillator here.
- The source's TODO about reaching the length counters while powered off is not modelled; the code drops those writes, and so does the model.
- `InternalHardware.Run`: the rewrite's `Sequencer::run` is modelled through the class hierarchy's sequencer table (`FrameSequencer.Advance`), which is the same table.

Behaviour of the code that the model keeps as written:

- Noise period: `setPeriod` computes `drf << scf`, and a shift-clock frequency below 14 is valid (src/_internal/NoiseChannel.cpp:54-67, `Channels.NoisePeriod`).
- DAC off: `setDacEnable(false)` only disables the channel and leaves the output level alone (src/_internal/Channel.cpp:44-49). The level drops to 0 on the next `step` of the disabled channel (src/_internal/Channel.cpp:63-71), or on `silence` in the rewrite (src/_internal.cpp:804-810).
- Pulse restart: restarting a square channel keeps its duty step counter (src/_internal/Channel.cpp:156-162 and 187-193, `Channels.Restart`).
- The `Apu` step loop: chunks end at the sequencer's next trigger only. Each channel runs its own timer loop inside the chunk (src/Apu.cpp:400-415, src/_internal/Channel.cpp:100-122).
- Length counter: a counter of 1 takes two clocks to disable its channel (src/_internal/Channel.cpp:51-59, `Channels.LengthCounterExpires`).

## Findings

| source | as written | input that shows it | evidently intended | confidence | as-written member | corrected member |
|---|---|---|---|---|---|---|
| src/Apu.cpp:270-273 with src/_internal/Channel.cpp:129-131 and src/_internal/NoiseChannel.cpp:54-67 | An NR44 write calls `writeFrequencyMsb` on the noise channel. That puts bits 0-2 of the value into bits 8-10 of the noise frequency, so `setPeriod` shifts the divisor by up to 127 bits. | NR43 = 0xC1, then NR44 = 0x81 (trigger): the frequency becomes 0x1C1, scf = 28, and `16 << 28` on the `int` the uint8 `drf` is promoted to is 2^32. That overflow is undefined before C++20; under C++20's modulo-2^32 rule, which the model takes, it is 0. The period and the reloaded counter are 0, so the channel's step loop never advances. | NR44 only triggers and latches length-enable; the noise frequency stays the NR43 byte. | not executed | Channels.NoiseTriggerZeroPeriod (with Channels.NoisePeriodAsWritten) | Channels.WriteFrequencyMsb (with Channels.NoiseTriggerKeepsPeriod) |
