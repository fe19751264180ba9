/** The `Apu` class: the register file the emulated CPU reads and writes,
    the power switch, the per-channel panning modes and the step loop that
    drives the frame sequencer and the four channels together. The sample
    buffers and the volume/DC arithmetic of the mixer are not part of this
    model; the mixer is a sink that receives the channels' transitions. */
module Gbapu {
  import opened Bits
  import opened Constants
  import MixModes
  import Channels
  import FrameSequencer

  /** The default `autostep` of `readRegister` and `writeRegister`. */
  const AUTOSTEP: nat := 3

  /** Positions in the `Registers` mirror. */
  const UNUSED1_INDEX: nat := 5
  const UNUSED2_INDEX: nat := 15
  const NR51_INDEX: nat := 21
  const NR52_INDEX: nat := 22

  datatype Model = Dmg | Cgb

  /** `low`: low quality everywhere; `medium`: high quality on channels 1
      and 2 only; `high`: high quality everywhere. */
  datatype Quality = Low | Medium | High

  /** A transition handed to the mixer, with the channel (0 to 3) and the
      mode it was mixed with. */
  datatype Mixed = Mixed(channel: nat, mode: bv8, event: Channels.MixEvent)

  /** `pannings` are the four `MixMode`s; `regs` is the `Registers`
      mirror, one byte per address NR10..NR52; `mixed` collects what the
      channels handed to the mixer. */
  datatype Apu = Apu(
    model: Model,
    quality: Quality,
    pannings: seq<bv8>,
    cf: Channels.ChannelFile,
    sequencer: FrameSequencer.Sequencer,
    regs: seq<bv8>,
    cycletime: nat,
    leftVolume: nat,
    rightVolume: nat,
    enabled: bool,
    mixed: seq<Mixed>)

  /** The state invariant. The two unused addresses are never written,
      and NR52's mirror holds nothing but the power bit. */
  ghost predicate Valid(a: Apu)
  {
    Channels.ValidFile(a.cf) && FrameSequencer.ValidSequencer(a.sequencer) && ValidShape(a)
  }

  /** The part of `Valid` about the APU's own fields. */
  ghost predicate ValidShape(a: Apu)
  {
    && |a.pannings| == 4
    && |a.regs| == REGISTER_COUNT
    && 1 <= a.leftVolume <= 8 && 1 <= a.rightVolume <= 8
    && a.regs[UNUSED1_INDEX] == 0 && a.regs[UNUSED2_INDEX] == 0
    && a.regs[NR52_INDEX] == (if a.enabled then 0x80 else 0)
  }

  /** No channel is routed to a terminal. */
  ghost predicate Silent(pannings: seq<bv8>)
    requires |pannings| == 4
  {
    forall i :: 0 <= i < 4 ==> !MixModes.Audible(pannings[i])
  }

  // ------------------------------------------------------ construction ---

  /** `updateQuality`: the quality flag of each channel's mode. */
  function WithQuality(pannings: seq<bv8>, quality: Quality): (r: seq<bv8>)
    requires |pannings| == 4
    ensures |r| == 4
    ensures forall i :: 0 <= i < 4 ==>
      && MixModes.PansLeft(r[i]) == MixModes.PansLeft(pannings[i])
      && MixModes.PansRight(r[i]) == MixModes.PansRight(pannings[i])
    ensures quality == Low ==> forall i :: 0 <= i < 4 ==> !MixModes.IsHighQuality(r[i])
    ensures quality == High ==> forall i :: 0 <= i < 4 ==> MixModes.IsHighQuality(r[i])
    ensures quality == Medium ==> forall i :: 0 <= i < 4 ==> (MixModes.IsHighQuality(r[i]) <==> i < 2)
  {
    var high12 := quality != Low;
    var high34 := quality == High;
    seq(4, i requires 0 <= i < 4 => MixModes.SetQuality(pannings[i], if i < 2 then high12 else high34))
  }

  /** The constructor: powered off, all four modes muted, master volumes
      at their lowest setting and an all-zero register mirror. */
  function New(quality: Quality, model: Model): (a: Apu)
    ensures Valid(a) && !a.enabled && a.cycletime == 0 && a.mixed == []
    ensures a.leftVolume == 1 && a.rightVolume == 1
    ensures a.regs == Zeroes(REGISTER_COUNT)
    ensures Silent(a.pannings) && a.pannings == WithQuality([0, 0, 0, 0], quality)
    ensures a.model == model && a.quality == quality
    ensures a.cf == Channels.NewFile() && a.sequencer == FrameSequencer.Reset()
  {
    Apu(model, quality, WithQuality([0, 0, 0, 0], quality), Channels.NewFile(), FrameSequencer.Reset(),
        Zeroes(REGISTER_COUNT), 0, 1, 1, false, [])
  }

  /** The channel half of `reset`: each channel's virtual `reset`. */
  function ResetChannels(cf: Channels.ChannelFile): (r: Channels.ChannelFile)
    requires Channels.ValidFile(cf)
    ensures Channels.ValidFile(r)
    ensures !r.ch1.dacOn && !r.ch2.dacOn && !r.ch3.dacOn && !r.ch4.dacOn
  {
    Channels.ChannelFile(Channels.Reset(cf.ch1), Channels.Reset(cf.ch2),
                         Channels.Reset(cf.ch3), Channels.Reset(cf.ch4))
  }

  /** `modeSetPanning(panning, 0)` on every mode. */
  function ClearPannings(pannings: seq<bv8>): (r: seq<bv8>)
    requires |pannings| == 4
    ensures |r| == 4 && Silent(r)
    ensures forall i :: 0 <= i < 4 ==> MixModes.IsHighQuality(r[i]) == MixModes.IsHighQuality(pannings[i])
  {
    seq(4, i requires 0 <= i < 4 => MixModes.SetPanning(pannings[i], 0))
  }

  /** `reset`: every channel and the sequencer reset, power off, panning
      cleared (the quality flags stay) and the frame ended. The model is
      kept; `ResetModel` replaces it. */
  function Reset(a: Apu): (r: Apu)
    requires Valid(a)
    ensures Valid(r) && !r.enabled && r.cycletime == 0
    ensures r.leftVolume == 1 && r.rightVolume == 1
    ensures r.regs == Zeroes(REGISTER_COUNT)
    ensures Silent(r.pannings)
    ensures forall i :: 0 <= i < 4 ==> MixModes.IsHighQuality(r.pannings[i]) == MixModes.IsHighQuality(a.pannings[i])
    ensures !r.cf.ch1.dacOn && !r.cf.ch2.dacOn && !r.cf.ch3.dacOn && !r.cf.ch4.dacOn
    ensures r.model == a.model && r.quality == a.quality
  {
    Apu(a.model, a.quality, ClearPannings(a.pannings), ResetChannels(a.cf),
        FrameSequencer.Reset(), Zeroes(REGISTER_COUNT), 0, 1, 1, false, a.mixed)
  }

  /** `reset(Model)`. */
  function ResetModel(a: Apu, model: Model): (r: Apu)
    requires Valid(a)
    ensures Valid(r) && r.model == model && !r.enabled
  {
    Reset(a.(model := model))
  }

  // ----------------------------------------------------------- stepping ---

  /** The events of one channel, tagged for the mixer. */
  function Tag(channel: nat, mode: bv8, events: seq<Channels.MixEvent>): (r: seq<Mixed>)
    ensures |r| == |events|
  {
    seq(|events|, i requires 0 <= i < |events| => Mixed(channel, mode, events[i]))
  }

  /** The four `ChannelBase::step` calls of one chunk, in channel order. */
  function StepChannels(cf: Channels.ChannelFile, pannings: seq<bv8>, time: nat, cycles: nat)
    : (r: (Channels.ChannelFile, seq<Mixed>))
    requires Channels.ValidFile(cf) && |pannings| == 4
    ensures Channels.ValidFile(r.0)
    ensures Channels.VisibleOf(r.0.ch1) == Channels.VisibleOf(cf.ch1)
    ensures Channels.VisibleOf(r.0.ch2) == Channels.VisibleOf(cf.ch2)
    ensures Channels.VisibleOf(r.0.ch3) == Channels.VisibleOf(cf.ch3)
    ensures Channels.VisibleOf(r.0.ch4) == Channels.VisibleOf(cf.ch4)
  {
    var (c1, e1) := Channels.Step(cf.ch1, pannings[0], time, cycles);
    var (c2, e2) := Channels.Step(cf.ch2, pannings[1], time, cycles);
    var (c3, e3) := Channels.Step(cf.ch3, pannings[2], time, cycles);
    var (c4, e4) := Channels.Step(cf.ch4, pannings[3], time, cycles);
    (Channels.ChannelFile(c1, c2, c3, c4),
     Tag(0, pannings[0], e1) + Tag(1, pannings[1], e2) + Tag(2, pannings[2], e3) + Tag(3, pannings[3], e4))
  }

  /** What a register read can observe, apart from the wave RAM gate,
      which also depends on the cycle time. */
  ghost predicate SameView(a: Apu, b: Apu)
  {
    && a.model == b.model && a.quality == b.quality
    && a.enabled == b.enabled && a.regs == b.regs && a.pannings == b.pannings
    && a.leftVolume == b.leftVolume && a.rightVolume == b.rightVolume
    && Channels.VisibleOf(a.cf.ch1) == Channels.VisibleOf(b.cf.ch1)
    && Channels.VisibleOf(a.cf.ch2) == Channels.VisibleOf(b.cf.ch2)
    && Channels.VisibleOf(a.cf.ch3) == Channels.VisibleOf(b.cf.ch3)
    && Channels.VisibleOf(a.cf.ch4) == Channels.VisibleOf(b.cf.ch4)
  }

  /** One chunk of `step`: the sequencer steps first, and a chunk that ends
      at its fire clocks the length counters, the sweep or the envelopes as
      the trigger table says; then channels 1 to 4 run from the chunk's
      start time and hand their transitions to the mixer. Nothing else
      changes. */
  function StepChunk(a: Apu, chunk: nat): (r: Apu)
    requires Valid(a) && chunk <= a.sequencer.timer.timer
    ensures Valid(r) && SameView(a, r)
    ensures r.cycletime == a.cycletime + chunk
    ensures a.mixed <= r.mixed
    ensures r.sequencer == FrameSequencer.Advance(a.sequencer, chunk).0
    ensures var cf := if chunk == a.sequencer.timer.timer
                      then FrameSequencer.ApplyTrigger(FrameSequencer.TRIGGER_SEQUENCE[a.sequencer.triggerIndex].kind, a.cf)
                      else a.cf;
            && r.cf == StepChannels(cf, a.pannings, a.cycletime, chunk).0
            && r.mixed == a.mixed + StepChannels(cf, a.pannings, a.cycletime, chunk).1
    ensures r.(cf := a.cf, sequencer := a.sequencer, cycletime := a.cycletime, mixed := a.mixed) == a
  {
    var (s, cf1) := FrameSequencer.Step(a.sequencer, a.cf, chunk);
    var (cf2, events) := StepChannels(cf1, a.pannings, a.cycletime, chunk);
    a.(sequencer := s, cf := cf2, cycletime := a.cycletime + chunk, mixed := a.mixed + events)
  }

  /** The length of the next chunk on the way to `time`: up to the
      sequencer's next fire or to `time`, whichever comes first. */
  function ChunkTo(a: Apu, time: nat): (n: nat)
    requires Valid(a) && a.cycletime < time
    ensures 0 < n <= time - a.cycletime && n <= a.sequencer.timer.timer
  {
    Min(time - a.cycletime, a.sequencer.timer.timer)
  }

  /** The APU that `step` reaches by running, chunk after chunk, until the
      cycle time is `time`. */
  function SteppedTo(a: Apu, time: nat): (r: Apu)
    requires Valid(a)
    decreases time - a.cycletime
  {
    if time <= a.cycletime then a
    else SteppedTo(StepChunk(a, ChunkTo(a, time)), time)
  }

  /** What stepping promises: the invariant holds, nothing a register read
      shows changes and the cycle time lands on `time`. */
  lemma {:induction false} SteppedToKeeps(a: Apu, time: nat)
    requires Valid(a) && a.cycletime <= time
    ensures Valid(SteppedTo(a, time)) && SameView(a, SteppedTo(a, time))
    ensures SteppedTo(a, time).cycletime == time
    decreases time - a.cycletime
  {
    if a.cycletime < time {
      var n := ChunkTo(a, time);
      var b := StepChunk(a, n);
      SteppedToChunk(a, time, n, b);
      SteppedToKeeps(b, time);
    }
  }

  /** Stepping only ever appends to what the mixer has received. */
  lemma {:induction false} SteppedToAppends(a: Apu, time: nat)
    requires Valid(a)
    ensures a.mixed <= SteppedTo(a, time).mixed
    decreases time - a.cycletime
  {
    if a.cycletime < time {
      var n := ChunkTo(a, time);
      var b := StepChunk(a, n);
      SteppedToChunk(a, time, n, b);
      SteppedToAppends(b, time);
    }
  }

  /** The first chunk of `SteppedTo`, already computed. */
  lemma SteppedToChunk(a: Apu, time: nat, n: nat, b: Apu)
    requires Valid(a) && a.cycletime < time && n == ChunkTo(a, time) && b == StepChunk(a, n)
    ensures SteppedTo(a, time) == SteppedTo(b, time)
  {
  }

  /** Once the cycle time has reached `time`, there is nothing left to step. */
  lemma SteppedToDone(a: Apu, time: nat)
    requires Valid(a) && time <= a.cycletime
    ensures SteppedTo(a, time) == a
  {
  }

  /** `SteppedTo` at two names of the same time. */
  lemma SteppedToAt(a: Apu, time: nat, t: nat)
    requires Valid(a) && time == t
    ensures SteppedTo(a, time) == SteppedTo(a, t)
  {
  }

  /** `step`: the cycles are consumed in chunks no longer than the
      sequencer's timer, so the sequencer fires only at the end of a chunk.
      The loop reaches `SteppedTo` at the cycle time plus `cycles`, and the
      sequencer lands on its closed form. */
  method Step(a: Apu, cycles: nat) returns (r: Apu)
    requires Valid(a)
    ensures r.cycletime == a.cycletime + cycles && r == SteppedTo(a, r.cycletime)
    ensures Valid(r) && SameView(a, r)
    ensures a.mixed <= r.mixed
    ensures r.sequencer == FrameSequencer.After(a.sequencer, cycles)
    ensures cycles == 0 ==> r == a
  {
    var time := a.cycletime + cycles;
    SteppedToKeeps(a, time);
    SteppedToAppends(a, time);
    r := a;
    var left := cycles;
    while left > 0
      invariant Valid(r) && r.cycletime + left == time
      invariant SteppedTo(r, time) == SteppedTo(a, time)
      invariant FrameSequencer.After(r.sequencer, left) == FrameSequencer.After(a.sequencer, cycles)
      invariant left == cycles ==> r == a
    {
      var chunk := Min(left, r.sequencer.timer.timer);
      var next := StepChunk(r, chunk);
      var rest := left - chunk;
      SteppedToChunk(r, time, chunk, next);
      FrameSequencer.AfterChunk(r.sequencer, left, chunk, rest);
      r, left := next, rest;
    }
    SteppedToDone(r, time);
    SteppedToAt(a, time, r.cycletime);
  }

  /** `stepTo`: a time not after the current one is ignored; otherwise the
      APU steps up to it. */
  method StepTo(a: Apu, time: nat) returns (r: Apu)
    requires Valid(a)
    ensures r == SteppedTo(a, time)
    ensures Valid(r) && SameView(a, r)
    ensures time <= a.cycletime ==> r == a
    ensures time > a.cycletime ==> r.cycletime == time
  {
    if time <= a.cycletime {
      r := a;
      SteppedToDone(a, time);
    } else {
      r := Step(a, time - a.cycletime);
      SteppedToAt(a, r.cycletime, time);
    }
  }

  /** `endFrame`: the mixer's buffers close the frame at the current time,
      and the cycle counter starts again at 0. Nothing else changes. */
  function EndFrame(a: Apu): (r: Apu)
    requires Valid(a)
    ensures Valid(r) && SameView(a, r) && r.cycletime == 0
    ensures r.(cycletime := a.cycletime) == a
  {
    a.(cycletime := 0)
  }

  /** Wave RAM is reachable right after a frame ends, and then for the
      first cycles of the frame: on the DMG with the wave DAC on, the
      access window is counted from the last frame end. */
  lemma EndFrameOpensWaveRam(a: Apu, reg: bv8, t: nat)
    requires Valid(a) && IsWaveRam(reg)
    ensures ReadWaveRam(EndFrame(a), reg) == a.cf.ch3.osc.waveram[WaveRamIndex(reg)]
    ensures var r := EndFrame(a).(cycletime := t);
            WaveRamOpen(r) <==> (a.model == Cgb || !a.cf.ch3.dacOn || t % U32 < Channels.RAM_ACCESS_THRESHOLD)
  {
    WaveRamOpenWhen(EndFrame(a));
    WaveRamOpenWhen(EndFrame(a).(cycletime := t));
  }

  // -------------------------------------------------------------- reads ---

  /** NRx4 reads back only the length-enable bit. */
  function LengthStatus(c: Channels.Channel): (v: bv8)
    ensures v & 0xBF == 0xBF && (v & 0x40 != 0 <==> c.lengthEnabled)
  {
    if c.lengthEnabled then 0xFF else 0xBF
  }

  /** NR52: the power bit, three unused ones-bits and a DAC bit per channel. */
  function Nr52Status(a: Apu): (v: bv8)
    ensures v & 0x80 != 0 <==> a.enabled
    ensures v & 0x70 == 0x70
    ensures v & 0x01 != 0 <==> a.cf.ch1.dacOn
    ensures v & 0x02 != 0 <==> a.cf.ch2.dacOn
    ensures v & 0x04 != 0 <==> a.cf.ch3.dacOn
    ensures v & 0x08 != 0 <==> a.cf.ch4.dacOn
  {
    (if a.enabled then 0xF0 else 0x70)
    | (if a.cf.ch1.dacOn then 0x1 else 0)
    | (if a.cf.ch2.dacOn then 0x2 else 0)
    | (if a.cf.ch3.dacOn then 0x4 else 0)
    | (if a.cf.ch4.dacOn then 0x8 else 0)
  }

  /** The bus reaches wave RAM on the CGB always, and on the DMG when
      `canAccessRam` allows it. */
  predicate WaveRamOpen(a: Apu)
    requires Channels.ValidFile(a.cf)
  {
    a.model == Cgb || Channels.CanAccessRam(a.cf.ch3, a.cycletime)
  }

  lemma WaveRamOpenWhen(a: Apu)
    requires Channels.ValidFile(a.cf)
    ensures WaveRamOpen(a) <==> (a.model == Cgb || !a.cf.ch3.dacOn || a.cycletime % U32 < Channels.RAM_ACCESS_THRESHOLD)
  {
  }

  /** A wave RAM read: the stored byte on the CGB, with the wave DAC off, or
      within the access window after the channel's last RAM access; 0xFF
      otherwise, on the DMG only. */
  function ReadWaveRam(a: Apu, reg: bv8): (v: bv8)
    requires Valid(a) && IsWaveRam(reg)
    ensures a.model == Cgb || !a.cf.ch3.dacOn
            || (a.cycletime - a.cf.ch3.osc.lastRamAccess) % U32 < Channels.RAM_ACCESS_THRESHOLD
            ==> v == a.cf.ch3.osc.waveram[WaveRamIndex(reg)]
    ensures a.model == Dmg && a.cf.ch3.dacOn
            && (a.cycletime - a.cf.ch3.osc.lastRamAccess) % U32 >= Channels.RAM_ACCESS_THRESHOLD
            ==> v == 0xFF
  {
    if WaveRamOpen(a) then a.cf.ch3.osc.waveram[WaveRamIndex(reg)] else 0xFF
  }

  /** The registers the read and write switches name. */
  predicate Listed(reg: bv8)
  {
    (NR10 <= reg <= NR52 && reg != UNUSED1 && reg != UNUSED2) || IsWaveRam(reg)
  }

  /** NRx1 to NRx4 of a square channel, `offset` as in `WriteSquare`. The
      frequency byte NRx3 is write-only. */
  function ReadSquare(c: Channels.Channel, offset: bv8): bv8
    requires Channels.Valid(c) && Channels.IsSquare(c.osc) && 1 <= offset <= 4
  {
    if offset == 1 then 0x3F | Channels.ReadDuty(c)
    else if offset == 2 then Channels.ReadEnvelope(c)
    else if offset == 3 then 0xFF
    else LengthStatus(c)
  }

  /** NR10 to NR14. */
  function ReadChannel1(c: Channels.Channel, reg: bv8): bv8
    requires Channels.Valid(c) && c.osc.SweepPulse? && NR10 <= reg <= NR14
  {
    if reg == NR10 then Channels.ReadSweep(c) else ReadSquare(c, reg - NR10)
  }

  /** NR30 to NR34; NR31 and NR33 are write-only. */
  function ReadChannel3(c: Channels.Channel, reg: bv8): bv8
    requires Channels.Valid(c) && c.osc.Wave? && NR30 <= reg <= NR34
  {
    if reg == NR30 then (if c.dacOn then 0xFF else 0x7F)
    else if reg == NR32 then 0x9F | Channels.ReadVolume(c)
    else if reg == NR34 then LengthStatus(c)
    else 0xFF
  }

  /** NR41 to NR44; NR41 is write-only. */
  function ReadChannel4(c: Channels.Channel, reg: bv8): bv8
    requires Channels.Valid(c) && c.osc.Noise? && NR41 <= reg <= NR44
  {
    if reg == NR42 then Channels.ReadEnvelope(c)
    else if reg == NR43 then Channels.ReadNoise(c)
    else if reg == NR44 then LengthStatus(c)
    else 0xFF
  }

  /** A master volume as the APU keeps it, 1 to 8, from the low three
      bits of `bits`. */
  function VolumeOf(bits: bv8): (v: nat)
    ensures 1 <= v <= 8
  {
    (bits & 0x7) as nat + 1
  }

  /** The three NR50 bits a master volume of 1 to 8 reads back as. */
  function VolumeBits(v: nat): (bits: bv8)
    requires 1 <= v <= 8
    ensures bits < 8
  {
    (v - 1) as bv8
  }

  lemma VolumeRoundTrip(bits: bv8)
    ensures VolumeBits(VolumeOf(bits)) == bits & 0x7
  {
    var b := bits & 0x7;
    assert b < 8;
    assert ((b as nat + 1) - 1) as bv8 == b;
  }

  /** NR50: each master volume, stored as 1 to 8, reads as 0 to 7. */
  function ReadNr50(a: Apu): bv8
    requires Valid(a)
  {
    (VolumeBits(a.leftVolume) << 4) | VolumeBits(a.rightVolume)
  }

  /** The switch of `readRegister`, after the autostep. While powered off
      everything below NR52 reads 0xFF. */
  function ReadNow(a: Apu, reg: bv8): (v: bv8)
    requires Valid(a)
    ensures !a.enabled && reg < NR52 ==> v == 0xFF
    ensures !Listed(reg) ==> v == 0xFF
    ensures reg == NR52 ==> v == Nr52Status(a)
    ensures IsWaveRam(reg) ==> v == ReadWaveRam(a, reg)
  {
    if !a.enabled && reg < NR52 then 0xFF
    else if NR10 <= reg <= NR14 then ReadChannel1(a.cf.ch1, reg)
    else if NR21 <= reg <= NR24 then ReadSquare(a.cf.ch2, reg - UNUSED1)
    else if NR30 <= reg <= NR34 then ReadChannel3(a.cf.ch3, reg)
    else if NR41 <= reg <= NR44 then ReadChannel4(a.cf.ch4, reg)
    else if reg == NR50 then ReadNr50(a)
    else if reg == NR51 then a.regs[NR51_INDEX]
    else if reg == NR52 then Nr52Status(a)
    else if IsWaveRam(reg) then ReadWaveRam(a, reg)
    else 0xFF
  }

  /** `readRegister`: step by `autostep`, then read. The step never
      changes what a register other than wave RAM reads. */
  method ReadRegister(a: Apu, reg: bv8, autostep: nat) returns (r: Apu, v: bv8)
    requires Valid(a)
    ensures Valid(r) && SameView(a, r) && r.cycletime == a.cycletime + autostep
    ensures r == SteppedTo(a, r.cycletime)
    ensures v == ReadNow(r, reg)
    ensures !IsWaveRam(reg) ==> v == ReadNow(a, reg)
    ensures !a.enabled && reg < NR52 ==> v == 0xFF
  {
    r := Step(a, autostep);
    v := ReadNow(r, reg);
    if !IsWaveRam(reg) {
      ReadNowView(a, r, reg);
    }
  }

  // ------------------------------------------------------------- writes ---

  /** What `writeRegister` stores in the `Registers` mirror: only bits of
      the written value (`MirrorKeepsReadBack` shows which). */
  function MirrorValue(reg: bv8, value: bv8): (v: bv8)
    ensures v & !value == 0
  {
    if reg == NR10 then value & 0x7F
    else if reg == NR14 || reg == NR24 || reg == NR34 then value & 0xC7
    else if reg == NR30 then value & 0x80
    else if reg == NR32 then value & 0x60
    else if reg == NR41 then value & 0x3F
    else if reg == NR44 then value & 0xC0
    else if reg == NR50 then value & 0x77
    else value
  }

  /** The mirror keeps every bit of a write that its read-back shows, and
      storing a mirrored value again changes nothing. */
  lemma MirrorKeepsReadBack(reg: bv8, value: bv8)
    ensures ReadBackValue(reg, MirrorValue(reg, value)) == ReadBackValue(reg, value)
    ensures MirrorValue(reg, MirrorValue(reg, value)) == MirrorValue(reg, value)
  {
  }

  /** NRx1 to NRx4 of a square channel; `offset` is the x of NRxy minus
      one, i.e. 1 to 4. */
  function WriteSquare(c: Channels.Channel, offset: bv8, value: bv8): (r: Channels.Channel)
    requires Channels.Valid(c) && Channels.IsSquare(c.osc) && 1 <= offset <= 4
    ensures Channels.Valid(r) && Channels.SameKind(r.osc, c.osc)
    ensures r.dacOn == if offset == 2 then value & 0xF8 != 0 else c.dacOn
  {
    if offset == 1 then
      Channels.WriteLengthCounter(Channels.WriteDuty(c, value >> 6), (value & 0x3F) as nat)
    else if offset == 2 then Channels.WriteEnvelope(c, value)
    else if offset == 3 then Channels.WriteFrequencyLsb(c, value)
    else Channels.WriteFrequencyMsb(c, value)
  }

  /** NR10 to NR14. */
  function WriteChannel1(c: Channels.Channel, reg: bv8, value: bv8): (r: Channels.Channel)
    requires Channels.Valid(c) && c.osc.SweepPulse? && NR10 <= reg <= NR14
    ensures Channels.Valid(r) && r.osc.SweepPulse?
    ensures r.dacOn == if reg == NR12 then value & 0xF8 != 0 else c.dacOn
  {
    if reg == NR10 then Channels.WriteSweep(c, value) else WriteSquare(c, reg - NR10, value)
  }

  /** NR21 to NR24. */
  function WriteChannel2(c: Channels.Channel, reg: bv8, value: bv8): (r: Channels.Channel)
    requires Channels.Valid(c) && c.osc.Pulse? && NR21 <= reg <= NR24
    ensures Channels.Valid(r) && r.osc.Pulse?
    ensures r.dacOn == if reg == NR22 then value & 0xF8 != 0 else c.dacOn
  {
    WriteSquare(c, reg - UNUSED1, value)
  }

  /** NR30 to NR34. NR31 loads all eight bits into the length counter. */
  function WriteChannel3(c: Channels.Channel, reg: bv8, value: bv8): (r: Channels.Channel)
    requires Channels.Valid(c) && c.osc.Wave? && NR30 <= reg <= NR34
    ensures Channels.Valid(r) && r.osc.Wave?
    ensures r.dacOn == if reg == NR30 then value & 0x80 != 0 else c.dacOn
  {
    if reg == NR30 then Channels.SetDacEnable(c, value & 0x80 != 0)
    else if reg == NR31 then Channels.WriteLengthCounter(c, value as nat)
    else if reg == NR32 then Channels.WriteVolume(c, value)
    else if reg == NR33 then Channels.WriteFrequencyLsb(c, value)
    else Channels.WriteFrequencyMsb(c, value)
  }

  /** NR41 to NR44. */
  function WriteChannel4(c: Channels.Channel, reg: bv8, value: bv8): (r: Channels.Channel)
    requires Channels.Valid(c) && c.osc.Noise? && NR41 <= reg <= NR44
    ensures Channels.Valid(r) && r.osc.Noise?
    ensures r.dacOn == if reg == NR42 then value & 0xF8 != 0 else c.dacOn
  {
    if reg == NR41 then Channels.WriteLengthCounter(c, (value & 0x3F) as nat)
    else if reg == NR42 then Channels.WriteEnvelope(c, value)
    else if reg == NR43 then Channels.WriteFrequencyLsb(c, value)
    else Channels.WriteFrequencyMsb(c, value)
  }

  /** The two NR51 bits of channel `i`, moved down to bits 0 and 4. */
  function ChannelBits(value: bv8, i: nat): (b: bv8)
    requires i < 4
    ensures b & !0x11 == 0
    ensures (b & 0x01 != 0 <==> (value >> i) & 1 == 1) && (b & 0x10 != 0 <==> (value >> (i + 4)) & 1 == 1)
  {
    (value >> i) & 0x11
  }

  /** NR51: channel `i` takes bit `i` (right) and bit `i + 4` (left). */
  function WritePannings(pannings: seq<bv8>, value: bv8): (r: seq<bv8>)
    requires |pannings| == 4
    ensures |r| == 4
    ensures forall i :: 0 <= i < 4 ==>
      && (MixModes.PansRight(r[i]) <==> (value >> i) & 1 == 1)
      && (MixModes.PansLeft(r[i]) <==> (value >> (i + 4)) & 1 == 1)
      && MixModes.IsHighQuality(r[i]) == MixModes.IsHighQuality(pannings[i])
  {
    seq(4, i requires 0 <= i < 4 => MixModes.SetPanning(pannings[i], ChannelBits(value, i)))
  }

  /** The effect of a write to NR10..NR51 on everything but the mirror. */
  function WriteEffect(a: Apu, reg: bv8, value: bv8): (r: Apu)
    requires Valid(a) && NR10 <= reg <= NR51
    ensures Valid(r)
    ensures r.regs == a.regs && r.enabled == a.enabled && r.model == a.model && r.quality == a.quality
    ensures r.cycletime == a.cycletime && r.mixed == a.mixed && r.sequencer == a.sequencer
    ensures r.cf.ch1.dacOn == if reg == NR12 then value & 0xF8 != 0 else a.cf.ch1.dacOn
    ensures r.cf.ch2.dacOn == if reg == NR22 then value & 0xF8 != 0 else a.cf.ch2.dacOn
    ensures r.cf.ch3.dacOn == if reg == NR30 then value & 0x80 != 0 else a.cf.ch3.dacOn
    ensures r.cf.ch4.dacOn == if reg == NR42 then value & 0xF8 != 0 else a.cf.ch4.dacOn
    ensures reg != NR50 ==> r.leftVolume == a.leftVolume && r.rightVolume == a.rightVolume
    ensures reg != NR51 ==> r.pannings == a.pannings
  {
    var cf := a.cf;
    if reg <= NR14 then a.(cf := cf.(ch1 := WriteChannel1(cf.ch1, reg, value)))
    else if reg == UNUSED1 then a
    else if reg <= NR24 then a.(cf := cf.(ch2 := WriteChannel2(cf.ch2, reg, value)))
    else if reg <= NR34 then a.(cf := cf.(ch3 := WriteChannel3(cf.ch3, reg, value)))
    else if reg == UNUSED2 then a
    else if reg <= NR44 then a.(cf := cf.(ch4 := WriteChannel4(cf.ch4, reg, value)))
    else if reg == NR50 then a.(leftVolume := VolumeOf(value >> 4), rightVolume := VolumeOf(value))
    else a.(pannings := WritePannings(a.pannings, value))
  }

  /** A write to wave RAM: dropped while the bus cannot reach it. */
  function WriteWaveRam(a: Apu, reg: bv8, value: bv8): (r: Apu)
    requires Valid(a) && IsWaveRam(reg)
    ensures Valid(r)
    ensures r.model == a.model && r.quality == a.quality && r.enabled == a.enabled
    ensures r.cycletime == a.cycletime && r.sequencer == a.sequencer && r.mixed == a.mixed
    ensures !WaveRamOpen(a) ==> r == a
    ensures WaveRamOpen(a) ==>
      && r.cf.ch3.osc.waveram == a.cf.ch3.osc.waveram[WaveRamIndex(reg) := value]
      && SameView(a.(cf := a.cf.(ch3 := a.cf.ch3.(osc := r.cf.ch3.osc))), r)
      && r == a.(cf := r.cf)
  {
    if WaveRamOpen(a) then
      var Wave(last, shift, volume, index, sample, ram) := a.cf.ch3.osc;
      var ch3 := a.cf.ch3.(osc := Channels.Wave(last, shift, volume, index, sample, ram[WaveRamIndex(reg) := value]));
      a.(cf := a.cf.(ch3 := ch3))
    else a
  }

  /** The switch of `writeRegister` for every address but NR52, after the
      autostep and the power gate. */
  function WriteNow(a: Apu, reg: bv8, value: bv8): (r: Apu)
    requires Valid(a) && reg != NR52
    ensures Valid(r)
    ensures r.model == a.model && r.quality == a.quality && r.enabled == a.enabled
    ensures r.cycletime == a.cycletime && r.sequencer == a.sequencer && r.mixed == a.mixed
    ensures !Listed(reg) ==> r == a
    ensures IsWaveRam(reg) ==> r == WriteWaveRam(a, reg, value)
  {
    if NR10 <= reg <= NR51 && reg != UNUSED1 && reg != UNUSED2 then
      var e := WriteEffect(a, reg, value);
      e.(regs := e.regs[MirrorIndex(reg) := MirrorValue(reg, value)])
    else if IsWaveRam(reg) then WriteWaveRam(a, reg, value)
    else a
  }

  /** A write to an address other than NR52 once the autostep is done:
      dropped below NR52 while powered off. */
  function WriteGated(a: Apu, reg: bv8, value: bv8): (r: Apu)
    requires Valid(a) && reg != NR52
    ensures Valid(r)
    ensures r.model == a.model && r.quality == a.quality && r.enabled == a.enabled
    ensures r.cycletime == a.cycletime && r.sequencer == a.sequencer && r.mixed == a.mixed
    ensures !a.enabled && reg < NR52 ==> r == a
  {
    if !a.enabled && reg < NR52 then a else WriteNow(a, reg, value)
  }

  /** Power on: the frame sequencer starts over. */
  function PowerOn(a: Apu): (r: Apu)
    requires Valid(a) && !a.enabled
    ensures Valid(r) && r.enabled && r.sequencer == FrameSequencer.Reset()
    ensures r == a.(enabled := true, sequencer := r.sequencer, regs := r.regs)
    ensures r.regs == a.regs[NR52_INDEX := 0x80]
  {
    a.(enabled := true, sequencer := FrameSequencer.Reset(), regs := a.regs[NR52_INDEX := a.regs[NR52_INDEX] | 0x80])
  }

  /** The state a shutdown leaves: mirror cleared, every DAC off (hence
      every channel disabled), no channel routed to a terminal, both master
      volumes at their lowest step. */
  ghost predicate PoweredDown(a: Apu)
    requires Valid(a)
  {
    && !a.enabled
    && a.regs == Zeroes(REGISTER_COUNT)
    && !a.cf.ch1.dacOn && !a.cf.ch2.dacOn && !a.cf.ch3.dacOn && !a.cf.ch4.dacOn
    && a.cf.ch1.disabled && a.cf.ch2.disabled && a.cf.ch3.disabled && a.cf.ch4.disabled
    && Silent(a.pannings)
    && a.leftVolume == 1 && a.rightVolume == 1
  }

  /** Power off: `writeRegister(i, 0)`, default autostep included, for
      every address from NR10 up to NR51 (the unused ones too), then the
      power bit is cleared. */
  method PowerOff(a: Apu) returns (r: Apu)
    requires Valid(a) && a.enabled
    ensures Valid(r) && PoweredDown(r)
    ensures r.model == a.model && r.quality == a.quality
    ensures r.cycletime == a.cycletime + 22 * AUTOSTEP
  {
    var s := a;
    var i := NR10;
    while i < NR52
      invariant NR10 <= i <= NR52
      invariant Valid(s) && s.enabled && s.model == a.model && s.quality == a.quality
      invariant ClearedBelow(s, i)
      invariant s.cycletime == a.cycletime + AUTOSTEP * MirrorIndex(i)
      decreases NR52 - i
    {
      var t := Step(s, AUTOSTEP);
      StepKeepsCleared(s, t, i);
      s := WriteGated(t, i, 0);
      ZeroWriteClears(t, i);
      MirrorIndexNext(i);
      i := i + 1;
    }
    r := s.(enabled := false, regs := s.regs[NR52_INDEX := s.regs[NR52_INDEX] & 0x7F]);
    ClearedIsPoweredDown(s, r);
  }

  /** An NR52 write acts only when bit 7 differs from the power state. */
  method WriteNr52(a: Apu, value: bv8) returns (r: Apu)
    requires Valid(a)
    ensures Valid(r) && r.model == a.model && r.quality == a.quality
    ensures r.enabled == (value & 0x80 != 0)
    ensures (value & 0x80 != 0) == a.enabled ==> r == a
    ensures a.enabled && value & 0x80 == 0 ==> PoweredDown(r) && r.cycletime == a.cycletime + 22 * AUTOSTEP
    ensures !a.enabled && value & 0x80 != 0 ==> r == PowerOn(a)
  {
    if (value & 0x80 != 0) == a.enabled {
      r := a;
    } else if a.enabled {
      r := PowerOff(a);
    } else {
      r := PowerOn(a);
    }
  }

  /** A write to any address but NR52, after the autostep. */
  method WriteOther(a: Apu, reg: bv8, value: bv8) returns (r: Apu)
    requires Valid(a) && reg != NR52
    ensures Valid(r) && r.model == a.model && r.quality == a.quality && r.enabled == a.enabled
    ensures r.cycletime == a.cycletime
    ensures (!a.enabled && reg < NR52) || !Listed(reg) ==> r == a
    ensures a.enabled && NR10 <= reg <= NR51 ==> ReadNow(r, reg) == ReadBackValue(reg, value)
    ensures a.enabled && reg == NR51 ==> forall i :: 0 <= i < 4 ==>
      && (MixModes.PansRight(r.pannings[i]) <==> (value >> i) & 1 == 1)
      && (MixModes.PansLeft(r.pannings[i]) <==> (value >> (i + 4)) & 1 == 1)
    ensures IsWaveRam(reg) ==> WaveRamOpen(r) == WaveRamOpen(a)
    ensures IsWaveRam(reg) ==> if WaveRamOpen(a) then ReadNow(r, reg) == value else r == a
  {
    r := WriteGated(a, reg, value);
    if a.enabled && NR10 <= reg <= NR51 {
      ReadBack(a, reg, value);
    }
    if a.enabled && reg == NR51 {
      PanningFromNr51(a, value);
    }
    if IsWaveRam(reg) {
      WaveRamGate(a, reg, value);
    }
  }

  /** `writeRegister`: step by `autostep`, then write. While powered off
      only NR52 and wave RAM take writes. A write to NR10..NR51 reads back
      as `ReadBackValue` says; NR52 switches the power; wave RAM takes the
      byte only while the bus can reach it. */
  method WriteRegister(a: Apu, reg: bv8, value: bv8, autostep: nat) returns (r: Apu)
    requires Valid(a)
    ensures Valid(r) && r.model == a.model && r.quality == a.quality
    ensures r.enabled == if reg == NR52 then value & 0x80 != 0 else a.enabled
    ensures reg != NR52 ==> r.cycletime == a.cycletime + autostep
    ensures (!a.enabled && reg < NR52) || !Listed(reg) ==> SameView(a, r)
    ensures (!a.enabled && reg < NR52) || !Listed(reg) ==> r == SteppedTo(a, r.cycletime)
    ensures a.enabled && NR10 <= reg <= NR51 ==> ReadNow(r, reg) == ReadBackValue(reg, value)
    ensures a.enabled && reg == NR51 ==> forall i :: 0 <= i < 4 ==>
      && (MixModes.PansRight(r.pannings[i]) <==> (value >> i) & 1 == 1)
      && (MixModes.PansLeft(r.pannings[i]) <==> (value >> (i + 4)) & 1 == 1)
    ensures reg == NR52 ==> ReadNow(r, NR52) & 0x80 == value & 0x80
    ensures reg == NR52 && a.enabled && value & 0x80 == 0 ==>
      && PoweredDown(r)
      && r.cycletime == a.cycletime + autostep + 22 * AUTOSTEP
      && ReadNow(r, NR52) == 0x70
    ensures reg == NR52 && !a.enabled && value & 0x80 != 0 ==>
      r.sequencer == FrameSequencer.Reset() && r.regs == a.regs[NR52_INDEX := 0x80]
    ensures IsWaveRam(reg) ==>
      if WaveRamOpen(r) then ReadNow(r, reg) == value else SameView(a, r)
    ensures IsWaveRam(reg) && !WaveRamOpen(r) ==> r == SteppedTo(a, r.cycletime)
  {
    var s := Step(a, autostep);
    if reg == NR52 {
      r := WriteNr52(s, value);
      if a.enabled && value & 0x80 == 0 {
        PoweredDownNr52(r);
      }
    } else {
      r := WriteOther(s, reg, value);
    }
  }

  // ----------------------------------------------------------- properties ---

  /** What a register reads back right after a write while powered on.
      Write-only fields read as ones: the frequency bytes, the length
      loads, bit 7 of NR10, the low bits of NRx4, and so on. */
  function ReadBackValue(reg: bv8, value: bv8): bv8
  {
    if reg == NR10 then value & 0x7F
    else if reg == NR11 || reg == NR21 then value | 0x3F
    else if reg == NR12 || reg == NR22 || reg == NR42 || reg == NR43 || reg == NR51 then value
    else if reg == NR14 || reg == NR24 || reg == NR34 || reg == NR44 then (value & 0x40) | 0xBF
    else if reg == NR30 then (value & 0x80) | 0x7F
    else if reg == NR32 then value | 0x9F
    else if reg == NR50 then value & 0x77
    else 0xFF
  }

  /** A read sees only what `SameView` keeps, wave RAM aside. */
  lemma ReadNowView(a: Apu, b: Apu, reg: bv8)
    requires Valid(a) && Valid(b) && SameView(a, b) && !IsWaveRam(reg)
    ensures ReadNow(a, reg) == ReadNow(b, reg)
  {
    var va1, vb1 := Channels.VisibleOf(a.cf.ch1), Channels.VisibleOf(b.cf.ch1);
    assert va1.osc.sweepRegister == vb1.osc.sweepRegister && va1.osc.duty == vb1.osc.duty;
    var va2, vb2 := Channels.VisibleOf(a.cf.ch2), Channels.VisibleOf(b.cf.ch2);
    assert va2.osc.duty == vb2.osc.duty;
    var va3, vb3 := Channels.VisibleOf(a.cf.ch3), Channels.VisibleOf(b.cf.ch3);
    assert va3.osc.volumeShift == vb3.osc.volumeShift;
    var va4, vb4 := Channels.VisibleOf(a.cf.ch4), Channels.VisibleOf(b.cf.ch4);
    assert va4.osc.frequency == vb4.osc.frequency;
  }

  /** The read-back table, for a write and a read with no step between. */
  lemma ReadBack(a: Apu, reg: bv8, value: bv8)
    requires Valid(a) && a.enabled && NR10 <= reg <= NR51
    ensures ReadNow(WriteNow(a, reg, value), reg) == ReadBackValue(reg, value)
  {
    if reg == UNUSED1 || reg == UNUSED2 {
    } else if reg <= NR44 {
      ReadBackChannels(a, reg, value);
    } else if reg == NR50 {
      ReadBackNr50(a, value);
    } else {
      ReadBackNr51(a, value);
    }
  }

  lemma ReadBackSquare(c: Channels.Channel, offset: bv8, value: bv8)
    requires Channels.Valid(c) && Channels.IsSquare(c.osc) && 1 <= offset <= 4
    ensures ReadSquare(WriteSquare(c, offset, value), offset) == ReadBackValue(offset + UNUSED1, value)
  {
    if offset == 1 {
      assert WriteSquare(c, offset, value).osc.duty == value >> 6;
    }
  }

  lemma ReadBackChannel1(c: Channels.Channel, reg: bv8, value: bv8)
    requires Channels.Valid(c) && c.osc.SweepPulse? && NR10 <= reg <= NR14
    ensures ReadChannel1(WriteChannel1(c, reg, value), reg) == ReadBackValue(reg, value)
  {
    if reg != NR10 {
      ReadBackSquare(c, reg - NR10, value);
    }
  }

  lemma ReadBackChannel3(c: Channels.Channel, reg: bv8, value: bv8)
    requires Channels.Valid(c) && c.osc.Wave? && NR30 <= reg <= NR34
    ensures ReadChannel3(WriteChannel3(c, reg, value), reg) == ReadBackValue(reg, value)
  {
  }

  lemma ReadBackChannel4(c: Channels.Channel, reg: bv8, value: bv8)
    requires Channels.Valid(c) && c.osc.Noise? && NR41 <= reg <= NR44
    ensures ReadChannel4(WriteChannel4(c, reg, value), reg) == ReadBackValue(reg, value)
  {
  }

  /** A write to a channel's registers reaches only that channel, and a
      read of them looks only at that channel. */
  lemma WriteNowChannel(a: Apu, reg: bv8, value: bv8)
    requires Valid(a) && NR10 <= reg <= NR44 && reg != UNUSED1 && reg != UNUSED2
    ensures var r := WriteNow(a, reg, value);
            && r.enabled == a.enabled
            && (reg <= NR14 ==> r.cf.ch1 == WriteChannel1(a.cf.ch1, reg, value))
            && (NR21 <= reg <= NR24 ==> r.cf.ch2 == WriteChannel2(a.cf.ch2, reg, value))
            && (NR30 <= reg <= NR34 ==> r.cf.ch3 == WriteChannel3(a.cf.ch3, reg, value))
            && (NR41 <= reg ==> r.cf.ch4 == WriteChannel4(a.cf.ch4, reg, value))
  {
  }

  lemma ReadNowChannel(a: Apu, reg: bv8)
    requires Valid(a) && a.enabled && NR10 <= reg <= NR44 && reg != UNUSED1 && reg != UNUSED2
    ensures reg <= NR14 ==> ReadNow(a, reg) == ReadChannel1(a.cf.ch1, reg)
    ensures NR21 <= reg <= NR24 ==> ReadNow(a, reg) == ReadSquare(a.cf.ch2, reg - UNUSED1)
    ensures NR30 <= reg <= NR34 ==> ReadNow(a, reg) == ReadChannel3(a.cf.ch3, reg)
    ensures NR41 <= reg ==> ReadNow(a, reg) == ReadChannel4(a.cf.ch4, reg)
  {
  }

  lemma ReadBackChannels(a: Apu, reg: bv8, value: bv8)
    requires Valid(a) && a.enabled && NR10 <= reg <= NR44 && reg != UNUSED1 && reg != UNUSED2
    ensures ReadNow(WriteNow(a, reg, value), reg) == ReadBackValue(reg, value)
  {
    WriteNowChannel(a, reg, value);
    ReadNowChannel(WriteNow(a, reg, value), reg);
    if reg <= NR14 {
      ReadBackChannel1(a.cf.ch1, reg, value);
    } else if reg <= NR24 {
      assert WriteChannel2(a.cf.ch2, reg, value) == WriteSquare(a.cf.ch2, reg - UNUSED1, value);
      ReadBackSquare(a.cf.ch2, reg - UNUSED1, value);
    } else if reg <= NR34 {
      ReadBackChannel3(a.cf.ch3, reg, value);
    } else {
      ReadBackChannel4(a.cf.ch4, reg, value);
    }
  }

  /** NR50 reads back its two 3-bit volume fields. */
  lemma Nr50RoundTrip(value: bv8)
    ensures (VolumeBits(VolumeOf(value >> 4)) << 4) | VolumeBits(VolumeOf(value)) == value & 0x77
  {
    VolumeRoundTrip(value >> 4);
    VolumeRoundTrip(value);
  }

  lemma ReadBackNr51(a: Apu, value: bv8)
    requires Valid(a) && a.enabled
    ensures ReadNow(WriteNow(a, NR51, value), NR51) == value
  {
    WriteNowMirror(a, NR51, value);
  }


  lemma ReadBackNr50(a: Apu, value: bv8)
    requires Valid(a) && a.enabled
    ensures ReadNow(WriteNow(a, NR50, value), NR50) == value & 0x77
  {
    var r := WriteNow(a, NR50, value);
    assert r.leftVolume == VolumeOf(value >> 4) && r.rightVolume == VolumeOf(value);
    Nr50RoundTrip(value);
  }



  /** After an NR51 write, channel `i` pans right iff bit `i` is set and
      left iff bit `i + 4` is set; its quality flag stays, and NR51 reads
      back the value. */
  lemma PanningFromNr51(a: Apu, value: bv8)
    requires Valid(a) && a.enabled
    ensures var r := WriteNow(a, NR51, value);
            && ReadNow(r, NR51) == value
            && forall i :: 0 <= i < 4 ==>
                 && (MixModes.PansRight(r.pannings[i]) <==> (value >> i) & 1 == 1)
                 && (MixModes.PansLeft(r.pannings[i]) <==> (value >> (i + 4)) & 1 == 1)
                 && MixModes.IsHighQuality(r.pannings[i]) == MixModes.IsHighQuality(a.pannings[i])
  {
  }

  /** Wave RAM is reachable whether or not the APU is powered: while the
      gate is open a write lands in the channel's table and reads back;
      while it is shut a write changes nothing and a read gives 0xFF. */
  lemma WaveRamGate(a: Apu, reg: bv8, value: bv8)
    requires Valid(a) && IsWaveRam(reg)
    ensures WaveRamOpen(a) ==> ReadNow(WriteNow(a, reg, value), reg) == value
    ensures !WaveRamOpen(a) ==> WriteNow(a, reg, value) == a && ReadNow(a, reg) == 0xFF
  {
    if WaveRamOpen(a) {
      WaveRamWriteOpen(a, reg, value);
    }
  }

  lemma WaveRamWriteOpen(a: Apu, reg: bv8, value: bv8)
    requires Valid(a) && IsWaveRam(reg) && WaveRamOpen(a)
    ensures ReadNow(WriteNow(a, reg, value), reg) == value
  {
    var r := WriteWaveRam(a, reg, value);
    assert r.cf.ch3.dacOn == a.cf.ch3.dacOn && r.cycletime == a.cycletime;
    assert WaveRamOpen(r);
    assert ReadWaveRam(r, reg) == value;
  }


  /** After a reset the registers read exactly as after construction. */
  lemma ResetReadsAsNew(a: Apu, reg: bv8)
    requires Valid(a)
    ensures ReadNow(Reset(a), reg) == ReadNow(New(a.quality, a.model), reg)
  {
    var r, n := Reset(a), New(a.quality, a.model);
    if IsWaveRam(reg) {
      assert WaveRamOpen(r) && WaveRamOpen(n);
    }
  }

  // ------------------------------------------------------------ power off ---

  /** What the shutdown loop has done once it reaches address `i`. */
  ghost predicate ClearedBelow(a: Apu, i: bv8)
    requires Valid(a) && NR10 <= i <= NR52
  {
    && (forall k :: 0 <= k < MirrorIndex(i) ==> a.regs[k] == 0)
    && (i > NR12 ==> !a.cf.ch1.dacOn)
    && (i > NR22 ==> !a.cf.ch2.dacOn)
    && (i > NR30 ==> !a.cf.ch3.dacOn)
    && (i > NR42 ==> !a.cf.ch4.dacOn)
    && (i > NR50 ==> a.leftVolume == 1 && a.rightVolume == 1)
    && (i > NR51 ==> Silent(a.pannings))
  }

  lemma MirrorIndexNext(i: bv8)
    requires NR10 <= i < NR52
    ensures MirrorIndex(i + 1) == MirrorIndex(i) + 1
  {
  }

  lemma StepKeepsCleared(a: Apu, b: Apu, i: bv8)
    requires Valid(a) && Valid(b) && SameView(a, b) && NR10 <= i <= NR52 && ClearedBelow(a, i)
    ensures ClearedBelow(b, i)
  {
    assert Channels.VisibleOf(a.cf.ch1).dacOn == Channels.VisibleOf(b.cf.ch1).dacOn;
    assert Channels.VisibleOf(a.cf.ch2).dacOn == Channels.VisibleOf(b.cf.ch2).dacOn;
    assert Channels.VisibleOf(a.cf.ch3).dacOn == Channels.VisibleOf(b.cf.ch3).dacOn;
    assert Channels.VisibleOf(a.cf.ch4).dacOn == Channels.VisibleOf(b.cf.ch4).dacOn;
  }

  /** A write to a listed address below NR52 stores the masked value in
      the mirror and touches nothing else of it. */
  lemma WriteNowMirror(a: Apu, reg: bv8, value: bv8)
    requires Valid(a) && NR10 <= reg <= NR51 && reg != UNUSED1 && reg != UNUSED2
    ensures WriteNow(a, reg, value).regs == a.regs[MirrorIndex(reg) := MirrorValue(reg, value)]
  {
  }

  /** Writing zero to address `i` extends the cleared prefix by one. */
  lemma ZeroWriteClears(a: Apu, i: bv8)
    requires Valid(a) && a.enabled && NR10 <= i < NR52 && ClearedBelow(a, i)
    ensures ClearedBelow(WriteNow(a, i, 0), i + 1)
  {
    ZeroWriteRegs(a, i);
    ZeroWriteDacs(a, i);
    ZeroWriteControl(a, i);
  }

  lemma ZeroWriteRegs(a: Apu, i: bv8)
    requires Valid(a) && a.enabled && NR10 <= i < NR52 && ClearedBelow(a, i)
    ensures forall k :: 0 <= k < MirrorIndex(i + 1) ==> WriteNow(a, i, 0).regs[k] == 0
  {
    MirrorIndexNext(i);
    if i != UNUSED1 && i != UNUSED2 {
      WriteNowMirror(a, i, 0);
      assert MirrorValue(i, 0) == 0;
    }
  }

  lemma ZeroWriteDacs(a: Apu, i: bv8)
    requires Valid(a) && a.enabled && NR10 <= i < NR52 && ClearedBelow(a, i)
    ensures var r := WriteNow(a, i, 0);
            && (i + 1 > NR12 ==> !r.cf.ch1.dacOn)
            && (i + 1 > NR22 ==> !r.cf.ch2.dacOn)
            && (i + 1 > NR30 ==> !r.cf.ch3.dacOn)
            && (i + 1 > NR42 ==> !r.cf.ch4.dacOn)
  {
    if i != UNUSED1 && i != UNUSED2 {
      WriteNowEffect(a, i, 0);
    }
  }

  lemma ZeroWriteControl(a: Apu, i: bv8)
    requires Valid(a) && a.enabled && NR10 <= i < NR52 && ClearedBelow(a, i)
    ensures var r := WriteNow(a, i, 0);
            && (i + 1 > NR50 ==> r.leftVolume == 1 && r.rightVolume == 1)
            && (i + 1 > NR51 ==> Silent(r.pannings))
  {
    if i != UNUSED1 && i != UNUSED2 {
      WriteNowEffect(a, i, 0);
      if i == NR51 {
        var r := WriteNow(a, i, 0);
        assert forall k :: 0 <= k < 4 ==> !MixModes.Audible(r.pannings[k]);
      }
    }
  }

  /** Apart from the mirror, a write to a listed address below NR52 does
      what `WriteEffect` does. */
  lemma WriteNowEffect(a: Apu, reg: bv8, value: bv8)
    requires Valid(a) && NR10 <= reg <= NR51 && reg != UNUSED1 && reg != UNUSED2
    ensures WriteNow(a, reg, value) == WriteEffect(a, reg, value).(regs := WriteNow(a, reg, value).regs)
  {
  }

  lemma ClearedIsPoweredDown(s: Apu, r: Apu)
    requires Valid(s) && s.enabled && ClearedBelow(s, NR52)
    requires r == s.(enabled := false, regs := s.regs[NR52_INDEX := s.regs[NR52_INDEX] & 0x7F])
    ensures Valid(r) && PoweredDown(r)
  {
    assert r.regs == Zeroes(REGISTER_COUNT);
  }

  /** A powered-down APU reports all four DACs off in NR52. */
  lemma PoweredDownNr52(a: Apu)
    requires Valid(a) && PoweredDown(a)
    ensures ReadNow(a, NR52) == 0x70
  {
  }
}
