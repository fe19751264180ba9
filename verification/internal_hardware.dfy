/** `Hardware` of the self-contained rewrite (src/_internal.cpp): four
    channels with their length counters, the envelopes of channels 1, 2 and
    4, the sweep of channel 1 and the frame sequencer, stepped together by
    `Hardware::run` to the beat of the sequencer.

    The mixer is a sink. What the channels hand to it is recorded as a list
    of integer events (channel, mode, output delta, cycle time); the
    band-limited synthesis that turns them into samples is not part of this
    model. */
module InternalHardware {
  import opened Bits
  import opened Timers
  import C = Channels
  import IC = InternalChannels
  import IFF = InternalFastForward
  import IM = InternalModulators
  import IT = InternalTimer
  import FS = FrameSequencer

  /** The rewrite's per-channel mix mode. */
  datatype MixMode = Mute | Left | Right | Middle

  /** An output change handed to the mixer. */
  datatype Emit = Emit(channel: nat, mode: MixMode, delta: int, time: nat)

  /** `mLengthCounters`, `mEnvelopes`, `mSweep`, `mSequencer`, `mChannels`,
      `mMix`, `mLastOutputs`. `lastOutputs[i]` is the level of channel `i`
      that the mixer has been told about. */
  datatype Hardware = Hardware(
    lengthCounters: seq<IM.LengthCounter>,
    envelopes: seq<C.Envelope>,
    sweep: C.Sweep,
    sequencer: FS.Sequencer,
    channels: seq<IC.Channel>,
    mix: seq<MixMode>,
    lastOutputs: seq<nat>)

  /** The length counter maxima: the wave channel counts 256. */
  const LENGTH_MAX: seq<nat> := [64, 64, 256, 64]

  ghost predicate Valid(hw: Hardware)
  {
    && |hw.lengthCounters| == 4
    && (forall i :: 0 <= i < 4 ==> hw.lengthCounters[i].counterMax == LENGTH_MAX[i])
    && |hw.envelopes| == 3
    && (forall i :: 0 <= i < 3 ==> C.ValidEnvelope(hw.envelopes[i]))
    && C.ValidSweep(hw.sweep)
    && FS.ValidSequencer(hw.sequencer)
    && ValidChannels(hw.channels)
    && |hw.mix| == 4
    && |hw.lastOutputs| == 4
    && (forall i :: 0 <= i < 4 ==> hw.lastOutputs[i] <= 15)
  }

  /** Two pulse channels, the wave channel and the noise channel. */
  ghost predicate ValidChannels(chs: seq<IC.Channel>)
  {
    && |chs| == 4
    && (forall i :: 0 <= i < 4 ==> IC.Valid(chs[i]))
    && chs[0].osc.Pulse? && chs[1].osc.Pulse? && chs[2].osc.Wave? && chs[3].osc.Noise?
  }

  /** The volume channel `i` reads through its envelope reference; the wave
      channel has no envelope. */
  function Volume(hw: Hardware, i: nat): (v: nat)
    requires Valid(hw) && i < 4
    ensures v <= 15
    ensures i == 2 ==> v == 0
  {
    if i == 0 then hw.envelopes[0].volume
    else if i == 1 then hw.envelopes[1].volume
    else if i == 3 then hw.envelopes[2].volume
    else 0
  }

  // ------------------------------------------------------------- events ---

  /** The deltas the mixer received for channel `i`. */
  function SumFor(ev: seq<Emit>, i: nat): int
  {
    if |ev| == 0 then 0 else (if ev[0].channel == i then ev[0].delta else 0) + SumFor(ev[1..], i)
  }

  lemma {:induction false} SumForAppend(a: seq<Emit>, b: seq<Emit>, i: nat)
    ensures SumFor(a + b, i) == SumFor(a, i) + SumFor(b, i)
    decreases |a|
  {
    if |a| > 0 {
      assert (a + b)[0] == a[0];
      assert (a + b)[1..] == a[1..] + b;
      SumForAppend(a[1..], b, i);
    } else {
      assert a + b == b;
    }
  }

  /** Every event is about channel `i`. */
  predicate AllFor(ev: seq<Emit>, i: nat)
  {
    forall k :: 0 <= k < |ev| ==> ev[k].channel == i
  }

  lemma {:induction false} SumForOther(ev: seq<Emit>, i: nat, j: nat)
    requires AllFor(ev, i) && i != j
    ensures SumFor(ev, j) == 0
    decreases |ev|
  {
    if |ev| > 0 {
      SumForOther(ev[1..], i, j);
    }
  }

  /** Every event falls in the cycle times `lo..hi`. */
  predicate Within(ev: seq<Emit>, lo: nat, hi: int)
  {
    forall k :: 0 <= k < |ev| ==> lo <= ev[k].time <= hi
  }

  lemma WithinAppend(a: seq<Emit>, b: seq<Emit>, lo: nat, hi: int)
    requires Within(a, lo, hi) && Within(b, lo, hi)
    ensures Within(a + b, lo, hi)
  {
    forall k | 0 <= k < |a + b|
      ensures lo <= (a + b)[k].time <= hi
    {
      if k >= |a| {
        assert (a + b)[k] == b[k - |a|];
      }
    }
  }

  /** The `mixChanges` lambda: a changed output is handed over as the
      difference from the last level. */
  function MixChange(i: nat, mode: MixMode, out: nat, last: nat, time: nat): (ev: seq<Emit>)
    ensures SumFor(ev, i) == out as int - last as int && AllFor(ev, i) && Within(ev, time, time)
    ensures out == last <==> ev == []
  {
    if out != last then [Emit(i, mode, out - last, time)] else []
  }

  // ---------------------------------------------------------- new/reset ---

  /** `Hardware()`: everything reset, all channels muted. */
  function NewHardware(): (hw: Hardware)
    ensures Valid(hw)
  {
    Hardware(
      [IM.NewLengthCounter(64), IM.NewLengthCounter(64), IM.NewLengthCounter(256), IM.NewLengthCounter(64)],
      [IM.EnvelopeReset(), IM.EnvelopeReset(), IM.EnvelopeReset()],
      IM.SweepReset(),
      FS.Reset(),
      [IC.NewPulse(), IC.NewPulse(), IC.NewWave(), IC.NewNoise()],
      [Mute, Mute, Mute, Mute],
      [0, 0, 0, 0])
  }

  /** `Hardware::reset`: every part resets and every channel is muted. */
  function Reset(hw: Hardware): (r: Hardware)
    requires Valid(hw)
    ensures Valid(r)
    ensures forall i :: 0 <= i < 4 ==>
      !r.lengthCounters[i].enabled && r.lengthCounters[i].counter == 0
      && r.lengthCounters[i].counterMax == hw.lengthCounters[i].counterMax
    ensures forall i :: 0 <= i < 3 ==> r.envelopes[i] == C.Envelope(0, 0, 0, false, 0)
    ensures r.sweep == C.Sweep(false, 0, 0, 0, 0, 0) && r.sequencer == FS.Reset()
    ensures forall i :: 0 <= i < 4 ==> r.channels[i] == IC.Reset(hw.channels[i])
    ensures r.mix == [Mute, Mute, Mute, Mute] && r.lastOutputs == [0, 0, 0, 0]
  {
    var chs := hw.channels;
    Hardware(
      [IM.LengthReset(hw.lengthCounters[0]), IM.LengthReset(hw.lengthCounters[1]),
       IM.LengthReset(hw.lengthCounters[2]), IM.LengthReset(hw.lengthCounters[3])],
      [IM.EnvelopeReset(), IM.EnvelopeReset(), IM.EnvelopeReset()],
      IM.SweepReset(),
      FS.Reset(),
      [IC.Reset(chs[0]), IC.Reset(chs[1]), IC.Reset(chs[2]), IC.Reset(chs[3])],
      [Mute, Mute, Mute, Mute],
      [0, 0, 0, 0])
  }

  /** A reset is a fresh construction except for the channel timers'
      counters, which `reset` does not reload. */
  lemma ResetIsNew(hw: Hardware)
    requires Valid(hw)
    ensures Reset(hw).(channels := NewHardware().channels) == NewHardware()
    ensures forall i :: 0 <= i < 4 ==>
      Reset(hw).channels[i] == NewHardware().channels[i].(timer := Timer(hw.channels[i].timer.timer, NewHardware().channels[i].timer.period))
  {
    var chs := hw.channels;
    IC.ResetIsNew(chs[0]);
    IC.ResetIsNew(chs[1]);
    IC.ResetIsNew(chs[2]);
    IC.ResetIsNew(chs[3]);
  }

  // ------------------------------------------------------ frame clocks ---

  /** `Hardware::clockEnvelopes`: the three envelopes, nothing else. */
  function ClockEnvelopes(hw: Hardware): (r: Hardware)
    requires Valid(hw)
    ensures Valid(r)
    ensures r == hw.(envelopes := r.envelopes)
    ensures forall i :: 0 <= i < 3 ==> r.envelopes[i] == IM.EnvelopeClock(hw.envelopes[i])
  {
    hw.(envelopes := [IM.EnvelopeClock(hw.envelopes[0]), IM.EnvelopeClock(hw.envelopes[1]),
                      IM.EnvelopeClock(hw.envelopes[2])])
  }

  /** `Hardware::clockLengthCounters`: each counter with its own channel. */
  function ClockLengthCounters(hw: Hardware): (r: Hardware)
    requires Valid(hw)
    ensures Valid(r)
    ensures r == hw.(lengthCounters := r.lengthCounters, channels := r.channels)
    ensures forall i :: 0 <= i < 4 ==>
      (r.lengthCounters[i], r.channels[i]) == IM.LengthClock(hw.lengthCounters[i], hw.channels[i])
  {
    var chs := hw.channels;
    var lcs := hw.lengthCounters;
    var (l0, c0) := IM.LengthClock(lcs[0], chs[0]);
    var (l1, c1) := IM.LengthClock(lcs[1], chs[1]);
    var (l2, c2) := IM.LengthClock(lcs[2], chs[2]);
    var (l3, c3) := IM.LengthClock(lcs[3], chs[3]);
    hw.(lengthCounters := [l0, l1, l2, l3], channels := [c0, c1, c2, c3])
  }

  /** `Hardware::clockSweep`: the sweep acts on channel 1 only. */
  function ClockSweep(hw: Hardware): (r: Hardware)
    requires Valid(hw)
    ensures Valid(r)
    ensures r == hw.(sweep := r.sweep, channels := r.channels)
    ensures r.channels == hw.channels[0 := r.channels[0]]
    ensures (r.sweep, r.channels[0]) == IM.SweepClock(hw.sweep, hw.channels[0])
  {
    var (s, c0) := IM.SweepClock(hw.sweep, hw.channels[0]);
    hw.(sweep := s, channels := hw.channels[0 := c0])
  }

  /** `Sequencer::run`: the sequencer's timer runs, and a fire clocks what
      the table entry names (the sweep before the length counters). The
      caller must not run past the next fire. */
  function SequencerRun(hw: Hardware, cycles: nat): (r: Hardware)
    requires Valid(hw) && cycles <= hw.sequencer.timer.timer
    ensures Valid(r)
    ensures r.sequencer == FS.Advance(hw.sequencer, cycles).0
    ensures r.mix == hw.mix && r.lastOutputs == hw.lastOutputs
    ensures cycles < hw.sequencer.timer.timer ==> r == hw.(sequencer := r.sequencer)
    ensures cycles == hw.sequencer.timer.timer ==>
      var kind := FS.TRIGGER_SEQUENCE[hw.sequencer.triggerIndex].kind;
      var h := hw.(sequencer := r.sequencer);
      && (kind == FS.Lc ==> r == ClockLengthCounters(h))
      && (kind == FS.LcSweep ==> r == ClockLengthCounters(ClockSweep(h)))
      && (kind == FS.Env ==> r == ClockEnvelopes(h))
  {
    var (s, tick) := FS.Advance(hw.sequencer, cycles);
    var h := hw.(sequencer := s);
    match tick
    case Quiet => h
    case Fires(kind) =>
      match kind
      case LcSweep => ClockLengthCounters(ClockSweep(h))
      case Lc => ClockLengthCounters(h)
      case Env => ClockEnvelopes(h)
  }

  /** `Mixer`-free `Hardware::setMix`: the new modes take over. */
  function SetMix(hw: Hardware, mix: seq<MixMode>): (r: Hardware)
    requires Valid(hw) && |mix| == 4
    ensures Valid(r) && r.mix == mix
    ensures r.(mix := hw.mix) == hw
  {
    hw.(mix := mix)
  }

  // ------------------------------------------------------ channel runs ---

  /** The clock loop of `runAndMixChannel`: `k` clocks, one period apart
      starting at `time`, each followed by `mixChanges`. */
  function ClockLoop(i: nat, mode: MixMode, c: IC.Channel, volume: nat, last: nat, time: nat, k: nat)
    : (r: (IC.Channel, nat, seq<Emit>))
    requires IC.Valid(c) && volume <= 15 && last <= 15
    ensures r.0 == IC.ClockTimes(c, k, volume) && r.1 <= 15
    ensures k == 0 ==> r.1 == last && r.2 == []
    ensures k > 0 ==> r.1 == r.0.output
    ensures SumFor(r.2, i) == r.1 as int - last as int && AllFor(r.2, i)
    ensures k > 0 ==> Within(r.2, time, time + (k - 1) * c.timer.period)
    decreases k
  {
    if k == 0 then (c, last, [])
    else
      var c1 := IC.Clock(c, volume);
      var ev := MixChange(i, mode, c1.output, last, time);
      var r := ClockLoop(i, mode, c1, volume, c1.output, time + c.timer.period, k - 1);
      SumForAppend(ev, r.2, i);
      LoopWithin(ev, r.2, time, c.timer.period, k);
      (r.0, r.1, ev + r.2)
  }

  /** The time bound of one more turn of the clock loop. */
  lemma LoopWithin(ev: seq<Emit>, rest: seq<Emit>, time: nat, period: nat, k: nat)
    requires k > 0 && Within(ev, time, time)
    requires k > 1 ==> Within(rest, time + period, time + period + (k - 2) * period)
    requires k == 1 ==> rest == []
    ensures Within(ev + rest, time, time + (k - 1) * period)
  {
    if k > 1 {
      MulSucc(k - 2, period);
    }
    WithinAppend(ev, rest, time, time + (k - 1) * period);
  }

  /** `runAndMixChannel` in an audible mode: mix the current output, then
      jump the timer, then clock the channel once per fire, mixing after
      each clock at the cycle time of the fire. */
  function RunAudible(i: nat, mode: MixMode, c: IC.Channel, volume: nat, last: nat, time: nat, cycles: nat)
    : (r: (IC.Channel, nat, seq<Emit>))
    requires IC.Valid(c) && volume <= 15 && last <= 15
    ensures IC.Valid(r.0) && r.1 == r.0.output
    ensures r.0.timer == IT.FastForward(c.timer, cycles).0
    ensures cycles >= c.timer.timer ==> r.0 == IC.FastForward(c, cycles, volume)
    ensures cycles < c.timer.timer ==> r.0 == c.(timer := r.0.timer)
    ensures SumFor(r.2, i) == r.1 as int - last as int && AllFor(r.2, i)
    ensures Within(r.2, time, time + cycles)
  {
    var ev0 := MixChange(i, mode, c.output, last, time);
    var (t, k) := IT.FastForward(c.timer, cycles);
    var c0 := c.(timer := t);
    var r := ClockLoop(i, mode, c0, volume, c.output, time + c.timer.timer, k);
    SumForAppend(ev0, r.2, i);
    AudibleFacts(c, volume, cycles, time, ev0, r.2);
    (r.0, r.1, ev0 + r.2)
  }

  /** The channel after the loop is the fast-forwarded one, and the last
      fire lands within the cycles run. */
  lemma AudibleFacts(c: IC.Channel, volume: nat, cycles: nat, time: nat, ev0: seq<Emit>, ev: seq<Emit>)
    requires IC.Valid(c) && volume <= 15
    requires Within(ev0, time, time)
    requires var (t, k) := IT.FastForward(c.timer, cycles);
             && (k == 0 ==> ev == [])
             && (k > 0 ==> Within(ev, time + c.timer.timer, time + c.timer.timer + (k - 1) * t.period))
    ensures var (t, k) := IT.FastForward(c.timer, cycles);
            k > 0 ==> IC.ClockTimes(c.(timer := t), k, volume) == IC.FastForward(c, cycles, volume)
    ensures Within(ev0 + ev, time, time + cycles)
  {
    var (t, k) := IT.FastForward(c.timer, cycles);
    IT.FastForwardCountsFires(c.timer, cycles);
    if k > 0 {
      IFF.ClockTimesIsClocked(c.(timer := t), k, volume);
      assert IT.CyclesToFire(c.timer, k) == c.timer.timer + (k - 1) * t.period;
    }
    WithinAppend(ev0, ev, time, time + cycles);
  }

  /** `runChannel` on one channel, its volume and the level the mixer
      holds for it: a channel whose DAC is off or that is disabled is
      silenced (its last level is taken back from the mixer) and then runs
      muted; a muted channel just fast-forwards; an audible one is mixed
      clock by clock. Whatever the mode, the channel ends where
      `fastforward` takes it once its timer has fired. */
  function RunOne(i: nat, mode: MixMode, c: IC.Channel, volume: nat, last: nat, time: nat, cycles: nat)
    : (r: (IC.Channel, nat, seq<Emit>))
    requires IC.Valid(c) && volume <= 15 && last <= 15
    ensures IC.Valid(r.0) && SameShape(c, r.0) && r.1 <= 15
    ensures SumFor(r.2, i) == r.1 as int - last as int && AllFor(r.2, i)
    ensures Within(r.2, time, time + cycles)
    ensures r.0.timer == IT.FastForward(c.timer, cycles).0
    ensures cycles >= c.timer.timer ==> r.0 == IC.FastForward(c, cycles, volume)
    ensures !(c.dacOn && c.enabled) ==> r.1 == 0
    ensures c.dacOn && c.enabled && mode != Mute ==> r.1 == r.0.output
    ensures c.dacOn && c.enabled && mode == Mute ==> r.2 == [] && r.1 == last
  {
    if c.dacOn && c.enabled then
      if mode == Mute then (IC.FastForward(c, cycles, volume), last, [])
      else RunAudible(i, mode, c, volume, last, time, cycles)
    else
      (IC.FastForward(c, cycles, volume), 0, MixChange(i, mode, 0, last, time))
  }

  /** The kind of channel and its frequency stay. */
  predicate SameShape(a: IC.Channel, b: IC.Channel)
  {
    IC.SameKind(a.osc, b.osc) && a.frequency == b.frequency
  }

  /** `runChannel` on the hardware: only channel `i` and its level change. */
  function RunChannel(hw: Hardware, i: nat, time: nat, cycles: nat): (r: (Hardware, seq<Emit>))
    requires Valid(hw) && i < 4
    ensures Valid(r.0)
    ensures r.0 == hw.(channels := r.0.channels, lastOutputs := r.0.lastOutputs)
    ensures var (c, last, ev) := RunOne(i, hw.mix[i], hw.channels[i], Volume(hw, i), hw.lastOutputs[i], time, cycles);
            && r.0.channels == hw.channels[i := c]
            && r.0.lastOutputs == hw.lastOutputs[i := last]
            && r.1 == ev
  {
    var (c, last, ev) := RunOne(i, hw.mix[i], hw.channels[i], Volume(hw, i), hw.lastOutputs[i], time, cycles);
    (hw.(channels := hw.channels[i := c], lastOutputs := hw.lastOutputs[i := last]), ev)
  }

  /** The four `runChannel` calls of one chunk. */
  function RunChannels(hw: Hardware, time: nat, cycles: nat): (r: (Hardware, seq<Emit>))
    requires Valid(hw)
    ensures Valid(r.0)
    ensures r.0 == hw.(channels := r.0.channels, lastOutputs := r.0.lastOutputs)
    ensures forall j :: 0 <= j < 4 ==> SumFor(r.1, j) == r.0.lastOutputs[j] as int - hw.lastOutputs[j] as int
    ensures Within(r.1, time, time + cycles)
  {
    var (h0, e0) := RunChannel(hw, 0, time, cycles);
    var (h1, e1) := RunChannel(h0, 1, time, cycles);
    var (h2, e2) := RunChannel(h1, 2, time, cycles);
    var (h3, e3) := RunChannel(h2, 3, time, cycles);
    ChannelSums(e0, 0, hw.lastOutputs, h0.lastOutputs);
    ChannelSums(e1, 1, h0.lastOutputs, h1.lastOutputs);
    ChannelSums(e2, 2, h1.lastOutputs, h2.lastOutputs);
    ChannelSums(e3, 3, h2.lastOutputs, h3.lastOutputs);
    SumsCompose(e0, e1, hw.lastOutputs, h0.lastOutputs, h1.lastOutputs);
    SumsCompose(e0 + e1, e2, hw.lastOutputs, h1.lastOutputs, h2.lastOutputs);
    SumsCompose(e0 + e1 + e2, e3, hw.lastOutputs, h2.lastOutputs, h3.lastOutputs);
    WithinAppend(e0, e1, time, time + cycles);
    WithinAppend(e0 + e1, e2, time, time + cycles);
    WithinAppend(e0 + e1 + e2, e3, time, time + cycles);
    (h3, e0 + e1 + e2 + e3)
  }

  /** The events of one channel's run account for every channel's level. */
  lemma ChannelSums(ev: seq<Emit>, i: nat, x: seq<nat>, y: seq<nat>)
    requires |x| == 4 && |y| == 4 && i < 4 && y == x[i := y[i]]
    requires AllFor(ev, i) && SumFor(ev, i) == y[i] as int - x[i] as int
    ensures forall j :: 0 <= j < 4 ==> SumFor(ev, j) == y[j] as int - x[j] as int
  {
    forall j | 0 <= j < 4 && j != i
      ensures SumFor(ev, j) == y[j] as int - x[j] as int
    {
      SumForOther(ev, i, j);
    }
  }

  lemma SumsCompose(a: seq<Emit>, b: seq<Emit>, x: seq<nat>, y: seq<nat>, z: seq<nat>)
    requires |x| == 4 && |y| == 4 && |z| == 4
    requires forall j :: 0 <= j < 4 ==> SumFor(a, j) == y[j] as int - x[j] as int
    requires forall j :: 0 <= j < 4 ==> SumFor(b, j) == z[j] as int - y[j] as int
    ensures forall j :: 0 <= j < 4 ==> SumFor(a + b, j) == z[j] as int - x[j] as int
  {
    forall j | 0 <= j < 4
      ensures SumFor(a + b, j) == z[j] as int - x[j] as int
    {
      SumForAppend(a, b, j);
    }
  }

  // ----------------------------------------------------------------- run ---

  /** Running exactly up to the `n`th fire lands on the state the table
      walk reaches after `n` fires; a whole frame of 65536 cycles from a
      state right after a fire comes back to it. */
  lemma {:induction false} SequencerAfterFires(s: FS.Sequencer, n: nat)
    requires FS.ValidSequencer(s)
    ensures FS.After(s, FS.FireTimes(s, n).2) == FS.FireTimes(s, n).0
    decreases n
  {
    if n > 0 {
      var s1 := FS.Fire(s);
      SequencerAfterFires(s1, n - 1);
      assert FS.FireTimes(s, n).2 == s.timer.timer + FS.FireTimes(s1, n - 1).2;
    }
  }

  lemma SequencerFrame(s: FS.Sequencer)
    requires FS.Aligned(s)
    ensures FS.After(s, FS.FRAME_CYCLES) == s
  {
    FS.FrameOfFiveTriggers(s);
    SequencerAfterFires(s, 5);
  }

  /** The length of `Hardware::run`'s next chunk: up to the sequencer's
      next fire or to the end, whichever comes first. */
  function ChunkLength(hw: Hardware, cycles: nat): (n: nat)
    requires Valid(hw) && cycles > 0
    ensures 0 < n <= cycles && n <= hw.sequencer.timer.timer
  {
    Min(hw.sequencer.timer.timer, cycles)
  }

  /** The state after one chunk of `Hardware::run`: the four channels run
      for `n` cycles, then the sequencer runs for the same cycles and a
      fire clocks the length counters, the sweep or the envelopes. */
  function ChunkState(hw: Hardware, time: nat, n: nat): (r: Hardware)
    requires Valid(hw) && n <= hw.sequencer.timer.timer
    ensures Valid(r) && r.mix == hw.mix
    ensures r.sequencer == FS.Advance(hw.sequencer, n).0
  {
    SequencerRun(RunChannels(hw, time, n).0, n)
  }

  /** The events the four channels hand to the mixer in that chunk. */
  function ChunkEvents(hw: Hardware, time: nat, n: nat): (r: seq<Emit>)
    requires Valid(hw) && n <= hw.sequencer.timer.timer
    ensures forall j :: 0 <= j < 4 ==>
      SumFor(r, j) == ChunkState(hw, time, n).lastOutputs[j] as int - hw.lastOutputs[j] as int
    ensures Within(r, time, time + n)
  {
    RunChannels(hw, time, n).1
  }

  /** The cycles a run covers: `cycles` of them, starting at `start`. */
  datatype Span = Span(start: nat, cycles: nat)

  /** What is left of a span after its first `n` cycles. */
  function Rest(w: Span, n: nat): Span
    requires n <= w.cycles
  {
    Span(w.start + n, w.cycles - n)
  }

  /** The state `Hardware::run` reaches, as a recursion over its chunks.
      Each chunk runs up to the sequencer's next fire or to the end,
      whichever comes first; the sequencer's counter is at least 1, so
      every chunk makes progress. */
  function RunState(hw: Hardware, w: Span): (r: Hardware)
    requires Valid(hw)
    decreases w.cycles
  {
    if w.cycles == 0 then hw
    else RunState(ChunkState(hw, w.start, ChunkLength(hw, w.cycles)), Rest(w, ChunkLength(hw, w.cycles)))
  }

  /** The events of `Hardware::run`, chunk after chunk. */
  function RunEvents(hw: Hardware, w: Span): (r: seq<Emit>)
    requires Valid(hw)
    decreases w.cycles
  {
    if w.cycles == 0 then []
    else
      ChunkEvents(hw, w.start, ChunkLength(hw, w.cycles)) +
      RunEvents(ChunkState(hw, w.start, ChunkLength(hw, w.cycles)), Rest(w, ChunkLength(hw, w.cycles)))
  }

  /** The first chunk of `RunState` and `RunEvents`, unfolded. */
  lemma RunUnfold(hw: Hardware, w: Span)
    requires Valid(hw) && w.cycles > 0
    ensures RunState(hw, w) ==
      RunState(ChunkState(hw, w.start, ChunkLength(hw, w.cycles)), Rest(w, ChunkLength(hw, w.cycles)))
    ensures RunEvents(hw, w) ==
      ChunkEvents(hw, w.start, ChunkLength(hw, w.cycles)) +
      RunEvents(ChunkState(hw, w.start, ChunkLength(hw, w.cycles)), Rest(w, ChunkLength(hw, w.cycles)))
  {
  }

  /** What a run promises: the invariant and the mix are kept, the
      sequencer lands on its closed form, each channel's events sum to the
      change in its last output, and every event falls within the span. */
  lemma {:induction false} RunKeeps(hw: Hardware, w: Span)
    requires Valid(hw)
    ensures Valid(RunState(hw, w)) && RunState(hw, w).mix == hw.mix
    ensures RunState(hw, w).sequencer == FS.After(hw.sequencer, w.cycles)
    ensures forall j :: 0 <= j < 4 ==>
      SumFor(RunEvents(hw, w), j) == RunState(hw, w).lastOutputs[j] as int - hw.lastOutputs[j] as int
    ensures Within(RunEvents(hw, w), w.start, w.start + w.cycles)
    decreases w.cycles
  {
    if w.cycles > 0 {
      var n := ChunkLength(hw, w.cycles);
      var next := ChunkState(hw, w.start, n);
      var ev := ChunkEvents(hw, w.start, n);
      var rest := Rest(w, n);
      RunKeeps(next, rest);
      RunUnfold(hw, w);
      FS.AfterUnfold(hw.sequencer, w.cycles);
      SumsCompose(ev, RunEvents(next, rest), hw.lastOutputs, next.lastOutputs, RunState(next, rest).lastOutputs);
      WithinAppend(ev, RunEvents(next, rest), w.start, w.start + w.cycles);
    }
  }

  /** `Hardware::run`: chunk after chunk, it reaches the state and the
      events of `RunState` and `RunEvents`. So the cycles are used up
      exactly, the sequencer lands on its closed form, the mixer's view of
      each channel matches `lastOutputs`, and every event falls within the
      cycles run. */
  method Run(hw: Hardware, cycletime: nat, cycles: nat) returns (r: Hardware, events: seq<Emit>)
    requires Valid(hw)
    ensures r == RunState(hw, Span(cycletime, cycles)) && events == RunEvents(hw, Span(cycletime, cycles))
    ensures Valid(r) && r.mix == hw.mix
    ensures r.sequencer == FS.After(hw.sequencer, cycles)
    ensures forall j :: 0 <= j < 4 ==> SumFor(events, j) == r.lastOutputs[j] as int - hw.lastOutputs[j] as int
    ensures Within(events, cycletime, cycletime + cycles)
    decreases cycles
  {
    RunKeeps(hw, Span(cycletime, cycles));
    if cycles == 0 {
      r, events := hw, [];
    } else {
      var w := Span(cycletime, cycles);
      var toStep := ChunkLength(hw, cycles);
      var next := ChunkState(hw, cycletime, toStep);
      var ev := ChunkEvents(hw, cycletime, toStep);
      var rest := Rest(w, toStep);
      var later;
      r, later := Run(next, rest.start, rest.cycles);
      events := ev + later;
      assert rest == Span(rest.start, rest.cycles);
      RunUnfold(hw, w);
    }
  }
}
