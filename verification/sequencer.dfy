/** The frame sequencer of the class hierarchy: a timer that walks a
    5-entry trigger table and clocks the length counters (256 Hz), the
    sweep of channel 1 (128 Hz) and the envelopes (64 Hz).

    Step:              | 0 | 1 | 2 | 3 | 4 | 5 | 6 | 7 |
    length counters    | x       x       x       x
    sweep              |         x               x
    envelopes          |                             x
*/
module FrameSequencer {
  import opened Bits
  import opened Timers
  import opened Channels

  /** 4194304 Hz / 8192 = 512 Hz. */
  const CYCLES_PER_STEP: nat := 8192
  const SEQUENCER_PERIOD: nat := CYCLES_PER_STEP * 2
  /** One pass over the five triggers. */
  const FRAME_CYCLES: nat := 65536

  datatype TriggerType = LcSweep | Lc | Env

  /** An entry of the table: what to clock, and the period and index that
      take over once it has fired. */
  datatype Trigger = Trigger(nextIndex: nat, nextPeriod: nat, kind: TriggerType)

  const TRIGGER_SEQUENCE: seq<Trigger> := [
    Trigger(1, CYCLES_PER_STEP * 2, Lc),
    Trigger(2, CYCLES_PER_STEP * 2, LcSweep),
    Trigger(3, CYCLES_PER_STEP, Lc),
    Trigger(4, CYCLES_PER_STEP, LcSweep),
    Trigger(0, CYCLES_PER_STEP * 2, Env)
  ]

  datatype Sequencer = Sequencer(timer: Timer, triggerIndex: nat)

  /** The table position after and before `i`, going round. */
  function Next(i: nat): (j: nat)
    requires i < 5
    ensures j < 5
  {
    if i == 4 then 0 else i + 1
  }

  function Prev(i: nat): (j: nat)
    requires i < 5
    ensures j < 5 && Next(j) == i
  {
    if i == 0 then 4 else i - 1
  }

  /** The index is a table position and the period register always holds
      the `nextPeriod` of the trigger that fired last. */
  ghost predicate ValidSequencer(s: Sequencer)
  {
    && s.triggerIndex < 5
    && s.timer.timer > 0
    && s.timer.period == TRIGGER_SEQUENCE[Prev(s.triggerIndex)].nextPeriod
  }

  /** `Sequencer::reset` (and the constructor). */
  function Reset(): (s: Sequencer)
    ensures ValidSequencer(s)
    ensures s.triggerIndex == 0 && s.timer == Timer(16384, 16384)
  {
    Sequencer(New(SEQUENCER_PERIOD), 0)
  }

  /** One trigger applied to the channel file. The sweep runs before the
      length counters; the envelopes of channels 1, 2 and 4 only. */
  function ApplyTrigger(kind: TriggerType, cf: ChannelFile): (r: ChannelFile)
    requires ValidFile(cf)
    ensures ValidFile(r)
    ensures kind == Env ==>
      r == ChannelFile(StepEnvelope(cf.ch1), StepEnvelope(cf.ch2), cf.ch3, StepEnvelope(cf.ch4))
    ensures kind == Lc ==>
      r == ChannelFile(StepLengthCounter(cf.ch1), StepLengthCounter(cf.ch2),
                       StepLengthCounter(cf.ch3), StepLengthCounter(cf.ch4))
    ensures kind == LcSweep ==>
      r == ChannelFile(StepLengthCounter(StepSweep(cf.ch1)), StepLengthCounter(cf.ch2),
                       StepLengthCounter(cf.ch3), StepLengthCounter(cf.ch4))
    ensures VisibleOf(r.ch1) == VisibleOf(cf.ch1) && VisibleOf(r.ch2) == VisibleOf(cf.ch2)
    ensures VisibleOf(r.ch3) == VisibleOf(cf.ch3) && VisibleOf(r.ch4) == VisibleOf(cf.ch4)
  {
    match kind
    case LcSweep =>
      var c1 := StepSweep(cf.ch1);
      ChannelFile(StepLengthCounter(c1), StepLengthCounter(cf.ch2),
                  StepLengthCounter(cf.ch3), StepLengthCounter(cf.ch4))
    case Lc =>
      ChannelFile(StepLengthCounter(cf.ch1), StepLengthCounter(cf.ch2),
                  StepLengthCounter(cf.ch3), StepLengthCounter(cf.ch4))
    case Env =>
      ChannelFile(StepEnvelope(cf.ch1), StepEnvelope(cf.ch2), cf.ch3, StepEnvelope(cf.ch4))
  }

  /** What one step of the sequencer's timer produced. */
  datatype Tick = Quiet | Fires(kind: TriggerType)

  /** The timer half of `Sequencer::step`. The timer reloads with the old
      period; only then do the period and the index move on to the table's
      next entry. */
  function Advance(s: Sequencer, cycles: nat): (r: (Sequencer, Tick))
    requires ValidSequencer(s) && cycles <= s.timer.timer
    ensures ValidSequencer(r.0)
    ensures cycles < s.timer.timer ==>
      r == (s.(timer := s.timer.(timer := s.timer.timer - cycles)), Quiet)
    ensures cycles == s.timer.timer ==>
      && r.0.triggerIndex == Next(s.triggerIndex)
      && r.0.timer == Timer(s.timer.period, TRIGGER_SEQUENCE[s.triggerIndex].nextPeriod)
      && r.1 == Fires(TRIGGER_SEQUENCE[s.triggerIndex].kind)
  {
    var (t, fired) := StepTimer(s.timer, cycles);
    if fired then
      var trigger := TRIGGER_SEQUENCE[s.triggerIndex];
      (Sequencer(t.(period := trigger.nextPeriod), trigger.nextIndex), Fires(trigger.kind))
    else (s.(timer := t), Quiet)
  }

  /** `Sequencer::step`: the timer advances and a fired trigger clocks the
      channels. */
  function Step(s: Sequencer, cf: ChannelFile, cycles: nat): (r: (Sequencer, ChannelFile))
    requires ValidSequencer(s) && ValidFile(cf) && cycles <= s.timer.timer
    ensures ValidSequencer(r.0) && ValidFile(r.1)
    ensures r.0 == Advance(s, cycles).0
    ensures cycles < s.timer.timer ==> r.1 == cf
    ensures cycles == s.timer.timer ==> r.1 == ApplyTrigger(TRIGGER_SEQUENCE[s.triggerIndex].kind, cf)
  {
    var (s1, tick) := Advance(s, cycles);
    (s1, if tick.Fires? then ApplyTrigger(tick.kind, cf) else cf)
  }

  /** The sequencer after `cycles` cycles of stepping in chunks that end
      at its fires, as both `Apu::step` and `Hardware::run` drive it. */
  function After(s: Sequencer, cycles: nat): (r: Sequencer)
    requires ValidSequencer(s)
    ensures ValidSequencer(r)
    decreases cycles
  {
    if cycles == 0 then s
    else
      var n := Min(s.timer.timer, cycles);
      After(Advance(s, n).0, cycles - n)
  }

  /** The first chunk of `After`, unfolded. */
  lemma AfterUnfold(s: Sequencer, cycles: nat)
    requires ValidSequencer(s) && cycles > 0
    ensures After(s, cycles) == After(Advance(s, Min(s.timer.timer, cycles)).0, cycles - Min(s.timer.timer, cycles))
  {
  }

  /** One chunk of `After`, already computed. */
  lemma AfterChunk(s: Sequencer, cycles: nat, n: nat, rest: nat)
    requires ValidSequencer(s) && cycles > 0 && n == Min(cycles, s.timer.timer) && rest == cycles - n
    ensures After(s, cycles) == After(Advance(s, n).0, rest)
  {
    AfterUnfold(s, cycles);
  }

  /** The gap between the trigger at an index and the one after it: the
      period that was current when it fired. */
  function Gap(i: nat): nat
    requires i < 5
  {
    TRIGGER_SEQUENCE[Prev(i)].nextPeriod
  }

  /** Fires the next trigger: advances the sequencer by exactly its timer. */
  function Fire(s: Sequencer): (r: Sequencer)
    requires ValidSequencer(s)
    ensures ValidSequencer(r)
  {
    Advance(s, s.timer.timer).0
  }

  /** Fires `n` triggers in a row; returns the state, the kinds that ran in
      order and the cycles that passed. */
  function FireTimes(s: Sequencer, n: nat): (r: (Sequencer, seq<TriggerType>, nat))
    requires ValidSequencer(s)
    ensures ValidSequencer(r.0) && |r.1| == n
    decreases n
  {
    if n == 0 then (s, [], 0)
    else
      var rest := FireTimes(Fire(s), n - 1);
      (rest.0, [TRIGGER_SEQUENCE[s.triggerIndex].kind] + rest.1, s.timer.timer + rest.2)
  }

  /** The state right after any trigger: the timer holds the gap to the next. */
  ghost predicate Aligned(s: Sequencer)
  {
    ValidSequencer(s) && s.timer.timer == Gap(Prev(s.triggerIndex))
  }

  /** The index moves round the table by one per fire, and the state that
      follows any fire is aligned. */
  lemma FireAdvances(s: Sequencer)
    requires ValidSequencer(s)
    ensures Fire(s).triggerIndex == Next(s.triggerIndex)
    ensures Aligned(Fire(s))
    ensures Fire(s).timer.timer == Gap(s.triggerIndex)
  {
  }

  /** The aligned state at each index. */
  function AlignedState(i: nat): (s: Sequencer)
    requires i < 5
    ensures s.triggerIndex == i
  {
    Sequencer(Timer(Gap(Prev(i)), Gap(i)), i)
  }

  lemma AlignedIsAlignedState(s: Sequencer)
    requires Aligned(s)
    ensures s == AlignedState(s.triggerIndex)
  {
  }

  /** Firing an aligned state gives the aligned state of the next index. */
  lemma FireAligned(i: nat)
    requires i < 5
    ensures Fire(AlignedState(i)) == AlignedState(Next(i))
  {
    FireAdvances(AlignedState(i));
    AlignedIsAlignedState(Fire(AlignedState(i)));
  }

  /** The kinds the table runs from index `i` on, `n` of them. */
  function KindsFrom(i: nat, n: nat): (kinds: seq<TriggerType>)
    requires i < 5
    ensures |kinds| == n
    decreases n
  {
    if n == 0 then [] else [TRIGGER_SEQUENCE[i].kind] + KindsFrom(Next(i), n - 1)
  }

  /** The cycles the next `n` fires of the aligned state at `i` take. */
  function CyclesFrom(i: nat, n: nat): nat
    requires i < 5
    decreases n
  {
    if n == 0 then 0 else Gap(Prev(i)) + CyclesFrom(Next(i), n - 1)
  }

  /** The position `n` steps after `i`. */
  function Rotate(i: nat, n: nat): (j: nat)
    requires i < 5
    ensures j < 5
    decreases n
  {
    if n == 0 then i else Rotate(Next(i), n - 1)
  }

  lemma {:induction false} RotateIsMod(i: nat, n: nat)
    requires i < 5
    ensures Rotate(i, n) == (i + n) % 5
    decreases n
  {
    if n > 0 {
      RotateIsMod(Next(i), n - 1);
      assert Next(i) == (i + 1) % 5;
      if i == 4 {
        assert (i + n) % 5 == (n - 1 + 5) % 5 == (n - 1) % 5;
      }
    }
  }

  lemma {:induction false} FireTimesAligned(i: nat, n: nat)
    requires i < 5
    ensures FireTimes(AlignedState(i), n) == (AlignedState(Rotate(i, n)), KindsFrom(i, n), CyclesFrom(i, n))
    decreases n
  {
    if n > 0 {
      FireAligned(i);
      FireTimesAligned(Next(i), n - 1);
    }
  }

  lemma {:induction false} KindsFromAt(i: nat, n: nat, k: nat)
    requires i < 5 && k < n
    ensures KindsFrom(i, n)[k] == TRIGGER_SEQUENCE[Rotate(i, k)].kind
    decreases n
  {
    if k > 0 {
      KindsFromAt(Next(i), n - 1, k - 1);
    }
  }

  /** Once aligned, five fires take 65536 cycles (64 Hz at 4194304 Hz),
      come back to the same sequencer state, and run two plain
      length-counter triggers, two that also sweep (length counters four
      times, the sweep twice) and one envelope trigger. */
  lemma FrameOfFiveTriggers(s: Sequencer)
    requires Aligned(s)
    ensures FireTimes(s, 5).0 == s
    ensures FireTimes(s, 5).2 == FRAME_CYCLES
    ensures multiset(FireTimes(s, 5).1) == multiset{Lc, Lc, LcSweep, LcSweep, Env}
  {
    AlignedIsAlignedState(s);
    var i := s.triggerIndex;
    FireTimesAligned(i, 5);
    FrameKinds(i);
  }

  /** Fires run the kinds in table order from the current index, going
      round the table. */
  lemma FiresInTableOrder(s: Sequencer, n: nat, k: nat)
    requires Aligned(s) && k < n
    ensures FireTimes(s, n).1[k] == TRIGGER_SEQUENCE[(s.triggerIndex + k) % 5].kind
  {
    AlignedIsAlignedState(s);
    var i := s.triggerIndex;
    FireTimesAligned(i, n);
    KindsFromAt(i, n, k);
    RotateIsMod(i, k);
  }

  /** The kinds of one frame from each index, and its length. */
  lemma FrameKinds(i: nat)
    requires i < 5
    ensures Rotate(i, 5) == i
    ensures CyclesFrom(i, 5) == FRAME_CYCLES
    ensures multiset(KindsFrom(i, 5)) == multiset{Lc, Lc, LcSweep, LcSweep, Env}
  {
    FrameUnrolled(i);
    FrameGaps(i);
    FrameMultiset(i);
  }

  /** One more trigger in front: the table entry at `i`, then the rest. */
  lemma KindsStep(i: nat, n: nat)
    requires i < 5
    ensures KindsFrom(i, n + 1) == [TRIGGER_SEQUENCE[i].kind] + KindsFrom(Next(i), n)
    ensures CyclesFrom(i, n + 1) == Gap(Prev(i)) + CyclesFrom(Next(i), n)
    ensures Rotate(i, n + 1) == Rotate(Next(i), n)
  {
  }

  /** The kinds of the five table entries from `i` on, going round. */
  function FrameAt(i: nat): (kinds: seq<TriggerType>)
    requires i < 5
    ensures |kinds| == 5
  {
    var t := TRIGGER_SEQUENCE;
    var i1 := Next(i); var i2 := Next(i1); var i3 := Next(i2); var i4 := Next(i3);
    [t[i].kind, t[i1].kind, t[i2].kind, t[i3].kind, t[i4].kind]
  }

  /** The gaps of the five table entries from `i` on, going round. */
  function FrameGapsAt(i: nat): nat
    requires i < 5
  {
    var i1 := Next(i); var i2 := Next(i1); var i3 := Next(i2); var i4 := Next(i3);
    Gap(Prev(i)) + Gap(Prev(i1)) + Gap(Prev(i2)) + Gap(Prev(i3)) + Gap(Prev(i4))
  }

  /** Five fires from `i`, written out one at a time. */
  lemma {:induction false} FrameUnrolled(i: nat)
    requires i < 5
    ensures Rotate(i, 5) == i
    ensures KindsFrom(i, 5) == FrameAt(i)
    ensures CyclesFrom(i, 5) == FrameGapsAt(i)
  {
    var t := TRIGGER_SEQUENCE;
    var i1 := Next(i);
    var i2 := Next(i1);
    var i3 := Next(i2);
    var i4 := Next(i3);
    assert Next(i4) == i;
    KindsStep(i4, 0);
    assert KindsFrom(i4, 1) == [t[i4].kind];
    KindsStep(i3, 1);
    assert KindsFrom(i3, 2) == [t[i3].kind, t[i4].kind];
    KindsStep(i2, 2);
    assert KindsFrom(i2, 3) == [t[i2].kind, t[i3].kind, t[i4].kind];
    KindsStep(i1, 3);
    assert KindsFrom(i1, 4) == [t[i1].kind, t[i2].kind, t[i3].kind, t[i4].kind];
    KindsStep(i, 4);
  }

  /** The five gaps met from any index add up to one frame. */
  lemma FrameGaps(i: nat)
    requires i < 5
    ensures FrameGapsAt(i) == FRAME_CYCLES
  {
  }

  /** Five consecutive table entries, starting anywhere, hold every kind of
      the table once. */
  lemma FrameMultiset(i: nat)
    requires i < 5
    ensures multiset(FrameAt(i)) == multiset{Lc, Lc, LcSweep, LcSweep, Env}
  {
    if i == 0 {
      FrameMultiset0();
    } else if i == 1 {
      FrameMultiset1();
    } else if i == 2 {
      FrameMultiset2();
    } else if i == 3 {
      FrameMultiset3();
    } else {
      FrameMultiset4();
    }
  }

  lemma FrameMultiset0()
    ensures multiset(FrameAt(0)) == multiset{Lc, Lc, LcSweep, LcSweep, Env}
  {
    assert FrameAt(0) == [Lc, LcSweep, Lc, LcSweep, Env];
    assert multiset([Lc, LcSweep, Lc, LcSweep, Env]) == multiset{Lc, Lc, LcSweep, LcSweep, Env};
  }

  lemma FrameMultiset1()
    ensures multiset(FrameAt(1)) == multiset{Lc, Lc, LcSweep, LcSweep, Env}
  {
    assert FrameAt(1) == [LcSweep, Lc, LcSweep, Env, Lc];
    assert multiset([LcSweep, Lc, LcSweep, Env, Lc]) == multiset{Lc, Lc, LcSweep, LcSweep, Env};
  }

  lemma FrameMultiset2()
    ensures multiset(FrameAt(2)) == multiset{Lc, Lc, LcSweep, LcSweep, Env}
  {
    assert FrameAt(2) == [Lc, LcSweep, Env, Lc, LcSweep];
    assert multiset([Lc, LcSweep, Env, Lc, LcSweep]) == multiset{Lc, Lc, LcSweep, LcSweep, Env};
  }

  lemma FrameMultiset3()
    ensures multiset(FrameAt(3)) == multiset{Lc, Lc, LcSweep, LcSweep, Env}
  {
    assert FrameAt(3) == [LcSweep, Env, Lc, LcSweep, Lc];
    assert multiset([LcSweep, Env, Lc, LcSweep, Lc]) == multiset{Lc, Lc, LcSweep, LcSweep, Env};
  }

  lemma FrameMultiset4()
    ensures multiset(FrameAt(4)) == multiset{Lc, Lc, LcSweep, LcSweep, Env}
  {
    assert FrameAt(4) == [Env, Lc, LcSweep, Lc, LcSweep];
    assert multiset([Env, Lc, LcSweep, Lc, LcSweep]) == multiset{Lc, Lc, LcSweep, LcSweep, Env};
  }

  /** After a reset the first trigger, a length-counter clock, comes 16384
      cycles later and lands on an aligned state; from there the gaps are
      16384, 16384, 16384, 8192, 8192, steps 0, 2, 4, 6 and 7 of the diagram. */
  lemma ResetFirstTrigger()
    ensures var r := FireTimes(Reset(), 1);
            && r.1 == [Lc] && r.2 == 16384 && r.0.triggerIndex == 1 && Aligned(r.0)
    ensures [Gap(0), Gap(1), Gap(2), Gap(3), Gap(4)] == [16384, 16384, 16384, 8192, 8192]
  {
    FireAdvances(Reset());
    assert FireTimes(Fire(Reset()), 0).1 == [];
  }
}
