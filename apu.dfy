/**
 * The APU: two pulse channels, the triangle and noise channels, and the
 * frame counter that schedules their quarter- and half-frame units.
 *
 * The `audio` build feature is a constant of the object: without it, writes
 * and clocks do nothing and reads return 0. The float mixer and the DAC are
 * not part of this model, and neither is the DMC channel, which the source
 * does not implement.
 */
module Apu {
  import opened Bits
  import opened ApuCommon
  import opened ApuPulse
  import opened ApuTriangle
  import opened ApuNoise

  datatype ApuState = ApuState(
    pulse1: PulseState,
    pulse2: PulseState,
    triangle: TriangleState,
    noise: NoiseState,
    disableInterrupts: bool,
    mode: SequenceMode,
    frameCounter: nat,
    frameIrq: bool,
    dmcIrq: bool)
  {
    /**
     * Every channel keeps its invariant, pulse 1 is the one's-complement
     * channel, and the frame counter stays inside the current sequence.
     */
    predicate Valid()
    {
      pulse1.Valid() && pulse2.Valid() && triangle.Valid() && noise.Valid() &&
      pulse1.oneComplement && !pulse2.oneComplement && frameCounter < GetMax(mode)
    }
  }

  /** `Apu::new()`. */
  function ApuDefault(): (s: ApuState)
    ensures s.Valid() && !s.frameIrq && !s.dmcIrq
  {
    ApuState(PulseDefault(true), PulseDefault(false), TriangleDefault, NoiseDefault, false, Step4, 0, false, false)
  }

  /** The addresses `write` and `read` accept; any other address is unreachable in the source. */
  predicate Register(addr: bv16)
  {
    0x4000 <= addr <= 0x4013 || addr == 0x4015 || addr == 0x4017
  }

  /** `clock_quarter_frame`: every channel's quarter-frame unit. */
  function ApuQuarterFrame(s: ApuState): (s': ApuState)
    requires s.Valid()
    ensures s'.Valid()
    ensures s'.(pulse1 := s.pulse1, pulse2 := s.pulse2, triangle := s.triangle, noise := s.noise) == s
    ensures s'.pulse1.envelope == EnvelopeClock(s.pulse1.envelope) && s'.pulse2.envelope == EnvelopeClock(s.pulse2.envelope)
    ensures s'.triangle.linear == LinearClock(s.triangle.linear) && s'.noise.envelope == EnvelopeClock(s.noise.envelope)
    ensures s'.pulse1.length == s.pulse1.length && s'.pulse2.length == s.pulse2.length
    ensures s'.triangle.length == s.triangle.length && s'.noise.length == s.noise.length
  {
    s.(pulse1 := PulseQuarterFrame(s.pulse1), pulse2 := PulseQuarterFrame(s.pulse2),
       triangle := TriangleQuarterFrame(s.triangle), noise := NoiseQuarterFrame(s.noise))
  }

  /** `clock_half_frame`: every channel's half-frame unit. */
  function ApuHalfFrame(s: ApuState): (s': ApuState)
    requires s.Valid()
    ensures s'.Valid()
    ensures s'.(pulse1 := s.pulse1, pulse2 := s.pulse2, triangle := s.triangle, noise := s.noise) == s
    ensures s'.pulse1.length == LengthClock(s.pulse1.length) && s'.pulse2.length == LengthClock(s.pulse2.length)
    ensures s'.triangle.length == LengthClock(s.triangle.length) && s'.noise.length == LengthClock(s.noise.length)
    ensures s'.pulse1.envelope == s.pulse1.envelope && s'.pulse2.envelope == s.pulse2.envelope
    ensures s'.triangle.linear == s.triangle.linear && s'.noise.envelope == s.noise.envelope
  {
    s.(pulse1 := PulseHalfFrame(s.pulse1), pulse2 := PulseHalfFrame(s.pulse2),
       triangle := TriangleHalfFrame(s.triangle), noise := NoiseHalfFrame(s.noise))
  }

  /** Whether bit `mask` of `data` is set. */
  predicate Bit(data: bv8, mask: bv8)
  {
    data & mask != 0
  }

  /** `write` with the audio feature. */
  function ApuWrite(s: ApuState, addr: bv16, data: bv8): (s': ApuState)
    requires s.Valid() && Register(addr)
    ensures s'.Valid()
    ensures s'.frameIrq == s.frameIrq && s'.dmcIrq == s.dmcIrq
    ensures 0x4000 <= addr <= 0x4003 ==> s' == s.(pulse1 := PulseWrite(s.pulse1, addr & 3, data))
    ensures 0x4004 <= addr <= 0x4007 ==> s' == s.(pulse2 := PulseWrite(s.pulse2, addr & 3, data))
    ensures 0x4008 <= addr <= 0x400B ==> s' == s.(triangle := TriangleWrite(s.triangle, addr & 3, data))
    ensures 0x400C <= addr <= 0x400F ==> s' == s.(noise := NoiseWrite(s.noise, addr & 3, data))
    ensures 0x4010 <= addr <= 0x4013 ==> s' == s
    ensures addr == 0x4015 ==>
      s'.pulse1.length.enable == Bit(data, 1) && s'.pulse2.length.enable == Bit(data, 2) &&
      s'.triangle.length.enable == Bit(data, 4) && s'.noise.length.enable == Bit(data, 8)
    ensures addr == 0x4017 ==>
      s'.frameCounter == 0 && s'.disableInterrupts == Bit(data, 0x40) &&
      s'.mode == (if Bit(data, 0x80) then Step5 else Step4)
  {
    if addr <= 0x4003 then
      s.(pulse1 := PulseWrite(s.pulse1, addr & 3, data))
    else if addr <= 0x4007 then
      s.(pulse2 := PulseWrite(s.pulse2, addr & 3, data))
    else if addr <= 0x400B then
      s.(triangle := TriangleWrite(s.triangle, addr & 3, data))
    else if addr <= 0x400F then
      s.(noise := NoiseWrite(s.noise, addr & 3, data))
    else if addr <= 0x4013 then
      s
    else if addr == 0x4015 then
      s.(pulse1 := s.pulse1.(length := LengthSetEnable(s.pulse1.length, Bit(data, 1))),
         pulse2 := s.pulse2.(length := LengthSetEnable(s.pulse2.length, Bit(data, 2))),
         triangle := s.triangle.(length := LengthSetEnable(s.triangle.length, Bit(data, 4))),
         noise := s.noise.(length := LengthSetEnable(s.noise.length, Bit(data, 8))))
    else
      FrameCounterWrite(s, data)
  }

  /**
   * A $4017 write: the interrupt-inhibit bit and the sequence mode, a frame
   * counter restarted at 0, and in five-step mode an immediate quarter and
   * half frame.
   */
  function FrameCounterWrite(s: ApuState, data: bv8): (s': ApuState)
    requires s.Valid()
    ensures s'.Valid()
    ensures s'.frameCounter == 0 && s'.disableInterrupts == Bit(data, 0x40)
    ensures s'.mode == (if Bit(data, 0x80) then Step5 else Step4)
    ensures s'.frameIrq == s.frameIrq && s'.dmcIrq == s.dmcIrq
    ensures !Bit(data, 0x80) ==>
      s'.pulse1 == s.pulse1 && s'.pulse2 == s.pulse2 && s'.triangle == s.triangle && s'.noise == s.noise
    ensures Bit(data, 0x80) ==>
      s'.pulse1.envelope == EnvelopeClock(s.pulse1.envelope) && s'.pulse1.length == LengthClock(s.pulse1.length) &&
      s'.triangle.linear == LinearClock(s.triangle.linear) && s'.noise.length == LengthClock(s.noise.length)
  {
    var s1 := s.(disableInterrupts := Bit(data, 0x40), mode := if Bit(data, 0x80) then Step5 else Step4, frameCounter := 0);
    if s1.mode == Step5 then ApuHalfFrame(ApuQuarterFrame(s1)) else s1
  }

  /** The $4015 status: bit n is set iff channel n's length counter is nonzero. */
  function Status(s: ApuState): (b: bv8)
    ensures b & 0xF0 == 0
    ensures Bit(b, 1) <==> s.pulse1.length.counter > 0
    ensures Bit(b, 2) <==> s.pulse2.length.counter > 0
    ensures Bit(b, 4) <==> s.triangle.length.counter > 0
    ensures Bit(b, 8) <==> s.noise.length.counter > 0
  {
    (if s.pulse1.length.counter > 0 then 1 else 0) |
    (if s.pulse2.length.counter > 0 then 2 else 0) |
    (if s.triangle.length.counter > 0 then 4 else 0) |
    (if s.noise.length.counter > 0 then 8 else 0)
  }

  /** `read` with the audio feature: the status at $4015, 0 for the write-only registers. */
  function ApuRead(s: ApuState, addr: bv16): (b: bv8)
    requires Register(addr)
    ensures addr != 0x4015 ==> b == 0
    ensures addr == 0x4015 ==> b == Status(s)
  {
    if addr == 0x4015 then Status(s) else 0
  }

  /**
   * `clock` with the audio feature: every channel is clocked with the current
   * mode and frame counter (the channels pick their own timer parity and
   * frame steps), then the frame counter advances modulo the sequence length.
   */
  function ApuClock(s: ApuState): (s': ApuState)
    requires s.Valid()
    ensures s'.Valid()
    ensures s'.mode == s.mode && s'.frameCounter == FrameSteps(s.mode, s.frameCounter, 1)
    ensures s'.frameIrq == s.frameIrq && s'.dmcIrq == s.dmcIrq
    ensures s'.disableInterrupts == s.disableInterrupts
    ensures s'.pulse1 == PulseClock(s.pulse1, s.mode, s.frameCounter)
    ensures s'.pulse2 == PulseClock(s.pulse2, s.mode, s.frameCounter)
    ensures s'.triangle == TriangleClock(s.triangle, s.mode, s.frameCounter)
    ensures s'.noise == NoiseClock(s.noise, s.mode, s.frameCounter)
  {
    s.(triangle := TriangleClock(s.triangle, s.mode, s.frameCounter),
       pulse1 := PulseClock(s.pulse1, s.mode, s.frameCounter),
       pulse2 := PulseClock(s.pulse2, s.mode, s.frameCounter),
       noise := NoiseClock(s.noise, s.mode, s.frameCounter),
       frameCounter := (s.frameCounter + 1) % GetMax(s.mode))
  }

  /** A channel whose enable bit a $4015 write clears reads back as inactive in the status. */
  lemma DisabledChannelsReadInactive(s: ApuState, data: bv8)
    requires s.Valid()
    ensures Status(ApuWrite(s, 0x4015, data)) & !data & 0x0F == 0
  {
    var s' := ApuWrite(s, 0x4015, data);
    var b := Status(s');
    assert !Bit(data, 1) ==> !Bit(b, 1);
    assert !Bit(data, 2) ==> !Bit(b, 2);
    assert !Bit(data, 4) ==> !Bit(b, 4);
    assert !Bit(data, 8) ==> !Bit(b, 8);
  }

  /** The frame counter after `n` APU clocks in sequence mode `mode`, one step per clock as in `ApuClock`. */
  function FrameSteps(mode: SequenceMode, counter: nat, n: nat): nat
    decreases n
  {
    if n == 0 then counter else FrameSteps(mode, (counter + 1) % GetMax(mode), n - 1)
  }

  /**
   * The frame counter counts CPU cycles modulo the sequence length: after n
   * clocks it is `(counter + n) mod max`.
   */
  lemma {:induction false} FrameCounterCounts(mode: SequenceMode, counter: nat, n: nat)
    requires counter < GetMax(mode)
    ensures FrameSteps(mode, counter, n) == (counter + n) % GetMax(mode)
    decreases n
  {
    if n > 0 {
      var m := GetMax(mode);
      assert m == 29830 || m == 37282;
      FrameCounterCounts(mode, (counter + 1) % m, n - 1);
      ModAdd(counter, n - 1, m);
    }
  }

  /** Stepping modulo one of the two sequence lengths and adding `b` later is adding `b + 1` at once. */
  lemma ModAdd(a: nat, b: nat, m: nat)
    requires a < m && (m == 29830 || m == 37282)
    ensures ((a + 1) % m + b) % m == (a + 1 + b) % m
  {
    if m == 29830 {
      if a + 1 == m {
        assert (m + b) % m == b % m;
      }
    } else {
      if a + 1 == m {
        assert (m + b) % m == b % m;
      }
    }
  }

  class Apu {
    const pulse1: PulseChannel
    const pulse2: PulseChannel
    const triangle: TriangleChannel
    const noise: NoiseChannel
    const audio: bool
    var disableInterrupts: bool
    var sequenceMode: SequenceMode
    var frameCounter: nat
    var frameIrqSet: bool
    var dmcIrqSet: bool

    /** The APU and its four channels. */
    ghost function Repr(): set<object>
    {
      {this, pulse1, pulse2, triangle, noise}
    }

    /** The two pulse channels are separate objects, and the state keeps its invariant. */
    ghost predicate Valid()
      reads Repr()
    {
      pulse1 != pulse2 && State().Valid()
    }

    function State(): ApuState
      reads Repr()
    {
      ApuState(pulse1.State(), pulse2.State(), triangle.State(), noise.State(),
               disableInterrupts, sequenceMode, frameCounter, frameIrqSet, dmcIrqSet)
    }

    constructor (audio: bool)
      ensures Valid() && fresh(Repr())
      ensures this.audio == audio && State() == ApuDefault()
    {
      pulse1 := new PulseChannel(true);
      pulse2 := new PulseChannel(false);
      triangle := new TriangleChannel();
      noise := new NoiseChannel();
      this.audio := audio;
      disableInterrupts, sequenceMode, frameCounter := false, Step4, 0;
      frameIrqSet, dmcIrqSet := false, false;
    }

    /** `reset`: back to `Apu::new()` (the DAC's sample rate, kept by the source, is not modelled). */
    method Reset()
      requires Valid()
      modifies Repr()
      ensures Valid() && State() == ApuDefault()
    {
      pulse1.Reset();
      pulse2.Reset();
      triangle.Reset();
      noise.Reset();
      disableInterrupts, sequenceMode, frameCounter := false, Step4, 0;
      frameIrqSet, dmcIrqSet := false, false;
    }

    /** `take_irq_set_state`: whether the frame or DMC interrupt was pending; both are cleared. */
    method TakeIrqSetState() returns (state: bool)
      requires Valid()
      modifies this
      ensures Valid()
      ensures state == (old(frameIrqSet) || old(dmcIrqSet))
      ensures State() == old(State()).(frameIrq := false, dmcIrq := false)
    {
      state := frameIrqSet || dmcIrqSet;
      frameIrqSet := false;
      dmcIrqSet := false;
    }

    method ClockQuarterFrame()
      requires Valid()
      modifies Repr()
      ensures Valid() && State() == ApuQuarterFrame(old(State()))
    {
      pulse1.QuarterFrame();
      pulse2.QuarterFrame();
      triangle.QuarterFrame();
      noise.QuarterFrame();
    }

    method ClockHalfFrame()
      requires Valid()
      modifies Repr()
      ensures Valid() && State() == ApuHalfFrame(old(State()))
    {
      pulse1.HalfFrame();
      pulse2.HalfFrame();
      triangle.HalfFrame();
      noise.HalfFrame();
    }

    method Write(addr: bv16, data: bv8)
      requires Valid() && (audio ==> Register(addr))
      modifies Repr()
      ensures Valid()
      ensures State() == if audio then ApuWrite(old(State()), addr, data) else old(State())
    {
      if !audio {
        return;
      }
      if addr <= 0x4003 {
        pulse1.Write(addr & 3, data);
      } else if addr <= 0x4007 {
        pulse2.Write(addr & 3, data);
      } else if addr <= 0x400B {
        triangle.Write(addr & 3, data);
      } else if addr <= 0x400F {
        noise.Write(addr & 3, data);
      } else if addr <= 0x4013 {
        // DMC: not implemented
      } else if addr == 0x4015 {
        WriteStatus(data);
      } else {
        WriteFrameCounter(data);
      }
    }

    /** A $4015 write: bits 0-3 enable the four channels' length counters. */
    method WriteStatus(data: bv8)
      requires Valid()
      modifies Repr()
      ensures Valid() && State() == ApuWrite(old(State()), 0x4015, data)
    {
      pulse1.SetLengthCounterEnable(Bit(data, 1));
      pulse2.SetLengthCounterEnable(Bit(data, 2));
      triangle.SetLengthCounterEnable(Bit(data, 4));
      noise.SetLengthCounterEnable(Bit(data, 8));
    }

    method WriteFrameCounter(data: bv8)
      requires Valid()
      modifies Repr()
      ensures Valid() && State() == FrameCounterWrite(old(State()), data)
    {
      disableInterrupts := Bit(data, 0x40);
      sequenceMode := if Bit(data, 0x80) then Step5 else Step4;
      frameCounter := 0;
      if sequenceMode == Step5 {
        ClockQuarterFrame();
        ClockHalfFrame();
      }
    }

    /** `read`: the status byte at $4015, 0 elsewhere and 0 without the audio feature. */
    function Read(addr: bv16): (b: bv8)
      requires audio ==> Register(addr)
      reads Repr()
      ensures !audio || addr != 0x4015 ==> b == 0
      ensures audio && addr == 0x4015 ==> b == Status(State())
    {
      if !audio then 0 else ApuRead(State(), addr)
    }

    method Clock()
      requires Valid()
      modifies Repr()
      ensures Valid()
      ensures State() == if audio then ApuClock(old(State())) else old(State())
    {
      if !audio {
        return;
      }
      triangle.Clock(sequenceMode, frameCounter);
      pulse1.Clock(sequenceMode, frameCounter);
      pulse2.Clock(sequenceMode, frameCounter);
      noise.Clock(sequenceMode, frameCounter);
      frameCounter := (frameCounter + 1) % GetMax(sequenceMode);
    }
  }
}
