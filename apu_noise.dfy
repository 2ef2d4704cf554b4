/**
 * The APU noise channel ($400C-$400F): a 15-bit linear-feedback shift
 * register, stepped by a timer whose period comes from a 16-entry table,
 * gates the envelope volume.
 */
module ApuNoise {
  import opened Bits
  import opened ApuCommon

  /** Timer periods selected by the low 4 bits of $400E. */
  const PeriodTable: seq<nat> := [4, 8, 16, 32, 64, 96, 128, 160, 202, 254, 380, 508, 762, 1016, 2034, 4068]

  /**
   * One LFSR step: shift right and feed bit 0 XOR bit 6 (mode set) or bit 1
   * (mode clear) in at bit 14. A register below 0x8000 stays below it, and a
   * nonzero one never becomes 0.
   */
  function LfsrStep(sr: bv16, mode: bool): (r: bv16)
    ensures sr < 0x8000 ==> r < 0x8000
    ensures sr != 0 && sr < 0x8000 ==> r != 0
    ensures r & 0x3FFF == (sr >> 1) & 0x3FFF
    ensures sr < 0x8000 ==> (r >> 14) & 1 == (sr ^ (sr >> (if mode then 6 else 1))) & 1
  {
    var offset: bv16 := if mode then 6 else 1;
    var bit1 := sr & 1;
    var bit2 := (sr >> offset) & 1;
    (sr >> 1) | ((bit1 ^ bit2) << 14)
  }

  datatype NoiseState = NoiseState(envelope: EnvelopeState, timer: TimerState, length: LengthState, mode: bool, shiftRegister: bv16)
  {
    /** The units' invariants and a nonzero 15-bit shift register. */
    predicate Valid()
    {
      envelope.Valid() && timer.Valid() && length.Valid() && 0 < shiftRegister < 0x8000
    }
  }

  /** `NoiseChannel::default()`: the shift register starts at 1. */
  const NoiseDefault := NoiseState(EnvelopeDefault, TimerDefault, LengthDefault, false, 1)

  /** A register write; the register is `addr & 3`, and register 1 is unused. */
  function NoiseWrite(s: NoiseState, addr: bv16, data: bv8): (s': NoiseState)
    ensures s.Valid() ==> s'.Valid()
    ensures s'.shiftRegister == s.shiftRegister
    ensures addr & 3 == 0 ==>
      s' == s.(envelope := s.envelope.(register := data), length := s.length.(halt := data & 0x20 != 0))
    ensures addr & 3 == 1 ==> s' == s
    ensures addr & 3 == 2 ==>
      s' == s.(timer := TimerSet(s.timer, PeriodTable[Nat8(data & 0x0F)]), mode := data & 0x80 != 0)
    ensures addr & 3 == 3 ==>
      s' == s.(length := LengthSetCounter(s.length, data >> 3), envelope := s.envelope.(start := true))
  {
    var reg := addr & 3;
    if reg == 0 then
      s.(envelope := s.envelope.(register := data), length := s.length.(halt := data & 0x20 != 0))
    else if reg == 1 then
      s
    else if reg == 2 then
      s.(timer := TimerSet(s.timer, PeriodTable[Nat8(data & 0x0F)]), mode := data & 0x80 != 0)
    else
      s.(length := LengthSetCounter(s.length, data >> 3), envelope := s.envelope.(start := true))
  }

  /** The per-cycle part of `clock`: on odd cycles the timer is clocked and each reload steps the LFSR. */
  function NoiseTick(s: NoiseState, cycle: nat): (s': NoiseState)
    requires s.Valid()
    ensures s'.Valid()
    ensures s'.envelope == s.envelope && s'.length == s.length && s'.mode == s.mode
    ensures cycle % 2 == 0 ==> s' == s
    ensures cycle % 2 == 1 ==> s'.timer == TimerClock(s.timer)
    ensures s'.shiftRegister ==
      if cycle % 2 == 1 && s.timer.counter == 0 then LfsrStep(s.shiftRegister, s.mode) else s.shiftRegister
  {
    if cycle % 2 == 1 then
      var t := TimerClock(s.timer);
      s.(timer := t, shiftRegister := if t.reloaded then LfsrStep(s.shiftRegister, s.mode) else s.shiftRegister)
    else
      s
  }

  function NoiseQuarterFrame(s: NoiseState): (s': NoiseState)
    requires s.Valid()
    ensures s'.Valid() && s' == s.(envelope := EnvelopeClock(s.envelope))
  {
    s.(envelope := EnvelopeClock(s.envelope))
  }

  function NoiseHalfFrame(s: NoiseState): (s': NoiseState)
    requires s.Valid()
    ensures s'.Valid() && s' == s.(length := LengthClock(s.length))
  {
    s.(length := LengthClock(s.length))
  }

  /** `clock(sequence_mode, cycle_count)`: the timer part, the envelope on quarter frames, the length counter on half frames. */
  function NoiseClock(s: NoiseState, mode: SequenceMode, cycle: nat): (s': NoiseState)
    requires s.Valid()
    ensures s'.Valid()
    ensures !IsQuarterFrame(mode, cycle) ==> s' == NoiseTick(s, cycle)
    ensures IsQuarterFrame(mode, cycle) && !IsHalfFrame(mode, cycle) ==> s' == NoiseQuarterFrame(NoiseTick(s, cycle))
    ensures IsHalfFrame(mode, cycle) ==> s' == NoiseHalfFrame(NoiseQuarterFrame(NoiseTick(s, cycle)))
  {
    var s1 := NoiseTick(s, cycle);
    var s2 := if IsQuarterFrame(mode, cycle) then NoiseQuarterFrame(s1) else s1;
    if IsHalfFrame(mode, cycle) then NoiseHalfFrame(s2) else s2
  }

  /** `is_muted`: shift-register bit 0 set, or an empty length counter. */
  predicate NoiseMuted(s: NoiseState)
  {
    s.shiftRegister & 1 == 1 || s.length.counter == 0
  }

  /** `sample`: 0 when muted, else the envelope volume; at most 15. */
  function NoiseSample(s: NoiseState): (v: bv8)
    requires s.Valid()
    ensures v <= 15
    ensures NoiseMuted(s) ==> v == 0
    ensures !NoiseMuted(s) ==> v == EnvelopeVolume(s.envelope)
  {
    if NoiseMuted(s) then 0 else EnvelopeVolume(s.envelope)
  }

  /**
   * The timer keeps 11 bits of its period, so every table entry but the last
   * is loaded as written, while the last, 4068, is loaded as 2020.
   */
  lemma NoisePeriods(t: TimerState, i: nat)
    requires i < 16
    ensures i < 15 ==> TimerSet(t, PeriodTable[i]).reload == PeriodTable[i]
    ensures i == 15 ==> TimerSet(t, PeriodTable[i]).reload == 2020
  {
  }

  class NoiseChannel {
    var envelope: EnvelopeState
    var timer: TimerState
    var length: LengthState
    var mode: bool
    var shiftRegister: bv16

    ghost predicate Valid()
      reads this
    {
      State().Valid()
    }

    function State(): NoiseState
      reads this
    {
      NoiseState(envelope, timer, length, mode, shiftRegister)
    }

    constructor ()
      ensures Valid() && State() == NoiseDefault
    {
      envelope, timer, length := EnvelopeDefault, TimerDefault, LengthDefault;
      mode := false;
      shiftRegister := 1;
    }

    method Reset()
      modifies this
      ensures Valid() && State() == NoiseDefault
    {
      envelope, timer, length := EnvelopeDefault, TimerDefault, LengthDefault;
      mode := false;
      shiftRegister := 1;
    }

    method Write(addr: bv16, data: bv8)
      requires Valid()
      modifies this
      ensures Valid() && State() == NoiseWrite(old(State()), addr, data)
    {
      var reg := addr & 3;
      if reg == 0 {
        envelope := envelope.(register := data);
        length := length.(halt := data & 0x20 != 0);
      } else if reg == 1 {
        // unused
      } else if reg == 2 {
        timer := TimerSet(timer, PeriodTable[Nat8(data & 0x0F)]);
        mode := data & 0x80 != 0;
      } else {
        length := LengthSetCounter(length, data >> 3);
        envelope := envelope.(start := true);
      }
    }

    method QuarterFrame()
      requires Valid()
      modifies this
      ensures Valid() && State() == NoiseQuarterFrame(old(State()))
    {
      envelope := EnvelopeClock(envelope);
    }

    method HalfFrame()
      requires Valid()
      modifies this
      ensures Valid() && State() == NoiseHalfFrame(old(State()))
    {
      length := LengthClock(length);
    }

    method Clock(sequenceMode: SequenceMode, cycle: nat)
      requires Valid()
      modifies this
      ensures Valid() && State() == NoiseClock(old(State()), sequenceMode, cycle)
    {
      if cycle % 2 == 1 {
        timer := TimerClock(timer);
        if timer.reloaded {
          shiftRegister := LfsrStep(shiftRegister, mode);
        }
      }
      if IsQuarterFrame(sequenceMode, cycle) {
        QuarterFrame();
      }
      if IsHalfFrame(sequenceMode, cycle) {
        HalfFrame();
      }
    }

    /** `length_counter_enable`. */
    function LengthCounterEnable(): (b: bool)
      reads this
      ensures b == State().length.enable
    {
      length.enable
    }

    method SetLengthCounterEnable(enable: bool)
      requires Valid()
      modifies this
      ensures Valid() && State() == old(State()).(length := LengthSetEnable(old(State()).length, enable))
    {
      length := LengthSetEnable(length, enable);
    }
  }
}
