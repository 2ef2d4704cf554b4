/**
 * The two APU pulse channels ($4000-$4003 and $4004-$4007): an envelope, a
 * sweep unit that retunes the timer, an 11-bit timer stepping an 8-step duty
 * sequence, and a length counter. The two channels differ only in how the
 * negated sweep subtracts (`one_complement`).
 */
module ApuPulse {
  import opened Bits
  import opened ApuCommon

  /** The four 8-step duty patterns (12.5%, 25%, 50%, negated 25%). */
  const DutySequences: seq<seq<bv8>> := [
    [0, 1, 0, 0, 0, 0, 0, 0],
    [0, 1, 1, 0, 0, 0, 0, 0],
    [0, 1, 1, 1, 1, 0, 0, 0],
    [1, 0, 0, 1, 1, 1, 1, 1]
  ]

  /** `1 << n` for a shift count below 8. */
  const Powers: seq<nat> := [1, 2, 4, 8, 16, 32, 64, 128]

  // Sweep register fields ($4001/$4005).

  /** Bits 0-2: the shift count. */
  function ShiftCount(sweep: bv8): (n: bv8)
    ensures n <= 7
  {
    sweep & 0x07
  }

  /** Bit 3: the sweep subtracts instead of adding. */
  predicate Negate(sweep: bv8)
  {
    sweep & 0x08 != 0
  }

  /** Bits 4-6: the sweep divider's period. */
  function SweepPeriod(sweep: bv8): (p: bv8)
    ensures p <= 7
  {
    (sweep >> 4) & 0x07
  }

  /** Bit 7: the sweep is enabled. */
  predicate SweepEnabled(sweep: bv8)
  {
    sweep & 0x80 != 0
  }

  /** `value >> shift_count` on the u16 timer value. */
  function SweepChange(value: nat, sweep: bv8): (c: nat)
    ensures c <= value
    ensures ShiftCount(sweep) == 0 ==> c == value
  {
    var k := Powers[Nat8(ShiftCount(sweep))];
    assert k >= 1;
    value / k
  }

  /**
   * `target_period`: the value plus its shifted copy, or minus it when
   * negating, with one more added for the one's-complement channel. The u16
   * `wrapping_add`/`wrapping_sub` and the plain `+ 1` are taken modulo 2^16.
   */
  function SweepTarget(value: nat, sweep: bv8, oneComplement: bool): (p: nat)
    ensures p < 0x10000
  {
    var change := SweepChange(value, sweep);
    if Negate(sweep) then
      if oneComplement then ((value - change) % 0x10000 + 1) % 0x10000
      else (value - change) % 0x10000
    else
      (value + change) % 0x10000
  }

  /**
   * For any 11-bit timer value nothing wraps: the target is the value plus
   * `value >> shift`, or minus it (plus 1 on the one's-complement channel),
   * so a negated sweep never raises the period by more than 1.
   */
  lemma SweepTargetExact(value: nat, sweep: bv8, oneComplement: bool)
    requires value < 0x800
    ensures SweepChange(value, sweep) <= value
    ensures !Negate(sweep) ==> SweepTarget(value, sweep, oneComplement) == value + SweepChange(value, sweep)
    ensures Negate(sweep) ==>
      SweepTarget(value, sweep, oneComplement) == value - SweepChange(value, sweep) + (if oneComplement then 1 else 0)
    ensures Negate(sweep) ==> SweepTarget(value, sweep, oneComplement) <= value + 1
  {
    var c := SweepChange(value, sweep);
    if Negate(sweep) {
      var d := value - c;
      assert 0 <= d < 0x10000 && d % 0x10000 == d;
      assert (d + 1) % 0x10000 == d + 1;
    } else {
      assert (value + c) % 0x10000 == value + c;
    }
  }

  datatype PulseState = PulseState(
    envelope: EnvelopeState,
    sweep: bv8,
    timer: TimerState,
    length: LengthState,
    oneComplement: bool,
    dutyCycle: bv8,
    sweepCounter: bv8,
    sweepReload: bool)
  {
    /** The units' invariants, the duty step below 8 and the sweep divider within its 3-bit period. */
    predicate Valid()
    {
      envelope.Valid() && timer.Valid() && length.Valid() && dutyCycle < 8 && sweepCounter <= 7
    }
  }

  /** `PulseChannel::new(one_complement)`: everything else at its default. */
  function PulseDefault(oneComplement: bool): (s: PulseState)
    ensures s.Valid() && s.oneComplement == oneComplement
  {
    PulseState(EnvelopeDefault, 0, TimerDefault, LengthDefault, oneComplement, 0, 0, false)
  }

  /** A register write; the register is `addr & 3`. */
  function PulseWrite(s: PulseState, addr: bv16, data: bv8): (s': PulseState)
    ensures s.Valid() ==> s'.Valid()
    ensures s'.oneComplement == s.oneComplement
    ensures addr & 3 == 0 ==> s' == s.(envelope := s.envelope.(register := data),
                                      length := s.length.(halt := data & 0x20 != 0))
    ensures addr & 3 == 1 ==> s' == s.(sweep := data, sweepReload := true)
    ensures addr & 3 == 2 ==> s' == s.(timer := TimerSetLo(s.timer, data))
    ensures addr & 3 == 3 ==>
      s'.timer == TimerSetHi(s.timer, data & 7) && s'.length == LengthSetCounter(s.length, data >> 3) &&
      s'.envelope == s.envelope.(start := true) && s'.dutyCycle == 0 &&
      s'.sweep == s.sweep && s'.sweepCounter == s.sweepCounter && s'.sweepReload == s.sweepReload
  {
    var reg := addr & 3;
    if reg == 0 then
      s.(envelope := s.envelope.(register := data), length := s.length.(halt := data & 0x20 != 0))
    else if reg == 1 then
      s.(sweep := data, sweepReload := true)
    else if reg == 2 then
      s.(timer := TimerSetLo(s.timer, data))
    else
      s.(timer := TimerSetHi(s.timer, data & 7),
         length := LengthSetCounter(s.length, data >> 3),
         envelope := s.envelope.(start := true),
         dutyCycle := 0)
  }

  /** The duty step after a timer reload: 0..7 with wraparound. */
  function NextDutyStep(step: bv8): (n: bv8)
    requires step < 8
    ensures n < 8 && Nat8(n) == (Nat8(step) + 1) % 8
  {
    if step != 7 then step + 1 else 0
  }

  /** The per-cycle part of `clock`: on even cycles the timer is clocked and each reload advances the duty step. */
  function PulseTick(s: PulseState, cycle: nat): (s': PulseState)
    requires s.Valid()
    ensures s'.Valid()
    ensures s'.envelope == s.envelope && s'.length == s.length && s'.sweep == s.sweep
    ensures s'.sweepCounter == s.sweepCounter && s'.sweepReload == s.sweepReload && s'.oneComplement == s.oneComplement
    ensures cycle % 2 == 1 ==> s' == s
    ensures cycle % 2 == 0 ==> s'.timer == TimerClock(s.timer)
    ensures Nat8(s'.dutyCycle) == if cycle % 2 == 0 && s.timer.counter == 0 then (Nat8(s.dutyCycle) + 1) % 8
                                  else Nat8(s.dutyCycle)
  {
    if cycle % 2 == 0 then
      var t := TimerClock(s.timer);
      s.(timer := t, dutyCycle := if t.reloaded then NextDutyStep(s.dutyCycle) else s.dutyCycle)
    else
      s
  }

  /** Quarter frame: the envelope is clocked. */
  function PulseQuarterFrame(s: PulseState): (s': PulseState)
    requires s.Valid()
    ensures s'.Valid() && s' == s.(envelope := EnvelopeClock(s.envelope))
  {
    s.(envelope := EnvelopeClock(s.envelope))
  }

  /** Whether the half frame applies the sweep target to the timer, given the divider after its decrement. */
  predicate SweepApplies(s: PulseState, counter: bv8)
  {
    counter == 0 && SweepEnabled(s.sweep) && ShiftCount(s.sweep) > 0
    && SweepTarget(s.timer.counter, s.sweep, s.oneComplement) <= 0x7FF
  }

  /**
   * Half frame: the sweep divider counts down; at 0 an enabled sweep with a
   * nonzero shift and an in-range target retunes the timer; the divider
   * reloads at 0 or on request; the length counter is clocked.
   */
  function PulseHalfFrame(s: PulseState): (s': PulseState)
    requires s.Valid()
    ensures s'.Valid()
    ensures s'.envelope == s.envelope && s'.sweep == s.sweep && s'.dutyCycle == s.dutyCycle
    ensures s'.length == LengthClock(s.length) && !s'.sweepReload
    ensures s'.timer == s.timer || s'.timer == TimerSet(s.timer, SweepTarget(s.timer.counter, s.sweep, s.oneComplement))
    ensures s'.timer != s.timer ==> s'.timer.reload == SweepTarget(s.timer.counter, s.sweep, s.oneComplement)
    ensures ShiftCount(s.sweep) == 0 || !SweepEnabled(s.sweep) ==> s'.timer == s.timer
  {
    var target := SweepTarget(s.timer.counter, s.sweep, s.oneComplement);
    var counter := if s.sweepCounter != 0 then s.sweepCounter - 1 else s.sweepCounter;
    var timer := if SweepApplies(s, counter) then TimerSet(s.timer, target) else s.timer;
    var reload := counter == 0 || s.sweepReload;
    s.(timer := timer,
       sweepCounter := if reload then SweepPeriod(s.sweep) else counter,
       sweepReload := if reload then false else s.sweepReload,
       length := LengthClock(s.length))
  }

  /** `clock(sequence_mode, cycle_count)`: the timer part, then the quarter- and half-frame units when due. */
  function PulseClock(s: PulseState, mode: SequenceMode, cycle: nat): (s': PulseState)
    requires s.Valid()
    ensures s'.Valid() && s'.oneComplement == s.oneComplement
    ensures !IsQuarterFrame(mode, cycle) ==> s' == PulseTick(s, cycle)
    ensures IsQuarterFrame(mode, cycle) && !IsHalfFrame(mode, cycle) ==> s' == PulseQuarterFrame(PulseTick(s, cycle))
    ensures IsHalfFrame(mode, cycle) ==> s' == PulseHalfFrame(PulseQuarterFrame(PulseTick(s, cycle)))
  {
    var s1 := PulseTick(s, cycle);
    var s2 := if IsQuarterFrame(mode, cycle) then PulseQuarterFrame(s1) else s1;
    if IsHalfFrame(mode, cycle) then PulseHalfFrame(s2) else s2
  }

  /** The duty bit the channel is on. */
  function DutyBit(s: PulseState): (b: bv8)
    requires s.Valid()
    ensures b == 0 || b == 1
  {
    DutySequences[Nat8(DutyBits(s.envelope.register))][Nat8(s.dutyCycle)]
  }

  /** Silenced: a count below 8, a sweep target beyond 11 bits, or an empty length counter. */
  predicate PulseMuted(s: PulseState)
  {
    s.timer.counter < 8 || SweepTarget(s.timer.counter, s.sweep, s.oneComplement) > 0x7FF || s.length.counter == 0
  }

  /** `sample`: 0 when muted, else the envelope volume gated by the duty bit; at most 15. */
  function PulseSample(s: PulseState): (v: bv8)
    requires s.Valid()
    ensures v <= 15
    ensures PulseMuted(s) ==> v == 0
    ensures !PulseMuted(s) ==> v == (if DutyBit(s) == 1 then EnvelopeVolume(s.envelope) else 0)
  {
    if PulseMuted(s) then 0 else EnvelopeVolume(s.envelope) * DutyBit(s)
  }

  /**
   * A fourth-register write restarts the envelope: the next quarter frame
   * sets the decay level to 15 whatever it was, and the duty sequence starts
   * over from step 0.
   */
  lemma PulseRestart(s: PulseState, data: bv8)
    requires s.Valid()
    ensures PulseWrite(s, 3, data).dutyCycle == 0
    ensures PulseQuarterFrame(PulseWrite(s, 3, data)).envelope.decay == 15
  {
  }

  /** Clearing the channel's enable bit silences it until it is enabled again. */
  lemma PulseDisabledIsSilent(s: PulseState)
    requires s.Valid()
    ensures PulseSample(s.(length := LengthSetEnable(s.length, false))) == 0
  {
  }

  class PulseChannel {
    var envelope: EnvelopeState
    var timer: TimerState
    var length: LengthState
    const oneComplement: bool
    var sweep: bv8
    var dutyCycle: bv8
    var sweepCounter: bv8
    var sweepReload: bool

    ghost predicate Valid()
      reads this
    {
      State().Valid()
    }

    function State(): PulseState
      reads this
    {
      PulseState(envelope, sweep, timer, length, oneComplement, dutyCycle, sweepCounter, sweepReload)
    }

    constructor (oneComplement: bool)
      ensures Valid() && State() == PulseDefault(oneComplement)
    {
      envelope, timer, length := EnvelopeDefault, TimerDefault, LengthDefault;
      this.oneComplement := oneComplement;
      sweep, dutyCycle, sweepCounter, sweepReload := 0, 0, 0, false;
    }

    /** Back to `PulseChannel::new(one_complement)`. */
    method Reset()
      modifies this
      ensures Valid() && State() == PulseDefault(oneComplement)
    {
      envelope, timer, length := EnvelopeDefault, TimerDefault, LengthDefault;
      sweep, dutyCycle, sweepCounter, sweepReload := 0, 0, 0, false;
    }

    method Write(addr: bv16, data: bv8)
      requires Valid()
      modifies this
      ensures Valid() && State() == PulseWrite(old(State()), addr, data)
    {
      var reg := addr & 3;
      if reg == 0 {
        envelope := envelope.(register := data);
        length := length.(halt := data & 0x20 != 0);
      } else if reg == 1 {
        sweep := data;
        sweepReload := true;
      } else if reg == 2 {
        timer := TimerSetLo(timer, data);
      } else {
        timer := TimerSetHi(timer, data & 7);
        length := LengthSetCounter(length, data >> 3);
        envelope := envelope.(start := true);
        dutyCycle := 0;
      }
    }

    method QuarterFrame()
      requires Valid()
      modifies this
      ensures Valid() && State() == PulseQuarterFrame(old(State()))
    {
      envelope := EnvelopeClock(envelope);
    }

    method HalfFrame()
      requires Valid()
      modifies this
      ensures Valid() && State() == PulseHalfFrame(old(State()))
    {
      var target := SweepTarget(timer.counter, sweep, oneComplement);
      if sweepCounter != 0 {
        sweepCounter := sweepCounter - 1;
      }
      if sweepCounter == 0 && SweepEnabled(sweep) && ShiftCount(sweep) > 0 && target <= 0x7FF {
        timer := TimerSet(timer, target);
      }
      if sweepCounter == 0 || sweepReload {
        sweepCounter := SweepPeriod(sweep);
        sweepReload := false;
      }
      length := LengthClock(length);
    }

    method Clock(mode: SequenceMode, cycle: nat)
      requires Valid()
      modifies this
      ensures Valid() && State() == PulseClock(old(State()), mode, cycle)
    {
      if cycle % 2 == 0 {
        timer := TimerClock(timer);
        if timer.reloaded {
          if dutyCycle != 7 {
            dutyCycle := dutyCycle + 1;
          } else {
            dutyCycle := 0;
          }
        }
      }
      assert State() == PulseTick(old(State()), cycle);
      if IsQuarterFrame(mode, cycle) {
        QuarterFrame();
      }
      if IsHalfFrame(mode, cycle) {
        HalfFrame();
      }
    }

    /** `length_counter_enable`. */
    function LengthCounterEnable(): (b: bool)
      reads this
      ensures b == State().length.enable
    {
      length.enable
    }

    method SetLengthCounterEnable(enable: bool)
      requires Valid()
      modifies this
      ensures Valid() && State() == old(State()).(length := LengthSetEnable(old(State()).length, enable))
    {
      length := LengthSetEnable(length, enable);
    }
  }
}
