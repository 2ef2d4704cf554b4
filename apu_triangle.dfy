/**
 * The APU triangle channel ($4008-$400B): an 11-bit timer clocked on every
 * CPU cycle steps a 32-entry triangle sequence while the linear counter and
 * the length counter are both nonzero.
 */
module ApuTriangle {
  import opened Bits
  import opened ApuCommon

  /** The 32-step triangle wave: 15 down to 0, then 0 up to 15. */
  const Sequence: seq<bv8> := [
    15, 14, 13, 12, 11, 10, 9, 8, 7, 6, 5, 4, 3, 2, 1, 0,
    0, 1, 2, 3, 4, 5, 6, 7, 8, 9, 10, 11, 12, 13, 14, 15
  ]

  // Linear counter register fields ($4008).

  /** Bits 0-6: the linear counter's reload value. */
  function ReloadValue(reg: bv8): (v: bv8)
    ensures v <= 127
  {
    reg & 0x7F
  }

  /** Bit 7: the control flag (also the length-counter halt bit). */
  predicate Control(reg: bv8)
  {
    reg & 0x80 != 0
  }

  datatype LinearState = LinearState(register: bv8, counter: bv8, reload: bool)
  {
    /** The counter never exceeds the 7-bit reload value range. */
    predicate Valid()
    {
      counter <= 127
    }
  }

  const LinearDefault := LinearState(0, 0, false)

  /**
   * `LinearCounter::clock` (quarter frames): reload from the register while the
   * reload flag is set, else count a nonzero counter down; the flag is
   * cleared only when the control bit is clear.
   */
  function LinearClock(l: LinearState): (l': LinearState)
    ensures l'.register == l.register
    ensures l.reload ==> l'.counter == ReloadValue(l.register)
    ensures !l.reload && l.counter != 0 ==> Nat8(l'.counter) == Nat8(l.counter) - 1
    ensures !l.reload && l.counter == 0 ==> l'.counter == 0
    ensures l'.reload <==> l.reload && Control(l.register)
    ensures l.Valid() ==> l'.Valid()
  {
    var counter := if l.reload then ReloadValue(l.register)
                   else if l.counter != 0 then Pred8(l.counter)
                   else l.counter;
    l.(counter := counter, reload := if !Control(l.register) then false else l.reload)
  }

  /** `n` linear-counter clocks in a row. */
  function LinearClocks(l: LinearState, n: nat): LinearState
    decreases n
  {
    if n == 0 then l else LinearClocks(LinearClock(l), n - 1)
  }

  /** With the control bit set, a pending reload is never cleared: the counter is held at the reload value. */
  lemma {:induction false} LinearHeld(l: LinearState, n: nat)
    requires l.reload && Control(l.register)
    ensures LinearClocks(l, n + 1).counter == ReloadValue(l.register)
    ensures LinearClocks(l, n + 1).reload
    decreases n
  {
    var l1 := LinearClock(l);
    if n > 0 {
      LinearHeld(l1, n - 1);
    }
  }

  datatype TriangleState = TriangleState(timer: TimerState, length: LengthState, linear: LinearState, sequenceIndex: bv8)
  {
    predicate Valid()
    {
      timer.Valid() && length.Valid() && linear.Valid() && sequenceIndex < 32
    }
  }

  const TriangleDefault := TriangleState(TimerDefault, LengthDefault, LinearDefault, 0)

  /** A register write; the register is `addr & 3`, and register 1 is unused. */
  function TriangleWrite(s: TriangleState, addr: bv16, data: bv8): (s': TriangleState)
    ensures s.Valid() ==> s'.Valid()
    ensures addr & 3 == 0 ==> s' == s.(linear := s.linear.(register := data), length := s.length.(halt := data & 0x80 != 0))
    ensures addr & 3 == 1 ==> s' == s
    ensures addr & 3 == 2 ==> s' == s.(timer := TimerSetLo(s.timer, data))
    ensures addr & 3 == 3 ==>
      s' == s.(timer := TimerSetHi(s.timer, data & 7), length := LengthSetCounter(s.length, data >> 3),
               linear := s.linear.(reload := true))
  {
    var reg := addr & 3;
    if reg == 0 then
      s.(linear := s.linear.(register := data), length := s.length.(halt := data & 0x80 != 0))
    else if reg == 1 then
      s
    else if reg == 2 then
      s.(timer := TimerSetLo(s.timer, data))
    else
      s.(timer := TimerSetHi(s.timer, data & 7),
         length := LengthSetCounter(s.length, data >> 3),
         linear := s.linear.(reload := true))
  }

  /** `is_muted`: a count below 2, or an empty linear or length counter. */
  predicate TriangleMuted(s: TriangleState)
  {
    s.timer.counter < 2 || s.linear.counter == 0 || s.length.counter == 0
  }

  /**
   * The per-cycle part of `clock`: the timer is clocked, and a reload steps
   * the sequence (mod 32) unless the channel, with the new count, is muted.
   */
  function TriangleTick(s: TriangleState): (s': TriangleState)
    requires s.Valid()
    ensures s'.Valid()
    ensures s'.timer == TimerClock(s.timer) && s'.length == s.length && s'.linear == s.linear
    ensures Nat8(s'.sequenceIndex) ==
      if s'.timer.reloaded && !TriangleMuted(s') then (Nat8(s.sequenceIndex) + 1) % 32 else Nat8(s.sequenceIndex)
  {
    var s1 := s.(timer := TimerClock(s.timer));
    if s1.timer.reloaded && !TriangleMuted(s1) then
      s1.(sequenceIndex := (s1.sequenceIndex + 1) % 32)
    else
      s1
  }

  /** `clock(sequence_mode, cycle_count)`: the timer part, the linear counter on quarter frames, the length counter on half frames. */
  function TriangleClock(s: TriangleState, mode: SequenceMode, cycle: nat): (s': TriangleState)
    requires s.Valid()
    ensures s'.Valid()
    ensures !IsQuarterFrame(mode, cycle) ==> s' == TriangleTick(s)
    ensures IsQuarterFrame(mode, cycle) && !IsHalfFrame(mode, cycle) ==> s' == TriangleQuarterFrame(TriangleTick(s))
    ensures IsHalfFrame(mode, cycle) ==> s' == TriangleHalfFrame(TriangleQuarterFrame(TriangleTick(s)))
  {
    var s1 := TriangleTick(s);
    var s2 := if IsQuarterFrame(mode, cycle) then TriangleQuarterFrame(s1) else s1;
    if IsHalfFrame(mode, cycle) then TriangleHalfFrame(s2) else s2
  }

  function TriangleQuarterFrame(s: TriangleState): (s': TriangleState)
    requires s.Valid()
    ensures s'.Valid() && s' == s.(linear := LinearClock(s.linear))
  {
    s.(linear := LinearClock(s.linear))
  }

  function TriangleHalfFrame(s: TriangleState): (s': TriangleState)
    requires s.Valid()
    ensures s'.Valid() && s' == s.(length := LengthClock(s.length))
  {
    s.(length := LengthClock(s.length))
  }

  /** `sample`: the sequence entry, always within 0..15. */
  function TriangleSample(s: TriangleState): (v: bv8)
    requires s.Valid()
    ensures v <= 15
  {
    Sequence[Nat8(s.sequenceIndex)]
  }

  /** A muted channel holds its sequence position, so its output does not change. */
  lemma TriangleMutedHolds(s: TriangleState)
    requires s.Valid() && TriangleMuted(TriangleTick(s))
    ensures TriangleSample(TriangleTick(s)) == TriangleSample(s)
  {
  }

  class TriangleChannel {
    var timer: TimerState
    var length: LengthState
    var linear: LinearState
    var sequenceIndex: bv8

    ghost predicate Valid()
      reads this
    {
      State().Valid()
    }

    function State(): TriangleState
      reads this
    {
      TriangleState(timer, length, linear, sequenceIndex)
    }

    constructor ()
      ensures Valid() && State() == TriangleDefault
    {
      timer, length, linear := TimerDefault, LengthDefault, LinearDefault;
      sequenceIndex := 0;
    }

    method Reset()
      modifies this
      ensures Valid() && State() == TriangleDefault
    {
      timer, length, linear := TimerDefault, LengthDefault, LinearDefault;
      sequenceIndex := 0;
    }

    method Write(addr: bv16, data: bv8)
      requires Valid()
      modifies this
      ensures Valid() && State() == TriangleWrite(old(State()), addr, data)
    {
      var reg := addr & 3;
      if reg == 0 {
        linear := linear.(register := data);
        length := length.(halt := data & 0x80 != 0);
      } else if reg == 1 {
        // unused
      } else if reg == 2 {
        timer := TimerSetLo(timer, data);
      } else {
        timer := TimerSetHi(timer, data & 7);
        length := LengthSetCounter(length, data >> 3);
        linear := linear.(reload := true);
      }
    }

    /** `is_muted`, on the current fields. */
    predicate IsMuted()
      reads this
      ensures IsMuted() <==> TriangleMuted(State())
    {
      timer.counter < 2 || linear.counter == 0 || length.counter == 0
    }

    method QuarterFrame()
      requires Valid()
      modifies this
      ensures Valid() && State() == TriangleQuarterFrame(old(State()))
    {
      linear := LinearClock(linear);
    }

    method HalfFrame()
      requires Valid()
      modifies this
      ensures Valid() && State() == TriangleHalfFrame(old(State()))
    {
      length := LengthClock(length);
    }

    method Clock(mode: SequenceMode, cycle: nat)
      requires Valid()
      modifies this
      ensures Valid() && State() == TriangleClock(old(State()), mode, cycle)
    {
      timer := TimerClock(timer);
      assert State() == old(State()).(timer := TimerClock(old(timer)));
      if timer.reloaded && !IsMuted() {
        sequenceIndex := (sequenceIndex + 1) % 32;
      }
      assert State() == TriangleTick(old(State()));
      if IsQuarterFrame(mode, cycle) {
        QuarterFrame();
      }
      if IsHalfFrame(mode, cycle) {
        HalfFrame();
      }
    }

    /** `length_counter_enable`. */
    function LengthCounterEnable(): (b: bool)
      reads this
      ensures b == State().length.enable
    {
      length.enable
    }

    method SetLengthCounterEnable(enable: bool)
      requires Valid()
      modifies this
      ensures Valid() && State() == old(State()).(length := LengthSetEnable(old(State()).length, enable))
    {
      length := LengthSetEnable(length, enable);
    }
  }
}
