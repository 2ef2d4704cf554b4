/**
 * The APU's shared units: the envelope generator, the frame-sequencer
 * schedule, the 11-bit channel timer and the length counter.
 *
 * The source's units are plain structs that each channel holds by value and
 * updates in place through `&mut self` methods. Here a unit is a datatype
 * and each of its methods a function from the old unit value to the new one;
 * a channel field holding the unit is reassigned with it. The properties of
 * the units (bounds they keep, periods they count) are lemmas about those
 * functions.
 */
module ApuCommon {
  import opened Bits

  // ---------------------------------------------------------------------
  // Envelope register fields (a $4000/$4004/$400C byte)
  // ---------------------------------------------------------------------

  /** Bits 0-3: the constant volume, or the envelope divider's period. */
  function RegisterVolume(reg: bv8): (v: bv8)
    ensures v <= 15 && Nat8(v) == Nat8(reg) % 16
  {
    reg & 0x0F
  }

  /** Bit 4: constant volume instead of the decay level. */
  predicate ConstantVolume(reg: bv8)
  {
    reg & 0x10 != 0
  }

  /** Bit 5: the decay level loops back to 15 (also the length-counter halt bit). */
  predicate EnvelopeLoop(reg: bv8)
  {
    reg & 0x20 != 0
  }

  /** Bits 6-7: the pulse duty selector. */
  function DutyBits(reg: bv8): (d: bv8)
    ensures d <= 3 && Nat8(d) == Nat8(reg) / 64
  {
    reg >> 6
  }

  // ---------------------------------------------------------------------
  // Envelope
  // ---------------------------------------------------------------------

  datatype EnvelopeState = EnvelopeState(register: bv8, start: bool, decay: bv8, divider: bv8)
  {
    /** The decay level and the divider are 4-bit counters. */
    predicate Valid()
    {
      decay <= 15 && divider <= 15
    }
  }

  const EnvelopeDefault := EnvelopeState(0, false, 0, 0)

  /** The decay level after a divider reload: one lower, or 15 again when looping. */
  function NextDecay(e: EnvelopeState): (d: bv8)
    ensures e.decay != 0 ==> Nat8(d) == Nat8(e.decay) - 1
    ensures e.decay == 0 ==> d == (if EnvelopeLoop(e.register) then 15 else 0)
  {
    if e.decay != 0 then Pred8(e.decay)
    else if EnvelopeLoop(e.register) then 15
    else e.decay
  }

  /**
   * One quarter-frame clock: a pending start restarts the decay at 15;
   * otherwise the divider counts down and, on reaching zero, reloads from the
   * register and steps the decay level.
   */
  function EnvelopeClock(e: EnvelopeState): (e': EnvelopeState)
    ensures e'.register == e.register && !e'.start
    ensures e.Valid() ==> e'.Valid()
    ensures e.start ==> e'.decay == 15 && e'.divider == RegisterVolume(e.register)
    ensures !e.start && e.divider != 0 ==> e'.decay == e.decay && Nat8(e'.divider) == Nat8(e.divider) - 1
    ensures !e.start && e.divider == 0 ==> e'.decay == NextDecay(e) && e'.divider == RegisterVolume(e.register)
  {
    if e.start then
      e.(start := false, decay := 15, divider := RegisterVolume(e.register))
    else if e.divider != 0 then
      e.(divider := Pred8(e.divider))
    else
      e.(divider := RegisterVolume(e.register), decay := NextDecay(e))
  }

  /** `n` envelope clocks in a row. */
  function EnvelopeClocks(e: EnvelopeState, n: nat): EnvelopeState
    decreases n
  {
    if n == 0 then e else EnvelopeClocks(EnvelopeClock(e), n - 1)
  }

  /** The output volume: the register's when constant, else the decay level; never above 15. */
  function EnvelopeVolume(e: EnvelopeState): (v: bv8)
    ensures e.Valid() ==> v <= 15
    ensures ConstantVolume(e.register) ==> v == RegisterVolume(e.register)
    ensures !ConstantVolume(e.register) ==> v == e.decay
  {
    if ConstantVolume(e.register) then RegisterVolume(e.register) else e.decay
  }

  /** While no start is pending, the divider counts down to zero without touching the decay. */
  lemma {:induction false} EnvelopeCountdown(e: EnvelopeState)
    requires !e.start
    ensures EnvelopeClocks(e, Nat8(e.divider)) == e.(divider := 0)
    decreases Nat8(e.divider)
  {
    if e.divider != 0 {
      var e1 := e.(divider := Pred8(e.divider));
      assert EnvelopeClock(e) == e1;
      EnvelopeCountdown(e1);
    }
  }

  lemma {:induction false} EnvelopeClocksSplit(e: EnvelopeState, m: nat, n: nat)
    ensures EnvelopeClocks(e, m + n) == EnvelopeClocks(EnvelopeClocks(e, m), n)
    decreases m
  {
    if m > 0 {
      EnvelopeClocksSplit(EnvelopeClock(e), m - 1, n);
    }
  }

  /**
   * The decay level steps once every `volume + 1` quarter frames: from a
   * freshly reloaded divider, the next change to the decay happens exactly
   * on clock `volume + 1`, which leaves the divider reloaded again.
   */
  lemma EnvelopePeriod(e: EnvelopeState)
    requires !e.start && e.divider == RegisterVolume(e.register)
    ensures EnvelopeClocks(e, Nat8(e.divider) + 1) == e.(decay := NextDecay(e))
  {
    EnvelopeCountdown(e);
    EnvelopeClocksSplit(e, Nat8(e.divider), 1);
    var z := e.(divider := 0);
    assert EnvelopeClocks(z, 1) == EnvelopeClock(z);
  }

  /** With a zero divider period and no looping, every clock lowers the decay level by one. */
  lemma {:induction false} EnvelopeDecaysToSilence(e: EnvelopeState, k: nat)
    requires !e.start && e.divider == 0 && !EnvelopeLoop(e.register) && RegisterVolume(e.register) == 0
    requires k <= Nat8(e.decay)
    ensures Nat8(EnvelopeClocks(e, k).decay) == Nat8(e.decay) - k
    ensures EnvelopeClocks(e, k).register == e.register && !EnvelopeClocks(e, k).start
    ensures EnvelopeClocks(e, k).divider == 0
    decreases k
  {
    if k > 0 {
      EnvelopeDecaysToSilence(EnvelopeClock(e), k - 1);
    }
  }

  // ---------------------------------------------------------------------
  // Frame sequencer schedule
  // ---------------------------------------------------------------------

  datatype SequenceMode = Step4 | Step5

  /** The frame-counter value of the sequence's final step. */
  function FinalStep(mode: SequenceMode): nat
  {
    if mode == Step4 then 29829 else 37281
  }

  predicate IsQuarterFrame(mode: SequenceMode, cycle: nat)
  {
    cycle == 7457 || cycle == 14913 || cycle == 22371 || cycle == FinalStep(mode)
  }

  predicate IsHalfFrame(mode: SequenceMode, cycle: nat)
  {
    cycle == 14913 || cycle == FinalStep(mode)
  }

  /** The frame counter's modulus: one past the final step. */
  function GetMax(mode: SequenceMode): (m: nat)
    ensures m == FinalStep(mode) + 1
    ensures m == (if mode == Step4 then 29830 else 37282)
  {
    if mode == Step4 then 29830 else 37282
  }

  /**
   * Every half frame is also a quarter frame, every step falls inside one
   * sequence, and the final step clocks both.
   */
  lemma FrameSchedule(mode: SequenceMode, cycle: nat)
    ensures IsHalfFrame(mode, cycle) ==> IsQuarterFrame(mode, cycle)
    ensures IsQuarterFrame(mode, cycle) ==> cycle < GetMax(mode)
    ensures IsQuarterFrame(mode, GetMax(mode) - 1) && IsHalfFrame(mode, GetMax(mode) - 1)
    ensures IsQuarterFrame(mode, cycle) && !IsHalfFrame(mode, cycle) ==> cycle == 7457 || cycle == 22371
  {
  }

  // ---------------------------------------------------------------------
  // Timer
  // ---------------------------------------------------------------------

  /**
   * The timer's u16 period and counter. Every setter masks the period to 11
   * bits and the counter only counts down from it, so both stay below 0x800
   * and are kept as naturals; the masks are written as the equivalent
   * division and remainder.
   */
  datatype TimerState = TimerState(reload: nat, counter: nat, reloaded: bool)
  {
    /** The period is 11 bits and the counter never exceeds it. */
    predicate Valid()
    {
      reload < 0x800 && counter <= reload
    }
  }

  const TimerDefault := TimerState(0, 0, false)

  /** `set_timer`: the u16 value masked with 0x7FF, restarting the count. */
  function TimerSet(t: TimerState, val: nat): (t': TimerState)
    requires val < 0x10000
    ensures t'.Valid() && t'.counter == t'.reload && t'.reloaded == t.reloaded
    ensures t'.reload == val % 0x800 && (val < 0x800 ==> t'.reload == val)
  {
    var reload := val % 0x800;
    t.(reload := reload, counter := reload)
  }

  /** `set_timer_lo`: `(reload & 0x0700) | lo` replaces the low 8 bits and keeps bits 8-10. */
  function TimerSetLo(t: TimerState, lo: bv8): (t': TimerState)
    ensures t'.reload < 0x800 && t'.counter == t'.reload && t'.reloaded == t.reloaded
    ensures t'.reload % 0x100 == Nat8(lo) && t'.reload / 0x100 == t.reload / 0x100 % 8
  {
    var reload := t.reload / 0x100 % 8 * 0x100 + Nat8(lo);
    t.(reload := reload, counter := reload)
  }

  /** `set_timer_hi`: `(reload & 0x00FF) | ((hi & 7) << 8)` replaces bits 8-10 and keeps the low 8. */
  function TimerSetHi(t: TimerState, hi: bv8): (t': TimerState)
    ensures t'.reload < 0x800 && t'.counter == t'.reload && t'.reloaded == t.reloaded
    ensures t'.reload % 0x100 == t.reload % 0x100 && t'.reload / 0x100 == Nat8(hi) % 8
  {
    var reload := t.reload % 0x100 + Nat8(hi) % 8 * 0x100;
    t.(reload := reload, counter := reload)
  }

  /** One timer clock: count down, or reload from the period and report `done`. */
  function TimerClock(t: TimerState): (t': TimerState)
    ensures t'.reload == t.reload
    ensures t'.reloaded <==> t.counter == 0
    ensures t.counter != 0 ==> t'.counter == t.counter - 1
    ensures t.counter == 0 ==> t'.counter == t.reload
    ensures t.Valid() ==> t'.Valid()
  {
    if t.counter != 0 then t.(counter := t.counter - 1, reloaded := false)
    else t.(counter := t.reload, reloaded := true)
  }

  /** `n` timer clocks in a row. */
  function TimerClocks(t: TimerState, n: nat): TimerState
    decreases n
  {
    if n == 0 then t else TimerClocks(TimerClock(t), n - 1)
  }

  /** From a nonzero count, the next `counter` clocks count down to zero without reporting done. */
  lemma {:induction false} TimerCountdown(t: TimerState, j: nat)
    requires 0 < j <= t.counter
    ensures TimerClocks(t, j) == t.(counter := t.counter - j, reloaded := false)
    decreases j
  {
    var t1 := t.(counter := t.counter - 1, reloaded := false);
    assert TimerClock(t) == t1;
    if j > 1 {
      TimerCountdown(t1, j - 1);
    }
  }

  lemma {:induction false} TimerClocksSplit(t: TimerState, m: nat, n: nat)
    ensures TimerClocks(t, m + n) == TimerClocks(TimerClocks(t, m), n)
    decreases m
  {
    if m > 0 {
      TimerClocksSplit(TimerClock(t), m - 1, n);
    }
  }

  /**
   * A freshly loaded timer with period p reports `done` for the first time
   * on clock p + 1, at which point it is loaded again: one `done` every
   * p + 1 clocks.
   */
  lemma TimerPeriod(t: TimerState)
    requires t.counter == t.reload
    ensures TimerClocks(t, t.reload + 1) == t.(reloaded := true)
    ensures forall j :: 0 < j <= t.reload ==> !TimerClocks(t, j).reloaded
  {
    var p := t.reload;
    if p == 0 {
      assert TimerClocks(t, 1) == TimerClock(t);
    } else {
      TimerCountdown(t, p);
      TimerClocksSplit(t, p, 1);
      var z := t.(counter := 0, reloaded := false);
      assert TimerClocks(z, 1) == TimerClock(z);
      forall j | 0 < j <= p
        ensures !TimerClocks(t, j).reloaded
      {
        TimerCountdown(t, j);
      }
    }
  }

  // ---------------------------------------------------------------------
  // Length counter
  // ---------------------------------------------------------------------

  /** Length values loaded by the top 5 bits of a channel's fourth register. */
  const LengthTable: seq<bv8> := [
    10, 254, 20, 2, 40, 4, 80, 6, 160, 8, 60, 10, 14, 12, 26, 14,
    12, 16, 24, 18, 48, 20, 96, 22, 192, 24, 72, 26, 16, 28, 32, 30
  ]

  datatype LengthState = LengthState(counter: bv8, halt: bool, enable: bool)
  {
    /** A disabled counter is silent. */
    predicate Valid()
    {
      !enable ==> counter == 0
    }
  }

  const LengthDefault := LengthState(0, false, false)

  /** `set_counter`: loads the table entry, but only while the channel is enabled. */
  function LengthSetCounter(l: LengthState, index: bv8): (l': LengthState)
    requires index < 32
    ensures l'.halt == l.halt && l'.enable == l.enable
    ensures l.enable ==> l'.counter == LengthTable[Nat8(index)]
    ensures !l.enable ==> l' == l
    ensures l.Valid() ==> l'.Valid()
  {
    if l.enable then l.(counter := LengthTable[Nat8(index)]) else l
  }

  /** `set_enable`: disabling forces the counter to 0. */
  function LengthSetEnable(l: LengthState, enable: bool): (l': LengthState)
    ensures l'.enable == enable && l'.halt == l.halt
    ensures l'.counter == (if enable then l.counter else 0)
    ensures l.Valid() ==> l'.Valid()
  {
    if enable then l.(enable := enable) else l.(enable := enable, counter := 0)
  }

  /** One half-frame clock: counts down unless halted or already 0. */
  function LengthClock(l: LengthState): (l': LengthState)
    ensures l'.halt == l.halt && l'.enable == l.enable
    ensures l.counter > 0 && !l.halt ==> Nat8(l'.counter) == Nat8(l.counter) - 1
    ensures !(l.counter > 0 && !l.halt) ==> l'.counter == l.counter
    ensures l.Valid() ==> l'.Valid()
  {
    if l.counter > 0 && !l.halt then l.(counter := Pred8(l.counter)) else l
  }

  /** `n` length clocks in a row. */
  function LengthClocks(l: LengthState, n: nat): LengthState
    decreases n
  {
    if n == 0 then l else LengthClocks(LengthClock(l), n - 1)
  }

  /** An unhalted counter loaded with `c` reaches 0 after exactly `c` half frames. */
  lemma {:induction false} LengthRunsOut(l: LengthState)
    requires !l.halt
    ensures LengthClocks(l, Nat8(l.counter)) == l.(counter := 0)
    decreases Nat8(l.counter)
  {
    if l.counter > 0 {
      var l1 := l.(counter := Pred8(l.counter));
      assert LengthClock(l) == l1;
      LengthRunsOut(l1);
    }
  }
}
