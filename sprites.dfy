/**
 * The sprite state machines of the PPU: sprite evaluation (which copies the
 * sprites of the next scanline from the 64-entry OAM into the 8-entry
 * secondary OAM, then looks for an overflow), the per-sprite X counters of
 * the current scanline, and the sprite-0-hit tracker.
 */
module Sprites {
  import opened Bits
  import opened Wrappers

  // ---------------------------------------------------------------------
  // Sprite evaluation

  /**
   * The evaluation phase (`SpriteEvalutationState` in the source). `CopyOam(m)`
   * and `EvaluateOverflow(m)` carry the byte index m inside the current sprite.
   */
  datatype SpriteEvaluationState = Idle | CheckY | CopyOam(m: bv8) | EvaluateOverflow(m: bv8)

  /** The evaluation registers: the phase, the OAM sprite number n, the secondary slot and the latch. */
  datatype Evaluation = Evaluation(state: SpriteEvaluationState, oamPointer: bv8, secondaryPointer: bv8, latch: bv8)

  const OAM_SPRITES: bv8 := 64
  const SECONDARY_SPRITES: bv8 := 8

  /**
   * The bounds evaluation keeps: the OAM pointer never passes 64 and the
   * secondary pointer never passes 8; while checking and copying, both still
   * point at a sprite and no more sprites have been copied than checked;
   * overflow checking starts only once the secondary OAM is full, and its
   * byte index m, which steps with the OAM pointer, stays at least 8 behind
   * it (so below 56, and `m + 1` never wraps).
   */
  predicate EvaluationValid(e: Evaluation)
  {
    match e.state
    case Idle => e.oamPointer <= OAM_SPRITES && e.secondaryPointer <= SECONDARY_SPRITES
    case CheckY =>
      e.oamPointer < OAM_SPRITES && e.secondaryPointer < SECONDARY_SPRITES && e.secondaryPointer <= e.oamPointer
    case CopyOam(m) =>
      1 <= m <= 3 && e.oamPointer < OAM_SPRITES && e.secondaryPointer < SECONDARY_SPRITES &&
      e.secondaryPointer <= e.oamPointer
    case EvaluateOverflow(m) =>
      e.oamPointer < OAM_SPRITES && e.secondaryPointer == SECONDARY_SPRITES && m as int + 8 <= e.oamPointer as int
  }

  /** The state at the start of every scanline's evaluation (dot 0). */
  /** An evaluation in a reachable state. */
  type ValidEvaluation = e: Evaluation | EvaluationValid(e) witness Evaluation(Idle, 0, 0, 0)

  const START: Evaluation := Evaluation(CheckY, 0, 0, 0)

  lemma StartValid(latch: bv8)
    ensures EvaluationValid(START.(latch := latch))
  {
  }

  /** A sprite whose top row is `y` covers scanline `scanline` (computed with a wrapping u8 subtraction). */
  predicate InRange(scanline: bv8, y: bv8, spriteSize: bv8)
  {
    scanline - y < spriteSize
  }

  /**
   * The OAM byte an odd (read) dot of evaluation latches, if any: byte m of
   * sprite n, `(n << 2) | m`. Overflow checking keeps incrementing m past 3
   * (the hardware's diagonal walk), and the OR then mixes m into the sprite number.
   */
  function OamReadIndex(e: Evaluation): (r: Option<nat>)
    requires EvaluationValid(e)
    ensures r.Some? <==> !e.state.Idle?
    ensures r.Some? ==> r.value < 0x100
    ensures e.state.CheckY? ==> r == Some(Nat8(e.oamPointer) * 4)
    ensures e.state.CopyOam? ==> r == Some(Nat8(e.oamPointer) * 4 + Nat8(e.state.m))
  {
    match e.state
    case Idle => None
    case CheckY => Some(ByteOf(e.oamPointer, 0))
    case CopyOam(m) => Some(ByteOf(e.oamPointer, m))
    case EvaluateOverflow(m) => Some(Nat8((e.oamPointer << 2) | m))
  }

  /** Byte m of sprite n: `(n << 2) | m`, which for m < 4 is n * 4 + m. */
  function ByteOf(n: bv8, m: bv8): (r: nat)
    requires n < 64 && m < 4
    ensures r == Nat8(n) * 4 + Nat8(m) && r < 0x100
  {
    Nat8((n << 2) | m)
  }

  /** The secondary OAM byte an even (write) dot stores the latch into, if any. */
  function SecondaryWriteIndex(e: Evaluation): (r: Option<nat>)
    requires EvaluationValid(e)
    ensures r.Some? <==> e.state.CheckY? || e.state.CopyOam?
    ensures e.state.CheckY? ==> r == Some(Nat8(e.secondaryPointer) * 4)
    ensures e.state.CopyOam? ==> r == Some(Nat8(e.secondaryPointer) * 4 + Nat8(e.state.m))
    ensures r.Some? ==> r.value < 32
  {
    match e.state
    case CheckY => Some(ByteOf(e.secondaryPointer, 0))
    case CopyOam(m) => Some(ByteOf(e.secondaryPointer, m))
    case _ => None
  }

  /**
   * An even dot of evaluation, once the latch holds the byte just read and
   * `inRange` says whether that byte, as a Y coordinate, hits the next
   * scanline.
   */
  function EvenStep(e: Evaluation, inRange: bool): (r: Evaluation)
    requires EvaluationValid(e)
    ensures EvaluationValid(r)
    ensures r.latch == e.latch
    ensures r.secondaryPointer == if e.state.CopyOam? && e.state.m == 3 then e.secondaryPointer + 1 else e.secondaryPointer
    ensures e.state.Idle? ==> r == e
    ensures e.state.CheckY? && inRange ==> r.state == CopyOam(1) && r.oamPointer == e.oamPointer
    ensures r.state.EvaluateOverflow? ==> e.state.EvaluateOverflow? || (e.state.CopyOam? && e.secondaryPointer == 7)
  {
    match e.state
    case Idle => e
    case CheckY =>
      if inRange then e.(state := CopyOam(1))
      else
        var n := e.oamPointer + 1;
        e.(oamPointer := n, state := if n == OAM_SPRITES then Idle else CheckY)
    case CopyOam(m) =>
      if m == 3 then
        var n := e.oamPointer + 1;
        var s := e.secondaryPointer + 1;
        e.(oamPointer := n, secondaryPointer := s,
           state := if n == OAM_SPRITES then Idle
                    else if s < SECONDARY_SPRITES then CheckY
                    else EvaluateOverflow(0))
      else e.(state := CopyOam(m + 1))
    case EvaluateOverflow(m) =>
      if inRange then e.(state := Idle)
      else
        var n := e.oamPointer + 1;
        e.(oamPointer := n, state := if n == OAM_SPRITES then Idle else EvaluateOverflow(m + 1))
  }

  /** An even dot of overflow checking that finds a hit raises SPRITE_OVERFLOW. */
  predicate Overflows(e: Evaluation, inRange: bool)
  {
    e.state.EvaluateOverflow? && inRange
  }

  /** The check that finds OAM entry 0 on the next scanline. */
  predicate FindsSpriteZero(e: Evaluation, inRange: bool)
  {
    e.state.CheckY? && inRange && e.oamPointer == 0
  }

  /**
   * Overflow needs eight copied sprites first: a state that checks for
   * overflow has a full secondary OAM, whatever came before.
   */
  lemma {:induction false} OverflowNeedsEightSprites(e: Evaluation, hits: seq<bool>)
    requires EvaluationValid(e)
    ensures EvaluationValid(EvenSteps(e, hits))
    ensures EvenSteps(e, hits).state.EvaluateOverflow? ==> EvenSteps(e, hits).secondaryPointer == 8
    ensures EvenSteps(e, hits).oamPointer >= e.oamPointer
    decreases |hits|
  {
    if |hits| > 0 {
      OverflowNeedsEightSprites(EvenStep(e, hits[0]), hits[1..]);
    }
  }

  /** Even dots in sequence (the odd dots in between only refill the latch). */
  function EvenSteps(e: Evaluation, hits: seq<bool>): Evaluation
    requires EvaluationValid(e)
    decreases |hits|
  {
    if |hits| == 0 then e else EvenSteps(EvenStep(e, hits[0]), hits[1..])
  }

  /**
   * Evaluation is over within 256 even steps (a generous bound: each sprite
   * takes 1 or 4): with no sprite in range, 64 checks walk the whole OAM and stop.
   */
  lemma {:induction false} EmptyScanlineIdles(e: Evaluation)
    requires e.state.CheckY? && EvaluationValid(e)
    ensures EvenSteps(e, Misses(Nat8(64 - e.oamPointer))) == e.(oamPointer := 64, state := Idle)
    decreases Nat8(64 - e.oamPointer)
  {
    var k := Nat8(64 - e.oamPointer);
    var e' := EvenStep(e, false);
    assert k >= 1 by { assert 64 - e.oamPointer != 0; }
    assert Misses(k)[1..] == Misses(k - 1);
    if e.oamPointer + 1 < 64 {
      SuccNat8(64 - (e.oamPointer + 1));
      assert 64 - (e.oamPointer + 1) + 1 == 64 - e.oamPointer;
      EmptyScanlineIdles(e');
    } else {
      assert 64 - e.oamPointer == 1;
    }
  }

  /** k checks that all miss. */
  function Misses(k: nat): (r: seq<bool>)
    ensures |r| == k && forall i :: 0 <= i < k ==> !r[i]
  {
    seq(k, i => false)
  }

  lemma SuccNat8(b: bv8)
    requires b < 0xFF
    ensures Nat8(b + 1) == Nat8(b) + 1
  {
  }

  // ---------------------------------------------------------------------
  // X counters

  /**
   * A sprite's position on the current scanline: not on it, `x` dots before
   * its left edge, `fineX` pixels into its 8, or done.
   */
  datatype SpriteXCounter = WontRender | NotRendered(x: nat) | Rendering(fineX: nat) | Rendered

  /** Counters only ever hold a nonzero wait and a pixel inside the sprite. */
  predicate XCounterValid(c: SpriteXCounter)
  {
    match c
    case NotRendered(x) => 1 <= x <= 0xFF
    case Rendering(f) => f < 8
    case _ => true
  }

  /** A counter in a reachable state. */
  type XCounter = c: SpriteXCounter | XCounterValid(c) witness WontRender

  /** The counter a sprite gets from its secondary OAM X byte, when its row is on the scanline. */
  function XCounterOf(onScanline: bool, x: bv8): (c: SpriteXCounter)
    ensures XCounterValid(c)
    ensures !onScanline <==> c.WontRender?
    ensures onScanline && x == 0 ==> c == Rendering(0)
    ensures onScanline && x != 0 ==> c == NotRendered(Nat8(x))
  {
    if !onScanline then WontRender
    else if x == 0 then Rendering(0)
    else NotRendered(Nat8(x))
  }

  /** One visible dot for one counter. */
  function XCounterStep(c: SpriteXCounter): (r: SpriteXCounter)
    requires XCounterValid(c)
    ensures XCounterValid(r)
  {
    match c
    case NotRendered(x) => if x - 1 == 0 then Rendering(0) else NotRendered(x - 1)
    case Rendering(f) => if f + 1 == 8 then Rendered else Rendering(f + 1)
    case _ => c
  }

  function XCounterSteps(c: SpriteXCounter, k: nat): (r: SpriteXCounter)
    requires XCounterValid(c)
    ensures XCounterValid(r)
    decreases k
  {
    if k == 0 then c else XCounterStep(XCounterSteps(c, k - 1))
  }

  /**
   * A sprite at X position x waits x dots, then shows pixels 0..7 on the next
   * eight dots, then is done.
   */
  lemma {:induction false} XCounterTimeline(x: nat, k: nat)
    requires 1 <= x <= 0xFF
    ensures XCounterSteps(NotRendered(x), k) ==
      if k < x then NotRendered(x - k) else if k < x + 8 then Rendering(k - x) else Rendered
    decreases k
  {
    if k > 0 {
      XCounterTimeline(x, k - 1);
    }
  }

  // ---------------------------------------------------------------------
  // Sprite 0 hit

  /**
   * Where sprite 0 is: not on the next or current scanline, copied into the
   * secondary OAM for the next one, on the current one (and maybe on the next
   * as well), or hit, with the flag due after the given number of dots.
   */
  datatype SpriteZeroHitState = NoSpriteZero | IsInOam | OnCurrentScanline(inNextOam: bool) | Delay(remaining: nat)

  predicate ZeroHitValid(s: SpriteZeroHitState)
  {
    s.Delay? ==> 1 <= s.remaining <= 2
  }

  /** A tracker in a reachable state. */
  type ZeroHitTracker = s: SpriteZeroHitState | ZeroHitValid(s) witness NoSpriteZero

  /** What the end of a scanline does to the tracker. */
  function ZeroHitNextScanline(s: SpriteZeroHitState): (r: SpriteZeroHitState)
    ensures s.IsInOam? ==> r == OnCurrentScanline(false)
    ensures s.OnCurrentScanline? ==> r == (if s.inNextOam then OnCurrentScanline(false) else NoSpriteZero)
    ensures !s.IsInOam? && !s.OnCurrentScanline? ==> r == s
    ensures ZeroHitValid(s) ==> ZeroHitValid(r)
  {
    match s
    case IsInOam => OnCurrentScanline(false)
    case OnCurrentScanline(next) => if next then OnCurrentScanline(false) else NoSpriteZero
    case _ => s
  }

  /** What evaluation finding OAM entry 0 in range does to the tracker. */
  function ZeroHitFound(s: SpriteZeroHitState): (r: SpriteZeroHitState)
    ensures ZeroHitValid(s) ==> ZeroHitValid(r)
    ensures s.NoSpriteZero? ==> r.IsInOam?
    ensures s.OnCurrentScanline? ==> r == OnCurrentScanline(true)
    ensures s.IsInOam? || s.Delay? ==> r == s
  {
    match s
    case NoSpriteZero => IsInOam
    case OnCurrentScanline(_) => OnCurrentScanline(true)
    case _ => s
  }

  /** One dot of the hit delay; `fires` says whether SPRITE_ZERO_HIT is raised on it. */
  function ZeroHitTick(s: SpriteZeroHitState): (r: SpriteZeroHitState)
    requires ZeroHitValid(s)
    ensures ZeroHitValid(r)
    ensures !s.Delay? ==> r == s
  {
    match s
    case Delay(x) => if x - 1 == 0 then NoSpriteZero else Delay(x - 1)
    case _ => s
  }

  predicate ZeroHitFires(s: SpriteZeroHitState)
  {
    s.Delay? && s.remaining == 1
  }

  /**
   * The hit recorded on an overlap (Delay(2)) raises the flag on the second
   * dot after it, not the first, and the tracker is then idle.
   */
  lemma {:induction false} ZeroHitTwoDotsLater()
    ensures !ZeroHitFires(Delay(2)) && ZeroHitTick(Delay(2)) == Delay(1)
    ensures ZeroHitFires(ZeroHitTick(Delay(2))) && ZeroHitTick(ZeroHitTick(Delay(2))) == NoSpriteZero
  {
    assert ZeroHitTick(Delay(2)) == Delay(1);
  }
}
