/**
 * The PPU's internal registers: the 15-bit "loopy" VRAM address with its
 * bit fields (coarse X in bits 0-4, coarse Y in bits 5-9, nametable in bits
 * 10-11, fine Y in bits 12-14) and the scrolling steps rendering applies to it,
 * and the flag bytes PPUCTRL, PPUSTATUS and PPUMASK.
 */
module PpuRegisters {

  // ---------------------------------------------------------------------
  // VramAddr bit fields

  function CoarseX(w: bv16): bv16 { w & 0x1F }
  function CoarseY(w: bv16): bv16 { (w >> 5) & 0x1F }
  function Nametable(w: bv16): bv16 { (w >> 10) & 0x3 }
  function FineY(w: bv16): bv16 { (w >> 12) & 0x7 }
  /** The bit above the four fields, which no setter touches. */
  function TopBit(w: bv16): bv16 { w & 0x8000 }

  /** The four fields and the top bit make up the whole word. */
  lemma FieldsDetermine(a: bv16, b: bv16)
    requires CoarseX(a) == CoarseX(b) && CoarseY(a) == CoarseY(b)
    requires Nametable(a) == Nametable(b) && FineY(a) == FineY(b) && TopBit(a) == TopBit(b)
    ensures a == b
  {
  }

  /** The bitfield setter for coarse X: writes the low 5 bits of x into bits 0-4. */
  function SetCoarseX(w: bv16, x: bv16): (r: bv16)
    ensures CoarseX(r) == x & 0x1F
    ensures CoarseY(r) == CoarseY(w) && Nametable(r) == Nametable(w) && FineY(r) == FineY(w) && TopBit(r) == TopBit(w)
  {
    (w & !0x1F) | (x & 0x1F)
  }

  function SetCoarseY(w: bv16, y: bv16): (r: bv16)
    ensures CoarseY(r) == y & 0x1F
    ensures CoarseX(r) == CoarseX(w) && Nametable(r) == Nametable(w) && FineY(r) == FineY(w) && TopBit(r) == TopBit(w)
  {
    (w & !0x3E0) | ((y & 0x1F) << 5)
  }

  function SetNametable(w: bv16, n: bv16): (r: bv16)
    ensures Nametable(r) == n & 0x3
    ensures CoarseX(r) == CoarseX(w) && CoarseY(r) == CoarseY(w) && FineY(r) == FineY(w) && TopBit(r) == TopBit(w)
  {
    (w & !0xC00) | ((n & 0x3) << 10)
  }

  function SetFineY(w: bv16, f: bv16): (r: bv16)
    ensures FineY(r) == f & 0x7
    ensures CoarseX(r) == CoarseX(w) && CoarseY(r) == CoarseY(w) && Nametable(r) == Nametable(w) && TopBit(r) == TopBit(w)
  {
    (w & !0x7000) | ((f & 0x7) << 12)
  }

  // ---------------------------------------------------------------------
  // Scrolling steps, as functions of the address word

  /** One tile to the right: coarse X wraps from 31 to 0 into the horizontally adjacent nametable. */
  function NextCoarseX(w: bv16): (r: bv16)
    ensures CoarseX(w) == 31 ==> CoarseX(r) == 0 && Nametable(r) == Nametable(w) ^ 0x1
    ensures CoarseX(w) != 31 ==> CoarseX(r) == CoarseX(w) + 1 && Nametable(r) == Nametable(w)
    ensures CoarseY(r) == CoarseY(w) && FineY(r) == FineY(w) && TopBit(r) == TopBit(w)
  {
    if CoarseX(w) == 31 then
      SetNametable(SetCoarseX(w, 0), Nametable(w) ^ 0x1)
    else
      SetCoarseX(w, CoarseX(w) + 1)
  }

  /**
   * One pixel row down. After fine Y 7 the next tile row starts; row 29 is the
   * last of a nametable and moves to the vertically adjacent one, while rows
   * 30 and 31 (attribute memory) wrap to 0 without switching.
   */
  function NextFineY(w: bv16): (r: bv16)
    ensures FineY(w) != 7 ==>
      FineY(r) == FineY(w) + 1 && CoarseY(r) == CoarseY(w) && Nametable(r) == Nametable(w)
    ensures FineY(w) == 7 ==> FineY(r) == 0
    ensures FineY(w) == 7 && CoarseY(w) == 29 ==> CoarseY(r) == 0 && Nametable(r) == Nametable(w) ^ 0x2
    ensures FineY(w) == 7 && CoarseY(w) == 31 ==> CoarseY(r) == 0 && Nametable(r) == Nametable(w)
    ensures FineY(w) == 7 && CoarseY(w) != 29 && CoarseY(w) != 31 ==>
      CoarseY(r) == CoarseY(w) + 1 && Nametable(r) == Nametable(w)
    ensures CoarseX(r) == CoarseX(w) && TopBit(r) == TopBit(w)
  {
    if FineY(w) == 7 then
      var w1 := SetFineY(w, 0);
      var coarseY := CoarseY(w1);
      if coarseY == 29 then SetNametable(SetCoarseY(w1, 0), Nametable(w1) ^ 0x2)
      else if coarseY == 31 then SetCoarseY(w1, 0)
      else SetCoarseY(w1, coarseY + 1)
    else
      SetFineY(w, FineY(w) + 1)
  }

  /** Copy the horizontal position (coarse X, nametable bit 0) from `other`; keep the rest. */
  function CopyX(w: bv16, other: bv16): (r: bv16)
    ensures CoarseX(r) == CoarseX(other)
    ensures Nametable(r) & 0x1 == Nametable(other) & 0x1 && Nametable(r) & 0x2 == Nametable(w) & 0x2
    ensures CoarseY(r) == CoarseY(w) && FineY(r) == FineY(w) && TopBit(r) == TopBit(w)
  {
    var w1 := SetCoarseX(w, CoarseX(other));
    SetNametable(w1, (Nametable(w1) & 0x2) | (Nametable(other) & 0x1))
  }

  /** Copy the vertical position (coarse Y, fine Y, nametable bit 1) from `other`; keep the rest. */
  function CopyY(w: bv16, other: bv16): (r: bv16)
    ensures CoarseY(r) == CoarseY(other) && FineY(r) == FineY(other)
    ensures Nametable(r) & 0x2 == Nametable(other) & 0x2 && Nametable(r) & 0x1 == Nametable(w) & 0x1
    ensures CoarseX(r) == CoarseX(w) && TopBit(r) == TopBit(w)
  {
    var w1 := SetFineY(SetCoarseY(w, CoarseY(other)), FineY(other));
    SetNametable(w1, (Nametable(w1) & 0x1) | (Nametable(other) & 0x2))
  }

  /** The two resets together copy every field of `other`: the whole word but bit 15. */
  lemma ResetXThenY(w: bv16, other: bv16)
    ensures CopyY(CopyX(w, other), other) == (other & 0x7FFF) | TopBit(w)
  {
    var r := CopyY(CopyX(w, other), other);
    var s := (other & 0x7FFF) | TopBit(w);
    MaskedFields(w, other);
    NametableBits(r, s);
    FieldsDetermine(r, s);
  }

  /** Bits 0..14 from `other` and bit 15 from `w` carry those fields. */
  lemma MaskedFields(w: bv16, other: bv16)
    ensures var s := (other & 0x7FFF) | TopBit(w);
      CoarseX(s) == CoarseX(other) && CoarseY(s) == CoarseY(other) &&
      FineY(s) == FineY(other) && Nametable(s) == Nametable(other) && TopBit(s) == TopBit(w)
  {
  }

  /** The resets touch disjoint fields, so their order does not matter. */
  lemma ResetsCommute(w: bv16, other: bv16)
    ensures CopyY(CopyX(w, other), other) == CopyX(CopyY(w, other), other)
  {
    var a := CopyY(CopyX(w, other), other);
    var b := CopyX(CopyY(w, other), other);
    NametableBits(a, b);
    FieldsDetermine(a, b);
  }

  /** A nametable number is fixed by its two bits. */
  lemma NametableBits(a: bv16, b: bv16)
    requires Nametable(a) & 0x1 == Nametable(b) & 0x1 && Nametable(a) & 0x2 == Nametable(b) & 0x2
    ensures Nametable(a) == Nametable(b)
  {
  }

  /**
   * The `VramAddr` register object: the PPU's v and t are two of these, and
   * rendering steps v in place.
   */
  class VramAddr {
    var value: bv16

    constructor ()
      ensures value == 0
    {
      value := 0;
    }

    method Set(val: bv16)
      modifies this
      ensures value == val
    {
      value := val;
    }

    method IncrementCoarseX()
      modifies this
      ensures value == NextCoarseX(old(value))
    {
      if CoarseX(value) == 31 {
        value := SetCoarseX(value, 0);
        value := SetNametable(value, Nametable(value) ^ 0x1);
      } else {
        value := SetCoarseX(value, CoarseX(value) + 1);
      }
    }

    method IncrementFineY()
      modifies this
      ensures value == NextFineY(old(value))
    {
      if FineY(value) == 7 {
        value := SetFineY(value, 0);
        var coarseY := CoarseY(value);
        if coarseY == 29 {
          value := SetCoarseY(value, 0);
          value := SetNametable(value, Nametable(value) ^ 0x2);
        } else if coarseY == 31 {
          value := SetCoarseY(value, 0);
        } else {
          value := SetCoarseY(value, coarseY + 1);
        }
      } else {
        value := SetFineY(value, FineY(value) + 1);
      }
    }

    method ResetX(other: VramAddr)
      modifies this
      ensures value == CopyX(old(value), old(other.value))
    {
      var o := other.value;
      value := SetCoarseX(value, CoarseX(o));
      var nametable := (Nametable(value) & 0x2) | (Nametable(o) & 0x1);
      value := SetNametable(value, nametable);
    }

    method ResetY(other: VramAddr)
      modifies this
      ensures value == CopyY(old(value), old(other.value))
    {
      var o := other.value;
      value := SetCoarseY(value, CoarseY(o));
      value := SetFineY(value, FineY(o));
      var nametable := (Nametable(value) & 0x1) | (Nametable(o) & 0x2);
      value := SetNametable(value, nametable);
    }
  }

  // ---------------------------------------------------------------------
  // PPUCTRL

  const NAMETABLE_ADDR: bv8 := 0x03
  const VRAM_ADDR_INCREMENT: bv8 := 0x04
  const SPRITE_PATTERN_ADDR: bv8 := 0x08
  const BACKGROUND_PATTERN_ADDR: bv8 := 0x10
  const SPRITE_SIZE: bv8 := 0x20
  const MASTER_SLAVE_SELECT: bv8 := 0x40
  const GENERATE_NMI: bv8 := 0x80

  /** The PPUDATA address step: 32 (down one row) with bit 2 set, else 1 (across). */
  function VramAddrIncrement(ctrl: bv8): (r: bv16)
    ensures r == 1 || r == 32
    ensures r == 32 <==> ctrl & VRAM_ADDR_INCREMENT != 0
  {
    if ctrl & VRAM_ADDR_INCREMENT == VRAM_ADDR_INCREMENT then 32 else 1
  }

  function SpritePatternBaseAddr(ctrl: bv8): (r: bv16)
    ensures r == 0 || r == 0x1000
    ensures r == 0x1000 <==> ctrl & SPRITE_PATTERN_ADDR != 0
  {
    if ctrl & SPRITE_PATTERN_ADDR == SPRITE_PATTERN_ADDR then 0x1000 else 0
  }

  function BackgroundPatternBaseAddr(ctrl: bv8): (r: bv16)
    ensures r == 0 || r == 0x1000
    ensures r == 0x1000 <==> ctrl & BACKGROUND_PATTERN_ADDR != 0
  {
    if ctrl & BACKGROUND_PATTERN_ADDR == BACKGROUND_PATTERN_ADDR then 0x1000 else 0
  }

  /** Sprite height in pixels. */
  function SpriteSize(ctrl: bv8): (r: bv8)
    ensures r == 8 || r == 16
    ensures r == 16 <==> ctrl & SPRITE_SIZE != 0
  {
    if ctrl & SPRITE_SIZE == SPRITE_SIZE then 16 else 8
  }

  /** The master/slave accessor as written: it tests the sprite-size bit (bit 5). */
  function MasterSlaveSelect(ctrl: bv8): (r: bv8)
    ensures r <= 1
    ensures r == 1 <==> ctrl & SPRITE_SIZE != 0
  {
    if ctrl & SPRITE_SIZE == SPRITE_SIZE then 1 else 0
  }

  /** The as-written accessor disagrees with the flag it is named after on both bits. */
  lemma MasterSlaveSelectReadsSpriteSize()
    ensures MasterSlaveSelect(MASTER_SLAVE_SELECT) == 0
    ensures MasterSlaveSelect(SPRITE_SIZE) == 1
  {
  }

  /** The master/slave accessor as intended: bit 6, MASTER_SLAVE_SELECT. */
  function MasterSlaveSelectIntended(ctrl: bv8): (r: bv8)
    ensures r <= 1
    ensures r == 1 <==> ctrl & MASTER_SLAVE_SELECT != 0
  {
    if ctrl & MASTER_SLAVE_SELECT == MASTER_SLAVE_SELECT then 1 else 0
  }

  // ---------------------------------------------------------------------
  // PPUSTATUS and PPUMASK

  const SPRITE_OVERFLOW: bv8 := 0x20
  const SPRITE_ZERO_HIT: bv8 := 0x40
  const VBLANK_STARTED: bv8 := 0x80

  const GREYSCALE: bv8 := 0x01
  const LEFTMOST_8PXL_BACKGROUND: bv8 := 0x02
  const LEFTMOST_8PXL_SPRITE: bv8 := 0x04
  const SHOW_BACKGROUND: bv8 := 0x08
  const SHOW_SPRITES: bv8 := 0x10
  const EMPHASISE_RED: bv8 := 0x20
  const EMPHASISE_GREEN: bv8 := 0x40
  const EMPHASISE_BLUE: bv8 := 0x80
}
