/**
 * The older 14-bit VRAM address register: PPUADDR writes load it high byte
 * first, PPUDATA accesses step it, and every change is folded back into
 * $0000-$3FFF by clearing bits 14 and 15.
 */
module VramAddress {
  import opened Bits

  /** `mirror`: the value is masked with MIRRORING_HIGHER_BOUND, $3FFF, so only bits 14 and 15 are cleared. */
  function Mirrored(value: bv16): (r: bv16)
    ensures r <= 0x3FFF
    ensures r | (value & 0xC000) == value
  {
    value & 0x3FFF
  }

  /** An address already in range is left as it is. */
  lemma MirroredInRange(value: bv16)
    requires value <= 0x3FFF
    ensures Mirrored(value) == value
  {
  }

  /**
   * The value after `load(data)`: the low byte is replaced when the latch
   * points at it, the high byte otherwise, and the other byte is kept; then
   * the result is mirrored.
   */
  function Loaded(value: bv16, writeToLower: bool, data: bv8): (r: bv16)
    ensures r <= 0x3FFF
    ensures writeToLower ==> r & 0xFF == Widen(data) && r >> 8 == (value >> 8) & 0x3F
    ensures !writeToLower ==> r & 0xFF == value & 0xFF && r >> 8 == Widen(data) & 0x3F
  {
    var v := if writeToLower then (value & 0xFF00) | Widen(data) else (value & 0x00FF) | (Widen(data) << 8);
    Mirrored(v)
  }

  /**
   * The value after `inc(step)`. From an address in range the u16 sum stays
   * below $4100, so it cannot overflow, and the result is the sum reduced
   * into $0000-$3FFF: $3FFF + 1 is 0.
   */
  function Incremented(value: bv16, step: bv8): (r: bv16)
    requires value <= 0x3FFF
    ensures value + Widen(step) <= 0x40FE
    ensures value + Widen(step) <= 0x3FFF ==> r == value + Widen(step)
    ensures value + Widen(step) > 0x3FFF ==> r == value + Widen(step) - 0x4000
  {
    Mirrored(value + Widen(step))
  }

  /** Two loads in a row from the high-byte phase set the whole address, mirrored. */
  lemma LoadPair(value: bv16, hi: bv8, lo: bv8)
    ensures Loaded(Loaded(value, false, hi), true, lo) == ((Widen(hi) << 8) | Widen(lo)) & 0x3FFF
  {
    var h := Loaded(value, false, hi);
    var r := Loaded(h, true, lo);
    assert r == Mirrored((h & 0xFF00) | Widen(lo));
  }

  class VramAddr {
    var value: bv16
    /** Whether the next `load` writes the low byte. */
    var writeToLower: bool

    /** The address is in range: `new`, `load` and `inc` keep it so. */
    ghost predicate Valid()
      reads this
    {
      value <= 0x3FFF
    }

    /** `new`: address 0, next write to the high byte. */
    constructor ()
      ensures Valid() && value == 0 && !writeToLower
    {
      value := 0;
      writeToLower := false;
    }

    /** `get`. */
    function Get(): (v: bv16)
      reads this
      ensures Valid() ==> v <= 0x3FFF
    {
      value
    }

    /** `load`: one byte of the address, the latch flips, the value is mirrored. */
    method Load(data: bv8)
      modifies this
      ensures Valid()
      ensures value == Loaded(old(value), old(writeToLower), data)
      ensures writeToLower == !old(writeToLower)
    {
      if writeToLower {
        value := value & 0xFF00;
        value := value | Widen(data);
      } else {
        value := value & 0x00FF;
        value := value | (Widen(data) << 8);
      }
      writeToLower := !writeToLower;
      Mirror();
    }

    /** `inc`: add the step, then mirror. */
    method Inc(step: bv8)
      requires Valid()
      modifies this
      ensures Valid()
      ensures value == Incremented(old(value), step) && writeToLower == old(writeToLower)
    {
      value := value + Widen(step);
      Mirror();
    }

    /**
     * `reset_latch`, which the PPU of nestadia-core calls on a status read:
     * the address is kept and the next load writes the high byte.
     */
    method ResetLatch()
      modifies this
      ensures value == old(value) && !writeToLower
    {
      writeToLower := false;
    }

    /** `mirror`: clear bits 14 and 15. */
    method Mirror()
      modifies this
      ensures Valid()
      ensures value == Mirrored(old(value)) && writeToLower == old(writeToLower)
    {
      value := value & 0x3FFF;
    }
  }
}
