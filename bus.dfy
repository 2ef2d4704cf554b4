/**
 * The slices of the system bus that do not belong to a chip: the 2 KB of CPU
 * RAM and its mirrors, the controller strobe/shift registers, and the PPU's
 * view of the cartridge and of the 4 KB of nametable RAM, folded according to
 * the cartridge's mirroring mode.
 */
module Bus {
  import opened Bits
  import opened Mapping
  import Cartridge

  const RAM_SIZE: nat := 0x800
  const NAME_TABLES_SIZE: nat := 0x1000

  // ---------------------------------------------------------------------
  // CPU RAM

  /** The RAM cell a CPU address reaches: the address modulo the RAM size. */
  function RamIndex(addr: bv16): (i: nat)
    ensures i < RAM_SIZE
    ensures addr < 0x800 ==> i == Nat16(addr)
  {
    Low11(addr)
  }

  /** Addresses a multiple of 0x800 apart reach the same RAM cell. */
  lemma RamMirrors(addr: bv16, k: bv16)
    ensures RamIndex(addr + k * 0x800) == RamIndex(addr)
  {
    assert (addr + k * 0x800) & 0x7FF == addr & 0x7FF;
  }

  // ---------------------------------------------------------------------
  // Nametable mirroring

  /**
   * The offset into the $2000-$2FFF nametable region: addresses above are
   * folded down by clearing bits 12, 14 and 15. An address with bit 13 clear
   * makes the source's u16 subtraction underflow and hit `unreachable!`.
   */
  function NameTableOffset(addr: bv16): (idx: bv16)
    requires addr & 0x2000 != 0
    ensures idx < 0x1000
    ensures idx == addr & 0xFFF
  {
    (addr & 0x2FFF) - 0x2000
  }

  /** Horizontal: $2000/$2400 on the first 1 KB, $2800/$2C00 on the second. */
  function HorizontalIndex(idx: bv16): (r: bv16)
    requires idx < 0x1000
    ensures r < 0x800 && r & 0x3FF == idx & 0x3FF && (r & 0x400 != 0 <==> idx & 0x800 != 0)
  {
    if idx <= 1023 then idx
    else if idx <= 2047 then idx - 1024
    else if idx <= 3071 then idx - 1024
    else idx - 2048
  }

  /** Vertical: $2000/$2800 on the first 1 KB, $2400/$2C00 on the second. */
  function VerticalIndex(idx: bv16): (r: bv16)
    requires idx < 0x1000
    ensures r == idx & 0x7FF
  {
    if idx <= 2047 then idx else idx - 2048
  }

  /** One-screen, lower bank: all four nametables on the first 1 KB. */
  function OneScreenLowerIndex(idx: bv16): (r: bv16)
    requires idx < 0x1000
    ensures r == idx & 0x3FF
  {
    if idx <= 1023 then idx
    else if idx <= 2047 then idx - 1024
    else if idx <= 3071 then idx - 2048
    else idx - 3072
  }

  /** One-screen, upper bank: all four nametables on the second 1 KB. */
  function OneScreenUpperIndex(idx: bv16): (r: bv16)
    requires idx < 0x1000
    ensures r == 0x400 | (idx & 0x3FF)
  {
    if idx <= 1023 then idx + 1024
    else if idx <= 2047 then idx
    else if idx <= 3071 then idx - 1024
    else idx - 2048
  }

  /** The index into the 4 KB nametable array that a PPU address reaches. */
  function MirrorNameTables(m: Mirroring, addr: bv16): (r: bv16)
    requires addr & 0x2000 != 0
    ensures r < 0x1000
  {
    var idx := NameTableOffset(addr);
    match m
    case Horizontal => HorizontalIndex(idx)
    case Vertical => VerticalIndex(idx)
    case FourScreen => idx
    case OneScreenLower => OneScreenLowerIndex(idx)
    case OneScreenUpper => OneScreenUpperIndex(idx)
  }

  /** Three of the foldings keep the low 12, 11 or 10 bits of the address. */
  lemma MirrorMasks(addr: bv16)
    requires addr & 0x2000 != 0
    ensures MirrorNameTables(FourScreen, addr) == addr & 0xFFF
    ensures MirrorNameTables(Vertical, addr) == addr & 0x7FF
    ensures MirrorNameTables(OneScreenLower, addr) == addr & 0x3FF
  {
    var idx := addr & 0xFFF;
    assert idx & 0x7FF == addr & 0x7FF;
    assert idx & 0x3FF == addr & 0x3FF;
  }

  /**
   * Horizontal mirroring: $2000 and $2400 share the first 1 KB, $2800 and $2C00
   * the second, and the two halves never meet.
   */
  lemma HorizontalSharing(o: bv16)
    requires o < 0x400
    ensures MirrorNameTables(Horizontal, 0x2000 + o) == MirrorNameTables(Horizontal, 0x2400 + o) == o
    ensures MirrorNameTables(Horizontal, 0x2800 + o) == MirrorNameTables(Horizontal, 0x2C00 + o) == 0x400 + o
  {
  }

  /** Vertical mirroring: $2000 shares with $2800 and $2400 with $2C00. */
  lemma VerticalSharing(o: bv16)
    requires o < 0x400
    ensures MirrorNameTables(Vertical, 0x2000 + o) == MirrorNameTables(Vertical, 0x2800 + o) == o
    ensures MirrorNameTables(Vertical, 0x2400 + o) == MirrorNameTables(Vertical, 0x2C00 + o) == 0x400 + o
  {
  }

  /** Every address with bit 13 set (so $3000-$3EFF, and $6305) folds onto $2000-$2FFF. */
  lemma MirrorFolds(m: Mirroring, addr: bv16)
    requires addr & 0x2000 != 0
    ensures (addr & 0x2FFF) & 0x2000 != 0
    ensures MirrorNameTables(m, addr) == MirrorNameTables(m, addr & 0x2FFF)
  {
  }

  // ---------------------------------------------------------------------
  // Controllers

  /** With the strobe low, a read shifts out bit 7 of the snapshot. */
  function TopBit(snapshot: bv8): (b: bv8)
    ensures b <= 1
    ensures b == 1 <==> snapshot >= 0x80
  {
    (snapshot & 0x80) >> 7
  }

  /**
   * With the strobe high, a read returns `controller & 0x80 >> 7`, which Rust
   * parses as `controller & (0x80 >> 7)`: bit 0 of the live byte.
   */
  function LiveBit(controller: bv8): (b: bv8)
    ensures b <= 1
    ensures b == 1 <==> controller & 1 == 1
  {
    controller & (0x80 >> 7)
  }

  /** `snapshot << k`, with every bit shifted out once k reaches 8. */
  function Shl(snapshot: bv8, k: nat): bv8
  {
    if k < 8 then snapshot << k else 0
  }

  /** The bits the first n reads return while the strobe stays low. */
  function SerialOut(snapshot: bv8, n: nat): (r: seq<bv8>)
    ensures |r| == n
    decreases n
  {
    if n == 0 then [] else [TopBit(snapshot)] + SerialOut(snapshot << 1, n - 1)
  }

  lemma ShlStep(snapshot: bv8, k: nat)
    ensures Shl(snapshot << 1, k) == Shl(snapshot, k + 1)
  {
    if k < 7 {
      assert (snapshot << 1) << k == snapshot << (k + 1);
    } else if k == 7 {
      assert (snapshot << 1) << 7 == 0;
    }
  }

  lemma ShlBit(snapshot: bv8, i: nat)
    ensures TopBit(Shl(snapshot, i)) == if i < 8 then (snapshot >> (7 - i)) & 1 else 0
  {
    if i < 8 {
      assert ((snapshot << i) & 0x80) >> 7 == (snapshot >> (7 - i)) & 1;
    }
  }

  /**
   * Read i of a serial transfer returns bit 7 - i of the latched byte: A, B,
   * Select, Start, Up, Down, Left, Right for the standard pad; every read after
   * the eighth returns 0.
   */
  lemma {:induction false} SerialOutBits(snapshot: bv8, n: nat)
    ensures forall i :: 0 <= i < n ==>
      SerialOut(snapshot, n)[i] == if i < 8 then (snapshot >> (7 - i)) & 1 else 0
  {
    forall i | 0 <= i < n
      ensures SerialOut(snapshot, n)[i] == TopBit(Shl(snapshot, i))
    {
      SerialOutShl(snapshot, n, i);
    }
    forall i | 0 <= i < n
      ensures TopBit(Shl(snapshot, i)) == if i < 8 then (snapshot >> (7 - i)) & 1 else 0
    {
      ShlBit(snapshot, i);
    }
  }

  lemma {:induction false} SerialOutShl(snapshot: bv8, n: nat, i: nat)
    requires i < n
    ensures SerialOut(snapshot, n)[i] == TopBit(Shl(snapshot, i))
    decreases i
  {
    if i > 0 {
      SerialOutShl(snapshot << 1, n - 1, i - 1);
      ShlStep(snapshot, i - 1);
    }
  }

  /**
   * The two controller ports. `controller1`/`controller2` hold the live
   * button bytes the front end sets, the snapshots the shift registers a
   * strobe latches.
   */
  class Controllers {
    var controller1: bv8
    var controller2: bv8
    var strobe: bool
    var snapshot1: bv8
    var snapshot2: bv8

    constructor ()
      ensures controller1 == 0 && controller2 == 0 && !strobe && snapshot1 == 0 && snapshot2 == 0
    {
      controller1, controller2, strobe, snapshot1, snapshot2 := 0, 0, false, 0, 0;
    }

    /** A write to $4016: the strobe follows bit 0 and both pads are latched. */
    method Write(data: bv8)
      modifies this
      ensures strobe == (data & 0x01 == 0x01)
      ensures snapshot1 == controller1 && snapshot2 == controller2
      ensures controller1 == old(controller1) && controller2 == old(controller2)
    {
      strobe := data & 0x01 == 0x01;
      snapshot1 := controller1;
      snapshot2 := controller2;
    }

    /** A read of the first pad's serial port. */
    method Read1() returns (r: bv8)
      modifies this
      ensures strobe ==> r == LiveBit(controller1) && snapshot1 == old(snapshot1)
      ensures !strobe ==> r == TopBit(old(snapshot1)) && snapshot1 == old(snapshot1) << 1
      ensures strobe == old(strobe) && controller1 == old(controller1) && controller2 == old(controller2)
      ensures snapshot2 == old(snapshot2)
    {
      if strobe {
        r := LiveBit(controller1);
      } else {
        r := TopBit(snapshot1);
        snapshot1 := snapshot1 << 1;
      }
    }

    /** A read of the second pad's serial port. */
    method Read2() returns (r: bv8)
      modifies this
      ensures strobe ==> r == LiveBit(controller2) && snapshot2 == old(snapshot2)
      ensures !strobe ==> r == TopBit(old(snapshot2)) && snapshot2 == old(snapshot2) << 1
      ensures strobe == old(strobe) && controller1 == old(controller1) && controller2 == old(controller2)
      ensures snapshot1 == old(snapshot1)
    {
      if strobe {
        r := LiveBit(controller2);
      } else {
        r := TopBit(snapshot2);
        snapshot2 := snapshot2 << 1;
      }
    }
  }

  // ---------------------------------------------------------------------
  // The PPU bus

  /** What the PPU sees below the palette: the cartridge's pattern memory and the nametables. */
  class PpuBus {
    const cartridge: Cartridge.Cartridge
    const nameTables: array<bv8>

    ghost predicate Valid()
      reads this, cartridge, cartridge.Repr
    {
      cartridge.Valid() && nameTables.Length == NAME_TABLES_SIZE && nameTables !in cartridge.Repr
    }

    constructor (cartridge: Cartridge.Cartridge, nameTables: array<bv8>)
      requires cartridge.Valid() && nameTables.Length == NAME_TABLES_SIZE && nameTables !in cartridge.Repr
      ensures Valid() && this.cartridge == cartridge && this.nameTables == nameTables
    {
      this.cartridge := cartridge;
      this.nameTables := nameTables;
    }

    /**
     * The nametable byte a PPU address in $2000-$3EFF reaches: the cell the
     * cartridge's mirroring folds it onto (`MirrorMasks`, `HorizontalSharing`
     * and `VerticalSharing` say which).
     */
    function ReadNameTables(addr: bv16): (v: bv8)
      requires Valid() && addr & 0x2000 != 0
      reads this, cartridge, cartridge.Repr, nameTables
    {
      nameTables[Nat16(MirrorNameTables(cartridge.Mirroring(), addr))]
    }

    /**
     * A nametable write: afterwards the address, and every address mirrored
     * onto the same cell, reads back the byte; every other cell keeps its value.
     */
    method WriteNameTables(addr: bv16, data: bv8)
      requires Valid() && addr & 0x2000 != 0
      modifies nameTables
      ensures Valid()
      ensures nameTables[..] == old(nameTables[..])[MirrorNameTables(cartridge.Mirroring(), addr) := data]
      ensures ReadNameTables(addr) == data
    {
      nameTables[Nat16(MirrorNameTables(cartridge.Mirroring(), addr))] := data;
    }

    /** A pattern-memory read, which on MMC3 also clocks the scanline counter. */
    method ReadChrMem(addr: bv16) returns (v: bv8)
      requires Valid()
      modifies cartridge.Boards
      ensures Valid()
      ensures v == old(cartridge.PeekChr(addr))
      ensures nameTables[..] == old(nameTables[..])
      ensures cartridge.ChrReadEffect(addr)
    {
      v := cartridge.ReadChrMem(addr);
    }

    /** A pattern-memory write, kept only where the cartridge has CHR RAM. */
    method WriteChrMem(addr: bv16, data: bv8)
      requires Valid()
      modifies cartridge.chrMemory
      ensures Valid()
      ensures var t := old(cartridge.ChrWriteTarget(addr));
        cartridge.chrMemory[..] == if t.Some? && t.value < cartridge.chrMemory.Length
                                   then old(cartridge.chrMemory[..])[t.value := data]
                                   else old(cartridge.chrMemory[..])
    {
      cartridge.WriteChrMem(addr, data);
    }
  }
}
