/**
 * Mapper 66 (GxROM): a 32 KB PRG bank and an 8 KB CHR bank chosen by one
 * register.
 */
module Mapper066 {
  import opened Wrappers
  import opened Mapping
  import opened Bits

  class Mapper066 {
    var prgBankSelector: bv8
    var chrBankSelector: bv8
    const mirroring: Mirroring

    /** Both selectors hold 2-bit bank numbers. */
    ghost predicate Valid()
      reads this
    {
      Nat8(prgBankSelector) <= 3 && Nat8(chrBankSelector) <= 3
    }

    constructor (mirroring: Mirroring)
      ensures Valid()
      ensures prgBankSelector == 0 && chrBankSelector == 0 && this.mirroring == mirroring
    {
      prgBankSelector := 0;
      chrBankSelector := 0;
      this.mirroring := mirroring;
    }

    function CpuMapRead(addr: bv16): (r: CartridgeReadTarget)
      requires Valid()
      reads this
      ensures r.PrgRom? && 0 <= r.index < 0x20000
      ensures r.index / 0x8000 == Nat8(prgBankSelector)
      ensures r.index % 0x8000 == Low15(addr)
    {
      PrgRom(Banked(Nat8(prgBankSelector), 0x8000, Low15(addr)))
    }

    /** Any write: bits 0-1 select CHR, bits 4-5 select PRG. */
    method CpuMapWrite(addr: bv16, data: bv8)
      requires Valid()
      modifies this
      ensures Valid()
      ensures chrBankSelector == data & 0x03
      ensures prgBankSelector == (data & 0x30) >> 4
    {
      chrBankSelector := data & 0x03;
      prgBankSelector := (data & 0x30) >> 4;
    }

    /** CHR addresses are offset by the selected 8 KB bank without masking the address. */
    function PpuMapRead(addr: bv16): (r: nat)
      requires Valid()
      reads this
      ensures r - Nat16(addr) == Nat8(chrBankSelector) * 0x2000
    {
      Nat8(chrBankSelector) * 0x2000 + Nat16(addr)
    }

    function PpuMapWrite(addr: bv16): (r: Option<nat>)
      requires Valid()
      reads this
      ensures r == Some(PpuMapRead(addr))
    {
      Some(Nat8(chrBankSelector) * 0x2000 + Nat16(addr))
    }

    function GetPrgBank(addr: bv16): (r: Option<bv8>)
      reads this
      ensures r.Some? <==> addr >= 0x8000
      ensures r.Some? ==> r.value == prgBankSelector
    {
      if 0x8000 <= addr then Some(prgBankSelector) else None
    }
  }
}
