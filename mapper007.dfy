/**
 * Mapper 7 (AxROM): one switchable 32 KB PRG bank and a register-selected
 * one-screen nametable.
 */
module Mapper007 {
  import opened Wrappers
  import opened Mapping
  import opened Bits

  class Mapper007 {
    var prgBankSelector: bv8
    var mirroring: Mirroring

    /** The selector holds 3 bits and the mirroring is always one of the one-screen modes. */
    ghost predicate Valid()
      reads this
    {
      prgBankSelector <= 7 && (mirroring == OneScreenLower || mirroring == OneScreenUpper)
    }

    constructor ()
      ensures Valid()
      ensures prgBankSelector == 0 && mirroring == OneScreenUpper
    {
      prgBankSelector := 0;
      mirroring := OneScreenUpper;
    }

    /** The selected 32 KB bank, at the low 15 bits of the address. */
    function CpuMapRead(addr: bv16): (r: CartridgeReadTarget)
      reads this
      ensures r.PrgRom?
      ensures r.index / 0x8000 == Nat8(prgBankSelector)
      ensures r.index % 0x8000 == Low15(addr)
    {
      PrgRom(Banked(Nat8(prgBankSelector), 0x8000, Low15(addr)))
    }

    /**
     * Only writes with address bit 15 set are decoded: bits 0-2 select the
     * bank and bit 4 selects the upper or lower one-screen nametable.
     */
    method CpuMapWrite(addr: bv16, data: bv8)
      requires Valid()
      modifies this
      ensures Valid()
      ensures addr & 0x8000 == 0x8000 ==>
        prgBankSelector == data & 0x07 &&
        mirroring == (if data & 0x10 == 0x10 then OneScreenUpper else OneScreenLower)
      ensures addr & 0x8000 != 0x8000 ==>
        prgBankSelector == old(prgBankSelector) && mirroring == old(mirroring)
    {
      if addr & 0x8000 == 0x8000 {
        prgBankSelector := data & 0x07;
        mirroring := if data & 0x10 == 0x10 then OneScreenUpper else OneScreenLower;
      }
    }

    /** CHR is one unbanked 8 KB window. */
    function PpuMapRead(addr: bv16): (r: nat)
      ensures r == Low13(addr)
    {
      Low13(addr)
    }

    function PpuMapWrite(addr: bv16): (r: Option<nat>)
      ensures r == Some(PpuMapRead(addr))
    {
      Some(Low13(addr))
    }

    function GetPrgBank(addr: bv16): (r: Option<bv8>)
      reads this
      ensures r.Some? <==> addr >= 0x8000
      ensures r.Some? ==> r.value == prgBankSelector
    {
      if 0x8000 <= addr then Some(prgBankSelector) else None
    }
  }
}
