/**
 * Mapper 3 (CNROM): unbanked PRG (16 or 32 KB) and a switchable 8 KB CHR bank.
 */
module Mapper003 {
  import opened Wrappers
  import opened Mapping
  import opened Bits

  class Mapper003 {
    var chrBankSelector: bv8
    const prgBanks: bv8
    const mirroring: Mirroring

    /** The CHR selector only ever holds a 2-bit bank number. */
    ghost predicate Valid()
      reads this
    {
      Nat8(chrBankSelector) <= 3
    }

    constructor (prgBanks: bv8, mirroring: Mirroring)
      ensures Valid()
      ensures this.prgBanks == prgBanks && this.mirroring == mirroring
      ensures chrBankSelector == 0
    {
      this.prgBanks := prgBanks;
      this.mirroring := mirroring;
      chrBankSelector := 0;
    }

    /** A 32 KB ROM is addressed with 15 bits, a 16 KB ROM is mirrored with 14 bits. */
    function CpuMapRead(addr: bv16): (r: CartridgeReadTarget)
      reads this
      ensures r.PrgRom?
      ensures prgBanks > 1 ==> r.index == Low15(addr)
      ensures prgBanks <= 1 ==> r.index == Low14(addr)
    {
      if prgBanks > 1 then PrgRom(Low15(addr)) else PrgRom(Low14(addr))
    }

    /** Any write selects the CHR bank from its low two bits. */
    method CpuMapWrite(addr: bv16, data: bv8)
      requires Valid()
      modifies this
      ensures Valid()
      ensures chrBankSelector == data & 0x03
    {
      chrBankSelector := data & 0x03;
    }

    /** CHR reads land in the selected 8 KB bank, at the low 13 bits of the address. */
    function PpuMapRead(addr: bv16): (r: nat)
      requires Valid()
      reads this
      ensures r < 0x8000
      ensures r / 0x2000 == Nat8(chrBankSelector)
      ensures r % 0x2000 == Low13(addr)
    {
      Banked(Nat8(chrBankSelector), 0x2000, Low13(addr))
    }

    /** CHR writes use the same mapping as reads. */
    function PpuMapWrite(addr: bv16): (r: Option<nat>)
      requires Valid()
      reads this
      ensures r == Some(PpuMapRead(addr))
    {
      Some(Banked(Nat8(chrBankSelector), 0x2000, Low13(addr)))
    }

    /** The debugger reports bank 0 for 0x8000-0xBFFF and bank 1 above. */
    function GetPrgBank(addr: bv16): (r: Option<bv8>)
      ensures r.Some? <==> addr >= 0x8000
      ensures r.Some? ==> r.value == (if addr <= 0xBFFF then 0 else 1)
    {
      if 0x8000 <= addr <= 0xBFFF then Some(0)
      else if 0xC000 <= addr then Some(1)
      else None
    }
  }
}
