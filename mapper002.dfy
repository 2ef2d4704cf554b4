/**
 * Mapper 2 (UxROM): one switchable 16 KB PRG bank at 0x8000-0xBFFF and the
 * last PRG bank fixed at 0xC000-0xFFFF; CHR is unbanked.
 */
module Mapper002 {
  import opened Wrappers
  import opened Mapping
  import opened Bits

  class Mapper002 {
    var prgBankSelector: bv8
    const prgBanks: bv8
    const mirroring: Mirroring

    constructor (prgBanks: bv8, mirroring: Mirroring)
      ensures this.prgBanks == prgBanks && this.mirroring == mirroring
      ensures prgBankSelector == 0
    {
      this.prgBanks := prgBanks;
      this.mirroring := mirroring;
      prgBankSelector := 0;
    }

    /** Bank number of the 16 KB window that serves a CPU address (the last bank is prg_banks - 1, computed in usize). */
    function WindowBank(addr: bv16): int
      reads this
    {
      if 0x8000 <= addr <= 0xBFFF then Nat8(prgBankSelector) else Nat8(prgBanks) - 1
    }

    /** PRG index of a CPU read: the window's bank, at the address's offset inside a 16 KB bank. */
    function CpuMapRead(addr: bv16): (r: CartridgeReadTarget)
      reads this
      ensures r.PrgRom?
      ensures r.index / 0x4000 == WindowBank(addr)
      ensures r.index % 0x4000 == Low14(addr)
      ensures 0x8000 <= addr <= 0xBFFF ==> r.index / 0x4000 == Nat8(prgBankSelector)
      ensures !(0x8000 <= addr <= 0xBFFF) ==> r.index / 0x4000 == Nat8(prgBanks) - 1
    {
      PrgRom(WindowBank(addr) * 0x4000 + Low14(addr))
    }

    /** A write at 0x8000 or above selects the switchable bank with the whole byte; lower writes do nothing. */
    method CpuMapWrite(addr: bv16, data: bv8)
      modifies this
      ensures prgBankSelector == (if addr >= 0x8000 then data else old(prgBankSelector))
    {
      if addr >= 0x8000 {
        prgBankSelector := data;
      }
    }

    /** CHR reads are not banked. */
    function PpuMapRead(addr: bv16): (r: nat)
      ensures r == Nat16(addr)
    {
      Nat16(addr)
    }

    /** CHR writes are not banked either. */
    function PpuMapWrite(addr: bv16): (r: Option<nat>)
      ensures r == Some(Nat16(addr))
    {
      Some(Nat16(addr))
    }

    /** Bank shown by the debugger for an address: the selector, the fixed last bank (u8 arithmetic), or none below 0x8000. */
    function GetPrgBank(addr: bv16): (r: Option<bv8>)
      reads this
      ensures r.Some? <==> addr >= 0x8000
      ensures 0x8000 <= addr <= 0xBFFF ==> r == Some(prgBankSelector)
      ensures 0xC000 <= addr ==> r == Some(prgBanks - 1)
    {
      if 0x8000 <= addr <= 0xBFFF then Some(prgBankSelector)
      else if 0xC000 <= addr then Some(prgBanks - 1)
      else None
    }
  }
}
