/**
 * Mapper 0 (NROM): no banking at all. PRG is 16 KB (mirrored) or 32 KB,
 * CHR is a single read-only 8 KB window.
 */
module Mapper000 {
  import opened Wrappers
  import opened Mapping
  import opened Bits

  class Mapper000 {
    const prgBanks: bv8
    const mirroring: Mirroring

    constructor (prgBanks: bv8, mirroring: Mirroring)
      ensures this.prgBanks == prgBanks && this.mirroring == mirroring
    {
      this.prgBanks := prgBanks;
      this.mirroring := mirroring;
    }

    function CpuMapRead(addr: bv16): (r: CartridgeReadTarget)
      reads this
      ensures r.PrgRom?
      ensures prgBanks > 1 ==> r.index == Low15(addr)
      ensures prgBanks <= 1 ==> r.index == Low14(addr)
    {
      if prgBanks > 1 then PrgRom(Low15(addr)) else PrgRom(Low14(addr))
    }

    function PpuMapRead(addr: bv16): (r: nat)
      ensures r == Nat16(addr)
    {
      Nat16(addr)
    }

    /** CHR ROM: writes are refused. */
    function PpuMapWrite(addr: bv16): (r: Option<nat>)
      ensures r == None
    {
      None
    }
  }
}
