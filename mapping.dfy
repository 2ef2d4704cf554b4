/**
 * Types shared by the cartridge, its mappers and the PPU bus: the nametable
 * mirroring modes and the target of a CPU read of cartridge space.
 */
module Mapping {
  /** Nametable arrangement selected by the cartridge. */
  datatype Mirroring = Horizontal | Vertical | FourScreen | OneScreenLower | OneScreenUpper

  /**
   * Where a CPU read of cartridge space lands: a byte of PRG RAM, or an index
   * into PRG ROM. The index is an unbounded integer: a computation that
   * underflows in the source (a fixed last bank of a ROM with 0 banks) gives a
   * negative index here, which is out of range exactly as the wrapped usize is.
   */
  datatype CartridgeReadTarget = PrgRam(data: bv8) | PrgRom(index: int)
}
