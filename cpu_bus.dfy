/**
 * The CPU's view of the system: 2 KB of RAM mirrored up to $1FFF, the PPU
 * registers mirrored up to $3FFF, the OAM DMA port at $4014, the two
 * controller ports at $4016/$4017 and the cartridge from $4020 up. The
 * APU and I/O registers in $4000-$401F are not wired on this bus: writes
 * to them are dropped and reads give 0.
 */
module CpuBus {
  import opened Bits
  import opened PpuSpec
  import Bus
  import Ppu
  import PpuRegisters

  /** Reads that leave every part of the system as it was. */
  predicate Quiet(addr: bv16)
  {
    !(0x2000 <= addr <= 0x3FFF) && addr != 0x4016 && addr != 0x4017
  }

  /** OAM DMA pages all of whose 256 addresses are quiet. */
  predicate QuietPage(page: bv8)
  {
    page < 0x20 || page > 0x40
  }

  /** The address of byte `offset` of DMA page `page`: `(page << 8) + offset`. */
  function PageAddr(page: bv8, offset: bv8): (addr: bv16)
    ensures addr & 0xFF00 == Widen(page) << 8 && addr & 0xFF == Widen(offset)
  {
    (Widen(page) << 8) | Widen(offset)
  }

  /** Every address of a quiet page is quiet. */
  lemma QuietPageReads(page: bv8, offset: bv8)
    requires QuietPage(page)
    ensures Quiet(PageAddr(page, offset))
  {
  }

  /** What a read of a controller port returns: bit 0 of the live byte while strobing, else bit 7 of the snapshot. */
  function ControllerBit(strobe: bool, live: bv8, snapshot: bv8): (b: bv8)
    ensures b <= 1
  {
    if strobe then Bus.LiveBit(live) else Bus.TopBit(snapshot)
  }

  class CpuBus {
    const ram: array<bv8>
    const controllers: Bus.Controllers
    const ppu: Ppu.Ppu
    const ppuBus: Bus.PpuBus
    ghost const Repr: set<object>

    /** The parts are the bus's own objects, none shared between two parts. */
    ghost predicate Valid()
      reads this, Repr
    {
      Repr == {this, ram, controllers, ppuBus, ppuBus.cartridge, ppuBus.nameTables} + ppu.Repr + ppuBus.cartridge.Repr &&
      ram.Length == Bus.RAM_SIZE &&
      ppuBus.Valid() && ppu.Valid() && ppu.Apart(ppuBus) &&
      {this, ram, controllers, ppuBus} !! ({ppuBus.nameTables} + ppu.Repr + ppuBus.cartridge.Repr) &&
      this as object != ram && this as object != controllers && this as object != ppuBus &&
      ram as object != controllers && ram as object != ppuBus && controllers as object != ppuBus
    }

    constructor (ram: array<bv8>, controllers: Bus.Controllers, ppu: Ppu.Ppu, ppuBus: Bus.PpuBus)
      requires ram.Length == Bus.RAM_SIZE && ppuBus.Valid() && ppu.Valid() && ppu.Apart(ppuBus)
      requires {ram, controllers, ppuBus} !! ({ppuBus.nameTables} + ppu.Repr + ppuBus.cartridge.Repr)
      requires ram as object != controllers && ram as object != ppuBus && controllers as object != ppuBus
      ensures Valid()
      ensures this.ram == ram && this.controllers == controllers && this.ppu == ppu && this.ppuBus == ppuBus
    {
      this.ram := ram;
      this.controllers := controllers;
      this.ppu := ppu;
      this.ppuBus := ppuBus;
      Repr := {this, ram, controllers, ppuBus, ppuBus.cartridge, ppuBus.nameTables} + ppu.Repr + ppuBus.cartridge.Repr;
    }

    /** The cartridge byte at a CPU address, as `read_prg_mem` gives it. */
    ghost function PrgByte(addr: bv16): bv8
      requires Valid()
      reads Repr
    {
      ppuBus.cartridge.ReadPrgMem(addr)
    }

    /** The value a read of `addr` returns in the current state. */
    ghost function Peek(addr: bv16): bv8
      requires Valid()
      reads Repr
    {
      if addr <= 0x1FFF then ram[Bus.RamIndex(addr)]
      else if addr <= 0x3FFF then
        ReadValue(ppu.regs, addr, ppu.oamData[Nat8(ppu.regs.oamAddr)], ppu.paletteTable[PaletteIndex(ppu.regs.v & 0x3FFF)])
      else if addr == 0x4016 then ControllerBit(controllers.strobe, controllers.controller1, controllers.snapshot1)
      else if addr == 0x4017 then ControllerBit(controllers.strobe, controllers.controller2, controllers.snapshot2)
      else if addr <= 0x401F then 0
      else PrgByte(addr)
    }

    /** Above $401F a read is a cartridge read. */
    lemma PeekCartridge(addr: bv16)
      requires Valid() && addr >= 0x4020
      ensures Peek(addr) == PrgByte(addr)
    {
    }

    /**
     * A CPU read. The value is the one `Peek` gives beforehand; a quiet read
     * changes nothing, a PPU register read has the effect ReadRegister gives
     * and a controller read shifts that pad's snapshot.
     */
    method Read(addr: bv16) returns (v: bv8)
      requires Valid()
      modifies Repr
      ensures Valid()
      ensures v == old(Peek(addr))
      ensures Quiet(addr) ==> unchanged(Repr)
      ensures 0x2000 <= addr <= 0x3FFF ==>
        ppu.regs == ReadRegister(old(ppu.regs), addr, old(Ppu.Ppu.BusByte(ppuBus, ppu.regs.v & 0x3FFF))) &&
        unchanged(ram, controllers)
      ensures addr == 0x4016 ==>
        controllers.snapshot1 == (if controllers.strobe then old(controllers.snapshot1) else old(controllers.snapshot1) << 1) &&
        unchanged(Repr - {controllers}) && controllers.snapshot2 == old(controllers.snapshot2)
      ensures addr == 0x4017 ==>
        controllers.snapshot2 == (if controllers.strobe then old(controllers.snapshot2) else old(controllers.snapshot2) << 1) &&
        unchanged(Repr - {controllers}) && controllers.snapshot1 == old(controllers.snapshot1)
    {
      if addr <= 0x1FFF {
        v := ram[Bus.RamIndex(addr)];
      } else if addr <= 0x3FFF {
        v := ppu.Read(ppuBus, addr);
      } else if addr == 0x4016 {
        v := controllers.Read1();
      } else if addr == 0x4017 {
        v := controllers.Read2();
      } else if addr <= 0x401F {
        v := 0;
      } else {
        v := ppuBus.cartridge.ReadPrgMem(addr);
      }
    }

    /**
     * A CPU write: RAM at `addr & 0x7FF`, a PPU register, the OAM DMA port,
     * the controller strobe, or the cartridge; $4000-$4013, $4015 and
     * $4018-$401F are ignored.
     */
    method Write(addr: bv16, data: bv8)
      requires Valid()
      modifies Repr
      ensures Valid()
      ensures addr <= 0x1FFF ==> ram[..] == old(ram[..])[Bus.RamIndex(addr) := data] && unchanged(Repr - {ram})
      ensures 0x2000 <= addr <= 0x3FFF ==>
        ppu.regs == WriteRegister(old(ppu.regs), addr, data) && unchanged(ram, controllers)
      ensures 0x2000 <= addr <= 0x3FFF ==>
        ppu.oamData[..] == if Register(addr) == 4 then old(ppu.oamData[..])[Nat8(old(ppu.regs.oamAddr)) := data] else old(ppu.oamData[..])
      ensures 0x2000 <= addr <= 0x3FFF && Register(addr) != 7 ==>
        unchanged(ppu.paletteTable, ppuBus.nameTables, ppuBus.cartridge.chrMemory)
      ensures 0x2000 <= addr <= 0x3FFF && Register(addr) == 7 ==>
        ppu.DataWritten(ppuBus, old(ppu.regs.v) & 0x3FFF, data)
      ensures addr == 0x4014 && QuietPage(data) ==>
        (forall k :: 0 <= k < 256 ==> ppu.oamData[Ppu.DmaSlot(Nat8(ppu.regs.oamAddr), k)] == old(Peek(PageAddr(data, Bv8(k))))) &&
        unchanged(Repr - {ppu.oamData})
      ensures addr == 0x4016 || addr == 0x4017 ==>
        controllers.strobe == (data & 0x01 == 0x01) &&
        controllers.snapshot1 == controllers.controller1 && controllers.snapshot2 == controllers.controller2 &&
        controllers.controller1 == old(controllers.controller1) && controllers.controller2 == old(controllers.controller2) &&
        unchanged(Repr - {controllers})
      ensures addr >= 0x4020 ==> unchanged(Repr - ppuBus.cartridge.Boards)
      ensures (0x4000 <= addr <= 0x4013 || addr == 0x4015 || 0x4018 <= addr <= 0x401F) ==> unchanged(Repr)
    {
      if addr <= 0x1FFF {
        ram[Bus.RamIndex(addr)] := data;
      } else if addr <= 0x3FFF {
        ppu.Write(ppuBus, addr, data);
      } else if addr == 0x4014 {
        OamDma(data);
      } else if addr == 0x4016 || addr == 0x4017 {
        controllers.Write(data);
      } else if addr >= 0x4020 {
        ppuBus.cartridge.WritePrgMem(addr, data);
      }
    }

    /**
     * OAM DMA: the 256 bytes of page `page` are read in order through the
     * bus and then copied into OAM from OAMADDR on. Reading a quiet page
     * changes nothing, so OAM receives the page as it was.
     */
    method OamDma(page: bv8)
      requires Valid()
      modifies Repr
      ensures Valid()
      ensures QuietPage(page) ==>
        (forall k :: 0 <= k < 256 ==> ppu.oamData[Ppu.DmaSlot(Nat8(ppu.regs.oamAddr), k)] == old(Peek(PageAddr(page, Bv8(k))))) &&
        unchanged(Repr - {ppu.oamData})
    {
      var buffer := ReadPage(page);
      ppu.WriteOamDma(buffer);
    }

    /** The DMA source: the 256 bytes of a page, read in order. */
    method ReadPage(page: bv8) returns (buffer: seq<bv8>)
      requires Valid()
      modifies Repr
      ensures Valid() && |buffer| == 256
      ensures QuietPage(page) ==> unchanged(Repr)
      ensures QuietPage(page) ==> forall k :: 0 <= k < 256 ==> buffer[k] == old(Peek(PageAddr(page, Bv8(k))))
    {
      buffer := [];
      for offset := 0 to 256
        invariant Valid() && |buffer| == offset
        invariant QuietPage(page) ==> unchanged(Repr)
        invariant QuietPage(page) ==> forall k :: 0 <= k < offset ==> buffer[k] == old(Peek(PageAddr(page, Bv8(k))))
      {
        var addr := PageAddr(page, Bv8(offset));
        if QuietPage(page) {
          QuietPageReads(page, Bv8(offset));
        }
        var b := Read(addr);
        buffer := buffer + [b];
      }
    }

    // -------------------------------------------------------------------
    // The PPU and cartridge calls the emulator makes around the CPU

    /** `ppu.reset()`: the PPU back to power-up; nothing else on the bus changes. */
    method ResetPpu()
      requires Valid()
      modifies ppu.Repr
      ensures Valid() && ppu.Initial()
      ensures unchanged(ram, controllers, ppuBus.nameTables) && unchanged(ppuBus.cartridge.Repr)
    {
      ppu.Reset();
    }

    /** `ppu.clock(&mut bus)`: one dot; only the PPU and the cartridge's board change. */
    method ClockPpu()
      requires Valid()
      modifies ppu.Repr, ppuBus.cartridge.Boards
      ensures Valid()
      ensures ppu.timing == DotStep(old(ppu.timing), RenderingEnabled(old(ppu.regs.mask)))
      ensures ppu.regs.nmi <==>
        old(ppu.regs.nmi) || (Ppu.Ppu.VblankDot(ppu.timing) && old(ppu.regs.ctrl) & PpuRegisters.GENERATE_NMI != 0)
      ensures unchanged(ram, controllers, ppuBus.nameTables)
    {
      ppu.Clock(ppuBus);
    }

    /** `ppu.take_vblank_nmi_set_state()`: the NMI latch, cleared as it is read. */
    method TakeNmi() returns (nmi: bool)
      requires Valid()
      modifies ppu
      ensures Valid() && nmi == old(ppu.regs.nmi) && !ppu.regs.nmi
      ensures ppu.timing == old(ppu.timing)
    {
      nmi := ppu.TakeVblankNmiSetState();
    }

    /** `cartridge.take_irq_set_state()`: the mapper IRQ line, acknowledged as it is read. */
    method TakeCartridgeIrq() returns (irq: bool)
      requires Valid()
      modifies ppuBus.cartridge.Boards
      ensures Valid() && (irq ==> ppuBus.cartridge.mapper.Mmc3?)
      ensures irq == (ppuBus.cartridge.mapper.Mmc3? && old(ppuBus.cartridge.mapper.m4.irqActive))
      ensures ppu.regs == old(ppu.regs) && ppu.timing == old(ppu.timing)
    {
      irq := ppuBus.cartridge.TakeIrqSetState();
    }
  }
}
