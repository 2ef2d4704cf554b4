/**
 * The picture processing unit: its internal memories (palette, OAM,
 * secondary OAM, the shift registers of the background and sprite
 * pipelines, the frame), its registers, and the CPU-side register interface
 * and dot clock that update them in place.
 */
module Ppu {
  import opened Bits
  import opened Wrappers
  import opened PpuRegisters
  import opened Sprites
  import opened PpuSpec
  import Bus
  import Cartridge
  import Mapping

  const FRAME_WIDTH: nat := 256
  const FRAME_HEIGHT: nat := 240
  const FRAME_SIZE: nat := 256 * 240

  /** The fetch latches: the sprite Y and tile bytes, and the background tile, attribute and pattern bytes. */
  datatype Buffers = Buffers(oamTempY: bv8, oamTempTile: bv8, nt: bv8, at: bv8, bgLo: bv8, bgHi: bv8)

  /** A dot on which render_pixel draws: visible scanline, dots 1..256. */
  predicate Visible(t: Timing)
  {
    0 <= t.scanline <= 239 && 1 <= t.cycle <= 256
  }

  /** The frame cell of a visible dot: row `scanline`, column `cycle - 1`. */
  function PixelIndex(t: Timing): (i: nat)
    requires Visible(t)
    ensures i < FRAME_SIZE
  {
    t.scanline * FRAME_WIDTH + (t.cycle - 1)
  }

  /** The background pixel render_pixel uses: the pipeline's, or the backdrop when hidden. */
  function ShownBackground(mask: bv8, x: int, pipelinePixel: BackgroundPixel, backdrop: bv8): BackgroundPixel
  {
    if mask & SHOW_BACKGROUND != 0 && (x >= 8 || mask & LEFTMOST_8PXL_BACKGROUND != 0) then pipelinePixel
    else BackgroundPixel(true, backdrop)
  }

  /** The sprite pixel render_pixel uses: none when sprites are hidden or clipped in the leftmost 8 columns. */
  function ShownSprite(mask: bv8, x: int, pixel: Option<SpritePixel>): Option<SpritePixel>
  {
    if mask & SHOW_SPRITES != 0 && (x >= 8 || mask & LEFTMOST_8PXL_SPRITE != 0) then pixel else None
  }

  class Ppu {
    // Internal memories
    const paletteTable: array<bv8>
    const oamData: array<bv8>
    const secondaryOam: array<bv8>

    // Rendering pipeline
    const patternPipeline: array<bv16>
    const palettePipeline: array<bv16>
    const spritesPipeline: array<bv8>
    const spritesAttributes: array<bv8>
    const spritesXCounter: array<XCounter>
    var evaluation: ValidEvaluation

    // Registers, including v and t (copyable 15-bit values) and the NMI flag
    var regs: PpuRegs

    // Dot, scanline and frame parity
    var timing: DotTiming
    const frame: array<bv8>
    var spriteZeroHitState: ZeroHitTracker

    // Fetch latches
    var buffers: Buffers

    ghost const Repr: set<object>

    /** The memories: their sizes, and no two of them the same array. Fixed for the PPU's lifetime. */
    ghost predicate Valid()
    {
      Repr == {this, paletteTable, oamData, secondaryOam, patternPipeline, palettePipeline,
               spritesPipeline, spritesAttributes, spritesXCounter, frame} &&
      paletteTable.Length == 32 && oamData.Length == 256 && secondaryOam.Length == 32 &&
      patternPipeline.Length == 2 && palettePipeline.Length == 2 && spritesPipeline.Length == 16 &&
      spritesAttributes.Length == 8 && spritesXCounter.Length == 8 && frame.Length == FRAME_SIZE &&
      Distinct()
    }

    /** The nine memories are nine different arrays. */
    ghost predicate Distinct()
    {
      this as object != paletteTable && this as object != oamData && this as object != secondaryOam && this as object != patternPipeline && this as object != palettePipeline && this as object != spritesPipeline && this as object != spritesAttributes && this as object != spritesXCounter && this as object != frame &&
      paletteTable as object != oamData && paletteTable as object != secondaryOam && paletteTable as object != patternPipeline && paletteTable as object != palettePipeline && paletteTable as object != spritesPipeline && paletteTable as object != spritesAttributes && paletteTable as object != spritesXCounter && paletteTable as object != frame &&
      oamData as object != secondaryOam && oamData as object != patternPipeline && oamData as object != palettePipeline && oamData as object != spritesPipeline && oamData as object != spritesAttributes && oamData as object != spritesXCounter && oamData as object != frame &&
      secondaryOam as object != patternPipeline && secondaryOam as object != palettePipeline && secondaryOam as object != spritesPipeline && secondaryOam as object != spritesAttributes && secondaryOam as object != spritesXCounter && secondaryOam as object != frame &&
      patternPipeline as object != palettePipeline && patternPipeline as object != spritesPipeline && patternPipeline as object != spritesAttributes && patternPipeline as object != spritesXCounter && patternPipeline as object != frame &&
      palettePipeline as object != spritesPipeline && palettePipeline as object != spritesAttributes && palettePipeline as object != spritesXCounter && palettePipeline as object != frame &&
      spritesPipeline as object != spritesAttributes && spritesPipeline as object != spritesXCounter && spritesPipeline as object != frame &&
      spritesAttributes as object != spritesXCounter && spritesAttributes as object != frame &&
      spritesXCounter as object != frame
    }

    /** The PPU shares nothing with the bus it reads through. */
    ghost predicate Apart(bus: Bus.PpuBus)
    {
      Repr !! ({bus.nameTables} + bus.cartridge.Repr)
    }

    /** The register values at power-up. */
    static const INITIAL_REGS: PpuRegs := PpuRegs(0, 0, 0, 0, 0, 0, 0, false, 0, false)

    /** The power-up state: all registers and memories zero except the secondary OAM (0xFF), on the pre-render line. */
    ghost predicate Initial()
      reads this, Repr
      requires Valid()
    {
      regs == INITIAL_REGS && timing == Timing(0, -1, false) && evaluation == Evaluation(Idle, 0, 0, 0) &&
      buffers == Buffers(0, 0, 0, 0, 0, 0) && spriteZeroHitState == NoSpriteZero &&
      AllAre(paletteTable[..], 0) && AllAre(secondaryOam[..], 0xFF) &&
      AllAre(oamData[..], 0) && AllAre(spritesPipeline[..], 0) &&
      AllAre(spritesAttributes[..], 0) && AllAre(spritesXCounter[..], WontRender) &&
      patternPipeline[..] == [0, 0] && palettePipeline[..] == [0, 0] &&
      AllAre(frame[..], 0)
    }

    constructor ()
      ensures Valid() && Initial() && fresh(Repr)
    {
      paletteTable := new bv8[32](_ => 0);
      oamData := new bv8[256](_ => 0);
      secondaryOam := new bv8[32](_ => 0xFF);
      patternPipeline := new bv16[2](_ => 0);
      palettePipeline := new bv16[2](_ => 0);
      spritesPipeline := new bv8[16](_ => 0);
      spritesAttributes := new bv8[8](_ => 0);
      spritesXCounter := new XCounter[8](_ => WontRender);
      frame := new bv8[FRAME_SIZE](_ => 0);
      evaluation := Evaluation(Idle, 0, 0, 0);
      regs := INITIAL_REGS;
      timing := Timing(0, -1, false);
      spriteZeroHitState := NoSpriteZero;
      buffers := Buffers(0, 0, 0, 0, 0, 0);
      Repr := {this, paletteTable, oamData, secondaryOam, patternPipeline, palettePipeline,
               spritesPipeline, spritesAttributes, spritesXCounter, frame};
    }

    /** Back to the power-up state, in place. */
    method Reset()
      requires Valid()
      modifies Repr
      ensures Valid() && Initial()
    {
      ResetMemories();
      ResetPipelines();
      evaluation := Evaluation(Idle, 0, 0, 0);
      regs := INITIAL_REGS;
      timing := Timing(0, -1, false);
      spriteZeroHitState := NoSpriteZero;
      buffers := Buffers(0, 0, 0, 0, 0, 0);
    }

    method ResetMemories()
      requires Valid()
      modifies paletteTable, secondaryOam, oamData, frame
      ensures AllAre(paletteTable[..], 0) && AllAre(secondaryOam[..], 0xFF)
      ensures AllAre(oamData[..], 0) && AllAre(frame[..], 0)
      ensures Valid()
    {
      forall i | 0 <= i < 32 { paletteTable[i] := 0; }
      forall i | 0 <= i < 32 { secondaryOam[i] := 0xFF; }
      forall i | 0 <= i < 256 { oamData[i] := 0; }
      forall i | 0 <= i < FRAME_SIZE { frame[i] := 0; }
    }

    method ResetPipelines()
      requires Valid()
      modifies spritesPipeline, spritesAttributes, spritesXCounter, patternPipeline, palettePipeline
      ensures AllAre(spritesPipeline[..], 0)
      ensures AllAre(spritesAttributes[..], 0)
      ensures AllAre(spritesXCounter[..], WontRender)
      ensures patternPipeline[..] == [0, 0] && palettePipeline[..] == [0, 0]
      ensures Valid()
    {
      patternPipeline[0], patternPipeline[1] := 0, 0;
      palettePipeline[0], palettePipeline[1] := 0, 0;
      forall i | 0 <= i < 16 { spritesPipeline[i] := 0; }
      forall i | 0 <= i < 8 { spritesAttributes[i] := 0; }
      forall i | 0 <= i < 8 { spritesXCounter[i] := WontRender; }
    }

    /** Hand over a pending NMI, once. */
    method TakeVblankNmiSetState() returns (state: bool)
      requires Valid()
      modifies this
      ensures state == old(regs.nmi) && regs == old(regs).(nmi := false)
      ensures timing == old(timing) && evaluation == old(evaluation) && buffers == old(buffers)
      ensures spriteZeroHitState == old(spriteZeroHitState)
      ensures Valid()
    {
      state := regs.nmi;
      regs := regs.(nmi := false);
    }

    /** The frame, on the dot after the last visible pixel is drawn. */
    function ReadyFrame(): (r: Option<seq<bv8>>)
      reads this, frame
      ensures r.Some? <==> timing.cycle == 256 && timing.scanline == 239
      ensures r.Some? ==> r.value == frame[..]
    {
      if timing.cycle == 256 && timing.scanline == 239 then Some(frame[..]) else None
    }

    // -------------------------------------------------------------------
    // CPU interface

    /** A CPU write to 0x2000-0x3FFF: the register side as WriteRegister says, plus the OAMDATA and PPUDATA stores. */
    method Write(bus: Bus.PpuBus, addr: bv16, data: bv8)
      requires Valid() && bus.Valid() && Apart(bus)
      modifies this, oamData, paletteTable, bus.nameTables, bus.cartridge.chrMemory
      ensures regs == WriteRegister(old(regs), addr, data)
      ensures timing == old(timing) && evaluation == old(evaluation) && buffers == old(buffers)
      ensures spriteZeroHitState == old(spriteZeroHitState)
      ensures oamData[..] == if Register(addr) == 4 then old(oamData[..])[Nat8(old(regs.oamAddr)) := data] else old(oamData[..])
      ensures Register(addr) != 7 ==> unchanged(paletteTable, bus.nameTables, bus.cartridge.chrMemory)
      ensures Register(addr) == 7 ==> DataWritten(bus, old(regs.v) & 0x3FFF, data)
      ensures Valid() && bus.Valid()
    {
      if Register(addr) == 7 {
        WriteData(bus, data);
      } else {
        WriteRegisters(addr, data);
      }
    }

    /** The writes that stay inside the PPU: every register but PPUDATA. */
    method WriteRegisters(addr: bv16, data: bv8)
      requires Valid() && Register(addr) != 7
      modifies this, oamData
      ensures regs == WriteRegister(old(regs), addr, data)
      ensures timing == old(timing) && evaluation == old(evaluation) && buffers == old(buffers)
      ensures spriteZeroHitState == old(spriteZeroHitState)
      ensures oamData[..] == if Register(addr) == 4 then old(oamData[..])[Nat8(old(regs.oamAddr)) := data] else old(oamData[..])
      ensures Valid()
    {
      if Register(addr) == 4 {
        oamData[Nat8(regs.oamAddr)] := data;
      }
      regs := WriteRegister(regs, addr, data);
    }

    /** What a PPUDATA write to PPU address `a` stores: pattern memory, nametables, nothing, or a palette entry. */
    twostate predicate DataWritten(bus: Bus.PpuBus, a: bv16, data: bv8)
      requires bus.Valid() && old(bus.Valid()) && Valid()
      reads this, Repr, bus, bus.nameTables, bus.cartridge, bus.cartridge.Repr
    {
      (paletteTable[..] == if a >= 0x3F00 then old(paletteTable[..])[PaletteIndex(a) := data] else old(paletteTable[..])) &&
      (bus.nameTables[..] == if 0x2000 <= a <= 0x2FFF
                             then old(bus.nameTables[..])[MirrorAt(old(bus.cartridge.Mirroring()), a) := data]
                             else old(bus.nameTables[..])) &&
      (bus.cartridge.chrMemory[..] ==
         if a <= 0x1FFF && old(bus.cartridge.ChrWriteTarget(a)).Some? &&
            old(bus.cartridge.ChrWriteTarget(a)).value < bus.cartridge.chrMemory.Length
         then old(bus.cartridge.chrMemory[..])[old(bus.cartridge.ChrWriteTarget(a)).value := data]
         else old(bus.cartridge.chrMemory[..]))
    }

    /** The PPUDATA write: step v, then store at the old v. */
    method WriteData(bus: Bus.PpuBus, data: bv8)
      requires Valid() && bus.Valid() && Apart(bus)
      modifies this, paletteTable, bus.nameTables, bus.cartridge.chrMemory
      ensures regs == DataStep(old(regs))
      ensures timing == old(timing) && evaluation == old(evaluation) && buffers == old(buffers)
      ensures spriteZeroHitState == old(spriteZeroHitState)
      ensures DataWritten(bus, old(regs.v) & 0x3FFF, data)
      ensures Valid() && bus.Valid()
    {
      var writeAddr := regs.v & 0x3FFF;
      IncrementVramAddr();
      if writeAddr <= 0x1FFF {
        bus.WriteChrMem(writeAddr, data);
      } else if writeAddr <= 0x2FFF {
        bus.WriteNameTables(writeAddr, data);
      } else if writeAddr <= 0x3EFF {
        // unused address space
      } else {
        paletteTable[PaletteIndex(writeAddr)] := data;
      }
    }

    /** v moves on by the PPUCTRL increment after every PPUDATA access. */
    method IncrementVramAddr()
      modifies this
      ensures regs == DataStep(old(regs))
      ensures timing == old(timing) && evaluation == old(evaluation) && buffers == old(buffers)
      ensures spriteZeroHitState == old(spriteZeroHitState)
    {
      regs := regs.(v := (regs.v + VramAddrIncrement(regs.ctrl)) & 0x7FFF);
    }

    /** The byte the PPU bus holds at `a`, for the PPUDATA read buffer. */
    static function BusByte(bus: Bus.PpuBus, a: bv16): bv8
      requires bus.Valid()
      reads bus, bus.nameTables, bus.cartridge, bus.cartridge.Repr
    {
      if a <= 0x1FFF then bus.cartridge.PeekChr(a)
      else if a & 0x2000 != 0 then bus.ReadNameTables(a)
      else 0
    }

    /** A CPU read of 0x2000-0x3FFF: the value ReadValue gives, with the effects ReadRegister gives. */
    method Read(bus: Bus.PpuBus, addr: bv16) returns (r: bv8)
      requires Valid() && bus.Valid() && Apart(bus)
      modifies this, bus.cartridge.Boards
      ensures r == ReadValue(old(regs), addr, oamData[Nat8(old(regs.oamAddr))], paletteTable[PaletteIndex(old(regs.v) & 0x3FFF)])
      ensures regs == ReadRegister(old(regs), addr, old(BusByte(bus, regs.v & 0x3FFF)))
      ensures timing == old(timing) && evaluation == old(evaluation) && buffers == old(buffers)
      ensures spriteZeroHitState == old(spriteZeroHitState)
      ensures unchanged(bus.nameTables)
      ensures Valid() && bus.Valid()
      ensures Register(addr) == 7 && old(regs.v) & 0x3FFF <= 0x1FFF ==> bus.cartridge.ChrReadEffect(old(regs.v) & 0x3FFF)
      ensures !(Register(addr) == 7 && old(regs.v) & 0x3FFF <= 0x1FFF) ==> unchanged(bus.cartridge.Boards)
    {
      if Register(addr) == 7 {
        r := ReadData(bus, addr);
      } else {
        ReadIgnoresFetched(regs, addr, BusByte(bus, regs.v & 0x3FFF));
        r := ReadRegisters(addr);
      }
    }

    /** The reads that stay inside the PPU: every register but PPUDATA. */
    method ReadRegisters(addr: bv16) returns (r: bv8)
      requires Valid() && Register(addr) != 7
      modifies this
      ensures r == ReadValue(old(regs), addr, oamData[Nat8(old(regs.oamAddr))], paletteTable[PaletteIndex(old(regs.v) & 0x3FFF)])
      ensures regs == ReadRegister(old(regs), addr, 0)
      ensures timing == old(timing) && evaluation == old(evaluation) && buffers == old(buffers)
      ensures spriteZeroHitState == old(spriteZeroHitState)
      ensures Valid()
    {
      var reg := Register(addr);
      if reg == 2 {
        r := regs.status | (regs.lastData & 0x1F);
        regs := regs.(status := regs.status & !VBLANK_STARTED, writeLatch := false);
      } else if reg == 4 {
        r := oamData[Nat8(regs.oamAddr)];
      } else {
        r := 0;
      }
    }

    /**
     * The PPUDATA read: below the palettes the byte at v goes into the read
     * buffer (through the mapper for pattern memory); the value returned and
     * the register update are those ReadValue and ReadRegister give.
     */
    method ReadData(bus: Bus.PpuBus, addr: bv16) returns (r: bv8)
      requires Valid() && bus.Valid() && Apart(bus) && Register(addr) == 7
      modifies this, bus.cartridge.Boards
      ensures r == ReadValue(old(regs), addr, oamData[Nat8(old(regs.oamAddr))], paletteTable[PaletteIndex(old(regs.v) & 0x3FFF)])
      ensures regs == ReadRegister(old(regs), addr, old(BusByte(bus, regs.v & 0x3FFF)))
      ensures timing == old(timing) && evaluation == old(evaluation) && buffers == old(buffers)
      ensures spriteZeroHitState == old(spriteZeroHitState)
      ensures unchanged(bus.nameTables)
      ensures Valid() && bus.Valid()
      ensures old(regs.v) & 0x3FFF <= 0x1FFF ==> bus.cartridge.ChrReadEffect(old(regs.v) & 0x3FFF)
      ensures old(regs.v) & 0x3FFF > 0x1FFF ==> unchanged(bus.cartridge.Boards)
    {
      var readAddr := regs.v & 0x3FFF;
      var fetched: bv8 := 0;
      if Buffered(readAddr) {
        fetched := FetchByte(bus, readAddr);
      }
      r := ReadValue(regs, addr, oamData[Nat8(regs.oamAddr)], paletteTable[PaletteIndex(readAddr)]);
      regs := ReadRegister(regs, addr, fetched);
    }

    /** The byte behind the read buffer: pattern memory (through the mapper) or a nametable. */
    static method FetchByte(bus: Bus.PpuBus, a: bv16) returns (b: bv8)
      requires bus.Valid() && a <= 0x2FFF
      modifies bus.cartridge.Boards
      ensures bus.Valid() && b == old(BusByte(bus, a))
      ensures unchanged(bus.nameTables)
      ensures a <= 0x1FFF ==> bus.cartridge.ChrReadEffect(a)
      ensures a > 0x1FFF ==> unchanged(bus.cartridge.Boards)
    {
      if a <= 0x1FFF {
        b := bus.ReadChrMem(a);
      } else {
        b := bus.ReadNameTables(a);
      }
    }

    /**
     * OAM DMA: the 256 bytes go into OAM from OAMADDR on, wrapping at the
     * end of OAM; OAMADDR steps 256 times and so ends where it started.
     */
    method WriteOamDma(buffer: seq<bv8>)
      requires Valid() && |buffer| == 256
      modifies oamData
      ensures forall k :: 0 <= k < 256 ==> oamData[DmaSlot(Nat8(regs.oamAddr), k)] == buffer[k]
      ensures Valid()
    {
      var start := Nat8(regs.oamAddr);
      var addr := start;
      var i := 0;
      while i < 256
        invariant 0 <= i <= 256 && addr == DmaSlot(start, i)
        invariant forall k :: 0 <= k < i ==> oamData[DmaSlot(start, k)] == buffer[k]
      {
        oamData[addr] := buffer[i];
        addr := if addr == 255 then 0 else addr + 1;
        i := i + 1;
      }
    }

    // -------------------------------------------------------------------
    // The dot clock

    /**
     * One PPU dot: advance the counters, run the sprite-0 delay, the
     * pre-render line's flag clearing and vertical copies, draw a pixel, run
     * the sprite and background fetches (only while rendering), and start
     * vertical blank on dot 1 of line 241.
     */
    method Clock(bus: Bus.PpuBus)
      requires Valid() && bus.Valid() && Apart(bus)
      modifies Repr, bus.cartridge.Boards
      ensures timing == DotStep(old(timing), RenderingEnabled(old(regs.mask)))
      ensures SameControl(old(regs), regs)
      ensures regs.nmi <==> old(regs.nmi) || (VblankDot(timing) && regs.ctrl & GENERATE_NMI != 0)
      ensures VblankDot(timing) ==> VblankFlag(regs.status)
      ensures PreRenderDot(timing) ==> FlagsClear(regs.status)
      ensures !VblankDot(timing) && !PreRenderDot(timing) ==> VblankFlag(regs.status) == VblankFlag(old(regs.status))
      ensures !RenderingEnabled(regs.mask) ==> regs.v == old(regs.v)
      ensures unchanged(paletteTable, oamData, bus.nameTables)
      ensures !Visible(timing) ==> unchanged(frame)
      ensures Visible(timing) ==> frame[..] == old(frame[..])[PixelIndex(timing) := frame[PixelIndex(timing)]]
      ensures Valid() && bus.Valid()
    {
      DrawDot();
      FetchDot(bus);
    }

    /** The first half of a dot: bookkeeping, then the pixel. */
    method DrawDot()
      requires Valid()
      modifies this, frame, spritesXCounter, spritesPipeline
      ensures timing == DotStep(old(timing), RenderingEnabled(old(regs.mask)))
      ensures SameControl(old(regs), regs) && regs.nmi == old(regs.nmi)
      ensures PreRenderDot(timing) ==> FlagsClear(regs.status)
      ensures !PreRenderDot(timing) ==> VblankFlag(regs.status) == VblankFlag(old(regs.status))
      ensures !RenderingEnabled(regs.mask) ==> regs.v == old(regs.v)
      ensures !Visible(timing) ==> unchanged(frame)
      ensures Visible(timing) ==> frame[..] == old(frame[..])[PixelIndex(timing) := frame[PixelIndex(timing)]]
      ensures Valid()
    {
      StartDot();
      RenderPixel();
    }

    /** The second half of a dot: the fetches, then the start of vertical blank. */
    method FetchDot(bus: Bus.PpuBus)
      requires Valid() && bus.Valid() && Apart(bus)
      modifies this, secondaryOam, spritesAttributes, spritesXCounter, spritesPipeline, patternPipeline, palettePipeline,
               bus.cartridge.Boards
      ensures timing == old(timing)
      ensures SameControl(old(regs), regs)
      ensures regs.nmi <==> old(regs.nmi) || (VblankDot(timing) && regs.ctrl & GENERATE_NMI != 0)
      ensures VblankDot(timing) ==> VblankFlag(regs.status)
      ensures PreRenderDot(timing) ==> regs.status == old(regs.status)
      ensures !VblankDot(timing) ==> VblankFlag(regs.status) == VblankFlag(old(regs.status))
      ensures !RenderingEnabled(regs.mask) ==> regs.v == old(regs.v)
      ensures unchanged(bus.nameTables)
      ensures Valid() && bus.Valid()
    {
      OverflowKeepsVblank(regs.status);
      Fetches(bus);
      VblankStart();
    }

    /** Two register files that differ at most in PPUSTATUS, v and the pending NMI. */
    static predicate SameControl(a: PpuRegs, b: PpuRegs)
    {
      a.ctrl == b.ctrl && a.mask == b.mask && a.oamAddr == b.oamAddr && a.t == b.t &&
      a.fineX == b.fineX && a.writeLatch == b.writeLatch && a.lastData == b.lastData
    }

    /** The first dot of vertical blank: line 241, dot 1. */
    static predicate VblankDot(t: Timing)
    {
      t.scanline == 241 && t.cycle == 1
    }

    /** The dot on which the pre-render line clears the flags: line -1, dot 1. */
    static predicate PreRenderDot(t: Timing)
    {
      t.scanline == -1 && t.cycle == 1
    }

    /** Whether the status byte shows vertical blank. */
    static predicate VblankFlag(status: bv8)
    {
      status & VBLANK_STARTED != 0
    }

    /** Raising sprite overflow leaves the vertical blank flag as it was. */
    static lemma OverflowKeepsVblank(status: bv8)
      ensures VblankFlag(status | SPRITE_OVERFLOW) == VblankFlag(status)
    { }

    /** Whether vertical blank, sprite-0 hit and sprite overflow are all down. */
    static predicate FlagsClear(status: bv8)
    {
      status & (VBLANK_STARTED | SPRITE_ZERO_HIT | SPRITE_OVERFLOW) == 0
    }

    /** The bookkeeping at the start of a dot: counters, sprite-0 delay, pre-render line. */
    method StartDot()
      requires Valid()
      modifies this
      ensures timing == DotStep(old(timing), RenderingEnabled(old(regs.mask)))
      ensures SameControl(old(regs), regs) && regs.nmi == old(regs.nmi)
      ensures PreRenderDot(timing) ==> FlagsClear(regs.status)
      ensures !PreRenderDot(timing) ==> VblankFlag(regs.status) == VblankFlag(old(regs.status))
      ensures !RenderingEnabled(regs.mask) ==> regs.v == old(regs.v)
      ensures Valid()
    {
      var before := regs.status;
      AdvanceDot();
      ZeroHitDelay();
      ZeroHitKeepsVblank(before);
      var hit := regs.status;
      PreRenderLine();
      ClearingFlags(hit);
    }

    /** Raising sprite-0 hit leaves the vertical blank flag as it was. */
    static lemma ZeroHitKeepsVblank(status: bv8)
      ensures VblankFlag(status | SPRITE_ZERO_HIT) == VblankFlag(status)
    { }

    /** The pre-render line's clearing leaves none of the three flags set. */
    static lemma ClearingFlags(status: bv8)
      ensures FlagsClear(status & !(SPRITE_ZERO_HIT | SPRITE_OVERFLOW | VBLANK_STARTED))
    { }

    /** Line 241, dot 1: vertical blank starts, with an NMI if PPUCTRL asks for one. */
    method VblankStart()
      requires Valid()
      modifies this
      ensures timing == old(timing) && SameControl(old(regs), regs)
      ensures VblankDot(timing) ==> regs == old(regs).(status := old(regs.status) | VBLANK_STARTED,
                                                      nmi := old(regs.nmi) || regs.ctrl & GENERATE_NMI != 0)
      ensures !VblankDot(timing) ==> regs == old(regs)
      ensures Valid()
    {
      if timing.scanline == 241 && timing.cycle == 1 {
        regs := regs.(status := regs.status | VBLANK_STARTED);
        if regs.ctrl & GENERATE_NMI != 0 {
          regs := regs.(nmi := true);
        }
      }
    }

    /** The counters move one dot; a new scanline also moves the sprite-0 tracker. */
    method AdvanceDot()
      requires Valid()
      modifies this
      ensures timing == DotStep(old(timing), RenderingEnabled(regs.mask))
      ensures spriteZeroHitState == if NewLine(old(timing)) then ZeroHitNextScanline(old(spriteZeroHitState)) else old(spriteZeroHitState)
      ensures regs == old(regs) && evaluation == old(evaluation) && buffers == old(buffers)
      ensures Valid()
    {
      var cycle := timing.cycle + 1;
      var scanline := timing.scanline;
      var odd := timing.oddFrame;
      if cycle >= 341 {
        cycle := 0;
        scanline := scanline + 1;
        if scanline >= 261 {
          scanline := -1;
          if odd && RenderingEnabled(regs.mask) {
            cycle := cycle + 1;
          }
          odd := !odd;
        }
        match spriteZeroHitState {
          case IsInOam => spriteZeroHitState := OnCurrentScanline(false);
          case OnCurrentScanline(next) =>
            spriteZeroHitState := if next then OnCurrentScanline(false) else NoSpriteZero;
          case _ =>
        }
      }
      timing := Timing(cycle, scanline, odd);
    }

    /** The delay after a sprite-0 overlap: SPRITE_ZERO_HIT goes up when it runs out. */
    method ZeroHitDelay()
      requires Valid()
      modifies this
      ensures spriteZeroHitState == ZeroHitTick(old(spriteZeroHitState))
      ensures regs == old(regs).(status := if ZeroHitFires(old(spriteZeroHitState)) then old(regs.status) | SPRITE_ZERO_HIT else old(regs.status))
      ensures timing == old(timing) && evaluation == old(evaluation) && buffers == old(buffers)
      ensures Valid()
    {
      if spriteZeroHitState.Delay? {
        var x := spriteZeroHitState.remaining - 1;
        if x == 0 {
          regs := regs.(status := regs.status | SPRITE_ZERO_HIT);
          spriteZeroHitState := NoSpriteZero;
        } else {
          spriteZeroHitState := Delay(x);
        }
      }
    }

    /** The pre-render line clears the three status flags on dot 1 and copies t's vertical bits into v on dots 280-304. */
    method PreRenderLine()
      requires Valid()
      modifies this
      ensures regs == PreRenderRegs(old(regs), timing)
      ensures timing == old(timing) && evaluation == old(evaluation) && buffers == old(buffers)
      ensures spriteZeroHitState == old(spriteZeroHitState)
      ensures Valid()
    {
      if timing.scanline == -1 {
        if timing.cycle == 1 {
          regs := regs.(status := regs.status & !SPRITE_ZERO_HIT);
          regs := regs.(status := regs.status & !SPRITE_OVERFLOW);
          regs := regs.(status := regs.status & !VBLANK_STARTED);
        } else if timing.cycle >= 280 && timing.cycle <= 304 && RenderingEnabled(regs.mask) {
          regs := regs.(v := CopyY(regs.v, regs.t));
        }
      }
    }

    static function PreRenderRegs(r: PpuRegs, t: Timing): (r': PpuRegs)
      ensures t.scanline == -1 && t.cycle == 1 ==>
        r' == r.(status := r.status & !(SPRITE_ZERO_HIT | SPRITE_OVERFLOW | VBLANK_STARTED))
      ensures t.scanline == -1 && 280 <= t.cycle <= 304 && RenderingEnabled(r.mask) ==> r' == r.(v := CopyY(r.v, r.t))
      ensures !(t.scanline == -1 && (t.cycle == 1 || (280 <= t.cycle <= 304 && RenderingEnabled(r.mask)))) ==> r' == r
      ensures r'.(status := r.status, v := r.v) == r
      ensures !(t.scanline == -1 && t.cycle == 1) ==> r'.status == r.status
    {
      if t.scanline == -1 && t.cycle == 1 then r.(status := r.status & !(SPRITE_ZERO_HIT | SPRITE_OVERFLOW | VBLANK_STARTED))
      else if t.scanline == -1 && 280 <= t.cycle <= 304 && RenderingEnabled(r.mask) then r.(v := CopyY(r.v, r.t))
      else r
    }

    /** The fetches of a rendering dot on the pre-render and visible lines. */
    method Fetches(bus: Bus.PpuBus)
      requires Valid() && bus.Valid() && Apart(bus)
      modifies this, secondaryOam, spritesAttributes, spritesXCounter, spritesPipeline, patternPipeline, palettePipeline,
               bus.cartridge.Boards
      ensures timing == old(timing)
      ensures SameControl(old(regs), regs) && regs.nmi == old(regs.nmi)
      ensures (regs.status == old(regs.status) || regs.status == old(regs.status) | SPRITE_OVERFLOW)
      ensures !RenderingEnabled(regs.mask) ==> regs == old(regs)
      ensures !(0 <= timing.scanline <= 239) ==> regs.status == old(regs.status)
      ensures unchanged(bus.nameTables)
      ensures Valid() && bus.Valid()
    {
      if RenderingEnabled(regs.mask) && timing.scanline < 240 {
        SpriteFetches(bus);
        BackgroundFetches(bus);
      }
    }

    /**
     * The sprite side of a rendering dot: the pre-render line parks every
     * X counter; a visible line runs sprite evaluation and fetching.
     */
    method SpriteFetches(bus: Bus.PpuBus)
      requires Valid() && bus.Valid() && Apart(bus) && timing.scanline < 240
      modifies this, secondaryOam, spritesAttributes, spritesXCounter, spritesPipeline,
               bus.cartridge.Boards
      ensures timing == old(timing)
      ensures regs.(status := old(regs.status)) == old(regs)
      ensures (regs.status == old(regs.status) || regs.status == old(regs.status) | SPRITE_OVERFLOW)
      ensures timing.scanline == -1 ==> regs == old(regs) && AllAre(spritesXCounter[..], WontRender)
      ensures unchanged(bus.nameTables)
      ensures Valid() && bus.Valid()
    {
      if timing.scanline == -1 {
        forall i | 0 <= i < 8 { spritesXCounter[i] := WontRender; }
      } else {
        SpritesLoadCycle(bus);
      }
    }

    /**
     * The background side of a rendering dot: shift and fetch on dots
     * 1..256 and 321..336, and copy t's horizontal bits into v on dot 257.
     */
    method BackgroundFetches(bus: Bus.PpuBus)
      requires Valid() && bus.Valid() && Apart(bus)
      modifies this, patternPipeline, palettePipeline, bus.cartridge.Boards
      ensures timing == old(timing)
      ensures regs.(v := old(regs.v)) == old(regs)
      ensures timing.cycle == 257 ==> regs.v == CopyX(old(regs.v), regs.t)
      ensures !(1 <= timing.cycle <= 257 || 321 <= timing.cycle <= 336) ==> regs == old(regs)
      ensures unchanged(bus.nameTables)
      ensures Valid() && bus.Valid()
    {
      if (timing.cycle > 0 && timing.cycle <= 256) || (timing.cycle >= 321 && timing.cycle <= 336) {
        ShiftBackground();
        BgLoadCycle(bus);
      } else if timing.cycle == 257 {
        regs := regs.(v := CopyX(regs.v, regs.t));
      }
    }

    /** The four background shift registers move one pixel. */
    method ShiftBackground()
      requires Valid()
      modifies patternPipeline, palettePipeline
      ensures patternPipeline[..] == [old(patternPipeline[0]) << 1, old(patternPipeline[1]) << 1]
      ensures palettePipeline[..] == [old(palettePipeline[0]) << 1, old(palettePipeline[1]) << 1]
    {
      patternPipeline[0] := patternPipeline[0] << 1;
      patternPipeline[1] := patternPipeline[1] << 1;
      palettePipeline[0] := palettePipeline[0] << 1;
      palettePipeline[1] := palettePipeline[1] << 1;
    }

    /** The pipelines' background pixel at fine X. */
    function GetBackgroundPixel(): BackgroundPixel
      requires Valid()
      reads this, patternPipeline, palettePipeline, paletteTable
    {
      BackgroundPixelOf(patternPipeline[0], patternPipeline[1], palettePipeline[0], palettePipeline[1],
                        regs.fineX, paletteTable[..])
    }

    /**
     * Draw the pixel of a visible dot: background and sprite pixel as the
     * mask allows, composited, greyscaled, and a sprite-0 hit recorded when
     * both are opaque. Sprite counters move whenever sprites are shown.
     */
    method RenderPixel()
      requires Valid()
      modifies this, frame, spritesXCounter, spritesPipeline
      ensures regs == old(regs) && timing == old(timing) && evaluation == old(evaluation) && buffers == old(buffers)
      ensures !Visible(timing) ==> unchanged(frame, spritesXCounter, spritesPipeline) && spriteZeroHitState == old(spriteZeroHitState)
      ensures Visible(timing) ==> frame[..] == old(frame[..][PixelIndex(timing) := PixelColor()])
      ensures Visible(timing) ==> spriteZeroHitState == old(ZeroHitAfter(BackgroundNow(), SpriteNow()))
      ensures Visible(timing) && regs.mask & SHOW_SPRITES != 0 ==> spritesXCounter[..] == old(StepAll(spritesXCounter[..]))
      ensures Visible(timing) && regs.mask & SHOW_SPRITES != 0 ==> spritesPipeline[..] == old(ShiftAll(spritesXCounter[..], spritesPipeline[..]))
      ensures regs.mask & SHOW_SPRITES == 0 ==> unchanged(spritesXCounter, spritesPipeline)
      ensures Valid()
    {
      if !Visible(timing) {
        return;
      }
      var bg := BackgroundNow();
      var sp := ShownSpritePixel();
      DrawPixel(bg, sp);
    }

    /** The colour this dot draws: background and sprite composited, then greyscaled if the mask says so. */
    function PixelColor(): bv8
      requires Valid() && Visible(timing)
      reads this, Repr
    {
      Greyscale(regs.mask, Composite(BackgroundNow(), SpriteNow()))
    }

    /** The sprite pixel of a visible dot; the sprites step only while they are shown. */
    method ShownSpritePixel() returns (sp: Option<SpritePixel>)
      requires Valid() && Visible(timing)
      modifies spritesXCounter, spritesPipeline
      ensures sp == old(SpriteNow())
      ensures regs.mask & SHOW_SPRITES != 0 ==> spritesXCounter[..] == old(StepAll(spritesXCounter[..]))
      ensures regs.mask & SHOW_SPRITES != 0 ==> spritesPipeline[..] == old(ShiftAll(spritesXCounter[..], spritesPipeline[..]))
      ensures regs.mask & SHOW_SPRITES == 0 ==> unchanged(spritesXCounter, spritesPipeline)
    {
      sp := None;
      if regs.mask & SHOW_SPRITES != 0 {
        var p := GetSpritePixel();
        sp := ShownSprite(regs.mask, timing.cycle - 1, p);
      }
    }

    /** The background pixel this dot shows: the pipelines', or the backdrop when hidden or clipped. */
    function BackgroundNow(): BackgroundPixel
      requires Valid() && Visible(timing)
      reads this, patternPipeline, palettePipeline, paletteTable
    {
      ShownBackground(regs.mask, timing.cycle - 1, GetBackgroundPixel(), paletteTable[0])
    }

    /** The sprite pixel this dot shows, if sprites are shown and not clipped. */
    function SpriteNow(): Option<SpritePixel>
      requires Valid() && Visible(timing)
      reads this, spritesXCounter, spritesPipeline, spritesAttributes, paletteTable
    {
      ShownSprite(regs.mask, timing.cycle - 1, SpritePixelNow())
    }

    /** The pixel of the first opaque sprite, from the counters and shift registers. */
    function SpritePixelNow(): Option<SpritePixel>
      requires Valid()
      reads this, spritesXCounter, spritesPipeline, spritesAttributes, paletteTable
    {
      SpritePixelAt(spritesXCounter[..], spritesPipeline[..], spritesAttributes[..], paletteTable[..])
    }

    /** The sprite-0 tracker after a dot showing `bg` and `sp`. */
    function ZeroHitAfter(bg: BackgroundPixel, sp: Option<SpritePixel>): ZeroHitTracker
      requires Visible(timing)
      reads this
    {
      if ZeroHitOn(bg, sp, timing.cycle - 1, spriteZeroHitState) then Delay(2) else spriteZeroHitState
    }

    /** Composite a background and a sprite pixel into the frame, recording a sprite-0 hit. */
    method DrawPixel(bg: BackgroundPixel, sp: Option<SpritePixel>)
      requires Valid() && Visible(timing)
      modifies this, frame
      ensures regs == old(regs) && timing == old(timing) && evaluation == old(evaluation) && buffers == old(buffers)
      ensures frame[..] == old(frame[..][PixelIndex(timing) := Greyscale(regs.mask, Composite(bg, sp))])
      ensures spriteZeroHitState == old(ZeroHitAfter(bg, sp))
      ensures Valid()
    {
      var x := timing.cycle - 1;
      var color: bv8;
      if sp.Some? {
        if bg.transparent {
          color := sp.value.color;
        } else {
          if spriteZeroHitState.OnCurrentScanline? && sp.value.isSpriteZero && x != 255 {
            spriteZeroHitState := Delay(2);
          }
          color := if sp.value.behindBackground then bg.color else sp.value.color;
        }
      } else {
        color := bg.color;
      }
      SetPixel(x, timing.scanline, color);
    }

    /** Store a colour, greyscaled if the mask says so. */
    method SetPixel(x: int, y: int, color: bv8)
      requires Valid() && 0 <= x < FRAME_WIDTH && 0 <= y < FRAME_HEIGHT
      modifies frame
      ensures frame[..] == old(frame[..])[y * FRAME_WIDTH + x := Greyscale(regs.mask, color)]
    {
      var c := if regs.mask & GREYSCALE != 0 then color & 0x30 else color;
      var idx := y * FRAME_WIDTH + x;
      if idx < frame.Length {
        frame[idx] := c;
      }
    }

    /**
     * Step all eight X counters, and take the pixel of the first rendering
     * sprite whose pattern bit is opaque; all rendering sprites shift.
     */
    method GetSpritePixel() returns (pixel: Option<SpritePixel>)
      requires Valid()
      modifies spritesXCounter, spritesPipeline
      ensures pixel == old(SpritePixelNow())
      ensures spritesXCounter[..] == StepAll(old(spritesXCounter[..]))
      ensures spritesPipeline[..] == ShiftAll(old(spritesXCounter[..]), old(spritesPipeline[..]))
      ensures Valid()
    {
      ghost var counters, pipeline := spritesXCounter[..], spritesPipeline[..];
      var attributes, palette := spritesAttributes[..], paletteTable[..];
      pixel := None;
      var i := 0;
      while i < 8
        invariant 0 <= i <= 8
        invariant spritesXCounter[..] == StepCounters(counters, i)
        invariant spritesPipeline[..] == ShiftPipeline(counters, pipeline, i)
        invariant pixel == ScanSprites(counters, pipeline, attributes, palette, i)
      {
        StepCountersNext(counters, i, spritesXCounter[..]);
        ShiftPipelineNext(counters, pipeline, i, spritesPipeline[..]);
        var c, lo, hi := spritesXCounter[i], spritesPipeline[i], spritesPipeline[8 + i];
        if pixel.None? {
          pixel := SlotPixel(c, lo, hi, attributes[i], palette, i);
        }
        StepSprite(i);
        i := i + 1;
      }
    }

    /** One visible dot for sprite i: its counter steps, and its shift registers shift while it renders. */
    method StepSprite(i: nat)
      requires Valid() && i < 8
      modifies spritesXCounter, spritesPipeline
      ensures spritesXCounter[..] == old(spritesXCounter[..])[i := XCounterStep(old(spritesXCounter[i]))]
      ensures spritesPipeline[..] == ShiftSlot(old(spritesXCounter[i]), old(spritesPipeline[..]), i)
    {
      var c := spritesXCounter[i];
      match c {
        case NotRendered(x) =>
          spritesXCounter[i] := if x - 1 == 0 then Rendering(0) else NotRendered(x - 1);
        case Rendering(f) =>
          spritesXCounter[i] := if f + 1 == 8 then Rendered else Rendering(f + 1);
          ShiftSprite(i);
        case _ =>
      }
    }

    /** The two shift registers of sprite i move one pixel. */
    method ShiftSprite(i: nat)
      requires Valid() && i < 8
      modifies spritesPipeline
      ensures spritesPipeline[..] == old(spritesPipeline[..])[i := old(spritesPipeline[i]) >> 1][8 + i := old(spritesPipeline[8 + i]) >> 1]
    {
      spritesPipeline[i] := spritesPipeline[i] >> 1;
      spritesPipeline[8 + i] := spritesPipeline[8 + i] >> 1;
    }

    // -------------------------------------------------------------------
    // Background fetches

    /**
     * One dot of the background fetch cycle of 8: the nametable byte on the
     * second, the attribute byte on the fourth, the pattern planes on the
     * sixth and eighth, which also feeds the shift registers and moves v one
     * tile right (and one row down at dot 256).
     */
    method BgLoadCycle(bus: Bus.PpuBus)
      requires Valid() && bus.Valid() && Apart(bus) && 1 <= timing.cycle
      modifies this, patternPipeline, palettePipeline, bus.cartridge.Boards
      ensures timing == old(timing) && evaluation == old(evaluation) && spriteZeroHitState == old(spriteZeroHitState)
      ensures regs.(v := old(regs.v)) == old(regs)
      ensures unchanged(bus.nameTables)
      ensures old(BgPhase()) == 1 ==> buffers == old(buffers).(nt := old(bus.ReadNameTables(TileAddress(regs.v))))
      ensures old(BgPhase()) == 3 ==> buffers == old(buffers).(at := old(bus.ReadNameTables(AttributeAddress(regs.v))))
      ensures old(BgPhase()) == 5 ==> buffers == old(buffers).(bgLo := old(bus.cartridge.PeekChr(BackgroundTileRow(false))))
      ensures old(BgPhase()) == 7 ==> buffers == old(buffers).(bgHi := old(bus.cartridge.PeekChr(BackgroundTileRow(true))))
      ensures old(BgPhase()) == 7 ==> patternPipeline[0] == ShiftIn(old(patternPipeline[0]), old(buffers.bgLo))
      ensures old(BgPhase()) == 7 ==> patternPipeline[1] == ShiftIn(old(patternPipeline[1]), buffers.bgHi)
      ensures old(BgPhase()) == 7 ==> palettePipeline[0] == SpreadIn(old(palettePipeline[0]), QuadrantBits(old(buffers.at), old(regs.v)) & 1 == 1)
      ensures old(BgPhase()) == 7 ==> palettePipeline[1] == SpreadIn(old(palettePipeline[1]), QuadrantBits(old(buffers.at), old(regs.v)) & 2 == 2)
      ensures old(BgPhase()) == 7 ==> regs.v == old(if timing.cycle == 256 then NextFineY(NextCoarseX(regs.v)) else NextCoarseX(regs.v))
      ensures old(BgPhase()) != 7 ==> unchanged(patternPipeline, palettePipeline) && regs.v == old(regs.v)
      ensures old(BgPhase()) !in {1, 3, 5, 7} ==> buffers == old(buffers)
      ensures Valid() && bus.Valid()
      ensures old(BgPhase()) == 5 ==> bus.cartridge.ChrReadEffect(old(BackgroundTileRow(false)))
      ensures old(BgPhase()) == 7 ==> bus.cartridge.ChrReadEffect(old(BackgroundTileRow(true)))
      ensures old(BgPhase()) !in {5, 7} ==> unchanged(bus.cartridge.Boards)
    {
      var phase := BgPhase();
      if phase == 1 {
        buffers := buffers.(nt := bus.ReadNameTables(TileAddress(regs.v)));
      } else if phase == 3 {
        buffers := buffers.(at := bus.ReadNameTables(AttributeAddress(regs.v)));
      } else if phase == 5 {
        var lo := bus.ReadChrMem(BackgroundTileRow(false));
        buffers := buffers.(bgLo := lo);
      } else if phase == 7 {
        FetchHighPlane(bus);
      }
    }

    /** Where the current dot is within the eight-dot fetch cycle. */
    function BgPhase(): (phase: int)
      requires 1 <= timing.cycle
      reads this
      ensures 0 <= phase < 8
    {
      (timing.cycle - 1) % 8
    }

    /** The address of one plane of the latched tile's row at v's fine Y. */
    function BackgroundTileRow(hi: bool): bv16
      reads this
    {
      BackgroundPatternAddress(regs.ctrl, buffers.nt, regs.v, hi)
    }

    /** The eighth dot: the high plane, the shift registers fed, and v stepped. */
    method FetchHighPlane(bus: Bus.PpuBus)
      requires Valid() && bus.Valid() && Apart(bus)
      modifies this, patternPipeline, palettePipeline, bus.cartridge.Boards
      ensures timing == old(timing) && evaluation == old(evaluation) && spriteZeroHitState == old(spriteZeroHitState)
      ensures regs.(v := old(regs.v)) == old(regs)
      ensures unchanged(bus.nameTables)
      ensures buffers == old(buffers).(bgHi := old(bus.cartridge.PeekChr(BackgroundTileRow(true))))
      ensures patternPipeline[0] == ShiftIn(old(patternPipeline[0]), old(buffers.bgLo))
      ensures patternPipeline[1] == ShiftIn(old(patternPipeline[1]), buffers.bgHi)
      ensures palettePipeline[0] == SpreadIn(old(palettePipeline[0]), QuadrantBits(old(buffers.at), old(regs.v)) & 1 == 1)
      ensures palettePipeline[1] == SpreadIn(old(palettePipeline[1]), QuadrantBits(old(buffers.at), old(regs.v)) & 2 == 2)
      ensures regs.v == old(if timing.cycle == 256 then NextFineY(NextCoarseX(regs.v)) else NextCoarseX(regs.v))
      ensures Valid() && bus.Valid()
      ensures bus.cartridge.ChrReadEffect(old(BackgroundTileRow(true)))
    {
      var at, lo, v := buffers.at, buffers.bgLo, regs.v;
      LatchHighPlane(bus);
      FeedBackground(at, lo, buffers.bgHi, v);
      NextTile();
    }

    /** v moves one tile right, and at dot 256 one row down as well. */
    method NextTile()
      modifies this
      ensures timing == old(timing) && evaluation == old(evaluation) && spriteZeroHitState == old(spriteZeroHitState)
      ensures buffers == old(buffers)
      ensures regs == old(regs).(v := if timing.cycle == 256 then NextFineY(NextCoarseX(old(regs.v))) else NextCoarseX(old(regs.v)))
    {
      var next := NextCoarseX(regs.v);
      regs := regs.(v := if timing.cycle == 256 then NextFineY(next) else next);
    }

    /** The high plane of the latched tile's row, read through the bus into its buffer. */
    method LatchHighPlane(bus: Bus.PpuBus)
      requires Valid() && bus.Valid() && Apart(bus)
      modifies this, bus.cartridge.Boards
      ensures timing == old(timing) && evaluation == old(evaluation) && spriteZeroHitState == old(spriteZeroHitState)
      ensures regs == old(regs)
      ensures unchanged(bus.nameTables)
      ensures buffers == old(buffers).(bgHi := old(bus.cartridge.PeekChr(BackgroundTileRow(true))))
      ensures bus.Valid()
      ensures bus.cartridge.ChrReadEffect(old(BackgroundTileRow(true)))
    {
      var hi := bus.ReadChrMem(BackgroundTileRow(true));
      buffers := buffers.(bgHi := hi);
    }

    /** A tile's two planes, and its palette bits spread over the tile, go into the low bytes of the shift registers. */
    method FeedBackground(at: bv8, lo: bv8, hi: bv8, v: bv16)
      requires Valid()
      modifies patternPipeline, palettePipeline
      ensures patternPipeline[0] == ShiftIn(old(patternPipeline[0]), lo)
      ensures patternPipeline[1] == ShiftIn(old(patternPipeline[1]), hi)
      ensures palettePipeline[0] == SpreadIn(old(palettePipeline[0]), QuadrantBits(at, v) & 1 == 1)
      ensures palettePipeline[1] == SpreadIn(old(palettePipeline[1]), QuadrantBits(at, v) & 2 == 2)
    {
      patternPipeline[0] := ShiftIn(patternPipeline[0], lo);
      patternPipeline[1] := ShiftIn(patternPipeline[1], hi);
      var bits := QuadrantBits(at, v);
      palettePipeline[0] := SpreadIn(palettePipeline[0], bits & 1 == 1);
      palettePipeline[1] := SpreadIn(palettePipeline[1], bits & 2 == 2);
    }

    // -------------------------------------------------------------------
    // Sprite evaluation and fetches

    /**
     * The sprite side of a visible scanline's dot: evaluation starts on dot
     * 0, dots 1-64 clear the secondary OAM, dots 65-256 evaluate, dots 257-320
     * fetch the eight selected sprites.
     */
    method SpritesLoadCycle(bus: Bus.PpuBus)
      requires Valid() && bus.Valid() && Apart(bus) && 0 <= timing.scanline <= 239
      modifies this, secondaryOam, spritesAttributes, spritesXCounter, spritesPipeline,
               bus.cartridge.Boards
      ensures regs.(status := old(regs.status)) == old(regs) && timing == old(timing)
      ensures (regs.status == old(regs.status) || regs.status == old(regs.status) | SPRITE_OVERFLOW)
      ensures unchanged(bus.nameTables)
      ensures timing.cycle == 0 ==>
        evaluation == old(evaluation).(state := CheckY, oamPointer := 0, secondaryPointer := 0) && unchanged(secondaryOam)
      ensures 1 <= timing.cycle <= 64 ==>
        evaluation == old(evaluation) &&
        secondaryOam[..] == if timing.cycle % 2 == 0 then old(secondaryOam[..])[(timing.cycle - 1) / 2 := 0xFF] else old(secondaryOam[..])
      ensures !(65 <= timing.cycle <= 256) ==> spriteZeroHitState == old(spriteZeroHitState) && regs == old(regs)
      ensures 65 <= timing.cycle <= 256 ==> Evaluated()
      ensures timing.cycle <= 256 ==> buffers == old(buffers) && unchanged(spritesAttributes, spritesXCounter, spritesPipeline)
      ensures 257 <= timing.cycle ==> evaluation == old(evaluation) && unchanged(secondaryOam)
      ensures timing.cycle > 320 ==> buffers == old(buffers) && unchanged(spritesAttributes, spritesXCounter, spritesPipeline)
      ensures Valid() && bus.Valid()
    {
      if timing.cycle == 0 {
        evaluation := evaluation.(state := CheckY, oamPointer := 0, secondaryPointer := 0);
      } else if timing.cycle <= 64 {
        if timing.cycle % 2 == 0 {
          secondaryOam[(timing.cycle - 1) / 2] := 0xFF;
        }
      } else if timing.cycle <= 256 {
        EvaluationCycle();
      } else if timing.cycle <= 320 {
        FetchCycle(bus);
      }
    }

    /**
     * What a dot of evaluation did: an odd dot latches the OAM byte under the
     * pointers; an even dot stores the latch into the secondary OAM, takes
     * the step EvenStep gives, notes sprite 0 and raises SPRITE_OVERFLOW.
     */
    twostate predicate Evaluated()
      requires Valid() && 0 <= old(timing.scanline) <= 239
      reads this, Repr
    {
      if old(timing.cycle) % 2 == 1 then OamByteLatched() else EvaluationStepped()
    }

    /** The odd dot: the latch takes the OAM byte under the pointers, if evaluation is still on. */
    twostate predicate OamByteLatched()
      requires Valid()
      reads this, Repr
    {
      evaluation == (match OamReadIndex(old(evaluation))
                     case None => old(evaluation)
                     case Some(i) => old(evaluation).(latch := old(oamData[i]))) &&
      unchanged(secondaryOam) && spriteZeroHitState == old(spriteZeroHitState) && regs == old(regs)
    }

    /** The even dot, with `hit` whether the latched Y covers the scanline. */
    twostate predicate EvaluationStepped()
      requires Valid() && 0 <= old(timing.scanline) <= 239
      reads this, Repr
    {
      var e := old(evaluation);
      var hit := old(InRangeNow(evaluation));
      evaluation == EvenStep(e, hit) &&
      secondaryOam[..] == (match SecondaryWriteIndex(e)
                           case None => old(secondaryOam[..])
                           case Some(i) => old(secondaryOam[..])[i := e.latch]) &&
      spriteZeroHitState == (if FindsSpriteZero(e, hit) then ZeroHitFound(old(spriteZeroHitState)) else old(spriteZeroHitState)) &&
      regs == old(regs).(status := if Overflows(e, hit) then old(regs.status) | SPRITE_OVERFLOW else old(regs.status))
    }

    /** Whether a sprite whose Y byte is `e`'s latch covers the current scanline. */
    function InRangeNow(e: Evaluation): bool
      requires 0 <= timing.scanline <= 239
      reads this
    {
      InRange(Bv8(timing.scanline), e.latch, SpriteSize(regs.ctrl))
    }

    method EvaluationCycle()
      requires Valid() && 0 <= timing.scanline <= 239 && 65 <= timing.cycle <= 256
      modifies this, secondaryOam
      ensures Evaluated()
      ensures Valid() && timing == old(timing) && buffers == old(buffers)
    {
      if timing.cycle % 2 == 1 {
        EvaluationRead();
      } else {
        EvaluationWrite();
      }
    }

    method EvaluationRead()
      requires Valid()
      modifies this
      ensures OamByteLatched()
      ensures Valid() && timing == old(timing) && buffers == old(buffers)
    {
      var i := OamReadIndex(evaluation);
      if i.Some? {
        evaluation := evaluation.(latch := oamData[i.value]);
      }
    }

    method EvaluationWrite()
      requires Valid() && 0 <= timing.scanline <= 239
      modifies this, secondaryOam
      ensures evaluation == EvenStep(old(evaluation), old(InRangeNow(evaluation)))
      ensures secondaryOam[..] == match SecondaryWriteIndex(old(evaluation))
                                  case None => old(secondaryOam[..])
                                  case Some(i) => old(secondaryOam[..])[i := old(evaluation).latch]
      ensures spriteZeroHitState == if FindsSpriteZero(old(evaluation), old(InRangeNow(evaluation)))
                                    then ZeroHitFound(old(spriteZeroHitState)) else old(spriteZeroHitState)
      ensures regs == old(regs).(status := if Overflows(old(evaluation), old(InRangeNow(evaluation)))
                                           then old(regs.status) | SPRITE_OVERFLOW else old(regs.status))
      ensures EvaluationStepped()
      ensures Valid() && timing == old(timing) && buffers == old(buffers)
    {
      var e := evaluation;
      var hit := InRangeNow(e);
      var w := SecondaryWriteIndex(e);
      if w.Some? {
        secondaryOam[w.value] := e.latch;
      }
      if FindsSpriteZero(e, hit) {
        spriteZeroHitState := ZeroHitFound(spriteZeroHitState);
      }
      if Overflows(e, hit) {
        regs := regs.(status := regs.status | SPRITE_OVERFLOW);
      }
      evaluation := EvenStep(e, hit);
    }

    /**
     * One dot of the sprite fetches, eight dots per selected sprite: its Y,
     * tile and attribute bytes, then its X counter, then its two pattern
     * planes, mirrored as its attributes say.
     */
    method FetchCycle(bus: Bus.PpuBus)
      requires Valid() && bus.Valid() && Apart(bus) && 0 <= timing.scanline <= 239 && 257 <= timing.cycle <= 320
      modifies this, spritesAttributes, spritesXCounter, spritesPipeline, bus.cartridge.Boards
      ensures regs == old(regs) && timing == old(timing) && evaluation == old(evaluation)
      ensures spriteZeroHitState == old(spriteZeroHitState)
      ensures unchanged(bus.nameTables)
      ensures old(BgPhase()) == 0 ==> buffers == old(buffers).(oamTempY := old(secondaryOam[4 * Slot()]))
      ensures old(BgPhase()) == 1 ==> buffers == old(buffers).(oamTempTile := old(secondaryOam[4 * Slot() + 1]))
      ensures old(BgPhase()) >= 2 ==> buffers == old(buffers)
      ensures old(BgPhase()) == 2 ==> spritesAttributes[..] == old(spritesAttributes[..][Slot() := secondaryOam[4 * Slot() + 2]])
      ensures old(BgPhase()) != 2 ==> unchanged(spritesAttributes)
      ensures old(BgPhase()) == 3 ==> spritesXCounter[..] == old(spritesXCounter[..][Slot() := SlotCounter(Slot())])
      ensures old(BgPhase()) != 3 ==> unchanged(spritesXCounter)
      ensures old(BgPhase()) == 5 ==> spritesPipeline[..] == old(spritesPipeline[..][Slot() := FetchedRow(bus, Slot(), false)])
      ensures old(BgPhase()) == 7 ==> spritesPipeline[..] == old(spritesPipeline[..][8 + Slot() := FetchedRow(bus, Slot(), true)])
      ensures old(BgPhase()) != 5 && old(BgPhase()) != 7 ==> unchanged(spritesPipeline)
      ensures Valid() && bus.Valid()
    {
      var idx := Slot();
      var phase := BgPhase();
      if phase == 0 {
        buffers := buffers.(oamTempY := secondaryOam[4 * idx]);
      } else if phase == 1 {
        buffers := buffers.(oamTempTile := secondaryOam[4 * idx + 1]);
      } else if phase == 2 {
        spritesAttributes[idx] := secondaryOam[4 * idx + 2];
      } else if phase == 3 {
        spritesXCounter[idx] := SlotCounter(idx);
      } else if phase == 5 || phase == 7 {
        FetchSpritePlane(bus, idx, phase == 7);
      }
    }

    /** The sprite slot the current fetch dot works on. */
    function Slot(): (idx: nat)
      requires 257 <= timing.cycle <= 320
      reads this
      ensures idx < 8
    {
      (timing.cycle - 257) / 8
    }

    /** The X counter slot `idx` gets from its secondary OAM X byte and the latched Y. */
    function SlotCounter(idx: nat): XCounter
      requires Valid() && idx < 8 && 0 <= timing.scanline <= 239
      reads this, secondaryOam
    {
      FetchedCounter(Bv16(timing.scanline), buffers.oamTempY, secondaryOam[4 * idx + 3], regs.ctrl)
    }

    /** The pattern address of one plane of slot `idx`'s row on the current scanline. */
    function SpriteRowAddress(idx: nat, hi: bool): bv16
      requires Valid() && idx < 8 && 0 <= timing.scanline <= 239
      reads this, spritesAttributes
    {
      SpritePatternAddress(regs.ctrl, buffers.oamTempTile, spritesAttributes[idx],
                           Bv16(timing.scanline) - Widen(buffers.oamTempY), hi)
    }

    /** One plane of slot `idx`'s row, mirrored as its attributes say. */
    function FetchedRow(bus: Bus.PpuBus, idx: nat, hi: bool): bv8
      requires Valid() && bus.Valid() && idx < 8 && 0 <= timing.scanline <= 239
      reads this, spritesAttributes, bus, bus.cartridge, bus.cartridge.Repr
    {
      SpriteRow(spritesAttributes[idx], bus.cartridge.PeekChr(SpriteRowAddress(idx, hi)))
    }

    /** The fifth or eighth dot of a slot: fetch a pattern plane into its shift register. */
    method FetchSpritePlane(bus: Bus.PpuBus, idx: nat, hi: bool)
      requires Valid() && bus.Valid() && Apart(bus) && idx < 8 && 0 <= timing.scanline <= 239
      modifies spritesPipeline, bus.cartridge.Boards
      ensures unchanged(bus.nameTables)
      ensures spritesPipeline[..] == old(spritesPipeline[..][if hi then 8 + idx else idx := FetchedRow(bus, idx, hi)])
      ensures Valid() && bus.Valid()
      ensures bus.cartridge.ChrReadEffect(old(SpriteRowAddress(idx, hi)))
    {
      var attributes := spritesAttributes[idx];
      var row := bus.ReadChrMem(SpriteRowAddress(idx, hi));
      spritesPipeline[if hi then 8 + idx else idx] := SpriteRow(attributes, row);
    }
  }

  /** A shift register with a pattern plane byte in its (cleared) low half. */
  function ShiftIn(w: bv16, plane: bv8): bv16
  {
    w | Widen(plane)
  }

  /** A palette shift register with one palette bit repeated over its low half. */
  function SpreadIn(w: bv16, bit: bool): bv16
  {
    w | Spread(bit)
  }

  /** The palette bits an attribute byte gives the tile at v. */
  function QuadrantBits(at: bv8, v: bv16): bv8
  {
    AttributeBits(at, CoarseX(v), CoarseY(v))
  }

  /** Every element of `s` is `x`. */
  ghost predicate AllAre<T>(s: seq<T>, x: T)
  {
    forall i :: 0 <= i < |s| ==> s[i] == x
  }

  /** Where a PPU address lands in the nametable memory under a mirroring mode. */
  function MirrorAt(m: Mapping.Mirroring, a: bv16): bv16
    requires a & 0x2000 != 0
  {
    Bus.MirrorNameTables(m, a)
  }

  /** The OAM byte the `k`-th DMA byte lands in, starting from OAMADDR `start`. */
  function DmaSlot(start: nat, k: nat): (slot: nat)
    requires start < 256 && k <= 256
    ensures slot < 256 && slot == (start + k) % 256
  {
    if start + k < 256 then start + k else start + k - 256
  }

  /** Every OAM byte receives one of the DMA bytes. */
  lemma DmaCoversOam(start: nat, j: nat)
    requires start < 256 && j < 256
    ensures exists k :: 0 <= k < 256 && DmaSlot(start, k) == j
  {
    var k := if j >= start then j - start else j + 256 - start;
    assert DmaSlot(start, k) == j;
  }

  /** Stepping an 8-bit OAMADDR wraps at 256. */
  lemma WrapSucc(b: bv8)
    ensures Nat8(b + 1) == (Nat8(b) + 1) % 256
  {
    if b == 0xFF {
      assert b + 1 == 0;
    } else {
      SuccNat8(b);
    }
  }
}
