/**
 * The earlier PPU of nestadia-core: eight registers behind $2000-$2007, a
 * 32-byte palette, 256 bytes of OAM, the 14-bit VRAM address register, and
 * a dot counter of 341 dots on each of the scanlines -1..260. Rendering is
 * a per-dot background lookup plus a sprite dump at the end of the frame.
 */
module LegacyPpu {
  import opened Bits
  import opened Wrappers
  import opened VramAddress
  import R = PpuRegisters
  import PpuSpec
  import NesPpu = Ppu
  import Bus

  // ---------------------------------------------------------------------
  // The dot counter

  /** `cycle_count` and `scanline`. */
  datatype Position = Position(cycle: int, scanline: int)

  /** The positions `clock` can reach: dots 0..340, scanlines -1 (pre-render) to 260. */
  type DotPosition = p: Position | 0 <= p.cycle <= 340 && -1 <= p.scanline <= 260 witness Position(0, 0)

  /** The scanline after `scanline`: reaching 261 is going back to the pre-render line. */
  function NextLine(scanline: int): (n: int)
    requires -1 <= scanline <= 260
    ensures -1 <= n <= 260
  {
    if scanline + 1 >= 261 then -1 else scanline + 1
  }

  /** The counters after one `clock`: the dot advances, and dot 341 is dot 0 of the next line. */
  function Tick(p: DotPosition): (n: DotPosition)
    ensures p.cycle < 340 ==> n == Position(p.cycle + 1, p.scanline)
    ensures p.cycle == 340 ==> n == Position(0, NextLine(p.scanline))
  {
    if p.cycle + 1 >= 341 then Position(0, NextLine(p.scanline)) else Position(p.cycle + 1, p.scanline)
  }

  /** The last dot of a line: the next `clock` starts a new line and ticks the scanline IRQ. */
  predicate Rollover(p: Position)
  {
    p.cycle == 340
  }

  /** The counters after `n` calls of `clock`. */
  function Ticks(p: DotPosition, n: nat): DotPosition
    decreases n
  {
    if n == 0 then p else Ticks(Tick(p), n - 1)
  }

  /** `ready_frame`'s condition: dot 0 of the pre-render line. */
  predicate FrameReady(p: Position)
  {
    p.cycle == 0 && p.scanline == -1
  }

  /** The frame is ready after exactly one of the 341 × 262 dots: the last dot of line 260. */
  lemma ReadyAfterLastDot(p: DotPosition)
    ensures FrameReady(Tick(p)) <==> p == Position(340, 260)
  {
  }

  lemma {:induction false} TicksAdd(p: DotPosition, a: nat, b: nat)
    ensures Ticks(p, a + b) == Ticks(Ticks(p, a), b)
    decreases a
  {
    if a > 0 {
      TicksAdd(Tick(p), a - 1, b);
    }
  }

  /** From dot `c` the line ends after 341 - c calls, at dot 0 of the next line. */
  lemma {:induction false} RestOfLine(c: int, s: int)
    requires 0 <= c <= 340 && -1 <= s <= 260
    ensures Ticks(Position(c, s), 341 - c) == Position(0, NextLine(s))
    decreases 340 - c
  {
    if c < 340 {
      RestOfLine(c + 1, s);
    }
  }

  /** The scanline `k` lines after `s`. */
  function Lines(s: int, k: nat): (r: int)
    requires -1 <= s <= 260
    ensures -1 <= r <= 260
    decreases k
  {
    if k == 0 then s else Lines(NextLine(s), k - 1)
  }

  /** 341 calls per line. */
  lemma {:induction false} WholeLines(s: int, k: nat)
    requires -1 <= s <= 260
    ensures Ticks(Position(0, s), 341 * k) == Position(0, Lines(s, k))
    decreases k
  {
    if k > 0 {
      RestOfLine(0, s);
      assert 341 * k == 341 + 341 * (k - 1);
      TicksAdd(Position(0, s), 341, 341 * (k - 1));
      WholeLines(NextLine(s), k - 1);
    }
  }

  /** From line `s`, 261 - s lines later is the pre-render line again. */
  lemma {:induction false} LinesToPreRender(s: int)
    requires -1 <= s <= 260
    ensures Lines(s, 261 - s) == -1
    decreases 260 - s
  {
    if s < 260 {
      LinesToPreRender(s + 1);
    }
  }

  /** A frame is 341 × 262 calls of `clock`: they bring the counters back to where the frame is ready. */
  lemma FramePeriod(n: nat)
    requires n == 341 * 262
    ensures Ticks(Position(0, -1), n) == Position(0, -1)
    ensures FrameReady(Ticks(Position(0, -1), n))
  {
    WholeLines(-1, 262);
    LinesToPreRender(-1);
  }

  // ---------------------------------------------------------------------
  // Registers

  /**
   * PPUSCROLL. Its type is not part of this model; it is taken as the
   * usual two-write latch: X first, then Y.
   */
  datatype Scroll = Scroll(x: bv8, y: bv8, writeY: bool)

  function ScrollWritten(s: Scroll, data: bv8): (r: Scroll)
    ensures r.writeY == !s.writeY
    ensures s.writeY ==> r.y == data && r.x == s.x
    ensures !s.writeY ==> r.x == data && r.y == s.y
  {
    if s.writeY then s.(y := data, writeY := false) else s.(x := data, writeY := true)
  }

  /** After a latch reset, two writes set X and Y and leave the latch where it started. */
  lemma ScrollPair(s: Scroll, x: bv8, y: bv8)
    ensures ScrollWritten(ScrollWritten(s.(writeY := false), x), y) == Scroll(x, y, false)
  {
  }

  /** PPUCTRL, PPUMASK, PPUSTATUS, OAMADDR, PPUSCROLL, the last byte fetched for PPUDATA, and the NMI latch. */
  datatype Regs = Regs(ctrl: bv8, mask: bv8, status: bv8, oamAddr: bv8, scroll: Scroll, lastData: bv8, nmi: bool)

  /** The registers after `new` or `reset`, which keeps the last fetched byte. */
  function ResetRegs(lastData: bv8): Regs
  {
    Regs(0, 0, 0, 0, Scroll(0, 0, false), lastData, false)
  }

  predicate VblankFlag(status: bv8)
  {
    NesPpu.Ppu.VblankFlag(status)
  }

  /** Only the three flags are ever set, and vertical blank is flagged only on lines 241..260. */
  predicate StatusAgrees(r: Regs, p: Position)
  {
    r.status & 0x1F == 0 && (VblankFlag(r.status) ==> 241 <= p.scanline <= 260)
  }

  /**
   * A PPUCTRL write: the byte becomes PPUCTRL, and turning GENERATE_NMI on
   * while vertical blank is flagged latches an NMI.
   */
  function ControlWritten(r: Regs, data: bv8): (n: Regs)
    ensures n.(nmi := r.nmi) == r.(ctrl := data)
    ensures n.nmi <==> r.nmi || (r.ctrl & R.GENERATE_NMI == 0 && data & R.GENERATE_NMI != 0 && VblankFlag(r.status))
  {
    var rises := r.ctrl & R.GENERATE_NMI == 0 && data & R.GENERATE_NMI != 0;
    r.(ctrl := data, nmi := r.nmi || (rises && VblankFlag(r.status)))
  }

  /** Writing PPUCTRL again with GENERATE_NMI already on latches nothing, in vertical blank or not. */
  lemma ControlRewriteLatchesNothing(r: Regs, data: bv8)
    requires r.ctrl & R.GENERATE_NMI != 0
    ensures ControlWritten(r, data).nmi == r.nmi
  {
  }

  /** The registers after a write to register `reg` other than PPUDATA. */
  function RegsWritten(r: Regs, reg: bv16, data: bv8): Regs
  {
    if reg == 0 then ControlWritten(r, data)
    else if reg == 1 then r.(mask := data)
    else if reg == 3 then r.(oamAddr := data)
    else if reg == 4 then r.(oamAddr := r.oamAddr + 1)
    else if reg == 5 then r.(scroll := ScrollWritten(r.scroll, data))
    else r
  }

  /** PPUSTATUS as read: the flags in the top three bits over the low five bits of the last fetched byte. */
  function StatusSnapshot(r: Regs): (v: bv8)
    ensures r.status & 0x1F == 0 ==> v & 0xE0 == r.status && v & 0x1F == r.lastData & 0x1F
  {
    r.status | (r.lastData & 0x1F)
  }

  /** The registers after a status read: vertical blank cleared and the scroll latch reset. */
  function StatusCleared(r: Regs): (n: Regs)
    ensures !VblankFlag(n.status)
    ensures n.status | R.VBLANK_STARTED == r.status | R.VBLANK_STARTED
    ensures n == r.(status := n.status, scroll := r.scroll.(writeY := false))
  {
    r.(status := r.status & !R.VBLANK_STARTED, scroll := r.scroll.(writeY := false))
  }

  /** `vram_addr_increment`, as the byte `inc` takes: 32 with PPUCTRL bit 2, else 1. */
  function Step(ctrl: bv8): (s: bv8)
    ensures Widen(s) == R.VramAddrIncrement(ctrl)
  {
    if ctrl & R.VRAM_ADDR_INCREMENT == R.VRAM_ADDR_INCREMENT then 32 else 1
  }

  /** `is_sprite_0_hit`, tested with the dot already at 341: sprite 0's Y is the scanline, its X is at most the dot, sprites shown. */
  predicate SpriteZeroHit(r: Regs, p: Position, spriteY: bv8, spriteX: bv8)
  {
    Nat8(spriteY) == p.scanline && Nat8(spriteX) <= p.cycle + 1 && r.mask & R.SHOW_SPRITES != 0
  }

  /** The status after the sprite-0 test at the end of a line: the hit flag is raised on a hit, nothing else changes. */
  function AfterZeroHitTest(status: bv8, hit: bool): (s: bv8)
    ensures s & 0x1F == status & 0x1F
    ensures VblankFlag(s) == VblankFlag(status)
    ensures hit ==> s & R.SPRITE_ZERO_HIT != 0
    ensures !hit ==> s == status
  {
    if hit then status | R.SPRITE_ZERO_HIT else status
  }

  /** Entering line 241: vertical blank flagged, sprite-0 hit cleared. */
  function EnterVblank(status: bv8): (s: bv8)
    ensures s & 0x1F == status & 0x1F
    ensures VblankFlag(s) && s & R.SPRITE_ZERO_HIT == 0
  {
    (status | R.VBLANK_STARTED) & !R.SPRITE_ZERO_HIT
  }

  /** Leaving line 260: vertical blank cleared. */
  function LeaveVblank(status: bv8): (s: bv8)
    ensures s & 0x1F == status & 0x1F
    ensures !VblankFlag(s) && s | R.VBLANK_STARTED == status | R.VBLANK_STARTED
  {
    status & !R.VBLANK_STARTED
  }

  /** Whether PPUCTRL asks for an NMI at the start of vertical blank. */
  predicate NmiEnabled(ctrl: bv8)
  {
    ctrl & R.GENERATE_NMI != 0
  }

  /**
   * The flags at the end of line `scanline`: the sprite-0 test; then
   * entering line 241 flags vertical blank, clears sprite-0 hit and latches
   * an NMI if PPUCTRL asks for one, and leaving line 260 clears vertical
   * blank.
   */
  function LineEnd(r: Regs, scanline: int, hit: bool): (n: Regs)
    ensures n.(status := r.status, nmi := r.nmi) == r
  {
    var status := AfterZeroHitTest(r.status, hit);
    if scanline + 1 == 241 then r.(status := EnterVblank(status), nmi := r.nmi || NmiEnabled(r.ctrl))
    else if scanline + 1 >= 261 then r.(status := LeaveVblank(status))
    else r.(status := status)
  }

  /** The registers after one `clock`: only the end of a line changes them, and only the flags and the NMI latch. */
  function ClockRegs(r: Regs, p: DotPosition, spriteY: bv8, spriteX: bv8): (n: Regs)
    ensures !Rollover(p) ==> n == r
    ensures n.(status := r.status, nmi := r.nmi) == r
  {
    if Rollover(p) then LineEnd(r, p.scanline, SpriteZeroHit(r, p, spriteY, spriteX)) else r
  }

  /** Entering line 241 flags vertical blank, clears sprite-0 hit and latches an NMI if PPUCTRL asks for one. */
  lemma ClockEntersVblank(r: Regs, p: DotPosition, spriteY: bv8, spriteX: bv8)
    requires Rollover(p) && p.scanline == 240
    ensures var n := ClockRegs(r, p, spriteY, spriteX);
      VblankFlag(n.status) && n.status & R.SPRITE_ZERO_HIT == 0 && (n.nmi <==> r.nmi || NmiEnabled(r.ctrl))
  {
  }

  /** Leaving line 260 clears vertical blank. */
  lemma ClockLeavesVblank(r: Regs, p: DotPosition, spriteY: bv8, spriteX: bv8)
    requires Rollover(p) && p.scanline == 260
    ensures !VblankFlag(ClockRegs(r, p, spriteY, spriteX).status)
  {
  }

  /** Only entering line 241 latches an NMI. */
  lemma ClockLatchesNmiOnlyAtVblank(r: Regs, p: DotPosition, spriteY: bv8, spriteX: bv8)
    requires !(Rollover(p) && p.scanline == 240)
    ensures ClockRegs(r, p, spriteY, spriteX).nmi == r.nmi
  {
  }

  /** The end of any other line only runs the sprite-0 test. */
  lemma ClockOtherLines(r: Regs, p: DotPosition, spriteY: bv8, spriteX: bv8)
    requires Rollover(p) && p.scanline != 240 && p.scanline != 260
    ensures ClockRegs(r, p, spriteY, spriteX).status == AfterZeroHitTest(r.status, SpriteZeroHit(r, p, spriteY, spriteX))
  {
  }

  /** A clock keeps the status flags in step with the scanline. */
  lemma ClockKeepsStatus(r: Regs, p: DotPosition, spriteY: bv8, spriteX: bv8)
    requires StatusAgrees(r, p)
    ensures StatusAgrees(ClockRegs(r, p, spriteY, spriteX), Tick(p))
  {
  }

  // ---------------------------------------------------------------------
  // Palette indices

  /** The sprite palettes' entry 0, which the palette shares with the background palettes. */
  predicate SpriteBackdrop(a: bv16)
  {
    a == 0x3F10 || a == 0x3F14 || a == 0x3F18 || a == 0x3F1C
  }

  /**
   * The entry a PPUDATA write to $3F00-$3FFF stores to: $3F10, $3F14, $3F18
   * and $3F1C land on $3F00, $3F04, $3F08 and $3F0C; any other address
   * takes its offset mod 32.
   */
  function PaletteWriteIndex(a: bv16): (i: nat)
    requires a >= 0x3F00
    ensures i < 32
    ensures SpriteBackdrop(a) ==> i == Nat16(a & 0x0F)
    ensures !SpriteBackdrop(a) ==> i == Nat16(a & 0x1F)
  {
    if SpriteBackdrop(a) then Nat16((a - 0x0010) % 32) else Nat16(a % 32)
  }

  /** The entry a PPUDATA read of $3F00-$3FFF indexes, as written: the offset from $3F00 after the same aliases, with no mod 32. */
  function PaletteReadIndexAsWritten(a: bv16): (i: nat)
    requires 0x3F00 <= a <= 0x3FFF
    ensures i < 0x100
    ensures a <= 0x3F1F ==> i == PaletteWriteIndex(a)
  {
    if SpriteBackdrop(a) then Nat16(a - 0x10 - 0x3F00) else Nat16(a - 0x3F00)
  }

  /** From $3F20 on, the read index as written runs past the 32 entries, where the write wraps. */
  lemma PaletteReadOverruns()
    ensures PaletteReadIndexAsWritten(0x3F20) == 32
    ensures PaletteWriteIndex(0x3F20) == 0
  {
  }

  /**
   * The read index with the wrap the write applies: in range for every
   * palette address, the same as written where that is in range, and the
   * entry a write to the same address stores to.
   */
  function PaletteReadIndex(a: bv16): (i: nat)
    requires 0x3F00 <= a <= 0x3FFF
    ensures i < 32
    ensures a <= 0x3F1F ==> i == PaletteReadIndexAsWritten(a)
    ensures i == PaletteWriteIndex(a)
  {
    if SpriteBackdrop(a) then Nat16((a - 0x10 - 0x3F00) % 32) else Nat16((a - 0x3F00) % 32)
  }

  /** Each sprite backdrop address aliases the background entry 16 addresses below it. */
  lemma BackdropAliases(a: bv16)
    requires SpriteBackdrop(a)
    ensures PaletteWriteIndex(a) == PaletteWriteIndex(a - 0x10)
  {
  }

  // ---------------------------------------------------------------------
  // Background attributes

  /** `nametable_base_addr` (its type is not part of this model): $2000 plus $400 for each nametable number in bits 0-1. */
  function NametableBase(ctrl: bv8): (b: bv16)
    ensures b == 0x2000 || b == 0x2400 || b == 0x2800 || b == 0x2C00
  {
    0x2000 | (Widen(ctrl & R.NAMETABLE_ADDR) << 10)
  }

  /** Where `bg_palette` reads the attribute byte: the quadrant's attribute table, one byte per 4 × 4 tiles. */
  function AttributeAddress(ctrl: bv8, tileX: bv16, tileY: bv16, quadrant: bv8): (a: bv16)
    requires tileX < 32 && tileY < 32
    ensures a & 0x2000 != 0
    ensures var base := NametableBase(ctrl) + QuadrantOffset(quadrant);
      base <= a < base + 64
  {
    NametableBase(ctrl) + QuadrantOffset(quadrant) + (tileY / 4) * 8 + tileX / 4
  }

  /** The attribute table of each quadrant of the scrolled plane. */
  function QuadrantOffset(quadrant: bv8): (o: bv16)
    ensures o == 0x3C0 || o == 0x7C0 || o == 0xBC0 || o == 0xFC0
  {
    match quadrant & 3
    case 0 => 0x3C0
    case 1 => 0x7C0
    case 2 => 0xBC0
    case _ => 0xFC0
  }

  /**
   * The 2-bit palette of a tile: the two bits of the attribute byte for
   * the 2 × 2-tile quadrant ((tileX / 2) % 2, (tileY / 2) % 2).
   */
  function AttributePalette(attr: bv8, tileX: bv16, tileY: bv16): (p: bv8)
    ensures p < 4
  {
    var mx := (tileX / 2) % 2;
    var my := (tileY / 2) % 2;
    if mx == 0 && my == 0 then attr & 3
    else if mx == 1 && my == 0 then (attr >> 2) & 3
    else if mx == 0 then (attr >> 4) & 3
    else (attr >> 6) & 3
  }

  /** The four quadrants' palettes are the four bit pairs of the attribute byte: together they give it back. */
  lemma AttributeQuadrants(attr: bv8)
    ensures attr == AttributePalette(attr, 0, 0) | (AttributePalette(attr, 2, 0) << 2)
                    | (AttributePalette(attr, 0, 2) << 4) | (AttributePalette(attr, 2, 2) << 6)
  {
    assert AttributePalette(attr, 0, 0) == attr & 3;
    assert AttributePalette(attr, 2, 0) == (attr >> 2) & 3;
    assert AttributePalette(attr, 0, 2) == (attr >> 4) & 3;
    assert AttributePalette(attr, 2, 2) == (attr >> 6) & 3;
  }

  // ---------------------------------------------------------------------
  // The PPU

  class Ppu {
    const palette: array<bv8>
    const oam: array<bv8>
    const addrReg: VramAddr
    const frame: array<bv8>
    var regs: Regs
    var position: DotPosition
    /** The number of `bus.irq_scanline` calls so far. */
    ghost var scanlineIrqs: nat
    ghost const Repr: set<object>

    /** The memories have their sizes and are three arrays; the address is in range; the flags agree with the scanline. */
    ghost predicate Valid()
      reads this, addrReg
    {
      Repr == {this, palette, oam, addrReg, frame} &&
      palette.Length == 32 && oam.Length == 256 && frame.Length == NesPpu.FRAME_SIZE &&
      palette != oam && palette != frame && oam != frame &&
      addrReg.Valid() && StatusAgrees(regs, position)
    }

    /** The PPU shares nothing with the bus it reaches the pattern memory and nametables through. */
    ghost predicate Apart(bus: Bus.PpuBus)
      reads this
    {
      Repr !! ({bus.nameTables} + bus.cartridge.Repr)
    }

    /** The state `new` and `reset` leave: zeroed memories and registers, dot 0 of line 0. */
    ghost predicate Cleared()
      reads this, addrReg, palette, oam, frame
    {
      NesPpu.AllAre(palette[..], 0) && NesPpu.AllAre(oam[..], 0) && NesPpu.AllAre(frame[..], 0) &&
      regs == ResetRegs(regs.lastData) && position == Position(0, 0) &&
      addrReg.value == 0 && !addrReg.writeToLower
    }

    /** `new`. */
    constructor ()
      ensures Valid() && fresh(Repr) && Cleared() && regs.lastData == 0 && scanlineIrqs == 0
    {
      palette := new bv8[32](_ => 0);
      oam := new bv8[256](_ => 0);
      frame := new bv8[NesPpu.FRAME_SIZE](_ => 0);
      var a := new VramAddr();
      addrReg := a;
      regs := ResetRegs(0);
      position := Position(0, 0);
      scanlineIrqs := 0;
      Repr := {this, palette, oam, a, frame};
    }

    /** `reset`: everything but the last fetched byte goes back to its power-up value. */
    method Reset()
      requires Valid()
      modifies this, palette, oam, frame, addrReg
      ensures Valid() && Cleared()
      ensures regs.lastData == old(regs.lastData) && scanlineIrqs == old(scanlineIrqs)
    {
      forall i | 0 <= i < 32 { palette[i] := 0; }
      forall i | 0 <= i < 256 { oam[i] := 0; }
      forall i | 0 <= i < frame.Length { frame[i] := 0; }
      regs := ResetRegs(regs.lastData);
      addrReg.value, addrReg.writeToLower := 0, false;
      position := Position(0, 0);
    }

    /** `take_vblank_nmi_set_state`: the latch is returned and cleared. */
    method TakeVblankNmiSetState() returns (state: bool)
      requires Valid()
      modifies this
      ensures Valid()
      ensures state == old(regs.nmi) && regs == old(regs).(nmi := false)
      ensures position == old(position) && scanlineIrqs == old(scanlineIrqs)
    {
      state := regs.nmi;
      regs := regs.(nmi := false);
    }

    /** `ready_frame`: the frame, on dot 0 of the pre-render line. */
    function ReadyFrame(): (r: Option<seq<bv8>>)
      reads this, frame
      ensures r.Some? <==> FrameReady(position)
      ensures r.Some? ==> r.value == frame[..]
    {
      if position.cycle == 0 && position.scanline == -1 then Some(frame[..]) else None
    }

    // -------------------------------------------------------------------
    // CPU writes

    /** A CPU write to $2000-$3FFF, mirrored every 8 bytes. */
    method Write(bus: Bus.PpuBus, addr: bv16, data: bv8)
      requires Valid() && bus.Valid() && Apart(bus)
      modifies this, oam, addrReg, palette, bus.nameTables, bus.cartridge.chrMemory
      ensures Valid() && bus.Valid()
      ensures position == old(position) && scanlineIrqs == old(scanlineIrqs)
      ensures PpuSpec.Register(addr) != 7 ==> RegisterWritten(PpuSpec.Register(addr), data)
      ensures PpuSpec.Register(addr) != 7 ==> unchanged(palette, bus.nameTables, bus.cartridge.chrMemory)
      ensures PpuSpec.Register(addr) == 7 ==> regs == old(regs) && unchanged(oam) && DataWritten(bus, old(addrReg.value), data)
    {
      if PpuSpec.Register(addr) == 7 {
        WriteData(bus, data);
      } else {
        WriteRegister(PpuSpec.Register(addr), data);
      }
    }

    /** What a write to register `reg` (not PPUDATA) does to the registers, OAM and the address. */
    twostate predicate RegisterWritten(reg: bv16, data: bv8)
      requires Valid()
      reads this, oam, addrReg
    {
      regs == RegsWritten(old(regs), reg, data) &&
      oam[..] == (if reg == 4 then old(oam[..])[Nat8(old(regs.oamAddr)) := data] else old(oam[..])) &&
      (reg == 6 ==> addrReg.value == Loaded(old(addrReg.value), old(addrReg.writeToLower), data) &&
                    addrReg.writeToLower == !old(addrReg.writeToLower)) &&
      (reg != 6 ==> addrReg.value == old(addrReg.value) && addrReg.writeToLower == old(addrReg.writeToLower))
    }

    /** Registers 0-6: PPUCTRL, PPUMASK, nothing for PPUSTATUS, OAMADDR, OAMDATA, PPUSCROLL, PPUADDR. */
    method WriteRegister(reg: bv16, data: bv8)
      requires Valid() && reg < 7
      modifies this, oam, addrReg
      ensures Valid() && RegisterWritten(reg, data)
      ensures position == old(position) && scanlineIrqs == old(scanlineIrqs)
    {
      if reg == 4 {
        oam[Nat8(regs.oamAddr)] := data;
      } else if reg == 6 {
        addrReg.Load(data);
      }
      regs := RegsWritten(regs, reg, data);
    }

    /** What a PPUDATA write to PPU address `a` stores: pattern memory, a nametable, nothing, or a palette entry. */
    twostate predicate DataWritten(bus: Bus.PpuBus, a: bv16, data: bv8)
      requires bus.Valid() && old(bus.Valid()) && Valid() && old(Valid())
      reads this, Repr, bus, bus.nameTables, bus.cartridge, bus.cartridge.Repr
    {
      addrReg.value == Incremented(old(addrReg.value), Step(old(regs.ctrl))) &&
      addrReg.writeToLower == old(addrReg.writeToLower) &&
      (palette[..] == if a >= 0x3F00 then old(palette[..])[PaletteWriteIndex(a) := data] else old(palette[..])) &&
      (bus.nameTables[..] == if 0x2000 <= a <= 0x2FFF
                             then old(bus.nameTables[..])[Bus.MirrorNameTables(old(bus.cartridge.Mirroring()), a) := data]
                             else old(bus.nameTables[..])) &&
      (bus.cartridge.chrMemory[..] ==
         if a <= 0x1FFF && old(bus.cartridge.ChrWriteTarget(a)).Some? &&
            old(bus.cartridge.ChrWriteTarget(a)).value < bus.cartridge.chrMemory.Length
         then old(bus.cartridge.chrMemory[..])[old(bus.cartridge.ChrWriteTarget(a)).value := data]
         else old(bus.cartridge.chrMemory[..]))
    }

    /** The PPUDATA write: step the address, then store at the old one. */
    method WriteData(bus: Bus.PpuBus, data: bv8)
      requires Valid() && bus.Valid() && Apart(bus)
      modifies addrReg, palette, bus.nameTables, bus.cartridge.chrMemory
      ensures Valid() && bus.Valid()
      ensures DataWritten(bus, old(addrReg.value), data)
    {
      var writeAddr := addrReg.Get();
      IncrementVramAddr();
      if writeAddr <= 0x1FFF {
        bus.WriteChrMem(writeAddr, data);
      } else if writeAddr <= 0x2FFF {
        bus.WriteNameTables(writeAddr, data);
      } else if writeAddr <= 0x3EFF {
        // unused address space
      } else {
        palette[PaletteWriteIndex(writeAddr)] := data;
      }
    }

    /** `increment_vram_addr`: the address moves on by the PPUCTRL step. */
    method IncrementVramAddr()
      requires Valid()
      modifies addrReg
      ensures Valid()
      ensures addrReg.value == Incremented(old(addrReg.value), Step(regs.ctrl))
      ensures addrReg.writeToLower == old(addrReg.writeToLower)
    {
      addrReg.Inc(Step(regs.ctrl));
    }

    /**
     * OAM DMA: the 256 bytes go into OAM from OAMADDR on, wrapping at the
     * end of OAM; OAMADDR steps 256 times and so ends where it started.
     */
    method WriteOamDma(buffer: seq<bv8>)
      requires Valid() && |buffer| == 256
      modifies oam
      ensures Valid()
      ensures forall k :: 0 <= k < 256 ==> oam[NesPpu.DmaSlot(Nat8(old(regs.oamAddr)), k)] == buffer[k]
      ensures regs == old(regs) && position == old(position) && scanlineIrqs == old(scanlineIrqs)
    {
      // OAMADDR is stepped in a local copy, which after 256 steps is back where it started.
      var start := Nat8(regs.oamAddr);
      var addr := start;
      var i := 0;
      while i < 256
        invariant 0 <= i <= 256 && addr == NesPpu.DmaSlot(start, i)
        invariant forall k :: 0 <= k < i ==> oam[NesPpu.DmaSlot(start, k)] == buffer[k]
      {
        oam[addr] := buffer[i];
        addr := if addr == 255 then 0 else addr + 1;
        i := i + 1;
      }
    }

    // -------------------------------------------------------------------
    // CPU reads

    /** A CPU read of $2000-$3FFF, mirrored every 8 bytes. */
    method Read(bus: Bus.PpuBus, addr: bv16) returns (v: bv8)
      requires Valid() && bus.Valid() && Apart(bus)
      modifies this, addrReg, bus.cartridge.Boards
      ensures Valid() && bus.Valid()
      ensures position == old(position) && scanlineIrqs == old(scanlineIrqs) && unchanged(bus.nameTables)
      ensures PpuSpec.Register(addr) != 7 ==> RegisterRead(PpuSpec.Register(addr), v) && unchanged(bus.cartridge.Boards)
      ensures PpuSpec.Register(addr) == 7 ==> DataRead(bus, v)
    {
      if PpuSpec.Register(addr) == 7 {
        v := ReadData(bus);
      } else {
        v := ReadRegister(PpuSpec.Register(addr));
      }
    }

    /** What a read of register `reg` (not PPUDATA) returns and changes. */
    twostate predicate RegisterRead(reg: bv16, v: bv8)
      requires Valid()
      reads this, oam, addrReg
    {
      (reg == 2 ==> v == StatusSnapshot(old(regs)) && regs == StatusCleared(old(regs)) &&
                    addrReg.value == old(addrReg.value) && !addrReg.writeToLower) &&
      (reg == 4 ==> v == oam[Nat8(old(regs.oamAddr))]) &&
      (reg != 2 && reg != 4 ==> v == 0) &&
      (reg != 2 ==> regs == old(regs) && addrReg.value == old(addrReg.value) &&
                    addrReg.writeToLower == old(addrReg.writeToLower))
    }

    /** Registers 0-6: only PPUSTATUS and OAMDATA are readable; a status read clears vertical blank and both latches. */
    method ReadRegister(reg: bv16) returns (v: bv8)
      requires Valid() && reg < 7
      modifies this, addrReg
      ensures Valid() && RegisterRead(reg, v)
      ensures position == old(position) && scanlineIrqs == old(scanlineIrqs)
    {
      if reg == 2 {
        v := StatusSnapshot(regs);
        regs := StatusCleared(regs);
        addrReg.ResetLatch();
      } else if reg == 4 {
        v := oam[Nat8(regs.oamAddr)];
      } else {
        v := 0;
      }
    }

    /**
     * What a PPUDATA read returns and changes. The address steps; below
     * $3000 the read returns the byte fetched by the previous read and
     * fetches the byte at the address; $3000-$3EFF reads 0; the palette is
     * read directly.
     */
    twostate predicate DataRead(bus: Bus.PpuBus, v: bv8)
      requires bus.Valid() && old(bus.Valid()) && Valid() && old(Valid())
      reads this, palette, addrReg, bus, bus.nameTables, bus.cartridge, bus.cartridge.Repr
    {
      var a := old(addrReg.value);
      addrReg.value == Incremented(a, Step(old(regs.ctrl))) &&
      addrReg.writeToLower == old(addrReg.writeToLower) &&
      regs == old(regs).(lastData := regs.lastData) &&
      (a <= 0x1FFF ==> v == old(regs.lastData) && regs.lastData == old(bus.cartridge.PeekChr(a))) &&
      (0x2000 <= a <= 0x2FFF ==> v == old(regs.lastData) && regs.lastData == old(bus.ReadNameTables(a))) &&
      (0x3000 <= a <= 0x3EFF ==> v == 0 && regs.lastData == old(regs.lastData)) &&
      (0x3F00 <= a ==> v == palette[PaletteReadIndex(a)] && regs.lastData == old(regs.lastData)) &&
      (a <= 0x1FFF ==> bus.cartridge.ChrReadEffect(a)) &&
      (a > 0x1FFF ==> unchanged(bus.cartridge.Boards))
    }

    /** The PPUDATA read. */
    method ReadData(bus: Bus.PpuBus) returns (v: bv8)
      requires Valid() && bus.Valid() && Apart(bus)
      modifies this, addrReg, bus.cartridge.Boards
      ensures Valid() && bus.Valid() && DataRead(bus, v)
      ensures position == old(position) && scanlineIrqs == old(scanlineIrqs) && unchanged(bus.nameTables)
    {
      var readAddr := addrReg.Get();
      IncrementVramAddr();
      if readAddr <= 0x1FFF {
        v := regs.lastData;
        var fetched := bus.ReadChrMem(readAddr);
        regs := regs.(lastData := fetched);
      } else if readAddr <= 0x2FFF {
        v := regs.lastData;
        regs := regs.(lastData := bus.ReadNameTables(readAddr));
      } else if readAddr <= 0x3EFF {
        v := 0;
      } else {
        v := palette[PaletteReadIndex(readAddr)];
      }
    }

    // -------------------------------------------------------------------
    // The dot clock

    /**
     * `clock`: one dot. At the end of a line the dot goes back to 0, the
     * scanline advances and the scanline IRQ is ticked, with the flag
     * changes ClockRegs gives.
     */
    method Clock()
      requires Valid()
      modifies this
      ensures Valid()
      ensures position == Tick(old(position))
      ensures regs == ClockRegs(old(regs), old(position), oam[0], oam[3])
      ensures Rollover(old(position)) ==> scanlineIrqs == old(scanlineIrqs) + 1
      ensures !Rollover(old(position)) ==> scanlineIrqs == old(scanlineIrqs)
    {
      var spriteY, spriteX := oam[0], oam[3];
      ClockKeepsStatus(regs, position, spriteY, spriteX);
      var cycle := position.cycle + 1;
      if cycle >= 341 {
        scanlineIrqs := scanlineIrqs + 1;
        regs := LineEnd(regs, position.scanline, SpriteZeroHit(regs, position, spriteY, spriteX));
        var scanline := position.scanline + 1;
        if scanline >= 261 {
          scanline := -1;
        }
        position := Position(0, scanline);
      } else {
        position := Position(cycle, position.scanline);
      }
    }

    /**
     * `bg_palette`: the universal background colour followed by the three
     * colours of the palette the attribute byte gives the tile.
     */
    function BgPalette(bus: Bus.PpuBus, tileX: bv16, tileY: bv16, quadrant: bv8): (colors: seq<bv8>)
      requires Valid() && bus.Valid() && tileX < 32 && tileY < 32
      reads this, addrReg, palette, bus, bus.nameTables, bus.cartridge, bus.cartridge.Repr
      ensures |colors| == 4 && colors[0] == palette[0]
      ensures var p := Nat8(AttributePalette(bus.ReadNameTables(AttributeAddress(regs.ctrl, tileX, tileY, quadrant)), tileX, tileY));
        forall k :: 1 <= k < 4 ==> colors[k] == palette[4 * p + k]
    {
      var attr := bus.ReadNameTables(AttributeAddress(regs.ctrl, tileX, tileY, quadrant));
      var start := 1 + Nat8(AttributePalette(attr, tileX, tileY)) * 4;
      [palette[0], palette[start], palette[start + 1], palette[start + 2]]
    }
  }
}
