/**
 * The PPU's behaviour as functions of its register values: what a CPU write or
 * read of one of the eight registers at 0x2000-0x2007 does to them, where a
 * palette address lands, the dot/scanline counter, and the pixel and pattern
 * computations of the renderer.
 */
module PpuSpec {
  import opened Bits
  import opened PpuRegisters
  import opened Sprites
  import opened Wrappers

  // ---------------------------------------------------------------------
  // Registers

  /** The fine X scroll: three bits. */
  type FineX = x: bv8 | x < 8

  /**
   * The register file: PPUCTRL, PPUMASK, PPUSTATUS, OAMADDR, the current and
   * temporary VRAM addresses v and t, fine X, the shared write latch of
   * PPUSCROLL/PPUADDR, the PPUDATA read buffer and the pending-NMI flag.
   */
  datatype PpuRegs = PpuRegs(
    ctrl: bv8, mask: bv8, status: bv8, oamAddr: bv8,
    v: bv16, t: bv16, fineX: FineX, writeLatch: bool,
    lastData: bv8, nmi: bool)

  /** The register a CPU address selects: registers repeat every 8 bytes. */
  function Register(addr: bv16): (r: bv16)
    ensures r < 8
  {
    addr & 7
  }

  lemma RegisterMirrors(addr: bv16, k: bv16)
    ensures Register(addr + 8 * k) == Register(addr)
  {
    assert (addr + 8 * k) & 7 == addr & 7;
  }

  /**
   * PPUCTRL: the low two bits pick t's nametable, and turning GENERATE_NMI on
   * during vertical blank raises an NMI at once.
   */
  function CtrlWrite(r: PpuRegs, data: bv8): PpuRegs
  {
    var raise := r.ctrl & GENERATE_NMI == 0 && data & GENERATE_NMI != 0 && r.status & VBLANK_STARTED != 0;
    r.(ctrl := data, t := SetNametable(r.t, Widen(data & 3)), nmi := r.nmi || raise)
  }

  /** PPUSCROLL: the first write sets coarse and fine X, the second coarse and fine Y. */
  function ScrollWrite(r: PpuRegs, data: bv8): PpuRegs
  {
    if r.writeLatch then
      r.(t := SetFineY(SetCoarseY(r.t, Widen(data >> 3)), Widen(data & 7)), writeLatch := false)
    else
      r.(t := SetCoarseX(r.t, Widen(data >> 3)), fineX := data & 7, writeLatch := true)
  }

  /**
   * PPUADDR: the first write sets the high six bits of t and clears its top
   * two, the second sets the low byte and copies t into v.
   */
  function AddrWrite(r: PpuRegs, data: bv8): PpuRegs
  {
    if r.writeLatch then
      var t := (r.t & 0xFF00) | Widen(data);
      r.(t := t, v := t, writeLatch := false)
    else
      r.(t := (r.t & 0x00FF) | (Widen(data & 0x3F) << 8), writeLatch := true)
  }

  /** Every PPUDATA access moves v on by 1 or 32, within 15 bits. */
  function DataStep(r: PpuRegs): PpuRegs
  {
    r.(v := (r.v + VramAddrIncrement(r.ctrl)) & 0x7FFF)
  }

  /** The register side of a CPU write; OAMDATA and PPUDATA also store `data` in memory. */
  function WriteRegister(r: PpuRegs, addr: bv16, data: bv8): PpuRegs
  {
    var reg := Register(addr);
    if reg == 0 then CtrlWrite(r, data)
    else if reg == 1 then r.(mask := data)
    else if reg == 2 then r
    else if reg == 3 then r.(oamAddr := data)
    else if reg == 4 then r.(oamAddr := r.oamAddr + 1)
    else if reg == 5 then ScrollWrite(r, data)
    else if reg == 6 then AddrWrite(r, data)
    else DataStep(r)
  }

  /** PPUDATA addresses below 0x3000 go through the read buffer; palette reads do not. */
  predicate Buffered(a: bv16)
  {
    a <= 0x2FFF
  }

  /**
   * The register side of a CPU read. Reading PPUSTATUS ends the vertical
   * blank flag and resets the write latch; reading buffered PPUDATA loads the
   * byte `fetched` from the PPU bus into the buffer.
   */
  function ReadRegister(r: PpuRegs, addr: bv16, fetched: bv8): PpuRegs
  {
    var reg := Register(addr);
    if reg == 2 then r.(status := r.status & !VBLANK_STARTED, writeLatch := false)
    else if reg == 7 then
      var s := DataStep(r);
      if Buffered(r.v & 0x3FFF) then s.(lastData := fetched) else s
    else r
  }

  /** Only a PPUDATA read takes in the fetched byte. */
  lemma ReadIgnoresFetched(r: PpuRegs, addr: bv16, fetched: bv8)
    requires Register(addr) != 7
    ensures ReadRegister(r, addr, fetched) == ReadRegister(r, addr, 0)
  {
  }

  /** A palette byte as the CPU reads it, with greyscale applied. */
  function Greyscale(mask: bv8, color: bv8): (c: bv8)
    ensures mask & GREYSCALE != 0 ==> c & 0xCF == 0
    ensures mask & GREYSCALE == 0 ==> c == color
  {
    if mask & GREYSCALE != 0 then color & 0x30 else color
  }

  /**
   * The byte a CPU read returns: PPUSTATUS with the low five bits from the
   * bus, the OAM byte at OAMADDR, the old read buffer for buffered PPUDATA, a
   * palette entry directly, and 0 for the write-only registers.
   */
  function ReadValue(r: PpuRegs, addr: bv16, oamByte: bv8, paletteByte: bv8): bv8
  {
    var reg := Register(addr);
    if reg == 2 then r.status | (r.lastData & 0x1F)
    else if reg == 4 then oamByte
    else if reg == 7 then
      var a := r.v & 0x3FFF;
      if Buffered(a) then r.lastData
      else if a <= 0x3EFF then 0
      else Greyscale(r.mask, paletteByte)
    else 0
  }

  /**
   * The palette entry a PPU address in 0x3F00-0x3FFF selects: 32 entries
   * repeated, where entry 0 of each sprite palette is entry 0 of the
   * matching background palette.
   */
  function PaletteIndex(a: bv16): (i: nat)
    ensures i < 32
    ensures a & 3 == 0 ==> i == Nat16(a & 0x0F)
    ensures a & 3 != 0 ==> i == Nat16(a & 0x1F)
  {
    if a & 3 == 0 then Low4(a) else Low5(a)
  }

  function Low4(a: bv16): (i: nat)
    ensures i == Nat16(a & 0x0F) && i < 16
  {
    Nat16(a & 0x0F)
  }

  function Low5(a: bv16): (i: nat)
    ensures i == Nat16(a & 0x1F) && i < 32
  {
    Nat16(a & 0x1F)
  }

  /**
   * 0x3F10/0x3F14/0x3F18/0x3F1C are the backgrounds' 0x3F00/0x3F04/0x3F08/0x3F0C,
   * while the other sprite palette entries are entries of their own.
   */
  lemma PaletteMirrors(a: bv16)
    ensures a & 3 == 0 ==> PaletteIndex(a | 0x10) == PaletteIndex(a & !0x10)
    ensures a & 3 != 0 && a & 0x10 != 0 ==> 16 <= PaletteIndex(a)
    ensures PaletteIndex(a) == PaletteIndex(a & 0x1F)
  {
    assert (a | 0x10) & 3 == a & 3 && (a & !0x10) & 3 == a & 3;
    assert ((a | 0x10) & 0x0F) == ((a & !0x10) & 0x0F);
    assert (a & 3 != 0 && a & 0x10 != 0) ==> (a & 0x1F) >= 16;
    assert ((a & 0x1F) & 3) == a & 3 && ((a & 0x1F) & 0x0F) == a & 0x0F && ((a & 0x1F) & 0x1F) == a & 0x1F;
  }

  // Properties of the register protocol

  /** The 14-bit address two PPUADDR writes spell out, high byte first. */
  function AddressOf(hi: bv8, lo: bv8): (a: bv16)
    ensures a < 0x4000
    ensures a >> 8 == Widen(hi & 0x3F) && a & 0xFF == Widen(lo)
  {
    (Widen(hi & 0x3F) << 8) | Widen(lo)
  }

  /** The second PPUADDR write keeps the high byte the first one put into t. */
  lemma AddressBytes(t: bv16, hi: bv8, lo: bv8)
    ensures (((t & 0x00FF) | (Widen(hi & 0x3F) << 8)) & 0xFF00) | Widen(lo) == AddressOf(hi, lo)
  { }

  /** Two PPUADDR writes, high byte first, load v and t with a 14-bit address, and change nothing else. */
  lemma AddressWritesLoadV(r: PpuRegs, hi: bv8, lo: bv8)
    requires !r.writeLatch
    ensures WriteRegister(WriteRegister(r, 0x2006, hi), 0x2006, lo) == r.(v := AddressOf(hi, lo), t := AddressOf(hi, lo))
  {
    var r1 := WriteRegister(r, 0x2006, hi);
    assert r1 == AddrWrite(r, hi);
    assert WriteRegister(r1, 0x2006, lo) == AddrWrite(r1, lo);
    AddressBytes(r.t, hi, lo);
  }

  /** Two PPUSCROLL writes, X first, set t's scroll fields and fine X, and leave the nametable alone. */
  lemma ScrollWritesSetT(r: PpuRegs, x: bv8, y: bv8)
    requires !r.writeLatch
    ensures var r2 := WriteRegister(WriteRegister(r, 0x2005, x), 0x2005, y);
      CoarseX(r2.t) == Widen(x >> 3) && r2.fineX == x & 7 &&
      CoarseY(r2.t) == Widen(y >> 3) && FineY(r2.t) == Widen(y & 7) &&
      Nametable(r2.t) == Nametable(r.t) && !r2.writeLatch && r2.v == r.v
  {
    var r1 := WriteRegister(r, 0x2005, x);
    assert r1.t == SetCoarseX(r.t, Widen(x >> 3)) && r1.writeLatch;
    var r2 := WriteRegister(r1, 0x2005, y);
    assert r2.t == SetFineY(SetCoarseY(r1.t, Widen(y >> 3)), Widen(y & 7));
  }

  /**
   * PPUSCROLL and PPUADDR share the latch: after one scroll write the next
   * address write is taken as the low byte and loads v.
   */
  lemma LatchShared(r: PpuRegs, x: bv8, lo: bv8)
    requires !r.writeLatch
    ensures var r1 := WriteRegister(r, 0x2005, x);
      var r2 := WriteRegister(r1, 0x2006, lo);
      r2.v == (r1.t & 0xFF00) | Widen(lo) && !r2.writeLatch
  {
  }

  /** Reading PPUSTATUS reports vertical blank, then clears it and the write latch. */
  lemma StatusReadEndsVblank(r: PpuRegs, addr: bv16, fetched: bv8, oamByte: bv8, paletteByte: bv8)
    requires Register(addr) == 2
    ensures ReadValue(r, addr, oamByte, paletteByte) & VBLANK_STARTED == r.status & VBLANK_STARTED
    ensures var r1 := ReadRegister(r, addr, fetched);
      r1.status & VBLANK_STARTED == 0 && !r1.writeLatch &&
      r1.status | VBLANK_STARTED == r.status | VBLANK_STARTED && r1.v == r.v && r1.t == r.t
  {
  }

  /**
   * Buffered PPUDATA reads lag by one: the first returns the old buffer, the
   * second returns what the first fetched.
   */
  lemma BufferedReadsLag(r: PpuRegs, f1: bv8, f2: bv8, oamByte: bv8, paletteByte: bv8)
    requires Buffered(r.v & 0x3FFF)
    ensures ReadValue(r, 0x2007, oamByte, paletteByte) == r.lastData
    ensures var r1 := ReadRegister(r, 0x2007, f1);
      Buffered(r1.v & 0x3FFF) ==> ReadValue(r1, 0x2007, oamByte, paletteByte) == f1
  {
  }

  /** A PPUDATA access moves v on by 1 (across) or by 32 (down, PPUCTRL bit 2), within 15 bits. */
  lemma DataStepAdvances(r: PpuRegs)
    ensures DataStep(r).v < 0x8000
    ensures r.ctrl & VRAM_ADDR_INCREMENT == 0 ==> DataStep(r).v == (r.v + 1) & 0x7FFF
    ensures r.ctrl & VRAM_ADDR_INCREMENT != 0 ==> DataStep(r).v == (r.v + 32) & 0x7FFF
    ensures DataStep(r).(v := r.v) == r
  {
  }

  /** With GENERATE_NMI already on, a PPUCTRL write never raises an NMI; with vertical blank off it never does either. */
  lemma CtrlWriteNmi(r: PpuRegs, data: bv8)
    ensures r.ctrl & GENERATE_NMI != 0 || r.status & VBLANK_STARTED == 0 ==> CtrlWrite(r, data).nmi == r.nmi
    ensures r.ctrl & GENERATE_NMI == 0 && r.status & VBLANK_STARTED != 0 && data & GENERATE_NMI != 0 ==> CtrlWrite(r, data).nmi
    ensures Nametable(CtrlWrite(r, data).t) == Widen(data & 3)
    ensures CoarseX(CtrlWrite(r, data).t) == CoarseX(r.t) && CoarseY(CtrlWrite(r, data).t) == CoarseY(r.t)
  {
  }

  /** Rendering is on when either the background or the sprites are shown. */
  predicate RenderingEnabled(mask: bv8)
  {
    mask & SHOW_BACKGROUND != 0 || mask & SHOW_SPRITES != 0
  }

  // ---------------------------------------------------------------------
  // Dot and scanline counter

  /** The dot (0..340) inside the scanline (-1 is the pre-render line, 0..239 visible, up to 260) and the frame parity. */
  datatype Timing = Timing(cycle: int, scanline: int, oddFrame: bool)

  predicate TimingValid(t: Timing)
  {
    0 <= t.cycle <= 340 && -1 <= t.scanline <= 260
  }

  /** A position the PPU can be at. */
  type DotTiming = t: Timing | TimingValid(t) witness Timing(0, -1, false)

  /**
   * One PPU dot: 341 dots a line, 262 lines a frame, and on odd frames with
   * rendering on, the pre-render line starts at dot 1.
   */
  function DotStep(t: Timing, rendering: bool): (r: Timing)
    requires TimingValid(t)
    ensures TimingValid(r)
    ensures t.cycle < 340 ==> r == t.(cycle := t.cycle + 1)
    ensures t.cycle == 340 && t.scanline < 260 ==> r == Timing(0, t.scanline + 1, t.oddFrame)
    ensures t.cycle == 340 && t.scanline == 260 ==>
      r == Timing(if t.oddFrame && rendering then 1 else 0, -1, !t.oddFrame)
  {
    var c := t.cycle + 1;
    if c >= 341 then
      var s := t.scanline + 1;
      if s >= 261 then Timing(if t.oddFrame && rendering then 1 else 0, -1, !t.oddFrame)
      else Timing(0, s, t.oddFrame)
    else t.(cycle := c)
  }

  /** Whether this dot started a new scanline, which drives the sprite-0 tracker. */
  function NewLine(t: Timing): (b: bool)
    requires TimingValid(t)
    ensures b <==> t.cycle == 340
  {
    t.cycle + 1 >= 341
  }

  function DotSteps(t: Timing, rendering: bool, k: nat): (r: Timing)
    requires TimingValid(t)
    ensures TimingValid(r)
    decreases k
  {
    if k == 0 then t else DotStep(DotSteps(t, rendering, k - 1), rendering)
  }

  lemma {:induction false} DotStepsAdd(t: Timing, rendering: bool, a: nat, b: nat)
    requires TimingValid(t)
    ensures DotSteps(t, rendering, a + b) == DotSteps(DotSteps(t, rendering, a), rendering, b)
    decreases b
  {
    if b > 0 {
      DotStepsAdd(t, rendering, a, b - 1);
    }
  }

  /** Inside one scanline the dot counter just counts. */
  lemma {:induction false} DotsWithinLine(t: Timing, rendering: bool, k: nat)
    requires TimingValid(t) && t.cycle + k <= 340
    ensures DotSteps(t, rendering, k) == t.(cycle := t.cycle + k)
    decreases k
  {
    if k > 0 {
      DotsWithinLine(t, rendering, k - 1);
    }
  }

  /** A scanline (other than the last) is 341 dots. */
  lemma LineDots(s: int, odd: bool, rendering: bool)
    requires -1 <= s < 260
    ensures DotSteps(Timing(0, s, odd), rendering, 341) == Timing(0, s + 1, odd)
  {
    DotStepsAdd(Timing(0, s, odd), rendering, 340, 1);
    DotsWithinLine(Timing(0, s, odd), rendering, 340);
  }

  lemma {:induction false} LinesDots(s: int, odd: bool, rendering: bool, n: nat)
    requires -1 <= s && s + n <= 260
    ensures DotSteps(Timing(0, s, odd), rendering, 341 * n) == Timing(0, s + n, odd)
    decreases n
  {
    if n > 0 {
      LinesDots(s, odd, rendering, n - 1);
      assert 341 * (n - 1) == 341 * n - 341;
      DotStepsAdd(Timing(0, s, odd), rendering, 341 * n - 341, 341);
      LineDots(s + n - 1, odd, rendering);
    }
  }

  /** The last line of a frame wraps to the pre-render line of the next one. */
  lemma LastLineDots(odd: bool, rendering: bool)
    ensures DotSteps(Timing(0, 260, odd), rendering, 341) == Timing(if odd && rendering then 1 else 0, -1, !odd)
  {
    DotStepsAdd(Timing(0, 260, odd), rendering, 340, 1);
    DotsWithinLine(Timing(0, 260, odd), rendering, 340);
  }

  /** The 261 full lines from the pre-render line on, then the last one. */
  lemma LinesThenLast(odd: bool, rendering: bool, n: nat)
    requires n == 261
    ensures DotSteps(Timing(0, -1, odd), rendering, 341 * n + 341) == Timing(if odd && rendering then 1 else 0, -1, !odd)
  {
    LinesDots(-1, odd, rendering, n);
    DotStepsAdd(Timing(0, -1, odd), rendering, 341 * n, 341);
    LastLineDots(odd, rendering);
  }

  /**
   * A frame is 262 lines of 341 dots from the start of the pre-render line to
   * the next one, which then starts at dot 1 when the frame was odd and
   * rendering is on (one dot shorter), and flips the parity.
   */
  lemma FrameDots(odd: bool, rendering: bool)
    ensures DotSteps(Timing(0, -1, odd), rendering, 341 * 262) ==
      Timing(if odd && rendering then 1 else 0, -1, !odd)
  {
    LinesThenLast(odd, rendering, 261);
  }

  // ---------------------------------------------------------------------
  // Background pixels

  /** Bit `15 - fineX` of a 16-bit shift register: the pixel fine X selects. */
  function PipelineBit(w: bv16, fineX: bv8): (b: bv8)
    requires fineX < 8
    ensures b <= 1
    ensures b == 1 <==> w & (0x8000 >> Widen(fineX)) != 0
  {
    var fx := 15 - Widen(fineX);
    if (w & (1 << fx)) >> fx != 0 then 1 else 0
  }

  /** A background pixel: whether its pattern value is 0, and its colour. */
  datatype BackgroundPixel = BackgroundPixel(transparent: bool, color: bv8)

  /**
   * The palette entry of a background pixel from its 2-bit pattern value and
   * 2-bit attribute: entry 0 for pattern 0, else the attribute picks one of
   * four 4-entry palettes.
   */
  function BackgroundPaletteIndex(pattern: bv8, palette: bv8): (i: nat)
    requires pattern <= 3 && palette <= 3
    ensures i < 16
    ensures pattern == 0 <==> i == 0
    ensures pattern != 0 ==> i == Nat8(palette) * 4 + Nat8(pattern)
  {
    if pattern == 0 then 0 else ByteOf(palette, pattern)
  }

  /** The background pixel fine X selects, from the two pattern and two palette shift registers. */
  function BackgroundPixelOf(patternLo: bv16, patternHi: bv16, paletteLo: bv16, paletteHi: bv16,
                             fineX: bv8, paletteTable: seq<bv8>): (p: BackgroundPixel)
    requires fineX < 8 && |paletteTable| == 32
    ensures var pat := (PipelineBit(patternHi, fineX) << 1) | PipelineBit(patternLo, fineX);
      (p.transparent <==> pat == 0) &&
      p.color == paletteTable[BackgroundPaletteIndex(pat, (PipelineBit(paletteHi, fineX) << 1) | PipelineBit(paletteLo, fineX))]
    ensures p.transparent ==> p.color == paletteTable[0]
  {
    var pat := (PipelineBit(patternHi, fineX) << 1) | PipelineBit(patternLo, fineX);
    var pal := (PipelineBit(paletteHi, fineX) << 1) | PipelineBit(paletteLo, fineX);
    BackgroundPixel(pat == 0, paletteTable[BackgroundPaletteIndex(pat, pal)])
  }

  /**
   * The 2-bit palette of a tile from its attribute byte: each byte covers a
   * 4x4-tile area and gives two bits to each 2x2-tile quadrant.
   */
  function AttributeBits(at: bv8, coarseX: bv16, coarseY: bv16): (b: bv8)
    ensures b <= 3
    ensures var qx := (coarseX >> 1) & 1; var qy := (coarseY >> 1) & 1;
      b == (at >> (if qy == 1 then 4 else 0) + (if qx == 1 then 2 else 0)) & 3
  {
    var qy := (coarseY >> 1) & 1;
    var qx := (coarseX >> 1) & 1;
    if qx == 0 && qy == 0 then at & 3
    else if qx == 1 && qy == 0 then (at >> 2) & 3
    else if qx == 0 && qy == 1 then (at >> 4) & 3
    else (at >> 6) & 3
  }

  /** A palette bit spread over a whole tile's eight pixels. */
  function Spread(bit: bool): (r: bv16)
    ensures r == if bit then 0xFF else 0
  {
    if bit then 0xFF else 0
  }

  /** The nametable byte of the tile v points at. */
  function TileAddress(v: bv16): (a: bv16)
    ensures a & 0x2000 != 0 && 0x2000 <= a <= 0x2FFF
    ensures a & 0xFFF == v & 0xFFF
  {
    (v & 0xFFF) | 0x2000
  }

  /**
   * The attribute byte of the tile v points at: 0x3C0 into its nametable,
   * one byte per 4x4 tiles, eight bytes a row.
   */
  function AttributeAddress(v: bv16): (a: bv16)
    ensures a & 0x2000 != 0 && 0x23C0 <= a <= 0x2FFF
    ensures a == 0x23C0 + Nametable(v) * 0x400 + (CoarseY(v) >> 2) * 8 + (CoarseX(v) >> 2)
  {
    0x23C0 | (Nametable(v) << 10) | ((CoarseY(v) >> 2) << 3) | (CoarseX(v) >> 2)
  }

  /** The pattern byte of a background tile row: plane 0, or plane 1 eight bytes on. */
  function BackgroundPatternAddress(ctrl: bv8, tile: bv8, v: bv16, hi: bool): (a: bv16)
    ensures a == BackgroundPatternBaseAddr(ctrl) + Widen(tile) * 16 + (if hi then 8 else 0) + FineY(v)
  {
    var base := BackgroundPatternBaseAddr(ctrl);
    var row: bv16 := (if hi then 8 else 0) | FineY(v);
    assert FineY(v) < 8 && row < 16 && row == (if hi then 8 else 0) + FineY(v);
    assert Widen(tile) << 4 == Widen(tile) * 16 < 0x1000;
    assert base == 0 || base == 0x1000;
    OrIsPlus(Widen(tile) << 4, row);
    OrIsPlus(base, (Widen(tile) << 4) | row);
    base | ((Widen(tile) << 4) | row)
  }

  /** OR of words with no bit in common is their sum. */
  lemma OrIsPlus(a: bv16, b: bv16)
    requires a & b == 0
    ensures a | b == a + b
  {
  }

  // ---------------------------------------------------------------------
  // Sprite pixels and fetches

  /** An opaque sprite pixel: its colour, whether it sits behind the background, and whether it is sprite 0. */
  datatype SpritePixel = SpritePixel(color: bv8, behindBackground: bool, isSpriteZero: bool)

  /** The 2-bit pattern value at the low end of a sprite's two shift registers. */
  function SpritePattern(lo: bv8, hi: bv8): (p: bv8)
    ensures p <= 3
    ensures p & 1 == lo & 1 && (p >> 1) == hi & 1
  {
    ((hi & 1) << 1) | (lo & 1)
  }

  /** Whether sprite i shows a pixel on this dot. */
  predicate Opaque(c: SpriteXCounter, lo: bv8, hi: bv8)
  {
    c.Rendering? && SpritePattern(lo, hi) != 0
  }

  /** Sprite palette entry: 0x10 plus four entries per attribute palette. */
  function SpritePaletteIndex(attributes: bv8, pattern: bv8): (i: nat)
    requires 1 <= pattern <= 3
    ensures 16 < i < 32
  {
    16 + ByteOf(attributes & 3, pattern)
  }

  function SpritePixelOf(attributes: bv8, lo: bv8, hi: bv8, index: nat, paletteTable: seq<bv8>): (p: SpritePixel)
    requires |paletteTable| == 32 && SpritePattern(lo, hi) != 0
  {
    SpritePixel(paletteTable[SpritePaletteIndex(attributes, SpritePattern(lo, hi))], (attributes >> 5) & 1 == 1, index == 0)
  }

  /** An opaque sprite pixel takes its colour from sprite palette entries 0x11..0x1F, its priority from attribute bit 5. */
  lemma SpritePixelFields(attributes: bv8, lo: bv8, hi: bv8, index: nat, paletteTable: seq<bv8>)
    requires |paletteTable| == 32 && SpritePattern(lo, hi) != 0
    ensures var p := SpritePixelOf(attributes, lo, hi, index, paletteTable);
      (p.behindBackground <==> attributes & 0x20 != 0) && (p.isSpriteZero <==> index == 0) &&
      p.color == paletteTable[16 + Nat8(attributes & 3) * 4 + Nat8(SpritePattern(lo, hi))]
  {
    SpritePaletteEntry(attributes, SpritePattern(lo, hi));
  }

  /** Sprite palette entries: 0x10 plus four per attribute palette, never a backdrop mirror (a multiple of 4). */
  lemma SpritePaletteEntry(attributes: bv8, pattern: bv8)
    requires 1 <= pattern <= 3
    ensures SpritePaletteIndex(attributes, pattern) == 16 + Nat8(attributes & 3) * 4 + Nat8(pattern)
    ensures SpritePaletteIndex(attributes, pattern) % 4 != 0
  { }

  /**
   * The sprite pixel found after scanning sprites 0..n-1 in order: the first
   * one found stays, otherwise sprite n-1's own.
   */
  function ScanSprites(counters: seq<SpriteXCounter>, pipeline: seq<bv8>, attributes: seq<bv8>,
                       paletteTable: seq<bv8>, n: nat): (p: Option<SpritePixel>)
    requires n <= |counters| == 8 && |pipeline| == 16 && |attributes| == 8 && |paletteTable| == 32
    decreases n
  {
    if n == 0 then None
    else
      var found := ScanSprites(counters, pipeline, attributes, paletteTable, n - 1);
      if found.Some? then found
      else SlotPixel(counters[n - 1], pipeline[n - 1], pipeline[8 + n - 1], attributes[n - 1], paletteTable, n - 1)
  }

  /** The scan of the first n sprites finds nothing exactly when none of them is opaque. */
  lemma {:induction false} ScanFindsNone(counters: seq<SpriteXCounter>, pipeline: seq<bv8>, attributes: seq<bv8>,
                                         paletteTable: seq<bv8>, n: nat)
    requires n <= |counters| == 8 && |pipeline| == 16 && |attributes| == 8 && |paletteTable| == 32
    ensures ScanSprites(counters, pipeline, attributes, paletteTable, n).None? <==>
            forall k :: 0 <= k < n ==> !Opaque(counters[k], pipeline[k], pipeline[8 + k])
    decreases n
  {
    if n > 0 {
      ScanFindsNone(counters, pipeline, attributes, paletteTable, n - 1);
    }
  }

  /** The scan of the first n sprites finds the pixel of the lowest-numbered opaque one among them. */
  lemma {:induction false} ScanFindsFirst(counters: seq<SpriteXCounter>, pipeline: seq<bv8>, attributes: seq<bv8>,
                                          paletteTable: seq<bv8>, n: nat, j: nat)
    requires n <= |counters| == 8 && |pipeline| == 16 && |attributes| == 8 && |paletteTable| == 32 && j < n
    requires Opaque(counters[j], pipeline[j], pipeline[8 + j])
    requires forall k :: 0 <= k < j ==> !Opaque(counters[k], pipeline[k], pipeline[8 + k])
    ensures ScanSprites(counters, pipeline, attributes, paletteTable, n) ==
            Some(SpritePixelOf(attributes[j], pipeline[j], pipeline[8 + j], j, paletteTable))
    decreases n
  {
    if n == j + 1 {
      ScanFindsNone(counters, pipeline, attributes, paletteTable, j);
    } else {
      ScanFindsFirst(counters, pipeline, attributes, paletteTable, n - 1, j);
    }
  }

  /** The sprite pixel of this dot, if any sprite shows one. */
  function SpritePixelAt(counters: seq<SpriteXCounter>, pipeline: seq<bv8>, attributes: seq<bv8>,
                         paletteTable: seq<bv8>): (p: Option<SpritePixel>)
    requires |counters| == 8 && |pipeline| == 16 && |attributes| == 8 && |paletteTable| == 32
  {
    ScanSprites(counters, pipeline, attributes, paletteTable, |counters|)
  }

  /**
   * Sprite priority: when sprite j renders an opaque bit and no sprite
   * before it does, the dot shows sprite j's pixel, whatever the sprites
   * after it hold.
   */
  lemma SpritePriority(counters: seq<SpriteXCounter>, pipeline: seq<bv8>, attributes: seq<bv8>, paletteTable: seq<bv8>, j: nat)
    requires |counters| == 8 && |pipeline| == 16 && |attributes| == 8 && |paletteTable| == 32 && j < 8
    requires Opaque(counters[j], pipeline[j], pipeline[8 + j])
    requires forall k :: 0 <= k < j ==> !Opaque(counters[k], pipeline[k], pipeline[8 + k])
    ensures SpritePixelAt(counters, pipeline, attributes, paletteTable) ==
            Some(SpritePixelOf(attributes[j], pipeline[j], pipeline[8 + j], j, paletteTable))
  {
    ScanFindsFirst(counters, pipeline, attributes, paletteTable, 8, j);
  }

  /** No sprite pixel shows exactly when no sprite renders an opaque bit. */
  lemma NoSpritePixel(counters: seq<SpriteXCounter>, pipeline: seq<bv8>, attributes: seq<bv8>, paletteTable: seq<bv8>)
    requires |counters| == 8 && |pipeline| == 16 && |attributes| == 8 && |paletteTable| == 32
    ensures SpritePixelAt(counters, pipeline, attributes, paletteTable).None? <==>
            forall k :: 0 <= k < 8 ==> !Opaque(counters[k], pipeline[k], pipeline[8 + k])
  {
    ScanFindsNone(counters, pipeline, attributes, paletteTable, 8);
  }

  /** What the shift registers of sprite i hold after its dot: shifted if it is rendering. */
  function ShiftIfRendering(c: SpriteXCounter, b: bv8): bv8
  {
    if c.Rendering? then b >> 1 else b
  }

  /** The pixel sprite `index` shows on this dot, if it is rendering and its pattern bit is opaque. */
  function SlotPixel(c: SpriteXCounter, lo: bv8, hi: bv8, attributes: bv8, paletteTable: seq<bv8>, index: nat): (p: Option<SpritePixel>)
    requires |paletteTable| == 32
    ensures p.Some? <==> Opaque(c, lo, hi)
  {
    if Opaque(c, lo, hi) then Some(SpritePixelOf(attributes, lo, hi, index, paletteTable)) else None
  }

  /** The counters after a visible dot has stepped the first `n` of them. */
  function StepCounters(c: seq<XCounter>, n: nat): (r: seq<XCounter>)
    requires n <= |c|
    ensures |r| == |c|
    ensures forall j :: 0 <= j < n ==> r[j] == XCounterStep(c[j])
    ensures forall j :: n <= j < |c| ==> r[j] == c[j]
    decreases n
  {
    if n == 0 then c else StepCounters(c, n - 1)[n - 1 := XCounterStep(c[n - 1])]
  }

  /** Sprite n's two shift registers after its dot: shifted once if it is rendering, otherwise as they were. */
  function ShiftSlot(c: SpriteXCounter, cur: seq<bv8>, n: nat): (r: seq<bv8>)
    requires n < 8 && |cur| == 16
    ensures |r| == 16
    ensures r[n] == ShiftIfRendering(c, cur[n]) && r[8 + n] == ShiftIfRendering(c, cur[8 + n])
    ensures forall j :: 0 <= j < 16 && j != n && j != 8 + n ==> r[j] == cur[j]
  {
    if c.Rendering? then cur[n := cur[n] >> 1][8 + n := cur[8 + n] >> 1] else cur
  }

  /** The sprite shift registers after a visible dot has shifted those of the first `n` sprites that render. */
  function ShiftPipeline(c: seq<SpriteXCounter>, p: seq<bv8>, n: nat): (r: seq<bv8>)
    requires n <= |c| == 8 && |p| == 16
    ensures |r| == 16
    ensures forall j :: 0 <= j < n ==> r[j] == ShiftIfRendering(c[j], p[j])
    ensures forall j :: 0 <= j < n ==> r[8 + j] == ShiftIfRendering(c[j], p[8 + j])
    ensures forall j :: n <= j < 8 || 8 + n <= j < 16 ==> r[j] == p[j]
    decreases n
  {
    if n == 0 then p else ShiftSlot(c[n - 1], ShiftPipeline(c, p, n - 1), n - 1)
  }

  /** The counters after a visible dot: every one stepped. */
  function StepAll(c: seq<XCounter>): (r: seq<XCounter>)
    ensures |r| == |c|
    ensures forall j :: 0 <= j < |c| ==> r[j] == XCounterStep(c[j])
  {
    StepCounters(c, |c|)
  }

  /** The sprite shift registers after a visible dot: both of every rendering sprite shifted once. */
  function ShiftAll(c: seq<SpriteXCounter>, p: seq<bv8>): (r: seq<bv8>)
    requires |c| == 8 && |p| == 16
    ensures |r| == 16
    ensures forall j :: 0 <= j < 8 ==> r[j] == ShiftIfRendering(c[j], p[j])
    ensures forall j :: 0 <= j < 8 ==> r[8 + j] == ShiftIfRendering(c[j], p[8 + j])
  {
    ShiftPipeline(c, p, |c|)
  }

  /** One more counter's step, as the in-place update of that counter. */
  lemma StepCountersNext(c: seq<XCounter>, n: nat, cur: seq<XCounter>)
    requires n < |c| && cur == StepCounters(c, n)
    ensures cur[n] == c[n]
    ensures StepCounters(c, n + 1) == cur[n := XCounterStep(cur[n])]
  { }

  /** One more sprite's step, as the in-place update of that sprite's two registers. */
  lemma ShiftPipelineNext(c: seq<SpriteXCounter>, p: seq<bv8>, n: nat, cur: seq<bv8>)
    requires n < |c| == 8 && |p| == 16 && cur == ShiftPipeline(c, p, n)
    ensures cur[n] == p[n] && cur[8 + n] == p[8 + n]
    ensures ShiftPipeline(c, p, n + 1) == ShiftSlot(c[n], cur, n)
  { }

  /**
   * The colour drawn: a sprite over a transparent background, otherwise the
   * background unless an opaque sprite is in front of it.
   */
  function Composite(bg: BackgroundPixel, sprite: Option<SpritePixel>): (c: bv8)
    ensures sprite.None? ==> c == bg.color
    ensures sprite.Some? && (bg.transparent || !sprite.value.behindBackground) ==> c == sprite.value.color
    ensures sprite.Some? && !bg.transparent && sprite.value.behindBackground ==> c == bg.color
  {
    match sprite
    case None => bg.color
    case Some(s) => if bg.transparent then s.color else if s.behindBackground then bg.color else s.color
  }

  /** A sprite-0 hit is recorded when sprite 0 and the background are both opaque, except at x = 255. */
  predicate ZeroHitOn(bg: BackgroundPixel, sprite: Option<SpritePixel>, x: int, tracker: SpriteZeroHitState)
  {
    sprite.Some? && !bg.transparent && tracker.OnCurrentScanline? && sprite.value.isSpriteZero && x != 255
  }

  /** A byte with its bit order reversed: a sprite that is not mirrored shifts out its leftmost pixel first. */
  function ReverseBits(b: bv8): (r: bv8)
    ensures r & 0x01 == (b >> 7) & 0x01 && r & 0x02 == (b >> 5) & 0x02
    ensures r & 0x04 == (b >> 3) & 0x04 && r & 0x08 == (b >> 1) & 0x08
    ensures r & 0x10 == (b << 1) & 0x10 && r & 0x20 == (b << 3) & 0x20
    ensures r & 0x40 == (b << 5) & 0x40 && r & 0x80 == (b << 7) & 0x80
  {
    ((b & 0x01) << 7) | ((b & 0x02) << 5) | ((b & 0x04) << 3) | ((b & 0x08) << 1) |
    ((b & 0x10) >> 1) | ((b & 0x20) >> 3) | ((b & 0x40) >> 5) | ((b & 0x80) >> 7)
  }

  lemma ReverseBitsInvolution(b: bv8)
    ensures ReverseBits(ReverseBits(b)) == b
  {
  }

  /** An unmirrored sprite row is reversed, a horizontally mirrored one (attribute bit 6) is kept. */
  function SpriteRow(attributes: bv8, row: bv8): (r: bv8)
    ensures attributes & 0x40 != 0 ==> r == row
    ensures attributes & 0x40 == 0 ==> ReverseBits(r) == row
  {
    ReverseBitsInvolution(row);
    if (attributes >> 6) & 1 == 1 then row else ReverseBits(row)
  }

  /** Row y of an 8-pixel-high sprite, counted from the bottom when attribute bit 7 flips it. */
  function FlippedRow(attributes: bv8, y: bv16, height: bv16): bv16
  {
    if (attributes >> 7) & 1 == 1 then height - 1 - y else y
  }

  /**
   * The pattern byte of row y of a sprite: in 8x8 mode from the PPUCTRL
   * sprite table; in 8x16 mode tile bit 0 picks the table and rows 8..15 come
   * from the next tile.
   */
  function SpritePatternAddress(ctrl: bv8, tile: bv8, attributes: bv8, y: bv16, hi: bool): (a: bv16)
  {
    var plane: bv16 := if hi then 8 else 0;
    if SpriteSize(ctrl) == 8 then
      SpritePatternBaseAddr(ctrl) | plane | (Widen(tile) << 4) | FlippedRow(attributes, y, 8)
    else
      var bank: bv16 := if tile & 1 == 1 then 0x1000 else 0;
      var row := FlippedRow(attributes, y, 16);
      var row := if row >= 8 then row + 8 else row;
      bank | plane | ((Widen(tile) & 0xFFFE) << 4) | row
  }

  /** In 8x8 mode the row's address is table base + 16 per tile + 8 for the high plane + the (flipped) row. */
  lemma SmallSpriteAddress(ctrl: bv8, tile: bv8, attributes: bv8, y: bv16, hi: bool)
    requires SpriteSize(ctrl) == 8 && y < 8
    ensures SpritePatternAddress(ctrl, tile, attributes, y, hi) ==
            SpritePatternBaseAddr(ctrl) + Widen(tile) * 16 + (if hi then 8 else 0) +
            (if attributes & 0x80 != 0 then 7 - y else y)
  {
    FlippedSmallRow(attributes, y);
    TileOffset(tile);
    DisjointFields(SpritePatternBaseAddr(ctrl), if hi then 8 else 0, Widen(tile) << 4, FlippedRow(attributes, y, 8));
  }

  lemma FlippedSmallRow(attributes: bv8, y: bv16)
    requires y < 8
    ensures FlippedRow(attributes, y, 8) == (if attributes & 0x80 != 0 then 7 - y else y) < 8
  { }

  lemma TileOffset(tile: bv8)
    ensures Widen(tile) << 4 == Widen(tile) * 16 && (Widen(tile) << 4) & 0xF == 0 && Widen(tile) << 4 < 0x1000
  { }

  /** Or-ing a table base, a plane bit, a tile offset and a row that share no bits adds them. */
  lemma DisjointFields(base: bv16, plane: bv16, tileBase: bv16, row: bv16)
    requires (base == 0 || base == 0x1000) && (plane == 0 || plane == 8)
    requires tileBase & 0xF == 0 && tileBase < 0x1000 && row < 8
    ensures base | plane | tileBase | row == base + tileBase + plane + row
  { }

  /**
   * In 8x16 mode tile bit 0 picks the table, the even tile holds rows 0..7
   * and the next tile rows 8..15, counted from the bottom when flipped.
   */
  lemma TallSpriteAddress(ctrl: bv8, tile: bv8, attributes: bv8, y: bv16, hi: bool)
    requires SpriteSize(ctrl) == 16 && y < 16
    ensures var row := if attributes & 0x80 != 0 then 15 - y else y;
      SpritePatternAddress(ctrl, tile, attributes, y, hi) ==
      (if tile & 1 != 0 then 0x1000 else 0) + (Widen(tile) & 0xFE) * 16 + (if row >= 8 then 16 else 0) +
      (if hi then 8 else 0) + (row & 7)
  { }

  /** The X counter of sprite slot i after its Y/X bytes are fetched on scanline `scanline`. */
  function FetchedCounter(scanline: bv16, yBuffer: bv8, x: bv8, ctrl: bv8): (c: SpriteXCounter)
    ensures XCounterValid(c)
    ensures c.WontRender? <==> scanline - Widen(yBuffer) >= Widen(SpriteSize(ctrl))
  {
    XCounterOf(scanline - Widen(yBuffer) < Widen(SpriteSize(ctrl)), x)
  }
}
