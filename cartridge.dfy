/**
 * The cartridge: the ROM loader (iNES header, trainer skip, PRG/CHR slices,
 * mapper choice) and the CPU/PPU memory accesses routed through the mapper.
 */
module Cartridge {
  import opened Wrappers
  import opened Mapping
  import opened Bits
  import opened INes
  import Mapper000
  import Mapper001
  import Mapper002
  import Mapper003
  import Mapper004
  import Mapper007
  import Mapper066

  const PRG_BANK_SIZE: nat := 16384
  const CHR_BANK_SIZE: nat := 8192

  /** The mapper boards the emulator implements, one per iNES mapper number. */
  datatype Mapper =
    | Nrom(m0: Mapper000.Mapper000)
    | Mmc1(m1: Mapper001.Mapper001)
    | UxRom(m2: Mapper002.Mapper002)
    | CnRom(m3: Mapper003.Mapper003)
    | Mmc3(m4: Mapper004.Mapper004)
    | AxRom(m7: Mapper007.Mapper007)
    | GxRom(m66: Mapper066.Mapper066)

  /** The heap objects a mapper owns. */
  function MapperObjects(m: Mapper): set<object>
  {
    match m
    case Nrom(b) => {b}
    case Mmc1(b) => {b, b.ramData}
    case UxRom(b) => {b}
    case CnRom(b) => {b}
    case Mmc3(b) => {b, b.ramData}
    case AxRom(b) => {b}
    case GxRom(b) => {b}
  }

  ghost predicate MapperValid(m: Mapper)
    reads MapperObjects(m)
  {
    match m
    case Nrom(_) => true
    case Mmc1(b) => b.Valid()
    case UxRom(_) => true
    case CnRom(b) => b.Valid()
    case Mmc3(b) => b.Valid()
    case AxRom(b) => b.Valid()
    case GxRom(b) => b.Valid()
  }

  /** Nametable mirroring from the header: the four-screen bit wins, then bit 0 picks vertical. */
  function HeaderMirroring(flags6: bv8): (m: Mirroring)
    ensures m != OneScreenLower && m != OneScreenUpper
    ensures m == FourScreen <==> flags6 & FOUR_SCREEN != 0
    ensures m == Vertical <==> flags6 & FOUR_SCREEN == 0 && flags6 & MIRRORING != 0
  {
    if flags6 & FOUR_SCREEN != 0 then FourScreen
    else if flags6 & MIRRORING != 0 then Vertical
    else Horizontal
  }

  /** The mapper numbers the loader accepts. */
  predicate Supported(mapperId: bv8)
  {
    mapperId == 0 || mapperId == 1 || mapperId == 2 || mapperId == 3 || mapperId == 66
  }

  /** PRG data starts after the 16-byte header and, when present, the 512-byte trainer. */
  function PrgStart(h: Header): (n: nat)
    ensures n == 16 || n == 528
    ensures n == 528 <==> h.flags6 & TRAINER != 0
  {
    if h.flags6 & TRAINER != 0 then 512 + 16 else 16
  }

  function PrgLength(h: Header): nat
  {
    PRG_BANK_SIZE * Nat8(h.prgSize)
  }

  function ChrLength(h: Header): nat
  {
    CHR_BANK_SIZE * Nat8(h.chrSize)
  }

  /** What a successful load extracts from the image. */
  datatype Image = Image(header: Header, mirroring: Mirroring, prg: seq<bv8>, chr: seq<bv8>)

  /**
   * The checks of the loader in their order: header errors, then an
   * unsupported mapper, then a too-short image; on success PRG and CHR are
   * consecutive slices after the header (and trainer).
   */
  function Layout(rom: seq<bv8>): (r: Result<Image, RomParserError>)
    ensures Parse(rom).Err? ==> r == Err(Parse(rom).error)
    ensures Parse(rom).Ok? && !Supported(Parse(rom).value.mapperId) ==> r == Err(MapperNotImplemented)
    ensures Parse(rom).Ok? && Supported(Parse(rom).value.mapperId) ==>
      var h := Parse(rom).value;
      (r.Ok? <==> |rom| >= PrgStart(h) + PrgLength(h) + ChrLength(h)) &&
      (r.Err? ==> r.error == TooShort)
    ensures r.Ok? ==>
      var h := r.value.header;
      Parse(rom) == Ok(h) && r.value.mirroring == HeaderMirroring(h.flags6) &&
      PrgStart(h) + PrgLength(h) + ChrLength(h) <= |rom| &&
      r.value.prg == rom[PrgStart(h)..PrgStart(h) + PrgLength(h)] &&
      r.value.chr == rom[PrgStart(h) + PrgLength(h)..PrgStart(h) + PrgLength(h) + ChrLength(h)]
  {
    match Parse(rom)
    case Err(e) => Err(e)
    case Ok(h) =>
      if !Supported(h.mapperId) then Err(MapperNotImplemented)
      else Slices(rom, h)
  }

  /**
   * The size check and the two slices, once the header is accepted: PRG
   * right after the header (and trainer), CHR right after PRG.
   */
  function Slices(rom: seq<bv8>, h: Header): (r: Result<Image, RomParserError>)
    ensures r.Ok? <==> |rom| >= PrgStart(h) + PrgLength(h) + ChrLength(h)
    ensures r.Err? ==> r.error == TooShort
    ensures r.Ok? ==>
      r.value.header == h && r.value.mirroring == HeaderMirroring(h.flags6) &&
      r.value.prg == rom[PrgStart(h)..PrgStart(h) + PrgLength(h)] &&
      r.value.chr == rom[PrgStart(h) + PrgLength(h)..PrgStart(h) + PrgLength(h) + ChrLength(h)]
  {
    var start := PrgStart(h);
    var prgEnd := start + PrgLength(h);
    var chrEnd := prgEnd + ChrLength(h);
    if |rom| < chrEnd then Err(TooShort)
    else Ok(Image(h, HeaderMirroring(h.flags6), rom[start..prgEnd], rom[prgEnd..chrEnd]))
  }

  /** A header error is reported even when the mapper is unsupported or the image is short. */
  lemma HeaderErrorsFirst(rom: seq<bv8>)
    requires |rom| < 16 || rom[..4] != MAGIC
    ensures Layout(rom) == Err(if |rom| < 16 then TooShort else InvalidMagicBytes)
  {
  }

  /** Allocate the mapper for a supported mapper number. */
  method NewMapper(h: Header, mirroring: Mirroring, saveData: Option<seq<bv8>>) returns (m: Mapper)
    requires Supported(h.mapperId)
    ensures fresh(MapperObjects(m)) && MapperValid(m)
    ensures MapperKind(m) == Nat8(h.mapperId)
    ensures MapperMirroringOf(m) == mirroring
  {
    if h.mapperId == 0 {
      var b := new Mapper000.Mapper000(h.prgSize, mirroring);
      m := Nrom(b);
    } else if h.mapperId == 1 {
      var b := new Mapper001.Mapper001(h.prgSize, mirroring, saveData);
      m := Mmc1(b);
    } else if h.mapperId == 2 {
      var b := new Mapper002.Mapper002(h.prgSize, mirroring);
      m := UxRom(b);
    } else if h.mapperId == 3 {
      var b := new Mapper003.Mapper003(h.prgSize, mirroring);
      m := CnRom(b);
    } else {
      var b := new Mapper066.Mapper066(mirroring);
      m := GxRom(b);
    }
  }

  /** The iNES mapper number of a board. */
  function MapperKind(m: Mapper): nat
  {
    match m
    case Nrom(_) => 0
    case Mmc1(_) => 1
    case UxRom(_) => 2
    case CnRom(_) => 3
    case Mmc3(_) => 4
    case AxRom(_) => 7
    case GxRom(_) => 66
  }

  /** The nametable mirroring a board currently selects. */
  function MapperMirroringOf(m: Mapper): Mirroring
    reads MapperObjects(m)
  {
    match m
    case Nrom(b) => b.mirroring
    case Mmc1(b) => b.mirroring
    case UxRom(b) => b.mirroring
    case CnRom(b) => b.mirroring
    case Mmc3(b) => b.mirroring
    case AxRom(b) => b.mirroring
    case GxRom(b) => b.mirroring
  }

  /**
   * Load a ROM image. MMC1's PRG RAM is seeded with the save data, when given.
   * The result is an error exactly when the layout check fails, with the same error.
   */
  method Load(rom: seq<bv8>, saveData: Option<seq<bv8>>) returns (r: Result<Cartridge, RomParserError>)
    ensures r.Err? <==> Layout(rom).Err?
    ensures r.Err? ==> r.error == Layout(rom).error
    ensures r.Ok? ==>
      var c := r.value;
      var img := Layout(rom).value;
      c.Valid() && fresh(c.Repr) &&
      c.header == img.header && c.prgMemory == img.prg && c.chrMemory[..] == img.chr &&
      MapperKind(c.mapper) == Nat8(img.header.mapperId) &&
      c.Mirroring() == img.mirroring
  {
    var layout := Layout(rom);
    if layout.Err? {
      return Err(layout.error);
    }
    var img := layout.value;
    var m := NewMapper(img.header, img.mirroring, saveData);
    var c := new Cartridge(img.header, img.prg, img.chr, m);
    r := Ok(c);
  }

  class Cartridge {
    const header: Header
    const prgMemory: seq<bv8>
    const chrMemory: array<bv8>
    const mapper: Mapper
    ghost const Repr: set<object>
    /** The objects of the board, the only part of a cartridge a read or write changes. */
    ghost const Boards: set<object>

    ghost predicate Valid()
      reads this, Repr
    {
      Boards == MapperObjects(mapper) && Repr == {this, chrMemory} + Boards &&
      this !in Boards && chrMemory !in Boards &&
      MapperValid(mapper)
    }

    constructor (header: Header, prg: seq<bv8>, chr: seq<bv8>, mapper: Mapper)
      requires MapperValid(mapper)
      ensures Valid() && fresh(Repr - MapperObjects(mapper))
      ensures Boards == MapperObjects(mapper) && Repr == {this, chrMemory} + Boards
      ensures this.header == header && prgMemory == prg && chrMemory[..] == chr && this.mapper == mapper
      ensures MapperMirroringOf(mapper) == old(MapperMirroringOf(mapper))
    {
      this.header := header;
      prgMemory := prg;
      chrMemory := new bv8[|chr|](i requires 0 <= i < |chr| => chr[i]);
      this.mapper := mapper;
      Boards := MapperObjects(mapper);
      Repr := {this, chrMemory} + Boards;
    }

    function Mirroring(): (m: Mirroring)
      requires Valid()
      reads Repr
      ensures m == MapperMirroringOf(mapper)
    {
      MapperMirroringOf(mapper)
    }

    /** Where a CPU read of cartridge space lands. */
    function CpuTarget(addr: bv16): CartridgeReadTarget
      requires Valid()
      reads Repr
    {
      match mapper
      case Nrom(b) => b.CpuMapRead(addr)
      case Mmc1(b) => b.CpuMapRead(addr)
      case UxRom(b) => b.CpuMapRead(addr)
      case CnRom(b) => b.CpuMapRead(addr)
      case Mmc3(b) => b.CpuMapRead(addr)
      case AxRom(b) => b.CpuMapRead(addr)
      case GxRom(b) => b.CpuMapRead(addr)
    }

    /**
     * A CPU read: the RAM byte the mapper returns, or the PRG ROM byte at the
     * mapped index. An index past the ROM reads as 0.
     */
    function ReadPrgMem(addr: bv16): (v: bv8)
      requires Valid()
      reads Repr
      ensures CpuTarget(addr).PrgRam? ==> v == CpuTarget(addr).data
      ensures CpuTarget(addr).PrgRom? && 0 <= CpuTarget(addr).index < |prgMemory| ==>
        v == prgMemory[CpuTarget(addr).index]
      ensures CpuTarget(addr).PrgRom? && !(0 <= CpuTarget(addr).index < |prgMemory|) ==> v == 0
    {
      match CpuTarget(addr)
      case PrgRam(d) => d
      case PrgRom(i) => if 0 <= i < |prgMemory| then prgMemory[i] else 0
    }

    /** A CPU write into cartridge space goes to the mapper; ROM contents never change. */
    method WritePrgMem(addr: bv16, data: bv8)
      requires Valid()
      modifies Boards
      ensures Valid()
      ensures mapper.Mmc1? ==>
        mapper.m1.Regs() == Mapper001.Write(old(mapper.m1.Regs()), mapper.m1.prgBanks, addr, data)
      ensures mapper.UxRom? ==>
        mapper.m2.prgBankSelector == (if addr >= 0x8000 then data else old(mapper.m2.prgBankSelector))
      ensures mapper.CnRom? ==> mapper.m3.chrBankSelector == data & 0x03
      ensures mapper.Mmc3? ==>
        mapper.m4.BankState() == Mapper004.WriteBanks(old(mapper.m4.BankState()), mapper.m4.prgBanks, addr, data) &&
        mapper.m4.Irq() == Mapper004.WriteIrq(old(mapper.m4.Irq()), addr, data)
      ensures mapper.GxRom? ==>
        mapper.m66.chrBankSelector == data & 0x03 && mapper.m66.prgBankSelector == (data & 0x30) >> 4
      ensures (mapper.Mmc1? || mapper.Mmc3?) && 0x6000 <= addr <= 0x7FFF ==> ReadPrgMem(addr) == data
    {
      match mapper
      case Nrom(b) =>
      case Mmc1(b) => b.CpuMapWrite(addr, data);
      case UxRom(b) => b.CpuMapWrite(addr, data);
      case CnRom(b) => b.CpuMapWrite(addr, data);
      case Mmc3(b) => b.CpuMapWrite(addr, data);
      case AxRom(b) => b.CpuMapWrite(addr, data);
      case GxRom(b) => b.CpuMapWrite(addr, data);
    }

    /** The CHR index a PPU read maps to (MMC3 also clocks its counter, see ReadChrMem). */
    function ChrTarget(addr: bv16): nat
      requires Valid()
      reads Repr
    {
      match mapper
      case Nrom(b) => b.PpuMapRead(addr)
      case Mmc1(b) => b.PpuMapRead(addr)
      case UxRom(b) => b.PpuMapRead(addr)
      case CnRom(b) => b.PpuMapRead(addr)
      case Mmc3(b) => b.ChrIndex(addr)
      case AxRom(b) => b.PpuMapRead(addr)
      case GxRom(b) => b.PpuMapRead(addr)
    }

    /** The CHR byte a PPU read returns: 0 beyond the end of CHR memory. */
    function PeekChr(addr: bv16): (v: bv8)
      requires Valid()
      reads Repr
      ensures ChrTarget(addr) < chrMemory.Length ==> v == chrMemory[ChrTarget(addr)]
      ensures ChrTarget(addr) >= chrMemory.Length ==> v == 0
    {
      var i := ChrTarget(addr);
      if i < chrMemory.Length then chrMemory[i] else 0
    }

    /**
     * What a pattern read leaves on the boards: MMC3 clocks its scanline
     * counter from address line 12 and keeps its banks; every other board
     * stays as it was.
     */
    twostate predicate ChrReadEffect(addr: bv16)
      requires Valid()
      reads this, Repr
    {
      (mapper.Mmc3? ==>
         mapper.m4.Irq() == Mapper004.A12(old(mapper.m4.Irq()), addr) &&
         mapper.m4.BankState() == old(mapper.m4.BankState())) &&
      (!mapper.Mmc3? ==> unchanged(Boards))
    }

    /** A PPU read of pattern memory. Only MMC3 changes state: its A12 counter. */
    method ReadChrMem(addr: bv16) returns (v: bv8)
      requires Valid()
      modifies Boards
      ensures Valid()
      ensures v == old(PeekChr(addr))
      ensures ChrReadEffect(addr)
    {
      var i: nat;
      match mapper {
        case Mmc3(b) =>
          i := b.PpuMapRead(addr);
        case _ =>
          i := ChrTarget(addr);
      }
      v := if i < chrMemory.Length then chrMemory[i] else 0;
    }

    /** The CHR index a PPU write maps to, if the board has writable CHR. */
    function ChrWriteTarget(addr: bv16): Option<nat>
      requires Valid()
      reads Repr
    {
      match mapper
      case Nrom(b) => b.PpuMapWrite(addr)
      case Mmc1(b) => b.PpuMapWrite(addr)
      case UxRom(b) => b.PpuMapWrite(addr)
      case CnRom(b) => b.PpuMapWrite(addr)
      case Mmc3(b) => b.PpuMapWrite(addr)
      case AxRom(b) => b.PpuMapWrite(addr)
      case GxRom(b) => b.PpuMapWrite(addr)
    }

    /** A PPU write of pattern memory: stored only when the mapper maps it inside CHR memory. */
    method WriteChrMem(addr: bv16, data: bv8)
      requires Valid()
      modifies chrMemory
      ensures Valid()
      ensures var t := old(ChrWriteTarget(addr));
        chrMemory[..] == if t.Some? && t.value < chrMemory.Length then old(chrMemory[..])[t.value := data]
                         else old(chrMemory[..])
    {
      var t := ChrWriteTarget(addr);
      if t.Some? && t.value < chrMemory.Length {
        chrMemory[t.value] := data;
      }
    }

    /** The mapper IRQ line, acknowledged as it is read. Only MMC3 raises it. */
    method TakeIrqSetState() returns (b: bool)
      requires Valid()
      modifies Boards
      ensures Valid()
      ensures b == (mapper.Mmc3? && old(mapper.m4.irqActive))
      ensures mapper.Mmc3? ==>
        mapper.m4.Irq() == old(mapper.m4.Irq()).(active := false) &&
        mapper.m4.BankState() == old(mapper.m4.BankState())
      ensures !mapper.Mmc3? ==> unchanged(Boards)
    {
      b := false;
      if mapper.Mmc3? {
        b := mapper.m4.IrqState();
        mapper.m4.IrqClear();
      }
    }

    /** Battery-backed RAM, for boards that have it. */
    function GetSram(): (r: Option<seq<bv8>>)
      requires Valid()
      reads Repr
      ensures r.Some? <==> mapper.Mmc1? || mapper.Mmc3?
      ensures r.Some? ==> |r.value| == 0x2000
    {
      match mapper
      case Mmc1(b) => Some(b.ramData[..])
      case Mmc3(b) => Some(b.ramData[..])
      case _ => None
    }

    /** The 16 KB PRG bank the debugger shows for a CPU address. */
    function GetPrgBank(addr: bv16): (r: Option<bv8>)
      requires Valid()
      reads Repr
      ensures r.Some? ==> addr >= 0x8000
      ensures !mapper.Nrom? ==> (r.Some? <==> addr >= 0x8000)
    {
      match mapper
      case Nrom(_) => if 0x8000 <= addr <= 0xBFFF then Some(0) else if 0xC000 <= addr then Some(1) else None
      case Mmc1(b) => b.GetPrgBank(addr)
      case UxRom(b) => b.GetPrgBank(addr)
      case CnRom(b) => b.GetPrgBank(addr)
      case Mmc3(b) => b.GetPrgBank(addr)
      case AxRom(b) => b.GetPrgBank(addr)
      case GxRom(b) => b.GetPrgBank(addr)
    }
  }
}
