/**
 * The emulator: it owns the CPU, the PPU, the APU, the cartridge, the two
 * controller ports, the work RAM and the nametables, and interleaves them.
 * A call to `clock` is one PPU dot; every third call also clocks the APU and
 * the CPU, and hands the CPU a pending interrupt when it sits between
 * instructions. Frames are turned into RGB, RGBA or ARGB bytes through a
 * 64-colour palette.
 */
module Nestadia {
  import opened Bits
  import opened Wrappers
  import opened Opcodes
  import opened Alu
  import opened CpuSpec
  import opened CpuStep
  import opened PpuSpec
  import opened PpuRegisters
  import INes
  import Cpu
  import CpuBus
  import Bus
  import Ppu
  import Cartridge
  import Apu

  // ---------------------------------------------------------------------
  // The 3:1 clock divider

  /**
   * `clock_count` after a call: reset to 0 on a CPU turn, then incremented
   * with `wrapping_add(1)`.
   */
  function NextClockCount(c: bv8): (c': bv8)
    ensures c <= 3 ==> 1 <= c' <= 3
  {
    (if c % 3 == 0 then 0 else c) + 1
  }

  /** The divider's reachable values: it restarts from 0 every third call, so it never passes 3. */
  type ClockCount = c: bv8 | c <= 3

  /** The calls on which the APU and the CPU are clocked. */
  predicate CpuTurn(c: bv8)
  {
    c % 3 == 0
  }

  /** How many of `n` consecutive calls, the first one seeing `c`, are CPU turns. */
  function CpuTurns(c: bv8, n: nat): nat
    decreases n
  {
    if n == 0 then 0 else (if CpuTurn(c) then 1 else 0) + CpuTurns(NextClockCount(c), n - 1)
  }

  /** How far into its three-call round a counter value is: 2 means the next call is a CPU turn. */
  function Phase(c: bv8): nat
  {
    if c == 1 then 0 else if c == 2 then 1 else 2
  }

  /**
   * The CPU runs once every three calls: from any counter value the clock
   * can reach, `n` calls hold `(n + Phase(c)) / 3` CPU turns. From a reset
   * (counter 0) that is `(n + 2) / 3`, so the very first call is a CPU turn.
   */
  lemma {:induction false} CpuEveryThirdCall(c: bv8, n: nat)
    requires c <= 3
    ensures CpuTurns(c, n) == (n + Phase(c)) / 3
    decreases n
  {
    if n > 0 {
      var c' := NextClockCount(c);
      CpuEveryThirdCall(c', n - 1);
      if c == 0 || c == 3 {
        assert c' == 1;
      } else if c == 1 {
        assert c' == 2;
      } else {
        assert c' == 3;
      }
    }
  }

  // ---------------------------------------------------------------------
  // Frame conversion

  /** A palette colour: red, green and blue bytes. */
  datatype Rgb = Rgb(r: bv8, g: bv8, b: bv8)

  /** The palette has one colour for each of the 64 values a pixel's low six bits can take. */
  type Palette = p: seq<Rgb> | |p| == 64 witness seq(64, _ => Rgb(0, 0, 0))

  /** The colour of a frame pixel: its low six bits index the palette. */
  function PixelColor(palette: Palette, pixel: bv8): Rgb
  {
    palette[Low6(pixel)]
  }

  /** `(pixel & 0x3f) as usize`. */
  function Low6(pixel: bv8): (i: nat)
    ensures i < 64 && i == Nat8(pixel) % 64
  {
    Nat8(pixel & 0x3F)
  }

  /** Byte `k` of `frame_to_rgb`'s output: red, green, blue for each pixel in turn. */
  function RgbByte(frame: seq<bv8>, palette: Palette, k: nat): bv8
    requires k < 3 * |frame|
  {
    var c := PixelColor(palette, frame[k / 3]);
    if k % 3 == 0 then c.r else if k % 3 == 1 then c.g else c.b
  }

  /** Byte `k` of `frame_to_rgba`'s output: red, green, blue and an opaque alpha for each pixel. */
  function RgbaByte(frame: seq<bv8>, palette: Palette, k: nat): bv8
    requires k < 4 * |frame|
  {
    var c := PixelColor(palette, frame[k / 4]);
    if k % 4 == 0 then c.r else if k % 4 == 1 then c.g else if k % 4 == 2 then c.b else 0xFF
  }

  /** Byte `k` of `frame_to_argb`'s output: blue, green, red and an opaque alpha for each pixel. */
  function ArgbByte(frame: seq<bv8>, palette: Palette, k: nat): bv8
    requires k < 4 * |frame|
  {
    var c := PixelColor(palette, frame[k / 4]);
    if k % 4 == 0 then c.b else if k % 4 == 1 then c.g else if k % 4 == 2 then c.r else 0xFF
  }

  /** RGBA carries the RGB bytes of every pixel unchanged, followed by 0xFF. */
  lemma RgbaExtendsRgb(frame: seq<bv8>, palette: Palette, i: nat, c: nat)
    requires i < |frame| && c < 4
    ensures c < 3 ==> RgbaByte(frame, palette, 4 * i + c) == RgbByte(frame, palette, 3 * i + c)
    ensures c == 3 ==> RgbaByte(frame, palette, 4 * i + c) == 0xFF
  {
    DivModUnique(i, 4, c);
    assert 4 * i == i * 4;
    if c < 3 {
      DivModUnique(i, 3, c);
      assert 3 * i == i * 3;
    }
  }

  /** ARGB is RGBA with the red and blue bytes of each pixel swapped. */
  lemma ArgbSwapsRgba(frame: seq<bv8>, palette: Palette, i: nat, c: nat)
    requires i < |frame| && c < 4
    ensures c < 3 ==> ArgbByte(frame, palette, 4 * i + c) == RgbaByte(frame, palette, 4 * i + (2 - c))
    ensures c == 3 ==> ArgbByte(frame, palette, 4 * i + c) == 0xFF
  {
    DivModUnique(i, 4, c);
    assert 4 * i == i * 4;
    if c < 3 {
      DivModUnique(i, 4, 2 - c);
    }
  }

  /** `frame_to_rgb`: three bytes per pixel. */
  method FrameToRgb(frame: seq<bv8>, palette: Palette, output: array<bv8>)
    requires |frame| == Ppu.FRAME_SIZE && output.Length == 3 * Ppu.FRAME_SIZE
    modifies output
    ensures forall k :: 0 <= k < output.Length ==> output[k] == RgbByte(frame, palette, k)
  {
    for i := 0 to |frame|
      invariant forall k :: 0 <= k < 3 * i ==> output[k] == RgbByte(frame, palette, k)
    {
      var f := PixelColor(palette, frame[i]);
      output[i * 3] := f.r;
      output[i * 3 + 1] := f.g;
      output[i * 3 + 2] := f.b;
      assert forall k :: 3 * i <= k < 3 * i + 3 ==> k / 3 == i && k % 3 == k - 3 * i;
    }
  }

  /** `frame_to_rgba`: four bytes per pixel, the last always 0xFF. */
  method FrameToRgba(frame: seq<bv8>, palette: Palette, output: array<bv8>)
    requires |frame| == Ppu.FRAME_SIZE && output.Length == 4 * Ppu.FRAME_SIZE
    modifies output
    ensures forall k :: 0 <= k < output.Length ==> output[k] == RgbaByte(frame, palette, k)
  {
    for i := 0 to |frame|
      invariant forall k :: 0 <= k < 4 * i ==> output[k] == RgbaByte(frame, palette, k)
    {
      var f := PixelColor(palette, frame[i]);
      output[i * 4] := f.r;
      output[i * 4 + 1] := f.g;
      output[i * 4 + 2] := f.b;
      output[i * 4 + 3] := 0xFF;
      assert forall k :: 4 * i <= k < 4 * i + 4 ==> k / 4 == i && k % 4 == k - 4 * i;
    }
  }

  /** `frame_to_argb`: four bytes per pixel in blue, green, red, alpha order. */
  method FrameToArgb(frame: seq<bv8>, palette: Palette, output: array<bv8>)
    requires |frame| == Ppu.FRAME_SIZE && output.Length == 4 * Ppu.FRAME_SIZE
    modifies output
    ensures forall k :: 0 <= k < output.Length ==> output[k] == ArgbByte(frame, palette, k)
  {
    for i := 0 to |frame|
      invariant forall k :: 0 <= k < 4 * i ==> output[k] == ArgbByte(frame, palette, k)
    {
      var f := PixelColor(palette, frame[i]);
      output[i * 4] := f.b;
      output[i * 4 + 1] := f.g;
      output[i * 4 + 2] := f.r;
      output[i * 4 + 3] := 0xFF;
      assert forall k :: 4 * i <= k < 4 * i + 4 ==> k / 4 == i && k % 4 == k - 4 * i;
    }
  }

  // ---------------------------------------------------------------------
  // The emulator

  /** What the CPU did on a call to `clock`. */
  datatype CpuAction =
    | NoTurn      // not a CPU turn
    | Countdown   // cycles were pending: the CPU only counted down
    | Fetch       // between instructions with no interrupt: the next instruction ran
    | NmiTaken    // between instructions with an NMI pending: the NMI was entered, then a clock
    | IrqTaken    // between instructions with a cartridge IRQ and no NMI: irq, then a clock

  /** Whether the PPU's NMI latch is set after one dot from this register file and timing. */
  predicate NmiAfterDot(regs: PpuRegs, timing: DotTiming)
  {
    regs.nmi || (Ppu.Ppu.VblankDot(DotStep(timing, RenderingEnabled(regs.mask))) && regs.ctrl & GENERATE_NMI != 0)
  }

  /** The registers `reset` leaves, with the program counter from the reset vector. */
  function ResetRegisters(start: bv16): Registers
  {
    Registers(0, 0, 0, 0xFD, start, 8, U | I)
  }

  class Emulator {
    const apu: Apu.Apu
    const cpu: Cpu.Cpu
    /** The CPU bus owns the RAM, the controller ports, the PPU and the PPU bus (cartridge and nametables). */
    const bus: CpuBus.CpuBus
    /** The opcode table the CPU decodes with. */
    const table: OpcodeTable
    var clockCount: ClockCount

    /** The components are separate and valid. */
    ghost predicate Valid()
      reads bus, bus.Repr, apu.Repr()
    {
      bus.Valid() && apu.Valid() && cpu !in bus.Repr && this !in bus.Repr && apu.Repr() !! bus.Repr &&
      cpu !in apu.Repr() && this !in apu.Repr()
    }

    /** The state `reset` establishes. */
    ghost predicate IsReset()
      requires Valid()
      reads this, cpu, bus, bus.Repr, apu.Repr()
    {
      cpu.Regs() == ResetRegisters(Cpu.Vector(bus.ppuBus.cartridge, PC_START)) &&
      apu.State() == Apu.ApuDefault() && bus.ppu.Initial() && clockCount == 0
    }

    /** The struct of `Emulator::new`: the parts, with the divider at 0. */
    constructor (bus: CpuBus.CpuBus, cpu: Cpu.Cpu, apu: Apu.Apu, table: OpcodeTable)
      requires bus.Valid() && apu.Valid() && cpu !in bus.Repr && apu.Repr() !! bus.Repr && cpu !in apu.Repr()
      ensures Valid() && this.bus == bus && this.cpu == cpu && this.apu == apu && this.table == table
      ensures clockCount == 0
    {
      this.bus := bus;
      this.cpu := cpu;
      this.apu := apu;
      this.table := table;
      clockCount := 0;
    }

    /** `reset`: the CPU from the reset vector, the APU and the PPU back to power-up, the divider at 0. */
    method Reset()
      requires Valid()
      modifies this, cpu, bus.Repr, apu.Repr()
      ensures Valid() && IsReset()
      ensures bus.ram[..] == old(bus.ram[..]) && bus.ppuBus.nameTables[..] == old(bus.ppuBus.nameTables[..])
      ensures unchanged(bus.controllers) && unchanged(bus.ppuBus.cartridge.Repr)
    {
      // The divider is cleared first: none of the three resets reads it.
      clockCount := 0;
      ResetParts(cpu, bus, apu);
    }

    /** `set_controller1`: the live button byte of the first pad. */
    method SetController1(state: bv8)
      requires Valid()
      modifies bus.controllers
      ensures Valid() && bus.controllers.controller1 == state
      ensures bus.controllers.controller2 == old(bus.controllers.controller2)
      ensures bus.controllers.strobe == old(bus.controllers.strobe)
      ensures bus.controllers.snapshot1 == old(bus.controllers.snapshot1)
      ensures bus.controllers.snapshot2 == old(bus.controllers.snapshot2)
    {
      bus.controllers.controller1 := state;
    }

    /** `set_controller2`: the live button byte of the second pad. */
    method SetController2(state: bv8)
      requires Valid()
      modifies bus.controllers
      ensures Valid() && bus.controllers.controller2 == state
      ensures bus.controllers.controller1 == old(bus.controllers.controller1)
      ensures bus.controllers.strobe == old(bus.controllers.strobe)
      ensures bus.controllers.snapshot1 == old(bus.controllers.snapshot1)
      ensures bus.controllers.snapshot2 == old(bus.controllers.snapshot2)
    {
      bus.controllers.controller2 := state;
    }

    /**
     * `clock`: one PPU dot; on every third call (the divider at a multiple
     * of 3) the APU clock and the CPU part. Returns the frame exactly when
     * the PPU has one ready.
     */
    method Clock() returns (frame: Option<seq<bv8>>, ghost action: CpuAction)
      requires Valid()
      modifies this, cpu, bus.Repr, apu.Repr()
      ensures Valid()
      ensures clockCount == NextClockCount(old(clockCount))
      ensures frame == bus.ppu.ReadyFrame()
      ensures action == NoTurn <==> !CpuTurn(old(clockCount))
      ensures !CpuTurn(old(clockCount)) ==>
        cpu.Regs() == old(cpu.Regs()) && apu.State() == old(apu.State()) &&
        bus.ppu.timing == DotStep(old(bus.ppu.timing), RenderingEnabled(old(bus.ppu.regs.mask))) &&
        bus.ppu.regs.nmi == NmiAfterDot(old(bus.ppu.regs), old(bus.ppu.timing))
      ensures CpuTurn(old(clockCount)) ==>
        apu.State() == if apu.audio then Apu.ApuClock(old(apu.State())) else old(apu.State())
      ensures CpuTurn(old(clockCount)) ==> (action == Countdown <==> old(cpu.cycles) != 0)
      ensures CpuTurn(old(clockCount)) && old(cpu.cycles) == 0 ==>
        (action == NmiTaken <==> NmiAfterDot(old(bus.ppu.regs), old(bus.ppu.timing)))
      ensures action == Countdown ==>
        cpu.Regs() == old(cpu.Regs()).(cycles := CyclesAfterClock(old(cpu.cycles), 0, 0)) &&
        bus.ppu.timing == DotStep(old(bus.ppu.timing), RenderingEnabled(old(bus.ppu.regs.mask))) &&
        bus.ppu.regs.nmi == NmiAfterDot(old(bus.ppu.regs), old(bus.ppu.timing))
    {
      // The divider is advanced first: nothing the components do reads it.
      var turn := CpuTurn(clockCount);
      clockCount := NextClockCount(clockCount);
      action := Tick(cpu, bus, apu, table, turn);
      frame := bus.ppu.ReadyFrame();
    }
  }

  /** The emulator around a loaded cartridge, reset; the cartridge itself is left as it was. */
  method Build(cartridge: Cartridge.Cartridge, table: OpcodeTable, audio: bool) returns (e: Emulator)
    requires cartridge.Valid()
    modifies cartridge.Repr
    ensures e.Valid() && e.IsReset() && e.apu.audio == audio && e.table == table
    ensures e.bus.ppuBus.cartridge == cartridge && unchanged(cartridge.Repr)
    ensures AllZero(e.bus.ram[..]) && AllZero(e.bus.ppuBus.nameTables[..])
    ensures e.bus.controllers.controller1 == 0 && e.bus.controllers.controller2 == 0
  {
    var bus, cpu, apu := NewParts(cartridge, audio);
    e := new Emulator(bus, cpu, apu, table);
    e.Reset();
  }

  /** The components around a loaded cartridge, as `Emulator::new` creates them. */
  method NewParts(cartridge: Cartridge.Cartridge, audio: bool) returns (bus: CpuBus.CpuBus, cpu: Cpu.Cpu, apu: Apu.Apu)
    requires cartridge.Valid()
    ensures bus.Valid() && apu.Valid() && cpu !in bus.Repr && apu.Repr() !! bus.Repr && cpu !in apu.Repr()
    ensures fresh(bus.Repr - cartridge.Repr) && fresh(cpu) && fresh(apu.Repr())
    ensures bus.ppuBus.cartridge == cartridge && apu.audio == audio
    ensures AllZero(bus.ram[..]) && AllZero(bus.ppuBus.nameTables[..])
    ensures bus.controllers.controller1 == 0 && bus.controllers.controller2 == 0
    ensures !bus.controllers.strobe && bus.controllers.snapshot1 == 0 && bus.controllers.snapshot2 == 0
  {
    bus := NewBus(cartridge);
    cpu := new Cpu.Cpu();
    apu := new Apu.Apu(audio);
  }

  /** The CPU bus around a cartridge: zeroed RAM and nametables, idle controllers and a power-up PPU. */
  method NewBus(cartridge: Cartridge.Cartridge) returns (bus: CpuBus.CpuBus)
    requires cartridge.Valid()
    ensures bus.Valid() && fresh(bus.Repr - cartridge.Repr) && bus.ppuBus.cartridge == cartridge
    ensures AllZero(bus.ram[..]) && AllZero(bus.ppuBus.nameTables[..])
    ensures bus.controllers.controller1 == 0 && bus.controllers.controller2 == 0
    ensures !bus.controllers.strobe && bus.controllers.snapshot1 == 0 && bus.controllers.snapshot2 == 0
  {
    var ppu, ppuBus := NewPpuSide(cartridge);
    var ram := new bv8[Bus.RAM_SIZE](_ => 0);
    assert AllZero(ram[..]);
    var controllers := new Bus.Controllers();
    bus := new CpuBus.CpuBus(ram, controllers, ppu, ppuBus);
  }

  /** A power-up PPU and the PPU bus around the cartridge with zeroed nametables. */
  method NewPpuSide(cartridge: Cartridge.Cartridge) returns (ppu: Ppu.Ppu, ppuBus: Bus.PpuBus)
    requires cartridge.Valid()
    ensures ppu.Valid() && ppuBus.Valid() && ppu.Apart(ppuBus) && ppuBus.cartridge == cartridge
    ensures fresh(ppu.Repr) && fresh(ppuBus) && fresh(ppuBus.nameTables)
    ensures AllZero(ppuBus.nameTables[..])
  {
    var nameTables := new bv8[Bus.NAME_TABLES_SIZE](_ => 0);
    assert AllZero(nameTables[..]);
    ppu := new Ppu.Ppu();
    ppuBus := new Bus.PpuBus(cartridge, nameTables);
  }

  /**
   * The components' part of `clock`: the PPU dot, then, on a CPU turn, the
   * APU clock and the CPU part.
   */
  method Tick(cpu: Cpu.Cpu, bus: CpuBus.CpuBus, apu: Apu.Apu, table: OpcodeTable, turn: bool) returns (ghost action: CpuAction)
    requires bus.Valid() && apu.Valid() && cpu !in bus.Repr && apu.Repr() !! bus.Repr && cpu !in apu.Repr()
    modifies cpu, bus.Repr, apu.Repr()
    ensures bus.Valid() && apu.Valid()
    ensures action == NoTurn <==> !turn
    ensures !turn ==>
      cpu.Regs() == old(cpu.Regs()) && apu.State() == old(apu.State()) &&
      bus.ppu.timing == DotStep(old(bus.ppu.timing), RenderingEnabled(old(bus.ppu.regs.mask))) &&
      bus.ppu.regs.nmi == NmiAfterDot(old(bus.ppu.regs), old(bus.ppu.timing))
    ensures turn ==> apu.State() == if apu.audio then Apu.ApuClock(old(apu.State())) else old(apu.State())
    ensures turn ==> (action == Countdown <==> old(cpu.cycles) != 0)
    ensures turn && old(cpu.cycles) == 0 ==>
      (action == NmiTaken <==> NmiAfterDot(old(bus.ppu.regs), old(bus.ppu.timing)))
    ensures action == Countdown ==>
      cpu.Regs() == old(cpu.Regs()).(cycles := CyclesAfterClock(old(cpu.cycles), 0, 0)) &&
      bus.ppu.timing == DotStep(old(bus.ppu.timing), RenderingEnabled(old(bus.ppu.regs.mask))) &&
      bus.ppu.regs.nmi == NmiAfterDot(old(bus.ppu.regs), old(bus.ppu.timing))
  {
    bus.ClockPpu();
    if turn {
      action := CpuTurnParts(cpu, bus, apu, table);
    } else {
      action := NoTurn;
    }
  }

  /** A CPU turn after the dot: the APU clock, then the CPU part. */
  method CpuTurnParts(cpu: Cpu.Cpu, bus: CpuBus.CpuBus, apu: Apu.Apu, table: OpcodeTable) returns (ghost action: CpuAction)
    requires bus.Valid() && apu.Valid() && cpu !in bus.Repr && apu.Repr() !! bus.Repr && cpu !in apu.Repr()
    modifies cpu, bus.Repr, apu.Repr()
    ensures bus.Valid() && apu.Valid()
    ensures action != NoTurn
    ensures apu.State() == if apu.audio then Apu.ApuClock(old(apu.State())) else old(apu.State())
    ensures old(cpu.cycles) != 0 <==> action == Countdown
    ensures old(cpu.cycles) == 0 ==> (action == NmiTaken <==> old(bus.ppu.regs.nmi))
    ensures action == Countdown ==>
      cpu.Regs() == old(cpu.Regs()).(cycles := CyclesAfterClock(old(cpu.cycles), 0, 0)) &&
      bus.ppu.timing == old(bus.ppu.timing) && bus.ppu.regs.nmi == old(bus.ppu.regs.nmi)
  {
    apu.Clock();
    action := ClockCpu(cpu, bus, table);
  }

  /** The three resets of `reset`, in order: the CPU through the bus, the APU, the PPU. */
  method ResetParts(cpu: Cpu.Cpu, bus: CpuBus.CpuBus, apu: Apu.Apu)
    requires bus.Valid() && apu.Valid() && cpu !in bus.Repr && apu.Repr() !! bus.Repr && cpu !in apu.Repr()
    modifies cpu, bus.Repr, apu.Repr()
    ensures bus.Valid() && apu.Valid() && apu.State() == Apu.ApuDefault() && bus.ppu.Initial()
    ensures cpu.Regs() == ResetRegisters(Cpu.Vector(bus.ppuBus.cartridge, PC_START))
    ensures bus.ram[..] == old(bus.ram[..]) && bus.ppuBus.nameTables[..] == old(bus.ppuBus.nameTables[..])
    ensures unchanged(bus.controllers) && unchanged(bus.ppuBus.cartridge.Repr)
  {
    cpu.Reset(bus);
    apu.Reset();
    bus.ResetPpu();
  }

  /**
   * The CPU part of a CPU turn: between instructions a pending NMI is taken
   * first, else a pending cartridge IRQ, and then the CPU is clocked. The
   * NMI latch is consumed only between instructions, and the IRQ line only
   * when no NMI was taken.
   */
  method ClockCpu(cpu: Cpu.Cpu, bus: CpuBus.CpuBus, table: OpcodeTable) returns (ghost action: CpuAction)
    requires bus.Valid() && cpu !in bus.Repr
    modifies cpu, bus.Repr
    ensures bus.Valid()
    ensures action != NoTurn
    ensures old(cpu.cycles) != 0 <==> action == Countdown
    ensures old(cpu.cycles) == 0 ==> (action == NmiTaken <==> old(bus.ppu.regs.nmi))
    ensures action == IrqTaken ==> bus.ppuBus.cartridge.mapper.Mmc3?
    ensures action == Countdown ==>
      cpu.Regs() == old(cpu.Regs()).(cycles := CyclesAfterClock(old(cpu.cycles), 0, 0)) && unchanged(bus.Repr)
  {
    ghost var mem: Memory := imap addr: bv16 :: Blank(addr);
    var nmi := false;
    if cpu.cycles == 0 {
      nmi := bus.TakeNmi();
    }
    if nmi {
      cpu.Nmi(bus, mem);
      cpu.Clock(bus, table, mem);
      action := NmiTaken;
    } else {
      var irq := false;
      if cpu.cycles == 0 {
        irq := bus.TakeCartridgeIrq();
      }
      ghost var pending := cpu.cycles;
      if irq {
        cpu.Irq(bus, mem);
        cpu.Clock(bus, table, mem);
        action := IrqTaken;
      } else {
        cpu.Clock(bus, table, mem);
        action := if pending != 0 then Countdown else Fetch;
      }
    }
  }

  /** The memory image handed to the CPU's ghost parameters; the emulator's contracts do not depend on it. */
  function Blank(addr: bv16): bv8
  {
    0
  }

  /** Every byte of `s` is 0. */
  predicate AllZero(s: seq<bv8>)
  {
    forall i :: 0 <= i < |s| ==> s[i] == 0
  }

  /**
   * `Emulator::new`: a cartridge load error is returned unchanged; otherwise
   * the emulator around the loaded cartridge, reset.
   */
  method New(rom: seq<bv8>, saveData: Option<seq<bv8>>, table: OpcodeTable, audio: bool)
    returns (r: Result<Emulator, INes.RomParserError>)
    ensures r.Err? <==> Cartridge.Layout(rom).Err?
    ensures r.Err? ==> r.error == Cartridge.Layout(rom).error
    ensures r.Ok? ==>
      var e := r.value;
      var img := Cartridge.Layout(rom).value;
      e.Valid() && e.IsReset() && e.apu.audio == audio && e.table == table &&
      e.bus.ppuBus.cartridge.prgMemory == img.prg && e.bus.ppuBus.cartridge.chrMemory[..] == img.chr &&
      AllZero(e.bus.ram[..]) && AllZero(e.bus.ppuBus.nameTables[..]) &&
      e.bus.controllers.controller1 == 0 && e.bus.controllers.controller2 == 0
  {
    var loaded := Cartridge.Load(rom, saveData);
    if loaded.Err? {
      return Err(loaded.error);
    }
    var e := Build(loaded.value, table, audio);
    r := Ok(e);
  }
}
