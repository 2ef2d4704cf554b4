/**
 * The 6502 interpreter as an object: the registers are fields updated in
 * place and every memory access goes through the CPU bus. Each addressing
 * mode and each instruction group is a method, proved to do what module
 * CpuStep says of the same instruction whenever the memory image agrees
 * with the bus at every quiet address, the instruction's reads are quiet
 * and its writes go to RAM.
 */
module Cpu {
  import opened Bits
  import opened Alu
  import opened Opcodes
  import opened CpuSpec
  import opened CpuStep
  import CpuBus
  import Bus
  import Cartridge

  /** The image gives the bytes the bus returns at every quiet address. */
  ghost predicate Matches(bus: CpuBus.CpuBus, mem: Memory)
    requires bus.Valid()
    reads bus, bus.Repr
  {
    forall addr: bv16 {:trigger bus.Peek(addr)} :: CpuBus.Quiet(addr) ==> mem[addr] == bus.Peek(addr)
  }

  /** The little-endian word of an interrupt vector in the cartridge. */
  ghost function Vector(cart: Cartridge.Cartridge, addr: bv16): bv16
    requires cart.Valid()
    reads cart.Repr
  {
    Word(cart.ReadPrgMem(addr), cart.ReadPrgMem(addr + 1))
  }

  // Bus access

  /** A read through the bus: a quiet read changes nothing and returns the image's byte. */
  method Load(bus: CpuBus.CpuBus, addr: bv16, ghost mem: Memory) returns (v: bv8)
    requires bus.Valid()
    modifies bus.Repr
    ensures bus.Valid()
    ensures CpuBus.Quiet(addr) ==> unchanged(bus.Repr) && bus.ram[..] == old(bus.ram[..])
    ensures old(Matches(bus, mem)) && CpuBus.Quiet(addr) ==> v == mem[addr]
  {
    v := bus.Read(addr);
  }

  /** Two reads, `lo` first: the little-endian word they hold. */
  method LoadWord(bus: CpuBus.CpuBus, lo: bv16, hi: bv16, ghost mem: Memory) returns (w: bv16)
    requires bus.Valid()
    modifies bus.Repr
    ensures bus.Valid()
    ensures CpuBus.Quiet(lo) && CpuBus.Quiet(hi) ==> unchanged(bus.Repr) && bus.ram[..] == old(bus.ram[..])
    ensures old(Matches(bus, mem)) && CpuBus.Quiet(lo) && CpuBus.Quiet(hi) ==> w == Word(mem[lo], mem[hi])
  {
    var l := Load(bus, lo, mem);
    var h := Load(bus, hi, mem);
    w := Word(l, h);
  }

  // Addressing modes. Each takes the address of the operand's first byte;
  // the instruction moves PC past the operand (PastOperand) itself.

  /** am_zp: the operand byte as an address in page 0. */
  method AmZp(bus: CpuBus.CpuBus, pc: bv16, ghost mem: Memory) returns (addr: bv16)
    requires bus.Valid()
    modifies bus.Repr
    ensures bus.Valid()
    ensures CpuBus.Quiet(pc) ==> unchanged(bus.Repr) && bus.ram[..] == old(bus.ram[..])
    ensures old(Matches(bus, mem)) && CpuBus.Quiet(pc) ==> addr == CpuSpec.ZeroPage(mem[pc])
  {
    var b := Load(bus, pc, mem);
    addr := CpuSpec.ZeroPage(b);
  }

  /** am_zpx and am_zpy: the operand byte plus the index, wrapping inside page 0. */
  method AmZpIndexed(bus: CpuBus.CpuBus, pc: bv16, index: bv8, ghost mem: Memory) returns (addr: bv16)
    requires bus.Valid()
    modifies bus.Repr
    ensures bus.Valid()
    ensures CpuBus.Quiet(pc) ==> unchanged(bus.Repr) && bus.ram[..] == old(bus.ram[..])
    ensures old(Matches(bus, mem)) && CpuBus.Quiet(pc) ==> addr == ZeroPageIndexed(mem[pc], index)
  {
    var b := Load(bus, pc, mem);
    addr := ZeroPageIndexed(b, index);
  }

  /** am_abs: the little-endian operand word. */
  method AmAbs(bus: CpuBus.CpuBus, pc: bv16, ghost mem: Memory) returns (addr: bv16)
    requires bus.Valid()
    modifies bus.Repr
    ensures bus.Valid()
    ensures QuietOperand(Absolute, pc) ==> unchanged(bus.Repr) && bus.ram[..] == old(bus.ram[..])
    ensures old(Matches(bus, mem)) && QuietOperand(Absolute, pc) ==> addr == OperandWord(pc, mem)
  {
    addr := LoadWord(bus, pc, pc + 1, mem);
  }

  /** am_abx and am_aby: the operand word plus the index, and whether that left the word's page. */
  method AmAbsIndexed(bus: CpuBus.CpuBus, pc: bv16, index: bv8, ghost mem: Memory) returns (addr: bv16, extra: bool)
    requires bus.Valid()
    modifies bus.Repr
    ensures bus.Valid()
    ensures QuietOperand(Absolute, pc) ==> unchanged(bus.Repr) && bus.ram[..] == old(bus.ram[..])
    ensures old(Matches(bus, mem)) && QuietOperand(Absolute, pc) ==>
      (addr, extra) == Offset(OperandWord(pc, mem), index)
  {
    var base := AmAbs(bus, pc, mem);
    addr := Indexed(base, index);
    extra := PageCrossed(base, addr);
  }

  /**
   * am_ind: the operand word is a pointer and the target is the word it
   * points to, its high byte read from the pointer's own page.
   */
  method AmInd(bus: CpuBus.CpuBus, pc: bv16, ghost mem: Memory) returns (addr: bv16)
    requires bus.Valid()
    modifies bus.Repr
    ensures bus.Valid()
    ensures old(Matches(bus, mem)) && QuietPointer(pc, mem) ==>
      addr == Word(mem[OperandWord(pc, mem)], mem[IndirectHigh(OperandWord(pc, mem))]) && unchanged(bus.Repr) && bus.ram[..] == old(bus.ram[..])
  {
    var ptr := AmAbs(bus, pc, mem);
    addr := LoadWord(bus, ptr, IndirectHigh(ptr), mem);
  }

  /** am_izx: the pointer at page-0 address operand + X, both bytes wrapping in page 0. */
  method AmIzx(bus: CpuBus.CpuBus, pc: bv16, x: bv8, ghost mem: Memory) returns (addr: bv16)
    requires bus.Valid()
    modifies bus.Repr
    ensures bus.Valid()
    ensures CpuBus.Quiet(pc) ==> unchanged(bus.Repr) && bus.ram[..] == old(bus.ram[..])
    ensures old(Matches(bus, mem)) && CpuBus.Quiet(pc) ==>
      addr == Word(mem[IndirectXLow(mem[pc], x)], mem[IndirectXHigh(mem[pc], x)])
  {
    var b := Load(bus, pc, mem);
    ZeroPageQuiet(IndirectXLow(b, x));
    ZeroPageQuiet(IndirectXHigh(b, x));
    addr := LoadWord(bus, IndirectXLow(b, x), IndirectXHigh(b, x), mem);
  }

  /** am_izy: the pointer at page-0 address operand, plus Y, and whether that left the pointer's page. */
  method AmIzy(bus: CpuBus.CpuBus, pc: bv16, y: bv8, ghost mem: Memory) returns (addr: bv16, extra: bool)
    requires bus.Valid()
    modifies bus.Repr
    ensures bus.Valid()
    ensures CpuBus.Quiet(pc) ==> unchanged(bus.Repr) && bus.ram[..] == old(bus.ram[..])
    ensures old(Matches(bus, mem)) && CpuBus.Quiet(pc) ==>
      (addr, extra) == Offset(Word(mem[IndirectYLow(mem[pc])], mem[IndirectYHigh(mem[pc])]), y)
  {
    var b := Load(bus, pc, mem);
    ZeroPageQuiet(IndirectYLow(b));
    ZeroPageQuiet(IndirectYHigh(b));
    var base := LoadWord(bus, IndirectYLow(b), IndirectYHigh(b), mem);
    addr := Indexed(base, y);
    extra := PageCrossed(base, addr);
  }

  /** The effective address of an address-computing mode, by the am_* the dispatch calls for it. */
  method Address(bus: CpuBus.CpuBus, mode: Mode, r: Registers, ghost mem: Memory) returns (addr: bv16, extra: bool)
    requires bus.Valid() && (AddressMode(mode) || mode == Indirect)
    modifies bus.Repr
    ensures bus.Valid()
    ensures old(Matches(bus, mem)) && QuietAddress(mode, r, mem) ==>
      (addr, extra) == EffectiveAddress(mode, r, mem) && unchanged(bus.Repr) && bus.ram[..] == old(bus.ram[..])
  {
    if mode in {ZeroPage, ZeroPageX, ZeroPageY} {
      addr := PageZeroAddress(bus, mode, r, mem);
      extra := false;
    } else if mode in {Absolute, AbsoluteX, AbsoluteY} {
      addr, extra := AbsoluteAddress(bus, mode, r, mem);
    } else {
      addr, extra := IndirectAddress(bus, mode, r, mem);
    }
  }

  /** The page-0 modes: am_zp, am_zpx and am_zpy. */
  method PageZeroAddress(bus: CpuBus.CpuBus, mode: Mode, r: Registers, ghost mem: Memory) returns (addr: bv16)
    requires bus.Valid() && mode in {ZeroPage, ZeroPageX, ZeroPageY}
    modifies bus.Repr
    ensures bus.Valid()
    ensures old(Matches(bus, mem)) && CpuBus.Quiet(r.pc) ==>
      (addr, false) == EffectiveAddress(mode, r, mem) && unchanged(bus.Repr) && bus.ram[..] == old(bus.ram[..])
  {
    if mode == ZeroPage {
      addr := AmZp(bus, r.pc, mem);
    } else {
      addr := AmZpIndexed(bus, r.pc, IndexRegister(mode, r), mem);
    }
  }

  /** The absolute modes: am_abs, am_abx and am_aby. */
  method AbsoluteAddress(bus: CpuBus.CpuBus, mode: Mode, r: Registers, ghost mem: Memory) returns (addr: bv16, extra: bool)
    requires bus.Valid() && mode in {Absolute, AbsoluteX, AbsoluteY}
    modifies bus.Repr
    ensures bus.Valid()
    ensures old(Matches(bus, mem)) && QuietOperand(Absolute, r.pc) ==>
      (addr, extra) == EffectiveAddress(mode, r, mem) && unchanged(bus.Repr) && bus.ram[..] == old(bus.ram[..])
  {
    if mode == Absolute {
      addr := AmAbs(bus, r.pc, mem);
      extra := false;
    } else {
      addr, extra := AmAbsIndexed(bus, r.pc, IndexRegister(mode, r), mem);
    }
  }

  /** The indirect modes: am_ind, am_izx and am_izy. */
  method IndirectAddress(bus: CpuBus.CpuBus, mode: Mode, r: Registers, ghost mem: Memory) returns (addr: bv16, extra: bool)
    requires bus.Valid() && mode in {Indirect, IndirectX, IndirectY}
    modifies bus.Repr
    ensures bus.Valid()
    ensures old(Matches(bus, mem)) && QuietAddress(mode, r, mem) ==>
      (addr, extra) == EffectiveAddress(mode, r, mem) && unchanged(bus.Repr) && bus.ram[..] == old(bus.ram[..])
  {
    extra := false;
    if mode == Indirect {
      addr := AmInd(bus, r.pc, mem);
    } else if mode == IndirectX {
      addr := AmIzx(bus, r.pc, r.x, mem);
    } else {
      addr, extra := AmIzy(bus, r.pc, r.y, mem);
    }
  }

  /** The operand of a read instruction: am_imm's byte, or the byte at the effective address. */
  method ReadOperand(bus: CpuBus.CpuBus, mode: Mode, r: Registers, ghost mem: Memory) returns (v: bv8, extra: bool)
    requires bus.Valid() && (mode == Immediate || AddressMode(mode))
    modifies bus.Repr
    ensures bus.Valid()
    ensures old(Matches(bus, mem)) && QuietRead(mode, r, mem) ==> (v, extra) == Operand(mode, r, mem) && unchanged(bus.Repr) && bus.ram[..] == old(bus.ram[..])
  {
    if mode == Immediate {
      v := Load(bus, r.pc, mem);
      extra := false;
    } else {
      var addr;
      addr, extra := Address(bus, mode, r, mem);
      v := Load(bus, addr, mem);
    }
  }

  /** A write through the bus; one below $2000 is a RAM write and changes nothing else. */
  method Store(bus: CpuBus.CpuBus, w: Write)
    requires bus.Valid()
    modifies bus.Repr
    ensures bus.Valid()
    ensures w.addr <= 0x1FFF ==> bus.ram[..] == RamAfter(old(bus.ram[..]), [w]) && unchanged(bus.Repr - {bus.ram})
  {
    ghost var ram := bus.ram[..];
    bus.Write(w.addr, w.data);
    if w.addr <= 0x1FFF {
      RamAfterOne(ram, w.addr, w.data);
    }
  }

  // The stack

  /** stack_push without the SP update: the byte goes to page 1 at SP. */
  method Push(bus: CpuBus.CpuBus, st: bv8, data: bv8)
    requires bus.Valid()
    modifies bus.Repr
    ensures bus.Valid()
    ensures bus.ram[..] == PushRam(old(bus.ram[..]), st, data) && unchanged(bus.Repr - {bus.ram})
  {
    bus.Write(StackAddr(st), data);
  }

  /** Two pushes of a return address, high byte first. */
  method PushReturnAddress(bus: CpuBus.CpuBus, st: bv8, ret: bv16)
    requires bus.Valid()
    modifies bus.Repr
    ensures bus.Valid()
    ensures bus.ram[..] == RamAfter(old(bus.ram[..]), ReturnPushes(st, ret)) && unchanged(bus.Repr - {bus.ram})
  {
    ghost var ram := bus.ram[..];
    Push(bus, st, Hi(ret));
    Push(bus, st - 1, Lo(ret));
    CpuStep.PushReturn(ram, st, ret);
  }

  /** The three pushes of an interrupt frame. */
  method PushInterruptFrame(bus: CpuBus.CpuBus, st: bv8, ret: bv16, status: bv8)
    requires bus.Valid()
    modifies bus.Repr
    ensures bus.Valid()
    ensures bus.ram[..] == RamAfter(old(bus.ram[..]), FramePushes(st, ret, status)) && unchanged(bus.Repr - {bus.ram})
  {
    ghost var ram := bus.ram[..];
    Push(bus, st, Hi(ret));
    Push(bus, st - 1, Lo(ret));
    Push(bus, st - 2, status);
    PushThree(ram, st, ret, status);
  }

  /** The `k`-th stack_pop from stack pointer `st`: page 1 is RAM, so the read is quiet. */
  method Pull(bus: CpuBus.CpuBus, st: bv8, k: bv8, ghost mem: Memory) returns (v: bv8)
    requires bus.Valid()
    modifies bus.Repr
    ensures bus.Valid() && unchanged(bus.Repr) && bus.ram[..] == old(bus.ram[..])
    ensures old(Matches(bus, mem)) ==> v == StackByte(mem, st, k)
  {
    v := Load(bus, StackAddr(st + k), mem);
  }

  /** At and above $4020 the image holds the cartridge's bytes. */
  lemma VectorMatches(bus: CpuBus.CpuBus, mem: Memory, vector: bv16)
    requires bus.Valid() && Matches(bus, mem) && 0x4020 <= vector < 0xFFFF
    ensures Vector(bus.ppuBus.cartridge, vector) == Word(mem[vector], mem[vector + 1])
  {
    bus.PeekCartridge(vector);
    bus.PeekCartridge(vector + 1);
  }

  /** Two reads of a vector in the cartridge: quiet, and the vector's word. */
  method LoadVector(bus: CpuBus.CpuBus, vector: bv16) returns (w: bv16)
    requires bus.Valid() && 0x4020 <= vector < 0xFFFF
    modifies bus.Repr
    ensures bus.Valid() && unchanged(bus.Repr)
    ensures w == Vector(bus.ppuBus.cartridge, vector)
  {
    bus.PeekCartridge(vector);
    bus.PeekCartridge(vector + 1);
    var lo := bus.Read(vector);
    var hi := bus.Read(vector + 1);
    w := Word(lo, hi);
  }

  /**
   * What BRK, irq and nmi share: an interrupt frame pushed, then the
   * handler's address read from the vector, which the pushes cannot change.
   */
  method EnterHandler(bus: CpuBus.CpuBus, st: bv8, ret: bv16, pushed: bv8, vector: bv16) returns (target: bv16)
    requires bus.Valid() && 0x4020 <= vector < 0xFFFF
    modifies bus.Repr
    ensures bus.Valid()
    ensures bus.ram[..] == RamAfter(old(bus.ram[..]), FramePushes(st, ret, pushed)) && unchanged(bus.Repr - {bus.ram})
    ensures target == old(Vector(bus.ppuBus.cartridge, vector))
  {
    PushInterruptFrame(bus, st, ret, pushed);
    target := LoadVector(bus, vector);
  }

  /** A read instruction on registers `r`. */
  method ReadInstruction(bus: CpuBus.CpuBus, o: KnownOpcode, r: Registers, ghost mem: Memory) returns (r': Registers)
    requires bus.Valid() && IsRead(o.op)
    modifies bus.Repr
    ensures bus.Valid()
    ensures old(Matches(bus, mem)) && QuietRead(o.mode, r, mem) ==> r' == ReadNext(o, r, mem) && unchanged(bus.Repr)
  {
    GroupModes(o);
    var v, extra := ReadOperand(bus, o.mode, r, mem);
    r' := ReadStep(PastRead(r, o.mode, extra), o.op, v);
  }

  /** A read-modify-write on registers `r`: on A, or on the byte at the effective address. */
  method ModifyInstruction(bus: CpuBus.CpuBus, o: KnownOpcode, r: Registers, ghost mem: Memory) returns (r': Registers)
    requires bus.Valid() && IsModify(o.op)
    modifies bus.Repr
    ensures bus.Valid()
    ensures o.mode == Accumulator ==> r' == ModifyNext(o, r, mem) && unchanged(bus.Repr)
    ensures old(Matches(bus, mem)) && o.mode != Accumulator && QuietWrite(o.mode, r, mem) ==>
      r' == ModifyNext(o, r, mem) &&
      bus.ram[..] == RamAfter(old(bus.ram[..]), [ModifyWrite(o, r, mem)]) && unchanged(bus.Repr - {bus.ram})
  {
    GroupModes(o);
    if o.mode == Accumulator {
      var out := ModifyStep(o.op, r.a, r.status);
      r' := r.(a := out.value, status := out.status);
    } else {
      r' := ModifyMemory(bus, o, r, mem);
    }
  }

  /** The memory form: the byte at the effective address is read, and the result written back. */
  method ModifyMemory(bus: CpuBus.CpuBus, o: KnownOpcode, r: Registers, ghost mem: Memory) returns (r': Registers)
    requires bus.Valid() && IsModify(o.op) && AddressMode(o.mode)
    modifies bus.Repr
    ensures bus.Valid()
    ensures old(Matches(bus, mem)) && QuietWrite(o.mode, r, mem) ==>
      r' == ModifyNext(o, r, mem) &&
      bus.ram[..] == RamAfter(old(bus.ram[..]), [ModifyWrite(o, r, mem)]) && unchanged(bus.Repr - {bus.ram})
  {
    var addr, _ := Address(bus, o.mode, r, mem);
    var v := Load(bus, addr, mem);
    var out := ModifyStep(o.op, v, r.status);
    Store(bus, Write(addr, out.value));
    r' := r.(pc := PastOperand(r.pc, o.mode), status := out.status);
  }

  /** A store on registers `r`: the register's byte written to the effective address. */
  method StoreInstruction(bus: CpuBus.CpuBus, o: KnownOpcode, r: Registers, ghost mem: Memory) returns (r': Registers)
    requires bus.Valid() && IsStore(o.op)
    modifies bus.Repr
    ensures bus.Valid()
    ensures old(Matches(bus, mem)) && QuietWrite(o.mode, r, mem) ==>
      r' == r.(pc := PastOperand(r.pc, o.mode)) &&
      bus.ram[..] == RamAfter(old(bus.ram[..]), [StoreWrite(o, r, mem)]) && unchanged(bus.Repr - {bus.ram})
  {
    GroupModes(o);
    var addr, _ := Address(bus, o.mode, r, mem);
    Store(bus, Write(addr, StoreValue(r, o.op)));
    r' := r.(pc := PastOperand(r.pc, o.mode));
  }

  /** A branch on registers `r`. */
  method Branch(bus: CpuBus.CpuBus, o: KnownOpcode, r: Registers, ghost mem: Memory) returns (r': Registers)
    requires bus.Valid() && IsBranch(o.op)
    modifies bus.Repr
    ensures bus.Valid()
    ensures old(Matches(bus, mem)) && CpuBus.Quiet(r.pc) ==> r' == BranchNext(o, r, mem) && unchanged(bus.Repr)
  {
    var offset := Load(bus, r.pc, mem);
    var b := BranchFrom(o.op, r.status, r.pc, offset, r.cycles);
    r' := r.(pc := b.0, cycles := b.1);
  }

  /** JMP: PC from am_abs or am_ind. */
  method InstJmp(bus: CpuBus.CpuBus, o: KnownOpcode, r: Registers, ghost mem: Memory) returns (r': Registers)
    requires bus.Valid() && o.op == Jmp
    modifies bus.Repr
    ensures bus.Valid()
    ensures old(Matches(bus, mem)) && QuietControl(o, r, mem) ==>
      r' == ControlNext(o, r, mem) &&
      bus.ram[..] == RamAfter(old(bus.ram[..]), Pushes(o, r)) && unchanged(bus.Repr - {bus.ram})
  {
    GroupModes(o);
    var target, _ := Address(bus, o.mode, r, mem);
    r' := r.(pc := target);
  }

  /** JSR: the target from am_abs, the address of the operand's last byte pushed, then the jump. */
  method InstJsr(bus: CpuBus.CpuBus, o: KnownOpcode, r: Registers, ghost mem: Memory) returns (r': Registers)
    requires bus.Valid() && o.op == Jsr
    modifies bus.Repr
    ensures bus.Valid()
    ensures old(Matches(bus, mem)) && QuietControl(o, r, mem) ==>
      r' == ControlNext(o, r, mem) &&
      bus.ram[..] == RamAfter(old(bus.ram[..]), Pushes(o, r)) && unchanged(bus.Repr - {bus.ram})
  {
    JsrControl(o, r, mem);
    var target := AmAbs(bus, r.pc, mem);
    PushReturnAddress(bus, r.st, r.pc + 1);
    r' := r.(st := r.st - 2, pc := target);
  }

  /** RTS: the low and the high byte pulled, and PC one past their word. */
  method InstRts(bus: CpuBus.CpuBus, o: KnownOpcode, r: Registers, ghost mem: Memory) returns (r': Registers)
    requires bus.Valid() && o.op == Rts
    modifies bus.Repr
    ensures bus.Valid()
    ensures unchanged(bus.Repr) && bus.ram[..] == old(bus.ram[..])
    ensures old(Matches(bus, mem)) && QuietControl(o, r, mem) ==>
      r' == ControlNext(o, r, mem) &&
      bus.ram[..] == RamAfter(old(bus.ram[..]), Pushes(o, r)) && unchanged(bus.Repr - {bus.ram})
  {
    ghost var ram := bus.ram[..];
    var lo := Pull(bus, r.st, 1, mem);
    var hi := Pull(bus, r.st, 2, mem);
    r' := r.(st := r.st + 2, pc := Following(Word(lo, hi)));
    assert RamAfter(ram, []) == ram;
  }

  /** RTI: the status pulled (B clear, U set), then the low and the high byte of PC. */
  method InstRti(bus: CpuBus.CpuBus, o: KnownOpcode, r: Registers, ghost mem: Memory) returns (r': Registers)
    requires bus.Valid() && o.op == Rti
    modifies bus.Repr
    ensures bus.Valid()
    ensures unchanged(bus.Repr) && bus.ram[..] == old(bus.ram[..])
    ensures old(Matches(bus, mem)) && QuietControl(o, r, mem) ==>
      r' == ControlNext(o, r, mem) &&
      bus.ram[..] == RamAfter(old(bus.ram[..]), Pushes(o, r)) && unchanged(bus.Repr - {bus.ram})
  {
    ghost var ram := bus.ram[..];
    var s := Pull(bus, r.st, 1, mem);
    var lo := Pull(bus, r.st, 2, mem);
    var hi := Pull(bus, r.st, 3, mem);
    r' := r.(st := r.st + 3, pc := Word(lo, hi), status := Alu.Pulled(s));
    assert RamAfter(ram, []) == ram;
  }

  /** BRK: PC + 1 and the status with B set pushed, I set, and PC from the IRQ vector. */
  method InstBrk(bus: CpuBus.CpuBus, o: KnownOpcode, r: Registers, ghost mem: Memory) returns (r': Registers)
    requires bus.Valid() && o.op == Brk
    modifies bus.Repr
    ensures bus.Valid()
    ensures bus.ram[..] == RamAfter(old(bus.ram[..]), Pushes(o, r)) && unchanged(bus.Repr - {bus.ram})
    ensures old(Matches(bus, mem)) && QuietControl(o, r, mem) ==>
      r' == ControlNext(o, r, mem) &&
      bus.ram[..] == RamAfter(old(bus.ram[..]), Pushes(o, r)) && unchanged(bus.Repr - {bus.ram})
  {
    BrkControl(o, r, mem);
    if Matches(bus, mem) {
      VectorMatches(bus, mem, IRQ_HANDLER);
    }
    var target := EnterHandler(bus, r.st, r.pc + 1, PushedByBrk(r.status), IRQ_HANDLER);
    r' := r.(st := r.st - 3, pc := target, status := BrkStatus(r.status));
  }

  /** PHA: A pushed. */
  method InstPha(bus: CpuBus.CpuBus, o: KnownOpcode, r: Registers, ghost mem: Memory) returns (r': Registers)
    requires bus.Valid() && o.op == Pha
    modifies bus.Repr
    ensures bus.Valid()
    ensures bus.ram[..] == RamAfter(old(bus.ram[..]), Pushes(o, r)) && unchanged(bus.Repr - {bus.ram})
    ensures old(Matches(bus, mem)) && QuietControl(o, r, mem) ==>
      r' == ControlNext(o, r, mem) &&
      bus.ram[..] == RamAfter(old(bus.ram[..]), Pushes(o, r)) && unchanged(bus.Repr - {bus.ram})
  {
    ghost var ram := bus.ram[..];
    Push(bus, r.st, r.a);
    PushOne(ram, r.st, r.a);
    r' := r.(st := r.st - 1);
  }

  /** PHP: the status with B and U set pushed. */
  method InstPhp(bus: CpuBus.CpuBus, o: KnownOpcode, r: Registers, ghost mem: Memory) returns (r': Registers)
    requires bus.Valid() && o.op == Php
    modifies bus.Repr
    ensures bus.Valid()
    ensures bus.ram[..] == RamAfter(old(bus.ram[..]), Pushes(o, r)) && unchanged(bus.Repr - {bus.ram})
    ensures old(Matches(bus, mem)) && QuietControl(o, r, mem) ==>
      r' == ControlNext(o, r, mem) &&
      bus.ram[..] == RamAfter(old(bus.ram[..]), Pushes(o, r)) && unchanged(bus.Repr - {bus.ram})
  {
    ghost var ram := bus.ram[..];
    Push(bus, r.st, PushedByPhp(r.status));
    PushOne(ram, r.st, PushedByPhp(r.status));
    r' := r.(st := r.st - 1);
  }

  /** PLA: the pulled byte to A, with Z and N from it. */
  method InstPla(bus: CpuBus.CpuBus, o: KnownOpcode, r: Registers, ghost mem: Memory) returns (r': Registers)
    requires bus.Valid() && o.op == Pla
    modifies bus.Repr
    ensures bus.Valid()
    ensures unchanged(bus.Repr) && bus.ram[..] == old(bus.ram[..])
    ensures old(Matches(bus, mem)) && QuietControl(o, r, mem) ==>
      r' == ControlNext(o, r, mem) &&
      bus.ram[..] == RamAfter(old(bus.ram[..]), Pushes(o, r)) && unchanged(bus.Repr - {bus.ram})
  {
    ghost var ram := bus.ram[..];
    var v := Pull(bus, r.st, 1, mem);
    r' := r.(st := r.st + 1, a := v, status := WithZN(r.status, v));
    assert RamAfter(ram, []) == ram;
  }

  /** PLP: the pulled byte as the status, B clear and U set. */
  method InstPlp(bus: CpuBus.CpuBus, o: KnownOpcode, r: Registers, ghost mem: Memory) returns (r': Registers)
    requires bus.Valid() && o.op == Plp
    modifies bus.Repr
    ensures bus.Valid()
    ensures unchanged(bus.Repr) && bus.ram[..] == old(bus.ram[..])
    ensures old(Matches(bus, mem)) && QuietControl(o, r, mem) ==>
      r' == ControlNext(o, r, mem) &&
      bus.ram[..] == RamAfter(old(bus.ram[..]), Pushes(o, r)) && unchanged(bus.Repr - {bus.ram})
  {
    ghost var ram := bus.ram[..];
    var v := Pull(bus, r.st, 1, mem);
    r' := r.(st := r.st + 1, status := Alu.Pulled(v));
    assert RamAfter(ram, []) == ram;
  }

  /** The control instructions: jumps, calls, returns, BRK and the stack instructions. */
  method ControlInstruction(bus: CpuBus.CpuBus, o: KnownOpcode, r: Registers, ghost mem: Memory) returns (r': Registers)
    requires bus.Valid() && IsControl(o.op)
    modifies bus.Repr
    ensures bus.Valid()
    ensures old(Matches(bus, mem)) && QuietStep(o, r, mem) ==>
      r' == ControlNext(o, r, mem) &&
      bus.ram[..] == RamAfter(old(bus.ram[..]), Pushes(o, r)) && unchanged(bus.Repr - {bus.ram})
  {
    QuietStepControl(o, r, mem);
    match o.op
    case Jmp => r' := InstJmp(bus, o, r, mem);
    case Jsr => r' := InstJsr(bus, o, r, mem);
    case Rts => r' := InstRts(bus, o, r, mem);
    case Rti => r' := InstRti(bus, o, r, mem);
    case Brk => r' := InstBrk(bus, o, r, mem);
    case Pha => r' := InstPha(bus, o, r, mem);
    case Php => r' := InstPhp(bus, o, r, mem);
    case Pla => r' := InstPla(bus, o, r, mem);
    case Plp => r' := InstPlp(bus, o, r, mem);
  }

  /**
   * One instruction on registers `r`, run through the bus: what the dispatch
   * in `clock` does after the fetch. When its reads are quiet and its writes
   * go to RAM it gives the registers Next gives and makes the writes Writes
   * lists, in order.
   */
  method Step(bus: CpuBus.CpuBus, o: KnownOpcode, r: Registers, ghost mem: Memory) returns (r': Registers)
    requires bus.Valid()
    modifies bus.Repr
    ensures bus.Valid()
    ensures old(Matches(bus, mem)) && QuietStep(o, r, mem) ==>
      r' == Next(o, r, mem) &&
      bus.ram[..] == RamAfter(old(bus.ram[..]), Writes(o, r, mem)) && unchanged(bus.Repr - {bus.ram})
  {
    Groups(o.op);
    ghost var ram := bus.ram[..];
    assert RamAfter(ram, []) == ram;
    if IsRead(o.op) {
      ReadGroupStep(o, r, mem);
      r' := ReadInstruction(bus, o, r, mem);
    } else if IsModify(o.op) {
      ModifyGroupStep(o, r, mem);
      r' := ModifyInstruction(bus, o, r, mem);
    } else if IsStore(o.op) {
      StoreGroupStep(o, r, mem);
      r' := StoreInstruction(bus, o, r, mem);
    } else if IsBranch(o.op) {
      BranchGroupStep(o, r, mem);
      r' := Branch(bus, o, r, mem);
    } else if IsRegisterOnly(o.op) {
      RegisterGroupStep(o, r, mem);
      r' := RegisterStep(r, o.op);
    } else {
      ControlStep(o, r, mem);
      r' := ControlInstruction(bus, o, r, mem);
    }
  }

  /** One clock on registers `r`, as the method Cpu.Clock performs it. */
  method ClockRegisters(bus: CpuBus.CpuBus, table: OpcodeTable, r: Registers, ghost mem: Memory) returns (r': Registers)
    requires bus.Valid()
    modifies bus.Repr
    ensures bus.Valid()
    ensures r.cycles != 0 ==> r' == ClockNext(table, r, mem) && unchanged(bus.Repr)
    ensures old(Matches(bus, mem)) && QuietClock(table, r, mem) ==>
      r' == ClockNext(table, r, mem) &&
      bus.ram[..] == RamAfter(old(bus.ram[..]), ClockWrites(table, r, mem)) && unchanged(bus.Repr - {bus.ram})
  {
    if r.cycles == 0 {
      var b := Load(bus, r.pc, mem);
      var o := Decoded(table, b);
      var n := Step(bus, o, r.(pc := Following(r.pc)), mem);
      r' := n.(cycles := CyclesAfterClock(r.cycles, table.cycles(o), n.cycles));
    } else {
      r' := r.(cycles := CyclesAfterClock(r.cycles, 0, 0));
    }
  }

  /** The processor: the registers are fields and every step goes through a CPU bus. */
  class Cpu {
    var a: bv8
    var x: bv8
    var y: bv8
    var st: bv8
    var pc: bv16
    var cycles: bv8
    var status: bv8

    /** `Cpu::default`: every register zero and no flag set. */
    constructor ()
      ensures Regs() == Registers(0, 0, 0, 0, 0, 0, 0)
    {
      a, x, y, st, pc, cycles, status := 0, 0, 0, 0, 0, 0, 0;
    }

    /** The registers as a value. */
    function Regs(): Registers
      reads this
    {
      Registers(a, x, y, st, pc, cycles, status)
    }

    method SetRegs(r: Registers)
      modifies this
      ensures Regs() == r
    {
      a, x, y, st, pc, cycles, status := r.a, r.x, r.y, r.st, r.pc, r.cycles, r.status;
    }

    /**
     * reset: A, X and Y cleared, SP at $FD, eight cycles pending, U and I
     * set, and PC from the reset vector; the two reads are quiet.
     */
    method Reset(bus: CpuBus.CpuBus)
      requires bus.Valid() && this !in bus.Repr
      modifies this, bus.Repr
      ensures bus.Valid() && unchanged(bus.Repr)
      ensures Regs() == Registers(0, 0, 0, 0xFD, Vector(bus.ppuBus.cartridge, PC_START), 8, U | I)
    {
      var start := LoadVector(bus, PC_START);
      SetRegs(Registers(0, 0, 0, 0xFD, start, 8, U | I));
    }

    /** The pushes, the I flag, the vector and the cycle count that irq and nmi share. */
    method Interrupt(bus: CpuBus.CpuBus, vector: bv16, pending: bv8, ghost mem: Memory)
      requires bus.Valid() && this !in bus.Repr && 0x4020 <= vector < 0xFFFF
      modifies this, bus.Repr
      ensures bus.Valid()
      ensures bus.ram[..] == RamAfter(old(bus.ram[..]), InterruptPushes(old(Regs()))) && unchanged(bus.Repr - {bus.ram})
      ensures old(Matches(bus, mem)) ==> Regs() == InterruptNext(old(Regs()), mem, vector, pending)
    {
      var r := Regs();
      if Matches(bus, mem) {
        VectorMatches(bus, mem, vector);
      }
      var target := EnterHandler(bus, r.st, r.pc, PushedByInterrupt(r.status), vector);
      SetRegs(r.(st := r.st - 3, pc := target, cycles := pending, status := InterruptStatus(r.status)));
    }

    /** irq: ignored while I is set; otherwise the interrupt sequence through $FFFE with 7 cycles. */
    method Irq(bus: CpuBus.CpuBus, ghost mem: Memory)
      requires bus.Valid() && this !in bus.Repr
      modifies this, bus.Repr
      ensures bus.Valid()
      ensures Flag(old(status), I) ==> unchanged(this) && unchanged(bus.Repr)
      ensures !Flag(old(status), I) ==>
        bus.ram[..] == RamAfter(old(bus.ram[..]), InterruptPushes(old(Regs()))) && unchanged(bus.Repr - {bus.ram}) &&
        (old(Matches(bus, mem)) ==> Regs() == InterruptNext(old(Regs()), mem, IRQ_HANDLER, 7))
    {
      if !Flag(status, I) {
        Interrupt(bus, IRQ_HANDLER, 7, mem);
      }
    }

    /** nmi: the interrupt sequence through $FFFA with 8 cycles, whatever I is. */
    method Nmi(bus: CpuBus.CpuBus, ghost mem: Memory)
      requires bus.Valid() && this !in bus.Repr
      modifies this, bus.Repr
      ensures bus.Valid()
      ensures bus.ram[..] == RamAfter(old(bus.ram[..]), InterruptPushes(old(Regs()))) && unchanged(bus.Repr - {bus.ram})
      ensures old(Matches(bus, mem)) ==> Regs() == InterruptNext(old(Regs()), mem, NMI_HANDLER, 8)
    {
      Interrupt(bus, NMI_HANDLER, 8, mem);
    }

    /**
     * clock: with no cycles pending the opcode at PC is fetched and decoded
     * (an unknown byte runs as a NOP), PC moves past it, the instruction runs
     * and the table's cycles are added; in every case one cycle is then
     * taken off.
     */
    method Clock(bus: CpuBus.CpuBus, table: OpcodeTable, ghost mem: Memory)
      requires bus.Valid() && this !in bus.Repr
      modifies this, bus.Repr
      ensures bus.Valid()
      ensures old(cycles) != 0 ==> Regs() == ClockNext(table, old(Regs()), mem) && unchanged(bus.Repr)
      ensures old(Matches(bus, mem)) && QuietClock(table, old(Regs()), mem) ==>
        Regs() == ClockNext(table, old(Regs()), mem) &&
        bus.ram[..] == RamAfter(old(bus.ram[..]), ClockWrites(table, old(Regs()), mem)) && unchanged(bus.Repr - {bus.ram})
    {
      var r := ClockRegisters(bus, table, Regs(), mem);
      SetRegs(r);
    }
  }
}
