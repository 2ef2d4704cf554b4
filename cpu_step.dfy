/**
 * One instruction of the 6502 interpreter as a pure function of the
 * registers and of a memory image: a byte for every CPU address. `Next`
 * gives the registers after the instruction and `Writes` the bus writes it
 * makes, in order; the interpreter object in module Cpu is proved to do
 * exactly this whenever its reads are quiet and its writes go to RAM.
 * Here `r.pc` is the address just after the opcode byte.
 */
module CpuStep {
  import opened Bits
  import opened Alu
  import opened Opcodes
  import opened CpuSpec
  import CpuBus
  import Bus

  /** What each address reads as: a byte for every address. */
  type Memory = m: imap<bv16, bv8> | forall addr: bv16 :: addr in m
    ghost witness imap addr: bv16 :: 0

  /** A bus write. */
  datatype Write = Write(addr: bv16, data: bv8)

  /** The address an indexed mode reaches and whether it left the base's page. */
  function Offset(base: bv16, index: bv8): (bv16, bool)
  {
    (Indexed(base, index), PageCrossed(base, Indexed(base, index)))
  }

  /** Indexing leaves the page exactly when the low byte of the base plus the index exceeds 255. */
  lemma OffsetCrossing(base: bv16, index: bv8)
    ensures Offset(base, index).1 <==> Nat8(Lo(base)) + Nat8(index) > 255
  {
    IndexedCrossing(base, index);
  }

  /** How far PC moves past the operand, as a 16-bit word. */
  function OperandBytes(m: Mode): bv16
  {
    match m
    case Accumulator | Implied => 0
    case Absolute | AbsoluteX | AbsoluteY | Indirect => 2
    case _ => 1
  }

  /** PC moves past exactly the operand bytes the mode requires. */
  lemma OperandBytesRequired(m: Mode)
    ensures OperandBytes(m) as int == RequiredBytes(m)
  {
  }

  /** The address after the operand that starts at `pc`. */
  function PastOperand(pc: bv16, m: Mode): bv16
  {
    pc + OperandBytes(m)
  }

  /**
   * The operand bytes of a mode whose operand starts at `pc` are read
   * quietly. The pointers of (zp,X) and (zp),Y are in page 0, which is RAM;
   * the pointer of JMP (ind) is dealt with by that instruction.
   */
  predicate QuietOperand(mode: Mode, pc: bv16)
  {
    CpuBus.Quiet(pc) && (RequiredBytes(mode) == 2 ==> CpuBus.Quiet(pc + 1))
  }

  /** Page 0 is RAM: reading it changes nothing. */
  lemma ZeroPageQuiet(addr: bv16)
    requires addr < 0x100
    ensures CpuBus.Quiet(addr)
  {
  }

  /** The index register of an indexed mode: Y for the ",Y" modes, X otherwise. */
  function IndexRegister(mode: Mode, r: Registers): bv8
  {
    if mode in {ZeroPageY, AbsoluteY, IndirectY} then r.y else r.x
  }

  /**
   * The effective address of a mode whose operand starts at `r.pc`, read
   * from the image, and whether indexing crossed a page.
   */
  function EffectiveAddress(mode: Mode, r: Registers, mem: Memory): (e: (bv16, bool))
    ensures e.1 ==> PageCrossingMode(mode)
    ensures mode in {ZeroPage, ZeroPageX, ZeroPageY} ==> e.0 < 0x100
  {
    match mode
    case ZeroPage => (CpuSpec.ZeroPage(mem[r.pc]), false)
    case ZeroPageX | ZeroPageY => (ZeroPageIndexed(mem[r.pc], IndexRegister(mode, r)), false)
    case Absolute => (OperandWord(r.pc, mem), false)
    case AbsoluteX | AbsoluteY => Offset(OperandWord(r.pc, mem), IndexRegister(mode, r))
    case Indirect => (Word(mem[OperandWord(r.pc, mem)], mem[IndirectHigh(OperandWord(r.pc, mem))]), false)
    case IndirectX =>
      var b := mem[r.pc];
      (Word(mem[IndirectXLow(b, r.x)], mem[IndirectXHigh(b, r.x)]), false)
    case IndirectY =>
      var b := mem[r.pc];
      Offset(Word(mem[IndirectYLow(b)], mem[IndirectYHigh(b)]), r.y)
    case _ => (r.pc, false)
  }

  /** The little-endian word at `pc` and `pc + 1`: an absolute operand, or the pointer of JMP (ind). */
  function OperandWord(pc: bv16, mem: Memory): bv16
  {
    Word(mem[pc], mem[pc + 1])
  }

  /** The two operand bytes of JMP (ind) and the two bytes of the target it points to are read quietly. */
  predicate QuietPointer(pc: bv16, mem: Memory)
  {
    QuietOperand(Indirect, pc) && CpuBus.Quiet(OperandWord(pc, mem)) && CpuBus.Quiet(IndirectHigh(OperandWord(pc, mem)))
  }

  /** The reads that compute the effective address of `mode` are quiet. */
  predicate QuietAddress(mode: Mode, r: Registers, mem: Memory)
  {
    if mode == Indirect then QuietPointer(r.pc, mem) else QuietOperand(mode, r.pc)
  }

  /** The address reads of a write to memory are quiet and the write goes to RAM. */
  predicate QuietWrite(mode: Mode, r: Registers, mem: Memory)
  {
    QuietAddress(mode, r, mem) && EffectiveAddress(mode, r, mem).0 <= 0x1FFF
  }

  /** The operand of a read instruction: the immediate byte or the byte at the effective address. */
  function Operand(mode: Mode, r: Registers, mem: Memory): (bv8, bool)
  {
    if mode == Immediate then (mem[r.pc], false)
    else
      var e := EffectiveAddress(mode, r, mem);
      (mem[e.0], e.1)
  }

  /** The operand bytes and the operand itself are read quietly. */
  predicate QuietRead(mode: Mode, r: Registers, mem: Memory)
  {
    QuietOperand(mode, r.pc) && (mode != Immediate ==> CpuBus.Quiet(EffectiveAddress(mode, r, mem).0))
  }

  /** The byte the `k`-th pop from stack pointer `st` returns. */
  function StackByte(mem: Memory, st: bv8, k: bv8): bv8
  {
    mem[StackAddr(st + k)]
  }

  // The instruction groups

  /** A read instruction: the operand, one more cycle on a page crossing, and ReadStep. */
  function ReadNext(o: KnownOpcode, r: Registers, mem: Memory): Registers
    requires IsRead(o.op)
  {
    var operand := Operand(o.mode, r, mem);
    ReadStep(PastRead(r, o.mode, operand.1), o.op, operand.0)
  }

  /** PC past the operand, and one more pending cycle when the operand's address crossed a page. */
  function PastRead(r: Registers, mode: Mode, crossed: bool): Registers
  {
    r.(pc := PastOperand(r.pc, mode), cycles := if crossed then r.cycles + 1 else r.cycles)
  }

  /** A read-modify-write instruction on A or on the byte at the effective address. */
  function ModifyResult(o: KnownOpcode, r: Registers, mem: Memory): AluOut
    requires IsModify(o.op)
  {
    if o.mode == Accumulator then ModifyStep(o.op, r.a, r.status)
    else ModifyStep(o.op, mem[EffectiveAddress(o.mode, r, mem).0], r.status)
  }

  /** The registers after a read-modify-write: the result in A for the accumulator form, PC past the operand otherwise. */
  function ModifyNext(o: KnownOpcode, r: Registers, mem: Memory): Registers
    requires IsModify(o.op)
  {
    var out := ModifyResult(o, r, mem);
    if o.mode == Accumulator then r.(a := out.value, status := out.status)
    else r.(pc := PastOperand(r.pc, o.mode), status := out.status)
  }

  /** The write of a read-modify-write on memory: the result back to the effective address. */
  function ModifyWrite(o: KnownOpcode, r: Registers, mem: Memory): Write
    requires IsModify(o.op)
  {
    Write(EffectiveAddress(o.mode, r, mem).0, ModifyResult(o, r, mem).value)
  }

  /** The write of a store: the register's byte to the effective address. */
  function StoreWrite(o: KnownOpcode, r: Registers, mem: Memory): Write
    requires IsStore(o.op)
  {
    Write(EffectiveAddress(o.mode, r, mem).0, StoreValue(r, o.op))
  }

  /**
   * A branch whose offset byte is at `pc`: PC and the pending cycles after
   * it. A taken branch moves PC by the offset and costs one or two cycles.
   */
  function BranchFrom(op: Operation, status: bv8, pc: bv16, offset: bv8, cycles: bv8): (bv16, bv8)
    requires IsBranch(op)
  {
    var next := Following(pc);
    if BranchTaken(op, status) then
      var target := BranchTarget(next, offset);
      (target, cycles + BranchCycles(next, target))
    else (next, cycles)
  }

  /** A branch instruction: BranchFrom with the byte at PC. */
  function BranchNext(o: KnownOpcode, r: Registers, mem: Memory): Registers
    requires IsBranch(o.op)
  {
    var b := BranchFrom(o.op, r.status, r.pc, mem[r.pc], r.cycles);
    r.(pc := b.0, cycles := b.1)
  }

  /** JSR: SP moves down past the two pushed bytes and PC goes to the operand word. */
  function JsrNext(r: Registers, mem: Memory): Registers
  {
    r.(st := r.st - 2, pc := OperandWord(r.pc, mem))
  }

  /** RTS: the low and then the high byte are pulled, and PC is one past that word. */
  function RtsNext(r: Registers, mem: Memory): Registers
  {
    r.(st := r.st + 2, pc := Following(Word(StackByte(mem, r.st, 1), StackByte(mem, r.st, 2))))
  }

  /** The address after `addr`, wrapping at 0xFFFF. */
  function Following(addr: bv16): bv16
  {
    addr + 1
  }

  /** RTI: the status is pulled (B clear, U set), then PC low and PC high. */
  function RtiNext(r: Registers, mem: Memory): Registers
  {
    r.(st := r.st + 3, pc := Word(StackByte(mem, r.st, 2), StackByte(mem, r.st, 3)),
       status := Alu.Pulled(StackByte(mem, r.st, 1)))
  }

  /** BRK: three bytes pushed, I set, and PC from the IRQ vector. */
  function BrkNext(r: Registers, mem: Memory): Registers
  {
    r.(st := r.st - 3, pc := Word(mem[IRQ_HANDLER], mem[IRQ_HANDLER + 1]), status := BrkStatus(r.status))
  }

  /** PHA and PHP: one byte pushed. */
  function PushNext(r: Registers): Registers
  {
    r.(st := r.st - 1)
  }

  /** PLA: the pulled byte goes to A, with Z and N set from it. */
  function PlaNext(r: Registers, mem: Memory): Registers
  {
    var v := StackByte(mem, r.st, 1);
    r.(st := r.st + 1, a := v, status := WithZN(r.status, v))
  }

  /** PLP: the pulled byte becomes the status, B clear and U set. */
  function PlpNext(r: Registers, mem: Memory): Registers
  {
    r.(st := r.st + 1, status := Alu.Pulled(StackByte(mem, r.st, 1)))
  }

  /** JMP, JSR, RTS, RTI, BRK and the four stack instructions. */
  function ControlNext(o: KnownOpcode, r: Registers, mem: Memory): Registers
    requires IsControl(o.op)
  {
    match o.op
    case Jmp => r.(pc := EffectiveAddress(o.mode, r, mem).0)
    case Jsr => JsrNext(r, mem)
    case Rts => RtsNext(r, mem)
    case Rti => RtiNext(r, mem)
    case Brk => BrkNext(r, mem)
    case Pha | Php => PushNext(r)
    case Pla => PlaNext(r, mem)
    case Plp => PlpNext(r, mem)
  }

  /** The registers after opcode `o` runs with its operand at `r.pc`. */
  function Next(o: KnownOpcode, r: Registers, mem: Memory): (r': Registers)
    ensures !IsControl(o.op) && !IsBranch(o.op) ==> r'.pc == PastOperand(r.pc, o.mode)
    ensures !IsControl(o.op) && o.op != Txs ==> r'.st == r.st
  {
    GroupModes(o);
    if IsRead(o.op) then ReadNext(o, r, mem)
    else if IsModify(o.op) then ModifyNext(o, r, mem)
    else if IsStore(o.op) then r.(pc := PastOperand(r.pc, o.mode))
    else if IsBranch(o.op) then BranchNext(o, r, mem)
    else if IsRegisterOnly(o.op) then RegisterStep(r, o.op)
    else ControlNext(o, r, mem)
  }

  /**
   * An IRQ or NMI: PC and the status with B clear and U set are pushed, I
   * is set, PC comes from the vector and the pending cycles are `cycles`.
   */
  function InterruptNext(r: Registers, mem: Memory, vector: bv16, cycles: bv8): Registers
  {
    r.(st := r.st - 3, pc := Word(mem[vector], mem[vector + 1]), cycles := cycles, status := InterruptStatus(r.status))
  }

  /** The stack writes of an IRQ or NMI. */
  function InterruptPushes(r: Registers): seq<Write>
  {
    FramePushes(r.st, r.pc, PushedByInterrupt(r.status))
  }

  /** The two pushes of a return address, high byte first. */
  function ReturnPushes(st: bv8, ret: bv16): seq<Write>
  {
    [Write(StackAddr(st), Hi(ret)), Write(StackAddr(st - 1), Lo(ret))]
  }

  /** The three pushes of an interrupt frame: the return address, high byte first, then a status byte. */
  function FramePushes(st: bv8, ret: bv16, status: bv8): seq<Write>
  {
    [Write(StackAddr(st), Hi(ret)), Write(StackAddr(st - 1), Lo(ret)), Write(StackAddr(st - 2), status)]
  }

  /** The stack writes of a control opcode. */
  function Pushes(o: KnownOpcode, r: Registers): seq<Write>
    requires IsControl(o.op)
  {
    match o.op
    case Jsr => ReturnPushes(r.st, r.pc + 1)
    case Brk => FramePushes(r.st, r.pc + 1, PushedByBrk(r.status))
    case Pha => [Write(StackAddr(r.st), r.a)]
    case Php => [Write(StackAddr(r.st), PushedByPhp(r.status))]
    case _ => []
  }

  /** JSR abs: JsrNext, the two pushes of the operand's last address, and quiet when its operand is. */
  lemma JsrControl(o: KnownOpcode, r: Registers, mem: Memory)
    requires o.op == Jsr
    ensures ControlNext(o, r, mem) == JsrNext(r, mem) && Pushes(o, r) == ReturnPushes(r.st, r.pc + 1)
    ensures QuietControl(o, r, mem) <==> QuietOperand(Absolute, r.pc)
  {
  }

  /** BRK: BrkNext and the frame with B set. */
  lemma BrkControl(o: KnownOpcode, r: Registers, mem: Memory)
    requires o.op == Brk
    ensures ControlNext(o, r, mem) == BrkNext(r, mem) && Pushes(o, r) == FramePushes(r.st, r.pc + 1, PushedByBrk(r.status))
  {
  }

  /** For a control opcode QuietStep is QuietControl. */
  lemma QuietStepControl(o: KnownOpcode, r: Registers, mem: Memory)
    requires IsControl(o.op)
    ensures QuietStep(o, r, mem) == QuietControl(o, r, mem)
  {
    Groups(o.op);
  }

  /** The bus writes opcode `o` makes, in order. */
  function Writes(o: KnownOpcode, r: Registers, mem: Memory): seq<Write>
  {
    if IsModify(o.op) && o.mode != Accumulator then [ModifyWrite(o, r, mem)]
    else if IsStore(o.op) then [StoreWrite(o, r, mem)]
    else if IsControl(o.op) then Pushes(o, r)
    else []
  }

  /**
   * Every read of the instruction is quiet and every write goes to RAM.
   * Stack accesses are in page 1 and the BRK vector is in the cartridge, so
   * only operands, effective addresses and the JMP (ind) pointer matter.
   */
  predicate QuietStep(o: KnownOpcode, r: Registers, mem: Memory)
  {
    if IsRead(o.op) then o.mode in {Immediate, ZeroPage, ZeroPageX, ZeroPageY, Absolute, AbsoluteX,
                                     AbsoluteY, IndirectX, IndirectY} && QuietRead(o.mode, r, mem)
    else if IsModify(o.op) then o.mode == Accumulator || QuietWrite(o.mode, r, mem)
    else if IsStore(o.op) then QuietWrite(o.mode, r, mem)
    else if IsBranch(o.op) then CpuBus.Quiet(r.pc)
    else IsRegisterOnly(o.op) || QuietControl(o, r, mem)
  }

  /** JMP and JSR read their operand bytes, and JMP (ind) the target too; the other control reads are quiet. */
  predicate QuietControl(o: KnownOpcode, r: Registers, mem: Memory)
  {
    if o.op == Jmp && o.mode == Indirect then QuietPointer(r.pc, mem)
    else if o.op in {Jmp, Jsr} then QuietOperand(Absolute, r.pc)
    else true
  }

  /** RAM after a sequence of writes; writes outside RAM leave it alone. */
  function RamAfter(ram: seq<bv8>, w: seq<Write>): (ram': seq<bv8>)
    requires |ram| == Bus.RAM_SIZE
    ensures |ram'| == Bus.RAM_SIZE
    decreases |w|
  {
    if w == [] then ram
    else
      var ram1 := if w[0].addr <= 0x1FFF then ram[Bus.RamIndex(w[0].addr) := w[0].data] else ram;
      RamAfter(ram1, w[1..])
  }

  /** The image agrees with RAM at every RAM address, mirrors included. */
  ghost predicate RamImage(mem: Memory, ram: seq<bv8>)
    requires |ram| == Bus.RAM_SIZE
  {
    forall addr: bv16 {:trigger ram[Bus.RamIndex(addr)]} :: addr <= 0x1FFF ==> mem[addr] == ram[Bus.RamIndex(addr)]
  }

  // Properties of a step

  /** The opcodes the interpreter calls JSR abs, RTS, BRK, RTI, PHA, PLA, PHP and PLP. */
  const JSR: KnownOpcode := Opcode(Jsr, Absolute)
  const RTS: KnownOpcode := Opcode(Rts, Implied)
  const BRK: KnownOpcode := Opcode(Brk, Implied)
  const RTI: KnownOpcode := Opcode(Rti, Implied)
  const PHA: KnownOpcode := Opcode(Pha, Implied)
  const PLA: KnownOpcode := Opcode(Pla, Implied)
  const PHP: KnownOpcode := Opcode(Php, Implied)
  const PLP: KnownOpcode := Opcode(Plp, Implied)

  /** Only stores, memory read-modify-writes and pushes write, and then once per pushed or stored byte. */
  lemma WriteCount(o: KnownOpcode, r: Registers, mem: Memory)
    ensures |Writes(o, r, mem)| ==
      (if IsStore(o.op) || (IsModify(o.op) && o.mode != Accumulator) || o.op in {Pha, Php} then 1
       else if o.op == Jsr then 2 else if o.op == Brk then 3 else 0)
  {
    GroupModes(o);
  }

  /** A quiet step writes only to RAM. */
  lemma QuietWritesRam(o: KnownOpcode, r: Registers, mem: Memory)
    requires QuietStep(o, r, mem)
    ensures forall i :: 0 <= i < |Writes(o, r, mem)| ==> Writes(o, r, mem)[i].addr <= 0x1FFF
  {
    Groups(o.op);
    if IsControl(o.op) {
      ControlStep(o, r, mem);
      PushesInPage1(o, r);
    }
  }

  /** Pushes go to page 1. */
  lemma PushesInPage1(o: KnownOpcode, r: Registers)
    requires IsControl(o.op)
    ensures forall i :: 0 <= i < |Pushes(o, r)| ==> Pushes(o, r)[i].addr <= 0x1FF
  {
  }

  /** A write to RAM is seen at the written address and leaves the other RAM cells alone. */
  lemma RamAfterOne(ram: seq<bv8>, addr: bv16, data: bv8)
    requires |ram| == Bus.RAM_SIZE && addr <= 0x1FFF
    ensures RamAfter(ram, [Write(addr, data)]) == ram[Bus.RamIndex(addr) := data]
  {
    assert [Write(addr, data)][1..] == [];
  }

  /** Writes applied one after another. */
  lemma {:induction false} RamAfterAppend(ram: seq<bv8>, w1: seq<Write>, w2: seq<Write>)
    requires |ram| == Bus.RAM_SIZE
    ensures RamAfter(ram, w1 + w2) == RamAfter(RamAfter(ram, w1), w2)
    decreases |w1|
  {
    if w1 != [] {
      assert (w1 + w2)[1..] == w1[1..] + w2;
      var ram1 := if w1[0].addr <= 0x1FFF then ram[Bus.RamIndex(w1[0].addr) := w1[0].data] else ram;
      RamAfterAppend(ram1, w1[1..], w2);
    } else {
      assert w1 + w2 == w2;
    }
  }

  /** One push lands on the stack as PushRam describes it. */
  lemma PushOne(ram: seq<bv8>, st: bv8, d1: bv8)
    requires |ram| == Bus.RAM_SIZE
    ensures RamAfter(ram, [Write(StackAddr(st), d1)]) == PushRam(ram, st, d1)
  {
    RamAfterOne(ram, StackAddr(st), d1);
  }

  /** Two pushes, the second one cell further down. */
  lemma PushTwo(ram: seq<bv8>, st: bv8, d1: bv8, d2: bv8)
    requires |ram| == Bus.RAM_SIZE
    ensures RamAfter(ram, [Write(StackAddr(st), d1), Write(StackAddr(st - 1), d2)]) ==
      PushRam(PushRam(ram, st, d1), st - 1, d2)
  {
    var w1, w2 := Write(StackAddr(st), d1), Write(StackAddr(st - 1), d2);
    assert [w1, w2] == [w1] + [w2];
    RamAfterAppend(ram, [w1], [w2]);
    PushOne(ram, st, d1);
    PushOne(PushRam(ram, st, d1), st - 1, d2);
  }

  /** The two pushes of a return address. */
  lemma PushReturn(ram: seq<bv8>, st: bv8, ret: bv16)
    requires |ram| == Bus.RAM_SIZE
    ensures RamAfter(ram, ReturnPushes(st, ret)) == PushRam(PushRam(ram, st, Hi(ret)), st - 1, Lo(ret))
  {
    PushTwo(ram, st, Hi(ret), Lo(ret));
  }

  /** The three pushes of an interrupt frame. */
  lemma PushThree(ram: seq<bv8>, st: bv8, pc: bv16, status: bv8)
    requires |ram| == Bus.RAM_SIZE
    ensures RamAfter(ram, FramePushes(st, pc, status)) == PushFrame(ram, st, pc, status)
  {
    var w1, w2, w3 := Write(StackAddr(st), Hi(pc)), Write(StackAddr(st - 1), Lo(pc)), Write(StackAddr(st - 2), status);
    assert [w1, w2, w3] == [w1, w2] + [w3];
    RamAfterAppend(ram, [w1, w2], [w3]);
    PushTwo(ram, st, Hi(pc), Lo(pc));
    PushOne(PushRam(PushRam(ram, st, Hi(pc)), st - 1, Lo(pc)), st - 2, status);
  }

  lemma WordBytes(lo: bv8, hi: bv8)
    ensures Hi(Word(lo, hi)) == hi && Lo(Word(lo, hi)) == lo
  {
  }

  /** A control opcode runs as ControlNext says and writes only its pushes. */
  lemma ControlStep(o: KnownOpcode, r: Registers, mem: Memory)
    requires IsControl(o.op)
    ensures Next(o, r, mem) == ControlNext(o, r, mem)
    ensures Writes(o, r, mem) == Pushes(o, r)
  {
    Groups(o.op);
  }

  /** A read opcode runs as ReadNext says and writes nothing. */
  lemma ReadGroupStep(o: KnownOpcode, r: Registers, mem: Memory)
    requires IsRead(o.op)
    ensures Next(o, r, mem) == ReadNext(o, r, mem)
    ensures Writes(o, r, mem) == []
    ensures QuietStep(o, r, mem) == QuietRead(o.mode, r, mem)
  {
    Groups(o.op);
    GroupModes(o);
  }

  /** A read-modify-write runs as ModifyNext says and, on memory, writes its result back. */
  lemma ModifyGroupStep(o: KnownOpcode, r: Registers, mem: Memory)
    requires IsModify(o.op)
    ensures Next(o, r, mem) == ModifyNext(o, r, mem)
    ensures Writes(o, r, mem) == if o.mode == Accumulator then [] else [ModifyWrite(o, r, mem)]
    ensures QuietStep(o, r, mem) == (o.mode == Accumulator || QuietWrite(o.mode, r, mem))
  {
    Groups(o.op);
  }

  /** A store only moves PC past its operand, and writes the register's byte. */
  lemma StoreGroupStep(o: KnownOpcode, r: Registers, mem: Memory)
    requires IsStore(o.op)
    ensures Next(o, r, mem) == r.(pc := PastOperand(r.pc, o.mode))
    ensures Writes(o, r, mem) == [StoreWrite(o, r, mem)]
    ensures QuietStep(o, r, mem) == QuietWrite(o.mode, r, mem)
  {
    Groups(o.op);
  }

  /** A register-only opcode runs as RegisterStep says, writes nothing and reads nothing. */
  lemma RegisterGroupStep(o: KnownOpcode, r: Registers, mem: Memory)
    requires IsRegisterOnly(o.op)
    ensures Next(o, r, mem) == RegisterStep(r, o.op)
    ensures Writes(o, r, mem) == []
    ensures QuietStep(o, r, mem)
  {
    Groups(o.op);
  }

  /** A branch runs as BranchNext says and writes nothing. */
  lemma BranchGroupStep(o: KnownOpcode, r: Registers, mem: Memory)
    requires IsBranch(o.op)
    ensures Next(o, r, mem) == BranchNext(o, r, mem)
    ensures Writes(o, r, mem) == []
    ensures QuietStep(o, r, mem) == CpuBus.Quiet(r.pc)
  {
    Groups(o.op);
  }

  /** SP moved down by a push and back up by a pull. */
  lemma StackBack(st: bv8)
    ensures st - 1 + 1 == st && st - 2 + 2 == st && st - 3 + 3 == st
  {
  }

  /** What a pull after one push reads: the pushed byte. */
  lemma PushedPulled(ram: seq<bv8>, st: bv8, data: bv8, mem': Memory)
    requires |ram| == Bus.RAM_SIZE
    requires RamImage(mem', RamAfter(ram, [Write(StackAddr(st), data)]))
    ensures StackByte(mem', st - 1, 1) == data
  {
    PushOne(ram, st, data);
    PushThenPop(ram, st, data);
  }

  /** RTS rebuilds the word a return-address push stored, low byte first. */
  lemma ReturnPulled(ram: seq<bv8>, st: bv8, ret: bv16, mem': Memory)
    requires |ram| == Bus.RAM_SIZE
    requires RamImage(mem', RamAfter(ram, ReturnPushes(st, ret)))
    ensures Word(StackByte(mem', st - 2, 1), StackByte(mem', st - 2, 2)) == ret
  {
    PushReturn(ram, st, ret);
    StackOffsets(st, st - 1, st - 2);
    PushesApart(ram, st, Hi(ret), Lo(ret));
    WordOfBytes(ret);
  }

  lemma StackOffsets(st: bv8, t: bv8, s: bv8)
    requires t == st - 1 && s == st - 2
    ensures s + 1 == t && s + 2 == st && t + 1 == st
  {
  }

  /** RTI pulls the status byte of an interrupt frame, then the return address. */
  lemma FramePulled(ram: seq<bv8>, st: bv8, ret: bv16, status: bv8, mem': Memory)
    requires |ram| == Bus.RAM_SIZE
    requires RamImage(mem', RamAfter(ram, FramePushes(st, ret, status)))
    ensures StackByte(mem', st - 3, 1) == status
    ensures Word(StackByte(mem', st - 3, 2), StackByte(mem', st - 3, 3)) == ret
  {
    PushThree(ram, st, ret, status);
    FrameOffsets(st, st - 1, st - 2, st - 3);
    InterruptThenRti(ram, st, ret, status);
  }

  lemma FrameOffsets(st: bv8, t: bv8, s: bv8, q: bv8)
    requires t == st - 1 && s == st - 2 && q == st - 3
    ensures q + 1 == s && q + 2 == t && q + 3 == st && s + 1 == t && t + 1 == st
  {
  }

  lemma AfterReturn(pc: bv16)
    ensures Following(pc + 1) == pc + 2
  {
  }

  /** RTS after JSR: SP back where it was and PC one past the word on the stack. */
  lemma ReturnAfterCall(r: Registers, mem: Memory, ret: bv16, mem': Memory)
    requires Word(StackByte(mem', r.st - 2, 1), StackByte(mem', r.st - 2, 2)) == ret
    ensures RtsNext(JsrNext(r, mem), mem') == r.(pc := Following(ret))
  {
    StackBack(r.st);
  }

  /**
   * JSR then RTS: whatever RAM held, once the two bytes JSR pushes are in
   * place RTS resumes just after the JSR's operand, with SP restored and
   * every other register as it was.
   */
  lemma CallThenReturn(r: Registers, mem: Memory, ram: seq<bv8>, mem': Memory)
    requires |ram| == Bus.RAM_SIZE
    requires RamImage(mem', RamAfter(ram, ReturnPushes(r.st, r.pc + 1)))
    ensures RtsNext(JsrNext(r, mem), mem') == r.(pc := r.pc + 2)
  {
    ReturnPulled(ram, r.st, r.pc + 1, mem');
    ReturnAfterCall(r, mem, r.pc + 1, mem');
    AfterReturn(r.pc);
  }

  /**
   * BRK then RTI: RTI resumes two bytes after the BRK opcode, the padding
   * byte skipped, with the status BRK found (B clear, U set) and SP and the
   * other registers restored.
   */
  lemma BreakThenReturn(r: Registers, mem: Memory, ram: seq<bv8>, mem': Memory)
    requires |ram| == Bus.RAM_SIZE
    requires RamImage(mem', RamAfter(ram, FramePushes(r.st, r.pc + 1, PushedByBrk(r.status))))
    ensures RtiNext(BrkNext(r, mem), mem') == r.(pc := r.pc + 1, status := Alu.Pulled(r.status))
  {
    FramePulled(ram, r.st, r.pc + 1, PushedByBrk(r.status), mem');
    BrkPulled(r.status);
    StackBack(r.st);
  }

  /**
   * RTI after an interrupt: the interrupted PC, SP and status come back (B
   * clear, U set), whatever the vector and the cycles were.
   */
  lemma InterruptThenReturn(r: Registers, mem: Memory, vector: bv16, cycles: bv8, ram: seq<bv8>, mem': Memory)
    requires |ram| == Bus.RAM_SIZE
    requires RamImage(mem', RamAfter(ram, InterruptPushes(r)))
    ensures RtiNext(InterruptNext(r, mem, vector, cycles), mem') == r.(cycles := cycles, status := Alu.Pulled(r.status))
  {
    FramePulled(ram, r.st, r.pc, PushedByInterrupt(r.status), mem');
    InterruptPulled(r.status);
    StackBack(r.st);
  }

  lemma InterruptPulled(status: bv8)
    ensures Alu.Pulled(PushedByInterrupt(status)) == Alu.Pulled(status)
  {
  }

  lemma BrkPulled(status: bv8)
    ensures Alu.Pulled(PushedByBrk(status)) == Alu.Pulled(status)
  {
  }

  /** PHA then PLA gives A back, with Z and N set from it, and SP restored. */
  lemma PushThenPullA(r: Registers, ram: seq<bv8>, mem': Memory)
    requires |ram| == Bus.RAM_SIZE
    requires RamImage(mem', RamAfter(ram, [Write(StackAddr(r.st), r.a)]))
    ensures PlaNext(PushNext(r), mem') == r.(status := WithZN(r.status, r.a))
  {
    PushedPulled(ram, r.st, r.a, mem');
    StackBack(r.st);
  }

  /** PHP then PLP gives the status back with B clear and U set, and SP restored. */
  lemma PushThenPullStatus(r: Registers, ram: seq<bv8>, mem': Memory)
    requires |ram| == Bus.RAM_SIZE
    requires RamImage(mem', RamAfter(ram, [Write(StackAddr(r.st), PushedByPhp(r.status))]))
    ensures PlpNext(PushNext(r), mem') == r.(status := Alu.Pulled(r.status))
  {
    PushedPulled(ram, r.st, PushedByPhp(r.status), mem');
    PhpPulled(r.status);
    StackBack(r.st);
  }

  lemma PhpPulled(status: bv8)
    ensures Alu.Pulled(PushedByPhp(status)) == Alu.Pulled(status)
  {
  }

  /**
   * A read takes one cycle more than the table gives exactly when its mode
   * is indexed and the indexing crossed a page; it moves PC past the operand.
   */
  lemma ReadCycles(o: KnownOpcode, r: Registers, mem: Memory)
    requires IsRead(o.op)
    ensures ReadNext(o, r, mem).cycles == if PagePenalty(o) && EffectiveAddress(o.mode, r, mem).1 then r.cycles + 1 else r.cycles
    ensures ReadNext(o, r, mem).pc == PastOperand(r.pc, o.mode) && ReadNext(o, r, mem).st == r.st
  {
  }

  // A clock

  /**
   * The registers after one clock: with cycles pending it only counts down;
   * otherwise the byte at PC is fetched and decoded (a NOP when unknown), PC
   * moves past it, the instruction runs, and its table cycles are added to
   * the extra ones it took before one is taken off.
   */
  function ClockNext(t: OpcodeTable, r: Registers, mem: Memory): Registers
  {
    if r.cycles == 0 then
      var o := Decoded(t, mem[r.pc]);
      var n := Next(o, r.(pc := Following(r.pc)), mem);
      n.(cycles := CyclesAfterClock(r.cycles, t.cycles(o), n.cycles))
    else r.(cycles := CyclesAfterClock(r.cycles, 0, 0))
  }

  /** The bus writes of one clock: those of the instruction fetched, if any. */
  function ClockWrites(t: OpcodeTable, r: Registers, mem: Memory): seq<Write>
  {
    if r.cycles == 0 then Writes(Decoded(t, mem[r.pc]), r.(pc := Following(r.pc)), mem) else []
  }

  /** The fetch and the instruction of a clock that fetches are quiet. */
  predicate QuietClock(t: OpcodeTable, r: Registers, mem: Memory)
  {
    r.cycles == 0 ==> CpuBus.Quiet(r.pc) && QuietStep(Decoded(t, mem[r.pc]), r.(pc := Following(r.pc)), mem)
  }

  /** `n` clocks in a row over an unchanging image. */
  function Clocks(t: OpcodeTable, r: Registers, mem: Memory, n: nat): Registers
    decreases n
  {
    if n == 0 then r else Clocks(t, ClockNext(t, r, mem), mem, n - 1)
  }

  /** A clock with cycles pending takes one off and changes nothing else. */
  lemma CountdownStep(t: OpcodeTable, r: Registers, mem: Memory)
    requires r.cycles != 0
    ensures ClockNext(t, r, mem) == r.(cycles := Pred8(r.cycles))
  {
  }

  /**
   * With cycles pending, the clocks that count them down change nothing
   * else, and the last of them leaves none pending: the next clock fetches.
   */
  lemma {:induction false} Countdown(t: OpcodeTable, r: Registers, mem: Memory)
    ensures Clocks(t, r, mem, Nat8(r.cycles)) == r.(cycles := 0)
    decreases Nat8(r.cycles)
  {
    if r.cycles != 0 {
      var r1 := r.(cycles := Pred8(r.cycles));
      CountdownStep(t, r, mem);
      Countdown(t, r1, mem);
    }
  }

  /** Before the last of the pending cycles has passed, a cycle is still pending and nothing else has changed. */
  lemma {:induction false} CountdownPending(t: OpcodeTable, r: Registers, mem: Memory, j: nat)
    requires j < Nat8(r.cycles)
    ensures Clocks(t, r, mem, j).cycles != 0 && Clocks(t, r, mem, j).(cycles := r.cycles) == r
    decreases j
  {
    if j > 0 {
      var r1 := r.(cycles := Pred8(r.cycles));
      CountdownStep(t, r, mem);
      CountdownPending(t, r1, mem, j - 1);
    }
  }
}
