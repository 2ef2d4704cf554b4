/**
 * The 6502 interpreter's pure parts: the register file, the effective
 * address each addressing mode computes from the operand bytes, the stack
 * discipline on the 2 KB of RAM, the branch rule, and the effect of each
 * instruction group on the registers. The imperative CPU (module Cpu) is
 * specified against these functions.
 */
module CpuSpec {
  import opened Bits
  import opened Alu
  import opened Opcodes
  import Bus

  const STACK_BASE: bv16 := 0x0100
  const PC_START: bv16 := 0xFFFC
  const IRQ_HANDLER: bv16 := 0xFFFE
  const NMI_HANDLER: bv16 := 0xFFFA

  /** A, X, Y, the stack pointer, the program counter, the pending cycles and the status byte. */
  datatype Registers = Registers(a: bv8, x: bv8, y: bv8, st: bv8, pc: bv16, cycles: bv8, status: bv8)

  // Words

  /** `u16::from(lo) | (u16::from(hi) << 8)`: a little-endian word. */
  function Word(lo: bv8, hi: bv8): (w: bv16)
    ensures Lo(w) == lo && Hi(w) == hi
  {
    (lo as bv16) | ((hi as bv16) << 8)
  }

  /** `(w & 0xff) as u8` */
  function Lo(w: bv16): bv8
  {
    (w & 0xFF) as bv8
  }

  /** `(w >> 8) as u8` */
  function Hi(w: bv16): bv8
  {
    (w >> 8) as bv8
  }

  /** A word is its two bytes put back together. */
  lemma WordOfBytes(w: bv16)
    ensures Word(Lo(w), Hi(w)) == w
  {
  }

  /** The value of a little-endian word. */
  lemma WordValue(lo: bv8, hi: bv8)
    ensures Nat16(Word(lo, hi)) == Nat8(lo) + 256 * Nat8(hi)
  {
    HighLow(Word(lo, hi));
  }

  // Addressing modes

  /** zp: `u16::from(b) & 0x00ff`, the byte itself as an address in page 0. */
  function ZeroPage(b: bv8): (addr: bv16)
    ensures addr < 0x100 && Lo(addr) == b
  {
    (b as bv16) & 0x00FF
  }

  /** zp,X and zp,Y: `u16::from(b.wrapping_add(index)) & 0x00ff`, which wraps inside page 0. */
  function ZeroPageIndexed(b: bv8, index: bv8): (addr: bv16)
    ensures addr < 0x100 && Lo(addr) == b + index
  {
    ((b + index) as bv16) & 0x00FF
  }

  /** The zero-page index wraps modulo 256. */
  lemma ZeroPageIndexedValue(b: bv8, index: bv8)
    ensures Nat16(ZeroPageIndexed(b, index)) == (Nat8(b) + Nat8(index)) % 256
  {
    Sum8(b, index);
    ZeroPageValue(b + index);
  }

  lemma ZeroPageValue(b: bv8)
    ensures Nat16((b as bv16) & 0x00FF) == Nat8(b)
  {
  }

  /** abs,X, abs,Y and (zp),Y: `base.wrapping_add(u16::from(index))`. */
  function Indexed(base: bv16, index: bv8): (addr: bv16)
    ensures Lo(addr) == Lo(base) + index
  {
    base + (index as bv16)
  }

  /** The page-change test of the indexed modes and of a branch: the high bytes differ. */
  predicate PageCrossed(from: bv16, to: bv16)
  {
    from & 0xFF00 != to & 0xFF00
  }

  /** Indexing crosses a page exactly when the low byte of the base plus the index exceeds 255. */
  lemma IndexedCrossing(base: bv16, index: bv8)
    ensures PageCrossed(base, Indexed(base, index)) <==> Nat8(Lo(base)) + Nat8(index) > 255
  {
    CarryOut(base, index);
    WideSum(Lo(base), index);
    Above255((Lo(base) as bv16) + (index as bv16));
  }

  lemma CarryOut(base: bv16, index: bv8)
    ensures PageCrossed(base, base + (index as bv16)) <==> (Lo(base) as bv16) + (index as bv16) > 0xFF
  {
    assert Lo(base) as bv16 == base & 0xFF;
    CarryBits(base, index);
  }

  lemma CarryBits(base: bv16, index: bv8)
    ensures base & 0xFF00 != (base + (index as bv16)) & 0xFF00 <==> (base & 0xFF) + (index as bv16) > 0xFF
  {
  }

  /**
   * JMP (ind): where the high byte of the target is read. The pointer's
   * page is never left: a pointer ending in 0xFF takes its high byte from
   * the start of the same page.
   */
  function IndirectHigh(ptr: bv16): (addr: bv16)
    ensures addr & 0xFF00 == ptr & 0xFF00
    ensures Lo(addr) == Lo(ptr) + 1
    ensures Lo(ptr) != 0xFF ==> addr == ptr + 1
  {
    if ptr & 0x00FF == 0x00FF then ptr & 0xFF00 else ptr + 1
  }

  /** (zp,X): the two pointer bytes are at `b + X` and `b + X + 1`, both wrapping in page 0. */
  function IndirectXLow(b: bv8, x: bv8): (addr: bv16)
    ensures addr < 0x100 && Lo(addr) == b + x
  {
    (b + x) as bv16
  }

  function IndirectXHigh(b: bv8, x: bv8): (addr: bv16)
    ensures addr < 0x100 && Lo(addr) == Lo(IndirectXLow(b, x)) + 1
  {
    (b + x + 1) as bv16
  }

  /** (zp),Y: the pointer bytes are at `b` and `(b + 1) & 0xff`, both in page 0. */
  function IndirectYLow(b: bv8): (addr: bv16)
    ensures addr < 0x100 && Lo(addr) == b
  {
    (b as bv16) & 0x00FF
  }

  function IndirectYHigh(b: bv8): (addr: bv16)
    ensures addr < 0x100 && Lo(addr) == b + 1
  {
    (IndirectYLow(b) + 1) & 0x00FF
  }

  /** The relative operand sign-extended to 16 bits, as `am_rel` returns it. */
  function SignExtend(b: bv8): (w: bv16)
    ensures Lo(w) == b
    ensures Hi(w) == (if b & 0x80 == 0x80 then 0xFF else 0)
  {
    if b & 0x80 == 0x80 then (b as bv16) | 0xFF00 else b as bv16
  }

  /** The sign-extended offset is the signed byte modulo 65536. */
  lemma SignExtendValue(b: bv8)
    ensures Nat16(SignExtend(b)) == Signed(b) % 0x10000
  {
    var w := SignExtend(b);
    WordOfBytes(w);
    WordValue(b, Hi(w));
    SignBit(b);
    if b & 0x80 == 0x80 {
      assert Hi(w) == 0xFF;
      assert Nat16(w) == Nat8(b) + 256 * 255;
    } else {
      assert Hi(w) == 0;
      assert Nat16(w) == Nat8(b);
    }
  }

  /** The target of a taken branch: the address after the operand plus the offset. */
  function BranchTarget(pc: bv16, offset: bv8): bv16
  {
    pc + SignExtend(offset)
  }

  /** The cycles a taken branch adds: one, and one more when the target is on another page. */
  function BranchCycles(pc: bv16, target: bv16): (n: bv8)
    ensures n == 1 || n == 2
    ensures n == 2 <==> PageCrossed(pc, target)
  {
    if PageCrossed(pc, target) then 2 else 1
  }

  /** The flag condition of each branch. */
  function BranchTaken(op: Operation, status: bv8): bool
    requires IsBranch(op)
  {
    match op
    case Bpl => !Flag(status, N)
    case Bmi => Flag(status, N)
    case Bvc => !Flag(status, V)
    case Bvs => Flag(status, V)
    case Bcc => !Flag(status, C)
    case Bcs => Flag(status, C)
    case Bne => !Flag(status, Z)
    case Beq => Flag(status, Z)
  }

  /** Each flag is tested by one branch taken when it is set and one taken when it is clear. */
  lemma BranchPairs(status: bv8)
    ensures BranchTaken(Bpl, status) != BranchTaken(Bmi, status)
    ensures BranchTaken(Bvc, status) != BranchTaken(Bvs, status)
    ensures BranchTaken(Bcc, status) != BranchTaken(Bcs, status)
    ensures BranchTaken(Bne, status) != BranchTaken(Beq, status)
  {
  }

  // The stack

  /** `STACK_BASE.wrapping_add(u16::from(st))`: the stack lives in page 1. */
  function StackAddr(st: bv8): (addr: bv16)
    ensures 0x100 <= addr <= 0x1FF && Lo(addr) == st
    ensures Bus.RamIndex(addr) == 0x100 + Nat8(st)
  {
    StackIndex(st);
    STACK_BASE + (st as bv16)
  }

  lemma StackIndex(st: bv8)
    ensures Bus.RamIndex(STACK_BASE + (st as bv16)) == 0x100 + Nat8(st)
  {
    var addr := STACK_BASE + (st as bv16);
    StackBits(st);
    HighLow(addr);
  }

  lemma StackBits(st: bv8)
    ensures var addr := STACK_BASE + (st as bv16); addr & 0x7FF == addr && (addr >> 8) as bv8 == 1 && (addr & 0xFF) as bv8 == st
  {
  }

  /** RAM after a push: the byte is stored at 0x100 + SP and SP moves down. */
  function PushRam(ram: seq<bv8>, st: bv8, data: bv8): (r: seq<bv8>)
    requires |ram| == Bus.RAM_SIZE
    ensures |r| == Bus.RAM_SIZE
  {
    ram[Bus.RamIndex(StackAddr(st)) := data]
  }

  /** The byte a pop returns: SP moves up, then 0x100 + SP is read. */
  function PopValue(ram: seq<bv8>, st: bv8): bv8
    requires |ram| == Bus.RAM_SIZE
  {
    ram[Bus.RamIndex(StackAddr(st + 1))]
  }

  /** A pop after a push returns the pushed byte and SP where it was. */
  lemma PushThenPop(ram: seq<bv8>, st: bv8, data: bv8)
    requires |ram| == Bus.RAM_SIZE
    ensures PopValue(PushRam(ram, st, data), st - 1) == data
    ensures st - 1 + 1 == st
  {
  }

  /** A push changes one byte of page 1 and nothing outside it. */
  lemma PushFootprint(ram: seq<bv8>, st: bv8, data: bv8, i: nat)
    requires |ram| == Bus.RAM_SIZE && i < Bus.RAM_SIZE
    requires i != 0x100 + Nat8(st)
    ensures PushRam(ram, st, data)[i] == ram[i]
  {
  }

  /** Bytes pushed at distinct stack cells do not overwrite each other. */
  lemma PushesApart(ram: seq<bv8>, st: bv8, d1: bv8, d2: bv8)
    requires |ram| == Bus.RAM_SIZE
    ensures PopValue(PushRam(PushRam(ram, st, d1), st - 1, d2), st - 1) == d1
    ensures PopValue(PushRam(PushRam(ram, st, d1), st - 1, d2), st - 2) == d2
  {
    Distinct(st);
  }

  lemma Distinct(st: bv8)
    ensures st - 1 + 1 == st && st - 2 + 1 == st - 1 && st - 3 + 1 == st - 2
    ensures Nat8(st) != Nat8(st - 1) && Nat8(st) != Nat8(st - 2) && Nat8(st - 1) != Nat8(st - 2)
  {
  }

  /**
   * JSR pushes `pc - 1` high byte first; RTS pops the low byte, then the
   * high byte, and adds one: execution resumes at `pc`, with SP restored.
   */
  lemma JsrThenRts(ram: seq<bv8>, st: bv8, pc: bv16)
    requires |ram| == Bus.RAM_SIZE
    ensures var ram' := PushRam(PushRam(ram, st, Hi(pc - 1)), st - 1, Lo(pc - 1));
      Word(PopValue(ram', st - 2), PopValue(ram', st - 1)) + 1 == pc && st - 2 + 1 + 1 == st
  {
    PushesApart(ram, st, Hi(pc - 1), Lo(pc - 1));
    WordOfBytes(pc - 1);
  }

  /** RAM after an interrupt or BRK pushes PC high, PC low and a status byte. */
  function PushFrame(ram: seq<bv8>, st: bv8, pc: bv16, status: bv8): (r: seq<bv8>)
    requires |ram| == Bus.RAM_SIZE
    ensures |r| == Bus.RAM_SIZE
  {
    PushRam(PushRam(PushRam(ram, st, Hi(pc)), st - 1, Lo(pc)), st - 2, status)
  }

  /**
   * RTI undoes an interrupt frame: it pops the status, installed with B
   * clear and U set, then PC low and PC high; SP is back where it was.
   */
  lemma InterruptThenRti(ram: seq<bv8>, st: bv8, pc: bv16, status: bv8)
    requires |ram| == Bus.RAM_SIZE
    ensures var ram' := PushFrame(ram, st, pc, status);
      PopValue(ram', st - 3) == status &&
      Word(PopValue(ram', st - 2), PopValue(ram', st - 1)) == pc &&
      st - 3 + 1 + 1 + 1 == st
  {
    Distinct(st);
    WordOfBytes(pc);
  }

  /** A push changes one cell of page 1 of RAM. */
  lemma PushChangesOneCell(ram: seq<bv8>, st: bv8, data: bv8)
    requires |ram| == Bus.RAM_SIZE
    ensures forall i :: 0 <= i < Bus.RAM_SIZE && i != 0x100 + Nat8(st) ==> PushRam(ram, st, data)[i] == ram[i]
    ensures PushRam(ram, st, data)[0x100 + Nat8(st)] == data
  {
  }

  // Instruction groups

  /** The registers after a read instruction with operand `v` (inst_ora ... inst_bit). */
  function ReadStep(r: Registers, op: Operation, v: bv8): (r': Registers)
    requires IsRead(op)
    ensures r'.st == r.st && r'.pc == r.pc && r'.cycles == r.cycles
    ensures op in {Cmp, Cpx, Cpy, Bit} ==> r'.a == r.a && r'.x == r.x && r'.y == r.y
    ensures op in {Ora, And, Eor, Adc, Sbc, Lda} ==> r'.x == r.x && r'.y == r.y
    ensures op in {Ldx, Ldy} ==> r'.a == r.a
  {
    match op
    case Ora => var a := r.a | v; r.(a := a, status := WithZN(r.status, a))
    case And => var a := r.a & v; r.(a := a, status := WithZN(r.status, a))
    case Eor => var a := r.a ^ v; r.(a := a, status := WithZN(r.status, a))
    case Adc => var o := Alu.Adc(r.a, v, r.status); r.(a := o.value, status := o.status)
    case Sbc => var o := Alu.Sbc(r.a, v, r.status); r.(a := o.value, status := o.status)
    case Lda => r.(a := v, status := WithZN(r.status, v))
    case Ldx => r.(x := v, status := WithZN(r.status, v))
    case Ldy => r.(y := v, status := WithZN(r.status, v))
    case Cmp => r.(status := Compare(r.a, v, r.status))
    case Cpx => r.(status := Compare(r.x, v, r.status))
    case Cpy => r.(status := Compare(r.y, v, r.status))
    case Bit => r.(status := BitTest(r.a, v, r.status))
  }

  /** A load puts the operand in its register and sets Z and N from it. */
  lemma Loads(r: Registers, op: Operation, v: bv8)
    requires op in {Lda, Ldx, Ldy}
    ensures var r' := ReadStep(r, op, v);
      (if op == Lda then r'.a else if op == Ldx then r'.x else r'.y) == v &&
      (Flag(r'.status, Z) <==> v == 0) && (Flag(r'.status, N) <==> v & 0x80 == 0x80)
  {
  }

  /** A compare or BIT changes only the status, as Compare and BitTest give it. */
  lemma Compares(r: Registers, op: Operation, v: bv8)
    requires op in {Cmp, Cpx, Cpy, Bit}
    ensures var reg := if op == Cmp || op == Bit then r.a else if op == Cpx then r.x else r.y;
      ReadStep(r, op, v) == r.(status := if op == Bit then BitTest(reg, v, r.status) else Compare(reg, v, r.status))
  {
  }

  /** The result and status of a read-modify-write instruction (inst_asl ... inst_dec). */
  function ModifyStep(op: Operation, v: bv8, status: bv8): (o: AluOut)
    requires IsModify(op)
    ensures op in {Inc, Dec} ==> o.status & !(Z | N) == status & !(Z | N)
  {
    match op
    case Asl => Alu.Asl(v, status)
    case Lsr => Alu.Lsr(v, status)
    case Rol => Alu.Rol(v, status)
    case Ror => Alu.Ror(v, status)
    case Inc => Alu.Inc(v, status)
    case Dec => Alu.Dec(v, status)
  }

  /** The register a store instruction writes. */
  function StoreValue(r: Registers, op: Operation): bv8
    requires IsStore(op)
  {
    match op
    case Sta => r.a
    case Stx => r.x
    case Sty => r.y
  }

  /** The registers after a flag, transfer, increment/decrement or no-op instruction. */
  function RegisterStep(r: Registers, op: Operation): (r': Registers)
    requires IsRegisterOnly(op)
    ensures r'.pc == r.pc && r'.cycles == r.cycles
    ensures op != Txs ==> r'.st == r.st
    ensures op in {Clc, Cld, Cli, Clv, Sec, Sed, Sei, Nop} ==> r'.a == r.a && r'.x == r.x && r'.y == r.y
  {
    match op
    case Clc => r.(status := SetFlag(r.status, C, false))
    case Cld => r.(status := SetFlag(r.status, D, false))
    case Cli => r.(status := SetFlag(r.status, I, false))
    case Clv => r.(status := SetFlag(r.status, V, false))
    case Sec => r.(status := SetFlag(r.status, C, true))
    case Sed => r.(status := SetFlag(r.status, D, true))
    case Sei => r.(status := SetFlag(r.status, I, true))
    case Dex => r.(x := r.x - 1, status := WithZN(r.status, r.x - 1))
    case Dey => r.(y := r.y - 1, status := WithZN(r.status, r.y - 1))
    case Inx => r.(x := r.x + 1, status := WithZN(r.status, r.x + 1))
    case Iny => r.(y := r.y + 1, status := WithZN(r.status, r.y + 1))
    case Tax => r.(x := r.a, status := WithZN(r.status, r.a))
    case Tay => r.(y := r.a, status := WithZN(r.status, r.a))
    case Tsx => r.(x := r.st, status := WithZN(r.status, r.st))
    case Txa => r.(a := r.x, status := WithZN(r.status, r.x))
    case Txs => r.(st := r.x)
    case Tya => r.(a := r.y, status := WithZN(r.status, r.y))
    case Nop => r
  }

  /** Each flag instruction sets or clears its own flag. */
  lemma FlagInstructions(r: Registers)
    ensures !Flag(RegisterStep(r, Clc).status, C) && Flag(RegisterStep(r, Sec).status, C)
    ensures !Flag(RegisterStep(r, Cld).status, D) && Flag(RegisterStep(r, Sed).status, D)
    ensures !Flag(RegisterStep(r, Cli).status, I) && Flag(RegisterStep(r, Sei).status, I)
    ensures !Flag(RegisterStep(r, Clv).status, V)
  {
  }

  // Interrupts

  /** The status an interrupt leaves: the pushed byte (B clear, U set) with I set. */
  function InterruptStatus(status: bv8): (s: bv8)
    ensures Flag(s, I) && !Flag(s, B) && Flag(s, U)
    ensures s & !(I | B | U) == status & !(I | B | U)
  {
    PushedByInterrupt(status) | I
  }

  /** The status BRK leaves: B is pushed set and then removed, and I is set. */
  function BrkStatus(status: bv8): (s: bv8)
    ensures Flag(s, I) && !Flag(s, B)
    ensures s & !(I | B) == status & !(I | B)
  {
    (PushedByBrk(status) & !B) | I
  }

  /**
   * The pending cycles a clock leaves: when none are pending an opcode is
   * fetched and its base cycles and extra cycles are added; in every case
   * one is then taken off, in u8 arithmetic.
   */
  function CyclesAfterClock(pending: bv8, base: bv8, extra: bv8): bv8
  {
    if pending == 0 then extra + base - 1 else pending - 1
  }
}
