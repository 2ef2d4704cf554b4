/**
 * The instruction set as the interpreter dispatches it: 151 opcodes, each a
 * mnemonic paired with an addressing mode. The byte-to-opcode decoder, the
 * base cycle counts and the debugger's addressing-mode table live in a table
 * that is not part of this model; they are a parameter here.
 */
module Opcodes {
  import opened Wrappers

  datatype Operation =
    | Adc | And | Asl | Bcc | Bcs | Beq | Bit | Bmi | Bne | Bpl | Brk | Bvc | Bvs | Clc
    | Cld | Cli | Clv | Cmp | Cpx | Cpy | Dec | Dex | Dey | Eor | Inc | Inx | Iny | Jmp
    | Jsr | Lda | Ldx | Ldy | Lsr | Nop | Ora | Pha | Php | Pla | Plp | Rol | Ror | Rti
    | Rts | Sbc | Sec | Sed | Sei | Sta | Stx | Sty | Tax | Tay | Tsx | Txa | Txs | Tya

  datatype Mode =
    | Accumulator | Immediate | Implied | Relative | Absolute | AbsoluteX | AbsoluteY
    | ZeroPage | ZeroPageX | ZeroPageY | Indirect | IndirectX | IndirectY

  /** An opcode such as `OraIndX`: the operation and the addressing mode its name carries. */
  datatype Opcode = Opcode(op: Operation, mode: Mode)

  /** The eight addressing modes of the ALU group ORA, AND, EOR, ADC, LDA, CMP, SBC. */
  const ALU_MODES: set<Mode> :=
    {IndirectX, ZeroPage, Immediate, Absolute, IndirectY, ZeroPageX, AbsoluteY, AbsoluteX}

  /** The modes each operation is dispatched with. */
  function Modes(op: Operation): set<Mode>
  {
    match op
    case Ora | And | Eor | Adc | Lda | Cmp | Sbc => ALU_MODES
    case Sta => ALU_MODES - {Immediate}
    case Asl | Rol | Lsr | Ror => {ZeroPage, Accumulator, Absolute, ZeroPageX, AbsoluteX}
    case Dec | Inc => {ZeroPage, Absolute, ZeroPageX, AbsoluteX}
    case Bit => {ZeroPage, Absolute}
    case Jmp => {Absolute, Indirect}
    case Jsr => {Absolute}
    case Ldx => {Immediate, ZeroPage, Absolute, ZeroPageY, AbsoluteY}
    case Ldy => {Immediate, ZeroPage, Absolute, ZeroPageX, AbsoluteX}
    case Stx => {ZeroPage, Absolute, ZeroPageY}
    case Sty => {ZeroPage, Absolute, ZeroPageX}
    case Cpx | Cpy => {Immediate, ZeroPage, Absolute}
    case Bpl | Bmi | Bvc | Bvs | Bcc | Bcs | Bne | Beq => {Relative}
    case _ => {Implied}
  }

  /** One of the 151 opcodes the interpreter dispatches. */
  predicate Known(o: Opcode)
  {
    o.mode in Modes(o.op)
  }

  type KnownOpcode = o: Opcode | Known(o) witness Opcode(Nop, Implied)

  /** What an undecodable byte runs as. */
  const NOP: KnownOpcode := Opcode(Nop, Implied)

  /** Operations that read one operand byte and change only registers and flags. */
  predicate IsRead(op: Operation)
  {
    op in {Ora, And, Eor, Adc, Lda, Cmp, Sbc, Ldx, Ldy, Cpx, Cpy, Bit}
  }

  /** Read-modify-write operations, on A or on memory. */
  predicate IsModify(op: Operation)
  {
    op in {Asl, Rol, Lsr, Ror, Dec, Inc}
  }

  predicate IsStore(op: Operation)
  {
    op in {Sta, Stx, Sty}
  }

  predicate IsBranch(op: Operation)
  {
    op in {Bpl, Bmi, Bvc, Bvs, Bcc, Bcs, Bne, Beq}
  }

  /** Operations that touch only the registers: flag, transfer, increment and no-op instructions. */
  predicate IsRegisterOnly(op: Operation)
  {
    op in {Clc, Cld, Cli, Clv, Sec, Sed, Sei, Dex, Dey, Inx, Iny, Tax, Tay, Tsx, Txa, Txs, Tya, Nop}
  }

  /** The rest: jumps, calls, returns, BRK and the stack instructions. */
  predicate IsControl(op: Operation)
  {
    op in {Jmp, Jsr, Rts, Rti, Brk, Pha, Php, Pla, Plp}
  }

  /** Every operation is in exactly one group. */
  lemma Groups(op: Operation)
    ensures IsRead(op) || IsModify(op) || IsStore(op) || IsBranch(op) || IsRegisterOnly(op) || IsControl(op)
    ensures IsRead(op) ==> !IsModify(op) && !IsStore(op) && !IsBranch(op) && !IsRegisterOnly(op) && !IsControl(op)
    ensures IsModify(op) ==> !IsStore(op) && !IsBranch(op) && !IsRegisterOnly(op) && !IsControl(op)
    ensures IsStore(op) ==> !IsBranch(op) && !IsRegisterOnly(op) && !IsControl(op)
    ensures IsBranch(op) ==> !IsRegisterOnly(op) && !IsControl(op)
    ensures IsRegisterOnly(op) ==> !IsControl(op)
  {
  }

  /** The modes that compute an effective address from operand bytes. */
  predicate AddressMode(m: Mode)
  {
    m in {ZeroPage, ZeroPageX, ZeroPageY, Absolute, AbsoluteX, AbsoluteY, IndirectX, IndirectY}
  }

  /** The indexed modes whose address computation can cross a page. */
  predicate PageCrossingMode(m: Mode)
  {
    m in {AbsoluteX, AbsoluteY, IndirectY}
  }

  /** The opcodes that take one more cycle when the indexed address crosses a page. */
  predicate PagePenalty(o: Opcode)
  {
    IsRead(o.op) && PageCrossingMode(o.mode)
  }

  /**
   * Which modes each group uses: a read takes an immediate byte or an
   * address, a read-modify-write works on A or an address, a store always
   * on an address, a branch is relative and a register-only opcode implied.
   */
  lemma GroupModes(o: KnownOpcode)
    ensures IsRead(o.op) ==> o.mode == Immediate || AddressMode(o.mode)
    ensures IsModify(o.op) ==> o.mode == Accumulator || AddressMode(o.mode)
    ensures IsModify(o.op) && o.mode == Accumulator ==> o.op in {Asl, Rol, Lsr, Ror}
    ensures IsStore(o.op) ==> AddressMode(o.mode)
    ensures IsBranch(o.op) <==> o.mode == Relative
    ensures IsRegisterOnly(o.op) ==> o.mode == Implied
    ensures o.mode == Indirect <==> o.op == Jmp && o.mode != Absolute
  {
  }

  /**
   * The opcode table: the byte decoder, the base cycle count of each opcode
   * and the addressing mode the debugger's format uses.
   */
  datatype OpcodeTable = OpcodeTable(
    decode: bv8 -> Option<KnownOpcode>,
    cycles: KnownOpcode -> bv8,
    addressingMode: KnownOpcode -> Mode)

  /** The opcode a fetched byte runs as: the decoded one, or a NOP. */
  function Decoded(t: OpcodeTable, b: bv8): (o: KnownOpcode)
    ensures t.decode(b).None? ==> o == NOP
    ensures t.decode(b).Some? ==> o == t.decode(b).value
  {
    match t.decode(b)
    case Some(o) => o
    case None => NOP
  }

  /** The operand bytes that follow an opcode in each addressing mode. */
  function RequiredBytes(m: Mode): (n: nat)
    ensures n <= 2
    ensures n == 0 <==> m in {Accumulator, Implied}
    ensures n == 2 <==> m in {Absolute, AbsoluteX, AbsoluteY, Indirect}
  {
    match m
    case Accumulator => 0
    case Immediate => 1
    case Implied => 0
    case Relative => 1
    case Absolute => 2
    case AbsoluteX => 2
    case AbsoluteY => 2
    case ZeroPage => 1
    case ZeroPageX => 1
    case ZeroPageY => 1
    case Indirect => 2
    case IndirectX => 1
    case IndirectY => 1
  }

  /** The first three letters of the opcode's name, lower-cased. */
  function Mnemonic(op: Operation): (s: string)
    ensures |s| == 3 && forall i :: 0 <= i < 3 ==> 'a' <= s[i] <= 'z'
  {
    match op
    case Adc => "adc" case And => "and" case Asl => "asl" case Bcc => "bcc"
    case Bcs => "bcs" case Beq => "beq" case Bit => "bit" case Bmi => "bmi"
    case Bne => "bne" case Bpl => "bpl" case Brk => "brk" case Bvc => "bvc"
    case Bvs => "bvs" case Clc => "clc" case Cld => "cld" case Cli => "cli"
    case Clv => "clv" case Cmp => "cmp" case Cpx => "cpx" case Cpy => "cpy"
    case Dec => "dec" case Dex => "dex" case Dey => "dey" case Eor => "eor"
    case Inc => "inc" case Inx => "inx" case Iny => "iny" case Jmp => "jmp"
    case Jsr => "jsr" case Lda => "lda" case Ldx => "ldx" case Ldy => "ldy"
    case Lsr => "lsr" case Nop => "nop" case Ora => "ora" case Pha => "pha"
    case Php => "php" case Pla => "pla" case Plp => "plp" case Rol => "rol"
    case Ror => "ror" case Rti => "rti" case Rts => "rts" case Sbc => "sbc"
    case Sec => "sec" case Sed => "sed" case Sei => "sei" case Sta => "sta"
    case Stx => "stx" case Sty => "sty" case Tax => "tax" case Tay => "tay"
    case Tsx => "tsx" case Txa => "txa" case Txs => "txs" case Tya => "tya"
  }
}
