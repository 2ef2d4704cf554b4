/**
 * The 6502 status register and the arithmetic, logic and shift units of the
 * interpreter, as functions from operands and status to a result and status.
 */
module Alu {
  import opened Bits

  // Status register bits
  const C: bv8 := 0x01
  const Z: bv8 := 0x02
  const I: bv8 := 0x04
  const D: bv8 := 0x08
  const B: bv8 := 0x10
  const U: bv8 := 0x20
  const V: bv8 := 0x40
  const N: bv8 := 0x80

  predicate IsFlag(f: bv8)
  {
    f in {C, Z, I, D, B, U, V, N}
  }

  function Flag(status: bv8, f: bv8): bool
  {
    status & f != 0
  }

  /** `StatusRegister::set(f, on)`: flag `f` becomes `on`, every other bit stays. */
  function SetFlag(status: bv8, f: bv8, on: bool): (r: bv8)
    requires IsFlag(f)
    ensures Flag(r, f) == on
    ensures r & !f == status & !f
  {
    if on then status | f else status & !f
  }

  /** Z from `r == 0` and N from bit 7 of r. */
  function WithZN(status: bv8, r: bv8): (s: bv8)
    ensures Flag(s, Z) <==> r == 0
    ensures Flag(s, N) <==> r & 0x80 == 0x80
    ensures s & !(Z | N) == status & !(Z | N)
  {
    SetFlag(SetFlag(status, Z, r == 0), N, r & 0x80 == 0x80)
  }

  /** The carry as an addend. */
  function CarryIn(status: bv8): (c: nat)
    ensures c <= 1 && (c == 1 <==> Flag(status, C))
  {
    if Flag(status, C) then 1 else 0
  }

  /** A byte read as a two's-complement number. */
  function Signed(b: bv8): (n: int)
    ensures -128 <= n < 128
  {
    if b < 0x80 then Nat8(b) else Nat8(b) - 256
  }

  /** A result byte and the status it leaves. */
  datatype AluOut = AluOut(value: bv8, status: bv8)

  /** The flags an operation does not touch: I, D, B and U. */
  predicate KeepsIdbu(s: bv8, t: bv8)
  {
    s & (I | D | B | U) == t & (I | D | B | U)
  }

  /** ADC: A + op + C in 16 bits; C from bit 8, V from the signs, Z and N from the low byte. */
  function Adc(a: bv8, op: bv8, status: bv8): AluOut
  {
    var sum: bv16 := WideAdd(a, op, Flag(status, C));
    var r := (sum & 0xFF) as bv8;
    AluOut(r, ArithmeticStatus(status, sum > 0xFF, SignedOverflow(a, op, r), r))
  }

  /** The overflow rule `(A ^ r) & !(A ^ op) & 0x80 == 0x80`. */
  predicate SignedOverflow(a: bv8, op: bv8, r: bv8)
  {
    ((a ^ r) & !(a ^ op)) & 0x80 == 0x80
  }

  /** The status ADC leaves: C and V as given, Z and N from the result, the rest kept. */
  function ArithmeticStatus(status: bv8, carry: bool, overflow: bool, r: bv8): (s: bv8)
    ensures Flag(s, C) == carry && Flag(s, V) == overflow
    ensures (Flag(s, Z) <==> r == 0) && (Flag(s, N) <==> r & 0x80 == 0x80)
    ensures KeepsIdbu(s, status)
  {
    SetCVZN(status, carry, overflow, r);
    WithZN(SetFlag(SetFlag(status, C, carry), V, overflow), r)
  }

  /** `u16::from(a) + u16::from(b) + carry`, which never wraps. */
  function WideAdd(a: bv8, b: bv8, carry: bool): (sum: bv16)
    ensures Nat16(sum) == Nat8(a) + Nat8(b) + (if carry then 1 else 0)
  {
    WideSum(a, b);
    WideBound(a, b);
    if carry then Succ9(a as bv16 + b as bv16); a as bv16 + b as bv16 + 1
    else a as bv16 + b as bv16
  }

  lemma WideBound(a: bv8, b: bv8)
    ensures a as bv16 + b as bv16 < 0x1FF
  {
  }

  /** SBC: ADC of the one's complement of the operand. */
  function Sbc(a: bv8, op: bv8, status: bv8): AluOut
  {
    Adc(a, op ^ 0xFF, status)
  }

  /** The low byte of the 16-bit sum is the sum modulo 256, and bit 8 is set iff it exceeds 255. */
  lemma AdcSum(a: bv8, op: bv8, status: bv8)
    ensures var sum := WideAdd(a, op, Flag(status, C));
      Nat8(Adc(a, op, status).value) == Nat16(sum) % 256 && (sum > 0xFF <==> Nat16(sum) > 255)
  {
    var sum := WideAdd(a, op, Flag(status, C));
    LowByte(sum);
    Above255(sum);
  }

  lemma Above255(w: bv16)
    ensures w > 0xFF <==> Nat16(w) > 255
  {
  }

  /**
   * ADC computes A + op + C modulo 256, sets C exactly when that sum
   * exceeds 0xFF, Z and N from the result, and leaves I, D, B and U.
   */
  lemma AdcArithmetic(a: bv8, op: bv8, status: bv8)
    ensures var r := Adc(a, op, status);
      Nat8(r.value) == (Nat8(a) + Nat8(op) + CarryIn(status)) % 256 &&
      (Flag(r.status, C) <==> Nat8(a) + Nat8(op) + CarryIn(status) > 0xFF) &&
      (Flag(r.status, Z) <==> r.value == 0) && (Flag(r.status, N) <==> r.value & 0x80 == 0x80) &&
      KeepsIdbu(r.status, status)
  {
    AdcSum(a, op, status);
  }

  lemma SetCVZN(status: bv8, c: bool, v: bool, r: bv8)
    ensures var s := WithZN(SetFlag(SetFlag(status, C, c), V, v), r);
      Flag(s, C) == c && Flag(s, V) == v && (Flag(s, Z) <==> r == 0) && (Flag(s, N) <==> r & 0x80 == 0x80) &&
      KeepsIdbu(s, status)
  {
    var s1 := SetFlag(status, C, c);
    var s2 := SetFlag(s1, V, v);
    assert Flag(WithZN(s2, r), C) == Flag(s2, C) == Flag(s1, C);
    assert Flag(WithZN(s2, r), V) == Flag(s2, V);
    KeepsThrough(status, s1, s2, WithZN(s2, r));
  }

  lemma KeepsThrough(s0: bv8, s1: bv8, s2: bv8, s3: bv8)
    requires s1 & !C == s0 & !C && s2 & !V == s1 & !V && s3 & !(Z | N) == s2 & !(Z | N)
    ensures KeepsIdbu(s3, s0)
  {
  }

  /**
   * The signed view of the overflow rule `(A ^ r) & !(A ^ op) & 0x80`: V is
   * set exactly when A + op + C, taken as signed numbers, leaves -128..127.
   */
  lemma AdcOverflow(a: bv8, op: bv8, status: bv8)
    ensures Flag(Adc(a, op, status).status, V) <==>
      !(-128 <= Signed(a) + Signed(op) + CarryIn(status) <= 127)
  {
    var r := Adc(a, op, status).value;
    AdcArithmetic(a, op, status);
    OverflowRule(a, op, r, CarryIn(status));
  }

  /** Bit 7 of `(a ^ r) & !(a ^ op)` is set iff a and op agree in sign and r does not. */
  lemma OverflowRule(a: bv8, op: bv8, r: bv8, c: nat)
    requires c <= 1 && Nat8(r) == (Nat8(a) + Nat8(op) + c) % 256
    ensures SignedOverflow(a, op, r) <==> !(-128 <= Signed(a) + Signed(op) + c <= 127)
  {
    SignBit(a);
    SignBit(op);
    SignBit(r);
    OverflowBits(a, op, r);
    OverflowValues(Nat8(a), Nat8(op), Nat8(r), c);
  }

  lemma OverflowBits(a: bv8, op: bv8, r: bv8)
    ensures SignedOverflow(a, op, r) <==> (a & 0x80 == op & 0x80 && r & 0x80 != a & 0x80)
  {
  }

  /** The overflow rule on numbers: the signs of x and y agree and z's differs. */
  lemma OverflowValues(x: nat, y: nat, z: nat, c: nat)
    requires x < 256 && y < 256 && c <= 1 && z == (x + y + c) % 256
    ensures ((x >= 128) == (y >= 128) && (z >= 128) != (x >= 128)) <==>
      !(-128 <= (if x < 128 then x else x - 256) + (if y < 128 then y else y - 256) + c <= 127)
  {
  }

  lemma SignBit(b: bv8)
    ensures b & 0x80 == 0x80 <==> Nat8(b) >= 128
    ensures b & 0x80 == 0 <==> Nat8(b) < 128
  {
  }

  /**
   * SBC subtracts the operand and the borrow (NOT C) modulo 256, and sets
   * C exactly when no borrow occurs, i.e. A >= op + (1 - C).
   */
  lemma SbcArithmetic(a: bv8, op: bv8, status: bv8)
    ensures var r := Sbc(a, op, status);
      Nat8(r.value) == (Nat8(a) - Nat8(op) - (1 - CarryIn(status))) % 256 &&
      (Flag(r.status, C) <==> Nat8(a) >= Nat8(op) + (1 - CarryIn(status))) &&
      (Flag(r.status, V) <==> !(-128 <= Signed(a) - Signed(op) - (1 - CarryIn(status)) <= 127)) &&
      (Flag(r.status, Z) <==> r.value == 0) && (Flag(r.status, N) <==> r.value & 0x80 == 0x80) &&
      KeepsIdbu(r.status, status)
  {
    Complement(op);
    AdcArithmetic(a, op ^ 0xFF, status);
    AdcOverflow(a, op ^ 0xFF, status);
  }

  /** The one's complement of a byte as a number: 255 - b, and -1 - b signed. */
  lemma Complement(b: bv8)
    ensures Nat8(b ^ 0xFF) == 255 - Nat8(b)
    ensures Signed(b ^ 0xFF) == -1 - Signed(b)
  {
    assert (b ^ 0xFF) as int == 255 - b as int;
  }

  /** CMP/CPX/CPY: subtract without storing; C iff reg >= op, Z iff equal, N from bit 7 of the difference. */
  function Compare(reg: bv8, op: bv8, status: bv8): (s: bv8)
    ensures Flag(s, C) <==> Nat8(reg) >= Nat8(op)
    ensures Flag(s, Z) <==> reg == op
    ensures Flag(s, N) <==> (Nat8(reg) - Nat8(op)) % 256 >= 128
    ensures s & !(C | Z | N) == status & !(C | Z | N)
  {
    Order8(reg, op);
    Difference8(reg, op);
    CompareFlags(reg, op, status);
    SignBit(reg - op);
    CompareBits(reg, op, status)
  }

  /** The flags as the source computes them. */
  function CompareBits(reg: bv8, op: bv8, status: bv8): bv8
  {
    var result := reg - op;
    SetFlag(SetFlag(SetFlag(status, C, reg >= op), Z, result == 0), N, result & 0x80 > 0)
  }

  lemma CompareFlags(reg: bv8, op: bv8, status: bv8)
    ensures var s := CompareBits(reg, op, status);
      (Flag(s, C) <==> reg >= op) && (Flag(s, Z) <==> reg == op) &&
      (Flag(s, N) <==> (reg - op) & 0x80 == 0x80) && s & !(C | Z | N) == status & !(C | Z | N)
  {
  }

  /** A compare sets C, Z and N as a subtraction with the carry set would, and leaves V alone. */
  lemma CompareIsSubtraction(reg: bv8, op: bv8, status: bv8)
    ensures var s := Compare(reg, op, status); var t := Sbc(reg, op, status | C).status;
      Flag(s, C) == Flag(t, C) && Flag(s, Z) == Flag(t, Z) && Flag(s, N) == Flag(t, N) &&
      Flag(s, V) == Flag(status, V)
  {
    SbcWithCarry(reg, op, status);
    CompareFlags(reg, op, status);
    KeepsV(status, Compare(reg, op, status));
  }

  /** With C set, SBC computes `reg - op` exactly, with C iff reg >= op. */
  lemma SbcWithCarry(reg: bv8, op: bv8, status: bv8)
    ensures var t := Sbc(reg, op, status | C);
      t.value == reg - op && (Flag(t.status, C) <==> reg >= op) &&
      (Flag(t.status, Z) <==> t.value == 0) && (Flag(t.status, N) <==> t.value & 0x80 == 0x80)
  {
    var t := Sbc(reg, op, status | C);
    CarrySet(status);
    SbcArithmetic(reg, op, status | C);
    Difference8(reg, op);
    Order8(reg, op);
    SameByte(t.value, reg - op);
  }

  lemma CarrySet(status: bv8)
    ensures CarryIn(status | C) == 1
  {
  }

  lemma KeepsV(status: bv8, s: bv8)
    requires s & !(C | Z | N) == status & !(C | Z | N)
    ensures Flag(s, V) == Flag(status, V)
  {
  }

  /** Bytes with the same value are equal. */
  lemma SameByte(x: bv8, y: bv8)
    requires Nat8(x) == Nat8(y)
    ensures x == y
  {
  }

  /** BIT: Z from `A & op`, V and N copied from bits 6 and 7 of the operand. */
  function BitTest(a: bv8, op: bv8, status: bv8): (s: bv8)
    ensures Flag(s, Z) <==> a & op == 0
    ensures Flag(s, V) <==> op & 0x40 != 0
    ensures Flag(s, N) <==> op & 0x80 != 0
    ensures s & !(Z | V | N) == status & !(Z | V | N)
  {
    SetFlag(SetFlag(SetFlag(status, Z, a & op == 0), V, op & 0x40 > 0), N, op & 0x80 > 0)
  }

  /** ASL: bit 7 goes to C, a zero enters at bit 0. */
  function Asl(op: bv8, status: bv8): AluOut
  {
    var r := op << 1;
    AluOut(r, WithZN(SetFlag(status, C, op & 0x80 == 0x80), r))
  }

  /** LSR: bit 0 goes to C, a zero enters at bit 7. */
  function Lsr(op: bv8, status: bv8): AluOut
  {
    var r := op >> 1;
    AluOut(r, WithZN(SetFlag(status, C, op & 1 > 0), r))
  }

  /** ROL: bit 7 goes to C, the old C enters at bit 0. */
  function Rol(op: bv8, status: bv8): AluOut
  {
    var r := if Flag(status, C) then (op << 1) | 1 else op << 1;
    AluOut(r, WithZN(SetFlag(status, C, op & 0x80 > 0), r))
  }

  /** ROR: bit 0 goes to C, the old C enters at bit 7. */
  function Ror(op: bv8, status: bv8): AluOut
  {
    var r := if Flag(status, C) then (op >> 1) | 0x80 else op >> 1;
    AluOut(r, WithZN(SetFlag(status, C, op & 1 > 0), r))
  }

  /** ASL doubles modulo 256 and carries out when the operand is at least 128. */
  lemma AslDoubles(op: bv8, status: bv8)
    ensures Nat8(Asl(op, status).value) == (2 * Nat8(op)) % 256
    ensures Flag(Asl(op, status).status, C) <==> Nat8(op) >= 128
  {
    assert (op << 1) as int == (2 * op as int) % 256;
    SignBit(op);
  }

  /** LSR halves, rounding down, and carries out the low bit. */
  lemma LsrHalves(op: bv8, status: bv8)
    ensures Nat8(Lsr(op, status).value) == Nat8(op) / 2
    ensures Flag(Lsr(op, status).status, C) <==> Nat8(op) % 2 == 1
  {
    HalfValue(op);
    LowBit(op);
  }

  lemma HalfValue(b: bv8)
    ensures Nat8(b >> 1) == Nat8(b) / 2
  {
  }

  lemma LowBit(b: bv8)
    ensures (b & 1 > 0) == (Nat8(b) % 2 == 1)
  {
  }

  /** ROR undoes ROL: the byte and the carry come back. */
  lemma RorUndoesRol(op: bv8, status: bv8)
    ensures var r := Rol(op, status); var t := Ror(r.value, r.status);
      t.value == op && Flag(t.status, C) == Flag(status, C)
  {
    var r := Rol(op, status);
    assert Flag(r.status, C) == (op & 0x80 > 0);
    assert r.value & 1 > 0 <==> Flag(status, C);
  }

  /** ROL undoes ROR: the byte and the carry come back. */
  lemma RolUndoesRor(op: bv8, status: bv8)
    ensures var r := Ror(op, status); var t := Rol(r.value, r.status);
      t.value == op && Flag(t.status, C) == Flag(status, C)
  {
    var r := Ror(op, status);
    assert Flag(r.status, C) == (op & 1 > 0);
    assert r.value & 0x80 > 0 <==> Flag(status, C);
  }

  /** INC and DEC: add or subtract one with wraparound; Z and N from the result. */
  function Inc(op: bv8, status: bv8): AluOut
  {
    AluOut(op + 1, WithZN(status, op + 1))
  }

  function Dec(op: bv8, status: bv8): AluOut
  {
    AluOut(op - 1, WithZN(status, op - 1))
  }

  /** DEC undoes INC, and INC undoes DEC, on the byte. */
  lemma IncDecInverse(op: bv8, status: bv8)
    ensures Dec(Inc(op, status).value, status).value == op
    ensures Inc(Dec(op, status).value, status).value == op
    ensures Nat8(Inc(op, status).value) == (Nat8(op) + 1) % 256
  {
    Sum8(op, 1);
  }

  /** The status PHP pushes: B and U set. */
  function PushedByPhp(status: bv8): bv8
  {
    status | B | U
  }

  /** The status BRK pushes: B set on top of the current bits. */
  function PushedByBrk(status: bv8): bv8
  {
    status | B
  }

  /** The status IRQ and NMI push: B clear, U set. */
  function PushedByInterrupt(status: bv8): bv8
  {
    (status & !B) | U
  }

  /** The status PLP and RTI install: the pulled byte with B cleared and U set. */
  function Pulled(byte: bv8): (s: bv8)
    ensures !Flag(s, B) && Flag(s, U)
    ensures s & !(B | U) == byte & !(B | U)
  {
    (byte & !B) | U
  }

  /**
   * A status pushed by PHP, BRK or an interrupt and pulled again comes back
   * with every flag but B and U as it was, B clear and U set.
   */
  lemma PushPullStatus(status: bv8)
    ensures Pulled(PushedByPhp(status)) == (status & !B) | U
    ensures Pulled(PushedByBrk(status)) == (status & !B) | U
    ensures Pulled(PushedByInterrupt(status)) == (status & !B) | U
  {
  }
}
