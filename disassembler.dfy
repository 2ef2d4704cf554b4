/**
 * The debugger's disassemblers. Both walk a stretch of memory one
 * instruction at a time and list each instruction with its address: the
 * nestadia-core one walks a byte slice, the nestadia one walks cartridge
 * space through the cartridge's own reads and tags each line with the PRG
 * bank the address falls in.
 */
module Disassembler {
  import opened Bits
  import opened Wrappers
  import opened Opcodes
  import CpuSpec

  // ---------------------------------------------------------------------
  // Hexadecimal text, as `{:#x}` writes it
  // ---------------------------------------------------------------------

  /** A lower-case hex digit. */
  function HexDigit(d: nat): (c: char)
    requires d < 16
    ensures c in "0123456789abcdef"
  {
    if d < 10 then ('0' as int + d) as char else ('a' as int + d - 10) as char
  }

  /** The value of a hex digit; anything else counts as 0. */
  function DigitValue(c: char): (d: nat)
    ensures d < 16
  {
    if '0' <= c <= '9' then c as int - '0' as int
    else if 'a' <= c <= 'f' then c as int - 'a' as int + 10
    else 0
  }

  /** The digits of `n` in base 16, most significant first, with no leading zeros. */
  function HexDigits(n: nat): (s: string)
    ensures |s| >= 1
    decreases n
  {
    if n < 16 then [HexDigit(n)] else HexDigits(n / 16) + [HexDigit(n % 16)]
  }

  /** Reads a string of hex digits back, most significant first. */
  function HexValue(s: string): (n: nat)
    decreases |s|
  {
    if |s| == 0 then 0 else HexValue(s[..|s| - 1]) * 16 + DigitValue(s[|s| - 1])
  }

  /** `{:#x}`: the digits after `0x`. */
  function Hex(n: nat): (s: string)
    ensures |s| >= 3 && s[..2] == "0x"
  {
    "0x" + HexDigits(n)
  }

  /** Every digit reads back as itself. */
  lemma DigitRoundTrip(d: nat)
    requires d < 16
    ensures DigitValue(HexDigit(d)) == d
  {
  }

  /** The digits of `n` read back as `n`. */
  lemma {:induction false} HexRoundTrip(n: nat)
    ensures HexValue(HexDigits(n)) == n
    decreases n
  {
    if n < 16 {
      DigitRoundTrip(n);
      assert HexDigits(n) == [HexDigit(n)];
    } else {
      var s, q, d := HexDigits(n), HexDigits(n / 16), HexDigit(n % 16);
      assert s == q + [d];
      assert s[..|s| - 1] == q && s[|s| - 1] == d;
      HexRoundTrip(n / 16);
      DigitRoundTrip(n % 16);
      assert HexValue(s) == HexValue(q) * 16 + DigitValue(d);
    }
  }

  /** The text has no leading zero, except for 0 itself, so equal values have equal texts and no others. */
  lemma {:induction false} HexCanonical(n: nat)
    ensures HexDigits(n)[0] == '0' <==> n == 0
    decreases n
  {
    if n >= 16 {
      HexCanonical(n / 16);
    }
  }

  /** Different values print differently. */
  lemma HexInjective(m: nat, n: nat)
    requires Hex(m) == Hex(n)
    ensures m == n
  {
    assert HexDigits(m) == Hex(m)[2..];
    assert HexDigits(n) == Hex(n)[2..];
    HexRoundTrip(m);
    HexRoundTrip(n);
  }

  // ---------------------------------------------------------------------
  // Operands
  // ---------------------------------------------------------------------

  /** `to_u16`: the first two bytes, little-endian. */
  function ToU16(data: seq<bv8>): (w: bv16)
    requires |data| >= 2
    ensures CpuSpec.Lo(w) == data[0] && CpuSpec.Hi(w) == data[1]
  {
    CpuSpec.Word(data[0], data[1])
  }

  /**
   * The relative operand's target as both disassemblers compute it from
   * `pc`: `pc + offset` for offsets up to $80, otherwise
   * `pc - ($FF - offset) + 1`, with u16 wrap-around.
   */
  function RelativeTarget(pc: bv16, offset: bv8): (t: bv16)
    ensures offset <= 0x80 ==> t == pc + Widen(offset)
  {
    if offset <= 0x80 then pc + Widen(offset) else pc - (0xFF - Widen(offset)) + 1
  }

  /**
   * Against the branch the CPU takes from `pc`, the computed target is exact
   * for offsets below $80 (`ForwardBranch`), two bytes too far for the
   * negative offsets above $80 (`BackwardTarget`), and $100 too far for $80,
   * which the CPU reads as -128 (`MinusTarget`).
   */
  lemma MinusTarget(pc: bv16)
    ensures RelativeTarget(pc, 0x80) == CpuSpec.BranchTarget(pc, 0x80) + 0x100
  {
    assert CpuSpec.BranchTarget(pc, 0x80) == pc - 0x80;
  }

  /** For an offset above $80 the formula lands two bytes past the branch. */
  lemma BackwardTarget(pc: bv16, offset: bv8)
    requires offset > 0x80
    ensures RelativeTarget(pc, offset) == CpuSpec.BranchTarget(pc, offset) + 2
  {
    BackwardBranch(pc, offset);
    BackwardShift(pc, Widen(offset));
  }

  /** `pc - ($FF - w) + 1` is `pc - ($100 - w) + 2`. */
  lemma BackwardShift(pc: bv16, w: bv16)
    ensures pc - (0xFF - w) + 1 == pc - (0x100 - w) + 2
  {
  }

  /**
   * The nestadia-core disassembler passes the opcode's own address as `pc`,
   * while the CPU branches from the address after the operand, two bytes on:
   * forward branches are shown two bytes short, backward ones exactly.
   */
  lemma OwnAddressTarget(addr: bv16, offset: bv8)
    ensures offset < 0x80 ==> RelativeTarget(addr, offset) + 2 == CpuSpec.BranchTarget(addr + 2, offset)
    ensures offset > 0x80 ==> RelativeTarget(addr, offset) == CpuSpec.BranchTarget(addr + 2, offset)
  {
    if offset < 0x80 {
      ForwardBranch(addr, offset);
    } else if offset > 0x80 {
      BackwardTarget(addr, offset);
    }
    BranchShift(addr, offset);
  }

  /** Branching from two bytes further on lands two bytes further on. */
  lemma BranchShift(pc: bv16, offset: bv8)
    ensures CpuSpec.BranchTarget(pc + 2, offset) == CpuSpec.BranchTarget(pc, offset) + 2
  {
  }

  /**
   * Two concrete targets: `BNE $FE` at $8000 loops on itself, but from the
   * next address, $8002, the formula gives $8002; `BEQ $05` at $C000 goes to
   * $C007, but from the opcode's own address the formula gives $C005.
   */
  lemma RelativeTargetsShown()
    ensures CpuSpec.BranchTarget(0x8002, 0xFE) == 0x8000 && RelativeTarget(0x8002, 0xFE) == 0x8002
    ensures CpuSpec.BranchTarget(0xC002, 0x05) == 0xC007 && RelativeTarget(0xC000, 0x05) == 0xC005
  {
  }

  /**
   * The target a relative operand is meant to show, given the address after
   * the instruction: the branch the CPU takes.
   */
  function BranchOperandTarget(next: bv16, offset: bv8): (t: bv16)
    ensures t == CpuSpec.BranchTarget(next, offset)
  {
    if offset < 0x80 then
      ForwardBranch(next, offset);
      next + Widen(offset)
    else
      BackwardBranch(next, offset);
      next - (0x100 - Widen(offset))
  }

  /** An offset below $80 is added as it is. */
  lemma ForwardBranch(next: bv16, offset: bv8)
    requires offset < 0x80
    ensures next + Widen(offset) == CpuSpec.BranchTarget(next, offset)
  {
  }

  /** An offset from $80 up is `offset - $100`. */
  lemma BackwardBranch(next: bv16, offset: bv8)
    requires offset >= 0x80
    ensures next - (0x100 - Widen(offset)) == CpuSpec.BranchTarget(next, offset)
  {
  }

  /** The correction changes nothing for forward branches counted from the same address. */
  lemma ForwardTargetsAgree(next: bv16, offset: bv8)
    requires offset < 0x80
    ensures BranchOperandTarget(next, offset) == RelativeTarget(next, offset)
  {
  }

  /** The operand text of every mode but Relative, which the two formats below show differently. */
  function Operand(m: Mode, data: seq<bv8>): (s: string)
    requires m != Relative && |data| >= RequiredBytes(m)
    ensures s == "" <==> m == Implied
    ensures m == Immediate ==> s[0] == '#'
    ensures m in {Indirect, IndirectX, IndirectY} ==> s[0] == '('
  {
    match m
    case Accumulator => "a"
    case Immediate => "#" + Hex(Nat8(data[0]))
    case Implied => ""
    case Absolute => Hex(Nat16(ToU16(data)))
    case AbsoluteX => Hex(Nat16(ToU16(data))) + ",x"
    case AbsoluteY => Hex(Nat16(ToU16(data))) + ",y"
    case ZeroPage => Hex(Nat8(data[0]))
    case ZeroPageX => Hex(Nat8(data[0])) + ",x"
    case ZeroPageY => Hex(Nat8(data[0])) + ",y"
    case Indirect => "(" + Hex(Nat16(ToU16(data))) + ")"
    case IndirectX => "(" + Hex(Nat8(data[0])) + ",x)"
    case IndirectY => "(" + Hex(Nat8(data[0])) + "),y"
  }

  /** `format` as written: a relative operand shows `RelativeTarget` from whatever `pc` the caller passes. */
  function FormatAsWritten(m: Mode, data: seq<bv8>, pc: bv16): (s: string)
    requires |data| >= RequiredBytes(m)
    ensures m == Relative ==> s == Hex(Nat16(RelativeTarget(pc, data[0])))
    ensures m != Relative ==> s == Operand(m, data)
  {
    if m == Relative then Hex(Nat16(RelativeTarget(pc, data[0]))) else Operand(m, data)
  }

  /**
   * `format` as intended: the operand text of an addressing mode, from the
   * bytes after the opcode and the address after the instruction (`next`),
   * from which the CPU counts a relative branch.
   */
  function Format(m: Mode, data: seq<bv8>, next: bv16): (s: string)
    requires |data| >= RequiredBytes(m)
    ensures s == "" <==> m == Implied
    ensures m != Relative ==> s == FormatAsWritten(m, data, next)
  {
    if m == Relative then Hex(Nat16(BranchOperandTarget(next, data[0]))) else Operand(m, data)
  }

  /** A relative operand shows the address the CPU branches to, in hex. */
  lemma RelativeShowsBranch(data: seq<bv8>, next: bv16)
    requires |data| >= 1
    ensures Format(Relative, data, next) == Hex(Nat16(CpuSpec.BranchTarget(next, data[0])))
  {
  }

  /** An absolute operand shows the little-endian word after the opcode. */
  lemma AbsoluteShowsWord(data: seq<bv8>, next: bv16)
    requires |data| >= 2
    ensures Format(Absolute, data, next) == Hex(Nat16(CpuSpec.Word(data[0], data[1])))
  {
  }

  /**
   * The text of a decoded instruction: the mnemonic, and after a space the
   * operand when the mode has operand bytes.
   */
  function Line(op: Operation, m: Mode, data: seq<bv8>, next: bv16): (s: string)
    requires |data| >= RequiredBytes(m)
    ensures |s| >= 3 && s[..3] == Mnemonic(op)
    ensures |s| == 3 <==> RequiredBytes(m) == 0
  {
    if RequiredBytes(m) < 1 then Mnemonic(op) else Mnemonic(op) + " " + Format(m, data, next)
  }

  /** The text of a decoded instruction as written, with `pc` passed to `format`. */
  function LineAsWritten(op: Operation, m: Mode, data: seq<bv8>, pc: bv16): (s: string)
    requires |data| >= RequiredBytes(m)
    ensures |s| >= 3 && s[..3] == Mnemonic(op)
    ensures m != Relative ==> s == Line(op, m, data, pc)
  {
    if RequiredBytes(m) < 1 then Mnemonic(op) else Mnemonic(op) + " " + FormatAsWritten(m, data, pc)
  }

  /** A relative operand as written shows `RelativeTarget` from `pc`. */
  lemma RelativeLineAsWritten(op: Operation, offset: bv8, pc: bv16)
    ensures LineAsWritten(op, Relative, [offset], pc) == Mnemonic(op) + " " + Hex(Nat16(RelativeTarget(pc, offset)))
  {
  }

  /** A relative operand as intended shows the branch from the next address. */
  lemma RelativeLine(op: Operation, offset: bv8, next: bv16)
    ensures Line(op, Relative, [offset], next) == Mnemonic(op) + " " + Hex(Nat16(BranchOperandTarget(next, offset)))
  {
  }

  /**
   * nestadia-core, as written: `BEQ $05` at $C000 is listed with target
   * $C005, from the opcode's own address, where the CPU goes to $C007.
   */
  lemma CoreBranchLineShown()
    ensures LineAsWritten(Beq, Relative, [0x05], 0xC000) == Mnemonic(Beq) + " " + Hex(0xC005)
    ensures Line(Beq, Relative, [0x05], 0xC002) == Mnemonic(Beq) + " " + Hex(0xC007)
    ensures LineAsWritten(Beq, Relative, [0x05], 0xC000) != Line(Beq, Relative, [0x05], 0xC002)
  {
    RelativeTargetsShown();
    RelativeLineAsWritten(Beq, 0x05, 0xC000);
    RelativeLine(Beq, 0x05, 0xC002);
    ShownDiffer(Mnemonic(Beq) + " ", 0xC005, 0xC007);
  }

  /**
   * nestadia, as written: `BNE $FE` at $8000 is listed with target $8002,
   * from the next address, where the CPU loops back to $8000.
   */
  lemma CartBranchLineShown()
    ensures LineAsWritten(Bne, Relative, [0xFE], 0x8002) == Mnemonic(Bne) + " " + Hex(0x8002)
    ensures Line(Bne, Relative, [0xFE], 0x8002) == Mnemonic(Bne) + " " + Hex(0x8000)
    ensures LineAsWritten(Bne, Relative, [0xFE], 0x8002) != Line(Bne, Relative, [0xFE], 0x8002)
  {
    RelativeTargetsShown();
    RelativeLineAsWritten(Bne, 0xFE, 0x8002);
    RelativeLine(Bne, 0xFE, 0x8002);
    ShownDiffer(Mnemonic(Bne) + " ", 0x8002, 0x8000);
  }

  /** Lines with the same prefix and different targets differ. */
  lemma ShownDiffer(p: string, m: nat, n: nat)
    requires m != n
    ensures p + Hex(m) != p + Hex(n)
  {
    if p + Hex(m) == p + Hex(n) {
      assert Hex(m) == (p + Hex(m))[|p|..];
      assert Hex(n) == (p + Hex(n))[|p|..];
      HexInjective(m, n);
    }
  }

  /** The text of a byte that decodes to no opcode. */
  const UNKNOWN: string := "???"

  // ---------------------------------------------------------------------
  // The walk: one step at a time over a stretch of bytes
  // ---------------------------------------------------------------------

  /**
   * What the walk finds at an index: a byte that decodes to no opcode, an
   * opcode (its operation and addressing mode) with its operand bytes, or an
   * opcode whose operand bytes run past the end.
   */
  datatype Found = Unknown | Instruction(op: Operation, mode: Mode, operands: seq<bv8>) | Truncated

  /** One step of a walk: what it found and how many bytes it moves on. */
  datatype Step = Step(found: Found, length: nat)

  /** A find that gets a line: not truncated, and with exactly the operand bytes its mode requires. */
  predicate Shown(f: Found)
  {
    !f.Truncated? && (f.Instruction? ==> |f.operands| == RequiredBytes(f.mode))
  }

  /**
   * The step for the byte `b`, given the bytes after it that may serve as
   * operands (at most two, fewer near the end): an unknown byte and an opcode
   * without operand bytes move on one byte, an opcode whose operands are all
   * there moves past them, an opcode whose operands are not moves on one
   * byte and gets no line.
   */
  function StepOf(t: OpcodeTable, b: bv8, after: seq<bv8>): (s: Step)
    requires |after| <= 2
    ensures s.found.Truncated? || Shown(s.found)
    ensures 1 <= s.length <= 1 + |after| || s.length == 1
  {
    match t.decode(b)
    case None => Step(Unknown, 1)
    case Some(o) =>
      var m := t.addressingMode(o);
      var required := RequiredBytes(m);
      if required < 1 then Step(Instruction(o.op, m, []), 1)
      else if required <= |after| then Step(Instruction(o.op, m, Prefix(after, required)), 1 + required)
      else Step(Truncated, 1)
  }

  /**
   * The cases of a step: an unknown byte; an opcode whose operands do not
   * all follow, exactly when it has more operand bytes than there are; and
   * otherwise the opcode with the operand bytes that follow it, skipped with
   * them.
   */
  lemma StepCases(t: OpcodeTable, b: bv8, after: seq<bv8>)
    requires |after| <= 2
    ensures t.decode(b).None? <==> StepOf(t, b, after) == Step(Unknown, 1)
    ensures t.decode(b).Some? ==>
      var s, o := StepOf(t, b, after), t.decode(b).value;
      var m := t.addressingMode(o);
      (s.found.Truncated? <==> |after| < RequiredBytes(m)) &&
      (s.found.Truncated? ==> s.length == 1) &&
      (!s.found.Truncated? ==> s == Step(Instruction(o.op, m, after[..RequiredBytes(m)]), 1 + RequiredBytes(m)))
  {
  }

  /** The first `n` of at most two bytes. */
  function Prefix(after: seq<bv8>, n: nat): (p: seq<bv8>)
    requires n <= |after| <= 2
    ensures p == after[..n]
  {
    if n == 0 then [] else if n == 1 then [after[0]] else [after[0], after[1]]
  }

  /** The address after an instruction at `here` with `required` operand bytes. */
  function Following(here: bv16, required: nat): (next: bv16)
    requires required <= 2
  {
    if required == 0 then here + 1 else if required == 1 then here + 2 else here + 3
  }

  /** The text listed for what was found at `here`: "???" or the instruction. */
  function Text(f: Found, here: bv16): (line: string)
    requires Shown(f)
    ensures f.Unknown? ==> line == UNKNOWN
    ensures f.Instruction? ==> |line| >= 3 && line[..3] == Mnemonic(f.op)
  {
    match f
    case Unknown => UNKNOWN
    case Instruction(op, m, data) => Line(op, m, data, Following(here, |data|))
  }

  /** The bytes after `index` that may serve as operands: up to two, and none past the end. */
  function After(mem: seq<bv8>, index: nat): (after: seq<bv8>)
    requires index < |mem|
    ensures |after| <= 2 && index + 1 + |after| <= |mem|
    ensures |after| == 2 || index + 1 + |after| == |mem|
  {
    if index + 2 < |mem| then [mem[index + 1], mem[index + 2]]
    else if index + 1 < |mem| then [mem[index + 1]]
    else []
  }

  /** The operand bytes are the bytes right after the opcode. */
  lemma AfterFollows(mem: seq<bv8>, index: nat)
    requires index < |mem|
    ensures After(mem, index) == mem[index + 1..index + 1 + |After(mem, index)|]
  {
  }

  /** The step at `index`. */
  function StepAt(t: OpcodeTable, mem: seq<bv8>, index: nat): (s: Step)
    requires index < |mem|
    ensures s.found.Truncated? || Shown(s.found)
    ensures 1 <= s.length && index + s.length <= |mem|
  {
    StepOf(t, mem[index], After(mem, index))
  }

  /** A find and the index it was found at. */
  datatype Entry = Entry(index: nat, found: Found)

  /** Every entry gets a line and lies in [lo, hi). */
  predicate Listable(es: seq<Entry>, lo: nat, hi: nat)
  {
    forall i :: 0 <= i < |es| ==> Shown(es[i].found) && lo <= es[i].index < hi
  }

  /**
   * The walk from `index` to the end: the entries of every step that is not
   * truncated, in order. Every entry gets a line and lies at or after
   * `index`, before the end.
   */
  function Walk(t: OpcodeTable, mem: seq<bv8>, index: nat): (es: seq<Entry>)
    requires index <= |mem|
    ensures Listable(es, index, |mem|)
    decreases |mem| - index
  {
    if index == |mem| then []
    else
      var s := StepAt(t, mem, index);
      var rest := Walk(t, mem, index + s.length);
      if s.found.Truncated? then rest else [Entry(index, s.found)] + rest
  }

  /** One step of the walk: the step's entry, unless it is truncated, then the walk from where the step ends. */
  lemma WalkStep(t: OpcodeTable, mem: seq<bv8>, index: nat)
    requires index < |mem|
    ensures var s := StepAt(t, mem, index);
      (s.found.Truncated? ==> Walk(t, mem, index) == Walk(t, mem, index + s.length)) &&
      (!s.found.Truncated? ==> Walk(t, mem, index) == [Entry(index, s.found)] + Walk(t, mem, index + s.length))
  {
  }

  /** A walk split after some entries stays split after the next step. */
  lemma WalkAdvance(t: OpcodeTable, mem: seq<bv8>, index: nat, done: seq<Entry>, whole: seq<Entry>)
    requires index < |mem| && whole == done + Walk(t, mem, index)
    ensures var s := StepAt(t, mem, index);
      whole == (if s.found.Truncated? then done else done + [Entry(index, s.found)]) + Walk(t, mem, index + s.length)
  {
    var s := StepAt(t, mem, index);
    WalkStep(t, mem, index);
    if !s.found.Truncated? {
      Associative(done, [Entry(index, s.found)], Walk(t, mem, index + s.length));
    }
  }

  /** The entries' indices strictly increase. */
  ghost predicate Increasing(es: seq<Entry>)
  {
    forall i, j :: 0 <= i < j < |es| ==> es[i].index < es[j].index
  }

  /** An entry before all the indices of an increasing sequence can go in front of it. */
  lemma Prepend(e: Entry, rest: seq<Entry>)
    requires Increasing(rest) && forall i :: 0 <= i < |rest| ==> e.index < rest[i].index
    ensures Increasing([e] + rest)
  {
    var es := [e] + rest;
    forall i, j | 0 <= i < j < |es|
      ensures es[i].index < es[j].index
    {
      assert es[j] == rest[j - 1];
      if i > 0 {
        assert es[i] == rest[i - 1];
      }
    }
  }

  /** The walk lists each index at most once, in increasing order: it never goes back. */
  lemma {:induction false} WalkIncreasing(t: OpcodeTable, mem: seq<bv8>, index: nat)
    requires index <= |mem|
    ensures Increasing(Walk(t, mem, index))
    decreases |mem| - index
  {
    if index < |mem| {
      var s := StepAt(t, mem, index);
      WalkIncreasing(t, mem, index + s.length);
      if !s.found.Truncated? {
        Prepend(Entry(index, s.found), Walk(t, mem, index + s.length));
      }
    }
  }

  /** Each of the entries holds what the step at its index finds. */
  ghost predicate AllFound(t: OpcodeTable, mem: seq<bv8>, es: seq<Entry>)
    decreases |es|
  {
    |es| == 0 ||
    (es[0].index < |mem| && es[0].found == StepAt(t, mem, es[0].index).found && AllFound(t, mem, es[1..]))
  }

  /** The i-th of entries each holding its step's find holds its step's find. */
  lemma {:induction false} FoundAt(t: OpcodeTable, mem: seq<bv8>, es: seq<Entry>, i: nat)
    requires AllFound(t, mem, es) && i < |es|
    ensures es[i].index < |mem| && es[i].found == StepAt(t, mem, es[i].index).found
    decreases i
  {
    if i > 0 {
      FoundAt(t, mem, es[1..], i - 1);
      assert es[1..][i - 1] == es[i];
    }
  }

  /** Each entry of the walk holds what the step at its index finds. */
  lemma {:induction false} WalkFinds(t: OpcodeTable, mem: seq<bv8>, index: nat)
    requires index <= |mem|
    ensures AllFound(t, mem, Walk(t, mem, index))
    decreases |mem| - index
  {
    if index < |mem| {
      var s := StepAt(t, mem, index);
      var rest := Walk(t, mem, index + s.length);
      WalkFinds(t, mem, index + s.length);
      if !s.found.Truncated? {
        var es := [Entry(index, s.found)] + rest;
        assert Walk(t, mem, index) == es;
        assert es[1..] == rest;
      }
    }
  }

  /** Over bytes none of which decodes, the walk has one unknown entry per byte. */
  lemma {:induction false} UnknownWalk(t: OpcodeTable, mem: seq<bv8>, index: nat)
    requires index <= |mem|
    requires forall k :: 0 <= k < |mem| ==> t.decode(mem[k]).None?
    ensures var es := Walk(t, mem, index);
      |es| == |mem| - index && forall i :: 0 <= i < |es| ==> es[i] == Entry(index + i, Unknown)
    decreases |mem| - index
  {
    if index < |mem| {
      UnknownWalk(t, mem, index + 1);
      var es, rest := Walk(t, mem, index), Walk(t, mem, index + 1);
      assert StepAt(t, mem, index) == Step(Unknown, 1);
      assert es == [Entry(index, Unknown)] + rest;
      assert forall i :: 1 <= i < |es| ==> es[i] == rest[i - 1];
    }
  }

  /** Appending is associative. */
  lemma Associative<A>(a: seq<A>, b: seq<A>, c: seq<A>)
    ensures (a + b) + c == a + (b + c)
  {
  }

  // ---------------------------------------------------------------------
  // nestadia-core: disassembling a byte slice
  // ---------------------------------------------------------------------

  /** `start + (index as u16)`: the index truncated to 16 bits, added with wrap-around. */
  function At(start: bv16, index: nat): (a: bv16)
  {
    start + Bv16(index % 0x10000)
  }

  /** The line of an entry: `start` plus its index, and its text. */
  function SliceLine(start: bv16, e: Entry): (line: (bv16, string))
    requires Shown(e.found)
    ensures line.0 == At(start, e.index)
    ensures e.found.Unknown? ==> line.1 == UNKNOWN
  {
    (At(start, e.index), Text(e.found, At(start, e.index)))
  }

  /** The listed lines: one per entry, in order. */
  function SliceLines(start: bv16, es: seq<Entry>): (l: seq<(bv16, string)>)
    requires forall i :: 0 <= i < |es| ==> Shown(es[i].found)
    ensures |l| == |es|
  {
    seq(|es|, i requires 0 <= i < |es| => SliceLine(start, es[i]))
  }

  /** The lines of entries with one more at the end are their lines with its line at the end. */
  lemma SliceLinesSnoc(start: bv16, es: seq<Entry>, e: Entry, hi: nat)
    requires Listable(es, 0, hi) && e.index < hi && Shown(e.found)
    ensures Listable(es + [e], 0, hi)
    ensures SliceLines(start, es + [e]) == SliceLines(start, es) + [SliceLine(start, e)]
  {
    assert forall i :: 0 <= i < |es| ==> (es + [e])[i] == es[i];
    assert (es + [e])[|es|] == e;
  }

  /**
   * The listing after the entries before `index`: the walk is those entries
   * followed by the walk from `index`, and the listing holds their lines.
   */
  ghost predicate SliceListed(t: OpcodeTable, mem: seq<bv8>, start: bv16, index: nat,
                              entries: seq<Entry>, disassembly: seq<(bv16, string)>)
  {
    index <= |mem| && Walk(t, mem, 0) == entries + Walk(t, mem, index) &&
    Listable(entries, 0, |mem|) && disassembly == SliceLines(start, entries)
  }

  /**
   * One step keeps the listing: the step's entry, when it has one, moves
   * from the rest of the walk to the entries listed, and its line goes at
   * the end of the listing.
   */
  lemma SliceAdvance(t: OpcodeTable, mem: seq<bv8>, start: bv16, index: nat,
                     entries: seq<Entry>, disassembly: seq<(bv16, string)>, step: Step)
    returns (more: seq<Entry>)
    requires SliceListed(t, mem, start, index, entries, disassembly) && index < |mem|
    requires step == StepAt(t, mem, index)
    ensures step.found.Truncated? ==> SliceListed(t, mem, start, index + step.length, more, disassembly)
    ensures !step.found.Truncated? ==>
      SliceListed(t, mem, start, index + step.length, more, disassembly + [SliceLine(start, Entry(index, step.found))])
  {
    WalkAdvance(t, mem, index, entries, Walk(t, mem, 0));
    if step.found.Truncated? {
      more := entries;
    } else {
      more := entries + [Entry(index, step.found)];
      SliceLinesSnoc(start, entries, Entry(index, step.found), |mem|);
    }
  }

  /** At the end the entries are the whole walk. */
  lemma SliceDone(t: OpcodeTable, mem: seq<bv8>, start: bv16, entries: seq<Entry>, disassembly: seq<(bv16, string)>)
    requires SliceListed(t, mem, start, |mem|, entries, disassembly)
    ensures disassembly == SliceLines(start, Walk(t, mem, 0))
  {
    assert Walk(t, mem, |mem|) == [];
    assert entries + [] == entries;
  }

  /** The step at `index`: the opcode byte there and the bytes after it. */
  method SliceStep(t: OpcodeTable, mem: seq<bv8>, index: nat) returns (step: Step)
    requires index < |mem|
    ensures step == StepAt(t, mem, index)
  {
    step := StepOf(t, mem[index], After(mem, index));
  }

  /**
   * `disassemble` over a slice whose first byte sits at `start`: the line of
   * every entry of the walk, in order. Relative operands are counted from
   * the address after the instruction.
   */
  method DisassembleSlice(t: OpcodeTable, mem: seq<bv8>, start: bv16) returns (disassembly: seq<(bv16, string)>)
    ensures disassembly == SliceLines(start, Walk(t, mem, 0))
  {
    var index: nat := 0;
    disassembly := [];
    ghost var entries: seq<Entry> := [];
    while index < |mem|
      invariant SliceListed(t, mem, start, index, entries, disassembly)
      decreases |mem| - index
    {
      var step := SliceStep(t, mem, index);
      entries := SliceAdvance(t, mem, start, index, entries, disassembly, step);
      if !step.found.Truncated? {
        disassembly := disassembly + [SliceLine(start, Entry(index, step.found))];
      }
      index := index + step.length;
    }
    SliceDone(t, mem, start, entries, disassembly);
  }

  /** A slice in which no byte decodes lists "???" once per byte, at consecutive addresses. */
  lemma UnknownSlice(t: OpcodeTable, mem: seq<bv8>, start: bv16)
    requires forall k :: 0 <= k < |mem| ==> t.decode(mem[k]).None?
    ensures var l := SliceLines(start, Walk(t, mem, 0));
      |l| == |mem| && forall i :: 0 <= i < |l| ==> l[i] == (At(start, i), UNKNOWN)
  {
    UnknownWalk(t, mem, 0);
  }

  // ---------------------------------------------------------------------
  // nestadia: the walk over cartridge space, $0000-$FFFE
  // ---------------------------------------------------------------------

  /** The line of an entry below $FFFF: the bank of its address, the address, and its text. */
  function CartLine(banks: seq<Option<bv8>>, e: Entry): (line: (Option<bv8>, bv16, string))
    requires |banks| == 0xFFFF && e.index < 0xFFFF && Shown(e.found)
    ensures line.0 == banks[e.index]
    ensures e.found.Unknown? ==> line.2 == UNKNOWN
  {
    (banks[e.index], Bv16(e.index), Text(e.found, Bv16(e.index)))
  }

  /** The listed lines: one per entry, in order. */
  function CartLines(banks: seq<Option<bv8>>, es: seq<Entry>): (l: seq<(Option<bv8>, bv16, string)>)
    requires |banks| == 0xFFFF && Listable(es, 0, 0xFFFF)
    ensures |l| == |es|
  {
    seq(|es|, i requires 0 <= i < |es| => CartLine(banks, es[i]))
  }

  /** The lines of entries with one more at the end are their lines with its line at the end. */
  lemma CartLinesSnoc(banks: seq<Option<bv8>>, es: seq<Entry>, e: Entry)
    requires |banks| == 0xFFFF && Listable(es, 0, 0xFFFF)
    requires e.index < 0xFFFF && Shown(e.found)
    ensures Listable(es + [e], 0, 0xFFFF)
    ensures CartLines(banks, es + [e]) == CartLines(banks, es) + [CartLine(banks, e)]
  {
    assert forall i :: 0 <= i < |es| ==> (es + [e])[i] == es[i];
    assert (es + [e])[|es|] == e;
  }
}
