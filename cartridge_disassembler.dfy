/**
 * The nestadia disassembler's reads: the walk over cartridge space, reading
 * each opcode, its operand bytes and its PRG bank through the cartridge.
 */
module CartridgeDisassembler {
  import opened Bits
  import opened Wrappers
  import opened Opcodes
  import opened Disassembler
  import Cartridge

  /** The bytes the cartridge shows at $0000-$FFFE, the addresses the walk reads. */
  function Space(cart: Cartridge.Cartridge): (space: seq<bv8>)
    requires cart.Valid()
    reads cart.Repr
    ensures |space| == 0xFFFF
    ensures forall a :: 0 <= a < 0xFFFF ==> space[a] == cart.ReadPrgMem(Bv16(a))
  {
    seq(0xFFFF, a requires 0 <= a < 0xFFFF && cart.Valid() reads cart.Repr => cart.ReadPrgMem(Bv16(a)))
  }

  /** The PRG bank of each address $0000-$FFFE. */
  function Banks(cart: Cartridge.Cartridge): (banks: seq<Option<bv8>>)
    requires cart.Valid()
    reads cart.Repr
    ensures |banks| == 0xFFFF
    ensures forall a :: 0 <= a < 0xFFFF ==> banks[a] == cart.GetPrgBank(Bv16(a))
  {
    seq(0xFFFF, a requires 0 <= a < 0xFFFF && cart.Valid() reads cart.Repr => cart.GetPrgBank(Bv16(a)))
  }

  /** How many bytes after `addr` lie below $FFFF, up to two. */
  function Room(addr: nat): (n: nat)
    requires addr < 0xFFFF
    ensures n <= 2 && addr + n < 0xFFFF
  {
    if addr + 2 < 0xFFFF then 2 else 0xFFFE - addr
  }

  /** The `count` bytes after `addr`, read through the cartridge. */
  function Operands(cart: Cartridge.Cartridge, addr: nat, count: nat): (data: seq<bv8>)
    requires cart.Valid() && count <= 2 && addr + count < 0xFFFF
    reads cart.Repr
    ensures |data| == count
  {
    if count == 0 then []
    else if count == 1 then [cart.ReadPrgMem(Bv16(addr + 1))]
    else [cart.ReadPrgMem(Bv16(addr + 1)), cart.ReadPrgMem(Bv16(addr + 2))]
  }

  /**
   * `space` and `banks` are what the cartridge shows at $0000-$FFFE: the
   * byte and the PRG bank of each address.
   */
  ghost predicate Shows(cart: Cartridge.Cartridge, space: seq<bv8>, banks: seq<Option<bv8>>)
    reads cart, cart.Repr
  {
    cart.Valid() && |space| == 0xFFFF && |banks| == 0xFFFF &&
    (forall a {:trigger cart.ReadPrgMem(Bv16(a))} :: 0 <= a < 0xFFFF ==> space[a] == cart.ReadPrgMem(Bv16(a))) &&
    (forall a {:trigger cart.GetPrgBank(Bv16(a))} :: 0 <= a < 0xFFFF ==> banks[a] == cart.GetPrgBank(Bv16(a)))
  }

  /** `Space` and `Banks` are what the cartridge shows. */
  lemma SpaceShows(cart: Cartridge.Cartridge)
    requires cart.Valid()
    ensures Shows(cart, Space(cart), Banks(cart))
  {
  }

  /** What the cartridge shows is determined: only `Space` and `Banks` are shown. */
  lemma ShowsOnly(cart: Cartridge.Cartridge, space: seq<bv8>, banks: seq<Option<bv8>>)
    requires Shows(cart, space, banks)
    ensures space == Space(cart) && banks == Banks(cart)
  {
    var s, b := Space(cart), Banks(cart);
    forall a | 0 <= a < 0xFFFF
      ensures space[a] == s[a] && banks[a] == b[a]
    {
      assert space[a] == cart.ReadPrgMem(Bv16(a));
      assert banks[a] == cart.GetPrgBank(Bv16(a));
    }
  }

  /** The bytes read after `addr` are the operand bytes the walk over what the cartridge shows sees. */
  lemma OperandsInSpace(cart: Cartridge.Cartridge, space: seq<bv8>, banks: seq<Option<bv8>>, addr: nat)
    requires Shows(cart, space, banks) && addr < 0xFFFF
    ensures Operands(cart, addr, Room(addr)) == After(space, addr)
  {
    if Room(addr) >= 1 {
      assert Operands(cart, addr, Room(addr))[0] == cart.ReadPrgMem(Bv16(addr + 1)) == space[addr + 1];
    }
    if Room(addr) == 2 {
      assert Operands(cart, addr, Room(addr))[1] == cart.ReadPrgMem(Bv16(addr + 2)) == space[addr + 2];
    }
  }

  /**
   * The reads for one step at `addr`: its PRG bank, its opcode and the
   * operand bytes that follow it below $FFFF.
   */
  method ReadStep(cart: Cartridge.Cartridge, t: OpcodeTable, addr: nat, ghost space: seq<bv8>, ghost banks: seq<Option<bv8>>)
    returns (prgBank: Option<bv8>, step: Step)
    requires Shows(cart, space, banks) && addr < 0xFFFF
    ensures prgBank == banks[addr]
    ensures step == StepAt(t, space, addr)
  {
    prgBank := cart.GetPrgBank(Bv16(addr));
    var opcode := cart.ReadPrgMem(Bv16(addr));
    var after := Operands(cart, addr, Room(addr));
    OperandsInSpace(cart, space, banks, addr);
    step := StepOf(t, opcode, after);
  }

  /**
   * The listing after the entries before `addr`: the walk from `start` is
   * those entries followed by the walk from `addr`, and the listing holds
   * their lines.
   */
  ghost predicate Listed(t: OpcodeTable, space: seq<bv8>, banks: seq<Option<bv8>>, start: nat, addr: nat,
                         entries: seq<Entry>, disassembly: seq<(Option<bv8>, bv16, string)>)
  {
    |space| == 0xFFFF && |banks| == 0xFFFF && start <= 0xFFFF && addr <= 0xFFFF &&
    Walk(t, space, start) == entries + Walk(t, space, addr) &&
    Listable(entries, 0, 0xFFFF) && disassembly == CartLines(banks, entries)
  }

  /**
   * One step keeps the listing: the step's entry, when it has one, moves
   * from the rest of the walk to the entries listed, and its line, tagged
   * with its bank, goes at the end of the listing.
   */
  lemma ListAdvance(t: OpcodeTable, space: seq<bv8>, banks: seq<Option<bv8>>, start: nat, addr: nat,
                    entries: seq<Entry>, disassembly: seq<(Option<bv8>, bv16, string)>,
                    step: Step, prgBank: Option<bv8>)
    returns (more: seq<Entry>)
    requires Listed(t, space, banks, start, addr, entries, disassembly) && addr < 0xFFFF
    requires step == StepAt(t, space, addr) && prgBank == banks[addr]
    ensures step.found.Truncated? ==> Listed(t, space, banks, start, addr + step.length, more, disassembly)
    ensures !step.found.Truncated? ==>
      Listed(t, space, banks, start, addr + step.length, more,
             disassembly + [(prgBank, Bv16(addr), Text(step.found, Bv16(addr)))])
  {
    WalkAdvance(t, space, addr, entries, Walk(t, space, start));
    if step.found.Truncated? {
      more := entries;
    } else {
      more := entries + [Entry(addr, step.found)];
      CartLinesSnoc(banks, entries, Entry(addr, step.found));
    }
  }

  /** At the end the entries are the whole walk. */
  lemma ListDone(t: OpcodeTable, space: seq<bv8>, banks: seq<Option<bv8>>, start: nat,
                 entries: seq<Entry>, disassembly: seq<(Option<bv8>, bv16, string)>)
    requires Listed(t, space, banks, start, 0xFFFF, entries, disassembly)
    ensures disassembly == CartLines(banks, Walk(t, space, start))
  {
    assert Walk(t, space, 0xFFFF) == [];
    assert entries + [] == entries;
  }

  /**
   * `disassemble` over cartridge space from `start`: the line of every entry
   * of the walk over the bytes the cartridge shows, each tagged with the PRG
   * bank of its address. Relative operands are counted from the address
   * after the instruction. `space` and `banks` name what the cartridge
   * shows; `SpaceShows` and `ShowsOnly` say they are `Space` and `Banks`.
   */
  method DisassembleCartridge(cart: Cartridge.Cartridge, t: OpcodeTable, start: bv16,
                              ghost space: seq<bv8>, ghost banks: seq<Option<bv8>>)
    returns (disassembly: seq<(Option<bv8>, bv16, string)>)
    requires Shows(cart, space, banks)
    ensures disassembly == CartLines(banks, Walk(t, space, Nat16(start)))
  {
    var addr: nat := Nat16(start);
    disassembly := [];
    ghost var entries: seq<Entry> := [];
    while addr < 0xFFFF
      invariant Listed(t, space, banks, Nat16(start), addr, entries, disassembly)
      decreases 0xFFFF - addr
    {
      var prgBank, step := ReadStep(cart, t, addr, space, banks);
      entries := ListAdvance(t, space, banks, Nat16(start), addr, entries, disassembly, step, prgBank);
      if !step.found.Truncated? {
        disassembly := disassembly + [(prgBank, Bv16(addr), Text(step.found, Bv16(addr)))];
      }
      addr := addr + step.length;
    }
    ListDone(t, space, banks, Nat16(start), entries, disassembly);
  }
}
