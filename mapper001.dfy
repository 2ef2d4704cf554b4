/**
 * Mapper 1 (MMC1): a 5-write serial port loads the control, CHR and PRG
 * registers; 8 KB of PRG RAM sits at 0x6000-0x7FFF.
 */
module Mapper001 {
  import opened Wrappers
  import opened Mapping
  import opened Bits

  /** The register file of the mapper; RAM is kept apart. */
  datatype Registers = Registers(
    prg32: bv8, prg16Lo: bv8, prg16Hi: bv8,
    chr8: bv8, chr4Lo: bv8, chr4Hi: bv8,
    load: bv8, count: bv8, control: bv8,
    mirroring: Mirroring)

  /** Between writes the serial port holds fewer than five bits. */
  predicate Consistent(r: Registers)
  {
    r.count < 5
  }

  /** The read side's test for 16 KB PRG windows, `(control & 0x0C) > 1`. */
  predicate Prg16Mode(control: bv8)
  {
    control & 0x0C > 1
  }

  /** Control bit 4 selects two 4 KB CHR windows instead of one 8 KB window. */
  predicate Chr4Mode(control: bv8)
  {
    control & 0x10 != 0
  }

  /** Mirroring chosen by the low two bits of the control register. */
  function ControlMirroring(control: bv8): (m: Mirroring)
    ensures control & 3 == 0 <==> m == OneScreenLower
    ensures control & 3 == 1 <==> m == OneScreenUpper
    ensures control & 3 == 2 <==> m == Vertical
    ensures control & 3 == 3 <==> m == Horizontal
  {
    match control & 0x03
    case 0 => OneScreenLower
    case 1 => OneScreenUpper
    case 2 => Vertical
    case _ => Horizontal
  }

  /** One serial write: the register moves right and data bit 0 enters at bit 4. */
  function ShiftIn(load: bv8, data: bv8): (r: bv8)
    ensures load < 0x20 ==> r < 0x20 && r & 0x10 == (data & 1) << 4
    ensures r & 0x0F == (load >> 1) & 0x0F
  {
    (load >> 1) | ((data & 0x01) << 4)
  }

  /** Stores a full 5-bit `value` into the register chosen by bits 13-14 of the address. */
  function Commit(r: Registers, prgBanks: bv8, addr: bv16, value: bv8): (s: Registers)
    ensures s.load == r.load && s.count == r.count
    ensures addr & 0x6000 != 0x0000 ==> s.control == r.control && s.mirroring == r.mirroring
    ensures addr & 0x6000 == 0x0000 ==> s.control == value & 0x1F && s.mirroring == ControlMirroring(value)
    ensures addr & 0x6000 != 0x6000 ==>
      s.prg32 == r.prg32 && s.prg16Lo == r.prg16Lo && s.prg16Hi == r.prg16Hi
  {
    match addr & 0x6000
    case 0x0000 =>
      var control := value & 0x1F;
      r.(control := control, mirroring := ControlMirroring(control))
    case 0x2000 =>
      if Chr4Mode(r.control) then r.(chr4Lo := value & 0x1F) else r.(chr8 := value & 0x1E)
    case 0x4000 =>
      r.(chr4Hi := value & 0x1F)
    case _ =>
      match (r.control & 0x0C) >> 2
      case 2 => r.(prg16Lo := 0, prg16Hi := value & 0x0F)
      case 3 => r.(prg16Lo := value & 0x0F, prg16Hi := prgBanks - 1)
      case _ => r.(prg32 := (value & 0x0E) >> 1)
  }

  /**
   * The effect of a CPU write on the registers. RAM writes leave them alone,
   * a write with bit 7 set resets the serial port and forces 16 KB mode, and
   * every fifth serial write commits and empties the port.
   */
  function Write(r: Registers, prgBanks: bv8, addr: bv16, data: bv8): (s: Registers)
    requires Consistent(r)
    ensures Consistent(s)
    ensures 0x6000 <= addr <= 0x7FFF ==> s == r
  {
    if 0x6000 <= addr <= 0x7FFF then r
    else if data & 0x80 == 0x80 then r.(load := 0, count := 0, control := r.control | 0x0C)
    else
      var load := ShiftIn(r.load, data);
      if r.count + 1 == 5 then Commit(r, prgBanks, addr, load).(load := 0, count := 0)
      else r.(load := load, count := r.count + 1)
  }

  /** The 5-bit value whose bit k is bit 0 of the k-th written byte. */
  function SerialValue(ds: seq<bv8>): (v: bv8)
    requires |ds| == 5
    ensures v < 0x20
  {
    (ds[0] & 1) | ((ds[1] & 1) << 1) | ((ds[2] & 1) << 2) | ((ds[3] & 1) << 3) | ((ds[4] & 1) << 4)
  }

  /** Writes of `ds`, in order, all to `addr`. */
  function WriteAll(r: Registers, prgBanks: bv8, addr: bv16, ds: seq<bv8>): (s: Registers)
    requires Consistent(r)
    ensures Consistent(s)
    decreases |ds|
  {
    if |ds| == 0 then r else WriteAll(Write(r, prgBanks, addr, ds[0]), prgBanks, addr, ds[1..])
  }

  /** Five shifts push out any earlier 5-bit content and leave the five new bits, LSB first. */
  lemma FiveShifts(load: bv8, d0: bv8, d1: bv8, d2: bv8, d3: bv8, d4: bv8)
    requires load < 0x20
    ensures ShiftIn(ShiftIn(ShiftIn(ShiftIn(ShiftIn(load, d0), d1), d2), d3), d4)
      == SerialValue([d0, d1, d2, d3, d4])
  {
  }

  /** A commit never looks at the serial port itself. */
  lemma CommitIgnoresPort(r: Registers, prgBanks: bv8, addr: bv16, value: bv8, load: bv8, count: bv8)
    ensures Commit(r.(load := load, count := count), prgBanks, addr, value).(load := 0, count := 0)
      == Commit(r, prgBanks, addr, value).(load := 0, count := 0)
  {
    // One case per register Commit can store into.
    var q := r.(load := load, count := count);
    assert q.control == r.control;
    match addr & 0x6000
    case 0x0000 =>
    case 0x2000 =>
      if Chr4Mode(r.control) { } else { }
    case 0x4000 =>
    case _ =>
      match (r.control & 0x0C) >> 2
      case 2 =>
      case 3 =>
      case _ =>
  }

  /** Five writes whose bit 7 is clear, from an empty serial port, commit their low bits LSB first. */
  lemma {:induction false} FiveWritesCommit(r: Registers, prgBanks: bv8, addr: bv16, ds: seq<bv8>)
    requires Consistent(r) && r.count == 0 && r.load < 0x20
    requires !(0x6000 <= addr <= 0x7FFF)
    requires |ds| == 5 && forall i :: 0 <= i < 5 ==> ds[i] & 0x80 == 0
    ensures WriteAll(r, prgBanks, addr, ds) ==
      Commit(r, prgBanks, addr, SerialValue(ds)).(load := 0, count := 0)
  {
    var l1 := ShiftIn(r.load, ds[0]);
    var l2 := ShiftIn(l1, ds[1]);
    var l3 := ShiftIn(l2, ds[2]);
    var l4 := ShiftIn(l3, ds[3]);
    var l5 := ShiftIn(l4, ds[4]);
    FiveShifts(r.load, ds[0], ds[1], ds[2], ds[3], ds[4]);
    assert ds == [ds[0], ds[1], ds[2], ds[3], ds[4]];
    var r1 := r.(load := l1, count := 1);
    var r2 := r1.(load := l2, count := 2);
    var r3 := r2.(load := l3, count := 3);
    var r4 := r3.(load := l4, count := 4);
    assert Write(r, prgBanks, addr, ds[0]) == r1;
    assert Write(r1, prgBanks, addr, ds[1]) == r2;
    assert Write(r2, prgBanks, addr, ds[2]) == r3;
    assert Write(r3, prgBanks, addr, ds[3]) == r4;
    assert r4 == r.(load := l4, count := 4);
    CommitIgnoresPort(r, prgBanks, addr, l5, l4, 4);
    calc {
      WriteAll(r, prgBanks, addr, ds);
      WriteAll(r1, prgBanks, addr, ds[1..]);
      { assert ds[1..][0] == ds[1] && ds[1..][1..] == ds[2..]; }
      WriteAll(r2, prgBanks, addr, ds[2..]);
      { assert ds[2..][0] == ds[2] && ds[2..][1..] == ds[3..]; }
      WriteAll(r3, prgBanks, addr, ds[3..]);
      { assert ds[3..][0] == ds[3] && ds[3..][1..] == ds[4..]; }
      WriteAll(r4, prgBanks, addr, ds[4..]);
      { assert ds[4..][0] == ds[4] && ds[4..][1..] == []; }
      Write(r4, prgBanks, addr, ds[4]);
      Commit(r4, prgBanks, addr, l5).(load := 0, count := 0);
      Commit(r, prgBanks, addr, l5).(load := 0, count := 0);
    }
  }

  /**
   * In PRG mode 1 (control bits 2-3 equal to 01) a PRG commit changes only the
   * 32 KB selector, while reads in that mode use the 16 KB windows, so the
   * commit has no effect on any ROM read.
   */
  lemma Mode1PrgCommitIgnoredByReads(r: Registers, prgBanks: bv8, addr: bv16, value: bv8)
    requires r.control & 0x0C == 0x04 && addr & 0x6000 == 0x6000
    ensures Prg16Mode(r.control)
    ensures var s := Commit(r, prgBanks, addr, value);
      s.prg16Lo == r.prg16Lo && s.prg16Hi == r.prg16Hi && s.prg32 == (value & 0x0E) >> 1
  {
  }

  class Mapper001 {
    const prgBanks: bv8
    var prgBankSelector32: bv8
    var prgBankSelector16Lo: bv8
    var prgBankSelector16Hi: bv8
    var chrBankSelector8: bv8
    var chrBankSelector4Lo: bv8
    var chrBankSelector4Hi: bv8
    var loadRegister: bv8
    var loadRegisterCount: bv8
    var controlRegister: bv8
    const ramData: array<bv8>
    var mirroring: Mirroring

    ghost predicate Valid()
      reads this
    {
      ramData.Length == 0x2000 && loadRegisterCount < 5
    }

    /** The register fields as one value. */
    function Regs(): Registers
      reads this
    {
      Registers(prgBankSelector32, prgBankSelector16Lo, prgBankSelector16Hi,
        chrBankSelector8, chrBankSelector4Lo, chrBankSelector4Hi,
        loadRegister, loadRegisterCount, controlRegister, mirroring)
    }

    /** Save data fills the RAM prefix it covers; the rest of RAM is zero. */
    constructor (prgBanks: bv8, mirroring: Mirroring, saveData: Option<seq<bv8>>)
      ensures Valid() && fresh(ramData)
      ensures Regs() == Registers(0, 0, prgBanks - 1, 0, 0, 0, 0, 0, 0x0C, mirroring)
      ensures this.prgBanks == prgBanks
      ensures forall i :: 0 <= i < 0x2000 ==>
        ramData[i] == (if saveData.Some? && i < |saveData.value| then saveData.value[i] else 0)
    {
      var ram := new bv8[0x2000](_ => 0);
      if saveData.Some? {
        var n := if |saveData.value| < 0x2000 then |saveData.value| else 0x2000;
        for i := 0 to n
          invariant forall j :: 0 <= j < i ==> ram[j] == saveData.value[j]
          invariant forall j :: i <= j < 0x2000 ==> ram[j] == 0
        {
          ram[i] := saveData.value[i];
        }
      }
      this.prgBanks := prgBanks;
      prgBankSelector32 := 0;
      prgBankSelector16Lo := 0;
      prgBankSelector16Hi := prgBanks - 1;
      chrBankSelector8 := 0;
      chrBankSelector4Lo := 0;
      chrBankSelector4Hi := 0;
      loadRegister := 0;
      loadRegisterCount := 0;
      controlRegister := 0x0C;
      ramData := ram;
      this.mirroring := mirroring;
    }

    /**
     * 0x6000-0x7FFF reads RAM. Otherwise, in 16 KB mode, 0x8000-0xBFFF and
     * 0xC000-0xFFFF use the low and high selectors and anything lower maps to
     * index 0; in 32 KB mode the single selector covers every address.
     */
    function CpuMapRead(addr: bv16): (r: CartridgeReadTarget)
      requires Valid()
      reads this, ramData
      ensures 0x6000 <= addr <= 0x7FFF ==> r == PrgRam(ramData[Low13(addr)])
      ensures !(0x6000 <= addr <= 0x7FFF) ==> r.PrgRom?
      ensures !(0x6000 <= addr <= 0x7FFF) && Prg16Mode(controlRegister) && addr < 0x8000 ==> r.index == 0
      ensures Prg16Mode(controlRegister) && 0x8000 <= addr <= 0xBFFF ==>
        r.index / 0x4000 == Nat8(prgBankSelector16Lo) && r.index % 0x4000 == Low14(addr)
      ensures Prg16Mode(controlRegister) && 0xC000 <= addr ==>
        r.index / 0x4000 == Nat8(prgBankSelector16Hi) && r.index % 0x4000 == Low14(addr)
      ensures !(0x6000 <= addr <= 0x7FFF) && !Prg16Mode(controlRegister) ==>
        r.index / 0x8000 == Nat8(prgBankSelector32) && r.index % 0x8000 == Low15(addr)
    {
      if 0x6000 <= addr <= 0x7FFF then PrgRam(ramData[Low13(addr)])
      else if Prg16Mode(controlRegister) then
        if 0x8000 <= addr <= 0xBFFF then PrgRom(Banked(Nat8(prgBankSelector16Lo), 0x4000, Low14(addr)))
        else if 0xC000 <= addr then PrgRom(Banked(Nat8(prgBankSelector16Hi), 0x4000, Low14(addr)))
        else PrgRom(0)
      else PrgRom(Banked(Nat8(prgBankSelector32), 0x8000, Low15(addr)))
    }

    /** RAM writes store the byte; all other writes drive the serial port. */
    method CpuMapWrite(addr: bv16, data: bv8)
      requires Valid()
      modifies this, ramData
      ensures Valid()
      ensures Regs() == Write(old(Regs()), prgBanks, addr, data)
      ensures 0x6000 <= addr <= 0x7FFF ==> ramData[..] == old(ramData[..])[Low13(addr) := data]
      ensures !(0x6000 <= addr <= 0x7FFF) ==> ramData[..] == old(ramData[..])
      ensures 0x6000 <= addr <= 0x7FFF ==> CpuMapRead(addr) == PrgRam(data)
    {
      if 0x6000 <= addr <= 0x7FFF {
        WriteRam(addr, data);
      } else {
        SerialWrite(addr, data);
      }
    }

    /** A write to 0x6000-0x7FFF stores the byte in RAM at `addr & 0x1FFF`. */
    method WriteRam(addr: bv16, data: bv8)
      requires Valid() && 0x6000 <= addr <= 0x7FFF
      modifies ramData
      ensures ramData[..] == old(ramData[..])[Low13(addr) := data]
      ensures CpuMapRead(addr) == PrgRam(data)
    {
      ramData[Low13(addr)] := data;
    }

    /** A write outside RAM: reset the port on bit 7, else shift in bit 0 and commit on the fifth bit. */
    method SerialWrite(addr: bv16, data: bv8)
      requires Valid() && !(0x6000 <= addr <= 0x7FFF)
      modifies this
      ensures Valid()
      ensures Regs() == Write(old(Regs()), prgBanks, addr, data)
    {
      if data & 0x80 == 0x80 {
        loadRegister := 0;
        loadRegisterCount := 0;
        controlRegister := controlRegister | 0x0C;
        return;
      }
      loadRegister := ShiftIn(loadRegister, data);
      loadRegisterCount := loadRegisterCount + 1;
      if loadRegisterCount == 5 {
        CommitLoad(addr);
        loadRegister := 0;
        loadRegisterCount := 0;
      }
    }

    /** The fifth serial write: store the load register where bits 13-14 of the address point. */
    method CommitLoad(addr: bv16)
      requires ramData.Length == 0x2000
      modifies this
      ensures Regs() == Commit(old(Regs()), prgBanks, addr, old(loadRegister))
    {
      match addr & 0x6000 {
        case 0x0000 =>
          controlRegister := loadRegister & 0x1F;
          mirroring := ControlMirroring(controlRegister);
        case 0x2000 =>
          if controlRegister & 0x10 != 0 {
            chrBankSelector4Lo := loadRegister & 0x1F;
          } else {
            chrBankSelector8 := loadRegister & 0x1E;
          }
        case 0x4000 =>
          chrBankSelector4Hi := loadRegister & 0x1F;
        case _ =>
          match (controlRegister & 0x0C) >> 2 {
            case 2 =>
              prgBankSelector16Lo := 0;
              prgBankSelector16Hi := loadRegister & 0x0F;
            case 3 =>
              prgBankSelector16Lo := loadRegister & 0x0F;
              prgBankSelector16Hi := prgBanks - 1;
            case _ =>
              prgBankSelector32 := (loadRegister & 0x0E) >> 1;
          }
      }
    }

    /** In 4 KB mode 0x0000-0x0FFF and 0x1000-up use the two 4 KB selectors; otherwise one 8 KB window. */
    function PpuMapRead(addr: bv16): (r: nat)
      reads this
      ensures Chr4Mode(controlRegister) && addr <= 0x0FFF ==>
        r / 0x1000 == Nat8(chrBankSelector4Lo) && r % 0x1000 == Low12(addr)
      ensures Chr4Mode(controlRegister) && addr > 0x0FFF ==>
        r / 0x1000 == Nat8(chrBankSelector4Hi) && r % 0x1000 == Low12(addr)
      ensures !Chr4Mode(controlRegister) ==>
        r / 0x2000 == Nat8(chrBankSelector8) && r % 0x2000 == Low13(addr)
    {
      if controlRegister & 0x10 != 0 then
        if addr <= 0x0FFF then Banked(Nat8(chrBankSelector4Lo), 0x1000, Low12(addr))
        else Banked(Nat8(chrBankSelector4Hi), 0x1000, Low12(addr))
      else Banked(Nat8(chrBankSelector8), 0x2000, Low13(addr))
    }

    /** CHR writes always use the 8 KB mapping, whatever the CHR mode. */
    function PpuMapWrite(addr: bv16): (r: Option<nat>)
      reads this
      ensures r.Some?
      ensures r.value / 0x2000 == Nat8(chrBankSelector8) && r.value % 0x2000 == Low13(addr)
      ensures !Chr4Mode(controlRegister) ==> r.value == PpuMapRead(addr)
    {
      Some(Banked(Nat8(chrBankSelector8), 0x2000, Low13(addr)))
    }

    /** The debugger's bank number for an address (None below 0x8000). */
    function GetPrgBank(addr: bv16): (r: Option<bv8>)
      reads this
      ensures r.Some? <==> addr >= 0x8000
      ensures addr >= 0x8000 && !Prg16Mode(controlRegister) ==> r.value == prgBankSelector32
      ensures Prg16Mode(controlRegister) && 0x8000 <= addr <= 0xBFFF ==> r.value == prgBankSelector16Lo
      ensures Prg16Mode(controlRegister) && 0xC000 <= addr ==> r.value == prgBankSelector16Hi
    {
      if addr <= 0x7FFF then None
      else if Prg16Mode(controlRegister) then
        if addr <= 0xBFFF then Some(prgBankSelector16Lo) else Some(prgBankSelector16Hi)
      else Some(prgBankSelector32)
    }
  }
}
