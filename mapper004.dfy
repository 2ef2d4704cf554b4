/**
 * Mapper 4 (MMC3): eight bank registers feeding four 8 KB PRG windows and
 * eight 1 KB CHR windows, switchable mirroring, 8 KB PRG RAM and a scanline
 * counter clocked by rising edges of PPU address line A12.
 */
module Mapper004 {
  import opened Wrappers
  import opened Mapping
  import opened Bits

  /** The scanline-IRQ unit. `lastBit` is the previous value of A12. */
  datatype IrqCounter = IrqCounter(
    enabled: bool, active: bool, reload: bool,
    counter: bv8, latch: bv8, lastBit: bool)

  /**
   * One rising edge of A12: reload from the latch when the counter is zero or
   * a reload is pending, otherwise count down; raise the IRQ on zero if enabled.
   */
  function RisingEdge(s: IrqCounter): (t: IrqCounter)
    ensures !t.reload
    ensures t.enabled == s.enabled && t.latch == s.latch && t.lastBit == s.lastBit
    ensures (s.counter == 0 || s.reload) ==> t.counter == s.latch
    ensures !(s.counter == 0 || s.reload) ==> Nat8(t.counter) == Nat8(s.counter) - 1
    ensures t.active <==> s.active || (t.counter == 0 && s.enabled)
  {
    var t := if s.counter == 0 || s.reload then s.(counter := s.latch, reload := false)
             else s.(counter := Pred8(s.counter));
    if t.counter == 0 && t.enabled then t.(active := true) else t
  }

  /** A PPU access at `addr`: A12 is bit 12; a 0 to 1 change clocks the counter. */
  function A12(s: IrqCounter, addr: bv16): (t: IrqCounter)
    ensures t.lastBit <==> addr & 0x1000 == 0x1000
    ensures !s.lastBit && addr & 0x1000 == 0x1000 ==> t == RisingEdge(s).(lastBit := true)
    ensures !(!s.lastBit && addr & 0x1000 == 0x1000) ==> t == s.(lastBit := addr & 0x1000 == 0x1000)
  {
    var bit := addr & 0x1000 == 0x1000;
    var t := if !s.lastBit && bit then RisingEdge(s) else s;
    t.(lastBit := bit)
  }

  /** `n` rising edges in a row. */
  function Edges(s: IrqCounter, n: nat): IrqCounter
    decreases n
  {
    if n == 0 then s else Edges(RisingEdge(s), n - 1)
  }

  /**
   * With no reload pending, a counter holding n > 0 reaches zero after exactly
   * n rising edges, not before, and then the IRQ is raised iff it is enabled
   * (or was already raised).
   */
  lemma {:induction false} CountdownReachesZero(s: IrqCounter, n: nat)
    requires !s.reload && Nat8(s.counter) == n && n > 0
    ensures Edges(s, n).counter == 0
    ensures Edges(s, n).active <==> s.active || s.enabled
    ensures forall k :: 0 <= k < n ==> Nat8(Edges(s, k).counter) == n - k
    decreases n
  {
    var t := RisingEdge(s);
    assert Nat8(t.counter) == n - 1;
    if n == 1 {
      assert Edges(s, 1) == Edges(t, 0) == t;
    } else {
      assert !t.active <== !s.active;
      CountdownReachesZero(t, n - 1);
      forall k | 0 <= k < n
        ensures Nat8(Edges(s, k).counter) == n - k
      {
        if k > 0 {
          assert Edges(s, k) == Edges(t, k - 1);
        }
      }
    }
  }

  /** The selectors of the four 8 KB PRG windows after a bank-data write. */
  function PrgSelectors(prgMode: bool, register: seq<bv8>, prgBanks: bv8): (sel: seq<bv8>)
    requires |register| == 8
    ensures |sel| == 4
    ensures sel[1] == register[7] & 0x3F
    ensures sel[3] == prgBanks * 2 - 1
    ensures !prgMode ==> sel[0] == register[6] & 0x3F && sel[2] == prgBanks * 2 - 2
    ensures prgMode ==> sel[2] == register[6] & 0x3F && sel[0] == prgBanks * 2 - 2
  {
    var fixed := prgBanks * 2 - 2;
    var r6 := register[6] & 0x3F;
    if prgMode then [fixed, register[7] & 0x3F, r6, prgBanks * 2 - 1]
    else [r6, register[7] & 0x3F, fixed, prgBanks * 2 - 1]
  }

  /** Two 2 KB banks (R0, R1) as even/odd pairs, then four 1 KB banks (R2-R5). */
  function ChrPairsThenSingles(register: seq<bv8>): (sel: seq<bv8>)
    requires |register| == 8
    ensures |sel| == 8
  {
    [register[0] & 0xFE, register[0] + 1, register[1] & 0xFE, register[1] + 1,
     register[2], register[3], register[4], register[5]]
  }

  /** The eight 1 KB CHR selectors; inversion puts the four single banks first. */
  function ChrSelectors(chrInversion: bool, register: seq<bv8>): (sel: seq<bv8>)
    requires |register| == 8
    ensures |sel| == 8
    ensures !chrInversion ==> sel == ChrPairsThenSingles(register)
  {
    if chrInversion then
      [register[2], register[3], register[4], register[5],
       register[0] & 0xFE, register[0] + 1, register[1] & 0xFE, register[1] + 1]
    else ChrPairsThenSingles(register)
  }

  /** Inversion swaps the 0x0000 and 0x1000 halves of the pattern space. */
  lemma InversionSwapsHalves(register: seq<bv8>)
    requires |register| == 8
    ensures forall i :: 0 <= i < 8 ==>
      ChrSelectors(true, register)[i] == ChrSelectors(false, register)[(i + 4) % 8]
  {
  }

  /** The 2 KB pairs always name an even bank and the bank after it. */
  lemma PairsAreAdjacent(chrInversion: bool, register: seq<bv8>)
    requires |register| == 8
    ensures var sel := ChrSelectors(chrInversion, register);
      var base := if chrInversion then 4 else 0;
      sel[base] & 1 == 0 && sel[base + 2] & 1 == 0 &&
      sel[base + 1] == register[0] + 1 && sel[base + 3] == register[1] + 1
  {
  }

  /** Which 8 KB PRG window, 0-3, holds a CPU address at 0x8000 or above. */
  function PrgWindow(addr: bv16): (i: nat)
    requires addr >= 0x8000
    ensures i < 4
    ensures 0x8000 <= addr <= 0x9FFF <==> i == 0
    ensures 0xA000 <= addr <= 0xBFFF <==> i == 1
    ensures 0xC000 <= addr <= 0xDFFF <==> i == 2
    ensures 0xE000 <= addr <==> i == 3
  {
    if addr <= 0x9FFF then 0 else if addr <= 0xBFFF then 1 else if addr <= 0xDFFF then 2 else 3
  }

  /** Which 1 KB CHR window, 0-7, holds a PPU address below 0x2000. */
  function ChrWindow(addr: bv16): (i: nat)
    requires addr < 0x2000
    ensures i < 8
    ensures i * 0x400 <= Nat16(addr) < i * 0x400 + 0x400
  {
    Nat16(addr) / 0x400
  }

  /** The bank-switching state of the mapper. */
  datatype Banks = Banks(
    prgBankSelector: seq<bv8>, chrBankSelector: seq<bv8>, register: seq<bv8>,
    targetRegister: bv8, prgMode: bool, chrInversion: bool, mirroring: Mirroring)

  predicate BanksValid(b: Banks)
  {
    |b.prgBankSelector| == 4 && |b.chrBankSelector| == 8 && |b.register| == 8 && b.targetRegister < 8
  }

  /** The mirroring after an even write to 0xA000-0xBFFF; four-screen carts ignore it. */
  function MirroringWrite(m: Mirroring, data: bv8): (r: Mirroring)
    ensures m == FourScreen ==> r == FourScreen
    ensures m != FourScreen ==> r == (if data & 1 == 0 then Vertical else Horizontal)
  {
    if m == FourScreen then m
    else if data & 0x01 == 0 then Vertical else Horizontal
  }

  /** The effect of a CPU write on the bank state. */
  function WriteBanks(b: Banks, prgBanks: bv8, addr: bv16, data: bv8): (c: Banks)
    requires BanksValid(b)
    ensures BanksValid(c)
    ensures !(0x8000 <= addr <= 0xBFFF) ==> c == b
    ensures b.mirroring == FourScreen ==> c.mirroring == FourScreen
  {
    if 0x8000 <= addr <= 0x9FFF then
      if addr & 0x01 == 0 then
        b.(targetRegister := data & 0x07, prgMode := data & 0x40 == 0x40, chrInversion := data & 0x80 == 0x80)
      else
        var register := b.register[Nat8(b.targetRegister) := data];
        b.(register := register,
           prgBankSelector := PrgSelectors(b.prgMode, register, prgBanks),
           chrBankSelector := ChrSelectors(b.chrInversion, register))
    else if 0xA000 <= addr <= 0xBFFF && addr & 0x01 == 0 then
      b.(mirroring := MirroringWrite(b.mirroring, data))
    else b
  }

  /** The effect of a CPU write on the IRQ unit. */
  function WriteIrq(s: IrqCounter, addr: bv16, data: bv8): (t: IrqCounter)
    ensures addr < 0xC000 ==> t == s
    ensures 0xE000 <= addr && addr & 1 == 0 ==> !t.active && !t.enabled
    ensures 0xE000 <= addr && addr & 1 == 1 ==> t.enabled && t.active == s.active
    ensures 0xC000 <= addr <= 0xDFFF && addr & 1 == 0 ==> t == s.(latch := data)
    ensures 0xC000 <= addr <= 0xDFFF && addr & 1 == 1 ==> t == s.(reload := true)
  {
    if 0xC000 <= addr <= 0xDFFF then
      if addr & 0x01 == 0 then s.(latch := data) else s.(reload := true)
    else if 0xE000 <= addr then
      if addr & 0x01 == 0 then s.(enabled := false, active := false) else s.(enabled := true)
    else s
  }

  class Mapper004 {
    const prgBanks: bv8
    var prgBankSelector: seq<bv8>
    var chrBankSelector: seq<bv8>
    var mirroring: Mirroring
    var prgMode: bool
    var chrInversion: bool
    var register: seq<bv8>
    var targetRegister: bv8
    const ramData: array<bv8>
    var lastChrBankBit: bool
    var irqEnabled: bool
    var irqActive: bool
    var irqReload: bool
    var irqCounter: bv8
    var irqLatch: bv8

    ghost predicate Valid()
      reads this
    {
      ramData.Length == 0x2000 && BanksValid(BankState())
    }

    function BankState(): Banks
      reads this
    {
      Banks(prgBankSelector, chrBankSelector, register, targetRegister, prgMode, chrInversion, mirroring)
    }

    function Irq(): IrqCounter
      reads this
    {
      IrqCounter(irqEnabled, irqActive, irqReload, irqCounter, irqLatch, lastChrBankBit)
    }

    /** The last 16 KB bank appears as 8 KB bank 2·prg_banks−1 in the top window. */
    constructor (prgBanks: bv8, mirroring: Mirroring)
      ensures Valid() && fresh(ramData)
      ensures this.prgBanks == prgBanks
      ensures BankState() == Banks([0, 0, 0, prgBanks * 2 - 1], seq(8, _ => 0), seq(8, _ => 0), 0, false, false, mirroring)
      ensures Irq() == IrqCounter(false, false, false, 0, 0, false)
      ensures forall i :: 0 <= i < 0x2000 ==> ramData[i] == 0
    {
      this.prgBanks := prgBanks;
      prgBankSelector := [0, 0, 0, prgBanks * 2 - 1];
      chrBankSelector := seq(8, _ => 0);
      this.mirroring := mirroring;
      prgMode := false;
      chrInversion := false;
      register := seq(8, _ => 0);
      targetRegister := 0;
      ramData := new bv8[0x2000](_ => 0);
      lastChrBankBit := false;
      irqActive := false;
      irqEnabled := false;
      irqReload := false;
      irqCounter := 0;
      irqLatch := 0;
    }

    /** RAM at 0x6000-0x7FFF, four 8 KB ROM windows from 0x8000, index 0 below 0x6000. */
    function CpuMapRead(addr: bv16): (r: CartridgeReadTarget)
      requires Valid()
      reads this, ramData
      ensures 0x6000 <= addr <= 0x7FFF ==> r == PrgRam(ramData[Low13(addr)])
      ensures addr < 0x6000 ==> r == PrgRom(0)
      ensures 0x8000 <= addr ==> r.PrgRom?
      ensures 0x8000 <= addr ==>
        r.index / 0x2000 == Nat8(prgBankSelector[PrgWindow(addr)]) && r.index % 0x2000 == Low13(addr)
    {
      if 0x6000 <= addr <= 0x7FFF then PrgRam(ramData[Low13(addr)])
      else if 0x8000 <= addr <= 0x9FFF then PrgRom(Banked(Nat8(prgBankSelector[0]), 0x2000, Low13(addr)))
      else if 0xA000 <= addr <= 0xBFFF then PrgRom(Banked(Nat8(prgBankSelector[1]), 0x2000, Low13(addr)))
      else if 0xC000 <= addr <= 0xDFFF then PrgRom(Banked(Nat8(prgBankSelector[2]), 0x2000, Low13(addr)))
      else if 0xE000 <= addr then PrgRom(Banked(Nat8(prgBankSelector[3]), 0x2000, Low13(addr)))
      else PrgRom(0)
    }

    method CpuMapWrite(addr: bv16, data: bv8)
      requires Valid()
      modifies this, ramData
      ensures Valid()
      ensures BankState() == WriteBanks(old(BankState()), prgBanks, addr, data)
      ensures Irq() == WriteIrq(old(Irq()), addr, data)
      ensures 0x6000 <= addr <= 0x7FFF ==> ramData[..] == old(ramData[..])[Low13(addr) := data]
      ensures !(0x6000 <= addr <= 0x7FFF) ==> ramData[..] == old(ramData[..])
    {
      if 0x6000 <= addr <= 0x7FFF {
        ramData[Low13(addr)] := data;
      } else if 0x8000 <= addr <= 0x9FFF {
        if addr & 0x01 == 0 {
          targetRegister := data & 0x07;
          prgMode := data & 0x40 == 0x40;
          chrInversion := data & 0x80 == 0x80;
        } else {
          BankData(data);
        }
      } else if 0xA000 <= addr <= 0xBFFF {
        if addr & 0x01 == 0 && mirroring != FourScreen {
          mirroring := if data & 0x01 == 0 then Vertical else Horizontal;
        }
      } else if 0xC000 <= addr <= 0xDFFF {
        if addr & 0x01 == 0 {
          irqLatch := data;
        } else {
          irqReload := true;
        }
      } else if 0xE000 <= addr {
        if addr & 0x01 == 0 {
          irqEnabled := false;
          irqActive := false;
        } else {
          irqEnabled := true;
        }
      }
    }

    /** A bank-data write: store into the target register and recompute every selector. */
    method BankData(data: bv8)
      requires Valid()
      modifies this
      ensures Valid()
      ensures BankState() == WriteBanks(old(BankState()), prgBanks, 0x8001, data)
      ensures Irq() == old(Irq())
    {
      register := register[Nat8(targetRegister) := data];
      UpdatePrgSelectors();
      chrBankSelector := ChrSelectors(chrInversion, register);
    }

    method UpdatePrgSelectors()
      requires |register| == 8 && |prgBankSelector| == 4
      modifies this
      ensures register == old(register) && chrBankSelector == old(chrBankSelector)
      ensures prgBankSelector == PrgSelectors(prgMode, register, prgBanks)
      ensures targetRegister == old(targetRegister) && prgMode == old(prgMode)
      ensures chrInversion == old(chrInversion) && mirroring == old(mirroring)
      ensures Irq() == old(Irq())
    {
      if prgMode {
        prgBankSelector := prgBankSelector[0 := prgBanks * 2 - 2];
        prgBankSelector := prgBankSelector[2 := register[6] & 0x3F];
      } else {
        prgBankSelector := prgBankSelector[0 := register[6] & 0x3F];
        prgBankSelector := prgBankSelector[2 := prgBanks * 2 - 2];
      }
      prgBankSelector := prgBankSelector[1 := register[7] & 0x3F];
      prgBankSelector := prgBankSelector[3 := prgBanks * 2 - 1];
    }

    /** The CHR index of a PPU address: eight 1 KB windows below 0x2000, 0 above. */
    function ChrIndex(addr: bv16): (r: nat)
      requires Valid()
      reads this
      ensures addr < 0x2000 ==>
        r / 0x400 == Nat8(chrBankSelector[ChrWindow(addr)]) && r % 0x400 == Low10(addr)
      ensures addr >= 0x2000 ==> r == 0
    {
      if addr >= 0x2000 then 0
      else Banked(Nat8(chrBankSelector[ChrWindow(addr)]), 0x400, Low10(addr))
    }

    /** A CHR read maps through the 1 KB windows and clocks the scanline counter on A12. */
    method PpuMapRead(addr: bv16) returns (r: nat)
      requires Valid()
      modifies this
      ensures Valid()
      ensures Irq() == A12(old(Irq()), addr)
      ensures BankState() == old(BankState())
      ensures r == ChrIndex(addr)
    {
      var chrBankBit := addr & 0x1000 == 0x1000;
      if !lastChrBankBit && chrBankBit {
        if irqCounter == 0 || irqReload {
          irqCounter := irqLatch;
          irqReload := false;
        } else {
          irqCounter := irqCounter - 1;
        }
        if irqCounter == 0 && irqEnabled {
          irqActive := true;
        }
      }
      lastChrBankBit := chrBankBit;
      r := ChrIndex(addr);
    }

    /** CHR is ROM on this board: writes are never mapped. */
    function PpuMapWrite(addr: bv16): (r: Option<nat>)
      ensures r.None?
    {
      None
    }

    function IrqState(): (r: bool)
      reads this
      ensures r == Irq().active
    {
      irqActive
    }

    method IrqClear()
      modifies this
      ensures Irq() == old(Irq()).(active := false)
      ensures BankState() == old(BankState())
    {
      irqActive := false;
    }

    /** Reported in 16 KB units: half the 8 KB selector of the window. */
    function GetPrgBank(addr: bv16): (r: Option<bv8>)
      requires Valid()
      reads this
      ensures r.Some? <==> addr >= 0x8000
      ensures addr >= 0x8000 ==> r.value == prgBankSelector[PrgWindow(addr)] / 2
    {
      if addr <= 0x7FFF then None
      else if addr <= 0x9FFF then Some(prgBankSelector[0] / 2)
      else if addr <= 0xBFFF then Some(prgBankSelector[1] / 2)
      else if addr <= 0xDFFF then Some(prgBankSelector[2] / 2)
      else Some(prgBankSelector[3] / 2)
    }
  }
}
