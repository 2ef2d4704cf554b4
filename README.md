# nestadia in Dafny

A model of the emulation engine of nestadia, an NES emulator written in
Rust, with proofs about it. The engine is integer, sequential logic: each
chip keeps its state in small registers and fixed-size buffers and changes it
one clock at a time. The model follows the repository's three trees where
each is the coherent one:

- `nestadia/`: the PPU (registers, loopy VRAM address, sprite evaluation,
  dot/scanline machine, rendering), the bus (RAM and name-table mirroring,
  controller shift registers), the mappers 001/002/003/004/007/066, the APU
  integer units (envelope, timer, length and linear counters, sweep, noise
  LFSR, frame sequencer), the emulator orchestrator and the cartridge
  disassembler;
- `nestadia-core/`: the 6502 interpreter (addressing modes, every instruction,
  stack, interrupts, cycle accounting, CPU-bus dispatch and OAM DMA), the
  earlier PPU, and the byte-slice disassembler;
- `server/nestadia-core/`: the iNES header parser, the cartridge loader with
  mapper 000, and the 14-bit VRAM address register.

Conventions:

- `u8` and `u16` are `bv8` and `bv16`, so Rust's `wrapping_*` operations and its release-build
  arithmetic are bit-vector arithmetic; `usize` indices are `nat`.
- Components whose fields the Rust code updates through `&mut self` are classes. Their methods
  state the new state as a function of the old one (`ensures State() == F(old(State()))`), and
  the lemmas are proved about those functions.
- Pure code (mirroring, address maps, flag logic, header parsing, register accessors) is
  functions and lemmas.
- The opcode table (`Opcode::try_from`, `cycles`, `addressing_mode`) is a parameter,
  `Opcodes.OpcodeTable`, and so is the RGB palette, because the files defining them are not
  part of this model.
- The CPU is proved against `CpuStep.Next` and `CpuStep.Writes`, a reference semantics of
  one instruction over a memory image. The methods that run an instruction through the real
  bus are tied to it for instructions whose bus accesses have no side effects (see "Left out").

Files: `bits.dfy`, `wrappers.dfy` (shared helpers); `mapping.dfy`, `mapper000.dfy` …
`mapper066.dfy`, `ines.dfy`, `cartridge.dfy` (cartridge); `ppu_registers.dfy`, `ppu_spec.dfy`,
`sprites.dfy`, `ppu.dfy`, `vram_addr.dfy`, `legacy_ppu.dfy` (PPUs); `bus.dfy`, `cpu_bus.dfy`
(buses); `cpu_opcodes.dfy`, `cpu_alu.dfy`, `cpu_spec.dfy`, `cpu_step.dfy`, `cpu.dfy` (CPU);
`apu_common.dfy`, `apu_pulse.dfy`, `apu_triangle.dfy`, `apu_noise.dfy`, `apu.dfy` (APU);
`emulator.dfy` (orchestrator); `disassembler.dfy`, `cartridge_disassembler.dfy`.

## Model

| member | source | states |
|---|---|---|
| Mapper000.Mapper000.constructor | server/nestadia-core/src/cartridge/mapper_000.rs:8-10 | keeps the PRG bank count and the header mirroring |
| Mapper000.Mapper000.CpuMapRead | server/nestadia-core/src/cartridge/mapper_000.rs:14-17 | a PRG ROM index: the low 15 address bits with more than one bank, the low 14 otherwise (16 KB mirrored) |
| Mapper000.Mapper000.PpuMapRead | server/nestadia-core/src/cartridge/mapper_000.rs:26-28 | CHR reads are the address itself |
| Mapper000.Mapper000.PpuMapWrite | server/nestadia-core/src/cartridge/mapper_000.rs:30-32 | CHR writes are always refused |
| Mapper002.Mapper002.constructor | nestadia/src/cartridge/mapper_002.rs:10-16 | selector 0, the given bank count and mirroring |
| Mapper002.Mapper002.CpuMapRead | nestadia/src/cartridge/mapper_002.rs:20-29 | a PRG ROM index whose 16 KB bank is the selector for 0x8000-0xBFFF and prg_banks - 1 elsewhere, at offset addr & 0x3FFF |
| Mapper002.Mapper002.CpuMapWrite | nestadia/src/cartridge/mapper_002.rs:31-35 | a write at 0x8000 or above sets the selector to the whole byte; other writes keep it |
| Mapper002.Mapper002.PpuMapRead | nestadia/src/cartridge/mapper_002.rs:37-39 | CHR reads are the identity |
| Mapper002.Mapper002.PpuMapWrite | nestadia/src/cartridge/mapper_002.rs:41-43 | CHR writes are the identity, always accepted |
| Mapper002.Mapper002.GetPrgBank | nestadia/src/cartridge/mapper_002.rs:53-60 | Some exactly from 0x8000: the selector below 0xC000, prg_banks - 1 (u8) from 0xC000 |
| Mapper003.Mapper003.constructor | nestadia/src/cartridge/mapper_003.rs:10-16 | CHR selector 0, the given bank count and mirroring |
| Mapper003.Mapper003.CpuMapRead | nestadia/src/cartridge/mapper_003.rs:20-24 | the address masked to 15 bits with more than one bank, to 14 bits otherwise |
| Mapper003.Mapper003.CpuMapWrite | nestadia/src/cartridge/mapper_003.rs:26-28 | any write sets the CHR selector to data & 3 |
| Mapper003.Mapper003.PpuMapRead | nestadia/src/cartridge/mapper_003.rs:30-32 | index below 0x8000 whose 8 KB bank is the selector and whose offset is addr & 0x1FFF |
| Mapper003.Mapper003.PpuMapWrite | nestadia/src/cartridge/mapper_003.rs:34-36 | CHR writes use the same index as reads |
| Mapper003.Mapper003.GetPrgBank | nestadia/src/cartridge/mapper_003.rs:46-53 | Some exactly from 0x8000: bank 0 below 0xC000, bank 1 above |
| Mapper007.Mapper007.constructor | nestadia/src/cartridge/mapper_007.rs:9-14 | selector 0 and one-screen upper mirroring |
| Mapper007.Mapper007.CpuMapRead | nestadia/src/cartridge/mapper_007.rs:18-21 | a PRG ROM index whose 32 KB bank is the selector, at offset addr & 0x7FFF |
| Mapper007.Mapper007.CpuMapWrite | nestadia/src/cartridge/mapper_007.rs:23-33 | with address bit 15 set: selector data & 7 and one-screen upper iff data bit 4, else lower; other writes change nothing |
| Mapper007.Mapper007.PpuMapRead | nestadia/src/cartridge/mapper_007.rs:35-37 | CHR reads are addr & 0x1FFF |
| Mapper007.Mapper007.PpuMapWrite | nestadia/src/cartridge/mapper_007.rs:39-41 | CHR writes use the same index as reads |
| Mapper007.Mapper007.GetPrgBank | nestadia/src/cartridge/mapper_007.rs:51-57 | Some exactly from 0x8000, holding the selector |
| Mapper066.Mapper066.constructor | nestadia/src/cartridge/mapper_066.rs:10-16 | both selectors 0, the given mirroring |
| Mapper066.Mapper066.CpuMapRead | nestadia/src/cartridge/mapper_066.rs:20-24 | a PRG ROM index below 0x20000 whose 32 KB bank is the PRG selector, at offset addr & 0x7FFF |
| Mapper066.Mapper066.CpuMapWrite | nestadia/src/cartridge/mapper_066.rs:26-29 | CHR selector data & 3, PRG selector (data & 0x30) >> 4, both at most 3 |
| Mapper066.Mapper066.PpuMapRead | nestadia/src/cartridge/mapper_066.rs:31-33 | the address offset by CHR selector × 0x2000, without masking |
| Mapper066.Mapper066.PpuMapWrite | nestadia/src/cartridge/mapper_066.rs:35-37 | CHR writes use the same index as reads |
| Mapper066.Mapper066.GetPrgBank | nestadia/src/cartridge/mapper_066.rs:47-53 | Some exactly from 0x8000, holding the PRG selector |
| Mapper001.ControlMirroring | nestadia/src/cartridge/mapper_001.rs:112-117 | control & 3 picks one-screen lower, one-screen upper, vertical or horizontal, each exactly for its value |
| Mapper001.ShiftIn | nestadia/src/cartridge/mapper_001.rs:101-102 | the register moves right and data bit 0 lands at bit 4; a 5-bit register stays 5-bit |
| Mapper001.Commit | nestadia/src/cartridge/mapper_001.rs:108-151 | the 5-bit value goes to control (with its mirroring), CHR bank 0 (4 KB or 8 KB by the CHR mode), CHR bank 1 or the PRG selectors chosen by addr & 0x6000 and the PRG mode; every other register is kept |
| Mapper001.Write | nestadia/src/cartridge/mapper_001.rs:85-157 | RAM writes leave the registers; bit 7 clears the port and ORs 0x0C into control; otherwise the bit is shifted in and the fifth bit commits and empties the port, so the count stays below 5 |
| Mapper001.SerialValue | nestadia/src/cartridge/mapper_001.rs:100-103 | five written bytes make a value below 0x20 whose bit k is bit 0 of byte k |
| Mapper001.WriteAll | nestadia/src/cartridge/mapper_001.rs:85-157 | a sequence of writes to one address keeps the port consistent |
| Mapper001.FiveShifts | nestadia/src/cartridge/mapper_001.rs:100-106 | five shifts push out any earlier 5-bit content and leave exactly the five new bits, first write at bit 0 |
| Mapper001.CommitIgnoresPort | nestadia/src/cartridge/mapper_001.rs:106-156 | the committed registers do not depend on what the port held before the reset of load and count |
| Mapper001.FiveWritesCommit | nestadia/src/cartridge/mapper_001.rs:100-156 | five writes with bit 7 clear from an empty port commit SerialValue of their low bits and leave the port empty |
| Mapper001.Mode1PrgCommitIgnoredByReads | nestadia/src/cartridge/mapper_001.rs:59-81 | in PRG mode 1 the reads use 16 KB windows while a PRG commit changes only the 32 KB selector, so no ROM read changes (also lines 131-148) |
| Mapper001.Mapper001.constructor | nestadia/src/cartridge/mapper_001.rs:22-47 | control 0x0C, high 16 KB selector prg_banks - 1, all else 0; RAM holds the save data where it reaches and zero after |
| Mapper001.Mapper001.CpuMapRead | nestadia/src/cartridge/mapper_001.rs:51-83 | RAM byte at addr & 0x1FFF for 0x6000-0x7FFF; in 16 KB mode the low or high selector × 0x4000 + addr & 0x3FFF, index 0 below 0x8000; else the 32 KB selector × 0x8000 + addr & 0x7FFF |
| Mapper001.Mapper001.CpuMapWrite | nestadia/src/cartridge/mapper_001.rs:85-157 | registers become Write of the old ones; a RAM write changes exactly the byte at addr & 0x1FFF and reads back; other writes keep RAM |
| Mapper001.Mapper001.WriteRam | nestadia/src/cartridge/mapper_001.rs:86-90 | stores exactly one RAM byte at addr & 0x1FFF, which then reads back |
| Mapper001.Mapper001.SerialWrite | nestadia/src/cartridge/mapper_001.rs:92-156 | the register file after a non-RAM write is Write of the old one |
| Mapper001.Mapper001.CommitLoad | nestadia/src/cartridge/mapper_001.rs:106-156 | the register file becomes Commit of the load register, with the port emptied |
| Mapper001.Mapper001.PpuMapRead | nestadia/src/cartridge/mapper_001.rs:159-172 | 4 KB mode: low or high 4 KB selector × 0x1000 + addr & 0xFFF split at 0x1000; 8 KB mode: selector × 0x2000 + addr & 0x1FFF |
| Mapper001.Mapper001.PpuMapWrite | nestadia/src/cartridge/mapper_001.rs:174-176 | always Some, through the 8 KB selector whatever the CHR mode; equal to the read index in 8 KB mode |
| Mapper001.Mapper001.GetPrgBank | nestadia/src/cartridge/mapper_001.rs:186-204 | None below 0x8000; the 32 KB selector in 32 KB mode, else the low or high 16 KB selector |
| Mapper004.RisingEdge | nestadia/src/cartridge/mapper_004.rs:170-182 | reload from the latch when the counter is 0 or a reload is pending (clearing it), else decrement; the IRQ becomes active iff it was, or the counter is now 0 and enabled |
| Mapper004.A12 | nestadia/src/cartridge/mapper_004.rs:169-184 | A12 is address bit 12; exactly a 0 to 1 change clocks RisingEdge, and the bit is remembered |
| Mapper004.CountdownReachesZero | nestadia/src/cartridge/mapper_004.rs:170-182 | with no reload pending, a counter holding n > 0 is n - k after k < n edges and 0 after n, and the IRQ is then active iff it was or is enabled |
| Mapper004.PrgSelectors | nestadia/src/cartridge/mapper_004.rs:93-101 | sel[1] = R7 & 0x3F, sel[3] = 2·banks - 1, and R6 & 0x3F with 2·banks - 2 in windows 0 and 2, swapped by the PRG mode |
| Mapper004.ChrPairsThenSingles | nestadia/src/cartridge/mapper_004.rs:113-120 | eight selectors: R0 & 0xFE, R0 + 1, R1 & 0xFE, R1 + 1, then R2-R5 |
| Mapper004.ChrSelectors | nestadia/src/cartridge/mapper_004.rs:103-121 | without inversion the pairs-then-singles layout, with inversion the two halves exchanged |
| Mapper004.InversionSwapsHalves | nestadia/src/cartridge/mapper_004.rs:103-121 | selector i with inversion equals selector (i + 4) mod 8 without it |
| Mapper004.PairsAreAdjacent | nestadia/src/cartridge/mapper_004.rs:108-116 | each 2 KB pair names an even bank followed by the next bank (u8 wrap) |
| Mapper004.PrgWindow | nestadia/src/cartridge/mapper_004.rs:57-68 | the 8 KB window 0-3 is chosen exactly by the four address ranges from 0x8000 |
| Mapper004.ChrWindow | nestadia/src/cartridge/mapper_004.rs:186-210 | the 1 KB window i of a pattern address satisfies i·0x400 <= addr < i·0x400 + 0x400 |
| Mapper004.MirroringWrite | nestadia/src/cartridge/mapper_004.rs:124-136 | FourScreen is kept; otherwise data bit 0 chooses vertical (0) or horizontal (1) |
| Mapper004.WriteBanks | nestadia/src/cartridge/mapper_004.rs:82-141 | writes outside 0x8000-0xBFFF keep the banks; bank select, bank data with recomputed selectors and the mirroring write are applied by decoded address; FourScreen is never lost |
| Mapper004.WriteIrq | nestadia/src/cartridge/mapper_004.rs:142-160 | below 0xC000 nothing; 0xC000 even sets the latch, odd requests a reload; 0xE000 even disables and clears, odd enables and keeps the active flag |
| Mapper004.Mapper004.constructor | nestadia/src/cartridge/mapper_004.rs:27-47 | PRG selectors [0, 0, 0, 2·banks - 1], all CHR selectors, registers and IRQ fields zero or false, zeroed 8 KB RAM |
| Mapper004.Mapper004.CpuMapRead | nestadia/src/cartridge/mapper_004.rs:51-74 | RAM at addr & 0x1FFF for 0x6000-0x7FFF, PrgRom(0) below 0x6000, else selector of the window × 0x2000 + addr & 0x1FFF |
| Mapper004.Mapper004.CpuMapWrite | nestadia/src/cartridge/mapper_004.rs:76-166 | bank state becomes WriteBanks, the IRQ unit WriteIrq, and RAM changes exactly at addr & 0x1FFF for RAM writes |
| Mapper004.Mapper004.BankData | nestadia/src/cartridge/mapper_004.rs:89-122 | an odd 0x8000-0x9FFF write: WriteBanks of the old bank state, IRQ unchanged |
| Mapper004.Mapper004.UpdatePrgSelectors | nestadia/src/cartridge/mapper_004.rs:93-101 | the PRG selectors become PrgSelectors of the registers; everything else is kept |
| Mapper004.Mapper004.ChrIndex | nestadia/src/cartridge/mapper_004.rs:186-218 | below 0x2000 the window's 1 KB selector × 0x400 + addr & 0x3FF, index 0 above |
| Mapper004.Mapper004.PpuMapRead | nestadia/src/cartridge/mapper_004.rs:168-219 | returns ChrIndex, the IRQ unit becomes A12 of the old one, banks unchanged |
| Mapper004.Mapper004.PpuMapWrite | nestadia/src/cartridge/mapper_004.rs:221-223 | CHR writes are never mapped |
| Mapper004.Mapper004.IrqState | nestadia/src/cartridge/mapper_004.rs:229-231 | the IRQ unit's active flag |
| Mapper004.Mapper004.IrqClear | nestadia/src/cartridge/mapper_004.rs:233-235 | clears only the active flag |
| Mapper004.Mapper004.GetPrgBank | nestadia/src/cartridge/mapper_004.rs:241-251 | None below 0x8000, else the window's 8 KB selector halved |
| INes.Parse | server/nestadia-core/src/cartridge/ines_header.rs:55-85 | TooShort exactly below 16 bytes, InvalidMagicBytes exactly when the first 4 bytes are not "NES\x1A"; otherwise sizes from bytes 4-5, mapper (data[6] >> 4) \| (data[7] & 0xF0), flags 8 raw and flags 6, 7, 9, 10 truncated to their defined bits |
| INes.Encode | server/nestadia-core/src/cartridge/ines_header.rs:6 | a 16-byte image starting with the magic (the inverse partner of Parse) (also lines 64-73) |
| INes.FlagBytes | server/nestadia-core/src/cartridge/ines_header.rs:67-73 | the mapper number and the flags survive their split over the flag bytes |
| INes.ParseEncode | server/nestadia-core/src/cartridge/ines_header.rs:55-85 | parsing an encoded truncated header gives it back |
| INes.ParseIgnoresTail | server/nestadia-core/src/cartridge/ines_header.rs:64-73 | two images of at least 16 bytes that agree on bytes 0-10 parse alike, so bytes 11-15 never matter |
| Cartridge.HeaderMirroring | server/nestadia-core/src/cartridge/mod.rs:70-77 | FourScreen iff flags 6 bit 3, else Vertical iff bit 0, else Horizontal; never one-screen |
| Cartridge.PrgStart | server/nestadia-core/src/cartridge/mod.rs:91-95 | 528 iff the trainer flag is set, else 16 |
| Cartridge.Layout | server/nestadia-core/src/cartridge/mod.rs:62-120 | header errors first, then MapperNotImplemented outside {0, 1, 2, 3, 66}, then TooShort exactly when the image is shorter than prg_start + 16384·prg + 8192·chr; on success PRG and CHR are the two consecutive slices after prg_start |
| Cartridge.Slices | server/nestadia-core/src/cartridge/mod.rs:88-120 | an accepted header gives TooShort exactly when the image is shorter than prg_start + 16384·prg + 8192·chr, and otherwise the header, its mirroring, PRG as the slice after prg_start and CHR as the slice right after PRG |
| Cartridge.HeaderErrorsFirst | server/nestadia-core/src/cartridge/mod.rs:66 | a short image or bad magic is reported as such whatever the mapper or size |
| Cartridge.NewMapper | server/nestadia-core/src/cartridge/mod.rs:79-86 | the board allocated has the header's mapper number and the header mirroring |
| Cartridge.Load | server/nestadia-core/src/cartridge/mod.rs:62-120 | an error exactly when Layout fails, with its error; otherwise a valid cartridge holding the header, the PRG and CHR slices, the header's mapper and its mirroring |
| Cartridge.Cartridge.constructor | server/nestadia-core/src/cartridge/mod.rs:114-119 | the cartridge holds exactly the header, memories and board given |
| Cartridge.Cartridge.Mirroring | server/nestadia-core/src/cartridge/mod.rs:122-124 | the mirroring the board currently selects |
| Cartridge.Cartridge.ReadPrgMem | server/nestadia-core/src/cartridge/mod.rs:126-132 | the RAM byte the board returns, or the PRG ROM byte at the mapped index |
| Cartridge.Cartridge.WritePrgMem | server/nestadia-core/src/cartridge/mod.rs:134-136 | the write goes to the board's cpu_map_write, whose effect is stated per board; RAM writes on MMC1/MMC3 read back |
| Cartridge.Cartridge.PeekChr | server/nestadia-core/src/cartridge/mod.rs:138-145 | the CHR byte at the mapped index, 0 at or past the end of CHR memory |
| Cartridge.Cartridge.ReadChrMem | server/nestadia-core/src/cartridge/mod.rs:138-145 | returns PeekChr; only MMC3 changes state (its A12 counter), other boards are unchanged |
| Cartridge.Cartridge.WriteChrMem | server/nestadia-core/src/cartridge/mod.rs:147-156 | stores the byte exactly at the index the board maps, and nothing when the board refuses |
| Cartridge.Cartridge.TakeIrqSetState | nestadia/src/cartridge/mapper_004.rs:229-235 | returns the MMC3 IRQ flag and clears it, banks kept; other boards return false and are unchanged |
| Cartridge.Cartridge.GetSram | nestadia/src/cartridge/mapper_001.rs:182-184 | the 8 KB RAM of MMC1 and MMC3, None on every other board |
| Cartridge.Cartridge.GetPrgBank | nestadia/src/cartridge/mapper_002.rs:53-60 | Some only from 0x8000, and always from 0x8000 on the banked boards |
| VramAddress.Mirrored | server/nestadia-core/src/ppu/registers.rs:39-42 | the mirrored address is at most $3FFF and differs from the value only in bits 14 and 15 |
| VramAddress.MirroredInRange | server/nestadia-core/src/ppu/registers.rs:39-42 | an address already in $0000-$3FFF is left unchanged |
| VramAddress.Loaded | server/nestadia-core/src/ppu/registers.rs:15-27 | a load replaces the low byte when the latch points at it and the high byte otherwise, keeps the other byte, and the result is in range |
| VramAddress.Incremented | server/nestadia-core/src/ppu/registers.rs:33-37 | from an in-range address the u16 sum cannot overflow (the source's "can't overflow"), and the result is the sum folded into $0000-$3FFF |
| VramAddress.LoadPair | server/nestadia-core/src/ppu/registers.rs:15-70 | two loads from the high-byte phase set the whole address to (hi << 8 \| lo) & $3FFF |
| VramAddress.VramAddr.constructor | server/nestadia-core/src/ppu/registers.rs:8-13 | the address starts at 0 with the next write to the high byte |
| VramAddress.VramAddr.Get | server/nestadia-core/src/ppu/registers.rs:29-31 | the address read is always in $0000-$3FFF |
| VramAddress.VramAddr.Load | server/nestadia-core/src/ppu/registers.rs:15-27 | the value becomes Loaded and the latch flips |
| VramAddress.VramAddr.Inc | server/nestadia-core/src/ppu/registers.rs:33-37 | the value becomes Incremented and the latch is kept |
| VramAddress.VramAddr.ResetLatch | nestadia-core/src/ppu/mod.rs:201 | the value is kept and the next load writes the high byte |
| VramAddress.VramAddr.Mirror | server/nestadia-core/src/ppu/registers.rs:39-42 | the value becomes Mirrored and the latch is kept |
| PpuRegisters.FieldsDetermine | nestadia/src/ppu/registers.rs:4-20 | two words with the same coarse X, coarse Y, nametable, fine Y and bit 15 are equal |
| PpuRegisters.SetCoarseX | nestadia/src/ppu/registers.rs:10 | the setter writes the low 5 bits into coarse X and keeps every other field |
| PpuRegisters.SetCoarseY | nestadia/src/ppu/registers.rs:13 | the setter writes the low 5 bits into coarse Y and keeps every other field |
| PpuRegisters.SetNametable | nestadia/src/ppu/registers.rs:16 | the setter writes the low 2 bits into the nametable field and keeps every other field |
| PpuRegisters.SetFineY | nestadia/src/ppu/registers.rs:19 | the setter writes the low 3 bits into fine Y and keeps every other field |
| PpuRegisters.NextCoarseX | nestadia/src/ppu/registers.rs:37-46 | coarse X goes up by one, or wraps from 31 to 0 and flips the horizontal nametable bit; nothing else changes |
| PpuRegisters.NextFineY | nestadia/src/ppu/registers.rs:48-67 | fine Y goes up by one until 7; then coarse Y goes up, row 29 wraps to 0 and flips the vertical nametable bit, and row 31 wraps to 0 without flipping; coarse X is kept |
| PpuRegisters.CopyX | nestadia/src/ppu/registers.rs:69-75 | coarse X and nametable bit 0 come from the other register, the rest is kept |
| PpuRegisters.CopyY | nestadia/src/ppu/registers.rs:77-85 | coarse Y, fine Y and nametable bit 1 come from the other register, the rest is kept |
| PpuRegisters.ResetXThenY | nestadia/src/ppu/registers.rs:69-85 | reset_x then reset_y copies the whole word of the other register except bit 15 |
| PpuRegisters.ResetsCommute | nestadia/src/ppu/registers.rs:69-85 | reset_x and reset_y touch disjoint fields, so their order does not matter |
| PpuRegisters.NametableBits | nestadia/src/ppu/registers.rs:16 | a nametable number is fixed by its two bits |
| PpuRegisters.VramAddr.constructor | nestadia/src/ppu/registers.rs:22-26 | the register starts at 0 |
| PpuRegisters.VramAddr.Set | nestadia/src/ppu/registers.rs:33-35 | the register takes the given word |
| PpuRegisters.VramAddr.IncrementCoarseX | nestadia/src/ppu/registers.rs:37-46 | the register becomes NextCoarseX of its old value |
| PpuRegisters.VramAddr.IncrementFineY | nestadia/src/ppu/registers.rs:48-67 | the register becomes NextFineY of its old value |
| PpuRegisters.VramAddr.ResetX | nestadia/src/ppu/registers.rs:69-75 | the register becomes CopyX of its old value and the other's |
| PpuRegisters.VramAddr.ResetY | nestadia/src/ppu/registers.rs:77-85 | the register becomes CopyY of its old value and the other's |
| PpuRegisters.VramAddrIncrement | nestadia/src/ppu/registers.rs:135-143 | the PPUDATA step is 32 exactly when bit 2 of PPUCTRL is set, 1 otherwise |
| PpuRegisters.SpritePatternBaseAddr | nestadia/src/ppu/registers.rs:145-151 | the sprite pattern table is at $1000 exactly when bit 3 is set, $0000 otherwise |
| PpuRegisters.BackgroundPatternBaseAddr | nestadia/src/ppu/registers.rs:153-159 | the background pattern table is at $1000 exactly when bit 4 is set, $0000 otherwise |
| PpuRegisters.SpriteSize | nestadia/src/ppu/registers.rs:161-168 | sprites are 16 pixels tall exactly when bit 5 is set, 8 otherwise |
| PpuRegisters.MasterSlaveSelect | nestadia/src/ppu/registers.rs:170-177 | as written, the accessor returns 1 exactly when the sprite-size bit (bit 5) is set |
| PpuRegisters.MasterSlaveSelectReadsSpriteSize | nestadia/src/ppu/registers.rs:112-116 | the as-written accessor returns 0 for a PPUCTRL holding only MASTER_SLAVE_SELECT and 1 for one holding only SPRITE_SIZE (also lines 170-177) |
| PpuRegisters.MasterSlaveSelectIntended | nestadia/src/ppu/registers.rs:115-116 | the corrected accessor returns 1 exactly when bit 6, MASTER_SLAVE_SELECT, is set (also lines 170-177) |
| PpuSpec.Register | nestadia/src/ppu/mod.rs:118 | the register a CPU address selects is one of eight (also line 232) |
| PpuSpec.RegisterMirrors | nestadia/src/ppu/mod.rs:118 | the eight registers repeat every 8 bytes (also line 232) |
| PpuSpec.ReadIgnoresFetched | nestadia/src/ppu/mod.rs:231-318 | only a PPUDATA read takes in the byte fetched from the PPU bus |
| PpuSpec.Greyscale | nestadia/src/ppu/mod.rs:302-307 | with greyscale on only bits 4 and 5 of the colour survive; with it off the colour is unchanged (also lines 505-509) |
| PpuSpec.PaletteIndex | nestadia/src/ppu/mod.rs:206-213 | a palette address selects one of 32 entries: the low 4 bits when it is a multiple of 4, the low 5 bits otherwise (also lines 294-300) |
| PpuSpec.PaletteMirrors | nestadia/src/ppu/mod.rs:206-213 | $3F10/$3F14/$3F18/$3F1C are the background entries $3F00/$3F04/$3F08/$3F0C, the other sprite entries are their own, and the table repeats every 32 bytes (also lines 294-300) |
| PpuSpec.AddressOf | nestadia/src/ppu/mod.rs:174-187 | two PPUADDR bytes spell a 14-bit address: the high byte's low six bits, then the low byte |
| PpuSpec.AddressBytes | nestadia/src/ppu/mod.rs:174-187 | the second PPUADDR write keeps the high byte the first one put in t |
| PpuSpec.AddressWritesLoadV | nestadia/src/ppu/mod.rs:174-187 | two PPUADDR writes, high byte first, load both v and t with the 14-bit address and change nothing else |
| PpuSpec.ScrollWritesSetT | nestadia/src/ppu/mod.rs:162-173 | two PPUSCROLL writes, X first, set t's coarse X, fine X, coarse Y and fine Y, and leave the nametable, v and the latch as they were |
| PpuSpec.LatchShared | nestadia/src/ppu/mod.rs:162-187 | PPUSCROLL and PPUADDR share the latch: after one scroll write the next address write is taken as the low byte and loads v |
| PpuSpec.StatusReadEndsVblank | nestadia/src/ppu/mod.rs:247-259 | a PPUSTATUS read reports the vblank bit, then clears it and the write latch, and keeps the other status bits, v and t |
| PpuSpec.BufferedReadsLag | nestadia/src/ppu/mod.rs:265-285 | buffered PPUDATA reads lag by one: a read returns the old buffer and the next one returns what it fetched |
| PpuSpec.DataStepAdvances | nestadia/src/ppu/mod.rs:517-522 | a PPUDATA access moves v by 1, or by 32 with PPUCTRL bit 2, modulo $8000, and changes nothing else |
| PpuSpec.CtrlWriteNmi | nestadia/src/ppu/mod.rs:121-143 | a PPUCTRL write raises the NMI exactly when it turns GENERATE_NMI on during vblank, and sets t's nametable to its low two bits, keeping coarse X and Y |
| PpuSpec.DotStep | nestadia/src/ppu/mod.rs:330-348 | one dot: the dot counter counts to 340, then the next scanline starts; after line 260 the pre-render line starts, at dot 1 on odd frames with rendering on, and the parity flips |
| PpuSpec.NewLine | nestadia/src/ppu/mod.rs:333-363 | a new scanline starts exactly after dot 340 |
| PpuSpec.DotStepsAdd | nestadia/src/ppu/mod.rs:330-348 | a + b dots are a dots then b dots |
| PpuSpec.DotsWithinLine | nestadia/src/ppu/mod.rs:330-332 | inside one scanline the dot counter just counts |
| PpuSpec.LineDots | nestadia/src/ppu/mod.rs:330-336 | a scanline other than the last is 341 dots |
| PpuSpec.LinesDots | nestadia/src/ppu/mod.rs:330-336 | n scanlines from dot 0 are 341 * n dots |
| PpuSpec.LastLineDots | nestadia/src/ppu/mod.rs:337-348 | the last line wraps to the pre-render line, skipping dot 0 on odd frames with rendering on, and flips the parity |
| PpuSpec.FrameDots | nestadia/src/ppu/mod.rs:330-348 | a frame is 262 lines of 341 dots from one pre-render line to the next, one dot shorter on odd frames with rendering on |
| PpuSpec.PipelineBit | nestadia/src/ppu/mod.rs:524-532 | the bit fine X selects is bit 15 - fine X of the shift register |
| PpuSpec.BackgroundPaletteIndex | nestadia/src/ppu/mod.rs:536-540 | a background pixel uses entry 0 exactly when its pattern is 0, otherwise entry 4 * palette + pattern |
| PpuSpec.BackgroundPixelOf | nestadia/src/ppu/mod.rs:524-546 | the background pixel is transparent exactly when its pattern bits are 0, and then shows the backdrop colour, entry 0 |
| PpuSpec.AttributeBits | nestadia/src/ppu/mod.rs:639-648 | the tile's two palette bits are the attribute byte's pair for its 2x2-tile quadrant |
| PpuSpec.Spread | nestadia/src/ppu/mod.rs:650-652 | a palette bit covers all eight pixels of a tile |
| PpuSpec.TileAddress | nestadia/src/ppu/mod.rs:604 | the nametable byte is in $2000-$2FFF at v's low 12 bits |
| PpuSpec.AttributeAddress | nestadia/src/ppu/mod.rs:609-612 | the attribute byte is at $23C0 + $400 * nametable + 8 * (coarse Y / 4) + coarse X / 4 |
| PpuSpec.BackgroundPatternAddress | nestadia/src/ppu/mod.rs:617-630 | the pattern byte is at table base + 16 * tile + 8 for the high plane + fine Y |
| PpuSpec.SpritePattern | nestadia/src/ppu/mod.rs:577-580 | a sprite's 2-bit pattern takes bit 0 from each shift register |
| PpuSpec.SpritePaletteIndex | nestadia/src/ppu/mod.rs:583-584 | an opaque sprite pixel uses one of the entries $11-$1F |
| PpuSpec.SpritePixelFields | nestadia/src/ppu/mod.rs:573-586 | an opaque sprite pixel takes its colour from its sprite palette entry, its priority from attribute bit 5, and is sprite 0's exactly when its slot is 0 |
| PpuSpec.SpritePaletteEntry | nestadia/src/ppu/mod.rs:583-584 | the entry is $10 + 4 * attribute palette + pattern, never a backdrop mirror |
| PpuSpec.ScanFindsNone | nestadia/src/ppu/mod.rs:548-598 | scanning the first n sprites finds no pixel exactly when none of them renders an opaque bit |
| PpuSpec.ScanFindsFirst | nestadia/src/ppu/mod.rs:548-598 | scanning the first n sprites finds the pixel of the lowest-numbered opaque one |
| PpuSpec.SpritePriority | nestadia/src/ppu/mod.rs:548-598 | when sprite j is opaque and no sprite before it is, the dot shows sprite j's pixel, whatever the later sprites hold |
| PpuSpec.NoSpritePixel | nestadia/src/ppu/mod.rs:548-598 | no sprite pixel shows exactly when no sprite is opaque |
| PpuSpec.SlotPixel | nestadia/src/ppu/mod.rs:562-588 | a slot shows a pixel exactly when it is rendering and its pattern bit is opaque |
| PpuSpec.StepCounters | nestadia/src/ppu/mod.rs:552-570 | the first n counters are stepped and the rest kept |
| PpuSpec.ShiftSlot | nestadia/src/ppu/mod.rs:590-591 | a rendering slot's two shift registers are shifted once, every other byte kept |
| PpuSpec.ShiftPipeline | nestadia/src/ppu/mod.rs:552-595 | the first n slots' registers are shifted if rendering, the rest kept |
| PpuSpec.StepAll | nestadia/src/ppu/mod.rs:552-570 | after a visible dot every counter is stepped |
| PpuSpec.ShiftAll | nestadia/src/ppu/mod.rs:552-595 | after a visible dot both registers of every rendering slot are shifted once |
| PpuSpec.StepCountersNext | nestadia/src/ppu/mod.rs:552-570 | stepping one more counter is the in-place update of that counter |
| PpuSpec.ShiftPipelineNext | nestadia/src/ppu/mod.rs:590-591 | shifting one more slot is the in-place update of its two registers |
| PpuSpec.Composite | nestadia/src/ppu/mod.rs:480-501 | with no sprite pixel the background shows; a sprite shows over a transparent background or when in front; a sprite behind an opaque background is hidden |
| PpuSpec.ReverseBits | nestadia/src/ppu/mod.rs:847 | reverse_bits moves bit i to bit 7 - i (also lines 880, 911, 945) |
| PpuSpec.ReverseBitsInvolution | nestadia/src/ppu/mod.rs:847 | reversing twice gives the byte back (also lines 880, 911, 945) |
| PpuSpec.SpriteRow | nestadia/src/ppu/mod.rs:843-848 | a mirrored sprite row (attribute bit 6) is kept, an unmirrored one reversed |
| PpuSpec.SmallSpriteAddress | nestadia/src/ppu/mod.rs:827-850 | in 8x8 mode the row's byte is at table base + 16 * tile + 8 for the high plane + the row, flipped by attribute bit 7 (also lines 890-914) |
| PpuSpec.FlippedSmallRow | nestadia/src/ppu/mod.rs:831-836 | a vertically flipped 8-pixel sprite counts its row from the bottom, staying below 8 |
| PpuSpec.TallSpriteAddress | nestadia/src/ppu/mod.rs:851-884 | in 8x16 mode tile bit 0 picks the table, rows 0-7 come from the even tile and 8-15 from the next, counted from the bottom when flipped (also lines 915-949) |
| PpuSpec.FetchedCounter | nestadia/src/ppu/mod.rs:809-822 | a slot won't render exactly when the scanline is not within the sprite's height below its Y |
| Sprites.StartValid | nestadia/src/ppu/mod.rs:670-675 | the state evaluation starts each scanline from (check Y, both pointers 0) is a reachable one, whatever the latch holds |
| Sprites.OamReadIndex | nestadia/src/ppu/mod.rs:685-689 | an odd evaluation dot reads OAM exactly when not idle: byte 4n while checking Y, byte 4n + m while copying, always inside the 256-byte OAM (also lines 725-728, 760-762) |
| Sprites.ByteOf | nestadia/src/ppu/mod.rs:728-762 | `(n << 2) \| m` is byte m of sprite n when m < 4 |
| Sprites.SecondaryWriteIndex | nestadia/src/ppu/mod.rs:690-732 | an even dot writes secondary OAM exactly while checking Y or copying, at 4s or 4s + m, inside the 32 bytes |
| Sprites.EvenStep | nestadia/src/ppu/mod.rs:689-722 | an even evaluation dot keeps the bounds, keeps the latch, advances the secondary pointer only after the fourth byte, leaves an idle state alone, starts copying byte 1 of a sprite in range, and reaches overflow checking only from overflow checking or after the eighth secondary slot (also lines 729-754, 763-789) |
| Sprites.OverflowNeedsEightSprites | nestadia/src/ppu/mod.rs:734-789 | after any run of even dots the bounds hold, the OAM pointer has not gone back, and overflow checking is only ever reached with eight sprites copied |
| Sprites.EmptyScanlineIdles | nestadia/src/ppu/mod.rs:715-721 | with no sprite in range, the checks walk the rest of the OAM, one sprite per even dot, and stop idle at sprite 64 (also lines 779-786) |
| Sprites.Misses | nestadia/src/ppu/mod.rs:715-721 | k checks that all miss |
| Sprites.SuccNat8 | nestadia/src/ppu/mod.rs:717-777 | incrementing a u8 below 255 adds one to its value |
| Sprites.XCounterOf | nestadia/src/ppu/mod.rs:809-822 | a slot whose sprite is not on the scanline won't render; one at X 0 starts rendering at pixel 0; one at X > 0 waits X dots |
| Sprites.XCounterStep | nestadia/src/ppu/mod.rs:552-570 | one visible dot keeps a counter in its reachable states (its effect over time is XCounterTimeline) |
| Sprites.XCounterSteps | nestadia/src/ppu/mod.rs:552-570 | k dots keep a counter in its reachable states |
| Sprites.XCounterTimeline | nestadia/src/ppu/mod.rs:552-570 | a sprite at X position x waits x dots, shows pixels 0..7 on the next eight dots, and is then done (also lines 809-822) |
| Sprites.ZeroHitNextScanline | nestadia/src/ppu/mod.rs:350-362 | at a scanline's end sprite 0 copied for the next line becomes on the current one; on the current one it stays only if it is also in the next OAM; other states are kept |
| Sprites.ZeroHitFound | nestadia/src/ppu/mod.rs:701-713 | evaluation finding sprite 0 in range marks it as in OAM when idle, or as also in the next OAM when it is on the current line; other states are kept |
| Sprites.ZeroHitTick | nestadia/src/ppu/mod.rs:365-376 | one dot counts down a hit delay, to idle at 0; other states are kept |
| Sprites.ZeroHitTwoDotsLater | nestadia/src/ppu/mod.rs:365-376 | a hit recorded with a delay of 2 raises SPRITE_ZERO_HIT on the second dot after it, not the first, and the tracker is then idle (also lines 474-477) |
| Ppu.PixelIndex | nestadia/src/ppu/mod.rs:504-515 | a visible dot's frame cell, row scanline and column dot - 1, lies inside the 256 x 240 frame |
| Ppu.DmaSlot | nestadia/src/ppu/mod.rs:224-229 | the k-th DMA byte lands at OAMADDR + k modulo 256 |
| Ppu.DmaCoversOam | nestadia/src/ppu/mod.rs:224-229 | whatever OAMADDR holds, a 256-byte DMA reaches every OAM byte |
| Ppu.WrapSucc | nestadia/src/ppu/mod.rs:160 | OAMADDR's wrapping increment is the successor modulo 256 (also line 227) |
| Ppu.Ppu.constructor | nestadia/src/ppu/mod.rs:65-105 | a new PPU has nine distinct memories of the source's sizes, every register and memory zero except the secondary OAM (0xFF), on the pre-render line |
| Ppu.Ppu.Reset | nestadia/src/ppu/mod.rs:107-109 | reset puts the PPU back into the power-up state, in place |
| Ppu.Ppu.ResetMemories | nestadia/src/ppu/mod.rs:65-105 | palette, OAM and frame are cleared to 0 and the secondary OAM to 0xFF |
| Ppu.Ppu.ResetPipelines | nestadia/src/ppu/mod.rs:65-105 | the sprite and background pipelines are cleared and every X counter set to won't render |
| Ppu.Ppu.TakeVblankNmiSetState | nestadia/src/ppu/mod.rs:111-115 | returns the pending NMI and clears it, changing nothing else |
| Ppu.Ppu.ReadyFrame | nestadia/src/ppu/mod.rs:320-327 | the frame is handed out exactly on dot 256 of scanline 239, and it is the frame memory |
| Ppu.Ppu.Write | nestadia/src/ppu/mod.rs:117-222 | a CPU write updates the registers as WriteRegister says, stores OAMDATA at OAMADDR, and for PPUDATA stores into pattern memory, a mirrored nametable or a palette entry at the old v; nothing else changes |
| Ppu.Ppu.WriteRegisters | nestadia/src/ppu/mod.rs:119-187 | a write to any register but PPUDATA: the register update WriteRegister gives, and the OAMDATA store at OAMADDR |
| Ppu.Ppu.WriteData | nestadia/src/ppu/mod.rs:188-217 | a PPUDATA write stores the byte at the old v (pattern memory through the mapper, nametable under the cartridge's mirroring, palette entry, nothing above $3F1F's mirrors) and steps v |
| Ppu.Ppu.IncrementVramAddr | nestadia/src/ppu/mod.rs:517-522 | v moves by the PPUCTRL increment, nothing else changes |
| Ppu.Ppu.Read | nestadia/src/ppu/mod.rs:231-318 | a CPU read returns what ReadValue gives (status snapshot, OAM byte at OAMADDR, buffered or palette byte) and updates the registers as ReadRegister gives, with nametables unchanged; a PPUDATA read of pattern memory has the board effect `ChrReadEffect` states, every other read leaves the boards |
| Ppu.Ppu.ReadRegisters | nestadia/src/ppu/mod.rs:233-264 | a read of any register but PPUDATA: the value and register update ReadValue and ReadRegister give |
| Ppu.Ppu.ReadData | nestadia/src/ppu/mod.rs:265-312 | a PPUDATA read returns the buffered or palette byte, refills the buffer with the byte at v and steps v, leaving the nametables as they were; a pattern-memory read clocks MMC3's counter as `ChrReadEffect` states, any other leaves the boards |
| Ppu.Ppu.FetchByte | nestadia/src/ppu/mod.rs:276-284 | the byte the read buffer takes: pattern memory through the mapper below $2000, with the board effect `ChrReadEffect` states, or the mirrored nametable byte, with the boards left alone |
| Ppu.Ppu.WriteOamDma | nestadia/src/ppu/mod.rs:224-229 | the 256 DMA bytes land in OAM from OAMADDR on, wrapping; OAMADDR ends where it started |
| Ppu.Ppu.Clock | nestadia/src/ppu/mod.rs:330-434 | one dot: the counters move as DotStep says; NMI goes up exactly on dot 1 of line 241 with GENERATE_NMI; vblank is set there and the three flags cleared on the pre-render line's dot 1; v stays put with rendering off; palette, OAM and nametables are not written; at most the dot's own frame cell changes |
| Ppu.Ppu.DrawDot | nestadia/src/ppu/mod.rs:330-398 | the first half of a dot: counters, sprite-0 delay, pre-render line, and the pixel, changing at most the dot's own frame cell |
| Ppu.Ppu.FetchDot | nestadia/src/ppu/mod.rs:399-433 | the second half of a dot: fetches (only while rendering) and the start of vblank with its NMI |
| Ppu.Ppu.StartDot | nestadia/src/ppu/mod.rs:330-395 | counters, sprite-0 delay and pre-render line: timing as DotStep, flags cleared on the pre-render dot 1, vblank otherwise kept |
| Ppu.Ppu.VblankStart | nestadia/src/ppu/mod.rs:427-433 | on line 241 dot 1 VBLANK_STARTED goes up, with the NMI when PPUCTRL asks; on any other dot nothing changes |
| Ppu.Ppu.AdvanceDot | nestadia/src/ppu/mod.rs:330-363 | the counters move one dot and, on a new scanline, the sprite-0 tracker moves as ZeroHitNextScanline says |
| Ppu.Ppu.ZeroHitDelay | nestadia/src/ppu/mod.rs:365-376 | the hit delay ticks, and SPRITE_ZERO_HIT goes up when it runs out |
| Ppu.Ppu.PreRenderLine | nestadia/src/ppu/mod.rs:378-395 | the pre-render line clears the three flags on dot 1 and copies t's vertical bits into v on dots 280-304 with rendering on |
| Ppu.Ppu.PreRenderRegs | nestadia/src/ppu/mod.rs:378-395 | the flags cleared on dot 1 and CopyY on dots 280-304; only status and v ever change |
| Ppu.Ppu.Fetches | nestadia/src/ppu/mod.rs:399-425 | the fetches change the registers only while rendering, at most by raising SPRITE_OVERFLOW on a visible line and moving v |
| Ppu.Ppu.SpriteFetches | nestadia/src/ppu/mod.rs:399-410 | the pre-render line parks every X counter at won't render; the status changes at most by SPRITE_OVERFLOW |
| Ppu.Ppu.BackgroundFetches | nestadia/src/ppu/mod.rs:411-424 | only v changes: CopyX on dot 257, fetch-cycle steps on dots 1-256 and 321-336, nothing elsewhere |
| Ppu.Ppu.ShiftBackground | nestadia/src/ppu/mod.rs:412-416 | the four background shift registers move one pixel left |
| Ppu.Ppu.RenderPixel | nestadia/src/ppu/mod.rs:436-502 | a visible dot writes the composited, greyscaled colour of the shown background and sprite pixels into its own frame cell and records a sprite-0 overlap; the sprites step only while shown |
| Ppu.Ppu.ShownSpritePixel | nestadia/src/ppu/mod.rs:461-477 | the sprite pixel is taken (and the sprites stepped) only with SHOW_SPRITES, and it is dropped in the leftmost 8 columns unless LEFTMOST_8PXL_SPRITE |
| Ppu.Ppu.DrawPixel | nestadia/src/ppu/mod.rs:479-501 | the frame cell takes Composite of the two pixels, greyscaled, and an opaque sprite 0 over an opaque background starts the hit delay |
| Ppu.Ppu.SetPixel | nestadia/src/ppu/mod.rs:504-515 | one frame cell takes the colour, greyscaled when the mask says so |
| Ppu.Ppu.GetSpritePixel | nestadia/src/ppu/mod.rs:548-598 | returns the first opaque sprite's pixel, after stepping all eight counters and shifting every rendering sprite |
| Ppu.Ppu.StepSprite | nestadia/src/ppu/mod.rs:552-595 | one sprite's counter steps, and its shift registers shift while it renders |
| Ppu.Ppu.ShiftSprite | nestadia/src/ppu/mod.rs:590-591 | one sprite's two shift registers move one pixel right |
| Ppu.Ppu.BgLoadCycle | nestadia/src/ppu/mod.rs:600-666 | the eight-dot fetch cycle: nametable byte, attribute byte, low and high pattern planes into their latches; the eighth dot feeds the shift registers with the planes and the quadrant's palette bits and moves v one tile right (and at dot 256 one row down); the pattern reads on the sixth and eighth dots have the board effect `ChrReadEffect` states, the other dots leave the boards |
| Ppu.Ppu.BgPhase | nestadia/src/ppu/mod.rs:601 | the dot's place in the eight-dot fetch cycle |
| Ppu.Ppu.FetchHighPlane | nestadia/src/ppu/mod.rs:624-662 | the high plane is latched, both planes and the palette bits fed, v stepped |
| Ppu.Ppu.NextTile | nestadia/src/ppu/mod.rs:658-662 | v moves one tile right and at dot 256 one row down as well |
| Ppu.Ppu.LatchHighPlane | nestadia/src/ppu/mod.rs:624-633 | the high plane is read through the mapper into its latch, with the board effect `ChrReadEffect` states; nothing else changes |
| Ppu.Ppu.FeedBackground | nestadia/src/ppu/mod.rs:634-656 | the planes go into the low bytes of the pattern shift registers and the quadrant's palette bits, spread over 8 pixels, into the palette ones |
| Ppu.Ppu.SpritesLoadCycle | nestadia/src/ppu/mod.rs:668-956 | dot 0 starts evaluation, dots 1-64 clear the secondary OAM to 0xFF, dots 65-256 evaluate as Evaluated says, dots 257-320 fetch; the status changes at most by SPRITE_OVERFLOW |
| Ppu.Ppu.EvaluationCycle | nestadia/src/ppu/mod.rs:682-791 | odd dots latch the OAM byte under the pointers, even dots take the step EvenStep gives |
| Ppu.Ppu.EvaluationRead | nestadia/src/ppu/mod.rs:685-689 | an odd evaluation dot latches the OAM byte OamReadIndex names, nothing else changes (also lines 725-728, 760-762) |
| Ppu.Ppu.EvaluationWrite | nestadia/src/ppu/mod.rs:689-722 | an even dot stores the latch at SecondaryWriteIndex, moves on as EvenStep says, marks sprite 0 and raises SPRITE_OVERFLOW on an overflow hit (also lines 729-754, 763-789) |
| Ppu.Ppu.FetchCycle | nestadia/src/ppu/mod.rs:792-953 | eight dots per slot: Y and tile into the latches, attributes, X counter, then the low and high pattern plane rows into the slot's shift registers |
| Ppu.Ppu.Slot | nestadia/src/ppu/mod.rs:793 | the slot a fetch dot works on is one of the eight |
| Ppu.Ppu.FetchSpritePlane | nestadia/src/ppu/mod.rs:823-953 | one plane of the slot's row, read through the mapper and mirrored as its attributes say, goes into its shift register, with the board effect `ChrReadEffect` states |
| LegacyPpu.NextLine | nestadia-core/src/ppu/mod.rs:275-290 | the line after 260 is the pre-render line -1; every other line is followed by the next |
| LegacyPpu.Tick | nestadia-core/src/ppu/mod.rs:268-290 | one clock moves the dot on, and after dot 340 goes to dot 0 of the next line |
| LegacyPpu.ReadyAfterLastDot | nestadia-core/src/ppu/mod.rs:258-290 | the frame is ready after a clock exactly when that clock left the last dot of line 260 |
| LegacyPpu.TicksAdd | nestadia-core/src/ppu/mod.rs:268-290 | a + b clocks are a clocks then b clocks |
| LegacyPpu.RestOfLine | nestadia-core/src/ppu/mod.rs:268-290 | from dot c a line ends after 341 - c clocks, at dot 0 of the next line |
| LegacyPpu.Lines | nestadia-core/src/ppu/mod.rs:275-290 | k lines later is still a line of -1..260 |
| LegacyPpu.WholeLines | nestadia-core/src/ppu/mod.rs:268-290 | 341 * k clocks from dot 0 go k lines on |
| LegacyPpu.LinesToPreRender | nestadia-core/src/ppu/mod.rs:286-290 | 261 - s lines after line s comes the pre-render line |
| LegacyPpu.FramePeriod | nestadia-core/src/ppu/mod.rs:258-290 | 341 * 262 clocks from the frame-ready dot come back to it |
| LegacyPpu.ScrollWritten | nestadia-core/src/ppu/mod.rs:126-129 | a PPUSCROLL write sets X, or Y when the latch says so, and flips the latch |
| LegacyPpu.ScrollPair | nestadia-core/src/ppu/mod.rs:126-129 | after a latch reset two writes set X and Y and leave the latch where it started (also lines 202-203) |
| LegacyPpu.ControlWritten | nestadia-core/src/ppu/mod.rs:87-107 | the byte becomes PPUCTRL, and an NMI is latched exactly when GENERATE_NMI goes from off to on while vblank is flagged |
| LegacyPpu.ControlRewriteLatchesNothing | nestadia-core/src/ppu/mod.rs:87-107 | with GENERATE_NMI already on a PPUCTRL write latches no NMI |
| LegacyPpu.StatusSnapshot | nestadia-core/src/ppu/mod.rs:193-197 | PPUSTATUS reads the three flags over the low five bits of the last fetched byte |
| LegacyPpu.StatusCleared | nestadia-core/src/ppu/mod.rs:199-203 | a status read clears vblank, keeps the other flags, and resets the scroll latch |
| LegacyPpu.Step | nestadia-core/src/ppu/mod.rs:498-505 | the address step is vram_addr_increment: 32 with PPUCTRL bit 2, else 1 |
| LegacyPpu.AfterZeroHitTest | nestadia-core/src/ppu/mod.rs:271-274 | a hit raises SPRITE_ZERO_HIT, keeps vblank and the low bits; no hit changes nothing |
| LegacyPpu.EnterVblank | nestadia-core/src/ppu/mod.rs:280-283 | line 241 flags vblank and clears the sprite-0 hit |
| LegacyPpu.LeaveVblank | nestadia-core/src/ppu/mod.rs:286-292 | line 261 clears vblank only |
| LegacyPpu.LineEnd | nestadia-core/src/ppu/mod.rs:270-295 | the end of a line changes only the status and the NMI latch |
| LegacyPpu.ClockRegs | nestadia-core/src/ppu/mod.rs:268-300 | a clock changes the registers only at the end of a line, and only the flags and the NMI latch |
| LegacyPpu.ClockEntersVblank | nestadia-core/src/ppu/mod.rs:280-285 | entering line 241 flags vblank, clears sprite-0 hit and latches an NMI exactly when GENERATE_NMI is on |
| LegacyPpu.ClockLeavesVblank | nestadia-core/src/ppu/mod.rs:286-292 | leaving line 260 clears vblank |
| LegacyPpu.ClockLatchesNmiOnlyAtVblank | nestadia-core/src/ppu/mod.rs:268-300 | no other clock latches an NMI |
| LegacyPpu.ClockOtherLines | nestadia-core/src/ppu/mod.rs:270-274 | the end of any other line runs only the sprite-0 test (also lines 486-496) |
| LegacyPpu.ClockKeepsStatus | nestadia-core/src/ppu/mod.rs:268-300 | a clock keeps only the three flags set and vblank flagged only on lines 241-260 |
| LegacyPpu.PaletteWriteIndex | nestadia-core/src/ppu/mod.rs:154-158 | a palette write lands in one of 32 entries: $3F10/14/18/1C on the background backdrops, any other address at its offset mod 32 |
| LegacyPpu.PaletteReadIndexAsWritten | nestadia-core/src/ppu/mod.rs:242-246 | the read index as written: the same entry as the write up to $3F1F, with no mod 32 beyond |
| LegacyPpu.PaletteReadOverruns | nestadia-core/src/ppu/mod.rs:246 | a read of $3F20 indexes entry 32, past the end, where the write to $3F20 lands on entry 0 |
| LegacyPpu.PaletteReadIndex | nestadia-core/src/ppu/mod.rs:154-158 | the corrected read index: always one of the 32 entries, equal to the as-written index where that is in range, and the entry a write to the same address stores to (also lines 242-246) |
| LegacyPpu.BackdropAliases | nestadia-core/src/ppu/mod.rs:154-157 | each sprite backdrop address is the background entry 16 below it |
| LegacyPpu.NametableBase | nestadia-core/src/ppu/mod.rs:348 | the base is one of $2000, $2400, $2800, $2C00 |
| LegacyPpu.AttributeAddress | nestadia-core/src/ppu/mod.rs:347-359 | the attribute byte lies in the 64 bytes of the quadrant's attribute table, in nametable space |
| LegacyPpu.QuadrantOffset | nestadia-core/src/ppu/mod.rs:350-356 | the quadrant's attribute table is at $3C0, $7C0, $BC0 or $FC0 |
| LegacyPpu.AttributePalette | nestadia-core/src/ppu/mod.rs:360-369 | a tile's palette is a 2-bit number |
| LegacyPpu.AttributeQuadrants | nestadia-core/src/ppu/mod.rs:360-369 | the four 2 x 2 quadrants' palettes are the four bit pairs of the attribute byte and together give it back |
| LegacyPpu.Ppu.constructor | nestadia-core/src/ppu/mod.rs:42-60 | a new PPU has three distinct memories of the source's sizes, all zero, zeroed registers, dot 0 of line 0 |
| LegacyPpu.Ppu.Reset | nestadia-core/src/ppu/mod.rs:62-75 | everything but the last fetched byte goes back to its power-up value |
| LegacyPpu.Ppu.TakeVblankNmiSetState | nestadia-core/src/ppu/mod.rs:77-81 | returns the NMI latch and clears it, nothing else changes |
| LegacyPpu.Ppu.ReadyFrame | nestadia-core/src/ppu/mod.rs:258-266 | the frame is handed out exactly on dot 0 of the pre-render line |
| LegacyPpu.Ppu.Write | nestadia-core/src/ppu/mod.rs:83-167 | a write to any register but PPUDATA changes registers, OAM and the address as RegisterWritten says and no memory; a PPUDATA write stores at the old address and steps it |
| LegacyPpu.Ppu.WriteRegister | nestadia-core/src/ppu/mod.rs:87-133 | PPUCTRL with its NMI latch, PPUMASK, nothing for PPUSTATUS, OAMADDR, OAMDATA at OAMADDR then OAMADDR + 1, PPUSCROLL, PPUADDR loading the address |
| LegacyPpu.Ppu.WriteData | nestadia-core/src/ppu/mod.rs:134-161 | the byte goes to pattern memory, a mirrored nametable, nothing for $3000-$3EFF, or a palette entry, and the address steps |
| LegacyPpu.Ppu.IncrementVramAddr | nestadia-core/src/ppu/mod.rs:498-505 | the address moves on by the PPUCTRL step, wrapping as VramAddr.inc does; the latch is kept |
| LegacyPpu.Ppu.WriteOamDma | nestadia-core/src/ppu/mod.rs:169-175 | the 256 bytes land in OAM from OAMADDR on, wrapping; registers end where they started |
| LegacyPpu.Ppu.Read | nestadia-core/src/ppu/mod.rs:177-256 | a read of $2000-$3FFF mirrored every 8: status snapshot with its clearing, OAM byte, 0 for write-only registers, or the PPUDATA read |
| LegacyPpu.Ppu.ReadRegister | nestadia-core/src/ppu/mod.rs:182-210 | only PPUSTATUS and OAMDATA are readable; a status read clears vblank and both latches, an OAM read changes nothing |
| LegacyPpu.Ppu.ReadData | nestadia-core/src/ppu/mod.rs:211-250 | the address steps; below $3000 the read returns the byte the previous read fetched and fetches the byte at the address; $3000-$3EFF reads 0; the palette is read directly (at the corrected index); a pattern read clocks MMC3's counter as `ChrReadEffect` states, any other leaves the boards |
| LegacyPpu.Ppu.Clock | nestadia-core/src/ppu/mod.rs:268-302 | one clock: the position ticks, the registers change as ClockRegs says, and the scanline IRQ is ticked exactly at the end of a line |
| LegacyPpu.Ppu.BgPalette | nestadia-core/src/ppu/mod.rs:346-379 | the backdrop colour, then the three colours of the palette the attribute byte gives the tile |
| Bus.RamIndex | nestadia/src/bus.rs:73-79 | the RAM cell is below RAM_SIZE and is the address itself below 0x800 |
| Bus.RamMirrors | nestadia/src/bus.rs:73-79 | addresses a multiple of 0x800 apart reach the same RAM cell |
| Bus.NameTableOffset | nestadia/src/bus.rs:178-179 | the offset into the nametable region is addr & 0xFFF, below 0x1000 |
| Bus.HorizontalIndex | nestadia/src/bus.rs:181-187 | below 0x800, keeps the low 10 bits, and lands in the second 1 KB iff the offset is in $2800-$2FFF |
| Bus.VerticalIndex | nestadia/src/bus.rs:188-192 | the offset's low 11 bits |
| Bus.OneScreenLowerIndex | nestadia/src/bus.rs:194-200 | the offset's low 10 bits, always below 0x400 |
| Bus.OneScreenUpperIndex | nestadia/src/bus.rs:201-207 | 0x400 plus the offset's low 10 bits, always in 0x400-0x7FF |
| Bus.MirrorNameTables | nestadia/src/bus.rs:177-209 | every mirroring yields an index below 4096 |
| Bus.MirrorMasks | nestadia/src/bus.rs:188-199 | four-screen keeps the low 12 bits, vertical the low 11, one-screen lower the low 10 |
| Bus.HorizontalSharing | nestadia/src/bus.rs:181-187 | $2000 and $2400 share the first 1 KB, $2800 and $2C00 the second |
| Bus.VerticalSharing | nestadia/src/bus.rs:188-192 | $2000 shares with $2800 and $2400 with $2C00 |
| Bus.MirrorFolds | nestadia/src/bus.rs:178 | an address with bit 13 set folds onto $2000-$2FFF by & 0x2FFF and reaches the same cell (so $6305 reads $2305) |
| Bus.TopBit | nestadia/src/bus.rs:111 | bit 7 of the snapshot, as 0 or 1 |
| Bus.LiveBit | nestadia/src/bus.rs:109 | `controller & 0x80 >> 7` parses as `controller & 1`: bit 0 of the live byte |
| Bus.SerialOut | nestadia/src/bus.rs:107-115 | the n bits that n reads with the strobe low return |
| Bus.ShlStep | nestadia/src/bus.rs:112 | shifting once more is the next shift count |
| Bus.ShlBit | nestadia/src/bus.rs:111-112 | bit 7 after i shifts is bit 7 - i of the snapshot, and 0 from the eighth shift |
| Bus.SerialOutBits | nestadia/src/bus.rs:107-125 | read i of a transfer returns bit 7 - i of the latched byte (A, B, Select, Start, Up, Down, Left, Right) and 0 after the eighth |
| Bus.SerialOutShl | nestadia/src/bus.rs:107-115 | read i returns the top bit of the snapshot shifted i times |
| Bus.Controllers.constructor | nestadia/src/lib.rs:58-62 | both pads, both snapshots and the strobe start cleared |
| Bus.Controllers.Write | nestadia/src/bus.rs:101-105 | the strobe follows data bit 0 and both snapshots latch the live bytes, which are kept |
| Bus.Controllers.Read1 | nestadia/src/bus.rs:107-115 | strobe high: LiveBit of pad 1, no shift; strobe low: TopBit of the snapshot and the snapshot shifts left; nothing else changes |
| Bus.Controllers.Read2 | nestadia/src/bus.rs:117-125 | the same for pad 2 |
| Bus.PpuBus.constructor | nestadia/src/bus.rs:145-151 | a PPU bus over the given cartridge and nametable array |
| Bus.PpuBus.WriteNameTables | nestadia/src/bus.rs:172-174 | exactly the mirrored cell changes, and the address then reads back the byte |
| Bus.PpuBus.ReadChrMem | nestadia/src/bus.rs:158-161 | returns the cartridge's CHR byte, nametables unchanged; on MMC3 the scanline counter is clocked from address line 12 (`Mapper004.A12`) with the banks kept, and every other board stays as it was (`Cartridge.Cartridge.ChrReadEffect`) |
| Bus.PpuBus.WriteChrMem | nestadia/src/bus.rs:163-166 | CHR memory changes exactly at the mapped index, or not at all when the board refuses |
| CpuBus.PageAddr | nestadia-core/src/cpu/mod.rs:1534-1537 | byte k of DMA page p is at (p << 8) + k: high byte p, low byte k |
| CpuBus.QuietPageReads | nestadia-core/src/cpu/mod.rs:1536-1538 | every address of a quiet page is a quiet read |
| CpuBus.ControllerBit | nestadia/src/bus.rs:107-125 | a controller read returns 0 or 1 |
| CpuBus.CpuBus.constructor | nestadia/src/bus.rs:45-69 | the bus over the given RAM, controllers, PPU and PPU bus |
| CpuBus.CpuBus.PeekCartridge | nestadia-core/src/cpu/mod.rs:1570 | from $4020 up a read is the cartridge's read_prg_mem |
| CpuBus.CpuBus.Read | nestadia-core/src/cpu/mod.rs:1560-1572 | the value is Peek of the old state (RAM at addr & 0x7FF, PPU register, controller bit, 0 for $4000-$401F, cartridge); quiet reads change nothing, PPU reads apply ReadRegister, controller reads shift only that pad's snapshot when the strobe is low |
| CpuBus.CpuBus.Write | nestadia-core/src/cpu/mod.rs:1526-1558 | RAM at addr & 0x7FF only; PPU registers by WriteRegister, with the OAMDATA byte stored at OAMADDR, the PPUDATA byte stored at the old v (`Ppu.Ppu.DataWritten`: pattern memory through the mapper, the mirrored nametable cell or the palette entry), and palette, nametables and CHR untouched by every other register; $4014 copies the page into OAM from OAMADDR; $4016/$4017 strobe and latch; $4020 up only the cartridge board changes; the APU and disabled I/O ranges change nothing |
| CpuBus.CpuBus.OamDma | nestadia-core/src/cpu/mod.rs:1532-1540 | for a quiet page, OAM slot (OAMADDR + k) mod 256 receives byte k of the page, and nothing else changes |
| CpuBus.CpuBus.ReadPage | nestadia-core/src/cpu/mod.rs:1534-1538 | 256 bytes read in order through the bus; for a quiet page, byte k is the old Peek of page address k and nothing changes |
| CpuBus.CpuBus.ResetPpu | nestadia/src/lib.rs:119-125 | the PPU is back in its power-up state; RAM, pads, nametables and cartridge are unchanged |
| CpuBus.CpuBus.ClockPpu | nestadia/src/lib.rs:79 | the dot advances by DotStep; the NMI latch is set iff it was, or the dot entered vblank with GENERATE_NMI set; RAM, pads and nametables are unchanged |
| CpuBus.CpuBus.TakeNmi | nestadia/src/lib.rs:89 | returns the NMI latch and clears it, timing kept |
| CpuBus.CpuBus.TakeCartridgeIrq | nestadia/src/lib.rs:94 | returns the MMC3 IRQ flag (false on other boards) and leaves the PPU alone |
| Opcodes.Groups | nestadia-core/src/cpu/mod.rs:105-919 | every operation of the interpreter's dispatch falls in exactly one of six groups: read, read-modify-write, store, branch, register-only, control |
| Opcodes.GroupModes | nestadia-core/src/cpu/mod.rs:120-919 | the addressing modes each group uses in the dispatch: reads take an immediate or memory operand, modify instructions the accumulator (only ASL, ROL, LSR, ROR) or memory, stores memory, branches exactly the relative mode, register-only instructions the implied mode, and indirect mode only JMP |
| Opcodes.Decoded | nestadia-core/src/cpu/mod.rs:106-117 | an opcode byte the table does not know decodes to NOP; a known one decodes to its table entry |
| Opcodes.RequiredBytes | nestadia/src/cpu/disassembler.rs:25-41 | operand bytes per addressing mode: at most 2, none exactly for accumulator and implied, two exactly for absolute, absolute-indexed and indirect |
| Opcodes.Mnemonic | nestadia/src/cpu/disassembler.rs:71-110 | every mnemonic is three lower-case letters |
| Alu.SetFlag | nestadia-core/src/cpu/mod.rs:16-27 | setting a status flag gives it the requested value and leaves every other bit |
| Alu.WithZN | nestadia-core/src/cpu/mod.rs:1288-1297 | Z is set iff the result is zero, N iff its bit 7 is set, every other bit stays |
| Alu.CarryIn | nestadia-core/src/cpu/mod.rs:1028-1034 | the carry addend is 1 exactly when C is set, else 0 |
| Alu.Signed | nestadia-core/src/cpu/mod.rs:1041-1043 | the two's-complement reading of a byte lies in -128..127 |
| Alu.ArithmeticStatus | nestadia-core/src/cpu/mod.rs:1036-1052 | the status ADC leaves: C and V as computed, Z and N from the result, I, D, B and U unchanged |
| Alu.WideAdd | nestadia-core/src/cpu/mod.rs:1028-1034 | the 16-bit sum of A, the operand and the carry equals their integer sum (it never wraps) |
| Alu.AdcSum | nestadia-core/src/cpu/mod.rs:1025-1053 | the byte ADC stores is the 16-bit sum modulo 256, and the sum exceeds 0xFF iff it exceeds 255 as an integer |
| Alu.AdcArithmetic | nestadia-core/src/cpu/mod.rs:1025-1053 | ADC stores (A + op + C) mod 256, sets C iff that sum exceeds 0xFF, V iff the signed sum leaves -128..127, Z and N from the result, and keeps I, D, B and U |
| Alu.AdcOverflow | nestadia-core/src/cpu/mod.rs:1041-1043 | the bit rule for V holds iff the signed sum of A, op and C is outside -128..127 |
| Alu.OverflowRule | nestadia-core/src/cpu/mod.rs:1041-1043 | for any byte equal to the sum modulo 256, the sign-bit overflow rule is equivalent to signed overflow |
| Alu.SbcArithmetic | nestadia-core/src/cpu/mod.rs:1418-1421 | SBC stores (A - op - borrow) mod 256, sets C iff no borrow is needed, V iff the signed difference leaves -128..127, Z and N from the result, and keeps I, D, B and U |
| Alu.Complement | nestadia-core/src/cpu/mod.rs:1418-1421 | the one's complement SBC adds is 255 - b unsigned and -1 - b signed |
| Alu.Compare | nestadia-core/src/cpu/mod.rs:1171-1205 | CMP, CPX and CPY set C iff register >= operand unsigned, Z iff they are equal, N from bit 7 of the wrapped difference, and keep every other bit |
| Alu.CompareFlags | nestadia-core/src/cpu/mod.rs:1171-1182 | the source's own bit-level compare sets the same C, Z and N and keeps the other bits |
| Alu.CompareIsSubtraction | nestadia-core/src/cpu/mod.rs:1171-1182 | compare sets C, Z and N exactly as SBC with the carry set would, and leaves V where SBC may change it (also lines 1418-1421) |
| Alu.SbcWithCarry | nestadia-core/src/cpu/mod.rs:1418-1421 | SBC with carry set stores register - operand with wraparound, sets C iff no borrow, and Z and N from the result |
| Alu.BitTest | nestadia-core/src/cpu/mod.rs:1097-1105 | BIT sets Z iff A & op is zero, V from bit 6 and N from bit 7 of the operand, and keeps every other bit |
| Alu.AslDoubles | nestadia-core/src/cpu/mod.rs:1065-1077 | ASL doubles the operand modulo 256 and carries out bit 7 |
| Alu.LsrHalves | nestadia-core/src/cpu/mod.rs:1318-1328 | LSR halves the operand, rounding down, and carries out bit 0 |
| Alu.RorUndoesRol | nestadia-core/src/cpu/mod.rs:1367-1402 | ROR applied after ROL gives back the byte and the carry |
| Alu.RolUndoesRor | nestadia-core/src/cpu/mod.rs:1367-1402 | ROL applied after ROR gives back the byte and the carry |
| Alu.IncDecInverse | nestadia-core/src/cpu/mod.rs:1207-1254 | DEC undoes INC and INC undoes DEC on the byte; INC adds one modulo 256 |
| Alu.Pulled | nestadia-core/src/cpu/mod.rs:1361-1412 | a status pulled by PLP or RTI has B clear and U set, with every other bit from the byte pulled |
| Alu.PushPullStatus | nestadia-core/src/cpu/mod.rs:67-103 | a status pushed by PHP, BRK, IRQ or NMI and pulled again comes back with B clear, U set and every other flag as it was (also lines 1125-1142, 1344-1366) |
| CpuSpec.Word | nestadia-core/src/cpu/mod.rs:943-947 | a little-endian word built from two bytes gives those bytes back as its low and high byte |
| CpuSpec.WordOfBytes | nestadia-core/src/cpu/mod.rs:943-947 | any word is rebuilt exactly from its low and high byte |
| CpuSpec.WordValue | nestadia-core/src/cpu/mod.rs:943-947 | the value of the word is low + 256 * high |
| CpuSpec.ZeroPage | nestadia-core/src/cpu/mod.rs:928-931 | the zero-page address lies in page 0 and its low byte is the operand |
| CpuSpec.ZeroPageIndexed | nestadia-core/src/cpu/mod.rs:933-941 | the zp,X / zp,Y address lies in page 0 and its low byte is operand + index, wrapping |
| CpuSpec.ZeroPageIndexedValue | nestadia-core/src/cpu/mod.rs:933-941 | the zp,X / zp,Y address is (operand + index) mod 256 |
| CpuSpec.Indexed | nestadia-core/src/cpu/mod.rs:949-971 | the low byte of an indexed address is the base's low byte plus the index, wrapping (also lines 997-1010) |
| CpuSpec.IndexedCrossing | nestadia-core/src/cpu/mod.rs:954-1008 | indexing changes the page exactly when the base's low byte plus the index exceeds 255 |
| CpuSpec.IndirectHigh | nestadia-core/src/cpu/mod.rs:973-985 | JMP (ind) reads the target's high byte inside the pointer's page, from the next low byte, which is the next address unless the pointer ends in 0xFF |
| CpuSpec.IndirectXLow | nestadia-core/src/cpu/mod.rs:987-995 | (zp,X) reads its pointer low byte from page 0 at operand + X, wrapping |
| CpuSpec.IndirectXHigh | nestadia-core/src/cpu/mod.rs:987-995 | (zp,X) reads its pointer high byte from page 0 one after the low byte, wrapping |
| CpuSpec.IndirectYLow | nestadia-core/src/cpu/mod.rs:997-1002 | (zp),Y reads its pointer low byte from page 0 at the operand |
| CpuSpec.IndirectYHigh | nestadia-core/src/cpu/mod.rs:997-1002 | (zp),Y reads its pointer high byte from page 0 at operand + 1, wrapping |
| CpuSpec.SignExtend | nestadia-core/src/cpu/mod.rs:1012-1022 | the relative offset keeps its byte as the low byte and fills the high byte from the sign bit |
| CpuSpec.SignExtendValue | nestadia-core/src/cpu/mod.rs:1012-1022 | the sign-extended offset is the signed byte modulo 65536 |
| CpuSpec.BranchCycles | nestadia-core/src/cpu/mod.rs:1512-1523 | a taken branch adds one cycle, and two exactly when the target is on another page |
| CpuSpec.BranchPairs | nestadia-core/src/cpu/mod.rs:1079-1154 | BPL/BMI, BVC/BVS, BCC/BCS and BNE/BEQ each test one flag in opposite senses: exactly one of each pair is taken |
| CpuSpec.StackAddr | nestadia-core/src/cpu/mod.rs:1502-1510 | the stack cell for SP lies in page 1 with SP as its low byte, and is RAM cell 0x100 + SP |
| CpuSpec.PushRam | nestadia-core/src/cpu/mod.rs:1502-1505 | a push keeps the 2 KB RAM size |
| CpuSpec.PushThenPop | nestadia-core/src/cpu/mod.rs:1502-1510 | a pop after a push returns the pushed byte and restores SP |
| CpuSpec.PushFootprint | nestadia-core/src/cpu/mod.rs:1502-1505 | a push leaves every RAM cell but 0x100 + SP unchanged |
| CpuSpec.PushesApart | nestadia-core/src/cpu/mod.rs:1502-1510 | two successive pushes are popped back in reverse order, neither overwriting the other |
| CpuSpec.JsrThenRts | nestadia-core/src/cpu/mod.rs:1279-1287 | the return address JSR pushes, popped by RTS and incremented, is the address after the JSR, and SP is restored (also lines 1413-1416) |
| CpuSpec.PushFrame | nestadia-core/src/cpu/mod.rs:67-103 | an interrupt frame keeps the 2 KB RAM size (also lines 1125-1142) |
| CpuSpec.InterruptThenRti | nestadia-core/src/cpu/mod.rs:67-103 | RTI pops the status and the PC an interrupt or BRK pushed, and SP is back where it was (also lines 1404-1411) |
| CpuSpec.PushChangesOneCell | nestadia-core/src/cpu/mod.rs:1502-1505 | a push stores the byte at cell 0x100 + SP and leaves every other cell |
| CpuSpec.ReadStep | nestadia-core/src/cpu/mod.rs:1055-1063 | a read instruction never touches SP, PC or the cycle count; compares and BIT change only the status; the accumulator instructions keep X and Y; LDX and LDY keep A (also lines 1097-1105, 1171-1205, 1236-1244, 1288-1317, 1330-1338) |
| CpuSpec.Loads | nestadia-core/src/cpu/mod.rs:1288-1317 | LDA, LDX and LDY put the operand in their register and set Z and N from it |
| CpuSpec.Compares | nestadia-core/src/cpu/mod.rs:1097-1105 | CMP, CPX, CPY and BIT change only the status, as Compare and BitTest give it, on A, X or Y (also lines 1171-1205) |
| CpuSpec.ModifyStep | nestadia-core/src/cpu/mod.rs:1207-1254 | INC and DEC change only Z and N of the status |
| CpuSpec.RegisterStep | nestadia-core/src/cpu/mod.rs:1155-1170 | a register-only instruction never touches PC or the cycle count, only TXS changes SP, and the flag instructions and NOP keep A, X and Y (also lines 1216-1235, 1255-1274, 1423-1434, 1447-1500) |
| CpuSpec.FlagInstructions | nestadia-core/src/cpu/mod.rs:1155-1170 | CLC/SEC, CLD/SED, CLI/SEI and CLV clear or set exactly their own flag (also lines 1423-1434) |
| CpuSpec.InterruptStatus | nestadia-core/src/cpu/mod.rs:67-103 | after IRQ or NMI, I is set, B clear and U set, every other flag as it was |
| CpuSpec.BrkStatus | nestadia-core/src/cpu/mod.rs:1125-1142 | after BRK, I is set and B clear, every other flag as it was |
| CpuStep.OffsetCrossing | nestadia-core/src/cpu/mod.rs:949-971 | the extra-cycle flag of abs,X, abs,Y and (zp),Y is set exactly when the base's low byte plus the index exceeds 255 (also lines 997-1010) |
| CpuStep.OperandBytesRequired | nestadia-core/src/cpu/mod.rs:922-1022 | each addressing mode moves PC past exactly the operand bytes the disassembler's required_bytes gives it |
| CpuStep.ZeroPageQuiet | nestadia/src/bus.rs:73-79 | page 0 is RAM, so reading it has no side effect |
| CpuStep.EffectiveAddress | nestadia-core/src/cpu/mod.rs:928-1010 | only the indexed modes report a page crossing, and the zero-page modes stay in page 0 |
| CpuStep.Next | nestadia-core/src/cpu/mod.rs:120-919 | every instruction but the control and branch ones leaves PC just past its operand, and only the control ones and TXS move SP |
| CpuStep.JsrControl | nestadia-core/src/cpu/mod.rs:1279-1287 | JSR sets the registers as JsrNext and pushes the address of its operand's last byte, high byte first |
| CpuStep.BrkControl | nestadia-core/src/cpu/mod.rs:1125-1142 | BRK sets the registers as BrkNext and pushes PC + 1 and the status with B set |
| CpuStep.RamAfter | nestadia/src/bus.rs:73-79 | applying bus writes keeps the 2 KB RAM size |
| CpuStep.WriteCount | nestadia-core/src/cpu/mod.rs:120-919 | only stores, memory read-modify-writes, PHA and PHP (one write), JSR (two) and BRK (three) write to the bus (also lines 1279-1287, 1125-1142, 1340-1350) |
| CpuStep.QuietWritesRam | nestadia-core/src/cpu/mod.rs:1527-1558 | an instruction whose reads are quiet and whose stores go to RAM writes only to addresses below 0x2000 |
| CpuStep.PushesInPage1 | nestadia-core/src/cpu/mod.rs:1502-1505 | every push of a control instruction goes to page 1 |
| CpuStep.RamAfterOne | nestadia/src/bus.rs:73-79 | a write below 0x2000 is seen in its mirrored RAM cell and leaves the others |
| CpuStep.RamAfterAppend | nestadia/src/bus.rs:73-79 | applying two lists of writes in turn equals applying their concatenation |
| CpuStep.PushOne | nestadia-core/src/cpu/mod.rs:1502-1505 | a push seen as a bus write changes RAM as PushRam says |
| CpuStep.PushTwo | nestadia-core/src/cpu/mod.rs:1502-1505 | two successive pushes change RAM as two PushRam steps |
| CpuStep.PushReturn | nestadia-core/src/cpu/mod.rs:1279-1287 | the two pushes of a return address store its high then its low byte |
| CpuStep.PushThree | nestadia-core/src/cpu/mod.rs:67-103 | the three pushes of an interrupt frame change RAM as PushFrame says (also lines 1125-1142) |
| CpuStep.ControlStep | nestadia-core/src/cpu/mod.rs:1125-1142 | a control opcode runs as ControlNext and writes only its pushes (also lines 1275-1287, 1340-1366, 1404-1416) |
| CpuStep.ReadGroupStep | nestadia-core/src/cpu/mod.rs:120-919 | a read opcode runs as ReadNext, writes nothing, and is quiet exactly when its operand is |
| CpuStep.ModifyGroupStep | nestadia-core/src/cpu/mod.rs:1065-1077 | a read-modify-write runs as ModifyNext and writes the result back exactly when it works on memory (also lines 1207-1215, 1246-1254, 1318-1328, 1367-1402) |
| CpuStep.StoreGroupStep | nestadia-core/src/cpu/mod.rs:1435-1446 | a store only moves PC past its operand and writes the register's byte to the effective address |
| CpuStep.RegisterGroupStep | nestadia-core/src/cpu/mod.rs:1155-1170 | a register-only opcode runs as RegisterStep, writes nothing and is always quiet (also lines 1216-1274, 1423-1500) |
| CpuStep.BranchGroupStep | nestadia-core/src/cpu/mod.rs:1079-1154 | a branch runs as BranchNext, writes nothing, and is quiet exactly when its offset byte is (also lines 1512-1523) |
| CpuStep.PushedPulled | nestadia-core/src/cpu/mod.rs:1502-1510 | a pull after a push reads the pushed byte |
| CpuStep.ReturnPulled | nestadia-core/src/cpu/mod.rs:1279-1287 | RTS rebuilds the word JSR pushed (also lines 1413-1416) |
| CpuStep.FramePulled | nestadia-core/src/cpu/mod.rs:67-103 | RTI pulls the frame's status byte, then its return address (also lines 1404-1411) |
| CpuStep.ReturnAfterCall | nestadia-core/src/cpu/mod.rs:1279-1287 | RTS after JSR restores SP and resumes one past the word on the stack (also lines 1413-1416) |
| CpuStep.CallThenReturn | nestadia-core/src/cpu/mod.rs:1279-1287 | JSR then RTS resumes just after the JSR's operand with every register as it was (also lines 1413-1416) |
| CpuStep.BreakThenReturn | nestadia-core/src/cpu/mod.rs:1125-1142 | BRK then RTI resumes two bytes after BRK, with SP and the registers restored and the status B clear, U set (also lines 1404-1411) |
| CpuStep.InterruptThenReturn | nestadia-core/src/cpu/mod.rs:67-103 | RTI after IRQ or NMI restores PC, SP and the status (B clear, U set), whatever the vector (also lines 1404-1411) |
| CpuStep.PushThenPullA | nestadia-core/src/cpu/mod.rs:1340-1359 | PHA then PLA gives A back with Z and N set from it and SP restored |
| CpuStep.PushThenPullStatus | nestadia-core/src/cpu/mod.rs:1344-1366 | PHP then PLP gives the status back, B clear and U set, SP restored |
| CpuStep.ReadCycles | nestadia-core/src/cpu/mod.rs:120-919 | a read takes one more cycle than the table exactly when its mode is indexed and indexing crossed a page, and moves PC past the operand (also lines 949-1010) |
| CpuStep.CountdownStep | nestadia-core/src/cpu/mod.rs:105-106 | a clock with cycles pending only takes one off (also lines 916-918) |
| CpuStep.Countdown | nestadia-core/src/cpu/mod.rs:105-106 | after as many clocks as there are pending cycles, none are pending and nothing else has changed, so the next clock fetches (also lines 916-918) |
| CpuStep.CountdownPending | nestadia-core/src/cpu/mod.rs:105-106 | before the last pending cycle, a cycle is still pending and nothing else has changed (also lines 916-918) |
| Cpu.Load | nestadia-core/src/cpu/mod.rs:1561-1572 | a read at a quiet address changes nothing and returns the byte the memory image holds there |
| Cpu.LoadWord | nestadia-core/src/cpu/mod.rs:943-947 | two quiet reads return the little-endian word of the image's bytes, low byte first |
| Cpu.AmZp | nestadia-core/src/cpu/mod.rs:928-931 | am_zp returns the operand byte as a page-0 address |
| Cpu.AmZpIndexed | nestadia-core/src/cpu/mod.rs:933-941 | am_zpx/am_zpy return operand + index, wrapping inside page 0 |
| Cpu.AmAbs | nestadia-core/src/cpu/mod.rs:943-947 | am_abs returns the little-endian operand word |
| Cpu.AmAbsIndexed | nestadia-core/src/cpu/mod.rs:949-971 | am_abx/am_aby return the operand word plus the index and whether that left the word's page |
| Cpu.AmInd | nestadia-core/src/cpu/mod.rs:973-985 | am_ind returns the word the pointer points to, its high byte read from the pointer's own page |
| Cpu.AmIzx | nestadia-core/src/cpu/mod.rs:987-995 | am_izx returns the word at page-0 addresses operand + X and operand + X + 1, wrapping |
| Cpu.AmIzy | nestadia-core/src/cpu/mod.rs:997-1010 | am_izy returns the page-0 pointer plus Y and whether that left the pointer's page |
| Cpu.Address | nestadia-core/src/cpu/mod.rs:928-1010 | each address-computing mode returns EffectiveAddress when its reads are quiet |
| Cpu.PageZeroAddress | nestadia-core/src/cpu/mod.rs:928-941 | the page-0 modes return EffectiveAddress |
| Cpu.AbsoluteAddress | nestadia-core/src/cpu/mod.rs:943-971 | the absolute modes return EffectiveAddress |
| Cpu.IndirectAddress | nestadia-core/src/cpu/mod.rs:973-1010 | the indirect modes return EffectiveAddress |
| Cpu.ReadOperand | nestadia-core/src/cpu/mod.rs:922-926 | the operand of a read instruction is Operand, and quiet reads change nothing (also lines 120-919) |
| Cpu.Store | nestadia-core/src/cpu/mod.rs:1527-1531 | a write below $2000 changes exactly its mirrored RAM cell and nothing else |
| Cpu.Push | nestadia-core/src/cpu/mod.rs:1502-1505 | stack_push stores the byte as PushRam says and changes nothing outside RAM |
| Cpu.PushReturnAddress | nestadia-core/src/cpu/mod.rs:1279-1287 | the return address is pushed high byte first and nothing outside RAM changes |
| Cpu.PushInterruptFrame | nestadia-core/src/cpu/mod.rs:67-103 | the three frame bytes are pushed in order and nothing outside RAM changes (also lines 1125-1142) |
| Cpu.Pull | nestadia-core/src/cpu/mod.rs:1507-1510 | a pop reads page 1 quietly and returns the image's stack byte |
| Cpu.VectorMatches | nestadia-core/src/cpu/mod.rs:1568-1570 | an interrupt vector in the cartridge is the word the image holds at that address |
| Cpu.LoadVector | nestadia-core/src/cpu/mod.rs:63 | reading a vector changes nothing and returns the cartridge's word there (also lines 80-81, 99-100, 1140-1141) |
| Cpu.EnterHandler | nestadia-core/src/cpu/mod.rs:67-103 | the interrupt frame is pushed and the handler address is the vector as it was before the pushes (also lines 1125-1142) |
| Cpu.ReadInstruction | nestadia-core/src/cpu/mod.rs:120-919 | a quiet read instruction gives ReadNext's registers and changes nothing on the bus |
| Cpu.ModifyInstruction | nestadia-core/src/cpu/mod.rs:120-919 | the accumulator form gives ModifyNext and touches nothing; the memory form, when quiet, gives ModifyNext and writes back the result |
| Cpu.ModifyMemory | nestadia-core/src/cpu/mod.rs:120-919 | the memory form reads the effective address and writes the result back there |
| Cpu.StoreInstruction | nestadia-core/src/cpu/mod.rs:1435-1446 | a quiet store moves PC past its operand and writes the register's byte to the effective address |
| Cpu.Branch | nestadia-core/src/cpu/mod.rs:1079-1154 | a branch gives BranchNext's PC and cycles and changes nothing on the bus (also lines 1512-1523) |
| Cpu.InstJmp | nestadia-core/src/cpu/mod.rs:1275-1277 | JMP gives ControlNext's registers |
| Cpu.InstJsr | nestadia-core/src/cpu/mod.rs:1279-1287 | JSR gives ControlNext's registers and pushes the return address |
| Cpu.InstRts | nestadia-core/src/cpu/mod.rs:1413-1416 | RTS changes nothing on the bus and gives RtsNext's registers |
| Cpu.InstRti | nestadia-core/src/cpu/mod.rs:1404-1411 | RTI changes nothing on the bus and gives RtiNext's registers |
| Cpu.InstBrk | nestadia-core/src/cpu/mod.rs:1125-1142 | BRK pushes its frame and gives BrkNext's registers |
| Cpu.InstPha | nestadia-core/src/cpu/mod.rs:1340-1342 | PHA pushes A |
| Cpu.InstPhp | nestadia-core/src/cpu/mod.rs:1344-1349 | PHP pushes the status with B and U set |
| Cpu.InstPla | nestadia-core/src/cpu/mod.rs:1351-1359 | PLA changes nothing on the bus and gives PlaNext's registers |
| Cpu.InstPlp | nestadia-core/src/cpu/mod.rs:1361-1366 | PLP changes nothing on the bus and gives PlpNext's registers |
| Cpu.ControlInstruction | nestadia-core/src/cpu/mod.rs:1125-1142 | a quiet control instruction gives ControlNext and makes exactly its pushes (also lines 1275-1287, 1340-1366, 1404-1416) |
| Cpu.Step | nestadia-core/src/cpu/mod.rs:120-914 | an instruction whose reads are quiet and whose writes go to RAM gives Next's registers and RAM after exactly Writes, and changes nothing else |
| Cpu.ClockRegisters | nestadia-core/src/cpu/mod.rs:105-919 | with cycles pending a clock only counts down; a quiet fetching clock gives ClockNext's registers and RAM after ClockWrites |
| Cpu.Cpu.constructor | nestadia-core/src/cpu/mod.rs:41-53 | every register starts at zero and no flag is set |
| Cpu.Cpu.SetRegs | nestadia-core/src/cpu/mod.rs:30-39 | the register fields take the given values |
| Cpu.Cpu.Reset | nestadia-core/src/cpu/mod.rs:56-65 | reset clears A, X and Y, sets SP to $FD, 8 cycles, U and I, and PC from the reset vector, changing nothing on the bus |
| Cpu.Cpu.Interrupt | nestadia-core/src/cpu/mod.rs:67-103 | the frame is pushed and the registers become InterruptNext: I set, B clear, U set, PC from the vector, the given cycles |
| Cpu.Cpu.Irq | nestadia-core/src/cpu/mod.rs:67-85 | with I set nothing changes; otherwise the interrupt sequence through $FFFE with 7 cycles |
| Cpu.Cpu.Nmi | nestadia-core/src/cpu/mod.rs:87-103 | the interrupt sequence through $FFFA with 8 cycles, whatever I is |
| Cpu.Cpu.Clock | nestadia-core/src/cpu/mod.rs:105-919 | with cycles pending only the count goes down; a quiet fetching clock gives ClockNext's registers and RAM after ClockWrites |
| ApuCommon.RegisterVolume | nestadia/src/apu/common.rs:8-65 | the volume field is bits 0-3 of the register |
| ApuCommon.DutyBits | nestadia/src/apu/common.rs:11-61 | the duty field is bits 6-7 of the register |
| ApuCommon.NextDecay | nestadia/src/apu/common.rs:48-54 | a nonzero decay level goes down by one; at 0 it goes back to 15 when looping, else stays 0 |
| ApuCommon.EnvelopeClock | nestadia/src/apu/common.rs:37-57 | a pending start clears the flag, sets decay 15 and reloads the divider; otherwise the divider counts down, and at 0 reloads and steps the decay; the register is kept and the 4-bit counters stay 4-bit |
| ApuCommon.EnvelopeVolume | nestadia/src/apu/common.rs:63-69 | the register's volume when constant, else the decay level, never above 15 |
| ApuCommon.EnvelopeCountdown | nestadia/src/apu/common.rs:43-44 | without a start the divider counts down to 0 in as many clocks as it holds, the decay untouched |
| ApuCommon.EnvelopeClocksSplit | nestadia/src/apu/common.rs:37-57 | m + n envelope clocks are m clocks then n |
| ApuCommon.EnvelopePeriod | nestadia/src/apu/common.rs:37-57 | with the divider at its period the decay steps once every period + 1 clocks |
| ApuCommon.EnvelopeDecaysToSilence | nestadia/src/apu/common.rs:37-57 | with period 0 and no looping every clock lowers the decay by one, down to silence |
| ApuCommon.GetMax | nestadia/src/apu/common.rs:103-108 | the frame counter's modulus is one past the final step: 29830 for 4 steps, 37282 for 5 |
| ApuCommon.FrameSchedule | nestadia/src/apu/common.rs:85-101 | every half frame is a quarter frame, all steps fall below the modulus, the final step is both, and the only quarter-only steps are 7457 and 22371 |
| ApuCommon.TimerSet | nestadia/src/apu/common.rs:119-122 | the period is the value masked to 11 bits and the count restarts from it |
| ApuCommon.TimerSetLo | nestadia/src/apu/common.rs:124-127 | the low 8 bits of the period are replaced, bits 8-10 kept, and the count restarts |
| ApuCommon.TimerSetHi | nestadia/src/apu/common.rs:129-132 | bits 8-10 of the period come from the byte's low 3 bits, the low 8 are kept, and the count restarts |
| ApuCommon.TimerClock | nestadia/src/apu/common.rs:138-150 | the count goes down by one, or at 0 reloads from the period and reports done; the period is kept |
| ApuCommon.TimerCountdown | nestadia/src/apu/common.rs:138-146 | from a nonzero count j clocks count down by j without reporting done |
| ApuCommon.TimerClocksSplit | nestadia/src/apu/common.rs:138-146 | m + n timer clocks are m clocks then n |
| ApuCommon.TimerPeriod | nestadia/src/apu/common.rs:138-150 | a timer started at its period reports done first after period + 1 clocks, back where it started |
| ApuCommon.LengthSetCounter | nestadia/src/apu/common.rs:165-174 | an enabled counter loads the table entry; a disabled one is unchanged |
| ApuCommon.LengthSetEnable | nestadia/src/apu/common.rs:184-189 | disabling forces the counter to 0, enabling keeps it |
| ApuCommon.LengthClock | nestadia/src/apu/common.rs:191-195 | a nonzero, unhalted counter counts down by one; otherwise it is kept |
| ApuCommon.LengthRunsOut | nestadia/src/apu/common.rs:191-195 | an unhalted counter at c reaches 0 after exactly c half frames |
| ApuPulse.ShiftCount | nestadia/src/apu/pulse.rs:16 | the sweep shift count is bits 0-2 |
| ApuPulse.SweepPeriod | nestadia/src/apu/pulse.rs:18 | the sweep divider period is bits 4-6 |
| ApuPulse.SweepChange | nestadia/src/apu/pulse.rs:143 | the change is the timer value shifted right, never more than the value, the value itself for shift 0 |
| ApuPulse.SweepTarget | nestadia/src/apu/pulse.rs:142-153 | the target period is a u16 |
| ApuPulse.SweepTargetExact | nestadia/src/apu/pulse.rs:142-153 | for an 11-bit timer nothing wraps: value + change, or value - change (+1 on the one's-complement channel), never more than value + 1 when negating |
| ApuPulse.PulseDefault | nestadia/src/apu/pulse.rs:43-48 | the new channel keeps its one's-complement flag, every unit at its default |
| ApuPulse.PulseWrite | nestadia/src/apu/pulse.rs:50-78 | register 0 sets the envelope register and the halt bit (0x20); 1 sets the sweep and asks for a reload; 2 the timer's low byte; 3 the timer's high bits, the length counter from the top 5 bits, the envelope start and duty step 0 |
| ApuPulse.NextDutyStep | nestadia/src/apu/pulse.rs:85-89 | the duty step counts 0..7 and wraps |
| ApuPulse.PulseTick | nestadia/src/apu/pulse.rs:81-91 | on even cycles the timer is clocked and a reload advances the duty step; odd cycles change nothing |
| ApuPulse.PulseQuarterFrame | nestadia/src/apu/pulse.rs:94-96 | a quarter frame clocks the envelope only |
| ApuPulse.PulseHalfFrame | nestadia/src/apu/pulse.rs:98-119 | a half frame clocks the length counter, may retune the timer only to the sweep target and only with the sweep enabled and a nonzero shift, and clears the reload request |
| ApuPulse.PulseClock | nestadia/src/apu/pulse.rs:80-120 | the timer part every call; the envelope on quarter frames; the sweep and length counter on half frames, after the envelope |
| ApuPulse.DutyBit | nestadia/src/apu/pulse.rs:4-9 | the duty sequence entry is 0 or 1 (also line 138) |
| ApuPulse.PulseSample | nestadia/src/apu/pulse.rs:130-140 | 0 when the count is below 8, the target above 11 bits or the length counter empty; else the envelope volume gated by the duty bit, at most 15 |
| ApuPulse.PulseRestart | nestadia/src/apu/pulse.rs:67-75 | a fourth-register write restarts the duty sequence, and the next quarter frame sets the decay to 15 |
| ApuPulse.PulseDisabledIsSilent | nestadia/src/apu/pulse.rs:126-140 | a channel whose length counter is disabled samples 0 |
| ApuPulse.PulseChannel.constructor | nestadia/src/apu/pulse.rs:43-48 | the new channel's state is PulseDefault |
| ApuPulse.PulseChannel.Reset | nestadia/src/apu/mod.rs:91-95 | the channel goes back to PulseDefault |
| ApuPulse.PulseChannel.Write | nestadia/src/apu/pulse.rs:50-78 | the state becomes PulseWrite of the old one |
| ApuPulse.PulseChannel.QuarterFrame | nestadia/src/apu/mod.rs:243-244 | the state becomes PulseQuarterFrame of the old one |
| ApuPulse.PulseChannel.HalfFrame | nestadia/src/apu/mod.rs:251-252 | the state becomes PulseHalfFrame of the old one |
| ApuPulse.PulseChannel.Clock | nestadia/src/apu/pulse.rs:80-120 | the state becomes PulseClock of the old one |
| ApuPulse.PulseChannel.LengthCounterEnable | nestadia/src/apu/pulse.rs:122-124 | the length counter's enable bit |
| ApuPulse.PulseChannel.SetLengthCounterEnable | nestadia/src/apu/pulse.rs:126-128 | only the length counter changes, as LengthSetEnable says |
| ApuTriangle.ReloadValue | nestadia/src/apu/triangle.rs:14 | the reload value is bits 0-6 |
| ApuTriangle.LinearClock | nestadia/src/apu/triangle.rs:38-48 | a pending reload loads the reload value, else the counter counts down to 0; the reload flag survives only with the control bit |
| ApuTriangle.LinearHeld | nestadia/src/apu/triangle.rs:38-48 | with the control bit set a pending reload never clears, so the counter stays at the reload value |
| ApuTriangle.TriangleWrite | nestadia/src/apu/triangle.rs:60-80 | register 0 sets the linear register and the halt bit (0x80); 1 is unused; 2 the timer's low byte; 3 the timer's high bits, the length counter and a linear reload |
| ApuTriangle.TriangleTick | nestadia/src/apu/triangle.rs:84-87 | every call clocks the timer, and a reload steps the sequence mod 32 unless the channel is muted |
| ApuTriangle.TriangleClock | nestadia/src/apu/triangle.rs:82-97 | the timer part every call; the linear counter on quarter frames; the length counter on half frames |
| ApuTriangle.TriangleQuarterFrame | nestadia/src/apu/triangle.rs:90-92 | a quarter frame clocks the linear counter only |
| ApuTriangle.TriangleHalfFrame | nestadia/src/apu/triangle.rs:94-96 | a half frame clocks the length counter only |
| ApuTriangle.TriangleSample | nestadia/src/apu/triangle.rs:4-7 | the sample is the sequence entry, within 0..15 (also lines 107-109) |
| ApuTriangle.TriangleMutedHolds | nestadia/src/apu/triangle.rs:84-115 | a muted channel holds its sequence position, so its sample does not change |
| ApuTriangle.TriangleChannel.constructor | nestadia/src/apu/triangle.rs:51-57 | the new channel's state is the default |
| ApuTriangle.TriangleChannel.Reset | nestadia/src/apu/mod.rs:91-95 | the channel goes back to the default |
| ApuTriangle.TriangleChannel.Write | nestadia/src/apu/triangle.rs:60-80 | the state becomes TriangleWrite of the old one |
| ApuTriangle.TriangleChannel.IsMuted | nestadia/src/apu/triangle.rs:111-115 | muted exactly when TriangleMuted holds of the state |
| ApuTriangle.TriangleChannel.QuarterFrame | nestadia/src/apu/mod.rs:245 | the state becomes TriangleQuarterFrame of the old one |
| ApuTriangle.TriangleChannel.HalfFrame | nestadia/src/apu/mod.rs:253 | the state becomes TriangleHalfFrame of the old one |
| ApuTriangle.TriangleChannel.Clock | nestadia/src/apu/triangle.rs:82-97 | the state becomes TriangleClock of the old one |
| ApuTriangle.TriangleChannel.LengthCounterEnable | nestadia/src/apu/triangle.rs:99-101 | the length counter's enable bit |
| ApuTriangle.TriangleChannel.SetLengthCounterEnable | nestadia/src/apu/triangle.rs:103-105 | only the length counter changes, as LengthSetEnable says |
| ApuNoise.LfsrStep | nestadia/src/apu/noise.rs:56-65 | the shift register moves one bit right and takes bit 0 XOR bit 1 (bit 6 in mode 1) into bit 14; a nonzero 15-bit register stays nonzero and 15-bit |
| ApuNoise.NoiseWrite | nestadia/src/apu/noise.rs:30-49 | register 0 sets the envelope register and halt bit; 1 is unused; 2 the timer period from the table and the mode bit; 3 the length counter and the envelope start; the shift register is kept |
| ApuNoise.NoiseTick | nestadia/src/apu/noise.rs:52-67 | on odd cycles the timer is clocked and a reload steps the LFSR; even cycles change nothing |
| ApuNoise.NoiseQuarterFrame | nestadia/src/apu/noise.rs:70-72 | a quarter frame clocks the envelope only |
| ApuNoise.NoiseHalfFrame | nestadia/src/apu/noise.rs:74-76 | a half frame clocks the length counter only |
| ApuNoise.NoiseClock | nestadia/src/apu/noise.rs:51-77 | the timer part every call; the envelope on quarter frames; the length counter on half frames |
| ApuNoise.NoiseSample | nestadia/src/apu/noise.rs:88-101 | 0 when shift-register bit 0 is set or the length counter is empty, else the envelope volume, at most 15 |
| ApuNoise.NoisePeriods | nestadia/src/apu/noise.rs:3-40 | every table period but the last fits 11 bits and is taken as is; 4068 is masked to 2020 |
| ApuNoise.NoiseChannel.constructor | nestadia/src/apu/noise.rs:16-27 | the new channel's state is the default, shift register 1 |
| ApuNoise.NoiseChannel.Reset | nestadia/src/apu/mod.rs:91-95 | the channel goes back to the default |
| ApuNoise.NoiseChannel.Write | nestadia/src/apu/noise.rs:30-49 | the state becomes NoiseWrite of the old one |
| ApuNoise.NoiseChannel.QuarterFrame | nestadia/src/apu/mod.rs:246 | the state becomes NoiseQuarterFrame of the old one |
| ApuNoise.NoiseChannel.HalfFrame | nestadia/src/apu/mod.rs:254 | the state becomes NoiseHalfFrame of the old one |
| ApuNoise.NoiseChannel.Clock | nestadia/src/apu/noise.rs:51-77 | the state becomes NoiseClock of the old one |
| ApuNoise.NoiseChannel.LengthCounterEnable | nestadia/src/apu/noise.rs:79-81 | the length counter's enable bit |
| ApuNoise.NoiseChannel.SetLengthCounterEnable | nestadia/src/apu/noise.rs:83-85 | only the length counter changes, as LengthSetEnable says |
| Apu.ApuDefault | nestadia/src/apu/mod.rs:73-89 | the power-up state keeps the invariants and has no pending interrupt |
| Apu.ApuQuarterFrame | nestadia/src/apu/mod.rs:242-247 | the pulse and noise envelopes and the triangle's linear counter are clocked; the length counters and the frame state are kept |
| Apu.ApuHalfFrame | nestadia/src/apu/mod.rs:250-255 | the four length counters are clocked; the envelopes, linear counter and frame state are kept |
| Apu.ApuWrite | nestadia/src/apu/mod.rs:108-163 | $4000-$400F go to the addressed channel's register addr & 3; DMC writes change nothing; $4015 sets the four length-counter enables from bits 0-3; $4017 sets the mode and interrupt inhibit and restarts the frame counter; the interrupt flags are kept |
| Apu.FrameCounterWrite | nestadia/src/apu/mod.rs:141-158 | counter 0, inhibit from bit 6, five-step mode from bit 7; four-step mode leaves the channels alone, five-step mode clocks a quarter and a half frame at once |
| Apu.Status | nestadia/src/apu/mod.rs:181-202 | bit n of the status is set exactly when channel n's length counter is nonzero; bits 4-7 are clear |
| Apu.ApuRead | nestadia/src/apu/mod.rs:170-207 | $4015 reads the status, every other register 0 |
| Apu.ApuClock | nestadia/src/apu/mod.rs:214-234 | each channel is clocked with the mode and the current frame counter; the frame counter then moves one step modulo the sequence length; mode, inhibit and interrupt flags are kept |
| Apu.DisabledChannelsReadInactive | nestadia/src/apu/mod.rs:130-140 | a channel whose enable bit a $4015 write clears reads back inactive (also lines 181-202) |
| Apu.FrameCounterCounts | nestadia/src/apu/mod.rs:233 | n clocks move the frame counter n steps modulo 29830 or 37282 |
| Apu.ModAdd | nestadia/src/apu/mod.rs:233 | one step modulo the sequence length then b more is b + 1 at once |
| Apu.Apu.constructor | nestadia/src/apu/mod.rs:73-89 | the new APU's state is ApuDefault, with the audio feature as given |
| Apu.Apu.Reset | nestadia/src/apu/mod.rs:91-95 | the state goes back to ApuDefault |
| Apu.Apu.TakeIrqSetState | nestadia/src/apu/mod.rs:101-106 | returns whether the frame or DMC interrupt was pending and clears both, nothing else changes |
| Apu.Apu.ClockQuarterFrame | nestadia/src/apu/mod.rs:242-247 | the state becomes ApuQuarterFrame of the old one |
| Apu.Apu.ClockHalfFrame | nestadia/src/apu/mod.rs:250-255 | the state becomes ApuHalfFrame of the old one |
| Apu.Apu.Write | nestadia/src/apu/mod.rs:108-168 | with the audio feature the state becomes ApuWrite of the old one; without it nothing changes |
| Apu.Apu.WriteStatus | nestadia/src/apu/mod.rs:130-140 | the state becomes ApuWrite at $4015 |
| Apu.Apu.WriteFrameCounter | nestadia/src/apu/mod.rs:141-158 | the state becomes FrameCounterWrite of the old one |
| Apu.Apu.Read | nestadia/src/apu/mod.rs:170-212 | the status at $4015 with the audio feature, 0 otherwise |
| Apu.Apu.Clock | nestadia/src/apu/mod.rs:214-239 | with the audio feature the state becomes ApuClock of the old one; without it nothing changes |
| Nestadia.NextClockCount | nestadia/src/lib.rs:82-105 | from a reachable divider value (0-3) the next one is 1-3 |
| Nestadia.CpuEveryThirdCall | nestadia/src/lib.rs:76-107 | n calls from divider c hold (n + Phase(c)) / 3 CPU turns, so from 0 the first call and every third after it is a CPU turn |
| Nestadia.Low6 | nestadia/src/lib.rs:171 | the palette index is the pixel's low six bits, below 64 |
| Nestadia.RgbaExtendsRgb | nestadia/src/lib.rs:169-188 | RGBA byte 4i + c equals RGB byte 3i + c for c < 3 and is 0xFF for c = 3 |
| Nestadia.ArgbSwapsRgba | nestadia/src/lib.rs:178-200 | ARGB swaps the red and blue bytes of RGBA and keeps the opaque alpha |
| Nestadia.FrameToRgb | nestadia/src/lib.rs:169-176 | byte 3i + c is colour channel c of RGB_PALETTE[frame[i] & 0x3F] |
| Nestadia.FrameToRgba | nestadia/src/lib.rs:178-188 | bytes 4i..4i+2 are R, G, B of the pixel's palette colour and byte 4i + 3 is 0xFF |
| Nestadia.FrameToArgb | nestadia/src/lib.rs:190-200 | bytes 4i..4i+3 are B, G, R of the pixel's palette colour and 0xFF |
| Nestadia.Emulator.constructor | nestadia/src/lib.rs:51-69 | the emulator over the given parts with the divider at 0 |
| Nestadia.Emulator.Reset | nestadia/src/lib.rs:119-125 | CPU registers from the reset vector, APU and PPU at power-up, divider 0; RAM, nametables, pads and cartridge unchanged |
| Nestadia.Emulator.SetController1 | nestadia/src/lib.rs:111-113 | stores the live byte of pad 1 unchanged; pad 2, strobe and snapshots are kept |
| Nestadia.Emulator.SetController2 | nestadia/src/lib.rs:115-117 | stores the live byte of pad 2 unchanged; pad 1, strobe and snapshots are kept |
| Nestadia.Emulator.Clock | nestadia/src/lib.rs:76-109 | divider advanced; frame returned exactly when the PPU has one ready; off-turn the CPU and APU are unchanged and the PPU takes one dot; on a turn the APU clocks once (when audio is on), the CPU only counts down when cycles are pending, and between instructions the NMI is taken exactly when the latch is set after the dot |
| Nestadia.Tick | nestadia/src/lib.rs:78-103 | the PPU dot, then on a CPU turn the APU clock and the CPU part, with the same per-case results as Emulator.Clock |
| Nestadia.CpuTurnParts | nestadia/src/lib.rs:87-102 | the APU clock, then the CPU part; the NMI is taken between instructions exactly when the latch is set |
| Nestadia.ResetParts | nestadia/src/lib.rs:120-123 | the CPU from the reset vector, the APU at its default and the PPU at power-up; RAM, nametables, pads and cartridge unchanged |
| Nestadia.ClockCpu | nestadia/src/lib.rs:89-102 | between instructions NMI first (latch consumed only then), else the cartridge IRQ (only MMC3 can raise it), then one CPU clock; with cycles pending only the count-down |
| Nestadia.New | nestadia/src/lib.rs:51-74 | a load error is returned unchanged; otherwise a reset emulator over the loaded PRG and CHR, with zeroed RAM, zeroed nametables and idle pads |
| Nestadia.Build | nestadia/src/lib.rs:52-73 | a valid, reset emulator over the cartridge, with zeroed RAM and nametables |
| Nestadia.NewParts | nestadia/src/lib.rs:52-67 | fresh, separate bus, CPU and APU around the cartridge, RAM and nametables zeroed, pads idle |
| Nestadia.NewBus | nestadia/src/lib.rs:58-66 | a fresh CPU bus around the cartridge with zeroed RAM and nametables and idle pads |
| Nestadia.NewPpuSide | nestadia/src/lib.rs:65-66 | a power-up PPU and a PPU bus over zeroed nametables |
| Disassembler.HexDigit | nestadia/src/cpu/disassembler.rs:43-68 | each digit `{:#x}` writes is one of the sixteen lower-case hex digits |
| Disassembler.HexRoundTrip | nestadia/src/cpu/disassembler.rs:43-68 | the hex digits of a number read back as that number |
| Disassembler.HexCanonical | nestadia/src/cpu/disassembler.rs:43-68 | the hex text has a leading zero exactly when the number is 0 |
| Disassembler.HexInjective | nestadia/src/cpu/disassembler.rs:43-68 | two numbers with the same `{:#x}` text are equal, so an operand's text determines its value |
| Disassembler.DigitRoundTrip | nestadia/src/cpu/disassembler.rs:43-68 | every hex digit reads back as its value |
| Disassembler.Hex | nestadia/src/cpu/disassembler.rs:43-68 | `{:#x}` text starts with `0x` followed by at least one digit |
| Disassembler.ToU16 | nestadia/src/cpu/disassembler.rs:112-114 | the word's low byte is the first operand byte and its high byte the second |
| Disassembler.RelativeTarget | nestadia/src/cpu/disassembler.rs:48-57 | the relative target as both disassemblers compute it: offsets up to $80 are added to pc |
| Disassembler.MinusTarget | nestadia/src/cpu/disassembler.rs:48-57 | for offset $80 the formula lands $100 past the branch the CPU takes |
| Disassembler.BackwardTarget | nestadia/src/cpu/disassembler.rs:48-57 | for offsets above $80 the formula lands two bytes past the branch the CPU takes from the same pc |
| Disassembler.OwnAddressTarget | nestadia-core/src/cpu/disassembler.rs:44-85 | counted from the opcode's own address, forward targets come out two bytes short of the CPU's branch and backward ones exact |
| Disassembler.BranchShift | nestadia-core/src/cpu/disassembler.rs:44-53 | a branch counted from two bytes further on lands two bytes further on |
| Disassembler.RelativeTargetsShown | nestadia/src/cpu/disassembler.rs:48-97 | `BNE $FE` at $8000 loops to $8000 but the formula from $8002 gives $8002; `BEQ $05` at $C000 goes to $C007 but the formula from $C000 gives $C005 |
| Disassembler.BranchOperandTarget | nestadia/src/cpu/disassembler.rs:48-57 | the corrected relative target is exactly the branch the CPU takes from the next address |
| Disassembler.ForwardBranch | nestadia/src/cpu/disassembler.rs:48-52 | an offset below $80 added as it is gives the branch the CPU takes |
| Disassembler.BackwardBranch | nestadia/src/cpu/disassembler.rs:53-57 | an offset from $80 up taken as offset - $100 gives the branch the CPU takes |
| Disassembler.ForwardTargetsAgree | nestadia/src/cpu/disassembler.rs:48-57 | for forward offsets the corrected and the as-written targets agree |
| Disassembler.Operand | nestadia/src/cpu/disassembler.rs:43-68 | the operand text is empty exactly for implied instructions, starts with `#` for immediate and with `(` for the indirect modes |
| Disassembler.FormatAsWritten | nestadia/src/cpu/disassembler.rs:43-68 | `format` as written: a relative operand shows RelativeTarget from the pc passed in, every other mode its operand text |
| Disassembler.Format | nestadia/src/cpu/disassembler.rs:43-68 | the corrected `format`: empty exactly for implied instructions, and the same as written for every mode but Relative |
| Disassembler.RelativeShowsBranch | nestadia/src/cpu/disassembler.rs:48-57 | a relative operand shows, in hex, the address the CPU branches to |
| Disassembler.AbsoluteShowsWord | nestadia/src/cpu/disassembler.rs:58-60 | an absolute operand shows the little-endian word after the opcode |
| Disassembler.Line | nestadia/src/cpu/disassembler.rs:86-97 | an instruction's text starts with its mnemonic and is the bare mnemonic exactly when the mode has no operand bytes |
| Disassembler.LineAsWritten | nestadia-core/src/cpu/disassembler.rs:78-85 | the as-written text starts with the mnemonic and differs from the corrected one only for relative operands |
| Disassembler.RelativeLineAsWritten | nestadia-core/src/cpu/disassembler.rs:44-85 | a relative instruction as written shows RelativeTarget from the pc passed in |
| Disassembler.RelativeLine | nestadia/src/cpu/disassembler.rs:48-97 | a relative instruction as corrected shows the branch taken from the next address |
| Disassembler.CoreBranchLineShown | nestadia-core/src/cpu/disassembler.rs:44-85 | nestadia-core lists `BEQ $05` at $C000 with target $C005, where the corrected line shows $C007, and the two lines differ |
| Disassembler.CartBranchLineShown | nestadia/src/cpu/disassembler.rs:48-97 | nestadia lists `BNE $FE` at $8000 with target $8002, where the corrected line shows $8000, and the two lines differ |
| Disassembler.StepOf | nestadia/src/cpu/disassembler.rs:80-105 | a step either is truncated or finds something that gets a line, and moves on by one byte plus at most the bytes available |
| Disassembler.StepCases | nestadia/src/cpu/disassembler.rs:81-105 | an undecodable byte is "???" and moves on one byte; a decoded opcode is truncated exactly when fewer operand bytes follow than its mode needs, and moves on one byte then; otherwise it carries the bytes that follow and moves past them |
| Disassembler.Text | nestadia/src/cpu/disassembler.rs:86-105 | an unknown byte is listed as "???", an instruction by a text starting with its mnemonic |
| Disassembler.After | nestadia/src/cpu/disassembler.rs:89-92 | the operand bytes available after an index: two, or all that remain before the end |
| Disassembler.AfterFollows | nestadia-core/src/cpu/disassembler.rs:81-85 | the operand bytes are the bytes right after the opcode |
| Disassembler.StepAt | nestadia-core/src/cpu/disassembler.rs:71-94 | a step at an index stays inside the bytes and moves on at least one |
| Disassembler.Walk | nestadia-core/src/cpu/disassembler.rs:67-99 | every entry of the walk gets a line and lies between the start index and the end |
| Disassembler.WalkStep | nestadia-core/src/cpu/disassembler.rs:71-94 | the walk is the step's entry, unless it is truncated, followed by the walk from where the step ends |
| Disassembler.WalkAdvance | nestadia-core/src/cpu/disassembler.rs:71-94 | a walk split after some entries stays split after the next step |
| Disassembler.WalkIncreasing | nestadia-core/src/cpu/disassembler.rs:71-94 | the walk never goes back: the entries' indices strictly increase |
| Disassembler.WalkFinds | nestadia-core/src/cpu/disassembler.rs:71-94 | each entry of the walk holds what the step at its index finds |
| Disassembler.UnknownWalk | nestadia-core/src/cpu/disassembler.rs:92-94 | over bytes none of which decodes, the walk has one "???" entry per byte, at consecutive indices |
| Disassembler.SliceLine | nestadia-core/src/cpu/disassembler.rs:79-93 | an entry is listed at `start` plus its index, truncated to u16, and an unknown one as "???" |
| Disassembler.SliceLines | nestadia-core/src/cpu/disassembler.rs:67-99 | one listed line per entry |
| Disassembler.SliceLinesSnoc | nestadia-core/src/cpu/disassembler.rs:79-93 | pushing one more entry pushes its line at the end of the listing |
| Disassembler.SliceAdvance | nestadia-core/src/cpu/disassembler.rs:71-94 | one loop step keeps the listing: a truncated step adds no line, any other adds its line at the end |
| Disassembler.SliceDone | nestadia-core/src/cpu/disassembler.rs:71-98 | when the index reaches the end the listing is the lines of the whole walk |
| Disassembler.SliceStep | nestadia-core/src/cpu/disassembler.rs:73-84 | the reads of one step are the step at that index |
| Disassembler.DisassembleSlice | nestadia-core/src/cpu/disassembler.rs:67-99 | `disassemble` returns the line of every entry of the walk over the slice from index 0, in order (with relative operands corrected) |
| Disassembler.UnknownSlice | nestadia-core/src/cpu/disassembler.rs:92-94 | a slice in which no byte decodes lists "???" once per byte, at consecutive addresses from `start` |
| Disassembler.CartLine | nestadia/src/cpu/disassembler.rs:80-104 | an entry is listed with the PRG bank of its address, the address, and "???" when unknown |
| Disassembler.CartLines | nestadia/src/cpu/disassembler.rs:71-110 | one listed line per entry |
| Disassembler.CartLinesSnoc | nestadia/src/cpu/disassembler.rs:87-104 | pushing one more entry pushes its line at the end of the listing |
| CartridgeDisassembler.Space | nestadia/src/cpu/disassembler.rs:78-81 | the bytes the walk reads are the cartridge's PRG reads of $0000-$FFFE |
| CartridgeDisassembler.Banks | nestadia/src/cpu/disassembler.rs:80 | the bank of each address $0000-$FFFE is the cartridge's get_prg_bank |
| CartridgeDisassembler.Room | nestadia/src/cpu/disassembler.rs:89 | at most two operand bytes, all below $FFFF |
| CartridgeDisassembler.Operands | nestadia/src/cpu/disassembler.rs:90-92 | exactly `count` operand bytes are read |
| CartridgeDisassembler.SpaceShows | nestadia/src/cpu/disassembler.rs:78-92 | Space and Banks are what the cartridge shows |
| CartridgeDisassembler.ShowsOnly | nestadia/src/cpu/disassembler.rs:78-92 | what the cartridge shows is Space and Banks and nothing else |
| CartridgeDisassembler.OperandsInSpace | nestadia/src/cpu/disassembler.rs:89-92 | the operand bytes read through the cartridge are the bytes after the opcode in what it shows |
| CartridgeDisassembler.ReadStep | nestadia/src/cpu/disassembler.rs:80-92 | one step's reads give the bank of the address and the step of the walk at it |
| CartridgeDisassembler.ListAdvance | nestadia/src/cpu/disassembler.rs:86-105 | one loop step keeps the listing: a truncated step adds no line, any other adds its line, tagged with its bank, at the end |
| CartridgeDisassembler.ListDone | nestadia/src/cpu/disassembler.rs:78-109 | when the address reaches $FFFF the listing is the lines of the whole walk |
| CartridgeDisassembler.DisassembleCartridge | nestadia/src/cpu/disassembler.rs:71-110 | `disassemble` returns the line of every entry of the walk from `start` over what the cartridge shows, each tagged with its PRG bank (with relative operands corrected) |

## Left out

- Cpu.Step: the new registers and the RAM writes are stated only for an instruction whose reads have no side effects and whose writes go only to CPU RAM (`CpuStep.QuietStep`). For an instruction that reads or writes the PPU registers ($2000-$3FFF), $4014, the controllers or cartridge space, the contract keeps only the bus's validity. The bus effects of those accesses are stated one access at a time by `CpuBus.CpuBus.Read` and `CpuBus.CpuBus.Write`, not composed into an instruction.
- Cpu.ClockRegisters: the same restriction (`CpuStep.QuietClock`) for a clock that fetches an instruction. A clock with cycles pending is stated in full.
- Cpu.Cpu.Clock: the same restriction as `Cpu.ClockRegisters`, for the same reason.
- Nestadia.Emulator.Clock: on a CPU turn that fetches an instruction or takes an NMI or IRQ (`Fetch`, `NmiTaken`, `IrqTaken`), the contract names the action and the APU's new state but not the CPU's new registers or the PPU's new state. There is no memory image of the whole machine to run `CpuStep.Next` against. The countdown turns and the PPU-only calls are stated in full.
- Ppu.Ppu.Clock: states which frame cell a visible dot writes and how the timing, registers and fetch state move on. It does not tie the colour written into that cell to `render_pixel`; `Ppu.Ppu.RenderPixel` and `Ppu.Ppu.DrawPixel` state the colour.
- CpuBus.CpuBus.Write: a write at $4020 and up is stated only as changing nothing outside the cartridge board. The board's own effect is stated by the mappers' `CpuMapWrite` methods.
- CpuBus.CpuBus.Write: nestadia-core/src/cpu/mod.rs:1554 sends $4017 writes to `controller2_write`, which no file of the repository defines. nestadia/src/bus.rs:101-105 has one `controller_write`, which latches both controllers, so $4017 writes go to that shared strobe.
- CpuBus.CpuBus.ReadPage: the 256 bytes read are stated only for a page read without side effects (`CpuBus.QuietPageReads`). For a page in PPU-register, controller or cartridge space the contract gives only the buffer's length and the bus's validity.
- CpuBus.CpuBus.Read: the MMC3 counter clocked by a PPUDATA read of pattern memory is stated by `Ppu.Ppu.Read`, one level down, and not repeated at the CPU bus.
- CpuBus.CpuBus.OamDma: the 256 bytes copied into OAM are stated only when the source page is read without side effects (`CpuBus.QuietPageReads`). The CPU stall of 513 or 514 cycles that the NESdev OAM DMA page describes is not modelled, because the source does not charge it either.
- Mapper001.Mapper001.constructor: `prg_banks - 1` is u8 arithmetic that panics in a Rust debug build when there are no PRG banks. The model wraps to $FF, as a release build does.
- Mapper001.Commit: the mode-3 PRG commit's `prg_banks - 1` wraps in the same way.
- Mapper001.Mapper001.CommitLoad: the same wrap as `Mapper001.Commit`.
- Mapper002.Mapper002.GetPrgBank: `prg_banks - 1` wraps to $FF for zero banks where a debug build panics.
- Mapper004.Mapper004.constructor: `prg_banks * 2 - 1` is u8 arithmetic that panics in a debug build for zero or more than 127 banks. The model wraps, as a release build does.
- Mapper004.PrgSelectors: `prg_banks * 2 - 1` and `prg_banks * 2 - 2` wrap in the same way.
- Mapper004.Mapper004.UpdatePrgSelectors: the same wrap as `Mapper004.PrgSelectors`.
- Mapper004.ChrPairsThenSingles: `register[0] + 1` and `register[1] + 1` wrap at $FF where a debug build panics.
- Mapper004.ChrSelectors: the same wrap as `Mapper004.ChrPairsThenSingles`.
- Sprites.EvenStep: the `+= 1` steps of the OAM pointer, the secondary pointer and `m` are u8 additions (nestadia/src/ppu/mod.rs:717, 736-737, 777, 785). `Sprites.EvaluationValid` keeps the pointers at most 64 and 8 and `m` at most 3 while copying. During overflow checking `m` steps with the OAM pointer (mod.rs:785), and the predicate keeps it at least 8 below that pointer, so below 56. So no debug-build overflow can arise.
- Cartridge.HeaderMirroring: server/nestadia-core/src/cartridge/mod.rs:71 tests `Flags6::FOUR_SCREEN`, which server/nestadia-core/src/cartridge/ines_header.rs:20-26 never defines. Bit 3 of flags 6 is declared there as `IGNORE_MIRRORING_CONTROL`, and the iNES format gives four-screen mirroring that bit, so the model reads the undefined name as bit 3 (`INes.FOUR_SCREEN`).
- Bus.PpuBus.ReadChrMem: MMC3's scanline counter is stated one pattern read at a time, up to `Ppu.Ppu.BgLoadCycle`, `Ppu.Ppu.FetchSpritePlane`, `Ppu.Ppu.Read` and `LegacyPpu.Ppu.ReadData`. The contracts of `Ppu.Ppu.Fetches`, `Ppu.Ppu.BackgroundFetches`, `Ppu.Ppu.SpriteFetches`, `Ppu.Ppu.SpritesLoadCycle`, `Ppu.Ppu.FetchCycle`, `Ppu.Ppu.FetchDot`, `Ppu.Ppu.Clock`, `CpuBus.CpuBus.ClockPpu` and `Nestadia.Emulator.Clock` do not track the counter: they leave the boards unconstrained.
- Cartridge.Cartridge.ReadPrgMem: indexing `prg_memory` past its end panics in Rust. The model returns 0 there.
- Cartridge.Cartridge.WriteChrMem: indexing `chr_memory` past its end panics in Rust. The model skips the write there.
- Bus.NameTableOffset: requires bit 13 of the address. Without it `(addr & 0x2FFF) - 0x2000` underflows the u16: a debug build panics there, and a release build reaches `unreachable!()` in the mirroring match. Every caller, the PPU bus's $2000-$3EFF range, passes such an address.
- Cartridge.Cartridge.TakeIrqSetState: nestadia/src/cartridge/mod.rs, where the `Mapper` dispatch is defined, is not part of this model. The IRQ state is taken from MMC3 (mapper 004), the only board with an IRQ, and is false for every other board.
- Cartridge.Cartridge.GetPrgBank: server/nestadia-core/src/cartridge/mapper_000.rs has no `get_prg_bank`. For NROM the model reports bank 0 at $8000-$BFFF and bank 1 at $C000-$FFFF.
- Cartridge.Load: the loader of server/nestadia-core/src/cartridge/mod.rs:79-86 accepts mappers 0, 1, 2, 3 and 66 only. The MMC3 and AxROM boards of `nestadia/` are modelled, and the cartridge can hold them, but `Load` never builds them.
- Apu.ApuClock: nestadia/src/apu/mod.rs:215-230 calls the channels' `clock()` with no arguments, gated by `frame_counter % 2`, and then calls `clock_quarter_frame`/`clock_half_frame`. The channel files define only `clock(mode, frame_counter)`, which tests the cycle parity and the quarter and half frames itself. The model calls that signature once per APU clock, so the `% 2` gating and the separate quarter/half calls of mod.rs are not modelled.
- Apu.ApuClock: `length_counter_active()`, called by mod.rs, is not defined in common.rs. It is taken to mean a length counter above 0.
- ApuTriangle.TriangleChannel.IsMuted: triangle.rs:112 calls `timer.counter()`, which common.rs does not define for `Timer`. The model reads the timer's count.
- VramAddress.VramAddr.ResetLatch: the legacy PPU (nestadia-core/src/ppu/mod.rs:202) calls `reset_latch`, which server/nestadia-core/src/ppu/registers.rs does not define. It is taken to make the next `load` write the high byte.
- LegacyPpu.ScrollWritten: the type of the legacy PPU's scroll register is not part of this model. It is taken to be a two-write latch of X then Y.
- LegacyPpu.Ppu.Clock: the scanline IRQ tick of the legacy PPU's bus is counted by a ghost counter only. The bus type is not part of this model.
- The APU units (`Enveloppe`, `Timer`, `LengthCounter`, `LinearCounter`, sweep) are values held in the channel objects and reassigned. Rust holds them by value too, so nothing is aliased; their `&mut self` methods become functions from the old unit to the new.
- Floating-point audio is not modelled: `PULSE_MIXING_TABLE`, `TND_MIXING_TABLE`, `mix_samples`, nestadia/src/apu/dac.rs, `set_sample_rate` and `take_samples`. The DMC channel is absent from the source, and its register writes are ignored.
- opcode.rs, rgb_palette.rs and nestadia/src/cartridge/mod.rs are not part of this model. The opcode table and the RGB palette are parameters, and the cartridge dispatch follows server/nestadia-core/src/cartridge/mod.rs.
- The debugger, `get_save_data` beyond `Cartridge.Cartridge.GetSram`, `mem_dump` and `Cartridge::disassemble` are not modelled. The front-ends, the network server and the `server/` drafts other than the iNES loader and `VramAddr` are not modelled either.
- The legacy PPU's `render_pixel`, `dump_sprites` and `dump_tile` write debug pictures and are not modelled. Its `bg_palette` is.
- `log::warn!` and `println!` calls are no-ops.
- CartridgeDisassembler.DisassembleCartridge: its ghost parameters `space` and `banks` name the bytes and banks that the cartridge shows. `CartridgeDisassembler.SpaceShows` and `CartridgeDisassembler.ShowsOnly` prove they are `Space(cart)` and `Banks(cart)`.
- Disassembler.RelativeTarget: the `pc + offset` and `pc - (0xFF - offset) + 1` of the two `format`s are plain u16 additions that can overflow and panic in a debug build. The model wraps.
- Disassembler.At: the listed address `start + (index as u16)` (nestadia-core/src/cpu/disassembler.rs:79, 85-86, 93) is a plain u16 addition too, which panics in a debug build once a listing runs past $FFFF. The model wraps.
- Disassembler.DisassembleSlice and CartridgeDisassembler.DisassembleCartridge list relative operands with the corrected target (see "Findings"). The as-written lines are `Disassembler.LineAsWritten`.
- LegacyPpu.Ppu.ReadData reads palette entries through the corrected index (see "Findings"), where the source panics for $3F20-$3FFF.

## Findings

| source | as written | input that shows it | evidently intended | confidence | as-written member | corrected member |
|---|---|---|---|---|---|---|
| nestadia/src/cpu/disassembler.rs:48-57, 97 | the relative operand is formatted from `addr + required_bytes + 1` with `pc - (0xFF - offset) + 1` for offsets above $80, which lands two bytes past the branch | `BNE $FE` at $8000 is listed with target $8002 | the address the CPU branches to, $8000 | not executed | Disassembler.FormatAsWritten, Disassembler.CartBranchLineShown | Disassembler.Format, Disassembler.BranchOperandTarget |
| nestadia-core/src/cpu/disassembler.rs:44-53, 85 | the relative operand is formatted from the opcode's own address `start + index`, so forward branches come out two bytes short | `BEQ $05` at $C000 is listed with target $C005 | the address the CPU branches to, $C007 | not executed | Disassembler.LineAsWritten, Disassembler.CoreBranchLineShown | Disassembler.Line, Disassembler.DisassembleSlice |
| nestadia-core/src/ppu/mod.rs:242-246 | a palette read indexes the 32-entry table with `read_addr - 0x3F00`, with no mod 32 | a PPUDATA read of $3F20 indexes entry 32, past the end of the table (a panic) | the same mirroring as the write path at mod.rs:154-158, entry `addr % 32` | not executed | LegacyPpu.PaletteReadIndexAsWritten, LegacyPpu.PaletteReadOverruns | LegacyPpu.PaletteReadIndex, LegacyPpu.Ppu.ReadData |
| nestadia/src/ppu/registers.rs:170-177 | `master_slave_select` tests `SPRITE_SIZE` (bit 5) | a PPUCTRL of $40 (only MASTER_SLAVE_SELECT set) gives 0, and one of $20 gives 1 | the flag it is named after, MASTER_SLAVE_SELECT (bit 6, registers.rs:115-116) | not executed | PpuRegisters.MasterSlaveSelect, PpuRegisters.MasterSlaveSelectReadsSpriteSize | PpuRegisters.MasterSlaveSelectIntended |
