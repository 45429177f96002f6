# A verified model of a Game Boy emulator core

This project models the core of a Game Boy (DMG) emulator written in Rust.
It covers the following parts, and proves properties of each:

- **The SM83 CPU, in both variants.** The modular one is `core/src/cpu/mod.rs` with its `ops_*.rs` handlers. The older monolithic one is `core/src/cpu.rs`. The monolithic CPU imports the decoded opcode tables of `core/src/instruction.rs`; the modular one imports its own submodule `core/src/cpu/instruction.rs`, which is not part of this model and is assumed to hold the same tables.
- **The memory bus** (`core/src/memory_bus.rs`) with its address regions (`core/src/memory_map.rs`):
  - the MBC1 and MBC3 bank controllers;
  - the MBC3 real-time clock (`core/src/rtc.rs`);
  - the joypad register P1 (`core/src/joypad.rs`);
  - the instant OAM DMA.
- **The newer PPU** (`core/src/ppu/`): its mode state machine, its scan-line renderer and the debug tile view (`core/src/ppu/debug.rs`).
- **The legacy PPU** (`core/src/ppu.rs`).
- **The APU register block** (`core/src/apu.rs`).

## Layout

Each component has three parts:

- A `*Spec` module states what the component does, as functions over a datatype of its state.
- A class keeps the source's fields. Arrays stand for its fixed buffers: VRAM, WRAM, OAM, HRAM, the I/O block and the frame buffer. The class's methods change those fields in place. Each method's `ensures` ties the new state to the spec function applied to the old state.
- A `*Lemmas` module proves properties of the spec functions. These include:
  - round trips (push then pop, word split and join);
  - invariants each step preserves (sizes, the mode and line ranges of the PPU, the ranges of the APU counters);
  - "nothing else changes" frames;
  - agreement between the two CPU variants and between the two PPUs.

The opcode tables are checked entry by entry against an independent reference decoding (`Decoding`), which uses the usual x/y/z split of the opcode byte.

`core/src/cpu/ops_cb.rs` and `core/src/cpu/ops_load.rs` are not part of this model. The modular CPU declares them. Their handlers are taken instead from the code of `core/src/cpu.rs`, which is assumed equal to them, and from the macros of `core/src/cpu/ops_macros.rs`. The rows below cite those places.

## Where the model differs from what the code appears to intend

The model reproduces the code as written, including the places where the code does not do what its comments or its older variant do. A lemma exhibits each such difference:

- **STAT writes keep every bit.** `write_byte` first stores the byte and then masks the stored value with itself. So a STAT write reaches bits 0-2 as well, although the mask was meant to protect them. The model follows the code (`LegacyPpuLemmas.LegacyStatWriteUnmasked`).
- **The 0xCB prefix has length 1.** The prefix handler reads its operation from the byte after the prefix but does not advance PC. That byte is therefore executed again as a primary opcode (`CpuLemmas.PrefixStep`, `TableLemmas.OperandLengths`).
- **Unflipped sprites are mirrored in the newer renderer.** It indexes the sprite row with `c` where the background and the legacy renderer use `7 - c` (`LegacyPpuLemmas.LegacyReadsMirroredColumn`).
- **Visible lines last 708 dots in both PPUs.** HBlank runs until 456 dots after OAM scan (80 dots) and drawing (172 dots) have already used part of the line (`PpuLemmas.VisibleLineStep`, `LegacyPpuLemmas.LegacyVisibleLineStep`).
- **The legacy PPU subtracts where the newer one takes a remainder.** So a long step keeps more than a line's worth of dots (`LegacyPpuLemmas.LegacyLongStepKeepsDots`).
- **The steps of the two CPU variants differ in two ways.** They agree on the base cycles of the 0xCB entry (`CpuLemmas.BaseCyclesAgree`), but:
  - when HALT ends without an interrupt dispatch, the monolithic CPU runs an instruction in the same step (`CpuLemmas.MonolithicWakeRuns`);
  - its `get_af` masks F's low nibble, and the two reads agree only when that nibble is clear (`CpuLemmas.GetAfVariantsAgree`).
- **A sprite with OAM X in 1..7 is never drawn.** Its left edge `x_pos.wrapping_sub(8)` wraps to 249..255 and its right edge to 1..7, so no column lies between them, in both renderers (`RenderSpec.CoversSomeColumn`).

## Model

| member | source | states |
|---|---|---|
| Bits.Word | core/src/cpu/mod.rs:304-332 | a word built from two bytes has them as its high and low byte (`u16::from_le_bytes`, `to_le_bytes`) |
| Bits.SignExtend | core/src/cpu/mod.rs:273-275 | the sign-extended offset keeps the byte as its low byte and fills the high byte with copies of bit 7 |
| Bits.SignExtendValue | core/src/cpu/ops_alu.rs:213-225 | the extended offset, read modulo 2^16, is the signed value of the `i8` |
| Bits.NegativeExtension | core/src/cpu/ops_control.rs:46-54 | a byte with bit 7 set extends to 0xFF00 plus the byte, so a JR offset of 0x80 or more jumps backward |
| Bits.BitAndLowMask | core/src/memory_bus.rs:263 | masking with 2^n - 1 keeps the value modulo 2^n |
| Bits.BitOrDisjoint | core/src/memory_bus.rs:255-258 | or-ing a value below 2^n into a multiple of 2^n adds the two |
| CpuConstants.FlagMasks | core/src/cpu/constants.rs:2-11 | Z, N, H and C are the bits 7, 6, 5 and 4, pairwise disjoint, and together they make 0xF0 |
| CpuConstants.InterruptVector | core/src/cpu/constants.rs:14-18 | the vector of interrupt bit i is 0x40 + 8i |
| MemoryMap.RegionOf | core/src/memory_bus.rs:293-376 | every address decodes to a region whose bounds contain it |
| MemoryMap.RegionsTile | core/src/memory_map.rs:4-49 | the regions start at 0, each END + 1 is the next START, and IE alone occupies 0xFFFF |
| MemoryMap.RegionUnique | core/src/memory_map.rs:4-49 | an address lies in exactly one region |
| MemoryMap.RegionSizes | core/src/memory_map.rs:6-47 | each region's size constant is END - START + 1 |
| MemoryMap.EchoMirrorsWram | core/src/memory_map.rs:28-31 | an echo address less 0x2000 is a work-RAM address in C000-DDFF |
| MemoryMap.InterruptBitsInPriorityOrder | core/src/memory_map.rs:123-129 | VBlank, STAT, timer, serial and joypad are bits 0 to 4 in that order |
| MemoryMap.RegisterBlocksInIo | core/src/memory_map.rs:64-105 | the sound, wave-RAM and LCD registers all decode to the I/O region |
| Mbc.FromHeader | core/src/mbc.rs:14-31 | for each supported code, the controller, RAM and battery iff the code is in the listed sets; other codes are excluded by the precondition, because the source panics on them |
| Mbc.BatteryWithoutRamOnlyMbc3 | core/src/mbc.rs:16-27 | a battery without RAM occurs only for code 0x0F |
| Rtc.Fresh | core/src/rtc.rs:22-32 | a new register file has every counter at zero and its last update at the given clock reading |
| Rtc.Days | core/src/rtc.rs:66-70 | the 9-bit day counter, DL plus bit 0 of DH, is below 512 |
| Rtc.Min | core/src/rtc.rs:101-103 | `value.min(bound)` is at most the bound and is either the bound or the value |
| Rtc.WriteDh | core/src/rtc.rs:105-109 | a DH write keeps the old overflow bit 7 and clears bits 1-5 |
| Rtc.WriteValue | core/src/rtc.rs:99-111 | `write` keeps the counters in range, keeps the clock reference, keeps DH bit 7, and ignores selectors outside 0x08-0x0C |
| Rtc.ReadAfterWrite | core/src/rtc.rs:87-111 | reading a register just written gives the value clamped to 59/59/23, whole for DL, masked for DH; every other register reads as before |
| Rtc.WithDays | core/src/rtc.rs:73-83 | storing a day count puts it back into DL and DH bit 0, keeps the halt and overflow bits and clears bits 1-5, changing nothing else |
| Rtc.Counted | core/src/rtc.rs:55-63 | after the cascade seconds and minutes are below 60 and hours below 24, and the clock reference is the new reading |
| Rtc.UpdateValue | core/src/rtc.rs:34-84 | halted: only the clock reference moves; nothing elapsed: nothing changes; otherwise the counters end in range |
| Rtc.UpdateKeepsFlags | core/src/rtc.rs:66-83 | an update keeps DH bit 6, and bit 7 (day overflow) stays set once set |
| Rtc.UpdateAdvancesCount | core/src/rtc.rs:49-83 | an update adds exactly the elapsed seconds to the time the counters show, modulo 512 days, and sets the overflow bit when the day count passes 511 |
| Rtc.RtcRegisters.constructor | core/src/rtc.rs:22-32 | the object starts as `Fresh(now)` |
| Rtc.RtcRegisters.Read | core/src/rtc.rs:87-96 | returns the selected register, and 0xFF for any selector outside 0x08-0x0C |
| Rtc.RtcRegisters.Write | core/src/rtc.rs:99-111 | the new state is `WriteValue` of the old one |
| Rtc.RtcRegisters.Update | core/src/rtc.rs:34-84 | the new state is `UpdateValue` of the old one at the given clock reading |
| Rtc.RtcRegisters.CopyFrom | core/src/memory_bus.rs:442-451 | the latch copy makes the latched registers equal to the live ones |
| Joypad.Line | core/src/joypad.rs:40-69 | every button sits on one of the four input lines |
| Joypad.ActionOn | core/src/joypad.rs:40-54 | the action button on line k is A, B, Select or Start for k = 0..3 |
| Joypad.DirectionOn | core/src/joypad.rs:56-69 | the direction button on line k is Right, Left, Up or Down for k = 0..3 |
| Joypad.LineLowIffHeldSelected | core/src/joypad.rs:37-72 | a line reads low exactly when a held button of a selected group sits on it |
| Joypad.P1 | core/src/joypad.rs:37-72 | the P1 byte always has bits 6-7 set, bits 4-5 equal to the selection, and with neither group selected reads 0xF in bits 0-3 |
| Joypad.P1Lines | core/src/joypad.rs:37-72 | input bit k of P1 is 0 exactly when line k is pulled low; with both groups selected the masks are ANDed |
| Joypad.PressHolds | core/src/joypad.rs:82-172 | pressing holds exactly that button in addition to those already held |
| Joypad.ReleaseReleases | core/src/joypad.rs:175-187 | releasing releases exactly that button |
| Joypad.PressThenRelease | core/src/joypad.rs:82-187 | pressing a released button and releasing it again restores the state |
| Joypad.Joypad.constructor | core/src/joypad.rs:26-34 | a new joypad holds no button and its selection is 0x30 |
| Joypad.Joypad.ReadP1 | core/src/joypad.rs:37-72 | returns `P1` of the state and the selection |
| Joypad.Joypad.WriteP1 | core/src/joypad.rs:76-79 | stores only `value & 0x30` and leaves the buttons alone |
| Joypad.Joypad.KeyDown | core/src/joypad.rs:82-172 | holds the button, and returns true iff it was up before and its group is selected |
| Joypad.Joypad.KeyUp | core/src/joypad.rs:175-187 | releases the button and leaves the selection alone |
| Rtc.RtcRegisters.StoreDays | core/src/rtc.rs:73-83 | the stored register file is `WithDays` of the old one for a day count below 512 |
| Joypad.ActionLineBit | core/src/joypad.rs:40-54 | action line k reads high exactly unless the action group is selected and its button is held, and the action nibble has no upper bits |
| Joypad.DirectionLineBit | core/src/joypad.rs:56-69 | direction line k reads high exactly unless the direction group is selected and its button is held |
| Joypad.GroupLine | core/src/joypad.rs:42-53 | bit k of a group's nibble is clear exactly when the button on line k is held |
| Joypad.WiredLines | core/src/joypad.rs:70-72 | with both groups combined, an input bit is high only when it is high in both groups |
| Joypad.ClearHeldLines | core/src/joypad.rs:42-53 | the four `&=` steps leave the nibble ANDed with the group's held-button mask |
| Joypad.Joypad.Hold | core/src/joypad.rs:82-172 | the button is held afterwards, the selection is unchanged, and the result says whether it was up before |
| VramDebug.DrawTile | core/src/ppu/debug.rs:13-67 | the cells of tile t take their values from the tile sheet and every other cell keeps its value |
| VramDebug.DrawRow | core/src/ppu/debug.rs:28-64 | the cells of row y of tile t take their values from the tile sheet and every other cell keeps its value |
| BusSpec.ExtRead | core/src/memory_bus.rs:314-339 | A000-BFFF reads 0xFF while RAM is disabled, the latched clock register when one is mapped, and 0xFF without RAM |
| BusSpec.MaskBank | core/src/memory_bus.rs:263 | `bank & (count - 1)` is below the count and never above the bank |
| BusSpec.UpdateMbc1RomBank | core/src/memory_bus.rs:255-265 | only the ROM bank changes, and it ends below the ROM bank count |
| BusSpec.UpdateMbc1RamBank | core/src/memory_bus.rs:267-279 | only the RAM bank changes; it is 0 without RAM banks and below the RAM bank count otherwise |
| BusSpec.RamEnableWrite | core/src/memory_bus.rs:385-395 | only the enable flag changes, and on MBC1/MBC3 with RAM or an MBC3 battery it becomes `(v & 0x0F) == 0x0A` |
| BusSpec.ExtWrite | core/src/memory_bus.rs:462-478 | an A000-BFFF write changes only external RAM or the live clock, never resizes RAM, and does nothing while RAM is disabled |
| BusSpec.ExtRamWrite | core/src/memory_bus.rs:469-477 | an external-RAM write keeps the size of the RAM |
| BusSpec.DmaSource | core/src/memory_bus.rs:550-553 | the DMA source is the written byte times 0x100 |
| BusSpec.DmaBytes | core/src/memory_bus.rs:563-568 | a DMA copies exactly 160 bytes |
| BusSpec.Dma | core/src/memory_bus.rs:550-570 | the DMA changes only OAM |
| BusSpec.IoWrite | core/src/memory_bus.rs:492-537 | an I/O write never touches the cartridge or the ROM |
| BusSpec.RamWrite | core/src/memory_bus.rs:458-490 | a write to VRAM, work RAM, echo RAM, OAM or HRAM changes nothing outside those buffers |
| BusSpec.WriteKeepsSized | core/src/memory_bus.rs:382-548 | a write never resizes a buffer |
| BusSpec.RequestInterrupt | core/src/memory_bus.rs:282-290 | with bit < 5 only IF changes, gaining that bit; with a larger bit nothing changes |
| BusSpec.GetIoReg | core/src/memory_bus.rs:614-625 | addresses below the I/O range read 0xFF |
| BusSpec.SetIoRegDirect | core/src/memory_bus.rs:628-638 | an I/O register reads back the stored byte, IE reads back the byte masked to five bits, and other addresses are ignored |
| BusSpec.TickRtc | core/src/memory_bus.rs:587-593 | the clock tick changes only the live clock registers |
| BusSpec.RefreshP1 | core/src/memory_bus.rs:601-604 | refreshing P1 changes only the I/O buffer |
| BusSpec.DefaultIo | core/src/memory_bus.rs:56-96 | the power-on I/O buffer has 128 bytes, each the listed default |
| BusSpec.Initial | core/src/memory_bus.rs:53-139 | `MemoryBus::new` gives every buffer its region's size |
| BusSpec.RomBanks | core/src/memory_bus.rs:156-162 | the ROM bank count is an even number from 2 to 512 |
| BusSpec.RamBanks | core/src/memory_bus.rs:180-220 | the RAM bank count is the RAM size in whole 8 KiB banks, at least 1 and at most 16 |
| BusSpec.LoadedCart | core/src/memory_bus.rs:141-240 | after loading, ROM bank 1, RAM bank 0, RAM disabled, RAM present iff the header's type and size both say so, and the bank counts from the header |
| BusSpec.LoadedExt | core/src/memory_bus.rs:214-226 | the external RAM is zero-filled, of the header's size when the cart has RAM and empty otherwise |
| BusSpec.LoadRom | core/src/memory_bus.rs:141-240 | `load_rom` keeps the ROM, copies bank 0 from its start, and changes only the ROM, external RAM and cartridge state |
| BusLemmas.ReadCanon | core/src/memory_bus.rs:349 | an echo or RAM address reads the RAM byte at its canonical address, `addr - 0x2000` for echo RAM |
| BusLemmas.WriteCanon | core/src/memory_bus.rs:486 | an echo or RAM write is the RAM write at its canonical address |
| BusLemmas.RamReadWrite | core/src/memory_bus.rs:458-490 | a RAM write followed by a RAM read gives the written byte at the same address and the old byte elsewhere |
| BusLemmas.ReadOutsideRam | core/src/memory_bus.rs:293-379 | reads outside the RAM buffers do not depend on their contents |
| BusLemmas.RamReadAfterWrite | core/src/memory_bus.rs:309-540 | for VRAM, work RAM, echo RAM, OAM and HRAM a write followed by a read at the same address returns the byte |
| BusLemmas.RamWriteFrame | core/src/memory_bus.rs:458-490 | a RAM write leaves the reading of every other canonical address unchanged |
| BusLemmas.WordRoundTrip | core/src/memory_bus.rs:572-585 | `write_word` then `read_word` returns the word, little-endian, across two distinct RAM bytes |
| BusLemmas.RomBank0ReadOnly | core/src/memory_bus.rs:296-456 | no write changes what 0000-3FFF reads |
| BusLemmas.WriteKeepsRom | core/src/memory_bus.rs:382-548 | no write changes the ROM image |
| BusLemmas.NotUsable | core/src/memory_bus.rs:356-491 | FEA0-FEFF reads 0xFF and writes to it change nothing |
| BusLemmas.InterruptEnableMask | core/src/memory_bus.rs:541-543 | IE stores the written byte & 0x1F |
| BusLemmas.InterruptFlagMask | core/src/memory_bus.rs:504-511 | an IF write replaces bits 0-4 and keeps bits 5-7 |
| BusLemmas.DividerReset | core/src/memory_bus.rs:496-499 | a DIV write stores 0 |
| BusLemmas.StatWriteAsWritten | core/src/memory_bus.rs:363-522 | a STAT write stores the whole byte, because the mask is applied after the byte is already stored; it reads back with bit 7 set, and differs from the intended masked value whenever the mode or coincidence bits differ |
| BusLemmas.StatMaskBits | core/src/memory_bus.rs:521 | the mask expression keeps the current bits 0-2, and applied to the stored byte it is the identity |
| BusLemmas.JoypadSelect | core/src/memory_bus.rs:361-495 | a P1 write reads back as the joypad byte with selection `v & 0x30` |
| BusLemmas.IoStoresValue | core/src/memory_bus.rs:500-536 | any other I/O register stores and reads back the byte |
| BusLemmas.ReadIgnoresIo | core/src/memory_bus.rs:293-357 | reads below FF00 do not depend on the I/O buffer |
| BusLemmas.ReadIgnoresOam | core/src/memory_bus.rs:293-350 | reads below FE00 do not depend on OAM |
| BusLemmas.DmaCopies | core/src/memory_bus.rs:524-570 | a DMA write stores the value, and OAM[i] becomes what the bus read at `(v << 8) + i`, for every i < 160 |
| BusLemmas.DmaFromHighPageIgnored | core/src/memory_bus.rs:553-558 | a DMA from FE00 or above leaves OAM unchanged |
| BusLemmas.RomBankWriteInRange | core/src/memory_bus.rs:396-409 | a bank-low write keeps the ROM and RAM banks below their counts |
| BusLemmas.RamBankWriteInRange | core/src/memory_bus.rs:411-432 | a bank-high or RAM-select write keeps the banks in range |
| BusLemmas.ModeOrLatchWriteInRange | core/src/memory_bus.rs:434-455 | a mode or latch write keeps the banks in range |
| BusLemmas.WriteKeepsBanksInRange | core/src/memory_bus.rs:255-426 | after any write the ROM bank is below the ROM bank count, and the RAM bank is below the RAM bank count or 0 without RAM |
| BusLemmas.WriteKeepsCart | core/src/memory_bus.rs:458-545 | writes above 7FFF outside external RAM leave the cartridge state alone |
| BusLemmas.StartsInRange | core/src/memory_bus.rs:53-238 | the banks start in range after `new` and after `load_rom` |
| BusLemmas.RomNReadsSelectedBank | core/src/memory_bus.rs:298-308 | 4000-7FFF reads the selected bank's byte, or 0xFF past the end of the ROM |
| BusLemmas.BankZeroSelectsOne | core/src/memory_bus.rs:396-407 | a bank-low write of 0 selects bank 1 on MBC1 and MBC3 |
| BusLemmas.MaskBankWraps | core/src/memory_bus.rs:263 | with a power-of-two bank count the bank mask is the remainder, so a bank past the end wraps to the start |
| BusLemmas.JoinBits | core/src/memory_bus.rs:255-258 | in banking mode 0 the MBC1 bank is the lower five bits plus 32 times the upper bits |
| BusLemmas.ExtRamGated | core/src/memory_bus.rs:315-463 | with RAM disabled, A000-BFFF reads 0xFF and writes change nothing |
| BusLemmas.RamEnableIff | core/src/memory_bus.rs:385-395 | with RAM or an MBC3 battery, enable is set iff `(v & 0x0F) == 0x0A`; without an MBC the write changes nothing |
| BusLemmas.LatchOnlyOnSequence | core/src/memory_bus.rs:441-452 | the latched clock changes only on an MBC3 write of 0x01 after 0x00, and then it is the clock brought up to date |
| BusLemmas.LatchSequence | core/src/memory_bus.rs:441-452 | writing 0x00 then 0x01 latches the clock and resets the sequence |
| BusLemmas.ClockReadsLatched | core/src/memory_bus.rs:318-324 | with a clock register mapped, A000-BFFF reads the latched value |
| BusLemmas.RequestSetsBit | core/src/memory_bus.rs:282-290 | `request_interrupt(bit)` sets exactly that IF bit and leaves the other bits |
| BusLemmas.KeyDownInterrupt | core/src/memory_bus.rs:596-605 | a key press requests the joypad interrupt iff the joypad asks for it, and P1 then reads the new buttons |
| BusLemmas.PowerUpRegisters | core/src/memory_bus.rs:53-139 | after `new`, P1 reads 0xFF, LCDC 0x91, STAT 0x85, IF 0xE1 and IE 0 |
| BusLemmas.LoadedRomReads | core/src/memory_bus.rs:141-308 | after `load_rom`, 0000-7FFF read the ROM image byte, or 0xFF past its end |
| BusLemmas.LoadedBankOneReads | core/src/memory_bus.rs:229-308 | after `load_rom`, bank 1 is mapped at 4000-7FFF |
| Bus.MemoryBus.constructor | core/src/memory_bus.rs:53-139 | the new bus is `BusSpec.Initial` at the given clock reading |
| Bus.MemoryBus.ReadByte | core/src/memory_bus.rs:293-379 | returns `BusSpec.ReadByte` of the bus state |
| Bus.MemoryBus.ReadWord | core/src/memory_bus.rs:572-577 | returns the little-endian word of the two bytes read |
| Bus.MemoryBus.GetIoReg | core/src/memory_bus.rs:614-625 | returns `BusSpec.GetIoReg` of the bus state |
| Bus.MemoryBus.UpdateMbc1RomBank | core/src/memory_bus.rs:255-265 | changes only the controller registers, as `BusSpec.UpdateMbc1RomBank` |
| Bus.MemoryBus.UpdateMbc1RamBank | core/src/memory_bus.rs:267-279 | changes only the controller registers, as `BusSpec.UpdateMbc1RamBank` |
| Bus.MemoryBus.WriteByte | core/src/memory_bus.rs:382-548 | the new bus state is `BusSpec.WriteByte` of the old one, with the same buffer objects |
| Bus.MemoryBus.PerformDma | core/src/memory_bus.rs:550-570 | the copy loop leaves the state `BusSpec.Dma` describes |
| Bus.MemoryBus.WriteWord | core/src/memory_bus.rs:579-585 | the new state is the low byte written at `addr` and then the high byte at `addr + 1` |
| Bus.MemoryBus.RequestInterrupt | core/src/memory_bus.rs:282-290 | the new state is `BusSpec.RequestInterrupt` of the old one |
| Bus.MemoryBus.SetIoRegDirect | core/src/memory_bus.rs:628-638 | the new state is `BusSpec.SetIoRegDirect` of the old one |
| Bus.MemoryBus.TickRtc | core/src/memory_bus.rs:587-593 | the new state is `BusSpec.TickRtc` of the old one |
| Bus.MemoryBus.SetClock | core/src/rtc.rs:34-46 | the host's clock reading changes and nothing else |
| Bus.MemoryBus.KeyDown | core/src/memory_bus.rs:596-605 | the new state is `BusSpec.KeyDown` of the old one |
| Bus.MemoryBus.KeyUp | core/src/memory_bus.rs:606-612 | the new state is `BusSpec.KeyUp` of the old one |
| Bus.MemoryBus.LoadRom | core/src/memory_bus.rs:141-240 | the new state is `BusSpec.LoadRom` of the old one and the ROM image |
| Bus.MemoryBus.ReadExternal | core/src/memory_bus.rs:314-339 | the A000-BFFF read is the external-RAM read of the bus state: 0xFF while RAM is disabled or absent, the latched clock register when one is mapped, otherwise the banked RAM byte |
| Bus.MemoryBus.ReadIo | core/src/memory_bus.rs:358-374 | the I/O read of the bus state: P1 from the joypad, STAT with bit 7 set, the stored byte otherwise |
| Bus.MemoryBus.Mbc1Bank | core/src/memory_bus.rs:255-266 | the MBC1 ROM bank before masking, as BusSpec.Mbc1RomBank of the controller |
| Bus.MemoryBus.WriteRamEnable | core/src/memory_bus.rs:385-395 | only the controller changes, as the RAM-enable write of the bus model |
| Bus.MemoryBus.WriteRomBank | core/src/memory_bus.rs:396-410 | only the controller changes, as the ROM-bank write of the bus model |
| Bus.MemoryBus.WriteRamBank | core/src/memory_bus.rs:411-433 | only the controller changes, as the RAM-bank write of the bus model |
| Bus.MemoryBus.WriteMbc1Upper | core/src/memory_bus.rs:413-417 | MBC1: only the controller changes, as the RAM-bank write of the bus model |
| Bus.MemoryBus.SelectMbc3Register | core/src/memory_bus.rs:418-430 | MBC3: only the controller changes, as the RAM-bank write of the bus model |
| Bus.MemoryBus.WriteModeOrLatch | core/src/memory_bus.rs:434-455 | only the controller changes, as the mode or latch write of the bus model |
| Bus.MemoryBus.WriteController | core/src/memory_bus.rs:385-455 | a write below 8000 changes only the controller, as the controller write of the bus model |
| Bus.MemoryBus.WriteExternal | core/src/memory_bus.rs:462-479 | the A000-BFFF write is the external write of the bus model |
| Bus.MemoryBus.DmaCopyByte | core/src/memory_bus.rs:550-570 | one DMA iteration extends the copied prefix of OAM by one byte of the source and changes nothing else |
| Bus.MemoryBus.WriteIo | core/src/memory_bus.rs:492-537 | the I/O write is the I/O write of the bus model |
| Bus.MemoryBus.StoreStat | core/src/memory_bus.rs:512-523 | STAT holds the written byte under the mask applied to the written byte itself, which leaves it unchanged |
| Bus.MemoryBus.WriteCartArea | core/src/memory_bus.rs:385-479 | a write below C000 is the bus model's write |
| Bus.MemoryBus.WriteHighArea | core/src/memory_bus.rs:487-544 | a write from FE00 up is the bus model's write |
| Bus.MemoryBus.WriteRam | core/src/memory_bus.rs:480-486 | a write to work RAM or its echo is the RAM write of the bus model |
| Bus.MemoryBus.PressButton | core/src/memory_bus.rs:596-605 | the press is recorded, and the joypad interrupt is requested exactly when the joypad asks for it |
| Bus.MemoryBus.RefreshP1 | core/src/memory_bus.rs:596-613 | the P1 byte becomes what the joypad reads |
| Bus.MemoryBus.LoadHeader | core/src/memory_bus.rs:147-226 | the cartridge type, the ROM and RAM bank counts and the zeroed external RAM come from the header |
| Bus.MemoryBus.ResetRegisters | core/src/memory_bus.rs:229-238 | ROM bank 1, RAM bank 0, RAM disabled, mode 0, MBC1 banks 1 and 0, no latch in progress, no clock register mapped, a fresh clock and a zero latched copy |
| Bus.MemoryBus.SetCartType | core/src/memory_bus.rs:152-153 | only the type, RAM and battery flags change, to the header's |
| Bus.MemoryBus.SetRomBanks | core/src/memory_bus.rs:156-162 | only the ROM bank count changes |
| Bus.MemoryBus.SetExternalRam | core/src/memory_bus.rs:217-226 | with RAM and a non-zero size, zeroed RAM of that size in whole 8 KiB banks; otherwise no RAM, no banks and the RAM flag cleared |
| Bus.MemoryBus.CopyBankZero | core/src/memory_bus.rs:208-214 | bank 0 holds the first 16 KiB of the image |
| PpuConstants.ModeBits | core/src/ppu/constants.rs:29-32 | the STAT bits of a mode fit in bits 0-1 |
| PpuConstants.ModeBitsInjective | core/src/ppu/constants.rs:29-32 | the four modes have distinct mode bits |
| PpuStates.NewState | core/src/ppu/state.rs:17-28 | the power-on state is consistent (dots 0, line 0, OAM scan) with every flag false |
| PpuStates.ResetForLcdOff | core/src/ppu/state.rs:31-39 | the reset state is at line 0, dot 0, HBlank with the coincidence and STAT-line flags false, and keeps `lcdc`, `stat` and `vblank_just_occurred` |
| VramDebug.DebugCell | core/src/ppu/debug.rs:21-62 | the buffer cell of tile t, row y, column x lies inside the 128 x 192 buffer |
| VramDebug.DebugRowAddr | core/src/ppu/debug.rs:18-28 | every row address read, `0x8000 + 16t + 2y`, and the byte after it lie in VRAM (the highest is 0x97FE) |
| VramDebug.DebugShade | core/src/ppu/debug.rs:46-57 | every pixel value is below 4 |
| VramDebug.DebugView | core/src/ppu/debug.rs:6-70 | the view has 24576 cells, each below 4 |
| VramDebug.DebugCellDecodes | core/src/ppu/debug.rs:13-67 | distinct (tile, row, column) triples land in distinct cells |
| VramDebug.CellEncodes | core/src/ppu/debug.rs:13-67 | every cell is written by exactly one (tile, row, column) triple |
| VramDebug.DebugViewShowsTile | core/src/ppu/debug.rs:13-67 | cell ((t/16)*8 + y)*128 + (t%16)*8 + x of the view is that pixel's two-bit index |
| VramDebug.DebugRowsInVram | core/src/ppu/debug.rs:31-44 | the out-of-VRAM fill branch is never taken |
| VramDebug.DebugShadeIsTileRow | core/src/ppu/debug.rs:49-54 | the pixel is built from bit 7 - x of the row's two bytes |
| VramDebug.RenderVramDebug | core/src/ppu/debug.rs:6-70 | the nested loops leave the buffer equal to `DebugView` of the bus, which they only read |
| RenderSpec.BitValue | core/src/ppu/render.rs:241-244 | one bit of a tile byte is 0 or 1 |
| RenderSpec.PixelIndex | core/src/ppu/render.rs:241-245 | the two-bit pixel index has bit c of the low byte as bit 0 and bit c of the high byte as bit 1 |
| RenderSpec.ColorFromPalette | core/src/ppu/render.rs:123-126 | the shade `(palette >> 2i) & 3` is below 4 |
| RenderSpec.TileDataAddr | core/src/ppu/render.rs:216-228 | with LCDC bit 4 set, 0x8000 + 16 id within 0x8000-0x8FF0; with it clear, 0x9000 + 16 (signed id) within 0x8800-0x97F0 |
| RenderSpec.TileRowPixelIndex | core/src/ppu/render.rs:232-245 | the index is below 4, and 0 when the row address or the byte after it is outside VRAM |
| RenderSpec.MapBase | core/src/ppu/render.rs:144-191 | a tile map starts at 0x9800 or 0x9C00 |
| RenderSpec.LayerRowAddr | core/src/ppu/render.rs:150-208 | a background or window row address lies in 0x8000-0x97FE |
| RenderSpec.BgPixelIndex | core/src/ppu/render.rs:131-169 | the background index is below 4 |
| RenderSpec.WindowPixelIndex | core/src/ppu/render.rs:174-212 | the window index, for a pixel the window covers, is below 4 |
| RenderSpec.BgWinIndex | core/src/ppu/render.rs:25-57 | the layer index is below 4, and 0 when LCDC bit 0 is clear |
| RenderSpec.SpriteHeight | core/src/ppu/render.rs:271 | sprites are 8 or 16 rows high |
| RenderSpec.OamAddr | core/src/ppu/render.rs:278-282 | byte k of OAM entry i lies in OAM |
| RenderSpec.OamByteIsRead | core/src/ppu/render.rs:278-282 | the OAM byte used is the byte the bus reads at that address |
| RenderSpec.SpriteAt | core/src/ppu/render.rs:277-306 | the collected entry carries its OAM index, its Y and X bytes and the line's sprite height |
| RenderSpec.FirstVisible | core/src/ppu/render.rs:277-311 | the scan keeps at most the cap it is given |
| RenderSpec.FirstVisibleEntries | core/src/ppu/render.rs:277-311 | every kept entry is visible on the line, is the entry read from OAM, and the entries keep OAM order |
| RenderSpec.FirstVisibleSkips | core/src/ppu/render.rs:283-288 | an entry that is off-screen or does not cover the line is skipped |
| RenderSpec.VisibleFrom | core/src/ppu/render.rs:277-291 | the number of visible entries from an OAM index on is at most the number of entries left |
| RenderSpec.FirstVisibleLength | core/src/ppu/render.rs:277-291 | the scan keeps exactly as many entries as are visible, up to the cap |
| RenderSpec.FirstVisibleComplete | core/src/ppu/render.rs:277-291 | while the scan keeps fewer than the cap, every visible entry from its start on is among those kept |
| RenderSpec.Insert | core/src/ppu/render.rs:313-320 | inserting adds the sprite to the multiset and keeps the list sorted by (x, OAM index) |
| RenderSpec.InsertAtFront | core/src/ppu/render.rs:313-320 | a sprite that precedes the head of a sorted list keeps it sorted at the front |
| RenderSpec.InsertAfterHead | core/src/ppu/render.rs:313-320 | inserting behind the head keeps the list sorted |
| RenderSpec.PrecedesTransitive | core/src/ppu/render.rs:313-320 | the (x, OAM index) order is transitive |
| RenderSpec.SortByPosition | core/src/ppu/render.rs:313-320 | the sort returns a sorted permutation of its input |
| RenderSpec.ScanlineSprites | core/src/ppu/render.rs:268-323 | `fetch_scanline_sprites` returns at most 10 sprites, sorted by (x, OAM index) |
| RenderSpec.ScanlineSpritesCount | core/src/ppu/render.rs:266-312 | a line gets ten sprites, or every visible one when fewer than ten are visible |
| RenderSpec.ScanlineSpritesExact | core/src/ppu/render.rs:266-312 | every sprite of a line is a visible OAM entry as read, and with fewer than ten found no visible entry is missing |
| RenderSpec.CoversSomeColumn | core/src/ppu/render.rs:74-75 | a sprite covers some screen column iff its OAM X is at least 8; with X in 1..7 the wrapped edges leave no column |
| RenderSpec.SpriteColumn | core/src/ppu/render.rs:79-85 | the column inside a covering sprite is 0-7 |
| RenderSpec.SpriteTileRow | core/src/ppu/render.rs:337-349 | the row within the chosen tile is 0-7 |
| RenderSpec.SpritePixelIndex | core/src/ppu/render.rs:328-356 | the sprite pixel index is below 4 |
| RenderSpec.LeastOpaque | core/src/ppu/render.rs:70-97 | the search returns the opaque entry with the least key, the earliest among equal keys, or none when no entry is opaque |
| RenderSpec.Winner | core/src/ppu/render.rs:70-97 | the winning sprite at x is a covering sprite with a nonzero pixel and the least X, the first in list order among equal X; none iff there is no such sprite |
| RenderSpec.OpaqueFlags | core/src/ppu/render.rs:75-87 | one flag per sprite: whether it covers x with a nonzero pixel |
| RenderSpec.Keys | core/src/ppu/render.rs:70-77 | the comparison key of each sprite is its X |
| RenderSpec.PixelShade | core/src/ppu/render.rs:35-118 | every shade is below 4 |
| RenderSpec.LineShades | core/src/ppu/render.rs:35-118 | a rendered line has 160 shades, each below 4 |
| RenderSpec.Splice | core/src/ppu/render.rs:116-118 | the line replaces exactly its 160 frame cells and the rest of the frame is kept |
| RenderSpec.RenderedLine | core/src/ppu/render.rs:6-118 | the rendered line has 160 entries |
| Render.FetchScanlineSprites | core/src/ppu/render.rs:268-323 | the sprites collected for a line are `ScanlineSprites`: the first ten visible OAM entries, sorted by X and then by OAM index |
| Render.ScanOam | core/src/ppu/render.rs:277-314 | the OAM loop yields `FirstVisible` from entry 0 with room for ten |
| Render.ScanEntry | core/src/ppu/render.rs:278-312 | one OAM entry either ends the scan with ten sprites already found, or extends the list so that the rest of the scan still yields the same sprites |
| Render.OnLine | core/src/ppu/render.rs:279-288 | an entry is kept iff its X and Y are on screen and the line falls inside its height |
| Render.TakeVisible | core/src/ppu/render.rs:291-309 | appending one visible entry and scanning on with one less room gives the same list |
| Render.ReadSprite | core/src/ppu/render.rs:292-309 | the entry built from OAM bytes 0-3 and OBP0/OBP1 is `SpriteAt` |
| Render.BestSprite | core/src/ppu/render.rs:67-97 | a sprite is found iff `Winner` finds one, and then the pixel, palette and priority flag are that sprite's |
| Render.LeastOpaqueExtends | core/src/ppu/render.rs:72-97 | one more loop step makes the new sprite the best iff it is opaque and its X is strictly below the best X so far (255 when none) |
| Render.Consider | core/src/ppu/render.rs:73-95 | a sprite takes over iff it covers x with a nonzero pixel and has X below the best so far; its pixel index is read at the flipped column |
| Render.Shade | core/src/ppu/render.rs:38-117 | the shade of one pixel is `PixelShade` |
| Render.RenderScanline | core/src/ppu/render.rs:6-118 | on a line of 144 or more the frame is unchanged; otherwise exactly its 160 cells become `RenderedLine` and no other cell changes |
| Render.LineRegisters | core/src/ppu/render.rs:18-23 | the scroll, window and palette registers are those the bus reads |
| Render.ShadeLine | core/src/ppu/render.rs:35-118 | the pixel loop stores `LineShades` into the 160 cells of the line and nothing else |
| PpuSpec.Cache | core/src/ppu/mod.rs:48-51 | only LCDC and STAT change, and they become the bytes the bus reads |
| PpuSpec.LcdOff | core/src/ppu/mod.rs:54-68 | the LCD-off path keeps the bus well formed; its effect is stated by `PpuLemmas.LcdOffStep` |
| PpuSpec.Timed | core/src/ppu/mod.rs:70-141 | the timing part leaves the cached registers, the coincidence flag and the STAT line alone; its transitions are stated by the `PpuLemmas` timing lemmas |
| PpuSpec.TimedFrame | core/src/ppu/mod.rs:85-104 | the frame keeps its 23040 cells |
| PpuSpec.TimedBus | core/src/ppu/mod.rs:106-139 | the bus stays well formed; `PpuLemmas.TimedBusKeeps` states that only LY may change |
| PpuSpec.CheckLyc | core/src/ppu/mod.rs:153-156 | only the coincidence flag changes, and it is set iff the line equals LYC |
| PpuSpec.NewStat | core/src/ppu/mod.rs:159-168 | the new STAT has the mode in bits 0-1, the coincidence flag in bit 2, the cached bits 3-6 and bit 7 set |
| PpuSpec.UpdateStat | core/src/ppu/mod.rs:159-173 | the bus stays well formed; `PpuLemmas.StepSetsStat` states the stored byte |
| PpuSpec.RequestIf | core/src/ppu/mod.rs:218-222 | the bus stays well formed; `PpuLemmas.RequestIfSets` states the IF bit |
| PpuSpec.Interrupts | core/src/ppu/mod.rs:177-213 | the VBlank flag is cleared and the STAT line becomes whether any enabled condition holds now |
| PpuSpec.Signal | core/src/ppu/mod.rs:143-148 | the bus stays well formed; its effect is stated by `PpuLemmas.SignalSetsStat` and `PpuLemmas.SignalSetsIf` |
| PpuSpec.Step | core/src/ppu/mod.rs:47-149 | a step keeps the bus well formed and the frame at 23040 cells |
| PpuLemmas.OneTransitionPerStep | core/src/ppu/mod.rs:74-141 | a step ends the current mode iff its dots reach the mode's length, and then enters the next mode; otherwise only the dots grow |
| PpuLemmas.EndHBlankMode | core/src/ppu/mod.rs:108-121 | the end of HBlank enters VBlank on line 144 and OAM scan otherwise |
| PpuLemmas.EndVBlankLineMode | core/src/ppu/mod.rs:127-135 | the end of a VBlank line enters OAM scan when the line wraps to 0 and stays in VBlank otherwise |
| PpuLemmas.TimedKeepsConsistent | core/src/ppu/mod.rs:74-141 | the line stays in 0..153 with VBlank on exactly lines 144-153; the line changes iff HBlank or a VBlank line ends, and then to the next line modulo 154 |
| PpuLemmas.EndHBlankConsistent | core/src/ppu/mod.rs:108-121 | the end of HBlank keeps the frame invariant and moves to the next line |
| PpuLemmas.EndVBlankLineConsistent | core/src/ppu/mod.rs:127-135 | the end of a VBlank line keeps the frame invariant and moves to the next line modulo 154 |
| PpuLemmas.VBlankSignalAtLine144 | core/src/ppu/mod.rs:113-115 | the VBlank signal is raised iff the step moves from line 143 to line 144 |
| PpuLemmas.EndHBlankSignal | core/src/ppu/mod.rs:113-115 | the end of HBlank raises the VBlank signal iff it leaves line 143 |
| PpuLemmas.EndVBlankLineSignal | core/src/ppu/mod.rs:126-139 | the end of a VBlank line never raises the VBlank signal |
| PpuLemmas.LineElapsed | core/src/ppu/mod.rs:75-109 | the dots elapsed on a visible line are at least the dots counted in the current mode |
| PpuLemmas.VisibleLineStep | core/src/ppu/mod.rs:74-125 | a step that stays on a visible line adds exactly its cycles to the elapsed dots; a step leaves the line only once 80 + 172 + 456 = 708 dots have elapsed, not the 456 the comments describe |
| PpuLemmas.VisibleLineLasts708 | core/src/ppu/mod.rs:74-125 | any run of steps whose total stays below the dots left to 708 keeps the PPU on the same visible line |
| PpuLemmas.LineStartLasts708 | core/src/ppu/mod.rs:74-125 | from the start of a visible line, 707 dots in any number of steps do not reach the next line |
| PpuLemmas.StepKeepsConsistent | core/src/ppu/mod.rs:47-149 | a step keeps the frame invariant on line and mode |
| PpuLemmas.StepTiming | core/src/ppu/mod.rs:47-149 | with the LCD on, the dots, line and mode after a step are those of the timing, with the cached registers and the VBlank signal cleared |
| PpuLemmas.LcdOffStep | core/src/ppu/mod.rs:54-68 | with the LCD off the frame is untouched; an already reset PPU only caches the registers; otherwise the state is reset, LY becomes 0 and STAT keeps bits 3-7 with mode 0 |
| PpuLemmas.LyWriteStoresZero | core/src/ppu/mod.rs:59 | writing 0 to LY through the bus stores 0 |
| PpuLemmas.DirectFrame | core/src/memory_bus.rs:628-638 | a direct register write changes no other register or address |
| PpuLemmas.StepSetsLy | core/src/ppu/mod.rs:123-137 | LY becomes the new line when the step changes line and is left as it was otherwise |
| PpuLemmas.SignalKeepsLy | core/src/ppu/mod.rs:143-148 | the STAT and interrupt part of the step leaves LY alone |
| PpuLemmas.InterruptsKeep | core/src/ppu/mod.rs:177-213 | the interrupt part changes no register but IF |
| PpuLemmas.StepSetsStat | core/src/ppu/mod.rs:144-145 | after a step STAT holds the new mode in bits 0-1, the interrupt enables read at the start in bits 3-6, and the coincidence flag set iff the line equals LYC |
| PpuLemmas.TimedBusKeeps | core/src/ppu/mod.rs:106-139 | the timing part changes no register but LY |
| PpuLemmas.SignalSetsStat | core/src/ppu/mod.rs:144-145 | the STAT update stores `NewStat` and changes only the coincidence flag |
| PpuLemmas.StepRequests | core/src/ppu/mod.rs:177-213 | after a step IF is the old IF with bit 0 set iff the VBlank signal was raised and bit 1 set iff the STAT line rose |
| PpuLemmas.SignalSetsIf | core/src/ppu/mod.rs:177-213 | the same statement about IF for the part after the timing |
| PpuLemmas.InterruptsSetIf | core/src/ppu/mod.rs:177-213 | the VBlank request follows the signal and the STAT request happens only on a rising edge of the STAT line |
| PpuLemmas.RequestIfSets | core/src/ppu/mod.rs:218-222 | the requested bit is ORed into IF |
| PpuLemmas.RequestIfIsBusRequest | core/src/ppu/mod.rs:218-222 | the PPU's request has the same effect as the bus's `request_interrupt` |
| PpuLemmas.MaskIsShift | core/src/ppu/mod.rs:221 | the bit mask is `1 << bit` |
| PpuLemmas.VBlankRequestedAtLine144 | core/src/ppu/mod.rs:113-182 | bit 0 of IF is set by the step that moves from line 143 to 144 and otherwise keeps its value |
| PpuUnit.Ppu.constructor | core/src/ppu/mod.rs:22-28 | both buffers are new and cleared and the state is the post-boot state |
| PpuUnit.Ppu.FrameBuffer | core/src/ppu/mod.rs:31-33 | the frame buffer holds 160 x 144 shades |
| PpuUnit.Ppu.VramDebugBuffer | core/src/ppu/mod.rs:36-38 | the debug buffer has the size of the tile sheet |
| PpuUnit.Ppu.UpdateVramDebugBuffer | core/src/ppu/mod.rs:41-43 | the debug buffer becomes `DebugView` of the bus |
| PpuUnit.Ppu.Step | core/src/ppu/mod.rs:47-149 | state, frame buffer and bus after the step are exactly `PpuSpec.Step` of the old ones |
| PpuUnit.Ppu.CacheRegisters | core/src/ppu/mod.rs:50-51 | the state becomes `Cache` of the old state and the bus |
| PpuUnit.Ppu.TurnOff | core/src/ppu/mod.rs:54-68 | state and bus become `LcdOff` of the old ones |
| PpuUnit.Ppu.ResetForLcdOff | core/src/ppu/state.rs:31-39 | the state becomes `PpuStates.ResetForLcdOff` of the old state |
| PpuUnit.Ppu.StepLcdOn | core/src/ppu/mod.rs:70-148 | with the LCD on, state, bus and frame become the timing followed by `Signal` |
| PpuUnit.Ppu.AdvanceTiming | core/src/ppu/mod.rs:70-141 | the state becomes `Timed` of the old state, the bus `TimedBus` and the frame `TimedFrame` |
| PpuUnit.Ppu.Transition | core/src/ppu/mod.rs:74-141 | the `match` on the mode completes `Timed`, `TimedBus` and `TimedFrame` once the dots are added |
| PpuUnit.Ppu.OamScanStep | core/src/ppu/mod.rs:75-80 | the mode 2 arm completes the timing |
| PpuUnit.Ppu.VramReadStep | core/src/ppu/mod.rs:81-105 | the mode 3 arm completes the timing and renders the line when it ends |
| PpuUnit.Ppu.EndVramRead | core/src/ppu/mod.rs:85-104 | the end of mode 3 gives the `Timed` state in HBlank, leaves the bus alone, and renders lines 0-143 into their 160 frame-buffer entries as `TimedFrame` says |
| PpuUnit.Ppu.HBlankStep | core/src/ppu/mod.rs:106-125 | the HBlank arm completes the timing, stores LY and leaves the frame |
| PpuUnit.Ppu.VBlankStep | core/src/ppu/mod.rs:126-139 | the VBlank arm completes the timing, stores LY and leaves the frame |
| PpuUnit.Ppu.NextHBlankState | core/src/ppu/mod.rs:109-121 | the state change at the end of HBlank is that of `Timed` |
| PpuUnit.Ppu.NextVBlankState | core/src/ppu/mod.rs:128-135 | the state change at the end of a VBlank line is that of `Timed` |
| PpuUnit.Ppu.StoreLy | core/src/ppu/mod.rs:123-137 | the bus gets the current line in LY by a direct write |
| PpuUnit.Ppu.SignalChanges | core/src/ppu/mod.rs:143-148 | state and bus become `Signal` of the old ones |
| PpuUnit.Ppu.CheckLycAndStat | core/src/ppu/mod.rs:144-145 | the state becomes `CheckLyc` and the bus `UpdateStat` of the new state |
| PpuUnit.Ppu.CheckLycCoincidence | core/src/ppu/mod.rs:153-156 | the state becomes `CheckLyc` of the old state and the bus |
| PpuUnit.Ppu.UpdateStatRegister | core/src/ppu/mod.rs:159-173 | the bus becomes `UpdateStat` of the state |
| PpuUnit.Ppu.CheckAndRequestInterrupts | core/src/ppu/mod.rs:177-213 | state and bus become `Interrupts` of the old ones |
| PpuUnit.Ppu.RequestVBlank | core/src/ppu/mod.rs:179-182 | a raised VBlank signal is cleared and requests interrupt bit 0; otherwise nothing changes |
| PpuUnit.Ppu.RequestStatOnRise | core/src/ppu/mod.rs:187-212 | the STAT line becomes the current condition and interrupt bit 1 is requested iff it rose |
| PpuUnit.Ppu.StatInterruptLine | core/src/ppu/mod.rs:187-205 | the condition is whether an enabled LYC or mode condition holds |
| PpuUnit.Ppu.RequestInterrupt | core/src/ppu/mod.rs:218-222 | the bus becomes `RequestIf` of the old bus |
| LegacyPpuSpec.NewLegacyState | core/src/ppu.rs:84-97 | the power-on state is line 0 in HBlank at dot 0, inside the frame invariant, with every flag clear |
| LegacyPpuSpec.LegacyReset | core/src/ppu.rs:117-122 | the LCD-off branch leaves line 0, dot 0 and HBlank with the coincidence flag and the STAT line low, keeping LCDC and the VBlank signal |
| LegacyPpuSpec.LegacyLcdOff | core/src/ppu.rs:115-132 | the LCD-off path keeps the bus well formed; its effect is stated by `LegacyPpuLemmas.LegacyLcdOffStep` |
| LegacyPpuSpec.LegacyEndHBlank | core/src/ppu.rs:155-168 | the end of HBlank moves to the next line and keeps the dots left after the subtraction |
| LegacyPpuSpec.LegacyEndVBlankLine | core/src/ppu.rs:171-181 | the end of a VBlank line keeps the dots left after the subtraction |
| LegacyPpuSpec.LegacyTimed | core/src/ppu.rs:135-187 | the timing leaves LCDC, the coincidence flag and the STAT line alone |
| LegacyPpuSpec.LegacyTimedBus | core/src/ppu.rs:154-182 | the bus stays well formed; `LegacyPpuLemmas.LegacyTimedBusKeeps` states that only LY may change |
| LegacyPpuSpec.LegacyTimedFrame | core/src/ppu.rs:146-153 | the frame keeps its 23040 cells |
| LegacyPpuSpec.LegacySpriteIndex | core/src/ppu.rs:529-567 | the sprite's pixel index at a covered column is one of the four colours |
| LegacyPpuSpec.OamSprites | core/src/ppu.rs:508-513 | the 40 OAM entries, entry i read from OAM bytes 4i to 4i+3 |
| LegacyPpuSpec.LegacyOpaqueFlags | core/src/ppu.rs:515-570 | for each entry, whether it covers the pixel with a nonzero colour |
| LegacyPpuSpec.LeastKey | core/src/ppu.rs:572-578 | the leader after n entries is one of them and is opaque |
| LegacyPpuSpec.LeastKeyIsLeast | core/src/ppu.rs:570-578 | the leader has the lowest X of all opaque entries seen, ties going to the lowest index; no leader iff none is opaque |
| LegacyPpuSpec.LeastKeyStep | core/src/ppu.rs:572-578 | one more entry becomes the leader iff it is opaque and its X is strictly lower than the leader's |
| LegacyPpuSpec.LegacyWinner | core/src/ppu.rs:492-585 | the winning sprite is one of the 40 and is opaque at the pixel |
| LegacyPpuSpec.LegacySpritePixel | core/src/ppu.rs:492-585 | the pixel index returned is one of the four colours |
| LegacyPpuSpec.WinnerPixel | core/src/ppu.rs:573-584 | the winner's pixel index is one of the four colours |
| LegacyPpuSpec.LegacyPixelShade | core/src/ppu.rs:331-382 | every shade is one of the four |
| LegacyPpuSpec.LegacyLine | core/src/ppu.rs:318-383 | a line is 160 shades, each one of the four |
| LegacyPpuSpec.LegacyCheckLyc | core/src/ppu.rs:190-191 | only the coincidence flag changes, and it is set iff the line equals LYC |
| LegacyPpuSpec.LegacyStatValue | core/src/ppu.rs:194-199 | the byte written to STAT has the mode in bits 0-1, the coincidence flag in bit 2 and bits 3-7 as read from the bus |
| LegacyPpuSpec.LegacyRequest | core/src/ppu.rs:298-301 | the bus stays well formed; `LegacyPpuLemmas.LegacyRequestIsRequestIf` states the IF bit |
| LegacyPpuSpec.LegacyInterrupts | core/src/ppu.rs:202-229 | the STAT line becomes whether an enabled condition holds, read from the STAT byte on the bus, and the VBlank signal is cleared |
| LegacyPpuSpec.LegacySignal | core/src/ppu.rs:189-229 | the bus stays well formed; its effect is stated by `LegacyPpuLemmas.LegacySignalSetsStat` and `LegacyPpuLemmas.LegacySignalSetsIf` |
| LegacyPpuSpec.LegacyStep | core/src/ppu.rs:110-230 | a step keeps the bus well formed and the frame at 23040 cells |
| LegacyRender.FetchSpritePixel | core/src/ppu.rs:492-585 | the loop over all 40 entries returns `LegacySpritePixel` |
| LegacyRender.SearchEntry | core/src/ppu.rs:508-580 | one entry of the search keeps the best so far equal to the least X among the opaque entries seen (`LeastKey`), with its X, its index and its pixel; ties go to the lower OAM index |
| LegacyRender.Consider | core/src/ppu.rs:515-567 | an entry shows iff it covers the pixel with a nonzero colour, and then its pixel index is `LegacySpriteIndex` |
| LegacyRender.Replaces | core/src/ppu.rs:570-578 | the comparison on X and OAM index takes the entry iff `LeastKey` makes it the new leader |
| LegacyRender.TieBreak | core/src/ppu.rs:572 | once a best entry exists, entries are visited in index order, so the OAM-index tie-break never changes the outcome: the test is "strictly lower X" |
| LegacyRender.LegacyShade | core/src/ppu.rs:331-382 | the shade computed for one pixel is `LegacyPixelShade` |
| LegacyRender.ShadeLegacyLine | core/src/ppu.rs:328-390 | the frame's 160 cells of the line become `LegacyLine` and nothing else changes |
| LegacyPpuUnit.LegacyPpu.constructor | core/src/ppu.rs:84-97 | both buffers are new and cleared and the state is `NewLegacyState` |
| LegacyPpuUnit.LegacyPpu.FrameBuffer | core/src/ppu.rs:100-102 | the frame buffer holds 160 x 144 shades |
| LegacyPpuUnit.LegacyPpu.VramDebugBuffer | core/src/ppu.rs:105-107 | the debug buffer has the size of the tile sheet |
| LegacyPpuUnit.LegacyPpu.RenderVramDebug | core/src/ppu.rs:234-294 | the debug buffer becomes `DebugView` of the bus, the same sheet as the newer PPU's |
| LegacyPpuUnit.LegacyPpu.Step | core/src/ppu.rs:110-230 | state, frame buffer and bus after the step are exactly `LegacyStep` of the old ones |
| LegacyPpuUnit.LegacyPpu.TurnOff | core/src/ppu.rs:115-132 | state and bus become `LegacyLcdOff` of the old ones |
| LegacyPpuUnit.LegacyPpu.ClearLyAndStat | core/src/ppu.rs:123-126 | LY is written 0 through `write_byte`, then STAT as read after that write goes back with mode 0 |
| LegacyPpuUnit.LegacyPpu.ClearStatMode | core/src/ppu.rs:124-126 | STAT is written through the bus with bits 3-7 as read and mode 0 |
| LegacyPpuUnit.LegacyPpu.StepLcdOn | core/src/ppu.rs:135-229 | with the LCD on, state and bus become the timing followed by `LegacySignal`, and the frame `LegacyTimedFrame` |
| LegacyPpuUnit.LegacyPpu.AdvanceTiming | core/src/ppu.rs:135-187 | state, bus and frame become `LegacyTimed`, `LegacyTimedBus` and `LegacyTimedFrame` |
| LegacyPpuUnit.LegacyPpu.Transition | core/src/ppu.rs:137-184 | the `match` returns the next mode and completes the timing once the dots are added |
| LegacyPpuUnit.LegacyPpu.OamScanStep | core/src/ppu.rs:140-145 | the mode 2 arm completes the timing |
| LegacyPpuUnit.LegacyPpu.VramReadStep | core/src/ppu.rs:146-153 | the mode 3 arm completes the timing and renders the line when it ends |
| LegacyPpuUnit.LegacyPpu.HBlankStep | core/src/ppu.rs:154-169 | the HBlank arm completes the timing, writes LY and leaves the frame |
| LegacyPpuUnit.LegacyPpu.EnterNextLine | core/src/ppu.rs:160-167 | the mode chosen for the next line is VBlank on line 144 and OAM scan otherwise |
| LegacyPpuUnit.LegacyPpu.VBlankStep | core/src/ppu.rs:170-182 | the VBlank arm completes the timing, writes LY and leaves the frame |
| LegacyPpuUnit.LegacyPpu.NextVBlankLine | core/src/ppu.rs:172-178 | the state change at the end of a VBlank line is that of `LegacyTimed` |
| LegacyPpuUnit.LegacyPpu.StoreLy | core/src/ppu.rs:158-180 | LY is written through the bus with the current line |
| LegacyPpuUnit.LegacyPpu.RenderScanline | core/src/ppu.rs:304-391 | on a line of 144 or more the frame is unchanged; otherwise exactly the line's 160 cells become `LegacyLine` |
| LegacyPpuUnit.LegacyPpu.SignalChanges | core/src/ppu.rs:189-229 | state and bus become `LegacySignal` of the old ones |
| LegacyPpuUnit.LegacyPpu.CompareLyc | core/src/ppu.rs:189-191 | the coincidence flag becomes LY == LYC as read from the bus, nothing else in the state changes |
| LegacyPpuUnit.LegacyPpu.PublishStat | core/src/ppu.rs:194-229 | STAT is written from the byte read before, then state and bus become `LegacyInterrupts` of the written bus |
| LegacyPpuUnit.LegacyPpu.WriteStat | core/src/ppu.rs:194-200 | STAT is written through the bus with `LegacyStatValue` |
| LegacyPpuUnit.LegacyPpu.CheckInterrupts | core/src/ppu.rs:202-229 | state and bus become `LegacyInterrupts` of the old ones |
| LegacyPpuUnit.LegacyPpu.RequestStatOnRise | core/src/ppu.rs:203-223 | the STAT line becomes the current condition and interrupt bit 1 is requested iff it rose |
| LegacyPpuUnit.LegacyPpu.RequestVBlank | core/src/ppu.rs:226-229 | a raised VBlank signal is cleared and requests interrupt bit 0; otherwise nothing changes |
| LegacyPpuUnit.LegacyPpu.StatRequestLine | core/src/ppu.rs:203-217 | the condition is whether an enabled LYC or mode condition holds, the enables read from the bus |
| LegacyPpuUnit.LegacyPpu.RequestInterrupt | core/src/ppu.rs:298-301 | the bus becomes `LegacyRequest` of the old bus |
| LegacyPpuLemmas.IoWriteStores | core/src/memory_bus.rs:492-537 | a write to an I/O register other than P1 and DMA stores the byte the register keeps, and nothing else changes |
| LegacyPpuLemmas.LyWriteIsDirect | core/src/memory_bus.rs:533-535 | a write to LY through the bus is a plain store |
| LegacyPpuLemmas.LegacyStatWriteUnmasked | core/src/memory_bus.rs:512-522 | a STAT write through the bus stores the whole byte: the mask after the store combines the byte with itself, so bits 0-2 are not protected |
| LegacyPpuLemmas.LegacyRequestIsRequestIf | core/src/ppu.rs:298-301 | requesting one of the five interrupts through the bus sets the same IF bit as the direct write of the newer PPU |
| LegacyPpuLemmas.MaskKeepsUpperBits | core/src/memory_bus.rs:504-511 | the IF mask of the bus keeps a request made by ORing one of bits 0-4 |
| LegacyPpuLemmas.LegacyTimedKeepsConsistent | core/src/ppu.rs:139-187 | the timing keeps the frame invariant; the line changes iff HBlank or a VBlank line ends, to the next line modulo 154 |
| LegacyPpuLemmas.LegacyEndHBlankConsistent | core/src/ppu.rs:155-168 | the end of HBlank keeps the frame invariant and moves to the next line |
| LegacyPpuLemmas.LegacyEndVBlankLineConsistent | core/src/ppu.rs:171-181 | the end of a VBlank line keeps the frame invariant and moves to the next line modulo 154 |
| LegacyPpuLemmas.LegacyVBlankSignalAtLine144 | core/src/ppu.rs:160-162 | the VBlank signal is raised iff the step moves from line 143 to 144 |
| LegacyPpuLemmas.LegacyEndHBlankSignal | core/src/ppu.rs:160-162 | the end of HBlank raises the VBlank signal iff it leaves line 143 |
| LegacyPpuLemmas.LegacyEndVBlankLineSignal | core/src/ppu.rs:170-182 | the end of a VBlank line never raises the VBlank signal |
| LegacyPpuLemmas.LegacyTimedAgrees | core/src/ppu.rs:139-184 | while a step adds fewer than 912 dots, the timing is exactly that of the newer PPU |
| LegacyPpuLemmas.LegacyLongStepKeepsDots | core/src/ppu.rs:156-172 | a step reaching 912 dots in HBlank or VBlank keeps 456 or more dots after the subtraction, where the newer PPU keeps fewer than 456 |
| LegacyPpuLemmas.LegacyLineElapsed | core/src/ppu.rs:140-156 | the dots elapsed on a visible line are at least the dots counted in the current mode |
| LegacyPpuLemmas.LegacyVisibleLineStep | core/src/ppu.rs:139-169 | a step that stays on a visible line adds its cycles to the elapsed dots, and a line is left only after 708 dots |
| LegacyPpuLemmas.LegacyStepKeepsConsistent | core/src/ppu.rs:110-230 | a step keeps the frame invariant |
| LegacyPpuLemmas.LegacyStepTiming | core/src/ppu.rs:110-230 | with the LCD on, dots, line and mode after a step are those of the timing, with the VBlank signal cleared |
| LegacyPpuLemmas.LegacyLcdOffStep | core/src/ppu.rs:115-132 | with the LCD off the frame is untouched; an already reset PPU only caches LCDC; otherwise the state is reset, LY becomes 0 and STAT keeps bits 3-7 with mode 0 |
| LegacyPpuLemmas.StatReadUpperBits | core/src/memory_bus.rs:363 | STAT as read has bit 7 set and bits 3-6 as stored |
| LegacyPpuLemmas.LegacyTimedBusKeeps | core/src/ppu.rs:154-182 | the timing part changes no I/O register but LY |
| LegacyPpuLemmas.LegacyStepSetsLy | core/src/ppu.rs:158-180 | LY becomes the new line when the step changes line and is left as it was otherwise |
| LegacyPpuLemmas.LegacySignalKeeps | core/src/ppu.rs:189-229 | the part after the timing changes no I/O register but STAT and IF |
| LegacyPpuLemmas.LegacyInterruptsKeep | core/src/ppu.rs:202-229 | the interrupt part changes no I/O register but IF |
| LegacyPpuLemmas.RequestKeeps | core/src/ppu.rs:298-301 | a request changes no I/O register but IF |
| LegacyPpuLemmas.LegacyStepSetsStat | core/src/ppu.rs:189-200 | after a step STAT holds the mode in bits 0-1, bits 3-7 as they read at the step, and bit 2 set iff the line equals LYC |
| LegacyPpuLemmas.LegacySignalSetsStat | core/src/ppu.rs:189-200 | the STAT write stores `LegacyStatValue` and changes only the coincidence flag |
| LegacyPpuLemmas.LegacyStepRequests | core/src/ppu.rs:202-229 | after a step IF is the old IF with bit 0 set iff the VBlank signal was raised and bit 1 set iff the STAT line rose |
| LegacyPpuLemmas.LegacySignalSetsIf | core/src/ppu.rs:202-229 | the same statement about IF for the part after the timing |
| LegacyPpuLemmas.LegacyInterruptsSetIf | core/src/ppu.rs:202-229 | the STAT request happens only on a rising edge and the VBlank request follows the signal |
| LegacyPpuLemmas.LegacyVBlankRequestedAtLine144 | core/src/ppu.rs:160-229 | bit 0 of IF is set by the step that moves from line 143 to 144 and otherwise keeps its value |
| LegacyPpuLemmas.OamSpritesInOrder | core/src/ppu.rs:508-511 | entry j of the search is OAM entry j, with its Y and X bytes |
| LegacyPpuLemmas.LegacyWinnerIsLeast | core/src/ppu.rs:508-578 | the winning sprite has the lowest X of all opaque sprites at the pixel, ties going to the lowest OAM index; there is no winner iff no sprite is opaque there |
| LegacyPpuLemmas.LeastOpaqueSprite | core/src/ppu.rs:570-578 | the same statement about the leader over any 40 entries |
| LegacyPpuLemmas.LegacySpritePixelOfWinner | core/src/ppu.rs:492-585 | with sprites on, the returned pixel is 0 when no sprite wins and otherwise the winner's nonzero pixel, palette and priority flag |
| LegacyPpuLemmas.LegacyPriority | core/src/ppu.rs:334-382 | the sprite's colour is drawn iff sprites are on, a sprite wins, and the BG is off, the sprite has priority or the BG pixel is 0; otherwise the BG colour |
| LegacyPpuLemmas.LegacyTallSpriteRows | core/src/ppu.rs:536-556 | a tall sprite reads row r of the 16-row pair starting at the even tile, as the newer renderer does |
| LegacyPpuLemmas.LegacyReadsMirroredColumn | core/src/ppu.rs:541-567 | the legacy renderer reads a sprite pixel at column 7 - c where the newer one reads column c: the newer renderer mirrors every unflipped sprite |
| LegacyPpuLemmas.LegacyPaletteShade | core/src/ppu.rs:395-398 | the palette gives bits 0-1 for index 0, 2-3 for 1, 4-5 for 2 and 6-7 for 3 |
| ApuSpec.NewApu | core/src/apu.rs:98-129 | the unit starts disabled with both counters in range |
| ApuSpec.RunSequencer | core/src/apu.rs:138-158 | the loop leaves a counter below one period of 8192 cycles and a step index below 8 |
| ApuSpec.ApuStep | core/src/apu.rs:131-165 | a step keeps the counter below one period and the step index below 8 |
| ApuSpec.SequencerClocks | core/src/apu.rs:140-156 | the length counters are clocked on even steps, the sweep on steps 2 and 6, the envelopes on step 7 |
| ApuSpec.ResetApu | core/src/apu.rs:331-370 | the reset leaves both counters in range |
| ApuLemmas.SequencerClosedForm | core/src/apu.rs:138-158 | the loop leaves the counter modulo 8192 and advances the step by the number of whole periods, modulo 8 |
| ApuLemmas.OnePeriodLess | core/src/apu.rs:139 | taking one period off the counter keeps its remainder and lowers its quotient by one |
| ApuLemmas.DividerIs8192 | core/src/apu.rs:4-6 | the divider is 4194304 / 512 = 8192 |
| ApuLemmas.StepAdvances | core/src/apu.rs:131-158 | a disabled unit is unchanged; an enabled one keeps the total cycles modulo 8192 and advances the step by the whole periods, nothing else changing |
| ApuLemmas.StepsCompose | core/src/apu.rs:131-158 | two steps of a and b cycles equal one step of a + b cycles |
| ApuLemmas.SequencerRates | core/src/apu.rs:140-156 | over the eight steps the length counters are clocked four times, the sweep twice and the envelopes once |
| ApuLemmas.Nr52Bits | core/src/apu.rs:206-226 | NR52 reads the master switch in bit 7, ones in bits 4-6 and the four channel flags in bits 0-3 |
| ApuLemmas.ReadMasks | core/src/apu.rs:174-233 | write-only and unused addresses read 0xFF, and a mirrored register always reads its unreadable bits as 1 |
| ApuLemmas.ReadIsMirror | core/src/apu.rs:176-205 | a mirrored register reads its stored byte ORed with its read mask |
| ApuLemmas.StoreSets | core/src/apu.rs:261-319 | storing a byte changes the mirrored register written and no other |
| ApuLemmas.WriteReadRoundTrip | core/src/apu.rs:170-320 | with the unit on, reading a mirrored register after writing v gives v with the register's unreadable bits set |
| ApuLemmas.StoreReadsBack | core/src/apu.rs:261-319 | the same round trip for the `match` of `write_byte` |
| ApuLemmas.WriteFrame | core/src/apu.rs:250-319 | a write other than NR52 changes what no other address reads and leaves the counters, the switch and the channel flags |
| ApuLemmas.StoreFrame | core/src/apu.rs:261-319 | the same frame statement for the `match` of `write_byte` |
| ApuLemmas.StoreKeepsFields | core/src/apu.rs:261-319 | a store changes at most the register at its address |
| ApuLemmas.DisabledWriteIgnored | core/src/apu.rs:250-256 | with the unit off, every write other than NR52 leaves the state unchanged, wave RAM included |
| ApuLemmas.Nr52Write | core/src/apu.rs:240-248 | an NR52 write sets the switch from bit 7; turning the unit off clears the counters and channel flags, keeps NR50 and NR51 and makes every other register read its power-on value; otherwise only the switch changes |
| ApuLemmas.ResetReadsDefault | core/src/apu.rs:331-370 | once the switch is off, the reset makes every address but NR50 and NR51 read as at power-on |
| ApuLemmas.WriteKeepsValid | core/src/apu.rs:238-320 | a write keeps both counters in range |
| ApuUnit.Apu.constructor | core/src/apu.rs:98-129 | the fields are those of `NewApu` |
| ApuUnit.Apu.Step | core/src/apu.rs:131-165 | the loop leaves the fields as `ApuStep` of the old ones |
| ApuUnit.Apu.ReadByte | core/src/apu.rs:170-234 | the byte read is `ApuRead` of the fields |
| ApuUnit.Apu.ReadNr52 | core/src/apu.rs:206-226 | NR52 built bit by bit is `Nr52` of the fields |
| ApuUnit.Apu.WriteByte | core/src/apu.rs:238-320 | the fields become `ApuWrite` of the old ones |
| ApuUnit.Apu.StoreMirrored | core/src/apu.rs:261-319 | the fields become `StoreRegister` of the old ones |
| ApuUnit.Apu.ResetApuStateAndRegisters | core/src/apu.rs:331-370 | the fields become `ResetApu` of the old ones |
| Alu.SetFlag | core/src/cpu/mod.rs:335-342 | the masked flag bits are set or cleared as asked, the other flag bits are kept and the low nibble of F is cleared |
| Alu.SetFlags | core/src/cpu/mod.rs:335-342 | four `set_flag` calls leave Z, N, H and C exactly as given and the low nibble clear |
| Alu.CarryIn | core/src/cpu/mod.rs:374-378 | the carry brought in is 1 iff the carry is used and C is set |
| Alu.AddCarries | core/src/cpu/mod.rs:379-382 | the two overflowing additions carry out iff the 16-bit sum exceeds 0xFF, and the nibble test is the carry out of bit 3 |
| Alu.SubBorrows | core/src/cpu/mod.rs:395-398 | the two overflowing subtractions borrow iff the operand plus the carry exceeds A, and the nibble test is the borrow from bit 4 |
| Alu.AddA | core/src/cpu/mod.rs:373-388 | Z is set iff the result is 0 and N is clear |
| Alu.AddAArithmetic | core/src/cpu/mod.rs:373-388 | ADD/ADC gives A + v + carry modulo 256, with H the carry out of bit 3 and C the carry out of bit 7 |
| Alu.SubA | core/src/cpu/mod.rs:389-404 | Z is set iff the result is 0 and N is set |
| Alu.SubAArithmetic | core/src/cpu/mod.rs:389-404 | SUB/SBC gives A - v - carry modulo 256, with H the borrow from bit 4 and C set iff v + carry exceeds A |
| Alu.AndA | core/src/cpu/mod.rs:405-411 | AND gives A & v with Z iff it is 0, H set, N and C clear |
| Alu.XorA | core/src/cpu/mod.rs:412-416 | XOR gives A ^ v with only Z possibly set, iff the result is 0 |
| Alu.OrA | core/src/cpu/mod.rs:417-421 | OR gives A \| v with only Z possibly set, iff the result is 0 |
| Alu.CpA | core/src/cpu/mod.rs:422-426 | CP leaves A, sets N, sets Z iff A equals v and C iff A is below v |
| Alu.IncU8 | core/src/cpu/mod.rs:350-356 | INC adds 1 modulo 256, Z iff the operand was 0xFF, H the carry out of bit 3, N clear and C kept |
| Alu.DecU8 | core/src/cpu/mod.rs:357-363 | DEC subtracts 1 modulo 256, Z iff the operand was 1, H the borrow from bit 4, N set and C kept |
| Alu.ShiftedF | core/src/cpu/mod.rs:427-434 | the flags after a rotate or shift have Z iff the result is 0, C the bit shifted out, N and H clear |
| Alu.Rlc | core/src/cpu/mod.rs:427-434 | RLC moves bit 7 into bit 0 and into C |
| Alu.Rrc | core/src/cpu/mod.rs:435-442 | RRC moves bit 0 into bit 7 and into C |
| Alu.Rl | core/src/cpu/mod.rs:443-451 | RL shifts left through the carry: the old C enters bit 0 and bit 7 goes to C |
| Alu.Rr | core/src/cpu/mod.rs:452-460 | RR shifts right through the carry: the old C enters bit 7 and bit 0 goes to C |
| Alu.Sla | core/src/cpu/mod.rs:461-468 | SLA doubles modulo 256 with bit 7 to C |
| Alu.Sra | core/src/cpu/mod.rs:469-476 | SRA halves keeping bit 7, with bit 0 to C |
| Alu.Swap | core/src/cpu/mod.rs:477-482 | SWAP exchanges the nibbles, with only Z possibly set |
| Alu.Srl | core/src/cpu/mod.rs:483-490 | SRL halves with bit 0 to C |
| Alu.TestBit | core/src/cpu/mod.rs:491-496 | BIT sets Z iff the bit is clear, clears N, sets H and keeps C |
| Alu.ResetBit | core/src/cpu.rs:113-118 | RES clears the bit and keeps every other bit |
| Alu.SetBit | core/src/cpu.rs:119-124 | SET sets the bit and keeps every other bit |
| Alu.Daa | core/src/cpu/mod.rs:497-527 | DAA clears H, keeps N, sets C iff a 0x60 correction was applied and Z iff the result is 0 |
| Alu.AddHl | core/src/cpu/mod.rs:364-372 | ADD HL gives HL + v modulo 65536, H the carry out of bit 11, C the carry out of bit 15, N clear and Z kept |
| Alu.AddSpOffset | core/src/cpu/ops_alu.rs:213-226 | ADD SP,r8 adds the signed offset, clears Z and N, and takes H and C from the carries out of bits 3 and 7 of the low byte |
| CpuSpec.Initial | core/src/cpu/mod.rs:61-91 | a new CPU has F's low nibble clear, IME, the scheduled enable, HALT and STOP off, no cycles counted, and PC at 0x0100 when the boot ROM is skipped and at 0 otherwise |
| CpuSpec.WithReg | core/src/cpu/ops_macros.rs:2-10 | writing a register makes it read back the value and leaves F, SP and PC alone |
| CpuSpec.Push | core/src/cpu/mod.rs:279-284 | a push leaves the memory regions their sizes and every register but SP as it was, SP two lower with wrap-around; the bytes it places are stated by CpuLemmas.PushPlacesBytes |
| CpuSpec.IncDecAtHl | core/src/cpu/ops_alu.rs:149-193 | INC (HL) and DEC (HL) leave the memory regions their sizes; the written-back byte and the flags are stated by HandlerLemmas.IncDecWritesBack |
| CpuSpec.Store | core/src/cpu.rs:873-878 | a byte store and its HL step leave the memory regions their sizes; what is stored is stated by HandlerLemmas.StoreAStepsHl and HandlerLemmas.StoreThenLoad |
| CpuSpec.StoreSp | core/src/cpu.rs:754-759 | LD (a16),SP leaves the memory regions their sizes; the two bytes are stated by HandlerLemmas.StoreSpPlacesBytes |
| CpuSpec.PushPair | core/src/cpu.rs:1221-1224 | PUSH leaves the memory regions their sizes; its round trip with POP is HandlerLemmas.PushThenPopPair |
| CpuSpec.CallTo | core/src/cpu/ops_control.rs:74-88 | a call leaves the memory regions their sizes; that RET undoes it is HandlerLemmas.ReturnAfterCall |
| CpuSpec.CbAtHl | core/src/cpu/ops_macros.rs:94-128 | a CB operation on (HL) leaves the memory regions their sizes; the byte written back is stated by HandlerLemmas.WritesBackAtHl |
| CpuSpec.ExecCb | core/src/cpu/ops_macros.rs:64-128 | a CB operation leaves the memory regions their sizes; its effect is stated by HandlerLemmas.ResetOrSetRegister, HandlerLemmas.BitTestKeepsOperand and HandlerLemmas.WritesBackAtHl |
| CpuSpec.ExecPrefixCb | core/src/cpu/ops_control.rs:226-237 | the prefix handler leaves the memory regions their sizes; its cycles and PC are stated by CpuLemmas.PrefixStep |
| CpuSpec.ExecArith | core/src/cpu/ops_alu.rs:17-262 | the ALU handlers leave the memory regions their sizes; their effects are stated by the Alu lemmas and HandlerLemmas.CompareKeepsA and HandlerLemmas.PairStepsUndo |
| CpuSpec.ExecStore | core/src/cpu/ops_macros.rs:19-26 | every store, LD (a16),SP and PUSH returns no extra cycles and leaves the memory regions their sizes |
| CpuSpec.ExecCall | core/src/cpu/ops_control.rs:74-165 | CALL, CALL cc and RST leave the memory regions their sizes; their outcome is HandlerLemmas.ConditionalCall |
| CpuSpec.Execute | core/src/cpu/mod.rs:186 | every handler leaves the memory regions their sizes; CpuLemmas.ExecuteFailsOnlyInvalid says which fail |
| CpuSpec.ServedInterrupt | core/src/cpu/mod.rs:236-248 | the served interrupt is one of the five sources; that it is the lowest pending one is CpuLemmas.ServesLowestPending |
| CpuSpec.Acknowledged | core/src/cpu/mod.rs:233-251 | acknowledging leaves the memory regions their sizes; the cleared IF bit is CpuLemmas.AcknowledgeClearsBit |
| CpuSpec.Dispatch | core/src/cpu/mod.rs:233-254 | a dispatch leaves the memory regions their sizes; the vector and the stack are stated by CpuLemmas.DispatchJumpsToVector and CpuLemmas.DispatchThenReti |
| CpuSpec.HandleInterrupts | core/src/cpu/mod.rs:225-255 | interrupt handling leaves the memory regions their sizes; what it returns is stated by CpuLemmas.StepServesInterrupt |
| CpuSpec.InterruptPhase | core/src/cpu/mod.rs:147-151 | the interrupt phase leaves the memory regions their sizes |
| CpuSpec.ExecuteFetched | core/src/cpu/mod.rs:176-186 | fetch and execute leave the memory regions their sizes; CpuLemmas.UndefinedFetched and CpuLemmas.PrefixFetched state the two special cases |
| CpuSpec.FetchExecute | core/src/cpu/mod.rs:176-219 | the running phase leaves the memory regions their sizes; its result is stated by CpuLemmas.RunningStep |
| CpuSpec.Resume | core/src/cpu/mod.rs:160-219 | the phase after the interrupts leaves the memory regions their sizes; the idle case is CpuLemmas.HaltedStepIdles |
| CpuSpec.Conclude | core/src/cpu/mod.rs:153-219 | the rest of the step leaves the memory regions their sizes |
| CpuSpec.Step | core/src/cpu/mod.rs:138-221 | a step leaves the memory regions their sizes; its cases are CpuLemmas.StepServesInterrupt, CpuLemmas.StepWithoutInterrupt, CpuLemmas.EnableIsDelayed and CpuLemmas.RunningStep |
| CpuSpec.FetchExecuteMonolithic | core/src/cpu.rs:292-325 | the monolithic running phase leaves the memory regions their sizes; it agrees with the modular one by CpuLemmas.BaseCyclesAgree |
| CpuSpec.ResumeMonolithic | core/src/cpu.rs:277-325 | the monolithic halted phase leaves the memory regions their sizes; waking without a dispatch is CpuLemmas.MonolithicWakeRuns |
| CpuSpec.ConcludeMonolithic | core/src/cpu.rs:270-325 | the rest of the monolithic step leaves the memory regions their sizes |
| CpuSpec.StepMonolithic | core/src/cpu.rs:255-326 | a monolithic step leaves the memory regions their sizes; where it agrees with the modular step is CpuLemmas.StepsAgree |
| CpuSpec.Registers | core/src/cpu.rs:650-661 | the reported F always has its low nibble clear, and is F itself when F's low nibble is already clear |
| Sm83.Cpu.constructor | core/src/cpu/mod.rs:61-91 | the fields are CpuSpec.Initial for the boot-ROM choice |
| Sm83.Cpu.SetReg | core/src/cpu/ops_macros.rs:2-10 | only the named register changes, to the value |
| Sm83.Cpu.SetFlag | core/src/cpu/mod.rs:335-342 | only F changes: the flag's bit set or cleared |
| Sm83.Cpu.SetAf | core/src/cpu/mod.rs:300-303 | A from the high byte and F from the high nibble of the low byte; nothing else changes |
| Sm83.Cpu.SetBc | core/src/cpu/mod.rs:309-312 | B and C from the word's bytes; nothing else changes |
| Sm83.Cpu.SetDe | core/src/cpu/mod.rs:319-322 | D and E from the word's bytes; nothing else changes |
| Sm83.Cpu.SetHl | core/src/cpu/mod.rs:329-332 | H and L from the word's bytes; nothing else changes |
| Sm83.Cpu.SetPair | core/src/cpu/mod.rs:305-333 | only the named pair changes; CpuLemmas.PairRoundTrip reads it back |
| Sm83.Cpu.ReadD8 | core/src/cpu/mod.rs:263-265 | the byte at PC, with nothing changed |
| Sm83.Cpu.ReadD16 | core/src/cpu/mod.rs:267-271 | the little-endian word at PC, with nothing changed |
| Sm83.Cpu.PushWord | core/src/cpu/mod.rs:279-284 | the machine becomes CpuSpec.Push of the old one; the bus keeps its footprint |
| Sm83.Cpu.PopWord | core/src/cpu/mod.rs:286-292 | returns the little-endian word at SP and moves SP up by two; CpuLemmas.PushThenPop is its inverse |
| Sm83.Cpu.Di | core/src/cpu/ops_control.rs:167-171 | IME and the scheduled enable are cleared, nothing else |
| Sm83.Cpu.Ei | core/src/cpu/ops_control.rs:172-175 | only the enable is scheduled; HandlerLemmas.EnableThenDisable relates it to DI |
| Sm83.Cpu.Halt | core/src/cpu/ops_control.rs:176-190 | HALT halts unless IME is off with an interrupt pending, the HALT bug case |
| Sm83.Cpu.Stop | core/src/cpu/ops_control.rs:191-201 | STOP sets the stop request only |
| Sm83.Cpu.Scf | core/src/cpu/ops_control.rs:202-206 | the state after SCF; its flags are stated by HandlerLemmas.SetCarry |
| Sm83.Cpu.Ccf | core/src/cpu/ops_control.rs:207-214 | the state after CCF; its flags are stated by HandlerLemmas.ComplementCarry |
| Sm83.Cpu.Cpl | core/src/cpu/ops_control.rs:215-219 | the state after CPL; its effect is stated by HandlerLemmas.ComplementA |
| Sm83.Cpu.Daa | core/src/cpu/ops_control.rs:220-225 | A and F as the DAA helper leaves them |
| Sm83.Cpu.RotateA | core/src/cpu/ops_rot_shift.rs:7-29 | A and F as the rotate helper leaves them, with Z cleared |
| Sm83.Cpu.Misc | core/src/cpu/ops_control.rs:10-225 | the state after a control or flag operation is CpuSpec.MiscState of the old machine |
| Sm83.Cpu.IncDecReg | core/src/cpu/ops_alu.rs:121-193 | the register and F as the INC or DEC helper leaves them |
| Sm83.Cpu.IncDecHlp | core/src/cpu/ops_alu.rs:149-157 | the machine becomes CpuSpec.IncDecAtHl of the old one, stated by HandlerLemmas.IncDecWritesBack |
| Sm83.Cpu.StepPair | core/src/cpu/ops_alu.rs:228-262 | the pair one up or one down with wrap-around, flags untouched; HandlerLemmas.PairStepsUndo is its inverse |
| Sm83.Cpu.AddHl | core/src/cpu/ops_alu.rs:195-211 | HL and F as the 16-bit add helper leaves them |
| Sm83.Cpu.AddSpR8 | core/src/cpu/ops_alu.rs:213-226 | SP plus the signed offset, with the flags of Alu.AddSpOffset |
| Sm83.Cpu.AluOperation | core/src/cpu/ops_macros.rs:29-63 | A and F as the accumulator helper leaves them for the operand's value |
| Sm83.Cpu.Arith | core/src/cpu/ops_alu.rs:17-262 | the state after an ALU handler is CpuSpec.ArithState of the old machine |
| Sm83.Cpu.LdRImm | core/src/cpu.rs:745-748 | only the register changes, to the byte after the opcode |
| Sm83.Cpu.LdRHl | core/src/cpu/ops_macros.rs:11-18 | only the register changes, to the byte at HL |
| Sm83.Cpu.LdPairImm | core/src/cpu.rs:725-728 | only the pair changes, to the word after the opcode |
| Sm83.Cpu.LdHlSpR8 | core/src/cpu.rs:1404-1416 | HL becomes SP plus the signed offset, with that addition's flags |
| Sm83.Cpu.Pop | core/src/cpu.rs:1187-1191 | the pair from the stack, SP two higher; for AF, F keeps only its high nibble |
| Sm83.Cpu.StepHl | core/src/cpu.rs:873-878 | HL one up for the incrementing forms and one down for the decrementing ones, nothing else |
| Sm83.Cpu.LoadA | core/src/cpu.rs:912-917 | A from the operation's source address, and the HL step of LD A,(HL+) and LD A,(HL-) |
| Sm83.Cpu.RegisterLoad | core/src/cpu.rs:725-1425 | the state after a load is CpuSpec.RegisterLoadState of the old machine |
| Sm83.Cpu.Store | core/src/cpu.rs:873-878 | the machine becomes CpuSpec.Store of the old one |
| Sm83.Cpu.StoreSp | core/src/cpu.rs:754-759 | the machine becomes CpuSpec.StoreSp of the old one |
| Sm83.Cpu.PushPair | core/src/cpu.rs:1221-1224 | the machine becomes CpuSpec.PushPair of the old one |
| Sm83.Cpu.ExecStore | core/src/cpu.rs:729-1366 | the machine and the result are CpuSpec.ExecStore of the old machine |
| Sm83.Cpu.ConditionalJp | core/src/cpu/ops_control.rs:15-23 | a jump to the word after the opcode and 4 extra cycles when the condition holds, otherwise nothing and 0 |
| Sm83.Cpu.JpA16 | core/src/cpu/ops_control.rs:24-27 | PC becomes the word after the opcode, nothing else changes |
| Sm83.Cpu.ConditionalJr | core/src/cpu/ops_control.rs:46-54 | a relative jump and 4 extra cycles when the condition holds, otherwise nothing and 0 |
| Sm83.Cpu.JrR8 | core/src/cpu/ops_control.rs:55-59 | PC moves by the signed offset after the opcode, nothing else changes |
| Sm83.Cpu.Ret | core/src/cpu/ops_control.rs:112-115 | PC from the stack and SP two higher |
| Sm83.Cpu.ConditionalRet | core/src/cpu/ops_control.rs:104-111 | a return and 12 extra cycles when the condition holds, otherwise nothing and 0 |
| Sm83.Cpu.Reti | core/src/cpu/ops_control.rs:128-135 | a return with IME set and no enable scheduled |
| Sm83.Cpu.Branch | core/src/cpu/ops_control.rs:15-135 | the state and the extra cycles of a jump or return are CpuSpec.Branch of the old machine |
| Sm83.Cpu.CallTo | core/src/cpu/ops_control.rs:84-88 | the machine becomes CpuSpec.CallTo of the old one |
| Sm83.Cpu.CallA16 | core/src/cpu/ops_control.rs:84-88 | the machine becomes a call to the word after the opcode |
| Sm83.Cpu.ConditionalCall | core/src/cpu/ops_control.rs:74-83 | a call and 12 extra cycles when the condition holds, otherwise nothing and 0 |
| Sm83.Cpu.ExecCall | core/src/cpu/ops_control.rs:74-165 | the machine and the result are CpuSpec.ExecCall of the old machine |
| Sm83.Cpu.CbOnRegister | core/src/cpu/ops_macros.rs:64-93 | the register and F as the CB helper leaves them |
| Sm83.Cpu.CbOnHl | core/src/cpu/ops_macros.rs:94-128 | the machine becomes CpuSpec.CbAtHl of the old one |
| Sm83.Cpu.PrefixCb | core/src/cpu/ops_control.rs:226-237 | the machine and the result are CpuSpec.ExecPrefixCb of the old machine |
| Sm83.Cpu.ExecuteMisc | core/src/cpu/ops_control.rs:10-225 | the control and flag handlers agree with CpuSpec.Execute |
| Sm83.Cpu.ExecuteArith | core/src/cpu/ops_alu.rs:17-262 | the ALU handlers agree with CpuSpec.Execute |
| Sm83.Cpu.ExecuteRegisterLoad | core/src/cpu.rs:725-1425 | the load handlers agree with CpuSpec.Execute |
| Sm83.Cpu.ExecuteStore | core/src/cpu.rs:729-1366 | the store handlers agree with CpuSpec.Execute |
| Sm83.Cpu.ExecuteBranch | core/src/cpu/ops_control.rs:15-135 | the jump and return handlers agree with CpuSpec.Execute |
| Sm83.Cpu.ExecuteCall | core/src/cpu/ops_control.rs:74-165 | the call handlers agree with CpuSpec.Execute |
| Sm83.Cpu.Execute | core/src/cpu/mod.rs:186 | every handler agrees with CpuSpec.Execute |
| Sm83.Cpu.SelectInterrupt | core/src/cpu/mod.rs:236-248 | the served bit is the lowest pending one and the vector is its own |
| Sm83.Cpu.Acknowledge | core/src/cpu/mod.rs:233-251 | the machine becomes CpuSpec.Acknowledged of the old one |
| Sm83.Cpu.ServeInterrupt | core/src/cpu/mod.rs:233-254 | the machine becomes CpuSpec.Dispatch of the old one |
| Sm83.Cpu.Pending | core/src/cpu/mod.rs:226-228 | the requested and enabled interrupts of the five sources |
| Sm83.Cpu.HandleInterrupts | core/src/cpu/mod.rs:225-255 | the machine and the cycles are CpuSpec.HandleInterrupts of the old machine |
| Sm83.Cpu.PromoteIme | core/src/cpu/mod.rs:140-145 | a scheduled enable becomes IME, and the result says whether it was just enabled |
| Sm83.Cpu.FinishInterrupt | core/src/cpu/mod.rs:153-158 | HALT and STOP cleared, the cycles counted, and the cycles returned |
| Sm83.Cpu.IdleStep | core/src/cpu/mod.rs:170-173 | four cycles counted and returned, nothing else changes |
| Sm83.Cpu.Fetch | core/src/cpu/mod.rs:176-183 | the fetched opcode and its PC recorded and PC advanced by the entry's length |
| Sm83.Cpu.Charge | core/src/cpu/mod.rs:189-219 | the cycle count and the result are CpuSpec.Charge for the handler's outcome and the base cycles |
| Sm83.Cpu.ExecuteFetched | core/src/cpu/mod.rs:176-186 | the machine and the outcome are CpuSpec.ExecuteFetched of the old machine |
| Sm83.Cpu.FetchExecute | core/src/cpu/mod.rs:176-219 | the machine and the result are CpuSpec.FetchExecute of the old machine |
| Sm83.Cpu.WakeIfPending | core/src/cpu/mod.rs:161-169 | HALT cleared when an enabled interrupt is requested, nothing else |
| Sm83.Cpu.Resume | core/src/cpu/mod.rs:160-219 | the machine and the result are CpuSpec.Resume of the old machine |
| Sm83.Cpu.InterruptPhase | core/src/cpu/mod.rs:147-151 | the machine and the cycles are CpuSpec.InterruptPhase of the old machine |
| Sm83.Cpu.Conclude | core/src/cpu/mod.rs:153-219 | the machine and the result are CpuSpec.Conclude of the old machine |
| Sm83.Cpu.Step | core/src/cpu/mod.rs:138-221 | the machine and the result are CpuSpec.Step of the old machine |
| Sm83.Cpu.FetchExecuteMonolithic | core/src/cpu.rs:292-325 | the machine and the result are CpuSpec.FetchExecuteMonolithic of the old machine |
| Sm83.Cpu.ResumeMonolithic | core/src/cpu.rs:277-325 | the machine and the result are CpuSpec.ResumeMonolithic of the old machine |
| Sm83.Cpu.ConcludeMonolithic | core/src/cpu.rs:270-325 | the machine and the result are CpuSpec.ConcludeMonolithic of the old machine |
| Sm83.Cpu.StepMonolithic | core/src/cpu.rs:255-326 | the machine and the result are CpuSpec.StepMonolithic of the old machine |
| CpuLemmas.PushPlacesBytes | core/src/cpu/mod.rs:279-284 | with the stack in RAM, a push puts the high byte at SP-1 and the low byte at SP-2 and leaves SP at SP-2 |
| CpuLemmas.PushThenPop | core/src/cpu/mod.rs:279-292 | popping right after a push returns the pushed word and restores the CPU exactly |
| CpuLemmas.PairRoundTrip | core/src/cpu/mod.rs:305-333 | a pair reads back what was written to it, and writing one pair leaves every other pair as it was |
| CpuLemmas.SetAfDropsLowNibble | core/src/cpu/mod.rs:296-303 | AF reads back the written word with its low nibble cleared, and F's low nibble is zero after the write |
| CpuLemmas.GetAfVariantsAgree | core/src/cpu.rs:407-409 | the masking `get_af` of the monolithic CPU and the unmasked one of the modular CPU agree whenever F's low nibble is clear |
| CpuLemmas.ServesLowestPending | core/src/cpu/mod.rs:236-248 | the served interrupt is pending and no lower-numbered interrupt is pending |
| CpuLemmas.DispatchJumpsToVector | core/src/cpu/mod.rs:233-254 | a dispatch clears IME and the scheduled enable, moves SP down by two and sets PC to 0x40 + 8 times the served bit, changing no other register |
| CpuLemmas.DispatchClearsRequest | core/src/cpu/mod.rs:250-251 | with the stack in RAM, a dispatch leaves IF with exactly the served bit cleared |
| CpuLemmas.AcknowledgeClearsBit | core/src/cpu/mod.rs:250-251 | the acknowledgement clears exactly the served bit of IF |
| CpuLemmas.PushKeepsOther | core/src/cpu/mod.rs:279-284 | a push with the stack in RAM changes no byte outside plain RAM |
| CpuLemmas.DispatchThenReti | core/src/cpu/ops_control.rs:128-135 | RETI after a dispatch returns to the interrupted PC with IME on and every other register as before |
| CpuLemmas.StepServesInterrupt | core/src/cpu/mod.rs:147-158 | with IME on, no enable just promoted and an interrupt pending, a step dispatches it, clears HALT and STOP and returns 20 cycles, in both CPU variants |
| CpuLemmas.StepWithoutInterrupt | core/src/cpu/mod.rs:147-173 | without a dispatch a step is the halted phase on the promoted CPU, in both variants |
| CpuLemmas.EnableIsDelayed | core/src/cpu/mod.rs:140-151 | the step that promotes a scheduled EI never dispatches an interrupt, in both variants |
| CpuLemmas.HaltedStepIdles | core/src/cpu/mod.rs:161-173 | a halted or stopped CPU with nothing to dispatch spends 4 cycles, leaves memory alone and wakes from HALT exactly when an enabled interrupt is requested |
| CpuLemmas.MonolithicWakeRuns | core/src/cpu.rs:277-290 | when HALT ends without a dispatch the monolithic step goes on to run the next instruction in the same step, while the modular step returns 4 cycles |
| CpuLemmas.ExecuteKeepsInstruction | core/src/cpu/mod.rs:176-186 | no handler changes the fetched opcode or the address it was fetched from |
| CpuLemmas.BaseCyclesAgree | core/src/cpu/mod.rs:189-219 | the modular CPU's special base of 4 cycles for 0xCB equals the table's own cycles, so both variants' fetch-execute phases agree |
| CpuLemmas.StepsAgree | core/src/cpu.rs:255-326 | the two variants' steps agree everywhere except on waking from HALT without a dispatch |
| CpuLemmas.ExecuteFailsOnlyInvalid | core/src/cpu/ops_control.rs:239-243 | a handler fails if and only if it is the invalid-opcode handler |
| CpuLemmas.RunningStep | core/src/cpu/mod.rs:174-219 | a running step fetches the opcode at PC, runs it, charges the base cycles plus the extra ones, and fails exactly on the eleven undefined opcodes |
| CpuLemmas.UndefinedOpcodeStep | core/src/cpu/mod.rs:202-219 | an undefined opcode yields an error naming its address and opcode, advances PC by one and charges 4 cycles, leaving memory alone |
| CpuLemmas.InvalidDispatch | core/src/cpu/ops_control.rs:239-243 | the invalid-opcode handler changes nothing and fails |
| CpuLemmas.PrefixStep | core/src/cpu/ops_control.rs:226-237 | a 0xCB step costs 4 plus the CB entry's cycles and leaves PC on the byte after the prefix, because the prefix entry's length is 1 |
| CpuLemmas.PrefixDispatch | core/src/cpu/ops_control.rs:226-237 | the prefix handler is the CB dispatch |
| CpuLemmas.CbOpKeepsPc | core/src/cpu/ops_macros.rs:64-128 | no CB operation moves PC |
| Decoding.CbCycles | core/src/instruction.rs:358-526 | a CB entry costs 8, 12 or 16 cycles |
| TableLemmas.PrimaryDecodes | core/src/instruction.rs:54-356 | every entry of the primary table runs the operation the opcode's x/y/z/p/q fields name |
| TableLemmas.PrimaryCosts | core/src/instruction.rs:54-356 | every primary entry's length is its operation's length, except 0xCB whose length is 1, and its cycles are its operation's base cycles |
| TableLemmas.PrefixedDecodes | core/src/instruction.rs:358-526 | every CB entry runs the rotate, shift, BIT, RES or SET its opcode's fields name |
| TableLemmas.PrefixedCosts | core/src/instruction.rs:358-526 | every CB entry has length 1 and the cycles of its operation: 8 on a register, 12 for BIT on (HL), 16 otherwise on (HL) |
| TableLemmas.UndefinedOpcodes | core/src/instruction.rs:274-356 | a primary entry is the invalid entry exactly for the eleven undefined opcodes D3, DB, DD, E3, E4, EB, EC, ED, F4, FC and FD |
| TableLemmas.DecodeUndefined | core/src/instruction.rs:54-356 | the reference decoding is invalid exactly on the eleven undefined opcodes |
| TableLemmas.DecodeDefinedBelowC0 | core/src/instruction.rs:54-273 | every opcode below 0xC0 is defined |
| TableLemmas.DecodeX3Undefined | core/src/instruction.rs:274-356 | in the 0xC0-0xFF block the undefined opcodes are exactly the listed ones |
| TableLemmas.ConditionalBranchCycles | core/src/instruction.rs:54-356 | the untaken cost of JR cc and RET cc is 8 cycles and of JP cc and CALL cc 12, the handlers adding the rest when taken |
| TableLemmas.OperandLengths | core/src/instruction.rs:54-356 | lengths are 1 to 3; length 3 exactly for a word operand, length 2 exactly for a byte operand, and the 0xCB entry has length 1 although its operation reads a byte after it |
| HandlerLemmas.ConditionalJump | core/src/cpu/ops_control.rs:15-23 | JP cc jumps to the word operand with 4 extra cycles when the condition holds and changes nothing otherwise; memory is untouched |
| HandlerLemmas.ConditionalRelativeJump | core/src/cpu/ops_control.rs:46-54 | JR cc moves PC by the signed offset with 4 extra cycles when the condition holds and changes nothing otherwise |
| HandlerLemmas.RelativeTargetDirection | core/src/cpu/mod.rs:273-275 | an offset below 0x80 moves PC forward by the offset, one of 0x80 or more moves it back by 0x100 minus the offset |
| HandlerLemmas.ConditionalCall | core/src/cpu/ops_control.rs:74-83 | CALL cc, when the condition holds, jumps to the operand with SP two lower and the return address on the stack for 12 extra cycles, and changes nothing otherwise |
| HandlerLemmas.ConditionalReturn | core/src/cpu/ops_control.rs:104-111 | RET cc, when the condition holds, pops PC with 12 extra cycles and changes nothing otherwise |
| HandlerLemmas.CallThenReturn | core/src/cpu/ops_control.rs:84-115 | CALL jumps to its operand and a RET after it restores the CPU exactly |
| HandlerLemmas.RestartThenReturn | core/src/cpu/ops_control.rs:112-140 | RST jumps to its vector and a RET after it restores the CPU exactly |
| HandlerLemmas.ReturnAfterCall | core/src/cpu/ops_control.rs:84-115 | the word a call pushes is the caller's PC and the return state after it is the caller's CPU |
| HandlerLemmas.HaltOutcome | core/src/cpu/ops_control.rs:176-190 | HALT halts unless IME is off and an enabled interrupt is requested, costs no extra cycles and touches nothing else |
| HandlerLemmas.EnableThenDisable | core/src/cpu/ops_control.rs:167-175 | EI only schedules the enable, and DI after it leaves IME and the schedule off |
| HandlerLemmas.SetCarry | core/src/cpu/ops_control.rs:202-206 | SCF sets C, clears N and H, keeps Z and changes nothing else |
| HandlerLemmas.ComplementCarry | core/src/cpu/ops_control.rs:207-214 | CCF inverts C, clears N and H, keeps Z and changes nothing else |
| HandlerLemmas.ComplementA | core/src/cpu/ops_control.rs:215-219 | CPL inverts A, sets N and H, keeps Z and C and changes nothing else |
| HandlerLemmas.PairStepsUndo | core/src/cpu/ops_alu.rs:228-262 | INC rr adds one to the pair with wrap-around and leaves F alone, and DEC rr after it restores the machine exactly |
| HandlerLemmas.CompareKeepsA | core/src/cpu/mod.rs:422-426 | CP keeps A and memory, sets N, sets Z exactly when A equals the operand and C exactly when A is below it |
| HandlerLemmas.IncDecWritesBack | core/src/cpu/ops_alu.rs:149-193 | INC (HL) and DEC (HL) write the stepped byte back at HL in RAM and change only F in the CPU |
| HandlerLemmas.StoreSpPlacesBytes | core/src/cpu.rs:754-759 | LD (a16),SP stores SP's low byte at the operand address and its high byte at the next address, leaving the CPU alone |
| HandlerLemmas.PushThenPopPair | core/src/cpu.rs:1187-1224 | POP after PUSH of the same pair restores the CPU, except that for AF F's low nibble is cleared |
| HandlerLemmas.PopAfterPush | core/src/cpu.rs:1187-1224 | popping a pair after pushing its value restores the CPU when F's low nibble is clear |
| HandlerLemmas.PopPushedValue | core/src/cpu/mod.rs:300-333 | writing back a pair's own value changes nothing when F's low nibble is clear |
| HandlerLemmas.StoreThenLoad | core/src/cpu/ops_macros.rs:11-26 | LD (HL),r then LD r',(HL) in RAM gives r' the value of r, the store leaving the CPU alone |
| HandlerLemmas.LoadFromHl | core/src/cpu/ops_macros.rs:11-18 | LD r,(HL) gives r the byte at HL |
| HandlerLemmas.LoadAStepsHl | core/src/cpu.rs:912-917 | LD A,(HL+) and LD A,(HL-) load the byte at HL and step HL by one with wrap-around, leaving memory alone |
| HandlerLemmas.StoreAStepsHl | core/src/cpu.rs:873-878 | LD (HL+),A and LD (HL-),A store A at HL in RAM and step HL by one with wrap-around |
| HandlerLemmas.ResetOrSetRegister | core/src/cpu/ops_macros.rs:64-93 | RES and SET on a register give the bit the new value, keep every other bit and leave F and memory alone |
| HandlerLemmas.BitTestKeepsOperand | core/src/cpu/mod.rs:491-496 | BIT sets Z exactly when the bit is clear, clears N, sets H, keeps C and changes nothing but F |
| HandlerLemmas.WritesBackAtHl | core/src/cpu/ops_macros.rs:94-128 | a CB operation other than BIT on (HL) in RAM writes the helper's result back at HL and changes only F in the CPU |
| HandlerLemmas.ExecuteKeepsFlagNibble | core/src/cpu/mod.rs:335-342 | no handler sets a bit of F's low nibble when it was clear |
| HandlerLemmas.StepKeepsFlagNibble | core/src/cpu/mod.rs:138-221 | a step of the modular CPU keeps F's low nibble clear |
| HandlerLemmas.MonolithicStepKeepsFlagNibble | core/src/cpu.rs:255-326 | a step of the monolithic CPU keeps F's low nibble clear |
| HandlerLemmas.DispatchStepKeepsF | core/src/cpu/mod.rs:225-255 | a step that dispatches an interrupt leaves F alone in both variants |
| HandlerLemmas.AluKeepsNibble | core/src/cpu/mod.rs:373-426 | the accumulator helpers always leave F's low nibble clear |
| HandlerLemmas.CbResultKeepsNibble | core/src/cpu/mod.rs:427-496 | the CB helpers keep F's low nibble clear |
| HandlerLemmas.RotateKeepsNibble | core/src/cpu/ops_rot_shift.rs:7-29 | the accumulator rotates always leave F's low nibble clear |

## Left out

- The SDL front-ends, the application and UI code, and the emulator driver loop: they are host I/O around the core.
- The disassembler: it only formats text.
- Logging (`log`, `println!`) and the warnings `load_rom` prints: they are output only.
- The panics of `load_rom` and of the cartridge-header parsing (an unsupported type, ROM size or RAM size, or a short image): they become preconditions (`BusSpec.Loadable`) instead of error paths, because the source aborts.
- The host clock: `SystemTime::now()` becomes a `now` parameter in whole seconds, held by the bus in its `clock` field.
- Rtc.UpdateValue: the `u64` overflow of the seconds counter is not modelled, because the counters are unbounded integers.
- SDL's `Keycode`: it becomes the `Joypad.Button` datatype, because the key bindings belong to the front-end.
- The APU's channel clocks (length, sweep, envelope): they are empty in the source, so no sound is generated. Only the register block and the frame sequencer are modelled.
- ApuUnit.Apu.Step: the `u32` cycle counter is an unbounded `nat`; the unused bus parameter is dropped.
- The APU's thirteen mirrored channel registers: they are grouped into one `ChannelRegs` value, and the four channel flags into one `ChannelFlags` value.
- An OAM DMA busy window, a variable mode-3 length and VRAM/OAM lockout during drawing: the source has none of them (DMA copies at once, mode 3 is always 172 dots, and VRAM and OAM are always accessible).
- PpuSpec.Step: the `u32` `dots` counter of `PpuState` (`core/src/ppu/state.rs:6`) and the `u32` step length are unbounded `nat`s, so the overflow of `dots += cycles` (`core/src/ppu/mod.rs:71`) is not modelled.
- PpuUnit.Ppu.Step: the `u32` `dots` counter and the `u32` `cycles` parameter (`core/src/ppu/mod.rs:47`) are unbounded `nat`s, so the overflow of `dots += cycles` is not modelled.
- LegacyPpuSpec.LegacyStep: the `u32` `dots` counter of the legacy PPU (`core/src/ppu.rs:74`) and the `u32` step length are unbounded `nat`s, so the overflow of `dots += cycles` (`core/src/ppu.rs:135`) is not modelled.
- LegacyPpuUnit.LegacyPpu.Step: the `u32` `dots` counter and the `u32` `cycles` parameter (`core/src/ppu.rs:110`) are unbounded `nat`s, so the overflow of `dots += cycles` is not modelled.
- RenderSpec.SpriteTileRow: the `u8` subtractions `current_y - effective_y` and `(height - 1) - row_in_sprite` (`core/src/ppu/render.rs:337` and `:340`) wrap, as in a release build. A debug build panics instead when LY, which the row reads from the bus while the scan used the PPU's own line, lies above the sprite's top row, for example after the CPU wrote 0 to LY (`core/src/memory_bus.rs:533-535`) with a sprite whose Y byte is 21 on line 5.
- The modular CPU's own submodules `core/src/cpu/instruction.rs`, `core/src/cpu/ops_cb.rs` and `core/src/cpu/ops_load.rs`: they are not part of this model. The modular CPU is assumed to use the same opcode tables as `core/src/instruction.rs` and the same CB and load handlers as `core/src/cpu.rs`.
- The constructor of the monolithic CPU (`Cpu::new` in `core/src/cpu.rs:190-215`): only the modular constructor is modelled (`CpuSpec.Initial`). The two agree except when the boot ROM runs: there the monolithic one sets SP to 0xFFFE (`core/src/cpu.rs:205`) and the modular one sets it to 0x0000 (`core/src/cpu/mod.rs:69` and `:81`).
- Sm83.Cpu.StepMonolithic: `total_cycles +=` in `core/src/cpu.rs` is a non-wrapping `u64` addition, which would panic on overflow in a debug build; the model wraps at 2^64 like the modular CPU.
- Alu.Daa: the contract states the flags and the cases of the adjustment, not that the result is the BCD-correct sum, because that arithmetic proof is beyond the solver's budget here.
- Sprite ordering: `sort_unstable_by` becomes an insertion sort. The sort keys (X position, then OAM index) are unique, so both give the same order.
