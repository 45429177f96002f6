// The DMG address map: region bounds, I/O register addresses and interrupt
// bit numbers (core/src/memory_map.rs).
module MemoryMap {

  /** A bus address: the source's `u16`, kept as an integer in 0..0xFFFF.
      Where the source wraps an address, the model reduces it modulo 0x10000. */
  type Addr = a: int | 0 <= a <= 0xFFFF

  const ROM_BANK_0_START := 0x0000
  const ROM_BANK_0_END := 0x3FFF
  const ROM_BANK_N_START := 0x4000
  const ROM_BANK_N_END := 0x7FFF
  const VRAM_START := 0x8000
  const VRAM_END := 0x9FFF
  const EXT_RAM_START := 0xA000
  const EXT_RAM_END := 0xBFFF
  const WRAM_BANK_0_START := 0xC000
  const WRAM_BANK_0_END := 0xCFFF
  const WRAM_BANK_N_START := 0xD000
  const WRAM_BANK_N_END := 0xDFFF
  const ECHO_RAM_START := 0xE000
  const ECHO_RAM_END := 0xFDFF
  const OAM_START := 0xFE00
  const OAM_END := 0xFE9F
  const NOT_USABLE_START := 0xFEA0
  const NOT_USABLE_END := 0xFEFF
  const IO_REGISTERS_START := 0xFF00
  const IO_REGISTERS_END := 0xFF7F
  const HRAM_START := 0xFF80
  const HRAM_END := 0xFFFE
  const INTERRUPT_ENABLE_REGISTER := 0xFFFF

  // Buffer sizes; RegionSizes shows each is END - START + 1 of its region.
  const ROM_BANK_0_SIZE: nat := 0x4000
  const ROM_BANK_N_SIZE: nat := 0x4000
  const VRAM_SIZE: nat := 0x2000
  const EXT_RAM_SIZE: nat := 0x2000
  const WRAM_BANK_0_SIZE: nat := 0x1000
  const WRAM_BANK_N_SIZE: nat := 0x1000
  const OAM_SIZE: nat := 160
  const IO_REGISTERS_SIZE: nat := 128
  const HRAM_SIZE: nat := 127

  const P1_JOYP_ADDR := 0xFF00
  const SB_ADDR := 0xFF01
  const SC_ADDR := 0xFF02
  const DIV_ADDR := 0xFF04
  const TIMA_ADDR := 0xFF05
  const TMA_ADDR := 0xFF06
  const TAC_ADDR := 0xFF07
  const IF_ADDR := 0xFF0F

  const NR10_ADDR := 0xFF10
  const NR11_ADDR := 0xFF11
  const NR12_ADDR := 0xFF12
  const NR13_ADDR := 0xFF13
  const NR14_ADDR := 0xFF14
  const NR21_ADDR := 0xFF16
  const NR22_ADDR := 0xFF17
  const NR23_ADDR := 0xFF18
  const NR24_ADDR := 0xFF19
  const NR30_ADDR := 0xFF1A
  const NR31_ADDR := 0xFF1B
  const NR32_ADDR := 0xFF1C
  const NR33_ADDR := 0xFF1D
  const NR34_ADDR := 0xFF1E
  const NR41_ADDR := 0xFF20
  const NR42_ADDR := 0xFF21
  const NR43_ADDR := 0xFF22
  const NR44_ADDR := 0xFF23
  const NR50_ADDR := 0xFF24
  const NR51_ADDR := 0xFF25
  const NR52_ADDR := 0xFF26
  const WAVE_PATTERN_RAM_START := 0xFF30
  const WAVE_PATTERN_RAM_END := 0xFF3F

  const LCDC_ADDR := 0xFF40
  const STAT_ADDR := 0xFF41
  const SCY_ADDR := 0xFF42
  const SCX_ADDR := 0xFF43
  const LY_ADDR := 0xFF44
  const LYC_ADDR := 0xFF45
  const DMA_ADDR := 0xFF46
  const BGP_ADDR := 0xFF47
  const OBP0_ADDR := 0xFF48
  const OBP1_ADDR := 0xFF49
  const WY_ADDR := 0xFF4A
  const WX_ADDR := 0xFF4B

  // Interrupt bits of IF (0xFF0F) and IE (0xFFFF); bit 0 has the highest priority.
  const VBLANK_INTERRUPT_BIT: nat := 0
  const LCD_STAT_INTERRUPT_BIT: nat := 1
  const TIMER_INTERRUPT_BIT: nat := 2
  const SERIAL_INTERRUPT_BIT: nat := 3
  const JOYPAD_INTERRUPT_BIT: nat := 4

  /** The regions the bus decodes, in address order. */
  datatype Region =
    | RomBank0 | RomBankN | Vram | ExtRam | WramBank0 | WramBankN
    | EchoRam | Oam | NotUsable | IoRegisters | Hram | InterruptEnable

  function RegionStart(r: Region): Addr
  {
    match r
    case RomBank0 => ROM_BANK_0_START
    case RomBankN => ROM_BANK_N_START
    case Vram => VRAM_START
    case ExtRam => EXT_RAM_START
    case WramBank0 => WRAM_BANK_0_START
    case WramBankN => WRAM_BANK_N_START
    case EchoRam => ECHO_RAM_START
    case Oam => OAM_START
    case NotUsable => NOT_USABLE_START
    case IoRegisters => IO_REGISTERS_START
    case Hram => HRAM_START
    case InterruptEnable => INTERRUPT_ENABLE_REGISTER
  }

  function RegionEnd(r: Region): Addr
  {
    match r
    case RomBank0 => ROM_BANK_0_END
    case RomBankN => ROM_BANK_N_END
    case Vram => VRAM_END
    case ExtRam => EXT_RAM_END
    case WramBank0 => WRAM_BANK_0_END
    case WramBankN => WRAM_BANK_N_END
    case EchoRam => ECHO_RAM_END
    case Oam => OAM_END
    case NotUsable => NOT_USABLE_END
    case IoRegisters => IO_REGISTERS_END
    case Hram => HRAM_END
    case InterruptEnable => INTERRUPT_ENABLE_REGISTER
  }

  /** The region following `r` in address order (IE is last and has none). */
  function NextRegion(r: Region): (n: Region)
    requires r != InterruptEnable
  {
    match r
    case RomBank0 => RomBankN
    case RomBankN => Vram
    case Vram => ExtRam
    case ExtRam => WramBank0
    case WramBank0 => WramBankN
    case WramBankN => EchoRam
    case EchoRam => Oam
    case Oam => NotUsable
    case NotUsable => IoRegisters
    case IoRegisters => Hram
    case Hram => InterruptEnable
  }

  /** The exhaustive decode of a 16-bit address, region by region in the
      order of the bus's `match`. */
  function RegionOf(addr: Addr): (r: Region)
    ensures RegionStart(r) <= addr <= RegionEnd(r)
  {
    if addr <= ROM_BANK_0_END then RomBank0
    else if addr <= ROM_BANK_N_END then RomBankN
    else if addr <= VRAM_END then Vram
    else if addr <= EXT_RAM_END then ExtRam
    else if addr <= WRAM_BANK_0_END then WramBank0
    else if addr <= WRAM_BANK_N_END then WramBankN
    else if addr <= ECHO_RAM_END then EchoRam
    else if addr <= OAM_END then Oam
    else if addr <= NOT_USABLE_END then NotUsable
    else if addr <= IO_REGISTERS_END then IoRegisters
    else if addr <= HRAM_END then Hram
    else InterruptEnable
  }

  /** The regions tile the address space: the map starts at 0, each region
      ends just before the next begins, and IE is the single last byte. */
  lemma RegionsTile()
    ensures RegionStart(RomBank0) == 0
    ensures forall r: Region :: r != InterruptEnable ==>
      RegionStart(r) <= RegionEnd(r) && RegionEnd(r) + 1 == RegionStart(NextRegion(r))
    ensures RegionStart(InterruptEnable) == RegionEnd(InterruptEnable) == 0xFFFF
  {
  }

  /** No overlap: an address lies in exactly one region. */
  lemma RegionUnique(addr: Addr, r: Region)
    requires RegionStart(r) <= addr <= RegionEnd(r)
    ensures r == RegionOf(addr)
  {
  }

  /** Each buffer spans its region: END - START + 1. */
  lemma RegionSizes()
    ensures ROM_BANK_0_SIZE == ROM_BANK_0_END - ROM_BANK_0_START + 1
    ensures ROM_BANK_N_SIZE == ROM_BANK_N_END - ROM_BANK_N_START + 1
    ensures VRAM_SIZE == VRAM_END - VRAM_START + 1
    ensures EXT_RAM_SIZE == EXT_RAM_END - EXT_RAM_START + 1
    ensures WRAM_BANK_0_SIZE == WRAM_BANK_0_END - WRAM_BANK_0_START + 1
    ensures WRAM_BANK_N_SIZE == WRAM_BANK_N_END - WRAM_BANK_N_START + 1
    ensures OAM_SIZE == OAM_END - OAM_START + 1
    ensures IO_REGISTERS_SIZE == IO_REGISTERS_END - IO_REGISTERS_START + 1
    ensures HRAM_SIZE == HRAM_END - HRAM_START + 1
  {
  }

  /** Echo RAM E000-FDFF mirrors C000-DDFF, 0x2000 lower. */
  lemma EchoMirrorsWram(addr: Addr)
    requires ECHO_RAM_START <= addr <= ECHO_RAM_END
    ensures WRAM_BANK_0_START <= addr - 0x2000 <= 0xDDFF
    ensures RegionOf(addr - 0x2000) in {WramBank0, WramBankN}
  {
  }

  /** The interrupt bits are the five distinct positions 0..4, in priority order. */
  lemma InterruptBitsInPriorityOrder()
    ensures VBLANK_INTERRUPT_BIT < LCD_STAT_INTERRUPT_BIT < TIMER_INTERRUPT_BIT
            < SERIAL_INTERRUPT_BIT < JOYPAD_INTERRUPT_BIT == 4
    ensures VBLANK_INTERRUPT_BIT == 0
  {
  }

  /** The sound, wave and LCD registers all decode to the I/O region. */
  lemma RegisterBlocksInIo(addr: Addr)
    requires NR10_ADDR <= addr <= NR52_ADDR
          || WAVE_PATTERN_RAM_START <= addr <= WAVE_PATTERN_RAM_END
          || LCDC_ADDR <= addr <= WX_ADDR
    ensures RegionOf(addr) == IoRegisters
  {
  }
}
