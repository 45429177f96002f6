// The memory bus as a value: the address decode of `read_byte`, the effect
// of `write_byte` (MBC registers, RAM, I/O write masks, instant OAM DMA),
// and the other bus operations of core/src/memory_bus.rs. The `MemoryBus`
// class (memory_bus.dfy) is proved to behave as these functions say.
module BusSpec {
  import opened Bits
  import opened MemoryMap
  import opened Mbc
  import opened Rtc
  import opened Joypad

  /** The cartridge-controller fields of `MemoryBus`: the decoded header,
      the bank registers, the MBC1 bank halves and mode, and the MBC3 clock,
      its latched copy, its latch sequence and the mapped clock register.
      Bank numbers and counts are the source's `usize`. */
  datatype Cart = Cart(
    mbc: MbcType, hasRam: bool, hasBattery: bool,
    romBank: nat, ramBank: nat, ramEnabled: bool,
    bankingMode: bv8, mbc1Lower: bv8, mbc1Upper: bv8,
    numRomBanks: nat, numRamBanks: nat,
    rtc: RtcValue, rtcLatched: RtcValue, latchState: bv8, rtcMapped: bv8)

  /** The rest of `MemoryBus`: the fixed buffers, IE, the whole ROM image,
      external RAM, the controller, the joypad, and the wall-clock seconds
      the RTC reads (`clock`). */
  datatype BusState = BusState(
    rom0: seq<bv8>, vram: seq<bv8>, wram0: seq<bv8>, wramN: seq<bv8>,
    oam: seq<bv8>, io: seq<bv8>, hram: seq<bv8>, ie: bv8,
    rom: seq<bv8>, ext: seq<bv8>, cart: Cart,
    buttons: JoypadState, p1Selection: bv8, clock: nat)

  /** The fixed buffers have the sizes of their regions. */
  predicate Sized(m: BusState)
  {
    |m.rom0| == ROM_BANK_0_SIZE && |m.vram| == VRAM_SIZE
    && |m.wram0| == WRAM_BANK_0_SIZE && |m.wramN| == WRAM_BANK_N_SIZE
    && |m.oam| == OAM_SIZE && |m.io| == IO_REGISTERS_SIZE && |m.hram| == HRAM_SIZE
  }

  /** The offset of an I/O register in the I/O buffer. */
  function IoIndex(addr: Addr): (i: nat)
    requires IO_REGISTERS_START <= addr <= IO_REGISTERS_END
    ensures i < IO_REGISTERS_SIZE
  {
    addr - IO_REGISTERS_START
  }

  /** `n.max(1)`. */
  function AtLeastOne(n: nat): (r: nat)
    ensures r >= 1 && (n != 0 ==> r == n)
  {
    if n == 0 then 1 else n
  }

  // ---------------------------------------------------------------- reads

  /** Switchable ROM: the bank modulo the bank count, 0xFF past the data. */
  function RomNRead(m: BusState, addr: Addr): bv8
    requires ROM_BANK_N_START <= addr <= ROM_BANK_N_END
  {
    var bank := m.cart.romBank % AtLeastOne(m.cart.numRomBanks);
    var offset := bank * ROM_BANK_N_SIZE + (addr - ROM_BANK_N_START);
    if offset < |m.rom| then m.rom[offset] else 0xFF
  }

  /** External RAM is usable only when the cart has RAM banks. */
  predicate ExtRamPresent(m: BusState)
  {
    m.cart.hasRam && |m.ext| != 0 && m.cart.numRamBanks != 0
  }

  /** An MBC3 with a clock register (0x08..0x0C) mapped into A000-BFFF. */
  predicate RtcMappedForRead(c: Cart)
  {
    c.mbc == Mbc3 && 0x08 <= c.rtcMapped <= 0x0C
  }

  /** The byte offset in external RAM that an A000-BFFF address selects. */
  function ExtOffset(c: Cart, addr: Addr): int
    requires EXT_RAM_START <= addr <= EXT_RAM_END && c.numRamBanks != 0
  {
    (c.ramBank % c.numRamBanks) * EXT_RAM_SIZE + (addr - EXT_RAM_START)
  }

  /** Reads of A000-BFFF: 0xFF while RAM is disabled; the latched clock
      register when one is mapped; 0xFF without RAM or past its end. */
  function ExtRead(m: BusState, addr: Addr): (v: bv8)
    requires EXT_RAM_START <= addr <= EXT_RAM_END
    ensures !m.cart.ramEnabled ==> v == 0xFF
    ensures m.cart.ramEnabled && RtcMappedForRead(m.cart) ==> v == ReadValue(m.cart.rtcLatched, m.cart.rtcMapped)
    ensures !RtcMappedForRead(m.cart) && !ExtRamPresent(m) ==> v == 0xFF
  {
    if !m.cart.ramEnabled then 0xFF
    else if RtcMappedForRead(m.cart) then ReadValue(m.cart.rtcLatched, m.cart.rtcMapped)
    else if !ExtRamPresent(m) then 0xFF
    else
      var offset := ExtOffset(m.cart, addr);
      if offset < |m.ext| then m.ext[offset] else 0xFF
  }

  /** I/O reads: P1 comes from the joypad, STAT reads with bit 7 set,
      everything else is the stored byte. */
  function IoRead(m: BusState, addr: Addr): bv8
    requires Sized(m) && IO_REGISTERS_START <= addr <= IO_REGISTERS_END
  {
    if addr == P1_JOYP_ADDR then P1(m.buttons, m.p1Selection)
    else if addr == STAT_ADDR then m.io[IoIndex(addr)] | 0x80
    else m.io[IoIndex(addr)]
  }

  /** The addresses backed by a RAM buffer of the bus: VRAM, both work RAM
      banks, OAM and HRAM (echo RAM is not among them: it is decoded by
      recursion onto work RAM). */
  predicate RamAddr(addr: Addr)
  {
    VRAM_START <= addr <= VRAM_END || WRAM_BANK_0_START <= addr <= WRAM_BANK_N_END
    || OAM_START <= addr <= OAM_END || HRAM_START <= addr <= HRAM_END
  }

  /** The byte a RAM address holds. */
  function RamRead(m: BusState, addr: Addr): bv8
    requires Sized(m) && RamAddr(addr)
  {
    if addr <= VRAM_END then m.vram[addr - VRAM_START]
    else if addr <= WRAM_BANK_0_END then m.wram0[addr - WRAM_BANK_0_START]
    else if addr <= WRAM_BANK_N_END then m.wramN[addr - WRAM_BANK_N_START]
    else if addr <= OAM_END then m.oam[addr - OAM_START]
    else m.hram[addr - HRAM_START]
  }

  /** `read_byte`: the exhaustive decode of the 16-bit address space. */
  function ReadByte(m: BusState, addr: Addr): bv8
    requires Sized(m)
    decreases addr
  {
    if addr <= ROM_BANK_0_END then m.rom0[addr]
    else if addr <= ROM_BANK_N_END then RomNRead(m, addr)
    else if addr <= VRAM_END then RamRead(m, addr)
    else if addr <= EXT_RAM_END then ExtRead(m, addr)
    else if addr <= WRAM_BANK_N_END then RamRead(m, addr)
    else if addr <= ECHO_RAM_END then ReadByte(m, addr - 0x2000)
    else if addr <= OAM_END then RamRead(m, addr)
    else if addr <= NOT_USABLE_END then 0xFF
    else if addr <= IO_REGISTERS_END then IoRead(m, addr)
    else if addr <= HRAM_END then RamRead(m, addr)
    else m.ie
  }

  /** The address after `addr`, wrapping from 0xFFFF to 0. */
  function NextAddr(addr: Addr): Addr
  {
    (addr + 1) % 0x10000
  }

  /** `read_word`: little-endian, the high byte at the next address. */
  function ReadWord(m: BusState, addr: Addr): bv16
    requires Sized(m)
  {
    Word(ReadByte(m, NextAddr(addr)), ReadByte(m, addr))
  }

  // ---------------------------------------------------------------- MBC registers

  /** `bank & (count - 1)`: the bank wrapped into a power-of-two count;
      for any nonzero count the result is a bank that exists. */
  function MaskBank(bank: nat, count: nat): (r: nat)
    requires count >= 1
    ensures r < count && r <= bank
  {
    BitAnd(bank, count - 1)
  }

  /** The MBC1 bank before masking: lower bits, upper bits in mode 0,
      with the 0x00, 0x20, 0x40 and 0x60 banks replaced by the next one.
      The `usize` shift by 5 is a multiplication by 32. */
  function Mbc1RomBank(c: Cart): nat
  {
    var low := c.mbc1Lower as int;
    var bank := if c.bankingMode == 0 then BitOr(low, c.mbc1Upper as int * 32) else low;
    if bank == 0 || bank == 0x20 || bank == 0x40 || bank == 0x60 then bank + 1 else bank
  }

  /** `update_mbc1_rom_bank`: `Mbc1RomBank` masked with the bank count
      minus one. */
  function UpdateMbc1RomBank(c: Cart): (r: Cart)
    ensures r == c.(romBank := r.romBank)
    ensures r.romBank < AtLeastOne(c.numRomBanks)
  {
    c.(romBank := MaskBank(Mbc1RomBank(c), AtLeastOne(c.numRomBanks)))
  }

  /** `update_mbc1_ram_bank`: the upper bits in mode 1, else bank 0; masked
      with the RAM bank count minus one, or 0 without RAM banks. */
  function UpdateMbc1RamBank(c: Cart): (r: Cart)
    ensures r == c.(ramBank := r.ramBank)
    ensures if c.numRamBanks == 0 then r.ramBank == 0 else r.ramBank < c.numRamBanks
  {
    var bank := if c.bankingMode == 1 then c.mbc1Upper as int else 0;
    c.(ramBank := if c.numRamBanks > 0 then MaskBank(bank, c.numRamBanks) else 0)
  }

  /** The cart may enable its RAM: it has RAM, or it is an MBC3 with a battery. */
  predicate MayEnableRam(c: Cart)
  {
    c.hasRam || (c.hasBattery && c.mbc == Mbc3)
  }

  /** Writes to 0000-1FFF: RAM (and clock) enable on a low nibble of 0xA. */
  function RamEnableWrite(c: Cart, v: bv8): (r: Cart)
    ensures r == c.(ramEnabled := r.ramEnabled)
    ensures r.ramEnabled == if c.mbc != NoMbc && MayEnableRam(c) then v & 0x0F == 0x0A else c.ramEnabled
  {
    match c.mbc
    case Mbc1 => if MayEnableRam(c) then c.(ramEnabled := v & 0x0F == 0x0A) else c
    case Mbc3 => if MayEnableRam(c) then c.(ramEnabled := v & 0x0F == 0x0A) else c
    case NoMbc => c
  }

  /** Writes to 2000-3FFF: the low ROM bank bits; 0 selects bank 1. */
  function RomBankWrite(c: Cart, v: bv8): Cart
  {
    match c.mbc
    case Mbc1 =>
      var low := v & 0x1F;
      UpdateMbc1RomBank(c.(mbc1Lower := if low == 0 then 1 else low))
    case Mbc3 =>
      var bank := v & 0x7F;
      var selected := if bank == 0 then 1 else bank as int;
      c.(romBank := MaskBank(selected, AtLeastOne(c.numRomBanks)))
    case NoMbc => c
  }

  /** Writes to 4000-5FFF: MBC1 upper bank bits, MBC3 RAM bank or clock register. */
  function RamBankWrite(c: Cart, v: bv8): Cart
  {
    match c.mbc
    case Mbc1 =>
      UpdateMbc1RamBank(UpdateMbc1RomBank(c.(mbc1Upper := v & 0x03)))
    case Mbc3 =>
      if v <= 0x07 then
        c.(ramBank := if c.numRamBanks > 0 then MaskBank(v as int, c.numRamBanks) else 0,
           rtcMapped := 0)
      else if 0x08 <= v <= 0x0C then c.(rtcMapped := v)
      else c
    case NoMbc => c
  }

  /** Writes to 6000-7FFF: the MBC1 banking mode, or the MBC3 latch, which
      advances on 0x00 and latches (after bringing the clock up to date at
      wall-clock second `now`) on a following 0x01; any other write
      restarts the sequence. */
  function ModeOrLatchWrite(c: Cart, v: bv8, now: nat): Cart
  {
    match c.mbc
    case Mbc1 =>
      UpdateMbc1RamBank(UpdateMbc1RomBank(c.(bankingMode := v & 0x01)))
    case Mbc3 =>
      if c.latchState == 0 && v == 0x00 then c.(latchState := 1)
      else if c.latchState == 1 && v == 0x01 then
        var updated := UpdateValue(c.rtc, now);
        c.(rtc := updated, rtcLatched := updated, latchState := 0)
      else c.(latchState := 0)
    case NoMbc => c
  }

  /** Writes to A000-BFFF: the live clock register when one is mapped on
      an MBC3, otherwise external RAM; nothing while RAM is disabled. */
  function ExtWrite(m: BusState, addr: Addr, v: bv8): (r: BusState)
    requires EXT_RAM_START <= addr <= EXT_RAM_END
    ensures r == m.(ext := r.ext, cart := r.cart) && |r.ext| == |m.ext|
    ensures r.cart == m.cart.(rtc := r.cart.rtc)
    ensures !m.cart.ramEnabled ==> r == m
  {
    var c := m.cart;
    if !c.ramEnabled then m
    else if c.mbc == Mbc3 && c.rtcMapped >= 0x08 then m.(cart := c.(rtc := WriteValue(c.rtc, c.rtcMapped, v)))
    else m.(ext := ExtRamWrite(m, addr, v))
  }

  /** External RAM after a write to A000-BFFF reaches it: the byte at the
      selected bank's offset, when there is RAM and the offset is inside. */
  function ExtRamWrite(m: BusState, addr: Addr, v: bv8): (e: seq<bv8>)
    requires EXT_RAM_START <= addr <= EXT_RAM_END
    ensures |e| == |m.ext|
  {
    if !ExtRamPresent(m) then m.ext
    else
      var offset := ExtOffset(m.cart, addr);
      if offset < |m.ext| then m.ext[offset := v] else m.ext
  }

  // ---------------------------------------------------------------- I/O

  /** The mask meant to keep STAT bits 0-2 and 7, applied in `write_byte`
      after the register already holds the written value. */
  function StatMask(current: bv8, v: bv8): bv8
  {
    (v & 0x78) | (current & 0x87)
  }

  /** The byte an I/O write leaves in the register at `addr`, given the byte
      `current` it held: DIV resets, IF keeps its upper three bits, STAT
      gets the mask of `StatMask` applied to the value just stored, and
      every other register (sound, wave RAM, LCD, DMA, serial, timer
      and unmapped) stores the value. */
  function IoStored(addr: Addr, current: bv8, v: bv8): bv8
  {
    if addr == DIV_ADDR then 0
    else if addr == IF_ADDR then (v & 0x1F) | (current & 0xE0)
    else if addr == STAT_ADDR then StatMask(v, v)
    else v
  }

  /** DMA source address: the written byte times 0x100. */
  function DmaSource(v: bv8): (src: Addr)
    ensures src % 0x100 == 0
  {
    v as int * 0x100
  }

  /** The 160 bytes a DMA from `src` copies: what the bus reads at `src + i`. */
  function DmaBytes(m: BusState, src: Addr): (bytes: seq<bv8>)
    requires Sized(m) && src < OAM_START
    ensures |bytes| == OAM_SIZE
  {
    seq(OAM_SIZE, i requires 0 <= i < OAM_SIZE => ReadByte(m, src + i))
  }

  /** `perform_dma_transfer`: sources at FE00 and above copy nothing; any
      other source copies the 160 bytes read from it into OAM. */
  function Dma(m: BusState, v: bv8): (r: BusState)
    requires Sized(m)
    ensures Sized(r) && r == m.(oam := r.oam)
  {
    var src := DmaSource(v);
    if src >= OAM_START then m else m.(oam := DmaBytes(m, src))
  }

  /** I/O writes: P1 stores only the selection; every other register
      stores `IoStored`, and a DMA write then copies into OAM. */
  function IoWrite(m: BusState, addr: Addr, v: bv8): (r: BusState)
    requires Sized(m) && IO_REGISTERS_START <= addr <= IO_REGISTERS_END
    ensures Sized(r) && r.cart == m.cart && r.rom0 == m.rom0 && r.rom == m.rom
  {
    var i := IoIndex(addr);
    if addr == P1_JOYP_ADDR then m.(p1Selection := v & 0x30)
    else
      var stored := m.(io := m.io[i := IoStored(addr, m.io[i], v)]);
      if addr == DMA_ADDR then Dma(stored, v) else stored
  }

  // ---------------------------------------------------------------- writes

  /** Writes to 0000-7FFF: the four controller registers. */
  function CartWrite(c: Cart, addr: Addr, v: bv8, now: nat): Cart
    requires addr <= ROM_BANK_N_END
  {
    if addr <= 0x1FFF then RamEnableWrite(c, v)
    else if addr <= 0x3FFF then RomBankWrite(c, v)
    else if addr <= 0x5FFF then RamBankWrite(c, v)
    else ModeOrLatchWrite(c, v, now)
  }

  /** Everything outside the RAM buffers is as in `m`. */
  predicate SameOutsideRam(m: BusState, r: BusState)
  {
    r.rom0 == m.rom0 && r.io == m.io && r.ie == m.ie && r.rom == m.rom && r.ext == m.ext
    && r.cart == m.cart && r.buttons == m.buttons && r.p1Selection == m.p1Selection && r.clock == m.clock
  }

  /** A write to a RAM address changes that one buffer byte. */
  function RamWrite(m: BusState, addr: Addr, v: bv8): (r: BusState)
    requires Sized(m) && RamAddr(addr)
    ensures Sized(r) && SameOutsideRam(m, r)
  {
    if addr <= VRAM_END then m.(vram := m.vram[addr - VRAM_START := v])
    else if addr <= WRAM_BANK_0_END then m.(wram0 := m.wram0[addr - WRAM_BANK_0_START := v])
    else if addr <= WRAM_BANK_N_END then m.(wramN := m.wramN[addr - WRAM_BANK_N_START := v])
    else if addr <= OAM_END then m.(oam := m.oam[addr - OAM_START := v])
    else m.(hram := m.hram[addr - HRAM_START := v])
  }

  /** `write_byte`. */
  function WriteByte(m: BusState, addr: Addr, v: bv8): BusState
    requires Sized(m)
    decreases addr
  {
    if addr <= ROM_BANK_N_END then m.(cart := CartWrite(m.cart, addr, v, m.clock))
    else if addr <= VRAM_END then RamWrite(m, addr, v)
    else if addr <= EXT_RAM_END then ExtWrite(m, addr, v)
    else if addr <= WRAM_BANK_N_END then RamWrite(m, addr, v)
    else if addr <= ECHO_RAM_END then WriteByte(m, addr - 0x2000, v)
    else if addr <= OAM_END then RamWrite(m, addr, v)
    else if addr <= NOT_USABLE_END then m
    else if addr <= IO_REGISTERS_END then IoWrite(m, addr, v)
    else if addr <= HRAM_END then RamWrite(m, addr, v)
    else m.(ie := v & 0x1F)
  }

  /** A write never resizes a buffer. */
  lemma WriteKeepsSized(m: BusState, addr: Addr, v: bv8)
    requires Sized(m)
    ensures Sized(WriteByte(m, addr, v))
    decreases addr
  {
    if WRAM_BANK_N_END < addr <= ECHO_RAM_END {
      WriteKeepsSized(m, addr - 0x2000, v);
    }
  }

  /** `write_word`: the low byte at `addr`, then the high byte at the next address. */
  function WriteWord(m: BusState, addr: Addr, w: bv16): BusState
    requires Sized(m)
  {
    WriteKeepsSized(m, addr, Lo(w));
    WriteByte(WriteByte(m, addr, Lo(w)), NextAddr(addr), Hi(w))
  }

  // ---------------------------------------------------------------- other operations

  /** `request_interrupt`: set IF bit `bit` when it names one of the five
      interrupts; otherwise nothing. */
  function RequestInterrupt(m: BusState, bit: bv8): (r: BusState)
    requires Sized(m)
    ensures Sized(r) && r == m.(io := r.io)
    ensures bit >= 5 ==> r == m
    ensures bit < 5 ==> r.io == m.io[IoIndex(IF_ADDR) := m.io[IoIndex(IF_ADDR)] | (1 << bit)]
  {
    if bit < 5 then
      var i := IoIndex(IF_ADDR);
      m.(io := m.io[i := m.io[i] | (1 << bit)])
    else m
  }

  /** `get_io_reg`: the raw I/O buffer or IE, 0xFF elsewhere. */
  function GetIoReg(m: BusState, addr: Addr): (v: bv8)
    requires Sized(m)
    ensures addr < IO_REGISTERS_START ==> v == 0xFF
  {
    if IO_REGISTERS_START <= addr <= IO_REGISTERS_END then m.io[IoIndex(addr)]
    else if addr == INTERRUPT_ENABLE_REGISTER then m.ie
    else 0xFF
  }

  /** `set_io_reg_direct`: store into the raw I/O buffer (IE masked to five
      bits), bypassing the write masks of `write_byte`. */
  function SetIoRegDirect(m: BusState, addr: Addr, v: bv8): (r: BusState)
    requires Sized(m)
    ensures Sized(r)
    ensures IO_REGISTERS_START <= addr <= IO_REGISTERS_END ==> GetIoReg(r, addr) == v
    ensures addr == INTERRUPT_ENABLE_REGISTER ==> GetIoReg(r, addr) == v & 0x1F
    ensures addr < IO_REGISTERS_START ==> r == m
  {
    if IO_REGISTERS_START <= addr <= IO_REGISTERS_END then m.(io := m.io[IoIndex(addr) := v])
    else if addr == INTERRUPT_ENABLE_REGISTER then m.(ie := v & 0x1F)
    else m
  }

  /** `tick_rtc`: an MBC3 cart's clock is brought up to date. */
  function TickRtc(m: BusState): (r: BusState)
    ensures r == m.(cart := r.cart) && r.cart == m.cart.(rtc := r.cart.rtc)
  {
    if m.cart.mbc == Mbc3 then m.(cart := m.cart.(rtc := UpdateValue(m.cart.rtc, m.clock))) else m
  }

  /** The joypad byte of the I/O buffer refreshed from the buttons. */
  function RefreshP1(m: BusState): (r: BusState)
    requires Sized(m)
    ensures Sized(r) && r == m.(io := r.io)
  {
    m.(io := m.io[IoIndex(P1_JOYP_ADDR) := P1(m.buttons, m.p1Selection)])
  }

  /** `key_down` on the bus: the joypad interrupt when the joypad asks for
      it, then the P1 byte of the I/O buffer refreshed. */
  function KeyDown(m: BusState, btn: Button): (r: BusState)
    requires Sized(m)
    ensures Sized(r)
  {
    var irq := RequestsInterrupt(m.buttons, m.p1Selection, btn);
    var pressed := m.(buttons := Press(m.buttons, btn));
    RefreshP1(if irq then RequestInterrupt(pressed, 4) else pressed)
  }

  /** `key_up` on the bus: release, then refresh the P1 byte. */
  function KeyUp(m: BusState, btn: Button): (r: BusState)
    requires Sized(m)
    ensures Sized(r)
  {
    RefreshP1(m.(buttons := Release(m.buttons, btn)))
  }

  // ---------------------------------------------------------------- power-up and cartridge

  /** The I/O register values `MemoryBus::new` stores before the joypad
      byte is written. */
  function IoDefault(i: nat): bv8
  {
    match i
    case 0x02 => 0x7E
    case 0x04 => 0xAC
    case 0x0F => 0xE1
    case 0x10 => 0x80
    case 0x11 => 0xBF
    case 0x12 => 0xF3
    case 0x14 => 0xBF
    case 0x16 => 0x3F
    case 0x19 => 0xBF
    case 0x1A => 0x7F
    case 0x1B => 0xFF
    case 0x1C => 0x9F
    case 0x1E => 0xBF
    case 0x20 => 0xFF
    case 0x23 => 0xBF
    case 0x24 => 0x77
    case 0x25 => 0xF3
    case 0x26 => 0xF1
    case 0x40 => 0x91
    case 0x41 => 0x85
    case 0x46 => 0xFF
    case 0x47 => 0xFC
    case 0x48 => 0xFF
    case 0x49 => 0xFF
    case _ => 0x00
  }

  /** The controller of a bus with no cartridge loaded. */
  function NoCart(now: nat): Cart
  {
    Cart(NoMbc, false, false, 1, 0, false, 0, 1, 0, 2, 0, Fresh(now), Zero(), 0, 0)
  }

  /** A zero-filled buffer of `n` bytes. */
  function Zeros(n: nat): (s: seq<bv8>)
    ensures |s| == n && forall i :: 0 <= i < n ==> s[i] == 0
  {
    seq(n, _ => 0)
  }

  /** The I/O buffer `MemoryBus::new` builds before the joypad byte. */
  function DefaultIo(): (s: seq<bv8>)
    ensures |s| == IO_REGISTERS_SIZE && forall i :: 0 <= i < |s| ==> s[i] == IoDefault(i)
  {
    seq(IO_REGISTERS_SIZE, (i: int) requires 0 <= i => IoDefault(i))
  }

  /** `MemoryBus::new`, with the wall clock reading `now`. */
  function Initial(now: nat): (m: BusState)
    ensures Sized(m)
  {
    BusState(
      Zeros(ROM_BANK_0_SIZE), Zeros(VRAM_SIZE), Zeros(WRAM_BANK_0_SIZE),
      Zeros(WRAM_BANK_N_SIZE), Zeros(OAM_SIZE),
      DefaultIo()[IoIndex(P1_JOYP_ADDR) := P1(NoneHeld(), 0x30)], Zeros(HRAM_SIZE), 0,
      [], [], NoCart(now), NoneHeld(), 0x30, now)
  }

  predicate RomSizeSupported(code: bv8)
  {
    code <= 0x08 || code == 0x52 || code == 0x53 || code == 0x54
  }

  /** Number of 16 KiB ROM banks for header byte 0x0148. */
  function RomBanks(code: bv8): (n: nat)
    requires RomSizeSupported(code)
    ensures 2 <= n <= 512 && n % 2 == 0
  {
    match code
    case 0x00 => 2
    case 0x01 => 4
    case 0x02 => 8
    case 0x03 => 16
    case 0x04 => 32
    case 0x05 => 64
    case 0x06 => 128
    case 0x07 => 256
    case 0x08 => 512
    case 0x52 => 72
    case 0x53 => 80
    case _ => 96
  }

  predicate RamSizeSupported(code: bv8)
  {
    code <= 0x05
  }

  /** Bytes of external RAM for header byte 0x0149. */
  function RamSize(code: bv8): nat
    requires RamSizeSupported(code)
  {
    match code
    case 0x00 => 0
    case 0x01 => 2 * 1024
    case 0x02 => 8 * 1024
    case 0x03 => 32 * 1024
    case 0x04 => 128 * 1024
    case _ => 64 * 1024
  }

  /** The RAM bank count for RAM size code `code`: whole 8 KiB banks,
      at least one. */
  function RamBanks(code: bv8): (n: nat)
    requires RamSizeSupported(code)
    ensures n == (if RamSize(code) < EXT_RAM_SIZE then EXT_RAM_SIZE else RamSize(code)) / EXT_RAM_SIZE
    ensures 1 <= n <= 16
  {
    match code
    case 0x00 => 1
    case 0x01 => 1
    case 0x02 => 1
    case 0x03 => 4
    case 0x04 => 16
    case _ => 8
  }

  /** What `load_rom` accepts without panicking. */
  predicate Loadable(data: seq<bv8>)
  {
    |data| >= 0x150 && Supported(data[0x0147]) && RomSizeSupported(data[0x0148])
    && RamSizeSupported(data[0x0149]) && |data| >= ROM_BANK_0_SIZE
  }

  /** The controller registers `load_rom` leaves: the header's type, RAM
      only when the type and the size code both say so, the bank counts,
      every banking register reset and a fresh clock started at `now`. */
  function LoadedCart(data: seq<bv8>, now: nat): (c: Cart)
    requires Loadable(data)
    ensures c.romBank == 1 && c.ramBank == 0 && !c.ramEnabled
    ensures c.hasRam <==> FromHeader(data[0x0147]).hasRam && RamSize(data[0x0149]) > 0
    ensures c.numRomBanks == RomBanks(data[0x0148])
    ensures c.numRamBanks == if c.hasRam then RamBanks(data[0x0149]) else 0
  {
    var header := FromHeader(data[0x0147]);
    var withRam := header.hasRam && RamSize(data[0x0149]) > 0;
    Cart(header.mbc, withRam, header.hasBattery, 1, 0, false, 0, 1, 0,
      RomBanks(data[0x0148]), if withRam then RamBanks(data[0x0149]) else 0,
      Fresh(now), Zero(), 0, 0)
  }

  /** The external RAM `load_rom` allocates: zeros of the header's size
      when the cart has RAM, none otherwise. */
  function LoadedExt(data: seq<bv8>): (e: seq<bv8>)
    requires Loadable(data)
    ensures |e| == if LoadedCart(data, 0).hasRam then RamSize(data[0x0149]) else 0
    ensures forall i :: 0 <= i < |e| ==> e[i] == 0
  {
    if FromHeader(data[0x0147]).hasRam && RamSize(data[0x0149]) > 0 then Zeros(RamSize(data[0x0149])) else []
  }

  /** `load_rom`: decode the header, keep the ROM, copy bank 0, size
      external RAM and reset every controller register and the clock. */
  function LoadRom(m: BusState, data: seq<bv8>): (r: BusState)
    requires Sized(m) && Loadable(data)
    ensures Sized(r)
    ensures r.rom == data && r.rom0 == data[..ROM_BANK_0_SIZE]
    ensures r == m.(rom := r.rom, rom0 := r.rom0, ext := r.ext, cart := r.cart)
  {
    m.(rom := data, rom0 := data[..ROM_BANK_0_SIZE], ext := LoadedExt(data), cart := LoadedCart(data, m.clock))
  }
}
