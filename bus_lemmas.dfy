// What the bus promises: RAM reads back what was written and nothing
// else moves, echo RAM aliases work RAM, the I/O write masks, the DMA copy,
// the bank registers always select an existing bank, ROM is read-only,
// external RAM is gated by its enable flag, and the MBC3 latch sequence.
module BusLemmas {
  import opened Bits
  import opened MemoryMap
  import opened Mbc
  import opened Rtc
  import opened Joypad
  import opened BusSpec

  /** Addresses backed by plain RAM: the RAM buffers and the echo of work RAM. */
  predicate PlainRam(addr: Addr)
  {
    RamAddr(addr) || ECHO_RAM_START <= addr <= ECHO_RAM_END
  }

  /** The address whose storage an address uses: echo RAM uses work RAM
      0x2000 lower, every other address its own. */
  function Canon(addr: Addr): (c: Addr)
    ensures PlainRam(addr) ==> RamAddr(c)
  {
    if ECHO_RAM_START <= addr <= ECHO_RAM_END then addr - 0x2000 else addr
  }

  // ---------------------------------------------------------------- plain RAM

  /** Reads of plain RAM go to the buffer byte of the canonical address. */
  lemma ReadCanon(m: BusState, addr: Addr)
    requires Sized(m) && PlainRam(addr)
    ensures ReadByte(m, addr) == RamRead(m, Canon(addr))
  {
  }

  /** Writes to plain RAM go to the buffer byte of the canonical address. */
  lemma WriteCanon(m: BusState, addr: Addr, v: bv8)
    requires Sized(m) && PlainRam(addr)
    ensures WriteByte(m, addr, v) == RamWrite(m, Canon(addr), v)
  {
  }

  lemma RamReadWrite(m: BusState, a: Addr, v: bv8, b: Addr)
    requires Sized(m) && RamAddr(a) && RamAddr(b)
    ensures RamRead(RamWrite(m, a, v), b) == if a == b then v else RamRead(m, b)
  {
  }

  /** Reads outside the RAM buffers and echo RAM see only what a RAM write
      leaves alone. */
  lemma ReadOutsideRam(m: BusState, r: BusState, addr: Addr)
    requires Sized(m) && Sized(r) && SameOutsideRam(m, r) && !PlainRam(addr)
    ensures ReadByte(r, addr) == ReadByte(m, addr)
  {
    if addr <= ROM_BANK_0_END {
    } else if addr <= ROM_BANK_N_END {
      assert RomNRead(r, addr) == RomNRead(m, addr);
    } else if addr <= EXT_RAM_END {
      ExtReadSame(m, r, addr);
    } else if IO_REGISTERS_START <= addr <= IO_REGISTERS_END {
      IoReadSame(m, r, addr);
    }
  }

  lemma ExtReadSame(m: BusState, r: BusState, addr: Addr)
    requires EXT_RAM_START <= addr <= EXT_RAM_END && r.ext == m.ext && r.cart == m.cart
    ensures ExtRead(r, addr) == ExtRead(m, addr)
  {
  }

  lemma IoReadSame(m: BusState, r: BusState, addr: Addr)
    requires Sized(m) && Sized(r) && IO_REGISTERS_START <= addr <= IO_REGISTERS_END
    requires r.io == m.io && r.buttons == m.buttons && r.p1Selection == m.p1Selection
    ensures IoRead(r, addr) == IoRead(m, addr)
  {
  }

  /** Reading a plain-RAM address just written gives the written byte. */
  lemma RamReadAfterWrite(m: BusState, addr: Addr, v: bv8)
    requires Sized(m) && PlainRam(addr)
    ensures Sized(WriteByte(m, addr, v))
    ensures ReadByte(WriteByte(m, addr, v), addr) == v
  {
    WriteCanon(m, addr, v);
    ReadCanon(WriteByte(m, addr, v), addr);
    RamReadWrite(m, Canon(addr), v, Canon(addr));
  }

  /** A plain-RAM write leaves every other storage location, and everything
      the bus reads outside RAM, as it was. */
  lemma RamWriteFrame(m: BusState, addr: Addr, v: bv8, other: Addr)
    requires Sized(m) && PlainRam(addr) && Canon(addr) != Canon(other)
    ensures Sized(WriteByte(m, addr, v))
    ensures ReadByte(WriteByte(m, addr, v), other) == ReadByte(m, other)
  {
    WriteCanon(m, addr, v);
    var r := WriteByte(m, addr, v);
    if PlainRam(other) {
      ReadCanon(m, other);
      ReadCanon(r, other);
      RamReadWrite(m, Canon(addr), v, Canon(other));
    } else {
      ReadOutsideRam(m, r, other);
    }
  }

  /** A 16-bit write to two distinct plain-RAM bytes reads back as the same word. */
  lemma WordRoundTrip(m: BusState, addr: Addr, w: bv16)
    requires Sized(m) && PlainRam(addr) && PlainRam(NextAddr(addr))
    requires Canon(addr) != Canon(NextAddr(addr))
    ensures Sized(WriteWord(m, addr, w))
    ensures ReadWord(WriteWord(m, addr, w), addr) == w
  {
    var m1 := WriteByte(m, addr, Lo(w));
    RamReadAfterWrite(m, addr, Lo(w));
    RamReadAfterWrite(m1, NextAddr(addr), Hi(w));
    RamWriteFrame(m1, NextAddr(addr), Hi(w), addr);
    WordOfBytes(w);
  }

  // ---------------------------------------------------------------- read-only and unmapped

  /** No write changes ROM: bank 0 reads the same after any write. */
  lemma RomBank0ReadOnly(m: BusState, addr: Addr, v: bv8, at: Addr)
    requires Sized(m) && at <= ROM_BANK_0_END
    ensures Sized(WriteByte(m, addr, v))
    ensures ReadByte(WriteByte(m, addr, v), at) == ReadByte(m, at)
  {
    WriteKeepsRom(m, addr, v);
  }

  /** `write_byte` never touches the ROM image or its bank-0 copy. */
  lemma WriteKeepsRom(m: BusState, addr: Addr, v: bv8)
    requires Sized(m)
    ensures Sized(WriteByte(m, addr, v))
    ensures WriteByte(m, addr, v).rom0 == m.rom0 && WriteByte(m, addr, v).rom == m.rom
    decreases addr
  {
    WriteKeepsSized(m, addr, v);
    if WRAM_BANK_N_END < addr <= ECHO_RAM_END {
      WriteKeepsRom(m, addr - 0x2000, v);
    }
  }

  /** FEA0-FEFF reads 0xFF and ignores writes. */
  lemma NotUsable(m: BusState, addr: Addr, v: bv8)
    requires Sized(m) && NOT_USABLE_START <= addr <= NOT_USABLE_END
    ensures ReadByte(m, addr) == 0xFF && WriteByte(m, addr, v) == m
  {
  }

  // ---------------------------------------------------------------- I/O registers

  /** IE keeps only the five interrupt bits of a write. */
  lemma InterruptEnableMask(m: BusState, v: bv8)
    requires Sized(m)
    ensures Sized(WriteByte(m, INTERRUPT_ENABLE_REGISTER, v))
    ensures ReadByte(WriteByte(m, INTERRUPT_ENABLE_REGISTER, v), INTERRUPT_ENABLE_REGISTER) == v & 0x1F
  {
  }

  /** IF takes the five interrupt bits of a write and keeps its own upper three. */
  lemma InterruptFlagMask(m: BusState, v: bv8)
    requires Sized(m)
    ensures Sized(WriteByte(m, IF_ADDR, v))
    ensures ReadByte(WriteByte(m, IF_ADDR, v), IF_ADDR) == (v & 0x1F) | (ReadByte(m, IF_ADDR) & 0xE0)
  {
  }

  /** Any write to DIV resets it. */
  lemma DividerReset(m: BusState, v: bv8)
    requires Sized(m)
    ensures Sized(WriteByte(m, DIV_ADDR, v))
    ensures ReadByte(WriteByte(m, DIV_ADDR, v), DIV_ADDR) == 0
  {
  }

  /** The STAT mask of `write_byte` is applied to the byte just stored, so
      it keeps every bit of the write: STAT then reads the written value with
      bit 7 set, mode and coincidence bits included. The mask as designed,
      applied to the old value, would keep bits 0-2 instead. */
  lemma StatWriteAsWritten(m: BusState, v: bv8)
    requires Sized(m)
    ensures StatMask(v, v) == v
    ensures Sized(WriteByte(m, STAT_ADDR, v))
    ensures ReadByte(WriteByte(m, STAT_ADDR, v), STAT_ADDR) == v | 0x80
    ensures ReadByte(m, STAT_ADDR) & 0x07 != v & 0x07 ==>
      ReadByte(WriteByte(m, STAT_ADDR, v), STAT_ADDR) != (StatMask(m.io[IoIndex(STAT_ADDR)], v) | 0x80)
  {
    StatMaskBits(m.io[IoIndex(STAT_ADDR)], v);
  }

  lemma StatMaskBits(current: bv8, v: bv8)
    ensures StatMask(v, v) == v
    ensures StatMask(current, v) & 0x07 == current & 0x07
    ensures (v | 0x80) & 0x07 == v & 0x07 && (current | 0x80) & 0x07 == current & 0x07
  {
  }

  /** P1 stores only the selection bits; reads combine them with the buttons. */
  lemma JoypadSelect(m: BusState, v: bv8)
    requires Sized(m)
    ensures Sized(WriteByte(m, P1_JOYP_ADDR, v))
    ensures ReadByte(WriteByte(m, P1_JOYP_ADDR, v), P1_JOYP_ADDR) == P1(m.buttons, v & 0x30)
  {
  }

  /** Registers without a special case store the byte written: serial,
      timer, sound, wave RAM, LCD control, scroll, LY, LYC, the palettes,
      the window position and the unmapped I/O bytes. */
  lemma IoStoresValue(m: BusState, addr: Addr, v: bv8)
    requires Sized(m) && IO_REGISTERS_START <= addr <= IO_REGISTERS_END
    requires addr !in {P1_JOYP_ADDR, DIV_ADDR, IF_ADDR, STAT_ADDR, DMA_ADDR}
    ensures Sized(WriteByte(m, addr, v))
    ensures ReadByte(WriteByte(m, addr, v), addr) == v
    ensures GetIoReg(WriteByte(m, addr, v), addr) == v
  {
  }

  // ---------------------------------------------------------------- DMA

  /** The I/O buffer plays no part in reads below FF00. */
  lemma ReadIgnoresIo(m: BusState, io: seq<bv8>, addr: Addr)
    requires Sized(m) && |io| == IO_REGISTERS_SIZE && addr < IO_REGISTERS_START
    ensures ReadByte(m.(io := io), addr) == ReadByte(m, addr)
    decreases addr
  {
    if ECHO_RAM_START <= addr <= ECHO_RAM_END {
      ReadIgnoresIo(m, io, addr - 0x2000);
    }
  }

  /** The OAM buffer plays no part in reads below FE00, so a DMA copy never
      reads a byte it has already written. */
  lemma ReadIgnoresOam(m: BusState, oam: seq<bv8>, addr: Addr)
    requires Sized(m) && |oam| == OAM_SIZE && addr < OAM_START
    ensures ReadByte(m.(oam := oam), addr) == ReadByte(m, addr)
    decreases addr
  {
    if ECHO_RAM_START <= addr <= ECHO_RAM_END {
      ReadIgnoresOam(m, oam, addr - 0x2000);
    }
  }

  /** A write to DMA below FE00 copies the 160 bytes at `v * 0x100` into
      OAM: each OAM byte then reads what the source byte read before. The
      DMA register itself keeps the written value. */
  lemma DmaCopies(m: BusState, v: bv8, i: nat)
    requires Sized(m) && DmaSource(v) < OAM_START && i < OAM_SIZE
    ensures Sized(WriteByte(m, DMA_ADDR, v))
    ensures ReadByte(WriteByte(m, DMA_ADDR, v), OAM_START + i) == ReadByte(m, DmaSource(v) + i)
    ensures ReadByte(WriteByte(m, DMA_ADDR, v), DMA_ADDR) == v
  {
    var stored := m.(io := m.io[IoIndex(DMA_ADDR) := v]);
    ReadIgnoresIo(m, stored.io, DmaSource(v) + i);
  }

  /** A DMA from FE00 or above stores the register and copies nothing. */
  lemma DmaFromHighPageIgnored(m: BusState, v: bv8)
    requires Sized(m) && DmaSource(v) >= OAM_START
    ensures WriteByte(m, DMA_ADDR, v).oam == m.oam
  {
  }

  // ---------------------------------------------------------------- banking

  /** The bank registers always name banks that exist. */
  predicate BanksInRange(c: Cart)
  {
    c.romBank < AtLeastOne(c.numRomBanks)
    && (if c.numRamBanks == 0 then c.ramBank == 0 else c.ramBank < c.numRamBanks)
  }

  lemma RomBankWriteInRange(c: Cart, v: bv8)
    requires BanksInRange(c)
    ensures BanksInRange(RomBankWrite(c, v))
  {
    match c.mbc {
      case Mbc1 => RomBankWriteMbc1(c, v);
      case Mbc3 => RomBankWriteMbc3(c, v);
      case NoMbc =>
    }
  }

  lemma RomBankWriteMbc1(c: Cart, v: bv8)
    requires BanksInRange(c) && c.mbc == Mbc1
    ensures BanksInRange(RomBankWrite(c, v))
  {
  }

  lemma RomBankWriteMbc3(c: Cart, v: bv8)
    requires BanksInRange(c) && c.mbc == Mbc3
    ensures BanksInRange(RomBankWrite(c, v))
  {
  }

  lemma RamBankWriteInRange(c: Cart, v: bv8)
    requires BanksInRange(c)
    ensures BanksInRange(RamBankWrite(c, v))
  {
    match c.mbc {
      case Mbc1 => RamBankWriteMbc1(c, v);
      case Mbc3 => RamBankWriteMbc3(c, v);
      case NoMbc =>
    }
  }

  lemma RamBankWriteMbc1(c: Cart, v: bv8)
    requires BanksInRange(c) && c.mbc == Mbc1
    ensures BanksInRange(RamBankWrite(c, v))
  {
  }

  lemma RamBankWriteMbc3(c: Cart, v: bv8)
    requires BanksInRange(c) && c.mbc == Mbc3
    ensures BanksInRange(RamBankWrite(c, v))
  {
    if v <= 0x07 {
      RamBankSelectMbc3(c, v);
    }
  }

  lemma RamBankSelectMbc3(c: Cart, v: bv8)
    requires BanksInRange(c) && c.mbc == Mbc3 && v <= 0x07
    ensures BanksInRange(RamBankWrite(c, v))
  {
  }

  lemma ModeOrLatchWriteInRange(c: Cart, v: bv8, now: nat)
    requires BanksInRange(c)
    ensures BanksInRange(ModeOrLatchWrite(c, v, now))
  {
    match c.mbc {
      case Mbc1 => ModeWriteMbc1(c, v, now);
      case Mbc3 => LatchWriteMbc3(c, v, now);
      case NoMbc =>
    }
  }

  lemma ModeWriteMbc1(c: Cart, v: bv8, now: nat)
    requires BanksInRange(c) && c.mbc == Mbc1
    ensures BanksInRange(ModeOrLatchWrite(c, v, now))
  {
  }

  lemma LatchWriteMbc3(c: Cart, v: bv8, now: nat)
    requires BanksInRange(c) && c.mbc == Mbc3
    ensures BanksInRange(ModeOrLatchWrite(c, v, now))
  {
    var r := ModeOrLatchWrite(c, v, now);
    assert r.romBank == c.romBank && r.ramBank == c.ramBank;
    assert r.numRomBanks == c.numRomBanks && r.numRamBanks == c.numRamBanks;
  }

  /** Every write keeps the bank registers in range. */
  lemma WriteKeepsBanksInRange(m: BusState, addr: Addr, v: bv8)
    requires Sized(m) && BanksInRange(m.cart)
    ensures BanksInRange(WriteByte(m, addr, v).cart)
    decreases addr
  {
    if addr <= ROM_BANK_N_END {
      CartWriteInRange(m, addr, v);
    } else if EXT_RAM_START <= addr <= EXT_RAM_END {
      assert WriteByte(m, addr, v) == ExtWrite(m, addr, v);
    } else if WRAM_BANK_N_END < addr <= ECHO_RAM_END {
      WriteKeepsBanksInRange(m, addr - 0x2000, v);
    } else {
      WriteKeepsCart(m, addr, v);
    }
  }

  lemma CartWriteInRange(m: BusState, addr: Addr, v: bv8)
    requires Sized(m) && BanksInRange(m.cart) && addr <= ROM_BANK_N_END
    ensures BanksInRange(WriteByte(m, addr, v).cart)
  {
    assert WriteByte(m, addr, v).cart == CartWrite(m.cart, addr, v, m.clock);
    ControllerWriteInRange(m.cart, addr, v, m.clock);
  }

  lemma ControllerWriteInRange(c: Cart, addr: Addr, v: bv8, now: nat)
    requires BanksInRange(c) && addr <= ROM_BANK_N_END
    ensures BanksInRange(CartWrite(c, addr, v, now))
  {
    if addr <= 0x1FFF {
    } else if addr <= 0x3FFF {
      RomBankWriteInRange(c, v);
    } else if addr <= 0x5FFF {
      RamBankWriteInRange(c, v);
    } else {
      ModeOrLatchWriteInRange(c, v, now);
    }
  }

  /** Writes to RAM, the unusable area, I/O and IE leave the controller alone. */
  lemma WriteKeepsCart(m: BusState, addr: Addr, v: bv8)
    requires Sized(m) && ROM_BANK_N_END < addr
    requires !(EXT_RAM_START <= addr <= ECHO_RAM_END && WRAM_BANK_N_END < addr)
    requires !(EXT_RAM_START <= addr <= EXT_RAM_END)
    ensures WriteByte(m, addr, v).cart == m.cart
  {
  }

  /** Power-up and cartridge load both start with banks in range. */
  lemma StartsInRange(m: BusState, now: nat, data: seq<bv8>)
    requires Sized(m) && Loadable(data)
    ensures BanksInRange(Initial(now).cart)
    ensures BanksInRange(LoadRom(m, data).cart)
  {
  }

  /** With banks in range, the switchable window reads the selected bank
      itself: the modulo in `read_byte` never changes it. */
  lemma RomNReadsSelectedBank(m: BusState, addr: Addr)
    requires BanksInRange(m.cart) && ROM_BANK_N_START <= addr <= ROM_BANK_N_END
    ensures RomNRead(m, addr) ==
      var offset := m.cart.romBank as int * ROM_BANK_N_SIZE + (addr - ROM_BANK_N_START);
      if offset < |m.rom| then m.rom[offset] else 0xFF
  {
    ModBelow(m.cart.romBank, AtLeastOne(m.cart.numRomBanks));
  }

  lemma ModBelow(x: int, n: int)
    requires 0 <= x < n
    ensures x % n == x
  {
  }

  /** Selecting bank 0 in the low bank register selects bank 1, on MBC1
      (upper bits clear, mode 0) and on MBC3, whenever the bank count is
      even and at least two, as every count of the header is. */
  lemma BankZeroSelectsOne(c: Cart, v: bv8)
    requires c.mbc != NoMbc && c.numRomBanks >= 2 && c.numRomBanks % 2 == 0
    requires c.mbc == Mbc1 ==> v & 0x1F == 0 && c.mbc1Upper == 0 && c.bankingMode == 0
    requires c.mbc == Mbc3 ==> v & 0x7F == 0
    ensures RomBankWrite(c, v).romBank == 1
  {
    MaskOne(AtLeastOne(c.numRomBanks));
    if c.mbc == Mbc1 {
      var lowered := c.(mbc1Lower := 1);
      assert BitOr(1, 0) == 1;
      assert Mbc1RomBank(lowered) == 1;
      assert RomBankWrite(c, v) == UpdateMbc1RomBank(lowered);
    }
  }

  /** `1 & (n - 1)` is 1 for an even count. */
  lemma MaskOne(n: nat)
    requires n >= 2 && n % 2 == 0
    ensures MaskBank(1, n) == 1
  {
    assert BitAnd(0, (n - 1) / 2) == 0;
  }

  /** With a power-of-two bank count the mask is the remainder: a bank
      number past the end wraps around to the start of the ROM. */
  lemma MaskBankWraps(bank: nat, n: nat)
    ensures MaskBank(bank, Pow2(n)) == bank % Pow2(n)
  {
    BitAndLowMask(bank, n);
  }

  /** In banking mode 0 the five lower bits and the two upper bits of
      MBC1 make one seven-bit bank number: `lower | (upper << 5)`, for a
      lower part below 32, is `lower + 32 * upper`. */
  lemma JoinBits(lower: nat, upper: nat)
    requires lower < 32
    ensures BitOr(lower, upper * 32) == lower + 32 * upper
  {
    assert Pow2(5) == 32 by {
      assert Pow2(2) == 4;
      assert Pow2(4) == 16;
    }
    BitOrDisjoint(lower, 5, upper);
    assert Pow2(5) * upper == upper * 32;
  }

  // ---------------------------------------------------------------- external RAM and clock

  /** While RAM is disabled, A000-BFFF reads 0xFF and ignores writes. */
  lemma ExtRamGated(m: BusState, addr: Addr, v: bv8)
    requires Sized(m) && EXT_RAM_START <= addr <= EXT_RAM_END && !m.cart.ramEnabled
    ensures ReadByte(m, addr) == 0xFF && WriteByte(m, addr, v) == m
  {
  }

  /** A cart that may enable RAM enables it exactly for a low nibble of 0xA;
      a cart without a controller never changes the flag. */
  lemma RamEnableIff(m: BusState, addr: Addr, v: bv8)
    requires Sized(m) && addr <= 0x1FFF
    ensures m.cart.mbc != NoMbc && MayEnableRam(m.cart) ==>
      (WriteByte(m, addr, v).cart.ramEnabled <==> v & 0x0F == 0x0A)
    ensures m.cart.mbc == NoMbc ==> WriteByte(m, addr, v) == m
  {
  }

  /** The latched clock changes only on the 0x01 that completes a 0x00,
      0x01 sequence on an MBC3; it then holds the clock brought up to date. */
  lemma LatchOnlyOnSequence(c: Cart, v: bv8, now: nat)
    ensures ModeOrLatchWrite(c, v, now).rtcLatched != c.rtcLatched ==>
      c.mbc == Mbc3 && c.latchState == 1 && v == 0x01
    ensures c.mbc == Mbc3 && c.latchState == 1 && v == 0x01 ==>
      ModeOrLatchWrite(c, v, now).rtcLatched == UpdateValue(c.rtc, now)
      && ModeOrLatchWrite(c, v, now).rtc == UpdateValue(c.rtc, now)
  {
    if c.mbc != Mbc3 {
      assert ModeOrLatchWrite(c, v, now).rtcLatched == c.rtcLatched;
    }
  }

  /** Writing 0x00 then 0x01 latches, from a fresh sequence. */
  lemma LatchSequence(c: Cart, now: nat)
    requires c.mbc == Mbc3 && c.latchState == 0
    ensures var c2 := ModeOrLatchWrite(ModeOrLatchWrite(c, 0x00, now), 0x01, now);
      c2.rtcLatched == UpdateValue(c.rtc, now) && c2.latchState == 0
  {
  }

  /** A mapped clock register reads from the latched copy, never the live one. */
  lemma ClockReadsLatched(m: BusState, addr: Addr)
    requires Sized(m) && EXT_RAM_START <= addr <= EXT_RAM_END
    requires m.cart.ramEnabled && RtcMappedForRead(m.cart)
    ensures ReadByte(m, addr) == ReadValue(m.cart.rtcLatched, m.cart.rtcMapped)
  {
  }

  // ---------------------------------------------------------------- interrupts, joypad, power-up

  /** `request_interrupt` sets exactly the requested IF bit. */
  lemma RequestSetsBit(m: BusState, bit: bv8, k: nat)
    requires Sized(m) && bit < 5 && k < 8
    ensures BitSet(GetIoReg(RequestInterrupt(m, bit), IF_ADDR), k) <==>
      (k == bit as nat || BitSet(GetIoReg(m, IF_ADDR), k))
  {
    OrBit(m.io[IoIndex(IF_ADDR)], bit, k);
  }

  lemma OrBit(x: bv8, bit: bv8, k: nat)
    requires bit < 5 && k < 8
    ensures BitSet(x | (1 << bit), k) <==> (k == bit as nat || BitSet(x, k))
  {
  }

  /** A key press requests the joypad interrupt exactly when the button was
      up and its group is selected, and leaves the stored P1 byte matching
      the new button state. */
  lemma KeyDownInterrupt(m: BusState, btn: Button)
    requires Sized(m)
    ensures BitSet(GetIoReg(KeyDown(m, btn), IF_ADDR), 4) <==>
      (RequestsInterrupt(m.buttons, m.p1Selection, btn) || BitSet(GetIoReg(m, IF_ADDR), 4))
    ensures GetIoReg(KeyDown(m, btn), P1_JOYP_ADDR) == P1(Press(m.buttons, btn), m.p1Selection)
    ensures ReadByte(KeyDown(m, btn), P1_JOYP_ADDR) == P1(Press(m.buttons, btn), m.p1Selection)
  {
    var pressed := m.(buttons := Press(m.buttons, btn));
    if RequestsInterrupt(m.buttons, m.p1Selection, btn) {
      RequestSetsBit(pressed, 4, 4);
    }
  }

  /** Power-up values: P1 reads 0xFF, LCDC 0x91, STAT 0x85, IF 0xE1, IE 0. */
  lemma PowerUpRegisters(now: nat)
    ensures ReadByte(Initial(now), P1_JOYP_ADDR) == 0xFF
    ensures ReadByte(Initial(now), LCDC_ADDR) == 0x91
    ensures ReadByte(Initial(now), STAT_ADDR) == 0x85
    ensures ReadByte(Initial(now), IF_ADDR) == 0xE1
    ensures ReadByte(Initial(now), INTERRUPT_ENABLE_REGISTER) == 0
  {
  }

  /** After `load_rom`, the first 32 KiB of the address space read the file
      (bank 0, then bank 1), and 0xFF past its end. */
  lemma LoadedRomReads(m: BusState, data: seq<bv8>, addr: Addr)
    requires Sized(m) && Loadable(data) && addr <= ROM_BANK_N_END
    ensures ReadByte(LoadRom(m, data), addr) == if addr < |data| then data[addr] else 0xFF
  {
    if addr > ROM_BANK_0_END {
      LoadedBankOneReads(m, data, addr);
    }
  }

  lemma LoadedBankOneReads(m: BusState, data: seq<bv8>, addr: Addr)
    requires Sized(m) && Loadable(data) && ROM_BANK_N_START <= addr <= ROM_BANK_N_END
    ensures RomNRead(LoadRom(m, data), addr) == if addr < |data| then data[addr] else 0xFF
  {
    var r := LoadRom(m, data);
    assert r.cart.romBank == 1 && r.cart.numRomBanks >= 2;
    ModBelow(1, r.cart.numRomBanks);
  }
}
