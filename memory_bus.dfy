// The `MemoryBus` struct of core/src/memory_bus.rs, updated in place. The
// fixed buffers are arrays, the ROM image and external RAM are sequences the
// methods reassign, and the clocks and the joypad are the objects of rtc.dfy
// and joypad.dfy. `State()` reads the whole bus as a `BusSpec.BusState`, and
// every method is proved to have the effect the BusSpec function of the same
// name describes.
module Bus {
  import opened Bits
  import opened MemoryMap
  import opened Mbc
  import opened Rtc
  import opened Joypad
  import opened BusSpec
  import BusLemmas

  class MemoryBus {
    const rom0: array<bv8>
    const vram: array<bv8>
    const wram0: array<bv8>
    const wramN: array<bv8>
    const oam: array<bv8>
    const io: array<bv8>
    const hram: array<bv8>
    var ie: bv8

    var rom: seq<bv8>
    var ext: seq<bv8>
    var mbc: MbcType
    var hasRam: bool
    var hasBattery: bool

    var romBank: nat
    var ramBank: nat
    var ramEnabled: bool
    var bankingMode: bv8
    var mbc1Lower: bv8
    var mbc1Upper: bv8

    var rtc: RtcRegisters
    var rtcLatched: RtcRegisters
    var latchState: bv8
    var rtcMapped: bv8

    const joypad: Joypad

    var numRomBanks: nat
    var numRamBanks: nat

    /** The host's wall clock in whole seconds, which `RtcRegisters::update`
        reads; the host advances it. */
    var clock: nat

    /** The buffers have their region sizes and no two of them, nor the two
        clocks, are the same object. */
    predicate Valid()
      reads this
    {
      rom0.Length == ROM_BANK_0_SIZE && vram.Length == VRAM_SIZE
      && wram0.Length == WRAM_BANK_0_SIZE && wramN.Length == WRAM_BANK_N_SIZE
      && oam.Length == OAM_SIZE && io.Length == IO_REGISTERS_SIZE && hram.Length == HRAM_SIZE
      && rom0 != vram && rom0 != wram0 && rom0 != wramN && rom0 != oam && rom0 != io && rom0 != hram
      && vram != wram0 && vram != wramN && vram != oam && vram != io && vram != hram
      && wram0 != wramN && wram0 != oam && wram0 != io && wram0 != hram
      && wramN != oam && wramN != io && wramN != hram
      && oam != io && oam != hram && io != hram
      && rtc != rtcLatched
    }

    /** The controller registers as a value. */
    function Controller(): Cart
      reads this, rtc, rtcLatched
    {
      Cart(mbc, hasRam, hasBattery, romBank, ramBank, ramEnabled,
        bankingMode, mbc1Lower, mbc1Upper, numRomBanks, numRamBanks,
        rtc.Value(), rtcLatched.Value(), latchState, rtcMapped)
    }

    /** Between two states, `ie`, the ROM image and the wall clock are the
        same. */
    twostate predicate SameBuffers()
      reads this
    {
      ie == old(ie) && rom == old(rom) && clock == old(clock)
    }

    /** Between two states, `this` refers to the same clocks. */
    twostate predicate SameObjects()
      reads this
    {
      rtc == old(rtc) && rtcLatched == old(rtcLatched)
    }

    /** Between two states, only controller fields and external RAM
        changed. */
    twostate predicate OnlyCartridge()
      reads this
    {
      SameBuffers() && SameObjects()
    }

    /** Between two states, only controller fields of `this` changed. */
    twostate predicate OnlyController()
      reads this
    {
      SameBuffers() && ext == old(ext) && SameObjects()
    }

    /** The objects the bus is made of. */
    function Repr(): set<object>
      reads this
    {
      {this, rom0, vram, wram0, wramN, oam, io, hram, rtc, rtcLatched, joypad}
    }

    /** The whole bus as a value. */
    function State(): BusState
      reads this, rom0, vram, wram0, wramN, oam, io, hram, rtc, rtcLatched, joypad
    {
      BusState(rom0[..], vram[..], wram0[..], wramN[..], oam[..], io[..], hram[..], ie,
        rom, ext, Controller(), joypad.state, joypad.selection, clock)
    }

    /** `MemoryBus::new`, with the wall clock reading `now`. */
    constructor (now: nat)
      ensures Valid() && State() == Initial(now)
    {
      var bank0 := NewBuffer(ROM_BANK_0_SIZE);
      var video := NewBuffer(VRAM_SIZE);
      var work0 := NewBuffer(WRAM_BANK_0_SIZE);
      var workN := NewBuffer(WRAM_BANK_N_SIZE);
      var sprites := NewBuffer(OAM_SIZE);
      var registers := NewIoRegisters();
      var high := NewBuffer(HRAM_SIZE);
      rom0, vram, wram0, wramN, oam, io, hram := bank0, video, work0, workN, sprites, registers, high;
      ie := 0;
      rom, ext := [], [];
      mbc, hasRam, hasBattery := NoMbc, false, false;
      romBank, ramBank, ramEnabled, bankingMode := 1, 0, false, 0;
      mbc1Lower, mbc1Upper := 1, 0;
      rtc := new RtcRegisters(now);
      rtcLatched := new RtcRegisters.Default();
      latchState, rtcMapped := 0, 0;
      joypad := new Joypad();
      numRomBanks, numRamBanks := 2, 0;
      clock := now;
      new;
      var p1 := joypad.ReadP1();
      io[P1_JOYP_ADDR - IO_REGISTERS_START] := p1;
    }

    static method NewBuffer(n: nat) returns (a: array<bv8>)
      ensures fresh(a) && a[..] == Zeros(n)
    {
      a := new bv8[n](_ => 0);
    }

    /** The power-up values of the I/O registers, before the joypad byte. */
    static method NewIoRegisters() returns (a: array<bv8>)
      ensures fresh(a) && a[..] == DefaultIo()
    {
      a := new bv8[IO_REGISTERS_SIZE]((i: int) requires 0 <= i => IoDefault(i));
    }

    // ------------------------------------------------------------ reads

    /** `read_byte`. */
    method ReadByte(addr: Addr) returns (b: bv8)
      requires Valid()
      ensures b == BusSpec.ReadByte(State(), addr)
      decreases addr
    {
      if addr <= ROM_BANK_0_END {
        b := rom0[addr];
      } else if addr <= ROM_BANK_N_END {
        var bank := romBank % AtLeastOne(numRomBanks);
        var offset := bank * ROM_BANK_N_SIZE + (addr - ROM_BANK_N_START);
        b := if offset < |rom| then rom[offset] else 0xFF;
      } else if addr <= VRAM_END {
        b := vram[addr - VRAM_START];
      } else if addr <= EXT_RAM_END {
        b := ReadExternal(addr);
      } else if addr <= WRAM_BANK_0_END {
        b := wram0[addr - WRAM_BANK_0_START];
      } else if addr <= WRAM_BANK_N_END {
        b := wramN[addr - WRAM_BANK_N_START];
      } else if addr <= ECHO_RAM_END {
        b := ReadByte(addr - 0x2000);
      } else if addr <= OAM_END {
        b := oam[addr - OAM_START];
      } else if addr <= NOT_USABLE_END {
        b := 0xFF;
      } else if addr <= IO_REGISTERS_END {
        b := ReadIo(addr);
      } else if addr <= HRAM_END {
        b := hram[addr - HRAM_START];
      } else {
        b := ie;
      }
    }

    /** The A000-BFFF arm of `read_byte`. */
    method ReadExternal(addr: Addr) returns (b: bv8)
      requires Valid() && EXT_RAM_START <= addr <= EXT_RAM_END
      ensures b == ExtRead(State(), addr)
    {
      if !ramEnabled {
        return 0xFF;
      }
      if mbc == Mbc3 && 0x08 <= rtcMapped <= 0x0C {
        b := rtcLatched.Read(rtcMapped);
      } else if !hasRam || |ext| == 0 || numRamBanks == 0 {
        b := 0xFF;
      } else {
        var offset := (ramBank % numRamBanks) * EXT_RAM_SIZE + (addr - EXT_RAM_START);
        b := if offset < |ext| then ext[offset] else 0xFF;
      }
    }

    /** The I/O arm of `read_byte`. */
    method ReadIo(addr: Addr) returns (b: bv8)
      requires Valid() && IO_REGISTERS_START <= addr <= IO_REGISTERS_END
      ensures b == IoRead(State(), addr)
    {
      var offset := addr - IO_REGISTERS_START;
      if addr == P1_JOYP_ADDR {
        b := joypad.ReadP1();
      } else if addr == STAT_ADDR {
        b := io[offset] | 0x80;
      } else {
        b := io[offset];
      }
    }

    /** `read_word`. */
    method ReadWord(addr: Addr) returns (w: bv16)
      requires Valid()
      ensures w == BusSpec.ReadWord(State(), addr)
    {
      var low := ReadByte(addr);
      var high := ReadByte((addr + 1) % 0x10000);
      w := Word(high, low);
    }

    /** `get_io_reg`. */
    method GetIoReg(addr: Addr) returns (v: bv8)
      requires Valid()
      ensures v == BusSpec.GetIoReg(State(), addr)
    {
      if IO_REGISTERS_START <= addr <= IO_REGISTERS_END {
        v := io[addr - IO_REGISTERS_START];
      } else if addr == INTERRUPT_ENABLE_REGISTER {
        v := ie;
      } else {
        v := 0xFF;
      }
    }

    // ------------------------------------------------------------ controller registers

    /** `update_mbc1_rom_bank`. */
    method UpdateMbc1RomBank()
      requires Valid()
      modifies this
      ensures Valid() && OnlyController() && Controller() == BusSpec.UpdateMbc1RomBank(old(Controller()))
    {
      var bank := Mbc1Bank();
      romBank := MaskBank(bank, AtLeastOne(numRomBanks));
    }

    /** The bank `update_mbc1_rom_bank` selects before masking: the lower
        five bits, the upper two on top in mode 0, and 0x00/0x20/0x40/0x60
        moved up by one. */
    method Mbc1Bank() returns (bank: nat)
      ensures bank == Mbc1RomBank(Controller())
    {
      bank := mbc1Lower as int;
      if bankingMode == 0 {
        bank := BitOr(bank, mbc1Upper as int * 32);
      }
      if bank == 0 || bank == 0x20 || bank == 0x40 || bank == 0x60 {
        bank := bank + 1;
      }
    }

    /** `update_mbc1_ram_bank`. */
    method UpdateMbc1RamBank()
      requires Valid()
      modifies this
      ensures Valid() && OnlyController() && Controller() == BusSpec.UpdateMbc1RamBank(old(Controller()))
    {
      if bankingMode == 1 {
        ramBank := mbc1Upper as int;
      } else {
        ramBank := 0;
      }
      if numRamBanks > 0 {
        ramBank := MaskBank(ramBank, numRamBanks);
      } else {
        ramBank := 0;
      }
    }

    /** The 0000-1FFF arm of `write_byte`. */
    method WriteRamEnable(v: bv8)
      requires Valid()
      modifies this
      ensures Valid() && OnlyController() && Controller() == RamEnableWrite(old(Controller()), v)
    {
      if mbc == Mbc1 || mbc == Mbc3 {
        if hasRam || (hasBattery && mbc == Mbc3) {
          ramEnabled := v & 0x0F == 0x0A;
        }
      }
    }

    /** The 2000-3FFF arm of `write_byte`. */
    method WriteRomBank(v: bv8)
      requires Valid()
      modifies this
      ensures Valid() && OnlyController() && Controller() == RomBankWrite(old(Controller()), v)
    {
      if mbc == Mbc1 {
        var low := v & 0x1F;
        mbc1Lower := if low == 0 then 1 else low;
        UpdateMbc1RomBank();
      } else if mbc == Mbc3 {
        var bank := v & 0x7F;
        romBank := if bank == 0 then 1 else bank as int;
        romBank := MaskBank(romBank, AtLeastOne(numRomBanks));
      }
    }

    /** The 4000-5FFF arm of `write_byte`. */
    method WriteRamBank(v: bv8)
      requires Valid()
      modifies this
      ensures Valid() && OnlyController() && Controller() == RamBankWrite(old(Controller()), v)
    {
      if mbc == Mbc1 {
        WriteMbc1Upper(v);
      } else if mbc == Mbc3 {
        SelectMbc3Register(v);
      }
    }

    /** MBC1: the two upper bank bits, then both effective banks. */
    method WriteMbc1Upper(v: bv8)
      requires Valid() && mbc == Mbc1
      modifies this
      ensures Valid() && OnlyController() && Controller() == RamBankWrite(old(Controller()), v)
    {
      mbc1Upper := v & 0x03;
      UpdateMbc1RomBank();
      UpdateMbc1RamBank();
    }

    /** MBC3: a RAM bank (0x00-0x07, masked by the bank count) or a clock
        register (0x08-0x0C); other values change nothing. */
    method SelectMbc3Register(v: bv8)
      requires Valid() && mbc == Mbc3
      modifies this
      ensures Valid() && OnlyController() && Controller() == RamBankWrite(old(Controller()), v)
    {
      if v <= 0x07 {
        var bank := v as int;
        if numRamBanks > 0 {
          bank := MaskBank(bank, numRamBanks);
        } else {
          bank := 0;
        }
        ramBank, rtcMapped := bank, 0;
      } else if 0x08 <= v <= 0x0C {
        rtcMapped := v;
      }
    }

    /** The 6000-7FFF arm of `write_byte`. */
    method WriteModeOrLatch(v: bv8)
      requires Valid()
      modifies this, rtc, rtcLatched
      ensures Valid() && OnlyController() && Controller() == ModeOrLatchWrite(old(Controller()), v, clock)
    {
      if mbc == Mbc1 {
        bankingMode := v & 0x01;
        UpdateMbc1RomBank();
        UpdateMbc1RamBank();
      } else if mbc == Mbc3 {
        if latchState == 0 && v == 0x00 {
          latchState := 1;
        } else if latchState == 1 && v == 0x01 {
          rtc.Update(clock);
          rtcLatched.CopyFrom(rtc);
          latchState := 0;
        } else {
          latchState := 0;
        }
      }
    }

    /** The controller-register arms of `write_byte` (0000-7FFF). */
    method WriteController(addr: Addr, v: bv8)
      requires Valid() && addr <= ROM_BANK_N_END
      modifies this, rtc, rtcLatched
      ensures Valid() && OnlyController() && Controller() == CartWrite(old(Controller()), addr, v, clock)
    {
      if addr <= 0x1FFF {
        WriteRamEnable(v);
      } else if addr <= 0x3FFF {
        WriteRomBank(v);
      } else if addr <= 0x5FFF {
        WriteRamBank(v);
      } else {
        WriteModeOrLatch(v);
      }
    }

    // ------------------------------------------------------------ writes

    /** The A000-BFFF arm of `write_byte`. */
    method WriteExternal(addr: Addr, v: bv8)
      requires Valid() && EXT_RAM_START <= addr <= EXT_RAM_END
      modifies this, rtc
      ensures Valid() && State() == ExtWrite(old(State()), addr, v)
      ensures SameObjects()
    {
      if !ramEnabled {
        return;
      }
      if mbc == Mbc3 && rtcMapped >= 0x08 {
        rtc.Write(rtcMapped, v);
      } else {
        WriteExternalRam(addr, v);
      }
    }

    /** The external RAM store of the A000-BFFF arm. */
    method WriteExternalRam(addr: Addr, v: bv8)
      requires Valid() && EXT_RAM_START <= addr <= EXT_RAM_END
      modifies this
      ensures Valid() && OnlyCartridge() && Controller() == old(Controller())
      ensures ext == ExtRamWrite(old(State()), addr, v)
    {
      if !hasRam || |ext| == 0 || numRamBanks == 0 {
        return;
      }
      var offset := (ramBank % numRamBanks) * EXT_RAM_SIZE + (addr - EXT_RAM_START);
      if offset < |ext| {
        ext := ext[offset := v];
      }
    }

    /** `perform_dma_transfer`: copy the 160 bytes at `source * 0x100` into
        OAM through `read_byte`, unless the source is FE00 or above. */
    method PerformDma(source: bv8)
      requires Valid()
      modifies oam
      ensures Valid() && State() == Dma(old(State()), source)
    {
      var start := source as int * 0x100;
      if start >= 0xFE00 {
        return;
      }
      assert start <= 0xFD00;
      ghost var s0 := State();
      for i := 0 to OAM_SIZE
        invariant State() == s0.(oam := oam[..])
        invariant forall j :: 0 <= j < i ==> oam[j] == DmaBytes(s0, start)[j]
      {
        DmaCopyByte(s0, start, i);
      }
      assert oam[..] == DmaBytes(s0, start);
    }

    /** One iteration of the DMA loop: OAM byte `i` gets what `read_byte`
        returns at `start + i`, which is what it returned before the copy. */
    method DmaCopyByte(ghost s0: BusState, start: Addr, i: nat)
      requires Valid() && Sized(s0) && start + OAM_SIZE <= OAM_START && i < OAM_SIZE
      requires State() == s0.(oam := oam[..])
      requires forall j :: 0 <= j < i ==> oam[j] == DmaBytes(s0, start)[j]
      modifies oam
      ensures State() == s0.(oam := oam[..])
      ensures forall j :: 0 <= j <= i ==> oam[j] == DmaBytes(s0, start)[j]
    {
      BusLemmas.ReadIgnoresOam(s0, oam[..], start + i);
      var b := ReadByte(start + i);
      oam[i] := b;
    }

    /** The I/O arm of `write_byte`: P1 goes to the joypad, DIV resets, IF
        keeps its upper bits, STAT stores the value and then applies its
        mask, DMA stores and copies, every other register stores. */
    method WriteIo(addr: Addr, v: bv8)
      requires Valid() && IO_REGISTERS_START <= addr <= IO_REGISTERS_END
      modifies io, oam, joypad
      ensures Valid() && State() == IoWrite(old(State()), addr, v)
    {
      if addr == P1_JOYP_ADDR {
        joypad.WriteP1(v);
      } else if addr == DMA_ADDR {
        StoreIo(addr - IO_REGISTERS_START, v);
        PerformDma(v);
      } else {
        StoreRegister(addr, v);
      }
    }

    /** The registers other than P1 and DMA: the stored byte is
        `IoStored` of the written one. */
    method StoreRegister(addr: Addr, v: bv8)
      requires Valid() && IO_REGISTERS_START <= addr <= IO_REGISTERS_END
      requires addr != P1_JOYP_ADDR && addr != DMA_ADDR
      modifies io
      ensures Valid() && io[..] == old(io[..])[IoIndex(addr) := IoStored(addr, old(io[IoIndex(addr)]), v)]
      ensures State() == old(State()).(io := io[..])
    {
      var offset := addr - IO_REGISTERS_START;
      if addr == DIV_ADDR {
        StoreIo(offset, 0);
      } else if addr == IF_ADDR {
        StoreIo(offset, (v & 0x1F) | (io[offset] & 0xE0));
      } else if addr == STAT_ADDR {
        StoreStat(offset, v);
      } else {
        StoreIo(offset, v);
      }
    }

    /** STAT stores the written byte, then masks the stored byte. */
    method StoreStat(offset: nat, v: bv8)
      requires Valid() && offset < IO_REGISTERS_SIZE
      modifies io
      ensures Valid() && io[..] == old(io[..])[offset := StatMask(v, v)]
      ensures State() == old(State()).(io := io[..])
    {
      ghost var before := io[..];
      StoreIo(offset, v);
      StoreIo(offset, (v & 0x78) | (io[offset] & 0x87));
      assert io[..] == before[offset := StatMask(v, v)];
    }

    /** `self.io_registers[offset] = b`. */
    method StoreIo(offset: nat, b: bv8)
      requires Valid() && offset < IO_REGISTERS_SIZE
      modifies io
      ensures Valid() && io[..] == old(io[..])[offset := b]
      ensures State() == old(State()).(io := io[..])
    {
      io[offset] := b;
    }

    /** `write_byte`. */
    method WriteByte(addr: Addr, v: bv8)
      requires Valid()
      modifies this, vram, wram0, wramN, oam, io, hram, rtc, rtcLatched, joypad
      ensures Valid() && State() == BusSpec.WriteByte(old(State()), addr, v)
      ensures SameObjects()
      decreases addr
    {
      if addr <= EXT_RAM_END {
        WriteCartArea(addr, v);
      } else if addr <= WRAM_BANK_N_END {
        WriteRam(addr, v);
      } else if addr <= ECHO_RAM_END {
        WriteByte(addr - 0x2000, v);
      } else {
        WriteHighArea(addr, v);
      }
    }

    /** The arms of `write_byte` below C000: controller, video RAM and
        external RAM. */
    method WriteCartArea(addr: Addr, v: bv8)
      requires Valid() && addr <= EXT_RAM_END
      modifies this, vram, wram0, wramN, oam, hram, rtc, rtcLatched
      ensures Valid() && State() == BusSpec.WriteByte(old(State()), addr, v)
      ensures SameObjects()
    {
      if addr <= ROM_BANK_N_END {
        WriteController(addr, v);
      } else if addr <= VRAM_END {
        WriteRam(addr, v);
      } else {
        WriteExternal(addr, v);
      }
    }

    /** The arms of `write_byte` from FE00: OAM, the unusable range, I/O,
        high RAM and IE. */
    method WriteHighArea(addr: Addr, v: bv8)
      requires Valid() && ECHO_RAM_END < addr
      modifies this, vram, wram0, wramN, oam, io, hram, joypad
      ensures Valid() && State() == BusSpec.WriteByte(old(State()), addr, v)
      ensures SameObjects()
    {
      if addr <= OAM_END {
        WriteRam(addr, v);
      } else if addr <= NOT_USABLE_END {
      } else if addr <= IO_REGISTERS_END {
        WriteIo(addr, v);
      } else if addr <= HRAM_END {
        WriteRam(addr, v);
      } else {
        ie := v & 0x1F;
      }
    }

    /** The arms of `write_byte` that store into one of the RAM buffers. */
    method WriteRam(addr: Addr, v: bv8)
      requires Valid() && RamAddr(addr)
      modifies vram, wram0, wramN, oam, hram
      ensures Valid() && State() == RamWrite(old(State()), addr, v)
    {
      if addr <= VRAM_END {
        vram[addr - VRAM_START] := v;
      } else if addr <= WRAM_BANK_0_END {
        wram0[addr - WRAM_BANK_0_START] := v;
      } else if addr <= WRAM_BANK_N_END {
        wramN[addr - WRAM_BANK_N_START] := v;
      } else if addr <= OAM_END {
        oam[addr - OAM_START] := v;
      } else {
        hram[addr - HRAM_START] := v;
      }
    }

    /** `write_word`: the low byte at `addr`, then the high byte at the next
        address, wrapping at 0xFFFF. */
    method WriteWord(addr: Addr, w: bv16)
      requires Valid()
      modifies this, vram, wram0, wramN, oam, io, hram, rtc, rtcLatched, joypad
      ensures Valid() && State() == BusSpec.WriteWord(old(State()), addr, w)
    {
      WriteByte(addr, Lo(w));
      WriteByte((addr + 1) % 0x10000, Hi(w));
    }

    // ------------------------------------------------------------ other operations

    /** `request_interrupt`. */
    method RequestInterrupt(bit: bv8)
      requires Valid()
      modifies io
      ensures Valid() && State() == BusSpec.RequestInterrupt(old(State()), bit)
    {
      if bit < 5 {
        var offset := IF_ADDR - IO_REGISTERS_START;
        var current := io[offset];
        StoreIo(offset, current | (1 << bit));
      }
    }

    /** `set_io_reg_direct`: bypasses the write rules of `write_byte`. */
    method SetIoRegDirect(addr: Addr, v: bv8)
      requires Valid()
      modifies this, io
      ensures Valid() && State() == BusSpec.SetIoRegDirect(old(State()), addr, v)
      ensures SameObjects()
    {
      if IO_REGISTERS_START <= addr <= IO_REGISTERS_END {
        StoreIo(addr - IO_REGISTERS_START, v);
      } else if addr == INTERRUPT_ENABLE_REGISTER {
        ie := v & 0x1F;
      }
    }

    /** `tick_rtc`. */
    method TickRtc()
      requires Valid()
      modifies rtc
      ensures Valid() && State() == BusSpec.TickRtc(old(State()))
    {
      if mbc == Mbc3 {
        rtc.Update(clock);
      }
    }

    /** The host's wall clock moves on to `now`. */
    method SetClock(now: nat)
      requires Valid()
      modifies this
      ensures Valid() && State() == old(State()).(clock := now)
    {
      clock := now;
    }

    /** `key_down`: press the button, raise the joypad interrupt when the
        joypad asks for it, and refresh the P1 byte. */
    method KeyDown(btn: Button)
      requires Valid()
      modifies joypad, io
      ensures Valid() && State() == BusSpec.KeyDown(old(State()), btn)
    {
      PressButton(btn);
      RefreshP1();
    }

    /** The joypad records the press, and the joypad interrupt is requested
        when the joypad asks for it. */
    method PressButton(btn: Button)
      requires Valid()
      modifies joypad, io
      ensures Valid()
      ensures var m := old(State());
        var pressed := m.(buttons := Press(m.buttons, btn));
        State() == if RequestsInterrupt(m.buttons, m.p1Selection, btn) then BusSpec.RequestInterrupt(pressed, 4) else pressed
    {
      var irq := joypad.KeyDown(btn);
      if irq {
        RequestInterrupt(JOYPAD_INTERRUPT_BIT as bv8);
      }
    }

    /** `key_up`: release the button and refresh the P1 byte. */
    method KeyUp(btn: Button)
      requires Valid()
      modifies joypad, io
      ensures Valid() && State() == BusSpec.KeyUp(old(State()), btn)
    {
      joypad.KeyUp(btn);
      RefreshP1();
    }

    /** The P1 byte of the I/O buffer set to what the joypad reads. */
    method RefreshP1()
      requires Valid()
      modifies io
      ensures Valid() && State() == BusSpec.RefreshP1(old(State()))
    {
      var p1 := joypad.ReadP1();
      StoreIo(P1_JOYP_ADDR - IO_REGISTERS_START, p1);
    }

    /** `load_rom`, for a ROM it does not panic on. */
    method LoadRom(data: seq<bv8>)
      requires Valid() && Loadable(data)
      modifies this, rom0
      ensures Valid() && State() == BusSpec.LoadRom(old(State()), data)
    {
      LoadHeader(data);
      rom := data;
      CopyBankZero(data);
      ResetRegisters();
    }

    /** The header part of `load_rom`: type, bank counts and external RAM. */
    method LoadHeader(data: seq<bv8>)
      requires Valid() && Loadable(data)
      modifies this
      ensures Valid() && OnlyCartridge() && ext == LoadedExt(data)
      ensures var l := LoadedCart(data, clock);
        Controller() == old(Controller()).(mbc := l.mbc, hasRam := l.hasRam, hasBattery := l.hasBattery,
          numRomBanks := l.numRomBanks, numRamBanks := l.numRamBanks)
    {
      var header := FromHeader(data[0x0147]);
      SetCartType(header);
      SetRomBanks(RomBanks(data[0x0148]));
      var size := RamSize(data[0x0149]);
      SetExternalRam(size);
    }

    /** The reset part of `load_rom`: banking registers, latch and both
        clocks. */
    method ResetRegisters()
      requires Valid()
      modifies this
      ensures Valid() && SameBuffers() && ext == old(ext)
      ensures Controller() == old(Controller()).(romBank := 1, ramBank := 0, ramEnabled := false, bankingMode := 0,
        mbc1Lower := 1, mbc1Upper := 0, latchState := 0, rtcMapped := 0, rtc := Fresh(clock), rtcLatched := Zero())
    {
      ResetBanks();
      ResetMbc1();
      ResetLatch();
      ResetClocks();
    }

    /** The type, RAM and battery the header's cartridge type code names. */
    method SetCartType(header: Cartridge)
      requires Valid()
      modifies this
      ensures Valid() && OnlyController()
      ensures Controller() == old(Controller()).(mbc := header.mbc, hasRam := header.hasRam, hasBattery := header.hasBattery)
    {
      mbc, hasRam, hasBattery := header.mbc, header.hasRam, header.hasBattery;
    }

    /** The ROM bank count the header's size code names. */
    method SetRomBanks(banks: nat)
      requires Valid()
      modifies this
      ensures Valid() && OnlyController() && Controller() == old(Controller()).(numRomBanks := banks)
    {
      numRomBanks := banks;
    }

    /** External RAM of `size` bytes in whole 8 KiB banks when the cart has
        RAM and the size is not 0; otherwise no RAM at all. */
    method SetExternalRam(size: nat)
      requires Valid()
      modifies this
      ensures Valid() && OnlyCartridge()
      ensures ext == if old(hasRam) && size > 0 then Zeros(size) else []
      ensures Controller() == old(Controller()).(hasRam := old(hasRam) && size > 0,
        numRamBanks := if old(hasRam) && size > 0 then (if size < EXT_RAM_SIZE then EXT_RAM_SIZE else size) / EXT_RAM_SIZE else 0)
    {
      if hasRam && size > 0 {
        ext := Zeros(size);
        numRamBanks := (if size < EXT_RAM_SIZE then EXT_RAM_SIZE else size) / EXT_RAM_SIZE;
      } else {
        hasRam := false;
        ext := [];
        numRamBanks := 0;
      }
    }

    /** ROM bank 1, RAM bank 0, RAM disabled, banking mode 0. */
    method ResetBanks()
      requires Valid()
      modifies this
      ensures Valid() && OnlyController()
      ensures Controller() == old(Controller()).(romBank := 1, ramBank := 0, ramEnabled := false, bankingMode := 0)
    {
      romBank, ramBank := 1, 0;
      ResetModes();
    }

    method ResetModes()
      requires Valid()
      modifies this
      ensures Valid() && OnlyController()
      ensures Controller() == old(Controller()).(ramEnabled := false, bankingMode := 0)
    {
      ramEnabled, bankingMode := false, 0;
    }

    /** The MBC1 bank registers back to lower 1, upper 0. */
    method ResetMbc1()
      requires Valid()
      modifies this
      ensures Valid() && OnlyController()
      ensures Controller() == old(Controller()).(mbc1Lower := 1, mbc1Upper := 0)
    {
      mbc1Lower, mbc1Upper := 1, 0;
    }

    /** No latch sequence in progress and no clock register mapped. */
    method ResetLatch()
      requires Valid()
      modifies this
      ensures Valid() && OnlyController()
      ensures Controller() == old(Controller()).(latchState := 0, rtcMapped := 0)
    {
      latchState, rtcMapped := 0, 0;
    }

    /** A clock started now and a zero latched copy. */
    method ResetClocks()
      requires Valid()
      modifies this
      ensures Valid() && SameBuffers() && ext == old(ext)
      ensures Controller() == old(Controller()).(rtc := Fresh(clock), rtcLatched := Zero())
    {
      rtc := new RtcRegisters(clock);
      rtcLatched := new RtcRegisters.Default();
    }

    /** Bank 0 is the first 16 KiB of the image. */
    method CopyBankZero(data: seq<bv8>)
      requires Valid() && |data| >= ROM_BANK_0_SIZE
      modifies rom0
      ensures Valid() && rom0[..] == data[..ROM_BANK_0_SIZE]
    {
      forall i | 0 <= i < ROM_BANK_0_SIZE {
        rom0[i] := data[i];
      }
    }
  }
}
