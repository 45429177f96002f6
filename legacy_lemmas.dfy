// Properties of the single-file `Ppu::step` (core/src/ppu.rs): the frame
// invariant, what a step leaves in LY, STAT and IF, the sprite search and
// priority of its renderer, and how it differs from the PPU of
// core/src/ppu/.
module LegacyPpuLemmas {
  import opened Bits
  import opened MemoryMap
  import opened BusSpec
  import BusLemmas
  import opened PpuConstants
  import opened PpuStates
  import opened RenderSpec
  import PpuSpec
  import PpuLemmas
  import opened LegacyPpuSpec

  // ---------------------------------------------------------------- writes through write_byte

  /** `write_byte` on an I/O register other than P1 and DMA stores what
      the register's mask keeps. */
  lemma IoWriteStores(m: BusState, addr: Addr, v: bv8)
    requires Sized(m) && IO_REGISTERS_START <= addr <= IO_REGISTERS_END
    requires addr != P1_JOYP_ADDR && addr != DMA_ADDR
    ensures WriteByte(m, addr, v) == SetIoRegDirect(m, addr, IoStored(addr, GetIoReg(m, addr), v))
  {
  }

  /** LY written through `write_byte` holds the written byte. */
  lemma LyWriteIsDirect(m: BusState, v: bv8)
    requires Sized(m)
    ensures WriteByte(m, LY_ADDR, v) == SetIoRegDirect(m, LY_ADDR, v)
  {
    IoWriteStores(m, LY_ADDR, v);
  }

  /** The STAT write of `step` goes through `write_byte`, whose STAT mask
      is applied to a register that already holds the written byte: all
      eight bits are stored, the mode and coincidence bits included, as if
      written directly. */
  lemma LegacyStatWriteUnmasked(m: BusState, v: bv8)
    requires Sized(m)
    ensures WriteByte(m, STAT_ADDR, v) == SetIoRegDirect(m, STAT_ADDR, v)
    ensures GetIoReg(WriteByte(m, STAT_ADDR, v), STAT_ADDR) == v
  {
    IoWriteStores(m, STAT_ADDR, v);
    BusLemmas.StatMaskBits(v, v);
  }

  /** `request_interrupt` through `write_byte` has the effect of the new
      PPU's request through `set_io_reg_direct` for the five interrupt
      bits: IF's upper three bits are kept by the IF mask and the lower
      five written. */
  lemma LegacyRequestIsRequestIf(m: BusState, bit: nat)
    requires Sized(m) && bit < 5
    ensures LegacyRequest(m, bit) == PpuSpec.RequestIf(m, bit)
    ensures GetIoReg(LegacyRequest(m, bit), IF_ADDR) == GetIoReg(m, IF_ADDR) | BitMask(bit)
  {
    var current := GetIoReg(m, IF_ADDR);
    assert ReadByte(m, IF_ADDR) == current;
    IoWriteStores(m, IF_ADDR, current | BitMask(bit));
    MaskKeepsUpperBits(current, bit);
    PpuLemmas.RequestIfSets(m, bit);
  }

  lemma MaskKeepsUpperBits(current: bv8, bit: nat)
    requires bit < 5
    ensures ((current | BitMask(bit)) & 0x1F) | (current & 0xE0) == current | BitMask(bit)
  {
    if bit == 0 {} else if bit == 1 {} else if bit == 2 {} else if bit == 3 {} else {}
  }

  // ---------------------------------------------------------------- timing

  /** The state of the new PPU with the same fields: the legacy PPU has no
      STAT cache, so one is supplied. */
  function AsPpuState(s: LegacyState, stat: bv8): (p: PpuState)
    ensures p.dots == s.dots && p.line == s.line && p.mode == s.mode && p.lcdc == s.lcdc && p.stat == stat
  {
    PpuState(s.dots, s.line, s.mode, s.lycEqLy, s.statLine, s.vblankJustOccurred, s.lcdc, stat)
  }

  /** The legacy timing keeps the frame invariant and moves to the next
      line exactly when HBlank or a VBlank line ends. */
  lemma LegacyTimedKeepsConsistent(s: LegacyState, cycles: nat)
    requires LegacyConsistent(s)
    ensures LegacyConsistent(LegacyTimed(s, cycles))
    ensures LegacyTimed(s, cycles).line != s.line <==> LegacyChangesLine(s, cycles)
    ensures LegacyChangesLine(s, cycles) ==> LegacyTimed(s, cycles).line == (s.line + 1) % SCANLINES_PER_FRAME
  {
    match s.mode
    case OamScan =>
    case VramRead =>
    case HBlank => if LegacyEndsMode(s, cycles) { LegacyEndHBlankConsistent(s, s.dots + cycles - DOTS_PER_SCANLINE); }
    case VBlank => if LegacyEndsMode(s, cycles) { LegacyEndVBlankLineConsistent(s, s.dots + cycles - DOTS_PER_SCANLINE); }
  }

  lemma LegacyEndHBlankConsistent(s: LegacyState, dots: nat)
    requires LegacyConsistent(s) && s.mode == HBlank
    ensures LegacyConsistent(LegacyEndHBlank(s, dots)) && LegacyEndHBlank(s, dots).line == s.line + 1
  {
  }

  lemma LegacyEndVBlankLineConsistent(s: LegacyState, dots: nat)
    requires LegacyConsistent(s) && s.mode == VBlank
    ensures LegacyConsistent(LegacyEndVBlankLine(s, dots))
    ensures LegacyEndVBlankLine(s, dots).line == (s.line + 1) % SCANLINES_PER_FRAME
  {
  }

  /** The VBlank signal is raised exactly when HBlank of line 143 ends. */
  lemma LegacyVBlankSignalAtLine144(s: LegacyState, cycles: nat)
    requires LegacyConsistent(s) && !s.vblankJustOccurred
    ensures LegacyTimed(s, cycles).vblankJustOccurred <==> s.line == 143 && LegacyTimed(s, cycles).line == 144
  {
    LegacyTimedKeepsConsistent(s, cycles);
    match s.mode
    case OamScan =>
    case VramRead =>
    case HBlank => if LegacyEndsMode(s, cycles) { LegacyEndHBlankSignal(s, s.dots + cycles - DOTS_PER_SCANLINE); }
    case VBlank => if LegacyEndsMode(s, cycles) { LegacyEndVBlankLineSignal(s, s.dots + cycles - DOTS_PER_SCANLINE); }
  }

  lemma LegacyEndHBlankSignal(s: LegacyState, dots: nat)
    requires LegacyConsistent(s) && s.mode == HBlank && !s.vblankJustOccurred
    ensures LegacyEndHBlank(s, dots).vblankJustOccurred <==> s.line == 143
  {
  }

  lemma LegacyEndVBlankLineSignal(s: LegacyState, dots: nat)
    requires LegacyConsistent(s) && s.mode == VBlank && !s.vblankJustOccurred
    ensures !LegacyEndVBlankLine(s, dots).vblankJustOccurred && s.line != 143
  {
  }

  /** While the dots at the end of a step stay below two line lengths, the
      legacy timing agrees with the new PPU's: both take 80, 172 or 456
      dots when a mode ends. */
  lemma LegacyTimedAgrees(s: LegacyState, stat: bv8, cycles: nat)
    requires s.dots + cycles < 2 * DOTS_PER_SCANLINE
    ensures AsPpuState(LegacyTimed(s, cycles), stat) == PpuSpec.Timed(AsPpuState(s, stat), cycles)
  {
    var dots := s.dots + cycles;
    match s.mode
    case OamScan =>
    case VramRead =>
    case HBlank => if dots >= DOTS_PER_SCANLINE { SubtractIsModulo(dots); }
    case VBlank => if dots >= DOTS_PER_SCANLINE { SubtractIsModulo(dots); }
  }

  lemma SubtractIsModulo(dots: nat)
    requires DOTS_PER_SCANLINE <= dots < 2 * DOTS_PER_SCANLINE
    ensures dots - DOTS_PER_SCANLINE == dots % DOTS_PER_SCANLINE
  {
  }

  /** A step that reaches two line lengths in HBlank or VBlank: the legacy
      PPU keeps the dots beyond one line, so the next line already holds a
      whole line's worth, where the new PPU keeps them modulo 456. */
  lemma LegacyLongStepKeepsDots(s: LegacyState, stat: bv8, cycles: nat)
    requires (s.mode == HBlank || s.mode == VBlank) && s.dots + cycles >= 2 * DOTS_PER_SCANLINE
    ensures LegacyTimed(s, cycles).dots == s.dots + cycles - DOTS_PER_SCANLINE
    ensures LegacyTimed(s, cycles).dots >= DOTS_PER_SCANLINE
    ensures PpuSpec.Timed(AsPpuState(s, stat), cycles).dots < DOTS_PER_SCANLINE
  {
  }

  /** The dots since a visible line began. */
  function LegacyLineElapsed(s: LegacyState): (e: nat)
    ensures s.mode != VBlank ==> e >= s.dots
  {
    PpuLemmas.LineElapsed(AsPpuState(s, 0))
  }

  /** A visible line lasts at least 80 + 172 + 456 = 708 dots: a step
      leaves the line only once they have elapsed. */
  lemma LegacyVisibleLineStep(s: LegacyState, cycles: nat)
    requires LegacyConsistent(s) && s.mode != VBlank
    ensures LegacyTimed(s, cycles).line == s.line ==> LegacyLineElapsed(LegacyTimed(s, cycles)) == LegacyLineElapsed(s) + cycles
    ensures LegacyTimed(s, cycles).line != s.line ==> LegacyLineElapsed(s) + cycles >= 708
  {
    LegacyTimedKeepsConsistent(s, cycles);
  }

  // ---------------------------------------------------------------- step

  /** Every step keeps the frame invariant. */
  lemma LegacyStepKeepsConsistent(s: LegacyState, frame: seq<bv8>, m: BusState, cycles: nat)
    requires Sized(m) && |frame| == FRAME_BUFFER_SIZE && LegacyConsistent(s)
    ensures LegacyConsistent(LegacyStep(s, frame, m, cycles).state)
  {
    var c := s.(lcdc := ReadByte(m, LCDC_ADDR));
    if PpuSpec.LcdEnabled(c.lcdc) {
      LegacyStepTiming(s, frame, m, cycles);
      LegacyTimedKeepsConsistent(c, cycles);
    }
  }

  /** An LCD-on step leaves the dots, line, mode and LCDC of the timing,
      and clears the VBlank signal. */
  lemma LegacyStepTiming(s: LegacyState, frame: seq<bv8>, m: BusState, cycles: nat)
    requires Sized(m) && |frame| == FRAME_BUFFER_SIZE
    requires PpuSpec.LcdEnabled(ReadByte(m, LCDC_ADDR))
    ensures var t := LegacyTimed(s.(lcdc := ReadByte(m, LCDC_ADDR)), cycles); var r := LegacyStep(s, frame, m, cycles).state;
      r.dots == t.dots && r.line == t.line && r.mode == t.mode && r.lcdc == t.lcdc && !r.vblankJustOccurred
  {
  }

  /** With the LCD off, a reset state only takes the LCDC byte; any other
      state is reset, LY becomes 0 and STAT keeps its upper five bits as
      read (bit 7 reads as 1) with mode 0. The frame buffer is untouched in both cases. */
  lemma LegacyLcdOffStep(s: LegacyState, frame: seq<bv8>, m: BusState, cycles: nat)
    requires Sized(m) && |frame| == FRAME_BUFFER_SIZE
    requires !PpuSpec.LcdEnabled(ReadByte(m, LCDC_ADDR))
    ensures var r := LegacyStep(s, frame, m, cycles); r.frame == frame
    ensures LegacyIsReset(s) ==>
      LegacyStep(s, frame, m, cycles) == LegacyOutcome(s.(lcdc := ReadByte(m, LCDC_ADDR)), frame, m)
    ensures !LegacyIsReset(s) ==> var r := LegacyStep(s, frame, m, cycles);
      r.state == LegacyReset(s.(lcdc := ReadByte(m, LCDC_ADDR))) && GetIoReg(r.bus, LY_ADDR) == 0
      && GetIoReg(r.bus, STAT_ADDR) == (GetIoReg(m, STAT_ADDR) | 0x80) & 0xF8
  {
    if !LegacyIsReset(s) {
      LyWriteIsDirect(m, 0);
      var written := WriteByte(m, LY_ADDR, 0);
      PpuLemmas.DirectFrame(m, LY_ADDR, 0, STAT_ADDR);
      var statToWrite := (ReadByte(written, STAT_ADDR) & 0xF8) | ModeBits(HBlank);
      LegacyStatWriteUnmasked(written, statToWrite);
      PpuLemmas.DirectFrame(written, STAT_ADDR, statToWrite, LY_ADDR);
      StatReadUpperBits(m);
    }
  }

  /** STAT as read has bit 7 set and the stored bits 3-6. */
  lemma StatReadUpperBits(m: BusState)
    requires Sized(m)
    ensures (ReadByte(m, STAT_ADDR) & 0xF8) | ModeBits(HBlank) == (GetIoReg(m, STAT_ADDR) | 0x80) & 0xF8
  {
    assert ReadByte(m, STAT_ADDR) == GetIoReg(m, STAT_ADDR) | 0x80;
  }

  /** The timing writes only LY. */
  lemma LegacyTimedBusKeeps(c: LegacyState, t: LegacyState, cycles: nat, m: BusState, other: Addr)
    requires Sized(m) && IO_REGISTERS_START <= other <= IO_REGISTERS_END && other != LY_ADDR
    ensures GetIoReg(LegacyTimedBus(c, t, cycles, m), other) == GetIoReg(m, other)
    ensures ReadByte(LegacyTimedBus(c, t, cycles, m), other) == ReadByte(m, other)
  {
    if LegacyChangesLine(c, cycles) {
      LyWriteIsDirect(m, LineByte(t.line));
      PpuLemmas.DirectFrame(m, LY_ADDR, LineByte(t.line), other);
    }
  }

  /** After an LCD-on step, LY holds the new line if the line changed and
      is as it was otherwise. */
  lemma LegacyStepSetsLy(s: LegacyState, frame: seq<bv8>, m: BusState, cycles: nat)
    requires Sized(m) && |frame| == FRAME_BUFFER_SIZE
    requires PpuSpec.LcdEnabled(ReadByte(m, LCDC_ADDR))
    ensures var c := s.(lcdc := ReadByte(m, LCDC_ADDR)); var r := LegacyStep(s, frame, m, cycles);
      (LegacyChangesLine(c, cycles) ==> GetIoReg(r.bus, LY_ADDR) == LineByte(r.state.line))
      && (!LegacyChangesLine(c, cycles) ==> GetIoReg(r.bus, LY_ADDR) == GetIoReg(m, LY_ADDR))
  {
    var c := s.(lcdc := ReadByte(m, LCDC_ADDR));
    var t := LegacyTimed(c, cycles);
    if LegacyChangesLine(c, cycles) {
      LyWriteIsDirect(m, LineByte(t.line));
    }
    LegacySignalKeeps(t, LegacyTimedBus(c, t, cycles, m), LY_ADDR);
    LegacyStepTiming(s, frame, m, cycles);
  }

  /** LYC, STAT and the interrupts touch only STAT and IF. */
  lemma LegacySignalKeeps(t: LegacyState, m: BusState, other: Addr)
    requires Sized(m) && IO_REGISTERS_START <= other <= IO_REGISTERS_END
    requires other != STAT_ADDR && other != IF_ADDR
    ensures GetIoReg(LegacySignal(t, m).bus, other) == GetIoReg(m, other)
  {
    var checked := LegacyCheckLyc(t, m);
    var statToWrite := LegacyStatValue(ReadByte(m, STAT_ADDR), checked);
    LegacyStatWriteUnmasked(m, statToWrite);
    PpuLemmas.DirectFrame(m, STAT_ADDR, statToWrite, other);
    LegacyInterruptsKeep(checked, ReadByte(m, STAT_ADDR), WriteByte(m, STAT_ADDR, statToWrite), other);
  }

  /** The interrupt requests touch only IF. */
  lemma LegacyInterruptsKeep(s: LegacyState, statOnBus: bv8, m: BusState, other: Addr)
    requires Sized(m) && IO_REGISTERS_START <= other <= IO_REGISTERS_END && other != IF_ADDR
    ensures GetIoReg(LegacyInterrupts(s, statOnBus, m).bus, other) == GetIoReg(m, other)
  {
    var afterStat := if LegacyStatRequest(statOnBus, s) && !s.statLine then LegacyRequest(m, LCD_STAT_INTERRUPT_BIT) else m;
    RequestKeeps(m, LCD_STAT_INTERRUPT_BIT, other);
    RequestKeeps(afterStat, VBLANK_INTERRUPT_BIT, other);
  }

  /** A request writes only IF. */
  lemma RequestKeeps(m: BusState, bit: nat, other: Addr)
    requires Sized(m) && bit < 5 && IO_REGISTERS_START <= other <= IO_REGISTERS_END && other != IF_ADDR
    ensures GetIoReg(LegacyRequest(m, bit), other) == GetIoReg(m, other)
  {
    LegacyRequestIsRequestIf(m, bit);
    PpuLemmas.DirectFrame(m, IF_ADDR, ReadByte(m, IF_ADDR) | BitMask(bit), other);
  }

  /** After an LCD-on step, STAT holds bits 3-7 of STAT as read before the
      step (bit 7 reads as 1), the new mode in bits 0-1 and the coincidence
      flag in bit 2, which compares the new line with LYC. */
  lemma LegacyStepSetsStat(s: LegacyState, frame: seq<bv8>, m: BusState, cycles: nat)
    requires Sized(m) && |frame| == FRAME_BUFFER_SIZE
    requires PpuSpec.LcdEnabled(ReadByte(m, LCDC_ADDR))
    ensures var r := LegacyStep(s, frame, m, cycles);
      GetIoReg(r.bus, STAT_ADDR) == LegacyStatValue(ReadByte(m, STAT_ADDR), r.state)
      && GetIoReg(r.bus, STAT_ADDR) & 0x03 == ModeBits(r.state.mode)
      && GetIoReg(r.bus, STAT_ADDR) & 0xF8 == (GetIoReg(m, STAT_ADDR) | 0x80) & 0xF8
      && (GetIoReg(r.bus, STAT_ADDR) & 0x04 != 0 <==> r.state.line == ReadByte(m, LYC_ADDR) as int)
  {
    var c := s.(lcdc := ReadByte(m, LCDC_ADDR));
    var t := LegacyTimed(c, cycles);
    var m1 := LegacyTimedBus(c, t, cycles, m);
    LegacyTimedBusKeeps(c, t, cycles, m, LYC_ADDR);
    LegacyTimedBusKeeps(c, t, cycles, m, STAT_ADDR);
    LegacySignalSetsStat(t, m1);
    assert ReadByte(m, STAT_ADDR) == GetIoReg(m, STAT_ADDR) | 0x80;
  }

  /** LYC, STAT and the interrupts: STAT holds the value computed from
      STAT as read and the checked state. */
  lemma LegacySignalSetsStat(t: LegacyState, m: BusState)
    requires Sized(m)
    ensures var r := LegacySignal(t, m);
      GetIoReg(r.bus, STAT_ADDR) == LegacyStatValue(ReadByte(m, STAT_ADDR), r.state)
      && r.state.line == t.line && r.state.mode == t.mode
      && (r.state.lycEqLy <==> t.line == ReadByte(m, LYC_ADDR) as int)
  {
    var checked := LegacyCheckLyc(t, m);
    var statToWrite := LegacyStatValue(ReadByte(m, STAT_ADDR), checked);
    LegacyStatWriteUnmasked(m, statToWrite);
    LegacyInterruptsKeep(checked, ReadByte(m, STAT_ADDR), WriteByte(m, STAT_ADDR, statToWrite), STAT_ADDR);
  }

  /** After an LCD-on step, IF is the old IF with bit 0 added iff the
      timing signalled VBlank and bit 1 added iff the STAT request line
      rose. */
  lemma LegacyStepRequests(s: LegacyState, frame: seq<bv8>, m: BusState, cycles: nat)
    requires Sized(m) && |frame| == FRAME_BUFFER_SIZE
    requires PpuSpec.LcdEnabled(ReadByte(m, LCDC_ADDR))
    ensures var t := LegacyTimed(s.(lcdc := ReadByte(m, LCDC_ADDR)), cycles); var r := LegacyStep(s, frame, m, cycles);
      GetIoReg(r.bus, IF_ADDR) == GetIoReg(m, IF_ADDR)
        | (if t.vblankJustOccurred then 0x01 else 0x00)
        | (if r.state.statLine && !s.statLine then 0x02 else 0x00)
  {
    var c := s.(lcdc := ReadByte(m, LCDC_ADDR));
    var t := LegacyTimed(c, cycles);
    var m1 := LegacyTimedBus(c, t, cycles, m);
    LegacyTimedBusKeeps(c, t, cycles, m, IF_ADDR);
    LegacySignalSetsIf(t, m1);
  }

  /** LYC, STAT and the interrupts: IF gains the VBlank bit iff signalled
      and the STAT bit iff the request line rises. */
  lemma LegacySignalSetsIf(t: LegacyState, m: BusState)
    requires Sized(m)
    ensures var r := LegacySignal(t, m);
      GetIoReg(r.bus, IF_ADDR) == GetIoReg(m, IF_ADDR)
        | (if t.vblankJustOccurred then 0x01 else 0x00)
        | (if r.state.statLine && !t.statLine then 0x02 else 0x00)
  {
    var checked := LegacyCheckLyc(t, m);
    var statToWrite := LegacyStatValue(ReadByte(m, STAT_ADDR), checked);
    LegacyStatWriteUnmasked(m, statToWrite);
    PpuLemmas.DirectFrame(m, STAT_ADDR, statToWrite, IF_ADDR);
    LegacyInterruptsSetIf(checked, ReadByte(m, STAT_ADDR), WriteByte(m, STAT_ADDR, statToWrite));
  }

  /** The two requests OR their bits into IF. */
  lemma LegacyInterruptsSetIf(s: LegacyState, statOnBus: bv8, m: BusState)
    requires Sized(m)
    ensures GetIoReg(LegacyInterrupts(s, statOnBus, m).bus, IF_ADDR) == GetIoReg(m, IF_ADDR)
      | (if s.vblankJustOccurred then 0x01 else 0x00)
      | (if LegacyStatRequest(statOnBus, s) && !s.statLine then 0x02 else 0x00)
  {
    var afterStat := if LegacyStatRequest(statOnBus, s) && !s.statLine then LegacyRequest(m, LCD_STAT_INTERRUPT_BIT) else m;
    LegacyRequestIsRequestIf(m, LCD_STAT_INTERRUPT_BIT);
    LegacyRequestIsRequestIf(afterStat, VBLANK_INTERRUPT_BIT);
  }

  /** From a state without a pending VBlank signal, an LCD-on step requests
      the VBlank interrupt iff it moves the PPU from line 143 to line 144. */
  lemma LegacyVBlankRequestedAtLine144(s: LegacyState, frame: seq<bv8>, m: BusState, cycles: nat)
    requires Sized(m) && |frame| == FRAME_BUFFER_SIZE && LegacyConsistent(s) && !s.vblankJustOccurred
    requires PpuSpec.LcdEnabled(ReadByte(m, LCDC_ADDR))
    ensures var r := LegacyStep(s, frame, m, cycles);
      GetIoReg(r.bus, IF_ADDR) & 0x01 == (if s.line == 143 && r.state.line == 144 then 0x01 else GetIoReg(m, IF_ADDR) & 0x01)
      && !r.state.vblankJustOccurred
  {
    var c := s.(lcdc := ReadByte(m, LCDC_ADDR));
    LegacyStepRequests(s, frame, m, cycles);
    LegacyStepTiming(s, frame, m, cycles);
    LegacyVBlankSignalAtLine144(c, cycles);
  }

  // ---------------------------------------------------------------- sprites

  /** Entry `j` of the OAM list is OAM entry `j`. */
  lemma OamSpritesInOrder(m: BusState, lcdc: bv8, j: nat)
    requires Sized(m) && j < 40
    ensures OamSprites(m, lcdc)[j].oamIndex == j
    ensures OamSprites(m, lcdc)[j].y == OamByte(m, j, 0) && OamSprites(m, lcdc)[j].x == OamByte(m, j, 1)
  {
  }

  /** The sprite of a pixel comes from the opaque OAM entry with the least
      X, the least OAM index among equal X, over all 40 entries; with no
      opaque entry the pixel is transparent. */
  lemma LegacyWinnerIsLeast(m: BusState, lcdc: bv8, x: bv8, y: bv8)
    requires Sized(m)
    ensures var s := OamSprites(m, lcdc); var w := LegacyWinner(m, lcdc, x, y);
      w.Some? ==> forall j :: 0 <= j < 40 && LegacyOpaque(m, s[j], x, y) ==>
        s[w.value].x as int < s[j].x as int || (s[w.value].x as int == s[j].x as int && w.value <= j)
    ensures var s := OamSprites(m, lcdc);
      LegacyWinner(m, lcdc, x, y).None? <==> forall j :: 0 <= j < 40 ==> !LegacyOpaque(m, s[j], x, y)
  {
    LeastOpaqueSprite(m, OamSprites(m, lcdc), x, y);
  }

  lemma LeastOpaqueSprite(m: BusState, s: seq<SpriteInfo>, x: bv8, y: bv8)
    requires Sized(m) && |s| == 40
    ensures var w := LeastKey(LegacyOpaqueFlags(m, s, x, y), Keys(s), 40);
      w.Some? ==> forall j :: 0 <= j < 40 && LegacyOpaque(m, s[j], x, y) ==>
        s[w.value].x as int < s[j].x as int || (s[w.value].x as int == s[j].x as int && w.value <= j)
    ensures LeastKey(LegacyOpaqueFlags(m, s, x, y), Keys(s), 40).None? <==> forall j :: 0 <= j < 40 ==> !LegacyOpaque(m, s[j], x, y)
  {
    var shown := LegacyOpaqueFlags(m, s, x, y);
    var keys := Keys(s);
    LeastKeyIsLeast(shown, keys, 40);
    var w := LeastKey(shown, keys, 40);
    forall j | 0 <= j < 40 && LegacyOpaque(m, s[j], x, y)
      ensures shown[j]
    {
    }
    if w.Some? {
      assert keys[w.value] == s[w.value].x as int;
    }
  }

  /** With sprites enabled, the sprite pixel is that of the search's
      winner, or transparent without one. */
  lemma LegacySpritePixelOfWinner(m: BusState, lcdc: bv8, x: bv8, y: bv8)
    requires Sized(m) && BitSet(lcdc, LCDC_OBJ_ENABLE)
    ensures var p := LegacySpritePixel(m, lcdc, x, y); var w := LegacyWinner(m, lcdc, x, y);
      (w.None? ==> p.index == 0)
      && (w.Some? ==> var sp := OamSprites(m, lcdc)[w.value];
            p.index != 0 && p.index == LegacySpriteIndex(m, sp, x, y)
            && p.bgPriority == sp.bgPriority && p.palette == sp.palette)
  {
  }

  /** The priority rule of `render_scanline`: with sprites enabled and an
      opaque sprite pixel, the sprite's colour is drawn iff the
      background/window layer is disabled, its priority bit is clear or the
      background/window index is 0; otherwise the background/window colour
      through BGP is drawn. */
  lemma LegacyPriority(m: BusState, lcdc: bv8, regs: LineRegs, x: bv8, y: bv8)
    requires Sized(m)
    ensures var bgIndex := BgWinIndex(m, lcdc, regs, x, y); var p := LegacySpritePixel(m, lcdc, x, y);
      LegacyPixelShade(m, lcdc, regs, x, y)
        == if BitSet(lcdc, LCDC_OBJ_ENABLE) && LegacyWinner(m, lcdc, x, y).Some?
              && (!BitSet(lcdc, LCDC_BG_WIN_ENABLE_PRIORITY) || !p.bgPriority || bgIndex == 0)
           then ColorFromPalette(p.index, p.palette)
           else ColorFromPalette(bgIndex, regs.bgp)
  {
    if BitSet(lcdc, LCDC_OBJ_ENABLE) {
      LegacySpritePixelOfWinner(m, lcdc, x, y);
    }
  }

  /** An 8x16 sprite's sixteen rows, counted after the Y flip, are the
      32 bytes of the tile pair from `tile & 0xFE` in order: rows 0-7 come
      from the even tile and rows 8-15 from the odd tile `tile | 1`. */
  lemma LegacyTallSpriteRows(sp: SpriteInfo, y: bv8)
    requires sp.height == 16
    ensures var rowInSprite := y - (sp.y - 16);
      var row := if sp.yFlip then 15 - rowInSprite else rowInSprite;
      row < 16 ==>
        var (tile, rowInTile) := SpriteTileRow(sp, y);
        tile as int * 16 + rowInTile as int * 2 == (sp.tile & 0xFE) as int * 16 + row as int * 2
  {
    var rowInSprite := y - (sp.y - 16);
    var row := if sp.yFlip then 15 - rowInSprite else rowInSprite;
    if row < 16 {
      if row < 8 {
        LowRow(row);
      } else {
        HighRow(row);
        OddTile(sp.tile);
      }
    }
  }

  lemma LowRow(row: bv8)
    requires row < 8
    ensures (row % 8) as int == row as int
  {
  }

  lemma HighRow(row: bv8)
    requires 8 <= row < 16
    ensures (row % 8) as int == row as int - 8
  {
  }

  lemma OddTile(t: bv8)
    ensures (t | 0x01) as int == (t & 0xFE) as int + 1
  {
  }

  /** The legacy renderer reads the sprite's column `c` from bit 7 - c, so
      column 0 is the leftmost pixel of the tile as the background reads
      it; the new renderer reads it from bit c, mirroring every sprite. On
      the line LY names, the two agree after flipping the column. */
  lemma LegacyReadsMirroredColumn(m: BusState, sp: SpriteInfo, x: bv8, y: bv8)
    requires Sized(m) && CoversColumn(sp, x) && ReadByte(m, LY_ADDR) == y
    ensures LegacySpriteIndex(m, sp, x, y) == SpritePixelIndex(m, sp, 7 - SpriteColumn(sp, x))
  {
  }

  /** `get_color_from_palette`: the two palette bits of the index. */
  lemma LegacyPaletteShade(index: bv8, palette: bv8)
    requires index < 4
    ensures ColorFromPalette(index, palette)
      == if index == 0 then palette & 0x03
         else if index == 1 then (palette >> 2) & 0x03
         else if index == 2 then (palette >> 4) & 0x03
         else palette >> 6
  {
  }
}
