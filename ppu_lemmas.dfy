// Properties of `Ppu::step` (core/src/ppu/mod.rs): the frame invariant on
// line and mode, the single transition per step, the length of a line,
// and what a step leaves in LY, STAT and IF.
module PpuLemmas {
  import opened Bits
  import opened MemoryMap
  import opened BusSpec
  import opened PpuConstants
  import opened PpuStates
  import opened PpuSpec

  // ---------------------------------------------------------------- timing

  /** A step makes at most one mode transition: it ends the current mode
      iff its dots reach the mode's length, and then enters the next mode;
      otherwise only the dots grow. */
  lemma OneTransitionPerStep(s: PpuState, cycles: nat)
    ensures EndsMode(s, cycles) ==> Timed(s, cycles).mode == NextMode(s)
    ensures !EndsMode(s, cycles) ==> Timed(s, cycles) == s.(dots := s.dots + cycles)
  {
    match s.mode
    case OamScan =>
    case VramRead =>
    case HBlank => if EndsMode(s, cycles) { EndHBlankMode(s, s.dots + cycles); }
    case VBlank => if EndsMode(s, cycles) { EndVBlankLineMode(s, s.dots + cycles); }
  }

  lemma EndHBlankMode(s: PpuState, dots: nat)
    ensures EndHBlank(s, dots).mode == (if NextLine(s.line) == GB_HEIGHT then VBlank else OamScan)
  {
  }

  lemma EndVBlankLineMode(s: PpuState, dots: nat)
    requires s.mode == VBlank
    ensures EndVBlankLine(s, dots).mode == (if NextLine(s.line) == SCANLINES_PER_FRAME then OamScan else VBlank)
  {
  }

  /** The timing keeps the line in 0..153 and VBlank on exactly lines
      144-153; the line changes iff HBlank or a VBlank line ends, to the
      next line or from 153 to 0. */
  lemma TimedKeepsConsistent(s: PpuState, cycles: nat)
    requires Consistent(s)
    ensures Consistent(Timed(s, cycles))
    ensures Timed(s, cycles).line != s.line <==> ChangesLine(s, cycles)
    ensures ChangesLine(s, cycles) ==> Timed(s, cycles).line == (s.line + 1) % SCANLINES_PER_FRAME
  {
    match s.mode
    case OamScan =>
    case VramRead =>
    case HBlank => if EndsMode(s, cycles) { EndHBlankConsistent(s, s.dots + cycles); }
    case VBlank => if EndsMode(s, cycles) { EndVBlankLineConsistent(s, s.dots + cycles); }
  }

  lemma EndHBlankConsistent(s: PpuState, dots: nat)
    requires Consistent(s) && s.mode == HBlank
    ensures Consistent(EndHBlank(s, dots)) && EndHBlank(s, dots).line == s.line + 1
  {
  }

  lemma EndVBlankLineConsistent(s: PpuState, dots: nat)
    requires Consistent(s) && s.mode == VBlank
    ensures Consistent(EndVBlankLine(s, dots))
    ensures EndVBlankLine(s, dots).line == (s.line + 1) % SCANLINES_PER_FRAME
  {
  }

  /** The VBlank signal is raised by the timing exactly when HBlank of line
      143 ends, i.e. when the PPU enters line 144. */
  lemma VBlankSignalAtLine144(s: PpuState, cycles: nat)
    requires Consistent(s) && !s.vblankJustOccurred
    ensures Timed(s, cycles).vblankJustOccurred <==> s.line == 143 && Timed(s, cycles).line == 144
  {
    TimedKeepsConsistent(s, cycles);
    match s.mode
    case OamScan =>
    case VramRead =>
    case HBlank => if EndsMode(s, cycles) { EndHBlankSignal(s, s.dots + cycles); }
    case VBlank => if EndsMode(s, cycles) { EndVBlankLineSignal(s, s.dots + cycles); }
  }

  lemma EndHBlankSignal(s: PpuState, dots: nat)
    requires Consistent(s) && s.mode == HBlank && !s.vblankJustOccurred
    ensures EndHBlank(s, dots).vblankJustOccurred <==> s.line == 143
  {
  }

  lemma EndVBlankLineSignal(s: PpuState, dots: nat)
    requires Consistent(s) && s.mode == VBlank && !s.vblankJustOccurred
    ensures !EndVBlankLine(s, dots).vblankJustOccurred && s.line != 143
  {
  }

  /** The dots since a visible line began: mode 2 runs from 0, mode 3 from
      80 and HBlank from 80 + 172. */
  function LineElapsed(s: PpuState): (e: nat)
    ensures s.mode != VBlank ==> e >= s.dots
  {
    match s.mode
    case OamScan => s.dots
    case VramRead => MODE2_OAM_SCAN_DOTS + s.dots
    case HBlank => MODE2_OAM_SCAN_DOTS + MODE3_VRAM_READ_DOTS + s.dots
    case VBlank => s.dots
  }

  /** On a visible line, a step that stays on the line advances the
      elapsed dots by exactly its cycles, and a step can leave the line
      only once 80 + 172 + 456 = 708 dots have elapsed. */
  lemma VisibleLineStep(s: PpuState, cycles: nat)
    requires Consistent(s) && s.mode != VBlank
    ensures Timed(s, cycles).line == s.line ==> LineElapsed(Timed(s, cycles)) == LineElapsed(s) + cycles
    ensures Timed(s, cycles).line != s.line ==> LineElapsed(s) + cycles >= 708
  {
    TimedKeepsConsistent(s, cycles);
  }

  /** The timing applied for each step of a run. */
  function TimedRun(s: PpuState, run: seq<nat>): PpuState
    decreases |run|
  {
    if |run| == 0 then s else TimedRun(Timed(s, run[0]), run[1..])
  }

  function Total(run: seq<nat>): nat
    decreases |run|
  {
    if |run| == 0 then 0 else run[0] + Total(run[1..])
  }

  /** A visible line lasts at least 708 dots: from any point of the line,
      runs of steps whose cycles stay below the dots left to 708 keep the
      PPU on that line. (The comments of the source promise 456.) */
  lemma {:induction false} VisibleLineLasts708(s: PpuState, run: seq<nat>)
    requires Consistent(s) && s.mode != VBlank
    requires LineElapsed(s) + Total(run) < 708
    ensures TimedRun(s, run).line == s.line
    ensures TimedRun(s, run).mode != VBlank
    ensures LineElapsed(TimedRun(s, run)) == LineElapsed(s) + Total(run)
    decreases |run|
  {
    if |run| > 0 {
      var t := Timed(s, run[0]);
      VisibleLineStep(s, run[0]);
      TimedKeepsConsistent(s, run[0]);
      assert t.line == s.line;
      VisibleLineLasts708(t, run[1..]);
    }
  }

  /** From the start of a visible line (mode 2, dot 0), 707 dots in any
      number of steps do not reach the next line. */
  lemma LineStartLasts708(s: PpuState, run: seq<nat>)
    requires Consistent(s) && s.mode == OamScan && s.dots == 0
    requires Total(run) < 708
    ensures TimedRun(s, run).line == s.line
  {
    VisibleLineLasts708(s, run);
  }

  // ---------------------------------------------------------------- step

  /** An LCD-on step takes its dots, line and mode from the timing, and
      keeps the frame invariant; an LCD-off step resets or keeps them. */
  lemma StepKeepsConsistent(s: PpuState, frame: seq<bv8>, m: BusState, cycles: nat)
    requires Sized(m) && |frame| == FRAME_BUFFER_SIZE && Consistent(s)
    ensures Consistent(Step(s, frame, m, cycles).state)
  {
    var c := Cache(s, m);
    if LcdEnabled(c.lcdc) {
      StepTiming(s, frame, m, cycles);
      TimedKeepsConsistent(c, cycles);
    }
  }

  /** An LCD-on step leaves the dots, line, mode and LCDC/STAT cache of the
      timing, and clears the VBlank signal. */
  lemma StepTiming(s: PpuState, frame: seq<bv8>, m: BusState, cycles: nat)
    requires Sized(m) && |frame| == FRAME_BUFFER_SIZE
    requires LcdEnabled(ReadByte(m, LCDC_ADDR))
    ensures var t := Timed(Cache(s, m), cycles); var r := Step(s, frame, m, cycles).state;
      r.dots == t.dots && r.line == t.line && r.mode == t.mode && r.lcdc == t.lcdc && r.stat == t.stat
      && !r.vblankJustOccurred
  {
  }

  /** With the LCD off, a reset state only refreshes its LCDC/STAT cache;
      any other state is reset, LY becomes 0 and STAT keeps its upper five
      bits with mode 0. Frame buffer untouched in both cases. */
  lemma LcdOffStep(s: PpuState, frame: seq<bv8>, m: BusState, cycles: nat)
    requires Sized(m) && |frame| == FRAME_BUFFER_SIZE
    requires !LcdEnabled(ReadByte(m, LCDC_ADDR))
    ensures var r := Step(s, frame, m, cycles); r.frame == frame
    ensures IsReset(s) ==> Step(s, frame, m, cycles) == PpuOutcome(Cache(s, m), frame, m)
    ensures !IsReset(s) ==> var r := Step(s, frame, m, cycles);
      r.state == ResetForLcdOff(Cache(s, m)) && GetIoReg(r.bus, LY_ADDR) == 0
      && GetIoReg(r.bus, STAT_ADDR) == ReadByte(m, STAT_ADDR) & 0xF8
  {
    var c := Cache(s, m);
    if !IsReset(s) {
      WriteKeepsSized(m, LY_ADDR, 0);
      var written := WriteByte(m, LY_ADDR, 0);
      LyWriteStoresZero(m);
      DirectFrame(written, STAT_ADDR, (c.stat & 0xF8) | ModeBits(HBlank), LY_ADDR);
    }
  }

  lemma LyWriteStoresZero(m: BusState)
    requires Sized(m)
    ensures Sized(WriteByte(m, LY_ADDR, 0)) && GetIoReg(WriteByte(m, LY_ADDR, 0), LY_ADDR) == 0
  {
    WriteKeepsSized(m, LY_ADDR, 0);
  }

  /** `set_io_reg_direct` on one register leaves every other register. */
  lemma DirectFrame(m: BusState, addr: Addr, v: bv8, other: Addr)
    requires Sized(m) && IO_REGISTERS_START <= addr <= IO_REGISTERS_END
    requires IO_REGISTERS_START <= other <= IO_REGISTERS_END && other != addr
    ensures GetIoReg(SetIoRegDirect(m, addr, v), other) == GetIoReg(m, other)
    ensures ReadByte(SetIoRegDirect(m, addr, v), other) == ReadByte(m, other)
  {
  }

  /** After an LCD-on step, LY holds the new line if the line changed and is
      as it was otherwise. */
  lemma StepSetsLy(s: PpuState, frame: seq<bv8>, m: BusState, cycles: nat)
    requires Sized(m) && |frame| == FRAME_BUFFER_SIZE
    requires LcdEnabled(ReadByte(m, LCDC_ADDR))
    ensures var c := Cache(s, m); var r := Step(s, frame, m, cycles);
      (ChangesLine(c, cycles) ==> GetIoReg(r.bus, LY_ADDR) == LineByte(r.state.line))
      && (!ChangesLine(c, cycles) ==> GetIoReg(r.bus, LY_ADDR) == GetIoReg(m, LY_ADDR))
  {
    var c := Cache(s, m);
    var t := Timed(c, cycles);
    var m1 := TimedBus(c, t, cycles, m);
    SignalKeepsLy(t, m1);
    StepTiming(s, frame, m, cycles);
  }

  /** LYC, STAT and the interrupts leave LY as the timing left it. */
  lemma SignalKeepsLy(t: PpuState, m: BusState)
    requires Sized(m)
    ensures GetIoReg(Signal(t, m).bus, LY_ADDR) == GetIoReg(m, LY_ADDR)
  {
    var checked := CheckLyc(t, m);
    var m2 := UpdateStat(checked, m);
    DirectFrame(m, STAT_ADDR, NewStat(checked), LY_ADDR);
    InterruptsKeep(checked, m2, LY_ADDR);
  }

  /** The interrupt requests touch only IF. */
  lemma InterruptsKeep(s: PpuState, m: BusState, other: Addr)
    requires Sized(m) && IO_REGISTERS_START <= other <= IO_REGISTERS_END && other != IF_ADDR
    ensures GetIoReg(Interrupts(s, m).bus, other) == GetIoReg(m, other)
  {
    var afterVBlank := if s.vblankJustOccurred then RequestIf(m, VBLANK_INTERRUPT_BIT) else m;
    if s.vblankJustOccurred {
      DirectFrame(m, IF_ADDR, ReadByte(m, IF_ADDR) | BitMask(VBLANK_INTERRUPT_BIT), other);
    }
    if StatInterruptNow(s) && !s.statLine {
      DirectFrame(afterVBlank, IF_ADDR, ReadByte(afterVBlank, IF_ADDR) | BitMask(LCD_STAT_INTERRUPT_BIT), other);
    }
  }

  /** After an LCD-on step, STAT holds the interrupt enables of the cached
      STAT, the new mode in bits 0-1, the coincidence flag in bit 2 and bit
      7 set; the coincidence flag compares the new line with LYC. */
  lemma StepSetsStat(s: PpuState, frame: seq<bv8>, m: BusState, cycles: nat)
    requires Sized(m) && |frame| == FRAME_BUFFER_SIZE
    requires LcdEnabled(ReadByte(m, LCDC_ADDR))
    ensures var r := Step(s, frame, m, cycles);
      GetIoReg(r.bus, STAT_ADDR) == NewStat(r.state)
      && GetIoReg(r.bus, STAT_ADDR) & 0x03 == ModeBits(r.state.mode)
      && GetIoReg(r.bus, STAT_ADDR) & 0x78 == ReadByte(m, STAT_ADDR) & 0x78
      && (r.state.lycEqLy <==> r.state.line == ReadByte(m, LYC_ADDR) as int)
  {
    var c := Cache(s, m);
    var t := Timed(c, cycles);
    var m1 := TimedBus(c, t, cycles, m);
    TimedBusKeeps(c, t, cycles, m, LYC_ADDR);
    SignalSetsStat(t, m1);
    StepTiming(s, frame, m, cycles);
  }

  /** The timing writes only LY. */
  lemma TimedBusKeeps(c: PpuState, t: PpuState, cycles: nat, m: BusState, other: Addr)
    requires Sized(m) && IO_REGISTERS_START <= other <= IO_REGISTERS_END && other != LY_ADDR
    ensures GetIoReg(TimedBus(c, t, cycles, m), other) == GetIoReg(m, other)
    ensures ReadByte(TimedBus(c, t, cycles, m), other) == ReadByte(m, other)
  {
    if ChangesLine(c, cycles) {
      DirectFrame(m, LY_ADDR, LineByte(t.line), other);
    }
  }

  /** LYC, STAT and the interrupts: STAT holds `NewStat` of the checked
      state, whose flag compares the line with LYC. */
  lemma SignalSetsStat(t: PpuState, m: BusState)
    requires Sized(m)
    ensures var r := Signal(t, m);
      GetIoReg(r.bus, STAT_ADDR) == NewStat(r.state)
      && r.state.line == t.line && r.state.mode == t.mode && r.state.stat == t.stat
      && (r.state.lycEqLy <==> t.line == ReadByte(m, LYC_ADDR) as int)
  {
    var checked := CheckLyc(t, m);
    InterruptsKeep(checked, UpdateStat(checked, m), STAT_ADDR);
  }

  /** After an LCD-on step, IF is the old IF with bit 0 added iff the
      timing signalled VBlank and bit 1 added iff the STAT request line
      rose (was low before the step and is high after it). */
  lemma StepRequests(s: PpuState, frame: seq<bv8>, m: BusState, cycles: nat)
    requires Sized(m) && |frame| == FRAME_BUFFER_SIZE
    requires LcdEnabled(ReadByte(m, LCDC_ADDR))
    ensures var t := Timed(Cache(s, m), cycles); var r := Step(s, frame, m, cycles);
      GetIoReg(r.bus, IF_ADDR) == GetIoReg(m, IF_ADDR)
        | (if t.vblankJustOccurred then 0x01 else 0x00)
        | (if r.state.statLine && !s.statLine then 0x02 else 0x00)
  {
    var c := Cache(s, m);
    var t := Timed(c, cycles);
    var m1 := TimedBus(c, t, cycles, m);
    TimedBusKeeps(c, t, cycles, m, IF_ADDR);
    SignalSetsIf(t, m1);
  }

  /** LYC, STAT and the interrupts: IF gains the VBlank bit iff signalled
      and the STAT bit iff the request line rises. */
  lemma SignalSetsIf(t: PpuState, m: BusState)
    requires Sized(m)
    ensures var r := Signal(t, m);
      GetIoReg(r.bus, IF_ADDR) == GetIoReg(m, IF_ADDR)
        | (if t.vblankJustOccurred then 0x01 else 0x00)
        | (if r.state.statLine && !t.statLine then 0x02 else 0x00)
  {
    var checked := CheckLyc(t, m);
    DirectFrame(m, STAT_ADDR, NewStat(checked), IF_ADDR);
    InterruptsSetIf(checked, UpdateStat(checked, m));
  }

  /** The two requests OR their bits into IF. */
  lemma InterruptsSetIf(s: PpuState, m: BusState)
    requires Sized(m)
    ensures GetIoReg(Interrupts(s, m).bus, IF_ADDR) == GetIoReg(m, IF_ADDR)
      | (if s.vblankJustOccurred then 0x01 else 0x00)
      | (if StatInterruptNow(s) && !s.statLine then 0x02 else 0x00)
  {
    var afterVBlank := if s.vblankJustOccurred then RequestIf(m, VBLANK_INTERRUPT_BIT) else m;
    RequestIfSets(m, VBLANK_INTERRUPT_BIT);
    RequestIfSets(afterVBlank, LCD_STAT_INTERRUPT_BIT);
  }

  /** `Ppu::request_interrupt` ORs the bit into IF. */
  lemma RequestIfSets(m: BusState, bit: nat)
    requires Sized(m) && bit < 8
    ensures GetIoReg(RequestIf(m, bit), IF_ADDR) == GetIoReg(m, IF_ADDR) | BitMask(bit)
  {
  }

  /** The PPU's own `request_interrupt` has the same effect as the bus's
      `request_interrupt` the CPU side uses. */
  lemma RequestIfIsBusRequest(m: BusState, bit: nat)
    requires Sized(m) && bit < 5
    ensures RequestIf(m, bit) == BusSpec.RequestInterrupt(m, bit as bv8)
  {
    var i := IoIndex(IF_ADDR);
    assert BitMask(bit) == 1 << (bit as bv8) by { MaskIsShift(bit); }
    assert RequestIf(m, bit).io == m.io[i := m.io[i] | BitMask(bit)];
  }

  lemma MaskIsShift(bit: nat)
    requires bit < 5
    ensures BitMask(bit) == 1 << (bit as bv8)
  {
    if bit == 0 {} else if bit == 1 {} else if bit == 2 {} else if bit == 3 {} else {}
  }

  /** From a state without a pending VBlank signal, an LCD-on step requests
      the VBlank interrupt iff it moves the PPU from line 143 to line 144,
      so a frame requests it exactly once. */
  lemma VBlankRequestedAtLine144(s: PpuState, frame: seq<bv8>, m: BusState, cycles: nat)
    requires Sized(m) && |frame| == FRAME_BUFFER_SIZE && Consistent(s) && !s.vblankJustOccurred
    requires LcdEnabled(ReadByte(m, LCDC_ADDR))
    ensures var r := Step(s, frame, m, cycles);
      GetIoReg(r.bus, IF_ADDR) & 0x01 == (if s.line == 143 && r.state.line == 144 then 0x01 else GetIoReg(m, IF_ADDR) & 0x01)
      && !r.state.vblankJustOccurred
  {
    var c := Cache(s, m);
    StepRequests(s, frame, m, cycles);
    StepTiming(s, frame, m, cycles);
    VBlankSignalAtLine144(c, cycles);
  }
}
