// `Ppu::step` of core/src/ppu/mod.rs as a function of the PPU state, the
// frame buffer and the bus: the cached LCDC/STAT, the LCD-off branch, the
// one mode transition a step can make, the line rendered when mode 3 ends,
// the LY, STAT and IF updates, and the edge-triggered STAT interrupt.
module PpuSpec {
  import opened Bits
  import opened MemoryMap
  import opened BusSpec
  import opened PpuConstants
  import opened PpuStates
  import RenderSpec

  /** What a step leaves: the PPU state, the frame buffer and the bus. */
  datatype PpuOutcome = PpuOutcome(state: PpuState, frame: seq<bv8>, bus: BusState)

  /** The PPU state and the bus, for the parts of a step that leave the
      frame buffer alone. */
  datatype Signalled = Signalled(state: PpuState, bus: BusState)

  /** LCDC bit 7. */
  predicate LcdEnabled(lcdc: bv8)
  {
    BitSet(lcdc, LCDC_LCD_ENABLE)
  }

  /** The LCDC and STAT bytes read at the start of every step. */
  function Cache(s: PpuState, m: BusState): (c: PpuState)
    requires Sized(m)
    ensures c == s.(lcdc := c.lcdc, stat := c.stat)
    ensures c.lcdc == ReadByte(m, LCDC_ADDR) && c.stat == ReadByte(m, STAT_ADDR)
  {
    s.(lcdc := ReadByte(m, LCDC_ADDR), stat := ReadByte(m, STAT_ADDR))
  }

  // ---------------------------------------------------------------- LCD off

  /** The LCD-off branch: a state that is not yet reset is reset, LY is
      written 0 through `write_byte`, and STAT keeps its upper five bits
      with mode 0 through `set_io_reg_direct`; a reset state stays. */
  function LcdOff(s: PpuState, m: BusState): (r: Signalled)
    requires Sized(m)
    ensures Sized(r.bus)
  {
    if IsReset(s) then Signalled(s, m)
    else
      var reset := ResetForLcdOff(s);
      WriteKeepsSized(m, LY_ADDR, 0);
      Signalled(reset, SetIoRegDirect(WriteByte(m, LY_ADDR, 0), STAT_ADDR, (reset.stat & 0xF8) | ModeBits(HBlank)))
  }

  // ---------------------------------------------------------------- timing

  /** `current_scanline += 1` on a u8. */
  function NextLine(line: U8): U8
  {
    (line + 1) % 0x100
  }

  /** The dots a mode lasts: the step whose dots reach it ends the mode. */
  function ModeLength(mode: Mode): nat
  {
    match mode
    case OamScan => MODE2_OAM_SCAN_DOTS
    case VramRead => MODE3_VRAM_READ_DOTS
    case HBlank => DOTS_PER_SCANLINE
    case VBlank => DOTS_PER_SCANLINE
  }

  /** The step ends the current mode. */
  predicate EndsMode(s: PpuState, cycles: nat)
  {
    s.dots + cycles >= ModeLength(s.mode)
  }

  /** The mode after the current one ends: 2, 3, 0, then 2 again or 1 at
      line 144; VBlank lines follow each other until line 0 starts mode 2. */
  function NextMode(s: PpuState): Mode
  {
    match s.mode
    case OamScan => VramRead
    case VramRead => HBlank
    case HBlank => if NextLine(s.line) == GB_HEIGHT then VBlank else OamScan
    case VBlank => if NextLine(s.line) == SCANLINES_PER_FRAME then OamScan else VBlank
  }

  /** The end of HBlank: the leftover dots carry into the next line, which
      is line 144 (VBlank, signalled) or another visible line (mode 2). */
  function EndHBlank(s: PpuState, dots: nat): PpuState
  {
    var line := NextLine(s.line);
    if line == GB_HEIGHT then s.(dots := dots % DOTS_PER_SCANLINE, line := line, mode := VBlank, vblankJustOccurred := true)
    else s.(dots := dots % DOTS_PER_SCANLINE, line := line, mode := OamScan)
  }

  /** The end of a VBlank line: the next line, or line 0 in mode 2 after
      line 153. */
  function EndVBlankLine(s: PpuState, dots: nat): PpuState
  {
    var line := NextLine(s.line);
    if line == SCANLINES_PER_FRAME then s.(dots := dots % DOTS_PER_SCANLINE, line := 0, mode := OamScan)
    else s.(dots := dots % DOTS_PER_SCANLINE, line := line)
  }

  /** The dots of the step added, then the `match` on the mode. */
  function Timed(s: PpuState, cycles: nat): (t: PpuState)
    ensures t.lcdc == s.lcdc && t.stat == s.stat && t.lycEqLy == s.lycEqLy && t.statLine == s.statLine
  {
    var dots := s.dots + cycles;
    match s.mode
    case OamScan =>
      if dots >= MODE2_OAM_SCAN_DOTS then s.(dots := dots - MODE2_OAM_SCAN_DOTS, mode := VramRead) else s.(dots := dots)
    case VramRead =>
      if dots >= MODE3_VRAM_READ_DOTS then s.(dots := dots - MODE3_VRAM_READ_DOTS, mode := HBlank) else s.(dots := dots)
    case HBlank =>
      if dots >= DOTS_PER_SCANLINE then EndHBlank(s, dots) else s.(dots := dots)
    case VBlank =>
      if dots >= DOTS_PER_SCANLINE then EndVBlankLine(s, dots) else s.(dots := dots)
  }

  /** The step moves to the next line: HBlank or a VBlank line ends. */
  predicate ChangesLine(s: PpuState, cycles: nat)
  {
    (s.mode == HBlank || s.mode == VBlank) && EndsMode(s, cycles)
  }

  /** The step renders a line: mode 3 ends on one of lines 0-143. */
  predicate RendersLine(s: PpuState, cycles: nat)
  {
    s.mode == VramRead && EndsMode(s, cycles) && s.line < GB_HEIGHT
  }

  /** The frame after the timing part: line `y` rendered into entries
      `y * 160` .. `y * 160 + 159` when mode 3 ends, from the state the
      transition left (`t`). */
  function TimedFrame(s: PpuState, t: PpuState, cycles: nat, frame: seq<bv8>, m: BusState): (r: seq<bv8>)
    requires Sized(m) && |frame| == FRAME_BUFFER_SIZE
    ensures |r| == FRAME_BUFFER_SIZE
  {
    if RendersLine(s, cycles) then RenderSpec.Splice(frame, s.line * GB_WIDTH, RenderSpec.RenderedLine(m, t)) else frame
  }

  /** The bus after the timing part: LY holds the new line after a line
      change, through `set_io_reg_direct`. */
  function TimedBus(s: PpuState, t: PpuState, cycles: nat, m: BusState): (r: BusState)
    requires Sized(m)
    ensures Sized(r)
  {
    if ChangesLine(s, cycles) then SetIoRegDirect(m, LY_ADDR, LineByte(t.line)) else m
  }

  // ---------------------------------------------------------------- LY, STAT, interrupts

  /** `check_lyc_coincidence`: the line against the LYC register. */
  function CheckLyc(s: PpuState, m: BusState): (r: PpuState)
    requires Sized(m)
    ensures r == s.(lycEqLy := r.lycEqLy)
    ensures r.lycEqLy <==> s.line == ReadByte(m, LYC_ADDR) as int
  {
    s.(lycEqLy := s.line == ReadByte(m, LYC_ADDR) as int)
  }

  /** The value `update_stat_register` stores: the interrupt enables of the
      cached STAT, the mode, the coincidence flag and bit 7 set. */
  function NewStat(s: PpuState): (v: bv8)
    ensures v & 0x03 == ModeBits(s.mode)
    ensures (v & 0x04 != 0) == s.lycEqLy
    ensures v & 0x78 == s.stat & 0x78
    ensures v & 0x80 == 0x80
  {
    (s.stat & 0x78) | ModeBits(s.mode) | (if s.lycEqLy then 0x04 else 0x00) | 0x80
  }

  function UpdateStat(s: PpuState, m: BusState): (r: BusState)
    requires Sized(m)
    ensures Sized(r)
  {
    SetIoRegDirect(m, STAT_ADDR, NewStat(s))
  }

  /** The STAT request line: one of the four enabled conditions of the
      cached STAT holds. */
  predicate StatInterruptNow(s: PpuState)
  {
    (BitSet(s.stat, STAT_LYC_EQ_LY_IE) && s.lycEqLy)
    || (BitSet(s.stat, STAT_MODE_0_HBLANK_IE) && s.mode == HBlank)
    || (BitSet(s.stat, STAT_MODE_1_VBLANK_IE) && s.mode == VBlank)
    || (BitSet(s.stat, STAT_MODE_2_OAM_IE) && s.mode == OamScan)
  }

  /** `Ppu::request_interrupt`: IF is read and written back with the bit
      set, through `set_io_reg_direct`. */
  function RequestIf(m: BusState, bit: nat): (r: BusState)
    requires Sized(m) && bit < 8
    ensures Sized(r)
  {
    SetIoRegDirect(m, IF_ADDR, ReadByte(m, IF_ADDR) | BitMask(bit))
  }

  /** `check_and_request_interrupts`: VBlank is requested when signalled and
      the signal cleared; STAT is requested when the request line rises,
      and the line is remembered. */
  function Interrupts(s: PpuState, m: BusState): (r: Signalled)
    requires Sized(m)
    ensures Sized(r.bus)
    ensures r.state == s.(vblankJustOccurred := false, statLine := StatInterruptNow(s))
  {
    var afterVBlank := if s.vblankJustOccurred then RequestIf(m, VBLANK_INTERRUPT_BIT) else m;
    var now := StatInterruptNow(s);
    var afterStat := if now && !s.statLine then RequestIf(afterVBlank, LCD_STAT_INTERRUPT_BIT) else afterVBlank;
    Signalled(s.(vblankJustOccurred := false, statLine := now), afterStat)
  }

  // ---------------------------------------------------------------- the step

  /** The parts of an LCD-on step after the transition: LYC, STAT and the
      interrupts. */
  function Signal(t: PpuState, m: BusState): (r: Signalled)
    requires Sized(m)
    ensures Sized(r.bus)
  {
    var checked := CheckLyc(t, m);
    Interrupts(checked, UpdateStat(checked, m))
  }

  /** `Ppu::step` with `cycles` T-cycles. */
  function Step(s: PpuState, frame: seq<bv8>, m: BusState, cycles: nat): (r: PpuOutcome)
    requires Sized(m) && |frame| == FRAME_BUFFER_SIZE
    ensures Sized(r.bus) && |r.frame| == FRAME_BUFFER_SIZE
  {
    var c := Cache(s, m);
    if !LcdEnabled(c.lcdc) then
      var off := LcdOff(c, m);
      PpuOutcome(off.state, frame, off.bus)
    else
      var t := Timed(c, cycles);
      var signalled := Signal(t, TimedBus(c, t, cycles, m));
      PpuOutcome(signalled.state, TimedFrame(c, t, cycles, frame, m), signalled.bus)
  }
}
