// The single-file `Ppu` of core/src/ppu.rs as functions of its state, its
// frame buffer and the bus. It works like the PPU of core/src/ppu/ with
// these differences: it caches only LCDC, starts in HBlank, carries the
// dots of a line by subtraction, writes LY, STAT and IF through
// `write_byte`, reads the STAT enables from the bus, and searches all 40
// OAM entries for every pixel of a line.
module LegacyPpuSpec {
  import opened Bits
  import opened MemoryMap
  import opened BusSpec
  import opened PpuConstants
  import opened PpuStates
  import opened RenderSpec
  import PpuSpec

  /** The scalar fields of the struct: the dots into the current mode, the
      line, the LCDC byte read at the start of the step, the mode, and the
      three flags. */
  datatype LegacyState = LegacyState(
    dots: nat,
    line: U8,
    lcdc: bv8,
    mode: Mode,
    lycEqLy: bool,
    statLine: bool,
    vblankJustOccurred: bool)

  /** What a step leaves: the state, the frame buffer and the bus. */
  datatype LegacyOutcome = LegacyOutcome(state: LegacyState, frame: seq<bv8>, bus: BusState)

  /** The state and the bus, for the parts of a step that leave the frame
      buffer alone. */
  datatype LegacySignalled = LegacySignalled(state: LegacyState, bus: BusState)

  /** The invariant of a frame: one of the 154 lines, a VBlank line exactly
      in mode 1. */
  predicate LegacyConsistent(s: LegacyState)
  {
    s.line < SCANLINES_PER_FRAME && (s.mode == VBlank <==> s.line >= GB_HEIGHT)
  }

  /** `Ppu::new`: line 0 in HBlank, LCDC 0x91 and the flags clear. */
  function NewLegacyState(): (s: LegacyState)
    ensures LegacyConsistent(s) && LegacyIsReset(s)
    ensures !s.lycEqLy && !s.statLine && !s.vblankJustOccurred
  {
    LegacyState(0, 0, 0x91, HBlank, false, false, false)
  }

  // ---------------------------------------------------------------- LCD off

  /** The state the LCD-off branch leaves alone. */
  predicate LegacyIsReset(s: LegacyState)
  {
    s.dots == 0 && s.line == 0 && s.mode == HBlank
  }

  /** The fields the LCD-off branch clears; LCDC and the VBlank signal are
      kept. */
  function LegacyReset(s: LegacyState): (r: LegacyState)
    ensures LegacyIsReset(r) && LegacyConsistent(r) && !r.lycEqLy && !r.statLine
    ensures r.lcdc == s.lcdc && r.vblankJustOccurred == s.vblankJustOccurred
  {
    s.(dots := 0, line := 0, mode := HBlank, lycEqLy := false, statLine := false)
  }

  /** The LCD-off branch: a state that is not reset is reset, LY is written
      0, and STAT as read from the bus is written back with mode 0, both
      through `write_byte`. */
  function LegacyLcdOff(s: LegacyState, m: BusState): (r: LegacySignalled)
    requires Sized(m)
    ensures Sized(r.bus)
  {
    if LegacyIsReset(s) then LegacySignalled(s, m)
    else
      WriteKeepsSized(m, LY_ADDR, 0);
      var written := WriteByte(m, LY_ADDR, 0);
      var statToWrite := (ReadByte(written, STAT_ADDR) & 0xF8) | ModeBits(HBlank);
      WriteKeepsSized(written, STAT_ADDR, statToWrite);
      LegacySignalled(LegacyReset(s), WriteByte(written, STAT_ADDR, statToWrite))
  }

  // ---------------------------------------------------------------- timing

  /** The end of HBlank: `dots` are those left after 456 are taken; the
      next line is line 144 (VBlank, signalled) or a visible line (mode 2). */
  function LegacyEndHBlank(s: LegacyState, dots: nat): (r: LegacyState)
    ensures r.line == PpuSpec.NextLine(s.line) && r.dots == dots
  {
    var line := PpuSpec.NextLine(s.line);
    if line == GB_HEIGHT then s.(dots := dots, line := line, mode := VBlank, vblankJustOccurred := true)
    else s.(dots := dots, line := line, mode := OamScan)
  }

  /** The end of a VBlank line: the next line, or line 0 in mode 2 after
      line 153. */
  function LegacyEndVBlankLine(s: LegacyState, dots: nat): (r: LegacyState)
    ensures r.dots == dots
  {
    var line := PpuSpec.NextLine(s.line);
    if line == SCANLINES_PER_FRAME then s.(dots := dots, line := 0, mode := OamScan)
    else s.(dots := dots, line := line)
  }

  /** The dots of the step added, then the `match` on the mode with the
      mode it computes stored: each mode that ends gives up its length in
      dots. */
  function LegacyTimed(s: LegacyState, cycles: nat): (t: LegacyState)
    ensures t.lcdc == s.lcdc && t.lycEqLy == s.lycEqLy && t.statLine == s.statLine
  {
    var dots := s.dots + cycles;
    match s.mode
    case OamScan =>
      if dots >= MODE2_OAM_SCAN_DOTS then s.(dots := dots - MODE2_OAM_SCAN_DOTS, mode := VramRead) else s.(dots := dots)
    case VramRead =>
      if dots >= MODE3_VRAM_READ_DOTS then s.(dots := dots - MODE3_VRAM_READ_DOTS, mode := HBlank) else s.(dots := dots)
    case HBlank =>
      if dots >= DOTS_PER_SCANLINE then LegacyEndHBlank(s, dots - DOTS_PER_SCANLINE) else s.(dots := dots)
    case VBlank =>
      if dots >= DOTS_PER_SCANLINE then LegacyEndVBlankLine(s, dots - DOTS_PER_SCANLINE) else s.(dots := dots)
  }

  /** The step ends the current mode. */
  predicate LegacyEndsMode(s: LegacyState, cycles: nat)
  {
    s.dots + cycles >= PpuSpec.ModeLength(s.mode)
  }

  /** The step moves to the next line. */
  predicate LegacyChangesLine(s: LegacyState, cycles: nat)
  {
    (s.mode == HBlank || s.mode == VBlank) && LegacyEndsMode(s, cycles)
  }

  /** The step renders a line: mode 3 ends on one of lines 0-143. */
  predicate LegacyRendersLine(s: LegacyState, cycles: nat)
  {
    s.mode == VramRead && LegacyEndsMode(s, cycles) && s.line < GB_HEIGHT
  }

  /** The bus after the timing part: LY written with the new line through
      `write_byte` after a line change. */
  function LegacyTimedBus(s: LegacyState, t: LegacyState, cycles: nat, m: BusState): (r: BusState)
    requires Sized(m)
    ensures Sized(r)
  {
    if LegacyChangesLine(s, cycles) then
      WriteKeepsSized(m, LY_ADDR, LineByte(t.line));
      WriteByte(m, LY_ADDR, LineByte(t.line))
    else m
  }

  /** The frame after the timing part: line `y` rendered into entries
      `y * 160` .. `y * 160 + 159` when mode 3 ends. */
  function LegacyTimedFrame(s: LegacyState, cycles: nat, frame: seq<bv8>, m: BusState): (r: seq<bv8>)
    requires Sized(m) && |frame| == FRAME_BUFFER_SIZE
    ensures |r| == FRAME_BUFFER_SIZE
  {
    if LegacyRendersLine(s, cycles) then Splice(frame, s.line * GB_WIDTH, LegacyLine(m, s.lcdc, LineByte(s.line))) else frame
  }

  // ---------------------------------------------------------------- sprites

  /** `fetch_sprite_pixel_data`'s position test: OAM Y and X non-zero, the
      line inside the sprite's rows and the column inside its eight
      columns, all in wrapping u8 arithmetic. */
  predicate LegacyCovers(sp: SpriteInfo, x: bv8, y: bv8)
  {
    sp.y != 0 && CoversLine(y, sp.y, sp.height) && sp.x != 0 && CoversColumn(sp, x)
  }

  /** The sprite's colour index at screen pixel (`x`, `y`): the tile and
      row of `SpriteTileRow` for line `y`, the column flipped by the X-flip
      bit, and bit 7 - column of the row, so that column 0 is the sprite's
      leftmost pixel. */
  function LegacySpriteIndex(m: BusState, sp: SpriteInfo, x: bv8, y: bv8): (r: bv8)
    requires Sized(m) && CoversColumn(sp, x)
    ensures r < 4
  {
    var (tile, row) := SpriteTileRow(sp, y);
    TileRowPixelIndex(m, VRAM_START + tile as int * 16 + row as int * 2, 7 - SpriteColumn(sp, x))
  }

  /** The sprite covers the pixel with a non-transparent colour. */
  predicate LegacyOpaque(m: BusState, sp: SpriteInfo, x: bv8, y: bv8)
    requires Sized(m)
  {
    LegacyCovers(sp, x, y) && LegacySpriteIndex(m, sp, x, y) != 0
  }

  /** All 40 OAM entries, decoded with the sprite height of `lcdc` and the
      two object palettes. */
  function OamSprites(m: BusState, lcdc: bv8): (r: seq<SpriteInfo>)
    requires Sized(m)
    ensures |r| == 40
    ensures forall i :: 0 <= i < 40 ==>
      r[i] == SpriteAt(m, SpriteHeight(lcdc), ReadByte(m, OBP0_ADDR), ReadByte(m, OBP1_ADDR), i)
  {
    var height := SpriteHeight(lcdc);
    var obp0 := ReadByte(m, OBP0_ADDR);
    var obp1 := ReadByte(m, OBP1_ADDR);
    seq(40, (i: int) requires 0 <= i < 40 => SpriteAt(m, height, obp0, obp1, i))
  }

  /** The opacity of every entry of `s` at the pixel. */
  function LegacyOpaqueFlags(m: BusState, s: seq<SpriteInfo>, x: bv8, y: bv8): (r: seq<bool>)
    requires Sized(m)
    ensures |r| == |s| && forall j :: 0 <= j < |s| ==> r[j] == LegacyOpaque(m, s[j], x, y)
  {
    seq(|s|, (j: int) requires 0 <= j < |s| => LegacyOpaque(m, s[j], x, y))
  }

  /** The search of `fetch_sprite_pixel_data` over the first `n` entries,
      on their opacity flags and X keys: a shown entry replaces the best so
      far iff there is none yet or its key is strictly smaller (a tie never
      replaces, as the best's index is already smaller). */
  function LeastKey(shown: seq<bool>, keys: seq<int>, n: nat): (w: Option<nat>)
    requires n <= |shown| == |keys|
    ensures w.Some? ==> w.value < n && shown[w.value]
  {
    if n == 0 then None
    else
      var w := LeastKey(shown, keys, n - 1);
      if shown[n - 1] && (w.None? || keys[n - 1] < keys[w.value]) then Some(n - 1) else w
  }

  /** The search's winner has the least (key, index) among the shown
      entries; without a winner, no entry is shown. */
  lemma {:induction false} LeastKeyIsLeast(shown: seq<bool>, keys: seq<int>, n: nat)
    requires n <= |shown| == |keys|
    ensures var w := LeastKey(shown, keys, n);
      w.Some? ==> forall j :: 0 <= j < n && shown[j] ==>
        keys[w.value] < keys[j] || (keys[w.value] == keys[j] && w.value <= j)
    ensures LeastKey(shown, keys, n).None? ==> forall j :: 0 <= j < n ==> !shown[j]
  {
    if n > 0 {
      LeastKeyIsLeast(shown, keys, n - 1);
    }
  }

  /** One more entry of the search. */
  lemma LeastKeyStep(shown: seq<bool>, keys: seq<int>, n: nat)
    requires n < |shown| == |keys|
    ensures var w := LeastKey(shown, keys, n);
      LeastKey(shown, keys, n + 1) == if shown[n] && (w.None? || keys[n] < keys[w.value]) then Some(n) else w
  {
  }

  /** The winner among the 40 entries at a pixel. */
  function LegacyWinner(m: BusState, lcdc: bv8, x: bv8, y: bv8): (w: Option<nat>)
    requires Sized(m)
    ensures w.Some? ==> w.value < 40 && LegacyOpaque(m, OamSprites(m, lcdc)[w.value], x, y)
  {
    var s := OamSprites(m, lcdc);
    LeastKey(LegacyOpaqueFlags(m, s, x, y), Keys(s), 40)
  }

  /** The sprite pixel of a screen pixel: its colour index, its priority
      bit and its palette register. */
  datatype SpritePixel = SpritePixel(index: bv8, bgPriority: bool, palette: bv8)

  /** `fetch_sprite_pixel_data`: nothing when sprites are disabled (LCDC bit
      1) or none is opaque at the pixel; otherwise the winner's pixel. */
  function LegacySpritePixel(m: BusState, lcdc: bv8, x: bv8, y: bv8): (r: SpritePixel)
    requires Sized(m)
    ensures r.index < 4
  {
    if !BitSet(lcdc, LCDC_OBJ_ENABLE) then SpritePixel(0, false, 0)
    else
      WinnerPixel(m, OamSprites(m, lcdc), x, y, LegacyWinner(m, lcdc, x, y))
  }

  /** The pixel of entry `w` of `s`, or a transparent one without a
      winner. */
  function WinnerPixel(m: BusState, s: seq<SpriteInfo>, x: bv8, y: bv8, w: Option<nat>): (r: SpritePixel)
    requires Sized(m) && (w.Some? ==> w.value < |s| && LegacyOpaque(m, s[w.value], x, y))
    ensures r.index < 4
  {
    if w.None? then SpritePixel(0, false, 0)
    else SpritePixel(LegacySpriteIndex(m, s[w.value], x, y), s[w.value].bgPriority, s[w.value].palette)
  }

  // ---------------------------------------------------------------- lines

  /** The shade of screen pixel (`x`, `y`): the background/window colour
      through BGP, replaced by the sprite colour through its palette when
      sprites are enabled, the sprite pixel is not transparent, and the
      background/window layer is disabled, the sprite's priority bit is
      clear or the background/window index is 0. */
  function LegacyPixelShade(m: BusState, lcdc: bv8, regs: LineRegs, x: bv8, y: bv8): (r: bv8)
    requires Sized(m)
    ensures r < 4
  {
    var bgIndex := BgWinIndex(m, lcdc, regs, x, y);
    var color := ColorFromPalette(bgIndex, regs.bgp);
    if !BitSet(lcdc, LCDC_OBJ_ENABLE) then color
    else
      var p := LegacySpritePixel(m, lcdc, x, y);
      if p.index != 0 && (!BitSet(lcdc, LCDC_BG_WIN_ENABLE_PRIORITY) || !p.bgPriority || bgIndex == 0)
      then ColorFromPalette(p.index, p.palette)
      else color
  }

  /** `render_scanline`: the 160 shades of line `y`, with the scroll,
      window and palette registers read once. */
  function LegacyLine(m: BusState, lcdc: bv8, y: bv8): (r: seq<bv8>)
    requires Sized(m)
    ensures |r| == GB_WIDTH
    ensures forall i :: 0 <= i < |r| ==> r[i] < 4
  {
    var regs := ReadLineRegs(m);
    seq(GB_WIDTH, (i: int) requires 0 <= i < GB_WIDTH => LegacyPixelShade(m, lcdc, regs, i as bv8, y))
  }

  // ---------------------------------------------------------------- LY, STAT, interrupts

  /** The LYC=LY check against the line the timing left. The legacy PPU is
      a separate struct with its own fields and does this comparison inside
      its own `step`, so the check is stated over `LegacyState`; it compares
      the same line and LYC as `PpuSpec.CheckLyc`. */
  function LegacyCheckLyc(t: LegacyState, m: BusState): (r: LegacyState)
    requires Sized(m)
    ensures r == t.(lycEqLy := r.lycEqLy)
    ensures r.lycEqLy <==> t.line == ReadByte(m, LYC_ADDR) as int
  {
    t.(lycEqLy := t.line == ReadByte(m, LYC_ADDR) as int)
  }

  /** The STAT byte written: the upper five bits of STAT as read from the
      bus, the mode in bits 0-1 and the coincidence flag in bit 2. */
  function LegacyStatValue(statOnBus: bv8, s: LegacyState): (v: bv8)
    ensures v & 0x03 == ModeBits(s.mode)
    ensures (v & 0x04 != 0) == s.lycEqLy
    ensures v & 0xF8 == statOnBus & 0xF8
  {
    (statOnBus & 0xF8) | ModeBits(s.mode) | (if s.lycEqLy then BitMask(STAT_LYC_EQ_LY_FLAG) else 0)
  }

  /** The STAT request line: an enable bit of STAT as read from the bus
      and its condition, on the new mode. */
  predicate LegacyStatRequest(statOnBus: bv8, s: LegacyState)
  {
    (s.lycEqLy && BitSet(statOnBus, STAT_LYC_EQ_LY_IE))
    || (s.mode == HBlank && BitSet(statOnBus, STAT_MODE_0_HBLANK_IE))
    || (s.mode == VBlank && BitSet(statOnBus, STAT_MODE_1_VBLANK_IE))
    || (s.mode == OamScan && BitSet(statOnBus, STAT_MODE_2_OAM_IE))
  }

  /** `request_interrupt`: IF read and written back with the bit, through
      `write_byte`. */
  function LegacyRequest(m: BusState, bit: nat): (r: BusState)
    requires Sized(m) && bit < 8
    ensures Sized(r)
  {
    WriteKeepsSized(m, IF_ADDR, ReadByte(m, IF_ADDR) | BitMask(bit));
    WriteByte(m, IF_ADDR, ReadByte(m, IF_ADDR) | BitMask(bit))
  }

  /** The interrupt part: STAT is requested when the request line rises,
      then VBlank when signalled; the line is remembered and the signal
      cleared. */
  function LegacyInterrupts(s: LegacyState, statOnBus: bv8, m: BusState): (r: LegacySignalled)
    requires Sized(m)
    ensures Sized(r.bus)
    ensures r.state == s.(statLine := LegacyStatRequest(statOnBus, s), vblankJustOccurred := false)
  {
    var request := LegacyStatRequest(statOnBus, s);
    var afterStat := if request && !s.statLine then LegacyRequest(m, LCD_STAT_INTERRUPT_BIT) else m;
    var afterVBlank := if s.vblankJustOccurred then LegacyRequest(afterStat, VBLANK_INTERRUPT_BIT) else afterStat;
    LegacySignalled(s.(statLine := request, vblankJustOccurred := false), afterVBlank)
  }

  /** The part of an LCD-on step after the timing: LYC, STAT written, then
      the interrupts; STAT is read once, before it is written. */
  function LegacySignal(t: LegacyState, m: BusState): (r: LegacySignalled)
    requires Sized(m)
    ensures Sized(r.bus)
  {
    var checked := LegacyCheckLyc(t, m);
    var statOnBus := ReadByte(m, STAT_ADDR);
    var statToWrite := LegacyStatValue(statOnBus, checked);
    WriteKeepsSized(m, STAT_ADDR, statToWrite);
    LegacyInterrupts(checked, statOnBus, WriteByte(m, STAT_ADDR, statToWrite))
  }

  // ---------------------------------------------------------------- the step

  /** `Ppu::step` of core/src/ppu.rs with `cycles` T-cycles. */
  function LegacyStep(s: LegacyState, frame: seq<bv8>, m: BusState, cycles: nat): (r: LegacyOutcome)
    requires Sized(m) && |frame| == FRAME_BUFFER_SIZE
    ensures Sized(r.bus) && |r.frame| == FRAME_BUFFER_SIZE
  {
    var c := s.(lcdc := ReadByte(m, LCDC_ADDR));
    if !PpuSpec.LcdEnabled(c.lcdc) then
      var off := LegacyLcdOff(c, m);
      LegacyOutcome(off.state, frame, off.bus)
    else
      var t := LegacyTimed(c, cycles);
      var signalled := LegacySignal(t, LegacyTimedBus(c, t, cycles, m));
      LegacyOutcome(signalled.state, LegacyTimedFrame(c, cycles, frame, m), signalled.bus)
  }
}
