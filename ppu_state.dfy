// `PpuState` of core/src/ppu/state.rs: the timing and mode state of the
// PPU and the LCDC/STAT bytes cached at the start of each step. The
// accessors `mode()` and `scanline()` are the datatype's fields `mode` and
// `line`.
module PpuStates {
  import opened PpuConstants

  /** A `u8` counter. */
  type U8 = x: int | 0 <= x < 0x100

  datatype PpuState = PpuState(
    dots: nat,
    line: U8,
    mode: Mode,
    lycEqLy: bool,
    statLine: bool,
    vblankJustOccurred: bool,
    lcdc: bv8,
    stat: bv8)

  /** `PpuState::new`: line 0 in OAM scan, the flags clear, and the
      post-boot LCDC and STAT bytes. */
  function NewState(): (s: PpuState)
    ensures Consistent(s) && !s.vblankJustOccurred && !s.statLine
  {
    PpuState(0, 0, OamScan, false, false, false, 0x91, 0x85)
  }

  /** The state the LCD-off branch of `step` leaves alone: line 0, dot 0,
      HBlank. */
  predicate IsReset(s: PpuState)
  {
    s.dots == 0 && s.line == 0 && s.mode == HBlank
  }

  /** The scanline as the byte LY holds. */
  function LineByte(line: U8): bv8
  {
    line as bv8
  }

  /** The invariant the step keeps: the line is one of the 154 of a frame,
      and it is a VBlank line exactly when the mode is VBlank. */
  predicate Consistent(s: PpuState)
  {
    s.line < 154 && (s.mode == VBlank <==> s.line >= 144)
  }

  /** `reset_for_lcd_off`: back to line 0, dot 0 and HBlank with the
      coincidence flag and the STAT line low; the cached LCDC and STAT
      and the VBlank signal are kept. */
  function ResetForLcdOff(s: PpuState): (r: PpuState)
    ensures IsReset(r) && Consistent(r) && !r.lycEqLy && !r.statLine
    ensures r.lcdc == s.lcdc && r.stat == s.stat && r.vblankJustOccurred == s.vblankJustOccurred
  {
    s.(dots := 0, line := 0, mode := HBlank, lycEqLy := false, statLine := false)
  }
}
