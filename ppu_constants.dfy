// The screen, timing, mode and bit-position constants of the PPU
// (core/src/ppu/constants.rs), and the PPU modes as a datatype.
module PpuConstants {

  const GB_WIDTH: nat := 160
  const GB_HEIGHT: nat := 144
  const FRAME_BUFFER_SIZE: nat := GB_WIDTH * GB_HEIGHT

  const TILES_PER_ROW_DEBUG: nat := 16
  /** The 256 tiles at 8000-8FFF and the 128 at 9000-97FF. */
  const NUM_TILES_TO_SHOW: nat := 384
  const VRAM_DEBUG_TILE_HEIGHT: nat := NUM_TILES_TO_SHOW / TILES_PER_ROW_DEBUG
  const VRAM_DEBUG_WIDTH: nat := TILES_PER_ROW_DEBUG * 8
  const VRAM_DEBUG_HEIGHT: nat := VRAM_DEBUG_TILE_HEIGHT * 8
  const VRAM_DEBUG_BUFFER_SIZE: nat := VRAM_DEBUG_WIDTH * VRAM_DEBUG_HEIGHT

  /** Timing, in T-cycles ("dots"). */
  const DOTS_PER_SCANLINE: nat := 456
  const SCANLINES_PER_FRAME: nat := 154
  const MODE2_OAM_SCAN_DOTS: nat := 80
  /** The minimum length of mode 3, used as its fixed length. */
  const MODE3_VRAM_READ_DOTS: nat := 172

  /** LCDC bit positions. */
  const LCDC_BG_WIN_ENABLE_PRIORITY: nat := 0
  const LCDC_OBJ_ENABLE: nat := 1
  const LCDC_OBJ_SIZE: nat := 2
  const LCDC_BG_MAP_AREA: nat := 3
  const LCDC_TILE_DATA_AREA: nat := 4
  const LCDC_WINDOW_ENABLE: nat := 5
  const LCDC_WINDOW_MAP_AREA: nat := 6
  const LCDC_LCD_ENABLE: nat := 7

  /** STAT bit positions: the mode in bits 0-1, the coincidence flag, then
      the four interrupt enables. */
  const STAT_LYC_EQ_LY_FLAG: nat := 2
  const STAT_MODE_0_HBLANK_IE: nat := 3
  const STAT_MODE_1_VBLANK_IE: nat := 4
  const STAT_MODE_2_OAM_IE: nat := 5
  const STAT_LYC_EQ_LY_IE: nat := 6

  /** OAM attribute bit positions. */
  const OAM_PALETTE_NUM_DMG: nat := 4
  const OAM_X_FLIP: nat := 5
  const OAM_Y_FLIP: nat := 6
  const OAM_BG_WIN_PRIORITY: nat := 7

  /** The four PPU modes. The source keeps the mode in a `u8` and treats
      any other value as unreachable. */
  datatype Mode = HBlank | VBlank | OamScan | VramRead

  /** The mode's number, as STAT bits 0-1 show it (`HBLANK_MODE` ..
      `VRAM_READ_MODE`). */
  function ModeBits(mode: Mode): (r: bv8)
    ensures r & 0xFC == 0
  {
    match mode
    case HBlank => 0
    case VBlank => 1
    case OamScan => 2
    case VramRead => 3
  }

  /** Distinct modes have distinct STAT bits, so STAT identifies the mode. */
  lemma ModeBitsInjective(m1: Mode, m2: Mode)
    ensures ModeBits(m1) == ModeBits(m2) ==> m1 == m2
  {
    match m1
    case HBlank =>
    case VBlank =>
    case OamScan =>
    case VramRead =>
  }
}
