// The scanline compositor of core/src/ppu/render.rs as functions of the
// bus contents: palette lookup, tile addressing, the background, window and
// sprite pixel fetches, the choice of up to ten sprites per line and their
// ordering, the sprite/background priority rule, and the colour of every
// pixel of a line. Byte-sized values stay `bv8`, so Rust's `wrapping_add`
// and `wrapping_sub` on u8 are plain bit-vector arithmetic.
module RenderSpec {
  import opened Bits
  import opened MemoryMap
  import opened BusSpec
  import opened PpuConstants
  import opened PpuStates

  datatype Option<T> = None | Some(value: T)

  // ---------------------------------------------------------------- pixels of a tile row

  /** `(b >> n) & 1`. */
  function BitValue(b: bv8, n: bv8): (r: bv8)
    requires n < 8
    ensures r < 2
  {
    (b >> n) & 1
  }

  /** `(bit2 << 1) | bit1`: the 2-bit index of a pixel, its low bit from the
      first byte of the tile row and its high bit from the second. */
  function PixelIndex(lo: bv8, hi: bv8, col: bv8): (r: bv8)
    requires col < 8
    ensures r < 4
    ensures r & 1 == BitValue(lo, col) && r >> 1 == BitValue(hi, col)
  {
    (BitValue(hi, col) << 1) | BitValue(lo, col)
  }

  /** `get_color_from_palette`: the two bits of the palette register that
      the pixel index selects. */
  function ColorFromPalette(index: bv8, palette: bv8): (r: bv8)
    requires index < 4
    ensures r < 4
  {
    (palette >> (index * 2)) & 3
  }

  /** `calculate_tile_data_addr`: with LCDC bit 4 set the tile number counts
      up from 8000, otherwise it is a signed offset from 9000. */
  function TileDataAddr(tileId: bv8, lcdc: bv8): (r: Addr)
    ensures BitSet(lcdc, LCDC_TILE_DATA_AREA) ==> r == 0x8000 + 16 * tileId as int && 0x8000 <= r <= 0x8FF0
    ensures !BitSet(lcdc, LCDC_TILE_DATA_AREA) ==> r == 0x9000 + 16 * SignedValue(tileId) && 0x8800 <= r <= 0x97F0
  {
    if !BitSet(lcdc, LCDC_TILE_DATA_AREA) then
      (0x9000 + (SignedValue(tileId) * 16) % 0x10000) % 0x10000
    else
      0x8000 + tileId as int * 16
  }

  /** The bounds check of `get_tile_row_pixel_index`: the row or the byte
      after it lies outside 8000-9FFF. */
  predicate OutsideVram(rowAddr: Addr)
  {
    rowAddr < VRAM_START || (rowAddr + 1) % 0x10000 > VRAM_END
  }

  /** `get_tile_row_pixel_index`: pixel `col` of the tile row at `rowAddr`,
      counting from bit 0, or 0 when the row is outside video RAM. */
  function TileRowPixelIndex(m: BusState, rowAddr: Addr, col: bv8): (r: bv8)
    requires Sized(m) && col < 8
    ensures r < 4
    ensures OutsideVram(rowAddr) ==> r == 0
  {
    if OutsideVram(rowAddr) then 0
    else PixelIndex(ReadByte(m, rowAddr), ReadByte(m, (rowAddr + 1) % 0x10000), col)
  }

  // ---------------------------------------------------------------- background and window

  /** The tile map LCDC bit `bit` selects: 9800 or 9C00. */
  function MapBase(lcdc: bv8, bit: nat): (r: Addr)
    requires bit < 8
    ensures r == 0x9800 || r == 0x9C00
  {
    if !BitSet(lcdc, bit) then 0x9800 else 0x9C00
  }

  /** The address of the tile row holding pixel (`px`, `py`) of a 256x256
      layer through the tile map at `base`: always inside the tile data. */
  function LayerRowAddr(m: BusState, base: Addr, px: bv8, py: bv8, lcdc: bv8): (r: Addr)
    requires Sized(m) && (base == 0x9800 || base == 0x9C00)
    ensures 0x8000 <= r <= 0x97FE
  {
    var tileIdAddr := base + (py / 8) as int * 32 + (px / 8) as int;
    var tileId := ReadByte(m, tileIdAddr);
    TileDataAddr(tileId, lcdc) + (py % 8) as int * 2
  }

  /** `fetch_bg_pixel_index`: the screen pixel scrolled by SCX/SCY, wrapping
      around the 256x256 map; bit 7 of a tile row is its leftmost pixel. */
  function BgPixelIndex(m: BusState, x: bv8, y: bv8, scx: bv8, scy: bv8, lcdc: bv8): (r: bv8)
    requires Sized(m)
    ensures r < 4
  {
    var mapX := x + scx;
    var mapY := y + scy;
    var rowAddr := LayerRowAddr(m, MapBase(lcdc, LCDC_BG_MAP_AREA), mapX, mapY, lcdc);
    TileRowPixelIndex(m, rowAddr, 7 - mapX % 8)
  }

  /** `wx.saturating_sub(7)`: the screen column where the window starts. */
  function WindowLeft(wx: bv8): bv8
  {
    if wx >= 7 then wx - 7 else 0
  }

  /** The window covers a pixel iff it is enabled (LCDC bit 5), the line is
      at or below WY and the column at or right of WX - 7. */
  predicate WindowCovers(lcdc: bv8, x: bv8, y: bv8, wx: bv8, wy: bv8)
  {
    BitSet(lcdc, LCDC_WINDOW_ENABLE) && y >= wy && x >= WindowLeft(wx)
  }

  /** `fetch_window_pixel_index`: the pixel relative to the window's top
      left corner, through the window's tile map. */
  function WindowPixelIndex(m: BusState, x: bv8, y: bv8, wx: bv8, wy: bv8, lcdc: bv8): (r: bv8)
    requires Sized(m) && y >= wy && x >= WindowLeft(wx)
    ensures r < 4
  {
    var winX := x - WindowLeft(wx);
    var winY := y - wy;
    var rowAddr := LayerRowAddr(m, MapBase(lcdc, LCDC_WINDOW_MAP_AREA), winX, winY, lcdc);
    TileRowPixelIndex(m, rowAddr, 7 - winX % 8)
  }

  /** The registers `render_scanline` reads once per line. */
  datatype LineRegs = LineRegs(scy: bv8, scx: bv8, wy: bv8, wx: bv8, bgp: bv8)

  function ReadLineRegs(m: BusState): LineRegs
    requires Sized(m)
  {
    LineRegs(ReadByte(m, SCY_ADDR), ReadByte(m, SCX_ADDR), ReadByte(m, WY_ADDR),
      ReadByte(m, WX_ADDR), ReadByte(m, BGP_ADDR))
  }

  /** The background/window index of a pixel: 0 when LCDC bit 0 is clear,
      the window's where it covers the pixel, the background's elsewhere. */
  function BgWinIndex(m: BusState, lcdc: bv8, regs: LineRegs, x: bv8, y: bv8): (r: bv8)
    requires Sized(m)
    ensures r < 4
    ensures !BitSet(lcdc, LCDC_BG_WIN_ENABLE_PRIORITY) ==> r == 0
  {
    if !BitSet(lcdc, LCDC_BG_WIN_ENABLE_PRIORITY) then 0
    else if WindowCovers(lcdc, x, y, regs.wx, regs.wy) then WindowPixelIndex(m, x, y, regs.wx, regs.wy, lcdc)
    else BgPixelIndex(m, x, y, regs.scx, regs.scy, lcdc)
  }

  // ---------------------------------------------------------------- sprites

  /** `SpriteInfo`: an OAM entry with its attributes decoded. */
  datatype SpriteInfo = SpriteInfo(
    oamIndex: nat, y: bv8, x: bv8, tile: bv8, attributes: bv8,
    height: bv8, palette: bv8, xFlip: bool, yFlip: bool, bgPriority: bool)

  /** 16 lines per sprite when LCDC bit 2 is set, otherwise 8. */
  function SpriteHeight(lcdc: bv8): (h: bv8)
    ensures h == 8 || h == 16
  {
    if BitSet(lcdc, LCDC_OBJ_SIZE) then 16 else 8
  }

  /** The address of byte `k` of OAM entry `i`. */
  function OamAddr(i: nat, k: nat): (r: Addr)
    requires i < 40 && k < 4
    ensures OAM_START <= r <= OAM_END
  {
    OAM_START + i * 4 + k
  }

  /** Byte `k` of OAM entry `i`, as the bus reads it. */
  function OamByte(m: BusState, i: nat, k: nat): bv8
    requires Sized(m) && i < 40 && k < 4
  {
    m.oam[i * 4 + k]
  }

  /** OAM lies in a plain memory region of the bus. */
  lemma OamByteIsRead(m: BusState, i: nat, k: nat)
    requires Sized(m) && i < 40 && k < 4
    ensures OamByte(m, i, k) == ReadByte(m, OamAddr(i, k))
  {
    assert OamAddr(i, k) - OAM_START == i * 4 + k;
  }

  /** The position filter of `fetch_scanline_sprites`: X in 1..167 and Y in
      1..159. */
  predicate OnScreen(spriteY: bv8, spriteX: bv8)
  {
    !(spriteX == 0 || spriteX >= 168) && !(spriteY == 0 || spriteY >= 160)
  }

  /** The sprite whose OAM Y is `spriteY` (its top at `spriteY - 16`,
      wrapping) covers `line`. */
  predicate CoversLine(line: bv8, spriteY: bv8, height: bv8)
  {
    var top := spriteY - 16;
    line >= top && line < top + height
  }

  /** OAM entry `i` passes the position filter and covers the line. */
  predicate Visible(m: BusState, line: bv8, height: bv8, i: nat)
    requires Sized(m) && i < 40
  {
    var spriteY := OamByte(m, i, 0);
    OnScreen(spriteY, OamByte(m, i, 1)) && CoversLine(line, spriteY, height)
  }

  /** The `SpriteInfo` of OAM entry `i`: attribute bit 4 picks OBP0 or OBP1,
      bit 5 flips horizontally, bit 6 vertically, bit 7 puts the sprite
      behind background colours 1-3. */
  function SpriteAt(m: BusState, height: bv8, obp0: bv8, obp1: bv8, i: nat): (sp: SpriteInfo)
    requires Sized(m) && i < 40
    ensures sp.oamIndex == i && sp.y == OamByte(m, i, 0) && sp.x == OamByte(m, i, 1)
    ensures sp.height == height
  {
    var attributes := OamByte(m, i, 3);
    SpriteInfo(i, OamByte(m, i, 0), OamByte(m, i, 1), OamByte(m, i, 2),
      attributes, height,
      if (attributes >> OAM_PALETTE_NUM_DMG) & 1 == 0 then obp0 else obp1,
      BitSet(attributes, OAM_X_FLIP), BitSet(attributes, OAM_Y_FLIP), BitSet(attributes, OAM_BG_WIN_PRIORITY))
  }

  /** The first `k` visible entries among OAM entries `i`..39, in OAM order. */
  function FirstVisible(m: BusState, line: bv8, height: bv8, obp0: bv8, obp1: bv8, i: nat, k: nat): (r: seq<SpriteInfo>)
    requires Sized(m) && i <= 40
    ensures |r| <= k
    decreases 40 - i
  {
    if i == 40 || k == 0 then []
    else if Visible(m, line, height, i) then [SpriteAt(m, height, obp0, obp1, i)] + FirstVisible(m, line, height, obp0, obp1, i + 1, k - 1)
    else FirstVisible(m, line, height, obp0, obp1, i + 1, k)
  }

  /** Entries of a scan from OAM entry `lo`: visible entries at `lo` or
      later, each decoded from its own entry, in increasing OAM order. */
  predicate ScannedEntries(m: BusState, line: bv8, height: bv8, obp0: bv8, obp1: bv8, lo: nat, r: seq<SpriteInfo>)
    requires Sized(m)
  {
    (forall j :: 0 <= j < |r| ==> lo <= r[j].oamIndex < 40 && Visible(m, line, height, r[j].oamIndex))
    && (forall j :: 0 <= j < |r| ==> r[j] == SpriteAt(m, height, obp0, obp1, r[j].oamIndex))
    && (forall j, j' :: 0 <= j < j' < |r| ==> r[j].oamIndex < r[j'].oamIndex)
  }

  /** The scan keeps only visible entries, decoded, in increasing OAM
      order. */
  lemma {:induction false} FirstVisibleEntries(m: BusState, line: bv8, height: bv8, obp0: bv8, obp1: bv8, i: nat, k: nat)
    requires Sized(m) && i <= 40
    ensures ScannedEntries(m, line, height, obp0, obp1, i, FirstVisible(m, line, height, obp0, obp1, i, k))
    decreases 40 - i
  {
    if i == 40 || k == 0 {
    } else if Visible(m, line, height, i) {
      FirstVisibleEntries(m, line, height, obp0, obp1, i + 1, k - 1);
      var rest := FirstVisible(m, line, height, obp0, obp1, i + 1, k - 1);
      VisibleEntryFirst(m, line, height, obp0, obp1, i, rest);
      assert FirstVisible(m, line, height, obp0, obp1, i, k) == [SpriteAt(m, height, obp0, obp1, i)] + rest;
    } else {
      FirstVisibleEntries(m, line, height, obp0, obp1, i + 1, k);
      FirstVisibleSkips(m, line, height, obp0, obp1, i, k);
      ScanFromLater(m, line, height, obp0, obp1, i, FirstVisible(m, line, height, obp0, obp1, i + 1, k));
    }
  }

  /** Entries of a scan from `lo + 1` are entries of a scan from `lo`. */
  lemma ScanFromLater(m: BusState, line: bv8, height: bv8, obp0: bv8, obp1: bv8, lo: nat, r: seq<SpriteInfo>)
    requires Sized(m) && ScannedEntries(m, line, height, obp0, obp1, lo + 1, r)
    ensures ScannedEntries(m, line, height, obp0, obp1, lo, r)
  {
  }

  /** A visible entry put in front of the later entries' scan keeps the
      scan's three properties. */
  lemma VisibleEntryFirst(m: BusState, line: bv8, height: bv8, obp0: bv8, obp1: bv8, i: nat, rest: seq<SpriteInfo>)
    requires Sized(m) && i < 40 && Visible(m, line, height, i)
    requires ScannedEntries(m, line, height, obp0, obp1, i + 1, rest)
    ensures ScannedEntries(m, line, height, obp0, obp1, i, [SpriteAt(m, height, obp0, obp1, i)] + rest)
  {
    var r := [SpriteAt(m, height, obp0, obp1, i)] + rest;
    forall j | 1 <= j < |r|
      ensures r[j] == rest[j - 1]
    {
    }
  }

  lemma FirstVisibleSkips(m: BusState, line: bv8, height: bv8, obp0: bv8, obp1: bv8, i: nat, k: nat)
    requires Sized(m) && i < 40 && k > 0 && !Visible(m, line, height, i)
    ensures FirstVisible(m, line, height, obp0, obp1, i, k) == FirstVisible(m, line, height, obp0, obp1, i + 1, k)
  {
  }

  /** The number of visible entries among OAM entries `i`..39. */
  function VisibleFrom(m: BusState, line: bv8, height: bv8, i: nat): (n: nat)
    requires Sized(m) && i <= 40
    ensures n <= 40 - i
    decreases 40 - i
  {
    if i == 40 then 0
    else (if Visible(m, line, height, i) then 1 else 0) + VisibleFrom(m, line, height, i + 1)
  }

  /** The scan keeps as many entries as there are visible ones, up to the
      cap. */
  lemma {:induction false} FirstVisibleLength(m: BusState, line: bv8, height: bv8, obp0: bv8, obp1: bv8, i: nat, k: nat)
    requires Sized(m) && i <= 40
    ensures var n := VisibleFrom(m, line, height, i);
      |FirstVisible(m, line, height, obp0, obp1, i, k)| == if n < k then n else k
    decreases 40 - i
  {
    if i == 40 || k == 0 {
    } else if Visible(m, line, height, i) {
      FirstVisibleLength(m, line, height, obp0, obp1, i + 1, k - 1);
      assert VisibleFrom(m, line, height, i) == 1 + VisibleFrom(m, line, height, i + 1);
      assert |FirstVisible(m, line, height, obp0, obp1, i, k)| == 1 + |FirstVisible(m, line, height, obp0, obp1, i + 1, k - 1)|;
    } else {
      FirstVisibleSkips(m, line, height, obp0, obp1, i, k);
      FirstVisibleLength(m, line, height, obp0, obp1, i + 1, k);
    }
  }

  /** The scan drops no visible entry while it has room: when it keeps
      fewer than `k` entries, every visible entry from `i` on is kept. */
  lemma {:induction false} FirstVisibleComplete(m: BusState, line: bv8, height: bv8, obp0: bv8, obp1: bv8, i: nat, k: nat, j: nat)
    requires Sized(m) && i <= j < 40 && Visible(m, line, height, j)
    requires |FirstVisible(m, line, height, obp0, obp1, i, k)| < k
    ensures SpriteAt(m, height, obp0, obp1, j) in FirstVisible(m, line, height, obp0, obp1, i, k)
    decreases 40 - i
  {
    var r := FirstVisible(m, line, height, obp0, obp1, i, k);
    if Visible(m, line, height, i) {
      var rest := FirstVisible(m, line, height, obp0, obp1, i + 1, k - 1);
      assert r == [SpriteAt(m, height, obp0, obp1, i)] + rest;
      if j > i {
        FirstVisibleComplete(m, line, height, obp0, obp1, i + 1, k - 1, j);
        assert SpriteAt(m, height, obp0, obp1, j) in rest;
      }
    } else {
      FirstVisibleSkips(m, line, height, obp0, obp1, i, k);
      FirstVisibleComplete(m, line, height, obp0, obp1, i + 1, k, j);
    }
  }

  /** The rendering order: by X, then by OAM index (the comparator of
      `sort_unstable_by`). */
  predicate Precedes(a: SpriteInfo, b: SpriteInfo)
  {
    a.x as int < b.x as int || (a.x as int == b.x as int && a.oamIndex <= b.oamIndex)
  }

  predicate SortedByPosition(s: seq<SpriteInfo>)
  {
    forall i, j :: 0 <= i < j < |s| ==> Precedes(s[i], s[j])
  }

  /** Insertion of one sprite into a sorted list. */
  function Insert(sp: SpriteInfo, s: seq<SpriteInfo>): (r: seq<SpriteInfo>)
    ensures multiset(r) == multiset(s) + multiset{sp}
    ensures SortedByPosition(s) ==> SortedByPosition(r)
  {
    if |s| == 0 then [sp]
    else if Precedes(sp, s[0]) then
      assert SortedByPosition(s) ==> SortedByPosition([sp] + s) by {
        if SortedByPosition(s) { InsertAtFront(sp, s); }
      }
      [sp] + s
    else
      var rest := Insert(sp, s[1..]);
      assert s == [s[0]] + s[1..];
      assert SortedByPosition(s) ==> SortedByPosition([s[0]] + rest) by {
        if SortedByPosition(s) { InsertAfterHead(sp, s, rest); }
      }
      [s[0]] + rest
  }

  lemma InsertAtFront(sp: SpriteInfo, s: seq<SpriteInfo>)
    requires |s| > 0 && SortedByPosition(s) && Precedes(sp, s[0])
    ensures SortedByPosition([sp] + s)
  {
    var r := [sp] + s;
    forall i, j | 0 <= i < j < |r|
      ensures Precedes(r[i], r[j])
    {
      if i == 0 && j > 1 {
        PrecedesTransitive(sp, s[0], s[j - 1]);
      }
    }
  }

  lemma InsertAfterHead(sp: SpriteInfo, s: seq<SpriteInfo>, rest: seq<SpriteInfo>)
    requires |s| > 0 && SortedByPosition(s) && !Precedes(sp, s[0])
    requires SortedByPosition(rest) && multiset(rest) == multiset(s[1..]) + multiset{sp}
    ensures SortedByPosition([s[0]] + rest)
  {
    var r := [s[0]] + rest;
    forall j | 0 < j < |r|
      ensures Precedes(s[0], r[j])
    {
      assert r[j] in multiset(rest);
      if r[j] == sp {
      } else {
        assert r[j] in multiset(s[1..]);
        var k :| 0 <= k < |s[1..]| && s[1..][k] == r[j];
        assert s[k + 1] == r[j];
      }
    }
  }

  lemma PrecedesTransitive(a: SpriteInfo, b: SpriteInfo, c: SpriteInfo)
    requires Precedes(a, b) && Precedes(b, c)
    ensures Precedes(a, c)
  {
  }

  /** `sort_unstable_by` with the rendering order, as an insertion sort: the
      result is sorted and a permutation of the input. */
  function SortByPosition(s: seq<SpriteInfo>): (r: seq<SpriteInfo>)
    ensures SortedByPosition(r)
    ensures multiset(r) == multiset(s) && |r| == |s|
  {
    if |s| == 0 then []
    else
      assert s == [s[0]] + s[1..];
      Insert(s[0], SortByPosition(s[1..]))
  }

  /** `fetch_scanline_sprites`: up to ten sprites covering the line, the
      first ones in OAM order, sorted by X and OAM index. */
  function ScanlineSprites(m: BusState, st: PpuState): (r: seq<SpriteInfo>)
    requires Sized(m)
    ensures |r| <= 10 && SortedByPosition(r)
  {
    var height := SpriteHeight(st.lcdc);
    SortByPosition(FirstVisible(m, LineByte(st.line), height, ReadByte(m, OBP0_ADDR), ReadByte(m, OBP1_ADDR), 0, 10))
  }

  /** The line's sprites are the first ten visible entries: as many as
      there are visible entries, at most ten. */
  lemma ScanlineSpritesCount(m: BusState, st: PpuState)
    requires Sized(m)
    ensures var n := VisibleFrom(m, LineByte(st.line), SpriteHeight(st.lcdc), 0);
      |ScanlineSprites(m, st)| == if n < 10 then n else 10
  {
    FirstVisibleLength(m, LineByte(st.line), SpriteHeight(st.lcdc), ReadByte(m, OBP0_ADDR), ReadByte(m, OBP1_ADDR), 0, 10);
  }

  /** Every sprite of the line is a visible OAM entry as read, and while
      fewer than ten are found every visible entry is among them. */
  lemma ScanlineSpritesExact(m: BusState, st: PpuState, j: nat)
    requires Sized(m) && j < 40
    ensures var height := SpriteHeight(st.lcdc);
      forall sp :: sp in ScanlineSprites(m, st) ==>
        sp.oamIndex < 40 && Visible(m, LineByte(st.line), height, sp.oamIndex)
        && sp == SpriteAt(m, height, ReadByte(m, OBP0_ADDR), ReadByte(m, OBP1_ADDR), sp.oamIndex)
    ensures var height := SpriteHeight(st.lcdc);
      |ScanlineSprites(m, st)| < 10 && Visible(m, LineByte(st.line), height, j) ==>
        SpriteAt(m, height, ReadByte(m, OBP0_ADDR), ReadByte(m, OBP1_ADDR), j) in ScanlineSprites(m, st)
  {
    var line, height := LineByte(st.line), SpriteHeight(st.lcdc);
    var obp0, obp1 := ReadByte(m, OBP0_ADDR), ReadByte(m, OBP1_ADDR);
    var found := FirstVisible(m, line, height, obp0, obp1, 0, 10);
    var r := ScanlineSprites(m, st);
    assert r == SortByPosition(found);
    FirstVisibleEntries(m, line, height, obp0, obp1, 0, 10);
    forall sp | sp in r
      ensures sp.oamIndex < 40 && Visible(m, line, height, sp.oamIndex) && sp == SpriteAt(m, height, obp0, obp1, sp.oamIndex)
    {
      assert sp in multiset(r);
      assert sp in found;
    }
    if |r| < 10 && Visible(m, line, height, j) {
      FirstVisibleComplete(m, line, height, obp0, obp1, 0, 10, j);
      assert SpriteAt(m, height, obp0, obp1, j) in multiset(found);
    }
  }

  /** The sprite spans screen column `x`: its left edge is X - 8, wrapping. */
  predicate CoversColumn(sp: SpriteInfo, x: bv8)
  {
    var left := sp.x - 8;
    x >= left && x < left + 8
  }

  /** Because the left edge wraps, a sprite covers some column iff its
      OAM X is at least 8: with X in 1..7 the left edge wraps to 249..255
      and the right edge to 1..7, so no column lies between them, and the
      sprite is never drawn by either renderer. */
  lemma CoversSomeColumn(sp: SpriteInfo)
    ensures (exists x :: CoversColumn(sp, x)) <==> sp.x >= 8
  {
    if sp.x >= 8 {
      assert CoversColumn(sp, sp.x - 8);
    }
  }

  /** The column within the tile row, mirrored by the X-flip bit. Without
      the flip, the leftmost screen pixel of the sprite is column 0, which
      `TileRowPixelIndex` reads from bit 0: the rightmost pixel of the tile
      as the background reads it. */
  function SpriteColumn(sp: SpriteInfo, x: bv8): (col: bv8)
    requires CoversColumn(sp, x)
    ensures col < 8
  {
    var left := sp.x - 8;
    if sp.xFlip then 7 - (x - left) else x - left
  }

  /** The tile and row within it that line `ly` of the sprite shows: the
      row is mirrored across the whole sprite height by the Y-flip bit, and
      an 8x16 sprite takes its top half from `tile & 0xFE` and its bottom
      half from `tile | 1`. The subtractions wrap as u8, as in a release
      build; a debug build panics where they would go below zero. */
  function SpriteTileRow(sp: SpriteInfo, ly: bv8): (r: (bv8, bv8))
    ensures r.1 < 8
  {
    var rowInSprite := ly - (sp.y - 16);
    var row := if sp.yFlip then (sp.height - 1) - rowInSprite else rowInSprite;
    var tile := if sp.height == 16 then (if row < 8 then sp.tile & 0xFE else sp.tile | 0x01) else sp.tile;
    (tile, row % 8)
  }

  /** `get_sprite_tile_pixel_index`: the sprite's pixel in column `col` of
      the line the LY register names, from the 8000 tile area. */
  function SpritePixelIndex(m: BusState, sp: SpriteInfo, col: bv8): (r: bv8)
    requires Sized(m) && col < 8
    ensures r < 4
  {
    var (tile, rowInTile) := SpriteTileRow(sp, ReadByte(m, LY_ADDR));
    TileRowPixelIndex(m, VRAM_START + tile as int * 16 + rowInTile as int * 2, col)
  }

  /** The sprite covers column `x` with a non-transparent pixel. */
  predicate OpaqueAt(m: BusState, sp: SpriteInfo, x: bv8)
    requires Sized(m)
  {
    CoversColumn(sp, x) && SpritePixelIndex(m, sp, SpriteColumn(sp, x)) != 0
  }

  /** The `render_scanline` search over a list, on the flags "opaque at
      this column" and the X keys: the best key starts at 255 and a later
      entry replaces the best only with a strictly smaller key, so the
      winner is the first entry holding the least key below 255. */
  function LeastOpaque(shown: seq<bool>, keys: seq<int>): (w: Option<nat>)
    requires |shown| == |keys|
    ensures w.Some? ==> w.value < |keys| && shown[w.value] && keys[w.value] < 255
    ensures w.Some? ==> forall j :: 0 <= j < |keys| && shown[j] && keys[j] < 255 ==>
      keys[w.value] < keys[j] || (keys[w.value] == keys[j] && w.value <= j)
    ensures w.None? ==> forall j :: 0 <= j < |keys| ==> !(shown[j] && keys[j] < 255)
    decreases |keys|
  {
    if |keys| == 0 then None
    else
      var k := |keys| - 1;
      var w := LeastOpaque(shown[..k], keys[..k]);
      var best := if w.None? then 255 else keys[w.value];
      if shown[k] && keys[k] < best then Some(k) else w
  }

  /** A sprite that can win column `x`: an opaque pixel there, and X below
      the initial best of 255. */
  predicate Candidate(m: BusState, sp: SpriteInfo, x: bv8)
    requires Sized(m)
  {
    OpaqueAt(m, sp, x) && sp.x as int < 255
  }

  /** The sprite that wins column `x` among the list: of the candidates,
      the one with the least X, the earliest in the list among equal X. */
  function Winner(m: BusState, s: seq<SpriteInfo>, x: bv8): (w: Option<nat>)
    requires Sized(m)
    ensures w.Some? ==> w.value < |s| && Candidate(m, s[w.value], x)
    ensures w.Some? ==> forall j :: 0 <= j < |s| && Candidate(m, s[j], x) ==>
      s[w.value].x as int < s[j].x as int || (s[w.value].x as int == s[j].x as int && w.value <= j)
    ensures w.None? ==> forall j :: 0 <= j < |s| ==> !Candidate(m, s[j], x)
  {
    var shown := OpaqueFlags(m, s, x);
    var keys := Keys(s);
    LeastOpaque(shown, keys)
  }

  function OpaqueFlags(m: BusState, s: seq<SpriteInfo>, x: bv8): (r: seq<bool>)
    requires Sized(m)
    ensures |r| == |s| && forall j :: 0 <= j < |s| ==> r[j] == OpaqueAt(m, s[j], x)
  {
    seq(|s|, (j: int) requires 0 <= j < |s| => OpaqueAt(m, s[j], x))
  }

  function Keys(s: seq<SpriteInfo>): (r: seq<int>)
    ensures |r| == |s| && forall j :: 0 <= j < |s| ==> r[j] == s[j].x as int
  {
    seq(|s|, (j: int) requires 0 <= j < |s| => s[j].x as int)
  }

  /** The shade of screen pixel `x` of line `y`: the background/window
      colour through BGP, replaced by the winning sprite's colour through
      its palette when sprites are enabled (LCDC bit 1) and the sprite
      wins the priority rule. */
  function PixelShade(m: BusState, lcdc: bv8, regs: LineRegs, sprites: seq<SpriteInfo>, x: bv8, y: bv8): (r: bv8)
    requires Sized(m)
    ensures r < 4
  {
    var bgIndex := BgWinIndex(m, lcdc, regs, x, y);
    var color := ColorFromPalette(bgIndex, regs.bgp);
    if !BitSet(lcdc, LCDC_OBJ_ENABLE) then color
    else
      var w := Winner(m, sprites, x);
      if w.None? then color
      else
        var sp := sprites[w.value];
        if SpriteWins(lcdc, sp, bgIndex) then
          ColorFromPalette(SpritePixelIndex(m, sp, SpriteColumn(sp, x)), sp.palette)
        else color
  }

  /** The priority rule: a sprite pixel is drawn iff the background/window
      layer is disabled, the sprite's priority bit is clear, or the
      background/window index is 0. */
  predicate SpriteWins(lcdc: bv8, sp: SpriteInfo, bgIndex: bv8)
  {
    !BitSet(lcdc, LCDC_BG_WIN_ENABLE_PRIORITY) || !sp.bgPriority || bgIndex == 0
  }

  /** The 160 shades of line `y`. */
  function LineShades(m: BusState, lcdc: bv8, regs: LineRegs, sprites: seq<SpriteInfo>, y: bv8): (r: seq<bv8>)
    requires Sized(m)
    ensures |r| == GB_WIDTH
    ensures forall i :: 0 <= i < |r| ==> r[i] < 4
  {
    seq(GB_WIDTH, (i: int) requires 0 <= i < GB_WIDTH => PixelShade(m, lcdc, regs, sprites, i as bv8, y))
  }

  /** `line` written over the entries of `frame` from `start`. */
  function Splice(frame: seq<bv8>, start: nat, line: seq<bv8>): (r: seq<bv8>)
    requires start + |line| <= |frame|
    ensures |r| == |frame|
    ensures forall i :: 0 <= i < |frame| ==> r[i] == if start <= i < start + |line| then line[i - start] else frame[i]
  {
    frame[..start] + line + frame[start + |line|..]
  }

  /** What `render_scanline` writes for the current line of `st`: the
      registers and sprites are read once for the line. */
  function RenderedLine(m: BusState, st: PpuState): (r: seq<bv8>)
    requires Sized(m)
    ensures |r| == GB_WIDTH
  {
    LineShades(m, st.lcdc, ReadLineRegs(m), ScanlineSprites(m, st), LineByte(st.line))
  }
}
