// `render_vram_debug` of core/src/ppu/debug.rs: the 384 tiles of video RAM
// drawn as a grid of 16 x 24 tiles into a 128 x 192 buffer, each pixel its
// raw 2-bit colour index.
module VramDebug {
  import opened Bits
  import opened MemoryMap
  import opened BusSpec
  import opened PpuConstants
  import opened RenderSpec
  import opened Bus

  /** The buffer entry of pixel (`x`, `y`) of tile `t`: the tile sits at
      column `t % 16` and row `t / 16` of the grid. */
  function DebugCell(t: nat, y: nat, x: nat): (c: nat)
    requires t < NUM_TILES_TO_SHOW && y < 8 && x < 8
    ensures c < VRAM_DEBUG_BUFFER_SIZE
  {
    ((t / TILES_PER_ROW_DEBUG) * 8 + y) * VRAM_DEBUG_WIDTH + (t % TILES_PER_ROW_DEBUG) * 8 + x
  }

  /** The tile, tile row and tile column that buffer entry `c` shows. */
  function CellTile(c: nat): nat
  {
    (c / VRAM_DEBUG_WIDTH / 8) * TILES_PER_ROW_DEBUG + (c % VRAM_DEBUG_WIDTH) / 8
  }

  function CellRow(c: nat): nat
  {
    (c / VRAM_DEBUG_WIDTH) % 8
  }

  function CellColumn(c: nat): nat
  {
    c % 8
  }

  /** The address of row `y` of tile `t`: the tiles are read in order from
      8000, whatever the addressing mode of LCDC bit 4. */
  function DebugRowAddr(t: nat, y: nat): (a: Addr)
    requires t < NUM_TILES_TO_SHOW && y < 8
    ensures VRAM_START <= a && a + 1 <= VRAM_END
  {
    VRAM_START + t * 16 + y * 2
  }

  /** The colour index of pixel `x` of row `y` of tile `t`: bit 7 - x of the
      row's two bytes, the leftmost pixel in bit 7. */
  function DebugShade(m: BusState, t: nat, y: nat, x: nat): (r: bv8)
    requires Sized(m) && t < NUM_TILES_TO_SHOW && y < 8 && x < 8
    ensures r < 4
  {
    var row := DebugRowAddr(t, y);
    PixelIndex(ReadByte(m, row), ReadByte(m, row + 1), 7 - x as bv8)
  }

  /** The whole debug view of the bus. */
  function DebugView(m: BusState): (r: seq<bv8>)
    requires Sized(m)
    ensures |r| == VRAM_DEBUG_BUFFER_SIZE
    ensures forall c :: 0 <= c < |r| ==> r[c] < 4
  {
    seq(VRAM_DEBUG_BUFFER_SIZE, c requires 0 <= c < VRAM_DEBUG_BUFFER_SIZE =>
      CellBounds(c);
      DebugShade(m, CellTile(c), CellRow(c), CellColumn(c)))
  }

  /** Every buffer entry shows a pixel of one of the 384 tiles. */
  lemma CellBounds(c: nat)
    requires c < VRAM_DEBUG_BUFFER_SIZE
    ensures CellTile(c) < NUM_TILES_TO_SHOW && CellRow(c) < 8 && CellColumn(c) < 8
  {
    assert c / VRAM_DEBUG_WIDTH < VRAM_DEBUG_HEIGHT;
    assert c / VRAM_DEBUG_WIDTH / 8 < VRAM_DEBUG_TILE_HEIGHT;
  }

  /** The grid position of a pixel gives back its tile, row and column. */
  lemma DebugCellDecodes(t: nat, y: nat, x: nat)
    requires t < NUM_TILES_TO_SHOW && y < 8 && x < 8
    ensures var c := DebugCell(t, y, x);
      CellTile(c) == t && CellRow(c) == y && CellColumn(c) == x
  {
    var c := DebugCell(t, y, x);
    var gy, gx := t / TILES_PER_ROW_DEBUG, t % TILES_PER_ROW_DEBUG;
    assert c == (gy * 8 + y) * 128 + (gx * 8 + x);
    assert gx * 8 + x < 128;
    assert c / 128 == gy * 8 + y && c % 128 == gx * 8 + x;
    assert (gy * 8 + y) / 8 == gy && (gy * 8 + y) % 8 == y;
    assert (gx * 8 + x) / 8 == gx;
    assert c % 8 == x;
  }

  /** Every buffer entry is the grid position of the pixel it shows. */
  lemma CellEncodes(c: nat)
    requires c < VRAM_DEBUG_BUFFER_SIZE
    ensures CellTile(c) < NUM_TILES_TO_SHOW && CellRow(c) < 8 && CellColumn(c) < 8
      && DebugCell(CellTile(c), CellRow(c), CellColumn(c)) == c
  {
    CellBounds(c);
    var q, r := c / 128, c % 128;
    assert c == q * 128 + r;
    assert q == (q / 8) * 8 + q % 8;
    assert r == (r / 8) * 8 + r % 8;
    var t := CellTile(c);
    assert t == (q / 8) * 16 + r / 8;
    assert t / 16 == q / 8 && t % 16 == r / 8;
  }

  /** The debug view shows pixel (`x`, `y`) of tile `t` at its grid
      position. */
  lemma DebugViewShowsTile(m: BusState, t: nat, y: nat, x: nat)
    requires Sized(m) && t < NUM_TILES_TO_SHOW && y < 8 && x < 8
    ensures DebugView(m)[DebugCell(t, y, x)] == DebugShade(m, t, y, x)
  {
    DebugCellDecodes(t, y, x);
  }

  /** The fill branch of `render_vram_debug` is never taken: every tile row
      of the view lies inside video RAM. */
  lemma DebugRowsInVram(t: nat, y: nat)
    requires t < NUM_TILES_TO_SHOW && y < 8
    ensures !OutsideVram(DebugRowAddr(t, y))
  {
  }

  /** The debug pixel is the background's reading of the same tile row with
      the column counted from the left. */
  lemma DebugShadeIsTileRow(m: BusState, t: nat, y: nat, x: nat)
    requires Sized(m) && t < NUM_TILES_TO_SHOW && y < 8 && x < 8
    ensures DebugShade(m, t, y, x) == TileRowPixelIndex(m, DebugRowAddr(t, y), 7 - x as bv8)
  {
    DebugRowsInVram(t, y);
  }

  /** `render_vram_debug`: every tile, row by row. */
  method RenderVramDebug(buffer: array<bv8>, bus: MemoryBus)
    requires bus.Valid() && buffer !in bus.Repr() && buffer.Length == VRAM_DEBUG_BUFFER_SIZE
    modifies buffer
    ensures buffer[..] == DebugView(old(bus.State()))
  {
    ghost var m := bus.State();
    var t := 0;
    while t < NUM_TILES_TO_SHOW
      invariant 0 <= t <= NUM_TILES_TO_SHOW && bus.State() == m
      invariant forall c :: 0 <= c < buffer.Length && CellTile(c) < t ==> buffer[c] == DebugView(m)[c]
    {
      DrawTile(buffer, bus, m, t);
      t := t + 1;
    }
    forall c | 0 <= c < buffer.Length
      ensures buffer[c] == DebugView(m)[c]
    {
      CellBounds(c);
    }
  }

  /** The eight rows of tile `t`. */
  method DrawTile(buffer: array<bv8>, bus: MemoryBus, ghost m: BusState, t: nat)
    requires bus.Valid() && bus.State() == m && buffer !in bus.Repr()
    requires buffer.Length == VRAM_DEBUG_BUFFER_SIZE && t < NUM_TILES_TO_SHOW
    modifies buffer
    ensures bus.State() == m
    ensures forall c :: 0 <= c < buffer.Length ==>
      buffer[c] == if CellTile(c) == t then DebugView(m)[c] else old(buffer[c])
  {
    var y := 0;
    while y < 8
      invariant 0 <= y <= 8 && bus.State() == m
      invariant forall c :: 0 <= c < buffer.Length ==>
        buffer[c] == if CellTile(c) == t && CellRow(c) < y then DebugView(m)[c] else old(buffer[c])
    {
      DrawRow(buffer, bus, m, t, y);
      y := y + 1;
    }
  }

  /** Row `y` of tile `t`: its two bytes are read once, then the eight
      pixels written from the left. */
  method DrawRow(buffer: array<bv8>, bus: MemoryBus, ghost m: BusState, t: nat, y: nat)
    requires bus.Valid() && bus.State() == m && buffer !in bus.Repr()
    requires buffer.Length == VRAM_DEBUG_BUFFER_SIZE && t < NUM_TILES_TO_SHOW && y < 8
    modifies buffer
    ensures bus.State() == m
    ensures forall c :: 0 <= c < buffer.Length ==>
      buffer[c] == if CellTile(c) == t && CellRow(c) == y then DebugView(m)[c] else old(buffer[c])
  {
    var row := DebugRowAddr(t, y);
    var lo := bus.ReadByte(row);
    var hi := bus.ReadByte(row + 1);
    var x := 0;
    while x < 8
      invariant 0 <= x <= 8
      invariant forall c :: 0 <= c < buffer.Length ==>
        buffer[c] == if CellTile(c) == t && CellRow(c) == y && CellColumn(c) < x then DebugView(m)[c] else old(buffer[c])
    {
      DebugCellDecodes(t, y, x);
      DebugViewShowsTile(m, t, y, x);
      forall c | 0 <= c < buffer.Length && CellTile(c) == t && CellRow(c) == y && CellColumn(c) == x
        ensures c == DebugCell(t, y, x)
      {
        CellEncodes(c);
      }
      buffer[DebugCell(t, y, x)] := PixelIndex(lo, hi, 7 - x as bv8);
      x := x + 1;
    }
  }
}
