// The loops of core/src/ppu/render.rs: the OAM scan of
// `fetch_scanline_sprites`, the per-pixel sprite search and the line loop
// of `render_scanline`, each proved against the functions of RenderSpec.
module Render {
  import opened Bits
  import opened MemoryMap
  import opened BusSpec
  import opened PpuConstants
  import opened PpuStates
  import opened RenderSpec
  import opened Bus

  /** `fetch_scanline_sprites`: the palettes and the OAM scan, then the
      sort. */
  method FetchScanlineSprites(st: PpuState, bus: MemoryBus) returns (sprites: seq<SpriteInfo>)
    requires bus.Valid()
    ensures sprites == ScanlineSprites(bus.State(), st)
  {
    var height := SpriteHeight(st.lcdc);
    var obp0 := bus.ReadByte(OBP0_ADDR);
    var obp1 := bus.ReadByte(OBP1_ADDR);
    var visible := ScanOam(bus, LineByte(st.line), height, obp0, obp1);
    sprites := SortByPosition(visible);
  }

  /** The OAM scan of `fetch_scanline_sprites`: the 40 entries in order,
      skipping those off screen and those not on the line, stopping at the
      first visible entry once ten are taken. */
  method ScanOam(bus: MemoryBus, line: bv8, height: bv8, obp0: bv8, obp1: bv8) returns (visible: seq<SpriteInfo>)
    requires bus.Valid()
    ensures visible == FirstVisible(bus.State(), line, height, obp0, obp1, 0, 10)
  {
    ghost var all := FirstVisible(bus.State(), line, height, obp0, obp1, 0, 10);
    visible := [];
    var i := 0;
    while i < 40
      invariant 0 <= i <= 40 && |visible| <= 10
      invariant visible + FirstVisible(bus.State(), line, height, obp0, obp1, i, 10 - |visible|) == all
    {
      var next, full := ScanEntry(bus, line, height, obp0, obp1, i, visible);
      if full {
        break;
      }
      visible := next;
      i := i + 1;
    }
    assert visible == all;
  }

  /** One OAM entry of the scan: a visible entry is taken while fewer than
      ten are, and ends the scan once ten are. */
  method ScanEntry(bus: MemoryBus, line: bv8, height: bv8, obp0: bv8, obp1: bv8, i: nat, visible: seq<SpriteInfo>)
    returns (next: seq<SpriteInfo>, full: bool)
    requires bus.Valid() && i < 40 && |visible| <= 10
    ensures full ==> |visible| == 10
    ensures !full ==>
      |next| <= 10
      && next + FirstVisible(bus.State(), line, height, obp0, obp1, i + 1, 10 - |next|)
        == visible + FirstVisible(bus.State(), line, height, obp0, obp1, i, 10 - |visible|)
  {
    next, full := visible, false;
    var shows := OnLine(bus, line, height, i);
    if shows {
      if |visible| < 10 {
        var sprite := ReadSprite(bus, height, obp0, obp1, i);
        TakeVisible(bus.State(), line, height, obp0, obp1, i, 10 - |visible|, visible);
        next := visible + [sprite];
      } else {
        full := true;
      }
    } else if |visible| < 10 {
      FirstVisibleSkips(bus.State(), line, height, obp0, obp1, i, 10 - |visible|);
    }
  }

  /** The position tests of `fetch_scanline_sprites` on OAM entry `i`. */
  method OnLine(bus: MemoryBus, line: bv8, height: bv8, i: nat) returns (shows: bool)
    requires bus.Valid() && i < 40
    ensures shows == Visible(bus.State(), line, height, i)
  {
    OamByteIsRead(bus.State(), i, 0);
    OamByteIsRead(bus.State(), i, 1);
    var spriteY := bus.ReadByte(OamAddr(i, 0));
    var spriteX := bus.ReadByte(OamAddr(i, 1));
    shows := OnScreen(spriteY, spriteX) && CoversLine(line, spriteY, height);
  }

  /** Taking a visible entry keeps the scan's invariant. */
  lemma TakeVisible(m: BusState, line: bv8, height: bv8, obp0: bv8, obp1: bv8, i: nat, k: nat,
                    visible: seq<SpriteInfo>)
    requires Sized(m) && i < 40 && k > 0 && Visible(m, line, height, i)
    ensures (visible + [SpriteAt(m, height, obp0, obp1, i)]) + FirstVisible(m, line, height, obp0, obp1, i + 1, k - 1)
      == visible + FirstVisible(m, line, height, obp0, obp1, i, k)
  {
    var rest := FirstVisible(m, line, height, obp0, obp1, i + 1, k - 1);
    assert FirstVisible(m, line, height, obp0, obp1, i, k) == [SpriteAt(m, height, obp0, obp1, i)] + rest;
    assert (visible + [SpriteAt(m, height, obp0, obp1, i)]) + rest == visible + ([SpriteAt(m, height, obp0, obp1, i)] + rest);
  }

  /** The tile and attribute bytes of OAM entry `i`, decoded. */
  method ReadSprite(bus: MemoryBus, height: bv8, obp0: bv8, obp1: bv8, i: nat) returns (sprite: SpriteInfo)
    requires bus.Valid() && i < 40
    ensures sprite == SpriteAt(bus.State(), height, obp0, obp1, i)
  {
    var spriteY := bus.ReadByte(OamAddr(i, 0));
    var spriteX := bus.ReadByte(OamAddr(i, 1));
    var tile := bus.ReadByte(OamAddr(i, 2));
    var attributes := bus.ReadByte(OamAddr(i, 3));
    OamByteIsRead(bus.State(), i, 0);
    OamByteIsRead(bus.State(), i, 1);
    OamByteIsRead(bus.State(), i, 2);
    OamByteIsRead(bus.State(), i, 3);
    var palette := if (attributes >> OAM_PALETTE_NUM_DMG) & 1 == 0 then obp0 else obp1;
    sprite := SpriteInfo(i, spriteY, spriteX, tile, attributes, height, palette,
      BitSet(attributes, OAM_X_FLIP), BitSet(attributes, OAM_Y_FLIP), BitSet(attributes, OAM_BG_WIN_PRIORITY));
  }

  /** The sprite loop of `render_scanline` for column `x`: the best X
      starts at 255, and a covering sprite with a smaller X and an opaque
      pixel becomes the winner. */
  method BestSprite(m: BusState, sprites: seq<SpriteInfo>, x: bv8)
    returns (found: bool, pixel: bv8, palette: bv8, bgPriority: bool)
    requires Sized(m)
    ensures var w := Winner(m, sprites, x);
      found == w.Some?
      && (found ==>
            pixel == SpritePixelIndex(m, sprites[w.value], SpriteColumn(sprites[w.value], x))
            && palette == sprites[w.value].palette && bgPriority == sprites[w.value].bgPriority)
  {
    found, pixel, palette, bgPriority := false, 0, 0, false;
    var best: int := 255;
    ghost var shown := OpaqueFlags(m, sprites, x);
    ghost var keys := Keys(sprites);
    ghost var w: Option<nat> := None;
    var i := 0;
    while i < |sprites|
      invariant 0 <= i <= |sprites|
      invariant w == LeastOpaque(shown[..i], keys[..i])
      invariant found == w.Some?
      invariant w.Some? ==> w.value < i
      invariant best == if w.None? then 255 else keys[w.value]
      invariant found ==>
        pixel == SpritePixelIndex(m, sprites[w.value], SpriteColumn(sprites[w.value], x))
        && palette == sprites[w.value].palette && bgPriority == sprites[w.value].bgPriority
    {
      LeastOpaqueExtends(shown, keys, i);
      var sprite := sprites[i];
      var takes, index := Consider(m, sprite, x, best);
      if takes {
        pixel, palette, bgPriority := index, sprite.palette, sprite.bgPriority;
        best, found := sprite.x as int, true;
        w := Some(i);
      }
      i := i + 1;
    }
    assert shown[..i] == shown && keys[..i] == keys;
  }

  /** One more entry of the search. */
  lemma LeastOpaqueExtends(shown: seq<bool>, keys: seq<int>, i: nat)
    requires |shown| == |keys| && i < |keys|
    ensures var w := LeastOpaque(shown[..i], keys[..i]);
      LeastOpaque(shown[..i + 1], keys[..i + 1])
        == if shown[i] && keys[i] < (if w.None? then 255 else keys[w.value]) then Some(i) else w
  {
    assert shown[..i + 1][..i] == shown[..i] && keys[..i + 1][..i] == keys[..i];
  }

  /** The tests on one sprite in the loop of `render_scanline`: it covers
      the column, its X is below the best so far, and its pixel there is
      not transparent. */
  method Consider(m: BusState, sprite: SpriteInfo, x: bv8, best: int) returns (takes: bool, index: bv8)
    requires Sized(m)
    ensures takes == (OpaqueAt(m, sprite, x) && sprite.x as int < best)
    ensures takes ==> index == SpritePixelIndex(m, sprite, SpriteColumn(sprite, x))
  {
    takes, index := false, 0;
    if CoversColumn(sprite, x) {
      if (sprite.x as int) < best {
        index := SpritePixelIndex(m, sprite, SpriteColumn(sprite, x));
        takes := index != 0;
      }
    }
  }

  /** One pixel of `render_scanline`: the background/window colour, then
      the winning sprite's colour if it passes the priority rule. */
  method Shade(m: BusState, lcdc: bv8, regs: LineRegs, sprites: seq<SpriteInfo>, x: bv8, y: bv8) returns (color: bv8)
    requires Sized(m)
    ensures color == PixelShade(m, lcdc, regs, sprites, x, y)
  {
    var bgIndex := BgWinIndex(m, lcdc, regs, x, y);
    color := ColorFromPalette(bgIndex, regs.bgp);
    if BitSet(lcdc, LCDC_OBJ_ENABLE) {
      var found, pixel, palette, bgPriority := BestSprite(m, sprites, x);
      if found && (!BitSet(lcdc, LCDC_BG_WIN_ENABLE_PRIORITY) || !bgPriority || bgIndex == 0) {
        color := ColorFromPalette(pixel, palette);
      }
    }
  }

  /** `render_scanline` into the 160 entries of `frame` from `start`: a
      line at or below 144 leaves them; otherwise the registers and sprites
      are read once and every pixel is shaded. */
  method RenderScanline(frame: array<bv8>, start: nat, st: PpuState, bus: MemoryBus)
    requires bus.Valid() && frame !in bus.Repr() && start + GB_WIDTH <= frame.Length
    modifies frame
    ensures st.line >= GB_HEIGHT ==> frame[..] == old(frame[..])
    ensures st.line < GB_HEIGHT ==> frame[..] == Splice(old(frame[..]), start, RenderedLine(old(bus.State()), st))
  {
    if st.line >= GB_HEIGHT {
      return;
    }
    var regs := LineRegisters(bus);
    var sprites := FetchScanlineSprites(st, bus);
    ShadeLine(frame, start, bus.State(), st.lcdc, regs, sprites, LineByte(st.line));
  }

  /** The scroll, window and palette registers, read once per line. */
  method LineRegisters(bus: MemoryBus) returns (regs: LineRegs)
    requires bus.Valid()
    ensures regs == ReadLineRegs(bus.State())
  {
    var scy := bus.ReadByte(SCY_ADDR);
    var scx := bus.ReadByte(SCX_ADDR);
    var wy := bus.ReadByte(WY_ADDR);
    var wx := bus.ReadByte(WX_ADDR);
    var bgp := bus.ReadByte(BGP_ADDR);
    regs := LineRegs(scy, scx, wy, wx, bgp);
  }

  /** The pixel loop of `render_scanline`. */
  method ShadeLine(frame: array<bv8>, start: nat, m: BusState, lcdc: bv8, regs: LineRegs, sprites: seq<SpriteInfo>, y: bv8)
    requires Sized(m) && start + GB_WIDTH <= frame.Length
    modifies frame
    ensures frame[..] == Splice(old(frame[..]), start, LineShades(m, lcdc, regs, sprites, y))
  {
    ghost var shades := LineShades(m, lcdc, regs, sprites, y);
    var x := 0;
    while x < GB_WIDTH
      invariant 0 <= x <= GB_WIDTH
      invariant forall i :: 0 <= i < x ==> frame[start + i] == shades[i]
      invariant forall i :: 0 <= i < frame.Length && !(start <= i < start + x) ==> frame[i] == old(frame[i])
    {
      var color := Shade(m, lcdc, regs, sprites, x as bv8, y);
      frame[start + x] := color;
      x := x + 1;
    }
    assert frame[..] == Splice(old(frame[..]), start, shades);
  }
}
