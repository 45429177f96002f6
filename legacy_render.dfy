// The loops of `render_scanline` and `fetch_sprite_pixel_data` in
// core/src/ppu.rs, proved against the functions of LegacyPpuSpec. The bus
// does not change while a line is rendered, so the loops read a snapshot
// of it.
module LegacyRender {
  import opened Bits
  import opened MemoryMap
  import opened BusSpec
  import opened PpuConstants
  import opened RenderSpec
  import opened LegacyPpuSpec

  /** `fetch_sprite_pixel_data` for pixel (`x`, `y`): all 40 OAM entries in
      order, the best X starting at 255 and the best index at 40. */
  method FetchSpritePixel(m: BusState, lcdc: bv8, x: bv8, y: bv8) returns (p: SpritePixel)
    requires Sized(m)
    ensures p == LegacySpritePixel(m, lcdc, x, y)
  {
    if !BitSet(lcdc, LCDC_OBJ_ENABLE) {
      return SpritePixel(0, false, 0);
    }
    var height := SpriteHeight(lcdc);
    var obp0 := ReadByte(m, OBP0_ADDR);
    var obp1 := ReadByte(m, OBP1_ADDR);
    ghost var sprites := OamSprites(m, lcdc);
    ghost var shown := LegacyOpaqueFlags(m, sprites, x, y);
    ghost var keys := Keys(sprites);
    var best := SpritePixel(0, false, 0);
    var bestX: bv8, bestIndex: nat := 255, 40;
    ghost var w: Option<nat> := None;
    var i := 0;
    while i < 40
      invariant 0 <= i <= 40 && Searched(m, sprites, shown, keys, x, y, i, w, best, bestX, bestIndex)
    {
      var sprite := SpriteAt(m, height, obp0, obp1, i);
      best, bestX, bestIndex, w := SearchEntry(m, sprites, shown, keys, x, y, i, w, sprite, best, bestX, bestIndex);
      i := i + 1;
    }
    p := best;
  }

  /** The state of the search after the first `i` entries: the least key
      among the shown ones so far, its X and index, and its pixel. */
  ghost predicate Searched(m: BusState, sprites: seq<SpriteInfo>, shown: seq<bool>, keys: seq<int>, x: bv8, y: bv8,
                           i: nat, w: Option<nat>, best: SpritePixel, bestX: bv8, bestIndex: nat)
    requires Sized(m)
  {
    |sprites| == 40 && i <= 40 && shown == LegacyOpaqueFlags(m, sprites, x, y) && keys == Keys(sprites)
    && w == LeastKey(shown, keys, i)
    && bestIndex == (if w.None? then 40 else w.value) && bestX as int == (if w.None? then 255 else keys[w.value])
    && best == WinnerPixel(m, sprites, x, y, w)
  }

  /** One pass of the loop of `fetch_sprite_pixel_data`: entry `i` replaces
      the best so far when it shows and its X is lower. */
  method SearchEntry(m: BusState, ghost sprites: seq<SpriteInfo>, ghost shown: seq<bool>, ghost keys: seq<int>,
                     x: bv8, y: bv8, i: nat, ghost w: Option<nat>, sprite: SpriteInfo,
                     best: SpritePixel, bestX: bv8, bestIndex: nat)
    returns (best': SpritePixel, bestX': bv8, bestIndex': nat, ghost w': Option<nat>)
    requires Sized(m) && i < 40 && Searched(m, sprites, shown, keys, x, y, i, w, best, bestX, bestIndex)
    requires sprite == sprites[i]
    ensures Searched(m, sprites, shown, keys, x, y, i + 1, w', best', bestX', bestIndex')
  {
    var shows, index := Consider(m, sprite, x, y);
    var takes := Replaces(shown, keys, i, w, shows, sprite.x, bestX, bestIndex);
    if takes {
      best', bestX', bestIndex', w' := SpritePixel(index, sprite.bgPriority, sprite.palette), sprite.x, i, Some(i);
    } else {
      best', bestX', bestIndex', w' := best, bestX, bestIndex, w;
    }
  }

  /** The tests on one entry in the loop of `fetch_sprite_pixel_data`: it
      covers the pixel and its pixel there is not transparent. */
  method Consider(m: BusState, sprite: SpriteInfo, x: bv8, y: bv8) returns (shows: bool, index: bv8)
    requires Sized(m)
    ensures shows == LegacyOpaque(m, sprite, x, y)
    ensures shows ==> index == LegacySpriteIndex(m, sprite, x, y)
  {
    shows, index := false, 0;
    if LegacyCovers(sprite, x, y) {
      index := LegacySpriteIndex(m, sprite, x, y);
      shows := index != 0;
    }
  }

  /** The replacement test on entry `i`: it shows and its X is below the
      best so far, or equal with an index below the best's. */
  method Replaces(ghost shown: seq<bool>, ghost keys: seq<int>, i: nat, ghost w: Option<nat>,
                  shows: bool, spriteX: bv8, bestX: bv8, bestIndex: nat) returns (takes: bool)
    requires i < 40 && i < |shown| == |keys| && w == LeastKey(shown, keys, i)
    requires shows == shown[i] && keys[i] == spriteX as int
    requires bestIndex == (if w.None? then 40 else w.value)
    requires bestX as int == (if w.None? then 255 else keys[w.value])
    ensures LeastKey(shown, keys, i + 1) == if takes then Some(i) else w
  {
    takes := shows && (spriteX < bestX || (spriteX == bestX && i < bestIndex));
    LeastKeyStep(shown, keys, i);
    if w.Some? {
      TieBreak(spriteX, bestX, i, bestIndex);
    }
  }

  /** Once a best entry exists its index is below the current one, so the
      tie-break on the index never replaces it. */
  lemma TieBreak(spriteX: bv8, bestX: bv8, i: nat, bestIndex: nat)
    requires bestIndex < i
    ensures (spriteX < bestX || (spriteX == bestX && i < bestIndex)) == (spriteX as int < bestX as int)
  {
  }

  /** The shade of one pixel of `render_scanline`. */
  method LegacyShade(m: BusState, lcdc: bv8, regs: LineRegs, x: bv8, y: bv8) returns (color: bv8)
    requires Sized(m)
    ensures color == LegacyPixelShade(m, lcdc, regs, x, y)
  {
    var bgEnabled := BitSet(lcdc, LCDC_BG_WIN_ENABLE_PRIORITY);
    var bgIndex := BgWinIndex(m, lcdc, regs, x, y);
    color := ColorFromPalette(bgIndex, regs.bgp);
    if BitSet(lcdc, LCDC_OBJ_ENABLE) {
      var sprite := FetchSpritePixel(m, lcdc, x, y);
      if sprite.index != 0 && (!bgEnabled || !sprite.bgPriority || bgIndex == 0) {
        color := ColorFromPalette(sprite.index, sprite.palette);
      }
    }
  }

  /** The pixel loop of `render_scanline`, writing line `y` from entry
      `start` of the frame. */
  method ShadeLegacyLine(frame: array<bv8>, start: nat, m: BusState, lcdc: bv8, regs: LineRegs, y: bv8)
    requires Sized(m) && regs == ReadLineRegs(m) && start + GB_WIDTH <= frame.Length
    modifies frame
    ensures frame[..] == Splice(old(frame[..]), start, LegacyLine(m, lcdc, y))
  {
    ghost var shades := LegacyLine(m, lcdc, y);
    var x := 0;
    while x < GB_WIDTH
      invariant 0 <= x <= GB_WIDTH
      invariant forall i :: 0 <= i < x ==> frame[start + i] == shades[i]
      invariant forall i :: 0 <= i < frame.Length && !(start <= i < start + x) ==> frame[i] == old(frame[i])
    {
      var color := LegacyShade(m, lcdc, regs, x as bv8, y);
      frame[start + x] := color;
      x := x + 1;
    }
    assert frame[..] == Splice(old(frame[..]), start, shades);
  }
}
