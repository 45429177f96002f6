// The `Ppu` struct of core/src/ppu.rs: the frame buffer, the VRAM debug
// buffer and the scalar state, updated in place by `step` on a
// `MemoryBus` object the caller passes. Every method is proved to have the
// effect the LegacyPpuSpec function of the same name describes.
module LegacyPpuUnit {
  import opened Bits
  import opened MemoryMap
  import opened BusSpec
  import opened PpuConstants
  import opened PpuStates
  import opened RenderSpec
  import PpuSpec
  import opened LegacyPpuSpec
  import opened Bus
  import Render
  import opened LegacyRender
  import VramDebug

  class LegacyPpu {
    const frameBuffer: array<bv8>
    const vramDebugBuffer: array<bv8>
    var state: LegacyState

    /** The buffers have their sizes and are distinct. */
    predicate Valid()
      reads this
    {
      frameBuffer.Length == FRAME_BUFFER_SIZE && vramDebugBuffer.Length == VRAM_DEBUG_BUFFER_SIZE
      && frameBuffer != vramDebugBuffer
    }

    /** The bus and the PPU share no object. */
    predicate Apart(bus: MemoryBus)
      reads this, bus
    {
      frameBuffer !in bus.Repr() && vramDebugBuffer !in bus.Repr()
    }

    /** `Ppu::new`: both buffers cleared, line 0 in HBlank and LCDC 0x91. */
    constructor ()
      ensures Valid() && fresh(frameBuffer) && fresh(vramDebugBuffer)
      ensures state == NewLegacyState()
      ensures forall i :: 0 <= i < frameBuffer.Length ==> frameBuffer[i] == 0
      ensures forall i :: 0 <= i < vramDebugBuffer.Length ==> vramDebugBuffer[i] == 0
    {
      frameBuffer := new bv8[FRAME_BUFFER_SIZE](_ => 0);
      vramDebugBuffer := new bv8[VRAM_DEBUG_BUFFER_SIZE](_ => 0);
      state := LegacyState(0, 0, 0x91, HBlank, false, false, false);
    }

    /** `get_frame_buffer`. */
    function FrameBuffer(): (r: seq<bv8>)
      reads this, frameBuffer
      requires Valid()
      ensures |r| == FRAME_BUFFER_SIZE
    {
      frameBuffer[..]
    }

    /** `get_vram_debug_buffer`. */
    function VramDebugBuffer(): (r: seq<bv8>)
      reads this, vramDebugBuffer
      requires Valid()
      ensures |r| == VRAM_DEBUG_BUFFER_SIZE
    {
      vramDebugBuffer[..]
    }

    /** `render_vram_debug`: the same view as the debug renderer of
        core/src/ppu/debug.rs. Its guard on the row address (below 9FFF)
        always holds, as `VramDebug.DebugRowAddr` ensures, so the branch
        that fills a tile with 0 is never taken. */
    method RenderVramDebug(bus: MemoryBus)
      requires Valid() && bus.Valid() && Apart(bus)
      modifies vramDebugBuffer
      ensures vramDebugBuffer[..] == VramDebug.DebugView(old(bus.State()))
    {
      VramDebug.RenderVramDebug(vramDebugBuffer, bus);
    }

    /** `Ppu::step` with `cycles` T-cycles. */
    method Step(cycles: nat, bus: MemoryBus)
      requires Valid() && bus.Valid() && Apart(bus)
      modifies this, frameBuffer, bus.Repr()
      ensures bus.Valid() && bus.Repr() == old(bus.Repr())
      ensures LegacyOutcome(state, frameBuffer[..], bus.State())
        == LegacyStep(old(state), old(frameBuffer[..]), old(bus.State()), cycles)
    {
      var lcdc := bus.ReadByte(LCDC_ADDR);
      state := state.(lcdc := lcdc);
      if !PpuSpec.LcdEnabled(state.lcdc) {
        TurnOff(bus);
        return;
      }
      StepLcdOn(cycles, bus);
    }

    /** The LCD-off branch of `step`. */
    method TurnOff(bus: MemoryBus)
      requires bus.Valid()
      modifies this, bus.Repr()
      ensures bus.Valid() && bus.Repr() == old(bus.Repr())
      ensures LegacySignalled(state, bus.State()) == LegacyLcdOff(old(state), old(bus.State()))
    {
      if state.dots != 0 || state.line != 0 || state.mode != HBlank {
        state := LegacyReset(state);
        ClearLyAndStat(bus);
      }
    }

    /** LY written 0, then STAT back in mode 0. */
    static method ClearLyAndStat(bus: MemoryBus)
      requires bus.Valid()
      modifies bus.Repr()
      ensures bus.Valid() && bus.Repr() == old(bus.Repr())
      ensures Sized(WriteByte(old(bus.State()), LY_ADDR, 0))
      ensures var written := WriteByte(old(bus.State()), LY_ADDR, 0);
        bus.State() == WriteByte(written, STAT_ADDR, (ReadByte(written, STAT_ADDR) & 0xF8) | ModeBits(HBlank))
    {
      bus.WriteByte(LY_ADDR, 0);
      ClearStatMode(bus);
    }

    /** STAT as read from the bus, written back with mode 0. */
    static method ClearStatMode(bus: MemoryBus)
      requires bus.Valid()
      modifies bus.Repr()
      ensures bus.Valid() && bus.Repr() == old(bus.Repr())
      ensures bus.State() == WriteByte(old(bus.State()), STAT_ADDR, (ReadByte(old(bus.State()), STAT_ADDR) & 0xF8) | ModeBits(HBlank))
    {
      var statOnBus := bus.ReadByte(STAT_ADDR);
      var statToWrite := (statOnBus & 0xF8) | ModeBits(HBlank);
      bus.WriteByte(STAT_ADDR, statToWrite);
    }

    /** The LCD-on part of `step`: the timing, then LYC, STAT and the
        interrupts. */
    method StepLcdOn(cycles: nat, bus: MemoryBus)
      requires Valid() && bus.Valid() && Apart(bus)
      modifies this, frameBuffer, bus.Repr()
      ensures bus.Valid() && bus.Repr() == old(bus.Repr())
      ensures LegacySignalled(state, bus.State())
        == LegacySignal(LegacyTimed(old(state), cycles), LegacyTimedBus(old(state), LegacyTimed(old(state), cycles), cycles, old(bus.State())))
      ensures frameBuffer[..] == LegacyTimedFrame(old(state), cycles, old(frameBuffer[..]), old(bus.State()))
    {
      AdvanceTiming(cycles, bus);
      SignalChanges(bus);
    }

    /** The dots added, the `match` on the mode, and the mode it computes
        stored. */
    method AdvanceTiming(cycles: nat, bus: MemoryBus)
      requires Valid() && bus.Valid() && Apart(bus)
      modifies this, frameBuffer, bus.Repr()
      ensures bus.Valid() && bus.Repr() == old(bus.Repr())
      ensures state == LegacyTimed(old(state), cycles)
      ensures bus.State() == LegacyTimedBus(old(state), state, cycles, old(bus.State()))
      ensures frameBuffer[..] == LegacyTimedFrame(old(state), cycles, old(frameBuffer[..]), old(bus.State()))
    {
      ghost var s := state;
      state := state.(dots := state.dots + cycles);
      var nextMode := Transition(s, cycles, bus);
      state := state.(mode := nextMode);
    }

    /** The `match` on the mode, once the `cycles` of the step are added to
        the dots of `s`: it returns the next mode and leaves the mode field
        as it was. */
    method Transition(ghost s: LegacyState, ghost cycles: nat, bus: MemoryBus) returns (nextMode: Mode)
      requires Valid() && bus.Valid() && Apart(bus)
      requires state == s.(dots := s.dots + cycles)
      modifies this, frameBuffer, bus.Repr()
      ensures bus.Valid() && bus.Repr() == old(bus.Repr())
      ensures state.(mode := nextMode) == LegacyTimed(s, cycles)
      ensures bus.State() == LegacyTimedBus(s, LegacyTimed(s, cycles), cycles, old(bus.State()))
      ensures frameBuffer[..] == LegacyTimedFrame(s, cycles, old(frameBuffer[..]), old(bus.State()))
    {
      match state.mode
      case OamScan => nextMode := OamScanStep(s, cycles);
      case VramRead => nextMode := VramReadStep(s, cycles, bus);
      case HBlank => nextMode := HBlankStep(s, cycles, bus);
      case VBlank => nextMode := VBlankStep(s, cycles, bus);
    }

    /** Mode 2 ends after 80 dots; mode 3 follows. */
    method OamScanStep(ghost s: LegacyState, ghost cycles: nat) returns (nextMode: Mode)
      requires state == s.(dots := s.dots + cycles) && s.mode == OamScan
      modifies this
      ensures state.(mode := nextMode) == LegacyTimed(s, cycles)
    {
      nextMode := state.mode;
      if state.dots >= MODE2_OAM_SCAN_DOTS {
        state := state.(dots := state.dots - MODE2_OAM_SCAN_DOTS);
        nextMode := VramRead;
      }
    }

    /** Mode 3 ends after 172 dots: HBlank follows and the line is
        rendered. */
    method VramReadStep(ghost s: LegacyState, ghost cycles: nat, bus: MemoryBus) returns (nextMode: Mode)
      requires Valid() && bus.Valid() && Apart(bus)
      requires state == s.(dots := s.dots + cycles) && s.mode == VramRead
      modifies this, frameBuffer
      ensures state.(mode := nextMode) == LegacyTimed(s, cycles)
      ensures frameBuffer[..] == LegacyTimedFrame(s, cycles, old(frameBuffer[..]), bus.State())
    {
      nextMode := state.mode;
      if state.dots >= MODE3_VRAM_READ_DOTS {
        state := state.(dots := state.dots - MODE3_VRAM_READ_DOTS);
        nextMode := HBlank;
        RenderScanline(bus);
      }
    }

    /** HBlank ends after 456 dots: the next line, LY written, and VBlank
        from line 144. */
    method HBlankStep(ghost s: LegacyState, ghost cycles: nat, bus: MemoryBus) returns (nextMode: Mode)
      requires Valid() && bus.Valid() && Apart(bus)
      requires state == s.(dots := s.dots + cycles) && s.mode == HBlank
      modifies this, bus.Repr()
      ensures bus.Valid() && bus.Repr() == old(bus.Repr())
      ensures state.(mode := nextMode) == LegacyTimed(s, cycles)
      ensures bus.State() == LegacyTimedBus(s, LegacyTimed(s, cycles), cycles, old(bus.State()))
      ensures frameBuffer[..] == old(frameBuffer[..])
    {
      nextMode := state.mode;
      if state.dots >= DOTS_PER_SCANLINE {
        state := state.(dots := state.dots - DOTS_PER_SCANLINE, line := PpuSpec.NextLine(state.line));
        StoreLy(bus);
        nextMode := EnterNextLine(s, cycles);
      }
    }

    /** The mode after HBlank: VBlank, signalled, at line 144, mode 2
        otherwise. */
    method EnterNextLine(ghost s: LegacyState, ghost cycles: nat) returns (nextMode: Mode)
      requires s.mode == HBlank && s.dots + cycles >= DOTS_PER_SCANLINE
      requires state == s.(dots := s.dots + cycles - DOTS_PER_SCANLINE, line := PpuSpec.NextLine(s.line))
      modifies this
      ensures state.(mode := nextMode) == LegacyTimed(s, cycles)
    {
      if state.line == GB_HEIGHT {
        nextMode := VBlank;
        state := state.(vblankJustOccurred := true);
      } else {
        nextMode := OamScan;
      }
    }

    /** A VBlank line ends after 456 dots: the next line, line 0 and mode 2
        after line 153, and LY written. */
    method VBlankStep(ghost s: LegacyState, ghost cycles: nat, bus: MemoryBus) returns (nextMode: Mode)
      requires Valid() && bus.Valid() && Apart(bus)
      requires state == s.(dots := s.dots + cycles) && s.mode == VBlank
      modifies this, bus.Repr()
      ensures bus.Valid() && bus.Repr() == old(bus.Repr())
      ensures state.(mode := nextMode) == LegacyTimed(s, cycles)
      ensures bus.State() == LegacyTimedBus(s, LegacyTimed(s, cycles), cycles, old(bus.State()))
      ensures frameBuffer[..] == old(frameBuffer[..])
    {
      nextMode := state.mode;
      if state.dots >= DOTS_PER_SCANLINE {
        nextMode := NextVBlankLine(s, cycles);
        StoreLy(bus);
      }
    }

    /** The state part of the end of a VBlank line. */
    method NextVBlankLine(ghost s: LegacyState, ghost cycles: nat) returns (nextMode: Mode)
      requires state == s.(dots := s.dots + cycles) && s.mode == VBlank && state.dots >= DOTS_PER_SCANLINE
      modifies this
      ensures state.(mode := nextMode) == LegacyTimed(s, cycles)
    {
      nextMode := state.mode;
      var line := PpuSpec.NextLine(state.line);
      if line == SCANLINES_PER_FRAME {
        line := 0;
        nextMode := OamScan;
      }
      state := state.(dots := state.dots - DOTS_PER_SCANLINE, line := line);
    }

    /** LY written with the current line through `write_byte`. */
    method StoreLy(bus: MemoryBus)
      requires bus.Valid()
      modifies bus.Repr()
      ensures bus.Valid() && bus.Repr() == old(bus.Repr())
      ensures bus.State() == WriteByte(old(bus.State()), LY_ADDR, LineByte(state.line))
    {
      bus.WriteByte(LY_ADDR, LineByte(state.line));
    }

    /** `render_scanline`: nothing on lines 144-153; otherwise the
        registers of the line read once and the 160 pixels shaded into the
        line's entries of the frame buffer. */
    method RenderScanline(bus: MemoryBus)
      requires Valid() && bus.Valid() && Apart(bus)
      modifies frameBuffer
      ensures state.line >= GB_HEIGHT ==> frameBuffer[..] == old(frameBuffer[..])
      ensures state.line < GB_HEIGHT ==>
        frameBuffer[..] == Splice(old(frameBuffer[..]), state.line * GB_WIDTH, LegacyLine(bus.State(), state.lcdc, LineByte(state.line)))
    {
      if state.line >= GB_HEIGHT {
        return;
      }
      var regs := Render.LineRegisters(bus);
      var start := state.line * GB_WIDTH;
      if start + GB_WIDTH <= frameBuffer.Length {
        ShadeLegacyLine(frameBuffer, start, bus.State(), state.lcdc, regs, LineByte(state.line));
      }
    }

    /** LYC, STAT and the interrupts, with STAT read once before it is
        written. */
    method SignalChanges(bus: MemoryBus)
      requires bus.Valid()
      modifies this, bus.Repr()
      ensures bus.Valid() && bus.Repr() == old(bus.Repr())
      ensures LegacySignalled(state, bus.State()) == LegacySignal(old(state), old(bus.State()))
    {
      CompareLyc(bus);
      var statOnBus := bus.ReadByte(STAT_ADDR);
      PublishStat(bus, statOnBus);
    }

    /** The coincidence flag from LYC. */
    method CompareLyc(bus: MemoryBus)
      requires bus.Valid()
      modifies this
      ensures state == LegacyCheckLyc(old(state), bus.State())
    {
      var lyc := bus.ReadByte(LYC_ADDR);
      state := state.(lycEqLy := state.line == lyc as int);
    }

    /** STAT written from the byte read, then the interrupts. */
    method PublishStat(bus: MemoryBus, statOnBus: bv8)
      requires bus.Valid()
      modifies this, bus.Repr()
      ensures bus.Valid() && bus.Repr() == old(bus.Repr())
      ensures Sized(WriteByte(old(bus.State()), STAT_ADDR, LegacyStatValue(statOnBus, old(state))))
      ensures LegacySignalled(state, bus.State())
        == LegacyInterrupts(old(state), statOnBus, WriteByte(old(bus.State()), STAT_ADDR, LegacyStatValue(statOnBus, old(state))))
    {
      WriteStat(bus, statOnBus);
      CheckInterrupts(bus, statOnBus);
    }

    /** The STAT byte: the upper five bits as read, the mode and the
        coincidence flag, written through `write_byte`. */
    method WriteStat(bus: MemoryBus, statOnBus: bv8)
      requires bus.Valid()
      modifies bus.Repr()
      ensures bus.Valid() && bus.Repr() == old(bus.Repr())
      ensures bus.State() == WriteByte(old(bus.State()), STAT_ADDR, LegacyStatValue(statOnBus, state))
    {
      var statToWrite := statOnBus & 0xF8;
      statToWrite := statToWrite | ModeBits(state.mode);
      if state.lycEqLy {
        statToWrite := statToWrite | BitMask(STAT_LYC_EQ_LY_FLAG);
      }
      bus.WriteByte(STAT_ADDR, statToWrite);
    }

    /** The STAT request on a rising line, then the VBlank request. */
    method CheckInterrupts(bus: MemoryBus, statOnBus: bv8)
      requires bus.Valid()
      modifies this, bus.Repr()
      ensures bus.Valid() && bus.Repr() == old(bus.Repr())
      ensures LegacySignalled(state, bus.State()) == LegacyInterrupts(old(state), statOnBus, old(bus.State()))
    {
      RequestStatOnRise(bus, statOnBus);
      RequestVBlank(bus);
    }

    /** The STAT part: the request when the line rises, and the line
        remembered. */
    method RequestStatOnRise(bus: MemoryBus, statOnBus: bv8)
      requires bus.Valid()
      modifies this, bus.Repr()
      ensures bus.Valid() && bus.Repr() == old(bus.Repr())
      ensures state == old(state).(statLine := LegacyStatRequest(statOnBus, old(state)))
      ensures bus.State() == if LegacyStatRequest(statOnBus, old(state)) && !old(state).statLine
        then LegacyRequest(old(bus.State()), LCD_STAT_INTERRUPT_BIT) else old(bus.State())
    {
      var interruptReq := StatRequestLine(statOnBus);
      if interruptReq && !state.statLine {
        RequestInterrupt(bus, LCD_STAT_INTERRUPT_BIT);
      }
      state := state.(statLine := interruptReq);
    }

    /** The VBlank part: the request when signalled, and the signal
        cleared. */
    method RequestVBlank(bus: MemoryBus)
      requires bus.Valid()
      modifies this, bus.Repr()
      ensures bus.Valid() && bus.Repr() == old(bus.Repr())
      ensures state == old(state).(vblankJustOccurred := false)
      ensures bus.State() == if old(state).vblankJustOccurred
        then LegacyRequest(old(bus.State()), VBLANK_INTERRUPT_BIT) else old(bus.State())
    {
      if state.vblankJustOccurred {
        RequestInterrupt(bus, VBLANK_INTERRUPT_BIT);
        state := state.(vblankJustOccurred := false);
      }
    }

    /** The four STAT conditions, each enabled by its bit of STAT as read
        from the bus, on the new mode. */
    method StatRequestLine(statOnBus: bv8) returns (req: bool)
      ensures req == LegacyStatRequest(statOnBus, state)
    {
      req := false;
      if state.lycEqLy && BitSet(statOnBus, STAT_LYC_EQ_LY_IE) {
        req := true;
      }
      if state.mode == HBlank && BitSet(statOnBus, STAT_MODE_0_HBLANK_IE) {
        req := true;
      }
      if state.mode == VBlank && BitSet(statOnBus, STAT_MODE_1_VBLANK_IE) {
        req := true;
      }
      if state.mode == OamScan && BitSet(statOnBus, STAT_MODE_2_OAM_IE) {
        req := true;
      }
    }

    /** `request_interrupt`: IF read, and written back with the bit through
        `write_byte`. */
    static method RequestInterrupt(bus: MemoryBus, bit: nat)
      requires bus.Valid() && bit < 8
      modifies bus.Repr()
      ensures bus.Valid() && bus.Repr() == old(bus.Repr())
      ensures bus.State() == LegacyRequest(old(bus.State()), bit)
    {
      var currentIf := bus.ReadByte(IF_ADDR);
      bus.WriteByte(IF_ADDR, currentIf | BitMask(bit));
    }
  }
}
