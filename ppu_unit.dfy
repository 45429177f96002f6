// The `Ppu` struct of core/src/ppu/mod.rs: the frame buffer, the VRAM
// debug buffer and the timing state, updated in place by `step` on a
// `MemoryBus` object the caller passes. Every method is proved to have the
// effect the PpuSpec function of the same name describes.
module PpuUnit {
  import opened Bits
  import opened MemoryMap
  import opened BusSpec
  import opened PpuConstants
  import opened PpuStates
  import opened RenderSpec
  import opened PpuSpec
  import opened Bus
  import opened Render
  import opened VramDebug

  class Ppu {
    const frameBuffer: array<bv8>
    const vramDebugBuffer: array<bv8>
    var state: PpuState

    /** The buffers have their sizes and are distinct. */
    predicate Valid()
      reads this
    {
      frameBuffer.Length == FRAME_BUFFER_SIZE && vramDebugBuffer.Length == VRAM_DEBUG_BUFFER_SIZE
      && frameBuffer != vramDebugBuffer
    }

    /** The bus and the PPU share no object. */
    predicate Apart(bus: MemoryBus)
      reads this, bus
    {
      frameBuffer !in bus.Repr() && vramDebugBuffer !in bus.Repr()
    }

    /** `Ppu::new`: both buffers cleared and the post-boot state. */
    constructor ()
      ensures Valid() && fresh(frameBuffer) && fresh(vramDebugBuffer)
      ensures state == NewState()
      ensures forall i :: 0 <= i < frameBuffer.Length ==> frameBuffer[i] == 0
      ensures forall i :: 0 <= i < vramDebugBuffer.Length ==> vramDebugBuffer[i] == 0
    {
      frameBuffer := new bv8[FRAME_BUFFER_SIZE](_ => 0);
      vramDebugBuffer := new bv8[VRAM_DEBUG_BUFFER_SIZE](_ => 0);
      state := NewState();
    }

    /** `get_frame_buffer`. */
    function FrameBuffer(): (r: seq<bv8>)
      reads this, frameBuffer
      requires Valid()
      ensures |r| == FRAME_BUFFER_SIZE
    {
      frameBuffer[..]
    }

    /** `get_vram_debug_buffer`. */
    function VramDebugBuffer(): (r: seq<bv8>)
      reads this, vramDebugBuffer
      requires Valid()
      ensures |r| == VRAM_DEBUG_BUFFER_SIZE
    {
      vramDebugBuffer[..]
    }

    /** `update_vram_debug_buffer`. */
    method UpdateVramDebugBuffer(bus: MemoryBus)
      requires Valid() && bus.Valid() && Apart(bus)
      modifies vramDebugBuffer
      ensures vramDebugBuffer[..] == DebugView(old(bus.State()))
    {
      RenderVramDebug(vramDebugBuffer, bus);
    }

    /** `Ppu::step` with `cycles` T-cycles. */
    method Step(cycles: nat, bus: MemoryBus)
      requires Valid() && bus.Valid() && Apart(bus)
      modifies this, frameBuffer, bus.Repr()
      ensures bus.Valid() && bus.Repr() == old(bus.Repr())
      ensures PpuOutcome(state, frameBuffer[..], bus.State())
        == PpuSpec.Step(old(state), old(frameBuffer[..]), old(bus.State()), cycles)
    {
      CacheRegisters(bus);
      if !LcdEnabled(state.lcdc) {
        TurnOff(bus);
        return;
      }
      StepLcdOn(cycles, bus);
    }

    /** LCDC and STAT read into the state's caches. */
    method CacheRegisters(bus: MemoryBus)
      requires bus.Valid()
      modifies this
      ensures state == Cache(old(state), bus.State())
    {
      var lcdc := bus.ReadByte(LCDC_ADDR);
      var stat := bus.ReadByte(STAT_ADDR);
      state := state.(lcdc := lcdc, stat := stat);
    }

    /** The LCD-off branch of `step`. */
    method TurnOff(bus: MemoryBus)
      requires bus.Valid()
      modifies this, bus.Repr()
      ensures bus.Valid() && bus.Repr() == old(bus.Repr())
      ensures Signalled(state, bus.State()) == LcdOff(old(state), old(bus.State()))
    {
      if state.dots != 0 || state.line != 0 || state.mode != HBlank {
        ResetForLcdOff();
        bus.WriteByte(LY_ADDR, 0);
        var statToWrite := (state.stat & 0xF8) | ModeBits(HBlank);
        bus.SetIoRegDirect(STAT_ADDR, statToWrite);
      }
    }

    /** `PpuState::reset_for_lcd_off`. */
    method ResetForLcdOff()
      modifies this
      ensures state == PpuStates.ResetForLcdOff(old(state))
    {
      state := state.(dots := 0, line := 0, mode := HBlank, lycEqLy := false, statLine := false);
    }

    /** The LCD-on part of `step`: the timing, then LYC, STAT and the
        interrupts. */
    method StepLcdOn(cycles: nat, bus: MemoryBus)
      requires Valid() && bus.Valid() && Apart(bus)
      modifies this, frameBuffer, bus.Repr()
      ensures bus.Valid() && bus.Repr() == old(bus.Repr())
      ensures state == Signal(Timed(old(state), cycles), TimedBus(old(state), Timed(old(state), cycles), cycles, old(bus.State()))).state
      ensures bus.State() == Signal(Timed(old(state), cycles), TimedBus(old(state), Timed(old(state), cycles), cycles, old(bus.State()))).bus
      ensures frameBuffer[..] == TimedFrame(old(state), Timed(old(state), cycles), cycles, old(frameBuffer[..]), old(bus.State()))
    {
      AdvanceTiming(cycles, bus);
      SignalChanges(bus);
    }

    /** The dots added and the `match` on the mode. */
    method AdvanceTiming(cycles: nat, bus: MemoryBus)
      requires Valid() && bus.Valid() && Apart(bus)
      modifies this, frameBuffer, bus.Repr()
      ensures bus.Valid() && bus.Repr() == old(bus.Repr())
      ensures state == Timed(old(state), cycles)
      ensures bus.State() == TimedBus(old(state), state, cycles, old(bus.State()))
      ensures frameBuffer[..] == TimedFrame(old(state), state, cycles, old(frameBuffer[..]), old(bus.State()))
    {
      ghost var s := state;
      state := state.(dots := state.dots + cycles);
      Transition(s, cycles, bus);
    }

    /** The `match` on the mode, once the `cycles` of the step are added to
        the dots of `s`. */
    method Transition(ghost s: PpuState, ghost cycles: nat, bus: MemoryBus)
      requires Valid() && bus.Valid() && Apart(bus)
      requires state == s.(dots := s.dots + cycles)
      modifies this, frameBuffer, bus.Repr()
      ensures bus.Valid() && bus.Repr() == old(bus.Repr())
      ensures state == Timed(s, cycles)
      ensures bus.State() == TimedBus(s, state, cycles, old(bus.State()))
      ensures frameBuffer[..] == TimedFrame(s, state, cycles, old(frameBuffer[..]), old(bus.State()))
    {
      match state.mode
      case OamScan => OamScanStep(s, cycles, bus);
      case VramRead => VramReadStep(s, cycles, bus);
      case HBlank => HBlankStep(s, cycles, bus);
      case VBlank => VBlankStep(s, cycles, bus);
    }

    /** Mode 2 ends after 80 dots; mode 3 follows. */
    method OamScanStep(ghost s: PpuState, ghost cycles: nat, bus: MemoryBus)
      requires Valid() && bus.Valid() && Apart(bus)
      requires state == s.(dots := s.dots + cycles) && s.mode == OamScan
      modifies this
      ensures state == Timed(s, cycles)
      ensures bus.State() == TimedBus(s, state, cycles, old(bus.State()))
      ensures frameBuffer[..] == TimedFrame(s, state, cycles, old(frameBuffer[..]), old(bus.State()))
    {
      if state.dots >= MODE2_OAM_SCAN_DOTS {
        state := state.(dots := state.dots - MODE2_OAM_SCAN_DOTS, mode := VramRead);
      }
    }

    /** Mode 3 ends after 172 dots: HBlank starts and a visible line is
        rendered. */
    method VramReadStep(ghost s: PpuState, ghost cycles: nat, bus: MemoryBus)
      requires Valid() && bus.Valid() && Apart(bus)
      requires state == s.(dots := s.dots + cycles) && s.mode == VramRead
      modifies this, frameBuffer
      ensures state == Timed(s, cycles)
      ensures bus.State() == TimedBus(s, state, cycles, old(bus.State()))
      ensures frameBuffer[..] == TimedFrame(s, state, cycles, old(frameBuffer[..]), old(bus.State()))
    {
      if state.dots >= MODE3_VRAM_READ_DOTS {
        EndVramRead(s, cycles, bus);
      }
    }

    /** The end of mode 3: HBlank, and the line rendered when visible. */
    method EndVramRead(ghost s: PpuState, ghost cycles: nat, bus: MemoryBus)
      requires Valid() && bus.Valid() && Apart(bus)
      requires state == s.(dots := s.dots + cycles) && s.mode == VramRead && state.dots >= MODE3_VRAM_READ_DOTS
      modifies this, frameBuffer
      ensures state == Timed(s, cycles)
      ensures bus.State() == TimedBus(s, state, cycles, old(bus.State()))
      ensures frameBuffer[..] == TimedFrame(s, state, cycles, old(frameBuffer[..]), old(bus.State()))
    {
      EnterHBlank(s, cycles);
      RenderVisibleLine(s, cycles, bus);
    }

    /** The state part of the end of mode 3. */
    method EnterHBlank(ghost s: PpuState, ghost cycles: nat)
      requires state == s.(dots := s.dots + cycles) && s.mode == VramRead && state.dots >= MODE3_VRAM_READ_DOTS
      modifies this
      ensures state == Timed(s, cycles) && state.line == s.line
    {
      state := state.(dots := state.dots - MODE3_VRAM_READ_DOTS, mode := HBlank);
    }

    /** The rendering part of the end of mode 3: lines 0-143 only. */
    method RenderVisibleLine(ghost s: PpuState, ghost cycles: nat, bus: MemoryBus)
      requires Valid() && bus.Valid() && Apart(bus)
      requires s.mode == VramRead && s.dots + cycles >= MODE3_VRAM_READ_DOTS && state.line == s.line
      modifies frameBuffer
      ensures frameBuffer[..] == TimedFrame(s, state, cycles, old(frameBuffer[..]), bus.State())
    {
      ghost var m := bus.State();
      ghost var frame := frameBuffer[..];
      var y := state.line;
      if y < GB_HEIGHT {
        RenderScanline(frameBuffer, y * GB_WIDTH, state, bus);
        assert RendersLine(s, cycles);
      } else {
        assert !RendersLine(s, cycles);
      }
    }

    /** HBlank ends when the line's dots reach 456: the next line, VBlank
        from line 144, and LY. */
    method HBlankStep(ghost s: PpuState, ghost cycles: nat, bus: MemoryBus)
      requires Valid() && bus.Valid() && Apart(bus)
      requires state == s.(dots := s.dots + cycles) && s.mode == HBlank
      modifies this, bus.Repr()
      ensures bus.Valid() && bus.Repr() == old(bus.Repr())
      ensures state == Timed(s, cycles)
      ensures bus.State() == TimedBus(s, state, cycles, old(bus.State()))
      ensures frameBuffer[..] == old(frameBuffer[..])
    {
      if state.dots >= DOTS_PER_SCANLINE {
        NextHBlankState(s, cycles);
        StoreLy(bus);
      }
    }

    /** A VBlank line ends when its dots reach 456: the next line, line 0
        and mode 2 after 153, and LY. */
    method VBlankStep(ghost s: PpuState, ghost cycles: nat, bus: MemoryBus)
      requires Valid() && bus.Valid() && Apart(bus)
      requires state == s.(dots := s.dots + cycles) && s.mode == VBlank
      modifies this, bus.Repr()
      ensures bus.Valid() && bus.Repr() == old(bus.Repr())
      ensures state == Timed(s, cycles)
      ensures bus.State() == TimedBus(s, state, cycles, old(bus.State()))
      ensures frameBuffer[..] == old(frameBuffer[..])
    {
      if state.dots >= DOTS_PER_SCANLINE {
        NextVBlankState(s, cycles);
        StoreLy(bus);
      }
    }

    /** The state part of the end of HBlank. */
    method NextHBlankState(ghost s: PpuState, ghost cycles: nat)
      requires state == s.(dots := s.dots + cycles) && s.mode == HBlank && state.dots >= DOTS_PER_SCANLINE
      modifies this
      ensures state == Timed(s, cycles)
    {
      var line := NextLine(state.line);
      if line == GB_HEIGHT {
        state := state.(dots := state.dots % DOTS_PER_SCANLINE, line := line, mode := VBlank, vblankJustOccurred := true);
      } else {
        state := state.(dots := state.dots % DOTS_PER_SCANLINE, line := line, mode := OamScan);
      }
    }

    /** The state part of the end of a VBlank line. */
    method NextVBlankState(ghost s: PpuState, ghost cycles: nat)
      requires state == s.(dots := s.dots + cycles) && s.mode == VBlank && state.dots >= DOTS_PER_SCANLINE
      modifies this
      ensures state == Timed(s, cycles)
    {
      var line := NextLine(state.line);
      if line == SCANLINES_PER_FRAME {
        state := state.(dots := state.dots % DOTS_PER_SCANLINE, line := 0, mode := OamScan);
      } else {
        state := state.(dots := state.dots % DOTS_PER_SCANLINE, line := line);
      }
    }

    /** LY updated to the current line through `set_io_reg_direct`. */
    method StoreLy(bus: MemoryBus)
      requires bus.Valid()
      modifies bus.Repr()
      ensures bus.Valid() && bus.Repr() == old(bus.Repr())
      ensures bus.State() == SetIoRegDirect(old(bus.State()), LY_ADDR, LineByte(state.line))
    {
      bus.SetIoRegDirect(LY_ADDR, LineByte(state.line));
    }

    /** `check_lyc_coincidence`, `update_stat_register` and
        `check_and_request_interrupts`, in that order. */
    method SignalChanges(bus: MemoryBus)
      requires bus.Valid()
      modifies this, bus.Repr()
      ensures bus.Valid() && bus.Repr() == old(bus.Repr())
      ensures Signalled(state, bus.State()) == Signal(old(state), old(bus.State()))
    {
      CheckLycAndStat(bus);
      CheckAndRequestInterrupts(bus);
    }

    /** `check_lyc_coincidence` and `update_stat_register`. */
    method CheckLycAndStat(bus: MemoryBus)
      requires bus.Valid()
      modifies this, bus.Repr()
      ensures bus.Valid() && bus.Repr() == old(bus.Repr())
      ensures state == CheckLyc(old(state), old(bus.State()))
      ensures bus.State() == UpdateStat(state, old(bus.State()))
    {
      CheckLycCoincidence(bus);
      UpdateStatRegister(bus);
    }

    /** `check_lyc_coincidence`. */
    method CheckLycCoincidence(bus: MemoryBus)
      requires bus.Valid()
      modifies this
      ensures state == CheckLyc(old(state), bus.State())
    {
      var lyc := bus.ReadByte(LYC_ADDR);
      state := state.(lycEqLy := state.line == lyc as int);
    }

    /** `update_stat_register`. */
    method UpdateStatRegister(bus: MemoryBus)
      requires bus.Valid()
      modifies bus.Repr()
      ensures bus.Valid() && bus.Repr() == old(bus.Repr())
      ensures bus.State() == UpdateStat(state, old(bus.State()))
    {
      var writableBits := state.stat & 0x78;
      var newStat := writableBits | ModeBits(state.mode);
      if state.lycEqLy {
        newStat := newStat | BitMask(STAT_LYC_EQ_LY_FLAG);
      }
      newStat := newStat | 0x80;
      bus.SetIoRegDirect(STAT_ADDR, newStat);
    }

    /** `check_and_request_interrupts`. */
    method CheckAndRequestInterrupts(bus: MemoryBus)
      requires bus.Valid()
      modifies this, bus.Repr()
      ensures bus.Valid() && bus.Repr() == old(bus.Repr())
      ensures Signalled(state, bus.State()) == Interrupts(old(state), old(bus.State()))
    {
      RequestVBlank(bus);
      RequestStatOnRise(bus);
    }

    /** The VBlank part of `check_and_request_interrupts`. */
    method RequestVBlank(bus: MemoryBus)
      requires bus.Valid()
      modifies this, bus.Repr()
      ensures bus.Valid() && bus.Repr() == old(bus.Repr())
      ensures state == old(state).(vblankJustOccurred := false)
      ensures bus.State() == if old(state).vblankJustOccurred then RequestIf(old(bus.State()), VBLANK_INTERRUPT_BIT) else old(bus.State())
    {
      if state.vblankJustOccurred {
        RequestInterrupt(bus, VBLANK_INTERRUPT_BIT);
        state := state.(vblankJustOccurred := false);
      }
    }

    /** The STAT part of `check_and_request_interrupts`: the request on a
        rising line, and the line remembered. */
    method RequestStatOnRise(bus: MemoryBus)
      requires bus.Valid()
      modifies this, bus.Repr()
      ensures bus.Valid() && bus.Repr() == old(bus.Repr())
      ensures state == old(state).(statLine := StatInterruptNow(old(state)))
      ensures bus.State() == if StatInterruptNow(old(state)) && !old(state).statLine
        then RequestIf(old(bus.State()), LCD_STAT_INTERRUPT_BIT) else old(bus.State())
    {
      var statInterruptNow := StatInterruptLine();
      if statInterruptNow && !state.statLine {
        RequestInterrupt(bus, LCD_STAT_INTERRUPT_BIT);
      }
      state := state.(statLine := statInterruptNow);
    }

    /** The four STAT conditions, each enabled by its bit of the cached
        STAT. */
    method StatInterruptLine() returns (now: bool)
      ensures now == StatInterruptNow(state)
    {
      var statReg := state.stat;
      now := false;
      if BitSet(statReg, STAT_LYC_EQ_LY_IE) && state.lycEqLy {
        now := true;
      }
      if BitSet(statReg, STAT_MODE_0_HBLANK_IE) && state.mode == HBlank {
        now := true;
      }
      if BitSet(statReg, STAT_MODE_1_VBLANK_IE) && state.mode == VBlank {
        now := true;
      }
      if BitSet(statReg, STAT_MODE_2_OAM_IE) && state.mode == OamScan {
        now := true;
      }
    }

    /** `Ppu::request_interrupt`: IF read, and written back with the bit. */
    static method RequestInterrupt(bus: MemoryBus, bit: nat)
      requires bus.Valid() && bit < 8
      modifies bus.Repr()
      ensures bus.Valid() && bus.Repr() == old(bus.Repr())
      ensures bus.State() == RequestIf(old(bus.State()), bit)
    {
      var currentIf := bus.ReadByte(IF_ADDR);
      bus.SetIoRegDirect(IF_ADDR, currentIf | BitMask(bit));
    }
  }
}
