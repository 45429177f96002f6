// The `Apu` struct of core/src/apu.rs as a class whose methods update its
// fields in place; each method is proved against the functions of ApuSpec.
// The thirteen mirrored channel registers are kept together in one
// `ChannelRegs` value and the four channel flags in one `ChannelFlags`.
module ApuUnit {
  import opened MemoryMap
  import opened ApuSpec

  class Apu {
    var cycleCounter: nat
    var frameSequencerStep: nat
    var enabled: bool
    var nr50: U8
    var nr51: U8
    var regs: ChannelRegs
    var active: ChannelFlags

    /** The fields as one value. */
    function State(): ApuState
      reads this
    {
      ApuState(cycleCounter, frameSequencerStep, enabled, nr50, nr51, regs, active)
    }

    predicate Valid()
      reads this
    {
      ApuValid(State())
    }

    /** `Apu::new`. */
    constructor()
      ensures State() == NewApu() && Valid()
    {
      cycleCounter := 0;
      frameSequencerStep := 0;
      enabled := false;
      nr50 := NR50_DEFAULT;
      nr51 := NR51_DEFAULT;
      regs := DefaultRegs();
      active := NO_CHANNEL_ACTIVE;
    }

    /** `step`: while enabled, the cycles are added to the counter and one
        sequencer step is taken for every 8192 of them. The length, sweep
        and envelope units the step would clock have no effect in the
        source. */
    method Step(cycles: nat)
      requires Valid()
      modifies this
      ensures Valid()
      ensures State() == ApuStep(old(State()), cycles)
    {
      if !enabled {
        return;
      }
      ghost var s := State();
      cycleCounter := cycleCounter + cycles;
      while cycleCounter >= FRAME_SEQUENCER_DIVIDER
        invariant frameSequencerStep < 8
        invariant RunSequencer(cycleCounter, frameSequencerStep)
          == RunSequencer(s.cycleCounter + cycles, s.frameSequencerStep)
        invariant State() == s.(cycleCounter := cycleCounter, frameSequencerStep := frameSequencerStep)
        decreases cycleCounter
      {
        cycleCounter := cycleCounter - FRAME_SEQUENCER_DIVIDER;
        frameSequencerStep := (frameSequencerStep + 1) % 8;
      }
    }

    /** `read_byte`: the mirrored registers with their unreadable bits set,
        NR52 built from the master switch and the channel flags, and 0xFF
        for every other address. */
    method ReadByte(addr: Addr) returns (v: bv8)
      ensures v == ApuRead(State(), addr)
    {
      if addr == NR10_ADDR { v := regs.nr10 as bv8 | 0x80; }
      else if addr == NR11_ADDR { v := regs.nr11 as bv8 | 0x3F; }
      else if addr == NR12_ADDR { v := regs.nr12 as bv8; }
      else if addr == NR13_ADDR { v := 0xFF; }
      else if addr == NR14_ADDR { v := regs.nr14 as bv8 | 0xBF; }
      else if addr == NR21_ADDR { v := regs.nr21 as bv8 | 0x3F; }
      else if addr == NR22_ADDR { v := regs.nr22 as bv8; }
      else if addr == NR23_ADDR { v := 0xFF; }
      else if addr == NR24_ADDR { v := regs.nr24 as bv8 | 0xBF; }
      else if addr == NR30_ADDR { v := regs.nr30 as bv8 | 0x7F; }
      else if addr == NR31_ADDR { v := 0xFF; }
      else if addr == NR32_ADDR { v := regs.nr32 as bv8 | 0x9F; }
      else if addr == NR33_ADDR { v := 0xFF; }
      else if addr == NR34_ADDR { v := regs.nr34 as bv8 | 0xBF; }
      else if addr == NR41_ADDR { v := 0xFF; }
      else if addr == NR42_ADDR { v := regs.nr42 as bv8; }
      else if addr == NR43_ADDR { v := regs.nr43 as bv8; }
      else if addr == NR44_ADDR { v := regs.nr44 as bv8 | 0xBF; }
      else if addr == NR50_ADDR { v := nr50 as bv8; }
      else if addr == NR51_ADDR { v := nr51 as bv8; }
      else if addr == NR52_ADDR { v := ReadNr52(); }
      else { v := 0xFF; }
    }

    /** The NR52 arm of `read_byte`, built bit by bit. */
    method ReadNr52() returns (nr52: bv8)
      ensures nr52 == Nr52(State())
    {
      nr52 := 0;
      if enabled { nr52 := nr52 | 0x80; }
      if active.ch1 { nr52 := nr52 | 0x01; }
      if active.ch2 { nr52 := nr52 | 0x02; }
      if active.ch3 { nr52 := nr52 | 0x04; }
      if active.ch4 { nr52 := nr52 | 0x08; }
      nr52 := nr52 | 0x70;
    }

    /** `write_byte`: an NR52 write sets the master switch and resets the
        unit when it goes from on to off; with the unit off every other
        write outside wave RAM is dropped; otherwise the byte is mirrored
        into its register. */
    method WriteByte(addr: Addr, value: U8)
      modifies this
      ensures State() == ApuWrite(old(State()), addr, value)
    {
      if addr == NR52_ADDR {
        var previous := enabled;
        enabled := value as bv8 & 0x80 != 0;
        if previous && !enabled {
          ResetApuStateAndRegisters();
        }
        return;
      }
      if !enabled {
        if !(WAVE_PATTERN_RAM_START <= addr <= WAVE_PATTERN_RAM_END) {
          return;
        }
      }
      StoreMirrored(addr, value);
    }

    /** The `match` of `write_byte`. */
    method StoreMirrored(addr: Addr, value: U8)
      modifies this
      ensures State() == StoreRegister(old(State()), addr, value)
    {
      if addr == NR10_ADDR { regs := regs.(nr10 := value); }
      else if addr == NR11_ADDR { regs := regs.(nr11 := value); }
      else if addr == NR12_ADDR { regs := regs.(nr12 := value); }
      else if addr == NR14_ADDR { regs := regs.(nr14 := value); }
      else if addr == NR21_ADDR { regs := regs.(nr21 := value); }
      else if addr == NR22_ADDR { regs := regs.(nr22 := value); }
      else if addr == NR24_ADDR { regs := regs.(nr24 := value); }
      else if addr == NR30_ADDR { regs := regs.(nr30 := value); }
      else if addr == NR32_ADDR { regs := regs.(nr32 := value); }
      else if addr == NR34_ADDR { regs := regs.(nr34 := value); }
      else if addr == NR42_ADDR { regs := regs.(nr42 := value); }
      else if addr == NR43_ADDR { regs := regs.(nr43 := value); }
      else if addr == NR44_ADDR { regs := regs.(nr44 := value); }
      else if addr == NR50_ADDR { nr50 := value; }
      else if addr == NR51_ADDR { nr51 := value; }
    }

    /** `reset_apu_state_and_registers`: NR50, NR51 and the master switch
        are kept. */
    method ResetApuStateAndRegisters()
      modifies this
      ensures State() == ResetApu(old(State()))
    {
      cycleCounter := 0;
      frameSequencerStep := 0;
      regs := DefaultRegs();
      active := NO_CHANNEL_ACTIVE;
    }
  }
}
