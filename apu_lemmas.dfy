// Properties of the APU register block (core/src/apu.rs): the closed form
// of the frame sequencer, the read masks, the write/read round trip, and
// the NR52 switch with its reset.
module ApuLemmas {
  import opened MemoryMap
  import opened ApuSpec

  // ---------------------------------------------------------------- the frame sequencer

  /** The loop takes 8192 cycles per sequencer step: it leaves the counter
      modulo 8192 and advances the step index by the counter divided by
      8192, modulo 8. */
  lemma {:induction false} SequencerClosedForm(counter: nat, step: nat)
    requires step < 8
    ensures RunSequencer(counter, step)
      == (counter % FRAME_SEQUENCER_DIVIDER, (step + counter / FRAME_SEQUENCER_DIVIDER) % 8)
    decreases counter
  {
    DividerIs8192();
    if counter < FRAME_SEQUENCER_DIVIDER {
      assert counter % 8192 == counter && counter / 8192 == 0;
    } else {
      var rest := counter - FRAME_SEQUENCER_DIVIDER;
      SequencerClosedForm(rest, (step + 1) % 8);
      OnePeriodLess(counter);
      var k := rest / FRAME_SEQUENCER_DIVIDER;
      assert k + 1 == counter / FRAME_SEQUENCER_DIVIDER;
      StepsAdd(step, 1, k);
      assert RunSequencer(counter, step) == RunSequencer(rest, (step + 1) % 8);
    }
  }

  lemma OnePeriodLess(counter: nat)
    requires counter >= FRAME_SEQUENCER_DIVIDER
    ensures (counter - FRAME_SEQUENCER_DIVIDER) % FRAME_SEQUENCER_DIVIDER == counter % FRAME_SEQUENCER_DIVIDER
    ensures (counter - FRAME_SEQUENCER_DIVIDER) / FRAME_SEQUENCER_DIVIDER == counter / FRAME_SEQUENCER_DIVIDER - 1
  {
    DividerIs8192();
  }

  lemma DividerIs8192()
    ensures FRAME_SEQUENCER_DIVIDER == 8192
  {
  }

  /** An enabled step adds the cycles to the counter and advances the
      sequencer by (old counter + cycles) / 8192 steps modulo 8; a disabled
      step changes nothing. Only the two counters change. */
  lemma StepAdvances(s: ApuState, cycles: nat)
    requires ApuValid(s)
    ensures !s.enabled ==> ApuStep(s, cycles) == s
    ensures s.enabled ==> var total := s.cycleCounter + cycles;
      ApuStep(s, cycles) == s.(cycleCounter := total % FRAME_SEQUENCER_DIVIDER,
        frameSequencerStep := (s.frameSequencerStep + total / FRAME_SEQUENCER_DIVIDER) % 8)
  {
    if s.enabled {
      SequencerClosedForm(s.cycleCounter + cycles, s.frameSequencerStep);
    }
  }

  /** Two steps of `a` and `b` cycles have the effect of one step of
      `a + b` cycles: the sequencer loses no cycle. */
  lemma StepsCompose(s: ApuState, a: nat, b: nat)
    requires ApuValid(s)
    ensures ApuStep(ApuStep(s, a), b) == ApuStep(s, a + b)
  {
    if s.enabled {
      var t := ApuStep(s, a);
      StepAdvances(s, a);
      StepAdvances(t, b);
      StepAdvances(s, a + b);
      var total := s.cycleCounter + a;
      SplitPeriods(total, b);
      StepsAdd(s.frameSequencerStep, total / FRAME_SEQUENCER_DIVIDER, (total % FRAME_SEQUENCER_DIVIDER + b) / FRAME_SEQUENCER_DIVIDER);
    }
  }

  lemma SplitPeriods(total: nat, b: nat)
    ensures (total % FRAME_SEQUENCER_DIVIDER + b) % FRAME_SEQUENCER_DIVIDER == (total + b) % FRAME_SEQUENCER_DIVIDER
    ensures total / FRAME_SEQUENCER_DIVIDER + (total % FRAME_SEQUENCER_DIVIDER + b) / FRAME_SEQUENCER_DIVIDER
      == (total + b) / FRAME_SEQUENCER_DIVIDER
  {
    DividerIs8192();
    var q := total / 8192;
    var r := total % 8192;
    assert total + b == q * 8192 + (r + b);
  }

  lemma StepsAdd(step: nat, k1: nat, k2: nat)
    ensures ((step + k1) % 8 + k2) % 8 == (step + (k1 + k2)) % 8
  {
  }

  /** Every eight sequencer steps clock the length counters four times
      (256 Hz), the sweep twice (128 Hz) and the envelopes once (64 Hz). */
  lemma SequencerRates()
    ensures |set i | 0 <= i < 8 && SequencerClocks(i).length| == 4
    ensures |set i | 0 <= i < 8 && SequencerClocks(i).sweep| == 2
    ensures |set i | 0 <= i < 8 && SequencerClocks(i).envelope| == 1
  {
    assert (set i | 0 <= i < 8 && SequencerClocks(i).length) == {0, 2, 4, 6};
    assert (set i | 0 <= i < 8 && SequencerClocks(i).sweep) == {2, 6};
    assert (set i | 0 <= i < 8 && SequencerClocks(i).envelope) == {7};
  }

  // ---------------------------------------------------------------- reads

  /** The registers `read_byte` mirrors: the readable channel registers
      and NR50/NR51. */
  predicate Mirrored(addr: Addr)
  {
    addr in {NR10_ADDR, NR11_ADDR, NR12_ADDR, NR14_ADDR, NR21_ADDR, NR22_ADDR, NR24_ADDR,
             NR30_ADDR, NR32_ADDR, NR34_ADDR, NR42_ADDR, NR43_ADDR, NR44_ADDR, NR50_ADDR, NR51_ADDR}
  }

  /** The bits of a mirrored register that always read as 1. */
  function ReadMask(addr: Addr): bv8
    requires Mirrored(addr)
  {
    if addr == NR10_ADDR then 0x80
    else if addr == NR11_ADDR || addr == NR21_ADDR then 0x3F
    else if addr == NR14_ADDR || addr == NR24_ADDR || addr == NR34_ADDR || addr == NR44_ADDR then 0xBF
    else if addr == NR30_ADDR then 0x7F
    else if addr == NR32_ADDR then 0x9F
    else 0x00
  }

  /** NR52 reads bit 7 as the master switch, bits 4-6 as 1 and bits 0-3 as
      the four channel flags. */
  lemma Nr52Bits(s: ApuState)
    ensures (ApuRead(s, NR52_ADDR) & 0x80 != 0) == s.enabled
    ensures ApuRead(s, NR52_ADDR) & 0x70 == 0x70
    ensures ApuRead(s, NR52_ADDR) & 0x0F
      == (if s.active.ch1 then 0x01 else 0x00) | (if s.active.ch2 then 0x02 else 0x00)
       | (if s.active.ch3 then 0x04 else 0x00) | (if s.active.ch4 then 0x08 else 0x00)
  {
    var n := ApuRead(s, NR52_ADDR);
    assert n == Nr52(s);
  }

  /** The write-only registers and every address that is neither mirrored
      nor NR52 read as 0xFF; a mirrored register reads with its mask bits
      set. */
  lemma ReadMasks(s: ApuState, addr: Addr)
    ensures !Mirrored(addr) && addr != NR52_ADDR ==> ApuRead(s, addr) == 0xFF
    ensures Mirrored(addr) ==> ApuRead(s, addr) & ReadMask(addr) == ReadMask(addr)
  {
  }

  // ---------------------------------------------------------------- writes

  /** The byte a mirrored register holds, without the read mask. The
      lookup is kept apart from `ApuRead` so that the store lemmas below
      can name the register a write lands in, and `ReadIsMirror` ties the
      two together. */
  function Mirror(s: ApuState, addr: Addr): U8
    requires Mirrored(addr)
  {
    var r := s.regs;
    if addr == NR10_ADDR then r.nr10
    else if addr == NR11_ADDR then r.nr11
    else if addr == NR12_ADDR then r.nr12
    else if addr == NR14_ADDR then r.nr14
    else if addr == NR21_ADDR then r.nr21
    else if addr == NR22_ADDR then r.nr22
    else if addr == NR24_ADDR then r.nr24
    else if addr == NR30_ADDR then r.nr30
    else if addr == NR32_ADDR then r.nr32
    else if addr == NR34_ADDR then r.nr34
    else if addr == NR42_ADDR then r.nr42
    else if addr == NR43_ADDR then r.nr43
    else if addr == NR44_ADDR then r.nr44
    else if addr == NR50_ADDR then s.nr50
    else s.nr51
  }

  /** A mirrored register reads as the byte it holds with its mask bits
      set. */
  lemma ReadIsMirror(s: ApuState, addr: Addr)
    requires Mirrored(addr)
    ensures ApuRead(s, addr) == Mirror(s, addr) as bv8 | ReadMask(addr)
  {
  }

  /** The store puts the byte into its own register and leaves every other
      mirrored register alone. */
  lemma StoreSets(s: ApuState, addr: Addr, v: U8, other: Addr)
    requires Mirrored(addr) && Mirrored(other)
    ensures Mirror(StoreRegister(s, addr, v), other) == if other == addr then v else Mirror(s, other)
  {
    StoreKeepsFields(s, addr, v);
  }

  /** With the APU on, a byte written to a mirrored register reads back
      with the register's mask bits set. */
  lemma WriteReadRoundTrip(s: ApuState, addr: Addr, v: U8)
    requires s.enabled && Mirrored(addr)
    ensures ApuRead(ApuWrite(s, addr, v), addr) == v as bv8 | ReadMask(addr)
  {
    StoreReadsBack(s, addr, v);
  }

  lemma StoreReadsBack(s: ApuState, addr: Addr, v: U8)
    requires Mirrored(addr)
    ensures ApuRead(StoreRegister(s, addr, v), addr) == v as bv8 | ReadMask(addr)
  {
    var r := StoreRegister(s, addr, v);
    StoreSets(s, addr, v, addr);
    ReadIsMirror(r, addr);
  }

  /** A write to any register but NR52 leaves every other register's
      reading, and the counters, alone. */
  lemma WriteFrame(s: ApuState, addr: Addr, v: U8, other: Addr)
    requires addr != NR52_ADDR && other != addr
    ensures ApuRead(ApuWrite(s, addr, v), other) == ApuRead(s, other)
    ensures var r := ApuWrite(s, addr, v);
      r.cycleCounter == s.cycleCounter && r.frameSequencerStep == s.frameSequencerStep
      && r.enabled == s.enabled && r.active == s.active
  {
    if s.enabled || WAVE_PATTERN_RAM_START <= addr <= WAVE_PATTERN_RAM_END {
      StoreFrame(s, addr, v, other);
    }
  }

  lemma StoreFrame(s: ApuState, addr: Addr, v: U8, other: Addr)
    requires addr != NR52_ADDR && other != addr
    ensures ApuRead(StoreRegister(s, addr, v), other) == ApuRead(s, other)
    ensures var r := StoreRegister(s, addr, v);
      r.cycleCounter == s.cycleCounter && r.frameSequencerStep == s.frameSequencerStep
      && r.enabled == s.enabled && r.active == s.active
  {
    var r := StoreRegister(s, addr, v);
    StoreKeepsFields(s, addr, v);
    if Mirrored(other) {
      ReadIsMirror(s, other);
      ReadIsMirror(r, other);
      if Mirrored(addr) {
        StoreSets(s, addr, v, other);
      } else {
        assert r == s;
      }
    } else if other == NR52_ADDR {
      assert Nr52(r) == Nr52(s);
    }
  }

  /** The store changes only the field of its own address. */
  lemma StoreKeepsFields(s: ApuState, addr: Addr, v: U8)
    ensures var r := StoreRegister(s, addr, v);
      r.cycleCounter == s.cycleCounter && r.frameSequencerStep == s.frameSequencerStep
      && r.enabled == s.enabled && r.active == s.active
      && (addr != NR10_ADDR ==> r.regs.nr10 == s.regs.nr10)
      && (addr != NR11_ADDR ==> r.regs.nr11 == s.regs.nr11)
      && (addr != NR12_ADDR ==> r.regs.nr12 == s.regs.nr12)
      && (addr != NR14_ADDR ==> r.regs.nr14 == s.regs.nr14)
      && (addr != NR21_ADDR ==> r.regs.nr21 == s.regs.nr21)
      && (addr != NR22_ADDR ==> r.regs.nr22 == s.regs.nr22)
      && (addr != NR24_ADDR ==> r.regs.nr24 == s.regs.nr24)
      && (addr != NR30_ADDR ==> r.regs.nr30 == s.regs.nr30)
      && (addr != NR32_ADDR ==> r.regs.nr32 == s.regs.nr32)
      && (addr != NR34_ADDR ==> r.regs.nr34 == s.regs.nr34)
      && (addr != NR42_ADDR ==> r.regs.nr42 == s.regs.nr42)
      && (addr != NR43_ADDR ==> r.regs.nr43 == s.regs.nr43)
      && (addr != NR44_ADDR ==> r.regs.nr44 == s.regs.nr44)
      && (addr != NR50_ADDR ==> r.nr50 == s.nr50)
      && (addr != NR51_ADDR ==> r.nr51 == s.nr51)
  {
  }

  /** With the APU off, a write to any address but NR52 changes nothing. */
  lemma DisabledWriteIgnored(s: ApuState, addr: Addr, v: U8)
    requires !s.enabled && addr != NR52_ADDR
    ensures ApuWrite(s, addr, v) == s
  {
    if WAVE_PATTERN_RAM_START <= addr <= WAVE_PATTERN_RAM_END {
      assert !Mirrored(addr);
    }
  }

  /** A write to NR52 sets the master switch from bit 7. Switching from on
      to off clears the counters and the channel flags and brings every
      register except NR50 and NR51 back to its power-on reading; any other
      NR52 write changes only the switch. */
  lemma Nr52Write(s: ApuState, v: U8)
    ensures ApuWrite(s, NR52_ADDR, v).enabled == (v as bv8 & 0x80 != 0)
    ensures s.enabled && v as bv8 & 0x80 == 0 ==> var r := ApuWrite(s, NR52_ADDR, v);
      r.cycleCounter == 0 && r.frameSequencerStep == 0 && r.active == NO_CHANNEL_ACTIVE
      && r.nr50 == s.nr50 && r.nr51 == s.nr51
      && forall addr: Addr :: addr != NR50_ADDR && addr != NR51_ADDR ==> ApuRead(r, addr) == ApuRead(NewApu(), addr)
    ensures !(s.enabled && v as bv8 & 0x80 == 0) ==> ApuWrite(s, NR52_ADDR, v) == s.(enabled := v as bv8 & 0x80 != 0)
  {
    if s.enabled && v as bv8 & 0x80 == 0 {
      var r := ApuWrite(s, NR52_ADDR, v);
      assert r == ResetApu(s.(enabled := false));
      forall addr: Addr | addr != NR50_ADDR && addr != NR51_ADDR
        ensures ApuRead(r, addr) == ApuRead(NewApu(), addr)
      {
        ResetReadsDefault(s.(enabled := false), addr);
      }
    }
  }

  lemma ResetReadsDefault(s: ApuState, addr: Addr)
    requires !s.enabled && addr != NR50_ADDR && addr != NR51_ADDR
    ensures ApuRead(ResetApu(s), addr) == ApuRead(NewApu(), addr)
  {
    if addr == NR52_ADDR {
      assert Nr52(ResetApu(s)) == Nr52(NewApu());
    }
  }

  /** Writes keep the counters' ranges. */
  lemma WriteKeepsValid(s: ApuState, addr: Addr, v: U8)
    requires ApuValid(s)
    ensures ApuValid(ApuWrite(s, addr, v))
  {
    if addr != NR52_ADDR {
      WriteFrame(s, addr, v, NR52_ADDR);
    }
  }
}
