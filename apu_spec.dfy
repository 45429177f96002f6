// The register block of the APU (core/src/apu.rs) as functions of its
// state: the frame-sequencer counter, the mirrored sound registers with
// their read masks, and the NR52 master switch. No sound is produced: the
// length, sweep and envelope clocks are empty in the source.
module ApuSpec {
  import opened MemoryMap

  const CPU_FREQ: nat := 4194304
  const FRAME_SEQUENCER_FREQ_HZ: nat := 512
  /** T-cycles per frame-sequencer step: 4194304 / 512 = 8192. */
  const FRAME_SEQUENCER_DIVIDER: nat := CPU_FREQ / FRAME_SEQUENCER_FREQ_HZ

  /** A byte as an integer: the mirrored registers are kept as numbers
      and read back as bit vectors. */
  type U8 = x: int | 0 <= x < 0x100

  const NR10_DEFAULT: U8 := 0x80
  const NR11_DEFAULT: U8 := 0xBF
  const NR12_DEFAULT: U8 := 0xF3
  const NR14_DEFAULT: U8 := 0xBF
  const NR21_DEFAULT: U8 := 0x3F
  const NR22_DEFAULT: U8 := 0x00
  const NR24_DEFAULT: U8 := 0xBF
  const NR30_DEFAULT: U8 := 0x7F
  const NR32_DEFAULT: U8 := 0x9F
  const NR34_DEFAULT: U8 := 0xBF
  const NR42_DEFAULT: U8 := 0x00
  const NR43_DEFAULT: U8 := 0x00
  const NR44_DEFAULT: U8 := 0xBF
  const NR50_DEFAULT: U8 := 0x77
  const NR51_DEFAULT: U8 := 0xF3

  /** The thirteen mirrored channel registers: the last byte written to
      each readable register of the four channels (NR13, NR23, NR31, NR33
      and NR41 are write-only and not kept). */
  datatype ChannelRegs = ChannelRegs(
    nr10: U8, nr11: U8, nr12: U8, nr14: U8,
    nr21: U8, nr22: U8, nr24: U8,
    nr30: U8, nr32: U8, nr34: U8,
    nr42: U8, nr43: U8, nr44: U8)

  /** The four channel-active placeholders NR52 reports. */
  datatype ChannelFlags = ChannelFlags(ch1: bool, ch2: bool, ch3: bool, ch4: bool)

  /** The fields of the `Apu` struct. */
  datatype ApuState = ApuState(
    cycleCounter: nat,
    frameSequencerStep: nat,
    enabled: bool,
    nr50: U8,
    nr51: U8,
    regs: ChannelRegs,
    active: ChannelFlags)

  /** The power-on values of the channel registers. */
  function DefaultRegs(): ChannelRegs
  {
    ChannelRegs(NR10_DEFAULT, NR11_DEFAULT, NR12_DEFAULT, NR14_DEFAULT,
      NR21_DEFAULT, NR22_DEFAULT, NR24_DEFAULT,
      NR30_DEFAULT, NR32_DEFAULT, NR34_DEFAULT,
      NR42_DEFAULT, NR43_DEFAULT, NR44_DEFAULT)
  }

  const NO_CHANNEL_ACTIVE := ChannelFlags(false, false, false, false)

  /** `Apu::new`: disabled, the counters at 0, the registers at their
      power-on values and no channel active. */
  function NewApu(): (s: ApuState)
    ensures ApuValid(s) && !s.enabled
  {
    ApuState(0, 0, false, NR50_DEFAULT, NR51_DEFAULT, DefaultRegs(), NO_CHANNEL_ACTIVE)
  }

  /** The counters' ranges: below one sequencer period and one of the
      eight sequencer steps. */
  predicate ApuValid(s: ApuState)
  {
    s.cycleCounter < FRAME_SEQUENCER_DIVIDER && s.frameSequencerStep < 8
  }

  // ---------------------------------------------------------------- step

  /** The `while` loop of `step`: one sequencer step per 8192 cycles taken
      from the counter, the step index wrapping at 8. Returns the counter
      and the step index the loop leaves. */
  function RunSequencer(counter: nat, step: nat): (r: (nat, nat))
    requires step < 8
    ensures r.0 < FRAME_SEQUENCER_DIVIDER && r.1 < 8
    decreases counter
  {
    if counter < FRAME_SEQUENCER_DIVIDER then (counter, step)
    else RunSequencer(counter - FRAME_SEQUENCER_DIVIDER, (step + 1) % 8)
  }

  /** `step`: nothing while disabled; otherwise the cycles are added to the
      counter and the sequencer runs. */
  function ApuStep(s: ApuState, cycles: nat): (r: ApuState)
    requires ApuValid(s)
    ensures ApuValid(r)
  {
    if !s.enabled then s
    else
      var (counter, step) := RunSequencer(s.cycleCounter + cycles, s.frameSequencerStep);
      s.(cycleCounter := counter, frameSequencerStep := step)
  }

  /** The units a sequencer step clocks (their clocks are empty in the
      source). */
  datatype UnitClocks = UnitClocks(length: bool, sweep: bool, envelope: bool)

  /** The `match` on the sequencer step: length on steps 0, 2, 4 and 6,
      sweep with it on 2 and 6, envelope on 7. */
  function SequencerClocks(step: nat): (c: UnitClocks)
    requires step < 8
    ensures c.length <==> step % 2 == 0
    ensures c.sweep <==> step % 4 == 2
    ensures c.envelope <==> step == 7
  {
    match step
    case 0 => UnitClocks(true, false, false)
    case 1 => UnitClocks(false, false, false)
    case 2 => UnitClocks(true, true, false)
    case 3 => UnitClocks(false, false, false)
    case 4 => UnitClocks(true, false, false)
    case 5 => UnitClocks(false, false, false)
    case 6 => UnitClocks(true, true, false)
    case 7 => UnitClocks(false, false, true)
  }

  // ---------------------------------------------------------------- reads

  /** NR52 as built from the state: bit 7 the master switch, bits 0-3 the
      channel flags, bits 4-6 always 1. */
  function Nr52(s: ApuState): bv8
  {
    var nr52: bv8 := if s.enabled then 0x80 else 0x00;
    var nr52 := if s.active.ch1 then nr52 | 0x01 else nr52;
    var nr52 := if s.active.ch2 then nr52 | 0x02 else nr52;
    var nr52 := if s.active.ch3 then nr52 | 0x04 else nr52;
    var nr52 := if s.active.ch4 then nr52 | 0x08 else nr52;
    nr52 | 0x70
  }

  /** `read_byte`: a mirrored register with its unreadable bits set, NR52
      as built, and 0xFF for the write-only registers and any other
      address. */
  function ApuRead(s: ApuState, addr: Addr): bv8
  {
    var r := s.regs;
    if addr == NR10_ADDR then r.nr10 as bv8 | 0x80
    else if addr == NR11_ADDR then r.nr11 as bv8 | 0x3F
    else if addr == NR12_ADDR then r.nr12 as bv8
    else if addr == NR13_ADDR then 0xFF
    else if addr == NR14_ADDR then r.nr14 as bv8 | 0xBF
    else if addr == NR21_ADDR then r.nr21 as bv8 | 0x3F
    else if addr == NR22_ADDR then r.nr22 as bv8
    else if addr == NR23_ADDR then 0xFF
    else if addr == NR24_ADDR then r.nr24 as bv8 | 0xBF
    else if addr == NR30_ADDR then r.nr30 as bv8 | 0x7F
    else if addr == NR31_ADDR then 0xFF
    else if addr == NR32_ADDR then r.nr32 as bv8 | 0x9F
    else if addr == NR33_ADDR then 0xFF
    else if addr == NR34_ADDR then r.nr34 as bv8 | 0xBF
    else if addr == NR41_ADDR then 0xFF
    else if addr == NR42_ADDR then r.nr42 as bv8
    else if addr == NR43_ADDR then r.nr43 as bv8
    else if addr == NR44_ADDR then r.nr44 as bv8 | 0xBF
    else if addr == NR50_ADDR then s.nr50 as bv8
    else if addr == NR51_ADDR then s.nr51 as bv8
    else if addr == NR52_ADDR then Nr52(s)
    else 0xFF
  }

  // ---------------------------------------------------------------- writes

  /** `reset_apu_state_and_registers`: the counters cleared, the channel
      registers back to their power-on values and the channel flags
      cleared; NR50, NR51 and the master switch are kept. */
  function ResetApu(s: ApuState): (r: ApuState)
    ensures ApuValid(r)
  {
    s.(cycleCounter := 0, frameSequencerStep := 0, regs := DefaultRegs(), active := NO_CHANNEL_ACTIVE)
  }

  /** The `match` of `write_byte`: the byte mirrored into its register;
      write-only, unused and read-only addresses are ignored. */
  function StoreRegister(s: ApuState, addr: Addr, v: U8): ApuState
  {
    var r := s.regs;
    if addr == NR10_ADDR then s.(regs := r.(nr10 := v))
    else if addr == NR11_ADDR then s.(regs := r.(nr11 := v))
    else if addr == NR12_ADDR then s.(regs := r.(nr12 := v))
    else if addr == NR14_ADDR then s.(regs := r.(nr14 := v))
    else if addr == NR21_ADDR then s.(regs := r.(nr21 := v))
    else if addr == NR22_ADDR then s.(regs := r.(nr22 := v))
    else if addr == NR24_ADDR then s.(regs := r.(nr24 := v))
    else if addr == NR30_ADDR then s.(regs := r.(nr30 := v))
    else if addr == NR32_ADDR then s.(regs := r.(nr32 := v))
    else if addr == NR34_ADDR then s.(regs := r.(nr34 := v))
    else if addr == NR42_ADDR then s.(regs := r.(nr42 := v))
    else if addr == NR43_ADDR then s.(regs := r.(nr43 := v))
    else if addr == NR44_ADDR then s.(regs := r.(nr44 := v))
    else if addr == NR50_ADDR then s.(nr50 := v)
    else if addr == NR51_ADDR then s.(nr51 := v)
    else s
  }

  /** A write to NR52: the master switch from bit 7, and the reset when it
      goes from on to off. */
  function WriteNr52(s: ApuState, v: U8): ApuState
  {
    var on := v as bv8 & 0x80 != 0;
    if s.enabled && !on then ResetApu(s.(enabled := on)) else s.(enabled := on)
  }

  /** `write_byte`: NR52 first; with the APU off every other register
      write is dropped (wave RAM is let through to the `match`, which
      ignores it); otherwise the byte is stored. */
  function ApuWrite(s: ApuState, addr: Addr, v: U8): ApuState
  {
    if addr == NR52_ADDR then WriteNr52(s, v)
    else if !s.enabled && !(WAVE_PATTERN_RAM_START <= addr <= WAVE_PATTERN_RAM_END) then s
    else StoreRegister(s, addr, v)
  }
}
