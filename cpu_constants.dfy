// The flag layout of the SM83's F register and the interrupt vectors
// (core/src/cpu/constants.rs; core/src/cpu.rs repeats the same values).
module CpuConstants {
  import opened MemoryMap

  const FLAG_Z_POS: nat := 7
  const FLAG_N_POS: nat := 6
  const FLAG_H_POS: nat := 5
  const FLAG_C_POS: nat := 4

  const FLAG_Z: bv8 := 1 << FLAG_Z_POS
  const FLAG_N: bv8 := 1 << FLAG_N_POS
  const FLAG_H: bv8 := 1 << FLAG_H_POS
  const FLAG_C: bv8 := 1 << FLAG_C_POS

  const VBLANK_VECTOR: bv16 := 0x0040
  const LCD_STAT_VECTOR: bv16 := 0x0048
  const TIMER_VECTOR: bv16 := 0x0050
  const SERIAL_VECTOR: bv16 := 0x0058
  const JOYPAD_VECTOR: bv16 := 0x0060

  /** The four flag masks are the bits 7, 6, 5 and 4, pairwise disjoint,
      and together they are the upper nibble of F. */
  lemma FlagMasks()
    ensures FLAG_Z == 0x80 && FLAG_N == 0x40 && FLAG_H == 0x20 && FLAG_C == 0x10
    ensures FLAG_Z & FLAG_N == 0 && FLAG_Z & FLAG_H == 0 && FLAG_Z & FLAG_C == 0
    ensures FLAG_N & FLAG_H == 0 && FLAG_N & FLAG_C == 0 && FLAG_H & FLAG_C == 0
    ensures FLAG_Z | FLAG_N | FLAG_H | FLAG_C == 0xF0
  {
  }

  /** The vector `handle_interrupts` jumps to for an interrupt bit, chosen
      by the same chain of comparisons as the dispatch. */
  function InterruptVector(bit: nat): (v: bv16)
    requires bit < 5
    ensures v as int == 0x40 + 8 * bit
  {
    if bit == VBLANK_INTERRUPT_BIT then VBLANK_VECTOR
    else if bit == LCD_STAT_INTERRUPT_BIT then LCD_STAT_VECTOR
    else if bit == TIMER_INTERRUPT_BIT then TIMER_VECTOR
    else if bit == SERIAL_INTERRUPT_BIT then SERIAL_VECTOR
    else JOYPAD_VECTOR
  }
}
