// The value-level arithmetic of the SM83 core: `set_flag`/`get_flag` and
// the ALU, rotate, shift, bit and DAA helpers of core/src/cpu/mod.rs
// (repeated verbatim in core/src/cpu.rs). Each helper is written as the
// source computes it, as a chain of `set_flag` updates on F, and its
// contract states what the result means as numbers: the sum modulo 256,
// the carry out of bit 3 and bit 7, the bits a rotation moves.
module Alu {
  import opened Bits
  import opened CpuConstants

  /** The accumulator (or operand) after an ALU helper, and the new F. */
  datatype AluOut = AluOut(value: bv8, flags: bv8)

  /** `get_flag`. */
  predicate Flag(f: bv8, mask: bv8)
  {
    f & mask != 0
  }

  /** `set_flag`: set or clear the masked bits, then clear F's low nibble. */
  function SetFlag(f: bv8, mask: bv8, on: bool): (r: bv8)
    ensures r & 0x0F == 0
    ensures r & 0xF0 & !mask == f & 0xF0 & !mask
    ensures r & mask & 0xF0 == (if on then mask & 0xF0 else 0)
  {
    (if on then f | mask else f & !mask) & 0xF0
  }

  /** Four `set_flag` calls in a row, Z, N, H and C, as the ALU helpers
      make them. */
  function SetFlags(f: bv8, z: bool, n: bool, h: bool, c: bool): (g: bv8)
    ensures (Flag(g, FLAG_Z) <==> z) && (Flag(g, FLAG_N) <==> n)
    ensures (Flag(g, FLAG_H) <==> h) && (Flag(g, FLAG_C) <==> c)
    ensures g & 0x0F == 0
  {
    SetFlag(SetFlag(SetFlag(SetFlag(f, FLAG_Z, z), FLAG_N, n), FLAG_H, h), FLAG_C, c)
  }

  /** The carry-in of ADC/SBC: the C flag when `use_carry` is passed. */
  function CarryIn(f: bv8, useCarry: bool): (cin: bv8)
    ensures cin <= 1 && (cin == 1 <==> useCarry && Flag(f, FLAG_C))
  {
    if useCarry && Flag(f, FLAG_C) then 1 else 0
  }

  /** `u8::overflowing_add`. */
  function OverflowingAdd(x: bv8, y: bv8): (bv8, bool)
  {
    (x + y, (x as bv16) + (y as bv16) > 0xFF)
  }

  /** `u8::overflowing_sub`. */
  function OverflowingSub(x: bv8, y: bv8): (bv8, bool)
  {
    (x - y, x < y)
  }

  /** The nine-bit sum `a + v + cin` that ADD and ADC compute, and the
      (wrapped) difference `a - v - cin` of SUB, SBC and CP. */
  function WideSum(a: bv8, v: bv8, cin: bv8): bv16
  {
    (a as bv16) + (v as bv16) + (cin as bv16)
  }

  function WideDifference(a: bv8, v: bv8, cin: bv8): bv16
  {
    (a as bv16) - (v as bv16) - (cin as bv16)
  }

  /** Whether a carry (or borrow) crossed from bit 3 into bit 4 while `x`
      and `y` were combined into `w`. */
  predicate NibbleCarry(w: bv16, x: bv8, y: bv8)
  {
    (w ^ (x as bv16) ^ (y as bv16)) & 0x10 != 0
  }

  /** The carries `add_a` computes in two overflowing steps, and the
      representation of the nine-bit sum. */
  lemma AddCarries(a: bv8, v: bv8, cin: bv8)
    requires cin <= 1
    ensures var w := WideSum(a, v, cin);
      && (a + v + cin) as bv16 == w & 0xFF
      && (OverflowingAdd(a, v).1 || OverflowingAdd(a + v, cin).1 <==> w > 0xFF)
      && ((a & 0x0F) + (v & 0x0F) + cin > 0x0F <==> NibbleCarry(w, a, v))
  {
  }

  /** The borrows `sub_a` computes in two overflowing steps. */
  lemma SubBorrows(a: bv8, v: bv8, cin: bv8)
    requires cin <= 1
    ensures OverflowingSub(a, v).1 || OverflowingSub(a - v, cin).1 <==> (a as bv16) < (v as bv16) + (cin as bv16)
    ensures (a & 0x0F) < (v & 0x0F) + cin <==> NibbleCarry(WideDifference(a, v, cin), a, v)
  {
  }

  /** `add_a` (ADD and ADC). */
  function AddA(a: bv8, f: bv8, v: bv8, useCarry: bool): (r: AluOut)
    ensures (Flag(r.flags, FLAG_Z) <==> r.value == 0) && !Flag(r.flags, FLAG_N)
    ensures r.flags & 0x0F == 0
  {
    var cin := CarryIn(f, useCarry);
    var step1 := OverflowingAdd(a, v);
    var step2 := OverflowingAdd(step1.0, cin);
    var halfCarry := (a & 0x0F) + (v & 0x0F) + cin > 0x0F;
    AluOut(step2.0, SetFlags(f, step2.0 == 0, false, halfCarry, step1.1 || step2.1))
  }

  /** ADD and ADC produce the nine-bit sum of A, the operand and the
      carry-in: its low byte is the result, H is the carry into bit 4 and
      C the carry out of bit 7. */
  lemma AddAArithmetic(a: bv8, f: bv8, v: bv8, useCarry: bool)
    ensures var r := AddA(a, f, v, useCarry);
      var w := WideSum(a, v, CarryIn(f, useCarry));
      && r.value as bv16 == w & 0xFF
      && (Flag(r.flags, FLAG_H) <==> NibbleCarry(w, a, v))
      && (Flag(r.flags, FLAG_C) <==> w > 0xFF)
  {
    var cin := CarryIn(f, useCarry);
    AddCarries(a, v, cin);
    var r := AddA(a, f, v, useCarry);
    assert r.value == a + v + cin;
  }

  /** `sub_a` (SUB and SBC). */
  function SubA(a: bv8, f: bv8, v: bv8, useCarry: bool): (r: AluOut)
    ensures (Flag(r.flags, FLAG_Z) <==> r.value == 0) && Flag(r.flags, FLAG_N)
    ensures r.flags & 0x0F == 0
  {
    var cin := CarryIn(f, useCarry);
    var step1 := OverflowingSub(a, v);
    var step2 := OverflowingSub(step1.0, cin);
    var halfBorrow := (a & 0x0F) < (v & 0x0F) + cin;
    AluOut(step2.0, SetFlags(f, step2.0 == 0, true, halfBorrow, step1.1 || step2.1))
  }

  /** SUB and SBC produce A minus the operand minus the carry-in modulo
      256; H is the borrow out of bit 4 and C is set iff the operand plus
      the carry-in exceeds A. */
  lemma SubAArithmetic(a: bv8, f: bv8, v: bv8, useCarry: bool)
    ensures var r := SubA(a, f, v, useCarry);
      var cin := CarryIn(f, useCarry);
      && r.value == a - v - cin
      && (Flag(r.flags, FLAG_H) <==> NibbleCarry(WideDifference(a, v, cin), a, v))
      && (Flag(r.flags, FLAG_C) <==> (a as bv16) < (v as bv16) + (cin as bv16))
  {
    SubBorrows(a, v, CarryIn(f, useCarry));
  }

  /** `and_a`: Z iff the conjunction is zero, H set, N and C clear. */
  function AndA(a: bv8, f: bv8, v: bv8): (r: AluOut)
    ensures r.value == a & v
    ensures (Flag(r.flags, FLAG_Z) <==> a & v == 0) && Flag(r.flags, FLAG_H)
    ensures !Flag(r.flags, FLAG_N) && !Flag(r.flags, FLAG_C) && r.flags & 0x0F == 0
  {
    var result := a & v;
    AluOut(result, SetFlags(f, result == 0, false, true, false))
  }

  /** `xor_a`: only Z can be set, the others are cleared. */
  function XorA(a: bv8, f: bv8, v: bv8): (r: AluOut)
    ensures r.value == a ^ v
    ensures r.flags == if a ^ v == 0 then FLAG_Z else 0
  {
    var result := a ^ v;
    AluOut(result, SetFlag(SetFlag(f, FLAG_Z, result == 0), FLAG_N | FLAG_H | FLAG_C, false))
  }

  /** `or_a`: only Z can be set, the others are cleared. */
  function OrA(a: bv8, f: bv8, v: bv8): (r: AluOut)
    ensures r.value == a | v
    ensures r.flags == if a | v == 0 then FLAG_Z else 0
  {
    var result := a | v;
    AluOut(result, SetFlag(SetFlag(f, FLAG_Z, result == 0), FLAG_N | FLAG_H | FLAG_C, false))
  }

  /** `cp_a`: `sub_a` without carry whose difference is thrown away, A being
      restored. */
  function CpA(a: bv8, f: bv8, v: bv8): (r: AluOut)
    ensures r.value == a && Flag(r.flags, FLAG_N)
    ensures (Flag(r.flags, FLAG_Z) <==> a == v) && (Flag(r.flags, FLAG_C) <==> a < v)
  {
    var tempA := a;
    SubAArithmetic(a, f, v, false);
    var sub := SubA(a, f, v, false);
    AluOut(tempA, sub.flags)
  }

  /** `inc_u8`: the successor modulo 256; H iff the low nibble was 0xF; C
      is kept. */
  function IncU8(v: bv8, f: bv8): (r: AluOut)
    ensures r.value as bv16 == ((v as bv16) + 1) & 0xFF
    ensures (Flag(r.flags, FLAG_Z) <==> v == 0xFF) && !Flag(r.flags, FLAG_N)
    ensures (Flag(r.flags, FLAG_H) <==> NibbleCarry((v as bv16) + 1, v, 1))
    ensures Flag(r.flags, FLAG_C) == Flag(f, FLAG_C) && r.flags & 0x0F == 0
  {
    var result := v + 1;
    AluOut(result, SetFlag(SetFlag(SetFlag(f, FLAG_Z, result == 0), FLAG_N, false), FLAG_H, v & 0x0F == 0x0F))
  }

  /** `dec_u8`: the predecessor modulo 256; H iff the low nibble was 0; C
      is kept. */
  function DecU8(v: bv8, f: bv8): (r: AluOut)
    ensures r.value as bv16 == ((v as bv16) - 1) & 0xFF
    ensures (Flag(r.flags, FLAG_Z) <==> v == 0x01) && Flag(r.flags, FLAG_N)
    ensures (Flag(r.flags, FLAG_H) <==> NibbleCarry((v as bv16) - 1, v, 1))
    ensures Flag(r.flags, FLAG_C) == Flag(f, FLAG_C) && r.flags & 0x0F == 0
  {
    var result := v - 1;
    AluOut(result, SetFlag(SetFlag(SetFlag(f, FLAG_Z, result == 0), FLAG_N, true), FLAG_H, v & 0x0F == 0x00))
  }

  /** The flags every rotate and shift leaves: Z iff the result is zero, N
      and H clear, C the bit shifted out. */
  predicate ShiftFlags(r: AluOut, carry: bool)
  {
    (Flag(r.flags, FLAG_Z) <==> r.value == 0) && !Flag(r.flags, FLAG_N) && !Flag(r.flags, FLAG_H)
    && (Flag(r.flags, FLAG_C) <==> carry) && r.flags & 0x0F == 0
  }

  /** The F a rotate or shift leaves, as `set_flag` builds it. */
  function ShiftedF(f: bv8, result: bv8, carry: bool): (g: bv8)
    ensures ShiftFlags(AluOut(result, g), carry)
  {
    SetFlag(SetFlag(SetFlag(f, FLAG_Z, result == 0), FLAG_N | FLAG_H, false), FLAG_C, carry)
  }

  /** `rlc`: bit 7 moves to bit 0 and to C. */
  function Rlc(v: bv8, f: bv8): (r: AluOut)
    ensures r.value as bv16 == (v as bv16) * 2 % 0x100 + (v as bv16) / 0x80
    ensures ShiftFlags(r, v >= 0x80)
  {
    var carry := (v >> 7) & 1;
    var result := (v << 1) | (v >> 7);
    assert carry != 0 <==> v >= 128;
    AluOut(result, ShiftedF(f, result, carry != 0))
  }

  /** `rrc`: bit 0 moves to bit 7 and to C. */
  function Rrc(v: bv8, f: bv8): (r: AluOut)
    ensures r.value as bv16 == (v as bv16) / 2 + (v as bv16) % 2 * 0x80
    ensures ShiftFlags(r, v % 2 == 1)
  {
    var carry := v & 1;
    var result := (v >> 1) | (v << 7);
    assert carry != 0 <==> v % 2 == 1;
    AluOut(result, ShiftedF(f, result, carry != 0))
  }

  /** `rl`: a left shift through the carry: the old C enters bit 0 and
      bit 7 leaves into C. */
  function Rl(v: bv8, f: bv8): (r: AluOut)
    ensures r.value as bv16 == (v as bv16) * 2 % 0x100 + (if Flag(f, FLAG_C) then 1 else 0)
    ensures ShiftFlags(r, v >= 0x80)
  {
    var oldCarry: bv8 := if Flag(f, FLAG_C) then 1 else 0;
    var newCarry := (v >> 7) & 1;
    var result := (v << 1) | oldCarry;
    assert newCarry != 0 <==> v >= 128;
    AluOut(result, ShiftedF(f, result, newCarry != 0))
  }

  /** `rr`: a right shift through the carry: the old C enters bit 7 and
      bit 0 leaves into C. */
  function Rr(v: bv8, f: bv8): (r: AluOut)
    ensures r.value as bv16 == (v as bv16) / 2 + (if Flag(f, FLAG_C) then 0x80 else 0)
    ensures ShiftFlags(r, v % 2 == 1)
  {
    var oldCarry: bv8 := if Flag(f, FLAG_C) then 1 else 0;
    var newCarry := v & 1;
    var result := (v >> 1) | (oldCarry << 7);
    assert newCarry != 0 <==> v % 2 == 1;
    AluOut(result, ShiftedF(f, result, newCarry != 0))
  }

  /** `sla`: doubling modulo 256, bit 7 into C. */
  function Sla(v: bv8, f: bv8): (r: AluOut)
    ensures r.value as bv16 == (v as bv16) * 2 % 0x100
    ensures ShiftFlags(r, v >= 0x80)
  {
    var carry := (v >> 7) & 1;
    var result := v << 1;
    assert carry != 0 <==> v >= 128;
    AluOut(result, ShiftedF(f, result, carry != 0))
  }

  /** `sra`: halving that keeps bit 7 (the sign), bit 0 into C. */
  function Sra(v: bv8, f: bv8): (r: AluOut)
    ensures r.value as bv16 == (v as bv16) / 2 + (if v >= 0x80 then 0x80 else 0)
    ensures ShiftFlags(r, v % 2 == 1)
  {
    var carry := v & 1;
    var result := (v >> 1) | (v & 0x80);
    assert carry != 0 <==> v % 2 == 1;
    AluOut(result, ShiftedF(f, result, carry != 0))
  }

  /** `swap`: the two nibbles exchanged; only Z can be set. */
  function Swap(v: bv8, f: bv8): (r: AluOut)
    ensures r.value as bv16 == (v as bv16) % 0x10 * 0x10 + (v as bv16) / 0x10
    ensures r.flags == if v == 0 then FLAG_Z else 0
  {
    var result := (v << 4) | (v >> 4);
    AluOut(result, SetFlag(SetFlag(f, FLAG_Z, result == 0), FLAG_N | FLAG_H | FLAG_C, false))
  }

  /** `srl`: halving, bit 0 into C. */
  function Srl(v: bv8, f: bv8): (r: AluOut)
    ensures r.value as bv16 == (v as bv16) / 2
    ensures ShiftFlags(r, v % 2 == 1)
  {
    var carry := v & 1;
    var result := v >> 1;
    assert carry != 0 <==> v % 2 == 1;
    AluOut(result, ShiftedF(f, result, carry != 0))
  }

  /** `op_bit`: Z iff bit `bit` of the value is clear, N clear, H set, C
      kept. */
  function TestBit(bit: nat, v: bv8, f: bv8): (g: bv8)
    requires bit < 8
    ensures (Flag(g, FLAG_Z) <==> !BitSet(v, bit)) && !Flag(g, FLAG_N) && Flag(g, FLAG_H)
    ensures Flag(g, FLAG_C) == Flag(f, FLAG_C) && g & 0x0F == 0
  {
    var resultZero := (v >> bit) & 1 == 0;
    SetFlag(SetFlag(SetFlag(f, FLAG_Z, resultZero), FLAG_N, false), FLAG_H, true)
  }

  /** RES: `value & !(1 << bit)` clears bit `bit` and keeps every other
      bit. */
  function ResetBit(bit: nat, v: bv8): (r: bv8)
    requires bit < 8
    ensures !BitSet(r, bit)
    ensures r & !BitMask(bit) == v & !BitMask(bit)
  {
    v & !BitMask(bit)
  }

  /** SET: `value | (1 << bit)` sets bit `bit` and keeps every other bit. */
  function SetBit(bit: nat, v: bv8): (r: bv8)
    requires bit < 8
    ensures BitSet(r, bit)
    ensures r & !BitMask(bit) == v & !BitMask(bit)
  {
    v | BitMask(bit)
  }

  /** Whether `daa` applies the 0x60 correction, and so sets C. */
  predicate DaaCarry(a: bv8, f: bv8)
  {
    if !Flag(f, FLAG_N) then Flag(f, FLAG_C) || a > 0x99 else Flag(f, FLAG_C)
  }

  /** `daa`: after it H is clear, N is as before, C is set iff the 0x60
      correction was applied, and Z iff the adjusted A is zero. */
  function Daa(a: bv8, f: bv8): (r: AluOut)
    ensures !Flag(r.flags, FLAG_H) && Flag(r.flags, FLAG_N) == Flag(f, FLAG_N)
    ensures (Flag(r.flags, FLAG_C) <==> DaaCarry(a, f)) && (Flag(r.flags, FLAG_Z) <==> r.value == 0)
    ensures r.flags & 0x0F == 0
  {
    var nFlag := Flag(f, FLAG_N);
    var hFlag := Flag(f, FLAG_H);
    var cFlag := Flag(f, FLAG_C);
    var high: bv8 := if (if !nFlag then cFlag || a > 0x99 else cFlag) then 0x60 else 0;
    var low: bv8 := if (if !nFlag then hFlag || (a & 0x0F) > 0x09 else hFlag) then 0x06 else 0;
    var adjustment := high | low;
    var setCarry := high != 0;
    var result := if !nFlag then a + adjustment else a - adjustment;
    AluOut(result, SetFlag(SetFlag(SetFlag(f, FLAG_Z, result == 0), FLAG_H, false), FLAG_C, setCarry))
  }

  /** `add_hl`'s arithmetic: the 16-bit sum, H the carry into bit 12, C
      the carry out of bit 15, N clear and Z kept. */
  function AddHl(hl: bv16, v: bv16, f: bv8): (r: (bv16, bv8))
    ensures var w := (hl as bv32) + (v as bv32);
      && r.0 as bv32 == w & 0xFFFF
      && !Flag(r.1, FLAG_N) && Flag(r.1, FLAG_Z) == Flag(f, FLAG_Z)
      && (Flag(r.1, FLAG_H) <==> (w ^ (hl as bv32) ^ (v as bv32)) & 0x1000 != 0)
      && (Flag(r.1, FLAG_C) <==> w > 0xFFFF)
      && r.1 & 0x0F == 0
  {
    var result := hl + v;
    var carry := (hl as bv32) + (v as bv32) > 0xFFFF;
    var halfCarry := (hl & 0x0FFF) + (v & 0x0FFF) > 0x0FFF;
    (result, SetFlag(SetFlag(SetFlag(f, FLAG_N, false), FLAG_H, halfCarry), FLAG_C, carry))
  }

  /** ADD SP,r8 and LD HL,SP+r8: SP plus the offset read as a signed byte,
      modulo 2^16; H and C are the carries out of bits 3 and 7 when the
      offset's unsigned byte is added to SP's low byte; Z and N are
      cleared. */
  function AddSpOffset(sp: bv16, offset: bv8, f: bv8): (r: (bv16, bv8))
    ensures r.0 == if offset < 0x80 then sp + offset as bv16 else sp - (0x100 - offset as bv16)
    ensures !Flag(r.1, FLAG_Z) && !Flag(r.1, FLAG_N)
    ensures Flag(r.1, FLAG_H) <==> (sp & 0x0F) + (offset as bv16 & 0x0F) > 0x0F
    ensures Flag(r.1, FLAG_C) <==> (sp & 0xFF) + offset as bv16 > 0xFF
    ensures r.1 & 0x0F == 0
  {
    var value := SignExtend(offset);
    var result := sp + value;
    var halfCarry := (sp & 0x000F) + (value & 0x000F) > 0x000F;
    var carry := (sp & 0x00FF) + (value & 0x00FF) > 0x00FF;
    (result, SetFlag(SetFlag(SetFlag(f, FLAG_Z | FLAG_N, false), FLAG_H, halfCarry), FLAG_C, carry))
  }
}
