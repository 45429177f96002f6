// The SM83 CPU of core/src/cpu/mod.rs and its `ops_*.rs` files as a value:
// the register file and control flags, the register-pair and stack
// helpers, the handler of every table operation, interrupt dispatch and
// `step`. Memory is the bus value of bus_spec.dfy, read and written
// through `BusSpec.ReadByte`/`WriteByte` with the 16-bit address taken as
// a number. The `Cpu` class (cpu.dfy) is proved to do what these
// functions say; cpu_lemmas.dfy states what they mean.
module CpuSpec {
  import opened Bits
  import opened MemoryMap
  import opened CpuConstants
  import opened Alu
  import opened Instructions
  import BusSpec

  /** The fields of `struct Cpu`. */
  datatype CpuState = CpuState(
    a: bv8, f: bv8, b: bv8, c: bv8, d: bv8, e: bv8, h: bv8, l: bv8,
    sp: bv16, pc: bv16,
    ime: bool, halted: bool, stopRequested: bool, imeScheduled: bool,
    totalCycles: bv64, fetchedOpcode: bv8, instructionPc: bv16)

  /** A CPU together with the bus it runs on. */
  datatype Machine = Machine(cpu: CpuState, bus: BusSpec.BusState)

  /** The machine's bus has its buffers at their sizes. */
  predicate Ready(mc: Machine)
  {
    BusSpec.Sized(mc.bus)
  }

  /** `Cpu::new`: the post-boot register values when the boot ROM is
      skipped, all zero otherwise; F keeps only its upper nibble; IME and
      the state flags are off. */
  function Initial(skipBootRom: bool): (s: CpuState)
    ensures s.f & 0x0F == 0 && !s.ime && !s.imeScheduled && !s.halted && !s.stopRequested
    ensures s.pc == (if skipBootRom then 0x0100 else 0) && s.totalCycles == 0
  {
    var a: bv8 := if skipBootRom then 0x01 else 0;
    var f: bv8 := if skipBootRom then 0xB0 else 0;
    var bc: bv16 := if skipBootRom then 0x0013 else 0;
    var de: bv16 := if skipBootRom then 0x00D8 else 0;
    var hl: bv16 := if skipBootRom then 0x014D else 0;
    var pc: bv16 := if skipBootRom then 0x0100 else 0;
    var sp: bv16 := if skipBootRom then 0xFFFE else 0;
    CpuState(a, f & 0xF0, Hi(bc), Lo(bc), Hi(de), Lo(de), Hi(hl), Lo(hl), sp, pc,
      false, false, false, false, 0, 0, 0)
  }

  // ---------------------------------------------------------------- registers

  /** The 8-bit register an operand names. */
  function Reg(s: CpuState, r: Reg8): bv8
  {
    match r
    case B => s.b
    case C => s.c
    case D => s.d
    case E => s.e
    case H => s.h
    case L => s.l
    case A => s.a
  }

  /** `self.r = v` for the register an operand names. */
  function WithReg(s: CpuState, r: Reg8, v: bv8): (t: CpuState)
    ensures Reg(t, r) == v && t.f == s.f && t.sp == s.sp && t.pc == s.pc
  {
    match r
    case B => s.(b := v)
    case C => s.(c := v)
    case D => s.(d := v)
    case E => s.(e := v)
    case H => s.(h := v)
    case L => s.(l := v)
    case A => s.(a := v)
  }

  /** `get_af` of the modular CPU: A over the whole of F. */
  function GetAf(s: CpuState): bv16
  {
    Word(s.a, s.f)
  }

  /** `get_af` of core/src/cpu.rs: A over F's upper nibble. */
  function GetAfMasked(s: CpuState): bv16
  {
    Word(s.a, s.f & 0xF0)
  }

  /** `set_af`: A from the high byte, F from the upper nibble of the low
      byte. */
  function SetAf(s: CpuState, w: bv16): (t: CpuState)
  {
    s.(a := Hi(w), f := Lo(w) & 0xF0)
  }

  function GetBc(s: CpuState): bv16
  {
    Word(s.b, s.c)
  }

  function GetDe(s: CpuState): bv16
  {
    Word(s.d, s.e)
  }

  function GetHl(s: CpuState): bv16
  {
    Word(s.h, s.l)
  }

  /** `set_bc`: the low byte to C, the high byte to B. */
  function SetBc(s: CpuState, w: bv16): CpuState
  {
    s.(c := Lo(w), b := Hi(w))
  }

  function SetDe(s: CpuState, w: bv16): CpuState
  {
    s.(e := Lo(w), d := Hi(w))
  }

  function SetHl(s: CpuState, w: bv16): CpuState
  {
    s.(l := Lo(w), h := Hi(w))
  }

  /** The 16-bit register an INC rr, DEC rr, ADD HL,rr or LD rr,d16 names. */
  function Pair(s: CpuState, rr: Reg16): bv16
  {
    match rr
    case BC => GetBc(s)
    case DE => GetDe(s)
    case HL => GetHl(s)
    case SP => s.sp
  }

  function WithPair(s: CpuState, rr: Reg16, w: bv16): CpuState
  {
    match rr
    case BC => SetBc(s, w)
    case DE => SetDe(s, w)
    case HL => SetHl(s, w)
    case SP => s.(sp := w)
  }

  /** `set_flag` on the CPU's F. */
  function WithFlag(s: CpuState, mask: bv8, on: bool): CpuState
  {
    s.(f := SetFlag(s.f, mask, on))
  }

  /** The branch conditions on F. */
  predicate Holds(cc: Cond, f: bv8)
  {
    match cc
    case CondNZ => !Flag(f, FLAG_Z)
    case CondZ => Flag(f, FLAG_Z)
    case CondNC => !Flag(f, FLAG_C)
    case CondC => Flag(f, FLAG_C)
  }

  // ---------------------------------------------------------------- memory

  /** A 16-bit register value as a bus address. */
  function AddrOf(w: bv16): (r: Addr)
    ensures r == w as int
  {
    w as int
  }

  /** `memory_bus.read_byte(addr)` at a 16-bit address. */
  function Read(m: BusSpec.BusState, addr: bv16): bv8
    requires BusSpec.Sized(m)
  {
    BusSpec.ReadByte(m, AddrOf(addr))
  }

  /** `memory_bus.write_byte(addr, v)` at a fixed address. */
  function WriteAt(m: BusSpec.BusState, addr: Addr, v: bv8): (r: BusSpec.BusState)
    requires BusSpec.Sized(m)
    ensures BusSpec.Sized(r)
  {
    BusSpec.WriteKeepsSized(m, addr, v);
    BusSpec.WriteByte(m, addr, v)
  }

  /** `memory_bus.write_byte(addr, v)` at a 16-bit address. */
  function Write(m: BusSpec.BusState, addr: bv16, v: bv8): (r: BusSpec.BusState)
    requires BusSpec.Sized(m)
    ensures BusSpec.Sized(r)
  {
    WriteAt(m, AddrOf(addr), v)
  }

  /** `read_d8`: the byte after the opcode. */
  function D8(mc: Machine): bv8
    requires Ready(mc)
  {
    Read(mc.bus, WrappingAdd16(mc.cpu.instructionPc, 1))
  }

  /** `read_d16`: the little-endian word after the opcode. */
  function D16(mc: Machine): bv16
    requires Ready(mc)
  {
    Word(Read(mc.bus, WrappingAdd16(mc.cpu.instructionPc, 2)), Read(mc.bus, WrappingAdd16(mc.cpu.instructionPc, 1)))
  }

  /** `push_word`: SP steps down and receives the high byte, then steps
      down again and receives the low byte. */
  function Push(mc: Machine, w: bv16): (r: Machine)
    requires Ready(mc)
    ensures Ready(r) && r.cpu == mc.cpu.(sp := WrappingSub16(mc.cpu.sp, 2))
  {
    var sp1 := WrappingSub16(mc.cpu.sp, 1);
    var bus1 := Write(mc.bus, sp1, Hi(w));
    var sp2 := WrappingSub16(sp1, 1);
    Machine(mc.cpu.(sp := sp2), Write(bus1, sp2, Lo(w)))
  }

  /** The word `pop_word` returns: the low byte at SP, the high byte above. */
  function Popped(mc: Machine): bv16
    requires Ready(mc)
  {
    Word(Read(mc.bus, WrappingAdd16(mc.cpu.sp, 1)), Read(mc.bus, mc.cpu.sp))
  }

  /** The CPU after `pop_word`: SP two higher. */
  function AfterPop(s: CpuState): CpuState
  {
    s.(sp := WrappingAdd16(s.sp, 2))
  }

  // ---------------------------------------------------------------- handlers

  /** What a handler returns: `Ok(additional_cycles)` or an error. */
  datatype Handled = Done(extra: bv16) | Failed

  /** A handler's effect on the machine, and what it returns. */
  datatype Executed = Executed(machine: Machine, handled: Handled)

  /** A handler that changes only the CPU and returns `Ok(extra)`. */
  function Regs(mc: Machine, s: CpuState, extra: bv16): Executed
  {
    Executed(Machine(s, mc.bus), Done(extra))
  }

  /** A handler that changes the machine and returns `Ok(0)`. */
  function Plain(mc: Machine): Executed
  {
    Executed(mc, Done(0))
  }

  /** IE & IF & 0x1F: the interrupts that are both requested and enabled. */
  function PendingInterrupts(m: BusSpec.BusState): bv8
    requires BusSpec.Sized(m)
  {
    BusSpec.ReadByte(m, INTERRUPT_ENABLE_REGISTER) & BusSpec.ReadByte(m, IF_ADDR) & 0x1F
  }

  /** DI: IME and a scheduled enable are both cancelled. */
  function DisableInterrupts(s: CpuState): CpuState
  {
    s.(ime := false, imeScheduled := false)
  }

  /** EI: IME is only scheduled; `step` turns it on. */
  function ScheduleEnable(s: CpuState): CpuState
  {
    s.(imeScheduled := true)
  }

  /** HALT: with IME off and an interrupt pending the CPU does not halt
      (the HALT bug); otherwise it halts. */
  function HaltState(s: CpuState, pending: bv8): CpuState
  {
    if !s.ime && pending != 0 then s else s.(halted := true)
  }

  /** STOP: the request is only recorded. */
  function RequestStop(s: CpuState): CpuState
  {
    s.(stopRequested := true)
  }

  /** SCF: N and H cleared, C set. */
  function ScfState(s: CpuState): CpuState
  {
    WithFlag(WithFlag(s, FLAG_N | FLAG_H, false), FLAG_C, true)
  }

  /** CCF: N and H cleared, C inverted. */
  function CcfState(s: CpuState): CpuState
  {
    WithFlag(WithFlag(s, FLAG_N | FLAG_H, false), FLAG_C, !Flag(s.f, FLAG_C))
  }

  /** CPL: A inverted, then N and H set. */
  function CplState(s: CpuState): CpuState
  {
    WithFlag(s.(a := !s.a), FLAG_N | FLAG_H, true)
  }

  /** DAA: A and F as the `daa` helper leaves them. */
  function DaaState(s: CpuState): CpuState
  {
    var out := Alu.Daa(s.a, s.f);
    s.(a := out.value, f := out.flags)
  }

  /** The helper RLCA, RLA, RRCA and RRA call on A. */
  function RotationOfA(op: Op, a: bv8, f: bv8): AluOut
    requires op.Rlca? || op.Rla? || op.Rrca? || op.Rra?
  {
    match op
    case Rlca => Alu.Rlc(a, f)
    case Rla => Alu.Rl(a, f)
    case Rrca => Alu.Rrc(a, f)
    case Rra => Alu.Rr(a, f)
  }

  /** RLCA, RLA, RRCA and RRA: the rotation's flags, its result in A,
      then Z cleared. */
  function RotateAState(op: Op, s: CpuState): CpuState
    requires op.Rlca? || op.Rla? || op.Rrca? || op.Rra?
  {
    var out := RotationOfA(op, s.a, s.f);
    WithFlag(s.(f := out.flags, a := out.value), FLAG_Z, false)
  }

  /** `add_a`, `sub_a`, `and_a`, `xor_a`, `or_a` and `cp_a`, with the
      carry-in argument each ALU opcode passes. */
  function AluApply(op: AluOp, a: bv8, f: bv8, v: bv8): AluOut
  {
    match op
    case AddOp => AddA(a, f, v, false)
    case AdcOp => AddA(a, f, v, true)
    case SubOp => SubA(a, f, v, false)
    case SbcOp => SubA(a, f, v, true)
    case AndOp => AndA(a, f, v)
    case XorOp => XorA(a, f, v)
    case OrOp => OrA(a, f, v)
    case CpOp => CpA(a, f, v)
  }

  /** The CPU after an accumulator operation with operand `v`. */
  function AluState(op: AluOp, s: CpuState, v: bv8): CpuState
  {
    var out := AluApply(op, s.a, s.f, v);
    s.(a := out.value, f := out.flags)
  }

  /** The second operand of an ALU opcode: a register, the byte at HL, or
      the byte after the opcode. */
  function OperandValue(mc: Machine, x: Operand): bv8
    requires Ready(mc)
  {
    match x
    case FromReg(r) => Reg(mc.cpu, r)
    case FromHl => Read(mc.bus, GetHl(mc.cpu))
    case FromImm => D8(mc)
  }

  /** `inc_u8` or `dec_u8`. */
  function IncDec(inc: bool, v: bv8, f: bv8): AluOut
  {
    if inc then IncU8(v, f) else DecU8(v, f)
  }

  /** INC r and DEC r: the helper's flags, then its result in the
      register. */
  function IncDecRegState(inc: bool, s: CpuState, r: Reg8): CpuState
  {
    var out := IncDec(inc, Reg(s, r), s.f);
    WithReg(s.(f := out.flags), r, out.value)
  }

  /** INC (HL) and DEC (HL): the byte at HL read, stepped and written
      back, the helper's flags in F. */
  function IncDecAtHl(inc: bool, mc: Machine): (r: Machine)
    requires Ready(mc)
    ensures Ready(r)
  {
    var addr := GetHl(mc.cpu);
    var out := IncDec(inc, Read(mc.bus, addr), mc.cpu.f);
    Machine(mc.cpu.(f := out.flags), Write(mc.bus, addr, out.value))
  }

  /** INC rr and DEC rr: a wrapping step of the pair, F untouched. */
  function PairStepState(inc: bool, s: CpuState, rr: Reg16): CpuState
  {
    var w := Pair(s, rr);
    WithPair(s, rr, if inc then WrappingAdd16(w, 1) else WrappingSub16(w, 1))
  }

  /** ADD HL,rr: the sum in HL, then the `add_hl` flags. */
  function AddHlState(s: CpuState, rr: Reg16): CpuState
  {
    var out := Alu.AddHl(GetHl(s), Pair(s, rr), s.f);
    SetHl(s, out.0).(f := out.1)
  }

  /** ADD SP,r8: the signed offset added to SP, then the flags. */
  function AddSpState(s: CpuState, offset: bv8): CpuState
  {
    var out := AddSpOffset(s.sp, offset, s.f);
    s.(sp := out.0, f := out.1)
  }

  /** LD HL,SP+r8: the same sum into HL with the same flags; SP kept. */
  function LdHlSpState(s: CpuState, offset: bv8): CpuState
  {
    var out := AddSpOffset(s.sp, offset, s.f);
    SetHl(s, out.0).(f := out.1)
  }

  /** The pair LD (BC),A / LD A,(DE) and friends address memory through. */
  function IndirectAddr(s: CpuState, via: IndirectPair): bv16
  {
    match via
    case ViaBC => GetBc(s)
    case ViaDE => GetDe(s)
  }

  /** `0xFF00 + offset`: the high-page address of LDH and LD (C). */
  function HighPage(offset: bv8): bv16
  {
    WrappingAdd16(0xFF00, Widen16(offset))
  }

  /** The loads of A from memory. */
  predicate IsLoadA(op: Op)
  {
    op.LdAIndirect? || op.LdAHlInc? || op.LdAHlDec? || op.LdhAA8? || op.LdAC? || op.LdAA16?
  }

  /** The address a load into A reads. */
  function LoadASource(op: Op, mc: Machine): bv16
    requires Ready(mc)
    requires IsLoadA(op)
  {
    var s := mc.cpu;
    match op
    case LdAIndirect(via) => IndirectAddr(s, via)
    case LdAHlInc => GetHl(s)
    case LdAHlDec => GetHl(s)
    case LdhAA8 => HighPage(D8(mc))
    case LdAC => HighPage(s.c)
    case LdAA16 => D16(mc)
  }

  /** The HL step after LD A,(HL+), LD A,(HL-), LD (HL+),A and
      LD (HL-),A: one up or one down; no step for the other loads. */
  function HlStep(op: Op, s: CpuState): CpuState
  {
    if op.LdAHlInc? || op.LdHlIncA? then SetHl(s, WrappingAdd16(GetHl(s), 1))
    else if op.LdAHlDec? || op.LdHlDecA? then SetHl(s, WrappingSub16(GetHl(s), 1))
    else s
  }

  /** A load into A: the byte read to A, then the HL step. */
  function LoadAState(op: Op, s: CpuState, v: bv8): CpuState
  {
    HlStep(op, s.(a := v))
  }

  /** The stores of one byte. */
  predicate IsByteStore(op: Op)
  {
    op.LdHlImm? || op.LdHlR? || op.LdIndirectA? || op.LdHlIncA? || op.LdHlDecA?
      || op.LdhA8A? || op.LdCA? || op.LdA16A?
  }

  /** The address a store writes. */
  function StoreAddress(op: Op, mc: Machine): bv16
    requires Ready(mc)
    requires IsByteStore(op)
  {
    var s := mc.cpu;
    match op
    case LdHlImm => GetHl(s)
    case LdHlR(_) => GetHl(s)
    case LdIndirectA(via) => IndirectAddr(s, via)
    case LdHlIncA => GetHl(s)
    case LdHlDecA => GetHl(s)
    case LdhA8A => HighPage(D8(mc))
    case LdCA => HighPage(s.c)
    case LdA16A => D16(mc)
  }

  /** The byte a store writes: the immediate for LD (HL),d8, the named
      register for LD (HL),r, A otherwise. */
  function StoredValue(op: Op, mc: Machine): bv8
    requires Ready(mc)
  {
    match op
    case LdHlImm => D8(mc)
    case LdHlR(src) => Reg(mc.cpu, src)
    case _ => mc.cpu.a
  }

  /** A store: the byte written at its address, then the HL step. */
  function Store(op: Op, mc: Machine): (r: Machine)
    requires Ready(mc)
    requires IsByteStore(op)
    ensures Ready(r)
  {
    Machine(HlStep(op, mc.cpu), Write(mc.bus, StoreAddress(op, mc), StoredValue(op, mc)))
  }

  /** LD (a16),SP: the low byte of SP at the address, the high byte at the
      next one. */
  function StoreSp(mc: Machine): (r: Machine)
    requires Ready(mc)
    ensures Ready(r)
  {
    var addr := D16(mc);
    var sp := mc.cpu.sp;
    mc.(bus := Write(Write(mc.bus, addr, Lo(sp)), WrappingAdd16(addr, 1), Hi(sp)))
  }

  /** The word PUSH stores for a pair. */
  function PushValue(s: CpuState, pair: StackPair): bv16
  {
    match pair
    case StackBC => GetBc(s)
    case StackDE => GetDe(s)
    case StackHL => GetHl(s)
    case StackAF => GetAf(s)
  }

  /** PUSH: for AF, `self.f &= 0xF0` first, then the pair pushed. */
  function PushPair(pair: StackPair, mc: Machine): (r: Machine)
    requires Ready(mc)
    ensures Ready(r)
  {
    var s := if pair == StackAF then mc.cpu.(f := mc.cpu.f & 0xF0) else mc.cpu;
    Push(mc.(cpu := s), PushValue(s, pair))
  }

  /** The CPU after POP stores a popped word into a pair. */
  function PopInto(s: CpuState, pair: StackPair, w: bv16): CpuState
  {
    match pair
    case StackBC => SetBc(s, w)
    case StackDE => SetDe(s, w)
    case StackHL => SetHl(s, w)
    case StackAF => SetAf(s, w)
  }

  /** POP: the word taken off the stack into the pair. */
  function PopState(pair: StackPair, mc: Machine): CpuState
    requires Ready(mc)
  {
    PopInto(AfterPop(mc.cpu), pair, Popped(mc))
  }

  /** The PC after JR: the signed offset added to the PC past the
      instruction. */
  function RelativeTarget(pc: bv16, offset: bv8): bv16
  {
    WrappingAdd16(pc, SignExtend(offset))
  }

  /** CALL, a taken CALL cc and RST: the PC pushed, then the target
      loaded. */
  function CallTo(mc: Machine, target: bv16): (r: Machine)
    requires Ready(mc)
    ensures Ready(r)
  {
    var pushed := Push(mc, mc.cpu.pc);
    pushed.(cpu := pushed.cpu.(pc := target))
  }

  /** RET and a taken RET cc: the popped word in PC. */
  function ReturnState(mc: Machine): CpuState
    requires Ready(mc)
  {
    AfterPop(mc.cpu).(pc := Popped(mc))
  }

  /** RETI: a return that also turns IME on at once. */
  function RetiState(mc: Machine): CpuState
    requires Ready(mc)
  {
    ReturnState(mc).(ime := true, imeScheduled := false)
  }

  // ---------------------------------------------------------------- CB operations

  /** The rotate and shift helpers of the CB table. */
  function Rotate(rot: RotOp, v: bv8, f: bv8): AluOut
  {
    match rot
    case Rlc => Alu.Rlc(v, f)
    case Rrc => Alu.Rrc(v, f)
    case Rl => Alu.Rl(v, f)
    case Rr => Alu.Rr(v, f)
    case Sla => Alu.Sla(v, f)
    case Sra => Alu.Sra(v, f)
    case Swap => Alu.Swap(v, f)
    case Srl => Alu.Srl(v, f)
  }

  /** What a CB operation makes of its operand and F: rotates and shifts
      give their result and flags, BIT keeps the operand and sets flags,
      RES and SET change the operand and keep F. */
  function CbResult(op: CbOp, v: bv8, f: bv8): AluOut
  {
    match op
    case CbRot(rot, _) => Rotate(rot, v, f)
    case CbBit(bit, _) => AluOut(v, TestBit(bit, v, f))
    case CbRes(bit, _) => AluOut(ResetBit(bit, v), f)
    case CbSet(bit, _) => AluOut(SetBit(bit, v), f)
  }

  /** The `cb_reg_op!` bodies: F as the helper leaves it, then the result
      in the register; BIT stores nothing. */
  function CbRegState(op: CbOp, s: CpuState, r: Reg8): CpuState
  {
    var out := CbResult(op, Reg(s, r), s.f);
    var t := s.(f := out.flags);
    if op.CbBit? then t else WithReg(t, r, out.value)
  }

  /** The `cb_hlp_op!` bodies: the byte at HL read, F as the helper leaves
      it, the result written back through `write_byte`; BIT writes
      nothing. */
  function CbAtHl(op: CbOp, mc: Machine): (r: Machine)
    requires Ready(mc)
    ensures Ready(r)
  {
    var addr := GetHl(mc.cpu);
    var out := CbResult(op, Read(mc.bus, addr), mc.cpu.f);
    var s := mc.cpu.(f := out.flags);
    if op.CbBit? then Machine(s, mc.bus) else Machine(s, Write(mc.bus, addr, out.value))
  }

  /** A CB operation on its register or on the byte at HL. */
  function ExecCb(op: CbOp, mc: Machine): (r: Machine)
    requires Ready(mc)
    ensures Ready(r)
  {
    match op.loc
    case Reg(r) => mc.(cpu := CbRegState(op, mc.cpu, r))
    case AtHl => CbAtHl(op, mc)
  }

  /** `op_prefix_cb`: run the CB entry for the byte after the prefix and
      return that entry's cycles. */
  function ExecPrefixCb(mc: Machine): (r: Executed)
    requires Ready(mc)
    ensures Ready(r.machine)
  {
    var entry := Prefixed(Read(mc.bus, WrappingAdd16(mc.cpu.instructionPc, 1)));
    Executed(ExecCb(entry.execute, mc), Done(Widen16(entry.cycles)))
  }

  // ---------------------------------------------------------------- dispatch

  /** The groups of table operations that share a shape of handler. */
  datatype Group =
    | MiscGroup         // NOP, STOP, HALT, DI, EI, DAA, CPL, SCF, CCF, RLCA, RRCA, RLA, RRA
    | ArithGroup        // the handlers of core/src/cpu/ops_alu.rs
    | RegisterLoadGroup // the loads that change only registers, and POP
    | StoreGroup        // the loads that write memory, and PUSH
    | BranchGroup       // JP, JR and RET in all their forms
    | CallGroup         // CALL, CALL cc and RST
    | PrefixGroup       // the CB prefix
    | InvalidGroup      // the opcodes without an instruction

  /** The group of a table operation. */
  function GroupOf(op: Op): Group
  {
    match op
    case Nop => MiscGroup
    case Stop => MiscGroup
    case Halt => MiscGroup
    case Di => MiscGroup
    case Ei => MiscGroup
    case Daa => MiscGroup
    case Cpl => MiscGroup
    case Scf => MiscGroup
    case Ccf => MiscGroup
    case Rlca => MiscGroup
    case Rrca => MiscGroup
    case Rla => MiscGroup
    case Rra => MiscGroup
    case LdRImm(_) => RegisterLoadGroup
    case LdHlImm => StoreGroup
    case LdRR(_, _) => RegisterLoadGroup
    case LdRHl(_) => RegisterLoadGroup
    case LdHlR(_) => StoreGroup
    case LdPairImm(_) => RegisterLoadGroup
    case LdIndirectA(_) => StoreGroup
    case LdAIndirect(_) => RegisterLoadGroup
    case LdHlIncA => StoreGroup
    case LdHlDecA => StoreGroup
    case LdAHlInc => RegisterLoadGroup
    case LdAHlDec => RegisterLoadGroup
    case LdhA8A => StoreGroup
    case LdhAA8 => RegisterLoadGroup
    case LdCA => StoreGroup
    case LdAC => RegisterLoadGroup
    case LdA16A => StoreGroup
    case LdAA16 => RegisterLoadGroup
    case LdA16Sp => StoreGroup
    case LdHlSpR8 => RegisterLoadGroup
    case LdSpHl => RegisterLoadGroup
    case IncR(_) => ArithGroup
    case DecR(_) => ArithGroup
    case IncHlp => ArithGroup
    case DecHlp => ArithGroup
    case Inc16(_) => ArithGroup
    case Dec16(_) => ArithGroup
    case AddHl(_) => ArithGroup
    case AddSpR8 => ArithGroup
    case Alu(_, _) => ArithGroup
    case Jp => BranchGroup
    case JpCond(_) => BranchGroup
    case JpHl => BranchGroup
    case Jr => BranchGroup
    case JrCond(_) => BranchGroup
    case Call => CallGroup
    case CallCond(_) => CallGroup
    case Ret => BranchGroup
    case RetCond(_) => BranchGroup
    case Reti => BranchGroup
    case Rst(_) => CallGroup
    case Push(_) => StoreGroup
    case Pop(_) => RegisterLoadGroup
    case PrefixCb => PrefixGroup
    case Invalid => InvalidGroup
  }

  /** The CPU after a miscellaneous control handler or a rotation of A. */
  function MiscState(op: Op, mc: Machine): CpuState
    requires GroupOf(op) == MiscGroup && Ready(mc)
  {
    var s := mc.cpu;
    if op.Nop? then s
    else if op.Stop? then RequestStop(s)
    else if op.Halt? then HaltState(s, PendingInterrupts(mc.bus))
    else if op.Di? then DisableInterrupts(s)
    else if op.Ei? then ScheduleEnable(s)
    else if op.Daa? then DaaState(s)
    else if op.Cpl? then CplState(s)
    else if op.Scf? then ScfState(s)
    else if op.Ccf? then CcfState(s)
    else RotateAState(op, s)
  }

  /** The CPU after a handler of core/src/cpu/ops_alu.rs other than
      INC (HL) and DEC (HL). */
  function ArithState(op: Op, mc: Machine): CpuState
    requires GroupOf(op) == ArithGroup && !op.IncHlp? && !op.DecHlp? && Ready(mc)
  {
    var s := mc.cpu;
    if op.IncR? then IncDecRegState(true, s, op.r)
    else if op.DecR? then IncDecRegState(false, s, op.r)
    else if op.Inc16? then PairStepState(true, s, op.rr)
    else if op.Dec16? then PairStepState(false, s, op.rr)
    else if op.AddHl? then AddHlState(s, op.rr)
    else if op.AddSpR8? then AddSpState(s, D8(mc))
    else AluState(op.aluOp, s, OperandValue(mc, op.operand))
  }

  /** INC, DEC, the 16-bit additions and the accumulator operations. */
  function ExecArith(op: Op, mc: Machine): (r: Executed)
    requires GroupOf(op) == ArithGroup && Ready(mc)
    ensures Ready(r.machine)
  {
    if op.IncHlp? || op.DecHlp? then Plain(IncDecAtHl(op.IncHlp?, mc))
    else Regs(mc, ArithState(op, mc), 0)
  }

  /** The CPU after a load into registers, LD HL,SP+r8, LD SP,HL or POP. */
  function RegisterLoadState(op: Op, mc: Machine): CpuState
    requires GroupOf(op) == RegisterLoadGroup && Ready(mc)
  {
    var s := mc.cpu;
    if op.LdRImm? then WithReg(s, op.r, D8(mc))
    else if op.LdRR? then WithReg(s, op.dst, Reg(s, op.src))
    else if op.LdRHl? then WithReg(s, op.dst, Read(mc.bus, GetHl(s)))
    else if op.LdPairImm? then WithPair(s, op.rr, D16(mc))
    else if op.LdHlSpR8? then LdHlSpState(s, D8(mc))
    else if op.LdSpHl? then s.(sp := GetHl(s))
    else if op.Pop? then PopState(op.pair, mc)
    else LoadAState(op, s, Read(mc.bus, LoadASource(op, mc)))
  }

  /** The stores, LD (a16),SP and PUSH. */
  function ExecStore(op: Op, mc: Machine): (r: Executed)
    requires GroupOf(op) == StoreGroup && Ready(mc)
    ensures Ready(r.machine) && r.handled == Done(0)
  {
    if op.LdA16Sp? then Plain(StoreSp(mc))
    else if op.Push? then Plain(PushPair(op.pair, mc))
    else Plain(Store(op, mc))
  }

  /** The CPU after a jump or a return, and the extra cycles: 4 for a
      taken JP cc or JR cc, 12 for a taken RET cc. */
  function Branch(op: Op, mc: Machine): (CpuState, bv16)
    requires GroupOf(op) == BranchGroup && Ready(mc)
  {
    var s := mc.cpu;
    if op.Jp? then (s.(pc := D16(mc)), 0)
    else if op.JpCond? then
      if Holds(op.cc, s.f) then (s.(pc := D16(mc)), 4) else (s, 0)
    else if op.JpHl? then (s.(pc := GetHl(s)), 0)
    else if op.Jr? then (s.(pc := RelativeTarget(s.pc, D8(mc))), 0)
    else if op.JrCond? then
      if Holds(op.cc, s.f) then (s.(pc := RelativeTarget(s.pc, D8(mc))), 4) else (s, 0)
    else if op.Ret? then (ReturnState(mc), 0)
    else if op.RetCond? then
      if Holds(op.cc, s.f) then (ReturnState(mc), 12) else (s, 0)
    else (RetiState(mc), 0)
  }

  /** CALL, CALL cc (12 extra cycles when taken) and RST. */
  function ExecCall(op: Op, mc: Machine): (r: Executed)
    requires GroupOf(op) == CallGroup && Ready(mc)
    ensures Ready(r.machine)
  {
    if op.Call? then Plain(CallTo(mc, D16(mc)))
    else if op.CallCond? then
      if Holds(op.cc, mc.cpu.f) then Executed(CallTo(mc, D16(mc)), Done(12)) else Regs(mc, mc.cpu, 0)
    else Plain(CallTo(mc, op.vector))
  }

  /** `(instruction.execute)(self, memory_bus)`: the handler of a table
      operation, each as its `op_*` function in core/src/cpu/ops_*.rs
      does it. An invalid opcode changes nothing and fails. */
  function Execute(op: Op, mc: Machine): (r: Executed)
    requires Ready(mc)
    ensures Ready(r.machine)
  {
    match GroupOf(op)
    case MiscGroup => Regs(mc, MiscState(op, mc), 0)
    case ArithGroup => ExecArith(op, mc)
    case RegisterLoadGroup => Regs(mc, RegisterLoadState(op, mc), 0)
    case StoreGroup => ExecStore(op, mc)
    case BranchGroup =>
      var (t, extra) := Branch(op, mc);
      Regs(mc, t, extra)
    case CallGroup => ExecCall(op, mc)
    case PrefixGroup => ExecPrefixCb(mc)
    case InvalidGroup => Executed(mc, Failed)
  }

  // ---------------------------------------------------------------- step

  /** What `step` returns: `Ok(cycles)` or the error naming the
      instruction's address and opcode. */
  datatype CpuResult = Ok(cycles: bv16) | Err(pc: bv16, opcode: bv8)

  /** A machine after a step, and what the step returned. */
  datatype Stepped = Stepped(machine: Machine, result: CpuResult)

  /** The interrupt `handle_interrupts` serves: the lowest pending bit. */
  function ServedInterrupt(pending: bv8): (bit: nat)
    requires pending != 0 && pending & 0x1F == pending
    ensures bit < 5
  {
    if pending & (1 << VBLANK_INTERRUPT_BIT) != 0 then VBLANK_INTERRUPT_BIT
    else if pending & (1 << LCD_STAT_INTERRUPT_BIT) != 0 then LCD_STAT_INTERRUPT_BIT
    else if pending & (1 << TIMER_INTERRUPT_BIT) != 0 then TIMER_INTERRUPT_BIT
    else if pending & (1 << SERIAL_INTERRUPT_BIT) != 0 then SERIAL_INTERRUPT_BIT
    else JOYPAD_INTERRUPT_BIT
  }

  /** The acknowledgement `handle_interrupts` makes before the jump: IME
      and the scheduled enable off, the served bit written clear in IF. */
  function Acknowledged(mc: Machine, bit: nat): (r: Machine)
    requires Ready(mc) && bit < 8
    ensures Ready(r)
  {
    var currentIf := BusSpec.ReadByte(mc.bus, IF_ADDR);
    Machine(DisableInterrupts(mc.cpu), WriteAt(mc.bus, IF_ADDR, currentIf & !BitMask(bit)))
  }

  /** The machine after `handle_interrupts` serves a pending interrupt:
      the acknowledgement, then the PC pushed and the vector loaded as a
      CALL does. */
  function Dispatch(mc: Machine): (r: Machine)
    requires Ready(mc) && PendingInterrupts(mc.bus) != 0
    ensures Ready(r)
  {
    var bit := ServedInterrupt(PendingInterrupts(mc.bus));
    CallTo(Acknowledged(mc, bit), InterruptVector(bit))
  }

  /** `handle_interrupts`: nothing and 0 when no enabled interrupt is
      requested, otherwise the dispatch and 20 cycles. */
  function HandleInterrupts(mc: Machine): (r: (Machine, bv16))
    requires Ready(mc)
    ensures Ready(r.0)
  {
    if PendingInterrupts(mc.bus) == 0 then (mc, 0) else (Dispatch(mc), 20)
  }

  /** The first phase of `step`: a scheduled enable turns into IME. */
  function PromoteIme(s: CpuState): CpuState
  {
    if s.imeScheduled then s.(ime := true, imeScheduled := false) else s
  }

  /** The interrupt phase of `step`: `handle_interrupts` when IME may
      dispatch, otherwise nothing and 0 cycles. */
  function InterruptPhase(mc: Machine, mayDispatch: bool): (r: (Machine, bv16))
    requires Ready(mc)
    ensures Ready(r.0)
  {
    if mayDispatch then HandleInterrupts(mc) else (mc, 0)
  }

  /** The CPU after an interrupt was served in `step`: out of HALT and
      STOP, the interrupt's cycles counted. */
  function WokenByInterrupt(s: CpuState, cycles: bv16): CpuState
  {
    s.(halted := false, stopRequested := false, totalCycles := WrappingAdd64(s.totalCycles, Widen64(cycles)))
  }

  /** A step that only lets four cycles pass. */
  function Idle(mc: Machine, s: CpuState): Stepped
  {
    Stepped(Machine(s.(totalCycles := WrappingAdd64(s.totalCycles, 4)), mc.bus), Ok(4))
  }

  /** The fetch phase: the opcode at PC is recorded with its address and PC
      moves past the table length. */
  function Fetched(mc: Machine): (s: CpuState)
    requires Ready(mc)
  {
    var opcode := Read(mc.bus, mc.cpu.pc);
    mc.cpu.(instructionPc := mc.cpu.pc, fetchedOpcode := opcode, pc := WrappingAdd16(mc.cpu.pc, Widen16(Primary(opcode).length)))
  }

  /** The base cycles the modular `step` charges: 4 for the CB prefix, the
      table's cycles otherwise. */
  function BaseCycles(opcode: bv8): bv16
  {
    if opcode == 0xCB then 4 else Widen16(Primary(opcode).cycles)
  }

  /** The cycle accounting after the execute phase: base and extra cycles
      counted and returned, or on an error the base cycles counted and the
      error naming the instruction's address and opcode. */
  function Charge(t: CpuState, handled: Handled, base: bv16): (CpuState, CpuResult)
  {
    match handled
    case Done(extra) =>
      var total := WrappingAdd16(base, extra);
      (t.(totalCycles := WrappingAdd64(t.totalCycles, Widen64(total))), Ok(total))
    case Failed =>
      (t.(totalCycles := WrappingAdd64(t.totalCycles, Widen64(base))), Err(t.instructionPc, t.fetchedOpcode))
  }

  /** `Charge` applied to the CPU an execute phase left. */
  function Account(ex: Executed, base: bv16): Stepped
  {
    var (t, result) := Charge(ex.machine.cpu, ex.handled, base);
    Stepped(Machine(t, ex.machine.bus), result)
  }

  /** The execute phase on the fetched machine. */
  function ExecuteFetched(mc: Machine): (r: Executed)
    requires Ready(mc)
    ensures Ready(r.machine)
  {
    var s := Fetched(mc);
    Execute(Primary(s.fetchedOpcode).execute, Machine(s, mc.bus))
  }

  /** Fetch, execute and the cycle accounting of the modular `step`; the
      base cycles are looked up from the opcode register after the
      handler ran, as the source does. */
  function FetchExecute(mc: Machine): (r: Stepped)
    requires Ready(mc)
    ensures Ready(r.machine)
  {
    var ex := ExecuteFetched(mc);
    Account(ex, BaseCycles(ex.machine.cpu.fetchedOpcode))
  }

  /** Whether IME may dispatch in this step: it is on and was not switched
      on by this step's promotion. */
  predicate MayDispatch(s: CpuState)
  {
    !s.imeScheduled && s.ime
  }

  /** The CPU after the halted phase's check: a pending enabled interrupt
      takes it out of HALT. */
  function Woken(mc: Machine): (s: CpuState)
    requires Ready(mc)
  {
    var s := mc.cpu;
    if s.halted && PendingInterrupts(mc.bus) != 0 then s.(halted := false) else s
  }

  /** The halted/stopped phase of the modular `step` and what follows it:
      a halted or stopped CPU spends the step's four cycles idle, waking
      from HALT or not; otherwise an instruction runs. */
  function Resume(mc: Machine): (r: Stepped)
    requires Ready(mc)
    ensures Ready(r.machine)
  {
    if mc.cpu.halted || mc.cpu.stopRequested then Idle(mc, Woken(mc))
    else FetchExecute(mc)
  }

  /** The rest of the modular `step` once the interrupt phase returned:
      the interrupt's cycles when one was served, otherwise the halted phase
      and what follows. */
  function Conclude(mc: Machine, interruptCycles: bv16): (r: Stepped)
    requires Ready(mc)
    ensures Ready(r.machine)
  {
    if interruptCycles > 0 then Stepped(Machine(WokenByInterrupt(mc.cpu, interruptCycles), mc.bus), Ok(interruptCycles))
    else Resume(mc)
  }

  /** `Cpu::step` of core/src/cpu/mod.rs: the promotion of a scheduled
      enable, the interrupt phase, then `Conclude`. */
  function Step(mc: Machine): (r: Stepped)
    requires Ready(mc)
    ensures Ready(r.machine)
  {
    var (m, interruptCycles) := InterruptPhase(Machine(PromoteIme(mc.cpu), mc.bus), MayDispatch(mc.cpu));
    Conclude(m, interruptCycles)
  }

  // ---------------------------------------------------------------- core/src/cpu.rs

  /** Fetch, execute and the cycle accounting of core/src/cpu.rs: the
      table's cycles (4 for the prefix) plus the extra cycles. */
  function FetchExecuteMonolithic(mc: Machine): (r: Stepped)
    requires Ready(mc)
    ensures Ready(r.machine)
  {
    var entry := Primary(Fetched(mc).fetchedOpcode);
    Account(ExecuteFetched(mc), Widen16(entry.cycles))
  }

  /** The halted/stopped phase of core/src/cpu.rs: waking from HALT goes on
      to fetch in the same step. */
  function ResumeMonolithic(mc: Machine): (r: Stepped)
    requires Ready(mc)
    ensures Ready(r.machine)
  {
    var woken := Woken(mc);
    if woken.halted || woken.stopRequested then Idle(mc, woken)
    else FetchExecuteMonolithic(Machine(woken, mc.bus))
  }

  /** The rest of core/src/cpu.rs's `step` once the interrupt phase
      returned. */
  function ConcludeMonolithic(mc: Machine, interruptCycles: bv16): (r: Stepped)
    requires Ready(mc)
    ensures Ready(r.machine)
  {
    if interruptCycles > 0 then Stepped(Machine(WokenByInterrupt(mc.cpu, interruptCycles), mc.bus), Ok(interruptCycles))
    else ResumeMonolithic(mc)
  }

  /** `Cpu::step` of core/src/cpu.rs. */
  function StepMonolithic(mc: Machine): (r: Stepped)
    requires Ready(mc)
    ensures Ready(r.machine)
  {
    var (m, interruptCycles) := InterruptPhase(Machine(PromoteIme(mc.cpu), mc.bus), MayDispatch(mc.cpu));
    ConcludeMonolithic(m, interruptCycles)
  }

  /** `registers()` of core/src/cpu.rs: A, F with its low nibble masked,
      B, C, D, E, H, L. */
  function Registers(s: CpuState): (r: (bv8, bv8, bv8, bv8, bv8, bv8, bv8, bv8))
    ensures r.1 & 0x0F == 0
    ensures s.f & 0x0F == 0 ==> r.1 == s.f
  {
    (s.a, s.f & 0xF0, s.b, s.c, s.d, s.e, s.h, s.l)
  }
}
