// The `Cpu` struct of core/src/cpu/mod.rs, updated in place: the register
// fields, the stack and register-pair helpers, the handlers of the table
// operations, `handle_interrupts` and `step`, each working on a
// `MemoryBus` object the caller passes. Every method is proved to have
// the effect the CpuSpec function of the same name describes; the
// monolithic variant's `step` (core/src/cpu.rs) is `StepMonolithic`.
module Sm83 {
  import opened Bits
  import opened MemoryMap
  import opened CpuConstants
  import opened Alu
  import opened Instructions
  import opened CpuSpec
  import opened Bus

  class Cpu {
    var a: bv8
    var f: bv8
    var b: bv8
    var c: bv8
    var d: bv8
    var e: bv8
    var h: bv8
    var l: bv8
    var sp: bv16
    var pc: bv16
    var ime: bool
    var halted: bool
    var stopRequested: bool
    var imeScheduled: bool
    var totalCycles: bv64
    var fetchedOpcode: bv8
    var instructionPc: bv16

    /** The register file and flags as a value. */
    function State(): CpuState
      reads this
    {
      CpuState(a, f, b, c, d, e, h, l, sp, pc, ime, halted, stopRequested, imeScheduled,
        totalCycles, fetchedOpcode, instructionPc)
    }

    /** The CPU and a bus as one value. */
    function Snapshot(bus: MemoryBus): Machine
      reads this, bus, bus.Repr()
    {
      Machine(State(), bus.State())
    }

    /** `Cpu::new`. */
    constructor (skipBootRom: bool)
      ensures State() == Initial(skipBootRom)
    {
      var initA: bv8, initF: bv8, initBc: bv16, initDe: bv16, initHl: bv16, initPc: bv16, initSp: bv16 :=
        if skipBootRom then 0x01 else 0x00,
        if skipBootRom then 0xB0 else 0x00,
        if skipBootRom then 0x0013 else 0x0000,
        if skipBootRom then 0x00D8 else 0x0000,
        if skipBootRom then 0x014D else 0x0000,
        if skipBootRom then 0x0100 else 0x0000,
        if skipBootRom then 0xFFFE else 0x0000;
      a, f := initA, initF & 0xF0;
      b, c := Hi(initBc), Lo(initBc);
      d, e := Hi(initDe), Lo(initDe);
      h, l := Hi(initHl), Lo(initHl);
      sp, pc := initSp, initPc;
      ime, halted, stopRequested, imeScheduled := false, false, false, false;
      totalCycles, fetchedOpcode, instructionPc := 0, 0, 0;
    }

    // ------------------------------------------------------------ registers

    /** `self.b = v`. */
    method SetB(v: bv8)
      modifies this
      ensures State() == old(State()).(b := v)
    {
      b := v;
    }

    /** `self.c = v`. */
    method SetC(v: bv8)
      modifies this
      ensures State() == old(State()).(c := v)
    {
      c := v;
    }

    /** `self.d = v`. */
    method SetD(v: bv8)
      modifies this
      ensures State() == old(State()).(d := v)
    {
      d := v;
    }

    /** `self.e = v`. */
    method SetE(v: bv8)
      modifies this
      ensures State() == old(State()).(e := v)
    {
      e := v;
    }

    /** `self.h = v`. */
    method SetH(v: bv8)
      modifies this
      ensures State() == old(State()).(h := v)
    {
      h := v;
    }

    /** `self.l = v`. */
    method SetL(v: bv8)
      modifies this
      ensures State() == old(State()).(l := v)
    {
      l := v;
    }

    /** `self.a = v`. */
    method SetA(v: bv8)
      modifies this
      ensures State() == old(State()).(a := v)
    {
      a := v;
    }

    /** `self.r = v` for the register an operand names. */
    method SetReg(r: Reg8, v: bv8)
      modifies this
      ensures State() == WithReg(old(State()), r, v)
    {
      match r
      case B => SetB(v);
      case C => SetC(v);
      case D => SetD(v);
      case E => SetE(v);
      case H => SetH(v);
      case L => SetL(v);
      case A => SetA(v);
    }

    /** `set_flag`. */
    method SetFlag(mask: bv8, on: bool)
      modifies this
      ensures State() == WithFlag(old(State()), mask, on)
    {
      if on {
        f := f | mask;
      } else {
        f := f & !mask;
      }
      f := f & 0xF0;
    }

    /** `set_af`. */
    method SetAf(w: bv16)
      modifies this
      ensures State() == CpuSpec.SetAf(old(State()), w)
    {
      a := Hi(w);
      f := Lo(w) & 0xF0;
    }

    /** `set_bc`. */
    method SetBc(w: bv16)
      modifies this
      ensures State() == CpuSpec.SetBc(old(State()), w)
    {
      c := Lo(w);
      b := Hi(w);
    }

    /** `set_de`. */
    method SetDe(w: bv16)
      modifies this
      ensures State() == CpuSpec.SetDe(old(State()), w)
    {
      e := Lo(w);
      d := Hi(w);
    }

    /** `set_hl`. */
    method SetHl(w: bv16)
      modifies this
      ensures State() == CpuSpec.SetHl(old(State()), w)
    {
      l := Lo(w);
      h := Hi(w);
    }

    /** `self.f = v`. */
    method SetF(v: bv8)
      modifies this
      ensures State() == old(State()).(f := v)
    {
      f := v;
    }

    /** `self.sp = w`. */
    method SetSp(w: bv16)
      modifies this
      ensures State() == old(State()).(sp := w)
    {
      sp := w;
    }

    /** `self.pc = w`. */
    method SetPc(w: bv16)
      modifies this
      ensures State() == old(State()).(pc := w)
    {
      pc := w;
    }

    /** The setter of the 16-bit register an operand names. */
    method SetPair(rr: Reg16, w: bv16)
      modifies this
      ensures State() == WithPair(old(State()), rr, w)
    {
      match rr
      case BC => SetBc(w);
      case DE => SetDe(w);
      case HL => SetHl(w);
      case SP => SetSp(w);
    }

    // ------------------------------------------------------------ memory

    /** `read_d8`. */
    method ReadD8(bus: MemoryBus) returns (v: bv8)
      requires bus.Valid()
      ensures v == D8(Snapshot(bus))
    {
      v := bus.ReadByte(AddrOf(WrappingAdd16(instructionPc, 1)));
    }

    /** `read_d16`. */
    method ReadD16(bus: MemoryBus) returns (w: bv16)
      requires bus.Valid()
      ensures w == D16(Snapshot(bus))
    {
      var lo := bus.ReadByte(AddrOf(WrappingAdd16(instructionPc, 1)));
      var hi := bus.ReadByte(AddrOf(WrappingAdd16(instructionPc, 2)));
      w := Word(hi, lo);
    }

    /** `push_word`. */
    method PushWord(w: bv16, bus: MemoryBus)
      requires bus.Valid()
      modifies this, bus.Repr()
      ensures bus.Valid() && bus.Repr() == old(bus.Repr())
      ensures Snapshot(bus) == CpuSpec.Push(old(Snapshot(bus)), w)
    {
      sp := WrappingSub16(sp, 1);
      bus.WriteByte(AddrOf(sp), Hi(w));
      sp := WrappingSub16(sp, 1);
      bus.WriteByte(AddrOf(sp), Lo(w));
    }

    /** `pop_word`: the low byte at SP, the high byte above it, SP two
        higher. Both reads come first; reading leaves the bus and SP as
        they are, so the order is the source's in effect. */
    method PopWord(bus: MemoryBus) returns (w: bv16)
      requires bus.Valid()
      modifies this
      ensures w == Popped(old(Snapshot(bus))) && State() == AfterPop(old(State()))
    {
      var low := bus.ReadByte(AddrOf(sp));
      var high := bus.ReadByte(AddrOf(WrappingAdd16(sp, 1)));
      sp := WrappingAdd16(sp, 1);
      sp := WrappingAdd16(sp, 1);
      w := Word(high, low);
    }

    /** A and F as an ALU helper leaves them. */
    method SetAluOut(out: AluOut)
      modifies this
      ensures State() == old(State()).(a := out.value, f := out.flags)
    {
      f := out.flags;
      a := out.value;
    }

    // ------------------------------------------------------------ ops_control.rs, ops_rot_shift.rs

    /** `op_di`. */
    method Di()
      modifies this
      ensures State() == DisableInterrupts(old(State()))
    {
      ime := false;
      imeScheduled := false;
    }

    /** `op_ei`. */
    method Ei()
      modifies this
      ensures State() == ScheduleEnable(old(State()))
    {
      imeScheduled := true;
    }

    /** `op_halt`, with the HALT bug: IME off and an interrupt pending
        leave the CPU running. */
    method Halt(bus: MemoryBus)
      requires bus.Valid()
      modifies this
      ensures State() == HaltState(old(State()), PendingInterrupts(old(bus.State())))
    {
      var ie := bus.ReadByte(INTERRUPT_ENABLE_REGISTER);
      var iflags := bus.ReadByte(IF_ADDR);
      HaltOn(ie & iflags & 0x1F);
    }

    /** The decision `op_halt` takes on the pending interrupts. */
    method HaltOn(pending: bv8)
      modifies this
      ensures State() == HaltState(old(State()), pending)
    {
      if !ime && pending != 0 {
        // the next instruction runs; PC has already moved past HALT
      } else {
        halted := true;
      }
    }

    /** `op_stop`. */
    method Stop()
      modifies this
      ensures State() == RequestStop(old(State()))
    {
      stopRequested := true;
    }

    /** `op_scf`. */
    method Scf()
      modifies this
      ensures State() == ScfState(old(State()))
    {
      SetFlag(FLAG_N | FLAG_H, false);
      SetFlag(FLAG_C, true);
    }

    /** `op_ccf`. */
    method Ccf()
      modifies this
      ensures State() == CcfState(old(State()))
    {
      var currentC := Flag(f, FLAG_C);
      SetFlag(FLAG_N | FLAG_H, false);
      SetFlag(FLAG_C, !currentC);
    }

    /** `op_cpl`. */
    method Cpl()
      modifies this
      ensures State() == CplState(old(State()))
    {
      SetA(!a);
      SetFlag(FLAG_N | FLAG_H, true);
    }

    /** `op_daa`. */
    method Daa()
      modifies this
      ensures State() == DaaState(old(State()))
    {
      SetAluOut(Alu.Daa(a, f));
    }

    /** `op_rlca`, `op_rla`, `op_rrca` and `op_rra`. */
    method RotateA(op: Op)
      requires op.Rlca? || op.Rla? || op.Rrca? || op.Rra?
      modifies this
      ensures State() == RotateAState(op, old(State()))
    {
      SetAluOut(RotationOfA(op, a, f));
      SetFlag(FLAG_Z, false);
    }

    /** The handlers `MiscState` describes. */
    method Misc(op: Op, bus: MemoryBus)
      requires GroupOf(op) == MiscGroup && bus.Valid()
      modifies this
      ensures State() == MiscState(op, old(Snapshot(bus)))
    {
      if op.Nop? {
      } else if op.Stop? {
        Stop();
      } else if op.Halt? {
        Halt(bus);
      } else if op.Di? {
        Di();
      } else if op.Ei? {
        Ei();
      } else if op.Daa? {
        Daa();
      } else if op.Cpl? {
        Cpl();
      } else if op.Scf? {
        Scf();
      } else if op.Ccf? {
        Ccf();
      } else {
        RotateA(op);
      }
    }

    // ------------------------------------------------------------ ops_alu.rs

    /** `op_inc_r` and `op_dec_r`: `self.r = self.inc_u8(self.r)`. */
    method IncDecReg(inc: bool, r: Reg8)
      modifies this
      ensures State() == IncDecRegState(inc, old(State()), r)
    {
      var out := IncDec(inc, CpuSpec.Reg(State(), r), f);
      SetF(out.flags);
      SetReg(r, out.value);
    }

    /** `op_inc_hlp` and `op_dec_hlp`. */
    method IncDecHlp(inc: bool, bus: MemoryBus)
      requires bus.Valid()
      modifies this, bus.Repr()
      ensures bus.Valid() && bus.Repr() == old(bus.Repr())
      ensures Snapshot(bus) == IncDecAtHl(inc, old(Snapshot(bus)))
    {
      var addr := GetHl(State());
      var value := bus.ReadByte(AddrOf(addr));
      var out := IncDec(inc, value, f);
      SetF(out.flags);
      bus.WriteByte(AddrOf(addr), out.value);
    }

    /** `op_inc_rr` and `op_dec_rr`. */
    method StepPair(inc: bool, rr: Reg16)
      modifies this
      ensures State() == PairStepState(inc, old(State()), rr)
    {
      var w := Pair(State(), rr);
      SetPair(rr, if inc then WrappingAdd16(w, 1) else WrappingSub16(w, 1));
    }

    /** `op_add_hl_rr`, through `add_hl`. */
    method AddHl(rr: Reg16)
      modifies this
      ensures State() == AddHlState(old(State()), rr)
    {
      var out := Alu.AddHl(GetHl(State()), Pair(State(), rr), f);
      SetHl(out.0);
      SetF(out.1);
    }

    /** `op_add_sp_r8`. */
    method AddSpR8(bus: MemoryBus)
      requires bus.Valid()
      modifies this
      ensures State() == AddSpState(old(State()), D8(old(Snapshot(bus))))
    {
      var offset := ReadD8(bus);
      var out := AddSpOffset(sp, offset, f);
      SetSp(out.0);
      SetF(out.1);
    }

    /** The operand of an accumulator opcode. */
    method ReadOperand(x: Operand, bus: MemoryBus) returns (v: bv8)
      requires bus.Valid()
      ensures v == OperandValue(Snapshot(bus), x)
    {
      match x
      case FromReg(r) => v := CpuSpec.Reg(State(), r);
      case FromHl => v := bus.ReadByte(AddrOf(GetHl(State())));
      case FromImm => v := ReadD8(bus);
    }

    /** `alu_a_r!`, `alu_a_hlp!` and the d8 forms. */
    method AluOperation(aluOp: AluOp, x: Operand, bus: MemoryBus)
      requires bus.Valid()
      modifies this
      ensures State() == AluState(aluOp, old(State()), OperandValue(old(Snapshot(bus)), x))
    {
      var v := ReadOperand(x, bus);
      SetAluOut(AluApply(aluOp, a, f, v));
    }

    /** The handlers `ArithState` describes. */
    method Arith(op: Op, bus: MemoryBus)
      requires GroupOf(op) == ArithGroup && !op.IncHlp? && !op.DecHlp? && bus.Valid()
      modifies this
      ensures State() == ArithState(op, old(Snapshot(bus)))
    {
      if op.IncR? {
        IncDecReg(true, op.r);
      } else if op.DecR? {
        IncDecReg(false, op.r);
      } else if op.Inc16? {
        StepPair(true, op.rr);
      } else if op.Dec16? {
        StepPair(false, op.rr);
      } else if op.AddHl? {
        AddHl(op.rr);
      } else if op.AddSpR8? {
        AddSpR8(bus);
      } else {
        AluOperation(op.aluOp, op.operand, bus);
      }
    }

    // ------------------------------------------------------------ loads (core/src/cpu.rs)

    /** `ld_r_d8`. */
    method LdRImm(r: Reg8, bus: MemoryBus)
      requires bus.Valid()
      modifies this
      ensures State() == WithReg(old(State()), r, D8(old(Snapshot(bus))))
    {
      var v := ReadD8(bus);
      SetReg(r, v);
    }

    /** `ld_r_hlp!`. */
    method LdRHl(r: Reg8, bus: MemoryBus)
      requires bus.Valid()
      modifies this
      ensures State() == WithReg(old(State()), r, Read(old(bus.State()), GetHl(old(State()))))
    {
      var v := bus.ReadByte(AddrOf(GetHl(State())));
      SetReg(r, v);
    }

    /** `ld_rr_d16`. */
    method LdPairImm(rr: Reg16, bus: MemoryBus)
      requires bus.Valid()
      modifies this
      ensures State() == WithPair(old(State()), rr, D16(old(Snapshot(bus))))
    {
      var w := ReadD16(bus);
      SetPair(rr, w);
    }

    /** `op_ld_hl_sp_r8`. */
    method LdHlSpR8(bus: MemoryBus)
      requires bus.Valid()
      modifies this
      ensures State() == LdHlSpState(old(State()), D8(old(Snapshot(bus))))
    {
      var offset := ReadD8(bus);
      var out := AddSpOffset(sp, offset, f);
      SetHl(out.0);
      SetF(out.1);
    }

    /** `set_bc`, `set_de`, `set_hl` or `set_af` with a popped word. */
    method PopInto(pair: StackPair, w: bv16)
      modifies this
      ensures State() == CpuSpec.PopInto(old(State()), pair, w)
    {
      match pair
      case StackBC => SetBc(w);
      case StackDE => SetDe(w);
      case StackHL => SetHl(w);
      case StackAF => SetAf(w);
    }

    /** `op_pop_rr`. */
    method Pop(pair: StackPair, bus: MemoryBus)
      requires bus.Valid()
      modifies this
      ensures State() == PopState(pair, old(Snapshot(bus)))
    {
      var w := PopWord(bus);
      PopInto(pair, w);
    }

    /** The HL step of the (HL+) and (HL-) loads. */
    method StepHl(op: Op)
      modifies this
      ensures State() == HlStep(op, old(State()))
    {
      if op.LdAHlInc? || op.LdHlIncA? {
        SetHl(WrappingAdd16(GetHl(State()), 1));
      } else if op.LdAHlDec? || op.LdHlDecA? {
        SetHl(WrappingSub16(GetHl(State()), 1));
      }
    }

    /** The address a load into A reads. */
    method LoadAAddress(op: Op, bus: MemoryBus) returns (addr: bv16)
      requires bus.Valid()
      requires IsLoadA(op)
      ensures addr == LoadASource(op, Snapshot(bus))
    {
      if op.LdAIndirect? {
        addr := IndirectAddr(State(), op.via);
      } else if op.LdhAA8? {
        var offset := ReadD8(bus);
        addr := HighPage(offset);
      } else if op.LdAC? {
        addr := HighPage(c);
      } else if op.LdAA16? {
        addr := ReadD16(bus);
      } else {
        addr := GetHl(State());
      }
    }

    /** The loads of A from memory. */
    method LoadA(op: Op, bus: MemoryBus)
      requires bus.Valid()
      requires IsLoadA(op)
      modifies this
      ensures State() == LoadAState(op, old(State()), Read(old(bus.State()), LoadASource(op, old(Snapshot(bus)))))
    {
      var addr := LoadAAddress(op, bus);
      var v := bus.ReadByte(AddrOf(addr));
      SetA(v);
      StepHl(op);
    }

    /** The handlers `RegisterLoadState` describes. */
    method RegisterLoad(op: Op, bus: MemoryBus)
      requires GroupOf(op) == RegisterLoadGroup && bus.Valid()
      modifies this
      ensures State() == RegisterLoadState(op, old(Snapshot(bus)))
    {
      if op.LdRImm? {
        LdRImm(op.r, bus);
      } else if op.LdRR? {
        SetReg(op.dst, CpuSpec.Reg(State(), op.src));
      } else if op.LdRHl? {
        LdRHl(op.dst, bus);
      } else if op.LdPairImm? {
        LdPairImm(op.rr, bus);
      } else if op.LdHlSpR8? {
        LdHlSpR8(bus);
      } else if op.LdSpHl? {
        SetSp(GetHl(State()));
      } else if op.Pop? {
        Pop(op.pair, bus);
      } else {
        LoadA(op, bus);
      }
    }

    /** The address a store writes. */
    method StoreAddr(op: Op, bus: MemoryBus) returns (addr: bv16)
      requires bus.Valid()
      requires IsByteStore(op)
      ensures addr == StoreAddress(op, Snapshot(bus))
    {
      if op.LdIndirectA? {
        addr := IndirectAddr(State(), op.via);
      } else if op.LdhA8A? {
        var offset := ReadD8(bus);
        addr := HighPage(offset);
      } else if op.LdCA? {
        addr := HighPage(c);
      } else if op.LdA16A? {
        addr := ReadD16(bus);
      } else {
        addr := GetHl(State());
      }
    }

    /** The byte a store writes. */
    method StoreValue(op: Op, bus: MemoryBus) returns (v: bv8)
      requires bus.Valid()
      ensures v == StoredValue(op, Snapshot(bus))
    {
      if op.LdHlImm? {
        v := ReadD8(bus);
      } else if op.LdHlR? {
        v := CpuSpec.Reg(State(), op.src);
      } else {
        v := a;
      }
    }

    /** `ld_hlp_r!`, `op_ld_hlp_d8`, LD (rr),A, the (HL+)/(HL-) stores,
        LDH (a8),A, LD (C),A and LD (a16),A. */
    method Store(op: Op, bus: MemoryBus)
      requires bus.Valid()
      requires IsByteStore(op)
      modifies this, bus.Repr()
      ensures bus.Valid() && bus.Repr() == old(bus.Repr())
      ensures Snapshot(bus) == CpuSpec.Store(op, old(Snapshot(bus)))
    {
      var addr := StoreAddr(op, bus);
      var v := StoreValue(op, bus);
      bus.WriteByte(AddrOf(addr), v);
      StepHl(op);
    }

    /** `op_ld_a16_sp`. */
    method StoreSp(bus: MemoryBus)
      requires bus.Valid()
      modifies bus.Repr()
      ensures bus.Valid() && bus.Repr() == old(bus.Repr())
      ensures Snapshot(bus) == CpuSpec.StoreSp(old(Snapshot(bus)))
    {
      var addr := ReadD16(bus);
      bus.WriteByte(AddrOf(addr), Lo(sp));
      bus.WriteByte(AddrOf(WrappingAdd16(addr, 1)), Hi(sp));
    }

    /** `op_push_rr`; for AF, `self.f &= 0xF0` first. */
    method PushPair(pair: StackPair, bus: MemoryBus)
      requires bus.Valid()
      modifies this, bus.Repr()
      ensures bus.Valid() && bus.Repr() == old(bus.Repr())
      ensures Snapshot(bus) == CpuSpec.PushPair(pair, old(Snapshot(bus)))
    {
      if pair == StackAF {
        f := f & 0xF0;
      }
      PushWord(PushValue(State(), pair), bus);
    }

    /** The handlers `ExecStore` describes. */
    method ExecStore(op: Op, bus: MemoryBus) returns (handled: Handled)
      requires GroupOf(op) == StoreGroup && bus.Valid()
      modifies this, bus.Repr()
      ensures bus.Valid() && bus.Repr() == old(bus.Repr())
      ensures Executed(Snapshot(bus), handled) == CpuSpec.ExecStore(op, old(Snapshot(bus)))
    {
      if op.LdA16Sp? {
        StoreSp(bus);
      } else if op.Push? {
        PushPair(op.pair, bus);
      } else {
        Store(op, bus);
      }
      handled := Done(0);
    }

    // ------------------------------------------------------------ ops_control.rs: jumps, calls, returns

    /** `conditional_jp_a16`: the address is read either way. */
    method ConditionalJp(condition: bool, bus: MemoryBus) returns (extra: bv16)
      requires bus.Valid()
      modifies this
      ensures (State(), extra) == if condition then (old(State()).(pc := D16(old(Snapshot(bus)))), 4) else (old(State()), 0)
    {
      var addr := ReadD16(bus);
      if condition {
        SetPc(addr);
        extra := 4;
      } else {
        extra := 0;
      }
    }

    /** `op_jp_a16`. */
    method JpA16(bus: MemoryBus)
      requires bus.Valid()
      modifies this
      ensures State() == old(State()).(pc := D16(old(Snapshot(bus))))
    {
      var addr := ReadD16(bus);
      SetPc(addr);
    }

    /** `conditional_jr`: the offset is read either way. */
    method ConditionalJr(condition: bool, bus: MemoryBus) returns (extra: bv16)
      requires bus.Valid()
      modifies this
      ensures (State(), extra) == if condition then (old(State()).(pc := RelativeTarget(old(pc), D8(old(Snapshot(bus))))), 4) else (old(State()), 0)
    {
      var offset := ReadD8(bus);
      if condition {
        SetPc(RelativeTarget(pc, offset));
        extra := 4;
      } else {
        extra := 0;
      }
    }

    /** `op_jr_r8`. */
    method JrR8(bus: MemoryBus)
      requires bus.Valid()
      modifies this
      ensures State() == old(State()).(pc := RelativeTarget(old(pc), D8(old(Snapshot(bus)))))
    {
      var offset := ReadD8(bus);
      SetPc(RelativeTarget(pc, offset));
    }

    /** `op_ret`. */
    method Ret(bus: MemoryBus)
      requires bus.Valid()
      modifies this
      ensures State() == ReturnState(old(Snapshot(bus)))
    {
      var w := PopWord(bus);
      SetPc(w);
    }

    /** `conditional_ret`. */
    method ConditionalRet(condition: bool, bus: MemoryBus) returns (extra: bv16)
      requires bus.Valid()
      modifies this
      ensures (State(), extra) == if condition then (ReturnState(old(Snapshot(bus))), 12) else (old(State()), 0)
    {
      if condition {
        Ret(bus);
        extra := 12;
      } else {
        extra := 0;
      }
    }

    /** `op_reti`. */
    method Reti(bus: MemoryBus)
      requires bus.Valid()
      modifies this
      ensures State() == RetiState(old(Snapshot(bus)))
    {
      Ret(bus);
      ime := true;
      imeScheduled := false;
    }

    /** The handlers `Branch` describes. */
    method Branch(op: Op, bus: MemoryBus) returns (extra: bv16)
      requires GroupOf(op) == BranchGroup && bus.Valid()
      modifies this
      ensures (State(), extra) == CpuSpec.Branch(op, old(Snapshot(bus)))
    {
      if op.Jp? {
        JpA16(bus);
        extra := 0;
      } else if op.JpCond? {
        extra := ConditionalJp(Holds(op.cc, f), bus);
      } else if op.JpHl? {
        SetPc(GetHl(State()));
        extra := 0;
      } else if op.Jr? {
        JrR8(bus);
        extra := 0;
      } else if op.JrCond? {
        extra := ConditionalJr(Holds(op.cc, f), bus);
      } else if op.Ret? {
        Ret(bus);
        extra := 0;
      } else if op.RetCond? {
        extra := ConditionalRet(Holds(op.cc, f), bus);
      } else {
        Reti(bus);
        extra := 0;
      }
    }

    /** `op_call_a16` and `rst`: the PC pushed, then the target loaded. */
    method CallTo(target: bv16, bus: MemoryBus)
      requires bus.Valid()
      modifies this, bus.Repr()
      ensures bus.Valid() && bus.Repr() == old(bus.Repr())
      ensures Snapshot(bus) == CpuSpec.CallTo(old(Snapshot(bus)), target)
    {
      PushWord(pc, bus);
      SetPc(target);
    }

    /** `op_call_a16`. */
    method CallA16(bus: MemoryBus)
      requires bus.Valid()
      modifies this, bus.Repr()
      ensures bus.Valid() && bus.Repr() == old(bus.Repr())
      ensures Snapshot(bus) == CpuSpec.CallTo(old(Snapshot(bus)), D16(old(Snapshot(bus))))
    {
      var addr := ReadD16(bus);
      CallTo(addr, bus);
    }

    /** `conditional_call_a16`: the address is read either way. */
    method ConditionalCall(condition: bool, bus: MemoryBus) returns (extra: bv16)
      requires bus.Valid()
      modifies this, bus.Repr()
      ensures bus.Valid() && bus.Repr() == old(bus.Repr())
      ensures Executed(Snapshot(bus), Done(extra)) ==
        if condition then Executed(CpuSpec.CallTo(old(Snapshot(bus)), D16(old(Snapshot(bus)))), Done(12))
        else Executed(old(Snapshot(bus)), Done(0))
    {
      var addr := ReadD16(bus);
      if condition {
        CallTo(addr, bus);
        extra := 12;
      } else {
        extra := 0;
      }
    }

    /** The handlers `ExecCall` describes. */
    method ExecCall(op: Op, bus: MemoryBus) returns (handled: Handled)
      requires GroupOf(op) == CallGroup && bus.Valid()
      modifies this, bus.Repr()
      ensures bus.Valid() && bus.Repr() == old(bus.Repr())
      ensures Executed(Snapshot(bus), handled) == CpuSpec.ExecCall(op, old(Snapshot(bus)))
    {
      if op.Call? {
        CallA16(bus);
        handled := Done(0);
      } else if op.CallCond? {
        var extra := ConditionalCall(Holds(op.cc, f), bus);
        handled := Done(extra);
      } else {
        CallTo(op.vector, bus);
        handled := Done(0);
      }
    }

    // ------------------------------------------------------------ CB operations

    /** `cb_reg_op!`. */
    method CbOnRegister(op: CbOp, r: Reg8)
      modifies this
      ensures State() == CbRegState(op, old(State()), r)
    {
      var out := CbResult(op, CpuSpec.Reg(State(), r), f);
      SetF(out.flags);
      if !op.CbBit? {
        SetReg(r, out.value);
      }
    }

    /** `cb_hlp_op!`. */
    method CbOnHl(op: CbOp, bus: MemoryBus)
      requires bus.Valid()
      modifies this, bus.Repr()
      ensures bus.Valid() && bus.Repr() == old(bus.Repr())
      ensures Snapshot(bus) == CbAtHl(op, old(Snapshot(bus)))
    {
      var addr := GetHl(State());
      var value := bus.ReadByte(AddrOf(addr));
      var out := CbResult(op, value, f);
      SetF(out.flags);
      if !op.CbBit? {
        bus.WriteByte(AddrOf(addr), out.value);
      }
    }

    /** `op_prefix_cb`. */
    method PrefixCb(bus: MemoryBus) returns (handled: Handled)
      requires bus.Valid()
      modifies this, bus.Repr()
      ensures bus.Valid() && bus.Repr() == old(bus.Repr())
      ensures Executed(Snapshot(bus), handled) == ExecPrefixCb(old(Snapshot(bus)))
    {
      var cbOpcode := bus.ReadByte(AddrOf(WrappingAdd16(instructionPc, 1)));
      var entry := Prefixed(cbOpcode);
      match entry.execute.loc {
        case Reg(r) => CbOnRegister(entry.execute, r);
        case AtHl => CbOnHl(entry.execute, bus);
      }
      handled := Done(Widen16(entry.cycles));
    }

    // ------------------------------------------------------------ dispatch

    /** `(instruction.execute)(self, memory_bus)` for `MiscState`'s handlers. */
    method ExecuteMisc(op: Op, bus: MemoryBus) returns (handled: Handled)
      requires GroupOf(op) == MiscGroup && bus.Valid()
      modifies this
      ensures Executed(Snapshot(bus), handled) == CpuSpec.Execute(op, old(Snapshot(bus)))
    {
      Misc(op, bus);
      handled := Done(0);
    }

    /** `(instruction.execute)(self, memory_bus)` for core/src/cpu/ops_alu.rs. */
    method ExecuteArith(op: Op, bus: MemoryBus) returns (handled: Handled)
      requires GroupOf(op) == ArithGroup && bus.Valid()
      modifies this, bus.Repr()
      ensures bus.Valid() && bus.Repr() == old(bus.Repr())
      ensures Executed(Snapshot(bus), handled) == CpuSpec.Execute(op, old(Snapshot(bus)))
    {
      if op.IncHlp? || op.DecHlp? {
        IncDecHlp(op.IncHlp?, bus);
      } else {
        Arith(op, bus);
      }
      handled := Done(0);
    }

    /** `(instruction.execute)(self, memory_bus)` for the register loads. */
    method ExecuteRegisterLoad(op: Op, bus: MemoryBus) returns (handled: Handled)
      requires GroupOf(op) == RegisterLoadGroup && bus.Valid()
      modifies this
      ensures Executed(Snapshot(bus), handled) == CpuSpec.Execute(op, old(Snapshot(bus)))
    {
      RegisterLoad(op, bus);
      handled := Done(0);
    }

    /** `(instruction.execute)(self, memory_bus)` for the stores. */
    method ExecuteStore(op: Op, bus: MemoryBus) returns (handled: Handled)
      requires GroupOf(op) == StoreGroup && bus.Valid()
      modifies this, bus.Repr()
      ensures bus.Valid() && bus.Repr() == old(bus.Repr())
      ensures Executed(Snapshot(bus), handled) == CpuSpec.Execute(op, old(Snapshot(bus)))
    {
      handled := ExecStore(op, bus);
    }

    /** `(instruction.execute)(self, memory_bus)` for jumps and returns. */
    method ExecuteBranch(op: Op, bus: MemoryBus) returns (handled: Handled)
      requires GroupOf(op) == BranchGroup && bus.Valid()
      modifies this
      ensures Executed(Snapshot(bus), handled) == CpuSpec.Execute(op, old(Snapshot(bus)))
    {
      var extra := Branch(op, bus);
      handled := Done(extra);
    }

    /** `(instruction.execute)(self, memory_bus)` for calls. */
    method ExecuteCall(op: Op, bus: MemoryBus) returns (handled: Handled)
      requires GroupOf(op) == CallGroup && bus.Valid()
      modifies this, bus.Repr()
      ensures bus.Valid() && bus.Repr() == old(bus.Repr())
      ensures Executed(Snapshot(bus), handled) == CpuSpec.Execute(op, old(Snapshot(bus)))
    {
      handled := ExecCall(op, bus);
    }

    /** `(instruction.execute)(self, memory_bus)`. */
    method Execute(op: Op, bus: MemoryBus) returns (handled: Handled)
      requires bus.Valid()
      modifies this, bus.Repr()
      ensures bus.Valid() && bus.Repr() == old(bus.Repr())
      ensures Executed(Snapshot(bus), handled) == CpuSpec.Execute(op, old(Snapshot(bus)))
    {
      match GroupOf(op) {
        case MiscGroup => handled := ExecuteMisc(op, bus);
        case ArithGroup => handled := ExecuteArith(op, bus);
        case RegisterLoadGroup => handled := ExecuteRegisterLoad(op, bus);
        case StoreGroup => handled := ExecuteStore(op, bus);
        case BranchGroup => handled := ExecuteBranch(op, bus);
        case CallGroup => handled := ExecuteCall(op, bus);
        case PrefixGroup => handled := PrefixCb(bus);
        case InvalidGroup => handled := Failed;
      }
    }

    // ------------------------------------------------------------ interrupts and step

    /** The vector and IF bit of the interrupt `handle_interrupts` serves:
        the lowest pending bit. The source's last arm, `unreachable!()`, is
        indeed never taken when something is pending, so the joypad arm
        stands last here. */
    method SelectInterrupt(pending: bv8) returns (vector: bv16, bit: nat)
      requires pending != 0 && pending & 0x1F == pending
      ensures bit == ServedInterrupt(pending) && vector == InterruptVector(bit)
    {
      if pending & (1 << VBLANK_INTERRUPT_BIT) != 0 {
        vector, bit := VBLANK_VECTOR, VBLANK_INTERRUPT_BIT;
      } else if pending & (1 << LCD_STAT_INTERRUPT_BIT) != 0 {
        vector, bit := LCD_STAT_VECTOR, LCD_STAT_INTERRUPT_BIT;
      } else if pending & (1 << TIMER_INTERRUPT_BIT) != 0 {
        vector, bit := TIMER_VECTOR, TIMER_INTERRUPT_BIT;
      } else if pending & (1 << SERIAL_INTERRUPT_BIT) != 0 {
        vector, bit := SERIAL_VECTOR, SERIAL_INTERRUPT_BIT;
      } else {
        vector, bit := JOYPAD_VECTOR, JOYPAD_INTERRUPT_BIT;
      }
    }

    /** IME off and the served bit written clear in IF. */
    method Acknowledge(bit: nat, bus: MemoryBus)
      requires bus.Valid() && bit < 8
      modifies this, bus.Repr()
      ensures bus.Valid() && bus.Repr() == old(bus.Repr())
      ensures Snapshot(bus) == Acknowledged(old(Snapshot(bus)), bit)
    {
      Di();
      var currentIf := bus.ReadByte(IF_ADDR);
      bus.WriteByte(IF_ADDR, currentIf & !BitMask(bit));
    }

    /** The serving half of `handle_interrupts`: the acknowledgement, PC
        pushed, the vector loaded. */
    method ServeInterrupt(pending: bv8, bus: MemoryBus)
      requires bus.Valid() && pending == PendingInterrupts(bus.State()) && pending != 0
      modifies this, bus.Repr()
      ensures bus.Valid() && bus.Repr() == old(bus.Repr())
      ensures Snapshot(bus) == CpuSpec.Dispatch(old(Snapshot(bus)))
    {
      var vector, bit := SelectInterrupt(pending);
      Acknowledge(bit, bus);
      CallTo(vector, bus);
    }

    /** The enabled and requested interrupts `handle_interrupts` reads:
        IF and IE, both masked to the five sources. */
    method Pending(bus: MemoryBus) returns (pending: bv8)
      requires bus.Valid()
      ensures pending == PendingInterrupts(bus.State())
    {
      var ifFlags := bus.ReadByte(IF_ADDR);
      var ieFlags := bus.ReadByte(INTERRUPT_ENABLE_REGISTER);
      pending := ifFlags & ieFlags & 0x1F;
    }

    /** `handle_interrupts`: 0 when no enabled interrupt is requested,
        otherwise the interrupt is served and 20 returned. */
    method HandleInterrupts(bus: MemoryBus) returns (cycles: bv16)
      requires bus.Valid()
      modifies this, bus.Repr()
      ensures bus.Valid() && bus.Repr() == old(bus.Repr())
      ensures (Snapshot(bus), cycles) == CpuSpec.HandleInterrupts(old(Snapshot(bus)))
    {
      var pending := Pending(bus);
      if pending == 0 {
        return 0;
      }
      ServeInterrupt(pending, bus);
      cycles := 20;
    }

    /** The opening of `step`: a scheduled enable becomes IME; whether that
        happened in this step is returned. */
    method PromoteIme() returns (justEnabled: bool)
      modifies this
      ensures State() == CpuSpec.PromoteIme(old(State())) && justEnabled == old(imeScheduled)
    {
      justEnabled := false;
      if imeScheduled {
        ime := true;
        imeScheduled := false;
        justEnabled := true;
      }
    }

    /** `self.total_cycles = self.total_cycles.wrapping_add(n)`. */
    method AddCycles(n: bv64)
      modifies this
      ensures State() == old(State()).(totalCycles := WrappingAdd64(old(totalCycles), n))
    {
      totalCycles := WrappingAdd64(totalCycles, n);
    }

    /** `self.halted = false`. */
    method Wake()
      modifies this
      ensures State() == old(State()).(halted := false)
    {
      halted := false;
    }

    /** After a served interrupt: out of HALT and STOP, the cycles counted. */
    method FinishInterrupt(cycles: bv16) returns (result: CpuResult)
      modifies this
      ensures State() == WokenByInterrupt(old(State()), cycles)
      ensures result == Ok(cycles)
    {
      halted, stopRequested := false, false;
      AddCycles(Widen64(cycles));
      result := Ok(cycles);
    }

    /** Four cycles pass and nothing else happens. */
    method IdleStep() returns (result: CpuResult)
      modifies this
      ensures State() == old(State()).(totalCycles := WrappingAdd64(old(totalCycles), 4))
      ensures result == Ok(4)
    {
      AddCycles(4);
      result := Ok(4);
    }

    /** `self.instruction_pc = self.pc` and the fetched opcode recorded. */
    method RecordFetch(opcode: bv8)
      modifies this
      ensures State() == old(State()).(instructionPc := old(pc), fetchedOpcode := opcode)
    {
      instructionPc, fetchedOpcode := pc, opcode;
    }

    /** The fetch phase: the address and opcode of the instruction are
        recorded and PC moves past it. */
    method Fetch(bus: MemoryBus)
      requires bus.Valid()
      modifies this
      ensures State() == Fetched(old(Snapshot(bus)))
    {
      var opcode := bus.ReadByte(AddrOf(pc));
      var next := WrappingAdd16(pc, Widen16(Primary(opcode).length));
      RecordFetch(opcode);
      SetPc(next);
    }

    /** The accounting after the execute phase. */
    method Charge(handled: Handled, base: bv16) returns (result: CpuResult)
      modifies this
      ensures (State(), result) == CpuSpec.Charge(old(State()), handled, base)
    {
      match handled
      case Done(extra) =>
        var total := WrappingAdd16(base, extra);
        AddCycles(Widen64(total));
        result := Ok(total);
      case Failed =>
        AddCycles(Widen64(base));
        result := Err(instructionPc, fetchedOpcode);
    }

    /** Fetch and execute one instruction. */
    method ExecuteFetched(bus: MemoryBus) returns (handled: Handled)
      requires bus.Valid()
      modifies this, bus.Repr()
      ensures bus.Valid() && bus.Repr() == old(bus.Repr())
      ensures Executed(Snapshot(bus), handled) == CpuSpec.ExecuteFetched(old(Snapshot(bus)))
    {
      Fetch(bus);
      handled := Execute(Primary(fetchedOpcode).execute, bus);
    }

    /** Fetch, execute and the cycle accounting of the modular `step`. */
    method FetchExecute(bus: MemoryBus) returns (result: CpuResult)
      requires bus.Valid()
      modifies this, bus.Repr()
      ensures bus.Valid() && bus.Repr() == old(bus.Repr())
      ensures Stepped(Snapshot(bus), result) == CpuSpec.FetchExecute(old(Snapshot(bus)))
    {
      var handled := ExecuteFetched(bus);
      result := Charge(handled, BaseCycles(fetchedOpcode));
    }

    /** The check of the halted phase: a pending enabled interrupt ends
        HALT. */
    method WakeIfPending(bus: MemoryBus)
      requires bus.Valid()
      modifies this
      ensures State() == Woken(old(Snapshot(bus)))
    {
      if halted {
        var ie := bus.ReadByte(INTERRUPT_ENABLE_REGISTER);
        var iflags := bus.ReadByte(IF_ADDR);
        if ie & iflags & 0x1F != 0 {
          Wake();
        }
      }
    }

    /** The halted/stopped phase of the modular `step` and what follows:
        whether HALT ends or not, the step returns its four cycles. */
    method Resume(bus: MemoryBus) returns (result: CpuResult)
      requires bus.Valid()
      modifies this, bus.Repr()
      ensures bus.Valid() && bus.Repr() == old(bus.Repr())
      ensures Stepped(Snapshot(bus), result) == CpuSpec.Resume(old(Snapshot(bus)))
    {
      if halted || stopRequested {
        WakeIfPending(bus);
        result := IdleStep();
      } else {
        result := FetchExecute(bus);
      }
    }

    /** The interrupt phase of `step`. */
    method InterruptPhase(mayDispatch: bool, bus: MemoryBus) returns (interruptCycles: bv16)
      requires bus.Valid()
      modifies this, bus.Repr()
      ensures bus.Valid() && bus.Repr() == old(bus.Repr())
      ensures (Snapshot(bus), interruptCycles) == CpuSpec.InterruptPhase(old(Snapshot(bus)), mayDispatch)
    {
      interruptCycles := 0;
      if mayDispatch {
        interruptCycles := HandleInterrupts(bus);
      }
    }

    /** The rest of the modular `step` once the interrupt phase returned. */
    method Conclude(interruptCycles: bv16, bus: MemoryBus) returns (result: CpuResult)
      requires bus.Valid()
      modifies this, bus.Repr()
      ensures bus.Valid() && bus.Repr() == old(bus.Repr())
      ensures Stepped(Snapshot(bus), result) == CpuSpec.Conclude(old(Snapshot(bus)), interruptCycles)
    {
      if interruptCycles > 0 {
        result := FinishInterrupt(interruptCycles);
      } else {
        result := Resume(bus);
      }
    }

    /** `Cpu::step` of core/src/cpu/mod.rs. */
    method Step(bus: MemoryBus) returns (result: CpuResult)
      requires bus.Valid()
      modifies this, bus.Repr()
      ensures bus.Valid() && bus.Repr() == old(bus.Repr())
      ensures Stepped(Snapshot(bus), result) == CpuSpec.Step(old(Snapshot(bus)))
    {
      var justEnabled := PromoteIme();
      var interruptCycles := InterruptPhase(ime && !justEnabled, bus);
      result := Conclude(interruptCycles, bus);
    }

    /** Fetch, execute and the cycle accounting of core/src/cpu.rs. */
    method FetchExecuteMonolithic(bus: MemoryBus) returns (result: CpuResult)
      requires bus.Valid()
      modifies this, bus.Repr()
      ensures bus.Valid() && bus.Repr() == old(bus.Repr())
      ensures Stepped(Snapshot(bus), result) == CpuSpec.FetchExecuteMonolithic(old(Snapshot(bus)))
    {
      var opcode := bus.ReadByte(AddrOf(pc));
      var entry := Primary(opcode);
      var handled := ExecuteFetched(bus);
      result := Charge(handled, Widen16(entry.cycles));
    }

    /** The halted/stopped phase of core/src/cpu.rs and what follows: a
        CPU woken from HALT goes on to fetch. */
    method ResumeMonolithic(bus: MemoryBus) returns (result: CpuResult)
      requires bus.Valid()
      modifies this, bus.Repr()
      ensures bus.Valid() && bus.Repr() == old(bus.Repr())
      ensures Stepped(Snapshot(bus), result) == CpuSpec.ResumeMonolithic(old(Snapshot(bus)))
    {
      if halted || stopRequested {
        WakeIfPending(bus);
        if halted || stopRequested {
          result := IdleStep();
          return;
        }
      }
      result := FetchExecuteMonolithic(bus);
    }

    /** The rest of core/src/cpu.rs's `step` once the interrupt phase
        returned. */
    method ConcludeMonolithic(interruptCycles: bv16, bus: MemoryBus) returns (result: CpuResult)
      requires bus.Valid()
      modifies this, bus.Repr()
      ensures bus.Valid() && bus.Repr() == old(bus.Repr())
      ensures Stepped(Snapshot(bus), result) == CpuSpec.ConcludeMonolithic(old(Snapshot(bus)), interruptCycles)
    {
      if interruptCycles > 0 {
        result := FinishInterrupt(interruptCycles);
      } else {
        result := ResumeMonolithic(bus);
      }
    }

    /** `Cpu::step` of core/src/cpu.rs, on the same CPU. */
    method StepMonolithic(bus: MemoryBus) returns (result: CpuResult)
      requires bus.Valid()
      modifies this, bus.Repr()
      ensures bus.Valid() && bus.Repr() == old(bus.Repr())
      ensures Stepped(Snapshot(bus), result) == CpuSpec.StepMonolithic(old(Snapshot(bus)))
    {
      var justEnabled := PromoteIme();
      var interruptCycles := InterruptPhase(ime && !justEnabled, bus);
      result := ConcludeMonolithic(interruptCycles, bus);
    }
  }
}
