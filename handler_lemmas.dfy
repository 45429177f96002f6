// What the handlers of core/src/cpu/ops_*.rs do, stated through
// `Execute` on whole machines: the jumps, calls and returns taken or not,
// the interrupt controls, the flag instructions, the loads and stores, the
// CB operations, and the invariant that F's low nibble stays zero.
module HandlerLemmas {
  import opened Bits
  import opened MemoryMap
  import opened CpuConstants
  import opened Alu
  import opened Instructions
  import opened CpuSpec
  import BusSpec
  import BusLemmas
  import CpuLemmas

  // ---------------------------------------------------------------- control flow

  /** JP cc,a16: when the condition holds PC takes the operand and the
      handler asks for 4 more cycles; otherwise nothing changes. */
  lemma ConditionalJump(cc: Cond, mc: Machine)
    requires Ready(mc)
    ensures var r := Execute(JpCond(cc), mc);
      && r.machine.bus == mc.bus
      && (Holds(cc, mc.cpu.f) ==> r.machine.cpu == mc.cpu.(pc := D16(mc)) && r.handled == Done(4))
      && (!Holds(cc, mc.cpu.f) ==> r == Executed(mc, Done(0)))
  {
    CpuLemmas.BranchDispatch(JpCond(cc), mc);
  }

  /** JR cc,r8: when the condition holds PC moves from the address past
      the instruction forward by an offset below 0x80 and back by 0x100
      minus a larger one, wrapping, for 4 more cycles; otherwise nothing
      changes. */
  lemma ConditionalRelativeJump(cc: Cond, mc: Machine)
    requires Ready(mc)
    ensures var r := Execute(JrCond(cc), mc);
      && r.machine.bus == mc.bus
      && (Holds(cc, mc.cpu.f) ==>
            && r.machine.cpu == mc.cpu.(pc := RelativeTarget(mc.cpu.pc, D8(mc)))
            && r.handled == Done(4))
      && (!Holds(cc, mc.cpu.f) ==> r == Executed(mc, Done(0)))
  {
    CpuLemmas.BranchDispatch(JrCond(cc), mc);
  }

  /** The PC after JR: forward by an offset below 0x80, back by 0x100 minus
      a larger one. */
  lemma RelativeTargetDirection(pc: bv16, offset: bv8)
    ensures offset < 0x80 ==> RelativeTarget(pc, offset) == pc + offset as bv16
    ensures offset >= 0x80 ==> RelativeTarget(pc, offset) == pc - (0x100 - offset as bv16)
  {
    var low := offset as bv16;
    if offset >= 0x80 {
      assert SignExtend(offset) == 0xFF00 | low;
      assert 0xFF00 | low == 0xFF00 + low;
    }
  }

  /** CALL cc,a16: when the condition holds the PC past the instruction is
      pushed, PC takes the operand and the handler asks for 12 more
      cycles; otherwise nothing changes. */
  lemma ConditionalCall(cc: Cond, mc: Machine)
    requires Ready(mc) && CpuLemmas.StackInRam(mc.cpu.sp)
    ensures var r := Execute(CallCond(cc), mc);
      && (Holds(cc, mc.cpu.f) ==>
            && r.machine.cpu == mc.cpu.(sp := WrappingSub16(mc.cpu.sp, 2), pc := D16(mc))
            && Popped(r.machine) == mc.cpu.pc
            && r.handled == Done(12))
      && (!Holds(cc, mc.cpu.f) ==> r == Executed(mc, Done(0)))
  {
    CallCondOutcome(cc, mc);
    ReturnAfterCall(mc, D16(mc));
  }

  lemma CallCondOutcome(cc: Cond, mc: Machine)
    requires Ready(mc)
    ensures Execute(CallCond(cc), mc)
      == if Holds(cc, mc.cpu.f) then Executed(CallTo(mc, D16(mc)), Done(12)) else Executed(mc, Done(0))
  {
    CpuLemmas.CallDispatch(CallCond(cc), mc);
  }

  /** RET cc: when the condition holds PC takes the word popped and SP
      moves two up, for 12 more cycles; otherwise nothing changes. */
  lemma ConditionalReturn(cc: Cond, mc: Machine)
    requires Ready(mc)
    ensures var r := Execute(RetCond(cc), mc);
      && r.machine.bus == mc.bus
      && (Holds(cc, mc.cpu.f) ==>
            && r.machine.cpu == mc.cpu.(sp := WrappingAdd16(mc.cpu.sp, 2), pc := Popped(mc))
            && r.handled == Done(12))
      && (!Holds(cc, mc.cpu.f) ==> r == Executed(mc, Done(0)))
  {
    CpuLemmas.BranchDispatch(RetCond(cc), mc);
  }

  /** RET after CALL returns to the instruction after the CALL with SP as
      it was: the CPU is back where it started. */
  lemma CallThenReturn(mc: Machine)
    requires Ready(mc) && CpuLemmas.StackInRam(mc.cpu.sp)
    ensures Execute(Call, mc).machine.cpu.pc == D16(mc)
    ensures Execute(Ret, Execute(Call, mc).machine).machine.cpu == mc.cpu
  {
    CallEnters(mc);
    ReturnExits(Execute(Call, mc).machine);
    ReturnAfterCall(mc, D16(mc));
  }

  /** RST jumps to its vector; RET from there comes back. */
  lemma RestartThenReturn(vector: bv16, mc: Machine)
    requires Ready(mc) && CpuLemmas.StackInRam(mc.cpu.sp)
    ensures Execute(Rst(vector), mc).machine.cpu.pc == vector
    ensures Execute(Ret, Execute(Rst(vector), mc).machine).machine.cpu == mc.cpu
  {
    RestartEnters(vector, mc);
    ReturnExits(Execute(Rst(vector), mc).machine);
    ReturnAfterCall(mc, vector);
  }

  lemma CallEnters(mc: Machine)
    requires Ready(mc)
    ensures Execute(Call, mc).machine == CallTo(mc, D16(mc))
  {
    CpuLemmas.CallDispatch(Call, mc);
  }

  lemma RestartEnters(vector: bv16, mc: Machine)
    requires Ready(mc)
    ensures Execute(Rst(vector), mc).machine == CallTo(mc, vector)
  {
    CpuLemmas.CallDispatch(Rst(vector), mc);
  }

  lemma ReturnExits(mc: Machine)
    requires Ready(mc)
    ensures Execute(Ret, mc).machine.cpu == ReturnState(mc)
  {
    CpuLemmas.BranchDispatch(Ret, mc);
  }

  /** Returning from any call target restores the CPU. */
  lemma ReturnAfterCall(mc: Machine, target: bv16)
    requires Ready(mc) && CpuLemmas.StackInRam(mc.cpu.sp)
    ensures Popped(CallTo(mc, target)) == mc.cpu.pc
    ensures ReturnState(CallTo(mc, target)) == mc.cpu
  {
    CpuLemmas.PushThenPop(mc, mc.cpu.pc);
    var pushed := CpuSpec.Push(mc, mc.cpu.pc);
    assert Popped(CallTo(mc, target)) == Popped(pushed);
  }

  // ---------------------------------------------------------------- interrupt controls

  /** HALT halts unless IME is off while an enabled interrupt is pending
      (the HALT bug: then the CPU simply goes on); nothing else changes. */
  lemma HaltOutcome(mc: Machine)
    requires Ready(mc)
    ensures Execute(Halt, mc) == Executed(Machine(mc.cpu.(
      halted := mc.cpu.halted || mc.cpu.ime || PendingInterrupts(mc.bus) == 0), mc.bus), Done(0))
  {
    CpuLemmas.MiscDispatch(Halt, mc);
  }

  /** EI only schedules the enable and leaves IME as it was; a DI right
      after it cancels the schedule and turns IME off. */
  lemma EnableThenDisable(mc: Machine)
    requires Ready(mc)
    ensures Execute(Ei, mc).machine.cpu == mc.cpu.(imeScheduled := true)
    ensures Execute(Di, Execute(Ei, mc).machine).machine.cpu == mc.cpu.(ime := false, imeScheduled := false)
  {
    CpuLemmas.MiscDispatch(Ei, mc);
    CpuLemmas.MiscDispatch(Di, Execute(Ei, mc).machine);
  }

  // ---------------------------------------------------------------- flag instructions

  /** SCF sets C and clears N and H; Z, A and the rest stay. */
  lemma SetCarry(mc: Machine)
    requires Ready(mc)
    ensures var t := Execute(Scf, mc).machine;
      && t.bus == mc.bus && t.cpu == mc.cpu.(f := t.cpu.f)
      && Flag(t.cpu.f, FLAG_C) && !Flag(t.cpu.f, FLAG_N) && !Flag(t.cpu.f, FLAG_H)
      && Flag(t.cpu.f, FLAG_Z) == Flag(mc.cpu.f, FLAG_Z)
  {
    CpuLemmas.MiscDispatch(Scf, mc);
    FlagMasks();
  }

  /** CCF inverts C and clears N and H; Z, A and the rest stay. */
  lemma ComplementCarry(mc: Machine)
    requires Ready(mc)
    ensures var t := Execute(Ccf, mc).machine;
      && t.bus == mc.bus && t.cpu == mc.cpu.(f := t.cpu.f)
      && Flag(t.cpu.f, FLAG_C) == !Flag(mc.cpu.f, FLAG_C) && !Flag(t.cpu.f, FLAG_N) && !Flag(t.cpu.f, FLAG_H)
      && Flag(t.cpu.f, FLAG_Z) == Flag(mc.cpu.f, FLAG_Z)
  {
    CpuLemmas.MiscDispatch(Ccf, mc);
    FlagMasks();
  }

  /** CPL inverts every bit of A and sets N and H; Z and C stay, so a
      second CPL restores A. */
  lemma ComplementA(mc: Machine)
    requires Ready(mc)
    ensures var t := Execute(Cpl, mc).machine;
      && t.bus == mc.bus && t.cpu == mc.cpu.(a := !mc.cpu.a, f := t.cpu.f)
      && Flag(t.cpu.f, FLAG_N) && Flag(t.cpu.f, FLAG_H)
      && Flag(t.cpu.f, FLAG_Z) == Flag(mc.cpu.f, FLAG_Z) && Flag(t.cpu.f, FLAG_C) == Flag(mc.cpu.f, FLAG_C)
  {
    CpuLemmas.MiscDispatch(Cpl, mc);
    FlagMasks();
  }

  // ---------------------------------------------------------------- arithmetic

  /** INC rr and DEC rr leave F alone and undo each other, wrapping. */
  lemma PairStepsUndo(rr: Reg16, mc: Machine)
    requires Ready(mc)
    ensures var up := Execute(Inc16(rr), mc).machine;
      && up.bus == mc.bus && up.cpu.f == mc.cpu.f
      && Pair(up.cpu, rr) == WrappingAdd16(Pair(mc.cpu, rr), 1)
      && Execute(Dec16(rr), up).machine == mc
  {
    var up := Execute(Inc16(rr), mc).machine;
    PairStepDispatch(true, rr, mc);
    PairStepDispatch(false, rr, up);
    var w := Pair(mc.cpu, rr);
    CpuLemmas.PairRoundTrip(mc.cpu, rr, WrappingAdd16(w, 1), rr);
    PairWriteBack(mc.cpu, rr, WrappingAdd16(w, 1), w);
  }

  lemma PairStepDispatch(inc: bool, rr: Reg16, mc: Machine)
    requires Ready(mc)
    ensures Execute(if inc then Inc16(rr) else Dec16(rr), mc).machine == Machine(PairStepState(inc, mc.cpu, rr), mc.bus)
  {
    CpuLemmas.ArithDispatch(if inc then Inc16(rr) else Dec16(rr), mc);
  }

  /** Writing a pair twice keeps only the second word; writing back the
      value a pair had restores the CPU. */
  lemma PairWriteBack(s: CpuState, rr: Reg16, w: bv16, v: bv16)
    requires v == Pair(s, rr)
    ensures WithPair(WithPair(s, rr, w), rr, v) == s
  {
    WordOfBytes(v);
  }

  /** CP compares without storing: A stays, Z says whether A equals the
      operand and C whether A is below it. */
  lemma CompareKeepsA(x: Operand, mc: Machine)
    requires Ready(mc)
    ensures var t := Execute(Alu(CpOp, x), mc).machine;
      && t.bus == mc.bus && t.cpu.a == mc.cpu.a && Flag(t.cpu.f, FLAG_N)
      && (Flag(t.cpu.f, FLAG_Z) <==> mc.cpu.a == OperandValue(mc, x))
      && (Flag(t.cpu.f, FLAG_C) <==> mc.cpu.a < OperandValue(mc, x))
  {
    CpuLemmas.ArithDispatch(Alu(CpOp, x), mc);
  }

  /** INC (HL) and DEC (HL) write the stepped byte back to HL. */
  lemma IncDecWritesBack(inc: bool, mc: Machine)
    requires Ready(mc) && BusLemmas.PlainRam(AddrOf(GetHl(mc.cpu)))
    ensures var v := Read(mc.bus, GetHl(mc.cpu));
      var t := Execute(if inc then IncHlp else DecHlp, mc).machine;
      && Read(t.bus, GetHl(mc.cpu)) == IncDec(inc, v, mc.cpu.f).value
      && t.cpu == mc.cpu.(f := IncDec(inc, v, mc.cpu.f).flags)
  {
    IncDecAtHlDispatch(inc, mc);
    var v := Read(mc.bus, GetHl(mc.cpu));
    BusLemmas.RamReadAfterWrite(mc.bus, AddrOf(GetHl(mc.cpu)), IncDec(inc, v, mc.cpu.f).value);
  }

  lemma IncDecAtHlDispatch(inc: bool, mc: Machine)
    requires Ready(mc)
    ensures Execute(if inc then IncHlp else DecHlp, mc).machine == IncDecAtHl(inc, mc)
  {
    CpuLemmas.ArithDispatch(if inc then IncHlp else DecHlp, mc);
  }

  // ---------------------------------------------------------------- loads and stores

  /** LD (a16),SP puts the low byte of SP at the address and the high byte
      at the next one; the registers stay. */
  lemma StoreSpPlacesBytes(mc: Machine)
    requires Ready(mc)
    requires var lo := AddrOf(D16(mc)); var hi := AddrOf(WrappingAdd16(D16(mc), 1));
      BusLemmas.PlainRam(lo) && BusLemmas.PlainRam(hi) && BusLemmas.Canon(lo) != BusLemmas.Canon(hi)
    ensures var t := Execute(LdA16Sp, mc).machine;
      && t.cpu == mc.cpu
      && Read(t.bus, D16(mc)) == Lo(mc.cpu.sp)
      && Read(t.bus, WrappingAdd16(D16(mc), 1)) == Hi(mc.cpu.sp)
  {
    CpuLemmas.StoreDispatch(LdA16Sp, mc);
    var addr := D16(mc);
    var next := WrappingAdd16(addr, 1);
    var bus1 := Write(mc.bus, addr, Lo(mc.cpu.sp));
    BusLemmas.RamReadAfterWrite(mc.bus, AddrOf(addr), Lo(mc.cpu.sp));
    BusLemmas.RamReadAfterWrite(bus1, AddrOf(next), Hi(mc.cpu.sp));
    BusLemmas.RamWriteFrame(bus1, AddrOf(next), Hi(mc.cpu.sp), AddrOf(addr));
  }

  /** POP after PUSH of the same pair restores the CPU; for AF only the
      upper nibble of F survives, because PUSH AF masks it first. */
  lemma PushThenPopPair(pair: StackPair, mc: Machine)
    requires Ready(mc) && CpuLemmas.StackInRam(mc.cpu.sp)
    ensures var pushed := Execute(Push(pair), mc).machine;
      Execute(Pop(pair), pushed).machine
        == Machine(if pair == StackAF then mc.cpu.(f := mc.cpu.f & 0xF0) else mc.cpu, pushed.bus)
  {
    var s := if pair == StackAF then mc.cpu.(f := mc.cpu.f & 0xF0) else mc.cpu;
    PushEnters(pair, mc);
    var pushed := Execute(Push(pair), mc).machine;
    PopDispatch(pair, pushed);
    PopAfterPush(mc.(cpu := s), pair);
  }

  lemma PushEnters(pair: StackPair, mc: Machine)
    requires Ready(mc)
    ensures var s := if pair == StackAF then mc.cpu.(f := mc.cpu.f & 0xF0) else mc.cpu;
      Execute(Push(pair), mc).machine == CpuSpec.Push(mc.(cpu := s), PushValue(s, pair))
  {
    PushDispatch(Push(pair), mc);
  }

  lemma PushDispatch(op: Op, mc: Machine)
    requires Ready(mc) && op.Push?
    ensures Execute(op, mc).machine == PushPair(op.pair, mc)
  {
    CpuLemmas.StoreDispatch(op, mc);
  }

  lemma PopAfterPush(mc: Machine, pair: StackPair)
    requires Ready(mc) && CpuLemmas.StackInRam(mc.cpu.sp)
    requires pair == StackAF ==> mc.cpu.f & 0x0F == 0
    ensures PopState(pair, CpuSpec.Push(mc, PushValue(mc.cpu, pair))) == mc.cpu
  {
    CpuLemmas.PushThenPop(mc, PushValue(mc.cpu, pair));
    PopPushedValue(mc.cpu, pair);
  }

  /** Storing back the word PUSH takes from a pair leaves the CPU as it
      was, given F's low nibble is clear when the pair is AF. */
  lemma PopPushedValue(s: CpuState, pair: StackPair)
    requires pair == StackAF ==> s.f & 0x0F == 0
    ensures PopInto(s, pair, PushValue(s, pair)) == s
  {
    match pair
    case StackBC => WordOfBytes(GetBc(s));
    case StackDE => WordOfBytes(GetDe(s));
    case StackHL => WordOfBytes(GetHl(s));
    case StackAF =>
      WordOfBytes(GetAf(s));
      assert s.f & 0xF0 == s.f;
  }

  /** LD (HL),r then LD r',(HL) loads into r' the value r had. */
  lemma StoreThenLoad(src: Reg8, dst: Reg8, mc: Machine)
    requires Ready(mc) && BusLemmas.PlainRam(AddrOf(GetHl(mc.cpu)))
    ensures var stored := Execute(LdHlR(src), mc).machine;
      && stored.cpu == mc.cpu
      && CpuSpec.Reg(Execute(LdRHl(dst), stored).machine.cpu, dst) == CpuSpec.Reg(mc.cpu, src)
  {
    StoreRegEnters(src, mc);
    var stored := Execute(LdHlR(src), mc).machine;
    BusLemmas.RamReadAfterWrite(mc.bus, AddrOf(GetHl(mc.cpu)), CpuSpec.Reg(mc.cpu, src));
    LoadFromHl(dst, stored);
  }

  lemma StoreRegEnters(src: Reg8, mc: Machine)
    requires Ready(mc)
    ensures Execute(LdHlR(src), mc).machine == Machine(mc.cpu, Write(mc.bus, GetHl(mc.cpu), CpuSpec.Reg(mc.cpu, src)))
  {
    CpuLemmas.StoreDispatch(LdHlR(src), mc);
  }

  lemma LoadFromHl(dst: Reg8, mc: Machine)
    requires Ready(mc)
    ensures CpuSpec.Reg(Execute(LdRHl(dst), mc).machine.cpu, dst) == Read(mc.bus, GetHl(mc.cpu))
  {
    CpuLemmas.LoadDispatch(LdRHl(dst), mc);
  }

  /** LD A,(HL+) and LD A,(HL-) load the byte at HL into A and move HL one
      up or one down, wrapping. */
  lemma LoadAStepsHl(inc: bool, mc: Machine)
    requires Ready(mc)
    ensures var hl := GetHl(mc.cpu);
      var t := Execute(if inc then LdAHlInc else LdAHlDec, mc).machine;
      && t.bus == mc.bus && t.cpu.a == Read(mc.bus, hl)
      && GetHl(t.cpu) == (if inc then WrappingAdd16(hl, 1) else WrappingSub16(hl, 1))
  {
    var op := if inc then LdAHlInc else LdAHlDec;
    CpuLemmas.LoadDispatch(op, mc);
    var hl := GetHl(mc.cpu);
    WordOfBytes(if inc then WrappingAdd16(hl, 1) else WrappingSub16(hl, 1));
  }

  /** LD (HL+),A and LD (HL-),A store A at HL and move HL one up or one
      down, wrapping. */
  lemma StoreAStepsHl(inc: bool, mc: Machine)
    requires Ready(mc) && BusLemmas.PlainRam(AddrOf(GetHl(mc.cpu)))
    ensures var hl := GetHl(mc.cpu);
      var t := Execute(if inc then LdHlIncA else LdHlDecA, mc).machine;
      && Read(t.bus, hl) == mc.cpu.a && t.cpu.a == mc.cpu.a
      && GetHl(t.cpu) == (if inc then WrappingAdd16(hl, 1) else WrappingSub16(hl, 1))
  {
    var op := if inc then LdHlIncA else LdHlDecA;
    CpuLemmas.StoreDispatch(op, mc);
    var hl := GetHl(mc.cpu);
    assert Execute(op, mc).machine == Machine(HlStep(op, mc.cpu), Write(mc.bus, hl, mc.cpu.a));
    BusLemmas.RamReadAfterWrite(mc.bus, AddrOf(hl), mc.cpu.a);
    WordOfBytes(if inc then WrappingAdd16(hl, 1) else WrappingSub16(hl, 1));
  }

  /** POP, as `Execute` runs it. */
  lemma PopDispatch(pair: StackPair, mc: Machine)
    requires Ready(mc)
    ensures Execute(Pop(pair), mc).machine == Machine(PopState(pair, mc), mc.bus)
  {
    CpuLemmas.LoadDispatch(Pop(pair), mc);
  }

  // ---------------------------------------------------------------- CB operations

  /** The operand a CB operation acts on: its register or the byte at HL. */
  function CbOperand(op: CbOp, mc: Machine): bv8
    requires Ready(mc)
  {
    match op.loc
    case Reg(r) => CpuSpec.Reg(mc.cpu, r)
    case AtHl => Read(mc.bus, GetHl(mc.cpu))
  }

  /** RES b and SET b on a register clear or set bit b, keep the other
      seven bits and leave F alone. */
  lemma ResetOrSetRegister(op: CbOp, mc: Machine)
    requires Ready(mc) && (op.CbRes? || op.CbSet?) && op.loc.Reg?
    ensures var t := ExecCb(op, mc);
      var v := CpuSpec.Reg(mc.cpu, op.loc.r);
      var w := CpuSpec.Reg(t.cpu, op.loc.r);
      && t.bus == mc.bus && t.cpu.f == mc.cpu.f
      && BitSet(w, op.bit) == op.CbSet?
      && w & !BitMask(op.bit) == v & !BitMask(op.bit)
  {
  }

  /** BIT b tests without storing: memory and the registers other than F
      stay, Z is set exactly when bit b of the operand is clear, N is
      cleared, H set and C kept. */
  lemma BitTestKeepsOperand(op: CbOp, mc: Machine)
    requires Ready(mc) && op.CbBit?
    ensures var t := ExecCb(op, mc);
      && t.bus == mc.bus && t.cpu == mc.cpu.(f := t.cpu.f)
      && (Flag(t.cpu.f, FLAG_Z) <==> !BitSet(CbOperand(op, mc), op.bit))
      && !Flag(t.cpu.f, FLAG_N) && Flag(t.cpu.f, FLAG_H)
      && Flag(t.cpu.f, FLAG_C) == Flag(mc.cpu.f, FLAG_C)
  {
    match op.loc
    case Reg(r) =>
      assert CbRegState(op, mc.cpu, r) == mc.cpu.(f := TestBit(op.bit, CpuSpec.Reg(mc.cpu, r), mc.cpu.f));
    case AtHl =>
  }

  /** On (HL), every CB operation but BIT writes its result back to HL and
      its flags to F. */
  lemma WritesBackAtHl(op: CbOp, mc: Machine)
    requires Ready(mc) && !op.CbBit? && op.loc.AtHl? && BusLemmas.PlainRam(AddrOf(GetHl(mc.cpu)))
    ensures var out := CbResult(op, Read(mc.bus, GetHl(mc.cpu)), mc.cpu.f);
      && Read(ExecCb(op, mc).bus, GetHl(mc.cpu)) == out.value
      && ExecCb(op, mc).cpu == mc.cpu.(f := out.flags)
  {
    var out := CbResult(op, Read(mc.bus, GetHl(mc.cpu)), mc.cpu.f);
    BusLemmas.RamReadAfterWrite(mc.bus, AddrOf(GetHl(mc.cpu)), out.value);
  }

  // ---------------------------------------------------------------- the F invariant

  /** F's low nibble is zero. */
  predicate FlagNibbleClear(s: CpuState)
  {
    s.f & 0x0F == 0
  }

  /** Every handler keeps F's low nibble zero: flags are only ever written
      through the masking helpers, `set_af` and PUSH AF. */
  lemma ExecuteKeepsFlagNibble(op: Op, mc: Machine)
    requires Ready(mc) && FlagNibbleClear(mc.cpu)
    ensures FlagNibbleClear(Execute(op, mc).machine.cpu)
  {
    match GroupOf(op)
    case MiscGroup => CpuLemmas.MiscDispatch(op, mc); MiscKeepsNibble(op, mc);
    case ArithGroup => CpuLemmas.ArithDispatch(op, mc); ArithKeepsNibble(op, mc);
    case RegisterLoadGroup => CpuLemmas.LoadDispatch(op, mc); LoadKeepsNibble(op, mc);
    case StoreGroup => CpuLemmas.StoreDispatch(op, mc); StoreKeepsNibble(op, mc);
    case BranchGroup => CpuLemmas.BranchDispatch(op, mc);
    case CallGroup => CpuLemmas.CallDispatch(op, mc);
    case PrefixGroup =>
      var entry := Prefixed(Read(mc.bus, WrappingAdd16(mc.cpu.instructionPc, 1)));
      CbKeepsNibble(entry.execute, mc);
    case InvalidGroup =>
  }

  /** The invariant holds across a whole step of the modular CPU: a
      dispatch and the idle steps leave F alone, and so does the cycle
      accounting around a handler. */
  lemma StepKeepsFlagNibble(mc: Machine)
    requires Ready(mc) && FlagNibbleClear(mc.cpu)
    ensures FlagNibbleClear(Step(mc).machine.cpu)
  {
    if MayDispatch(mc.cpu) && PendingInterrupts(mc.bus) != 0 {
      DispatchStepKeepsF(mc);
    } else {
      CpuLemmas.StepWithoutInterrupt(mc);
      ResumeKeepsFlagNibble(Machine(PromoteIme(mc.cpu), mc.bus));
    }
  }

  /** The same across a step of core/src/cpu.rs. */
  lemma MonolithicStepKeepsFlagNibble(mc: Machine)
    requires Ready(mc) && FlagNibbleClear(mc.cpu)
    ensures FlagNibbleClear(StepMonolithic(mc).machine.cpu)
  {
    if MayDispatch(mc.cpu) && PendingInterrupts(mc.bus) != 0 {
      DispatchStepKeepsF(mc);
    } else {
      CpuLemmas.StepWithoutInterrupt(mc);
      ResumeMonolithicKeepsFlagNibble(Machine(PromoteIme(mc.cpu), mc.bus));
    }
  }

  lemma DispatchStepKeepsF(mc: Machine)
    requires Ready(mc) && MayDispatch(mc.cpu) && PendingInterrupts(mc.bus) != 0
    ensures Step(mc).machine.cpu.f == mc.cpu.f && StepMonolithic(mc).machine.cpu.f == mc.cpu.f
  {
    CpuLemmas.StepServesInterrupt(mc);
    CpuLemmas.DispatchJumpsToVector(mc);
  }

  lemma ResumeKeepsFlagNibble(mc: Machine)
    requires Ready(mc) && FlagNibbleClear(mc.cpu)
    ensures FlagNibbleClear(Resume(mc).machine.cpu)
  {
    if mc.cpu.halted || mc.cpu.stopRequested {
      IdleKeepsF(mc);
    } else {
      FetchExecuteKeepsFlagNibble(mc);
    }
  }

  lemma ResumeMonolithicKeepsFlagNibble(mc: Machine)
    requires Ready(mc) && FlagNibbleClear(mc.cpu)
    ensures FlagNibbleClear(ResumeMonolithic(mc).machine.cpu)
  {
    var woken := Machine(Woken(mc), mc.bus);
    if !woken.cpu.halted && !woken.cpu.stopRequested {
      assert ResumeMonolithic(mc) == FetchExecuteMonolithic(woken);
      var ex := ExecuteFetched(woken);
      ExecuteFetchedKeepsFlagNibble(woken);
      AccountKeepsF(ex, Widen16(Primary(Fetched(woken).fetchedOpcode).cycles));
    }
  }

  lemma IdleKeepsF(mc: Machine)
    requires Ready(mc)
    ensures Idle(mc, Woken(mc)).machine.cpu.f == mc.cpu.f
  {
  }

  lemma FetchExecuteKeepsFlagNibble(mc: Machine)
    requires Ready(mc) && FlagNibbleClear(mc.cpu)
    ensures FlagNibbleClear(FetchExecute(mc).machine.cpu)
  {
    var ex := ExecuteFetched(mc);
    ExecuteFetchedKeepsFlagNibble(mc);
    AccountKeepsF(ex, BaseCycles(ex.machine.cpu.fetchedOpcode));
  }

  lemma AccountKeepsF(ex: Executed, base: bv16)
    ensures Account(ex, base).machine.cpu.f == ex.machine.cpu.f
  {
  }

  lemma ExecuteFetchedKeepsFlagNibble(mc: Machine)
    requires Ready(mc) && FlagNibbleClear(mc.cpu)
    ensures FlagNibbleClear(ExecuteFetched(mc).machine.cpu)
  {
    var s := Fetched(mc);
    ExecuteKeepsFlagNibble(Primary(s.fetchedOpcode).execute, Machine(s, mc.bus));
  }

  lemma MiscKeepsNibble(op: Op, mc: Machine)
    requires Ready(mc) && GroupOf(op) == MiscGroup && FlagNibbleClear(mc.cpu)
    ensures FlagNibbleClear(MiscState(op, mc))
  {
  }

  lemma ArithKeepsNibble(op: Op, mc: Machine)
    requires Ready(mc) && GroupOf(op) == ArithGroup && FlagNibbleClear(mc.cpu)
    ensures FlagNibbleClear(ExecArith(op, mc).machine.cpu)
  {
    if !op.IncHlp? && !op.DecHlp? {
      assert ExecArith(op, mc).machine.cpu == ArithState(op, mc);
      ArithStateKeepsNibble(op, mc);
    }
  }

  lemma ArithStateKeepsNibble(op: Op, mc: Machine)
    requires Ready(mc) && GroupOf(op) == ArithGroup && !op.IncHlp? && !op.DecHlp? && FlagNibbleClear(mc.cpu)
    ensures FlagNibbleClear(ArithState(op, mc))
  {
    var s := mc.cpu;
    if op.IncR? || op.DecR? {
      IncDecRegKeepsNibble(op.IncR?, s, op.r);
    } else if op.Inc16? || op.Dec16? {
      PairStepKeepsF(op.Inc16?, s, op.rr);
    } else if op.Alu? {
      AluKeepsNibble(op.aluOp, s.a, s.f, OperandValue(mc, op.operand));
    }
  }

  lemma IncDecRegKeepsNibble(inc: bool, s: CpuState, r: Reg8)
    ensures FlagNibbleClear(IncDecRegState(inc, s, r))
  {
    var out := IncDec(inc, CpuSpec.Reg(s, r), s.f);
    assert IncDecRegState(inc, s, r).f == out.flags;
  }

  lemma PairStepKeepsF(inc: bool, s: CpuState, rr: Reg16)
    ensures PairStepState(inc, s, rr).f == s.f
  {
    KeepsFUnderWithPair(s, rr, if inc then WrappingAdd16(Pair(s, rr), 1) else WrappingSub16(Pair(s, rr), 1));
  }

  lemma AluKeepsNibble(op: AluOp, a: bv8, f: bv8, v: bv8)
    ensures AluApply(op, a, f, v).flags & 0x0F == 0
  {
    match op
    case AddOp =>
    case AdcOp =>
    case SubOp =>
    case SbcOp =>
    case AndOp =>
    case XorOp => ZeroOrZFlag(a ^ v == 0);
    case OrOp => ZeroOrZFlag(a | v == 0);
    case CpOp => assert CpA(a, f, v).flags == SubA(a, f, v, false).flags;
  }

  /** `FLAG_Z` or nothing has no low-nibble bit. */
  lemma ZeroOrZFlag(z: bool)
    ensures (if z then FLAG_Z else 0) & 0x0F == 0
  {
    FlagMasks();
  }

  lemma KeepsFUnderWithPair(s: CpuState, rr: Reg16, w: bv16)
    ensures WithPair(s, rr, w).f == s.f
  {
    match rr
    case BC => assert WithPair(s, rr, w) == SetBc(s, w);
    case DE => assert WithPair(s, rr, w) == SetDe(s, w);
    case HL => SetHlKeepsF(s, w);
    case SP =>
  }

  lemma SetHlKeepsF(s: CpuState, w: bv16)
    ensures SetHl(s, w).f == s.f
  {
  }

  lemma LoadKeepsNibble(op: Op, mc: Machine)
    requires Ready(mc) && GroupOf(op) == RegisterLoadGroup && FlagNibbleClear(mc.cpu)
    ensures FlagNibbleClear(RegisterLoadState(op, mc))
  {
    var s := mc.cpu;
    if op.LdRImm? || op.LdRR? || op.LdRHl? {
    } else if op.LdPairImm? {
      KeepsFUnderWithPair(s, op.rr, D16(mc));
    } else if op.LdHlSpR8? {
    } else if op.LdSpHl? {
    } else if op.Pop? {
      assert RegisterLoadState(op, mc) == PopInto(AfterPop(s), op.pair, Popped(mc));
      PopKeepsNibble(AfterPop(s), op.pair, Popped(mc));
    } else {
      var v := Read(mc.bus, LoadASource(op, mc));
      assert RegisterLoadState(op, mc) == HlStep(op, s.(a := v));
      HlStepKeepsF(op, s.(a := v));
    }
  }

  lemma PopKeepsNibble(s: CpuState, pair: StackPair, w: bv16)
    requires FlagNibbleClear(s)
    ensures FlagNibbleClear(PopInto(s, pair, w))
  {
  }

  lemma HlStepKeepsF(op: Op, s: CpuState)
    ensures HlStep(op, s).f == s.f
  {
    if op.LdAHlInc? || op.LdHlIncA? {
      SetHlKeepsF(s, WrappingAdd16(GetHl(s), 1));
    } else if op.LdAHlDec? || op.LdHlDecA? {
      SetHlKeepsF(s, WrappingSub16(GetHl(s), 1));
    }
  }

  lemma StoreKeepsNibble(op: Op, mc: Machine)
    requires Ready(mc) && GroupOf(op) == StoreGroup && FlagNibbleClear(mc.cpu)
    ensures FlagNibbleClear(ExecStore(op, mc).machine.cpu)
  {
    if !op.LdA16Sp? && !op.Push? {
      HlStepKeepsF(op, mc.cpu);
    }
  }

  lemma CbKeepsNibble(op: CbOp, mc: Machine)
    requires Ready(mc) && FlagNibbleClear(mc.cpu)
    ensures FlagNibbleClear(ExecCb(op, mc).cpu)
  {
    var out := CbResult(op, CbOperand(op, mc), mc.cpu.f);
    CbResultKeepsNibble(op, CbOperand(op, mc), mc.cpu.f);
    match op.loc
    case Reg(r) =>
      assert CbRegState(op, mc.cpu, r).f == out.flags;
    case AtHl =>
  }

  lemma CbResultKeepsNibble(op: CbOp, v: bv8, f: bv8)
    requires f & 0x0F == 0
    ensures CbResult(op, v, f).flags & 0x0F == 0
  {
    match op
    case CbRot(rot, _) => RotateKeepsNibble(rot, v, f);
    case CbBit(_, _) =>
    case CbRes(_, _) =>
    case CbSet(_, _) =>
  }

  lemma RotateKeepsNibble(rot: RotOp, v: bv8, f: bv8)
    ensures Rotate(rot, v, f).flags & 0x0F == 0
  {
    match rot
    case Rlc =>
    case Rrc =>
    case Rl =>
    case Rr =>
    case Sla =>
    case Sra =>
    case Swap => ZeroOrZFlag(v == 0);
    case Srl =>
  }
}
