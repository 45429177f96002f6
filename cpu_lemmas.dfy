// What the CPU model means: the stack and register-pair round trips, the
// effect of the control, load, arithmetic and CB handlers, interrupt
// dispatch and its priority, the delayed EI, HALT and STOP, the cycle
// accounting of `step`, and how the monolithic `step` of core/src/cpu.rs
// differs from the modular one.
module CpuLemmas {
  import opened Bits
  import opened MemoryMap
  import opened CpuConstants
  import opened Alu
  import opened Instructions
  import opened CpuSpec
  import BusSpec
  import BusLemmas
  import TableLemmas

  // ---------------------------------------------------------------- stack

  /** The two bytes below SP are distinct bytes of plain RAM. */
  predicate StackInRam(sp: bv16)
  {
    var hi := AddrOf(WrappingSub16(sp, 1));
    var lo := AddrOf(WrappingSub16(sp, 2));
    BusLemmas.PlainRam(hi) && BusLemmas.PlainRam(lo) && BusLemmas.Canon(hi) != BusLemmas.Canon(lo)
  }

  /** `push_word` stores the high byte at SP-1 and the low byte at SP-2
      (the new SP), wrapping. */
  lemma PushPlacesBytes(mc: Machine, w: bv16)
    requires Ready(mc) && StackInRam(mc.cpu.sp)
    ensures CpuSpec.Push(mc, w).cpu.sp == WrappingSub16(mc.cpu.sp, 2)
    ensures Read(CpuSpec.Push(mc, w).bus, WrappingSub16(mc.cpu.sp, 1)) == Hi(w)
    ensures Read(CpuSpec.Push(mc, w).bus, WrappingSub16(mc.cpu.sp, 2)) == Lo(w)
  {
    var sp1 := WrappingSub16(mc.cpu.sp, 1);
    var sp2 := WrappingSub16(sp1, 1);
    assert sp2 == WrappingSub16(mc.cpu.sp, 2);
    var bus1 := Write(mc.bus, sp1, Hi(w));
    BusLemmas.RamReadAfterWrite(mc.bus, AddrOf(sp1), Hi(w));
    BusLemmas.RamReadAfterWrite(bus1, AddrOf(sp2), Lo(w));
    BusLemmas.RamWriteFrame(bus1, AddrOf(sp2), Lo(w), AddrOf(sp1));
  }

  /** `pop_word` after `push_word` returns the pushed word and restores SP. */
  lemma PushThenPop(mc: Machine, w: bv16)
    requires Ready(mc) && StackInRam(mc.cpu.sp)
    ensures Popped(CpuSpec.Push(mc, w)) == w
    ensures AfterPop(CpuSpec.Push(mc, w).cpu) == mc.cpu
  {
    PushPlacesBytes(mc, w);
    var pushed := CpuSpec.Push(mc, w);
    var sp := mc.cpu.sp;
    StackOffsets(sp);
    var hi := Read(pushed.bus, WrappingSub16(sp, 1));
    var lo := Read(pushed.bus, WrappingSub16(sp, 2));
    assert Popped(pushed) == Word(hi, lo);
    WordOfBytes(w);
  }

  /** The slots a word occupies below SP, seen from SP two lower. */
  lemma StackOffsets(sp: bv16)
    ensures WrappingAdd16(WrappingSub16(sp, 2), 1) == WrappingSub16(sp, 1)
    ensures WrappingAdd16(WrappingSub16(sp, 2), 2) == sp
  {
  }

  // ---------------------------------------------------------------- registers

  /** Writing a register pair and reading it back gives the word written;
      the other pairs keep their values. */
  lemma PairRoundTrip(s: CpuState, rr: Reg16, w: bv16, other: Reg16)
    ensures Pair(WithPair(s, rr, w), rr) == w
    ensures other != rr ==> Pair(WithPair(s, rr, w), other) == Pair(s, other)
  {
    WordOfBytes(w);
  }

  /** `set_af` keeps A and the upper nibble of F: reading AF back gives the
      word with its low nibble cleared. */
  lemma SetAfDropsLowNibble(s: CpuState, w: bv16)
    ensures GetAf(SetAf(s, w)) == w & 0xFFF0
    ensures SetAf(s, w).f & 0x0F == 0
  {
    WordOfBytes(w);
    WordOfBytes(w & 0xFFF0);
  }

  /** Under the invariant that F's low nibble is zero, the masked `get_af`
      of core/src/cpu.rs and the unmasked one of the modular CPU agree. */
  lemma GetAfVariantsAgree(s: CpuState)
    requires s.f & 0x0F == 0
    ensures GetAfMasked(s) == GetAf(s)
  {
    assert s.f & 0xF0 == s.f;
  }

  // ---------------------------------------------------------------- interrupts

  /** `handle_interrupts` serves the lowest pending bit: that bit is
      pending and no lower one is, so V-Blank has the highest priority and
      the joypad the lowest. */
  lemma ServesLowestPending(pending: bv8)
    requires pending != 0 && pending & 0x1F == pending
    ensures BitSet(pending, ServedInterrupt(pending))
    ensures forall k: nat :: k < ServedInterrupt(pending) ==> !BitSet(pending, k)
  {
    var bit := ServedInterrupt(pending);
    forall k: nat | k < bit
      ensures !BitSet(pending, k)
    {
      if k == 0 {
        assert pending & 1 == 0;
      } else if k == 1 {
        assert pending & 2 == 0;
      } else if k == 2 {
        assert pending & 4 == 0;
      } else {
        assert pending & 8 == 0;
      }
    }
  }

  /** A dispatch turns IME and a scheduled enable off, pushes the PC and
      jumps to 0x40 + 8 * bit; every other register keeps its value. */
  lemma DispatchJumpsToVector(mc: Machine)
    requires Ready(mc) && PendingInterrupts(mc.bus) != 0
    ensures var bit := ServedInterrupt(PendingInterrupts(mc.bus));
      Dispatch(mc).cpu == mc.cpu.(ime := false, imeScheduled := false,
        sp := WrappingSub16(mc.cpu.sp, 2), pc := InterruptVector(bit))
      && Dispatch(mc).cpu.pc as int == 0x40 + 8 * bit
  {
  }

  /** A dispatch clears the served bit of IF and keeps its other bits, as
      long as the two stack slots it writes are RAM. */
  lemma DispatchClearsRequest(mc: Machine)
    requires Ready(mc) && PendingInterrupts(mc.bus) != 0 && StackInRam(mc.cpu.sp)
    ensures var bit := ServedInterrupt(PendingInterrupts(mc.bus));
      BusSpec.ReadByte(Dispatch(mc).bus, IF_ADDR) == BusSpec.ReadByte(mc.bus, IF_ADDR) & !BitMask(bit)
  {
    var bit := ServedInterrupt(PendingInterrupts(mc.bus));
    var ack := Acknowledged(mc, bit);
    AcknowledgeClearsBit(mc, bit);
    PushKeepsOther(ack, mc.cpu.pc, IF_ADDR);
    assert Dispatch(mc).bus == CpuSpec.Push(ack, ack.cpu.pc).bus;
  }

  /** The acknowledgement's IF write leaves exactly the served bit clear. */
  lemma AcknowledgeClearsBit(mc: Machine, bit: nat)
    requires Ready(mc) && bit < 5
    ensures BusSpec.ReadByte(Acknowledged(mc, bit).bus, IF_ADDR) == BusSpec.ReadByte(mc.bus, IF_ADDR) & !BitMask(bit)
  {
    var flags := BusSpec.ReadByte(mc.bus, IF_ADDR);
    BusLemmas.InterruptFlagMask(mc.bus, flags & !BitMask(bit));
    ClearedBitStaysClear(flags, bit);
  }

  /** A push writes only its two stack slots: a byte outside RAM reads as
      before. */
  lemma PushKeepsOther(mc: Machine, w: bv16, other: Addr)
    requires Ready(mc) && StackInRam(mc.cpu.sp) && !BusLemmas.PlainRam(other)
    ensures BusSpec.ReadByte(CpuSpec.Push(mc, w).bus, other) == BusSpec.ReadByte(mc.bus, other)
  {
    var sp1 := WrappingSub16(mc.cpu.sp, 1);
    var sp2 := WrappingSub16(sp1, 1);
    assert sp2 == WrappingSub16(mc.cpu.sp, 2);
    var bus1 := Write(mc.bus, sp1, Hi(w));
    BusLemmas.RamWriteFrame(mc.bus, AddrOf(sp1), Hi(w), other);
    BusLemmas.RamWriteFrame(bus1, AddrOf(sp2), Lo(w), other);
  }

  /** The IF write of the acknowledgement keeps the upper three bits, so
      writing `flags & !mask` reads back as `flags & !mask`. */
  lemma ClearedBitStaysClear(flags: bv8, bit: nat)
    requires bit < 5
    ensures ((flags & !BitMask(bit)) & 0x1F) | (flags & 0xE0) == flags & !BitMask(bit)
  {
    assert BitMask(bit) & 0xE0 == 0;
  }

  /** The return address a dispatch pushes is the interrupted PC: RETI at
      the end of the handler brings the CPU back to where it was, with IME
      on. */
  lemma DispatchThenReti(mc: Machine)
    requires Ready(mc) && PendingInterrupts(mc.bus) != 0 && StackInRam(mc.cpu.sp)
    ensures Popped(Dispatch(mc)) == mc.cpu.pc
    ensures RetiState(Dispatch(mc)) == mc.cpu.(ime := true, imeScheduled := false)
  {
    var bit := ServedInterrupt(PendingInterrupts(mc.bus));
    var ack := Acknowledged(mc, bit);
    PushThenPop(ack, mc.cpu.pc);
  }

  // ---------------------------------------------------------------- step

  /** A step that serves an interrupt does only that: the dispatch, HALT
      and STOP left, 20 cycles counted and returned. The two steps agree
      on it. */
  lemma StepServesInterrupt(mc: Machine)
    requires Ready(mc) && MayDispatch(mc.cpu) && PendingInterrupts(mc.bus) != 0
    ensures Step(mc) == Stepped(Machine(WokenByInterrupt(Dispatch(mc).cpu, 20), Dispatch(mc).bus), Ok(20))
    ensures StepMonolithic(mc) == Step(mc)
  {
    assert Machine(PromoteIme(mc.cpu), mc.bus) == mc;
  }

  /** Without an interrupt to serve, a step continues with the halted
      phase on the promoted CPU. */
  lemma StepWithoutInterrupt(mc: Machine)
    requires Ready(mc) && !(MayDispatch(mc.cpu) && PendingInterrupts(mc.bus) != 0)
    ensures Step(mc) == Resume(Machine(PromoteIme(mc.cpu), mc.bus))
    ensures StepMonolithic(mc) == ResumeMonolithic(Machine(PromoteIme(mc.cpu), mc.bus))
  {
  }

  /** EI takes effect one instruction late: the step that finds the enable
      scheduled turns IME on but serves no interrupt. */
  lemma EnableIsDelayed(mc: Machine)
    requires Ready(mc) && mc.cpu.imeScheduled
    ensures Step(mc) == Resume(Machine(mc.cpu.(ime := true, imeScheduled := false), mc.bus))
    ensures StepMonolithic(mc) == ResumeMonolithic(Machine(mc.cpu.(ime := true, imeScheduled := false), mc.bus))
  {
    StepWithoutInterrupt(mc);
  }

  /** A halted or stopped CPU with no interrupt to serve spends four
      cycles and changes nothing else; a pending enabled interrupt takes
      it out of HALT (not out of STOP) without running an instruction. */
  lemma HaltedStepIdles(mc: Machine)
    requires Ready(mc) && (mc.cpu.halted || mc.cpu.stopRequested)
    requires !(MayDispatch(mc.cpu) && PendingInterrupts(mc.bus) != 0)
    ensures Step(mc).result == Ok(4) && Step(mc).machine.bus == mc.bus
    ensures Step(mc).machine.cpu == PromoteIme(mc.cpu).(
      halted := mc.cpu.halted && PendingInterrupts(mc.bus) == 0,
      totalCycles := WrappingAdd64(mc.cpu.totalCycles, 4))
  {
    StepWithoutInterrupt(mc);
  }

  /** The step of core/src/cpu.rs that wakes from HALT goes on to run the
      next instruction, where the modular step only idles. */
  lemma MonolithicWakeRuns(mc: Machine)
    requires Ready(mc) && mc.cpu.halted && !mc.cpu.stopRequested
    requires PendingInterrupts(mc.bus) != 0 && !MayDispatch(mc.cpu)
    ensures StepMonolithic(mc) == FetchExecuteMonolithic(Machine(PromoteIme(mc.cpu).(halted := false), mc.bus))
    ensures Step(mc).result == Ok(4)
  {
    StepWithoutInterrupt(mc);
    HaltedStepIdles(mc);
  }

  /** The fetched opcode and the instruction's address agree. */
  predicate SameInstruction(s: CpuState, t: CpuState)
  {
    t.fetchedOpcode == s.fetchedOpcode && t.instructionPc == s.instructionPc
  }

  /** No handler changes the fetched opcode or the instruction's address. */
  lemma ExecuteKeepsInstruction(op: Op, mc: Machine)
    requires Ready(mc)
    ensures SameInstruction(mc.cpu, Execute(op, mc).machine.cpu)
  {
    match GroupOf(op)
    case MiscGroup => MiscKeepsInstruction(op, mc); MiscDispatch(op, mc);
    case ArithGroup => ArithKeepsInstruction(op, mc); ArithDispatch(op, mc);
    case RegisterLoadGroup => LoadKeepsInstruction(op, mc); LoadDispatch(op, mc);
    case StoreGroup => StoreKeepsInstruction(op, mc); StoreDispatch(op, mc);
    case BranchGroup => BranchKeepsInstruction(op, mc); BranchDispatch(op, mc);
    case CallGroup =>
    case PrefixGroup => CbKeepsInstruction(mc); PrefixDispatch(op, mc);
    case InvalidGroup =>
  }

  /** The handler of a jump or return, as `Execute` runs it. */
  lemma BranchDispatch(op: Op, mc: Machine)
    requires Ready(mc) && GroupOf(op) == BranchGroup
    ensures Execute(op, mc) == Regs(mc, Branch(op, mc).0, Branch(op, mc).1)
  {
  }

  /** The handler of a call, as `Execute` runs it. */
  lemma CallDispatch(op: Op, mc: Machine)
    requires Ready(mc) && GroupOf(op) == CallGroup
    ensures Execute(op, mc) == ExecCall(op, mc)
  {
  }

  /** The handler of a miscellaneous control operation, as `Execute` runs
      it. */
  lemma MiscDispatch(op: Op, mc: Machine)
    requires Ready(mc) && GroupOf(op) == MiscGroup
    ensures Execute(op, mc) == Regs(mc, MiscState(op, mc), 0)
  {
  }

  /** The handler of an arithmetic operation, as `Execute` runs it. */
  lemma ArithDispatch(op: Op, mc: Machine)
    requires Ready(mc) && GroupOf(op) == ArithGroup
    ensures Execute(op, mc) == ExecArith(op, mc)
  {
  }

  /** The handler of a store or PUSH, as `Execute` runs it. */
  lemma StoreDispatch(op: Op, mc: Machine)
    requires Ready(mc) && GroupOf(op) == StoreGroup
    ensures Execute(op, mc) == ExecStore(op, mc)
  {
  }

  /** The handler of a load into registers, as `Execute` runs it. */
  lemma LoadDispatch(op: Op, mc: Machine)
    requires Ready(mc) && GroupOf(op) == RegisterLoadGroup
    ensures Execute(op, mc) == Regs(mc, RegisterLoadState(op, mc), 0)
  {
  }


  lemma MiscKeepsInstruction(op: Op, mc: Machine)
    requires GroupOf(op) == MiscGroup && Ready(mc)
    ensures SameInstruction(mc.cpu, MiscState(op, mc))
  {
  }

  lemma ArithKeepsInstruction(op: Op, mc: Machine)
    requires GroupOf(op) == ArithGroup && Ready(mc)
    ensures SameInstruction(mc.cpu, ExecArith(op, mc).machine.cpu)
  {
    if !op.IncHlp? && !op.DecHlp? {
      assert ExecArith(op, mc).machine.cpu == ArithState(op, mc);
      ArithStateKeepsInstruction(op, mc);
    }
  }

  lemma ArithStateKeepsInstruction(op: Op, mc: Machine)
    requires GroupOf(op) == ArithGroup && !op.IncHlp? && !op.DecHlp? && Ready(mc)
    ensures SameInstruction(mc.cpu, ArithState(op, mc))
  {
    var s := mc.cpu;
    if op.IncR? || op.DecR? {
      var out := IncDec(op.IncR?, CpuSpec.Reg(s, op.r), s.f);
      KeepsUnderWithReg(s.(f := out.flags), op.r, out.value);
    } else if op.Inc16? || op.Dec16? {
      KeepsUnderWithPair(s, op.rr, if op.Inc16? then WrappingAdd16(Pair(s, op.rr), 1) else WrappingSub16(Pair(s, op.rr), 1));
    }
  }

  lemma KeepsUnderWithReg(s: CpuState, r: Reg8, v: bv8)
    ensures SameInstruction(s, WithReg(s, r, v))
  {
  }

  lemma KeepsUnderWithPair(s: CpuState, rr: Reg16, w: bv16)
    ensures SameInstruction(s, WithPair(s, rr, w))
  {
  }

  lemma LoadKeepsInstruction(op: Op, mc: Machine)
    requires GroupOf(op) == RegisterLoadGroup && Ready(mc)
    ensures SameInstruction(mc.cpu, RegisterLoadState(op, mc))
  {
    var s := mc.cpu;
    if op.LdRImm? {
      KeepsUnderWithReg(s, op.r, D8(mc));
    } else if op.LdRR? {
      KeepsUnderWithReg(s, op.dst, CpuSpec.Reg(s, op.src));
    } else if op.LdRHl? {
      KeepsUnderWithReg(s, op.dst, Read(mc.bus, GetHl(s)));
    } else if op.LdPairImm? {
      KeepsUnderWithPair(s, op.rr, D16(mc));
    } else if op.Pop? {
      KeepsUnderPopInto(AfterPop(s), op.pair, Popped(mc));
    } else if !op.LdHlSpR8? && !op.LdSpHl? {
      KeepsUnderLoadA(op, s, Read(mc.bus, LoadASource(op, mc)));
    }
  }

  lemma KeepsUnderPopInto(s: CpuState, pair: StackPair, w: bv16)
    ensures SameInstruction(s, PopInto(s, pair, w))
  {
  }

  lemma KeepsUnderLoadA(op: Op, s: CpuState, v: bv8)
    ensures SameInstruction(s, LoadAState(op, s, v))
  {
    KeepsUnderHlStep(op, s.(a := v));
  }

  lemma KeepsUnderHlStep(op: Op, s: CpuState)
    ensures SameInstruction(s, HlStep(op, s))
  {
  }

  lemma StoreKeepsInstruction(op: Op, mc: Machine)
    requires GroupOf(op) == StoreGroup && Ready(mc)
    ensures SameInstruction(mc.cpu, ExecStore(op, mc).machine.cpu)
  {
    if !op.LdA16Sp? && !op.Push? {
      KeepsUnderHlStep(op, mc.cpu);
      assert ExecStore(op, mc).machine.cpu == HlStep(op, mc.cpu);
    }
  }

  lemma BranchKeepsInstruction(op: Op, mc: Machine)
    requires GroupOf(op) == BranchGroup && Ready(mc)
    ensures SameInstruction(mc.cpu, Branch(op, mc).0)
  {
  }

  lemma CbKeepsInstruction(mc: Machine)
    requires Ready(mc)
    ensures SameInstruction(mc.cpu, ExecPrefixCb(mc).machine.cpu)
  {
    var entry := Prefixed(Read(mc.bus, WrappingAdd16(mc.cpu.instructionPc, 1)));
    CbOpKeepsInstruction(entry.execute, mc);
  }

  lemma CbOpKeepsInstruction(op: CbOp, mc: Machine)
    requires Ready(mc)
    ensures SameInstruction(mc.cpu, ExecCb(op, mc).cpu)
  {
    match op.loc
    case Reg(r) =>
      var out := CbResult(op, CpuSpec.Reg(mc.cpu, r), mc.cpu.f);
      KeepsUnderWithReg(mc.cpu.(f := out.flags), r, out.value);
    case AtHl =>
  }

  /** Whether `step` wakes the CPU from HALT without an interrupt to
      serve: the one case where the two steps differ. */
  predicate WakesWithoutDispatch(mc: Machine)
    requires Ready(mc)
  {
    mc.cpu.halted && !mc.cpu.stopRequested && PendingInterrupts(mc.bus) != 0 && !MayDispatch(mc.cpu)
  }

  /** The base cycles the modular step looks up after the handler equal
      the table's cycles the monolithic step reads before it. */
  lemma BaseCyclesAgree(mc: Machine)
    requires Ready(mc)
    ensures FetchExecute(mc) == FetchExecuteMonolithic(mc)
  {
    var ex := ExecuteFetched(mc);
    var s := Fetched(mc);
    ExecuteKeepsInstruction(Primary(s.fetchedOpcode).execute, Machine(s, mc.bus));
    TableLemmas.OperandLengths(0xCB);
    TableLemmas.PrimaryCosts(0xCB);
  }

  /** Outside a wake from HALT, the steps of core/src/cpu/mod.rs and
      core/src/cpu.rs are the same. */
  lemma StepsAgree(mc: Machine)
    requires Ready(mc) && !WakesWithoutDispatch(mc)
    ensures StepMonolithic(mc) == Step(mc)
  {
    if MayDispatch(mc.cpu) && PendingInterrupts(mc.bus) != 0 {
      StepServesInterrupt(mc);
    } else {
      StepWithoutInterrupt(mc);
      var p := Machine(PromoteIme(mc.cpu), mc.bus);
      if !mc.cpu.halted && !mc.cpu.stopRequested {
        BaseCyclesAgree(p);
      }
    }
  }

  /** A handler fails exactly for the operation of the undefined opcodes. */
  lemma ExecuteFailsOnlyInvalid(op: Op, mc: Machine)
    requires Ready(mc)
    ensures Execute(op, mc).handled.Failed? <==> op == Invalid
  {
    FailsOnlyInInvalidGroup(op, mc);
    InvalidGroupIsInvalid(op);
  }

  lemma FailsOnlyInInvalidGroup(op: Op, mc: Machine)
    requires Ready(mc)
    ensures Execute(op, mc).handled.Failed? <==> GroupOf(op) == InvalidGroup
  {
    match GroupOf(op)
    case MiscGroup =>
    case ArithGroup => assert ExecArith(op, mc).handled.Done?;
    case RegisterLoadGroup =>
    case StoreGroup =>
    case BranchGroup =>
    case CallGroup => assert ExecCall(op, mc).handled.Done?;
    case PrefixGroup =>
    case InvalidGroup =>
  }

  lemma InvalidGroupIsInvalid(op: Op)
    ensures GroupOf(op) == InvalidGroup <==> op == Invalid
  {
  }

  /** A running CPU with no interrupt to serve executes the instruction at
      PC: the step returns the base cycles plus the handler's extra cycles,
      and it returns an error exactly for the undefined opcodes. */
  lemma RunningStep(mc: Machine)
    requires Ready(mc) && !mc.cpu.halted && !mc.cpu.stopRequested
    requires !(MayDispatch(mc.cpu) && PendingInterrupts(mc.bus) != 0)
    ensures var opcode := Read(mc.bus, mc.cpu.pc);
      var ex := ExecuteFetched(Machine(PromoteIme(mc.cpu), mc.bus));
      && Step(mc) == Account(ex, BaseCycles(opcode))
      && Step(mc).machine.bus == ex.machine.bus
      && (ex.handled.Done? ==> Step(mc).result == Ok(WrappingAdd16(BaseCycles(opcode), ex.handled.extra)))
      && (Step(mc).result.Err? <==> opcode as int in TableLemmas.UNDEFINED_OPCODES)
  {
    StepWithoutInterrupt(mc);
    var p := Machine(PromoteIme(mc.cpu), mc.bus);
    var opcode := Read(mc.bus, mc.cpu.pc);
    var f := Fetched(p);
    assert f.fetchedOpcode == opcode;
    var op := Primary(opcode).execute;
    ExecuteKeepsInstruction(op, Machine(f, mc.bus));
    ExecuteFailsOnlyInvalid(op, Machine(f, mc.bus));
    TableLemmas.UndefinedOpcodes(opcode);
  }

  /** At an undefined opcode the step fails naming the opcode and its
      address, counts four cycles, moves PC one on and changes nothing
      else. */
  lemma UndefinedOpcodeStep(mc: Machine)
    requires Ready(mc) && !mc.cpu.halted && !mc.cpu.stopRequested
    requires !(MayDispatch(mc.cpu) && PendingInterrupts(mc.bus) != 0)
    requires Read(mc.bus, mc.cpu.pc) as int in TableLemmas.UNDEFINED_OPCODES
    ensures Step(mc).result == Err(mc.cpu.pc, Read(mc.bus, mc.cpu.pc))
    ensures Step(mc).machine == Machine(PromoteIme(mc.cpu).(
      instructionPc := mc.cpu.pc, fetchedOpcode := Read(mc.bus, mc.cpu.pc),
      pc := WrappingAdd16(mc.cpu.pc, 1), totalCycles := WrappingAdd64(mc.cpu.totalCycles, 4)), mc.bus)
  {
    StepWithoutInterrupt(mc);
    var p := Machine(PromoteIme(mc.cpu), mc.bus);
    assert Resume(p) == FetchExecute(p);
    UndefinedFetchExecute(p);
  }

  /** The fetch and execute phases at an undefined opcode. */
  lemma UndefinedFetchExecute(mc: Machine)
    requires Ready(mc) && Read(mc.bus, mc.cpu.pc) as int in TableLemmas.UNDEFINED_OPCODES
    ensures FetchExecute(mc) == Stepped(Machine(mc.cpu.(
      instructionPc := mc.cpu.pc, fetchedOpcode := Read(mc.bus, mc.cpu.pc),
      pc := WrappingAdd16(mc.cpu.pc, 1), totalCycles := WrappingAdd64(mc.cpu.totalCycles, 4)), mc.bus),
      Err(mc.cpu.pc, Read(mc.bus, mc.cpu.pc)))
  {
    var opcode := Read(mc.bus, mc.cpu.pc);
    UndefinedFetched(mc);
    var f := Fetched(mc);
    assert FetchExecute(mc) == Account(Executed(Machine(f, mc.bus), Failed), BaseCycles(opcode));
  }

  /** Fetching an undefined opcode moves PC one on and runs the failing
      handler; the base cycles are four. */
  lemma UndefinedFetched(mc: Machine)
    requires Ready(mc) && Read(mc.bus, mc.cpu.pc) as int in TableLemmas.UNDEFINED_OPCODES
    ensures Fetched(mc) == mc.cpu.(instructionPc := mc.cpu.pc, fetchedOpcode := Read(mc.bus, mc.cpu.pc),
      pc := WrappingAdd16(mc.cpu.pc, 1))
    ensures ExecuteFetched(mc) == Executed(Machine(Fetched(mc), mc.bus), Failed)
    ensures BaseCycles(Read(mc.bus, mc.cpu.pc)) == 4
  {
    var opcode := Read(mc.bus, mc.cpu.pc);
    TableLemmas.UndefinedOpcodes(opcode);
    assert Primary(opcode) == INVALID;
    var f := Fetched(mc);
    var op := Primary(f.fetchedOpcode).execute;
    InvalidGroupIsInvalid(op);
    InvalidDispatch(op, Machine(f, mc.bus));
  }

  lemma InvalidDispatch(op: Op, mc: Machine)
    requires Ready(mc) && GroupOf(op) == InvalidGroup
    ensures Execute(op, mc) == Executed(mc, Failed)
  {
  }

  /** A CB-prefixed instruction returns 4 cycles plus the CB entry's, but
      PC moves past the prefix byte only, so the next step fetches the
      operation byte as an opcode. */
  lemma PrefixStep(mc: Machine)
    requires Ready(mc) && !mc.cpu.halted && !mc.cpu.stopRequested
    requires !(MayDispatch(mc.cpu) && PendingInterrupts(mc.bus) != 0)
    requires Read(mc.bus, mc.cpu.pc) == 0xCB
    ensures var entry := Prefixed(Read(mc.bus, WrappingAdd16(mc.cpu.pc, 1)));
      Step(mc).result == Ok(WrappingAdd16(4, Widen16(entry.cycles)))
      && Step(mc).machine.cpu.pc == WrappingAdd16(mc.cpu.pc, 1)
  {
    StepWithoutInterrupt(mc);
    var p := Machine(PromoteIme(mc.cpu), mc.bus);
    assert Resume(p) == FetchExecute(p);
    PrefixFetchExecute(p);
  }

  /** The fetch and execute phases of a CB-prefixed instruction. */
  lemma PrefixFetchExecute(mc: Machine)
    requires Ready(mc) && Read(mc.bus, mc.cpu.pc) == 0xCB
    ensures var entry := Prefixed(Read(mc.bus, WrappingAdd16(mc.cpu.pc, 1)));
      FetchExecute(mc).result == Ok(WrappingAdd16(4, Widen16(entry.cycles)))
      && FetchExecute(mc).machine.cpu.pc == WrappingAdd16(mc.cpu.pc, 1)
  {
    var f := Fetched(mc);
    PrefixFetched(mc);
    var entry := Prefixed(Read(mc.bus, WrappingAdd16(mc.cpu.pc, 1)));
    var ex := ExecuteFetched(mc);
    CbOpKeepsInstruction(entry.execute, Machine(f, mc.bus));
    CbOpKeepsPc(entry.execute, Machine(f, mc.bus));
    assert ex.machine.cpu.fetchedOpcode == 0xCB;
    assert FetchExecute(mc) == Account(ex, 4);
  }

  /** Fetching the prefix moves PC one on and runs `op_prefix_cb`. */
  lemma PrefixFetched(mc: Machine)
    requires Ready(mc) && Read(mc.bus, mc.cpu.pc) == 0xCB
    ensures Fetched(mc).pc == WrappingAdd16(mc.cpu.pc, 1) && Fetched(mc).fetchedOpcode == 0xCB
    ensures Fetched(mc).instructionPc == mc.cpu.pc
    ensures ExecuteFetched(mc) == ExecPrefixCb(Machine(Fetched(mc), mc.bus))
  {
    TableLemmas.OperandLengths(0xCB);
    var f := Fetched(mc);
    assert f.fetchedOpcode == 0xCB;
    var op := Primary(f.fetchedOpcode).execute;
    PrefixGroupOf(op);
    PrefixDispatch(op, Machine(f, mc.bus));
  }

  lemma PrefixGroupOf(op: Op)
    requires op == PrefixCb
    ensures GroupOf(op) == PrefixGroup
  {
  }

  lemma PrefixDispatch(op: Op, mc: Machine)
    requires Ready(mc) && GroupOf(op) == PrefixGroup
    ensures Execute(op, mc) == ExecPrefixCb(mc)
  {
  }

  /** No CB operation moves PC. */
  lemma CbOpKeepsPc(op: CbOp, mc: Machine)
    requires Ready(mc)
    ensures ExecCb(op, mc).cpu.pc == mc.cpu.pc
  {
    match op.loc
    case Reg(r) =>
      var out := CbResult(op, CpuSpec.Reg(mc.cpu, r), mc.cpu.f);
      assert ExecCb(op, mc).cpu == CbRegState(op, mc.cpu, r);
    case AtHl =>
  }
}
