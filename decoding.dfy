// A reference decoding of the SM83 opcode space, against which the two
// tables of instruction.dfy are checked entry by entry. An opcode byte is
// read as the fields x = bits 7-6, y = bits 5-3 (p = y / 2, q = y % 2)
// and z = bits 2-0; registers, pairs, conditions and ALU operations are
// numbered by those fields in the fixed orders B C D E H L (HL) A,
// BC DE HL SP, NZ Z NC C and ADD ADC SUB SBC AND XOR OR CP. Lengths are
// one byte plus the operand bytes, and base cycles are fixed per kind of
// operation (the not-taken cost for conditional branches).
module Decoding {
  import opened Instructions

  /** Register field value k (k != 6, which names (HL)). */
  function RegAt(k: int): Reg8
    requires 0 <= k < 8 && k != 6
  {
    if k == 0 then B else if k == 1 then C else if k == 2 then D else if k == 3 then E
    else if k == 4 then H else if k == 5 then L else A
  }

  function PairAt(p: int): Reg16
    requires 0 <= p < 4
  {
    if p == 0 then BC else if p == 1 then DE else if p == 2 then HL else SP
  }

  function StackPairAt(p: int): StackPair
    requires 0 <= p < 4
  {
    if p == 0 then StackBC else if p == 1 then StackDE else if p == 2 then StackHL else StackAF
  }

  function CondAt(k: int): Cond
    requires 0 <= k < 4
  {
    if k == 0 then CondNZ else if k == 1 then CondZ else if k == 2 then CondNC else CondC
  }

  function AluAt(k: int): AluOp
    requires 0 <= k < 8
  {
    if k == 0 then AddOp else if k == 1 then AdcOp else if k == 2 then SubOp else if k == 3 then SbcOp
    else if k == 4 then AndOp else if k == 5 then XorOp else if k == 6 then OrOp else CpOp
  }

  function OperandAt(k: int): Operand
    requires 0 <= k < 8
  {
    if k == 6 then FromHl else FromReg(RegAt(k))
  }

  function RotAt(k: int): RotOp
    requires 0 <= k < 8
  {
    if k == 0 then Rlc else if k == 1 then Rrc else if k == 2 then Rl else if k == 3 then Rr
    else if k == 4 then Sla else if k == 5 then Sra else if k == 6 then Swap else Srl
  }

  function LocAt(k: int): Loc
    requires 0 <= k < 8
  {
    if k == 6 then AtHl else Reg(RegAt(k))
  }

  function RstVectorAt(y: int): bv16
    requires 0 <= y < 8
  {
    if y == 0 then 0x00 else if y == 1 then 0x08 else if y == 2 then 0x10 else if y == 3 then 0x18
    else if y == 4 then 0x20 else if y == 5 then 0x28 else if y == 6 then 0x30 else 0x38
  }

  /** x = 0: relative jumps, 16-bit loads and arithmetic, 8-bit INC/DEC/LD
      d8, and the accumulator rotates and flag operations. The field y is
      taken as p = y / 2 and q = y % 2. */
  function DecodeX0(p: int, q: int, z: int): Op
    requires 0 <= p < 4 && 0 <= q < 2 && 0 <= z < 8
  {
    var y := 2 * p + q;
    if z == 0 then
      (if y == 0 then Nop else if y == 1 then LdA16Sp else if y == 2 then Stop
       else if y == 3 then Jr else JrCond(CondAt(y - 4)))
    else if z == 1 then (if q == 0 then LdPairImm(PairAt(p)) else AddHl(PairAt(p)))
    else if z == 2 then
      (if q == 0 then
         (if p == 0 then LdIndirectA(ViaBC) else if p == 1 then LdIndirectA(ViaDE)
          else if p == 2 then LdHlIncA else LdHlDecA)
       else
         (if p == 0 then LdAIndirect(ViaBC) else if p == 1 then LdAIndirect(ViaDE)
          else if p == 2 then LdAHlInc else LdAHlDec))
    else if z == 3 then (if q == 0 then Inc16(PairAt(p)) else Dec16(PairAt(p)))
    else if z == 4 then (if y == 6 then IncHlp else IncR(RegAt(y)))
    else if z == 5 then (if y == 6 then DecHlp else DecR(RegAt(y)))
    else if z == 6 then (if y == 6 then LdHlImm else LdRImm(RegAt(y)))
    else
      (if y == 0 then Rlca else if y == 1 then Rrca else if y == 2 then Rla else if y == 3 then Rra
       else if y == 4 then Daa else if y == 5 then Cpl else if y == 6 then Scf else Ccf)
  }

  /** x = 1: LD r,r' over the register field order, with HALT in place of
      LD (HL),(HL). */
  function DecodeX1(y: int, z: int): Op
    requires 0 <= y < 8 && 0 <= z < 8
  {
    if y == 6 && z == 6 then Halt
    else if z == 6 then LdRHl(RegAt(y))
    else if y == 6 then LdHlR(RegAt(z))
    else LdRR(RegAt(y), RegAt(z))
  }

  /** x = 2: operation y on A and operand z. */
  function DecodeX2(y: int, z: int): Op
    requires 0 <= y < 8 && 0 <= z < 8
  {
    Alu(AluAt(y), OperandAt(z))
  }

  /** x = 3: returns, pops and pushes, absolute jumps and calls, the high
      page loads, SP arithmetic, DI/EI, the CB prefix, immediate ALU
      operations and RST; the eleven holes are undefined. */
  function DecodeX3(p: int, q: int, z: int): Op
    requires 0 <= p < 4 && 0 <= q < 2 && 0 <= z < 8
  {
    var y := 2 * p + q;
    if z == 0 then
      (if y < 4 then RetCond(CondAt(y)) else if y == 4 then LdhA8A
       else if y == 5 then AddSpR8 else if y == 6 then LdhAA8 else LdHlSpR8)
    else if z == 1 then
      (if q == 0 then Pop(StackPairAt(p))
       else if p == 0 then Ret else if p == 1 then Reti else if p == 2 then JpHl else LdSpHl)
    else if z == 2 then
      (if y < 4 then JpCond(CondAt(y)) else if y == 4 then LdCA
       else if y == 5 then LdA16A else if y == 6 then LdAC else LdAA16)
    else if z == 3 then
      (if y == 0 then Jp else if y == 1 then PrefixCb else if y == 6 then Di
       else if y == 7 then Ei else Invalid)
    else if z == 4 then (if y < 4 then CallCond(CondAt(y)) else Invalid)
    else if z == 5 then (if q == 0 then Push(StackPairAt(p)) else if p == 0 then Call else Invalid)
    else if z == 6 then Alu(AluAt(y), FromImm)
    else Rst(RstVectorAt(y))
  }

  /** The operation an opcode byte stands for. */
  function Decode(i: int): Op
    requires 0 <= i < 256
  {
    var x := i / 64;
    var y := i / 8 % 8;
    var z := i % 8;
    if x == 0 then DecodeX0(y / 2, y % 2, z)
    else if x == 1 then DecodeX1(y, z)
    else if x == 2 then DecodeX2(y, z)
    else DecodeX3(y / 2, y % 2, z)
  }

  /** Operations followed by a d16 or a16 operand. */
  predicate WordOperand(op: Op)
  {
    op.LdPairImm? || op.LdA16A? || op.LdAA16? || op.LdA16Sp? || op.Jp? || op.JpCond? || op.Call? || op.CallCond?
  }

  /** Operations followed by one more byte: a d8, r8 or a8 operand, STOP's
      padding byte or the operation byte after the CB prefix. */
  predicate ByteOperand(op: Op)
  {
    op.LdRImm? || op.LdHlImm? || op.LdhA8A? || op.LdhAA8? || op.LdHlSpR8? || op.AddSpR8? || op.Jr? || op.JrCond?
    || op.Stop? || op.PrefixCb? || (op.Alu? && op.operand.FromImm?)
  }

  /** The instruction length: the opcode byte plus its operand bytes. */
  function Length(op: Op): (n: bv8)
  {
    if WordOperand(op) then 3 else if ByteOperand(op) then 2 else 1
  }

  /** The base T-cycles of an operation: 4 per machine cycle, counting the
      opcode fetch, each operand byte, each memory access and each internal
      delay; conditional branches at their not-taken cost. */
  function BaseCycles(op: Op): (n: bv8)
  {
    if op.LdA16Sp? then 20
    else if op.Call? then 24
    else if op.LdA16A? || op.LdAA16? || op.AddSpR8? || op.Jp? || op.Ret? || op.Reti? || op.Rst? || op.Push? then 16
    else if op.LdPairImm? || op.IncHlp? || op.DecHlp? || op.LdHlImm? || op.LdhA8A? || op.LdhAA8? || op.LdHlSpR8?
      || op.Jr? || op.JpCond? || op.CallCond? || op.Pop? then 12
    else if op.LdRHl? || op.LdHlR? || op.LdIndirectA? || op.LdAIndirect? || op.LdHlIncA? || op.LdHlDecA?
      || op.LdAHlInc? || op.LdAHlDec? || op.LdRImm? || op.Inc16? || op.Dec16? || op.AddHl? || op.LdCA? || op.LdAC?
      || op.LdSpHl? || op.JrCond? || op.RetCond? || (op.Alu? && !op.operand.FromReg?) then 8
    else 4
  }

  /** The CB operations: x = 0 rotates and shifts by y, x = 1, 2, 3 BIT,
      RES and SET of bit y, all on operand z. */
  function DecodeCb(x: int, y: int, z: int): CbOp
    requires 0 <= x < 4 && 0 <= y < 8 && 0 <= z < 8
  {
    var loc := LocAt(z);
    if x == 0 then CbRot(RotAt(y), loc)
    else if x == 1 then CbBit(y, loc)
    else if x == 2 then CbRes(y, loc)
    else CbSet(y, loc)
  }

  /** CB cycles: 8 on a register, 16 for a read-modify-write of (HL), 12
      for BIT's read of (HL). */
  function CbCycles(op: CbOp): (n: bv8)
    ensures n == 8 || n == 12 || n == 16
  {
    match op
    case CbBit(_, AtHl) => 12
    case CbRot(_, AtHl) | CbRes(_, AtHl) | CbSet(_, AtHl) => 16
    case _ => 8
  }


  /** Entries 0x00-0x1F hold the operations of the reference decoding. */
  lemma Primary00Ops()
    ensures forall p, q, z :: 0 <= p < 2 && 0 <= q < 2 && 0 <= z < 8 ==> Primary00(0x00 + 16 * p + 8 * q + z).execute == DecodeX0(p, q, z)
  {
  }

  /** Entries 0x20-0x3F hold the operations of the reference decoding. */
  lemma Primary20Ops()
    ensures forall p, q, z :: 2 <= p < 4 && 0 <= q < 2 && 0 <= z < 8 ==> Primary00(0x00 + 16 * p + 8 * q + z).execute == DecodeX0(p, q, z)
  {
  }

  /** Entries 0x00-0x1F carry the reference length and base cycles of
      their operation. */
  lemma Primary00Costs()
    ensures forall i :: 0x00 <= i < 0x20 ==> Primary00(i).length == Length(Primary00(i).execute) && Primary00(i).cycles == BaseCycles(Primary00(i).execute)
  {
  }

  /** Entries 0x20-0x3F carry the reference length and base cycles of
      their operation. */
  lemma Primary20Costs()
    ensures forall i :: 0x20 <= i < 0x40 ==> Primary00(i).length == Length(Primary00(i).execute) && Primary00(i).cycles == BaseCycles(Primary00(i).execute)
  {
  }

  /** Entries 0x40-0x7F hold the operations of the reference decoding. */
  lemma Primary40Ops()
    ensures forall y, z :: 0 <= y < 8 && 0 <= z < 8 ==> Primary40(0x40 + 8 * y + z).execute == DecodeX1(y, z)
  {
  }

  /** Entries 0x40-0x5F carry the reference length and base cycles of
      their operation. */
  lemma Primary40Costs()
    ensures forall i :: 0x40 <= i < 0x60 ==> Primary40(i).length == Length(Primary40(i).execute) && Primary40(i).cycles == BaseCycles(Primary40(i).execute)
  {
  }

  /** Entries 0x60-0x7F carry the reference length and base cycles of
      their operation. */
  lemma Primary60Costs()
    ensures forall i :: 0x60 <= i < 0x80 ==> Primary40(i).length == Length(Primary40(i).execute) && Primary40(i).cycles == BaseCycles(Primary40(i).execute)
  {
  }

  /** Entries 0x80-0xBF hold the operations of the reference decoding. */
  lemma Primary80Ops()
    ensures forall y, z :: 0 <= y < 8 && 0 <= z < 8 ==> Primary80(0x80 + 8 * y + z).execute == DecodeX2(y, z)
  {
  }

  /** Entries 0x80-0x9F carry the reference length and base cycles of
      their operation. */
  lemma Primary80Costs()
    ensures forall i :: 0x80 <= i < 0xA0 ==> Primary80(i).length == Length(Primary80(i).execute) && Primary80(i).cycles == BaseCycles(Primary80(i).execute)
  {
  }

  /** Entries 0xA0-0xBF carry the reference length and base cycles of
      their operation. */
  lemma PrimaryA0Costs()
    ensures forall i :: 0xA0 <= i < 0xC0 ==> Primary80(i).length == Length(Primary80(i).execute) && Primary80(i).cycles == BaseCycles(Primary80(i).execute)
  {
  }

  /** Entries 0xC0-0xDF hold the operations of the reference decoding. */
  lemma PrimaryC0Ops()
    ensures forall p, q, z :: 0 <= p < 2 && 0 <= q < 2 && 0 <= z < 8 ==> PrimaryC0(0xC0 + 16 * p + 8 * q + z).execute == DecodeX3(p, q, z)
  {
  }

  /** Entries 0xE0-0xFF hold the operations of the reference decoding. */
  lemma PrimaryE0Ops()
    ensures forall p, q, z :: 2 <= p < 4 && 0 <= q < 2 && 0 <= z < 8 ==> PrimaryC0(0xC0 + 16 * p + 8 * q + z).execute == DecodeX3(p, q, z)
  {
  }

  /** Entries 0xC0-0xDF carry the reference length and base cycles of
      their operation. PREFIX CB (0xCB) is the exception: its entry has length 1, where
      the prefix and the operation byte behind it are two bytes. */
  lemma PrimaryC0Costs()
    ensures forall i :: 0xC0 <= i < 0xE0 ==> PrimaryC0(i).length == (if i == 0xCB then 1 else Length(PrimaryC0(i).execute)) && PrimaryC0(i).cycles == BaseCycles(PrimaryC0(i).execute)
  {
  }

  /** Entries 0xE0-0xFF carry the reference length and base cycles of
      their operation. */
  lemma PrimaryE0Costs()
    ensures forall i :: 0xE0 <= i < 0x100 ==> PrimaryC0(i).length == Length(PrimaryC0(i).execute) && PrimaryC0(i).cycles == BaseCycles(PrimaryC0(i).execute)
  {
  }

  /** CB entries 0x00-0x3F hold the operations of the reference decoding. */
  lemma Prefixed00Ops()
    ensures forall y, z :: 0 <= y < 8 && 0 <= z < 8 ==> Prefixed00(0x00 + 8 * y + z).execute == DecodeCb(0, y, z)
  {
  }

  /** CB entries 0x00-0x3F have length 1 and the reference cycles. */
  lemma Prefixed00Costs()
    ensures forall i :: 0x00 <= i < 0x40 ==> Prefixed00(i).length == 1 && Prefixed00(i).cycles == CbCycles(Prefixed00(i).execute)
  {
  }

  /** CB entries 0x40-0x7F hold the operations of the reference decoding. */
  lemma Prefixed40Ops()
    ensures forall y, z :: 0 <= y < 8 && 0 <= z < 8 ==> Prefixed40(0x40 + 8 * y + z).execute == DecodeCb(1, y, z)
  {
  }

  /** CB entries 0x40-0x7F have length 1 and the reference cycles. */
  lemma Prefixed40Costs()
    ensures forall i :: 0x40 <= i < 0x80 ==> Prefixed40(i).length == 1 && Prefixed40(i).cycles == CbCycles(Prefixed40(i).execute)
  {
  }

  /** CB entries 0x80-0xBF hold the operations of the reference decoding. */
  lemma Prefixed80Ops()
    ensures forall y, z :: 0 <= y < 8 && 0 <= z < 8 ==> Prefixed80(0x80 + 8 * y + z).execute == DecodeCb(2, y, z)
  {
  }

  /** CB entries 0x80-0xBF have length 1 and the reference cycles. */
  lemma Prefixed80Costs()
    ensures forall i :: 0x80 <= i < 0xC0 ==> Prefixed80(i).length == 1 && Prefixed80(i).cycles == CbCycles(Prefixed80(i).execute)
  {
  }

  /** CB entries 0xC0-0xFF hold the operations of the reference decoding. */
  lemma PrefixedC0Ops()
    ensures forall y, z :: 0 <= y < 8 && 0 <= z < 8 ==> PrefixedC0(0xC0 + 8 * y + z).execute == DecodeCb(3, y, z)
  {
  }

  /** CB entries 0xC0-0xFF have length 1 and the reference cycles. */
  lemma PrefixedC0Costs()
    ensures forall i :: 0xC0 <= i < 0x100 ==> PrefixedC0(i).length == 1 && PrefixedC0(i).cycles == CbCycles(PrefixedC0(i).execute)
  {
  }
}
