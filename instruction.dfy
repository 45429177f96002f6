// The opcode tables of core/src/instruction.rs: for each of the 256
// primary opcodes and the 256 opcodes after the 0xCB prefix, the length
// in bytes the step adds to PC, the base T-cycle count and the handler.
// Handlers are named by what they do (a datatype of operations) rather
// than by function pointer; the mnemonic strings, which only feed the
// disassembler, are kept as comments.
module Instructions {
  /** The 8-bit registers an operand can name. */
  datatype Reg8 = B | C | D | E | H | L | A

  /** The 16-bit targets of LD rr,d16, INC rr, DEC rr and ADD HL,rr. */
  datatype Reg16 = BC | DE | HL | SP

  /** The register pairs PUSH and POP move. */
  datatype StackPair = StackBC | StackDE | StackHL | StackAF

  /** The pairs LD (rr),A and LD A,(rr) address memory through. */
  datatype IndirectPair = ViaBC | ViaDE

  /** The branch conditions NZ, Z, NC and C. */
  datatype Cond = CondNZ | CondZ | CondNC | CondC

  /** The eight accumulator operations of 0x80-0xBF and their d8 forms. */
  datatype AluOp = AddOp | AdcOp | SubOp | SbcOp | AndOp | XorOp | OrOp | CpOp

  /** The second operand of an accumulator operation. */
  datatype Operand = FromReg(r: Reg8) | FromHl | FromImm

  /** The operations of the primary table. */
  datatype Op =
    | Nop | Stop | Halt | Di | Ei | Daa | Cpl | Scf | Ccf
    | Rlca | Rrca | Rla | Rra
    | LdRImm(r: Reg8) | LdHlImm | LdRR(dst: Reg8, src: Reg8) | LdRHl(dst: Reg8) | LdHlR(src: Reg8)
    | LdPairImm(rr: Reg16) | LdIndirectA(via: IndirectPair) | LdAIndirect(via: IndirectPair)
    | LdHlIncA | LdHlDecA | LdAHlInc | LdAHlDec
    | LdhA8A | LdhAA8 | LdCA | LdAC | LdA16A | LdAA16 | LdA16Sp | LdHlSpR8 | LdSpHl
    | IncR(r: Reg8) | DecR(r: Reg8) | IncHlp | DecHlp
    | Inc16(rr: Reg16) | Dec16(rr: Reg16) | AddHl(rr: Reg16) | AddSpR8
    | Alu(aluOp: AluOp, operand: Operand)
    | Jp | JpCond(cc: Cond) | JpHl | Jr | JrCond(cc: Cond)
    | Call | CallCond(cc: Cond) | Ret | RetCond(cc: Cond) | Reti | Rst(vector: bv16)
    | Push(pair: StackPair) | Pop(pair: StackPair)
    | PrefixCb | Invalid

  /** The rotations and shifts of CB 0x00-0x3F. */
  datatype RotOp = Rlc | Rrc | Rl | Rr | Sla | Sra | Swap | Srl

  /** A CB operand: a register or the byte at (HL). */
  datatype Loc = Reg(r: Reg8) | AtHl

  /** A bit position within a byte. */
  type BitIndex = n: nat | n < 8

  /** The operations of the CB table. */
  datatype CbOp =
    | CbRot(rot: RotOp, loc: Loc)
    | CbBit(bit: BitIndex, loc: Loc)
    | CbRes(bit: BitIndex, loc: Loc)
    | CbSet(bit: BitIndex, loc: Loc)

  /** An entry of the primary table (`struct Instruction` without its
      mnemonic). */
  datatype Instruction = Instruction(length: bv8, cycles: bv8, execute: Op)

  /** An entry of the CB table, the same struct over CB operations. */
  datatype CbInstruction = CbInstruction(length: bv8, cycles: bv8, execute: CbOp)

  /** `Instruction::invalid()`: one byte, four cycles, the error handler. */
  const INVALID: Instruction := Instruction(1, 4, Invalid)

  /** `INSTRUCTIONS[opcode]`: the entry the step runs for a primary
      opcode. The table is split into four blocks of 64 entries. */
  function Primary(opcode: bv8): (entry: Instruction)
  {
    var i := opcode as int;
    if i < 0x40 then Primary00(i)
    else if i < 0x80 then Primary40(i)
    else if i < 0xC0 then Primary80(i)
    else PrimaryC0(i)
  }

  /** `CB_INSTRUCTIONS[opcode]`: the entry `op_prefix_cb` runs for the byte
      after the prefix. */
  function Prefixed(opcode: bv8): (entry: CbInstruction)
  {
    var i := opcode as int;
    if i < 0x40 then Prefixed00(i)
    else if i < 0x80 then Prefixed40(i)
    else if i < 0xC0 then Prefixed80(i)
    else PrefixedC0(i)
  }

  /** `INSTRUCTIONS[0x00..0x3F]`, as a search on the opcode. */
  function Primary00(opcode: int): (entry: Instruction)
    requires 0x00 <= opcode < 0x40
  {
    if opcode < 0x20 then
      if opcode < 0x10 then
        if opcode < 0x08 then
          if opcode < 0x04 then
            if opcode < 0x02 then
              if opcode < 0x01 then
                Instruction(1, 4, Nop) // 0x00 NOP
              else
                Instruction(3, 12, LdPairImm(BC)) // 0x01 LD BC, d16
            else
              if opcode < 0x03 then
                Instruction(1, 8, LdIndirectA(ViaBC)) // 0x02 LD (BC), A
              else
                Instruction(1, 8, Inc16(BC)) // 0x03 INC BC
          else
            if opcode < 0x06 then
              if opcode < 0x05 then
                Instruction(1, 4, IncR(B)) // 0x04 INC B
              else
                Instruction(1, 4, DecR(B)) // 0x05 DEC B
            else
              if opcode < 0x07 then
                Instruction(2, 8, LdRImm(B)) // 0x06 LD B, d8
              else
                Instruction(1, 4, Rlca) // 0x07 RLCA
        else
          if opcode < 0x0C then
            if opcode < 0x0A then
              if opcode < 0x09 then
                Instruction(3, 20, LdA16Sp) // 0x08 LD (a16), SP
              else
                Instruction(1, 8, AddHl(BC)) // 0x09 ADD HL, BC
            else
              if opcode < 0x0B then
                Instruction(1, 8, LdAIndirect(ViaBC)) // 0x0A LD A, (BC)
              else
                Instruction(1, 8, Dec16(BC)) // 0x0B DEC BC
          else
            if opcode < 0x0E then
              if opcode < 0x0D then
                Instruction(1, 4, IncR(C)) // 0x0C INC C
              else
                Instruction(1, 4, DecR(C)) // 0x0D DEC C
            else
              if opcode < 0x0F then
                Instruction(2, 8, LdRImm(C)) // 0x0E LD C, d8
              else
                Instruction(1, 4, Rrca) // 0x0F RRCA
      else
        if opcode < 0x18 then
          if opcode < 0x14 then
            if opcode < 0x12 then
              if opcode < 0x11 then
                Instruction(2, 4, Stop) // 0x10 STOP
              else
                Instruction(3, 12, LdPairImm(DE)) // 0x11 LD DE, d16
            else
              if opcode < 0x13 then
                Instruction(1, 8, LdIndirectA(ViaDE)) // 0x12 LD (DE), A
              else
                Instruction(1, 8, Inc16(DE)) // 0x13 INC DE
          else
            if opcode < 0x16 then
              if opcode < 0x15 then
                Instruction(1, 4, IncR(D)) // 0x14 INC D
              else
                Instruction(1, 4, DecR(D)) // 0x15 DEC D
            else
              if opcode < 0x17 then
                Instruction(2, 8, LdRImm(D)) // 0x16 LD D, d8
              else
                Instruction(1, 4, Rla) // 0x17 RLA
        else
          if opcode < 0x1C then
            if opcode < 0x1A then
              if opcode < 0x19 then
                Instruction(2, 12, Jr) // 0x18 JR r8
              else
                Instruction(1, 8, AddHl(DE)) // 0x19 ADD HL, DE
            else
              if opcode < 0x1B then
                Instruction(1, 8, LdAIndirect(ViaDE)) // 0x1A LD A, (DE)
              else
                Instruction(1, 8, Dec16(DE)) // 0x1B DEC DE
          else
            if opcode < 0x1E then
              if opcode < 0x1D then
                Instruction(1, 4, IncR(E)) // 0x1C INC E
              else
                Instruction(1, 4, DecR(E)) // 0x1D DEC E
            else
              if opcode < 0x1F then
                Instruction(2, 8, LdRImm(E)) // 0x1E LD E, d8
              else
                Instruction(1, 4, Rra) // 0x1F RRA
    else
      if opcode < 0x30 then
        if opcode < 0x28 then
          if opcode < 0x24 then
            if opcode < 0x22 then
              if opcode < 0x21 then
                Instruction(2, 8, JrCond(CondNZ)) // 0x20 JR NZ, r8
              else
                Instruction(3, 12, LdPairImm(HL)) // 0x21 LD HL, d16
            else
              if opcode < 0x23 then
                Instruction(1, 8, LdHlIncA) // 0x22 LD (HL+), A
              else
                Instruction(1, 8, Inc16(HL)) // 0x23 INC HL
          else
            if opcode < 0x26 then
              if opcode < 0x25 then
                Instruction(1, 4, IncR(H)) // 0x24 INC H
              else
                Instruction(1, 4, DecR(H)) // 0x25 DEC H
            else
              if opcode < 0x27 then
                Instruction(2, 8, LdRImm(H)) // 0x26 LD H, d8
              else
                Instruction(1, 4, Daa) // 0x27 DAA
        else
          if opcode < 0x2C then
            if opcode < 0x2A then
              if opcode < 0x29 then
                Instruction(2, 8, JrCond(CondZ)) // 0x28 JR Z, r8
              else
                Instruction(1, 8, AddHl(HL)) // 0x29 ADD HL, HL
            else
              if opcode < 0x2B then
                Instruction(1, 8, LdAHlInc) // 0x2A LD A, (HL+)
              else
                Instruction(1, 8, Dec16(HL)) // 0x2B DEC HL
          else
            if opcode < 0x2E then
              if opcode < 0x2D then
                Instruction(1, 4, IncR(L)) // 0x2C INC L
              else
                Instruction(1, 4, DecR(L)) // 0x2D DEC L
            else
              if opcode < 0x2F then
                Instruction(2, 8, LdRImm(L)) // 0x2E LD L, d8
              else
                Instruction(1, 4, Cpl) // 0x2F CPL
      else
        if opcode < 0x38 then
          if opcode < 0x34 then
            if opcode < 0x32 then
              if opcode < 0x31 then
                Instruction(2, 8, JrCond(CondNC)) // 0x30 JR NC, r8
              else
                Instruction(3, 12, LdPairImm(SP)) // 0x31 LD SP, d16
            else
              if opcode < 0x33 then
                Instruction(1, 8, LdHlDecA) // 0x32 LD (HL-), A
              else
                Instruction(1, 8, Inc16(SP)) // 0x33 INC SP
          else
            if opcode < 0x36 then
              if opcode < 0x35 then
                Instruction(1, 12, IncHlp) // 0x34 INC (HL)
              else
                Instruction(1, 12, DecHlp) // 0x35 DEC (HL)
            else
              if opcode < 0x37 then
                Instruction(2, 12, LdHlImm) // 0x36 LD (HL), d8
              else
                Instruction(1, 4, Scf) // 0x37 SCF
        else
          if opcode < 0x3C then
            if opcode < 0x3A then
              if opcode < 0x39 then
                Instruction(2, 8, JrCond(CondC)) // 0x38 JR C, r8
              else
                Instruction(1, 8, AddHl(SP)) // 0x39 ADD HL, SP
            else
              if opcode < 0x3B then
                Instruction(1, 8, LdAHlDec) // 0x3A LD A, (HL-)
              else
                Instruction(1, 8, Dec16(SP)) // 0x3B DEC SP
          else
            if opcode < 0x3E then
              if opcode < 0x3D then
                Instruction(1, 4, IncR(A)) // 0x3C INC A
              else
                Instruction(1, 4, DecR(A)) // 0x3D DEC A
            else
              if opcode < 0x3F then
                Instruction(2, 8, LdRImm(A)) // 0x3E LD A, d8
              else
                Instruction(1, 4, Ccf) // 0x3F CCF
  }

  /** `INSTRUCTIONS[0x40..0x7F]`, as a search on the opcode. */
  function Primary40(opcode: int): (entry: Instruction)
    requires 0x40 <= opcode < 0x80
  {
    if opcode < 0x60 then
      if opcode < 0x50 then
        if opcode < 0x48 then
          if opcode < 0x44 then
            if opcode < 0x42 then
              if opcode < 0x41 then
                Instruction(1, 4, LdRR(B, B)) // 0x40 LD B, B
              else
                Instruction(1, 4, LdRR(B, C)) // 0x41 LD B, C
            else
              if opcode < 0x43 then
                Instruction(1, 4, LdRR(B, D)) // 0x42 LD B, D
              else
                Instruction(1, 4, LdRR(B, E)) // 0x43 LD B, E
          else
            if opcode < 0x46 then
              if opcode < 0x45 then
                Instruction(1, 4, LdRR(B, H)) // 0x44 LD B, H
              else
                Instruction(1, 4, LdRR(B, L)) // 0x45 LD B, L
            else
              if opcode < 0x47 then
                Instruction(1, 8, LdRHl(B)) // 0x46 LD B, (HL)
              else
                Instruction(1, 4, LdRR(B, A)) // 0x47 LD B, A
        else
          if opcode < 0x4C then
            if opcode < 0x4A then
              if opcode < 0x49 then
                Instruction(1, 4, LdRR(C, B)) // 0x48 LD C, B
              else
                Instruction(1, 4, LdRR(C, C)) // 0x49 LD C, C
            else
              if opcode < 0x4B then
                Instruction(1, 4, LdRR(C, D)) // 0x4A LD C, D
              else
                Instruction(1, 4, LdRR(C, E)) // 0x4B LD C, E
          else
            if opcode < 0x4E then
              if opcode < 0x4D then
                Instruction(1, 4, LdRR(C, H)) // 0x4C LD C, H
              else
                Instruction(1, 4, LdRR(C, L)) // 0x4D LD C, L
            else
              if opcode < 0x4F then
                Instruction(1, 8, LdRHl(C)) // 0x4E LD C, (HL)
              else
                Instruction(1, 4, LdRR(C, A)) // 0x4F LD C, A
      else
        if opcode < 0x58 then
          if opcode < 0x54 then
            if opcode < 0x52 then
              if opcode < 0x51 then
                Instruction(1, 4, LdRR(D, B)) // 0x50 LD D, B
              else
                Instruction(1, 4, LdRR(D, C)) // 0x51 LD D, C
            else
              if opcode < 0x53 then
                Instruction(1, 4, LdRR(D, D)) // 0x52 LD D, D
              else
                Instruction(1, 4, LdRR(D, E)) // 0x53 LD D, E
          else
            if opcode < 0x56 then
              if opcode < 0x55 then
                Instruction(1, 4, LdRR(D, H)) // 0x54 LD D, H
              else
                Instruction(1, 4, LdRR(D, L)) // 0x55 LD D, L
            else
              if opcode < 0x57 then
                Instruction(1, 8, LdRHl(D)) // 0x56 LD D, (HL)
              else
                Instruction(1, 4, LdRR(D, A)) // 0x57 LD D, A
        else
          if opcode < 0x5C then
            if opcode < 0x5A then
              if opcode < 0x59 then
                Instruction(1, 4, LdRR(E, B)) // 0x58 LD E, B
              else
                Instruction(1, 4, LdRR(E, C)) // 0x59 LD E, C
            else
              if opcode < 0x5B then
                Instruction(1, 4, LdRR(E, D)) // 0x5A LD E, D
              else
                Instruction(1, 4, LdRR(E, E)) // 0x5B LD E, E
          else
            if opcode < 0x5E then
              if opcode < 0x5D then
                Instruction(1, 4, LdRR(E, H)) // 0x5C LD E, H
              else
                Instruction(1, 4, LdRR(E, L)) // 0x5D LD E, L
            else
              if opcode < 0x5F then
                Instruction(1, 8, LdRHl(E)) // 0x5E LD E, (HL)
              else
                Instruction(1, 4, LdRR(E, A)) // 0x5F LD E, A
    else
      if opcode < 0x70 then
        if opcode < 0x68 then
          if opcode < 0x64 then
            if opcode < 0x62 then
              if opcode < 0x61 then
                Instruction(1, 4, LdRR(H, B)) // 0x60 LD H, B
              else
                Instruction(1, 4, LdRR(H, C)) // 0x61 LD H, C
            else
              if opcode < 0x63 then
                Instruction(1, 4, LdRR(H, D)) // 0x62 LD H, D
              else
                Instruction(1, 4, LdRR(H, E)) // 0x63 LD H, E
          else
            if opcode < 0x66 then
              if opcode < 0x65 then
                Instruction(1, 4, LdRR(H, H)) // 0x64 LD H, H
              else
                Instruction(1, 4, LdRR(H, L)) // 0x65 LD H, L
            else
              if opcode < 0x67 then
                Instruction(1, 8, LdRHl(H)) // 0x66 LD H, (HL)
              else
                Instruction(1, 4, LdRR(H, A)) // 0x67 LD H, A
        else
          if opcode < 0x6C then
            if opcode < 0x6A then
              if opcode < 0x69 then
                Instruction(1, 4, LdRR(L, B)) // 0x68 LD L, B
              else
                Instruction(1, 4, LdRR(L, C)) // 0x69 LD L, C
            else
              if opcode < 0x6B then
                Instruction(1, 4, LdRR(L, D)) // 0x6A LD L, D
              else
                Instruction(1, 4, LdRR(L, E)) // 0x6B LD L, E
          else
            if opcode < 0x6E then
              if opcode < 0x6D then
                Instruction(1, 4, LdRR(L, H)) // 0x6C LD L, H
              else
                Instruction(1, 4, LdRR(L, L)) // 0x6D LD L, L
            else
              if opcode < 0x6F then
                Instruction(1, 8, LdRHl(L)) // 0x6E LD L, (HL)
              else
                Instruction(1, 4, LdRR(L, A)) // 0x6F LD L, A
      else
        if opcode < 0x78 then
          if opcode < 0x74 then
            if opcode < 0x72 then
              if opcode < 0x71 then
                Instruction(1, 8, LdHlR(B)) // 0x70 LD (HL), B
              else
                Instruction(1, 8, LdHlR(C)) // 0x71 LD (HL), C
            else
              if opcode < 0x73 then
                Instruction(1, 8, LdHlR(D)) // 0x72 LD (HL), D
              else
                Instruction(1, 8, LdHlR(E)) // 0x73 LD (HL), E
          else
            if opcode < 0x76 then
              if opcode < 0x75 then
                Instruction(1, 8, LdHlR(H)) // 0x74 LD (HL), H
              else
                Instruction(1, 8, LdHlR(L)) // 0x75 LD (HL), L
            else
              if opcode < 0x77 then
                Instruction(1, 4, Halt) // 0x76 HALT
              else
                Instruction(1, 8, LdHlR(A)) // 0x77 LD (HL), A
        else
          if opcode < 0x7C then
            if opcode < 0x7A then
              if opcode < 0x79 then
                Instruction(1, 4, LdRR(A, B)) // 0x78 LD A, B
              else
                Instruction(1, 4, LdRR(A, C)) // 0x79 LD A, C
            else
              if opcode < 0x7B then
                Instruction(1, 4, LdRR(A, D)) // 0x7A LD A, D
              else
                Instruction(1, 4, LdRR(A, E)) // 0x7B LD A, E
          else
            if opcode < 0x7E then
              if opcode < 0x7D then
                Instruction(1, 4, LdRR(A, H)) // 0x7C LD A, H
              else
                Instruction(1, 4, LdRR(A, L)) // 0x7D LD A, L
            else
              if opcode < 0x7F then
                Instruction(1, 8, LdRHl(A)) // 0x7E LD A, (HL)
              else
                Instruction(1, 4, LdRR(A, A)) // 0x7F LD A, A
  }

  /** `INSTRUCTIONS[0x80..0xBF]`, as a search on the opcode. */
  function Primary80(opcode: int): (entry: Instruction)
    requires 0x80 <= opcode < 0xC0
  {
    if opcode < 0xA0 then
      if opcode < 0x90 then
        if opcode < 0x88 then
          if opcode < 0x84 then
            if opcode < 0x82 then
              if opcode < 0x81 then
                Instruction(1, 4, Alu(AddOp, FromReg(B))) // 0x80 ADD A, B
              else
                Instruction(1, 4, Alu(AddOp, FromReg(C))) // 0x81 ADD A, C
            else
              if opcode < 0x83 then
                Instruction(1, 4, Alu(AddOp, FromReg(D))) // 0x82 ADD A, D
              else
                Instruction(1, 4, Alu(AddOp, FromReg(E))) // 0x83 ADD A, E
          else
            if opcode < 0x86 then
              if opcode < 0x85 then
                Instruction(1, 4, Alu(AddOp, FromReg(H))) // 0x84 ADD A, H
              else
                Instruction(1, 4, Alu(AddOp, FromReg(L))) // 0x85 ADD A, L
            else
              if opcode < 0x87 then
                Instruction(1, 8, Alu(AddOp, FromHl)) // 0x86 ADD A, (HL)
              else
                Instruction(1, 4, Alu(AddOp, FromReg(A))) // 0x87 ADD A, A
        else
          if opcode < 0x8C then
            if opcode < 0x8A then
              if opcode < 0x89 then
                Instruction(1, 4, Alu(AdcOp, FromReg(B))) // 0x88 ADC A, B
              else
                Instruction(1, 4, Alu(AdcOp, FromReg(C))) // 0x89 ADC A, C
            else
              if opcode < 0x8B then
                Instruction(1, 4, Alu(AdcOp, FromReg(D))) // 0x8A ADC A, D
              else
                Instruction(1, 4, Alu(AdcOp, FromReg(E))) // 0x8B ADC A, E
          else
            if opcode < 0x8E then
              if opcode < 0x8D then
                Instruction(1, 4, Alu(AdcOp, FromReg(H))) // 0x8C ADC A, H
              else
                Instruction(1, 4, Alu(AdcOp, FromReg(L))) // 0x8D ADC A, L
            else
              if opcode < 0x8F then
                Instruction(1, 8, Alu(AdcOp, FromHl)) // 0x8E ADC A, (HL)
              else
                Instruction(1, 4, Alu(AdcOp, FromReg(A))) // 0x8F ADC A, A
      else
        if opcode < 0x98 then
          if opcode < 0x94 then
            if opcode < 0x92 then
              if opcode < 0x91 then
                Instruction(1, 4, Alu(SubOp, FromReg(B))) // 0x90 SUB A, B
              else
                Instruction(1, 4, Alu(SubOp, FromReg(C))) // 0x91 SUB A, C
            else
              if opcode < 0x93 then
                Instruction(1, 4, Alu(SubOp, FromReg(D))) // 0x92 SUB A, D
              else
                Instruction(1, 4, Alu(SubOp, FromReg(E))) // 0x93 SUB A, E
          else
            if opcode < 0x96 then
              if opcode < 0x95 then
                Instruction(1, 4, Alu(SubOp, FromReg(H))) // 0x94 SUB A, H
              else
                Instruction(1, 4, Alu(SubOp, FromReg(L))) // 0x95 SUB A, L
            else
              if opcode < 0x97 then
                Instruction(1, 8, Alu(SubOp, FromHl)) // 0x96 SUB A, (HL)
              else
                Instruction(1, 4, Alu(SubOp, FromReg(A))) // 0x97 SUB A, A
        else
          if opcode < 0x9C then
            if opcode < 0x9A then
              if opcode < 0x99 then
                Instruction(1, 4, Alu(SbcOp, FromReg(B))) // 0x98 SBC A, B
              else
                Instruction(1, 4, Alu(SbcOp, FromReg(C))) // 0x99 SBC A, C
            else
              if opcode < 0x9B then
                Instruction(1, 4, Alu(SbcOp, FromReg(D))) // 0x9A SBC A, D
              else
                Instruction(1, 4, Alu(SbcOp, FromReg(E))) // 0x9B SBC A, E
          else
            if opcode < 0x9E then
              if opcode < 0x9D then
                Instruction(1, 4, Alu(SbcOp, FromReg(H))) // 0x9C SBC A, H
              else
                Instruction(1, 4, Alu(SbcOp, FromReg(L))) // 0x9D SBC A, L
            else
              if opcode < 0x9F then
                Instruction(1, 8, Alu(SbcOp, FromHl)) // 0x9E SBC A, (HL)
              else
                Instruction(1, 4, Alu(SbcOp, FromReg(A))) // 0x9F SBC A, A
    else
      if opcode < 0xB0 then
        if opcode < 0xA8 then
          if opcode < 0xA4 then
            if opcode < 0xA2 then
              if opcode < 0xA1 then
                Instruction(1, 4, Alu(AndOp, FromReg(B))) // 0xA0 AND A, B
              else
                Instruction(1, 4, Alu(AndOp, FromReg(C))) // 0xA1 AND A, C
            else
              if opcode < 0xA3 then
                Instruction(1, 4, Alu(AndOp, FromReg(D))) // 0xA2 AND A, D
              else
                Instruction(1, 4, Alu(AndOp, FromReg(E))) // 0xA3 AND A, E
          else
            if opcode < 0xA6 then
              if opcode < 0xA5 then
                Instruction(1, 4, Alu(AndOp, FromReg(H))) // 0xA4 AND A, H
              else
                Instruction(1, 4, Alu(AndOp, FromReg(L))) // 0xA5 AND A, L
            else
              if opcode < 0xA7 then
                Instruction(1, 8, Alu(AndOp, FromHl)) // 0xA6 AND A, (HL)
              else
                Instruction(1, 4, Alu(AndOp, FromReg(A))) // 0xA7 AND A, A
        else
          if opcode < 0xAC then
            if opcode < 0xAA then
              if opcode < 0xA9 then
                Instruction(1, 4, Alu(XorOp, FromReg(B))) // 0xA8 XOR A, B
              else
                Instruction(1, 4, Alu(XorOp, FromReg(C))) // 0xA9 XOR A, C
            else
              if opcode < 0xAB then
                Instruction(1, 4, Alu(XorOp, FromReg(D))) // 0xAA XOR A, D
              else
                Instruction(1, 4, Alu(XorOp, FromReg(E))) // 0xAB XOR A, E
          else
            if opcode < 0xAE then
              if opcode < 0xAD then
                Instruction(1, 4, Alu(XorOp, FromReg(H))) // 0xAC XOR A, H
              else
                Instruction(1, 4, Alu(XorOp, FromReg(L))) // 0xAD XOR A, L
            else
              if opcode < 0xAF then
                Instruction(1, 8, Alu(XorOp, FromHl)) // 0xAE XOR A, (HL)
              else
                Instruction(1, 4, Alu(XorOp, FromReg(A))) // 0xAF XOR A, A
      else
        if opcode < 0xB8 then
          if opcode < 0xB4 then
            if opcode < 0xB2 then
              if opcode < 0xB1 then
                Instruction(1, 4, Alu(OrOp, FromReg(B))) // 0xB0 OR A, B
              else
                Instruction(1, 4, Alu(OrOp, FromReg(C))) // 0xB1 OR A, C
            else
              if opcode < 0xB3 then
                Instruction(1, 4, Alu(OrOp, FromReg(D))) // 0xB2 OR A, D
              else
                Instruction(1, 4, Alu(OrOp, FromReg(E))) // 0xB3 OR A, E
          else
            if opcode < 0xB6 then
              if opcode < 0xB5 then
                Instruction(1, 4, Alu(OrOp, FromReg(H))) // 0xB4 OR A, H
              else
                Instruction(1, 4, Alu(OrOp, FromReg(L))) // 0xB5 OR A, L
            else
              if opcode < 0xB7 then
                Instruction(1, 8, Alu(OrOp, FromHl)) // 0xB6 OR A, (HL)
              else
                Instruction(1, 4, Alu(OrOp, FromReg(A))) // 0xB7 OR A, A
        else
          if opcode < 0xBC then
            if opcode < 0xBA then
              if opcode < 0xB9 then
                Instruction(1, 4, Alu(CpOp, FromReg(B))) // 0xB8 CP A, B
              else
                Instruction(1, 4, Alu(CpOp, FromReg(C))) // 0xB9 CP A, C
            else
              if opcode < 0xBB then
                Instruction(1, 4, Alu(CpOp, FromReg(D))) // 0xBA CP A, D
              else
                Instruction(1, 4, Alu(CpOp, FromReg(E))) // 0xBB CP A, E
          else
            if opcode < 0xBE then
              if opcode < 0xBD then
                Instruction(1, 4, Alu(CpOp, FromReg(H))) // 0xBC CP A, H
              else
                Instruction(1, 4, Alu(CpOp, FromReg(L))) // 0xBD CP A, L
            else
              if opcode < 0xBF then
                Instruction(1, 8, Alu(CpOp, FromHl)) // 0xBE CP A, (HL)
              else
                Instruction(1, 4, Alu(CpOp, FromReg(A))) // 0xBF CP A, A
  }

  /** `INSTRUCTIONS[0xC0..0xFF]`, as a search on the opcode. */
  function PrimaryC0(opcode: int): (entry: Instruction)
    requires 0xC0 <= opcode < 0x100
  {
    if opcode < 0xE0 then
      if opcode < 0xD0 then
        if opcode < 0xC8 then
          if opcode < 0xC4 then
            if opcode < 0xC2 then
              if opcode < 0xC1 then
                Instruction(1, 8, RetCond(CondNZ)) // 0xC0 RET NZ
              else
                Instruction(1, 12, Pop(StackBC)) // 0xC1 POP BC
            else
              if opcode < 0xC3 then
                Instruction(3, 12, JpCond(CondNZ)) // 0xC2 JP NZ, a16
              else
                Instruction(3, 16, Jp) // 0xC3 JP a16
          else
            if opcode < 0xC6 then
              if opcode < 0xC5 then
                Instruction(3, 12, CallCond(CondNZ)) // 0xC4 CALL NZ, a16
              else
                Instruction(1, 16, Push(StackBC)) // 0xC5 PUSH BC
            else
              if opcode < 0xC7 then
                Instruction(2, 8, Alu(AddOp, FromImm)) // 0xC6 ADD A, d8
              else
                Instruction(1, 16, Rst(0x00)) // 0xC7 RST 00H
        else
          if opcode < 0xCC then
            if opcode < 0xCA then
              if opcode < 0xC9 then
                Instruction(1, 8, RetCond(CondZ)) // 0xC8 RET Z
              else
                Instruction(1, 16, Ret) // 0xC9 RET
            else
              if opcode < 0xCB then
                Instruction(3, 12, JpCond(CondZ)) // 0xCA JP Z, a16
              else
                Instruction(1, 4, PrefixCb) // 0xCB PREFIX CB
          else
            if opcode < 0xCE then
              if opcode < 0xCD then
                Instruction(3, 12, CallCond(CondZ)) // 0xCC CALL Z, a16
              else
                Instruction(3, 24, Call) // 0xCD CALL a16
            else
              if opcode < 0xCF then
                Instruction(2, 8, Alu(AdcOp, FromImm)) // 0xCE ADC A, d8
              else
                Instruction(1, 16, Rst(0x08)) // 0xCF RST 08H
      else
        if opcode < 0xD8 then
          if opcode < 0xD4 then
            if opcode < 0xD2 then
              if opcode < 0xD1 then
                Instruction(1, 8, RetCond(CondNC)) // 0xD0 RET NC
              else
                Instruction(1, 12, Pop(StackDE)) // 0xD1 POP DE
            else
              if opcode < 0xD3 then
                Instruction(3, 12, JpCond(CondNC)) // 0xD2 JP NC, a16
              else
                INVALID // 0xD3 undefined
          else
            if opcode < 0xD6 then
              if opcode < 0xD5 then
                Instruction(3, 12, CallCond(CondNC)) // 0xD4 CALL NC, a16
              else
                Instruction(1, 16, Push(StackDE)) // 0xD5 PUSH DE
            else
              if opcode < 0xD7 then
                Instruction(2, 8, Alu(SubOp, FromImm)) // 0xD6 SUB A, d8
              else
                Instruction(1, 16, Rst(0x10)) // 0xD7 RST 10H
        else
          if opcode < 0xDC then
            if opcode < 0xDA then
              if opcode < 0xD9 then
                Instruction(1, 8, RetCond(CondC)) // 0xD8 RET C
              else
                Instruction(1, 16, Reti) // 0xD9 RETI
            else
              if opcode < 0xDB then
                Instruction(3, 12, JpCond(CondC)) // 0xDA JP C, a16
              else
                INVALID // 0xDB undefined
          else
            if opcode < 0xDE then
              if opcode < 0xDD then
                Instruction(3, 12, CallCond(CondC)) // 0xDC CALL C, a16
              else
                INVALID // 0xDD undefined
            else
              if opcode < 0xDF then
                Instruction(2, 8, Alu(SbcOp, FromImm)) // 0xDE SBC A, d8
              else
                Instruction(1, 16, Rst(0x18)) // 0xDF RST 18H
    else
      if opcode < 0xF0 then
        if opcode < 0xE8 then
          if opcode < 0xE4 then
            if opcode < 0xE2 then
              if opcode < 0xE1 then
                Instruction(2, 12, LdhA8A) // 0xE0 LDH (a8), A
              else
                Instruction(1, 12, Pop(StackHL)) // 0xE1 POP HL
            else
              if opcode < 0xE3 then
                Instruction(1, 8, LdCA) // 0xE2 LD (C), A
              else
                INVALID // 0xE3 undefined
          else
            if opcode < 0xE6 then
              if opcode < 0xE5 then
                INVALID // 0xE4 undefined
              else
                Instruction(1, 16, Push(StackHL)) // 0xE5 PUSH HL
            else
              if opcode < 0xE7 then
                Instruction(2, 8, Alu(AndOp, FromImm)) // 0xE6 AND A, d8
              else
                Instruction(1, 16, Rst(0x20)) // 0xE7 RST 20H
        else
          if opcode < 0xEC then
            if opcode < 0xEA then
              if opcode < 0xE9 then
                Instruction(2, 16, AddSpR8) // 0xE8 ADD SP, r8
              else
                Instruction(1, 4, JpHl) // 0xE9 JP HL
            else
              if opcode < 0xEB then
                Instruction(3, 16, LdA16A) // 0xEA LD (a16), A
              else
                INVALID // 0xEB undefined
          else
            if opcode < 0xEE then
              if opcode < 0xED then
                INVALID // 0xEC undefined
              else
                INVALID // 0xED undefined
            else
              if opcode < 0xEF then
                Instruction(2, 8, Alu(XorOp, FromImm)) // 0xEE XOR A, d8
              else
                Instruction(1, 16, Rst(0x28)) // 0xEF RST 28H
      else
        if opcode < 0xF8 then
          if opcode < 0xF4 then
            if opcode < 0xF2 then
              if opcode < 0xF1 then
                Instruction(2, 12, LdhAA8) // 0xF0 LDH A, (a8)
              else
                Instruction(1, 12, Pop(StackAF)) // 0xF1 POP AF
            else
              if opcode < 0xF3 then
                Instruction(1, 8, LdAC) // 0xF2 LD A, (C)
              else
                Instruction(1, 4, Di) // 0xF3 DI
          else
            if opcode < 0xF6 then
              if opcode < 0xF5 then
                INVALID // 0xF4 undefined
              else
                Instruction(1, 16, Push(StackAF)) // 0xF5 PUSH AF
            else
              if opcode < 0xF7 then
                Instruction(2, 8, Alu(OrOp, FromImm)) // 0xF6 OR A, d8
              else
                Instruction(1, 16, Rst(0x30)) // 0xF7 RST 30H
        else
          if opcode < 0xFC then
            if opcode < 0xFA then
              if opcode < 0xF9 then
                Instruction(2, 12, LdHlSpR8) // 0xF8 LD HL, SP+r8
              else
                Instruction(1, 8, LdSpHl) // 0xF9 LD SP, HL
            else
              if opcode < 0xFB then
                Instruction(3, 16, LdAA16) // 0xFA LD A, (a16)
              else
                Instruction(1, 4, Ei) // 0xFB EI
          else
            if opcode < 0xFE then
              if opcode < 0xFD then
                INVALID // 0xFC undefined
              else
                INVALID // 0xFD undefined
            else
              if opcode < 0xFF then
                Instruction(2, 8, Alu(CpOp, FromImm)) // 0xFE CP A, d8
              else
                Instruction(1, 16, Rst(0x38)) // 0xFF RST 38H
  }

  /** `CB_INSTRUCTIONS[0x00..0x3F]`, as a search on the opcode. */
  function Prefixed00(opcode: int): (entry: CbInstruction)
    requires 0x00 <= opcode < 0x40
  {
    if opcode < 0x20 then
      if opcode < 0x10 then
        if opcode < 0x08 then
          if opcode < 0x04 then
            if opcode < 0x02 then
              if opcode < 0x01 then
                CbInstruction(1, 8, CbRot(Rlc, Reg(B))) // 0x00 RLC B
              else
                CbInstruction(1, 8, CbRot(Rlc, Reg(C))) // 0x01 RLC C
            else
              if opcode < 0x03 then
                CbInstruction(1, 8, CbRot(Rlc, Reg(D))) // 0x02 RLC D
              else
                CbInstruction(1, 8, CbRot(Rlc, Reg(E))) // 0x03 RLC E
          else
            if opcode < 0x06 then
              if opcode < 0x05 then
                CbInstruction(1, 8, CbRot(Rlc, Reg(H))) // 0x04 RLC H
              else
                CbInstruction(1, 8, CbRot(Rlc, Reg(L))) // 0x05 RLC L
            else
              if opcode < 0x07 then
                CbInstruction(1, 16, CbRot(Rlc, AtHl)) // 0x06 RLC (HL)
              else
                CbInstruction(1, 8, CbRot(Rlc, Reg(A))) // 0x07 RLC A
        else
          if opcode < 0x0C then
            if opcode < 0x0A then
              if opcode < 0x09 then
                CbInstruction(1, 8, CbRot(Rrc, Reg(B))) // 0x08 RRC B
              else
                CbInstruction(1, 8, CbRot(Rrc, Reg(C))) // 0x09 RRC C
            else
              if opcode < 0x0B then
                CbInstruction(1, 8, CbRot(Rrc, Reg(D))) // 0x0A RRC D
              else
                CbInstruction(1, 8, CbRot(Rrc, Reg(E))) // 0x0B RRC E
          else
            if opcode < 0x0E then
              if opcode < 0x0D then
                CbInstruction(1, 8, CbRot(Rrc, Reg(H))) // 0x0C RRC H
              else
                CbInstruction(1, 8, CbRot(Rrc, Reg(L))) // 0x0D RRC L
            else
              if opcode < 0x0F then
                CbInstruction(1, 16, CbRot(Rrc, AtHl)) // 0x0E RRC (HL)
              else
                CbInstruction(1, 8, CbRot(Rrc, Reg(A))) // 0x0F RRC A
      else
        if opcode < 0x18 then
          if opcode < 0x14 then
            if opcode < 0x12 then
              if opcode < 0x11 then
                CbInstruction(1, 8, CbRot(Rl, Reg(B))) // 0x10 RL B
              else
                CbInstruction(1, 8, CbRot(Rl, Reg(C))) // 0x11 RL C
            else
              if opcode < 0x13 then
                CbInstruction(1, 8, CbRot(Rl, Reg(D))) // 0x12 RL D
              else
                CbInstruction(1, 8, CbRot(Rl, Reg(E))) // 0x13 RL E
          else
            if opcode < 0x16 then
              if opcode < 0x15 then
                CbInstruction(1, 8, CbRot(Rl, Reg(H))) // 0x14 RL H
              else
                CbInstruction(1, 8, CbRot(Rl, Reg(L))) // 0x15 RL L
            else
              if opcode < 0x17 then
                CbInstruction(1, 16, CbRot(Rl, AtHl)) // 0x16 RL (HL)
              else
                CbInstruction(1, 8, CbRot(Rl, Reg(A))) // 0x17 RL A
        else
          if opcode < 0x1C then
            if opcode < 0x1A then
              if opcode < 0x19 then
                CbInstruction(1, 8, CbRot(Rr, Reg(B))) // 0x18 RR B
              else
                CbInstruction(1, 8, CbRot(Rr, Reg(C))) // 0x19 RR C
            else
              if opcode < 0x1B then
                CbInstruction(1, 8, CbRot(Rr, Reg(D))) // 0x1A RR D
              else
                CbInstruction(1, 8, CbRot(Rr, Reg(E))) // 0x1B RR E
          else
            if opcode < 0x1E then
              if opcode < 0x1D then
                CbInstruction(1, 8, CbRot(Rr, Reg(H))) // 0x1C RR H
              else
                CbInstruction(1, 8, CbRot(Rr, Reg(L))) // 0x1D RR L
            else
              if opcode < 0x1F then
                CbInstruction(1, 16, CbRot(Rr, AtHl)) // 0x1E RR (HL)
              else
                CbInstruction(1, 8, CbRot(Rr, Reg(A))) // 0x1F RR A
    else
      if opcode < 0x30 then
        if opcode < 0x28 then
          if opcode < 0x24 then
            if opcode < 0x22 then
              if opcode < 0x21 then
                CbInstruction(1, 8, CbRot(Sla, Reg(B))) // 0x20 SLA B
              else
                CbInstruction(1, 8, CbRot(Sla, Reg(C))) // 0x21 SLA C
            else
              if opcode < 0x23 then
                CbInstruction(1, 8, CbRot(Sla, Reg(D))) // 0x22 SLA D
              else
                CbInstruction(1, 8, CbRot(Sla, Reg(E))) // 0x23 SLA E
          else
            if opcode < 0x26 then
              if opcode < 0x25 then
                CbInstruction(1, 8, CbRot(Sla, Reg(H))) // 0x24 SLA H
              else
                CbInstruction(1, 8, CbRot(Sla, Reg(L))) // 0x25 SLA L
            else
              if opcode < 0x27 then
                CbInstruction(1, 16, CbRot(Sla, AtHl)) // 0x26 SLA (HL)
              else
                CbInstruction(1, 8, CbRot(Sla, Reg(A))) // 0x27 SLA A
        else
          if opcode < 0x2C then
            if opcode < 0x2A then
              if opcode < 0x29 then
                CbInstruction(1, 8, CbRot(Sra, Reg(B))) // 0x28 SRA B
              else
                CbInstruction(1, 8, CbRot(Sra, Reg(C))) // 0x29 SRA C
            else
              if opcode < 0x2B then
                CbInstruction(1, 8, CbRot(Sra, Reg(D))) // 0x2A SRA D
              else
                CbInstruction(1, 8, CbRot(Sra, Reg(E))) // 0x2B SRA E
          else
            if opcode < 0x2E then
              if opcode < 0x2D then
                CbInstruction(1, 8, CbRot(Sra, Reg(H))) // 0x2C SRA H
              else
                CbInstruction(1, 8, CbRot(Sra, Reg(L))) // 0x2D SRA L
            else
              if opcode < 0x2F then
                CbInstruction(1, 16, CbRot(Sra, AtHl)) // 0x2E SRA (HL)
              else
                CbInstruction(1, 8, CbRot(Sra, Reg(A))) // 0x2F SRA A
      else
        if opcode < 0x38 then
          if opcode < 0x34 then
            if opcode < 0x32 then
              if opcode < 0x31 then
                CbInstruction(1, 8, CbRot(Swap, Reg(B))) // 0x30 SWAP B
              else
                CbInstruction(1, 8, CbRot(Swap, Reg(C))) // 0x31 SWAP C
            else
              if opcode < 0x33 then
                CbInstruction(1, 8, CbRot(Swap, Reg(D))) // 0x32 SWAP D
              else
                CbInstruction(1, 8, CbRot(Swap, Reg(E))) // 0x33 SWAP E
          else
            if opcode < 0x36 then
              if opcode < 0x35 then
                CbInstruction(1, 8, CbRot(Swap, Reg(H))) // 0x34 SWAP H
              else
                CbInstruction(1, 8, CbRot(Swap, Reg(L))) // 0x35 SWAP L
            else
              if opcode < 0x37 then
                CbInstruction(1, 16, CbRot(Swap, AtHl)) // 0x36 SWAP (HL)
              else
                CbInstruction(1, 8, CbRot(Swap, Reg(A))) // 0x37 SWAP A
        else
          if opcode < 0x3C then
            if opcode < 0x3A then
              if opcode < 0x39 then
                CbInstruction(1, 8, CbRot(Srl, Reg(B))) // 0x38 SRL B
              else
                CbInstruction(1, 8, CbRot(Srl, Reg(C))) // 0x39 SRL C
            else
              if opcode < 0x3B then
                CbInstruction(1, 8, CbRot(Srl, Reg(D))) // 0x3A SRL D
              else
                CbInstruction(1, 8, CbRot(Srl, Reg(E))) // 0x3B SRL E
          else
            if opcode < 0x3E then
              if opcode < 0x3D then
                CbInstruction(1, 8, CbRot(Srl, Reg(H))) // 0x3C SRL H
              else
                CbInstruction(1, 8, CbRot(Srl, Reg(L))) // 0x3D SRL L
            else
              if opcode < 0x3F then
                CbInstruction(1, 16, CbRot(Srl, AtHl)) // 0x3E SRL (HL)
              else
                CbInstruction(1, 8, CbRot(Srl, Reg(A))) // 0x3F SRL A
  }

  /** `CB_INSTRUCTIONS[0x40..0x7F]`, as a search on the opcode. */
  function Prefixed40(opcode: int): (entry: CbInstruction)
    requires 0x40 <= opcode < 0x80
  {
    if opcode < 0x60 then
      if opcode < 0x50 then
        if opcode < 0x48 then
          if opcode < 0x44 then
            if opcode < 0x42 then
              if opcode < 0x41 then
                CbInstruction(1, 8, CbBit(0, Reg(B))) // 0x40 BIT 0, B
              else
                CbInstruction(1, 8, CbBit(0, Reg(C))) // 0x41 BIT 0, C
            else
              if opcode < 0x43 then
                CbInstruction(1, 8, CbBit(0, Reg(D))) // 0x42 BIT 0, D
              else
                CbInstruction(1, 8, CbBit(0, Reg(E))) // 0x43 BIT 0, E
          else
            if opcode < 0x46 then
              if opcode < 0x45 then
                CbInstruction(1, 8, CbBit(0, Reg(H))) // 0x44 BIT 0, H
              else
                CbInstruction(1, 8, CbBit(0, Reg(L))) // 0x45 BIT 0, L
            else
              if opcode < 0x47 then
                CbInstruction(1, 12, CbBit(0, AtHl)) // 0x46 BIT 0, (HL)
              else
                CbInstruction(1, 8, CbBit(0, Reg(A))) // 0x47 BIT 0, A
        else
          if opcode < 0x4C then
            if opcode < 0x4A then
              if opcode < 0x49 then
                CbInstruction(1, 8, CbBit(1, Reg(B))) // 0x48 BIT 1, B
              else
                CbInstruction(1, 8, CbBit(1, Reg(C))) // 0x49 BIT 1, C
            else
              if opcode < 0x4B then
                CbInstruction(1, 8, CbBit(1, Reg(D))) // 0x4A BIT 1, D
              else
                CbInstruction(1, 8, CbBit(1, Reg(E))) // 0x4B BIT 1, E
          else
            if opcode < 0x4E then
              if opcode < 0x4D then
                CbInstruction(1, 8, CbBit(1, Reg(H))) // 0x4C BIT 1, H
              else
                CbInstruction(1, 8, CbBit(1, Reg(L))) // 0x4D BIT 1, L
            else
              if opcode < 0x4F then
                CbInstruction(1, 12, CbBit(1, AtHl)) // 0x4E BIT 1, (HL)
              else
                CbInstruction(1, 8, CbBit(1, Reg(A))) // 0x4F BIT 1, A
      else
        if opcode < 0x58 then
          if opcode < 0x54 then
            if opcode < 0x52 then
              if opcode < 0x51 then
                CbInstruction(1, 8, CbBit(2, Reg(B))) // 0x50 BIT 2, B
              else
                CbInstruction(1, 8, CbBit(2, Reg(C))) // 0x51 BIT 2, C
            else
              if opcode < 0x53 then
                CbInstruction(1, 8, CbBit(2, Reg(D))) // 0x52 BIT 2, D
              else
                CbInstruction(1, 8, CbBit(2, Reg(E))) // 0x53 BIT 2, E
          else
            if opcode < 0x56 then
              if opcode < 0x55 then
                CbInstruction(1, 8, CbBit(2, Reg(H))) // 0x54 BIT 2, H
              else
                CbInstruction(1, 8, CbBit(2, Reg(L))) // 0x55 BIT 2, L
            else
              if opcode < 0x57 then
                CbInstruction(1, 12, CbBit(2, AtHl)) // 0x56 BIT 2, (HL)
              else
                CbInstruction(1, 8, CbBit(2, Reg(A))) // 0x57 BIT 2, A
        else
          if opcode < 0x5C then
            if opcode < 0x5A then
              if opcode < 0x59 then
                CbInstruction(1, 8, CbBit(3, Reg(B))) // 0x58 BIT 3, B
              else
                CbInstruction(1, 8, CbBit(3, Reg(C))) // 0x59 BIT 3, C
            else
              if opcode < 0x5B then
                CbInstruction(1, 8, CbBit(3, Reg(D))) // 0x5A BIT 3, D
              else
                CbInstruction(1, 8, CbBit(3, Reg(E))) // 0x5B BIT 3, E
          else
            if opcode < 0x5E then
              if opcode < 0x5D then
                CbInstruction(1, 8, CbBit(3, Reg(H))) // 0x5C BIT 3, H
              else
                CbInstruction(1, 8, CbBit(3, Reg(L))) // 0x5D BIT 3, L
            else
              if opcode < 0x5F then
                CbInstruction(1, 12, CbBit(3, AtHl)) // 0x5E BIT 3, (HL)
              else
                CbInstruction(1, 8, CbBit(3, Reg(A))) // 0x5F BIT 3, A
    else
      if opcode < 0x70 then
        if opcode < 0x68 then
          if opcode < 0x64 then
            if opcode < 0x62 then
              if opcode < 0x61 then
                CbInstruction(1, 8, CbBit(4, Reg(B))) // 0x60 BIT 4, B
              else
                CbInstruction(1, 8, CbBit(4, Reg(C))) // 0x61 BIT 4, C
            else
              if opcode < 0x63 then
                CbInstruction(1, 8, CbBit(4, Reg(D))) // 0x62 BIT 4, D
              else
                CbInstruction(1, 8, CbBit(4, Reg(E))) // 0x63 BIT 4, E
          else
            if opcode < 0x66 then
              if opcode < 0x65 then
                CbInstruction(1, 8, CbBit(4, Reg(H))) // 0x64 BIT 4, H
              else
                CbInstruction(1, 8, CbBit(4, Reg(L))) // 0x65 BIT 4, L
            else
              if opcode < 0x67 then
                CbInstruction(1, 12, CbBit(4, AtHl)) // 0x66 BIT 4, (HL)
              else
                CbInstruction(1, 8, CbBit(4, Reg(A))) // 0x67 BIT 4, A
        else
          if opcode < 0x6C then
            if opcode < 0x6A then
              if opcode < 0x69 then
                CbInstruction(1, 8, CbBit(5, Reg(B))) // 0x68 BIT 5, B
              else
                CbInstruction(1, 8, CbBit(5, Reg(C))) // 0x69 BIT 5, C
            else
              if opcode < 0x6B then
                CbInstruction(1, 8, CbBit(5, Reg(D))) // 0x6A BIT 5, D
              else
                CbInstruction(1, 8, CbBit(5, Reg(E))) // 0x6B BIT 5, E
          else
            if opcode < 0x6E then
              if opcode < 0x6D then
                CbInstruction(1, 8, CbBit(5, Reg(H))) // 0x6C BIT 5, H
              else
                CbInstruction(1, 8, CbBit(5, Reg(L))) // 0x6D BIT 5, L
            else
              if opcode < 0x6F then
                CbInstruction(1, 12, CbBit(5, AtHl)) // 0x6E BIT 5, (HL)
              else
                CbInstruction(1, 8, CbBit(5, Reg(A))) // 0x6F BIT 5, A
      else
        if opcode < 0x78 then
          if opcode < 0x74 then
            if opcode < 0x72 then
              if opcode < 0x71 then
                CbInstruction(1, 8, CbBit(6, Reg(B))) // 0x70 BIT 6, B
              else
                CbInstruction(1, 8, CbBit(6, Reg(C))) // 0x71 BIT 6, C
            else
              if opcode < 0x73 then
                CbInstruction(1, 8, CbBit(6, Reg(D))) // 0x72 BIT 6, D
              else
                CbInstruction(1, 8, CbBit(6, Reg(E))) // 0x73 BIT 6, E
          else
            if opcode < 0x76 then
              if opcode < 0x75 then
                CbInstruction(1, 8, CbBit(6, Reg(H))) // 0x74 BIT 6, H
              else
                CbInstruction(1, 8, CbBit(6, Reg(L))) // 0x75 BIT 6, L
            else
              if opcode < 0x77 then
                CbInstruction(1, 12, CbBit(6, AtHl)) // 0x76 BIT 6, (HL)
              else
                CbInstruction(1, 8, CbBit(6, Reg(A))) // 0x77 BIT 6, A
        else
          if opcode < 0x7C then
            if opcode < 0x7A then
              if opcode < 0x79 then
                CbInstruction(1, 8, CbBit(7, Reg(B))) // 0x78 BIT 7, B
              else
                CbInstruction(1, 8, CbBit(7, Reg(C))) // 0x79 BIT 7, C
            else
              if opcode < 0x7B then
                CbInstruction(1, 8, CbBit(7, Reg(D))) // 0x7A BIT 7, D
              else
                CbInstruction(1, 8, CbBit(7, Reg(E))) // 0x7B BIT 7, E
          else
            if opcode < 0x7E then
              if opcode < 0x7D then
                CbInstruction(1, 8, CbBit(7, Reg(H))) // 0x7C BIT 7, H
              else
                CbInstruction(1, 8, CbBit(7, Reg(L))) // 0x7D BIT 7, L
            else
              if opcode < 0x7F then
                CbInstruction(1, 12, CbBit(7, AtHl)) // 0x7E BIT 7, (HL)
              else
                CbInstruction(1, 8, CbBit(7, Reg(A))) // 0x7F BIT 7, A
  }

  /** `CB_INSTRUCTIONS[0x80..0xBF]`, as a search on the opcode. */
  function Prefixed80(opcode: int): (entry: CbInstruction)
    requires 0x80 <= opcode < 0xC0
  {
    if opcode < 0xA0 then
      if opcode < 0x90 then
        if opcode < 0x88 then
          if opcode < 0x84 then
            if opcode < 0x82 then
              if opcode < 0x81 then
                CbInstruction(1, 8, CbRes(0, Reg(B))) // 0x80 RES 0, B
              else
                CbInstruction(1, 8, CbRes(0, Reg(C))) // 0x81 RES 0, C
            else
              if opcode < 0x83 then
                CbInstruction(1, 8, CbRes(0, Reg(D))) // 0x82 RES 0, D
              else
                CbInstruction(1, 8, CbRes(0, Reg(E))) // 0x83 RES 0, E
          else
            if opcode < 0x86 then
              if opcode < 0x85 then
                CbInstruction(1, 8, CbRes(0, Reg(H))) // 0x84 RES 0, H
              else
                CbInstruction(1, 8, CbRes(0, Reg(L))) // 0x85 RES 0, L
            else
              if opcode < 0x87 then
                CbInstruction(1, 16, CbRes(0, AtHl)) // 0x86 RES 0, (HL)
              else
                CbInstruction(1, 8, CbRes(0, Reg(A))) // 0x87 RES 0, A
        else
          if opcode < 0x8C then
            if opcode < 0x8A then
              if opcode < 0x89 then
                CbInstruction(1, 8, CbRes(1, Reg(B))) // 0x88 RES 1, B
              else
                CbInstruction(1, 8, CbRes(1, Reg(C))) // 0x89 RES 1, C
            else
              if opcode < 0x8B then
                CbInstruction(1, 8, CbRes(1, Reg(D))) // 0x8A RES 1, D
              else
                CbInstruction(1, 8, CbRes(1, Reg(E))) // 0x8B RES 1, E
          else
            if opcode < 0x8E then
              if opcode < 0x8D then
                CbInstruction(1, 8, CbRes(1, Reg(H))) // 0x8C RES 1, H
              else
                CbInstruction(1, 8, CbRes(1, Reg(L))) // 0x8D RES 1, L
            else
              if opcode < 0x8F then
                CbInstruction(1, 16, CbRes(1, AtHl)) // 0x8E RES 1, (HL)
              else
                CbInstruction(1, 8, CbRes(1, Reg(A))) // 0x8F RES 1, A
      else
        if opcode < 0x98 then
          if opcode < 0x94 then
            if opcode < 0x92 then
              if opcode < 0x91 then
                CbInstruction(1, 8, CbRes(2, Reg(B))) // 0x90 RES 2, B
              else
                CbInstruction(1, 8, CbRes(2, Reg(C))) // 0x91 RES 2, C
            else
              if opcode < 0x93 then
                CbInstruction(1, 8, CbRes(2, Reg(D))) // 0x92 RES 2, D
              else
                CbInstruction(1, 8, CbRes(2, Reg(E))) // 0x93 RES 2, E
          else
            if opcode < 0x96 then
              if opcode < 0x95 then
                CbInstruction(1, 8, CbRes(2, Reg(H))) // 0x94 RES 2, H
              else
                CbInstruction(1, 8, CbRes(2, Reg(L))) // 0x95 RES 2, L
            else
              if opcode < 0x97 then
                CbInstruction(1, 16, CbRes(2, AtHl)) // 0x96 RES 2, (HL)
              else
                CbInstruction(1, 8, CbRes(2, Reg(A))) // 0x97 RES 2, A
        else
          if opcode < 0x9C then
            if opcode < 0x9A then
              if opcode < 0x99 then
                CbInstruction(1, 8, CbRes(3, Reg(B))) // 0x98 RES 3, B
              else
                CbInstruction(1, 8, CbRes(3, Reg(C))) // 0x99 RES 3, C
            else
              if opcode < 0x9B then
                CbInstruction(1, 8, CbRes(3, Reg(D))) // 0x9A RES 3, D
              else
                CbInstruction(1, 8, CbRes(3, Reg(E))) // 0x9B RES 3, E
          else
            if opcode < 0x9E then
              if opcode < 0x9D then
                CbInstruction(1, 8, CbRes(3, Reg(H))) // 0x9C RES 3, H
              else
                CbInstruction(1, 8, CbRes(3, Reg(L))) // 0x9D RES 3, L
            else
              if opcode < 0x9F then
                CbInstruction(1, 16, CbRes(3, AtHl)) // 0x9E RES 3, (HL)
              else
                CbInstruction(1, 8, CbRes(3, Reg(A))) // 0x9F RES 3, A
    else
      if opcode < 0xB0 then
        if opcode < 0xA8 then
          if opcode < 0xA4 then
            if opcode < 0xA2 then
              if opcode < 0xA1 then
                CbInstruction(1, 8, CbRes(4, Reg(B))) // 0xA0 RES 4, B
              else
                CbInstruction(1, 8, CbRes(4, Reg(C))) // 0xA1 RES 4, C
            else
              if opcode < 0xA3 then
                CbInstruction(1, 8, CbRes(4, Reg(D))) // 0xA2 RES 4, D
              else
                CbInstruction(1, 8, CbRes(4, Reg(E))) // 0xA3 RES 4, E
          else
            if opcode < 0xA6 then
              if opcode < 0xA5 then
                CbInstruction(1, 8, CbRes(4, Reg(H))) // 0xA4 RES 4, H
              else
                CbInstruction(1, 8, CbRes(4, Reg(L))) // 0xA5 RES 4, L
            else
              if opcode < 0xA7 then
                CbInstruction(1, 16, CbRes(4, AtHl)) // 0xA6 RES 4, (HL)
              else
                CbInstruction(1, 8, CbRes(4, Reg(A))) // 0xA7 RES 4, A
        else
          if opcode < 0xAC then
            if opcode < 0xAA then
              if opcode < 0xA9 then
                CbInstruction(1, 8, CbRes(5, Reg(B))) // 0xA8 RES 5, B
              else
                CbInstruction(1, 8, CbRes(5, Reg(C))) // 0xA9 RES 5, C
            else
              if opcode < 0xAB then
                CbInstruction(1, 8, CbRes(5, Reg(D))) // 0xAA RES 5, D
              else
                CbInstruction(1, 8, CbRes(5, Reg(E))) // 0xAB RES 5, E
          else
            if opcode < 0xAE then
              if opcode < 0xAD then
                CbInstruction(1, 8, CbRes(5, Reg(H))) // 0xAC RES 5, H
              else
                CbInstruction(1, 8, CbRes(5, Reg(L))) // 0xAD RES 5, L
            else
              if opcode < 0xAF then
                CbInstruction(1, 16, CbRes(5, AtHl)) // 0xAE RES 5, (HL)
              else
                CbInstruction(1, 8, CbRes(5, Reg(A))) // 0xAF RES 5, A
      else
        if opcode < 0xB8 then
          if opcode < 0xB4 then
            if opcode < 0xB2 then
              if opcode < 0xB1 then
                CbInstruction(1, 8, CbRes(6, Reg(B))) // 0xB0 RES 6, B
              else
                CbInstruction(1, 8, CbRes(6, Reg(C))) // 0xB1 RES 6, C
            else
              if opcode < 0xB3 then
                CbInstruction(1, 8, CbRes(6, Reg(D))) // 0xB2 RES 6, D
              else
                CbInstruction(1, 8, CbRes(6, Reg(E))) // 0xB3 RES 6, E
          else
            if opcode < 0xB6 then
              if opcode < 0xB5 then
                CbInstruction(1, 8, CbRes(6, Reg(H))) // 0xB4 RES 6, H
              else
                CbInstruction(1, 8, CbRes(6, Reg(L))) // 0xB5 RES 6, L
            else
              if opcode < 0xB7 then
                CbInstruction(1, 16, CbRes(6, AtHl)) // 0xB6 RES 6, (HL)
              else
                CbInstruction(1, 8, CbRes(6, Reg(A))) // 0xB7 RES 6, A
        else
          if opcode < 0xBC then
            if opcode < 0xBA then
              if opcode < 0xB9 then
                CbInstruction(1, 8, CbRes(7, Reg(B))) // 0xB8 RES 7, B
              else
                CbInstruction(1, 8, CbRes(7, Reg(C))) // 0xB9 RES 7, C
            else
              if opcode < 0xBB then
                CbInstruction(1, 8, CbRes(7, Reg(D))) // 0xBA RES 7, D
              else
                CbInstruction(1, 8, CbRes(7, Reg(E))) // 0xBB RES 7, E
          else
            if opcode < 0xBE then
              if opcode < 0xBD then
                CbInstruction(1, 8, CbRes(7, Reg(H))) // 0xBC RES 7, H
              else
                CbInstruction(1, 8, CbRes(7, Reg(L))) // 0xBD RES 7, L
            else
              if opcode < 0xBF then
                CbInstruction(1, 16, CbRes(7, AtHl)) // 0xBE RES 7, (HL)
              else
                CbInstruction(1, 8, CbRes(7, Reg(A))) // 0xBF RES 7, A
  }

  /** `CB_INSTRUCTIONS[0xC0..0xFF]`, as a search on the opcode. */
  function PrefixedC0(opcode: int): (entry: CbInstruction)
    requires 0xC0 <= opcode < 0x100
  {
    if opcode < 0xE0 then
      if opcode < 0xD0 then
        if opcode < 0xC8 then
          if opcode < 0xC4 then
            if opcode < 0xC2 then
              if opcode < 0xC1 then
                CbInstruction(1, 8, CbSet(0, Reg(B))) // 0xC0 SET 0, B
              else
                CbInstruction(1, 8, CbSet(0, Reg(C))) // 0xC1 SET 0, C
            else
              if opcode < 0xC3 then
                CbInstruction(1, 8, CbSet(0, Reg(D))) // 0xC2 SET 0, D
              else
                CbInstruction(1, 8, CbSet(0, Reg(E))) // 0xC3 SET 0, E
          else
            if opcode < 0xC6 then
              if opcode < 0xC5 then
                CbInstruction(1, 8, CbSet(0, Reg(H))) // 0xC4 SET 0, H
              else
                CbInstruction(1, 8, CbSet(0, Reg(L))) // 0xC5 SET 0, L
            else
              if opcode < 0xC7 then
                CbInstruction(1, 16, CbSet(0, AtHl)) // 0xC6 SET 0, (HL)
              else
                CbInstruction(1, 8, CbSet(0, Reg(A))) // 0xC7 SET 0, A
        else
          if opcode < 0xCC then
            if opcode < 0xCA then
              if opcode < 0xC9 then
                CbInstruction(1, 8, CbSet(1, Reg(B))) // 0xC8 SET 1, B
              else
                CbInstruction(1, 8, CbSet(1, Reg(C))) // 0xC9 SET 1, C
            else
              if opcode < 0xCB then
                CbInstruction(1, 8, CbSet(1, Reg(D))) // 0xCA SET 1, D
              else
                CbInstruction(1, 8, CbSet(1, Reg(E))) // 0xCB SET 1, E
          else
            if opcode < 0xCE then
              if opcode < 0xCD then
                CbInstruction(1, 8, CbSet(1, Reg(H))) // 0xCC SET 1, H
              else
                CbInstruction(1, 8, CbSet(1, Reg(L))) // 0xCD SET 1, L
            else
              if opcode < 0xCF then
                CbInstruction(1, 16, CbSet(1, AtHl)) // 0xCE SET 1, (HL)
              else
                CbInstruction(1, 8, CbSet(1, Reg(A))) // 0xCF SET 1, A
      else
        if opcode < 0xD8 then
          if opcode < 0xD4 then
            if opcode < 0xD2 then
              if opcode < 0xD1 then
                CbInstruction(1, 8, CbSet(2, Reg(B))) // 0xD0 SET 2, B
              else
                CbInstruction(1, 8, CbSet(2, Reg(C))) // 0xD1 SET 2, C
            else
              if opcode < 0xD3 then
                CbInstruction(1, 8, CbSet(2, Reg(D))) // 0xD2 SET 2, D
              else
                CbInstruction(1, 8, CbSet(2, Reg(E))) // 0xD3 SET 2, E
          else
            if opcode < 0xD6 then
              if opcode < 0xD5 then
                CbInstruction(1, 8, CbSet(2, Reg(H))) // 0xD4 SET 2, H
              else
                CbInstruction(1, 8, CbSet(2, Reg(L))) // 0xD5 SET 2, L
            else
              if opcode < 0xD7 then
                CbInstruction(1, 16, CbSet(2, AtHl)) // 0xD6 SET 2, (HL)
              else
                CbInstruction(1, 8, CbSet(2, Reg(A))) // 0xD7 SET 2, A
        else
          if opcode < 0xDC then
            if opcode < 0xDA then
              if opcode < 0xD9 then
                CbInstruction(1, 8, CbSet(3, Reg(B))) // 0xD8 SET 3, B
              else
                CbInstruction(1, 8, CbSet(3, Reg(C))) // 0xD9 SET 3, C
            else
              if opcode < 0xDB then
                CbInstruction(1, 8, CbSet(3, Reg(D))) // 0xDA SET 3, D
              else
                CbInstruction(1, 8, CbSet(3, Reg(E))) // 0xDB SET 3, E
          else
            if opcode < 0xDE then
              if opcode < 0xDD then
                CbInstruction(1, 8, CbSet(3, Reg(H))) // 0xDC SET 3, H
              else
                CbInstruction(1, 8, CbSet(3, Reg(L))) // 0xDD SET 3, L
            else
              if opcode < 0xDF then
                CbInstruction(1, 16, CbSet(3, AtHl)) // 0xDE SET 3, (HL)
              else
                CbInstruction(1, 8, CbSet(3, Reg(A))) // 0xDF SET 3, A
    else
      if opcode < 0xF0 then
        if opcode < 0xE8 then
          if opcode < 0xE4 then
            if opcode < 0xE2 then
              if opcode < 0xE1 then
                CbInstruction(1, 8, CbSet(4, Reg(B))) // 0xE0 SET 4, B
              else
                CbInstruction(1, 8, CbSet(4, Reg(C))) // 0xE1 SET 4, C
            else
              if opcode < 0xE3 then
                CbInstruction(1, 8, CbSet(4, Reg(D))) // 0xE2 SET 4, D
              else
                CbInstruction(1, 8, CbSet(4, Reg(E))) // 0xE3 SET 4, E
          else
            if opcode < 0xE6 then
              if opcode < 0xE5 then
                CbInstruction(1, 8, CbSet(4, Reg(H))) // 0xE4 SET 4, H
              else
                CbInstruction(1, 8, CbSet(4, Reg(L))) // 0xE5 SET 4, L
            else
              if opcode < 0xE7 then
                CbInstruction(1, 16, CbSet(4, AtHl)) // 0xE6 SET 4, (HL)
              else
                CbInstruction(1, 8, CbSet(4, Reg(A))) // 0xE7 SET 4, A
        else
          if opcode < 0xEC then
            if opcode < 0xEA then
              if opcode < 0xE9 then
                CbInstruction(1, 8, CbSet(5, Reg(B))) // 0xE8 SET 5, B
              else
                CbInstruction(1, 8, CbSet(5, Reg(C))) // 0xE9 SET 5, C
            else
              if opcode < 0xEB then
                CbInstruction(1, 8, CbSet(5, Reg(D))) // 0xEA SET 5, D
              else
                CbInstruction(1, 8, CbSet(5, Reg(E))) // 0xEB SET 5, E
          else
            if opcode < 0xEE then
              if opcode < 0xED then
                CbInstruction(1, 8, CbSet(5, Reg(H))) // 0xEC SET 5, H
              else
                CbInstruction(1, 8, CbSet(5, Reg(L))) // 0xED SET 5, L
            else
              if opcode < 0xEF then
                CbInstruction(1, 16, CbSet(5, AtHl)) // 0xEE SET 5, (HL)
              else
                CbInstruction(1, 8, CbSet(5, Reg(A))) // 0xEF SET 5, A
      else
        if opcode < 0xF8 then
          if opcode < 0xF4 then
            if opcode < 0xF2 then
              if opcode < 0xF1 then
                CbInstruction(1, 8, CbSet(6, Reg(B))) // 0xF0 SET 6, B
              else
                CbInstruction(1, 8, CbSet(6, Reg(C))) // 0xF1 SET 6, C
            else
              if opcode < 0xF3 then
                CbInstruction(1, 8, CbSet(6, Reg(D))) // 0xF2 SET 6, D
              else
                CbInstruction(1, 8, CbSet(6, Reg(E))) // 0xF3 SET 6, E
          else
            if opcode < 0xF6 then
              if opcode < 0xF5 then
                CbInstruction(1, 8, CbSet(6, Reg(H))) // 0xF4 SET 6, H
              else
                CbInstruction(1, 8, CbSet(6, Reg(L))) // 0xF5 SET 6, L
            else
              if opcode < 0xF7 then
                CbInstruction(1, 16, CbSet(6, AtHl)) // 0xF6 SET 6, (HL)
              else
                CbInstruction(1, 8, CbSet(6, Reg(A))) // 0xF7 SET 6, A
        else
          if opcode < 0xFC then
            if opcode < 0xFA then
              if opcode < 0xF9 then
                CbInstruction(1, 8, CbSet(7, Reg(B))) // 0xF8 SET 7, B
              else
                CbInstruction(1, 8, CbSet(7, Reg(C))) // 0xF9 SET 7, C
            else
              if opcode < 0xFB then
                CbInstruction(1, 8, CbSet(7, Reg(D))) // 0xFA SET 7, D
              else
                CbInstruction(1, 8, CbSet(7, Reg(E))) // 0xFB SET 7, E
          else
            if opcode < 0xFE then
              if opcode < 0xFD then
                CbInstruction(1, 8, CbSet(7, Reg(H))) // 0xFC SET 7, H
              else
                CbInstruction(1, 8, CbSet(7, Reg(L))) // 0xFD SET 7, L
            else
              if opcode < 0xFF then
                CbInstruction(1, 16, CbSet(7, AtHl)) // 0xFE SET 7, (HL)
              else
                CbInstruction(1, 8, CbSet(7, Reg(A))) // 0xFF SET 7, A
  }
}
