// Whole-table facts about INSTRUCTIONS and CB_INSTRUCTIONS
// (core/src/instruction.rs), drawn from the block-by-block comparison
// with the reference decoding.
module TableLemmas {
  import opened Instructions
  import opened Decoding

  /** The opcodes the primary table fills with `Instruction::invalid()`. */
  const UNDEFINED_OPCODES: set<int> := {0xD3, 0xDB, 0xDD, 0xE3, 0xE4, 0xEB, 0xEC, 0xED, 0xF4, 0xFC, 0xFD}

  lemma Primary00Decodes(i: int)
    requires 0x00 <= i < 0x40
    ensures Primary00(i).execute == Decode(i)
  {
    Primary00Ops();
    Primary20Ops();
    var p, q, z := i / 16, i / 8 % 2, i % 8;
    assert i == 0x00 + 16 * p + 8 * q + z;
    assert i / 8 % 8 == 2 * p + q;
  }

  lemma Primary40Decodes(i: int)
    requires 0x40 <= i < 0x80
    ensures Primary40(i).execute == Decode(i)
  {
    Primary40Ops();
    var y, z := i / 8 % 8, i % 8;
    assert i == 0x40 + 8 * y + z;
  }

  lemma Primary80Decodes(i: int)
    requires 0x80 <= i < 0xC0
    ensures Primary80(i).execute == Decode(i)
  {
    Primary80Ops();
    var y, z := i / 8 % 8, i % 8;
    assert i == 0x80 + 8 * y + z;
  }

  lemma PrimaryC0Decodes(i: int)
    requires 0xC0 <= i < 0x100
    ensures PrimaryC0(i).execute == Decode(i)
  {
    PrimaryC0Ops();
    PrimaryE0Ops();
    var p, q, z := i / 16 % 4, i / 8 % 2, i % 8;
    assert i == 0xC0 + 16 * p + 8 * q + z;
    assert i / 8 % 8 == 2 * p + q;
  }

  /** Every primary entry is the reference decoding of its opcode. */
  lemma PrimaryDecodes(opcode: bv8)
    ensures Primary(opcode).execute == Decode(opcode as int)
  {
    var i := opcode as int;
    if i < 0x40 {
      Primary00Decodes(i);
    } else if i < 0x80 {
      Primary40Decodes(i);
    } else if i < 0xC0 {
      Primary80Decodes(i);
    } else {
      PrimaryC0Decodes(i);
    }
  }

  /** Every primary entry carries the reference length and base cycles of
      its operation, except PREFIX CB, whose entry says one byte. */
  lemma PrimaryCosts(opcode: bv8)
    ensures Primary(opcode).length == (if opcode == 0xCB then 1 else Length(Primary(opcode).execute))
    ensures Primary(opcode).cycles == BaseCycles(Primary(opcode).execute)
  {
    var i := opcode as int;
    if i < 0x40 {
      Primary00Costs();
      Primary20Costs();
    } else if i < 0x80 {
      Primary40Costs();
      Primary60Costs();
    } else if i < 0xC0 {
      Primary80Costs();
      PrimaryA0Costs();
    } else {
      PrimaryC0Costs();
      PrimaryE0Costs();
    }
  }

  lemma Prefixed00Decodes(i: int)
    requires 0x00 <= i < 0x40
    ensures Prefixed00(i).execute == DecodeCb(0, i / 8 % 8, i % 8)
  {
    Prefixed00Ops();
    var y, z := i / 8 % 8, i % 8;
    assert i == 0x00 + 8 * y + z;
  }

  lemma Prefixed40Decodes(i: int)
    requires 0x40 <= i < 0x80
    ensures Prefixed40(i).execute == DecodeCb(1, i / 8 % 8, i % 8)
  {
    Prefixed40Ops();
    var y, z := i / 8 % 8, i % 8;
    assert i == 0x40 + 8 * y + z;
  }

  lemma Prefixed80Decodes(i: int)
    requires 0x80 <= i < 0xC0
    ensures Prefixed80(i).execute == DecodeCb(2, i / 8 % 8, i % 8)
  {
    Prefixed80Ops();
    var y, z := i / 8 % 8, i % 8;
    assert i == 0x80 + 8 * y + z;
  }

  lemma PrefixedC0Decodes(i: int)
    requires 0xC0 <= i < 0x100
    ensures PrefixedC0(i).execute == DecodeCb(3, i / 8 % 8, i % 8)
  {
    PrefixedC0Ops();
    var y, z := i / 8 % 8, i % 8;
    assert i == 0xC0 + 8 * y + z;
  }

  /** Every CB entry is the reference decoding of its opcode. */
  lemma PrefixedDecodes(opcode: bv8)
    ensures Prefixed(opcode).execute == DecodeCb(opcode as int / 64, opcode as int / 8 % 8, opcode as int % 8)
  {
    var i := opcode as int;
    if i < 0x40 {
      Prefixed00Decodes(i);
    } else if i < 0x80 {
      Prefixed40Decodes(i);
    } else if i < 0xC0 {
      Prefixed80Decodes(i);
    } else {
      PrefixedC0Decodes(i);
    }
  }

  /** Every CB entry is one byte long, with the reference cycles of its
      operation. */
  lemma PrefixedCosts(opcode: bv8)
    ensures Prefixed(opcode).length == 1
    ensures Prefixed(opcode).cycles == CbCycles(Prefixed(opcode).execute)
  {
    var i := opcode as int;
    if i < 0x40 {
      Prefixed00Costs();
    } else if i < 0x80 {
      Prefixed40Costs();
    } else if i < 0xC0 {
      Prefixed80Costs();
    } else {
      PrefixedC0Costs();
    }
  }

  /** The only undefined primary opcodes are the eleven holes of the 0xC0
      block; each is the one-byte, four-cycle INVALID entry. */
  lemma UndefinedOpcodes(opcode: bv8)
    ensures Primary(opcode).execute == Invalid <==> opcode as int in UNDEFINED_OPCODES
    ensures Primary(opcode).execute == Invalid ==> Primary(opcode) == INVALID
  {
    PrimaryDecodes(opcode);
    PrimaryCosts(opcode);
    DecodeUndefined(opcode as int);
  }

  lemma DecodeUndefined(i: int)
    requires 0 <= i < 0x100
    ensures Decode(i) == Invalid <==> i in UNDEFINED_OPCODES
  {
    if i < 0xC0 {
      DecodeDefinedBelowC0(i);
    } else {
      var p, q, z := i / 16 % 4, i / 8 % 2, i % 8;
      assert i == 0xC0 + 16 * p + 8 * q + z;
      assert i / 8 % 8 == 2 * p + q;
      DecodeX3Undefined(p, q, z);
    }
  }

  lemma DecodeDefinedBelowC0(i: int)
    requires 0 <= i < 0xC0
    ensures Decode(i) != Invalid
  {
    var y, z := i / 8 % 8, i % 8;
    if i < 0x40 {
      assert DecodeX0(y / 2, y % 2, z) != Invalid;
    }
  }

  lemma DecodeX3Undefined(p: int, q: int, z: int)
    requires 0 <= p < 4 && 0 <= q < 2 && 0 <= z < 8
    ensures DecodeX3(p, q, z) == Invalid <==> 0xC0 + 16 * p + 8 * q + z in UNDEFINED_OPCODES
  {
  }

  /** Conditional branches are costed at their not-taken time: JR cc and
      RET cc 8 cycles, JP cc and CALL cc 12. */
  lemma ConditionalBranchCycles(opcode: bv8)
    ensures Primary(opcode).execute.JrCond? ==> Primary(opcode).cycles == 8
    ensures Primary(opcode).execute.RetCond? ==> Primary(opcode).cycles == 8
    ensures Primary(opcode).execute.JpCond? ==> Primary(opcode).cycles == 12
    ensures Primary(opcode).execute.CallCond? ==> Primary(opcode).cycles == 12
  {
    PrimaryCosts(opcode);
  }

  /** A primary entry is three bytes long exactly when its operation takes
      a 16-bit operand, and two bytes exactly when it takes one more byte,
      PREFIX CB excepted; all lengths are 1, 2 or 3. */
  lemma OperandLengths(opcode: bv8)
    ensures 1 <= Primary(opcode).length <= 3
    ensures Primary(opcode).length == 3 <==> WordOperand(Primary(opcode).execute)
    ensures opcode != 0xCB ==> (Primary(opcode).length == 2 <==> ByteOperand(Primary(opcode).execute))
    ensures Primary(0xCB).execute == PrefixCb && ByteOperand(PrefixCb) && Primary(0xCB).length == 1
  {
    PrimaryCosts(opcode);
  }
}
