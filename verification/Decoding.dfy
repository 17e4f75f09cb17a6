/** The masked first-match table decodes the opcode map of the instruction set. */
module Decoding {
  import opened Bytes
  import opened Microcode
  import Isa

  // The instruction that a decoded opcode stands for.
  function Shape(d: Decoded): Isa.Instr {
    var m, l := d.medium % 8, d.low % 8;
    match d.name
    case Lrr => if m < 7 && l < 7 then Isa.LoadRegister(m, Isa.FromRegister(l)) else Isa.Undefined
    case LrM => if m < 7 then Isa.LoadRegister(m, Isa.FromMemory) else Isa.Undefined
    case LMr => if l < 7 then Isa.StoreRegister(l) else Isa.Undefined
    case LrI => if m < 7 then Isa.LoadRegister(m, Isa.FromProgram) else Isa.Undefined
    case LMI => Isa.StoreProgram
    case INr => if 0 < m < 7 then Isa.Increment(m) else Isa.Undefined
    case DCr => if 0 < m < 7 then Isa.Decrement(m) else Isa.Undefined
    case ALU_OPr => if l < 7 then Isa.Alu(m, Isa.FromRegister(l)) else Isa.Undefined
    case ALU_OPM => Isa.Alu(m, Isa.FromMemory)
    case ALU_OPI => Isa.Alu(m, Isa.FromProgram)
    case RLC => if m == 0 then Isa.Rotate(Isa.LeftCircular) else Isa.Undefined
    case RRC => if m == 1 then Isa.Rotate(Isa.RightCircular) else Isa.Undefined
    case RAL => if m == 2 then Isa.Rotate(Isa.LeftThroughCarry) else Isa.Undefined
    case RAR => if m == 3 then Isa.Rotate(Isa.RightThroughCarry) else Isa.Undefined
    case JMP => Isa.Jump(Isa.Always)
    case JFc => if m < 4 then Isa.Jump(Isa.ConditionNumber(m)) else Isa.Undefined
    case JTc => if m >= 4 then Isa.Jump(Isa.ConditionNumber(m)) else Isa.Undefined
    case CAL => Isa.Call(Isa.Always)
    case CFc => if m < 4 then Isa.Call(Isa.ConditionNumber(m)) else Isa.Undefined
    case CTc => if m >= 4 then Isa.Call(Isa.ConditionNumber(m)) else Isa.Undefined
    case RET => Isa.Return(Isa.Always)
    case RFc => if m < 4 then Isa.Return(Isa.ConditionNumber(m)) else Isa.Undefined
    case RTc => if m >= 4 then Isa.Return(Isa.ConditionNumber(m)) else Isa.Undefined
    case RST => Isa.Restart(m)
    case INP => Isa.Input
    case OUT => Isa.Output
    case HLT => Isa.Halt
    case UNKNOWN => Isa.Undefined
  }

  // The row of the decoding table that the octal digits of an opcode select, if any.
  function RowOf(high: nat, middle: nat, low: nat): nat {
    match high
    case 3 =>
      if middle == 7 && low == 7 then 1 else if low == 7 then 2 else if middle == 7 then 3 else 4
    case 2 => if low == 7 then 11 else 12
    case 1 =>
      if low % 2 == 1 then (if middle < 2 then 28 else 29)
      else if low == 4 then 18
      else if low == 6 then 21
      else if low == 0 then (if middle < 4 then 19 else 20)
      else (if middle < 4 then 22 else 23)
    case _ =>
      match low
      case 0 => if middle == 0 then 0 else if middle == 7 then 7 else 9
      case 1 => if middle == 0 then 0 else if middle == 7 then 8 else 10
      case 2 =>
        (match middle
         case 0 => 14
         case 1 => 15
         case 2 => 16
         case 3 => 17
         case _ => 30)
      case 3 => if middle < 4 then 25 else 26
      case 4 => 13
      case 5 => 27
      case 6 => if middle == 7 then 5 else 6
      case _ => 24
  }

  // A masked field of the table, read as a test on an octal digit.
  predicate Agrees(digit: nat, field: nat) {
    match field / 8
    case 0 => field % 8 == 0
    case 1 => digit % 2 == field % 8
    case 4 => digit / 4 * 4 == field % 8
    case 6 => digit / 2 * 2 == field % 8
    case _ => digit == field % 8
  }

  predicate DigitsMatch(row: Decoding, high: nat, middle: nat, low: nat) {
    row.high == high && Agrees(middle, row.medium) && Agrees(low, row.low)
  }

  lemma AgreesMeaning(digit: nat, field: nat)
    requires digit < 8 && field / 8 in {0, 1, 4, 6, 7}
    ensures And3(digit, field / 8) == field % 8 <==> Agrees(digit, field)
  {
  }

  lemma MatchesMeaning(row: nat, opcode: Byte)
    requires row < |DECODING_TABLE|
    ensures Matches(DECODING_TABLE[row], opcode)
       <==> DigitsMatch(DECODING_TABLE[row], opcode / 64, opcode / 8 % 8, opcode % 8)
  {
    AgreesMeaning(opcode / 8 % 8, DECODING_TABLE[row].medium);
    AgreesMeaning(opcode % 8, DECODING_TABLE[row].low);
  }

  lemma SelectedRow(high: nat, middle: nat, low: nat)
    requires high < 4 && middle < 8 && low < 8
    ensures var selected := RowOf(high, middle, low);
            selected < 30 ==> DigitsMatch(DECODING_TABLE[selected], high, middle, low)
  {
    if high == 0 {
      SelectedRow0(middle, low);
    }
  }

  lemma SelectedRow0(middle: nat, low: nat)
    requires middle < 8 && low < 8
    ensures var selected := RowOf(0, middle, low);
            selected < 30 ==> DigitsMatch(DECODING_TABLE[selected], 0, middle, low)
  {
  }

  lemma EarlierRowsDiffer(high: nat, middle: nat, low: nat, row: nat)
    requires high < 4 && middle < 8 && low < 8
    requires row < RowOf(high, middle, low) && row < 30
    ensures !DigitsMatch(DECODING_TABLE[row], high, middle, low)
  {
  }

  function NameOf(high: nat, middle: nat, low: nat): InstructionName
    requires high < 4 && middle < 8 && low < 8
  {
    var selected := RowOf(high, middle, low);
    if selected < 30 then DECODING_TABLE[selected].name else UNKNOWN
  }

  lemma DecodedName(opcode: Byte)
    ensures Decode(opcode).name == NameOf(opcode / 64, opcode / 8 % 8, opcode % 8)
  {
    var high, middle, low := opcode / 64, opcode / 8 % 8, opcode % 8;
    var selected := RowOf(high, middle, low);
    forall row | 0 <= row < selected && row < 30
      ensures !Matches(DECODING_TABLE[row], opcode)
    {
      EarlierRowsDiffer(high, middle, low, row);
      MatchesMeaning(row, opcode);
    }
    if selected < 30 {
      SelectedRow(high, middle, low);
      MatchesMeaning(selected, opcode);
      FirstMatchAt(DECODING_TABLE, opcode, selected);
    } else {
      NoMatch(DECODING_TABLE, opcode);
    }
  }

  // The instruction of the selected row is that of the opcode map.
  lemma SelectedName(high: nat, middle: nat, low: nat)
    requires high < 4 && middle < 8 && low < 8
    ensures Shape(Decoded(NameOf(high, middle, low), middle, low)) == Isa.OpcodeMap(high, middle, low)
  {
    if high == 0 && low < 2 {
      SelectedNameUnary(middle, low);
    } else if high == 0 && low == 2 {
      SelectedNameRotate(middle);
    } else if high == 0 {
      SelectedNameOther(middle, low);
    } else if high == 1 {
      SelectedNameControl(middle, low);
    }
  }

  lemma SelectedNameUnary(middle: nat, low: nat)
    requires middle < 8 && low < 2
    ensures Shape(Decoded(NameOf(0, middle, low), middle, low)) == Isa.OpcodeMap(0, middle, low)
  {
  }

  lemma SelectedNameRotate(middle: nat)
    requires middle < 8
    ensures Shape(Decoded(NameOf(0, middle, 2), middle, 2)) == Isa.OpcodeMap(0, middle, 2)
  {
  }

  lemma SelectedNameOther(middle: nat, low: nat)
    requires middle < 8 && 3 <= low < 8
    ensures Shape(Decoded(NameOf(0, middle, low), middle, low)) == Isa.OpcodeMap(0, middle, low)
  {
  }

  lemma SelectedNameControl(middle: nat, low: nat)
    requires middle < 8 && low < 8
    ensures Shape(Decoded(NameOf(1, middle, low), middle, low)) == Isa.OpcodeMap(1, middle, low)
  {
  }

  lemma UndefinedName(high: nat, middle: nat, low: nat)
    requires high < 4 && middle < 8 && low < 8 && Isa.OpcodeMap(high, middle, low) == Isa.Undefined
    ensures NameOf(high, middle, low) == UNKNOWN
  {
    if high == 0 && low == 2 {
    }
  }

  lemma UndefinedOpcodes(opcode: Byte)
    ensures Isa.Meaning(opcode) == Isa.Undefined <==> opcode in {0x22, 0x2A, 0x32, 0x3A, 0x38, 0x39}
  {
    var high, middle, low := opcode / 64, opcode / 8 % 8, opcode % 8;
    assert opcode == high * 64 + middle * 8 + low;
    if high == 0 && low in {0, 1, 2} {
    } else {
      assert Isa.Meaning(opcode) != Isa.Undefined;
    }
  }

  // For each of the 256 opcodes, the first row that matches is the row of its instruction, and
  // the operand digits are those of the opcode.
  lemma DecodeMeaning(opcode: Byte)
    ensures Shape(Decode(opcode)) == Isa.Meaning(opcode)
    ensures Isa.Meaning(opcode) != Isa.Undefined ==>
              Decode(opcode) == Decoded(Decode(opcode).name, opcode / 8 % 8, opcode % 8)
    ensures Isa.Meaning(opcode) == Isa.Undefined ==> Decode(opcode).name == UNKNOWN
  {
    DecodedName(opcode);
    var high, middle, low := opcode / 64, opcode / 8 % 8, opcode % 8;
    SelectedName(high, middle, low);
    if Isa.OpcodeMap(high, middle, low) == Isa.Undefined {
      UndefinedName(high, middle, low);
    }
    hide FirstMatch, NameOf, Isa.OpcodeMap;
    assert Isa.Meaning(opcode) == Isa.OpcodeMap(high, middle, low);
  }
}
