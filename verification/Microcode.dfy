/** The microcode of the 8008: what each T-state of each memory cycle of each instruction does,
    and the masked first-match table that selects the instruction from its opcode. */
module Microcode {
  import opened Bytes

  // The two high bits put on the bus with the high part of the address.
  datatype CycleControl = PCI | PCR | PCC | PCW
  {
    function Code(): Byte {
      match this
      case PCI => 0
      case PCR => 64
      case PCC => 128
      case PCW => 192
    }
  }

  function CycleControlOf(code: Byte): (cc: CycleControl)
    ensures cc.Code() == code / 64 * 64
  {
    match code / 64
    case 0 => PCI
    case 1 => PCR
    case 2 => PCC
    case _ => PCW
  }

  datatype InstructionName =
    | Lrr | LrM | LMr | LrI | LMI | INr | DCr
    | ALU_OPr | ALU_OPM | ALU_OPI | RLC | RRC | RAL | RAR
    | JMP | JFc | JTc | CAL | CFc | CTc | RET | RFc | RTc | RST
    | INP | OUT | HLT | UNKNOWN

  // An action byte holds the action in its six low bits and these three marks.
  const IDLE: Byte := 32
  const CONDITIONAL_END: Byte := 64
  const CYCLE_END: Byte := 128

  predicate HasCycleEnd(action: Byte) { action / 128 == 1 }

  predicate HasConditionalEnd(action: Byte) { action / 64 % 2 == 1 }

  function Masked(action: Byte): Byte { action % 64 }

  datatype T1Action = Out_Reg_L | Out_PC_L | Out_Reg_A

  datatype T2Action = Out_Reg_H | Out_PC_H | Out_Reg_b_At_T2

  const FETCH_IR_AND_REG_B: Byte := 1
  const FETCH_DATA_TO_REG_B: Byte := 2
  const FETCH_DATA_TO_REG_A: Byte := 4
  const OUT_REG_B: Byte := 8
  const HALT: Byte := 16

  const SOURCE_TO_REG_B: Byte := 0
  const REG_A_TO_PC_H: Byte := 1
  const PUSH_AND_REG_A_TO_PC_H: Byte := 2
  const POP_STACK: Byte := 3
  const OUT_CONDITIONS_FLAGS: Byte := 4

  const REG_B_TO_DESTINATION: Byte := 0
  const INC_DESTINATION: Byte := 1
  const DEC_DESTINATION: Byte := 2
  const ALU_OPERATION_WITH_REG_B: Byte := 3
  const ROTATE_A: Byte := 4
  const REG_B_TO_PC_L: Byte := 5
  const REG_B_TO_PC_L_3_TO_5: Byte := 6
  const REG_B_TO_A: Byte := 7

  datatype FirstCycle = FirstCycle(t3: Byte, t4: Byte, t5: Byte)

  datatype OtherCycle = OtherCycle(cc: CycleControl, t1: T1Action, t2: T2Action, t3: Byte, t4: Byte, t5: Byte)

  datatype Instruction = Instruction(cycle1: FirstCycle, cycle2: OtherCycle, cycle3: OtherCycle)

  // The value-initialised cycle: every field is zero.
  const NO_CYCLE := OtherCycle(PCI, Out_Reg_L, Out_Reg_H, 0, 0, 0)

  const FETCH_ONLY := FirstCycle(FETCH_IR_AND_REG_B + CYCLE_END, 0, 0)

  function Immediate(t3: Byte, t4: Byte, t5: Byte): OtherCycle {
    OtherCycle(PCR, Out_PC_L, Out_PC_H, t3, t4, t5)
  }

  function Indirect(cc: CycleControl, t3: Byte, t4: Byte, t5: Byte): OtherCycle {
    OtherCycle(cc, Out_Reg_L, Out_Reg_H, t3, t4, t5)
  }

  const LOW_OPERAND := Immediate(FETCH_DATA_TO_REG_B + CYCLE_END, 0, 0)

  const MEMORY_WRITE := Indirect(PCW, OUT_REG_B + CYCLE_END, 0, 0)

  function OneCycle(t3: Byte, t4: Byte, t5: Byte): Instruction {
    Instruction(FirstCycle(t3, t4, t5), NO_CYCLE, NO_CYCLE)
  }

  // The instruction table.
  function Row(name: InstructionName): Instruction {
    match name
    case Lrr => OneCycle(FETCH_IR_AND_REG_B, SOURCE_TO_REG_B, REG_B_TO_DESTINATION)
    case LrM => Instruction(FETCH_ONLY, Indirect(PCR, FETCH_DATA_TO_REG_B, IDLE, REG_B_TO_DESTINATION), NO_CYCLE)
    case LMr => Instruction(FirstCycle(FETCH_IR_AND_REG_B, SOURCE_TO_REG_B + CYCLE_END, 0), MEMORY_WRITE, NO_CYCLE)
    case LrI => Instruction(FETCH_ONLY, Immediate(FETCH_DATA_TO_REG_B, IDLE, REG_B_TO_DESTINATION), NO_CYCLE)
    case LMI => Instruction(FETCH_ONLY, LOW_OPERAND, MEMORY_WRITE)
    case INr => OneCycle(FETCH_IR_AND_REG_B, IDLE, INC_DESTINATION)
    case DCr => OneCycle(FETCH_IR_AND_REG_B, IDLE, DEC_DESTINATION)
    case ALU_OPr => OneCycle(FETCH_IR_AND_REG_B, SOURCE_TO_REG_B, ALU_OPERATION_WITH_REG_B)
    case ALU_OPM =>
      Instruction(FETCH_ONLY, Indirect(PCR, FETCH_DATA_TO_REG_B, IDLE, ALU_OPERATION_WITH_REG_B), NO_CYCLE)
    case ALU_OPI =>
      Instruction(FETCH_ONLY, Immediate(FETCH_DATA_TO_REG_B, IDLE, ALU_OPERATION_WITH_REG_B), NO_CYCLE)
    case RLC => OneCycle(FETCH_IR_AND_REG_B, IDLE, ROTATE_A)
    case RRC => OneCycle(FETCH_IR_AND_REG_B, IDLE, ROTATE_A)
    case RAL => OneCycle(FETCH_IR_AND_REG_B, IDLE, ROTATE_A)
    case RAR => OneCycle(FETCH_IR_AND_REG_B, IDLE, ROTATE_A)
    case JMP =>
      Instruction(FETCH_ONLY, LOW_OPERAND, Immediate(FETCH_DATA_TO_REG_A, REG_A_TO_PC_H, REG_B_TO_PC_L))
    case JFc =>
      Instruction(FETCH_ONLY, LOW_OPERAND,
                  Immediate(FETCH_DATA_TO_REG_A + CONDITIONAL_END, REG_A_TO_PC_H, REG_B_TO_PC_L))
    case JTc =>
      Instruction(FETCH_ONLY, LOW_OPERAND,
                  Immediate(FETCH_DATA_TO_REG_A + CONDITIONAL_END, REG_A_TO_PC_H, REG_B_TO_PC_L))
    case CAL =>
      Instruction(FETCH_ONLY, LOW_OPERAND, Immediate(FETCH_DATA_TO_REG_A, PUSH_AND_REG_A_TO_PC_H, REG_B_TO_PC_L))
    case CFc =>
      Instruction(FETCH_ONLY, LOW_OPERAND,
                  Immediate(FETCH_DATA_TO_REG_A + CONDITIONAL_END, PUSH_AND_REG_A_TO_PC_H, REG_B_TO_PC_L))
    case CTc =>
      Instruction(FETCH_ONLY, LOW_OPERAND,
                  Immediate(FETCH_DATA_TO_REG_A + CONDITIONAL_END, PUSH_AND_REG_A_TO_PC_H, REG_B_TO_PC_L))
    case RET => OneCycle(FETCH_IR_AND_REG_B, POP_STACK, IDLE)
    case RFc => OneCycle(FETCH_IR_AND_REG_B + CONDITIONAL_END, POP_STACK, IDLE)
    case RTc => OneCycle(FETCH_IR_AND_REG_B + CONDITIONAL_END, POP_STACK, IDLE)
    case RST => OneCycle(FETCH_IR_AND_REG_B, PUSH_AND_REG_A_TO_PC_H, REG_B_TO_PC_L_3_TO_5)
    case INP =>
      Instruction(FETCH_ONLY,
                  OtherCycle(PCC, Out_Reg_A, Out_Reg_b_At_T2, FETCH_DATA_TO_REG_B, OUT_CONDITIONS_FLAGS, REG_B_TO_A),
                  NO_CYCLE)
    case OUT =>
      Instruction(FETCH_ONLY, OtherCycle(PCC, Out_Reg_A, Out_Reg_b_At_T2, IDLE + CYCLE_END, 0, 0), NO_CYCLE)
    case HLT => OneCycle(FETCH_IR_AND_REG_B + HALT + CYCLE_END, 0, 0)
    case UNKNOWN => OneCycle(0, 0, 0)
  }

  // A row of the decoding table. The high part is matched exactly; in the two others the three
  // high bits mask the bits that must equal the three low bits.
  datatype Decoding = Decoding(name: InstructionName, high: nat, medium: nat, low: nat)

  const DECODING_TABLE: seq<Decoding> := [
    Decoding(HLT, 0, 0x38, 0x30),      // before INr, to capture the illegal INA
    Decoding(HLT, 3, 0x3F, 0x3F),
    Decoding(LrM, 3, 0x00, 0x3F),      // before Lrr, to capture M
    Decoding(LMr, 3, 0x3F, 0x00),
    Decoding(Lrr, 3, 0x00, 0x00),
    Decoding(LMI, 0, 0x3F, 0x3E),      // before LrI, to capture M
    Decoding(LrI, 0, 0x00, 0x3E),
    Decoding(UNKNOWN, 0, 0x3F, 0x38),  // the invalid increment of M
    Decoding(UNKNOWN, 0, 0x3F, 0x39),  // the invalid decrement of M
    Decoding(INr, 0, 0x00, 0x38),
    Decoding(DCr, 0, 0x00, 0x39),
    Decoding(ALU_OPM, 2, 0x00, 0x3F),  // before ALU_OPr, to capture M
    Decoding(ALU_OPr, 2, 0x00, 0x00),
    Decoding(ALU_OPI, 0, 0x00, 0x3C),
    Decoding(RLC, 0, 0x38, 0x3A),
    Decoding(RRC, 0, 0x39, 0x3A),
    Decoding(RAL, 0, 0x3A, 0x3A),
    Decoding(RAR, 0, 0x3B, 0x3A),
    Decoding(JMP, 1, 0x00, 0x3C),
    Decoding(JFc, 1, 0x20, 0x38),
    Decoding(JTc, 1, 0x24, 0x38),
    Decoding(CAL, 1, 0x00, 0x3E),
    Decoding(CFc, 1, 0x20, 0x3A),
    Decoding(CTc, 1, 0x24, 0x3A),
    Decoding(RET, 0, 0x00, 0x3F),
    Decoding(RFc, 0, 0x20, 0x3B),
    Decoding(RTc, 0, 0x24, 0x3B),
    Decoding(RST, 0, 0x00, 0x3D),
    Decoding(INP, 1, 0x30, 0x09),      // before OUT
    Decoding(OUT, 1, 0x00, 0x09)
  ]

  predicate Matches(row: Decoding, opcode: Byte) {
    && row.high == opcode / 64
    && And3(opcode % 8, row.low / 8) == row.low % 8
    && And3(opcode / 8 % 8, row.medium / 8) == row.medium % 8
  }

  datatype Decoded = Decoded(name: InstructionName, medium: nat, low: nat)

  // The name in the first matching row.
  function FirstMatch(rows: seq<Decoding>, opcode: Byte): InstructionName {
    if rows == [] then UNKNOWN
    else if Matches(rows[0], opcode) then rows[0].name
    else FirstMatch(rows[1..], opcode)
  }

  function Decode(opcode: Byte): Decoded {
    var name := FirstMatch(DECODING_TABLE, opcode);
    if name == UNKNOWN then Decoded(UNKNOWN, 0, 0) else Decoded(name, opcode / 8 % 8, opcode % 8)
  }

  method DecodeInstruction(opcode: Byte) returns (decoded: Decoded)
    ensures decoded == Decode(opcode)
  {
    for row := 0 to |DECODING_TABLE|
      invariant FirstMatch(DECODING_TABLE, opcode) == FirstMatch(DECODING_TABLE[row..], opcode)
    {
      var candidate := DECODING_TABLE[row];
      assert DECODING_TABLE[row..][1..] == DECODING_TABLE[row + 1..];
      if candidate.high != opcode / 64 {
        continue;
      }
      if And3(opcode % 8, candidate.low / 8) != candidate.low % 8 {
        continue;
      }
      if And3(opcode / 8 % 8, candidate.medium / 8) != candidate.medium % 8 {
        continue;
      }
      if candidate.name == UNKNOWN {
        return Decoded(UNKNOWN, 0, 0);
      }
      return Decoded(candidate.name, opcode / 8 % 8, opcode % 8);
    }
    return Decoded(UNKNOWN, 0, 0);
  }

  // The first matching row decides.
  lemma {:induction false} FirstMatchAt(rows: seq<Decoding>, opcode: Byte, row: nat)
    requires row < |rows| && Matches(rows[row], opcode)
    requires forall earlier :: 0 <= earlier < row ==> !Matches(rows[earlier], opcode)
    ensures FirstMatch(rows, opcode) == rows[row].name
  {
    if row > 0 {
      FirstMatchAt(rows[1..], opcode, row - 1);
    }
  }

  // When no row matches, the opcode is unknown.
  lemma {:induction false} NoMatch(rows: seq<Decoding>, opcode: Byte)
    requires forall row :: 0 <= row < |rows| ==> !Matches(rows[row], opcode)
    ensures FirstMatch(rows, opcode) == UNKNOWN
  {
    if rows != [] {
      NoMatch(rows[1..], opcode);
    }
  }
}
