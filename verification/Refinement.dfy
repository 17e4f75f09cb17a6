/** The micro-engine refines the instruction set, over every run. */
module Refinement {
  import opened Bytes
  import opened Microcode
  import opened CpuCore
  import opened BusMachine
  import opened Cycles
  import opened Instructions
  import opened Completion
  import Isa
  import Decoding

  // The shape of a decoded instruction is what its states do.
  lemma DecodedBehaves(board: Isa.Board, m: Machine, start: Isa.Start, name: InstructionName, d: nat, l: nat)
    requires Begins(m, start) && Decode(Code(m, start)) == Decoded(name, d, l) && d < 8 && l < 8
    requires Decoding.Shape(Decoded(name, d, l)) != Isa.Undefined
    ensures Behaves(board, m, start, Decoding.Shape(Decoded(name, d, l)))
  {
    hide Behaves, Begins, Decode, Code, Isa.Holds, AbstractFlags;
    match name {
      case Lrr => MoveCompletes(board, m, start, d, l);
      case LrM => LoadCompletes(board, m, start, name, d, l);
      case LMr => StoreRegisterCompletes(board, m, start, d, l);
      case LrI => LoadCompletes(board, m, start, name, d, l);
      case LMI => StoreProgramCompletes(board, m, start, d, l);
      case INr => IncrementCompletes(board, m, start, name, d, l);
      case DCr => IncrementCompletes(board, m, start, name, d, l);
      case ALU_OPr => RegisterAluCompletes(board, m, start, d, l);
      case ALU_OPM => OperandAluCompletes(board, m, start, name, d, l);
      case ALU_OPI => OperandAluCompletes(board, m, start, name, d, l);
      case RLC => RotationCompletes(board, m, start, name, d, l);
      case RRC => RotationCompletes(board, m, start, name, d, l);
      case RAL => RotationCompletes(board, m, start, name, d, l);
      case RAR => RotationCompletes(board, m, start, name, d, l);
      case RST => RestartCompletes(board, m, start, d, l);
      case INP => InputCompletes(board, m, start, d, l);
      case OUT => OutputCompletes(board, m, start, d, l);
      case HLT => HaltCompletes(board, m, start, d, l);
      case _ =>
        ConditionalShape(name, d, l);
        if IsTransfer(name) {
          TransferBehaves(board, m, start, name, d, l);
        } else {
          ReturnBehaves(board, m, start, name, d, l);
        }
    }
  }

  lemma ConditionalShape(name: InstructionName, d: nat, l: nat)
    requires d < 8 && l < 8 && Decoding.Shape(Decoded(name, d, l)) != Isa.Undefined
    ensures name in {RET, RFc, RTc} ==> Decoding.Shape(Decoded(name, d, l)) == Isa.Return(ConditionOf(name, d))
    ensures IsTransfer(name) ==> Decoding.Shape(Decoded(name, d, l)) == TransferOf(name, d)
  {
  }

  lemma ReturnBehaves(board: Isa.Board, m: Machine, start: Isa.Start, name: InstructionName, d: nat, l: nat)
    requires Begins(m, start) && Decode(Code(m, start)) == Decoded(name, d, l) && d < 8
    requires name in {RET, RFc, RTc}
    ensures Behaves(board, m, start, Isa.Return(ConditionOf(name, d)))
  {
    var flags := AbstractFlags(m.core.flags);
    assert Isa.Holds(Isa.Always, flags);
    hide Behaves, Begins, Decode, Code, AbstractFlags, Isa.Holds;
    if Isa.Holds(ConditionOf(name, d), flags) {
      ReturnCompletes(board, m, start, name, d, l);
    } else {
      NoReturnCompletes(board, m, start, name, d, l);
    }
  }

  lemma TransferBehaves(board: Isa.Board, m: Machine, start: Isa.Start, name: InstructionName, d: nat, l: nat)
    requires Begins(m, start) && Decode(Code(m, start)) == Decoded(name, d, l) && d < 8 && l < 8
    requires IsTransfer(name)
    ensures Behaves(board, m, start, TransferOf(name, d))
  {
    var flags := AbstractFlags(m.core.flags);
    assert Isa.Holds(Isa.Always, flags);
    hide Behaves, Begins, Decode, Code, AbstractFlags, Isa.Holds, TransferOf;
    if Isa.Holds(ConditionOf(name, d), flags) {
      TransferCompletes(board, m, start, name, d, l);
    } else {
      NoTransferCompletes(board, m, start, name, d, l);
    }
  }

  // A defined instruction takes the states of the manual, and does the step of the instruction set.
  lemma InstructionRefines(board: Isa.Board, m: Machine, start: Isa.Start)
    requires Begins(m, start) && Isa.Meaning(Code(m, start)) != Isa.Undefined
    ensures CompletesIn(board, m, start,
                        Isa.StateCount(Isa.Meaning(Code(m, start)), Abstract(m).flags),
                        Isa.Step(board, Abstract(m), start))
  {
    var opcode := Code(m, start);
    Decoding.DecodeMeaning(opcode);
    StepAfterOpcode(board, m, start);
    hide Decode, Isa.Meaning, Isa.Execute, Isa.Step, Isa.StateCount, CompletesIn, Decoding.Shape, AbstractFlags;
    DecodedBehaves(board, m, start, Decode(opcode).name, opcode / 8 % 8, opcode % 8);
  }

  lemma UnknownFaults(c: Core, start: Isa.Start, opcode: Byte)
    requires CpuCore.Valid(c) && Decode(opcode).name == UNKNOWN
    ensures ExecuteT3(Fetching(c, start), opcode).faulted
  {
    hide FirstMatch;
    assert Row(UNKNOWN).cycle1.t3 % 2 != FETCH_IR_AND_REG_B;
  }

  // An undefined one fails an assertion in its third state.
  lemma UndefinedFaults(board: Isa.Board, m: Machine, start: Isa.Start)
    requires Begins(m, start) && Isa.Meaning(Code(m, start)) == Isa.Undefined
    ensures Underway(board, m, start, 3) && Run(board, m, start, 3).core.faulted
  {
    Decoding.DecodeMeaning(Code(m, start));
    assert InProgress(AfterT1(m, start)) && InProgress(AfterT2(m, start));
    hide Decode, Isa.Meaning, Run, Underway, InProgress, Micro, AfterT1, AfterT2, ExecuteT3, CanBegin, Fetching;
    FetchCycle(board, m, start);
    UnderwayFirst(board, m, start);
    UnknownFaults(m.core, start, Code(m, start));
  }
}
