/** What the last states of each instruction leave in the registers, against the instruction set. */
module Effects {
  import opened Bytes
  import opened Microcode
  import opened CpuCore
  import opened BusMachine
  import opened AddressStacks
  import Isa

  // The registers as the programmer sees them.
  function Arch(c: Core, memory: seq<Byte>, io: seq<nat>): (s: Isa.Arch)
    requires CpuCore.Valid(c) && |memory| == Isa.SPACE
    ensures Isa.WellFormed(s)
  {
    Isa.Arch(c.registers, AbstractFlags(c.flags), View(c.stack), memory, io, false)
  }

  // T4 then T5 of the current cycle.
  function LastStates(c: Core): (r: Core)
    requires CpuCore.Valid(c)
    ensures CpuCore.Valid(r)
  {
    ExecuteT5(ExecuteT4(c.(state := T4)).(state := T5))
  }

  predicate Finished(c: Core) { !c.faulted && c.cycleEnded && c.state == T5 }

  // T4 does its work and lets T5 follow.
  predicate GoesOn(c: Core)
    requires CpuCore.Valid(c)
  {
    var c4 := ExecuteT4(c.(state := T4));
    c4.state == T4 && !c4.faulted && !c4.cycleEnded
  }

  lemma FlagsAfter(flags: seq<Byte>, carry: Byte, result: Byte)
    requires |flags| == 4
    ensures AbstractFlags(UpdatedFlags(flags[CARRY := carry], result)) == Isa.ResultFlags(carry != 0, result)
    ensures AbstractFlags(UpdatedFlags(flags, result)[CARRY := carry]) == Isa.ResultFlags(carry != 0, result)
    ensures AbstractFlags(UpdatedFlags(flags, result)) == Isa.ResultFlags(flags[CARRY] != 0, result)
  {
  }

  // Only the accumulator and the flags differ.
  predicate AccumulatorIs(r: Core, c: Core, a: Byte, flags: Isa.Flags)
    requires CpuCore.Valid(c) && CpuCore.Valid(r)
  {
    r == c.(registers := c.registers[REG_A := a], flags := r.flags) && AbstractFlags(r.flags) == flags
  }

  lemma AddedEffect(c: Core, sum: nat)
    requires CpuCore.Valid(c) && sum < 512
    ensures AccumulatorIs(Added(c, sum), c, sum % 256, Isa.ResultFlags(sum > 255, sum % 256))
  {
    FlagsAfter(c.flags, sum / 256 % 2, sum % 256);
  }

  lemma SubtractedEffect(c: Core, difference: int)
    requires CpuCore.Valid(c)
    ensures AccumulatorIs(Subtracted(c, difference), c, difference % 256,
                          Isa.ResultFlags(difference < 0, difference % 256))
  {
    FlagsAfter(c.flags, if difference < 0 then 1 else 0, Wrap(difference));
  }

  lemma CombinedEffect(c: Core, result: Byte)
    requires CpuCore.Valid(c)
    ensures AccumulatorIs(Combined(c, result), c, result, Isa.ResultFlags(false, result))
  {
    FlagsAfter(c.flags, 0, result);
  }

  lemma ComparedEffect(c: Core, difference: int)
    requires CpuCore.Valid(c)
    ensures var r := UpdateFlags(SetCarry(c, if difference < 0 then 1 else 0), Wrap(difference));
            AccumulatorIs(r, c, c.registers[REG_A], Isa.ResultFlags(difference < 0, difference % 256))
  {
    FlagsAfter(c.flags, if difference < 0 then 1 else 0, Wrap(difference));
    assert c.registers[REG_A := c.registers[REG_A]] == c.registers;
  }

  predicate AluAgrees(c: Core)
    requires CpuCore.Valid(c) && Medium(c) < 8
  {
    var (a, flags) := Isa.AluResult(Medium(c), c.registers[REG_A], c.hiddenB, c.flags[CARRY] != 0);
    AccumulatorIs(AluOperation(c), c, a, flags)
  }

  lemma SumEffect(c: Core)
    requires CpuCore.Valid(c) && Medium(c) < 2
    ensures AluAgrees(c)
  {
    hide Added, AccumulatorIs, Isa.ResultFlags;
    var a: int, b: int := c.registers[REG_A], c.hiddenB;
    var carry := if Medium(c) == 1 && c.flags[CARRY] != 0 then 1 else 0;
    AddedEffect(c, a + b + carry);
  }

  lemma DifferenceEffect(c: Core)
    requires CpuCore.Valid(c) && 2 <= Medium(c) < 4
    ensures AluAgrees(c)
  {
    hide Subtracted, AccumulatorIs, Isa.ResultFlags;
    var a: int, b: int := c.registers[REG_A], c.hiddenB;
    var carry := if Medium(c) == 3 && c.flags[CARRY] != 0 then 1 else 0;
    SubtractedEffect(c, a - b - carry);
  }

  lemma AluEffect(c: Core)
    requires CpuCore.Valid(c) && Medium(c) < 8
    ensures AluAgrees(c)
  {
    hide Added, Subtracted, Combined, AccumulatorIs, Isa.ResultFlags, BitAnd, BitOr, BitXor;
    var a: int, b: int := c.registers[REG_A], c.hiddenB;
    match Medium(c) {
      case 4 => CombinedEffect(c, BitAnd(a, b));
      case 5 => CombinedEffect(c, BitXor(a, b));
      case 6 => CombinedEffect(c, BitOr(a, b));
      case 7 => ComparedEffect(c, a - b);
      case _ => if Medium(c) < 2 { SumEffect(c); } else { DifferenceEffect(c); }
    }
  }

  lemma AluFrame(c: Core)
    requires CpuCore.Valid(c) && Medium(c) < 8
    ensures var r := AluOperation(c); r == c.(registers := r.registers, flags := r.flags)
  {
    AluEffect(c);
  }

  lemma ShiftedEffect(c: Core, carry: Byte, a: Byte)
    requires CpuCore.Valid(c) && carry <= 1
    ensures AccumulatorIs(SetRegister(SetCarry(c, carry), REG_A, a), c, a, AbstractFlags(c.flags).(carry := carry != 0))
  {
  }

  function RotationOf(medium: nat): Isa.Rotation {
    match medium % 4
    case 0 => Isa.LeftCircular
    case 1 => Isa.RightCircular
    case 2 => Isa.LeftThroughCarry
    case _ => Isa.RightThroughCarry
  }

  predicate RotationAgrees(c: Core)
    requires CpuCore.Valid(c)
  {
    var (a, carry) := Isa.Rotated(RotationOf(Medium(c)), c.registers[REG_A], c.flags[CARRY] != 0);
    AccumulatorIs(RotateA(c), c, a, AbstractFlags(c.flags).(carry := carry))
  }

  lemma LeftEffect(c: Core)
    requires CpuCore.Valid(c) && Medium(c) % 4 in {0, 2}
    ensures RotationAgrees(c)
  {
    hide AbstractFlags, AccumulatorIs;
    var a: int, previous: int := c.registers[REG_A], c.flags[CARRY];
    ShiftedEffect(c, a / 128, Wrap(a * 2) + (if Medium(c) % 4 == 0 then a / 128 else previous));
  }

  lemma RightEffect(c: Core)
    requires CpuCore.Valid(c) && Medium(c) % 4 in {1, 3}
    ensures RotationAgrees(c)
  {
    hide AbstractFlags, AccumulatorIs;
    var a: int, previous: int := c.registers[REG_A], c.flags[CARRY];
    ShiftedEffect(c, a % 2, a / 2 + (if Medium(c) % 4 == 1 then a % 2 * 128 else previous * 128));
  }

  lemma RotateEffect(c: Core)
    requires CpuCore.Valid(c)
    ensures RotationAgrees(c)
  {
    hide RotationAgrees;
    if Medium(c) % 4 in {0, 2} {
      LeftEffect(c);
    } else {
      RightEffect(c);
    }
  }

  lemma RotateFrame(c: Core)
    requires CpuCore.Valid(c)
    ensures var r := RotateA(c); r == c.(registers := r.registers, flags := r.flags)
  {
    hide RotateA, Isa.Rotated, AbstractFlags;
    RotateEffect(c);
  }

  lemma StepEffect(c: Core, delta: int)
    requires CpuCore.Valid(c) && 0 < Medium(c) < 7
    ensures var r := StepRegister(c, delta);
            var value := Wrap(c.registers[Medium(c)] as int + delta);
            && r == c.(registers := c.registers[Medium(c) := value], flags := r.flags)
            && AbstractFlags(r.flags) == Isa.ResultFlags(c.flags[CARRY] != 0, value)
  {
    FlagsAfter(c.flags, 0, Wrap(c.registers[Medium(c)] as int + delta));
  }

  // T4 and T5 of the current cycle go through, and leave r.
  predicate Leaves(c: Core, r: Core)
    requires CpuCore.Valid(c)
  {
    GoesOn(c) && LastStates(c) == r && Finished(r)
  }

  // The T3 of memory cycle k of a decoded instruction is done, and T4 follows.
  predicate InCycle(c: Core, k: nat) {
    && CpuCore.Valid(c)
    && !c.faulted
    && c.decoded.Some?
    && Medium(c) < 8 && Low(c) < 8
    && c.memoryCycle == k
    && (k == 0 <==> c.cycleControl.PCI?)
    && !c.cycleEnded
  }

  // The last two states, from what their actions do.
  lemma LastActions(c: Core, a4: Byte, a5: Byte, c4: Core, r: Core)
    requires CpuCore.Valid(c) && CpuCore.Valid(c4) && c.decoded.Some? && !c.cycleEnded
    requires T4Action(c) == a4 && T5Action(c) == a5 && !HasCycleEnd(a4)
    requires T4Effect(c.(state := T4), Masked(a4)) == c4
    requires c4.decoded == c.decoded && c4.memoryCycle == c.memoryCycle && !c4.cycleEnded && !c4.faulted
    requires T5Effect(c4.(state := T5), Masked(a5)).(cycleEnded := true) == r && !r.faulted
    ensures Leaves(c, r)
  {
    hide Row, T4Effect, T5Effect, Masked, HasCycleEnd;
    assert T4Action(c.(state := T4)) == a4 && T5Action(c4.(state := T5)) == a5;
  }

  function Moved(c: Core): (r: Core)
    requires CpuCore.Valid(c) && Medium(c) < 7 && Low(c) < 7
    ensures CpuCore.Valid(r)
  {
    var b := c.registers[Low(c)];
    SetRegister(c, Medium(c), b).(state := T5, hiddenB := b, cycleEnded := true)
  }

  lemma MoveStates(c: Core)
    requires InCycle(c, 0) && Name(c) == Lrr && Medium(c) < 7 && Low(c) < 7
    ensures Leaves(c, Moved(c))
  {
    hide AluOperation, RotateA, StepRegister, PackedFlags, SetLow, SetHigh, Pushed, Popped;
    var c4 := c.(state := T4, hiddenB := c.registers[Low(c)]);
    LastActions(c, SOURCE_TO_REG_B, REG_B_TO_DESTINATION, c4, Moved(c));
  }

  lemma IncrementStates(c: Core)
    requires InCycle(c, 0) && Name(c) in {INr, DCr} && 0 < Medium(c) < 7
    ensures Leaves(c, StepRegister(c.(state := T5), if Name(c) == INr then 1 else -1).(cycleEnded := true))
  {
    hide AluOperation, RotateA, StepRegister, PackedFlags, SetLow, SetHigh, Pushed, Popped;
    StepEffect(c.(state := T5), if Name(c) == INr then 1 else -1);
    LastActions(c, IDLE, if Name(c) == INr then INC_DESTINATION else DEC_DESTINATION, c.(state := T4),
                StepRegister(c.(state := T5), if Name(c) == INr then 1 else -1).(cycleEnded := true));
  }

  lemma RegisterAluStates(c: Core)
    requires InCycle(c, 0) && Name(c) == ALU_OPr && Low(c) < 7
    ensures Leaves(c, AluOperation(c.(state := T5, hiddenB := c.registers[Low(c)])).(cycleEnded := true))
  {
    hide AluOperation, RotateA, StepRegister, PackedFlags, SetLow, SetHigh, Pushed, Popped;
    var c4 := c.(state := T4, hiddenB := c.registers[Low(c)]);
    AluFrame(c4.(state := T5));
    LastActions(c, SOURCE_TO_REG_B, ALU_OPERATION_WITH_REG_B, c4, AluOperation(c4.(state := T5)).(cycleEnded := true));
  }

  lemma RotationStates(c: Core)
    requires InCycle(c, 0) && Name(c) in {RLC, RRC, RAL, RAR}
    ensures Leaves(c, RotateA(c.(state := T5)).(cycleEnded := true))
  {
    hide AluOperation, RotateA, StepRegister, PackedFlags, SetLow, SetHigh, Pushed, Popped;
    RotateFrame(c.(state := T5));
    LastActions(c, IDLE, ROTATE_A, c.(state := T4), RotateA(c.(state := T5)).(cycleEnded := true));
  }

  lemma ReturnStates(c: Core)
    requires InCycle(c, 0) && Name(c) in {RET, RFc, RTc}
    ensures Leaves(c, c.(state := T5, stack := Popped(c.stack), cycleEnded := true))
  {
    hide AluOperation, RotateA, StepRegister, PackedFlags, SetLow, SetHigh, Pushed, Popped;
    var c4 := c.(state := T4, stack := Popped(c.stack));
    LastActions(c, POP_STACK, IDLE, c4, c4.(state := T5, cycleEnded := true));
  }

  lemma RestartStates(c: Core)
    requires InCycle(c, 0) && Name(c) == RST && c.hiddenA == 0
    ensures var s := SetLow(SetHigh(Pushed(c.stack), 0), Wrap(Medium(c) * 8));
            Leaves(c, c.(state := T5, stack := s, cycleEnded := true))
  {
    hide AluOperation, RotateA, StepRegister, PackedFlags, SetLow, SetHigh, Pushed, Popped;
    var c4 := c.(state := T4, stack := SetHigh(Pushed(c.stack), 0));
    LastActions(c, PUSH_AND_REG_A_TO_PC_H, REG_B_TO_PC_L_3_TO_5, c4,
                c4.(state := T5, stack := SetLow(c4.stack, Wrap(Medium(c) * 8)), cycleEnded := true));
  }

  lemma LoadStates(c: Core)
    requires InCycle(c, 1) && Name(c) in {LrM, LrI} && Medium(c) < 7
    ensures Leaves(c, SetRegister(c, Medium(c), c.hiddenB).(state := T5, cycleEnded := true))
  {
    hide AluOperation, RotateA, StepRegister, PackedFlags, SetLow, SetHigh, Pushed, Popped;
    LastActions(c, IDLE, REG_B_TO_DESTINATION, c.(state := T4),
                SetRegister(c, Medium(c), c.hiddenB).(state := T5, cycleEnded := true));
  }

  lemma OperandAluStates(c: Core)
    requires InCycle(c, 1) && Name(c) in {ALU_OPM, ALU_OPI}
    ensures Leaves(c, AluOperation(c.(state := T5)).(cycleEnded := true))
  {
    hide AluOperation, RotateA, StepRegister, PackedFlags, SetLow, SetHigh, Pushed, Popped;
    AluFrame(c.(state := T5));
    LastActions(c, IDLE, ALU_OPERATION_WITH_REG_B, c.(state := T4), AluOperation(c.(state := T5)).(cycleEnded := true));
  }

  lemma InputStates(c: Core)
    requires InCycle(c, 1) && c.cycleControl.PCC? && Name(c) == INP
    ensures Leaves(c, SetRegister(c, REG_A, c.hiddenB).(state := T5, ioDataLatch := PackedFlags(c.flags),
                                                        cycleEnded := true))
  {
    hide AluOperation, RotateA, StepRegister, PackedFlags, SetLow, SetHigh, Pushed, Popped;
    var c4 := c.(state := T4, ioDataLatch := PackedFlags(c.flags));
    LastActions(c, OUT_CONDITIONS_FLAGS, REG_B_TO_A, c4,
                SetRegister(c4, REG_A, c.hiddenB).(state := T5, cycleEnded := true));
  }

  lemma JumpStates(c: Core)
    requires InCycle(c, 2) && c.cycleControl.PCR? && Name(c) in {JMP, JFc, JTc}
    ensures var s := SetLow(SetHigh(c.stack, c.hiddenA), c.hiddenB);
            Leaves(c, c.(state := T5, stack := s, cycleEnded := true))
  {
    hide AluOperation, RotateA, StepRegister, PackedFlags, SetLow, SetHigh, Pushed, Popped;
    var c4 := c.(state := T4, stack := SetHigh(c.stack, c.hiddenA));
    LastActions(c, REG_A_TO_PC_H, REG_B_TO_PC_L, c4,
                c4.(state := T5, stack := SetLow(c4.stack, c.hiddenB), cycleEnded := true));
  }

  lemma CallStates(c: Core)
    requires InCycle(c, 2) && c.cycleControl.PCR? && Name(c) in {CAL, CFc, CTc}
    ensures var s := SetLow(SetHigh(Pushed(c.stack), c.hiddenA), c.hiddenB);
            Leaves(c, c.(state := T5, stack := s, cycleEnded := true))
  {
    hide AluOperation, RotateA, StepRegister, PackedFlags, SetLow, SetHigh, Pushed, Popped;
    var c4 := c.(state := T4, stack := SetHigh(Pushed(c.stack), c.hiddenA));
    LastActions(c, PUSH_AND_REG_A_TO_PC_H, REG_B_TO_PC_L, c4,
                c4.(state := T5, stack := SetLow(c4.stack, c.hiddenB), cycleEnded := true));
  }

  lemma ConditionEffect(c: Core)
    requires CpuCore.Valid(c) && Medium(c) < 8
    ensures Isa.Holds(Isa.ConditionNumber(Medium(c)), AbstractFlags(c.flags)) <==> ConditionVerified(c)
  {
    assert Medium(c) % 4 in {0, 1, 2, 3};
  }

  // The flags of a result, bit by bit: zero, sign and an even number of ones.
  lemma FlagsOfResult(carry: bool, x: Byte)
    ensures var ones := x % 2 + x / 2 % 2 + x / 4 % 2 + x / 8 % 2 + x / 16 % 2 + x / 32 % 2 + x / 64 % 2 + x / 128 % 2;
            Isa.ResultFlags(carry, x) == Isa.Flags(carry, x == 0, x / 128 % 2 == 1, ones % 2 == 0)
  {
    hide Ones;
    OnesAreBits(x);
  }

  // The bytes that the processor keeps for them: 1, but 0x80 for the sign.
  lemma FlagsKept(flags: seq<Byte>, x: Byte)
    requires |flags| == 4
    ensures var ones := x % 2 + x / 2 % 2 + x / 4 % 2 + x / 8 % 2 + x / 16 % 2 + x / 32 % 2 + x / 64 % 2 + x / 128 % 2;
            var r := UpdatedFlags(flags, x);
            && r[ZERO] == (if x == 0 then 1 else 0)
            && r[SIGN] == (if x >= 128 then 0x80 else 0)
            && r[PARITY] == (if ones % 2 == 0 then 1 else 0)
            && r[CARRY] == flags[CARRY]
  {
    hide Ones;
    OnesAreBits(x);
  }

  // The byte driven in T2 has the kind of the cycle in its two high bits.
  lemma DrivenInT2(c: Core)
    requires c.state.T2?
    ensures Driven(c) % 64 == c.ioDataLatch % 64
    ensures Driven(c) / 64 == match c.cycleControl case PCI => 0 case PCR => 1 case PCC => 2 case PCW => 3
    ensures CycleControlOf(Driven(c)) == c.cycleControl
  {
  }
}
