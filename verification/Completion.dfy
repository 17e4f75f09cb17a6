/** For each kind of instruction, its states and its effect: the cases of the refinement. */
module Completion {
  import opened Bytes
  import opened Microcode
  import opened CpuCore
  import opened BusMachine
  import opened AddressStacks
  import opened Cycles
  import opened Effects
  import opened Instructions
  import Isa

  lemma MoveMeaning(board: Isa.Board, c: Core, memory: seq<Byte>, io: seq<nat>, opcode: Byte)
    requires CpuCore.Valid(c) && Medium(c) < 7 && Low(c) < 7 && |memory| == Isa.SPACE
    ensures Isa.Execute(board, Arch(c, memory, io), Isa.LoadRegister(Medium(c), Isa.FromRegister(Low(c))), opcode)
            == Arch(Moved(c), memory, io)
  {
  }

  lemma MoveCompletes(board: Isa.Board, m: Machine, start: Isa.Start, d: nat, r: nat)
    requires Begins(m, start) && Decode(Code(m, start)) == Decoded(Lrr, d, r) && d < 7 && r < 7
    ensures Behaves(board, m, start, Isa.LoadRegister(d, Isa.FromRegister(r)))
  {
    hide Run, Decode, Leaves, AfterT3, AfterOpcode, CompletesIn, CanBegin, Code, Moved, Arch, Isa.Execute;
    var c := AfterT3(m, start).core;
    Decoded3(m, start);
    MoveStates(c);
    SingleCycle(board, m, start, Moved(c));
    MoveMeaning(board, c, m.memory, m.io, Code(m, start));
  }

  lemma IncrementMeaning(board: Isa.Board, c: Core, memory: seq<Byte>, io: seq<nat>, opcode: Byte, delta: int)
    requires CpuCore.Valid(c) && 0 < Medium(c) < 7 && |memory| == Isa.SPACE && delta in {1, -1}
    ensures var i := if delta == 1 then Isa.Increment(Medium(c)) else Isa.Decrement(Medium(c));
            Isa.Execute(board, Arch(c, memory, io), i, opcode)
            == Arch(StepRegister(c.(state := T5), delta).(cycleEnded := true), memory, io)
  {
    hide StepRegister;
    StepEffect(c.(state := T5), delta);
  }

  lemma IncrementCompletes(board: Isa.Board, m: Machine, start: Isa.Start, name: InstructionName, d: nat, l: nat)
    requires Begins(m, start) && Decode(Code(m, start)) == Decoded(name, d, l) && 0 < d < 7
    requires name in {INr, DCr}
    ensures Behaves(board, m, start, if name == INr then Isa.Increment(d) else Isa.Decrement(d))
  {
    hide Run, Decode, Leaves, AfterT3, AfterOpcode, CompletesIn, CanBegin, Code, StepRegister, Arch, Isa.Execute;
    var c := AfterT3(m, start).core;
    var delta := if name == INr then 1 else -1;
    Decoded3(m, start);
    IncrementStates(c);
    SingleCycle(board, m, start, StepRegister(c.(state := T5), delta).(cycleEnded := true));
    IncrementMeaning(board, c, m.memory, m.io, Code(m, start), delta);
  }

  lemma AluMeaning(board: Isa.Board, c: Core, before: Core, memory: seq<Byte>, io: seq<nat>, from: Isa.Operand,
      opcode: Byte)
    requires CpuCore.Valid(c) && CpuCore.Valid(before) && Medium(c) < 8 && |memory| == Isa.SPACE
    requires c.registers == before.registers && c.flags == before.flags
    requires Isa.Read(Arch(before, memory, io), from) == (c.hiddenB, Arch(c, memory, io))
    ensures Isa.Execute(board, Arch(before, memory, io), Isa.Alu(Medium(c), from), opcode)
            == Arch(AluOperation(c).(cycleEnded := true), memory, io)
  {
    hide AluOperation, Isa.AluResult, Isa.Read;
    AluEffect(c);
  }

  lemma RegisterAluCompletes(board: Isa.Board, m: Machine, start: Isa.Start, k: nat, r: nat)
    requires Begins(m, start) && Decode(Code(m, start)) == Decoded(ALU_OPr, k, r) && k < 8 && r < 7
    ensures Behaves(board, m, start, Isa.Alu(k, Isa.FromRegister(r)))
  {
    hide Run, Decode, Leaves, AfterT3, AfterOpcode, CompletesIn, CanBegin, Code, AluOperation, Isa.Execute;
    var c := AfterT3(m, start).core;
    Decoded3(m, start);
    RegisterAluStates(c);
    var c5 := c.(state := T5, hiddenB := c.registers[r]);
    SingleCycle(board, m, start, AluOperation(c5).(cycleEnded := true));
    AluMeaning(board, c5, c, m.memory, m.io, Isa.FromRegister(r), Code(m, start));
  }

  lemma RotationMeaning(board: Isa.Board, c: Core, memory: seq<Byte>, io: seq<nat>, opcode: Byte,
      rotation: Isa.Rotation)
    requires CpuCore.Valid(c) && |memory| == Isa.SPACE
    requires rotation == RotationOf(Medium(c))
    ensures Isa.Execute(board, Arch(c, memory, io), Isa.Rotate(rotation), opcode)
            == Arch(RotateA(c.(state := T5)).(cycleEnded := true), memory, io)
  {
    hide RotateA, Isa.Rotated;
    RotateEffect(c.(state := T5));
  }

  lemma RotationCompletes(board: Isa.Board, m: Machine, start: Isa.Start, name: InstructionName, d: nat, l: nat)
    requires Begins(m, start) && Decode(Code(m, start)) == Decoded(name, d, l) && name in {RLC, RRC, RAL, RAR}
    ensures Behaves(board, m, start, Isa.Rotate(RotationOf(d)))
  {
    hide Run, Decode, Leaves, AfterT3, AfterOpcode, CompletesIn, CanBegin, Code, RotateA, Arch, Isa.Execute;
    var c := AfterT3(m, start).core;
    Decoded3(m, start);
    RotationStates(c);
    SingleCycle(board, m, start, RotateA(c.(state := T5)).(cycleEnded := true));
    RotationMeaning(board, c, m.memory, m.io, Code(m, start), RotationOf(d));
  }

  lemma RestartAddress(n: nat)
    requires n < 8
    ensures Isa.Address(0, Wrap(n * 8)) == n * 8
  {
    var address: Byte := n * 8;
    assert Wrap(address) == address;
    assert Isa.Address(0, address) == address;
  }

  lemma RestartMeaning(board: Isa.Board, c: Core, memory: seq<Byte>, io: seq<nat>, opcode: Byte)
    requires CpuCore.Valid(c) && Medium(c) < 8 && |memory| == Isa.SPACE
    ensures var s := SetLow(SetHigh(Pushed(c.stack), 0), Wrap(Medium(c) * 8));
            Isa.Execute(board, Arch(c, memory, io), Isa.Restart(Medium(c)), opcode)
            == Arch(c.(state := T5, stack := s, cycleEnded := true), memory, io)
  {
    hide SetLow, SetHigh, Pushed, View, Isa.Address, Wrap;
    RestartAddress(Medium(c));
    ViewCall(c.stack, 0, Wrap(Medium(c) * 8));
  }

  lemma RestartCompletes(board: Isa.Board, m: Machine, start: Isa.Start, n: nat, l: nat)
    requires Begins(m, start) && Decode(Code(m, start)) == Decoded(RST, n, l) && n < 8
    ensures Behaves(board, m, start, Isa.Restart(n))
  {
    hide Run, Decode, Leaves, AfterT3, AfterOpcode, CompletesIn, CanBegin, Code, SetLow, SetHigh, Pushed, Arch,
      Isa.Execute;
    var c := AfterT3(m, start).core;
    Decoded3(m, start);
    RestartStates(c);
    SingleCycle(board, m, start,
                c.(state := T5, stack := SetLow(SetHigh(Pushed(c.stack), 0), Wrap(Medium(c) * 8)), cycleEnded := true));
    RestartMeaning(board, c, m.memory, m.io, Code(m, start));
  }

  // Returns and halts.

  // The condition of a return is that of its name, or none.
  function ConditionOf(name: InstructionName, d: nat): Isa.Condition {
    if name in {JMP, CAL, RET} then Isa.Always else Isa.ConditionNumber(d)
  }

  lemma PopMeaning(board: Isa.Board, c: Core, memory: seq<Byte>, io: seq<nat>, opcode: Byte, when: Isa.Condition)
    requires CpuCore.Valid(c) && |memory| == Isa.SPACE && Isa.Holds(when, AbstractFlags(c.flags))
    ensures Isa.Execute(board, Arch(c, memory, io), Isa.Return(when), opcode)
            == Arch(c.(state := T5, stack := Popped(c.stack), cycleEnded := true), memory, io)
  {
    hide Popped, View, Isa.Holds;
    ViewPop(c.stack);
  }

  lemma ReturnAction(name: InstructionName)
    requires name in {RET, RFc, RTc}
    ensures !HasCycleEnd(Row(name).cycle1.t3)
    ensures HasConditionalEnd(Row(name).cycle1.t3) <==> name != RET
  {
  }

  lemma ReturnCore(c: Core, start: Isa.Start, opcode: Byte)
    requires CpuCore.Valid(c) && Decode(opcode).name in {RET, RFc, RTc} && Decode(opcode).medium < 8
    requires Isa.Holds(ConditionOf(Decode(opcode).name, Decode(opcode).medium), AbstractFlags(c.flags))
    ensures var f := Fetched(c, start, opcode); !f.cycleEnded && f.flags == c.flags
  {
    hide Decode, EmitLow, Isa.Holds, AbstractFlags, Row, HasCycleEnd, HasConditionalEnd, ConditionVerified,
      Isa.ConditionNumber;
    var f := Fetching(c, start).(hiddenA := 0, hiddenB := opcode, decoded := Some(Decode(opcode)));
    ReturnAction(Decode(opcode).name);
    ConditionEffect(f);
  }

  lemma ReturnCompletes(board: Isa.Board, m: Machine, start: Isa.Start, name: InstructionName, d: nat, l: nat)
    requires Begins(m, start) && Decode(Code(m, start)) == Decoded(name, d, l) && name in {RET, RFc, RTc}
    requires Isa.Holds(ConditionOf(name, d), AbstractFlags(m.core.flags))
    ensures Behaves(board, m, start, Isa.Return(ConditionOf(name, d)))
  {
    hide Run, Decode, Leaves, AfterT3, AfterOpcode, CompletesIn, CanBegin, Popped, Arch, Isa.Execute, Isa.Holds,
      Fetched;
    hide AbstractFlags, Row, HasCycleEnd, ConditionOf, Isa.Opcode;
    var c := AfterT3(m, start).core;
    Decoded3(m, start);
    ReturnCore(m.core, start, Code(m, start));
    ReturnAction(name);
    ReturnStates(c);
    SingleCycle(board, m, start, c.(state := T5, stack := Popped(c.stack), cycleEnded := true));
    PopMeaning(board, c, m.memory, m.io, Code(m, start), ConditionOf(name, d));
  }

  lemma EndsInT3(m: Machine)
    requires BusMachine.Valid(m) && m.core.state == T3 && !m.core.faulted && m.core.cycleEnded
    requires m.core.nextCycleControl == PCI && m.core.decoded.Some? && Name(m.core) != HLT
    ensures AtBoundary(m) && Abstract(m) == Arch(m.core, m.memory, m.io)
  {
  }

  // A return whose condition does not hold ends in T3.
  lemma NoReturnCore(c: Core, start: Isa.Start, opcode: Byte)
    requires CpuCore.Valid(c) && Decode(opcode).name in {RFc, RTc} && Decode(opcode).medium < 8
    requires !Isa.Holds(Isa.ConditionNumber(Decode(opcode).medium), AbstractFlags(c.flags))
    ensures var f := Fetched(c, start, opcode);
            f.cycleEnded && f.nextCycleControl == PCI && f.decoded == Some(Decode(opcode))
  {
    hide Decode, EmitLow, Isa.Holds, AbstractFlags, Row, HasCycleEnd, HasConditionalEnd, ConditionVerified,
      Isa.ConditionNumber;
    var f := Fetching(c, start).(hiddenA := 0, hiddenB := opcode, decoded := Some(Decode(opcode)));
    ReturnAction(Decode(opcode).name);
    ConditionEffect(f);
  }

  lemma NoReturnState(m: Machine, start: Isa.Start)
    requires Begins(m, start) && DecodedName(m, start) in {RFc, RTc} && Decode(Code(m, start)).medium < 8
    requires !Isa.Holds(Isa.ConditionNumber(Decode(Code(m, start)).medium), AbstractFlags(m.core.flags))
    ensures AtBoundary(AfterT3(m, start)) && Abstract(AfterT3(m, start)) == AfterOpcode(m, start)
  {
    var m3 := AfterT3(m, start);
    assert !m.core.faulted;
    hide Run, Decode, AfterT3, CanBegin, Isa.Opcode, View, Isa.Holds, AtBoundary, Abstract, AfterOpcode, Arch, Fetched;
    NoReturnCore(m.core, start, Code(m, start));
    Decoded3(m, start);
    EndsInT3(m3);
  }

  lemma NoReturnMeaning(board: Isa.Board, s: Isa.Arch, when: Isa.Condition, opcode: Byte)
    requires Isa.WellFormed(s) && !Isa.Holds(when, s.flags)
    ensures Isa.Execute(board, s, Isa.Return(when), opcode) == s && Isa.StateCount(Isa.Return(when), s.flags) == 3
  {
    hide Isa.Holds;
  }

  lemma NoReturnCompletes(board: Isa.Board, m: Machine, start: Isa.Start, name: InstructionName, d: nat, l: nat)
    requires Begins(m, start) && Decode(Code(m, start)) == Decoded(name, d, l) && name in {RFc, RTc} && d < 8
    requires !Isa.Holds(Isa.ConditionNumber(d), AbstractFlags(m.core.flags))
    ensures Behaves(board, m, start, Isa.Return(Isa.ConditionNumber(d)))
  {
    assert AfterOpcode(m, start).flags == AbstractFlags(m.core.flags);
    hide Run, Decode, AfterT3, Underway, CanBegin, Isa.Opcode, Isa.Holds, AtBoundary, Abstract, AfterOpcode,
      AbstractFlags;
    hide Isa.Execute, Isa.StateCount, Isa.ConditionNumber;
    NoReturnState(m, start);
    NoReturnMeaning(board, AfterOpcode(m, start), Isa.ConditionNumber(d), Code(m, start));
    Opening(board, m, start);
  }

  // A halt ends in T3, and the processor stops in the state that follows.
  lemma HaltState(board: Isa.Board, m: Machine, jammed: Option<Byte>)
    requires BusMachine.Valid(m) && m.core.state == T3 && !m.core.faulted && m.core.cycleEnded
    requires m.core.decoded.Some? && Name(m.core) == HLT
    ensures Micro(board, m, jammed) == m.(core := m.core.(cycleControl := PCI, state := STOPPED))
    ensures InProgress(m) && AtBoundary(Micro(board, m, jammed))
  {
    assert ChangeState(m.core, m.interruptPending, true) == (m.core.(cycleControl := PCI), Some(STOPPED));
  }

  lemma HaltCompletes(board: Isa.Board, m: Machine, start: Isa.Start, d: nat, l: nat)
    requires Begins(m, start) && Decode(Code(m, start)) == Decoded(HLT, d, l)
    ensures Behaves(board, m, start, Isa.Halt)
  {
    hide Decode, AfterT3, CanBegin, Code, View, Micro, AtBoundary, InProgress;
    Decoded3(m, start);
    Opening(board, m, start);
    HaltState(board, AfterT3(m, start), Offered(start));
    assert Underway(board, m, start, 4);
  }

  // Instructions of several cycles.

  // The first cycle is over and the second one follows.
  lemma SecondCycle(m: Machine, start: Isa.Start)
    requires Begins(m, start) && DecodedName(m, start) !in {UNKNOWN, HLT, LMr}
    requires HasCycleEnd(Row(DecodedName(m, start)).cycle1.t3)
    ensures CanContinue(AfterT3(m, start))
  {
    hide Decode, CanBegin, View;
    Decoded3(m, start);
  }

  // A reading cycle at the data pointer or at the program counter reads that operand.
  function SourceOf(c: Core): Isa.Operand {
    if Following(c).t1 == Out_Reg_L then Isa.FromMemory else Isa.FromProgram
  }

  lemma OperandSource(c: Core)
    requires Name(c) in {LrM, LrI, ALU_OPM, ALU_OPI} && c.memoryCycle == 0
    ensures (Following(c).t1, Following(c).t2) in {(Out_Reg_L, Out_Reg_H), (Out_PC_L, Out_PC_H)}
    ensures SourceOf(c) == if Name(c) in {LrM, ALU_OPM} then Isa.FromMemory else Isa.FromProgram
  {
  }

  // What the fetch leaves as it was.
  lemma FetchedFrame(c: Core, start: Isa.Start, opcode: Byte)
    requires CpuCore.Valid(c)
    ensures var f := Fetched(c, start, opcode); f.registers == c.registers && f.flags == c.flags
  {
    hide Row, Decode, HasCycleEnd, HasConditionalEnd, ConditionVerified, EmitLow;
  }

  // What a reading cycle leaves as it was.
  lemma ReceivedFrame(c: Core, data: Byte)
    requires CpuCore.Valid(c)
    ensures var r := Received(c, data);
            r.registers == c.registers && r.flags == c.flags && r.stack == StackAfter(c) && r.decoded == c.decoded
  {
    hide Row, Masked, HasCycleEnd, HasConditionalEnd, ConditionVerified, EmitLow;
  }

  lemma OperandMeaning(board: Isa.Board, last: Machine)
    requires BusMachine.Valid(last) && last.core.nextCycleControl == PCR
    requires (Following(last.core).t1, Following(last.core).t2) in {(Out_Reg_L, Out_Reg_H), (Out_PC_L, Out_PC_H)}
    ensures Isa.Read(Arch(last.core, last.memory, last.io), SourceOf(last.core))
            == (Operand(board, last), Arch(AfterReading(board, last).core, last.memory, last.io))
  {
    hide View, Row, Received;
    ReceivedFrame(last.core, Operand(board, last));
    if SourceOf(last.core) == Isa.FromProgram {
      ViewEmitLow(last.core.stack, true);
    }
  }

  lemma ProgramMeaning(board: Isa.Board, last: Machine)
    requires BusMachine.Valid(last) && last.core.nextCycleControl == PCR
    requires Following(last.core).t1 == Out_PC_L && Following(last.core).t2 == Out_PC_H
    ensures var s := Arch(last.core, last.memory, last.io);
            && Isa.Next(s) == Operand(board, last)
            && Isa.Pass(s) == Arch(AfterReading(board, last).core, last.memory, last.io)
  {
    hide Isa.Next, Isa.Pass, Operand, Arch, AfterReading, Row;
    OperandMeaning(board, last);
  }

  lemma SecondOfOperand(m: Machine, start: Isa.Start)
    requires Begins(m, start) && DecodedName(m, start) in {LrM, LrI, ALU_OPM, ALU_OPI}
    ensures CanContinue(AfterT3(m, start)) && AfterT3(m, start).core.nextCycleControl == PCR
  {
    hide Decode, CanBegin, View;
    SecondCycle(m, start);
  }

  lemma ReceivedOperand(c: Core, data: Byte)
    requires CpuCore.Valid(c) && !c.faulted && c.decoded.Some? && Medium(c) < 8 && Low(c) < 8
    requires c.memoryCycle == 0 && c.nextCycleControl == PCR && Name(c) in {LrM, LrI, ALU_OPM, ALU_OPI}
    ensures InCycle(Received(c, data), 1) && Received(c, data).hiddenB == data
  {
  }

  // After the second cycle of an instruction that reads an operand there and goes on to T5.
  lemma OperandRead(board: Isa.Board, m: Machine, start: Isa.Start)
    requires Begins(m, start) && DecodedName(m, start) in {LrM, LrI, ALU_OPM, ALU_OPI}
    ensures CanContinue(AfterT3(m, start)) && AfterT3(m, start).core.nextCycleControl == PCR
    ensures var c := AfterReading(board, AfterT3(m, start)).core;
            && InCycle(c, 1)
            && c.hiddenB == Operand(board, AfterT3(m, start))
            && AfterReading(board, AfterT3(m, start)).io == m.io
  {
    hide Decode, CanBegin, View, Operand, Received, AfterT3, Row, Fetched;
    Decoded3(m, start);
    SecondOfOperand(m, start);
    ReceivedOperand(AfterT3(m, start).core, Operand(board, AfterT3(m, start)));
  }

  // Eight states: a fetch, a read, and its T4 and T5.
  lemma TwoCycles(board: Isa.Board, m: Machine, start: Isa.Start, r: Core)
    requires Begins(m, start) && DecodedName(m, start) in {LrM, LrI, ALU_OPM, ALU_OPI}
    requires Leaves(AfterReading(board, AfterT3(m, start)).core, r)
    ensures CompletesIn(board, m, start, 8, Arch(r, m.memory, m.io))
  {
    hide Run, Decode, Leaves, AfterT3, AfterReading, CanBegin, Underway, CompletesIn, Operand, CanContinue;
    var m3 := AfterT3(m, start);
    Opening(board, m, start);
    OperandRead(board, m, start);
    Reading(board, m, start, 3, m3);
    Closing(board, m, start, 6, AfterReading(board, m3), r);
  }

  // What the operand of the second cycle is.
  lemma SecondOperand(board: Isa.Board, m: Machine, start: Isa.Start)
    requires Begins(m, start) && DecodedName(m, start) in {LrM, LrI, ALU_OPM, ALU_OPI}
    ensures var from := if DecodedName(m, start) in {LrM, ALU_OPM} then Isa.FromMemory else Isa.FromProgram;
            var c := AfterReading(board, AfterT3(m, start)).core;
            Isa.Read(AfterOpcode(m, start), from) == (c.hiddenB, Arch(c, m.memory, m.io))
  {
    hide Decode, AfterT3, AfterReading, AfterOpcode, CanBegin, Arch, Isa.Read, Operand, Fetched, Row, SourceOf,
      Following;
    var m3 := AfterT3(m, start);
    Decoded3(m, start);
    OperandSource(m3.core);
    OperandRead(board, m, start);
    OperandMeaning(board, m3);
  }

  lemma LoadMeaning(board: Isa.Board, c: Core, before: Isa.Arch, memory: seq<Byte>, io: seq<nat>, from: Isa.Operand,
      opcode: Byte)
    requires CpuCore.Valid(c) && Medium(c) < 7 && Isa.WellFormed(before) && |memory| == Isa.SPACE
    requires Isa.Read(before, from) == (c.hiddenB, Arch(c, memory, io))
    ensures Isa.Execute(board, before, Isa.LoadRegister(Medium(c), from), opcode)
            == Arch(SetRegister(c, Medium(c), c.hiddenB).(state := T5, cycleEnded := true), memory, io)
  {
    hide Isa.Read;
  }

  // The core in T3 of the second cycle.
  function Core6(board: Isa.Board, m: Machine, start: Isa.Start): (c: Core)
    requires Begins(m, start)
    ensures CpuCore.Valid(c)
  {
    AfterReading(board, AfterT3(m, start)).core
  }

  lemma LoadCycles(board: Isa.Board, m: Machine, start: Isa.Start)
    requires Begins(m, start) && DecodedName(m, start) in {LrM, LrI} && Medium(Core6(board, m, start)) < 7
    ensures var c := Core6(board, m, start);
            CompletesIn(board, m, start, 8,
                        Arch(SetRegister(c, Medium(c), c.hiddenB).(state := T5, cycleEnded := true), m.memory, m.io))
  {
    hide Run, Decode, Leaves, AfterT3, AfterReading, CanBegin, Code, Arch, CompletesIn, Operand, CanContinue;
    var c := Core6(board, m, start);
    Decoded3(m, start);
    OperandRead(board, m, start);
    LoadStates(c);
    TwoCycles(board, m, start, SetRegister(c, Medium(c), c.hiddenB).(state := T5, cycleEnded := true));
  }

  lemma LoadCompletes(board: Isa.Board, m: Machine, start: Isa.Start, name: InstructionName, d: nat, l: nat)
    requires Begins(m, start) && Decode(Code(m, start)) == Decoded(name, d, l) && name in {LrM, LrI} && d < 7
    ensures Behaves(board, m, start, Isa.LoadRegister(d, if name == LrM then Isa.FromMemory else Isa.FromProgram))
  {
    hide Run, Decode, AfterT3, AfterReading, AfterOpcode, CanBegin, Code, Arch, Isa.Execute, Isa.Read, CompletesIn;
    var c := Core6(board, m, start);
    OperandDecoded(board, m, start);
    LoadCycles(board, m, start);
    SecondOperand(board, m, start);
    LoadMeaning(board, c, AfterOpcode(m, start), m.memory, m.io,
                if name == LrM then Isa.FromMemory else Isa.FromProgram, Code(m, start));
  }

  lemma OperandDecoded(board: Isa.Board, m: Machine, start: Isa.Start)
    requires Begins(m, start) && DecodedName(m, start) in {LrM, LrI, ALU_OPM, ALU_OPI}
    ensures Core6(board, m, start).decoded == Some(Decode(Code(m, start)))
    ensures AfterOpcode(m, start) == Arch(m.core.(stack := AfterT3(m, start).core.stack), m.memory, m.io)
    ensures Core6(board, m, start).registers == m.core.registers && Core6(board, m, start).flags == m.core.flags
  {
    hide Received, Row, AfterT3, Fetched, AbstractFlags, EmitLow, Decode, CanBegin, View, Operand;
    Decoded3(m, start);
    FetchedFrame(m.core, start, Code(m, start));
    ReceivedFrame(AfterT3(m, start).core, Operand(board, AfterT3(m, start)));
  }

  lemma OperandAluCycles(board: Isa.Board, m: Machine, start: Isa.Start)
    requires Begins(m, start) && DecodedName(m, start) in {ALU_OPM, ALU_OPI}
    ensures var c := Core6(board, m, start);
            CompletesIn(board, m, start, 8,
                        Arch(AluOperation(c.(state := T5)).(cycleEnded := true), m.memory, m.io))
  {
    hide Run, Decode, Leaves, AfterT3, AfterReading, CanBegin, Code, Arch, CompletesIn, Operand, CanContinue;
    hide AluOperation;
    var c := Core6(board, m, start);
    Decoded3(m, start);
    OperandRead(board, m, start);
    OperandAluStates(c);
    TwoCycles(board, m, start, AluOperation(c.(state := T5)).(cycleEnded := true));
  }

  lemma OperandAluCompletes(board: Isa.Board, m: Machine, start: Isa.Start, name: InstructionName, k: nat, l: nat)
    requires Begins(m, start) && Decode(Code(m, start)) == Decoded(name, k, l) && name in {ALU_OPM, ALU_OPI} && k < 8
    ensures Behaves(board, m, start, Isa.Alu(k, if name == ALU_OPM then Isa.FromMemory else Isa.FromProgram))
  {
    hide Row, Fetched, AbstractFlags, Run, Decode, AfterT3, AfterReading, AfterOpcode, CanBegin, Code, Isa.Execute,
      Isa.Read, CompletesIn;
    hide AluOperation;
    var c := Core6(board, m, start);
    OperandDecoded(board, m, start);
    OperandAluCycles(board, m, start);
    SecondOperand(board, m, start);
    AluMeaning(board, c.(state := T5), m.core.(stack := AfterT3(m, start).core.stack), m.memory, m.io,
               if name == ALU_OPM then Isa.FromMemory else Isa.FromProgram, Code(m, start));
  }

  // Input and output.

  lemma DeviceCycle(board: Isa.Board, m: Machine, start: Isa.Start)
    requires Begins(m, start) && DecodedName(m, start) in {INP, OUT}
    ensures var m3 := AfterT3(m, start);
            && CanContinue(m3) && m3.core.nextCycleControl == PCC
            && AfterT2Again(m3).address == Isa.Address(Code(m, start), m.core.registers[REG_A])
            && AfterT2Again(m3).control == PCC && m3.core.registers == m.core.registers
  {
    hide Decode, CanBegin, View;
    Decoded3(m, start);
    SecondCycle(m, start);
  }

  lemma DeviceAction(c: Core)
    requires Name(c) in {INP, OUT} && c.memoryCycle == 0
    ensures Masked(Following(c).t3) in {FETCH_DATA_TO_REG_B, IDLE} && !HasConditionalEnd(Following(c).t3)
  {
  }

  lemma InputCore(board: Isa.Board, m: Machine, start: Isa.Start)
    requires Begins(m, start) && DecodedName(m, start) == INP
    ensures var c := AfterReading(board, AfterT3(m, start)).core;
            && InCycle(c, 1) && c.cycleControl == PCC && Name(c) == INP
            && c.hiddenB == Operand(board, AfterT3(m, start))
            && c == AfterT3(m, start).core.(
                      state := T3, cycleControl := PCC, memoryCycle := 1, cycleEnded := false,
                      ioDataLatch := c.ioDataLatch, hiddenB := c.hiddenB)
  {
    hide Decode, CanBegin, View, Operand;
    Decoded3(m, start);
  }

  function InputDone(c: Core): (r: Core)
    requires CpuCore.Valid(c)
    ensures CpuCore.Valid(r)
  {
    SetRegister(c, REG_A, c.hiddenB).(state := T5, ioDataLatch := PackedFlags(c.flags), cycleEnded := true)
  }

  lemma InputCycles(board: Isa.Board, m: Machine, start: Isa.Start)
    requires Begins(m, start) && DecodedName(m, start) == INP
    ensures var last := AfterReading(board, AfterT3(m, start));
            CompletesIn(board, m, start, 8, Arch(InputDone(last.core), last.memory, last.io))
  {
    hide Row, Fetched, Operand, Run, Decode, Leaves, AfterT3, AfterReading, CanBegin, CanContinue, Arch,
      CompletesIn, Underway, Received;
    var m3 := AfterT3(m, start);
    Decoded3(m, start);
    Opening(board, m, start);
    DeviceCycle(board, m, start);
    DeviceAction(m3.core);
    Reading(board, m, start, 3, m3);
    InputCore(board, m, start);
    InputStates(AfterReading(board, m3).core);
    Closing(board, m, start, 6, AfterReading(board, m3), InputDone(AfterReading(board, m3).core));
  }

  lemma InputArch(board: Isa.Board, m: Machine, start: Isa.Start)
    requires Begins(m, start) && DecodedName(m, start) == INP
    ensures var last := AfterReading(board, AfterT3(m, start));
            Arch(InputDone(last.core), last.memory, last.io)
            == Isa.Execute(board, AfterOpcode(m, start), Isa.Input, Code(m, start))
  {
    hide Row, Fetched, Run, Decode, AfterT3, CanBegin, CanContinue, Code, View, Received, PackedFlags;
    Decoded3(m, start);
    DeviceCycle(board, m, start);
    InputCore(board, m, start);
  }

  lemma InputCompletes(board: Isa.Board, m: Machine, start: Isa.Start, d: nat, l: nat)
    requires Begins(m, start) && Decode(Code(m, start)) == Decoded(INP, d, l)
    ensures Behaves(board, m, start, Isa.Input)
  {
    hide Row, Fetched, Run, Decode, AfterT3, AfterReading, InputDone, CanBegin, CanContinue, Code, View, CompletesIn,
      Received, Isa.Execute, AfterOpcode, Arch;
    InputArch(board, m, start);
    InputCycles(board, m, start);
  }

  lemma OutputCore(board: Isa.Board, m: Machine, start: Isa.Start)
    requires Begins(m, start) && DecodedName(m, start) == OUT
    ensures var c := AfterReading(board, AfterT3(m, start)).core;
            && !c.faulted && c.state == T3 && c.cycleEnded && c.nextCycleControl == PCI
            && c.decoded.Some? && Name(c) == OUT
            && c.registers == m.core.registers && c.flags == m.core.flags && c.stack == AfterT3(m, start).core.stack
  {
    hide Decode, CanBegin, View, Operand;
    Decoded3(m, start);
  }

  lemma OutputCompletes(board: Isa.Board, m: Machine, start: Isa.Start, d: nat, l: nat)
    requires Begins(m, start) && Decode(Code(m, start)) == Decoded(OUT, d, l)
    ensures Behaves(board, m, start, Isa.Output)
  {
    hide Row, Fetched, Run, Decode, AfterT3, CanBegin, CanContinue, View, Underway, Received, Operand;
    var m3 := AfterT3(m, start);
    Decoded3(m, start);
    Opening(board, m, start);
    DeviceCycle(board, m, start);
    DeviceAction(m3.core);
    Reading(board, m, start, 3, m3);
    OutputCore(board, m, start);
  }

  // Stores.

  // A register is copied to the hidden register in T4, and the write follows.
  function AfterT4(m: Machine, start: Isa.Start): (r: Machine)
    requires Begins(m, start) && Low(AfterT3(m, start).core) < 7
    ensures BusMachine.Valid(r)
  {
    var m3 := AfterT3(m, start);
    m3.(core := m3.core.(state := T4, hiddenB := m3.core.registers[Low(m3.core)], cycleEnded := true,
                         nextCycleControl := PCW))
  }

  lemma StoreT4(board: Isa.Board, m: Machine, jammed: Option<Byte>)
    requires BusMachine.Valid(m) && InCycle(m.core, 0) && m.core.state == T3 && Name(m.core) == LMr && Low(m.core) < 7
    ensures InProgress(m)
    ensures Micro(board, m, jammed)
            == m.(core := m.core.(state := T4, hiddenB := m.core.registers[Low(m.core)], cycleEnded := true,
                                  nextCycleControl := PCW))
  {
    hide ExecuteT1, ExecuteT2, ExecuteT3, ExecuteT5, ExecuteT1I;
    assert ChangeState(m.core, m.interruptPending, true) == (m.core, Some(T4));
  }

  lemma StoreContinues(m: Machine, start: Isa.Start)
    requires Begins(m, start) && DecodedName(m, start) == LMr && Low(AfterT3(m, start).core) < 7
    ensures InCycle(AfterT3(m, start).core, 0) && Name(AfterT3(m, start).core) == LMr
    ensures CanContinue(AfterT4(m, start)) && Following(AfterT4(m, start).core) == MEMORY_WRITE
  {
    hide Decode, CanBegin, Code, View;
    Decoded3(m, start);
  }

  lemma OneMoreState(board: Isa.Board, m: Machine, start: Isa.Start, k: nat, last: Machine)
    requires BusMachine.Valid(m) && BusMachine.Valid(last) && Run(board, m, start, k) == last
    requires Underway(board, m, start, k) && InProgress(last)
    ensures Underway(board, m, start, k + 1) && Run(board, m, start, k + 1) == Micro(board, last, Offered(start))
  {
    hide InProgress, Micro;
  }

  lemma StoreRegisterCycles(board: Isa.Board, m: Machine, start: Isa.Start)
    requires Begins(m, start) && DecodedName(m, start) == LMr && Low(AfterT3(m, start).core) < 7
    ensures Underway(board, m, start, 7) && Run(board, m, start, 7) == AfterWriting(board, AfterT4(m, start))
  {
    var m3, m4 := AfterT3(m, start), AfterT4(m, start);
    hide Decode, CanBegin, CanContinue, Code, View, Micro, InProgress, AfterT3, AfterWriting, InCycle, Run, Underway;
    Opening(board, m, start);
    StoreContinues(m, start);
    StoreT4(board, m3, Offered(start));
    OneMoreState(board, m, start, 3, m3);
    Writing(board, m, start, 4, m4);
  }

  // A writing cycle that ends an instruction is a write at the data pointer.
  lemma WriteMeaning(board: Isa.Board, last: Machine)
    requires BusMachine.Valid(last) && CanContinue(last)
    requires last.core.nextCycleControl == PCW && Following(last.core) == MEMORY_WRITE
    requires last.core.memoryCycle == 0 ==> Name(last.core) == LMr
    ensures AtBoundary(AfterWriting(board, last))
    ensures var before := Arch(last.core, last.memory, last.io);
            Abstract(AfterWriting(board, last)) == Isa.Write(board, before, Isa.Pointer(before), last.core.hiddenB)
  {
    hide View;
  }

  lemma StoreRegisterCompletes(board: Isa.Board, m: Machine, start: Isa.Start, d: nat, r: nat)
    requires Begins(m, start) && Decode(Code(m, start)) == Decoded(LMr, d, r) && r < 7
    ensures Behaves(board, m, start, Isa.StoreRegister(r))
  {
    hide Run, Decode, CanBegin, CanContinue, Code, View, AfterT3, AfterWriting, Underway, Isa.Write, AtBoundary;
    Decoded3(m, start);
    var m4 := AfterT4(m, start);
    StoreContinues(m, start);
    StoreRegisterCycles(board, m, start);
    WriteMeaning(board, m4);
  }

  // The second cycle of an instruction of three cycles reads the low operand.
  predicate HasThreeCycles(name: InstructionName) {
    name in {LMI, JMP, JFc, JTc, CAL, CFc, CTc}
  }

  lemma LowOperandFollows(m: Machine, start: Isa.Start)
    requires Begins(m, start) && HasThreeCycles(DecodedName(m, start))
    ensures CanContinue(AfterT3(m, start)) && AfterT3(m, start).core.nextCycleControl == PCR
    ensures Following(AfterT3(m, start).core) == LOW_OPERAND
  {
    hide Decode, CanBegin, View;
    Decoded3(m, start);
    SecondCycle(m, start);
  }

  lemma ReceivedLow(c: Core, data: Byte)
    requires CpuCore.Valid(c) && !c.faulted && c.decoded.Some? && c.memoryCycle == 0 && Following(c) == LOW_OPERAND
    ensures var r := Received(c, data);
            && r.state == T3 && r.cycleEnded && r.memoryCycle == 1 && r.decoded == c.decoded && r.hiddenB == data
            && r.nextCycleControl == Row(Name(c)).cycle3.cc
            && r.registers == c.registers && r.flags == c.flags
            && r == c.(state := T3, cycleControl := c.nextCycleControl, memoryCycle := 1, cycleEnded := true,
                       nextCycleControl := Row(Name(c)).cycle3.cc, stack := EmitLow(c.stack, true), hiddenB := data,
                       ioDataLatch := r.ioDataLatch)
  {
  }

  lemma LowOperand(board: Isa.Board, m: Machine, start: Isa.Start)
    requires Begins(m, start) && HasThreeCycles(DecodedName(m, start))
    ensures var last := AfterReading(board, AfterT3(m, start));
            && CanContinue(last)
            && last.core.memoryCycle == 1 && last.io == m.io
            && last.core.nextCycleControl == Row(DecodedName(m, start)).cycle3.cc
            && last.core.decoded == Some(Decode(Code(m, start)))
            && last.core.hiddenB == Operand(board, AfterT3(m, start))
            && last.core.registers == m.core.registers && last.core.flags == m.core.flags
  {
    hide Decode, CanBegin, View, Operand, Received, Continuing;
    Decoded3(m, start);
    LowOperandFollows(m, start);
    ReceivedLow(AfterT3(m, start).core, Operand(board, AfterT3(m, start)));
  }

  lemma TwoReads(board: Isa.Board, m: Machine, start: Isa.Start)
    requires Begins(m, start) && HasThreeCycles(DecodedName(m, start))
    ensures Underway(board, m, start, 6) && Run(board, m, start, 6) == AfterReading(board, AfterT3(m, start))
  {
    hide Row, Fetched, Run, Decode, AfterT3, AfterReading, CanBegin, CanContinue, Underway, Operand;
    var m3 := AfterT3(m, start);
    Opening(board, m, start);
    LowOperandFollows(m, start);
    assert Masked(LOW_OPERAND.t3) == FETCH_DATA_TO_REG_B && !HasConditionalEnd(LOW_OPERAND.t3);
    Reading(board, m, start, 3, m3);
  }

  // What the low operand is, and the state once it is read.
  lemma LowOperandMeaning(board: Isa.Board, m: Machine, start: Isa.Start)
    requires Begins(m, start) && HasThreeCycles(DecodedName(m, start))
    ensures var c := AfterReading(board, AfterT3(m, start)).core;
            && Isa.Next(AfterOpcode(m, start)) == c.hiddenB
            && Isa.Pass(AfterOpcode(m, start)) == Arch(c, m.memory, m.io)
  {
    hide Decode, AfterT3, AfterReading, AfterOpcode, CanBegin, Arch, Operand, CanContinue, Row, Isa.Next, Isa.Pass;
    var m3 := AfterT3(m, start);
    Decoded3(m, start);
    LowOperandFollows(m, start);
    LowOperand(board, m, start);
    ProgramMeaning(board, m3);
  }

  lemma StoreAction(c: Core)
    requires Name(c) == LMI && c.memoryCycle == 1
    ensures Following(c) == MEMORY_WRITE && Row(Name(c)).cycle3.cc == PCW
  {
  }

  lemma StoreProgramCompletes(board: Isa.Board, m: Machine, start: Isa.Start, d: nat, l: nat)
    requires Begins(m, start) && Decode(Code(m, start)) == Decoded(LMI, d, l)
    ensures Behaves(board, m, start, Isa.StoreProgram)
  {
    hide Row, Fetched, Run, Decode, CanBegin, CanContinue, Code, View, AfterT3, AfterReading, AfterWriting,
      AfterOpcode, Underway, Isa.Write, AtBoundary;
    var m6 := AfterReading(board, AfterT3(m, start));
    LowOperand(board, m, start);
    LowOperandMeaning(board, m, start);
    TwoReads(board, m, start);
    StoreAction(m6.core);
    Writing(board, m, start, 6, m6);
    WriteMeaning(board, m6);
  }

  // Jumps and calls.

  predicate IsTransfer(name: InstructionName) {
    name in {JMP, JFc, JTc, CAL, CFc, CTc}
  }

  // The machine in T3 of the third cycle.
  function AfterHigh(board: Isa.Board, m: Machine, start: Isa.Start): (r: Machine)
    requires Begins(m, start)
    ensures BusMachine.Valid(r)
  {
    AfterReading(board, AfterReading(board, AfterT3(m, start)))
  }

  lemma ReceivedHigh(c: Core, data: Byte)
    requires CpuCore.Valid(c) && !c.faulted && c.decoded.Some? && c.memoryCycle == 1 && IsTransfer(Name(c))
    requires c.nextCycleControl == PCR
    ensures var r := Received(c, data);
            var ends := Name(c) !in {JMP, CAL} && !ConditionVerified(c);
            r == c.(state := T3, cycleControl := PCR, memoryCycle := 2, cycleEnded := ends,
                    nextCycleControl := if ends then PCI else PCR, stack := EmitLow(c.stack, true), hiddenA := data,
                    ioDataLatch := r.ioDataLatch)
  {
  }

  lemma HighAction(c: Core)
    requires IsTransfer(Name(c)) && c.memoryCycle == 1
    ensures Masked(Following(c).t3) == FETCH_DATA_TO_REG_A && !HasCycleEnd(Following(c).t3)
    ensures Row(Name(c)).cycle3.cc == PCR
  {
  }

  lemma ThreeReads(board: Isa.Board, m: Machine, start: Isa.Start)
    requires Begins(m, start) && IsTransfer(DecodedName(m, start))
    ensures Underway(board, m, start, 9) && Run(board, m, start, 9) == AfterHigh(board, m, start)
  {
    hide Row, Fetched, Run, Decode, AfterT3, AfterReading, CanBegin, CanContinue, Underway, Operand;
    var m6 := AfterReading(board, AfterT3(m, start));
    TwoReads(board, m, start);
    LowOperand(board, m, start);
    HighAction(m6.core);
    Reading(board, m, start, 6, m6);
  }

  lemma HighOperand(board: Isa.Board, m: Machine, start: Isa.Start)
    requires Begins(m, start) && IsTransfer(DecodedName(m, start))
    ensures var m6, m9 := AfterReading(board, AfterT3(m, start)), AfterHigh(board, m, start);
            var c := m6.core;
            var ends := Name(c) !in {JMP, CAL} && !ConditionVerified(c);
            && m9.core == c.(state := T3, cycleControl := PCR, memoryCycle := 2, cycleEnded := ends,
                             nextCycleControl := if ends then PCI else PCR, stack := EmitLow(c.stack, true),
                             hiddenA := Operand(board, m6), ioDataLatch := m9.core.ioDataLatch)
            && m9.memory == m.memory && m9.io == m.io && !c.faulted
            && c.decoded == Some(Decode(Code(m, start))) && c.registers == m.core.registers && c.flags == m.core.flags
  {
    hide Decode, AfterT3, CanBegin, Operand, Received, Continuing;
    LowOperand(board, m, start);
    ReceivedHigh(AfterReading(board, AfterT3(m, start)).core, Operand(board, AfterReading(board, AfterT3(m, start))));
  }

  lemma ThirdCycle(board: Isa.Board, m: Machine, start: Isa.Start)
    requires Begins(m, start) && IsTransfer(DecodedName(m, start))
    ensures var m6 := AfterReading(board, AfterT3(m, start));
            && m6.core.nextCycleControl == PCR && m6.io == m.io
            && Following(m6.core).t1 == Out_PC_L && Following(m6.core).t2 == Out_PC_H
  {
    hide Decode, AfterT3, CanBegin, Operand, Received;
    LowOperand(board, m, start);
  }

  // What the high operand is, and the state once it is read.
  lemma HighOperandMeaning(board: Isa.Board, m: Machine, start: Isa.Start)
    requires Begins(m, start) && IsTransfer(DecodedName(m, start))
    ensures var s1 := Isa.Pass(AfterOpcode(m, start));
            && Isa.Next(s1) == Operand(board, AfterReading(board, AfterT3(m, start)))
            && Isa.Pass(s1) == Arch(AfterHigh(board, m, start).core, m.memory, m.io)
  {
    hide Decode, AfterT3, AfterReading, AfterOpcode, CanBegin, Arch, Operand, Row, Following, Isa.Next, Isa.Pass;
    LowOperandMeaning(board, m, start);
    ThirdCycle(board, m, start);
    ProgramMeaning(board, AfterReading(board, AfterT3(m, start)));
  }

  // The instruction of a jump or a call.
  function TransferOf(name: InstructionName, d: nat): Isa.Instr {
    if name in {JMP, JFc, JTc} then Isa.Jump(ConditionOf(name, d)) else Isa.Call(ConditionOf(name, d))
  }

  // A jump or a call whose condition does not hold ends in T3 of the third cycle.
  lemma NoTransfer(board: Isa.Board, m: Machine, start: Isa.Start, name: InstructionName, d: nat, l: nat)
    requires Begins(m, start) && Decode(Code(m, start)) == Decoded(name, d, l) && name in {JFc, JTc, CFc, CTc} && d < 8
    requires !Isa.Holds(Isa.ConditionNumber(d), AbstractFlags(m.core.flags))
    ensures var m9 := AfterHigh(board, m, start);
            AtBoundary(m9) && Abstract(m9) == Arch(m9.core, m.memory, m.io)
  {
    hide Decode, CanBegin, Code, View, AfterT3, AfterReading, AfterHigh, Isa.Holds, Operand, AtBoundary, Abstract, Arch;
    HighOperand(board, m, start);
    var c := AfterReading(board, AfterT3(m, start)).core;
    ConditionEffect(c);
    EndsInT3(AfterHigh(board, m, start));
  }

  lemma NoTransferMeaning(board: Isa.Board, s: Isa.Arch, name: InstructionName, d: nat, opcode: Byte)
    requires Isa.WellFormed(s) && name in {JFc, JTc, CFc, CTc} && !Isa.Holds(Isa.ConditionNumber(d), s.flags)
    ensures Isa.Execute(board, s, TransferOf(name, d), opcode) == Isa.Pass(Isa.Pass(s))
    ensures Isa.StateCount(TransferOf(name, d), s.flags) == 9
  {
    hide Isa.Pass, Isa.Holds;
  }

  lemma NoTransferCompletes(board: Isa.Board, m: Machine, start: Isa.Start, name: InstructionName, d: nat, l: nat)
    requires Begins(m, start) && Decode(Code(m, start)) == Decoded(name, d, l) && name in {JFc, JTc, CFc, CTc} && d < 8
    requires !Isa.Holds(Isa.ConditionNumber(d), AbstractFlags(m.core.flags))
    ensures Behaves(board, m, start, TransferOf(name, d))
  {
    assert AfterOpcode(m, start).flags == AbstractFlags(m.core.flags);
    hide Run, Decode, CanBegin, Code, AfterHigh, AfterOpcode, Underway, Isa.Holds, Isa.Pass, Abstract, Arch, AtBoundary;
    hide Isa.Execute, Isa.StateCount, TransferOf, Isa.ConditionNumber;
    ThreeReads(board, m, start);
    NoTransfer(board, m, start, name, d, l);
    HighOperandMeaning(board, m, start);
    NoTransferMeaning(board, AfterOpcode(m, start), name, d, Code(m, start));
  }

  lemma JumpMeaning(board: Isa.Board, s: Isa.Arch, c: Core, memory: seq<Byte>, io: seq<nat>, opcode: Byte,
      when: Isa.Condition)
    requires Isa.WellFormed(s) && CpuCore.Valid(c) && |memory| == Isa.SPACE && Isa.Holds(when, s.flags)
    requires Isa.Next(s) == c.hiddenB && Isa.Next(Isa.Pass(s)) == c.hiddenA
    requires Isa.Pass(Isa.Pass(s)) == Arch(c, memory, io)
    ensures var t := SetLow(SetHigh(c.stack, c.hiddenA), c.hiddenB);
            Isa.Execute(board, s, Isa.Jump(when), opcode)
            == Arch(c.(state := T5, stack := t, cycleEnded := true), memory, io)
  {
    hide SetLow, SetHigh, View, Isa.Holds, Isa.Address;
    ViewJump(c.stack, c.hiddenA, c.hiddenB);
  }

  lemma CallMeaning(board: Isa.Board, s: Isa.Arch, c: Core, memory: seq<Byte>, io: seq<nat>, opcode: Byte,
      when: Isa.Condition)
    requires Isa.WellFormed(s) && CpuCore.Valid(c) && |memory| == Isa.SPACE && Isa.Holds(when, s.flags)
    requires Isa.Next(s) == c.hiddenB && Isa.Next(Isa.Pass(s)) == c.hiddenA
    requires Isa.Pass(Isa.Pass(s)) == Arch(c, memory, io)
    ensures var t := SetLow(SetHigh(Pushed(c.stack), c.hiddenA), c.hiddenB);
            Isa.Execute(board, s, Isa.Call(when), opcode)
            == Arch(c.(state := T5, stack := t, cycleEnded := true), memory, io)
  {
    hide SetLow, SetHigh, Pushed, View, Isa.Holds, Isa.Address;
    ViewCall(c.stack, c.hiddenA, c.hiddenB);
  }

  // The stack that T4 and T5 of a jump or a call leave.
  function Transferred(name: InstructionName, c: Core): (r: Core)
    requires CpuCore.Valid(c)
    ensures CpuCore.Valid(r)
  {
    var s := if name in {JMP, JFc, JTc} then c.stack else Pushed(c.stack);
    c.(state := T5, stack := SetLow(SetHigh(s, c.hiddenA), c.hiddenB), cycleEnded := true)
  }

  lemma TransferCycles(board: Isa.Board, m: Machine, start: Isa.Start, name: InstructionName, d: nat, l: nat)
    requires Begins(m, start) && Decode(Code(m, start)) == Decoded(name, d, l) && IsTransfer(name) && d < 8 && l < 8
    requires Isa.Holds(ConditionOf(name, d), AbstractFlags(m.core.flags))
    ensures CompletesIn(board, m, start, 11, Arch(Transferred(name, AfterHigh(board, m, start).core), m.memory, m.io))
  {
    hide Row, Fetched, AbstractFlags, Run, Decode, CanBegin, Code, AfterT3, AfterReading, Underway, Isa.Holds,
      Operand, CompletesIn, Leaves, Arch;
    hide SetLow, SetHigh, Pushed;
    var m9 := AfterHigh(board, m, start);
    ThreeReads(board, m, start);
    HighOperand(board, m, start);
    ConditionEffect(AfterReading(board, AfterT3(m, start)).core);
    if name in {JMP, JFc, JTc} {
      JumpStates(m9.core);
    } else {
      CallStates(m9.core);
    }
    Closing(board, m, start, 9, m9, Transferred(name, m9.core));
  }

  lemma TransferCompletes(board: Isa.Board, m: Machine, start: Isa.Start, name: InstructionName, d: nat, l: nat)
    requires Begins(m, start) && Decode(Code(m, start)) == Decoded(name, d, l) && IsTransfer(name) && d < 8 && l < 8
    requires Isa.Holds(ConditionOf(name, d), AbstractFlags(m.core.flags))
    ensures Behaves(board, m, start, TransferOf(name, d))
  {
    hide Row, Fetched, AbstractFlags, Run, Decode, CanBegin, Code, AfterT3, AfterReading, Isa.Holds, Operand,
      CompletesIn, View, Isa.Execute;
    hide SetLow, SetHigh, Pushed, Isa.Next, Isa.Pass;
    var c := AfterHigh(board, m, start).core;
    TransferCycles(board, m, start, name, d, l);
    HighOperand(board, m, start);
    LowOperandMeaning(board, m, start);
    HighOperandMeaning(board, m, start);
    if name in {JMP, JFc, JTc} {
      JumpMeaning(board, AfterOpcode(m, start), c, m.memory, m.io, Code(m, start), ConditionOf(name, d));
    } else {
      CallMeaning(board, AfterOpcode(m, start), c, m.memory, m.io, Code(m, start), ConditionOf(name, d));
    }
  }
}
