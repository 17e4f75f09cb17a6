/** The size that the disassembler gives to an instruction is the number of program counter
    increments with which the processor executes it. */
module ProgramAdvance {
  import opened Bytes
  import opened Microcode
  import opened CpuCore
  import opened BusMachine
  import opened AddressStacks
  import opened Cycles
  import opened Instructions
  import opened Completion
  import opened Effects
  import opened Disassembly
  import Decoding
  import Isa
  import Refinement

  // A state T1 has emitted the program counter and advanced it.
  predicate Incremented(before: Machine, after: Machine)
    requires BusMachine.Valid(before)
  {
    after.core.state.T1? && after.core.stack == EmitLow(before.core.stack, true)
  }

  // How many of the first states of an instruction increment the program counter.
  function Increments(board: Isa.Board, m: Machine, start: Isa.Start, count: nat): nat
    requires BusMachine.Valid(m)
  {
    if count == 0 then 0
    else
      Increments(board, m, start, count - 1)
      + if Incremented(Run(board, m, start, count - 1), Run(board, m, start, count)) then 1 else 0
  }

  // The bytes of the program that the fetch passes: an interrupt jams its opcode.
  function FetchedBytes(start: Isa.Start): nat { if start.Fetch? then 1 else 0 }

  // The increments of the first states, and where they have taken the program counter.
  predicate Passed(board: Isa.Board, m: Machine, start: Isa.Start, states: nat, bytes: nat)
    requires BusMachine.Valid(m)
  {
    && Increments(board, m, start, states) == bytes
    && View(Run(board, m, start, states).core.stack)[0] == (View(m.core.stack)[0] + bytes) % Isa.SPACE
  }

  lemma NotT1(board: Isa.Board, m: Machine, start: Isa.Start, k: nat)
    requires BusMachine.Valid(m) && k > 0 && !Run(board, m, start, k).core.state.T1?
    ensures Increments(board, m, start, k) == Increments(board, m, start, k - 1)
  {
    hide Run;
  }

  lemma NextIncrement(board: Isa.Board, m: Machine, start: Isa.Start, k: nat, before: Machine, after: Machine)
    requires BusMachine.Valid(m) && BusMachine.Valid(before)
    requires Run(board, m, start, k) == before && Run(board, m, start, k + 1) == after
    ensures Increments(board, m, start, k + 1)
            == Increments(board, m, start, k) + if Incremented(before, after) then 1 else 0
  {
    hide Run, Incremented;
  }

  lemma FirstIncrement(board: Isa.Board, m: Machine, start: Isa.Start)
    requires Begins(m, start)
    ensures Increments(board, m, start, 1) == if start.Fetch? then 1 else 0
  {
    hide Micro, CanBegin, Isa.Opcode;
    FirstState(board, m, start);
    assert Increments(board, m, start, 0) == 0;
  }

  lemma FetchedStack(m: Machine, start: Isa.Start)
    requires Begins(m, start)
    ensures View(AfterT3(m, start).core.stack)[0]
            == (View(m.core.stack)[0] + if start.Fetch? then 1 else 0) % Isa.SPACE
  {
    hide Row, Decode, HasCycleEnd, HasConditionalEnd, ConditionVerified, CanBegin;
    ViewEmitLow(m.core.stack, start.Fetch?);
  }

  lemma FetchStates(board: Isa.Board, m: Machine, start: Isa.Start)
    requires Begins(m, start) && DecodedName(m, start) != UNKNOWN
    ensures Run(board, m, start, 2).core.state.T2? && Run(board, m, start, 3) == AfterT3(m, start)
    ensures AfterT3(m, start).core.state.T3?
  {
    assert AfterT2(m, start).core.state.T2?;
    hide Run, Decode, CanBegin, View, AfterT1, AfterT2, AfterT3, Underway, ExecuteT3, Isa.Opcode;
    FetchCycle(board, m, start);
    Opening(board, m, start);
  }

  // A fetch.
  lemma FetchPasses(board: Isa.Board, m: Machine, start: Isa.Start)
    requires Begins(m, start) && DecodedName(m, start) != UNKNOWN
    ensures Passed(board, m, start, 3, FetchedBytes(start))
  {
    hide Run, Decode, CanBegin, View, AfterT3, Increments, Isa.Opcode;
    FirstIncrement(board, m, start);
    FetchedStack(m, start);
    FetchStates(board, m, start);
    NotT1(board, m, start, 2);
    NotT1(board, m, start, 3);
  }

  // A cycle that follows passes a byte of the program exactly when it emits the program counter.

  lemma AgainIncremented(last: Machine)
    requires BusMachine.Valid(last)
    ensures Incremented(last, AfterT1Again(last)) <==> Following(last.core).t1.Out_PC_L?
    ensures AfterT2Again(last).core.state.T2?
  {
    hide Row, LowOut, HighOut;
    assert EmitLow(last.core.stack, true).slots[last.core.stack.index] != last.core.stack.slots[last.core.stack.index];
  }

  lemma FollowingStates(board: Isa.Board, m: Machine, start: Isa.Start, k: nat, last: Machine)
    requires BusMachine.Valid(m) && BusMachine.Valid(last) && Run(board, m, start, k) == last && CanContinue(last)
    ensures Run(board, m, start, k + 1) == AfterT1Again(last) && Run(board, m, start, k + 2) == AfterT2Again(last)
  {
    hide Micro, CanContinue, AfterT1Again, AfterT2Again, Enter;
    FollowingCycle(board, last, Offered(start));
  }

  lemma FollowingIncrements(board: Isa.Board, m: Machine, start: Isa.Start, k: nat, last: Machine)
    requires BusMachine.Valid(m) && BusMachine.Valid(last) && Run(board, m, start, k) == last && CanContinue(last)
    requires Run(board, m, start, k + 3).core.state.T3?
    ensures Increments(board, m, start, k + 3)
            == Increments(board, m, start, k) + if Following(last.core).t1.Out_PC_L? then 1 else 0
  {
    hide Run, CanContinue, AfterT1Again, AfterT2Again, Increments, Incremented, Following;
    FollowingStates(board, m, start, k, last);
    AgainIncremented(last);
    NextIncrement(board, m, start, k, last, AfterT1Again(last));
    NotT1(board, m, start, k + 2);
    NotT1(board, m, start, k + 3);
  }

  lemma StackPassed(c: Core, data: Byte)
    requires CpuCore.Valid(c)
    ensures View(Received(c, data).stack)[0]
            == (View(c.stack)[0] + if Following(c).t1.Out_PC_L? then 1 else 0) % Isa.SPACE
  {
    hide Row, Masked, HasCycleEnd, HasConditionalEnd, ConditionVerified;
    ViewEmitLow(c.stack, true);
  }

  lemma AddedTwice(pc: nat, bytes: nat, more: nat)
    ensures ((pc + bytes) % Isa.SPACE + more) % Isa.SPACE == (pc + bytes + more) % Isa.SPACE
  {
    var q, r := (pc + bytes) / Isa.SPACE, (pc + bytes) % Isa.SPACE;
    assert pc + bytes + more == Isa.SPACE * q + (r + more);
  }

  // A reading cycle.
  lemma ReadingPasses(board: Isa.Board, m: Machine, start: Isa.Start, k: nat, last: Machine, bytes: nat)
    requires BusMachine.Valid(m) && BusMachine.Valid(last) && Run(board, m, start, k) == last && CanContinue(last)
    requires Run(board, m, start, k + 3) == AfterReading(board, last)
    requires Passed(board, m, start, k, bytes)
    ensures Passed(board, m, start, k + 3, bytes + if Following(last.core).t1.Out_PC_L? then 1 else 0)
  {
    hide Run, CanContinue, AfterReading, Following, View, Increments, Received;
    StackPassed(last.core, Operand(board, last));
    AddedTwice(View(m.core.stack)[0], bytes, if Following(last.core).t1.Out_PC_L? then 1 else 0);
    FollowingIncrements(board, m, start, k, last);
  }

  // No state from T4 on increments the program counter.
  lemma FourthState(board: Isa.Board, m: Machine, jammed: Option<Byte>)
    requires BusMachine.Valid(m) && m.core.state == T3 && !m.core.faulted && !m.core.cycleEnded
    ensures Micro(board, m, jammed).core.state.T4?
  {
    hide ExecuteT4;
    assert ChangeState(m.core, m.interruptPending, true) == (m.core, Some(T4));
  }

  lemma FourthRun(board: Isa.Board, m: Machine, start: Isa.Start, k: nat)
    requires BusMachine.Valid(m)
    requires var last := Run(board, m, start, k).core; last.state == T3 && !last.faulted && !last.cycleEnded
    ensures Run(board, m, start, k + 1).core.state.T4?
  {
    hide Micro;
    FourthState(board, Run(board, m, start, k), Offered(start));
  }

  lemma BoundaryState(m: Machine)
    requires AtBoundary(m)
    ensures !m.core.state.T1?
  {
  }

  lemma LastIncrements(board: Isa.Board, m: Machine, start: Isa.Start, k: nat, count: nat)
    requires BusMachine.Valid(m) && k <= count <= k + 2 && AtBoundary(Run(board, m, start, count))
    requires var last := Run(board, m, start, k).core;
             count == k + 2 ==> last.state == T3 && !last.faulted && !last.cycleEnded
    ensures Increments(board, m, start, count) == Increments(board, m, start, k)
  {
    hide AtBoundary, Run, Increments;
    BoundaryState(Run(board, m, start, count));
    if count == k + 2 {
      FourthRun(board, m, start, k);
      NotT1(board, m, start, k + 1);
      NotT1(board, m, start, k + 2);
    } else if count == k + 1 {
      NotT1(board, m, start, k + 1);
    }
  }

  // How many states the instruction that begins at m takes, and that it takes them.
  function Count(m: Machine, start: Isa.Start): nat
    requires Begins(m, start)
  {
    Isa.StateCount(Isa.Meaning(Code(m, start)), Abstract(m).flags)
  }

  predicate Defined(m: Machine, start: Isa.Start)
    requires Begins(m, start)
  {
    Isa.Meaning(Code(m, start)) != Isa.Undefined
  }

  lemma Taken(board: Isa.Board, m: Machine, start: Isa.Start)
    requires Begins(m, start) && Defined(m, start)
    ensures Underway(board, m, start, Count(m, start)) && AtBoundary(Run(board, m, start, Count(m, start)))
  {
    hide Run, Underway, AtBoundary, Begins, Isa.Meaning, Isa.StateCount, Isa.Step, Code, Abstract;
    Refinement.InstructionRefines(board, m, start);
  }

  // The numbers of states, by name.
  predicate CountIs(name: InstructionName, count: nat) {
    match name
    case LMr => count == 7
    case LMI => count == 9
    case OUT => count == 6
    case HLT => count == 4
    case RFc => count in {3, 5}
    case RTc => count in {3, 5}
    case _ =>
      if name in {LrM, LrI, ALU_OPM, ALU_OPI, INP} then count == 8
      else if IsTransfer(name) then count in {9, 11}
      else count == 5
  }

  lemma CountOfShape(d: Decoded, flags: Isa.Flags)
    requires Decoding.Shape(d) != Isa.Undefined
    ensures d.name != UNKNOWN && CountIs(d.name, Isa.StateCount(Decoding.Shape(d), flags))
    ensures d.name == LMr && d.low < 8 ==> d.low < 7
  {
  }

  lemma Counted(m: Machine, start: Isa.Start)
    requires Begins(m, start) && Defined(m, start)
    ensures DecodedName(m, start) != UNKNOWN && CountIs(DecodedName(m, start), Count(m, start))
    ensures DecodedName(m, start) == LMr ==> Decode(Code(m, start)).low < 7
  {
    hide Decode, Isa.Meaning, Isa.StateCount, Isa.Opcode, CanBegin, CountIs, AfterT3, Decoding.Shape;
    Decoding.DecodeMeaning(Code(m, start));
    CountOfShape(Decode(Code(m, start)), Abstract(m).flags);
    Decoded3(m, start);
  }

  predicate Advances(board: Isa.Board, m: Machine, start: Isa.Start, size: nat)
    requires Begins(m, start)
  {
    && size > 0
    && Passed(board, m, start, 3 * size, FetchedBytes(start) + size - 1)
    && Increments(board, m, start, Count(m, start)) == FetchedBytes(start) + size - 1
  }

  // A single memory cycle.

  lemma SingleGoesOn(m: Machine, start: Isa.Start)
    requires Begins(m, start) && DecodedName(m, start) !in {UNKNOWN, HLT} && InProgress(AfterT3(m, start))
    requires !HasCycleEnd(Row(DecodedName(m, start)).cycle1.t3)
    ensures var c := AfterT3(m, start).core; c.state == T3 && !c.faulted && !c.cycleEnded
  {
    hide Decode, CanBegin, View, Row, HasCycleEnd, HasConditionalEnd, ConditionVerified, Isa.Opcode, Fetched, AfterT3;
    Decoded3(m, start);
  }

  predicate HasOneCycle(name: InstructionName) {
    name !in {LrM, LMr, LrI, LMI, ALU_OPM, ALU_OPI, INP, OUT, UNKNOWN} && !IsTransfer(name)
  }

  lemma OneCycleRow(name: InstructionName, count: nat)
    requires HasOneCycle(name) && CountIs(name, count)
    ensures name != HLT ==> !HasCycleEnd(Row(name).cycle1.t3)
    ensures if name == HLT then count == 4 else count in {3, 5}
  {
  }

  lemma OneCycleEnds(board: Isa.Board, m: Machine, start: Isa.Start)
    requires Begins(m, start) && Defined(m, start) && HasOneCycle(DecodedName(m, start))
    ensures var count := Count(m, start);
            && 3 <= count <= 5 && AtBoundary(Run(board, m, start, count))
            && Run(board, m, start, 3) == AfterT3(m, start)
            && (count == 5 ==> var c := AfterT3(m, start).core; c.state == T3 && !c.faulted && !c.cycleEnded)
  {
    var name, count := DecodedName(m, start), Count(m, start);
    hide Begins, Run, AtBoundary, InProgress, Underway, CountIs, Defined, Count, Decode, Code, AfterT3, HasCycleEnd;
    hide Row, HasOneCycle;
    Taken(board, m, start);
    Counted(m, start);
    OneCycleRow(name, count);
    FetchStates(board, m, start);
    if count == 5 {
      UnderwayAt(board, m, start, count, 3);
      SingleGoesOn(m, start);
    }
  }

  lemma OneCycleAdvances(board: Isa.Board, m: Machine, start: Isa.Start)
    requires Begins(m, start) && Defined(m, start) && HasOneCycle(DecodedName(m, start))
    ensures Advances(board, m, start, 1)
  {
    hide CanBegin, Isa.Opcode, Run, AtBoundary, Increments, Defined, Count, Decode, AfterT3, View;
    OneCycleEnds(board, m, start);
    FetchPasses(board, m, start);
    LastIncrements(board, m, start, 3, Count(m, start));
  }

  // Two memory cycles, the second one a reading one.

  lemma SecondRow(c: Core)
    requires c.memoryCycle == 0 && Name(c) in {LrM, LrI, ALU_OPM, ALU_OPI, INP, OUT}
    ensures Following(c).t1.Out_PC_L? <==> Name(c) in {LrI, ALU_OPI}
    ensures Masked(Following(c).t3) in {FETCH_DATA_TO_REG_B, IDLE} && !HasConditionalEnd(Following(c).t3)
  {
  }

  lemma OperandStates(board: Isa.Board, m: Machine, start: Isa.Start)
    requires Begins(m, start) && DecodedName(m, start) in {LrM, LrI, ALU_OPM, ALU_OPI}
    ensures var m3, m6 := AfterT3(m, start), AfterReading(board, AfterT3(m, start));
            && CanContinue(m3) && m3.core.memoryCycle == 0 && Name(m3.core) == DecodedName(m, start)
            && Run(board, m, start, 6) == m6
            && m6.core.state == T3 && !m6.core.faulted && !m6.core.cycleEnded
  {
    hide Run, Row, Decode, AfterT3, AfterReading, CanBegin, Underway, Operand, CanContinue, Isa.Opcode, Following;
    hide Received, Fetched;
    Decoded3(m, start);
    Opening(board, m, start);
    OperandRead(board, m, start);
    SecondRow(AfterT3(m, start).core);
    Reading(board, m, start, 3, AfterT3(m, start));
  }

  lemma DeviceStates(board: Isa.Board, m: Machine, start: Isa.Start)
    requires Begins(m, start) && DecodedName(m, start) in {INP, OUT}
    ensures var m3, m6 := AfterT3(m, start), AfterReading(board, AfterT3(m, start));
            && CanContinue(m3) && m3.core.memoryCycle == 0 && Name(m3.core) == DecodedName(m, start)
            && Run(board, m, start, 6) == m6
            && m6.core.state == T3 && (DecodedName(m, start) == INP ==> !m6.core.faulted && !m6.core.cycleEnded)
  {
    hide Run, Row, Decode, AfterT3, AfterReading, CanBegin, Underway, Operand, CanContinue, Received, Isa.Opcode;
    Decoded3(m, start);
    Opening(board, m, start);
    DeviceCycle(board, m, start);
    DeviceAction(AfterT3(m, start).core);
    Reading(board, m, start, 3, AfterT3(m, start));
    if DecodedName(m, start) == INP {
      InputCore(board, m, start);
    }
  }

  predicate ReadsSecond(name: InstructionName) {
    name in {LrM, LrI, ALU_OPM, ALU_OPI, INP, OUT}
  }

  lemma SecondCount(name: InstructionName, count: nat)
    requires ReadsSecond(name) && CountIs(name, count)
    ensures count == if name == OUT then 6 else 8
  {
  }

  lemma TwoCyclesEnd(board: Isa.Board, m: Machine, start: Isa.Start)
    requires Begins(m, start) && Defined(m, start) && ReadsSecond(DecodedName(m, start))
    ensures Increments(board, m, start, Count(m, start)) == Increments(board, m, start, 6)
  {
    var name := DecodedName(m, start);
    assert name in {LrM, LrI, ALU_OPM, ALU_OPI} || name in {INP, OUT};
    hide Begins, Run, AtBoundary, Underway, CountIs, Defined, Count, Decode, Code, AfterT3, AfterReading, CanContinue;
    hide Increments;
    Taken(board, m, start);
    Counted(m, start);
    SecondCount(name, Count(m, start));
    if name in {INP, OUT} {
      DeviceStates(board, m, start);
    } else {
      OperandStates(board, m, start);
    }
    LastIncrements(board, m, start, 6, Count(m, start));
  }

  lemma TwoCyclesPass(board: Isa.Board, m: Machine, start: Isa.Start)
    requires Begins(m, start) && ReadsSecond(DecodedName(m, start))
    ensures var program := DecodedName(m, start) in {LrI, ALU_OPI};
            && Increments(board, m, start, 6) == FetchedBytes(start) + (if program then 1 else 0)
            && (program ==> Passed(board, m, start, 6, FetchedBytes(start) + 1))
  {
    hide CanBegin, Run, Decode, Isa.Opcode, AfterT3, AfterReading, CanContinue, View, Increments, Following;
    var m3 := AfterT3(m, start);
    FetchPasses(board, m, start);
    FetchStates(board, m, start);
    if DecodedName(m, start) in {INP, OUT} {
      DeviceStates(board, m, start);
    } else {
      OperandStates(board, m, start);
    }
    SecondRow(m3.core);
    ReadingPasses(board, m, start, 3, m3, FetchedBytes(start));
  }

  lemma TwoCyclesAdvance(board: Isa.Board, m: Machine, start: Isa.Start)
    requires Begins(m, start) && Defined(m, start) && ReadsSecond(DecodedName(m, start))
    ensures Advances(board, m, start, if DecodedName(m, start) in {LrI, ALU_OPI} then 2 else 1)
  {
    hide Begins, Run, Decode, Code, Passed, Increments, Defined, Count;
    FetchPasses(board, m, start);
    TwoCyclesPass(board, m, start);
    TwoCyclesEnd(board, m, start);
  }

  // A store of a register: T4 copies it, and the second cycle writes.

  lemma WritesInT3(board: Isa.Board, last: Machine)
    requires BusMachine.Valid(last)
    ensures AfterWriting(board, last).core.state == T3
  {
    hide Wrote;
  }

  lemma WritingEnds(board: Isa.Board, m: Machine, start: Isa.Start, k: nat, last: Machine)
    requires BusMachine.Valid(m) && BusMachine.Valid(last) && Run(board, m, start, k) == last && CanContinue(last)
    requires k > 0 && Underway(board, m, start, k)
    requires last.core.nextCycleControl == PCW && Following(last.core) == MEMORY_WRITE
    ensures Run(board, m, start, k + 3).core.state == T3
  {
    assert MEMORY_WRITE.t3 == OUT_REG_B + CYCLE_END;
    hide Run, CanContinue, Underway, AfterWriting, Following;
    Writing(board, m, start, k, last);
    WritesInT3(board, last);
  }

  lemma StoreRegisterStates(board: Isa.Board, m: Machine, start: Isa.Start)
    requires Begins(m, start) && DecodedName(m, start) == LMr && Low(AfterT3(m, start).core) < 7
    ensures Run(board, m, start, 4) == AfterT4(m, start)
  {
    hide CanBegin, Run, Decode, Isa.Opcode, AfterT3, View, Underway, InProgress, Micro, InCycle;
    Opening(board, m, start);
    StoreContinues(m, start);
    StoreT4(board, AfterT3(m, start), Offered(start));
    OneMoreState(board, m, start, 3, AfterT3(m, start));
  }

  lemma StoreRegisterPasses(board: Isa.Board, m: Machine, start: Isa.Start)
    requires Begins(m, start) && DecodedName(m, start) == LMr && Low(AfterT3(m, start).core) < 7
    ensures Increments(board, m, start, 7) == Increments(board, m, start, 3)
  {
    assert AfterT4(m, start).core.state.T4?;
    hide CanBegin, Run, Decode, Isa.Opcode, AfterT3, AfterT4, AfterWriting, CanContinue, Increments, Following;
    hide Underway;
    var m4 := AfterT4(m, start);
    StoreContinues(m, start);
    StoreRegisterStates(board, m, start);
    StoreRegisterCycles(board, m, start);
    WritesInT3(board, m4);
    NotT1(board, m, start, 4);
    FollowingIncrements(board, m, start, 4, m4);
  }

  lemma StoreCount(name: InstructionName, count: nat)
    requires name in {LMr, LMI}
    ensures CountIs(name, count) ==> count == if name == LMr then 7 else 9
  {
  }

  lemma StoreLow(m: Machine, start: Isa.Start)
    requires Begins(m, start) && DecodedName(m, start) == LMr && Decode(Code(m, start)).low < 7
    ensures AfterT3(m, start).core.decoded.Some? && Low(AfterT3(m, start).core) < 7
  {
    hide CanBegin, Decode, Isa.Opcode, Fetched, Fetching;
    Decoded3(m, start);
  }

  lemma StoreRegisterAdvances(board: Isa.Board, m: Machine, start: Isa.Start)
    requires Begins(m, start) && Defined(m, start) && DecodedName(m, start) == LMr
    ensures Advances(board, m, start, 1)
  {
    hide CanBegin, Run, Decode, Isa.Opcode, AfterT3, Increments, Defined, Count, CountIs, View;
    StoreCount(LMr, Count(m, start));
    Counted(m, start);
    StoreLow(m, start);
    FetchPasses(board, m, start);
    StoreRegisterPasses(board, m, start);
  }

  // Three memory cycles: the second one reads the low operand.

  lemma LowRow(m: Machine, start: Isa.Start)
    requires Begins(m, start) && HasThreeCycles(DecodedName(m, start))
    ensures Following(AfterT3(m, start).core).t1.Out_PC_L?
  {
    hide CanBegin, Decode, Isa.Opcode, AfterT3, CanContinue, Following;
    LowOperandFollows(m, start);
  }

  lemma LowPasses(board: Isa.Board, m: Machine, start: Isa.Start)
    requires Begins(m, start) && HasThreeCycles(DecodedName(m, start))
    ensures Passed(board, m, start, 6, FetchedBytes(start) + 1)
  {
    hide CanBegin, Run, Decode, Isa.Opcode, AfterT3, AfterReading, CanContinue, Passed, Following, Underway;
    hide Row, Fetched, Received, View;
    FetchPasses(board, m, start);
    FetchStates(board, m, start);
    LowOperandFollows(m, start);
    LowRow(m, start);
    TwoReads(board, m, start);
    ReadingPasses(board, m, start, 3, AfterT3(m, start), FetchedBytes(start));
  }

  lemma StoreProgramPasses(board: Isa.Board, m: Machine, start: Isa.Start)
    requires Begins(m, start) && DecodedName(m, start) == LMI
    ensures Increments(board, m, start, 9) == Increments(board, m, start, 6)
  {
    assert !MEMORY_WRITE.t1.Out_PC_L?;
    hide CanBegin, Run, Decode, Isa.Opcode, AfterT3, AfterReading, AfterWriting, CanContinue, Increments, Following;
    hide Underway, Row, MEMORY_WRITE;
    var m6 := AfterReading(board, AfterT3(m, start));
    LowOperand(board, m, start);
    TwoReads(board, m, start);
    StoreAction(m6.core);
    WritingEnds(board, m, start, 6, m6);
    FollowingIncrements(board, m, start, 6, m6);
  }

  lemma StoreProgramAdvances(board: Isa.Board, m: Machine, start: Isa.Start)
    requires Begins(m, start) && Defined(m, start) && DecodedName(m, start) == LMI
    ensures Advances(board, m, start, 2)
  {
    hide CanBegin, Run, Decode, Isa.Opcode, Increments, Defined, Count, CountIs, View;
    StoreCount(LMI, Count(m, start));
    Counted(m, start);
    LowPasses(board, m, start);
    StoreProgramPasses(board, m, start);
  }

  lemma HighPasses(board: Isa.Board, m: Machine, start: Isa.Start)
    requires Begins(m, start) && IsTransfer(DecodedName(m, start))
    ensures Passed(board, m, start, 9, FetchedBytes(start) + 2)
  {
    hide CanBegin, Run, Decode, Isa.Opcode, AfterT3, AfterReading, CanContinue, View, Increments, Following, Underway;
    hide Passed, Row;
    var m6 := AfterReading(board, AfterT3(m, start));
    LowPasses(board, m, start);
    LowOperand(board, m, start);
    TwoReads(board, m, start);
    ThirdCycle(board, m, start);
    ThreeReads(board, m, start);
    ReadingPasses(board, m, start, 6, m6, FetchedBytes(start) + 1);
  }

  lemma TransferGoesOn(board: Isa.Board, m: Machine, start: Isa.Start)
    requires Begins(m, start) && IsTransfer(DecodedName(m, start)) && InProgress(AfterHigh(board, m, start))
    ensures var c := AfterHigh(board, m, start).core; c.state == T3 && !c.faulted && !c.cycleEnded
  {
    hide CanBegin, Decode, Isa.Opcode, AfterT3, AfterReading, AfterHigh, Operand, ConditionVerified;
    HighOperand(board, m, start);
  }

  lemma TransferCount(name: InstructionName, count: nat)
    requires IsTransfer(name) && CountIs(name, count)
    ensures count in {9, 11}
  {
  }

  lemma TransferAdvances(board: Isa.Board, m: Machine, start: Isa.Start)
    requires Begins(m, start) && Defined(m, start) && IsTransfer(DecodedName(m, start))
    ensures Advances(board, m, start, 3)
  {
    hide CanBegin, Run, Decode, Isa.Opcode, AfterHigh, AtBoundary, InProgress, Increments, Underway, Defined, Count;
    hide CountIs, View, IsTransfer;
    Taken(board, m, start);
    Counted(m, start);
    TransferCount(DecodedName(m, start), Count(m, start));
    HighPasses(board, m, start);
    ThreeReads(board, m, start);
    if Count(m, start) == 11 {
      UnderwayAt(board, m, start, 11, 9);
      TransferGoesOn(board, m, start);
    }
    LastIncrements(board, m, start, 9, Count(m, start));
  }

  lemma Sizes(name: InstructionName)
    ensures HasOneCycle(name) || ReadsSecond(name) || name in {LMr, LMI, UNKNOWN} || IsTransfer(name)
    ensures HasOneCycle(name) || name == LMr ==> FullSize(name) == 1
    ensures ReadsSecond(name) ==> FullSize(name) == if name in {LrI, ALU_OPI} then 2 else 1
    ensures name == LMI ==> FullSize(name) == 2
    ensures IsTransfer(name) ==> FullSize(name) == 3
  {
  }

  lemma SizeAdvances(board: Isa.Board, m: Machine, start: Isa.Start)
    requires Begins(m, start) && Defined(m, start)
    ensures Advances(board, m, start, FullSize(DecodedName(m, start)))
  {
    hide Begins, Decode, Code, Advances, Defined, CountIs, FullSize, HasOneCycle, ReadsSecond, IsTransfer;
    var name := DecodedName(m, start);
    Counted(m, start);
    Sizes(name);
    if HasOneCycle(name) {
      OneCycleAdvances(board, m, start);
    } else if ReadsSecond(name) {
      TwoCyclesAdvance(board, m, start);
    } else if name == LMr {
      StoreRegisterAdvances(board, m, start);
    } else if name == LMI {
      StoreProgramAdvances(board, m, start);
    } else {
      TransferAdvances(board, m, start);
    }
  }

  // Every defined opcode, whatever it does with the program counter in its last states: one increment
  // for each byte that the disassembler counts, all of them in the first states, and none later. An
  // interrupt jams the first byte instead.
  lemma SizeIsProgramAdvance(board: Isa.Board, m: Machine, start: Isa.Start)
    requires Begins(m, start) && Isa.Meaning(Code(m, start)) != Isa.Undefined
    ensures var size := FullSize(DecodedName(m, start));
            var bytes := if start.Fetch? then size else size - 1;
            && View(Run(board, m, start, 3 * size).core.stack)[0] == (View(m.core.stack)[0] + bytes) % Isa.SPACE
            && Increments(board, m, start, 3 * size) == bytes
            && Increments(board, m, start, Isa.StateCount(Isa.Meaning(Code(m, start)), Abstract(m).flags)) == bytes
  {
    hide CanBegin, Run, Decode, Isa.Opcode, Increments, View, Isa.Meaning, Isa.StateCount, Abstract;
    SizeAdvances(board, m, start);
  }

  // A transfer of control, taken.
  predicate Diverts(i: Isa.Instr, flags: Isa.Flags) {
    match i
    case Jump(when) => Isa.Holds(when, flags)
    case Call(when) => Isa.Holds(when, flags)
    case Return(when) => Isa.Holds(when, flags)
    case Restart(_) => true
    case _ => false
  }

  lemma SizeOfName(opcode: Byte)
    requires Isa.Meaning(opcode) != Isa.Undefined
    ensures FullSize(Decode(opcode).name) == SizeOf(Isa.Meaning(opcode))
  {
    Decoding.DecodeMeaning(opcode);
    SizeOfShape(Decode(opcode));
  }

  // One byte, and the operands that the instruction reads in the program.
  function SizeOf(i: Isa.Instr): nat {
    match i
    case LoadRegister(_, from) => if from.FromProgram? then 2 else 1
    case Alu(_, from) => if from.FromProgram? then 2 else 1
    case StoreProgram => 2
    case Jump(_) => 3
    case Call(_) => 3
    case _ => 1
  }

  lemma SizeOfShape(d: Decoded)
    requires Decoding.Shape(d) != Isa.Undefined
    ensures FullSize(d.name) == SizeOf(Decoding.Shape(d))
  {
  }

  lemma ExecutePasses(board: Isa.Board, s: Isa.Arch, i: Isa.Instr, opcode: Byte, pc: nat)
    requires Isa.WellFormed(s) && s.pcs[0] == (pc + 1) % Isa.SPACE
    ensures var r := Isa.Execute(board, s, i, opcode);
            && (!Diverts(i, s.flags) ==> r.pcs[0] == (pc + SizeOf(i)) % Isa.SPACE)
            && (i.Call? && Diverts(i, s.flags) ==> r.pcs[1] == (pc + SizeOf(i)) % Isa.SPACE)
            && (i.Restart? ==> r.pcs[1] == (pc + SizeOf(i)) % Isa.SPACE)
  {
    hide Isa.AluResult, Isa.Rotated, Isa.ResultFlags, Isa.Pointer, Isa.Address, Isa.Holds, Isa.Next;
  }

  // The same of the instruction set: the program counter after an instruction that does not divert
  // the program, and the return address of one that calls, are past the bytes of the instruction.
  lemma SizeIsStepAdvance(board: Isa.Board, s: Isa.Arch)
    requires Isa.WellFormed(s) && Isa.Meaning(Isa.Next(s)) != Isa.Undefined
    ensures var i, size := Isa.Meaning(Isa.Next(s)), FullSize(Decode(Isa.Next(s)).name);
            var r := Isa.Step(board, s, Isa.Fetch);
            && (!Diverts(i, s.flags) ==> r.pcs[0] == (s.pcs[0] + size) % Isa.SPACE)
            && ((i.Call? && Diverts(i, s.flags)) || i.Restart? ==> r.pcs[1] == (s.pcs[0] + size) % Isa.SPACE)
  {
    hide Decode, Isa.Meaning, Isa.Execute, SizeOf, Diverts;
    SizeOfName(Isa.Next(s));
    ExecutePasses(board, Isa.Pass(s.(halted := false)), Isa.Meaning(Isa.Next(s)), Isa.Next(s), s.pcs[0]);
  }
}
