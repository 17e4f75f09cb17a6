/** Each instruction, from one boundary to the next: as many states as the manual gives, the
    architectural state the instruction set gives, and no failed assertion. */
module Instructions {
  import opened Bytes
  import opened Microcode
  import opened CpuCore
  import opened BusMachine
  import opened AddressStacks
  import opened Cycles
  import opened Effects
  import Isa

  // The architectural state once the opcode is read.
  function AfterOpcode(m: Machine, start: Isa.Start): (s: Isa.Arch)
    requires BusMachine.Valid(m)
    ensures Isa.WellFormed(s)
  {
    Arch(Fetching(m.core, start), m.memory, m.io)
  }

  lemma StepAfterOpcode(board: Isa.Board, m: Machine, start: Isa.Start)
    requires BusMachine.Valid(m)
    ensures var opcode := Isa.Opcode(Abstract(m), start);
            Isa.Step(board, Abstract(m), start)
            == Isa.Execute(board, AfterOpcode(m, start), Isa.Meaning(opcode), opcode)
  {
    hide Isa.Execute, Isa.Meaning;
    ViewEmitLow(m.core.stack, start.Fetch?);
  }

  predicate InProgress(m: Machine) {
    !m.core.faulted && !AtBoundary(m)
  }

  // From the first state to the one before the last, the instruction goes on.
  predicate Underway(board: Isa.Board, m: Machine, start: Isa.Start, count: nat)
    requires BusMachine.Valid(m)
  {
    count <= 1 || (Underway(board, m, start, count - 1) && InProgress(Run(board, m, start, count - 1)))
  }

  lemma {:induction false} UnderwayAt(board: Isa.Board, m: Machine, start: Isa.Start, count: nat, k: nat)
    requires BusMachine.Valid(m) && Underway(board, m, start, count) && 1 <= k < count
    ensures InProgress(Run(board, m, start, k))
    decreases count
  {
    hide InProgress, Run;
    if k < count - 1 {
      UnderwayAt(board, m, start, count - 1, k);
    }
  }

  // The instruction takes count states, and leaves the architectural state after.
  predicate CompletesIn(board: Isa.Board, m: Machine, start: Isa.Start, count: nat, after: Isa.Arch)
    requires BusMachine.Valid(m)
  {
    && Underway(board, m, start, count)
    && AtBoundary(Run(board, m, start, count))
    && Abstract(Run(board, m, start, count)) == after
  }

  // The core in T3 of the first cycle, the opcode decoded.
  function Fetched(c: Core, start: Isa.Start, opcode: Byte): (r: Core)
    requires CpuCore.Valid(c)
    ensures CpuCore.Valid(r) && r.state == T3 && r.faulted == c.faulted
  {
    var f := Fetching(c, start).(hiddenA := 0, hiddenB := opcode, decoded := Some(Decode(opcode)));
    var t3 := Row(Decode(opcode).name).cycle1.t3;
    if HasCycleEnd(t3) then f.(cycleEnded := true, nextCycleControl := Row(Decode(opcode).name).cycle2.cc)
    else if HasConditionalEnd(t3) && !ConditionVerified(f) then f.(cycleEnded := true, nextCycleControl := PCI)
    else f
  }

  lemma FetchedCore(c: Core, start: Isa.Start, opcode: Byte)
    requires CpuCore.Valid(c) && Decode(opcode).name != UNKNOWN
    ensures ExecuteT3(Fetching(c, start), opcode) == Fetched(c, start, opcode)
  {
    hide FirstMatch;
    var f := Fetching(c, start).(hiddenA := 0, hiddenB := opcode, decoded := Some(Decode(opcode)));
    var t3 := Row(Decode(opcode).name).cycle1.t3;
    assert t3 % 2 == FETCH_IR_AND_REG_B;
    assert ExecuteT3(Fetching(c, start), opcode) == ChecksConditionalCycleEnd(ChecksCycleEnd(f, t3), t3);
  }

  // The machine in T3 of the first cycle.
  function AfterT3(m: Machine, start: Isa.Start): (r: Machine)
    requires BusMachine.Valid(m)
    ensures BusMachine.Valid(r) && r.memory == m.memory && r.io == m.io
    ensures r.core == Fetched(m.core, start, Isa.Opcode(Abstract(m), start))
  {
    AfterT2(m, start).(core := Fetched(m.core, start, Isa.Opcode(Abstract(m), start)))
  }

  lemma UnderwayFirst(board: Isa.Board, m: Machine, start: Isa.Start)
    requires BusMachine.Valid(m)
    requires InProgress(Run(board, m, start, 1)) && InProgress(Run(board, m, start, 2))
    ensures Underway(board, m, start, 3)
  {
    hide Run, InProgress;
    assert Underway(board, m, start, 2);
  }

  lemma UnderwayAgain(board: Isa.Board, m: Machine, start: Isa.Start, k: nat, more: nat)
    requires BusMachine.Valid(m) && k > 0 && Underway(board, m, start, k)
    requires 2 <= more <= 3 && InProgress(Run(board, m, start, k)) && InProgress(Run(board, m, start, k + 1))
    requires more == 3 ==> InProgress(Run(board, m, start, k + 2))
    ensures Underway(board, m, start, k + more)
  {
    hide Run, InProgress;
    assert Underway(board, m, start, k + 1);
    assert Underway(board, m, start, k + 2);
  }

  // The first three states of an instruction that is defined.
  lemma Opening(board: Isa.Board, m: Machine, start: Isa.Start)
    requires BusMachine.Valid(m) && CanBegin(m, start)
    requires Decode(Isa.Opcode(Abstract(m), start)).name != UNKNOWN
    ensures Underway(board, m, start, 3) && Run(board, m, start, 3) == AfterT3(m, start)
  {
    assert InProgress(AfterT1(m, start)) && InProgress(AfterT2(m, start));
    hide Run, Underway, InProgress, Micro, AfterT1, AfterT2;
    FetchCycle(board, m, start);
    UnderwayFirst(board, m, start);
    FetchedCore(m.core, start, Isa.Opcode(Abstract(m), start));
  }

  // T4 and T5 after a T3 whose cycle goes on.
  lemma TwoMoreStates(board: Isa.Board, m: Machine, jammed: Option<Byte>, r: Core)
    requires BusMachine.Valid(m) && m.core.state == T3 && !m.core.faulted && !m.core.cycleEnded && Leaves(m.core, r)
    ensures var m4 := Micro(board, m, jammed);
            InProgress(m4) && Micro(board, m4, jammed) == m.(core := r)
  {
    hide ExecuteT1, ExecuteT1I, ExecuteT2, ExecuteT3, ExecuteT4, ExecuteT5;
    assert ChangeState(m.core, m.interruptPending, true) == (m.core, Some(T4));
    var c4 := ExecuteT4(m.core.(state := T4));
    assert ChangeState(c4, m.interruptPending, true) == (c4, Some(T5));
  }

  // T4 and T5 end the instruction.
  lemma Closing(board: Isa.Board, m: Machine, start: Isa.Start, k: nat, last: Machine, r: Core)
    requires BusMachine.Valid(m) && BusMachine.Valid(last) && Run(board, m, start, k) == last
    requires k > 0 && Underway(board, m, start, k)
    requires last.core.state == T3 && !last.core.faulted && !last.core.cycleEnded && Leaves(last.core, r)
    ensures CompletesIn(board, m, start, k + 2, Arch(r, last.memory, last.io))
  {
    TwoMoreStates(board, last, Offered(start), r);
    UnderwayAgain(board, m, start, k, 2);
  }

  // Another cycle follows, up to its T3.
  lemma Continuation(board: Isa.Board, m: Machine, start: Isa.Start, k: nat, last: Machine)
    requires BusMachine.Valid(m) && BusMachine.Valid(last) && Run(board, m, start, k) == last && CanContinue(last)
    requires k > 0 && Underway(board, m, start, k)
    ensures Underway(board, m, start, k + 3)
    ensures Run(board, m, start, k + 3) == Enter(board, AfterT2Again(last), T3, Offered(start))
  {
    hide Micro;
    FollowingCycle(board, last, Offered(start));
    UnderwayAgain(board, m, start, k, 3);
  }

  // What a reading cycle that follows receives.
  function Operand(board: Isa.Board, last: Machine): Byte
    requires BusMachine.Valid(last)
  {
    var x := AfterT2Again(last);
    if x.control.PCC? then board.answer(x.io, x.address) else x.memory[x.address]
  }

  // The core in T3 of a reading cycle that follows.
  function Received(c: Core, data: Byte): (r: Core)
    requires CpuCore.Valid(c)
    ensures CpuCore.Valid(r) && r.state == T3 && r.faulted == c.faulted
  {
    var t3, x := Following(c).t3, Continuing(c);
    var y := if Masked(t3) == FETCH_DATA_TO_REG_B then x.(hiddenB := data)
             else if Masked(t3) == FETCH_DATA_TO_REG_A then x.(hiddenA := data)
             else x;
    if HasCycleEnd(t3) then
      y.(cycleEnded := true, nextCycleControl := if c.memoryCycle == 0 then Row(Name(c)).cycle3.cc else PCI)
    else if HasConditionalEnd(t3) && !ConditionVerified(y) then y.(cycleEnded := true, nextCycleControl := PCI)
    else y
  }

  lemma ReceivedCore(c: Core, data: Byte)
    requires CpuCore.Valid(c) && c.decoded.Some? && c.memoryCycle < 2 && Reads(c.nextCycleControl)
    requires c.nextCycleControl != PCI
    requires Masked(Following(c).t3) in {FETCH_DATA_TO_REG_B, FETCH_DATA_TO_REG_A, IDLE}
    requires !(HasCycleEnd(Following(c).t3) && HasConditionalEnd(Following(c).t3))
    ensures ExecuteT3(Continuing(c), data) == Received(c, data)
  {
    var x, t3 := Continuing(c), Following(c).t3;
    assert LaterCycle(x) == Following(c);
    var y := T3Effect(x, Masked(t3), data);
    assert ExecuteT3(x, data) == ChecksConditionalCycleEnd(ChecksCycleEnd(y, t3), t3);
  }

  // The machine in T3 of a reading cycle that follows.
  function AfterReading(board: Isa.Board, last: Machine): (r: Machine)
    requires BusMachine.Valid(last)
    ensures BusMachine.Valid(r) && r.memory == last.memory
    ensures r.core == Received(last.core, Operand(board, last))
  {
    var x := AfterT2Again(last);
    x.(core := Received(last.core, Operand(board, last)), io := if x.control.PCC? then x.io + [x.address] else x.io)
  }

  lemma Reading(board: Isa.Board, m: Machine, start: Isa.Start, k: nat, last: Machine)
    requires BusMachine.Valid(m) && BusMachine.Valid(last) && Run(board, m, start, k) == last && CanContinue(last)
    requires k > 0 && Underway(board, m, start, k)
    requires Reads(last.core.nextCycleControl)
    requires Masked(Following(last.core).t3) in {FETCH_DATA_TO_REG_B, FETCH_DATA_TO_REG_A, IDLE}
    requires !(HasCycleEnd(Following(last.core).t3) && HasConditionalEnd(Following(last.core).t3))
    ensures Underway(board, m, start, k + 3) && Run(board, m, start, k + 3) == AfterReading(board, last)
  {
    hide Run, Micro, Underway, ExecuteT1, ExecuteT2, ExecuteT4, ExecuteT5, ExecuteT1I, ExecuteT3;
    Continuation(board, m, start, k, last);
    ReceivedCore(last.core, Operand(board, last));
  }

  // The core in T3 of a writing cycle.
  function Wrote(c: Core): (r: Core)
    requires CpuCore.Valid(c)
    ensures CpuCore.Valid(r) && r.state == T3 && r.faulted == c.faulted
  {
    Continuing(c).(ioDataLatch := c.hiddenB, cycleEnded := true,
                   nextCycleControl := if c.memoryCycle == 0 then Row(Name(c)).cycle3.cc else PCI)
  }

  function AfterWriting(board: Isa.Board, last: Machine): (r: Machine)
    requires BusMachine.Valid(last)
    ensures BusMachine.Valid(r)
  {
    Store(board, AfterT2Again(last).(core := Wrote(last.core)), last.core.hiddenB)
  }

  lemma WroteCore(c: Core, data: Byte)
    requires CpuCore.Valid(c) && c.decoded.Some? && c.memoryCycle < 2 && c.nextCycleControl == PCW
    requires Following(c).t3 == OUT_REG_B + CYCLE_END
    ensures ExecuteT3(Continuing(c), data) == Wrote(c)
  {
    assert LaterCycle(Continuing(c)) == Following(c);
  }

  lemma Writing(board: Isa.Board, m: Machine, start: Isa.Start, k: nat, last: Machine)
    requires BusMachine.Valid(m) && BusMachine.Valid(last) && Run(board, m, start, k) == last && CanContinue(last)
    requires k > 0 && Underway(board, m, start, k)
    requires last.core.nextCycleControl == PCW && Following(last.core).t3 == OUT_REG_B + CYCLE_END
    ensures Underway(board, m, start, k + 3) && Run(board, m, start, k + 3) == AfterWriting(board, last)
  {
    hide Run, Micro, Underway, ExecuteT1, ExecuteT2, ExecuteT4, ExecuteT5, ExecuteT1I, ExecuteT3;
    Continuation(board, m, start, k, last);
    WroteCore(last.core, LeftOnPins(AfterT2Again(last).core));
  }

  predicate Begins(m: Machine, start: Isa.Start) {
    BusMachine.Valid(m) && CanBegin(m, start)
  }

  function Code(m: Machine, start: Isa.Start): Byte
    requires Begins(m, start)
  {
    Isa.Opcode(Abstract(m), start)
  }

  function DecodedName(m: Machine, start: Isa.Start): InstructionName
    requires Begins(m, start)
  {
    Decode(Code(m, start)).name
  }

  // The instruction that starts at m behaves as i.
  predicate Behaves(board: Isa.Board, m: Machine, start: Isa.Start, i: Isa.Instr)
    requires Begins(m, start)
  {
    CompletesIn(board, m, start, Isa.StateCount(i, AbstractFlags(m.core.flags)),
                Isa.Execute(board, AfterOpcode(m, start), i, Code(m, start)))
  }

  // Five states: a fetch that goes on to T4 and T5.
  lemma SingleCycle(board: Isa.Board, m: Machine, start: Isa.Start, r: Core)
    requires Begins(m, start) && DecodedName(m, start) != UNKNOWN
    requires !AfterT3(m, start).core.cycleEnded && Leaves(AfterT3(m, start).core, r)
    ensures CompletesIn(board, m, start, 5, Arch(r, m.memory, m.io))
  {
    assert !m.core.faulted;
    hide Micro, Run, Leaves, AfterT3, Fetched, Underway, CompletesIn, AtBoundary;
    Opening(board, m, start);
    Closing(board, m, start, 3, AfterT3(m, start), r);
  }

  // The core in T3 of the first cycle, and what is decoded there.
  lemma Decoded3(m: Machine, start: Isa.Start)
    requires Begins(m, start) && DecodedName(m, start) != UNKNOWN
    ensures var c := AfterT3(m, start).core;
            && AfterOpcode(m, start) == Arch(c, m.memory, m.io)
            && Medium(c) < 8 && Low(c) < 8
            && c.decoded == Some(Decoded(DecodedName(m, start), Medium(c), Low(c)))
            && c.decoded == Some(Decode(Code(m, start)))
            && (HasCycleEnd(Row(Name(c)).cycle1.t3) || InCycle(c, 0) || (c.cycleEnded && c.nextCycleControl.PCI?))
            && c.hiddenA == 0 && c.hiddenB == Code(m, start) && !c.faulted && c.memoryCycle == 0
  {
    hide FirstMatch, View, Row;
  }
}
