/** What the machine has become after each of its memory cycles. */
module Cycles {
  import opened Bytes
  import opened Microcode
  import opened CpuCore
  import opened BusMachine
  import opened AddressStacks
  import Isa

  // One undisturbed state: ready, and no interrupt raised.
  function Micro(board: Isa.Board, m: Machine, jammed: Option<Byte>): (r: Machine)
    requires BusMachine.Valid(m)
    ensures BusMachine.Valid(r)
  {
    Advance(board, m, Env(true, false, jammed))
  }

  function Offered(start: Isa.Start): Option<Byte> {
    if start.Interrupt? then start.jammed else None
  }

  // The states of an instruction that begins at a boundary, the first one included.
  function Run(board: Isa.Board, m: Machine, start: Isa.Start, count: nat): (r: Machine)
    requires BusMachine.Valid(m)
    ensures BusMachine.Valid(r)
  {
    if count == 0 then m.(interruptPending := start.Interrupt?)
    else Micro(board, Run(board, m, start, count - 1), Offered(start))
  }

  // An instruction can begin: a halted processor needs an interrupt.
  predicate CanBegin(m: Machine, start: Isa.Start) {
    AtBoundary(m) && (m.core.state.STOPPED? ==> start.Interrupt?)
  }

  // The processor when T3 of the first cycle starts.
  function Fetching(c: Core, start: Isa.Start): (r: Core)
    requires CpuCore.Valid(c)
    ensures CpuCore.Valid(r)
  {
    var s := EmitLow(c.stack, start.Fetch?);
    c.(state := T3, cycleControl := PCI, memoryCycle := 0, cycleEnded := false,
       stack := s, ioDataLatch := EmittedHigh(s))
  }

  function AfterT1(m: Machine, start: Isa.Start): (r: Machine)
    requires BusMachine.Valid(m)
    ensures BusMachine.Valid(r)
  {
    var c := Fetching(m.core, start);
    LatchLow(m, EmittedLow(c.stack)).(
      core := c.(state := if start.Fetch? then T1 else T1I, ioDataLatch := EmittedLow(c.stack)),
      interruptPending := false, interruptCycle := start.Interrupt?)
  }

  function AfterT2(m: Machine, start: Isa.Start): (r: Machine)
    requires BusMachine.Valid(m)
    ensures BusMachine.Valid(r)
  {
    m.(core := Fetching(m.core, start).(state := T2),
       address := View(m.core.stack)[0],
       control := PCI,
       interruptPending := false, interruptCycle := start.Interrupt?)
  }

  lemma FirstState(board: Isa.Board, m: Machine, start: Isa.Start)
    requires BusMachine.Valid(m) && CanBegin(m, start)
    ensures Micro(board, Run(board, m, start, 0), Offered(start)) == AfterT1(m, start)
  {
    var m0 := Run(board, m, start, 0);
    var state := if start.Fetch? then T1 else T1I;
    assert ChangeState(m0.core, m0.interruptPending, true) == (m.core.(cycleControl := PCI), Some(state));
  }

  lemma SecondState(board: Isa.Board, m: Machine, start: Isa.Start)
    requires BusMachine.Valid(m) && CanBegin(m, start)
    ensures Micro(board, AfterT1(m, start), Offered(start)) == AfterT2(m, start)
  {
    var c := Fetching(m.core, start);
    ViewEmitLow(m.core.stack, start.Fetch?);
    Reassembled(m.address, EmittedHigh(c.stack), EmittedLow(c.stack));
    var m1 := AfterT1(m, start);
    assert ChangeState(m1.core, m1.interruptPending, true) == (m1.core, Some(T2));
    assert EnterState(m1.core, T2, LeftOnPins(m1.core)) == c.(state := T2);
  }

  lemma ThirdState(board: Isa.Board, m2: Machine, jammed: Option<Byte>)
    requires BusMachine.Valid(m2) && m2.core.state == T2 && !m2.core.faulted
    ensures Micro(board, m2, jammed) == Enter(board, m2, T3, jammed)
  {
    assert ChangeState(m2.core, m2.interruptPending, true).1 == Some(T3);
  }

  lemma Reassembled(address: nat, high: Byte, low: Byte)
    requires high < 64
    ensures high * 256 + (address / 256 * 256 + low) % 256 == Isa.Address(high, low)
    ensures CycleControlOf(high) == PCI
  {
  }

  lemma FetchCycle(board: Isa.Board, m: Machine, start: Isa.Start)
    requires BusMachine.Valid(m) && CanBegin(m, start)
    ensures Run(board, m, start, 1) == AfterT1(m, start)
    ensures Run(board, m, start, 2) == AfterT2(m, start)
    ensures Run(board, m, start, 3)
            == AfterT2(m, start).(core := ExecuteT3(Fetching(m.core, start), Isa.Opcode(Abstract(m), start)))
  {
    FirstState(board, m, start);
    SecondState(board, m, start);
    ThirdState(board, AfterT2(m, start), Offered(start));
  }

  // A cycle is over and another one of the same instruction follows.
  predicate CanContinue(m: Machine) {
    && CpuCore.Valid(m.core)
    && !m.core.faulted
    && m.core.state in {T3, T4}
    && m.core.cycleEnded
    && m.core.decoded.Some?
    && Name(m.core) != HLT
    && m.core.memoryCycle < 2
    && m.core.nextCycleControl == Following(m.core).cc != PCI
  }

  function Following(c: Core): OtherCycle {
    if c.memoryCycle == 0 then Row(Name(c)).cycle2 else Row(Name(c)).cycle3
  }

  function LowOut(c: Core): Byte
    requires CpuCore.Valid(c)
  {
    match Following(c).t1
    case Out_Reg_L => c.registers[REG_L]
    case Out_PC_L => EmittedLow(EmitLow(c.stack, true))
    case Out_Reg_A => c.registers[REG_A]
  }

  function HighOut(c: Core): Byte
    requires CpuCore.Valid(c)
  {
    match Following(c).t2
    case Out_Reg_H => c.registers[REG_H]
    case Out_PC_H => EmittedHigh(StackAfter(c))
    case Out_Reg_b_At_T2 => c.hiddenB
  }

  function StackAfter(c: Core): (s: Stack)
    requires CpuCore.Valid(c)
    ensures AddressStacks.Valid(s)
  {
    if Following(c).t1.Out_PC_L? then EmitLow(c.stack, true) else c.stack
  }

  // The processor when T3 of the following cycle starts.
  function Continuing(c: Core): (r: Core)
    requires CpuCore.Valid(c)
    ensures CpuCore.Valid(r)
  {
    c.(state := T3, cycleControl := c.nextCycleControl, memoryCycle := c.memoryCycle + 1, cycleEnded := false,
       stack := StackAfter(c), ioDataLatch := HighOut(c))
  }

  function AfterT1Again(m: Machine): (r: Machine)
    requires BusMachine.Valid(m)
    ensures BusMachine.Valid(r)
  {
    LatchLow(m, LowOut(m.core)).(
      core := Continuing(m.core).(state := T1, ioDataLatch := LowOut(m.core)),
      interruptCycle := false)
  }

  function AfterT2Again(m: Machine): (r: Machine)
    requires BusMachine.Valid(m)
    ensures BusMachine.Valid(r)
  {
    m.(core := Continuing(m.core).(state := T2),
       address := Isa.Address(HighOut(m.core), LowOut(m.core)),
       control := m.core.nextCycleControl,
       interruptCycle := false)
  }

  lemma FirstStateAgain(board: Isa.Board, m: Machine, jammed: Option<Byte>)
    requires BusMachine.Valid(m) && CanContinue(m)
    ensures Micro(board, m, jammed) == AfterT1Again(m)
  {
    assert ChangeState(m.core, m.interruptPending, true)
           == (m.core.(cycleControl := m.core.nextCycleControl), Some(T1));
    T1Again(m.core, LeftOnPins(m.core.(cycleControl := m.core.nextCycleControl)));
  }

  lemma T1Again(c: Core, pins: Byte)
    requires CpuCore.Valid(c) && c.decoded.Some? && c.memoryCycle < 2 && c.nextCycleControl == Following(c).cc != PCI
    ensures EnterState(c.(cycleControl := c.nextCycleControl), T1, pins)
            == Continuing(c).(state := T1, ioDataLatch := LowOut(c))
  {
    var c1 := c.(cycleControl := c.nextCycleControl, state := T1, cycleEnded := false);
    assert LaterCycle(UpdateMemoryCycle(c1)) == Following(c);
    assert EnterState(c.(cycleControl := c.nextCycleControl), T1, pins) == ExecuteT1Common(UpdateMemoryCycle(c1));
  }

  lemma T2Again(c: Core, pins: Byte)
    requires CpuCore.Valid(c) && c.decoded.Some? && c.memoryCycle < 2 && c.nextCycleControl == Following(c).cc != PCI
    ensures EnterState(Continuing(c).(state := T1, ioDataLatch := LowOut(c)), T2, pins) == Continuing(c).(state := T2)
  {
    assert LaterCycle(Continuing(c)) == Following(c);
  }

  lemma SecondStateAgain(board: Isa.Board, m: Machine, jammed: Option<Byte>)
    requires BusMachine.Valid(m) && CanContinue(m)
    ensures Micro(board, AfterT1Again(m), jammed) == AfterT2Again(m)
  {
    DrivenFields(m.address, HighOut(m.core), LowOut(m.core), m.core.nextCycleControl);
    assert ChangeState(AfterT1Again(m).core, m.interruptPending, true) == (AfterT1Again(m).core, Some(T2));
    T2Again(m.core, LeftOnPins(AfterT1Again(m).core));
  }

  // What T1 and T2 multiplex is taken apart and put together again.
  lemma DrivenFields(address: nat, high: Byte, low: Byte, cc: CycleControl)
    ensures var driven := high % 64 + cc.Code();
            && CycleControlOf(driven) == cc
            && driven % 64 * 256 + (address / 256 * 256 + low) % 256 == Isa.Address(high, low)
  {
  }

  // A cycle that follows another one, up to its T2 and then its T3.
  lemma FollowingCycle(board: Isa.Board, m: Machine, jammed: Option<Byte>)
    requires BusMachine.Valid(m) && CanContinue(m)
    ensures Micro(board, m, jammed) == AfterT1Again(m)
    ensures Micro(board, AfterT1Again(m), jammed) == AfterT2Again(m)
    ensures Micro(board, AfterT2Again(m), jammed) == Enter(board, AfterT2Again(m), T3, jammed)
  {
    FirstStateAgain(board, m, jammed);
    SecondStateAgain(board, m, jammed);
    ThirdState(board, AfterT2Again(m), jammed);
  }
}
