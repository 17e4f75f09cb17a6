/** Every run of the machine, whatever READY, the interrupts and the jammed opcodes are, is a run of
    the instruction set. */
module Runs {
  import opened Bytes
  import opened Microcode
  import opened CpuCore
  import opened BusMachine
  import opened AddressStacks
  import opened Cycles
  import opened Instructions
  import opened Refinement
  import Isa

  // An instruction that has run to its end.
  datatype Executed = Executed(start: Isa.Start, states: nat, after: Isa.Arch)

  // What an observer of the states makes of a run. It counts the states in which the processor does
  // not wait, and takes note of every instruction that ends.
  datatype Observer = Observer(
    boundary: Machine,        // the machine when the last instruction ended
    machine: Machine,
    start: Isa.Start,         // how the current instruction started
    states: nat,              // how many states it has taken
    done: seq<Executed>)

  predicate Consistent(o: Observer) {
    BusMachine.Valid(o.boundary) && BusMachine.Valid(o.machine)
  }

  function Begin(m: Machine): Observer {
    Observer(m, m, Isa.Fetch, 0, [])
  }

  // The start of the instruction as known after T3.
  function Known(start: Isa.Start, states: nat, m: Machine, jammed: Option<Byte>): Isa.Start {
    if states == 2 && m.interruptCycle then Isa.Interrupt(jammed) else start
  }

  // How the current instruction started, as seen on the state lines. The opcode jammed during an
  // interrupt is known in T3.
  function StartSeen(o: Observer, m: Machine, jammed: Option<Byte>): Isa.Start {
    if AtBoundary(o.machine) then (if m.core.state.T1I? then Isa.Interrupt(None) else Isa.Fetch)
    else Known(o.start, o.states, m, jammed)
  }

  function Observe(board: Isa.Board, o: Observer, e: Env): (r: Observer)
    requires Consistent(o)
    ensures Consistent(r)
  {
    var m := Advance(board, o.machine, e);
    if o.machine.core.faulted || m.core.state.WAIT? || (AtBoundary(o.machine) && AtBoundary(m)) then o.(machine := m)
    else
      var start, states := StartSeen(o, m, e.jammed), o.states + 1;
      if AtBoundary(m) then Observer(m, m, start, 0, o.done + [Executed(start, states, Abstract(m))])
      else o.(machine := m, start := start, states := states)
  }

  // The observation of a whole run.
  function ObserveAll(board: Isa.Board, o: Observer, envs: seq<Env>): (r: Observer)
    requires Consistent(o)
    ensures Consistent(r)
    decreases |envs|
  {
    if envs == [] then o
    else Observe(board, ObserveAll(board, o, envs[..|envs| - 1]), envs[|envs| - 1])
  }

  // The state after the instructions, from s.
  function Last(s: Isa.Arch, done: seq<Executed>): Isa.Arch {
    if done == [] then s else done[|done| - 1].after
  }

  // Each instruction is defined, does a step of the instruction set, and takes the states of the manual.
  predicate IsRun(board: Isa.Board, s: Isa.Arch, done: seq<Executed>)
    decreases |done|
  {
    done == [] ||
    var last, before := done[|done| - 1], Last(s, done[..|done| - 1]);
    && IsRun(board, s, done[..|done| - 1])
    && Isa.WellFormed(before)
    && IsStep(board, before, last)
  }

  predicate IsStep(board: Isa.Board, before: Isa.Arch, e: Executed)
    requires Isa.WellFormed(before)
  {
    var i := Isa.Meaning(Isa.Opcode(before, e.start));
    && i != Isa.Undefined
    && e.after == Isa.Step(board, before, e.start)
    && e.states == Isa.StateCount(i, before.flags)
  }

  // A machine without the interrupt that waits for the end of the instruction, and without WAIT.
  function Quiet(m: Machine): (r: Machine)
    ensures BusMachine.Valid(m) ==> BusMachine.Valid(r)
  {
    m.(interruptPending := false, core := m.core.(state := if m.core.state.WAIT? then T2 else m.core.state))
  }

  // The machine is where the undisturbed instruction is after as many states.
  predicate Follows(board: Isa.Board, b: Machine, start: Isa.Start, states: nat, m: Machine)
    requires BusMachine.Valid(b) && BusMachine.Valid(m)
  {
    && Begins(b, start)
    && Quiet(m) == Run(board, b, start, states)
    && (m.core.state.STOPPED? ==> m.core.cycleControl.PCI?)
    && (m.core.state.T1I? ==> states == 1)
    && (m.core.state.T1? ==> !m.interruptCycle)
    && (m.core.state in {T2, WAIT} && m.interruptCycle ==> states == 2)
  }

  // After as many states the instruction is not over. If it is undefined an assertion has failed in T3.
  predicate Unfinished(b: Machine, start: Isa.Start, states: nat, m: Machine)
    requires BusMachine.Valid(b) && Begins(b, start)
  {
    var i := Isa.Meaning(Code(b, start));
    if i == Isa.Undefined && states >= 3 then m.core.faulted
    else InProgress(m) && (states < 3 || states < Isa.StateCount(i, Abstract(b).flags))
  }

  predicate Midway(board: Isa.Board, o: Observer)
    requires Consistent(o)
  {
    && Follows(board, o.boundary, o.start, o.states, o.machine)
    && Unfinished(o.boundary, o.start, o.states, o.machine)
  }

  predicate Invariant(board: Isa.Board, s: Isa.Arch, o: Observer)
    requires Consistent(o)
  {
    && AtBoundary(o.boundary)
    && Last(s, o.done) == Abstract(o.boundary)
    && IsRun(board, s, o.done)
    && if o.states == 0 then o.machine == o.boundary.(interruptPending := o.machine.interruptPending)
       else Midway(board, o)
  }

  // Only in T3 are the data pins read, and only during an interrupt is an opcode jammed there.
  lemma JamIrrelevant(board: Isa.Board, m: Machine, state: TState, j: Option<Byte>, k: Option<Byte>)
    requires BusMachine.Valid(m) && (state.T3? ==> !m.interruptCycle)
    ensures Enter(board, m, state, j) == Enter(board, m, state, k)
  {
    hide ExecuteT1, ExecuteT1I, ExecuteT2, ExecuteT3, ExecuteT4, ExecuteT5, LatchLow, LatchHigh, Store;
  }

  // Leaving a boundary: the first state.
  lemma Leaving(board: Isa.Board, b: Machine, pending: bool, e: Env)
    requires BusMachine.Valid(b) && AtBoundary(b)
    ensures var m := Advance(board, b.(interruptPending := pending), e);
            var start := if pending || e.interrupt then Isa.Interrupt(None) else Isa.Fetch;
            if b.core.state.STOPPED? && start.Fetch? then m == b.(interruptPending := false)
            else Begins(b, start) && m == AfterT1(b, start)
  {
    var start := if pending || e.interrupt then Isa.Interrupt(None) else Isa.Fetch;
    hide Enter, AfterT1;
    if !(b.core.state.STOPPED? && start.Fetch?) {
      var first := if start.Interrupt? then T1I else T1;
      var c := b.core.(cycleControl := PCI);
      assert ChangeState(b.core, start.Interrupt?, e.ready) == (c, Some(first));
      assert ChangeState(b.core, start.Interrupt?, true) == (c, Some(first));
      FirstState(board, b, start);
      JamIrrelevant(board, b.(core := c, interruptPending := false), first, e.jammed, None);
    }
  }

  // Until it ends, an instruction does not see the interrupt that waits.
  lemma DecisionQuiet(m: Machine, interrupt: bool, ready: bool)
    requires InProgress(m) && !m.core.state.STOPPED? && (m.core.state in {T2, WAIT} ==> ready)
    ensures var (c, next) := ChangeState(m.core, interrupt, ready);
            && ChangeState(Quiet(m).core, false, true) == (c.(state := Quiet(m).core.state), next)
            && c == m.core.(cycleControl := c.cycleControl, faulted := c.faulted) && next !in {Some(WAIT), Some(T1I)}
            && (next.None? ==> m.core.state in {T3, T5})
            && (m.core.state in {T2, WAIT} ==> next == Some(T3))
            && (next == Some(T2) ==> m.core.state in {T1, T1I})
            && (next == Some(STOPPED) ==> c.cycleControl.PCI?)
  {
  }

  lemma EntryState(c: Core, state: TState, pins: Byte, previous: TState)
    requires CpuCore.Valid(c)
    ensures EnterState(c.(state := previous), state, pins) == EnterState(c, state, pins)
    ensures state.STOPPED? ==> EnterState(c, state, pins).cycleControl == c.cycleControl
  {
    hide ExecuteT1, ExecuteT1I, ExecuteT2, ExecuteT3, ExecuteT4, ExecuteT5;
  }

  lemma EntryFrame(board: Isa.Board, m: Machine, state: TState, jammed: Option<Byte>)
    requires BusMachine.Valid(m)
    ensures var r := Enter(board, m, state, jammed);
            && r.core.state == state
            && r.interruptCycle == (if state.T1? then false else if state.T1I? then true else m.interruptCycle)
            && (state.STOPPED? ==> r.core.cycleControl == m.core.cycleControl)
  {
    EntryState(m.core, state, LeftOnPins(m.core), state);
    hide EnterState, ExecuteT3, LatchLow, LatchHigh, Driven, Returned;
  }

  lemma EntrySame(board: Isa.Board, m: Machine, jammed: Option<Byte>, previous: TState)
    requires BusMachine.Valid(m)
    ensures Returned(board, m.(interruptPending := false, core := m.core.(state := previous)), jammed)
            == Returned(board, m, jammed)
    ensures LeftOnPins(m.core.(state := previous)) == LeftOnPins(m.core)
  {
  }

  lemma EntryQuiet(board: Isa.Board, m: Machine, state: TState, jammed: Option<Byte>, previous: TState)
    requires BusMachine.Valid(m)
    ensures var quiet := m.(interruptPending := false, core := m.core.(state := previous));
            Enter(board, quiet, state, jammed) == Enter(board, m, state, jammed).(interruptPending := false)
  {
    hide Returned, LeftOnPins, EnterState, ExecuteT3, CycleControlOf, Driven, Reads;
    EntrySame(board, m, jammed, previous);
    EntryState(m.core, state, LeftOnPins(m.core), previous);
    match state {
      case T3 =>
      case T2 => hide Store;
      case _ => hide Store;
    }
  }

  // A state of an instruction that goes on, unless the processor waits.
  lemma StepQuiet(board: Isa.Board, m: Machine, e: Env)
    requires BusMachine.Valid(m) && InProgress(m) && !m.core.state.STOPPED?
    requires m.core.state in {T2, WAIT} ==> e.ready
    ensures Quiet(Advance(board, m, e)) == Micro(board, Quiet(m), e.jammed)
  {
    hide ChangeState, Enter, AtBoundary;
    var interrupt := m.interruptPending || e.interrupt;
    DecisionQuiet(m, interrupt, e.ready);
    var (c, next) := ChangeState(m.core, interrupt, e.ready);
    var previous := Quiet(m).core.state;
    var m1 := m.(core := c, interruptPending := interrupt);
    if next.Some? {
      assert Advance(board, m, e) == Enter(board, m1, next.value, e.jammed);
      EntryFrame(board, m1, next.value, e.jammed);
      EntryQuiet(board, m1, next.value, e.jammed, previous);
    }
  }

  lemma StepFrame(board: Isa.Board, m: Machine, e: Env)
    requires BusMachine.Valid(m) && InProgress(m) && !m.core.state.STOPPED?
    requires m.core.state in {T2, WAIT} ==> e.ready
    ensures var r := Advance(board, m, e);
            && !r.core.state.WAIT? && !r.core.state.T1I?
            && (r.core.state.T1? ==> !r.interruptCycle)
            && (!r.core.state.T1? ==> r.interruptCycle == m.interruptCycle)
            && (r.core.state.STOPPED? ==> r.core.cycleControl.PCI?)
            && (r.core.state.T2? ==> m.core.state in {T1, T1I})
            && (m.core.state in {T2, WAIT} ==> r.core.state.T3?)
  {
    hide ChangeState, Enter, AtBoundary;
    var interrupt := m.interruptPending || e.interrupt;
    DecisionQuiet(m, interrupt, e.ready);
    var (c, next) := ChangeState(m.core, interrupt, e.ready);
    if next.Some? {
      EntryFrame(board, m.(core := c, interruptPending := interrupt), next.value, e.jammed);
    }
  }

  lemma JamStep(board: Isa.Board, m: Machine, j: Option<Byte>, k: Option<Byte>)
    requires BusMachine.Valid(m) && (m.core.state.T2? || m.core.state.WAIT? ==> !m.interruptCycle)
    ensures Micro(board, m, j) == Micro(board, m, k)
  {
    var (c, next) := ChangeState(m.core, m.interruptPending, true);
    var m1 := m.(core := c, interruptPending := m.interruptPending && next != Some(T1I));
    if next.Some? {
      assert next.value.T3? ==> m.core.state.T2? || m.core.state.WAIT?;
      hide Enter, ChangeState;
      JamIrrelevant(board, m1, next.value, j, k);
    }
  }

  // Before T3 the jammed opcode does not matter.
  lemma JamLater(board: Isa.Board, b: Machine, j: Option<Byte>)
    requires Begins(b, Isa.Interrupt(None))
    ensures Run(board, b, Isa.Interrupt(j), 2) == Run(board, b, Isa.Interrupt(None), 2)
  {
    hide Run;
    FetchCycle(board, b, Isa.Interrupt(None));
    FetchCycle(board, b, Isa.Interrupt(j));
  }

  lemma FollowsOne(board: Isa.Board, b: Machine, start: Isa.Start)
    requires BusMachine.Valid(b) && Begins(b, start)
    ensures Follows(board, b, start, 1, AfterT1(b, start)) && InProgress(AfterT1(b, start))
  {
    hide Run;
    FetchCycle(board, b, start);
  }

  lemma FollowsTwo(board: Isa.Board, b: Machine, start: Isa.Start, m: Machine)
    requires BusMachine.Valid(b) && BusMachine.Valid(m) && Follows(board, b, start, 2, m)
    ensures m.core.state in {T2, WAIT} && m.interruptCycle == start.Interrupt? && InProgress(m)
    ensures start.Interrupt? ==> Run(board, b, start, 2) == Run(board, b, Isa.Interrupt(None), 2)
  {
    hide Run;
    FetchCycle(board, b, start);
    if start.Interrupt? {
      FetchCycle(board, b, Isa.Interrupt(None));
    }
  }

  // The next state of the undisturbed instruction, whatever is offered on the pins before T3.
  lemma RunContinues(board: Isa.Board, b: Machine, start: Isa.Start, states: nat, m: Machine, jammed: Option<Byte>)
    requires BusMachine.Valid(b) && BusMachine.Valid(m) && states >= 1 && Follows(board, b, start, states, m)
    ensures var seen := Known(start, states, m, jammed);
            Begins(b, seen) && Micro(board, Quiet(m), jammed) == Run(board, b, seen, states + 1)
  {
    hide Micro, AtBoundary, InProgress;
    if states == 2 {
      FollowsTwo(board, b, start, m);
    }
    if states == 2 && m.interruptCycle {
      assert start.Interrupt?;
      JamLater(board, b, jammed);
    } else {
      JamStep(board, Quiet(m), jammed, Offered(start));
    }
  }

  lemma GoesOn(m: Machine)
    requires InProgress(m) && (m.core.state.STOPPED? ==> m.core.cycleControl.PCI?)
    ensures !m.core.state.STOPPED?
  {
  }

  lemma Advances(board: Isa.Board, b: Machine, start: Isa.Start, states: nat, m: Machine, e: Env)
    requires BusMachine.Valid(b) && BusMachine.Valid(m) && states >= 1 && Follows(board, b, start, states, m)
    requires InProgress(m) && (m.core.state in {T2, WAIT} ==> e.ready)
    ensures var r := Advance(board, m, e);
            && Follows(board, b, Known(start, states, r, e.jammed), states + 1, r)
            && !r.core.state.WAIT?
  {
    hide Advance, Micro, InProgress, AtBoundary, Begins, Run, BusMachine.Valid;
    GoesOn(m);
    if states == 2 {
      FollowsTwo(board, b, start, m);
    }
    StepQuiet(board, m, e);
    StepFrame(board, m, e);
    RunContinues(board, b, start, states, m, e.jammed);
  }

  lemma QuietSame(m: Machine)
    requires BusMachine.Valid(m)
    ensures AtBoundary(Quiet(m)) == AtBoundary(m) && InProgress(Quiet(m)) == InProgress(m)
    ensures Abstract(Quiet(m)) == Abstract(m)
    ensures Quiet(m).core.faulted == m.core.faulted
  {
    hide AddressStacks.View;
  }

  // While the processor waits nothing changes but its state.
  lemma Waits(board: Isa.Board, m: Machine, e: Env)
    requires BusMachine.Valid(m) && !m.core.faulted && m.core.state in {T2, WAIT} && !e.ready
    ensures var r := Advance(board, m, e);
            && r == m.(core := m.core.(state := WAIT), interruptPending := m.interruptPending || e.interrupt)
            && InProgress(r)
  {
    hide ExecuteT1, ExecuteT1I, ExecuteT2, ExecuteT3, ExecuteT4, ExecuteT5;
  }

  lemma StateCountBounds(i: Isa.Instr, flags: Isa.Flags)
    ensures 3 <= Isa.StateCount(i, flags) <= 11
  {
  }

  lemma Completion(board: Isa.Board, b: Machine, start: Isa.Start, count: nat, after: Isa.Arch, k: nat)
    requires BusMachine.Valid(b) && CompletesIn(board, b, start, count, after) && 1 <= k <= count
    ensures var r := Run(board, b, start, k);
            if k < count then InProgress(r) else AtBoundary(r) && Abstract(r) == after
  {
    hide Run, AtBoundary, InProgress, Abstract, Underway;
    if k < count {
      UnderwayAt(board, b, start, count, k);
    }
  }

  // The instruction is not over, or it is over and its effect is that of the instruction set.
  lemma DefinedProgress(board: Isa.Board, b: Machine, start: Isa.Start, states: nat, m: Machine)
    requires BusMachine.Valid(b) && BusMachine.Valid(m) && Follows(board, b, start, states, m)
    requires Isa.Meaning(Code(b, start)) != Isa.Undefined
    requires 1 <= states <= Isa.StateCount(Isa.Meaning(Code(b, start)), Abstract(b).flags)
    ensures if states < Isa.StateCount(Isa.Meaning(Code(b, start)), Abstract(b).flags) then InProgress(m)
            else AtBoundary(m) && Abstract(m) == Isa.Step(board, Abstract(b), start)
  {
    var count := Isa.StateCount(Isa.Meaning(Code(b, start)), Abstract(b).flags);
    hide Isa.Step, Isa.Meaning, Isa.StateCount, Code, Begins, Run, AtBoundary, InProgress, Abstract, Quiet, CompletesIn;
    InstructionRefines(board, b, start);
    QuietSame(m);
    Completion(board, b, start, count, Isa.Step(board, Abstract(b), start), states);
  }

  lemma UndefinedProgress(board: Isa.Board, b: Machine, start: Isa.Start, states: nat, m: Machine)
    requires BusMachine.Valid(b) && BusMachine.Valid(m) && Follows(board, b, start, states, m)
    requires Isa.Meaning(Code(b, start)) == Isa.Undefined && 1 <= states <= 3
    ensures if states < 3 then InProgress(m) else m.core.faulted
  {
    hide Isa.Meaning, Code, Begins, Run, AtBoundary, InProgress, Abstract, Quiet;
    UndefinedFaults(board, b, start);
    QuietSame(m);
    if states < 3 {
      UnderwayAt(board, b, start, 3, states);
    }
  }

  // Between two instructions.
  lemma ObserveResting(board: Isa.Board, s: Isa.Arch, o: Observer, e: Env)
    requires Consistent(o) && Invariant(board, s, o) && o.states == 0
    ensures Invariant(board, s, Observe(board, o, e))
  {
    var b, r := o.boundary, Observe(board, o, e);
    var start := if o.machine.interruptPending || e.interrupt then Isa.Interrupt(None) else Isa.Fetch;
    RestingStep(o);
    hide IsRun, Last, Run, Isa.Meaning, Code, Advance, Begins, Abstract;
    Leaving(board, b, o.machine.interruptPending, e);
    if !(b.core.state.STOPPED? && start.Fetch?) {
      FollowsOne(board, b, start);
    }
  }

  lemma RestingStep(o: Observer)
    requires Consistent(o) && AtBoundary(o.boundary)
    requires o.machine == o.boundary.(interruptPending := o.machine.interruptPending)
    ensures AtBoundary(o.machine) && !o.machine.core.faulted && !o.boundary.core.state.WAIT?
  {
  }

  // During an instruction, while the processor waits.
  lemma ObserveWaiting(board: Isa.Board, s: Isa.Arch, o: Observer, e: Env)
    requires Consistent(o) && Invariant(board, s, o) && o.states > 0 && !o.machine.core.faulted
    requires o.machine.core.state in {T2, WAIT} && !e.ready
    ensures Invariant(board, s, Observe(board, o, e))
  {
    Waits(board, o.machine, e);
    hide IsRun, Last, Run, Isa.Meaning, Code, Advance, Begins, Abstract;
  }

  lemma OneMore(b: Machine, start: Isa.Start, states: nat, m: Machine, known: Isa.Start)
    requires BusMachine.Valid(b) && Begins(b, start) && Unfinished(b, start, states, m) && !m.core.faulted
    requires states == 2 || known == start
    ensures InProgress(m)
    ensures states < 3 || (Isa.Meaning(Code(b, known)) != Isa.Undefined
                           && states < Isa.StateCount(Isa.Meaning(Code(b, known)), Abstract(b).flags))
  {
    hide Isa.Meaning, Isa.StateCount, Code, Abstract, Begins;
  }

  lemma OverOrNot(board: Isa.Board, b: Machine, start: Isa.Start, states: nat, m: Machine)
    requires BusMachine.Valid(b) && BusMachine.Valid(m) && Follows(board, b, start, states, m) && 1 <= states
    requires states <= 3 || (Isa.Meaning(Code(b, start)) != Isa.Undefined
                             && states <= Isa.StateCount(Isa.Meaning(Code(b, start)), Abstract(b).flags))
    ensures AtBoundary(m) ==> IsStep(board, Abstract(b), Executed(start, states, Abstract(m)))
    ensures !AtBoundary(m) ==> Unfinished(b, start, states, m)
  {
    var i := Isa.Meaning(Code(b, start));
    CodeIs(b, start);
    hide Isa.Meaning, Isa.StateCount, Isa.Step, Isa.Opcode, Code, Abstract, Begins, Run, Quiet;
    StateCountBounds(i, Abstract(b).flags);
    if i == Isa.Undefined {
      UndefinedProgress(board, b, start, states, m);
    } else {
      DefinedProgress(board, b, start, states, m);
    }
  }

  // A state of an instruction in which the processor does not wait.
  lemma WorkingStep(board: Isa.Board, o: Observer, e: Env)
    requires Consistent(o) && Midway(board, o) && o.states > 0 && !o.machine.core.faulted
    requires o.machine.core.state in {T2, WAIT} ==> e.ready
    ensures var m := Advance(board, o.machine, e);
            var start := Known(o.start, o.states, m, e.jammed);
            && Follows(board, o.boundary, start, o.states + 1, m) && !m.core.state.WAIT?
            && InProgress(o.machine)
            && (AtBoundary(m) ==> IsStep(board, Abstract(o.boundary), Executed(start, o.states + 1, Abstract(m))))
            && (!AtBoundary(m) ==> Unfinished(o.boundary, start, o.states + 1, m))
  {
    hide Isa.Meaning, Isa.StateCount, Isa.Opcode, Code, Abstract, Run, Quiet, Advance, Unfinished, IsStep,
      InProgress, AtBoundary;
    hide CanBegin, BusMachine.Valid;
    var b, m := o.boundary, Advance(board, o.machine, e);
    var start := Known(o.start, o.states, m, e.jammed);
    OneMore(b, o.start, o.states, o.machine, start);
    Advances(board, b, o.start, o.states, o.machine, e);
    OverOrNot(board, b, start, o.states + 1, m);
  }

  lemma CodeIs(b: Machine, start: Isa.Start)
    requires Begins(b, start)
    ensures Code(b, start) == Isa.Opcode(Abstract(b), start)
  {
  }

  lemma {:induction false} RunGoesOn(board: Isa.Board, s: Isa.Arch, done: seq<Executed>, e: Executed)
    requires IsRun(board, s, done) && Isa.WellFormed(Last(s, done)) && IsStep(board, Last(s, done), e)
    ensures IsRun(board, s, done + [e]) && Last(s, done + [e]) == e.after
  {
    hide Isa.WellFormed, IsStep;
    assert (done + [e])[..|done|] == done;
  }

  lemma Observed(board: Isa.Board, o: Observer, e: Env)
    requires Consistent(o) && InProgress(o.machine) && !Advance(board, o.machine, e).core.state.WAIT?
    ensures var m := Advance(board, o.machine, e);
            var start := Known(o.start, o.states, m, e.jammed);
            Observe(board, o, e)
            == if AtBoundary(m) then Observer(m, m, start, 0, o.done + [Executed(start, o.states + 1, Abstract(m))])
               else o.(machine := m, start := start, states := o.states + 1)
  {
    hide Advance, AtBoundary, Abstract, Known;
  }

  // During an instruction, in a state that may be the last one.
  lemma ObserveWorking(board: Isa.Board, s: Isa.Arch, o: Observer, e: Env)
    requires Consistent(o) && Invariant(board, s, o) && o.states > 0 && !o.machine.core.faulted
    requires o.machine.core.state in {T2, WAIT} ==> e.ready
    ensures Invariant(board, s, Observe(board, o, e))
  {
    hide Run, Advance, Begins, Abstract, Isa.WellFormed, IsStep, IsRun, Last, Unfinished, Follows, AtBoundary, Known,
      Observe, InProgress;
    var m := Advance(board, o.machine, e);
    WorkingStep(board, o, e);
    Observed(board, o, e);
    if AtBoundary(m) {
      RunGoesOn(board, s, o.done, Executed(Known(o.start, o.states, m, e.jammed), o.states + 1, Abstract(m)));
      AtRest(m);
    }
  }

  lemma AtRest(m: Machine)
    ensures m == m.(interruptPending := m.interruptPending)
  {
  }

  lemma ObserveOne(board: Isa.Board, s: Isa.Arch, o: Observer, e: Env)
    requires Consistent(o) && Invariant(board, s, o)
    ensures Invariant(board, s, Observe(board, o, e))
  {
    hide Invariant, Observe;
    if o.machine.core.faulted {
      ObserveFaulted(board, o, e);
    } else if o.states == 0 {
      ObserveResting(board, s, o, e);
    } else if o.machine.core.state in {T2, WAIT} && !e.ready {
      ObserveWaiting(board, s, o, e);
    } else {
      ObserveWorking(board, s, o, e);
    }
  }

  // A failed assertion stops everything.
  lemma ObserveFaulted(board: Isa.Board, o: Observer, e: Env)
    requires Consistent(o) && o.machine.core.faulted
    ensures Observe(board, o, e) == o
  {
  }

  lemma {:induction false} InvariantAlways(board: Isa.Board, m: Machine, envs: seq<Env>)
    requires BusMachine.Valid(m) && AtBoundary(m)
    ensures Invariant(board, Abstract(m), ObserveAll(board, Begin(m), envs))
    decreases |envs|
  {
    if envs == [] {
      AtRest(m);
    } else {
      var before := ObserveAll(board, Begin(m), envs[..|envs| - 1]);
      InvariantAlways(board, m, envs[..|envs| - 1]);
      ObserveOne(board, Abstract(m), before, envs[|envs| - 1]);
    }
  }

  // Whatever happens around the processor, the instructions that end are a run of the instruction
  // set from the state it started in. At the end of each one the machine holds its state.
  lemma EveryRunIsARun(board: Isa.Board, m: Machine, envs: seq<Env>)
    requires BusMachine.Valid(m) && AtBoundary(m)
    ensures var o := ObserveAll(board, Begin(m), envs);
            && IsRun(board, Abstract(m), o.done)
            && (o.states == 0 <==> AtBoundary(o.machine))
            && (o.states == 0 ==> Abstract(o.machine) == Last(Abstract(m), o.done))
  {
    InvariantAlways(board, m, envs);
    var o := ObserveAll(board, Begin(m), envs);
    hide ObserveAll, IsRun, Last, Run, Isa.Meaning, Code, AddressStacks.View;
    if o.states == 0 {
      RestingStep(o);
    }
  }

  // An assertion of the source fails in a run exactly when an undefined opcode has been fetched.
  lemma FaultsExactlyOnUndefined(board: Isa.Board, m: Machine, envs: seq<Env>)
    requires BusMachine.Valid(m) && AtBoundary(m)
    ensures var o := ObserveAll(board, Begin(m), envs);
            && Isa.WellFormed(Last(Abstract(m), o.done))
            && (o.machine.core.faulted <==>
                o.states >= 3 && Isa.Meaning(Isa.Opcode(Last(Abstract(m), o.done), o.start)) == Isa.Undefined)
  {
    InvariantAlways(board, m, envs);
    var o := ObserveAll(board, Begin(m), envs);
    hide ObserveAll, IsRun, Last, Run, Isa.Meaning, Isa.Opcode, Code, Abstract;
    if o.states == 0 {
      RestingStep(o);
    } else {
      CodeIs(o.boundary, o.start);
    }
  }

  // While it is not waiting for READY and not halted, the processor goes one state further, and no
  // instruction takes more than eleven.
  lemma Progress(board: Isa.Board, m: Machine, envs: seq<Env>, e: Env)
    requires BusMachine.Valid(m) && AtBoundary(m)
    ensures var o := ObserveAll(board, Begin(m), envs);
            var r := Observe(board, o, e);
            o.machine.core.faulted || (o.machine.core.state in {T2, WAIT} && !e.ready)
            || (o.machine.core.state.STOPPED? && r.machine.core.state.STOPPED?)
            || (r.done == o.done && r.states == o.states + 1 && (r.machine.core.faulted || r.states <= 10))
            || (|r.done| == |o.done| + 1 && r.states == 0)
  {
    InvariantAlways(board, m, envs);
    var o := ObserveAll(board, Begin(m), envs);
    var r := Observe(board, o, e);
    ObserveOne(board, Abstract(m), o, e);
    if o.machine.core.faulted || (o.machine.core.state in {T2, WAIT} && !e.ready) {
    } else if o.states == 0 {
      FirstProgress(board, Abstract(m), o, e);
    } else {
      NextProgress(board, Abstract(m), o, e);
    }
  }

  lemma FirstProgress(board: Isa.Board, s: Isa.Arch, o: Observer, e: Env)
    requires Consistent(o) && Invariant(board, s, o) && o.states == 0
    ensures var r := Observe(board, o, e);
            (o.machine.core.state.STOPPED? && r.machine.core.state.STOPPED?) || (r.done == o.done && r.states == 1)
  {
    var b := o.boundary;
    var start := if o.machine.interruptPending || e.interrupt then Isa.Interrupt(None) else Isa.Fetch;
    RestingStep(o);
    hide IsRun, Last, Run, Isa.Meaning, Code, Advance, Begins, Abstract;
    Leaving(board, b, o.machine.interruptPending, e);
  }

  lemma NextProgress(board: Isa.Board, s: Isa.Arch, o: Observer, e: Env)
    requires Consistent(o) && Invariant(board, s, o) && o.states > 0 && !o.machine.core.faulted
    requires o.machine.core.state in {T2, WAIT} ==> e.ready
    ensures var r := Observe(board, o, e);
            if r.states == 0 then |r.done| == |o.done| + 1
            else r.done == o.done && r.states == o.states + 1 && (r.machine.core.faulted || r.states <= 10)
  {
    ObserveWorking(board, s, o, e);
    var m := Advance(board, o.machine, e);
    var start := Known(o.start, o.states, m, e.jammed);
    hide Run, Advance, Abstract, IsStep, IsRun, Last, Follows, AtBoundary, Known, InProgress, Isa.StateCount,
      Isa.Meaning, Code;
    WorkingStep(board, o, e);
    Observed(board, o, e);
    StateCountBounds(Isa.Meaning(Code(o.boundary, start)), Abstract(o.boundary).flags);
  }

  function Starts(done: seq<Executed>): (starts: seq<Isa.Start>)
    ensures |starts| == |done|
  {
    seq(|done|, k requires 0 <= k < |done| => done[k].start)
  }

  lemma {:induction false} SameStarts(board: Isa.Board, s: Isa.Arch, d1: seq<Executed>, d2: seq<Executed>)
    requires IsRun(board, s, d1) && IsRun(board, s, d2) && Starts(d1) == Starts(d2)
    ensures d1 == d2
    decreases |d1|
  {
    hide Isa.Step, Isa.StateCount, Isa.Meaning;
    var n := |d1|;
    assert n == |Starts(d1)| == |d2|;
    if n > 0 {
      assert Starts(d1[..n - 1]) == Starts(d1)[..n - 1] == Starts(d2[..n - 1]);
      SameStarts(board, s, d1[..n - 1], d2[..n - 1]);
      assert d1[n - 1].start == Starts(d1)[n - 1] == d2[n - 1].start;
      assert d1 == d1[..n - 1] + [d1[n - 1]];
      assert d2 == d2[..n - 1] + [d2[n - 1]];
    }
  }

  lemma {:induction false} RunPrefix(board: Isa.Board, s: Isa.Arch, done: seq<Executed>, n: nat)
    requires IsRun(board, s, done) && n <= |done|
    ensures IsRun(board, s, done[..n])
    decreases |done|
  {
    hide IsStep, Isa.WellFormed;
    if n < |done| {
      RunPrefix(board, s, done[..|done| - 1], n);
      assert done[..|done| - 1][..n] == done[..n];
    } else {
      assert done[..n] == done;
    }
  }

  // WAIT and the READY pattern do not show: two machines in the same architectural state, with the
  // same interrupts at the same instruction boundaries, go through the same states.
  lemma WaitsInvisible(board: Isa.Board, m1: Machine, m2: Machine, envs1: seq<Env>, envs2: seq<Env>)
    requires BusMachine.Valid(m1) && AtBoundary(m1) && BusMachine.Valid(m2) && AtBoundary(m2)
    requires Abstract(m1) == Abstract(m2)
    ensures var d1 := ObserveAll(board, Begin(m1), envs1).done;
            var d2 := ObserveAll(board, Begin(m2), envs2).done;
            Starts(d1) <= Starts(d2) ==> d1 <= d2
  {
    EveryRunIsARun(board, m1, envs1);
    EveryRunIsARun(board, m2, envs2);
    var d1 := ObserveAll(board, Begin(m1), envs1).done;
    var d2 := ObserveAll(board, Begin(m2), envs2).done;
    hide ObserveAll, IsRun, Abstract, AtBoundary, BusMachine.Valid;
    if Starts(d1) <= Starts(d2) {
      var n := |Starts(d1)|;
      RunPrefix(board, Abstract(m1), d2, n);
      assert Starts(d2[..n]) == Starts(d2)[..n] == Starts(d1);
      SameStarts(board, Abstract(m1), d1, d2[..n]);
    }
  }

  // An interrupt waits until it is acknowledged.
  lemma InterruptKept(board: Isa.Board, m: Machine, envs: seq<Env>, e: Env)
    requires BusMachine.Valid(m) && AtBoundary(m)
    ensures var o := ObserveAll(board, Begin(m), envs);
            var r := Advance(board, o.machine, e);
            var interrupt := o.machine.interruptPending || e.interrupt;
            o.machine.core.faulted ||
            (r.interruptPending == (interrupt && !r.core.state.T1I?)
             && (AtBoundary(o.machine) && interrupt ==> r.core.state.T1I?))
  {
    InvariantAlways(board, m, envs);
    var o := ObserveAll(board, Begin(m), envs);
    hide ObserveAll, IsRun, Last, Isa.Meaning, Code, Abstract, Advance, Run;
    if o.machine.core.faulted {
    } else if o.states == 0 {
      RestingStep(o);
      Leaving(board, o.boundary, o.machine.interruptPending, e);
    } else {
      InterruptWaits(board, o, e);
    }
  }

  lemma InterruptWaits(board: Isa.Board, o: Observer, e: Env)
    requires Consistent(o) && Midway(board, o) && !o.machine.core.faulted && o.states > 0
    ensures var r := Advance(board, o.machine, e);
            && InProgress(o.machine) && !r.core.state.T1I?
            && r.interruptPending == (o.machine.interruptPending || e.interrupt)
  {
    var m := o.machine;
    assert InProgress(m);
    hide Run, Isa.Meaning, Code, Abstract, Advance, AtBoundary;
    GoesOn(m);
    if m.core.state in {T2, WAIT} && !e.ready {
      Waits(board, m, e);
    } else {
      StepFrame(board, m, e);
      StepPending(board, m, e);
    }
  }

  lemma StepPending(board: Isa.Board, m: Machine, e: Env)
    requires BusMachine.Valid(m) && InProgress(m) && !m.core.state.STOPPED?
    requires m.core.state in {T2, WAIT} ==> e.ready
    ensures Advance(board, m, e).interruptPending == (m.interruptPending || e.interrupt)
  {
    DecisionQuiet(m, m.interruptPending || e.interrupt, e.ready);
    hide ChangeState, EnterState, ExecuteT3, LatchLow, LatchHigh, Driven, Returned;
  }

  lemma AcknowledgedState(b: Machine)
    requires BusMachine.Valid(b)
    ensures var r := AfterT1(b, Isa.Interrupt(None));
            && r.core.cycleControl.PCI? && r.core.memoryCycle == 0
            && View(r.core.stack) == Abstract(b).pcs
  {
    ViewEmitLow(b.core.stack, false);
    hide View;
  }

  // T1I is entered only when the last instruction has ended, in the fetch cycle, and the program
  // counter stays at the interrupted instruction.
  lemma InterruptAtBoundary(board: Isa.Board, m: Machine, envs: seq<Env>, e: Env)
    requires BusMachine.Valid(m) && AtBoundary(m)
    ensures var o := ObserveAll(board, Begin(m), envs);
            var r := Advance(board, o.machine, e);
            r.core.state.T1I? && !o.machine.core.faulted ==>
              && AtBoundary(o.machine)
              && r.core.cycleControl.PCI? && r.core.memoryCycle == 0
              && View(r.core.stack) == Last(Abstract(m), o.done).pcs
  {
    InvariantAlways(board, m, envs);
    var o := ObserveAll(board, Begin(m), envs);
    assert AfterT1(o.boundary, Isa.Fetch).core.state.T1?;
    hide ObserveAll, IsRun, Last, Isa.Meaning, Code, Abstract, Advance, Run, View, AfterT1;
    if o.machine.core.faulted {
    } else if o.states == 0 {
      RestingStep(o);
      Leaving(board, o.boundary, o.machine.interruptPending, e);
      AcknowledgedState(o.boundary);
    } else {
      InterruptWaits(board, o, e);
    }
  }

  // The third memory cycle is the last one.
  predicate CyclesBounded(c: Core) {
    && c.memoryCycle <= 2
    && (c.memoryCycle == 2 && c.cycleEnded && c.state in {T3, T4} ==> c.nextCycleControl.PCI?)
    && (c.state.STOPPED? ==> c.cycleControl.PCI?)
    && (c.state in {T1, T1I, T2, WAIT} ==> !c.cycleEnded)
  }

  predicate SameCycle(c: Core, r: Core) {
    && r.memoryCycle == c.memoryCycle
    && (r.cycleEnded && r.memoryCycle == 2 ==> r.faulted || r.nextCycleControl.PCI?)
  }

  lemma T3Bounded(c: Core, data: Byte)
    requires CpuCore.Valid(c) && c.memoryCycle <= 2 && !c.cycleEnded
    ensures SameCycle(c, ExecuteT3(c, data))
  {
    hide Row, Decode, Masked, HasCycleEnd, HasConditionalEnd, ConditionVerified;
  }

  lemma T4Bounded(c: Core)
    requires CpuCore.Valid(c) && c.memoryCycle <= 2
    ensures ExecuteT4(c).faulted || SameCycle(c, ExecuteT4(c))
  {
    hide Row, Masked, PackedFlags, SetHigh, Pushed, Popped, HasCycleEnd;
  }

  lemma T5Bounded(c: Core)
    requires CpuCore.Valid(c)
    ensures ExecuteT5(c).memoryCycle == c.memoryCycle
  {
    hide Row, Masked, SetLow, UpdatedFlags, BitAnd, BitOr, BitXor;
  }

  lemma T1Bounded(c: Core)
    requires CpuCore.Valid(c) && c.memoryCycle <= 2 && (c.cycleControl.PCI? || c.memoryCycle <= 1) && !c.cycleEnded
    ensures ExecuteT1(c).memoryCycle <= 2 && !ExecuteT1(c).cycleEnded
    ensures ExecuteT1I(c).memoryCycle <= 2 && !ExecuteT1I(c).cycleEnded
  {
    hide Row, EmitLow;
  }

  lemma EnterBounded(c: Core, state: TState, pins: Byte)
    requires CpuCore.Valid(c) && c.memoryCycle <= 2
    requires state in {T1, T1I} ==> c.cycleControl.PCI? || c.memoryCycle <= 1
    requires state in {T2, WAIT, T3} ==> !c.cycleEnded
    requires state.STOPPED? ==> c.cycleControl.PCI?
    ensures var r := EnterState(c, state, pins);
            && (r.faulted || CyclesBounded(r))
            && (state.T3? && Reads(c.cycleControl) ==> r == c.(state := T3))
  {
    hide ExecuteT1, ExecuteT1I, ExecuteT3, ExecuteT4, ExecuteT5, Row;
    var c1 := c.(state := state);
    match state {
      case T1 => T1Bounded(c1.(cycleEnded := false));
      case T1I => T1Bounded(c1.(cycleEnded := false));
      case T3 => T3Bounded(c1, pins);
      case T4 => T4Bounded(c1);
      case T5 => T5Bounded(c1);
      case _ =>
    }
  }

  lemma DecisionBounded(c: Core, interrupt: bool, ready: bool)
    requires CyclesBounded(c) && !c.faulted
    ensures var (r, next) := ChangeState(c, interrupt, ready);
            && r == c.(cycleControl := r.cycleControl, faulted := r.faulted)
            && (next.None? ==> r.faulted || CyclesBounded(r))
            && (next in {Some(T1), Some(T1I)} ==> r.cycleControl.PCI? || r.memoryCycle <= 1)
            && (next in {Some(T2), Some(WAIT), Some(T3)} ==> !r.cycleEnded)
            && (next == Some(STOPPED) ==> r.cycleControl.PCI?)
  {
  }

  lemma StateKeepsBound(board: Isa.Board, m: Machine, e: Env)
    requires BusMachine.Valid(m) && CyclesBounded(m.core) && !m.core.faulted
    ensures Advance(board, m, e).core.faulted || CyclesBounded(Advance(board, m, e).core)
  {
    hide ChangeState, EnterState, ExecuteT3, Driven, Returned, LeftOnPins, CycleControlOf;
    var interrupt := m.interruptPending || e.interrupt;
    DecisionBounded(m.core, interrupt, e.ready);
    var (c, next) := ChangeState(m.core, interrupt, e.ready);
    var m1 := m.(core := c, interruptPending := interrupt && next != Some(T1I));
    if next.Some? {
      EnterBounded(c, next.value, LeftOnPins(c));
      if next.value.T3? && Reads(c.cycleControl) {
        T3Bounded(c.(state := T3), Returned(board, m1, e.jammed));
      }
    }
  }

  lemma ObservedMachine(board: Isa.Board, o: Observer, e: Env)
    requires Consistent(o)
    ensures Observe(board, o, e).machine == Advance(board, o.machine, e)
  {
    hide Advance, Abstract, AtBoundary, StartSeen;
  }

  // In every run, until an assertion fails, no instruction has more than three memory cycles, and
  // the third one is its last.
  lemma {:induction false} CyclesStayBounded(board: Isa.Board, m: Machine, envs: seq<Env>)
    requires BusMachine.Valid(m) && CyclesBounded(m.core)
    ensures var r := ObserveAll(board, Begin(m), envs).machine.core;
            r.faulted || CyclesBounded(r)
    decreases |envs|
  {
    hide Observe, Advance, CyclesBounded;
    if envs != [] {
      var before := ObserveAll(board, Begin(m), envs[..|envs| - 1]);
      CyclesStayBounded(board, m, envs[..|envs| - 1]);
      ObservedMachine(board, before, envs[|envs| - 1]);
      if before.machine.core.faulted {
        FaultStays(board, before.machine, envs[|envs| - 1]);
      } else {
        StateKeepsBound(board, before.machine, envs[|envs| - 1]);
      }
    }
  }

  lemma FaultStays(board: Isa.Board, m: Machine, e: Env)
    requires BusMachine.Valid(m) && m.core.faulted
    ensures Advance(board, m, e) == m
  {
  }

  // The address register holds the kind of the current cycle from T2 on.
  predicate Latched(m: Machine) {
    m.core.state in {T2, WAIT} ==> m.control == m.core.cycleControl
  }

  lemma EntryWrites(board: Isa.Board, m: Machine, state: TState, jammed: Option<Byte>)
    requires BusMachine.Valid(m)
    ensures var r := Enter(board, m, state, jammed);
            && r.memory == (if state.T3? && m.core.cycleControl.PCW? && m.control.PCW? && board.writable(m.address)
                            then m.memory[m.address := Driven(r.core)] else m.memory)
            && (state in {WAIT, T3} ==> r.address == m.address && r.control == m.control)
            && (state in {T2, WAIT, T3} ==> r.core.cycleControl == m.core.cycleControl)
  {
    hide EnterState, ExecuteT3, Driven, LeftOnPins, Returned, CycleControlOf;
  }

  lemma EntryLatched(board: Isa.Board, m: Machine, jammed: Option<Byte>)
    requires BusMachine.Valid(m)
    ensures Enter(board, m, T2, jammed).control == m.core.cycleControl
  {
    hide EnterState, ExecuteT3, LeftOnPins, Returned, CycleControlOf;
    var c := EnterState(m.core, T2, LeftOnPins(m.core));
    DrivenFields(0, c.ioDataLatch, 0, c.cycleControl);
  }

  lemma DecisionWrites(c: Core, interrupt: bool, ready: bool)
    ensures var (r, next) := ChangeState(c, interrupt, ready);
            && r == c.(cycleControl := r.cycleControl, faulted := r.faulted)
            && (next in {Some(WAIT), Some(T3)} ==> c.state in {T2, WAIT} && r == c)
            && (next.None? ==> c.state in {T2, WAIT} ==> r == c)
            && (c.state in {T2, WAIT} ==> next.None? || next in {Some(WAIT), Some(T3)})
  {
  }

  lemma StateWritesOnce(board: Isa.Board, m: Machine, e: Env)
    requires BusMachine.Valid(m) && Latched(m)
    ensures var r := Advance(board, m, e);
            && Latched(r)
            && r.memory == (if m.core.state in {T2, WAIT} && r.core.state.T3? && r.core.cycleControl.PCW?
                               && board.writable(m.address)
                            then m.memory[m.address := Driven(r.core)] else m.memory)
            && (m.core.state in {T2, WAIT} && r.core.state in {WAIT, T3} ==> r.address == m.address)
  {
    hide ChangeState, Enter, Driven;
    if !m.core.faulted {
      var interrupt := m.interruptPending || e.interrupt;
      DecisionWrites(m.core, interrupt, e.ready);
      var (c, next) := ChangeState(m.core, interrupt, e.ready);
      if next.Some? {
        var m1 := m.(core := c, interruptPending := interrupt && next != Some(T1I));
        EntryFrame(board, m1, next.value, e.jammed);
        EntryWrites(board, m1, next.value, e.jammed);
        EntryLatched(board, m1, e.jammed);
      }
    }
  }

  lemma {:induction false} LatchedAlways(board: Isa.Board, m: Machine, envs: seq<Env>)
    requires BusMachine.Valid(m) && Latched(m)
    ensures Latched(ObserveAll(board, Begin(m), envs).machine)
    decreases |envs|
  {
    hide Observe, Advance, Latched;
    if envs != [] {
      var before := ObserveAll(board, Begin(m), envs[..|envs| - 1]);
      LatchedAlways(board, m, envs[..|envs| - 1]);
      ObservedMachine(board, before, envs[|envs| - 1]);
      StateWritesOnce(board, before.machine, envs[|envs| - 1]);
    }
  }

  // In every run T3 of a PCW cycle stores the byte on the pins, once and at the latched address, if
  // there is memory that can be written. No other state of any cycle writes, and waiting keeps the
  // address.
  lemma WritesOnce(board: Isa.Board, m: Machine, envs: seq<Env>, e: Env)
    requires BusMachine.Valid(m) && Latched(m)
    ensures var now := ObserveAll(board, Begin(m), envs).machine;
            var r := Advance(board, now, e);
            && r.memory == (if now.core.state in {T2, WAIT} && r.core.state.T3? && r.core.cycleControl.PCW?
                               && board.writable(now.address)
                            then now.memory[now.address := Driven(r.core)] else now.memory)
            && (now.core.state in {T2, WAIT} && r.core.state in {WAIT, T3} ==> r.address == now.address)
  {
    hide Advance, ObserveAll, Driven;
    LatchedAlways(board, m, envs);
    StateWritesOnce(board, ObserveAll(board, Begin(m), envs).machine, e);
  }
}
