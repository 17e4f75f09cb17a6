/** From the clock to the instruction set: a run in time is a run of instructions. */
module Emulation {
  import opened Bytes
  import opened CpuCore
  import opened BusMachine
  import opened CpuTiming
  import AddressStacks
  import Effects
  import Isa
  import M = MdArbitration
  import Runs
  import Schedulers
  import Timed

  // What the world holds is the value of a machine of states.
  function MachineOf(w: Timed.World): Machine {
    Machine(w.cpu.core, w.cpu.interruptPending, w.address, w.control, w.interruptCycle, w.memory, w.io)
  }

  // At power on the processor is stopped, nothing is scheduled but the clock, and the pins are free.
  predicate PoweredOn(w: Timed.World) {
    && Timed.Consistent(w)
    && w.phase == 0 && w.nextPhase1 == w.edge
    && w.cpu.core.state.STOPPED? && w.cpu.core.cycleControl.PCI? && !w.cpu.core.faulted
    && w.cpu.firstCycle && w.cpu.queue == [] && w.cpu.wake.None?
    && w.pins.owner.None? && w.t3prime.None? && !w.contended
  }

  lemma PowerOnStarts(board: Isa.Board, w: Timed.World)
    requires PoweredOn(w)
    ensures Timed.StartsAtRest(board, w, MachineOf(w)) && AtBoundary(MachineOf(w))
  {
    hide Timed.Decision, Timed.Entered, Driven, Timed.Answer;
  }

  lemma {:induction false} SameMachine(board: Isa.Board, m: Machine, steps: seq<Env>)
    requires BusMachine.Valid(m)
    ensures Runs.ObserveAll(board, Runs.Begin(m), steps).machine == Timed.AdvanceAll(board, m, steps)
    decreases |steps|
  {
    hide Advance, Runs.Observe;
    if steps != [] {
      SameMachine(board, m, steps[..|steps| - 1]);
      Runs.ObservedMachine(board, Runs.ObserveAll(board, Runs.Begin(m), steps[..|steps| - 1]), steps[|steps| - 1]);
    }
  }

  // The memory of a world at rest, with the byte that a writing T3 stores when T'3 falls.
  function MemoryOf(board: Isa.Board, w: Timed.World): seq<Byte>
    requires Timed.Consistent(w)
  {
    if w.cpu.core.state.T3? && w.control.PCW? && board.writable(w.address)
    then w.memory[w.address := Driven(w.cpu.core)] else w.memory
  }

  // The architectural state of a world at rest.
  function ArchOf(board: Isa.Board, w: Timed.World): Isa.Arch
    requires Timed.Consistent(w)
  {
    Effects.Arch(w.cpu.core, MemoryOf(board, w), w.io).(halted := w.cpu.core.state.STOPPED?)
  }

  // From rest at a boundary, whatever the READY level, the interrupts and the jammed opcodes are at
  // each turn of the scheduler: the instructions that end are a run of the instruction set, and
  // whenever the world is at rest after one of them its registers, flags, program counters, memory,
  // I/O and halt are those of that run.
  lemma RestRunsAreRuns(board: Isa.Board, w: Timed.World, m: Machine, inputs: seq<Timed.Input>)
    requires Timed.StartsAtRest(board, w, m) && AtBoundary(m)
    ensures var f := Timed.Followers(board, w, m, inputs);
            var o := Runs.ObserveAll(board, Runs.Begin(m), f.steps);
            && Runs.IsRun(board, Abstract(m), o.done)
            && (f.stage.Rest? && o.states == 0 ==>
                  ArchOf(board, Timed.TickAll(board, w, inputs)) == Runs.Last(Abstract(m), o.done))
  {
    var f := Timed.Followers(board, w, m, inputs);
    hide Runs.IsRun, Runs.ObserveAll, Timed.TickAll, Timed.FollowAll, Timed.AdvanceAll, AtBoundary, Timed.At;
    hide AddressStacks.View, Driven, AbstractFlags;
    Timed.AtRestIsMachine(board, w, m, inputs);
    Runs.EveryRunIsARun(board, m, f.steps);
    SameMachine(board, m, f.steps);
  }

  // So it is from power on.
  lemma TimedRunsAreRuns(board: Isa.Board, w: Timed.World, inputs: seq<Timed.Input>)
    requires PoweredOn(w)
    ensures var f := Timed.Followers(board, w, MachineOf(w), inputs);
            var o := Runs.ObserveAll(board, Runs.Begin(MachineOf(w)), f.steps);
            && Runs.IsRun(board, Abstract(MachineOf(w)), o.done)
            && (f.stage.Rest? && o.states == 0 ==>
                  ArchOf(board, Timed.TickAll(board, w, inputs)) == Runs.Last(Abstract(MachineOf(w)), o.done))
  {
    hide Runs.IsRun, Runs.ObserveAll, Timed.TickAll, Timed.FollowAll, AtBoundary, ArchOf, Timed.At, Runs.Last, Abstract;
    PowerOnStarts(board, w);
    RestRunsAreRuns(board, w, MachineOf(w), inputs);
  }

  // The order of the turns is that of the scheduler.

  function Due(wake: Option<nat>): nat {
    if wake.Some? then wake.value else Schedulers.UNSCHEDULED
  }

  // Before the end of the time that the scheduler can count.
  predicate Timely(w: Timed.World) {
    && w.edge < Schedulers.UNSCHEDULED
    && (w.cpu.wake.Some? ==> w.cpu.wake.value < Schedulers.UNSCHEDULED)
    && (w.t3prime.Some? ==> w.t3prime.value < Schedulers.UNSCHEDULED)
  }

  // The activation times of the clock, the processor and the processor card, in the order of their
  // identifiers. A device that is not scheduled has the greatest time.
  function Times(w: Timed.World): (times: seq<Schedulers.Time>)
    requires Timely(w)
    ensures |times| == 3
  {
    [w.edge, Due(w.cpu.wake), Due(w.t3prime)]
  }

  function Identifier(turn: Timed.Turn): nat {
    match turn
    case OfClock => 0
    case OfProcessor => 1
    case OfCard => 2
  }

  lemma NextIsMinimum(w: Timed.World)
    requires Timed.Orderly(w) && Timely(w)
    ensures var next := Identifier(Timed.Next(w));
            forall j :: 0 <= j < 3 && j != next ==> Times(w)[next] < Times(w)[j]
  {
    hide Timed.InOrder;
  }

  // In every timed run the turn is that of the device which the scheduler has at the front of its
  // pool, in whatever way the pool was sorted.
  lemma TurnIsFront(board: Isa.Board, w: Timed.World, m: Machine, inputs: seq<Timed.Input>, s: Schedulers.State)
    requires Timed.StartsAtRest(board, w, m) && Timely(Timed.TickAll(board, w, inputs)) && s.pool != []
    requires Schedulers.Invariant(s, Times(Timed.TickAll(board, w, inputs))) && Schedulers.Settled(s)
    ensures s.pool[0].id == Identifier(Timed.Next(Timed.TickAll(board, w, inputs)))
  {
    hide Timed.TickAll, Timed.At, Timed.Next, Timed.Orderly, Timed.FollowAll, Timely, Identifier, Timed.OnTime;
    hide Schedulers.Invariant, Schedulers.Settled;
    Timed.TimedSafety(board, w, m, inputs);
    NextIsMinimum(Timed.TickAll(board, w, inputs));
    Schedulers.FrontIsMinimum(s, Times(Timed.TickAll(board, w, inputs)));
    IdentifierBound(Timed.Next(Timed.TickAll(board, w, inputs)));
  }

  lemma IdentifierBound(turn: Timed.Turn)
    ensures Identifier(turn) < 3
  {
  }

  // The edges at which the cards take, leave and read the data bus are those of the timed run.
  lemma EdgesAgree(board: Isa.Board, w: Timed.World, m: Machine, inputs: seq<Timed.Input>)
    requires Timed.StartsAtRest(board, w, m) && w.edge % M.T_STATE == 0
    ensures var now := Timed.TickAll(board, w, inputs);
            && (forall e :: e in now.cpu.queue ==>
                  && (e.Change? ==> e.time % M.T_STATE == M.STATE_AT)
                  && (e.Sync? && !e.high ==> e.time % M.T_STATE == M.SYNC_FALL_AT))
            && (now.phase == 3 ==> now.edge % M.T_STATE in M.FALLS_AT)
  {
    hide Timed.TickAll, Timed.At, Timed.FollowAll, Timed.Orderly;
    Timed.TimedSafety(board, w, m, inputs);
    var f := Timed.Followers(board, w, m, inputs);
    InTState(w.edge, |f.steps|, M.STATE_AT);
    InTState(w.edge, |f.steps|, M.SYNC_FALL_AT);
    InTState(w.edge, |f.steps|, M.FALLS_AT[0]);
    InTState(w.edge, |f.steps|, M.FALLS_AT[1]);
  }

  lemma InTState(edge: nat, periods: nat, offset: nat)
    requires edge % M.T_STATE == 0 && offset < M.T_STATE
    ensures (edge + M.T_STATE * periods + offset) % M.T_STATE == offset
  {
    var q := edge / M.T_STATE;
    assert edge + M.T_STATE * periods + offset == M.T_STATE * (q + periods) + offset;
  }
}
