/** The processor on its bus, one T-state a step: the address register that reassembles what the
    processor multiplexes over T1 and T2, the memory, the I/O devices and the interrupt injection. */
module BusMachine {
  import opened Bytes
  import opened Microcode
  import opened CpuCore
  import AddressStacks
  import Isa

  datatype Machine = Machine(
    core: Core,
    interruptPending: bool,
    address: nat,            // latched_address
    control: CycleControl,   // latched_cycle_control
    interruptCycle: bool,    // t1i_cycle of the processor card
    memory: seq<Byte>,
    io: seq<nat>)            // the addresses of the I/O cycles so far

  predicate Valid(m: Machine) {
    CpuCore.Valid(m.core) && m.address < Isa.SPACE && |m.memory| == Isa.SPACE
  }

  // What the rest of the machine does during one state: the READY level at its start, whether an
  // interrupt was raised since the previous one, and the opcode the interrupt controller offers.
  datatype Env = Env(ready: bool, interrupt: bool, jammed: Option<Byte>)

  // The byte found on the data pins in T3.
  function Returned(board: Isa.Board, m: Machine, jammed: Option<Byte>): Byte
    requires Valid(m)
  {
    if m.interruptCycle && jammed.Some? then jammed.value
    else if m.control.PCC? then board.answer(m.io, m.address)
    else m.memory[m.address]
  }

  function LatchLow(m: Machine, driven: Byte): Machine {
    m.(address := m.address / 256 * 256 + driven)
  }

  function LatchHigh(m: Machine, driven: Byte): Machine {
    m.(address := driven % 64 * 256 + m.address % 256, control := CycleControlOf(driven))
  }

  function Store(board: Isa.Board, m: Machine, value: Byte): Machine
    requires Valid(m)
  {
    if board.writable(m.address) then m.(memory := m.memory[m.address := value]) else m
  }

  // A writing cycle begins T3 with what the processor drove in T2.
  function LeftOnPins(c: Core): Byte {
    Driven(c.(state := T2))
  }

  function Enter(board: Isa.Board, m: Machine, state: TState, jammed: Option<Byte>): (r: Machine)
    requires Valid(m)
    ensures Valid(r)
  {
    var c := EnterState(m.core, state, LeftOnPins(m.core));
    var m1 := m.(core := c);
    match state
    case T1 => LatchLow(m1, Driven(c)).(interruptCycle := false)
    case T1I => LatchLow(m1, Driven(c)).(interruptCycle := true)
    case T2 => LatchHigh(m1, Driven(c))
    case T3 =>
      if Reads(c.cycleControl) then
        m1.(core := ExecuteT3(c, Returned(board, m, jammed)),
            io := if m.control.PCC? then m.io + [m.address] else m.io)
      else if m.control.PCW? then Store(board, m1, Driven(c)) else m1
    case _ => m1
  }

  // One state. A machine that has failed an assertion stays as it is.
  function Advance(board: Isa.Board, m: Machine, e: Env): (r: Machine)
    requires Valid(m)
    ensures Valid(r)
  {
    if m.core.faulted then m
    else
      var interrupt := m.interruptPending || e.interrupt;
      var (c, next) := ChangeState(m.core, interrupt, e.ready);
      var m1 := m.(core := c, interruptPending := interrupt && next != Some(T1I));
      if next.None? then m1 else Enter(board, m1, next.value, e.jammed)
  }

  // The last state of an instruction is over, and nothing of the next one has begun.
  predicate AtBoundary(m: Machine) {
    && !m.core.faulted
    && match m.core.state
       case STOPPED => m.core.cycleControl.PCI?
       case T3 => m.core.cycleEnded && m.core.nextCycleControl.PCI? && m.core.decoded.Some? && Name(m.core) != HLT
       case T4 => m.core.cycleEnded && m.core.nextCycleControl.PCI?
       case T5 => m.core.cycleEnded
       case _ => false
  }

  function AbstractFlags(flags: seq<Byte>): Isa.Flags
    requires |flags| == 4
  {
    Isa.Flags(flags[CARRY] != 0, flags[ZERO] != 0, flags[SIGN] != 0, flags[PARITY] != 0)
  }

  // The architectural state of a machine at a boundary.
  function Abstract(m: Machine): (s: Isa.Arch)
    requires Valid(m)
    ensures Isa.WellFormed(s)
  {
    Isa.Arch(m.core.registers, AbstractFlags(m.core.flags), AddressStacks.View(m.core.stack), m.memory, m.io,
             m.core.state.STOPPED?)
  }
}
