/** The clock, the processor and the processor card in time. Each four microseconds of a run are
    one step of the machine of states. */
module Timed {
  import opened Bytes
  import opened Microcode
  import opened CpuCore
  import opened BusMachine
  import opened CpuTiming
  import opened Wires
  import Isa

  const PERIOD: nat := 2000            // 500 kHz
  const PULSE_WIDTH_PHASE_1: nat := 700
  const DELAY_FROM_PHASE_1_TO_2: nat := 200
  const PULSE_WIDTH_PHASE_2: nat := 550
  const T3PRIME_DELAY: nat := 500

  datatype World = World(
    edge: nat,                         // the activation time of the clock
    phase: nat,
    nextPhase1: nat,
    cpu: Cpu,
    pins: Pins,
    t3prime: Option<nat>,              // the activation time of the processor card
    latch: Byte,                       // what the addressed card read at the fall of T2
    address: nat,
    control: CycleControl,
    interruptCycle: bool,
    memory: seq<Byte>,
    io: seq<nat>,
    contended: bool)                   // an ownership exception was thrown

  predicate Consistent(w: World) {
    CpuTiming.Valid(w.cpu) && w.address < Isa.SPACE && |w.memory| == Isa.SPACE && w.phase < 4
  }

  // What the rest of the machine does before a turn: the READY level, a rise of the interrupt
  // line, and the opcode that the interrupt controller offers.
  datatype Input = Input(ready: bool, interrupt: bool, jammed: Option<Byte>)

  datatype Turn = OfClock | OfProcessor | OfCard

  predicate Before(a: Option<nat>, b: nat) { a.Some? && a.value <= b }

  // Who is scheduled first.
  function Next(w: World): Turn {
    if Before(w.cpu.wake, w.edge) && (w.t3prime.Some? ==> w.cpu.wake.value <= w.t3prime.value) then OfProcessor
    else if Before(w.t3prime, w.edge) then OfCard
    else OfClock
  }

  // On the fall of phase 2 the processor card gives back the byte of T3, or notes the kind of T1.
  function CardOnPhase2(w: World, jammed: Option<Byte>): World {
    var state := w.cpu.core.state;
    if state.T3? then
      if w.control.PCW? then w
      else if !MayRequest(w.pins, Card) then w.(contended := true)
      else w.(pins := Owned(None, if w.interruptCycle && jammed.Some? then jammed.value else w.latch))
    else if state.T1I? then w.(interruptCycle := true)
    else if state.T1? then w.(interruptCycle := false)
    else w
  }

  function TickClock(w: World, input: Input): (r: World)
    requires Consistent(w)
    ensures Consistent(r)
  {
    match w.phase
    case 0 =>
      w.(cpu := SignalPhase1(w.cpu, true, w.edge, input.ready),
         edge := w.edge + PULSE_WIDTH_PHASE_1, nextPhase1 := w.edge + PERIOD, phase := 1)
    case 1 =>
      w.(cpu := SignalPhase1(w.cpu, false, w.edge, input.ready), edge := w.edge + DELAY_FROM_PHASE_1_TO_2, phase := 2)
    case 2 => w.(cpu := SignalPhase2(w.cpu, true, w.edge), edge := w.edge + PULSE_WIDTH_PHASE_2, phase := 3)
    case _ =>
      var w1 := CardOnPhase2(w, input.jammed);
      w1.(cpu := SignalPhase2(w1.cpu, false, w.edge), edge := w.nextPhase1, phase := 0)
  }

  // What the addressed card reads at the fall of T2.
  function Data(board: Isa.Board, w: World): Byte
    requires Consistent(w)
  {
    if w.control.PCC? then board.answer(w.io, w.address) else w.memory[w.address]
  }

  // The bus when the processor leaves a state: the fall of T2, and that of T'3 after a writing T3.
  function Leave(board: Isa.Board, w: World, time: nat): (r: World)
    requires Consistent(w)
    ensures Consistent(r)
  {
    var state := w.cpu.core.state;
    if state.T2? then
      w.(latch := if w.control.PCW? then w.latch else Data(board, w),
         io := if w.control.PCC? then w.io + [w.address] else w.io,
         t3prime := Some(time + T3PRIME_DELAY))
    else if state.T3? && w.control.PCW? && board.writable(w.address) then
      w.(memory := w.memory[w.address := w.pins.value])
    else w
  }

  // The address register on the fall of SYNC.
  function LatchOnSync(w: World): (r: World)
    requires Consistent(w)
    ensures Consistent(r) && r == w.(address := r.address, control := r.control)
  {
    var state := w.cpu.core.state;
    if state.T1? || state.T1I? then w.(address := w.address / 256 * 256 + w.pins.value)
    else if state.T2? then
      w.(address := w.pins.value % 64 * 256 + w.address % 256, control := CycleControlOf(w.pins.value))
    else w
  }

  function TickProcessor(board: Isa.Board, w: World): (r: World)
    requires Consistent(w)
    ensures Consistent(r)
  {
    var cpu := CpuTiming.Step(w.cpu, w.pins.value);
    if w.cpu.queue == [] then w.(cpu := cpu)
    else
      var e := w.cpu.queue[0];
      var pins := PinsAfter(w.cpu.core, e, w.pins);
      var w1 := match e
        case Sync(_, false) => LatchOnSync(w)
        case Change(time, _) => Leave(board, w, time)
        case _ => w;
      w1.(cpu := cpu, pins := if pins.Some? then pins.value else w.pins, contended := w.contended || pins.None?)
  }

  // One step of the scheduler. A run ends with the first failed assertion or exception.
  function Tick(board: Isa.Board, w: World, input: Input): (r: World)
    requires Consistent(w)
    ensures Consistent(r)
  {
    if w.cpu.core.faulted || w.contended then w
    else
      var w1 := w.(cpu := w.cpu.(interruptPending := w.cpu.interruptPending || input.interrupt));
      match Next(w1)
      case OfClock => TickClock(w1, input)
      case OfProcessor => TickProcessor(board, w1)
      case OfCard => w1.(t3prime := None)
  }

  // A T-state lasts two periods of the clock. Period holds the machine before it, what the memory
  // and the latch hold at its first edge, and what it has met so far.
  datatype Period = Period(
    base: nat,
    m: Machine,
    memory: seq<Byte>,
    latch: Byte,
    interrupt: bool,
    ready: bool,
    jammed: Option<Byte>)

  predicate Sound(g: Period) {
    BusMachine.Valid(g.m) && |g.memory| == Isa.SPACE
  }

  // The processor once it has decided, once it has entered the state it chose, and at the end.

  function Decision(g: Period): (Core, Option<TState>) {
    ChangeState(g.m.core, g.interrupt, g.ready)
  }

  function Entered(g: Period): (r: Core)
    requires Sound(g)
    ensures CpuCore.Valid(r)
  {
    var (c, next) := Decision(g);
    if next.None? then c else EnterState(c, next.value, LeftOnPins(c))
  }

  function Settled(board: Isa.Board, g: Period): (r: Core)
    requires Sound(g)
    ensures CpuCore.Valid(r) && r.state == Entered(g).state && r.cycleControl == Entered(g).cycleControl
    ensures Entered(g).faulted ==> r.faulted
  {
    if ReadsInT3(Entered(g)) then ExecuteT3(Entered(g), ReadBack(board, g)) else Entered(g)
  }

  // What the rest of the machine holds from the change of state on.

  predicate Left(g: Period, state: TState) {
    g.m.core.state == state && Decision(g).1.Some?
  }

  // During WAIT the addressed card has already answered.
  function IoBefore(m: Machine): seq<nat> {
    if m.core.state.WAIT? && m.control.PCC? then m.io + [m.address] else m.io
  }

  function IoAfter(g: Period): seq<nat> {
    if Left(g, T2) && g.m.control.PCC? then g.m.io + [g.m.address] else IoBefore(g.m)
  }

  function Answer(board: Isa.Board, m: Machine): Byte
    requires BusMachine.Valid(m)
  {
    if m.control.PCC? then board.answer(m.io, m.address) else m.memory[m.address]
  }

  function LatchAfter(board: Isa.Board, g: Period): Byte
    requires Sound(g)
  {
    if Left(g, T2) && !g.m.control.PCW? then Answer(board, g.m) else g.latch
  }

  function MemoryAfter(g: Period): seq<Byte> {
    if Left(g, T3) then g.m.memory else g.memory
  }

  function ReadBack(board: Isa.Board, g: Period): Byte
    requires Sound(g)
  {
    if g.m.interruptCycle && g.jammed.Some? then g.jammed.value else LatchAfter(board, g)
  }

  function AddressAfter(g: Period): nat
    requires Sound(g)
  {
    var c := Entered(g);
    if c.state.T1? || c.state.T1I? then g.m.address / 256 * 256 + Driven(c)
    else if c.state.T2? then Driven(c) % 64 * 256 + g.m.address % 256
    else g.m.address
  }

  function ControlAfter(g: Period): CycleControl
    requires Sound(g)
  {
    if Entered(g).state.T2? then CycleControlOf(Driven(Entered(g))) else g.m.control
  }

  function InterruptCycleAfter(g: Period): bool
    requires Sound(g)
  {
    if Entered(g).state.T1I? then true else if Entered(g).state.T1? then false else g.m.interruptCycle
  }

  // The stages of a T-state: at rest; after each edge of the clock; and after the turn that follows it.
  datatype Stage =
    | Rest | Risen1 | Synchronised | Changed | Entering | Quiet1
    | Fallen1 | Quiet2 | Risen2 | Quiet3 | Fallen2 | Quiet4
    | Risen1Again | Quiet5 | Fallen1Again | Quiet6 | Risen2Again | Quiet7 | Fallen2Again

  // The edge of the clock that comes next, and its phase.
  function EdgeAt(stage: Stage): (nat, nat) {
    match stage
    case Rest => (0, 0)
    case Risen1 => (700, 1)
    case Synchronised => (700, 1)
    case Changed => (700, 1)
    case Entering => (700, 1)
    case Quiet1 => (700, 1)
    case Fallen1 => (900, 2)
    case Quiet2 => (900, 2)
    case Risen2 => (1450, 3)
    case Quiet3 => (1450, 3)
    case Fallen2 => (2000, 0)
    case Quiet4 => (2000, 0)
    case Risen1Again => (2700, 1)
    case Quiet5 => (2700, 1)
    case Fallen1Again => (2900, 2)
    case Quiet6 => (2900, 2)
    case Risen2Again => (3450, 3)
    case Quiet7 => (3450, 3)
    case Fallen2Again => (4000, 0)
  }

  predicate BeforeChange(stage: Stage) { stage in {Rest, Risen1, Synchronised} }

  predicate SecondHalf(stage: Stage) {
    stage in {Risen1Again, Quiet5, Fallen1Again, Quiet6, Risen2Again, Quiet7, Fallen2Again}
  }

  predicate InFirstCycle(stage: Stage) {
    EdgeAt(stage).0 < 2000 || stage.Fallen2Again?
  }

  predicate AfterLatch(stage: Stage) { SecondHalf(stage) && !stage.Risen1Again? }

  function QueueAt(g: Period, stage: Stage): seq<Event>
    requires Sound(g)
  {
    var next, c := Decision(g).1, Entered(g);
    var change := if next.Some? then [Change(g.base + 25, next.value)] else [];
    match stage
    case Risen1 => [Sync(g.base + 20, true)] + change
    case Synchronised => change
    case Changed => if WritesInT3(c) then [DataOut(g.base + 45, true)] else []
    case Risen2 => if DrivesLate(c) then [DataOut(g.base + 920, true)] else []
    case Fallen2 => if ReadsInT3(c) then [DataIn(g.base + 1550)] else []
    case Risen1Again => [Sync(g.base + 2020, false)]
    case Fallen2Again =>
      if c.state in {T1, T1I, T2} || WritesInT3(c) then [DataOut(g.base + 3570, false)]
      else if DrivesLate(c) then [DataOut(g.base + 3470, false)]
      else []
    case _ => []
  }

  function WakeAt(g: Period, stage: Stage): Option<nat>
    requires Sound(g)
  {
    var queue := QueueAt(g, stage);
    if queue != [] then Some(queue[0].time)
    else
      match stage
      case Fallen1 => Some(g.base + 700)
      case Risen2 => Some(g.base + 900)
      case Fallen2 => Some(g.base + 1450)
      case Fallen1Again => Some(g.base + 2700)
      case Risen2Again => Some(g.base + 2900)
      case Fallen2Again => Some(g.base + 3450)
      case _ => None
  }

  function CoreAt(board: Isa.Board, g: Period, stage: Stage): Core
    requires Sound(g)
  {
    if stage.Rest? then g.m.core
    else if BeforeChange(stage) then Decision(g).0
    else if EdgeAt(stage).0 < 2000 || stage.Fallen2? then Entered(g)
    else Settled(board, g)
  }

  // The processor drives its pins.
  predicate OwnsAt(g: Period, stage: Stage)
    requires Sound(g)
  {
    var c := Entered(g);
    || (WritesInT3(c) && !BeforeChange(stage) && !stage.Changed?)
    || (DrivesLate(c) && (EdgeAt(stage).0 >= 2000 || stage.Quiet3?))
  }

  function Snapshot(board: Isa.Board, g: Period, stage: Stage, value: Byte, pending: bool): (w: World)
    requires Sound(g)
  {
    World(
      g.base + EdgeAt(stage).0,
      EdgeAt(stage).1,
      g.base + (if stage.Rest? then 0 else if SecondHalf(stage) then 4000 else 2000),
      Cpu(CoreAt(board, g, stage), pending, InFirstCycle(stage), QueueAt(g, stage), WakeAt(g, stage)),
      Owned(if OwnsAt(g, stage) then Some(Processor) else None, value),
      if stage in {Changed, Entering} && Left(g, T2) then Some(g.base + 525) else None,
      if BeforeChange(stage) then g.latch else LatchAfter(board, g),
      if AfterLatch(stage) then AddressAfter(g) else g.m.address,
      if AfterLatch(stage) then ControlAfter(g) else g.m.control,
      if EdgeAt(stage).0 >= 2000 then InterruptCycleAfter(g) else g.m.interruptCycle,
      if BeforeChange(stage) then g.memory else MemoryAfter(g),
      if BeforeChange(stage) then IoBefore(g.m) else IoAfter(g),
      false)
  }

  // The machine of states and the rest of the world agree at the first edge.
  predicate Linked(board: Isa.Board, g: Period) {
    var m := g.m;
    && Sound(g) && !m.core.faulted
    && (m.core.state in {T2, WAIT, T3} ==> m.control == m.core.cycleControl)
    && (m.core.state.WAIT? && !m.control.PCW? ==> g.latch == Answer(board, m))
    && m.memory == if m.core.state.T3? && m.control.PCW? && board.writable(m.address)
                   then g.memory[m.address := Driven(m.core)] else g.memory
  }

  // What is on the data pins.
  predicate PinsHold(board: Isa.Board, g: Period, stage: Stage, value: Byte)
    requires Sound(g)
  {
    if BeforeChange(stage) then
      && (g.m.core.state in {T2, WAIT} ==> value == LeftOnPins(g.m.core))
      && (g.m.core.state.T3? && g.m.control.PCW? ==> value == Driven(g.m.core))
    else
      var c := Entered(g);
      && (c.state.WAIT? ==> value == LeftOnPins(c))
      && (OwnsAt(g, stage) ==> value == Driven(c))
      && (ReadsInT3(c) && stage.Fallen2? ==> value == ReadBack(board, g))
  }

  // An interrupt that has been raised is waiting, unless it is being acknowledged.
  predicate InterruptsHold(g: Period, stage: Stage, pending: bool) {
    if stage.Rest? then g.m.interruptPending ==> pending
    else (g.m.interruptPending ==> g.interrupt) && (g.interrupt && Decision(g).1 != Some(T1I) ==> pending)
  }

  predicate At(board: Isa.Board, g: Period, stage: Stage, w: World) {
    && Sound(g) && Linked(board, g)
    && w == Snapshot(board, g, stage, w.pins.value, w.cpu.interruptPending)
    && PinsHold(board, g, stage, w.pins.value)
    && InterruptsHold(g, stage, w.cpu.interruptPending)
  }

  // What a decision leaves as it was.
  lemma DecisionFrame(g: Period)
    requires Sound(g)
    ensures var (c, next) := Decision(g);
            && c == g.m.core.(cycleControl := c.cycleControl, faulted := c.faulted)
            && (c.state in {T2, WAIT} ==> c.cycleControl == g.m.core.cycleControl)
            && (c.state.T2? ==> next in {Some(T3), Some(WAIT)})
            && (c.state.WAIT? ==> next in {Some(T3), None})
            && (next in {Some(T3), Some(WAIT)} ==> c.state in {T2, WAIT})
            && (c.faulted || next.Some?
                || (c.state in {WAIT, STOPPED} && !WritesInT3(c) && !DrivesLate(c) && !ReadsInT3(c)))
            && LeftOnPins(g.m.core) == g.m.core.ioDataLatch % 64 + g.m.core.cycleControl.Code()
            && LeftOnPins(c) == c.ioDataLatch % 64 + c.cycleControl.Code()
  {
  }

  lemma InsertTwo(e: Event, f: Event)
    ensures Insert([], e) == [e]
    ensures e.time <= f.time ==> Insert([e], f) == [e, f]
  {
  }

  // The first edge of a T-state decides of the next state.
  lemma FirstEdge(c: Cpu, time: nat, ready: bool)
    requires c.firstCycle && c.queue == []
    ensures var (core, next) := ChangeState(c.core, c.interruptPending, ready);
            SignalPhase1(c, true, time, ready)
            == c.(core := core, interruptPending := c.interruptPending && next != Some(T1I),
                  queue := [Sync(time + 20, true)] + (if next.Some? then [Change(time + 25, next.value)] else []),
                  wake := Some(time + 20))
  {
    var next := ChangeState(c.core, c.interruptPending, ready).1;
    InsertTwo(Sync(time + 20, true), Change(time + 25, if next.Some? then next.value else T1));
    hide ChangeState, Insert;
  }

  // The turns.

  function Raised(w: World, input: Input): (r: World)
    requires Consistent(w)
    ensures Consistent(r)
  {
    w.(cpu := w.cpu.(interruptPending := w.cpu.interruptPending || input.interrupt))
  }

  lemma ClockTurn(board: Isa.Board, w: World, input: Input)
    requires Consistent(w) && !w.cpu.core.faulted && !w.contended && w.cpu.wake.None? && w.t3prime.None?
    ensures Tick(board, w, input) == TickClock(Raised(w, input), input)
  {
    hide TickClock, TickProcessor;
  }

  lemma ProcessorTurn(board: Isa.Board, w: World, input: Input)
    requires Consistent(w) && !w.cpu.core.faulted && !w.contended && Before(w.cpu.wake, w.edge)
    requires w.t3prime.Some? ==> w.cpu.wake.value <= w.t3prime.value
    ensures Tick(board, w, input) == TickProcessor(board, Raised(w, input))
  {
    hide TickClock, TickProcessor;
  }

  // The activation that finds no event.
  lemma IdleTurn(board: Isa.Board, w: World)
    requires Consistent(w) && w.cpu.queue == []
    ensures TickProcessor(board, w) == w.(cpu := w.cpu.(wake := None))
  {
  }

  // An event, and no other one after it.
  lemma SyncTurn(board: Isa.Board, w: World, time: nat, high: bool, rest: seq<Event>)
    requires Consistent(w) && w.cpu.queue == [Sync(time, high)] + rest && !w.contended
    ensures var w1 := if high then w else LatchOnSync(w);
            TickProcessor(board, w)
            == w1.(cpu := w.cpu.(queue := rest, wake := if rest == [] then None else Some(rest[0].time)))
  {
    hide EnterState, ExecuteT3;
    assert w.cpu.queue[1..] == rest;
  }

  lemma DataOutTurn(board: Isa.Board, w: World, time: nat, on: bool)
    requires Consistent(w) && w.cpu.queue == [DataOut(time, on)] && !w.contended && MayRequest(w.pins, Processor)
    ensures TickProcessor(board, w)
            == w.(cpu := w.cpu.(queue := [], wake := None),
                  pins := if on then Owned(Some(Processor), Driven(w.cpu.core)) else w.pins.(owner := None))
  {
    hide LatchOnSync, EnterState, ExecuteT3, Driven;
    assert w.cpu.queue[1..] == [];
  }

  lemma DataInTurn(board: Isa.Board, w: World, time: nat)
    requires Consistent(w) && w.cpu.queue == [DataIn(time)] && !w.contended
    ensures TickProcessor(board, w)
            == w.(cpu := w.cpu.(core := ExecuteT3(w.cpu.core, w.pins.value), queue := [], wake := None))
  {
    hide LatchOnSync, EnterState, ExecuteT3;
    assert w.cpu.queue[1..] == [];
  }

  lemma ChangeTurn(board: Isa.Board, w: World, time: nat, state: TState)
    requires Consistent(w) && w.cpu.queue == [Change(time, state)] && !w.contended
    ensures var c := EnterState(w.cpu.core, state, w.pins.value);
            TickProcessor(board, w)
            == Leave(board, w, time).(
                 cpu := w.cpu.(core := c, queue := if WritesInT3(c) then [DataOut(time + 20, true)] else [],
                               wake := if WritesInT3(c) then Some(time + 20) else None))
  {
    hide LatchOnSync, EnterState, ExecuteT3;
    assert w.cpu.queue[1..] == [];
  }

  // From stage to stage.

  lemma LinkedSame(board: Isa.Board, g: Period, interrupt: bool, ready: bool)
    ensures Linked(board, g.(interrupt := interrupt, ready := ready)) == Linked(board, g)
  {
    hide Answer, Driven;
  }

  // The second fall of phase 2 in a T-state.
  lemma SecondFall(board: Isa.Board, g: Period, c: Cpu)
    requires Sound(g) && c.core == Settled(board, g) && !c.firstCycle && c.queue == []
    ensures SignalPhase2(c, false, g.base + 3450)
         == c.(queue := QueueAt(g, Fallen2Again), wake := WakeAt(g, Fallen2Again), firstCycle := true)
  {
    hide Settled, Entered, Decision;
  }

  // The first one.
  lemma FirstFall(g: Period, c: Cpu)
    requires Sound(g) && c.core == Entered(g) && c.firstCycle && c.queue == []
    ensures SignalPhase2(c, false, g.base + 1450)
         == c.(queue := QueueAt(g, Fallen2), wake := WakeAt(g, Fallen2), firstCycle := false)
  {
    hide Entered, Decision;
  }

  lemma FromRest(board: Isa.Board, g: Period, w: World, input: Input)
    requires Consistent(w) && At(board, g, Rest, w) && !w.cpu.core.faulted
    ensures var g1 := g.(interrupt := w.cpu.interruptPending || input.interrupt, ready := input.ready);
            At(board, g1, Risen1, Tick(board, w, input))
  {
    hide Tick, SignalPhase1, SignalPhase2, ChangeState, EnterState, ExecuteT3, LeftOnPins, Answer, BusMachine.Valid;
    hide AddressAfter, ControlAfter, InterruptCycleAfter, Settled, Entered, CardOnPhase2, WritesInT3, DrivesLate,
      ReadsInT3;
    hide LatchAfter, MemoryAfter, IoAfter, IoBefore, Linked, Driven;
    LinkedSame(board, g, w.cpu.interruptPending || input.interrupt, input.ready);
    FirstEdge(Raised(w, input).cpu, g.base, input.ready);
    ClockTurn(board, w, input);
  }

  lemma FromRisen1(board: Isa.Board, g: Period, w: World, input: Input)
    requires Consistent(w) && At(board, g, Risen1, w) && !w.cpu.core.faulted
    ensures At(board, g, if Decision(g).1.Some? then Synchronised else Quiet1, Tick(board, w, input))
  {
    hide Tick, TickProcessor, ChangeState, EnterState, ExecuteT3, Driven, LeftOnPins, CycleControlOf, Answer,
      BusMachine.Valid;
    hide AddressAfter, ControlAfter, InterruptCycleAfter, Settled, WritesInT3, DrivesLate, ReadsInT3;
    DecisionFrame(g);
    ProcessorTurn(board, w, input);
    var next := Decision(g).1;
    SyncTurn(board, Raised(w, input), g.base + 20, true, if next.Some? then [Change(g.base + 25, next.value)] else []);
  }

  // The value of the pins matters only to a writing T3, which finds there what T2 left.
  lemma EnteredIs(board: Isa.Board, g: Period, value: Byte)
    requires Sound(g) && Decision(g).1.Some?
    requires PinsHold(board, g, Synchronised, value)
    ensures EnterState(Decision(g).0, Decision(g).1.value, value) == Entered(g)
  {
    hide ChangeState, ExecuteT1, ExecuteT1I, ExecuteT2, ExecuteT3, ExecuteT4, ExecuteT5, Driven;
    DecisionFrame(g);
    PinsMatter(Decision(g).0, Decision(g).1.value, value);
  }

  lemma PinsMatter(c: Core, state: TState, value: Byte)
    requires CpuCore.Valid(c) && (state.T3? ==> value == LeftOnPins(c))
    ensures EnterState(c, state, value) == EnterState(c, state, LeftOnPins(c))
  {
    hide ExecuteT1, ExecuteT1I, ExecuteT2, ExecuteT3, ExecuteT4, ExecuteT5;
  }

  lemma EnteredFrame(g: Period)
    requires Sound(g)
    ensures var (c, next) := Decision(g);
            && (next.Some? ==> Entered(g).state == next.value && Entered(g).cycleControl == c.cycleControl)
            && (next == Some(WAIT) ==> LeftOnPins(Entered(g)) == LeftOnPins(g.m.core))
  {
    hide ExecuteT1, ExecuteT1I, ExecuteT2, ExecuteT3, ExecuteT4, ExecuteT5;
  }

  lemma LeaveIs(board: Isa.Board, g: Period, w: World, time: nat)
    requires Linked(board, g) && Consistent(w) && Decision(g).1.Some? && w.cpu.core.state == g.m.core.state
    requires w.latch == g.latch && w.io == IoBefore(g.m) && w.memory == g.memory
    requires w.address == g.m.address && w.control == g.m.control
    requires g.m.core.state.T3? && g.m.control.PCW? ==> w.pins.value == Driven(g.m.core)
    ensures Leave(board, w, time)
         == w.(latch := LatchAfter(board, g), io := IoAfter(g), memory := MemoryAfter(g),
               t3prime := if g.m.core.state.T2? then Some(time + T3PRIME_DELAY) else w.t3prime)
  {
    hide ChangeState, Driven;
  }

  lemma FromSynchronised(board: Isa.Board, g: Period, w: World, input: Input)
    requires Consistent(w) && At(board, g, Synchronised, w) && !w.cpu.core.faulted && Decision(g).1.Some?
    ensures var stage := if WritesInT3(Entered(g)) then Changed else if Left(g, T2) then Entering else Quiet1;
            At(board, g, stage, Tick(board, w, input))
  {
    hide Tick, TickProcessor, ChangeState, EnterState, ExecuteT3, Driven, LeftOnPins, CycleControlOf, Answer,
      BusMachine.Valid;
    hide AddressAfter, ControlAfter, InterruptCycleAfter, Settled, LatchAfter, MemoryAfter, IoAfter, IoBefore, Leave;
    DecisionFrame(g);
    ProcessorTurn(board, w, input);
    EnteredIs(board, g, w.pins.value);
    EnteredFrame(g);
    ChangeTurn(board, Raised(w, input), g.base + 25, Decision(g).1.value);
    LeaveIs(board, g, Raised(w, input), g.base + 25);
  }

  lemma FromChanged(board: Isa.Board, g: Period, w: World, input: Input)
    requires Consistent(w) && At(board, g, Changed, w) && !w.cpu.core.faulted && WritesInT3(Entered(g))
    ensures At(board, g, if Left(g, T2) then Entering else Quiet1, Tick(board, w, input))
  {
    hide Tick, TickProcessor, Decision, EnterState, ExecuteT3, Driven, LeftOnPins, CycleControlOf, Answer,
      BusMachine.Valid;
    hide AddressAfter, ControlAfter, Settled, LatchAfter, MemoryAfter, IoAfter, IoBefore, Entered, Linked, ReadBack;
    ProcessorTurn(board, w, input);
    DataOutTurn(board, Raised(w, input), g.base + 45, true);
  }

  lemma FromEntering(board: Isa.Board, g: Period, w: World, input: Input)
    requires Consistent(w) && At(board, g, Entering, w) && !w.cpu.core.faulted && Left(g, T2)
    ensures At(board, g, Quiet1, Tick(board, w, input))
  {
    hide TickClock, TickProcessor, Decision, EnterState, ExecuteT3, Driven, LeftOnPins, CycleControlOf, Answer,
      BusMachine.Valid;
    hide AddressAfter, ControlAfter, Settled, LatchAfter, MemoryAfter, IoAfter, IoBefore, Entered, Linked, ReadBack;
  }

  lemma FromQuiet1(board: Isa.Board, g: Period, w: World, input: Input)
    requires Consistent(w) && At(board, g, Quiet1, w) && !w.cpu.core.faulted
    ensures At(board, g, Fallen1, Tick(board, w, input))
  {
    hide Tick, TickProcessor, Decision, EnterState, ExecuteT3, Driven, LeftOnPins, CycleControlOf, Answer,
      BusMachine.Valid;
    hide AddressAfter, ControlAfter, Settled, LatchAfter, MemoryAfter, IoAfter, IoBefore, Entered, Linked, ReadBack;
    ClockTurn(board, w, input);
  }

  lemma FromFallen1(board: Isa.Board, g: Period, w: World, input: Input)
    requires Consistent(w) && At(board, g, Fallen1, w) && !w.cpu.core.faulted
    ensures At(board, g, Quiet2, Tick(board, w, input))
  {
    hide Tick, TickProcessor, Decision, EnterState, ExecuteT3, Driven, LeftOnPins, CycleControlOf, Answer,
      BusMachine.Valid;
    hide AddressAfter, ControlAfter, Settled, LatchAfter, MemoryAfter, IoAfter, IoBefore, Entered, Linked, ReadBack;
    ProcessorTurn(board, w, input);
    IdleTurn(board, Raised(w, input));
  }

  lemma FromQuiet2(board: Isa.Board, g: Period, w: World, input: Input)
    requires Consistent(w) && At(board, g, Quiet2, w) && !w.cpu.core.faulted
    ensures At(board, g, Risen2, Tick(board, w, input))
  {
    hide Tick, TickProcessor, Decision, EnterState, ExecuteT3, Driven, LeftOnPins, CycleControlOf, Answer,
      BusMachine.Valid;
    hide AddressAfter, ControlAfter, Settled, LatchAfter, MemoryAfter, IoAfter, IoBefore, Entered, Linked, ReadBack;
    ClockTurn(board, w, input);
  }

  lemma FromRisen2(board: Isa.Board, g: Period, w: World, input: Input)
    requires Consistent(w) && At(board, g, Risen2, w) && !w.cpu.core.faulted
    ensures At(board, g, Quiet3, Tick(board, w, input))
  {
    hide Tick, TickProcessor, Decision, EnterState, ExecuteT3, Driven, LeftOnPins, CycleControlOf, Answer,
      BusMachine.Valid;
    hide AddressAfter, ControlAfter, Settled, LatchAfter, MemoryAfter, IoAfter, IoBefore, Entered, Linked, ReadBack;
    ProcessorTurn(board, w, input);
    if DrivesLate(Entered(g)) {
      DataOutTurn(board, Raised(w, input), g.base + 920, true);
    } else {
      IdleTurn(board, Raised(w, input));
    }
  }

  // The opcode jammed in T3 changes nothing before.
  lemma JammedSame(board: Isa.Board, g: Period, jammed: Option<Byte>)
    requires Sound(g)
    ensures var g1 := g.(jammed := jammed);
            && Decision(g1) == Decision(g) && Entered(g1) == Entered(g)
            && LatchAfter(board, g1) == LatchAfter(board, g) && MemoryAfter(g1) == MemoryAfter(g)
            && IoAfter(g1) == IoAfter(g) && Linked(board, g1) == Linked(board, g)
  {
    hide ChangeState, EnterState, Answer, IoBefore, Driven;
  }

  // In T3 the address register and the processor agree on the kind of cycle.
  lemma T3Control(board: Isa.Board, g: Period)
    requires Sound(g) && Linked(board, g) && Entered(g).state.T3? && !Entered(g).faulted
    ensures g.m.control == Entered(g).cycleControl == ControlAfter(g)
  {
    hide ChangeState, EnterState, Driven, Answer, Entered;
    DecisionFrame(g);
    EnteredFrame(g);
    if Decision(g).1.None? {
      StaysInT3(g);
    }
  }

  lemma StaysInT3(g: Period)
    requires Sound(g) && Decision(g).1.None?
    ensures Entered(g) == Decision(g).0
  {
    hide ChangeState;
  }

  // The card at the first fall of phase 2.
  lemma CardFirst(board: Isa.Board, g: Period, w: World, jammed: Option<Byte>)
    requires Sound(g) && Linked(board, g) && !Entered(g).faulted && w.cpu.core == Entered(g)
    requires w.control == g.m.control && w.interruptCycle == g.m.interruptCycle && w.latch == LatchAfter(board, g)
    requires w.pins.owner == if OwnsAt(g, Quiet3) then Some(Processor) else None
    ensures var r := CardOnPhase2(w, jammed);
            && r == w.(pins := r.pins, interruptCycle := InterruptCycleAfter(g)) && r.pins.owner == w.pins.owner
            && (if ReadsInT3(Entered(g)) then r.pins.value == ReadBack(board, g.(jammed := jammed))
                else r.pins.value == w.pins.value)
  {
    hide Decision, EnterState, Driven, Answer, Entered, ControlAfter, Linked, LatchAfter;
    JammedSame(board, g, jammed);
    if Entered(g).state.T3? {
      T3Control(board, g);
    }
  }

  // The turn of the clock at a fall of phase 2.
  lemma FallTurn(board: Isa.Board, w: World, input: Input)
    requires Consistent(w) && !w.cpu.core.faulted && !w.contended && w.cpu.wake.None? && w.t3prime.None?
    requires w.phase == 3
    ensures var card := CardOnPhase2(Raised(w, input), input.jammed);
            && card.cpu == Raised(w, input).cpu
            && Tick(board, w, input)
               == card.(cpu := SignalPhase2(card.cpu, false, w.edge), edge := w.nextPhase1, phase := 0)
  {
    hide SignalPhase2, TickProcessor;
    ClockTurn(board, w, input);
  }

  lemma FallenOnce(board: Isa.Board, g: Period, w: World, jammed: Option<Byte>, pins: Pins)
    requires Consistent(w) && At(board, g, Quiet3, w) && pins.owner == w.pins.owner
    requires if ReadsInT3(Entered(g)) then pins.value == ReadBack(board, g.(jammed := jammed))
             else pins.value == w.pins.value
    ensures var g1 := g.(jammed := jammed);
            At(board, g1, Fallen2,
               w.(pins := pins, interruptCycle := InterruptCycleAfter(g), edge := w.nextPhase1, phase := 0,
                  cpu := w.cpu.(queue := QueueAt(g, Fallen2), wake := WakeAt(g, Fallen2), firstCycle := false)))
  {
    hide Decision, EnterState, Driven, LeftOnPins, Answer, BusMachine.Valid;
    hide AddressAfter, ControlAfter, Settled, LatchAfter, MemoryAfter, IoAfter, IoBefore, Entered, Linked, ReadBack;
    JammedSame(board, g, jammed);
  }

  // A rise of the interrupt line between two turns.
  lemma RaisedAt(board: Isa.Board, g: Period, stage: Stage, w: World, input: Input)
    requires Consistent(w) && At(board, g, stage, w)
    ensures At(board, g, stage, Raised(w, input))
  {
    hide CoreAt, QueueAt, WakeAt, OwnsAt, Decision, Linked, BusMachine.Valid, LatchAfter, AddressAfter, ControlAfter;
    hide InterruptCycleAfter, MemoryAfter, IoAfter, IoBefore, PinsHold;
  }

  lemma FromQuiet3(board: Isa.Board, g: Period, w: World, input: Input)
    requires Consistent(w) && At(board, g, Quiet3, w) && !w.cpu.core.faulted
    ensures At(board, g.(jammed := input.jammed), Fallen2, Tick(board, w, input))
  {
    hide Tick, CardOnPhase2, SignalPhase2, Decision, Entered, Linked, PinsHold, BusMachine.Valid, WritesInT3,
      DrivesLate;
    hide AddressAfter, ControlAfter, InterruptCycleAfter, LatchAfter, MemoryAfter, IoAfter, IoBefore, ReadBack;
    hide ReadsInT3, OwnsAt, Settled;
    var w1 := Raised(w, input);
    RaisedAt(board, g, Quiet3, w, input);
    CardFirst(board, g, w1, input.jammed);
    FallTurn(board, w, input);
    FirstFall(g, w1.cpu);
    FallenOnce(board, g, w1, input.jammed, CardOnPhase2(w1, input.jammed).pins);
  }

  lemma FromFallen2(board: Isa.Board, g: Period, w: World, input: Input)
    requires Consistent(w) && At(board, g, Fallen2, w) && !w.cpu.core.faulted
    ensures At(board, g, Quiet4, Tick(board, w, input))
  {
    hide Tick, TickProcessor, Decision, EnterState, ExecuteT3, Driven, LeftOnPins, CycleControlOf, Answer,
      BusMachine.Valid;
    hide AddressAfter, ControlAfter, LatchAfter, MemoryAfter, IoAfter, IoBefore, Entered, Linked, ReadBack;
    ProcessorTurn(board, w, input);
    if ReadsInT3(Entered(g)) {
      DataInTurn(board, Raised(w, input), g.base + 1550);
    } else {
      IdleTurn(board, Raised(w, input));
    }
  }

  lemma FromQuiet4(board: Isa.Board, g: Period, w: World, input: Input)
    requires Consistent(w) && At(board, g, Quiet4, w) && !w.cpu.core.faulted
    ensures At(board, g, Risen1Again, Tick(board, w, input))
  {
    hide Tick, TickProcessor, Decision, EnterState, ExecuteT3, Driven, LeftOnPins, CycleControlOf, Answer,
      BusMachine.Valid;
    hide Settled, AddressAfter, ControlAfter, LatchAfter, MemoryAfter, IoAfter, IoBefore, Entered, Linked, ReadBack;
    ClockTurn(board, w, input);
  }

  lemma FromRisen1Again(board: Isa.Board, g: Period, w: World, input: Input)
    requires Consistent(w) && At(board, g, Risen1Again, w) && !w.cpu.core.faulted
    ensures At(board, g, Quiet5, Tick(board, w, input))
  {
    hide Tick, TickProcessor, Decision, EnterState, ExecuteT3, Driven, LeftOnPins, CycleControlOf, Answer,
      BusMachine.Valid;
    hide Settled, LatchAfter, MemoryAfter, IoAfter, IoBefore, Entered, Linked, ReadBack;
    ProcessorTurn(board, w, input);
    SyncTurn(board, Raised(w, input), g.base + 2020, false, []);
  }

  lemma FromQuiet5(board: Isa.Board, g: Period, w: World, input: Input)
    requires Consistent(w) && At(board, g, Quiet5, w) && !w.cpu.core.faulted
    ensures At(board, g, Fallen1Again, Tick(board, w, input))
  {
    hide Tick, TickProcessor, Decision, EnterState, ExecuteT3, Driven, LeftOnPins, CycleControlOf, Answer,
      BusMachine.Valid;
    hide Settled, AddressAfter, ControlAfter, LatchAfter, MemoryAfter, IoAfter, IoBefore, Entered, Linked, ReadBack;
    ClockTurn(board, w, input);
  }

  lemma FromFallen1Again(board: Isa.Board, g: Period, w: World, input: Input)
    requires Consistent(w) && At(board, g, Fallen1Again, w) && !w.cpu.core.faulted
    ensures At(board, g, Quiet6, Tick(board, w, input))
  {
    hide Tick, TickProcessor, Decision, EnterState, ExecuteT3, Driven, LeftOnPins, CycleControlOf, Answer,
      BusMachine.Valid;
    hide Settled, AddressAfter, ControlAfter, LatchAfter, MemoryAfter, IoAfter, IoBefore, Entered, Linked, ReadBack;
    ProcessorTurn(board, w, input);
    IdleTurn(board, Raised(w, input));
  }

  lemma FromQuiet6(board: Isa.Board, g: Period, w: World, input: Input)
    requires Consistent(w) && At(board, g, Quiet6, w) && !w.cpu.core.faulted
    ensures At(board, g, Risen2Again, Tick(board, w, input))
  {
    hide Tick, TickProcessor, Decision, EnterState, ExecuteT3, Driven, LeftOnPins, CycleControlOf, Answer,
      BusMachine.Valid;
    hide Settled, AddressAfter, ControlAfter, LatchAfter, MemoryAfter, IoAfter, IoBefore, Entered, Linked, ReadBack;
    ClockTurn(board, w, input);
  }

  lemma FromRisen2Again(board: Isa.Board, g: Period, w: World, input: Input)
    requires Consistent(w) && At(board, g, Risen2Again, w) && !w.cpu.core.faulted
    ensures At(board, g, Quiet7, Tick(board, w, input))
  {
    hide Tick, TickProcessor, Decision, EnterState, ExecuteT3, Driven, LeftOnPins, CycleControlOf, Answer,
      BusMachine.Valid;
    hide Settled, AddressAfter, ControlAfter, LatchAfter, MemoryAfter, IoAfter, IoBefore, Entered, Linked, ReadBack;
    ProcessorTurn(board, w, input);
    IdleTurn(board, Raised(w, input));
  }

  // The second fall of phase 2 in a reading T3 finds the byte already taken.
  lemma CardAgain(board: Isa.Board, g: Period, w: World, jammed: Option<Byte>)
    requires Sound(g) && Linked(board, g) && !Settled(board, g).faulted
    requires w.cpu.core == Settled(board, g)
    requires w.control == ControlAfter(g) && w.interruptCycle == InterruptCycleAfter(g)
    requires w.pins.owner == if OwnsAt(g, Quiet7) then Some(Processor) else None
    ensures var r := CardOnPhase2(w, jammed);
            && r == w.(pins := r.pins) && r.pins.owner == w.pins.owner
            && (r.pins.value == w.pins.value || (!OwnsAt(g, Quiet7) && !Entered(g).state.WAIT?))
  {
    hide Decision, ExecuteT3, EnterState, Driven, Answer, Entered, ControlAfter, Linked, ReadBack, LatchAfter;
    if Entered(g).state.T3? {
      T3Control(board, g);
    }
  }

  lemma FallenTwice(board: Isa.Board, g: Period, w: World, pins: Pins)
    requires Consistent(w) && At(board, g, Quiet7, w) && pins.owner == w.pins.owner
    requires pins.value == w.pins.value || (!OwnsAt(g, Quiet7) && !Entered(g).state.WAIT?)
    ensures At(board, g, Fallen2Again,
               w.(pins := pins, edge := w.nextPhase1, phase := 0,
                  cpu := w.cpu.(queue := QueueAt(g, Fallen2Again), wake := WakeAt(g, Fallen2Again),
                                firstCycle := true)))
  {
    hide Decision, EnterState, Driven, LeftOnPins, Answer, BusMachine.Valid;
    hide AddressAfter, ControlAfter, Settled, LatchAfter, MemoryAfter, IoAfter, IoBefore, Entered, Linked, ReadBack;
    hide InterruptCycleAfter;
  }

  lemma FromQuiet7(board: Isa.Board, g: Period, w: World, input: Input)
    requires Consistent(w) && At(board, g, Quiet7, w) && !w.cpu.core.faulted
    ensures At(board, g, Fallen2Again, Tick(board, w, input))
  {
    hide Tick, CardOnPhase2, SignalPhase2, Decision, Entered, Linked, PinsHold, BusMachine.Valid, WritesInT3,
      DrivesLate;
    hide AddressAfter, ControlAfter, InterruptCycleAfter, LatchAfter, MemoryAfter, IoAfter, IoBefore, ReadBack;
    hide ReadsInT3, OwnsAt, Settled;
    var w1 := Raised(w, input);
    RaisedAt(board, g, Quiet7, w, input);
    CardAgain(board, g, w1, input.jammed);
    FallTurn(board, w, input);
    SecondFall(board, g, w1.cpu);
    FallenTwice(board, g, w1, CardOnPhase2(w1, input.jammed).pins);
  }

  // What the step of the machine of states makes of it.

  function Stepped(board: Isa.Board, g: Period): (r: Machine)
    requires Sound(g)
    ensures BusMachine.Valid(r)
  {
    Advance(board, g.m, Env(g.ready, g.interrupt, g.jammed))
  }

  function NextPeriod(board: Isa.Board, g: Period): (r: Period)
    requires Sound(g)
    ensures Sound(r)
  {
    g.(base := g.base + 4000, m := Stepped(board, g), memory := MemoryAfter(g), latch := LatchAfter(board, g))
  }

  // The byte given back, and the I/O and the memory after the step.
  lemma SteppedRest(board: Isa.Board, g: Period)
    requires Sound(g) && Linked(board, g) && Decision(g).1.None?
    requires g.m.interruptPending ==> g.interrupt
    ensures Stepped(board, g) == g.m.(core := Decision(g).0, interruptPending := g.interrupt)
    ensures Entered(g) == Decision(g).0
  {
    hide ChangeState;
  }

  lemma SteppedEnter(board: Isa.Board, g: Period)
    requires Sound(g) && Linked(board, g) && Decision(g).1.Some?
    requires g.m.interruptPending ==> g.interrupt
    ensures var (c, next) := Decision(g);
            Stepped(board, g)
            == Enter(board, g.m.(core := c, interruptPending := g.interrupt && next != Some(T1I)), next.value, g.jammed)
  {
    hide ChangeState, Enter;
  }

  lemma ReturnedIs(board: Isa.Board, g: Period, pending: bool)
    requires Sound(g) && Linked(board, g) && Decision(g).1.Some? && Entered(g).state.T3?
             && Reads(Entered(g).cycleControl)
    requires !Entered(g).faulted
    ensures Returned(board, g.m.(core := Decision(g).0, interruptPending := pending), g.jammed) == ReadBack(board, g)
  {
    hide ChangeState, EnterState, Driven, LeftOnPins;
    EnteredFrame(g);
    DecisionFrame(g);
    T3Control(board, g);
  }

  function MemoryStored(board: Isa.Board, g: Period): seq<Byte>
    requires Sound(g)
  {
    if WritesInT3(Entered(g)) && g.m.control.PCW? && board.writable(g.m.address)
    then g.m.memory[g.m.address := Driven(Entered(g))] else g.m.memory
  }

  function IoDone(g: Period): seq<nat>
    requires Sound(g)
  {
    if ReadsInT3(Entered(g)) && g.m.control.PCC? then g.m.io + [g.m.address] else g.m.io
  }

  lemma SteppedIs(board: Isa.Board, g: Period)
    requires Sound(g) && Linked(board, g) && !Settled(board, g).faulted
    requires g.m.interruptPending ==> g.interrupt
    ensures Stepped(board, g)
         == Machine(Settled(board, g), g.interrupt && Decision(g).1 != Some(T1I), AddressAfter(g), ControlAfter(g),
                    InterruptCycleAfter(g), MemoryStored(board, g), IoDone(g))
  {
    hide ChangeState, EnterState, ExecuteT3, Driven, CycleControlOf, LeftOnPins, Stepped, Linked, Returned, ReadBack;
    DecisionFrame(g);
    EnteredFrame(g);
    if Decision(g).1.None? {
      SteppedRest(board, g);
    } else {
      SteppedEnter(board, g);
      if ReadsInT3(Entered(g)) {
        ReturnedIs(board, g, g.interrupt && Decision(g).1 != Some(T1I));
      }
    }
  }

  lemma DrivenControl(c: Core)
    requires c.state.T2?
    ensures CycleControlOf(Driven(c)) == c.cycleControl && LeftOnPins(c) == Driven(c)
  {
  }

  // The next T-state starts with the machine and the world in agreement.
  lemma LinkedNext(board: Isa.Board, g: Period)
    requires Sound(g) && Linked(board, g) && !Settled(board, g).faulted
    requires g.m.interruptPending ==> g.interrupt
    ensures Linked(board, NextPeriod(board, g)) && IoBefore(Stepped(board, g)) == IoAfter(g)
  {
    hide ChangeState, EnterState, ExecuteT3, Driven, CycleControlOf, LeftOnPins, Stepped, ReadBack, Settled,
      AddressAfter;
    DecisionFrame(g);
    EnteredFrame(g);
    SteppedIs(board, g);
    var c := Entered(g);
    if c.state.T2? {
      DrivenControl(c);
    }
    if c.state.T3? {
      T3Control(board, g);
    }
    SameAddress(g);
    WrittenCore(board, g);
  }

  lemma SameAddress(g: Period)
    requires Sound(g)
    ensures Entered(g).state in {WAIT, T3} ==> AddressAfter(g) == g.m.address
  {
    hide Decision, EnterState, Driven;
  }

  lemma WrittenCore(board: Isa.Board, g: Period)
    requires Sound(g)
    ensures WritesInT3(Entered(g)) ==> Settled(board, g) == Entered(g)
  {
    hide Entered, ExecuteT3;
  }

  lemma PinsNext(board: Isa.Board, g: Period, value: Byte)
    requires Sound(g) && Linked(board, g) && !Settled(board, g).faulted
    requires g.m.interruptPending ==> g.interrupt
    requires PinsHold(board, g, Fallen2Again, value)
    ensures PinsHold(board, NextPeriod(board, g), Rest, value)
  {
    hide ChangeState, EnterState, ExecuteT3, Driven, CycleControlOf, LeftOnPins, Stepped, ReadBack, Settled,
      AddressAfter;
    EnteredFrame(g);
    SteppedIs(board, g);
    var c := Entered(g);
    if c.state.T2? {
      DrivenControl(c);
    }
    if c.state.T3? {
      T3Control(board, g);
    }
    WrittenCore(board, g);
    KeptCore(board, g);
  }

  lemma KeptCore(board: Isa.Board, g: Period)
    requires Sound(g)
    ensures Entered(g).state in {T2, WAIT} ==> Settled(board, g) == Entered(g)
  {
    hide Entered, ExecuteT3;
  }

  // The last turn of a T-state: the pins are free.
  lemma Released(board: Isa.Board, g: Period, w: World, input: Input)
    requires Consistent(w) && At(board, g, Fallen2Again, w) && !w.cpu.core.faulted
    ensures Tick(board, w, input)
         == Raised(w, input).(cpu := Raised(w, input).cpu.(queue := [], wake := None), pins := w.pins.(owner := None))
  {
    hide Tick, TickProcessor, Decision, EnterState, ExecuteT3, Driven, LeftOnPins, CycleControlOf, Answer,
      BusMachine.Valid;
    hide Settled, AddressAfter, ControlAfter, LatchAfter, MemoryAfter, IoAfter, IoBefore, Entered, Linked, ReadBack,
      Stepped;
    hide InterruptCycleAfter, PinsHold, WritesInT3;
    ProcessorTurn(board, w, input);
    var c := Entered(g);
    var late := c.state in {T1, T1I, T2} || WritesInT3(c);
    if late || DrivesLate(c) {
      DataOutTurn(board, Raised(w, input), g.base + (if late then 3570 else 3470), false);
    } else {
      IdleTurn(board, Raised(w, input));
    }
  }

  lemma FromFallen2Again(board: Isa.Board, g: Period, w: World, input: Input)
    requires Consistent(w) && At(board, g, Fallen2Again, w) && !w.cpu.core.faulted
    ensures At(board, NextPeriod(board, g), Rest, Tick(board, w, input))
  {
    hide Tick, Decision, EnterState, ExecuteT3, Driven, LeftOnPins, CycleControlOf, Answer, BusMachine.Valid;
    hide Settled, AddressAfter, ControlAfter, LatchAfter, MemoryAfter, IoAfter, IoBefore, Entered, Linked, ReadBack,
      Stepped;
    hide InterruptCycleAfter, PinsHold, WritesInT3, DrivesLate, MemoryStored, IoDone;
    Released(board, g, w, input);
    SteppedIs(board, g);
    LinkedNext(board, g);
    PinsNext(board, g, w.pins.value);
  }

  // A run in time, followed stage by stage: the T-state it is in, and the steps of the machine of
  // states that are behind.
  datatype Followed = Followed(world: World, period: Period, stage: Stage, steps: seq<Env>)

  predicate Coherent(f: Followed) { Consistent(f.world) && Sound(f.period) }

  function After(g: Period, stage: Stage): Stage
    requires Sound(g)
  {
    match stage
    case Rest => Risen1
    case Risen1 => if Decision(g).1.Some? then Synchronised else Quiet1
    case Synchronised => if WritesInT3(Entered(g)) then Changed else if Left(g, T2) then Entering else Quiet1
    case Changed => if Left(g, T2) then Entering else Quiet1
    case Entering => Quiet1
    case Quiet1 => Fallen1
    case Fallen1 => Quiet2
    case Quiet2 => Risen2
    case Risen2 => Quiet3
    case Quiet3 => Fallen2
    case Fallen2 => Quiet4
    case Quiet4 => Risen1Again
    case Risen1Again => Quiet5
    case Quiet5 => Fallen1Again
    case Fallen1Again => Quiet6
    case Quiet6 => Risen2Again
    case Risen2Again => Quiet7
    case Quiet7 => Fallen2Again
    case Fallen2Again => Rest
  }

  function FollowTick(board: Isa.Board, f: Followed, input: Input): (r: Followed)
    requires Coherent(f)
    ensures Coherent(r)
  {
    var w, g := f.world, f.period;
    if w.cpu.core.faulted || w.contended then f
    else
      var g1 := match f.stage
        case Rest => g.(interrupt := w.cpu.interruptPending || input.interrupt, ready := input.ready)
        case Quiet3 => g.(jammed := input.jammed)
        case Fallen2Again => NextPeriod(board, g)
        case _ => g;
      Followed(Tick(board, w, input), g1, After(g, f.stage),
               if f.stage.Fallen2Again? then f.steps + [Env(g.ready, g.interrupt, g.jammed)] else f.steps)
  }

  function TickAll(board: Isa.Board, w: World, inputs: seq<Input>): (r: World)
    requires Consistent(w)
    ensures Consistent(r)
    decreases |inputs|
  {
    if inputs == [] then w else Tick(board, TickAll(board, w, inputs[..|inputs| - 1]), inputs[|inputs| - 1])
  }

  function FollowAll(board: Isa.Board, f: Followed, inputs: seq<Input>): (r: Followed)
    requires Coherent(f)
    ensures Coherent(r)
    decreases |inputs|
  {
    if inputs == [] then f else FollowTick(board, FollowAll(board, f, inputs[..|inputs| - 1]), inputs[|inputs| - 1])
  }

  function AdvanceAll(board: Isa.Board, m: Machine, envs: seq<Env>): (r: Machine)
    requires BusMachine.Valid(m)
    ensures BusMachine.Valid(r)
    decreases |envs|
  {
    if envs == [] then m else Advance(board, AdvanceAll(board, m, envs[..|envs| - 1]), envs[|envs| - 1])
  }

  // The stages that not every T-state has.
  predicate Due(g: Period, stage: Stage)
    requires Sound(g)
  {
    && (stage.Synchronised? ==> Decision(g).1.Some?)
    && (stage.Changed? ==> WritesInT3(Entered(g)))
    && (stage.Entering? ==> Left(g, T2))
  }

  predicate Follows(board: Isa.Board, f: Followed)
    requires Coherent(f)
  {
    At(board, f.period, f.stage, f.world) && Due(f.period, f.stage)
  }

  lemma FirstHalf(board: Isa.Board, f: Followed, input: Input)
    requires Coherent(f) && Follows(board, f) && !f.world.cpu.core.faulted
    requires f.stage in {Rest, Risen1, Synchronised, Changed, Entering, Quiet1, Fallen1, Quiet2, Risen2, Quiet3}
    ensures Follows(board, FollowTick(board, f, input))
  {
    hide Tick, At, Decision, Entered, Snapshot, Linked, WritesInT3;
    var w, g := f.world, f.period;
    match f.stage {
      case Rest => FromRest(board, g, w, input);
      case Risen1 => FromRisen1(board, g, w, input);
      case Synchronised => FromSynchronised(board, g, w, input);
      case Changed => FromChanged(board, g, w, input);
      case Entering => FromEntering(board, g, w, input);
      case Quiet1 => FromQuiet1(board, g, w, input);
      case Fallen1 => FromFallen1(board, g, w, input);
      case Quiet2 => FromQuiet2(board, g, w, input);
      case Risen2 => FromRisen2(board, g, w, input);
      case Quiet3 => FromQuiet3(board, g, w, input);
    }
  }

  lemma LastHalf(board: Isa.Board, f: Followed, input: Input)
    requires Coherent(f) && Follows(board, f) && !f.world.cpu.core.faulted
    requires f.stage !in {Rest, Risen1, Synchronised, Changed, Entering, Quiet1, Fallen1, Quiet2, Risen2, Quiet3}
    ensures Follows(board, FollowTick(board, f, input))
  {
    hide Tick, At, Decision, Entered, Snapshot, Linked, WritesInT3, NextPeriod;
    var w, g := f.world, f.period;
    match f.stage {
      case Fallen2 => FromFallen2(board, g, w, input);
      case Quiet4 => FromQuiet4(board, g, w, input);
      case Risen1Again => FromRisen1Again(board, g, w, input);
      case Quiet5 => FromQuiet5(board, g, w, input);
      case Fallen1Again => FromFallen1Again(board, g, w, input);
      case Quiet6 => FromQuiet6(board, g, w, input);
      case Risen2Again => FromRisen2Again(board, g, w, input);
      case Quiet7 => FromQuiet7(board, g, w, input);
      case Fallen2Again => FromFallen2Again(board, g, w, input);
    }
  }

  // The machine m at rest at a first edge, with nothing scheduled but the clock.
  predicate StartsAtRest(board: Isa.Board, w: World, m: Machine) {
    && BusMachine.Valid(m)
    && Consistent(w)
    && At(board, Initial(w, m), Rest, w)
  }

  function Initial(w: World, m: Machine): Period {
    Period(w.edge, m, w.memory, w.latch, false, false, None)
  }

  function Followers(board: Isa.Board, w: World, m: Machine, inputs: seq<Input>): (r: Followed)
    requires Consistent(w) && BusMachine.Valid(m)
    ensures Coherent(r)
  {
    FollowAll(board, Followed(w, Initial(w, m), Rest, []), inputs)
  }

  lemma FollowOne(board: Isa.Board, f: Followed, input: Input)
    requires Coherent(f) && Follows(board, f)
    ensures Follows(board, FollowTick(board, f, input))
    ensures FollowTick(board, f, input).world == Tick(board, f.world, input)
  {
    hide At, Decision, Entered, Snapshot, Linked, Due, TickClock, TickProcessor, Advance, After, BusMachine.Valid,
      NextPeriod;
    if f.world.cpu.core.faulted || f.world.contended {
    } else if f.stage in {Rest, Risen1, Synchronised, Changed, Entering, Quiet1, Fallen1, Quiet2, Risen2, Quiet3} {
      FirstHalf(board, f, input);
    } else {
      LastHalf(board, f, input);
    }
  }

  lemma FollowSteps(board: Isa.Board, m: Machine, f: Followed, input: Input)
    requires Coherent(f) && BusMachine.Valid(m) && f.period.m == AdvanceAll(board, m, f.steps)
    ensures var r := FollowTick(board, f, input);
            && r.period.m == AdvanceAll(board, m, r.steps)
            && r.period.base - f.period.base == 4000 * (|r.steps| - |f.steps|)
  {
    hide Decision, Entered, Tick, Advance, AdvanceAll, After, BusMachine.Valid, MemoryAfter, LatchAfter;
    Appended(board, m, f.steps, Env(f.period.ready, f.period.interrupt, f.period.jammed));
  }

  lemma Appended(board: Isa.Board, m: Machine, steps: seq<Env>, e: Env)
    requires BusMachine.Valid(m)
    ensures AdvanceAll(board, m, steps + [e]) == Advance(board, AdvanceAll(board, m, steps), e)
  {
    hide Advance;
    assert (steps + [e])[..|steps|] == steps;
  }

  // Driven by the clock, the timed machine does the steps of the machine of states: after any number
  // of turns it is in some stage of the T-state that follows as many steps as there were periods.
  lemma {:induction false} TimedRuns(board: Isa.Board, w: World, m: Machine, inputs: seq<Input>)
    requires StartsAtRest(board, w, m)
    ensures var f := Followers(board, w, m, inputs);
            && f.world == TickAll(board, w, inputs)
            && Follows(board, f)
            && f.period.m == AdvanceAll(board, m, f.steps)
            && f.period.base == w.edge + 4000 * |f.steps|
    decreases |inputs|
  {
    hide Follows, At, Tick, FollowTick;
    if inputs == [] {
      StartFollows(board, w, m);
    } else {
      TimedRuns(board, w, m, inputs[..|inputs| - 1]);
      var before := Followers(board, w, m, inputs[..|inputs| - 1]);
      FollowOne(board, before, inputs[|inputs| - 1]);
      FollowSteps(board, m, before, inputs[|inputs| - 1]);
    }
  }

  lemma StartFollows(board: Isa.Board, w: World, m: Machine)
    requires StartsAtRest(board, w, m)
    ensures Follows(board, Followed(w, Initial(w, m), Rest, [])) && AdvanceAll(board, m, []) == m
  {
    hide At;
  }

  // Every event comes before the next edge of the clock, and after the one before it.
  predicate InOrder(queue: seq<Event>, edge: nat) {
    && (forall k :: 0 <= k < |queue| ==> queue[k].time < edge)
    && (forall k :: 0 < k < |queue| ==> queue[k - 1].time < queue[k].time)
  }

  // A change of state comes 25 ns after the first edge, SYNC rises 20 ns and falls 2020 ns after it,
  // and the data are read 1550 ns after it.
  predicate OnTime(queue: seq<Event>, base: nat, c: Core) {
    forall e :: e in queue ==>
      && (e.Change? ==> e.time == base + 25)
      && (e.Sync? ==> e.time == base + (if e.high then 20 else 2020))
      && (e.DataIn? ==> e.time == base + 1550 && ReadsInT3(c))
  }

  // No two of the clock, the processor and the processor card are due at the same time, and the
  // processor has no event left at an edge of its clock.
  predicate Orderly(w: World) {
    && InOrder(w.cpu.queue, w.edge)
    && (w.cpu.wake.Some? ==> w.cpu.wake.value < w.edge)
    && (w.cpu.queue != [] ==> w.cpu.wake == Some(w.cpu.queue[0].time))
    && (w.t3prime.Some? ==> w.t3prime.value < w.edge)
    && (w.t3prime.Some? && w.cpu.wake.Some? ==> w.cpu.wake.value != w.t3prime.value)
  }

  lemma StageOrderly(board: Isa.Board, g: Period, stage: Stage, w: World)
    requires Consistent(w) && At(board, g, stage, w)
    ensures Orderly(w) && OnTime(w.cpu.queue, g.base, w.cpu.core)
    ensures !w.contended && (stage.Rest? ==> w.pins.owner.None?)
    ensures w.phase == 3 ==> w.edge in {g.base + 1450, g.base + 3450}
  {
    hide Decision, EnterState, ExecuteT3, Driven, LeftOnPins, CycleControlOf, Answer, BusMachine.Valid, DrivesLate,
      WritesInT3;
    hide Settled, AddressAfter, ControlAfter, LatchAfter, MemoryAfter, IoAfter, IoBefore, Entered, Linked, ReadBack,
      Stepped;
    hide InterruptCycleAfter, PinsHold, ReadsInT3, Left, InterruptsHold;
  }

  // In every run: no ties, no event left at an edge of the clock, and the data pins never requested
  // or set by one while the other owns them.
  lemma TimedSafety(board: Isa.Board, w: World, m: Machine, inputs: seq<Input>)
    requires StartsAtRest(board, w, m)
    ensures var f := Followers(board, w, m, inputs);
            var now := TickAll(board, w, inputs);
            && Orderly(now) && !now.contended
            && OnTime(now.cpu.queue, w.edge + 4000 * |f.steps|, now.cpu.core)
            && (now.phase == 3 ==> now.edge - w.edge - 4000 * |f.steps| in {1450, 3450})
            && (f.stage.Rest? ==> now.pins.owner.None?)
  {
    hide At, TickAll, FollowAll, Orderly, AdvanceAll, OnTime;
    TimedRuns(board, w, m, inputs);
    var f := Followers(board, w, m, inputs);
    StageOrderly(board, f.period, f.stage, f.world);
  }

  // At rest the world is the machine of states, but for what a card does when the next state begins.
  lemma AtRestIsMachine(board: Isa.Board, w: World, m: Machine, inputs: seq<Input>)
    requires StartsAtRest(board, w, m)
    ensures var f := Followers(board, w, m, inputs);
            var now := TickAll(board, w, inputs);
            var r := AdvanceAll(board, m, f.steps);
            f.stage.Rest? ==>
              && now.edge == w.edge + 4000 * |f.steps| && now.phase == 0
              && now.cpu.core == r.core && now.address == r.address && now.control == r.control
              && now.interruptCycle == r.interruptCycle
              && now.io == IoBefore(r)
              && r.memory == (if r.core.state.T3? && r.control.PCW? && board.writable(r.address)
                              then now.memory[r.address := Driven(r.core)] else now.memory)
              && (r.interruptPending ==> now.cpu.interruptPending)
  {
    hide TickAll, FollowAll, AdvanceAll, Driven, Decision, Entered, PinsHold, Answer;
    TimedRuns(board, w, m, inputs);
  }

  // Turns until the end of the T-state, at most.
  function TurnsLeft(stage: Stage): nat {
    match stage
    case Rest => 19
    case Risen1 => 18
    case Synchronised => 17
    case Changed => 16
    case Entering => 15
    case Quiet1 => 14
    case Fallen1 => 13
    case Quiet2 => 12
    case Risen2 => 11
    case Quiet3 => 10
    case Fallen2 => 9
    case Quiet4 => 8
    case Risen1Again => 7
    case Quiet5 => 6
    case Fallen1Again => 5
    case Quiet6 => 4
    case Risen2Again => 3
    case Quiet7 => 2
    case Fallen2Again => 1
  }

  // The T-states go by: each turn is a stage further, until an assertion fails.
  lemma TimeGoesOn(board: Isa.Board, w: World, m: Machine, inputs: seq<Input>, input: Input)
    requires StartsAtRest(board, w, m)
    ensures var f := Followers(board, w, m, inputs);
            var r := FollowTick(board, f, input);
            f.world.cpu.core.faulted
            || (|r.steps| == |f.steps| && TurnsLeft(r.stage) < TurnsLeft(f.stage))
            || (|r.steps| == |f.steps| + 1 && r.stage.Rest?)
  {
    hide TickAll, FollowAll, AdvanceAll, At, Decision, Entered, Tick, WritesInT3, Left;
    TimedSafety(board, w, m, inputs);
    TimedRuns(board, w, m, inputs);
  }

  // Who drives the data pins when SYNC falls: the processor in T1, T1I and T2, in T3 of a writing cycle,
  // and in T4 of an I/O cycle; in every other state they are free.
  lemma DrivesPins(board: Isa.Board, w: World, m: Machine, inputs: seq<Input>)
    requires StartsAtRest(board, w, m)
    ensures var f, now := Followers(board, w, m, inputs), TickAll(board, w, inputs);
            var c := now.cpu.core;
            f.stage.Risen1Again? && !c.faulted ==>
              now.pins.owner == if c.state in {T1, T1I, T2} || (c.state.T3? && c.cycleControl.PCW?)
                                   || (c.state.T4? && c.cycleControl.PCC?)
                                then Some(Processor) else None
  {
    hide At, TickAll, FollowAll, AdvanceAll;
    TimedRuns(board, w, m, inputs);
    var f := Followers(board, w, m, inputs);
    if f.stage.Risen1Again? {
      OwnerAtSync(board, f.period, f.world);
    }
  }

  lemma OwnerAtSync(board: Isa.Board, g: Period, w: World)
    requires Consistent(w) && At(board, g, Risen1Again, w)
    ensures var c := w.cpu.core;
            w.pins.owner == if c.state in {T1, T1I, T2} || (c.state.T3? && c.cycleControl.PCW?)
                               || (c.state.T4? && c.cycleControl.PCC?)
                            then Some(Processor) else None
  {
    hide Decision, EnterState, ExecuteT3, Driven, LeftOnPins, CycleControlOf, Answer, BusMachine.Valid, Entered;
    hide Settled, AddressAfter, ControlAfter, LatchAfter, MemoryAfter, IoAfter, IoBefore, Linked, ReadBack, PinsHold;
  }
}
