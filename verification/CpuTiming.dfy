/** The processor in time: what each edge of its two clock phases schedules, and what each event does. */
module CpuTiming {
  import opened Bytes
  import opened Microcode
  import opened CpuCore
  import opened Wires

  datatype Event =
    | Sync(time: nat, high: bool)
    | Change(time: nat, state: TState)
    | DataOut(time: nat, on: bool)
    | DataIn(time: nat)

  // The value of the processor object: next_events is kept in the order of the times, and wake is
  // its activation time, None when it is not scheduled.
  datatype Cpu = Cpu(
    core: Core,
    interruptPending: bool,
    firstCycle: bool,
    queue: seq<Event>,
    wake: Option<nat>)

  predicate Valid(c: Cpu) { CpuCore.Valid(c.core) }

  // The data pins, and who drives them.
  datatype Agent = Processor | Card

  type Pins = Owned<Agent, Byte>

  predicate MayRequest(p: Pins, who: Agent) { Requested(p, who).Some? }

  function Insert(queue: seq<Event>, e: Event): seq<Event> {
    if queue == [] || e.time < queue[0].time then [e] + queue else [queue[0]] + Insert(queue[1..], e)
  }

  function Push(c: Cpu, e: Event): (r: Cpu)
    ensures r.core == c.core
  {
    c.(queue := Insert(c.queue, e))
  }

  function ScheduleChangeState(c: Cpu, time: nat, ready: bool): (r: Cpu)
    ensures Valid(c) ==> Valid(r)
  {
    var (core, next) := ChangeState(c.core, c.interruptPending, ready);
    var c1 := c.(core := core, interruptPending := c.interruptPending && next != Some(T1I));
    if next.Some? then Push(c1, Change(time + 25, next.value)) else c1
  }

  function ScheduleNextEvent(c: Cpu, time: nat): (r: Cpu)
    ensures r.core == c.core
  {
    c.(wake := Some(if c.queue == [] then time else c.queue[0].time))
  }

  function SignalPhase1(c: Cpu, rising: bool, time: nat, ready: bool): (r: Cpu)
    ensures Valid(c) ==> Valid(r)
  {
    var c1 := if !rising then c
              else if c.firstCycle then ScheduleChangeState(Push(c, Sync(time + 20, true)), time, ready)
              else Push(c, Sync(time + 20, false));
    ScheduleNextEvent(c1, time)
  }

  // A state in which the processor drives the data pins from the second phase on.
  predicate DrivesLate(c: Core) {
    c.state in {T1, T1I, T2} || (c.state.T4? && c.cycleControl.PCC?)
  }

  function On21Raising(c: Cpu, time: nat): Cpu {
    if DrivesLate(c.core) then Push(c, DataOut(time + 20, true)) else c
  }

  predicate ReadsInT3(c: Core) { c.state.T3? && Reads(c.cycleControl) }

  function On21Falling(c: Cpu, time: nat): Cpu {
    if ReadsInT3(c.core) then Push(c, DataIn(time + 100)) else c
  }

  predicate WritesInT3(c: Core) { c.state.T3? && c.cycleControl.PCW? }

  function On22Falling(c: Cpu, time: nat): Cpu {
    if c.core.state in {T1, T1I, T2} || WritesInT3(c.core) then Push(c, DataOut(time + 120, false))
    else if c.core.state.T4? && c.core.cycleControl.PCC? then Push(c, DataOut(time + 20, false))
    else c
  }

  function SignalPhase2(c: Cpu, rising: bool, time: nat): (r: Cpu)
    ensures r.core == c.core
  {
    var c1 := if rising then (if c.firstCycle then On21Raising(c, time) else c)
              else if c.firstCycle then On21Falling(c, time).(firstCycle := false)
              else On22Falling(c, time).(firstCycle := true);
    ScheduleNextEvent(c1, time)
  }

  // The work of an event on the processor itself; pins is the value it finds on its data pins.
  function Handle(c: Cpu, e: Event, pins: Byte): (r: Cpu)
    requires Valid(c)
    ensures Valid(r)
  {
    match e
    case Sync(_, _) => c
    case Change(time, state) =>
      var c1 := c.(core := EnterState(c.core, state, pins));
      if WritesInT3(c1.core) then Push(c1, DataOut(time + 20, true)) else c1
    case DataOut(_, _) => c
    case DataIn(_) => c.(core := ExecuteT3(c.core, pins))
  }

  // The activation time once a step is done.
  function Rescheduled(c: Cpu): (r: Cpu)
    ensures r.core == c.core
  {
    c.(wake := if c.queue == [] then None else Some(c.queue[0].time))
  }

  // What a step leaves on the pins, None when the source throws.
  function PinsAfter(c: Core, e: Event, p: Pins): Option<Pins> {
    match e
    case DataOut(_, true) =>
      var requested := Requested(p, Processor);
      if requested.None? then None else Set(requested.value, Driven(c), Processor)
    case DataOut(_, false) => Released(p, Processor)
    case _ => Some(p)
  }

  function Step(c: Cpu, pins: Byte): (r: Cpu)
    requires Valid(c)
    ensures Valid(r)
  {
    if c.queue == [] then c.(wake := None)
    else Rescheduled(Handle(c.(queue := c.queue[1..]), c.queue[0], pins))
  }
}
