/** The timed run whose interrupts are those of the interrupt controller. */
module InterruptedRuns {
  import opened Bytes
  import opened Microcode
  import opened CpuCore
  import opened CpuTiming
  import opened BusMachine
  import opened ServedInterrupts
  import opened T = Timed
  import C = InterruptControl
  import Emulation
  import H = Handshake
  import Isa
  import Runs

  // What surrounds the processor and the controller before a turn: the READY level, another card that
  // raises the interrupt line, the request lines, and what the controller finds on the buses.
  datatype Around = Around(ready: bool, other: bool, lines: seq<bool>, md: Byte, data: Byte)

  // The timed world with the handshake of its controller. raised tells that the controller has raised
  // its line in the last turn; the levels acknowledged and dispatched are noted in their order.
  datatype Loop = Loop(
    world: World,
    handshake: H.System,
    raised: bool,
    acknowledged: seq<Option<nat>>,
    dispatched: seq<nat>)

  predicate Sane(l: Loop) {
    T.Consistent(l.world) && C.ValidController(l.handshake.controller)
  }

  // The processor is subscribed to the clock before the controller: it sees the line in the next turn.
  function InputOf(l: Loop, a: Around): Input
    requires Sane(l)
  {
    Input(a.ready, l.raised || a.other, C.Offer(l.handshake.controller).0)
  }

  // What the controller notices of a turn.
  function EventOf(w: World, a: Around): Option<H.Event> {
    if w.cpu.core.faulted || w.contended then None
    else
      match Next(w)
      case OfClock =>
        if w.phase == 0 then Some(H.Phase1Rises(a.lines)) else if w.phase == 3 then Some(H.Phase2Falls) else None
      case OfProcessor =>
        if w.cpu.queue == [] then None
        else
          (match w.cpu.queue[0]
           case Change(_, next) => Some(H.ChangesState(next))
           case Sync(_, high) => if high then None else Some(H.SyncFalls(a.data))
           case _ => None)
      case OfCard => Some(H.T3PrimeRises(w.control, a.md))
  }

  // A state T1I has been decided on because an interrupt waits.
  function Waiting(s: H.System, e: Option<H.Event>, a: Around): H.System {
    if a.other || e == Some(H.ChangesState(T1I)) then s.(interruptPending := true) else s
  }

  function React(s: H.System, e: Option<H.Event>): (r: H.System)
    requires C.ValidController(s.controller)
    ensures C.ValidController(r.controller)
  {
    if e.Some? && H.CanHappen(s, e.value) then H.Happen(s, e.value) else s
  }

  function TakeTurn(board: Isa.Board, l: Loop, a: Around): (r: Loop)
    requires Sane(l)
    ensures Sane(r)
  {
    var e := EventOf(l.world, a);
    var s := Waiting(l.handshake, e, a);
    var r := React(s, e);
    Loop(Tick(board, l.world, InputOf(l, a)), r, r.controller.line && !s.controller.line,
         if e.Some? then AcknowledgedAfter(s, e.value, l.acknowledged) else l.acknowledged,
         DispatchedAfter(s, r, l.dispatched))
  }

  function TakeTurns(board: Isa.Board, l: Loop, turns: seq<Around>): (r: Loop)
    requires Sane(l)
    ensures Sane(r)
    decreases |turns|
  {
    if turns == [] then l else TakeTurn(board, TakeTurns(board, l, turns[..|turns| - 1]), turns[|turns| - 1])
  }

  // The inputs that the loop gives to the timed run.
  function InputsOf(board: Isa.Board, l: Loop, turns: seq<Around>): (inputs: seq<Input>)
    requires Sane(l)
    ensures |inputs| == |turns|
    decreases |turns|
  {
    if turns == [] then []
    else
      var before := turns[..|turns| - 1];
      InputsOf(board, l, before) + [InputOf(TakeTurns(board, l, before), turns[|turns| - 1])]
  }

  // What the controller notices at each stage of a T-state.
  function StageEvent(g: Period, stage: Stage, w: World, a: Around): Option<H.Event> {
    match stage
    case Rest => Some(H.Phase1Rises(a.lines))
    case Synchronised => if Decision(g).1.Some? then Some(H.ChangesState(Decision(g).1.value)) else None
    case Entering => Some(H.T3PrimeRises(w.control, a.md))
    case Quiet3 => Some(H.Phase2Falls)
    case Quiet4 => Some(H.Phase1Rises(a.lines))
    case Risen1Again => Some(H.SyncFalls(a.data))
    case Quiet7 => Some(H.Phase2Falls)
    case _ => None
  }

  lemma EventAtStage(board: Isa.Board, f: Followed, a: Around)
    requires Coherent(f) && T.Follows(board, f) && !f.world.cpu.core.faulted
    ensures EventOf(f.world, a) == StageEvent(f.period, f.stage, f.world, a)
  {
    hide Decision, Entered, Linked, PinsHold, InterruptsHold, CoreAt, OwnsAt, LatchAfter, MemoryAfter, IoAfter;
    hide IoBefore, AddressAfter, ControlAfter, InterruptCycleAfter, Settled, WritesInT3, DrivesLate, ReadsInT3;
    hide BusMachine.Valid, Left;
  }

  // A turn changes the state and the interrupt cycle only where the controller notices it.

  lemma DecisionState(c: Cpu, time: nat, ready: bool)
    ensures ScheduleChangeState(c, time, ready).core.state == c.core.state
  {
  }

  lemma ClockState(w: World, input: Input)
    requires T.Consistent(w)
    ensures var r := TickClock(w, input);
            && r.cpu.core.state == w.cpu.core.state
            && r.interruptCycle == (if w.phase == 3 && w.cpu.core.state.T1I? then true
                                    else if w.phase == 3 && w.cpu.core.state.T1? then false
                                    else w.interruptCycle)
  {
    hide ScheduleChangeState, Insert;
    DecisionState(Push(w.cpu, Sync(w.edge + 20, true)), w.edge, input.ready);
  }

  lemma LeaveState(board: Isa.Board, w: World, time: nat)
    requires T.Consistent(w)
    ensures var r := Leave(board, w, time); r.cpu == w.cpu && r.interruptCycle == w.interruptCycle
  {
    hide Data;
  }

  lemma ProcessorState(board: Isa.Board, w: World)
    requires T.Consistent(w)
    ensures var r := TickProcessor(board, w);
            && r.interruptCycle == w.interruptCycle
            && r.cpu.core.state == (if w.cpu.queue != [] && w.cpu.queue[0].Change? then w.cpu.queue[0].state
                                    else w.cpu.core.state)
  {
    hide EnterState, ExecuteT3, LatchOnSync, Leave, PinsAfter, Insert;
    if w.cpu.queue != [] && w.cpu.queue[0].Change? {
      LeaveState(board, w, w.cpu.queue[0].time);
    }
  }

  lemma StateTurn(board: Isa.Board, w: World, input: Input, a: Around)
    requires T.Consistent(w)
    ensures var r, e := Tick(board, w, input), EventOf(w, a);
            && r.cpu.core.state == (if e.Some? && e.value.ChangesState? then e.value.next else w.cpu.core.state)
            && r.interruptCycle == (if e == Some(H.Phase2Falls) && w.cpu.core.state.T1I? then true
                                    else if e == Some(H.Phase2Falls) && w.cpu.core.state.T1? then false
                                    else w.interruptCycle)
  {
    hide TickClock, TickProcessor;
    ClockState(Raised(w, input), input);
    ProcessorState(board, Raised(w, input));
  }

  // The falls of phase 2 in the state that the processor is in.
  function FallsAt(g: Period, stage: Stage): nat {
    if BeforeChange(stage) || stage.Fallen2Again? || Decision(g).1.None? then 2
    else if stage in {Fallen2, Quiet4, Risen1Again, Quiet5, Fallen1Again, Quiet6, Risen2Again, Quiet7} then 1
    else 0
  }

  // The handshake is where the processor is.
  predicate Tracks(l: Loop, f: Followed) {
    && l.world == f.world
    && l.handshake.state == f.world.cpu.core.state
    && l.handshake.interruptCycle == f.world.interruptCycle
    && l.handshake.falls == FallsAt(f.period, f.stage)
  }

  // The state at a stage: the one before the T-state, or the one that has been entered.
  lemma StateAtStage(board: Isa.Board, f: Followed)
    requires Coherent(f) && T.Follows(board, f) && !f.world.cpu.core.faulted
    ensures var g, state := f.period, f.world.cpu.core.state;
            if BeforeChange(f.stage) then state == g.m.core.state
            else if Decision(g).1.Some? then state == Decision(g).1.value
            else state == g.m.core.state && state in {WAIT, STOPPED}
    ensures BusMachine.Valid(f.period.m) && !f.period.m.core.faulted
    ensures f.stage.Synchronised? ==> Decision(f.period).1.Some?
    ensures f.world.interruptCycle == if EdgeAt(f.stage).0 >= 2000 then InterruptCycleAfter(f.period)
                                      else f.period.m.interruptCycle
  {
    hide Decision, Entered, PinsHold, InterruptsHold, QueueAt, WakeAt, OwnsAt, LatchAfter, MemoryAfter, IoAfter;
    hide IoBefore, AddressAfter, ControlAfter, InterruptCycleAfter, Settled, WritesInT3, DrivesLate, ReadsInT3;
    hide Left, Driven, T.Answer;
    DecisionFrame(f.period);
    EnteredFrame(f.period);
    if Decision(f.period).1.None? {
      StaysInT3(f.period);
    }
  }

  lemma FollowsWaiting(previous: TState, next: TState, interrupt: bool, pending: bool)
    requires H.Follows(previous, next, interrupt) && (next.T1I? ==> pending)
    ensures H.Follows(previous, next, pending)
  {
  }

  // What the controller notices can happen in the handshake.
  lemma EventHappens(board: Isa.Board, f: Followed, l: Loop, a: Around)
    requires Coherent(f) && T.Follows(board, f) && !f.world.cpu.core.faulted && Sane(l) && Tracks(l, f)
    requires |a.lines| == C.LEVELS && EventOf(f.world, a).Some?
    ensures H.CanHappen(Waiting(l.handshake, EventOf(f.world, a), a), EventOf(f.world, a).value)
  {
    hide T.Follows, EventOf, Decision, H.Follows, Coherent;
    EventAtStage(board, f, a);
    StateAtStage(board, f);
    if f.stage.Synchronised? {
      DecisionIs(f.period);
      var next := Decision(f.period).1.value;
      H.DecisionFollows(f.period.m.core, f.period.interrupt, f.period.ready, next);
      FollowsWaiting(f.period.m.core.state, next, f.period.interrupt,
                     Waiting(l.handshake, EventOf(f.world, a), a).interruptPending);
    }
  }

  lemma DecisionIs(g: Period)
    ensures Decision(g) == ChangeState(g.m.core, g.interrupt, g.ready)
  {
  }

  // The decision of a T-state stays, whatever is jammed.
  lemma SameDecision(g: Period, jammed: Option<Byte>)
    ensures Decision(g.(jammed := jammed)) == Decision(g)
  {
    hide ChangeState;
  }

  // What the handshake makes of an event.
  lemma ReactMoves(s: H.System, e: Option<H.Event>)
    requires C.ValidController(s.controller) && (e.Some? ==> H.CanHappen(s, e.value))
    ensures var r := React(s, e);
            && r.state == (if e.Some? && e.value.ChangesState? then e.value.next else s.state)
            && r.interruptCycle == (if e == Some(H.Phase2Falls) && s.state.T1I? then true
                                    else if e == Some(H.Phase2Falls) && s.state.T1? then false
                                    else s.interruptCycle)
            && r.falls == (if e.Some? && e.value.ChangesState? then 0
                           else if e == Some(H.Phase2Falls) then (if s.falls < 2 then s.falls + 1 else 2)
                           else s.falls)
  {
    hide C.AfterPhase1, C.AfterState, C.AfterT3Prime, C.AfterSync, C.Offer, C.Lowest, H.CanHappen;
  }

  lemma FallsNext(board: Isa.Board, f: Followed, input: Input, a: Around)
    requires Coherent(f) && T.Follows(board, f) && !f.world.cpu.core.faulted && !f.world.contended
    ensures var e := EventOf(f.world, a);
            var falls := FallsAt(f.period, f.stage);
            var f1 := FollowTick(board, f, input);
            FallsAt(f1.period, f1.stage) == (if e.Some? && e.value.ChangesState? then 0
                                             else if e == Some(H.Phase2Falls) then (if falls < 2 then falls + 1 else 2)
                                             else falls)
  {
    hide T.Follows, EventOf, Decision, Tick, NextPeriod, WritesInT3, Entered, Left, BusMachine.Valid;
    EventAtStage(board, f, a);
    StateAtStage(board, f);
    SameDecision(f.period, input.jammed);
  }

  lemma TurnIs(board: Isa.Board, l: Loop, a: Around)
    requires Sane(l)
    ensures var r := TakeTurn(board, l, a);
            && r.world == Tick(board, l.world, InputOf(l, a))
            && r.handshake == React(Waiting(l.handshake, EventOf(l.world, a), a), EventOf(l.world, a))
  {
    hide Tick, React, EventOf, InputOf, Waiting, AcknowledgedAfter, DispatchedAfter;
  }

  lemma WaitingMoves(s: H.System, e: Option<H.Event>, a: Around)
    ensures Waiting(s, e, a) == s.(interruptPending := Waiting(s, e, a).interruptPending)
  {
  }

  // Each turn of the loop keeps the handshake where the processor is.
  lemma TracksNext(board: Isa.Board, f: Followed, l: Loop, a: Around)
    requires Coherent(f) && T.Follows(board, f) && !f.world.cpu.core.faulted && !f.world.contended
    requires Sane(l) && Tracks(l, f) && |a.lines| == C.LEVELS
    ensures Tracks(TakeTurn(board, l, a), FollowTick(board, f, InputOf(l, a)))
  {
    hide T.Follows, EventOf, Tick, H.CanHappen, InputOf, TakeTurn, React, Waiting, FallsAt, FollowTick;
    var e := EventOf(f.world, a);
    if e.Some? {
      EventHappens(board, f, l, a);
    }
    TurnIs(board, l, a);
    WaitingMoves(l.handshake, e, a);
    ReactMoves(Waiting(l.handshake, e, a), e);
    StateTurn(board, f.world, InputOf(l, a), a);
    FallsNext(board, f, InputOf(l, a), a);
    FollowOne(board, f, InputOf(l, a));
  }

  // When nothing disturbs the requests.

  predicate UndisturbedTurn(l: Loop, a: Around)
    requires Sane(l)
  {
    var e := EventOf(l.world, a);
    var s := Waiting(l.handshake, e, a);
    |a.lines| == C.LEVELS && (e.Some? && H.CanHappen(s, e.value) ==> H.Undisturbed(s, e.value))
  }

  predicate Undisturbed(board: Isa.Board, l: Loop, turns: seq<Around>)
    requires Sane(l)
    decreases |turns|
  {
    turns == [] ||
    (&& Undisturbed(board, l, turns[..|turns| - 1])
     && UndisturbedTurn(TakeTurns(board, l, turns[..|turns| - 1]), turns[|turns| - 1]))
  }

  predicate InOrder(l: Loop) {
    H.OnItsWay(l.handshake) && Recorded(l.handshake, l.acknowledged, l.dispatched)
  }

  lemma WaitingKeeps(s: H.System, e: Option<H.Event>, a: Around, acknowledged: seq<Option<nat>>, dispatched: seq<nat>)
    requires H.OnItsWay(s) && Recorded(s, acknowledged, dispatched)
    ensures H.OnItsWay(Waiting(s, e, a)) && Recorded(Waiting(s, e, a), acknowledged, dispatched)
    ensures C.ValidController(s.controller)
  {
    hide H.OnlyIn, H.NothingIn, C.Bit, Levels;
  }

  lemma SameRecords(s: H.System, acknowledged: seq<Option<nat>>, dispatched: seq<nat>)
    requires C.ValidController(s.controller)
    ensures DispatchedAfter(s, s, dispatched) == dispatched
  {
  }

  lemma InOrderNext(board: Isa.Board, l: Loop, a: Around)
    requires Sane(l) && InOrder(l) && UndisturbedTurn(l, a)
    requires var e := EventOf(l.world, a); e.Some? ==> H.CanHappen(Waiting(l.handshake, e, a), e.value)
    ensures InOrder(TakeTurn(board, l, a))
  {
    hide H.OnItsWay, Recorded, H.CanHappen, H.Happen, H.Undisturbed, EventOf, Waiting, Tick, AcknowledgedAfter;
    hide DispatchedAfter, InputOf;
    var e := EventOf(l.world, a);
    var s := Waiting(l.handshake, e, a);
    WaitingKeeps(l.handshake, e, a, l.acknowledged, l.dispatched);
    WaitingMoves(l.handshake, e, a);
    if e.Some? {
      H.StaysOnItsWay(s, e.value);
      RecordsStay(s, e.value, l.acknowledged, l.dispatched);
    } else {
      SameRecords(s, l.acknowledged, l.dispatched);
    }
  }

  // The opcode that a T3 takes is offered at the first fall of phase 2.

  predicate AfterFirstFall(stage: Stage) {
    stage in {Fallen2, Quiet4, Risen1Again, Quiet5, Fallen1Again, Quiet6, Risen2Again, Quiet7, Fallen2Again}
  }

  predicate JamKnown(l: Loop, f: Followed) {
    AfterFirstFall(f.stage) && Decision(f.period).1 == Some(T3) && f.period.m.interruptCycle ==>
      l.acknowledged != [] && f.period.jammed == Opcode(l.acknowledged[|l.acknowledged| - 1])
  }

  lemma Offered(board: Isa.Board, f: Followed, l: Loop)
    requires Coherent(f) && T.Follows(board, f) && !f.world.cpu.core.faulted && Sane(l) && Tracks(l, f) && InOrder(l)
    requires f.stage.Quiet3? && Decision(f.period).1 == Some(T3) && f.period.m.interruptCycle
    ensures l.acknowledged != []
    ensures C.Offer(l.handshake.controller).0 == Opcode(l.acknowledged[|l.acknowledged| - 1])
  {
    hide T.Follows, Decision, H.OnItsWay, C.Offer, Levels, Opcode;
    StateAtStage(board, f);
    OfferedIs(l.handshake);
  }

  lemma AcknowledgedOnly(board: Isa.Board, l: Loop, a: Around)
    requires Sane(l)
    ensures EventOf(l.world, a) != Some(H.ChangesState(T1I)) ==>
              TakeTurn(board, l, a).acknowledged == l.acknowledged
    ensures EventOf(l.world, a) == Some(H.ChangesState(T1I)) ==>
              |TakeTurn(board, l, a).acknowledged| == |l.acknowledged| + 1
              && TakeTurn(board, l, a).acknowledged[..|l.acknowledged|] == l.acknowledged
  {
    hide Tick, React, EventOf, InputOf, Waiting, DispatchedAfter;
  }

  lemma JamNext(board: Isa.Board, f: Followed, l: Loop, a: Around)
    requires Coherent(f) && T.Follows(board, f) && !f.world.cpu.core.faulted && !f.world.contended
    requires Sane(l) && Tracks(l, f) && InOrder(l) && JamKnown(l, f)
    ensures JamKnown(TakeTurn(board, l, a), FollowTick(board, f, InputOf(l, a)))
  {
    hide T.Follows, EventOf, Decision, Tick, NextPeriod, WritesInT3, Entered, Left, BusMachine.Valid, TakeTurn, Opcode;
    hide InOrder, C.Offer;
    EventAtStage(board, f, a);
    AcknowledgedOnly(board, l, a);
    SameDecision(f.period, InputOf(l, a).jammed);
    if f.stage.Quiet3? && Decision(f.period).1 == Some(T3) && f.period.m.interruptCycle {
      Offered(board, f, l);
    }
  }

  // What has been acknowledged is what the instructions have executed, but for the last one.

  predicate Entering(f: Followed) {
    !BeforeChange(f.stage) && Decision(f.period).1 == Some(T1I)
  }

  predicate Accounted(l: Loop, f: Followed, o: Runs.Observer) {
    && |l.acknowledged| == |Served(o)| + (if Awaiting(o) then 1 else 0) + (if Entering(f) then 1 else 0)
    && Served(o) == Opcodes(l.acknowledged[..|Served(o)|])
  }

  lemma OpcodesMore(levels: seq<Option<nat>>, n: nat)
    requires n < |levels|
    ensures Opcodes(levels[..n + 1]) == Opcodes(levels[..n]) + [Opcode(levels[n])]
  {
    hide Opcode;
  }

  lemma SameFollowed(board: Isa.Board, f: Followed, input: Input)
    requires Coherent(f) && !f.stage.Fallen2Again?
    ensures FollowTick(board, f, input).steps == f.steps
  {
    hide Tick, NextPeriod, After;
  }

  // A turn that does not end the T-state.
  lemma AccountedWithin(board: Isa.Board, f: Followed, l: Loop, a: Around, o: Runs.Observer)
    requires Coherent(f) && T.Follows(board, f) && !f.world.cpu.core.faulted && !f.world.contended
    requires Sane(l) && Tracks(l, f) && !f.stage.Fallen2Again? && Accounted(l, f, o)
    ensures Accounted(TakeTurn(board, l, a), FollowTick(board, f, InputOf(l, a)), o)
  {
    hide T.Follows, EventOf, Decision, Tick, NextPeriod, WritesInT3, T.Entered, Left, BusMachine.Valid, TakeTurn;
    hide Served, Awaiting, Opcodes, InputOf;
    EventAtStage(board, f, a);
    StateAtStage(board, f);
    AcknowledgedOnly(board, l, a);
    SameDecision(f.period, InputOf(l, a).jammed);
    var n := |Served(o)|;
    assert TakeTurn(board, l, a).acknowledged[..|l.acknowledged|][..n] == TakeTurn(board, l, a).acknowledged[..n];
  }

  // The machine at the end of a T-state.
  lemma PeriodEnds(board: Isa.Board, f: Followed)
    requires Coherent(f) && T.Follows(board, f) && !f.world.cpu.core.faulted && f.stage.Fallen2Again?
    ensures var g, m := f.period, Stepped(board, f.period);
            && m.core.state == (if Decision(g).1.Some? then Decision(g).1.value else g.m.core.state)
            && (m.core.state.T3? ==> m.interruptCycle == g.m.interruptCycle)
            && (Decision(g).1 == Some(T3) ==> g.m.core.state in {T2, WAIT})
            && (Decision(g).1.None? ==> m.core.state in {WAIT, STOPPED})
            && !g.m.core.faulted
  {
    hide T.Follows, Decision, Stepped, Settled, AddressAfter, ControlAfter, MemoryStored, IoDone, T.Entered, Linked;
    StateAtStage(board, f);
    EndFacts(board, f);
    SteppedIs(board, f.period);
  }

  lemma EndFacts(board: Isa.Board, f: Followed)
    requires Coherent(f) && T.Follows(board, f) && !f.world.cpu.core.faulted && f.stage.Fallen2Again?
    ensures var g := f.period;
            && Sound(g) && Linked(board, g) && !Settled(board, g).faulted
            && (g.m.interruptPending ==> g.interrupt)
            && Settled(board, g).state == f.world.cpu.core.state == T.Entered(g).state
            && (Decision(g).1 == Some(T3) ==> g.m.core.state in {T2, WAIT})
  {
    hide Decision, T.Entered, PinsHold, QueueAt, WakeAt, OwnsAt, LatchAfter, MemoryAfter, IoAfter, Linked;
    hide IoBefore, AddressAfter, ControlAfter, InterruptCycleAfter, Settled, WritesInT3, DrivesLate, ReadsInT3;
    hide Left, Driven, T.Answer;
    DecisionFrame(f.period);
  }

  lemma EndedFollow(board: Isa.Board, f: Followed, input: Input)
    requires Coherent(f) && !f.world.cpu.core.faulted && !f.world.contended && f.stage.Fallen2Again?
    ensures var r, g := FollowTick(board, f, input), f.period;
            && r.steps == f.steps + [Env(g.ready, g.interrupt, g.jammed)] && r.stage.Rest?
            && r.period.m == Stepped(board, g)
            && Stepped(board, g) == Advance(board, g.m, Env(g.ready, g.interrupt, g.jammed))
  {
    hide Tick, Advance, MemoryAfter, LatchAfter;
  }

  lemma ObservedMore(board: Isa.Board, m: Machine, steps: seq<Env>, e: Env)
    requires BusMachine.Valid(m)
    ensures Runs.ObserveAll(board, Runs.Begin(m), steps + [e])
            == Runs.Observe(board, Runs.ObserveAll(board, Runs.Begin(m), steps), e)
  {
    hide Runs.Observe;
    assert (steps + [e])[..|steps|] == steps;
  }

  // The turn that ends the T-state.
  lemma AccountedEnd(board: Isa.Board, s: Isa.Arch, f: Followed, l: Loop, a: Around, o: Runs.Observer)
    requires Coherent(f) && T.Follows(board, f) && !f.world.cpu.core.faulted && !f.world.contended
    requires Sane(l) && Tracks(l, f) && f.stage.Fallen2Again? && Accounted(l, f, o) && JamKnown(l, f)
    requires Runs.Consistent(o) && Runs.Invariant(board, s, o) && o.machine == f.period.m
    ensures var e := Env(f.period.ready, f.period.interrupt, f.period.jammed);
            Accounted(TakeTurn(board, l, a), FollowTick(board, f, InputOf(l, a)), Runs.Observe(board, o, e))
  {
    var e := Env(f.period.ready, f.period.interrupt, f.period.jammed);
    hide T.Follows, EventOf, Decision, Tick, NextPeriod, T.Entered, BusMachine.Valid, TakeTurn, Stepped, FollowTick;
    hide Served, Awaiting, Opcodes, InputOf, Runs.Invariant, Runs.Observe, Advance, Opcode, Coherent;
    EventAtStage(board, f, a);
    AcknowledgedOnly(board, l, a);
    PeriodEnds(board, f);
    EndedFollow(board, f, InputOf(l, a));
    Runs.ObservedMachine(board, o, e);
    ServedOne(board, s, o, e);
    assert l.acknowledged[..|l.acknowledged|] == l.acknowledged;
    assert TakeTurn(board, l, a).acknowledged == l.acknowledged by {
      assert EventOf(l.world, a).None?;
    }
    if Takes(o, Runs.Observe(board, o, e).machine) {
      OpcodesMore(l.acknowledged, |Served(o)|);
    }
  }

  // All of it together.
  ghost predicate Invariant(board: Isa.Board, m: Machine, l: Loop, f: Followed)
    requires BusMachine.Valid(m) && Sane(l) && Coherent(f)
  {
    var o := Runs.ObserveAll(board, Runs.Begin(m), f.steps);
    && T.Follows(board, f) && !f.world.contended && f.period.m == o.machine
    && Tracks(l, f) && InOrder(l) && JamKnown(l, f) && Accounted(l, f, o) && Heard(l, f)
  }

  lemma FaultedTurn(board: Isa.Board, f: Followed, l: Loop, a: Around)
    requires Sane(l) && Coherent(f) && l.world == f.world && f.world.cpu.core.faulted
    requires H.OnItsWay(l.handshake) && Recorded(l.handshake, l.acknowledged, l.dispatched)
    ensures var r := TakeTurn(board, l, a);
            && FollowTick(board, f, InputOf(l, a)) == f && r.world == l.world
            && r.handshake == Waiting(l.handshake, None, a)
            && r.acknowledged == l.acknowledged && r.dispatched == l.dispatched && InOrder(r)
  {
    hide H.OnItsWay, Recorded, InputOf;
    WaitingKeeps(l.handshake, None, a, l.acknowledged, l.dispatched);
    SameRecords(Waiting(l.handshake, None, a), l.acknowledged, l.dispatched);
  }

  lemma InvariantNext(board: Isa.Board, m: Machine, l: Loop, f: Followed, a: Around)
    requires BusMachine.Valid(m) && AtBoundary(m) && Sane(l) && Coherent(f)
    requires Invariant(board, m, l, f) && UndisturbedTurn(l, a)
    ensures Invariant(board, m, TakeTurn(board, l, a), FollowTick(board, f, InputOf(l, a)))
  {
    hide T.Follows, Tracks, InOrder, JamKnown, Accounted, TakeTurn, FollowTick, Runs.ObserveAll, EventOf, InputOf;
    hide Heard;
    hide H.CanHappen, AtBoundary, Coherent, Waiting;
    var o := Runs.ObserveAll(board, Runs.Begin(m), f.steps);
    if f.world.cpu.core.faulted {
      FaultedKeeps(board, m, l, f, a);
    } else {
      var e := EventOf(f.world, a);
      SameWorld(l, f);
      if e.Some? {
        EventHappens(board, f, l, a);
      }
      TracksNext(board, f, l, a);
      InOrderNext(board, l, a);
      JamNext(board, f, l, a);
      HeardNext(board, f, l, a);
      FollowOne(board, f, InputOf(l, a));
      NextUncontended(board, f, InputOf(l, a));
      if f.stage.Fallen2Again? {
        Runs.InvariantAlways(board, m, f.steps);
        AccountedEnd(board, Abstract(m), f, l, a, o);
        EndedFollow(board, f, InputOf(l, a));
        var step := Env(f.period.ready, f.period.interrupt, f.period.jammed);
        ObservedMore(board, m, f.steps, step);
        Runs.ObservedMachine(board, o, step);
      } else {
        AccountedWithin(board, f, l, a, o);
        SameFollowed(board, f, InputOf(l, a));
        SameMachine(board, f, InputOf(l, a));
      }
    }
  }

  lemma SameWorld(l: Loop, f: Followed)
    requires Tracks(l, f)
    ensures l.world == f.world
  {
  }

  lemma SameMachine(board: Isa.Board, f: Followed, input: Input)
    requires Coherent(f) && !f.stage.Fallen2Again?
    ensures FollowTick(board, f, input).period.m == f.period.m
  {
    hide Tick, NextPeriod, After;
  }

  lemma NextUncontended(board: Isa.Board, f: Followed, input: Input)
    requires Coherent(f) && T.Follows(board, f)
    ensures !FollowTick(board, f, input).world.contended
  {
    hide FollowTick, At;
    FollowOne(board, f, input);
    var r := FollowTick(board, f, input);
    StageOrderly(board, r.period, r.stage, r.world);
  }

  lemma FaultedKeeps(board: Isa.Board, m: Machine, l: Loop, f: Followed, a: Around)
    requires BusMachine.Valid(m) && Sane(l) && Coherent(f) && Invariant(board, m, l, f) && f.world.cpu.core.faulted
    ensures Invariant(board, m, TakeTurn(board, l, a), FollowTick(board, f, InputOf(l, a)))
  {
    hide T.Follows, Runs.ObserveAll, TakeTurn, FollowTick, Served, Awaiting, Opcodes, FallsAt, Decision;
    hide H.OnItsWay, Recorded, InputOf;
    FaultedTurn(board, f, l, a);
  }

  // The processor has heard of the level that is applied: its interrupt waits, or its T1I is decided.
  predicate Heard(l: Loop, f: Followed) {
    l.handshake.controller.applying && !l.handshake.state.T1I? && !l.world.cpu.core.faulted ==>
      || l.raised || l.world.cpu.interruptPending
      || (f.stage in {Risen1, Synchronised} && Decision(f.period).1 == Some(T1I))
  }

  // An interrupt that waits is not forgotten, but when its T1I is decided.
  lemma ClockPending(w: World, input: Input)
    requires T.Consistent(w)
    ensures var decides := w.phase == 0 && w.cpu.firstCycle
                           && ChangeState(w.cpu.core, w.cpu.interruptPending, input.ready).1 == Some(T1I);
            TickClock(w, input).cpu.interruptPending == (w.cpu.interruptPending && !decides)
  {
    hide ScheduleChangeState, ChangeState, Insert;
    DecisionPending(Push(w.cpu, Sync(w.edge + 20, true)), w.edge, input.ready);
    CardKeepsProcessor(w, input.jammed);
  }

  lemma CardKeepsProcessor(w: World, jammed: Option<Byte>)
    ensures CardOnPhase2(w, jammed).cpu == w.cpu
  {
  }

  lemma DecisionPending(c: Cpu, time: nat, ready: bool)
    ensures ScheduleChangeState(c, time, ready).interruptPending
            == (c.interruptPending && ChangeState(c.core, c.interruptPending, ready).1 != Some(T1I))
  {
    hide ChangeState, Insert;
  }

  lemma ProcessorPending(board: Isa.Board, w: World)
    requires T.Consistent(w)
    ensures TickProcessor(board, w).cpu.interruptPending == w.cpu.interruptPending
  {
    hide EnterState, ExecuteT3, LatchOnSync, Leave, PinsAfter, Insert;
  }

  lemma PendingTurn(board: Isa.Board, w: World, input: Input)
    requires T.Consistent(w) && !w.cpu.core.faulted && !w.contended
    ensures var p := w.cpu.interruptPending || input.interrupt;
            var decides := Next(w).OfClock? && w.phase == 0 && w.cpu.firstCycle
                           && ChangeState(w.cpu.core, p, input.ready).1 == Some(T1I);
            Tick(board, w, input).cpu.interruptPending == (p && !decides)
  {
    hide TickClock, TickProcessor, ChangeState;
    ClockPending(Raised(w, input), input);
    ProcessorPending(board, Raised(w, input));
  }

  lemma FirstEdgeOnlyAtRest(board: Isa.Board, f: Followed)
    requires Coherent(f) && T.Follows(board, f) && !f.world.cpu.core.faulted
    ensures var w := f.world; Next(w).OfClock? && w.phase == 0 && w.cpu.firstCycle ==> f.stage.Rest?
    ensures f.stage.Rest? ==> f.world.cpu.core == f.period.m.core
  {
    hide Decision, T.Entered, Linked, PinsHold, InterruptsHold, OwnsAt, LatchAfter, MemoryAfter, IoAfter;
    hide IoBefore, AddressAfter, ControlAfter, InterruptCycleAfter, Settled, WritesInT3, DrivesLate, ReadsInT3;
    hide BusMachine.Valid, Left;
  }

  // What the turn does to the level that is applied and to the line.
  lemma AppliedNext(board: Isa.Board, l: Loop, a: Around)
    requires Sane(l) && InOrder(l)
    requires var e := EventOf(l.world, a); e.Some? ==> H.CanHappen(Waiting(l.handshake, e, a), e.value)
    ensures var r, s := TakeTurn(board, l, a), l.handshake;
            r.handshake.controller.applying && !r.handshake.state.T1I? ==>
              (s.controller.applying && !s.state.T1I?) || r.raised
  {
    hide C.Lowest, H.Happen, H.CanHappen, Tick, EventOf, InputOf, AcknowledgedAfter, DispatchedAfter, Levels, H.AcksOk;
    var e := EventOf(l.world, a);
    var s := Waiting(l.handshake, e, a);
    WaitingKeeps(l.handshake, e, a, l.acknowledged, l.dispatched);
    if e.Some? {
      ApplyingNext(s, e.value);
    }
  }

  // A level begins to be applied when the line rises.
  lemma ApplyingNext(s: H.System, e: H.Event)
    requires H.OnItsWay(s) && H.CanHappen(s, e)
    ensures var r := H.Happen(s, e);
            r.controller.applying && !r.state.T1I? ==>
              (s.controller.applying && !s.state.T1I?) || (r.controller.line && !s.controller.line)
  {
    hide C.Lowest, C.Injected, C.Bit, H.OnlyIn, H.NothingIn, H.Follows, C.AfterT3Prime, C.AfterSync;
    OthersApply(s.controller, e);
  }

  lemma OthersApply(c: C.Controller, e: H.Event)
    requires C.ValidController(c)
    ensures e.T3PrimeRises? ==> var r := C.AfterT3Prime(c, e.cc, e.md); r.applying == c.applying && r.line == c.line
    ensures e.SyncFalls? ==>
              forall t2, t3 :: var r := C.AfterSync(c, t2, t3, e.data); r.applying == c.applying && r.line == c.line
  {
  }

  lemma HeardNext(board: Isa.Board, f: Followed, l: Loop, a: Around)
    requires Coherent(f) && T.Follows(board, f) && !f.world.cpu.core.faulted && !f.world.contended
    requires Sane(l) && Tracks(l, f) && InOrder(l) && Heard(l, f) && |a.lines| == C.LEVELS
    ensures Heard(TakeTurn(board, l, a), FollowTick(board, f, InputOf(l, a)))
  {
    hide T.Follows, EventOf, Tick, H.CanHappen, TakeTurn, React, Waiting, FallsAt, InOrder, ChangeState, NextPeriod;
    hide WritesInT3, T.Entered, Left, BusMachine.Valid;
    var e := EventOf(f.world, a);
    if e.Some? {
      EventHappens(board, f, l, a);
    }
    EventAtStage(board, f, a);
    StateAtStage(board, f);
    AppliedNext(board, l, a);
    TurnIs(board, l, a);
    PendingTurn(board, f.world, InputOf(l, a));
    FirstEdgeOnlyAtRest(board, f);
    TracksNext(board, f, l, a);
    FollowOne(board, f, InputOf(l, a));
    var f1 := FollowTick(board, f, InputOf(l, a));
    if !f1.world.cpu.core.faulted {
      StateAtStage(board, f1);
    }
  }

  // The start: the world powered on, nothing requested, whether or not an interrupt has been raised.
  predicate Starts(l: Loop) {
    var s, c := l.handshake, l.handshake.controller;
    && Emulation.PoweredOn(l.world)
    && c.requested == c.acks == seq(C.LEVELS, _ => false) && c.current < C.LEVELS && !c.applying && !c.line
    && s == H.System(c, STOPPED, 2, s.interruptPending, l.world.interruptCycle, None, false)
    && l.acknowledged == [] && l.dispatched == []
  }

  lemma StartsInvariant(board: Isa.Board, l: Loop)
    requires Starts(l)
    ensures var m := Emulation.MachineOf(l.world);
            && BusMachine.Valid(m) && AtBoundary(m) && Sane(l) && T.StartsAtRest(board, l.world, m)
            && Invariant(board, m, l, Followers(board, l.world, m, []))
  {
    hide At, AtBoundary, H.OnItsWay, T.Entered, Driven, Decision;
    H.StartsIdle(l.handshake.controller, 2, l.handshake.interruptPending, l.world.interruptCycle);
    Emulation.PowerOnStarts(board, l.world);
    StartFollows(board, l.world, Emulation.MachineOf(l.world));
    assert l.acknowledged[..0] == [];
  }

  lemma {:induction false} InvariantAlways(board: Isa.Board, l: Loop, turns: seq<Around>)
    requires Sane(l) && Starts(l) && Undisturbed(board, l, turns)
    ensures var m := Emulation.MachineOf(l.world);
            && BusMachine.Valid(m) && AtBoundary(m) && T.StartsAtRest(board, l.world, m)
            && Invariant(board, m, TakeTurns(board, l, turns),
                         Followers(board, l.world, m, InputsOf(board, l, turns)))
    decreases |turns|
  {
    hide Starts, Invariant, TakeTurn, FollowTick, InputOf, AtBoundary, At, UndisturbedTurn;
    StartsInvariant(board, l);
    var m := Emulation.MachineOf(l.world);
    if turns != [] {
      var before, a := turns[..|turns| - 1], turns[|turns| - 1];
      InvariantAlways(board, l, before);
      InvariantNext(board, m, TakeTurns(board, l, before), Followers(board, l.world, m, InputsOf(board, l, before)), a);
      assert InputsOf(board, l, turns)[..|turns| - 1] == InputsOf(board, l, before);
    }
  }

  // From power on, in every timed run whose interrupts are those of the controller, and of other cards
  // that find nothing pending, as long as nothing disturbs the requests: the instructions are a run of
  // the instruction set in which the interrupts execute the restart of each dispatched level, once
  // each and in their order, but for one that is still to be acknowledged, whose interrupt waits at the
  // processor; and once a restart has been taken its request is cleared.
  lemma EachDispatchServed(board: Isa.Board, l: Loop, turns: seq<Around>)
    requires Sane(l) && Starts(l) && Undisturbed(board, l, turns)
    ensures var m, inputs := Emulation.MachineOf(l.world), InputsOf(board, l, turns);
            var r, f := TakeTurns(board, l, turns), Followers(board, l.world, m, inputs);
            var o := Runs.ObserveAll(board, Runs.Begin(m), f.steps);
            var c := r.handshake.controller;
            && r.world == TickAll(board, l.world, inputs)
            && Runs.IsRun(board, Abstract(m), o.done)
            && (forall k :: 0 <= k < |r.dispatched| ==> r.dispatched[k] < C.LEVELS)
            && (f.stage.Rest? && o.states == 0 ==>
                  Jammed(Jams(o.done)) + (if c.applying then [C.Injected(c.current)] else [])
                  == Restarts(r.dispatched))
            && (f.stage.Rest? && r.world.cpu.core.state.T3? && r.world.interruptCycle && !r.world.cpu.core.faulted ==>
                  H.NothingPending(c))
            && (f.stage.Rest? && o.states == 0 && c.applying ==> r.raised || r.world.cpu.interruptPending)
  {
    var m, inputs := Emulation.MachineOf(l.world), InputsOf(board, l, turns);
    hide TakeTurns, Undisturbed, InputsOf, Starts, At, AtBoundary, FollowAll, TickAll, Runs.ObserveAll, Runs.IsRun;
    hide H.OnItsWay, Jams, Jammed, Opcodes, Restarts, Levels, AdvanceAll, Runs.Last, Abstract, C.Injected;
    InvariantAlways(board, l, turns);
    TimedRuns(board, l.world, m, inputs);
    var r, f := TakeTurns(board, l, turns), Followers(board, l.world, m, inputs);
    Runs.EveryRunIsARun(board, m, f.steps);
    ServedThen(board, m, r, f);
  }

  lemma DispatchedRestarts(s: H.System, acknowledged: seq<Option<nat>>, dispatched: seq<nat>)
    requires H.OnItsWay(s) && Recorded(s, acknowledged, dispatched)
    ensures forall k :: 0 <= k < |dispatched| ==> dispatched[k] < C.LEVELS
    ensures s.controller.current < C.LEVELS
    ensures Restarts(dispatched)
            == Jammed(Opcodes(acknowledged))
               + (if s.controller.applying && !s.state.T1I? then [C.Injected(s.controller.current)] else [])
  {
    hide Jammed, Opcodes, Levels, C.Injected, H.OnlyIn, H.NothingIn, C.Bit;
    JammedLevels(acknowledged);
  }

  lemma ClearedAtRest(l: Loop, f: Followed)
    requires Sane(l) && Tracks(l, f) && H.OnItsWay(l.handshake) && f.stage.Rest?
    requires l.world.cpu.core.state.T3? && l.world.interruptCycle
    ensures H.NothingPending(l.handshake.controller)
  {
    hide H.OnlyIn, H.NothingIn, C.Bit, Decision;
  }

  lemma CoreAtRest(board: Isa.Board, f: Followed)
    requires Coherent(f) && T.Follows(board, f) && f.stage.Rest?
    ensures f.world.cpu.core == f.period.m.core && !Entering(f)
  {
    hide Decision, T.Entered, Driven, T.Answer;
  }

  lemma BoundaryIs(m: Machine)
    requires AtBoundary(m)
    ensures !m.core.state.T1I?
  {
  }

  lemma AllServed(l: Loop, f: Followed, o: Runs.Observer)
    requires Accounted(l, f, o) && o.states == 0 && !Entering(f)
    ensures Jams(o.done) == Opcodes(l.acknowledged)
  {
    hide Jams, Opcodes;
    assert l.acknowledged[..|l.acknowledged|] == l.acknowledged;
  }

  lemma ServedThen(board: Isa.Board, m: Machine, r: Loop, f: Followed)
    requires BusMachine.Valid(m) && AtBoundary(m) && Sane(r) && Coherent(f) && Invariant(board, m, r, f)
    ensures var o := Runs.ObserveAll(board, Runs.Begin(m), f.steps);
            var c := r.handshake.controller;
            && (forall k :: 0 <= k < |r.dispatched| ==> r.dispatched[k] < C.LEVELS)
            && (f.stage.Rest? && o.states == 0 ==>
                  Jammed(Jams(o.done)) + (if c.applying then [C.Injected(c.current)] else [])
                  == Restarts(r.dispatched))
            && (f.stage.Rest? && r.world.cpu.core.state.T3? && r.world.interruptCycle && !r.world.cpu.core.faulted ==>
                  H.NothingPending(c))
            && (f.stage.Rest? && o.states == 0 && c.applying ==> r.raised || r.world.cpu.interruptPending)
  {
    var o := Runs.ObserveAll(board, Runs.Begin(m), f.steps);
    hide T.Follows, Runs.ObserveAll, Jams, Jammed, Levels, C.Injected, AtBoundary, Restarts, Opcodes, H.OnItsWay;
    hide Recorded, H.NothingPending, Accounted, Entering, Coherent, Runs.IsRun, Runs.Last;
    DispatchedRestarts(r.handshake, r.acknowledged, r.dispatched);
    if f.stage.Rest? {
      CoreAtRest(board, f);
      if o.states == 0 {
        Runs.EveryRunIsARun(board, m, f.steps);
        BoundaryIs(o.machine);
        AllServed(r, f, o);
      }
      if r.world.cpu.core.state.T3? && r.world.interruptCycle {
        ClearedAtRest(r, f);
      }
    }
  }
}
