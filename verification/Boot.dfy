/** The start of the machine: the program runs from the masked ROM, opens the first page, and goes on in
    the RAM behind it. */
module Boot {
  import opened Bytes
  import opened Microcode
  import opened CpuCore
  import opened CpuTiming
  import opened Effects
  import opened T = Timed
  import opened Addressing
  import opened MemoryCards
  import opened Coherence
  import BusMachine
  import Emulation
  import InterruptedRuns
  import Isa
  import Runs

  // While the page is masked the assembly is the timed world with the masked board, and once it is open
  // the one with the open board.

  lemma {:induction false} MaskedPhase(masked: Isa.Board, open: Isa.Board, x: Assembly, inputs: seq<Input>)
    requires Sane(x) && Masks(TakeTurns(masked, open, x, inputs).card)
    ensures TakeTurns(masked, open, x, inputs).world == TickAll(masked, x.world, inputs) && Masks(x.card)
    decreases |inputs|
  {
    hide Tick, Opened, SignalOf, Received;
    if inputs != [] {
      var before := TakeTurns(masked, open, x, inputs[..|inputs| - 1]);
      OpenStays(before.card, SignalOf(before.world, inputs[|inputs| - 1]));
      MaskedPhase(masked, open, x, inputs[..|inputs| - 1]);
    }
  }

  lemma {:induction false} OpenPhase(masked: Isa.Board, open: Isa.Board, x: Assembly, inputs: seq<Input>)
    requires Sane(x) && !Masks(x.card)
    ensures TakeTurns(masked, open, x, inputs).world == TickAll(open, x.world, inputs)
    ensures !Masks(TakeTurns(masked, open, x, inputs).card)
    decreases |inputs|
  {
    hide Tick, Opened, SignalOf, Received;
    if inputs != [] {
      var before := TakeTurns(masked, open, x, inputs[..|inputs| - 1]);
      OpenStays(before.card, SignalOf(before.world, inputs[|inputs| - 1]));
      OpenPhase(masked, open, x, inputs[..|inputs| - 1]);
    }
  }

  // Between the two, as long as no card is read or written, it does not matter when the memory changes.

  predicate Idle(s: Option<Signal>) {
    s.None? || s.value.Phase2InT3? || (s.value.EndOfT3Prime? && !s.value.cc.PCW?)
  }

  lemma ClockIdle(w: World, memory: seq<Byte>, input: Input)
    requires T.Consistent(w) && |memory| == Isa.SPACE
    ensures TickClock(w.(memory := memory), input) == TickClock(w, input).(memory := memory)
  {
    hide SignalPhase1, SignalPhase2, CardOnPhase2;
    CardIdle(w, memory, input.jammed);
  }

  lemma CardIdle(w: World, memory: seq<Byte>, jammed: Option<Byte>)
    ensures CardOnPhase2(w.(memory := memory), jammed) == CardOnPhase2(w, jammed).(memory := memory)
  {
  }

  lemma ProcessorIdle(masked: Isa.Board, open: Isa.Board, w: World, memory: seq<Byte>)
    requires T.Consistent(w) && |memory| == Isa.SPACE
    requires w.cpu.queue != [] && w.cpu.queue[0].Change? ==>
               !w.cpu.core.state.T2? && !(w.cpu.core.state.T3? && w.control.PCW?)
    ensures TickProcessor(open, w.(memory := memory)) == TickProcessor(masked, w).(memory := memory)
  {
    hide CpuTiming.Step, PinsAfter, CycleControlOf, Data;
  }

  lemma IdleTurn(masked: Isa.Board, open: Isa.Board, w: World, memory: seq<Byte>, input: Input)
    requires T.Consistent(w) && |memory| == Isa.SPACE && masked.answer == open.answer && Idle(SignalOf(w, input))
    ensures SignalOf(w.(memory := memory), input) == SignalOf(w, input)
    ensures Tick(open, w.(memory := memory), input) == Tick(masked, w, input).(memory := memory)
  {
    hide TickClock, TickProcessor;
    var w1 := Raised(w, input);
    ClockIdle(w1, memory, input);
    if !w.cpu.core.faulted && !w.contended && Next(w1).OfProcessor? {
      ProcessorIdle(masked, open, w1, memory);
    }
  }

  predicate IdleAll(board: Isa.Board, w: World, inputs: seq<Input>)
    requires T.Consistent(w)
    decreases |inputs|
  {
    inputs == [] ||
    (&& IdleAll(board, w, inputs[..|inputs| - 1])
     && Idle(SignalOf(TickAll(board, w, inputs[..|inputs| - 1]), inputs[|inputs| - 1])))
  }

  lemma {:induction false} IdleTogether(masked: Isa.Board, open: Isa.Board, w: World, memory: seq<Byte>,
                                        inputs: seq<Input>)
    requires T.Consistent(w) && |memory| == Isa.SPACE && masked.answer == open.answer
    requires IdleAll(masked, w, inputs)
    ensures TickAll(open, w.(memory := memory), inputs) == TickAll(masked, w, inputs).(memory := memory)
    decreases |inputs|
  {
    hide Tick, SignalOf, Idle;
    if inputs != [] {
      var before, input := inputs[..|inputs| - 1], inputs[|inputs| - 1];
      IdleTogether(masked, open, w, memory, before);
      IdleTurn(masked, open, TickAll(masked, w, before), memory, input);
    }
  }

  // The turn that opens the page changes nothing but the memory that the card shows.
  lemma OpeningStep(masked: Isa.Board, open: Isa.Board, x: Assembly, input: Input)
    requires Sane(x) && Masks(x.card) && !Masks(TakeTurn(masked, open, x, input).card)
    ensures var r := TakeTurn(masked, open, x, input).world;
            r == Tick(masked, x.world, input).(memory := r.memory)
  {
    hide Tick, Opened, SignalOf, Received;
  }

  // Any memory can be put in a world at rest between two instructions.
  lemma RestRestarts(masked: Isa.Board, open: Isa.Board, f: Followed, memory: seq<Byte>)
    requires Coherent(f) && Follows(masked, f) && f.stage.Rest? && BusMachine.AtBoundary(f.period.m)
    requires |memory| == Isa.SPACE
    ensures var w := f.world.(memory := memory);
            var m := f.period.m.(memory := Emulation.MemoryOf(open, w));
            && StartsAtRest(open, w, m) && BusMachine.AtBoundary(m)
            && BusMachine.Abstract(m) == BusMachine.Abstract(f.period.m).(memory := m.memory)
  {
    hide Decision, Entered, Driven, T.Answer;
  }

  lemma {:induction false} TicksSplit(board: Isa.Board, w: World, first: seq<Input>, second: seq<Input>)
    requires T.Consistent(w)
    ensures TickAll(board, w, first + second) == TickAll(board, TickAll(board, w, first), second)
    decreases |second|
  {
    hide Tick;
    if second == [] {
      assert first + second == first;
    } else {
      assert (first + second)[..|first + second| - 1] == first + second[..|second| - 1];
      TicksSplit(board, w, first, second[..|second| - 1]);
    }
  }

  lemma {:induction false} TurnsSplit(masked: Isa.Board, open: Isa.Board, x: Assembly, first: seq<Input>,
                                      second: seq<Input>)
    requires Sane(x)
    ensures TakeTurns(masked, open, x, first + second)
            == TakeTurns(masked, open, TakeTurns(masked, open, x, first), second)
    decreases |second|
  {
    hide TakeTurn;
    if second == [] {
      assert first + second == first;
    } else {
      assert (first + second)[..|first + second| - 1] == first + second[..|second| - 1];
      TurnsSplit(masked, open, x, first, second[..|second| - 1]);
    }
  }

  // The last of these turns opens the page.
  predicate Opens(masked: Isa.Board, open: Isa.Board, x: Assembly, inputs: seq<Input>)
    requires Sane(x)
  {
    && inputs != []
    && Masks(TakeTurns(masked, open, x, inputs[..|inputs| - 1]).card)
    && !Masks(TakeTurns(masked, open, x, inputs).card)
  }

  // From the turn that opens the page until a card is read or written, the assembly is the world of the
  // masked board, with the memory that the card shows since.
  lemma OpenedWorld(masked: Isa.Board, open: Isa.Board, x: Assembly, opening: seq<Input>, idle: seq<Input>)
    requires Sane(x) && masked.answer == open.answer && Opens(masked, open, x, opening)
    requires IdleAll(masked, TickAll(masked, x.world, opening), idle)
    ensures var y := TakeTurns(masked, open, x, opening + idle);
            !Masks(y.card) && y.world == TickAll(masked, x.world, opening + idle).(memory := y.world.memory)
  {
    hide Tick, Opened, SignalOf, Received, TakeTurn, Masks, Idle;
    var n := |opening| - 1;
    MaskedPhase(masked, open, x, opening[..n]);
    OpeningStep(masked, open, TakeTurns(masked, open, x, opening[..n]), opening[n]);
    var y := TakeTurns(masked, open, x, opening);
    OpenPhase(masked, open, y, idle);
    IdleTogether(masked, open, TickAll(masked, x.world, opening), y.world.memory, idle);
    TurnsSplit(masked, open, x, opening, idle);
    TicksSplit(masked, x.world, opening, idle);
  }

  // From power on with a masked page: the instructions up to one that ends after the page has been
  // opened are a run of the instruction set on the memory that shows the ROM; there the memory changes
  // to the one that shows the RAM, and nothing else does; and the instructions that follow are a run on
  // that memory, in whose state the world is whenever it is at rest after one of them.
  lemma BootRuns(masked: Isa.Board, open: Isa.Board, x: Assembly, opening: seq<Input>, idle: seq<Input>,
                 after: seq<Input>)
    requires Sane(x) && Emulation.PoweredOn(x.world) && masked.answer == open.answer
    requires Opens(masked, open, x, opening) && IdleAll(masked, TickAll(masked, x.world, opening), idle)
    requires var f := Followers(masked, x.world, Emulation.MachineOf(x.world), opening + idle);
             f.stage.Rest? && BusMachine.AtBoundary(f.period.m)
    ensures var m1 := Emulation.MachineOf(x.world);
            var o1 := Runs.ObserveAll(masked, Runs.Begin(m1), Followers(masked, x.world, m1, opening + idle).steps);
            var y := TakeTurns(masked, open, x, opening + idle);
            var m2 := o1.machine.(memory := Emulation.MemoryOf(open, y.world));
            var f2 := Followers(open, y.world, m2, after);
            var o2 := Runs.ObserveAll(open, Runs.Begin(m2), f2.steps);
            && Runs.IsRun(masked, BusMachine.Abstract(m1), o1.done)
            && BusMachine.Abstract(m2)
               == Runs.Last(BusMachine.Abstract(m1), o1.done).(memory := Emulation.MemoryOf(open, y.world))
            && Runs.IsRun(open, BusMachine.Abstract(m2), o2.done)
            && (f2.stage.Rest? && o2.states == 0 ==>
                  Emulation.ArchOf(open, TakeTurns(masked, open, x, opening + idle + after).world)
                  == Runs.Last(BusMachine.Abstract(m2), o2.done))
  {
    var m1 := Emulation.MachineOf(x.world);
    var f := Followers(masked, x.world, m1, opening + idle);
    hide TickAll, TakeTurns, Opens, IdleAll, Masks, Runs.IsRun, Runs.ObserveAll, Runs.Last, At, FollowAll, AdvanceAll;
    hide Emulation.PoweredOn, Emulation.ArchOf, BusMachine.AtBoundary, BusMachine.Abstract, Emulation.MemoryOf;
    Emulation.PowerOnStarts(masked, x.world);
    TimedRuns(masked, x.world, m1, opening + idle);
    Runs.EveryRunIsARun(masked, m1, f.steps);
    Emulation.SameMachine(masked, m1, f.steps);
    OpenedWorld(masked, open, x, opening, idle);
    var y := TakeTurns(masked, open, x, opening + idle);
    RestRestarts(masked, open, f, y.world.memory);
    var m2 := f.period.m.(memory := Emulation.MemoryOf(open, y.world));
    Emulation.RestRunsAreRuns(open, y.world, m2, after);
    TurnsSplit(masked, open, x, opening + idle, after);
    OpenPhase(masked, open, y, after);
  }

  // A restart reads and writes nothing after its fetch.

  // The processor in T3 of the fetch of a restart.
  predicate Restarting(c: Core) {
    InCycle(c, 0) && Name(c) == RST && c.state.T3?
  }

  // Where a restart is: in T3 from the second rise of phase 2 on, before its T4, before its T5, or over.
  predicate InRestart(board: Isa.Board, f: Followed, k: nat)
    requires Coherent(f)
  {
    && T.Follows(board, f) && !f.world.contended
    && match k
       case 0 => f.stage in {Risen2Again, Quiet7, Fallen2Again} && Restarting(f.world.cpu.core)
       case 1 => Restarting(f.period.m.core)
       case 2 => f.period.m.core.state.T4? && !f.period.m.core.cycleEnded
       case _ => BusMachine.AtBoundary(f.period.m) && f.period.m.core.state.T5? && f.stage.Rest?
  }

  lemma AfterT4(c: Core)
    requires Restarting(c)
    ensures ExecuteT4(c.(state := T4)).state.T4? && !ExecuteT4(c.(state := T4)).cycleEnded
  {
  }

  // The decision after T3 and after T4.
  lemma DecisionsOn(g: Period)
    requires !g.m.core.faulted
    ensures Restarting(g.m.core) ==> Decision(g) == (g.m.core, Some(T4))
    ensures g.m.core.state.T4? && !g.m.core.cycleEnded ==> Decision(g) == (g.m.core, Some(T5))
  {
  }

  lemma StateOfRestart(board: Isa.Board, f: Followed, k: nat)
    requires Coherent(f) && InRestart(board, f, k) && k <= 3 && !f.world.cpu.core.faulted
    ensures !f.world.cpu.core.state.T2? && !(f.world.cpu.core.state.T3? && f.world.control.PCW?)
  {
    hide T.Follows, Decision;
    InterruptedRuns.StateAtStage(board, f);
    DecisionsOn(f.period);
    if f.world.cpu.core.state.T3? {
      ControlOfRestart(board, f, k);
    }
  }

  lemma ControlOfRestart(board: Isa.Board, f: Followed, k: nat)
    requires Coherent(f) && InRestart(board, f, k) && k <= 3 && !f.world.cpu.core.faulted
    requires f.world.cpu.core.state.T3?
    ensures !f.world.control.PCW?
  {
    hide Decision, T.Entered, PinsHold, InterruptsHold, QueueAt, WakeAt, OwnsAt, LatchAfter, MemoryAfter, IoAfter;
    hide IoBefore, AddressAfter, InterruptCycleAfter, Settled, WritesInT3, DrivesLate, ReadsInT3, Left, Driven;
    hide T.Answer;
    hide ControlAfter, Linked;
    InterruptedRuns.StateAtStage(board, f);
    DecisionsOn(f.period);
    if k == 0 {
      SettledControl(board, f.period);
    } else if k == 1 {
      LinkedControl(board, f.period);
    }
  }

  lemma SettledControl(board: Isa.Board, g: Period)
    requires Sound(g) && Linked(board, g) && Settled(board, g).state.T3? && !Settled(board, g).faulted
    ensures ControlAfter(g) == Settled(board, g).cycleControl
  {
    hide Decision, T.Entered, Linked, ControlAfter;
    T3Control(board, g);
  }

  lemma LinkedControl(board: Isa.Board, g: Period)
    requires Linked(board, g) && g.m.core.state.T3?
    ensures g.m.control == g.m.core.cycleControl
  {
    hide Driven, T.Answer;
  }

  lemma IdleState(w: World, input: Input)
    requires T.Consistent(w) && !w.cpu.core.state.T2? && !(w.cpu.core.state.T3? && w.control.PCW?)
    ensures Idle(SignalOf(w, input))
  {
  }

  lemma PeriodOfRestart(board: Isa.Board, f: Followed, k: nat)
    requires Coherent(f) && InRestart(board, f, k) && k < 3 && !f.world.cpu.core.faulted && f.stage.Fallen2Again?
    ensures var c := Stepped(board, f.period).core;
            && c == Settled(board, f.period) == f.world.cpu.core
            && (k == 1 ==> c.state.T4? && !c.cycleEnded) && (k == 2 ==> c.state.T5? && c.cycleEnded)
            && !c.faulted
  {
    hide T.Follows, Decision, Stepped, Settled, T.Entered, Linked, AddressAfter, ControlAfter, MemoryStored, IoDone;
    InterruptedRuns.StateAtStage(board, f);
    InterruptedRuns.EndFacts(board, f);
    SteppedIs(board, f.period);
    DecisionsOn(f.period);
    SettledWorld(board, f);
    if k == 1 {
      EnteredT4(board, f.period);
    } else if k == 2 {
      EnteredT5(board, f.period);
    }
  }

  lemma SettledWorld(board: Isa.Board, f: Followed)
    requires Coherent(f) && T.Follows(board, f) && f.stage in {Risen2Again, Quiet7, Fallen2Again}
    ensures f.world.cpu.core == Settled(board, f.period)
  {
    hide Decision, T.Entered, Settled, Linked, PinsHold, QueueAt, WakeAt, OwnsAt, Driven, T.Answer;
  }

  lemma EnteredT4(board: Isa.Board, g: Period)
    requires Sound(g) && Restarting(g.m.core)
    ensures Settled(board, g).state.T4? && !Settled(board, g).cycleEnded
  {
    hide ChangeState, ExecuteT1, ExecuteT1I, ExecuteT2, ExecuteT3, ExecuteT4, ExecuteT5;
    DecisionsOn(g);
    AfterT4(g.m.core);
  }

  lemma EnteredT5(board: Isa.Board, g: Period)
    requires Sound(g) && !g.m.core.faulted && g.m.core.state.T4? && !g.m.core.cycleEnded
    ensures Settled(board, g).state.T5? && (Settled(board, g).faulted || Settled(board, g).cycleEnded)
  {
    hide ChangeState, ExecuteT1, ExecuteT1I, ExecuteT2, ExecuteT3, ExecuteT4, T5Effect, Row, Microcode.Masked;
    DecisionsOn(g);
  }

  // What a turn of the followed run counts.
  lemma Counts(board: Isa.Board, f: Followed, input: Input)
    requires Coherent(f)
    ensures var r, stuck := FollowTick(board, f, input), f.world.cpu.core.faulted || f.world.contended;
            && (stuck ==> r == f)
            && (!stuck ==> |r.steps| == |f.steps| + (if f.stage.Fallen2Again? then 1 else 0))
            && (!stuck ==> (r.stage.Rest? <==> f.stage.Fallen2Again?))
            && (!stuck && !f.stage.Fallen2Again? ==> r.period.m == f.period.m)
            && (!stuck && f.stage.Fallen2Again? ==> r.period.m == Stepped(board, f.period))
            && (!stuck && f.stage in {Risen2Again, Quiet7} ==>
                  r.stage in {Quiet7, Fallen2Again} && r.period == f.period)
  {
    hide Tick, Stepped, MemoryAfter, LatchAfter, Decision, WritesInT3, T.Entered, Left;
  }

  lemma RestartTurn(board: Isa.Board, f: Followed, k: nat, input: Input)
    requires Coherent(f) && InRestart(board, f, k) && k < 3 && !f.world.cpu.core.faulted
    ensures InRestart(board, FollowTick(board, f, input), if f.stage.Fallen2Again? then k + 1 else k)
  {
    hide T.Follows, FollowTick, Stepped, Settled, Restarting, Coherent;
    Counts(board, f, input);
    FollowOne(board, f, input);
    InterruptedRuns.NextUncontended(board, f, input);
    if f.stage.Fallen2Again? {
      PeriodOfRestart(board, f, k);
    } else if k == 0 {
      SettledWorld(board, f);
      SettledWorld(board, FollowTick(board, f, input));
    }
  }

  // At most three T-states on.
  predicate Within(f: Followed, r: Followed) {
    |r.steps| < |f.steps| + 3 || (|r.steps| == |f.steps| + 3 && r.stage.Rest?)
  }

  lemma WithinBefore(board: Isa.Board, f: Followed, before: Followed, input: Input)
    requires Coherent(before) && Within(f, FollowTick(board, before, input))
    ensures Within(f, before)
    ensures before.world.cpu.core.faulted || before.world.contended || |before.steps| < |f.steps| + 3
  {
    hide FollowTick, Coherent;
    Counts(board, before, input);
  }

  lemma RestartOne(board: Isa.Board, f: Followed, k: nat, input: Input)
    requires Coherent(f) && InRestart(board, f, k) && k < 3 && !f.world.cpu.core.faulted
    ensures var r := FollowTick(board, f, input);
            && r.world == Tick(board, f.world, input) && Idle(SignalOf(f.world, input)) && |r.steps| >= |f.steps|
            && InRestart(board, r, k + |r.steps| - |f.steps|)
  {
    hide InRestart, FollowTick, Tick, SignalOf, Idle, Coherent, T.Follows;
    Counts(board, f, input);
    RestartFollows(board, f, k);
    StateOfRestart(board, f, k);
    IdleState(f.world, input);
    FollowOne(board, f, input);
    RestartTurn(board, f, k, input);
  }

  // Until it is over a restart sends no card a signal to read or to write.
  lemma {:induction false} RestartIdle(board: Isa.Board, f: Followed, inputs: seq<Input>)
    requires Coherent(f) && InRestart(board, f, 0) && Within(f, FollowAll(board, f, inputs))
    ensures var r := FollowAll(board, f, inputs);
            && r.world == TickAll(board, f.world, inputs) && IdleAll(board, f.world, inputs)
            && |f.steps| <= |r.steps|
            && (r.world.cpu.core.faulted || InRestart(board, r, |r.steps| - |f.steps|))
    decreases |inputs|
  {
    hide InRestart, FollowTick, Tick, SignalOf, Idle, Coherent, Within;
    if inputs != [] {
      var before, input := FollowAll(board, f, inputs[..|inputs| - 1]), inputs[|inputs| - 1];
      WithinBefore(board, f, before, input);
      RestartIdle(board, f, inputs[..|inputs| - 1]);
      if before.world.cpu.core.faulted {
        FaultedIdle(board, before, input);
      } else {
        RestartFollows(board, before, |before.steps| - |f.steps|);
        RestartOne(board, before, |before.steps| - |f.steps|, input);
      }
    }
  }

  lemma RestartFollows(board: Isa.Board, f: Followed, k: nat)
    requires Coherent(f) && InRestart(board, f, k)
    ensures T.Follows(board, f) && !f.world.contended && (k >= 3 ==> f.stage.Rest?) && T.Consistent(f.world)
  {
    hide T.Follows;
  }

  lemma FaultedIdle(board: Isa.Board, f: Followed, input: Input)
    requires Coherent(f) && f.world.cpu.core.faulted
    ensures FollowTick(board, f, input) == f && Tick(board, f.world, input) == f.world
    ensures Idle(SignalOf(f.world, input))
  {
  }

  // What the cards are sent in a T-state: the end of T2 and of T'3 when the state changes, and the second
  // rise of phase 2 in T3.
  function SignalAt(f: Followed): Option<Signal>
    requires Coherent(f)
  {
    var w, g := f.world, f.period;
    match f.stage
    case Synchronised =>
      if g.m.core.state.T2? then Some(EndOfT2(g.m.address, g.m.control))
      else if g.m.core.state.T3? then Some(EndOfT3Prime(g.m.address, g.m.control, w.pins.value))
      else None
    case Quiet6 => if w.cpu.core.state.T3? then Some(Phase2InT3(w.control, w.latch)) else None
    case _ => None
  }

  lemma SignalsAtStage(board: Isa.Board, f: Followed, input: Input)
    requires Coherent(f) && T.Follows(board, f) && !f.world.cpu.core.faulted
    ensures SignalOf(f.world, input) == SignalAt(f)
  {
    hide Decision, T.Entered, Linked, PinsHold, InterruptsHold, OwnsAt, LatchAfter, MemoryAfter, IoAfter;
    hide IoBefore, AddressAfter, ControlAfter, InterruptCycleAfter, Settled, WritesInT3, DrivesLate, ReadsInT3;
    hide BusMachine.Valid, Left;
    if f.stage.Synchronised? {
      InterruptedRuns.StateAtStage(board, f);
    }
  }

  // A fetch that finds the opcode 5 on the bus opens the page, at the second rise of phase 2 in its T3.
  lemma FetchOpens(masked: Isa.Board, open: Isa.Board, x: Assembly, f: Followed, input: Input)
    requires Sane(x) && Coherent(f) && T.Follows(BoardOf(masked, open, x.card), f) && f.world == x.world
    requires f.stage.Quiet6? && !x.world.cpu.core.faulted && x.world.cpu.core.state.T3?
    requires x.world.control.PCI? && x.world.latch == 5
    ensures !Masks(TakeTurn(masked, open, x, input).card)
  {
    hide T.Follows, Tick, SignalOf, Opened, MemoryAddressed;
    SignalsAtStage(BoardOf(masked, open, x.card), f, input);
  }
}
