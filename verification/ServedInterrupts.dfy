/** The interrupt controller with the processor in time: each level that is dispatched is acknowledged
    once, and executed once, as its restart. */
module ServedInterrupts {
  import opened Bytes
  import opened Microcode
  import opened CpuCore
  import opened CpuTiming
  import opened BusMachine
  import opened Cycles
  import opened Instructions
  import opened Runs
  import H = Handshake
  import C = InterruptControl
  import Interrupts
  import Isa

  // The opcodes jammed for the interrupts of a run.

  function Jams(done: seq<Executed>): seq<Option<Byte>>
    decreases |done|
  {
    if done == [] then []
    else
      var last := done[|done| - 1];
      Jams(done[..|done| - 1]) + if last.start.Interrupt? then [last.start.jammed] else []
  }

  predicate Serving(o: Observer) { o.states > 0 && o.start.Interrupt? }

  // An interrupt has been acknowledged, and its opcode is not known yet.
  predicate Awaiting(o: Observer) { Serving(o) && o.states < 3 }

  function Served(o: Observer): seq<Option<Byte>> {
    Jams(o.done) + if Serving(o) && o.states >= 3 then [o.start.jammed] else []
  }

  // A state acknowledges an interrupt; a state takes the opcode that is jammed.

  predicate Acknowledges(o: Observer, m: Machine) {
    !o.machine.core.faulted && m.core.state.T1I?
  }

  predicate Takes(o: Observer, m: Machine) {
    !o.machine.core.faulted && o.machine.core.state in {T2, WAIT} && m.core.state.T3? && m.interruptCycle
  }

  predicate ServedNext(o: Observer, r: Observer, jammed: Option<Byte>) {
    if Acknowledges(o, r.machine) then !Awaiting(o) && Awaiting(r) && Served(r) == Served(o)
    else if Takes(o, r.machine) then Awaiting(o) && !Awaiting(r) && Served(r) == Served(o) + [jammed]
    else Awaiting(r) == Awaiting(o) && Served(r) == Served(o)
  }

  lemma JamsOneMore(done: seq<Executed>, e: Executed)
    ensures Jams(done + [e]) == Jams(done) + if e.start.Interrupt? then [e.start.jammed] else []
  {
    assert (done + [e])[..|done|] == done;
  }

  lemma ServedResting(board: Isa.Board, s: Isa.Arch, o: Observer, e: Env)
    requires Runs.Consistent(o) && Invariant(board, s, o) && o.states == 0
    ensures ServedNext(o, Observe(board, o, e), e.jammed)
  {
    RestingStep(o);
    hide IsRun, Last, Run, Isa.Meaning, Code, Advance, Begins, Abstract, Jams;
    Leaving(board, o.boundary, o.machine.interruptPending, e);
  }

  lemma ServedWaiting(board: Isa.Board, o: Observer, e: Env)
    requires Runs.Consistent(o) && !o.machine.core.faulted && o.machine.core.state in {T2, WAIT} && !e.ready
    ensures ServedNext(o, Observe(board, o, e), e.jammed)
  {
    Waits(board, o.machine, e);
    hide Advance, Jams, Abstract, AtBoundary;
  }

  // When the opcode is taken: in the third state, if the instruction began with an acknowledge.
  lemma WorkingFacts(board: Isa.Board, s: Isa.Arch, o: Observer, e: Env)
    requires Runs.Consistent(o) && Invariant(board, s, o) && o.states > 0 && !o.machine.core.faulted
    requires o.machine.core.state in {T2, WAIT} ==> e.ready
    ensures var m := Advance(board, o.machine, e);
            && InProgress(o.machine) && !m.core.state.WAIT? && !Acknowledges(o, m)
            && (Takes(o, m) <==> o.states == 2 && o.start.Interrupt?)
            && (o.states == 2 ==> m.interruptCycle == o.start.Interrupt?)
            && (AtBoundary(m) ==> o.states >= 2)
  {
    var m := Advance(board, o.machine, e);
    hide Run, Advance, Begins, Abstract, Isa.WellFormed, IsRun, Last, Unfinished, AtBoundary, InProgress;
    hide Isa.Meaning, Isa.StateCount, Isa.Step, Isa.Opcode, BusMachine.Valid;
    WorkingStep(board, o, e);
    StepFrame(board, o.machine, e);
    if o.states == 2 {
      FollowsTwo(board, o.boundary, o.start, o.machine);
    }
    if AtBoundary(m) {
      var start := Known(o.start, o.states, m, e.jammed);
      StateCountBounds(Isa.Meaning(Isa.Opcode(Abstract(o.boundary), start)), Abstract(o.boundary).flags);
    }
  }

  lemma ServedWorking(board: Isa.Board, s: Isa.Arch, o: Observer, e: Env)
    requires Runs.Consistent(o) && Invariant(board, s, o) && o.states > 0 && !o.machine.core.faulted
    requires o.machine.core.state in {T2, WAIT} ==> e.ready
    ensures ServedNext(o, Observe(board, o, e), e.jammed)
  {
    hide Advance, Abstract, AtBoundary, Observe, InProgress, Jams, Invariant, Acknowledges, Takes, BusMachine.Valid;
    var m := Advance(board, o.machine, e);
    WorkingFacts(board, s, o, e);
    Observed(board, o, e);
    JamsOneMore(o.done, Executed(Known(o.start, o.states, m, e.jammed), o.states + 1, Abstract(m)));
    SameTaken(o, m, Observe(board, o, e));
  }

  lemma SameTaken(o: Observer, m: Machine, r: Observer)
    requires r.machine == m
    ensures Acknowledges(o, r.machine) == Acknowledges(o, m) && Takes(o, r.machine) == Takes(o, m)
  {
  }

  lemma ServedOne(board: Isa.Board, s: Isa.Arch, o: Observer, e: Env)
    requires Runs.Consistent(o) && Invariant(board, s, o)
    ensures ServedNext(o, Observe(board, o, e), e.jammed)
  {
    hide Invariant, Observe, Served, Awaiting;
    if o.machine.core.faulted {
      ObserveFaulted(board, o, e);
    } else if o.states == 0 {
      ServedResting(board, s, o, e);
    } else if o.machine.core.state in {T2, WAIT} && !e.ready {
      ServedWaiting(board, o, e);
    } else {
      ServedWorking(board, s, o, e);
    }
  }

  // The levels in the handshake: dispatched, acknowledged, taken.

  // The opcode of a level, or that nothing is jammed for an interrupt that has none.
  function Opcode(level: Option<nat>): Option<Byte> {
    if level.Some? && level.value < C.LEVELS then Some(C.Injected(level.value)) else None
  }

  function Opcodes(levels: seq<Option<nat>>): (opcodes: seq<Option<Byte>>)
    ensures |opcodes| == |levels|
  {
    seq(|levels|, k requires 0 <= k < |levels| => Opcode(levels[k]))
  }

  // The levels among the acknowledged interrupts.
  function Levels(acknowledged: seq<Option<nat>>): seq<nat>
    decreases |acknowledged|
  {
    if acknowledged == [] then []
    else
      var last := acknowledged[|acknowledged| - 1];
      Levels(acknowledged[..|acknowledged| - 1]) + if last.Some? then [last.value] else []
  }

  lemma LevelsOneMore(acknowledged: seq<Option<nat>>, level: Option<nat>)
    ensures Levels(acknowledged + [level]) == Levels(acknowledged) + if level.Some? then [level.value] else []
  {
    assert (acknowledged + [level])[..|acknowledged|] == acknowledged;
  }

  // From the acknowledge to the fall of phase 2 at which the opcode is taken.
  predicate Jamming(s: H.System) {
    s.state.T1I? || (s.interruptCycle && (s.state in {T2, WAIT} || (s.state.T3? && s.falls == 0)))
  }

  // What has been dispatched is what has been acknowledged, and the level that is still applied; the
  // level that is owed is the last one acknowledged.
  predicate Recorded(s: H.System, acknowledged: seq<Option<nat>>, dispatched: seq<nat>) {
    && dispatched == Levels(acknowledged)
                     + (if s.controller.applying && !s.state.T1I? then [s.controller.current] else [])
    && (Jamming(s) ==> acknowledged != [] && acknowledged[|acknowledged| - 1] == s.owed)
    && (s.owed.Some? ==> s.owed.value < C.LEVELS)
    && AreLevels(acknowledged)
  }

  predicate AreLevels(levels: seq<Option<nat>>) {
    forall k :: 0 <= k < |levels| && levels[k].Some? ==> levels[k].value < C.LEVELS
  }

  function AcknowledgedAfter(s: H.System, e: H.Event, acknowledged: seq<Option<nat>>): seq<Option<nat>> {
    if e.ChangesState? && e.next.T1I? then
      acknowledged + [if s.controller.applying then Some(s.controller.current) else None]
    else acknowledged
  }

  function DispatchedAfter(s: H.System, r: H.System, dispatched: seq<nat>): seq<nat> {
    if !s.controller.applying && r.controller.applying then dispatched + [r.controller.current] else dispatched
  }

  lemma RecordsStay(s: H.System, e: H.Event, acknowledged: seq<Option<nat>>, dispatched: seq<nat>)
    requires H.OnItsWay(s) && H.CanHappen(s, e) && Recorded(s, acknowledged, dispatched)
    ensures var r := H.Happen(s, e);
            Recorded(r, AcknowledgedAfter(s, e, acknowledged), DispatchedAfter(s, r, dispatched))
  {
    hide C.Lowest, C.Injected, H.OnlyIn, H.NothingIn, C.Bit, Levels;
    if e.ChangesState? && e.next.T1I? {
      LevelsOneMore(acknowledged, if s.controller.applying then Some(s.controller.current) else None);
    }
  }

  // The opcode that is offered when it is taken is that of the level that is owed.
  lemma OfferedIs(s: H.System)
    requires H.OnItsWay(s) && s.state.T3? && s.interruptCycle && s.falls == 0
    requires s.owed.Some? ==> s.owed.value < C.LEVELS
    ensures C.Offer(s.controller).0 == Opcode(s.owed)
  {
    hide C.Injected, C.Bit, C.Lowest, H.OnlyIn, H.NothingIn, C.Reset;
    if s.owed.Some? {
      H.LowestOnly(s.controller, s.owed.value);
    } else {
      H.LowestNothing(s.controller);
    }
  }

  // The opcodes that have been jammed, without the interrupts of other cards.
  function Jammed(jams: seq<Option<Byte>>): seq<Byte>
    decreases |jams|
  {
    if jams == [] then []
    else
      var last := jams[|jams| - 1];
      Jammed(jams[..|jams| - 1]) + if last.Some? then [last.value] else []
  }

  // The restarts of the levels.
  function Restarts(levels: seq<nat>): (opcodes: seq<Byte>)
    requires forall k :: 0 <= k < |levels| ==> levels[k] < C.LEVELS
    ensures |opcodes| == |levels|
  {
    seq(|levels|, k requires 0 <= k < |levels| => C.Injected(levels[k]))
  }

  lemma {:induction false} JammedLevels(acknowledged: seq<Option<nat>>)
    requires AreLevels(acknowledged)
    ensures forall k :: 0 <= k < |Levels(acknowledged)| ==> Levels(acknowledged)[k] < C.LEVELS
    ensures Jammed(Opcodes(acknowledged)) == Restarts(Levels(acknowledged))
    decreases |acknowledged|
  {
    hide C.Injected;
    if acknowledged != [] {
      var before := acknowledged[..|acknowledged| - 1];
      JammedLevels(before);
      assert Opcodes(acknowledged)[..|acknowledged| - 1] == Opcodes(before);
    }
  }

  // The restart of a level is the instruction RST of that level.
  lemma RestartOpcode(level: nat)
    requires level < C.LEVELS
    ensures Isa.Meaning(C.Injected(level)) == Isa.Restart(level)
  {
  }

  // The instruction that an acknowledged level executes: it enters at eight times the level, from the
  // interrupted program counter, and changes nothing else.
  lemma ServedEnters(board: Isa.Board, before: Isa.Arch, e: Executed, level: nat)
    requires Isa.WellFormed(before) && IsStep(board, before, e) && level < C.LEVELS
    requires e.start == Isa.Interrupt(Opcode(Some(level)))
    ensures e.after == before.(pcs := [level * 8] + before.pcs[..Isa.LEVELS - 1], halted := false)
  {
    hide IsStep, Isa.Meaning, C.Injected;
    RestartOpcode(level);
    Interrupts.RestartStep(board, before, e, level);
  }
}
