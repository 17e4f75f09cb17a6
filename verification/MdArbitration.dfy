/** No two ever fight for the data bus: any number of holders and the console, in every run. */
module MdArbitration {
  import opened Bytes
  import opened Wires
  import opened MdBus
  import opened Addressing
  import opened Microcode

  const SUBSTITUTION_DELAY: nat := 20

  // In each T-state of 4000 ns the state changes 25 ns, and SYNC falls 2020 ns after the first edge of
  // the clock; phase 2 falls after 1450 and after 3450 ns.
  const STATE_AT: nat := 25
  const SYNC_FALL_AT: nat := 2020
  const FALLS_AT: seq<nat> := [1450, 3450]
  const T_STATE: nat := 4000

  // A card that takes the bus has its byte there when phase 2 falls next.
  const DELAY_LIMIT: nat := 1425

  // due is the activation time of the action that puts the switches on the bus.
  datatype Console = Console(substitution: bool, releaseDataBus: bool, switchData: Byte, due: Option<nat>)

  // The processor changes its state at stateEdge at the earliest, and SYNC falls at syncEdge.
  datatype System = System(
    slots: seq<Slot>,        // what selects each card
    holders: seq<Holder>,
    console: Console,
    lines: Lines,
    stateEdge: nat,
    syncEdge: nat,
    t3Expected: bool,        // T2 has fallen, and T3 not yet
    thrown: bool)

  // What the cards find on the bus at the end of T2, and the data each has for it.
  datatype Cycle = Cycle(a: Address, cc: CycleControl, data: seq<Byte>)

  datatype Event =
    | StateChange(t2Falls: bool, t3Falls: bool, cycle: Cycle)
    | SyncFalls
    | PressSubstitution
    | SetSwitches(data: Byte)
    | HolderDue(k: nat)
    | ConsoleDue

  predicate NothingDueBy(s: System, time: int) {
    && (s.console.due.Some? ==> time < s.console.due.value)
    && forall k :: 0 <= k < |s.holders| && s.holders[k].due.Some? ==> time < s.holders[k].due.value
  }

  // What the processor, its clock and the scheduler can do. A T3 follows each T2.
  predicate CanHappen(s: System, e: Event) {
    match e
    case StateChange(t2Falls, t3Falls, cycle) =>
      && s.stateEdge < s.syncEdge && NothingDueBy(s, s.stateEdge)
      && (t2Falls ==> !t3Falls && !s.t3Expected)
      && (t3Falls ==> s.t3Expected)
      && |s.slots| == |cycle.data| == |s.holders|
    case SyncFalls => s.syncEdge < s.stateEdge && NothingDueBy(s, s.syncEdge)
    case PressSubstitution => true
    case SetSwitches(_) => true
    case HolderDue(k) => k < |s.holders| && s.holders[k].due.Some?
    case ConsoleDue => s.console.due.Some?
  }

  datatype All = All(holders: seq<Holder>, lines: Lines)

  // The subscribers of T2, of T3 and of SUB, in their order.

  function AllAfterT2(holders: seq<Holder>, l: Lines, slots: seq<Slot>, cycle: Cycle, k: nat, time: nat)
      : (r: Option<All>)
    requires k <= |holders| == |slots| == |cycle.data|
    ensures r.Some? ==> |r.value.holders| == |holders|
    decreases |holders| - k
  {
    if k == |holders| then Some(All(holders, l))
    else if !Answers(slots[k], cycle.a, cycle.cc) then AllAfterT2(holders, l, slots, cycle, k + 1, time)
    else
      var r := DataHeld(holders[k], l, OfHolder(k), time, cycle.data[k]);
      if r.None? then None
      else AllAfterT2(holders[k := r.value.holder], r.value.lines, slots, cycle, k + 1, time)
  }

  function AllAfterT3(holders: seq<Holder>, l: Lines, k: nat): (r: Option<All>)
    requires k <= |holders|
    ensures r.Some? ==> |r.value.holders| == |holders|
    decreases |holders| - k
  {
    if k == |holders| then Some(All(holders, l))
    else
      var r := AfterT3(holders[k], l, OfHolder(k));
      if r.None? then None else AllAfterT3(holders[k := r.value.holder], r.value.lines, k + 1)
  }

  function AllAfterSub(holders: seq<Holder>, l: Lines, k: nat, rising: bool, time: nat): (r: Option<All>)
    requires k <= |holders|
    ensures r.Some? ==> |r.value.holders| == |holders|
    decreases |holders| - k
  {
    if k == |holders| then Some(All(holders, l))
    else
      var r := AfterSub(holders[k], l, OfHolder(k), rising, time);
      if r.None? then None else AllAfterSub(holders[k := r.value.holder], r.value.lines, k + 1, rising, time)
  }

  function Throws(s: System): System { s.(thrown := true) }

  function ChangeState(s: System, t2Falls: bool, t3Falls: bool, cycle: Cycle): System
    requires |s.slots| == |cycle.data| == |s.holders|
  {
    var s1 := s.(stateEdge := s.stateEdge + T_STATE, t3Expected := (s.t3Expected || t2Falls) && !t3Falls);
    if t3Falls then
      var r := AllAfterT3(s.holders, s.lines, 0);
      if r.None? then Throws(s1) else s1.(holders := r.value.holders, lines := r.value.lines)
    else if t2Falls then
      var r := AllAfterT2(s.holders, s.lines, s.slots, cycle, 0, s.stateEdge);
      if r.None? then Throws(s1) else s1.(holders := r.value.holders, lines := r.value.lines)
    else s1
  }

  // What the console does on the data bus before it changes SUB.
  function ConsoleOnSync(c: Console, l: Lines): Option<Lines> {
    if c.releaseDataBus then
      var md := Set(l.md, 0, OfConsole);
      if md.None? then None
      else
        var free := Released(md.value, OfConsole);
        if free.None? then None else Some(l.(md := free.value))
    else if l.sub then
      var md := Set(l.md, c.switchData, OfConsole);
      if md.None? then None else Some(l.(md := md.value))
    else Some(l)
  }

  // The switches, put on the bus by the scheduled action.
  function ConsoleDriven(c: Console, l: Lines): Option<(Console, Lines)> {
    var md := Requested(l.md, OfConsole);
    if md.None? then None else Some((c.(due := None), l.(md := md.value.(value := c.switchData))))
  }

  function Pressed(c: Console, l: Lines): Console {
    c.(substitution := !c.substitution, releaseDataBus := if l.sub then c.substitution else c.releaseDataBus)
  }

  function FallOfSync(s: System): System {
    var s1 := s.(syncEdge := s.syncEdge + T_STATE);
    var l := ConsoleOnSync(s.console, s.lines);
    if l.None? then Throws(s1)
    else
      var c := s.console.(releaseDataBus := false);
      var rising := c.substitution;
      if rising == l.value.sub then s1.(console := c, lines := l.value)
      else if rising && c.due.Some? then Throws(s1)
      else
        var r := AllAfterSub(s.holders, l.value.(sub := rising), 0, rising, s.syncEdge);
        if r.None? then Throws(s1)
        else
          s1.(console := if rising then c.(due := Some(s.syncEdge + SUBSTITUTION_DELAY)) else c,
              holders := r.value.holders, lines := r.value.lines)
  }

  function Happen(s: System, e: Event): System
    requires CanHappen(s, e)
  {
    match e
    case StateChange(t2Falls, t3Falls, cycle) => ChangeState(s, t2Falls, t3Falls, cycle)
    case SyncFalls => FallOfSync(s)
    case PressSubstitution => s.(console := Pressed(s.console, s.lines))
    case SetSwitches(data) => s.(console := s.console.(switchData := data))
    case HolderDue(k) =>
      var r := DataDriven(s.holders[k], s.lines, OfHolder(k));
      if r.None? then Throws(s) else s.(holders := s.holders[k := r.value.holder], lines := r.value.lines)
    case ConsoleDue =>
      var r := ConsoleDriven(s.console, s.lines);
      if r.None? then Throws(s) else s.(console := r.value.0, lines := r.value.1)
  }

  // A holder owns the bus exactly when it has data to send and the console does not ask for it.
  predicate HolderOk(h: Holder, l: Lines, who: Who) {
    && h.delay < DELAY_LIMIT
    && (h.ownsBus <==> h.hasData && !l.sub)
    && (h.ownsBus <==> l.md.owner == Some(who))
    && (l.ready.owner == Some(who) ==> h.ownsBus)
    && (h.ownsBus && h.due.None? ==> l.md.value == h.latched && l.ready.owner == Some(who) && l.ready.value)
  }

  predicate ConsoleOk(c: Console, l: Lines) {
    && (c.releaseDataBus <==> l.sub && !c.substitution)
    && (l.md.owner == Some(OfConsole) ==> l.sub)
    && (l.sub ==> (c.due.Some? <==> l.md.owner != Some(OfConsole)))
    && (c.due.Some? ==> l.sub)
    && l.ready.owner != Some(OfConsole)
  }

  predicate KnownOwners(l: Lines, n: nat) {
    && (l.md.owner.Some? && l.md.owner.value.OfHolder? ==> l.md.owner.value.k < n)
    && (l.ready.owner.Some? && l.ready.owner.value.OfHolder? ==> l.ready.owner.value.k < n)
  }

  // The edges alternate, and what is scheduled is due before the fall of phase 2 between them.
  predicate EdgesOk(s: System) {
    && s.stateEdge % T_STATE == STATE_AT
    && if s.stateEdge < s.syncEdge then s.syncEdge == s.stateEdge - STATE_AT + SYNC_FALL_AT
       else s.stateEdge == s.syncEdge - SYNC_FALL_AT + T_STATE + STATE_AT
  }

  function FallTime(s: System): int {
    if s.stateEdge < s.syncEdge then s.stateEdge - STATE_AT - T_STATE + FALLS_AT[1]
    else s.syncEdge - SYNC_FALL_AT + FALLS_AT[0]
  }

  predicate DueBefore(s: System, time: int) {
    && (s.console.due.Some? ==> s.console.due.value < time)
    && forall k :: 0 <= k < |s.holders| && s.holders[k].due.Some? ==> s.holders[k].due.value < time
  }

  predicate OneHasData(holders: seq<Holder>) {
    forall j, k :: 0 <= j < |holders| && 0 <= k < |holders| && holders[j].hasData && holders[k].hasData ==> j == k
  }

  ghost predicate Safe(s: System) {
    && !s.thrown
    && |s.slots| == |s.holders| && Exclusive(s.slots)
    && (forall k :: 0 <= k < |s.holders| ==> HolderOk(s.holders[k], s.lines, OfHolder(k)))
    && OneHasData(s.holders)
    && (forall k :: 0 <= k < |s.holders| && s.holders[k].hasData ==> s.t3Expected)
    && ConsoleOk(s.console, s.lines)
    && KnownOwners(s.lines, |s.holders|)
    && EdgesOk(s)
    && DueBefore(s, FallTime(s))
  }

  // A card that is not addressed is not concerned.

  lemma {:induction false} NobodyOnT2(holders: seq<Holder>, l: Lines, slots: seq<Slot>, cycle: Cycle, k: nat,
                                      time: nat)
    requires k <= |holders| == |slots| == |cycle.data|
    requires forall j :: k <= j < |slots| ==> !Answers(slots[j], cycle.a, cycle.cc)
    ensures AllAfterT2(holders, l, slots, cycle, k, time) == Some(All(holders, l))
    decreases |holders| - k
  {
    hide Answers;
    if k < |holders| {
      NobodyOnT2(holders, l, slots, cycle, k + 1, time);
    }
  }

  lemma {:induction false} OneOnT2(holders: seq<Holder>, l: Lines, slots: seq<Slot>, cycle: Cycle, k: nat, a: nat,
                                   time: nat)
    requires k <= a < |holders| == |slots| == |cycle.data| && Answers(slots[a], cycle.a, cycle.cc)
    requires forall j :: 0 <= j < |slots| && j != a ==> !Answers(slots[j], cycle.a, cycle.cc)
    ensures var r := DataHeld(holders[a], l, OfHolder(a), time, cycle.data[a]);
            r.Some? ==>
              AllAfterT2(holders, l, slots, cycle, k, time) == Some(All(holders[a := r.value.holder], r.value.lines))
    decreases a - k
  {
    hide Answers, DataHeld;
    var r := DataHeld(holders[a], l, OfHolder(a), time, cycle.data[a]);
    if k < a {
      OneOnT2(holders, l, slots, cycle, k + 1, a, time);
    } else if r.Some? {
      NobodyOnT2(holders[a := r.value.holder], r.value.lines, slots, cycle, a + 1, time);
    }
  }

  // A holder without data is not concerned.

  lemma {:induction false} NobodyOnT3(holders: seq<Holder>, l: Lines, k: nat)
    requires k <= |holders| && forall j :: k <= j < |holders| ==> !holders[j].hasData
    ensures AllAfterT3(holders, l, k) == Some(All(holders, l))
    decreases |holders| - k
  {
    if k < |holders| {
      assert holders[k := holders[k]] == holders;
      NobodyOnT3(holders, l, k + 1);
    }
  }

  lemma {:induction false} OneOnT3(holders: seq<Holder>, l: Lines, k: nat, a: nat)
    requires k <= a < |holders| && forall j :: 0 <= j < |holders| && j != a ==> !holders[j].hasData
    ensures var r := AfterT3(holders[a], l, OfHolder(a));
            r.Some? ==> AllAfterT3(holders, l, k) == Some(All(holders[a := r.value.holder], r.value.lines))
    decreases a - k
  {
    var r := AfterT3(holders[a], l, OfHolder(a));
    if k < a {
      assert holders[k := holders[k]] == holders;
      OneOnT3(holders, l, k + 1, a);
    } else if r.Some? {
      NobodyOnT3(holders[a := r.value.holder], r.value.lines, a + 1);
    }
  }

  lemma {:induction false} NobodyOnSub(holders: seq<Holder>, l: Lines, k: nat, rising: bool, time: nat)
    requires k <= |holders| && forall j :: k <= j < |holders| ==> !holders[j].hasData && !holders[j].ownsBus
    ensures AllAfterSub(holders, l, k, rising, time) == Some(All(holders, l))
    decreases |holders| - k
  {
    if k < |holders| {
      assert holders[k := holders[k]] == holders;
      NobodyOnSub(holders, l, k + 1, rising, time);
    }
  }

  lemma {:induction false} OneOnSub(holders: seq<Holder>, l: Lines, k: nat, a: nat, rising: bool, time: nat)
    requires k <= a < |holders|
    requires forall j :: 0 <= j < |holders| && j != a ==> !holders[j].hasData && !holders[j].ownsBus
    ensures var r := AfterSub(holders[a], l, OfHolder(a), rising, time);
            r.Some? ==>
              AllAfterSub(holders, l, k, rising, time) == Some(All(holders[a := r.value.holder], r.value.lines))
    decreases a - k
  {
    var r := AfterSub(holders[a], l, OfHolder(a), rising, time);
    if k < a {
      assert holders[k := holders[k]] == holders;
      OneOnSub(holders, l, k + 1, a, rising, time);
    } else if r.Some? {
      NobodyOnSub(holders[a := r.value.holder], r.value.lines, a + 1, rising, time);
    }
  }

  // At an edge every scheduled action has been done.
  lemma NothingScheduled(s: System, time: int)
    requires DueBefore(s, FallTime(s)) && FallTime(s) <= time && NothingDueBy(s, time)
    ensures s.console.due.None? && forall k :: 0 <= k < |s.holders| ==> s.holders[k].due.None?
  {
  }

  lemma T3Falls(s: System, cycle: Cycle)
    requires Safe(s) && CanHappen(s, StateChange(false, true, cycle))
    ensures Safe(Happen(s, StateChange(false, true, cycle)))
    ensures forall k :: 0 <= k < |s.holders| ==> !Happen(s, StateChange(false, true, cycle)).holders[k].hasData
  {
    hide Exclusive;
    NothingScheduled(s, s.stateEdge);
    if a: nat :| a < |s.holders| && s.holders[a].hasData {
      assert HolderOk(s.holders[a], s.lines, OfHolder(a));
      OneOnT3(s.holders, s.lines, 0, a);
    } else {
      NobodyOnT3(s.holders, s.lines, 0);
    }
  }

  lemma BusIsFree(s: System)
    requires Safe(s) && !s.t3Expected
    ensures s.lines.md.owner in {None, Some(OfConsole)} && s.lines.ready.owner.None?
  {
    forall k | 0 <= k < |s.holders|
      ensures s.lines.md.owner != Some(OfHolder(k)) && s.lines.ready.owner != Some(OfHolder(k))
    {
      assert HolderOk(s.holders[k], s.lines, OfHolder(k));
    }
    var j := if s.lines.md.owner.Some? && s.lines.md.owner.value.OfHolder? then s.lines.md.owner.value.k else 0;
    var k := if s.lines.ready.owner.Some? && s.lines.ready.owner.value.OfHolder?
             then s.lines.ready.owner.value.k else 0;
    assert j < |s.holders| ==> s.lines.md.owner != Some(OfHolder(j));
    assert k < |s.holders| ==> s.lines.ready.owner != Some(OfHolder(k));
  }

  // At the end of T2 the card that is addressed, if any, has the data, and no other card has.
  lemma T2Falls(s: System, cycle: Cycle)
    requires Safe(s) && CanHappen(s, StateChange(true, false, cycle))
    ensures var r := Happen(s, StateChange(true, false, cycle));
            && Safe(r)
            && |r.holders| == |s.holders| && r.t3Expected
            && (forall k :: 0 <= k < |s.holders| ==> (r.holders[k].hasData <==> Answers(s.slots[k], cycle.a, cycle.cc)))
            && (forall k :: 0 <= k < |s.holders| && r.holders[k].hasData ==> r.holders[k].latched == cycle.data[k])
  {
    hide Answers;
    NothingScheduled(s, s.stateEdge);
    BusIsFree(s);
    if a: nat :| a < |s.slots| && Answers(s.slots[a], cycle.a, cycle.cc) {
      assert HolderOk(s.holders[a], s.lines, OfHolder(a));
      OneOnT2(s.holders, s.lines, s.slots, cycle, 0, a, s.stateEdge);
    } else {
      NobodyOnT2(s.holders, s.lines, s.slots, cycle, 0, s.stateEdge);
    }
  }

  lemma NothingFalls(s: System, cycle: Cycle)
    requires Safe(s) && CanHappen(s, StateChange(false, false, cycle))
    ensures Safe(Happen(s, StateChange(false, false, cycle)))
  {
    NothingScheduled(s, s.stateEdge);
  }

  lemma SubRises(s: System)
    requires Safe(s) && CanHappen(s, SyncFalls) && !s.lines.sub && s.console.substitution
    ensures Safe(Happen(s, SyncFalls)) && Happen(s, SyncFalls).lines.sub
  {
    NothingScheduled(s, s.syncEdge);
    var l := s.lines.(sub := true);
    if a: nat :| a < |s.holders| && s.holders[a].hasData {
      assert HolderOk(s.holders[a], s.lines, OfHolder(a));
      OneOnSub(s.holders, l, 0, a, true, s.syncEdge);
    } else {
      NobodyOnSub(s.holders, l, 0, true, s.syncEdge);
    }
  }

  // The console leaves the bus, and the card that has data waiting takes it.
  lemma SubFalls(s: System)
    requires Safe(s) && CanHappen(s, SyncFalls) && s.lines.sub && !s.console.substitution
    ensures Safe(Happen(s, SyncFalls)) && !Happen(s, SyncFalls).lines.sub
  {
    NothingScheduled(s, s.syncEdge);
    var l := s.lines.(md := Owned(None, 0), sub := false);
    if a: nat :| a < |s.holders| && s.holders[a].hasData {
      assert HolderOk(s.holders[a], s.lines, OfHolder(a));
      OneOnSub(s.holders, l, 0, a, false, s.syncEdge);
    } else {
      NobodyOnSub(s.holders, l, 0, false, s.syncEdge);
    }
  }

  lemma SubStays(s: System)
    requires Safe(s) && CanHappen(s, SyncFalls) && s.lines.sub == s.console.substitution
    ensures Safe(Happen(s, SyncFalls)) && Happen(s, SyncFalls).lines.sub == s.lines.sub
    ensures s.lines.sub ==> Happen(s, SyncFalls).lines.md == Owned(Some(OfConsole), s.console.switchData)
  {
    NothingScheduled(s, s.syncEdge);
  }

  lemma HolderActs(s: System, k: nat)
    requires Safe(s) && CanHappen(s, HolderDue(k))
    ensures Safe(Happen(s, HolderDue(k)))
  {
    assert HolderOk(s.holders[k], s.lines, OfHolder(k));
    if s.lines.ready.owner.Some? && s.lines.ready.owner.value.OfHolder? {
      var j := s.lines.ready.owner.value.k;
      assert HolderOk(s.holders[j], s.lines, OfHolder(j));
    }
    if s.holders[k].ownsBus {
      assert DataDriven(s.holders[k], s.lines, OfHolder(k)).Some?;
    }
  }

  lemma NoHolderOwns(s: System)
    requires Safe(s) && s.lines.sub
    ensures s.lines.md.owner in {None, Some(OfConsole)}
  {
    forall k | 0 <= k < |s.holders|
      ensures s.lines.md.owner != Some(OfHolder(k))
    {
      assert HolderOk(s.holders[k], s.lines, OfHolder(k));
    }
    var k := if s.lines.md.owner.Some? && s.lines.md.owner.value.OfHolder? then s.lines.md.owner.value.k else 0;
    assert k < |s.holders| ==> s.lines.md.owner != Some(OfHolder(k));
  }

  lemma ConsoleActs(s: System)
    requires Safe(s) && CanHappen(s, ConsoleDue)
    ensures Safe(Happen(s, ConsoleDue))
    ensures Happen(s, ConsoleDue).lines.md == Owned(Some(OfConsole), s.console.switchData)
    ensures Happen(s, ConsoleDue).console == s.console.(due := None)
  {
    NoHolderOwns(s);
  }

  lemma ConsoleIsSet(s: System, e: Event)
    requires Safe(s) && (e.PressSubstitution? || e.SetSwitches?)
    ensures Safe(Happen(s, e))
  {
  }

  lemma StaysSafe(s: System, e: Event)
    requires Safe(s) && CanHappen(s, e)
    ensures Safe(Happen(s, e))
  {
    hide Safe, Happen;
    match e {
      case StateChange(t2Falls, t3Falls, cycle) =>
        if t3Falls { T3Falls(s, cycle); } else if t2Falls { T2Falls(s, cycle); } else { NothingFalls(s, cycle); }
      case SyncFalls =>
        if s.lines.sub == s.console.substitution {
          SubStays(s);
        } else if s.lines.sub {
          SubFalls(s);
        } else {
          SubRises(s);
        }
      case PressSubstitution => ConsoleIsSet(s, e);
      case SetSwitches(_) => ConsoleIsSet(s, e);
      case HolderDue(k) => HolderActs(s, k);
      case ConsoleDue => ConsoleActs(s);
    }
  }

  // A run of events that can happen one after the other.
  ghost predicate IsRun(s: System, events: seq<Event>, r: System)
    decreases |events|
  {
    if events == [] then r == s
    else CanHappen(s, events[0]) && IsRun(Happen(s, events[0]), events[1..], r)
  }

  lemma NotThrown(s: System)
    requires Safe(s)
    ensures !s.thrown
  {
    hide Exclusive;
  }

  // In every run no ownership is violated and no action is scheduled twice; a card owns the bus exactly
  // when it has data pending and SUB is low, and the console only while SUB is high.
  lemma {:induction false} NeverThrows(s: System, events: seq<Event>, r: System)
    requires Safe(s) && IsRun(s, events, r)
    ensures Safe(r) && !r.thrown
    decreases |events|
  {
    hide Safe, Happen, CanHappen;
    NotThrown(s);
    if events != [] {
      StaysSafe(s, events[0]);
      NeverThrows(Happen(s, events[0]), events[1..], r);
    }
  }

  // Who owns the bus, in any safe state.
  lemma Ownership(s: System)
    requires Safe(s)
    ensures forall k :: 0 <= k < |s.holders| ==>
              (s.lines.md.owner == Some(OfHolder(k)) <==> s.holders[k].hasData && !s.lines.sub)
    ensures s.lines.md.owner == Some(OfConsole) ==> s.lines.sub
    ensures s.lines.md.owner.None? && !s.lines.sub ==> forall k :: 0 <= k < |s.holders| ==> !s.holders[k].hasData
    ensures forall k :: 0 <= k < |s.holders| && s.holders[k].hasData && !s.lines.sub && s.holders[k].due.None? ==>
              s.lines.md.value == s.holders[k].latched && s.lines.ready.value
  {
    assert forall k :: 0 <= k < |s.holders| ==> HolderOk(s.holders[k], s.lines, OfHolder(k));
  }

  // From the end of T2 to the fall of T3 the card that has been addressed keeps its byte.

  predicate Keeps(s: System, k: nat, data: Byte) {
    s.t3Expected && k < |s.holders| && s.holders[k].hasData && s.holders[k].latched == data
  }

  predicate T3FallsIn(events: seq<Event>) {
    exists i :: 0 <= i < |events| && events[i].StateChange? && events[i].t3Falls
  }

  lemma {:induction false} OnSubKeeps(holders: seq<Holder>, l: Lines, j: nat, rising: bool, time: nat, k: nat)
    requires j <= |holders| && k < |holders| && AllAfterSub(holders, l, j, rising, time).Some?
    ensures var r := AllAfterSub(holders, l, j, rising, time).value;
            r.holders[k].hasData == holders[k].hasData && r.holders[k].latched == holders[k].latched
    decreases |holders| - j
  {
    if j < |holders| {
      var r := AfterSub(holders[j], l, OfHolder(j), rising, time);
      OnSubKeeps(holders[j := r.value.holder], r.value.lines, j + 1, rising, time, k);
    }
  }

  lemma EventKeeps(s: System, e: Event, k: nat, data: Byte)
    requires CanHappen(s, e) && Keeps(s, k, data) && !(e.StateChange? && e.t3Falls)
    ensures Keeps(Happen(s, e), k, data)
  {
    if e.SyncFalls? {
      var l := ConsoleOnSync(s.console, s.lines);
      if l.Some? && AllAfterSub(s.holders, l.value.(sub := s.console.substitution), 0, s.console.substitution,
                                s.syncEdge).Some? {
        OnSubKeeps(s.holders, l.value.(sub := s.console.substitution), 0, s.console.substitution, s.syncEdge, k);
      }
    }
  }

  lemma {:induction false} RunKeeps(s: System, events: seq<Event>, r: System, k: nat, data: Byte)
    requires IsRun(s, events, r) && Keeps(s, k, data) && !T3FallsIn(events)
    ensures Keeps(r, k, data)
    decreases |events|
  {
    hide Happen, CanHappen, Keeps;
    if events != [] {
      EventKeeps(s, events[0], k, data);
      RunKeeps(Happen(s, events[0]), events[1..], r, k, data);
    }
  }

  // Whenever phase 2 falls between the end of a read cycle's T2 and the end of its T3, waiting
  // included, and the console does not substitute its switches, the bus holds the byte of the card
  // that the address selects, and READY is high.
  lemma ReadsAddressed(s: System, cycle: Cycle, events: seq<Event>, r: System, k: nat)
    requires Safe(s) && CanHappen(s, StateChange(true, false, cycle))
    requires IsRun(Happen(s, StateChange(true, false, cycle)), events, r) && !T3FallsIn(events)
    requires k < |s.slots| && Answers(s.slots[k], cycle.a, cycle.cc)
    requires !r.lines.sub && NothingDueBy(r, FallTime(r))
    ensures r.lines.md == Owned(Some(OfHolder(k)), cycle.data[k]) && r.lines.ready.value
  {
    hide Safe, Happen, Answers;
    SafeShape(s);
    T2Falls(s, cycle);
    var s1 := Happen(s, StateChange(true, false, cycle));
    NeverThrows(s1, events, r);
    RunKeeps(s1, events, r, k, cycle.data[k]);
    AtFall(r, k);
  }

  lemma SafeShape(s: System)
    requires Safe(s)
    ensures |s.slots| == |s.holders|
  {
    hide Exclusive;
  }

  lemma AtFall(s: System, k: nat)
    requires Safe(s) && NothingDueBy(s, FallTime(s)) && k < |s.holders| && s.holders[k].hasData && !s.lines.sub
    ensures s.lines.md == Owned(Some(OfHolder(k)), s.holders[k].latched) && s.lines.ready.value
  {
    hide Exclusive;
    NothingScheduled(s, FallTime(s));
    assert HolderOk(s.holders[k], s.lines, OfHolder(k));
  }

  // The start: nothing placed, nothing substituted.
  lemma StartsSafe(slots: seq<Slot>, delays: seq<nat>, switches: Byte)
    requires Exclusive(slots) && |delays| == |slots|
    requires forall k :: 0 <= k < |delays| ==> delays[k] < DELAY_LIMIT
    ensures Safe(Start(slots, delays, switches))
  {
    hide Exclusive;
  }

  function Start(slots: seq<Slot>, delays: seq<nat>, switches: Byte): System {
    var holders := seq(|delays|, k requires 0 <= k < |delays| => Holder(delays[k], 0, false, false, None));
    System(slots, holders, Console(false, false, switches, None), Lines(Owned(None, 0), Owned(None, true), false),
           STATE_AT, SYNC_FALL_AT, false, false)
  }

  // The simulator, in both of its configurations, from its start on.
  lemma SimulatorNeverThrows(memory: seq<MemorySelection>, delays: seq<nat>, switches: Byte, events: seq<Event>,
                             r: System)
    requires memory in {MICRAL_N, SINGLE_ROM} && |delays| == |Slots(memory)|
    requires forall k :: 0 <= k < |delays| ==> delays[k] < DELAY_LIMIT
    requires IsRun(Start(Slots(memory), delays, switches), events, r)
    ensures Safe(r) && !r.thrown
  {
    hide Safe, Exclusive, Slots, MICRAL_N, SINGLE_ROM, IsRun, Start;
    SimulatorExclusive();
    StartsSafe(Slots(memory), delays, switches);
    NeverThrows(Start(Slots(memory), delays, switches), events, r);
  }

  class ConsoleCard {
    var substitution: bool         // status.substitution
    var releaseDataBus: bool
    var switchData: Byte
    var placeDataAt: Option<nat>

    constructor ()
      ensures Value() == Console(false, false, 0, None)
    {
      substitution, releaseDataBus, switchData, placeDataAt := false, false, 0, None;
    }

    ghost function Value(): Console
      reads this
    {
      Console(substitution, releaseDataBus, switchData, placeDataAt)
    }

    method PressSubstitution(pluribus: Pluribus)
      modifies this`substitution, this`releaseDataBus
      ensures Value() == Pressed(old(Value()), pluribus.Value())
      ensures substitution == !old(substitution)
      ensures releaseDataBus == if pluribus.sub then !substitution else old(releaseDataBus)
    {
      substitution := !substitution;
      if pluribus.sub {
        releaseDataBus := !substitution;
      }
    }

    // On the fall of SYNC, up to the new level of SUB. Its subscribers follow.
    method OnSync(pluribus: Pluribus) returns (thrown: bool)
      modifies this`releaseDataBus, pluribus, pluribus.md
      ensures var l := ConsoleOnSync(old(Value()), old(pluribus.Value()));
              && thrown == l.None?
              && (l.Some? ==> pluribus.Value() == l.value.(sub := substitution)
                              && Value() == old(Value()).(releaseDataBus := false))
    {
      thrown := false;
      if releaseDataBus {
        thrown := pluribus.md.Change(0, OfConsole);
        if !thrown {
          thrown := pluribus.md.Release(OfConsole);
        }
        releaseDataBus := false;
      } else if pluribus.sub {
        thrown := pluribus.md.Change(switchData, OfConsole);
      }
      if !thrown {
        pluribus.sub := substitution;
      }
    }

    method OnSub(rising: bool, time: nat) returns (thrown: bool)
      modifies this`placeDataAt
      ensures thrown == (rising && old(placeDataAt).Some?)
      ensures Value() == if rising && !thrown then old(Value()).(due := Some(time + 20))
                         else old(Value())
    {
      thrown := rising && placeDataAt != None;
      if rising && !thrown {
        placeDataAt := Some(time + SUBSTITUTION_DELAY);
      }
    }

    // The scheduled action.
    method PlaceData(pluribus: Pluribus) returns (thrown: bool)
      modifies this`placeDataAt, pluribus.md
      ensures var r := ConsoleDriven(old(Value()), old(pluribus.Value()));
              thrown == r.None? && (r.Some? ==> (Value(), pluribus.Value()) == r.value)
      ensures thrown <==> old(pluribus.md.owner).Some? && old(pluribus.md.owner) != Some(OfConsole)
      ensures !thrown ==> pluribus.md.Value() == Owned(Some(OfConsole), switchData) && placeDataAt.None?
    {
      thrown := pluribus.md.Request(OfConsole);
      if !thrown {
        thrown := pluribus.md.Change(switchData, OfConsole);
      }
      placeDataAt := None;
    }
  }
}
