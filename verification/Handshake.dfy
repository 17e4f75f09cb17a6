/** The interrupt handshake: what is dispatched, what is acknowledged, and what is injected. */
module Handshake {
  import opened Bytes
  import opened Microcode
  import opened CpuCore
  import opened InterruptControl

  // The controller with the processor and the processor card. owed is the level acknowledged for
  // which no restart has been injected yet; broken tells that the handshake went wrong.
  datatype System = System(
    controller: Controller,
    state: TState,
    falls: nat,              // falls of phase 2 in this state
    interruptPending: bool,
    interruptCycle: bool,
    owed: Option<nat>,
    broken: bool)

  datatype Event =
    | Phase1Rises(lines: seq<bool>)
    | Phase2Falls
    | ChangesState(next: TState)
    | T3PrimeRises(cc: CycleControl, md: Byte)
    | SyncFalls(data: Byte)
    | InterruptRises         // raised by another card, as at power on

  predicate Follows(previous: TState, next: TState, interrupt: bool) {
    match previous
    case T1 => next.T2?
    case T1I => next.T2?
    case T2 => next in {T3, WAIT}
    case WAIT => next.T3?
    case T3 => next in {T4, STOPPED, T1} || (next.T1I? && interrupt)
    case T4 => next in {T5, T1} || (next.T1I? && interrupt)
    case T5 => next.T1? || (next.T1I? && interrupt)
    case STOPPED => next.T1I? && interrupt
  }

  // The processor goes from state to state as its decision says.
  lemma DecisionFollows(c: Core, interrupt: bool, ready: bool, next: TState)
    requires ChangeState(c, interrupt, ready).1 == Some(next)
    ensures Follows(c.state, next, interrupt)
  {
  }

  // A state has two falls of phase 2, unless the processor waits or is stopped.
  predicate CanHappen(s: System, e: Event) {
    match e
    case Phase1Rises(lines) => |lines| == LEVELS
    case Phase2Falls => s.falls < 2 || s.state in {WAIT, STOPPED}
    case ChangesState(next) => s.falls == 2 && Follows(s.state, next, s.interruptPending)
    case T3PrimeRises(_, _) => true
    case SyncFalls(_) => true
    case InterruptRises => true
  }

  function OnPhase2(s: System): System
    requires ValidController(s.controller)
  {
    var s1 := s.(falls := if s.falls < 2 then s.falls + 1 else 2);
    if s.state.T1I? then s1.(interruptCycle := true)
    else if s.state.T1? then s1.(interruptCycle := false)
    else if s.state.T3? && s.interruptCycle then
      var level, (_, c) := Lowest(s.controller), Offer(s.controller);
      s1.(controller := c, owed := if level < LEVELS then None else s.owed,
          broken := s.broken || (level < LEVELS && s.owed != Some(level)))
    else s1
  }

  function OnChange(s: System, next: TState): System
    requires ValidController(s.controller)
  {
    var acknowledged := next.T1I? && s.controller.applying;
    s.(controller := AfterState(s.controller, s.state, next), state := next, falls := 0,
       interruptPending := s.interruptPending && !next.T1I?,
       owed := if acknowledged then Some(s.controller.current) else s.owed,
       broken := s.broken || (s.owed.Some? && (acknowledged || s.state.T3?)))
  }

  function Happen(s: System, e: Event): (r: System)
    requires ValidController(s.controller) && CanHappen(s, e)
    ensures ValidController(r.controller)
  {
    match e
    case Phase1Rises(lines) =>
      var c := AfterPhase1(s.controller, lines);
      s.(controller := c, interruptPending := s.interruptPending || (c.line && !s.controller.line))
    case Phase2Falls => OnPhase2(s)
    case ChangesState(next) => OnChange(s, next)
    case T3PrimeRises(cc, md) => s.(controller := AfterT3Prime(s.controller, cc, md))
    case SyncFalls(data) => s.(controller := AfterSync(s.controller, s.state.T2?, s.state.T3?, data))
    case InterruptRises => s.(interruptPending := true)
  }

  // An acknowledge line is high exactly in T1I, for the level that is applied, and the interrupt
  // line is high from its dispatch to T1I.
  predicate AcksOk(s: System) {
    var c := s.controller;
    && ValidController(c)
    && (forall k :: 0 <= k < LEVELS ==> (c.acks[k] <==> s.state.T1I? && c.applying && k == c.current))
    && (c.line <==> c.applying && !s.state.T1I?)
    && (s.state.T1I? ==> c.protection > 0)
  }

  lemma PhaseAcks(s: System, lines: seq<bool>)
    requires AcksOk(s) && |lines| == LEVELS
    ensures AcksOk(s.(controller := AfterPhase1(s.controller, lines)))
  {
    hide Lowest;
  }

  lemma StateAcks(s: System, next: TState)
    requires AcksOk(s) && Follows(s.state, next, s.interruptPending)
    ensures AcksOk(s.(controller := AfterState(s.controller, s.state, next), state := next))
  {
  }

  lemma OfferAcks(s: System)
    requires AcksOk(s)
    ensures AcksOk(s.(controller := Offer(s.controller).1))
  {
    hide Lowest, Injected;
  }

  // Nothing else but these parts of the system matters.
  lemma SameAcks(s: System, r: System)
    requires AcksOk(s) && s.controller == r.controller && s.state == r.state
    ensures AcksOk(r)
  {
  }

  lemma AcksStay(s: System, e: Event)
    requires AcksOk(s) && CanHappen(s, e)
    ensures AcksOk(Happen(s, e))
  {
    hide AcksOk, AfterPhase1, AfterState, Offer, Lowest, Follows;
    AcksValid(s);
    match e {
      case Phase1Rises(lines) =>
        PhaseAcks(s, lines);
        SameAcks(s.(controller := AfterPhase1(s.controller, lines)), Happen(s, e));
      case Phase2Falls =>
        OfferAcks(s);
        SameAcks(if Happen(s, e).controller == s.controller then s else s.(controller := Offer(s.controller).1),
                 Happen(s, e));
      case ChangesState(next) =>
        StateAcks(s, next);
        SameAcks(s.(controller := AfterState(s.controller, s.state, next), state := next), Happen(s, e));
      case _ => SettingAcks(s, e);
    }
  }

  lemma SettingAcks(s: System, e: Event)
    requires AcksOk(s) && CanHappen(s, e) && (e.T3PrimeRises? || e.SyncFalls? || e.InterruptRises?)
    ensures AcksOk(Happen(s, e))
  {
    hide AfterPhase1, AfterState, Offer;
  }

  ghost predicate IsRun(s: System, events: seq<Event>, r: System)
    requires ValidController(s.controller)
    decreases |events|
  {
    if events == [] then r == s else CanHappen(s, events[0]) && IsRun(Happen(s, events[0]), events[1..], r)
  }

  // In every run at most one acknowledge line is high, and only during T1I.
  lemma {:induction false} AcksOnlyInT1I(s: System, events: seq<Event>, r: System)
    requires AcksOk(s) && IsRun(s, events, r)
    ensures AcksOk(r)
    ensures forall j, k :: 0 <= j < LEVELS && 0 <= k < LEVELS && r.controller.acks[j] && r.controller.acks[k] ==>
              j == k && r.state.T1I?
    decreases |events|
  {
    hide Happen, CanHappen;
    if events != [] {
      AcksStay(s, events[0]);
      AcksOnlyInT1I(Happen(s, events[0]), events[1..], r);
    }
  }

  predicate IsFirst(c: Controller, k: nat)
    requires ValidController(c)
  {
    k < LEVELS && IsPending(c, k) && forall j :: 0 <= j < k ==> !IsPending(c, j)
  }

  // A level is dispatched exactly when none is applied and the lowest pending one is 0 or the
  // interrupts are enabled; it is that one.
  lemma DispatchesLowest(c: Controller, lines: seq<bool>)
    requires ValidController(c) && |lines| == LEVELS
    ensures var r := AfterPhase1(c, lines);
            var latched := Latched(c, lines);
            && (r.applying && !c.applying <==>
                  !c.applying && c.protection == 0 && exists k :: IsFirst(latched, k) && (k == 0 || c.enabled))
            && (r.applying && !c.applying ==>
                  && r.line && IsFirst(r, r.current)
                  && (r.current == 0 || (c.enabled && Bit(c.mask, r.current))))
  {
    hide Bit;
    var latched := Latched(c, lines);
    var level := Lowest(latched);
    assert forall j :: 0 <= j < level ==> !IsPending(latched, j);
    assert level < LEVELS ==> IsFirst(latched, level);
    var r := AfterPhase1(c, lines);
    assert forall j :: 0 <= j < LEVELS && c.protection == 0 ==> IsPending(r, j) == IsPending(latched, j);
  }

  // What the program tells the controller, over any run.

  // A fetch of MAS, which disables the interrupts, or of DMS or REI, which enable them.
  predicate IsSwitch(e: Event) { e.T3PrimeRises? && e.cc.PCI? && e.md in {0xD2, 0xF6, 0x1F} }

  // The last of them.
  function LastSwitch(events: seq<Event>): Option<Byte> {
    if events == [] then None
    else if LastSwitch(events[1..]).Some? then LastSwitch(events[1..])
    else if IsSwitch(events[0]) then Some(events[0].md)
    else None
  }

  // What the program sets stays as it is but for what it fetches and announces.
  predicate SameSettings(c: Controller, r: Controller) {
    r.enabled == c.enabled && r.pendingOut17 == c.pendingOut17 && r.mask == c.mask && r.watchdogOn == c.watchdogOn
  }

  lemma PhaseSettings(c: Controller, lines: seq<bool>)
    requires ValidController(c) && |lines| == LEVELS
    ensures SameSettings(c, AfterPhase1(c, lines))
  {
    hide Lowest;
  }

  lemma StateSettings(c: Controller, previous: TState, next: TState)
    requires ValidController(c)
    ensures SameSettings(c, AfterState(c, previous, next))
  {
  }

  lemma OfferSettings(c: Controller)
    requires ValidController(c)
    ensures SameSettings(c, Offer(c).1)
  {
    hide Lowest, Injected;
  }

  lemma SettingsNext(s: System, e: Event)
    requires ValidController(s.controller) && CanHappen(s, e) && !e.T3PrimeRises? && !e.SyncFalls?
    ensures SameSettings(s.controller, Happen(s, e).controller)
    ensures Happen(s, e).state == if e.ChangesState? then e.next else s.state
  {
    hide AfterPhase1, AfterState, Offer, Lowest, Follows, SameSettings;
    match e {
      case Phase1Rises(lines) => PhaseSettings(s.controller, lines);
      case Phase2Falls => OfferSettings(s.controller);
      case ChangesState(next) => StateSettings(s.controller, s.state, next);
      case InterruptRises =>
    }
    SettingsStay(s.controller);
  }

  lemma SettingsStay(c: Controller)
    ensures SameSettings(c, c)
  {
  }

  lemma EnabledNext(s: System, e: Event)
    requires ValidController(s.controller) && CanHappen(s, e)
    ensures Happen(s, e).controller.enabled == if IsSwitch(e) then e.md != 0xD2 else s.controller.enabled
  {
    hide AfterPhase1, AfterState, Offer, Lowest, Follows;
    if !e.T3PrimeRises? && !e.SyncFalls? {
      SettingsNext(s, e);
    }
  }

  // Interrupts are enabled exactly when the last switch was not MAS, or as they were at first when
  // there was none. Other bytes and other kinds of cycle change nothing.
  lemma {:induction false} EnabledIs(s: System, events: seq<Event>, r: System)
    requires ValidController(s.controller) && IsRun(s, events, r)
    ensures r.controller.enabled
         == if LastSwitch(events).Some? then LastSwitch(events).value != 0xD2 else s.controller.enabled
    decreases |events|
  {
    hide Happen, CanHappen, IsSwitch;
    if events != [] {
      EnabledNext(s, events[0]);
      EnabledIs(Happen(s, events[0]), events[1..], r);
    }
  }

  // While they are not, only level 0 is dispatched.
  lemma DisabledDispatchesZero(s: System, events: seq<Event>, r: System, lines: seq<bool>)
    requires ValidController(s.controller) && ValidController(r.controller) && IsRun(s, events, r)
    requires LastSwitch(events) == Some(0xD2) || (LastSwitch(events).None? && !s.controller.enabled)
    requires |lines| == LEVELS
    ensures var after := Happen(r, Phase1Rises(lines)).controller;
            !r.controller.applying && after.applying ==> after.current == 0 && after.requested[0]
  {
    hide Lowest, Latched, Bit, LastSwitch;
    EnabledIs(s, events, r);
    DispatchesLowest(r.controller, lines);
  }

  // The mask, and whether an OUT 17 has been fetched whose byte the controller still waits for: it is
  // the one on the data bus when SYNC falls next outside T2 and T3.
  function MaskAfter(state: TState, announced: bool, mask: Byte, events: seq<Event>): (bool, Byte)
    decreases |events|
  {
    if events == [] then (announced, mask)
    else
      match events[0]
      case ChangesState(next) => MaskAfter(next, announced, mask, events[1..])
      case T3PrimeRises(cc, md) => MaskAfter(state, announced || (cc.PCI? && md == 0x7F), mask, events[1..])
      case SyncFalls(data) =>
        if announced && state !in {T2, T3} then MaskAfter(state, false, data, events[1..])
        else MaskAfter(state, announced, mask, events[1..])
      case _ => MaskAfter(state, announced, mask, events[1..])
  }

  // The lowest bit of the mask stops the watchdog.
  predicate MaskNext(s: System, e: Event, r: System) {
    var c, d := s.controller, r.controller;
    match e
    case ChangesState(next) => r.state == next && d.pendingOut17 == c.pendingOut17 && d.mask == c.mask
    case T3PrimeRises(cc, md) =>
      r.state == s.state && d.pendingOut17 == (c.pendingOut17 || (cc.PCI? && md == 0x7F)) && d.mask == c.mask
    case SyncFalls(data) =>
      && r.state == s.state
      && (if c.pendingOut17 && s.state !in {T2, T3} then
            !d.pendingOut17 && d.mask == data && d.watchdogOn == (data % 2 == 0)
          else d.pendingOut17 == c.pendingOut17 && d.mask == c.mask && d.watchdogOn == c.watchdogOn)
    case _ => r.state == s.state && d.pendingOut17 == c.pendingOut17 && d.mask == c.mask
  }

  lemma MaskMoves(s: System, e: Event)
    requires ValidController(s.controller) && CanHappen(s, e)
    ensures MaskNext(s, e, Happen(s, e))
  {
    hide AfterPhase1, AfterState, Offer, Lowest, Follows;
    if !e.T3PrimeRises? && !e.SyncFalls? {
      SettingsNext(s, e);
    }
  }

  lemma {:induction false} MaskIs(s: System, events: seq<Event>, r: System)
    requires ValidController(s.controller) && IsRun(s, events, r)
    ensures (r.controller.pendingOut17, r.controller.mask)
         == MaskAfter(s.state, s.controller.pendingOut17, s.controller.mask, events)
    decreases |events|
  {
    hide Happen, CanHappen;
    if events != [] {
      MaskMoves(s, events[0]);
      MaskIs(Happen(s, events[0]), events[1..], r);
    }
  }

  // Requests are protected from a T1I to the T1 that follows.
  function ProtectedAfter(protected: bool, events: seq<Event>): bool
    decreases |events|
  {
    if events == [] then protected
    else if events[0] == ChangesState(T1I) then ProtectedAfter(true, events[1..])
    else if events[0] == ChangesState(T1) then ProtectedAfter(false, events[1..])
    else ProtectedAfter(protected, events[1..])
  }

  lemma ProtectionNext(s: System, e: Event)
    requires ValidController(s.controller) && CanHappen(s, e) && s.controller.protection <= 1
    ensures var p := Happen(s, e).controller.protection;
            p == if e == ChangesState(T1I) then 1 else if e == ChangesState(T1) then 0 else s.controller.protection
  {
    hide AfterPhase1, AfterState, AfterT3Prime, AfterSync, Offer, Lowest, Follows;
    OthersProtect(s.controller, e);
    if e.ChangesState? {
      StateProtects(s.controller, s.state, e.next);
    }
  }

  lemma StateProtects(c: Controller, previous: TState, next: TState)
    requires ValidController(c) && c.protection <= 1
    ensures AfterState(c, previous, next).protection
            == if next.T1I? then 1 else if next.T1? then 0 else c.protection
    ensures AfterState(c, previous, next).requested == c.requested
  {
  }

  lemma OthersProtect(c: Controller, e: Event)
    requires ValidController(c)
    ensures e.Phase1Rises? && |e.lines| == LEVELS ==> AfterPhase1(c, e.lines).protection == c.protection
    ensures e.T3PrimeRises? ==>
              var r := AfterT3Prime(c, e.cc, e.md); r.protection == c.protection && r.requested == c.requested
    ensures e.SyncFalls? ==>
              forall t2, t3 :: var r := AfterSync(c, t2, t3, e.data);
                               r.protection == c.protection && r.requested == c.requested
    ensures Offer(c).1.protection == c.protection
  {
    hide Lowest;
  }

  lemma {:induction false} ProtectionIs(s: System, events: seq<Event>, r: System)
    requires ValidController(s.controller) && IsRun(s, events, r) && s.controller.protection <= 1
    ensures r.controller.protection == if ProtectedAfter(s.controller.protection == 1, events) then 1 else 0
    decreases |events|
  {
    hide Happen, CanHappen;
    if events != [] {
      ProtectionNext(s, events[0]);
      ProtectionIs(Happen(s, events[0]), events[1..], r);
    }
  }

  // A request appears when its line is high at a rise of phase 1 and nothing is protected, and goes when
  // it is the first pending one at a fall of phase 2 in T3 of an interrupt.
  lemma RequestNext(s: System, e: Event, k: nat)
    requires ValidController(s.controller) && CanHappen(s, e) && k < LEVELS
    ensures var c := s.controller;
            Happen(s, e).controller.requested[k]
            <==> (c.requested[k] || (e.Phase1Rises? && c.protection == 0 && e.lines[k]))
                 && !(e.Phase2Falls? && s.state.T3? && s.interruptCycle && IsFirst(c, k))
  {
    hide AfterPhase1, AfterState, AfterT3Prime, AfterSync, Offer, Lowest, IsFirst;
    OthersProtect(s.controller, e);
    match e {
      case Phase1Rises(lines) => PhaseRequests(s.controller, lines, k);
      case Phase2Falls => FallRequests(s.controller, k);
      case ChangesState(next) => StateRequests(s.controller, s.state, next);
      case _ =>
    }
  }

  lemma StateRequests(c: Controller, previous: TState, next: TState)
    requires ValidController(c)
    ensures AfterState(c, previous, next).requested == c.requested
  {
  }

  lemma PhaseRequests(c: Controller, lines: seq<bool>, k: nat)
    requires ValidController(c) && |lines| == LEVELS && k < LEVELS
    ensures AfterPhase1(c, lines).requested[k] <==> c.requested[k] || (c.protection == 0 && lines[k])
  {
    hide Lowest;
  }

  lemma FallRequests(c: Controller, k: nat)
    requires ValidController(c) && k < LEVELS
    ensures Offer(c).1.requested[k] <==> c.requested[k] && !IsFirst(c, k)
  {
    hide Injected, Bit;
    var level := Lowest(c);
    assert level < LEVELS ==> IsPending(c, level);
    assert forall j :: 0 <= j < level ==> !IsPending(c, j);
    assert IsFirst(c, k) <==> level < LEVELS && k == level;
  }

  // The only pending level.

  predicate OnlyIn(requested: seq<bool>, mask: Byte, level: nat)
    requires |requested| == LEVELS
  {
    level < LEVELS && forall k :: 0 <= k < LEVELS ==> (requested[k] && (k == 0 || Bit(mask, k)) <==> k == level)
  }

  predicate NothingIn(requested: seq<bool>, mask: Byte)
    requires |requested| == LEVELS
  {
    forall k :: 0 <= k < LEVELS ==> !(requested[k] && (k == 0 || Bit(mask, k)))
  }

  predicate Only(c: Controller, level: nat)
    requires ValidController(c)
  {
    OnlyIn(c.requested, c.mask, level)
  }

  predicate NothingPending(c: Controller)
    requires ValidController(c)
  {
    NothingIn(c.requested, c.mask)
  }

  // The hypothesis: a dispatch finds a single pending request, and until its injection no other one
  // that is not masked is latched and the mask does not change. An interrupt that is not the
  // controller's finds no pending request in its T1I.
  predicate Undisturbed(s: System, e: Event)
    requires ValidController(s.controller) && CanHappen(s, e)
  {
    var c, r := s.controller, Happen(s, e).controller;
    && (!c.applying && r.applying ==> Only(r, r.current))
    && (c.applying && e.Phase1Rises? ==>
          forall k :: 0 <= k < LEVELS && k != c.current && e.lines[k] ==> !(k == 0 || Bit(c.mask, k)))
    && ((c.applying || c.protection > 0) ==> r.mask == c.mask)
    && (e.ChangesState? && e.next.T1I? && !c.applying ==> NothingPending(c))
  }

  // Where a request is on its way: dispatched; acknowledged; injected.
  predicate OnItsWay(s: System) {
    var c := s.controller;
    && ValidController(c) && AcksOk(s) && !s.broken
    && (c.applying ==> Only(c, c.current))
    && (c.applying ==> s.owed == if s.state.T1I? then Some(c.current) else None)
    && (s.owed.Some? ==> Only(c, s.owed.value) && c.protection > 0 && s.state in {T1I, T2, WAIT, T3})
    && (s.owed.Some? && s.state == T3 ==> s.falls == 0)
    && (s.owed.Some? && s.state == T1I ==> s.falls == 0 || s.interruptCycle)
    && (s.owed.Some? && s.state != T1I ==> s.interruptCycle)
    && (s.interruptCycle && s.owed.None? && s.state in {T1I, T2, WAIT, T3} ==> NothingPending(c) && c.protection > 0)
    && (s.interruptCycle && s.state == T1 ==> s.falls == 0)
    && (s.state.T1I? && !c.applying ==> NothingPending(c))
    && s.falls <= 2
  }

  lemma LowestOnly(c: Controller, level: nat)
    requires ValidController(c) && Only(c, level)
    ensures Lowest(c) == level < LEVELS && NothingPending(Reset(c, level))
  {
    assert IsPending(c, level);
    assert Lowest(c) < LEVELS ==> IsPending(c, Lowest(c));
    assert forall j :: 0 <= j < Lowest(c) ==> !IsPending(c, j);
  }

  lemma LowestNothing(c: Controller)
    requires ValidController(c) && NothingPending(c)
    ensures Lowest(c) == LEVELS
  {
    assert Lowest(c) < LEVELS ==> IsPending(c, Lowest(c));
  }

  lemma LatchedOnly(c: Controller, lines: seq<bool>, level: nat)
    requires ValidController(c) && |lines| == LEVELS && Only(c, level)
    requires forall k :: 0 <= k < LEVELS && k != level && lines[k] ==> !(k == 0 || Bit(c.mask, k))
    ensures Only(Latched(c, lines), level)
  {
  }

  lemma AcksValid(s: System)
    requires AcksOk(s)
    ensures ValidController(s.controller) && (s.state.T1I? ==> s.controller.protection > 0)
  {
  }

  lemma PhaseKeeps(s: System, lines: seq<bool>)
    requires OnItsWay(s) && CanHappen(s, Phase1Rises(lines)) && Undisturbed(s, Phase1Rises(lines))
    ensures OnItsWay(Happen(s, Phase1Rises(lines)))
  {
    hide Bit, Lowest, OnlyIn, NothingIn, AcksOk;
    AcksStay(s, Phase1Rises(lines));
    AcksValid(s);
    if s.controller.applying {
      LatchedOnly(s.controller, lines, s.controller.current);
    }
  }

  lemma FallKeeps(s: System)
    requires OnItsWay(s) && CanHappen(s, Phase2Falls)
    ensures OnItsWay(Happen(s, Phase2Falls))
  {
    hide Bit, Lowest, OnlyIn, NothingIn, AcksOk;
    AcksStay(s, Phase2Falls);
    AcksValid(s);
    if s.state.T3? && s.interruptCycle {
      if s.owed.Some? {
        LowestOnly(s.controller, s.owed.value);
      } else {
        LowestNothing(s.controller);
      }
    }
  }

  lemma ChangeKeeps(s: System, next: TState)
    requires OnItsWay(s) && CanHappen(s, ChangesState(next)) && Undisturbed(s, ChangesState(next))
    ensures OnItsWay(Happen(s, ChangesState(next)))
  {
    hide Bit, Lowest, OnlyIn, NothingIn;
    AcksStay(s, ChangesState(next));
  }

  lemma RestKeeps(s: System, e: Event)
    requires OnItsWay(s) && CanHappen(s, e) && Undisturbed(s, e)
    requires e.T3PrimeRises? || e.SyncFalls? || e.InterruptRises?
    ensures OnItsWay(Happen(s, e))
  {
    hide Bit, Lowest, OnlyIn, NothingIn, AcksOk;
    AcksStay(s, e);
    AcksValid(s);
  }

  lemma StaysOnItsWay(s: System, e: Event)
    requires OnItsWay(s) && CanHappen(s, e) && Undisturbed(s, e)
    ensures OnItsWay(Happen(s, e))
  {
    hide Happen, CanHappen, OnItsWay, Undisturbed;
    match e {
      case Phase1Rises(lines) => PhaseKeeps(s, lines);
      case Phase2Falls => FallKeeps(s);
      case ChangesState(next) => ChangeKeeps(s, next);
      case _ => RestKeeps(s, e);
    }
  }

  // A run in which the hypothesis holds at every event.
  ghost predicate IsUndisturbedRun(s: System, events: seq<Event>, r: System)
    requires ValidController(s.controller)
    decreases |events|
  {
    if events == [] then r == s
    else CanHappen(s, events[0]) && Undisturbed(s, events[0]) && IsUndisturbedRun(Happen(s, events[0]), events[1..], r)
  }

  lemma NotBroken(s: System)
    requires OnItsWay(s)
    ensures !s.broken
  {
  }

  // The start: the processor is stopped, and no level has been requested.
  lemma StartsIdle(c: Controller, falls: nat, interruptPending: bool, interruptCycle: bool)
    requires falls <= 2
    requires c.requested == c.acks == seq(LEVELS, _ => false) && c.current < LEVELS && !c.applying && !c.line
    ensures var s := System(c, STOPPED, falls, interruptPending, interruptCycle, None, false);
            AcksOk(s) && OnItsWay(s)
  {
  }

  // When nothing disturbs it, each acknowledged level is injected once, in the T3 that follows, its
  // request is cleared there, and nothing else is injected.
  lemma {:induction false} InjectedOnce(s: System, events: seq<Event>, r: System)
    requires ValidController(s.controller) && ValidController(r.controller)
    requires OnItsWay(s) && IsUndisturbedRun(s, events, r)
    ensures OnItsWay(r) && !r.broken
    decreases |events|
  {
    hide Happen, CanHappen, OnItsWay, Undisturbed;
    NotBroken(s);
    if events != [] {
      StaysOnItsWay(s, events[0]);
      InjectedOnce(Happen(s, events[0]), events[1..], r);
    }
  }

  // The restart of a level is injected exactly when it is the lowest pending one then, whatever level
  // has been acknowledged.
  lemma InjectsFirst(c: Controller, level: nat)
    requires ValidController(c) && level < LEVELS
    ensures Offer(c).0 == Some(Injected(level)) <==> IsFirst(c, level)
  {
    assert Lowest(c) < LEVELS ==> IsPending(c, Lowest(c));
    assert forall j :: 0 <= j < Lowest(c) ==> !IsPending(c, j);
  }

  // T3 has two falls of phase 2: the second one injects nothing exactly when a single level was pending.
  lemma InjectsTwice(c: Controller, level: nat)
    requires ValidController(c) && IsFirst(c, level)
    ensures Offer(Offer(c).1).0.None? <==> Only(c, level)
  {
    InjectsFirst(c, level);
    var r := Reset(c, level);
    assert Lowest(c) == level;
    assert forall k :: 0 <= k < LEVELS ==> (IsPending(r, k) <==> IsPending(c, k) && k != level);
    assert Lowest(r) < LEVELS ==> IsPending(r, Lowest(r));
    assert forall j :: 0 <= j < Lowest(r) ==> !IsPending(r, j);
    assert Only(c, level) <==> forall k :: 0 <= k < LEVELS ==> (IsPending(c, k) <==> k == level);
  }

  // Without the hypothesis: level 3 is applied, level 1 is latched before T1I; 3 is acknowledged, and
  // the restart of 1 is injected.
  lemma LowerLevelSteals()
    ensures var lines := seq(LEVELS, k => k == 1);
            var c := Controller(seq(LEVELS, k => k == 3), seq(LEVELS, _ => false), 0xFF, true, false, true, 3, false,
                                0, true);
            var latched := AfterPhase1(c, lines);
            && Only(c, 3)
            && AfterState(latched, T3, T1I).acks[3]
            && Offer(AfterState(latched, T3, T1I)).0 == Some(Injected(1))
  {
    var lines := seq(LEVELS, k => k == 1);
    var c := Controller(seq(LEVELS, k => k == 3), seq(LEVELS, _ => false), 0xFF, true, false, true, 3, false, 0, true);
    var r := AfterState(AfterPhase1(c, lines), T3, T1I);
    assert !IsPending(r, 0) && IsPending(r, 1);
    assert IsFirst(r, 1);
    InjectsFirst(r, 1);
  }
}
