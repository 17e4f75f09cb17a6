/** The interrupt controller: it latches the requests of eight levels, dispatches one, acknowledges it
    during T1I, and offers the restart to inject. */
module InterruptControl {
  import opened Bytes
  import opened Microcode
  import opened CpuCore

  const LEVELS: nat := 8
  const MAS: Byte := 0xD2
  const DMS: Byte := 0xF6
  const REI: Byte := 0x1F
  const OUT_17: Byte := 0x7F

  // line is the interrupt pin of the processor; acks are the eight acknowledge lines.
  datatype Controller = Controller(
    requested: seq<bool>,
    acks: seq<bool>,
    mask: Byte,
    enabled: bool,
    pendingOut17: bool,
    applying: bool,
    current: nat,
    watchdogOn: bool,
    protection: nat,
    line: bool)

  predicate ValidController(c: Controller) {
    |c.requested| == |c.acks| == LEVELS && c.current < LEVELS
  }

  function Bit(x: Byte, k: nat): bool
    requires k < 8
  {
    x / [1, 2, 4, 8, 16, 32, 64, 128][k] % 2 == 1
  }

  // The bits by their weights, the lowest first.
  lemma BitsAre(x: Byte)
    ensures Bit(x, 0) == (x % 2 == 1) && Bit(x, 1) == (x / 2 % 2 == 1) && Bit(x, 2) == (x / 4 % 2 == 1)
    ensures Bit(x, 3) == (x / 8 % 2 == 1) && Bit(x, 4) == (x / 16 % 2 == 1) && Bit(x, 5) == (x / 32 % 2 == 1)
    ensures Bit(x, 6) == (x / 64 % 2 == 1) && Bit(x, 7) == (x / 128 % 2 == 1)
  {
  }

  // Level 0 cannot be masked.
  predicate IsPending(c: Controller, k: nat)
    requires ValidController(c) && k < LEVELS
  {
    c.requested[k] && (k == 0 || Bit(c.mask, k))
  }

  // The first pending level from k on, or the number of levels.
  function LowestFrom(c: Controller, k: nat): (level: nat)
    requires ValidController(c) && k <= LEVELS
    ensures k <= level <= LEVELS
    ensures level < LEVELS ==> IsPending(c, level)
    ensures forall j :: k <= j < level ==> !IsPending(c, j)
    decreases LEVELS - k
  {
    if k == LEVELS || IsPending(c, k) then k else LowestFrom(c, k + 1)
  }

  function Lowest(c: Controller): nat
    requires ValidController(c)
  {
    LowestFrom(c, 0)
  }

  function Latched(c: Controller, lines: seq<bool>): (r: Controller)
    requires ValidController(c) && |lines| == LEVELS
    ensures ValidController(r)
  {
    c.(requested := seq(LEVELS, k requires 0 <= k < LEVELS => c.requested[k] || lines[k]))
  }

  // A rise of phase 1: the requests are latched, and the lowest one may be dispatched.
  function AfterPhase1(c: Controller, lines: seq<bool>): (r: Controller)
    requires ValidController(c) && |lines| == LEVELS
    ensures ValidController(r)
  {
    if c.protection > 0 then c
    else
      var c1 := Latched(c, lines);
      var level := Lowest(c1);
      if c1.applying || level == LEVELS || (!c1.enabled && level != 0) then c1
      else c1.(applying := true, current := level, line := true)
  }

  function AfterState(c: Controller, previous: TState, state: TState): (r: Controller)
    requires ValidController(c)
    ensures ValidController(r)
  {
    var c1 := if state.T1I? then
                var acknowledged := if c.applying then c.(line := false, acks := c.acks[c.current := true]) else c;
                acknowledged.(protection := 1)
              else if previous.T1I? && c.applying then c.(acks := c.acks[c.current := false], applying := false)
              else c;
    if state.T1? && c1.protection > 0 then c1.(protection := c1.protection - 1) else c1
  }

  // On the rise of T'3, what the controller recognises in the fetched instruction.
  function AfterT3Prime(c: Controller, cc: CycleControl, md: Byte): (r: Controller)
    ensures ValidController(c) ==> ValidController(r)
  {
    if !cc.PCI? then c
    else if md == MAS then c.(enabled := false)
    else if md == DMS || md == REI then c.(enabled := true)
    else if md == OUT_17 then c.(pendingOut17 := true)
    else c
  }

  function AfterSync(c: Controller, t2: bool, t3: bool, data: Byte): (r: Controller)
    ensures ValidController(c) ==> ValidController(r)
  {
    if t2 || t3 || !c.pendingOut17 then c
    else c.(mask := data, watchdogOn := data % 2 == 0, pendingOut17 := false)
  }

  function Injected(level: nat): Byte
    requires level < LEVELS
  {
    0x05 + level * 8
  }

  function Reset(c: Controller, level: nat): (r: Controller)
    requires ValidController(c) && level < LEVELS
    ensures ValidController(r)
  {
    c.(requested := c.requested[level := false])
  }

  // The processor card asks for a byte to jam, in T3 of an interrupt cycle.
  function Offer(c: Controller): (Option<Byte>, Controller)
    requires ValidController(c)
  {
    var level := Lowest(c);
    if level == LEVELS then (None, c) else (Some(Injected(level)), Reset(c, level))
  }

  class InterruptController {
    const requestedInterrupts: array<bool>
    const acknowledgeLines: array<bool>
    var enabledInterruptsMask: Byte
    var interruptionAreEnabled: bool
    var pendingOut17: bool
    var applyingInterrupt: bool
    var currentInterrupt: nat
    var watchdogOn: bool
    var instructionProtection: nat
    var interruptLine: bool

    ghost predicate Valid()
      reads this
    {
      && requestedInterrupts.Length == acknowledgeLines.Length == LEVELS && requestedInterrupts != acknowledgeLines
      && currentInterrupt < LEVELS
    }

    ghost function Value(): (c: Controller)
      requires Valid()
      reads this, requestedInterrupts, acknowledgeLines
      ensures ValidController(c)
    {
      Controller(requestedInterrupts[..], acknowledgeLines[..], enabledInterruptsMask, interruptionAreEnabled,
                 pendingOut17, applyingInterrupt, currentInterrupt, watchdogOn, instructionProtection, interruptLine)
    }

    constructor ()
      ensures Valid() && fresh(requestedInterrupts) && fresh(acknowledgeLines)
      ensures Value().requested == Value().acks == seq(LEVELS, _ => false) && !applyingInterrupt && !interruptLine
    {
      requestedInterrupts := new bool[LEVELS](_ => false);
      acknowledgeLines := new bool[LEVELS](_ => false);
      enabledInterruptsMask, interruptionAreEnabled, pendingOut17, applyingInterrupt := 0, false, false, false;
      currentInterrupt, watchdogOn, instructionProtection, interruptLine := 0, false, 0, false;
    }

    method GetMaskedRequested() returns (masked: array<bool>)
      requires Valid()
      ensures fresh(masked) && masked.Length == LEVELS
      ensures forall k :: 0 <= k < LEVELS ==> masked[k] == IsPending(Value(), k)
    {
      masked := new bool[LEVELS](_ => false);
      masked[0] := requestedInterrupts[0];
      for level := 1 to LEVELS
        invariant forall k :: 0 <= k < level ==> masked[k] == IsPending(Value(), k)
      {
        masked[level] := requestedInterrupts[level] && Bit(enabledInterruptsMask, level);
      }
    }

    method LowestLevelInterrupt() returns (level: nat)
      requires Valid()
      ensures level == Lowest(Value())
    {
      var masked := GetMaskedRequested();
      level := 0;
      while level < LEVELS && !masked[level]
        invariant level <= LEVELS && LowestFrom(Value(), level) == Lowest(Value())
        invariant forall k :: 0 <= k < LEVELS ==> masked[k] == IsPending(Value(), k)
      {
        level := level + 1;
      }
    }

    method OnPhase1(rising: bool, lines: seq<bool>)
      requires Valid() && |lines| == LEVELS
      modifies this, requestedInterrupts
      ensures Valid() && Value() == if rising then AfterPhase1(old(Value()), lines) else old(Value())
    {
      if rising && instructionProtection == 0 {
        for level := 0 to LEVELS
          invariant forall k :: 0 <= k < level ==> requestedInterrupts[k] == (old(requestedInterrupts[k]) || lines[k])
          invariant forall k :: level <= k < LEVELS ==> requestedInterrupts[k] == old(requestedInterrupts[k])
          modifies requestedInterrupts
        {
          requestedInterrupts[level] := requestedInterrupts[level] || lines[level];
        }
        assert requestedInterrupts[..] == Latched(old(Value()), lines).requested;
        assert Value() == Latched(old(Value()), lines);
        if !applyingInterrupt {
          var interruptLevel := LowestLevelInterrupt();
          if interruptLevel < LEVELS && (interruptionAreEnabled || interruptLevel == 0) {
            applyingInterrupt := true;
            currentInterrupt := interruptLevel;
            interruptLine := true;
          }
        }
      }
    }

    method CpuStateChanged(previous: TState, state: TState)
      requires Valid()
      modifies this, acknowledgeLines
      ensures Valid() && Value() == AfterState(old(Value()), previous, state)
    {
      if state == T1I {
        if applyingInterrupt {
          interruptLine := false;
          acknowledgeLines[currentInterrupt] := true;
        }
        instructionProtection := 1;
      } else if previous == T1I {
        if applyingInterrupt {
          acknowledgeLines[currentInterrupt] := false;
          applyingInterrupt := false;
        }
      }
      if state == T1 && instructionProtection > 0 {
        instructionProtection := instructionProtection - 1;
      }
    }

    method OnT3Prime(rising: bool, cc: CycleControl, md: Byte)
      requires Valid()
      modifies this`interruptionAreEnabled, this`pendingOut17
      ensures Valid() && Value() == if rising then AfterT3Prime(old(Value()), cc, md) else old(Value())
    {
      if rising && cc == PCI {
        if md == MAS {
          interruptionAreEnabled := false;
        } else if md == DMS || md == REI {
          interruptionAreEnabled := true;
        } else if md == OUT_17 {
          pendingOut17 := true;
        }
      }
    }

    method OnSync(falling: bool, t2: bool, t3: bool, data: Byte)
      requires Valid()
      modifies this`enabledInterruptsMask, this`watchdogOn, this`pendingOut17
      ensures Valid() && Value() == if falling then AfterSync(old(Value()), t2, t3, data) else old(Value())
    {
      if falling && !t2 && !t3 && pendingOut17 {
        enabledInterruptsMask := data;
        watchdogOn := data % 2 != 1;
        pendingOut17 := false;
      }
    }

    // What the processor card does with the controller in T3 of an interrupt cycle.
    method Inject() returns (instruction: Option<Byte>)
      requires Valid()
      modifies requestedInterrupts
      ensures Valid() && (instruction, Value()) == Offer(old(Value()))
    {
      var level := LowestLevelInterrupt();
      if level == LEVELS {
        instruction := None;
      } else {
        instruction := Some(0x05 + level * 8);
        requestedInterrupts[level] := false;
      }
    }
  }
}
