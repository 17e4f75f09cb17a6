/** The objects around the processor on its card: the clock, the address register, and the card itself,
    against what the timed run makes of them. */
module ProcessorCards {
  import opened Bytes
  import opened Microcode
  import opened CpuCore
  import opened CpuTiming
  import opened Wires
  import T = Timed

  // The clock: when it acts next, which of its four edges comes, and when phase 1 rises next.
  datatype Clock = Clock(edge: nat, phase: nat, nextPhase1: nat)

  function Ticked(c: Clock): Clock {
    match c.phase
    case 0 => Clock(c.edge + T.PULSE_WIDTH_PHASE_1, 1, c.edge + T.PERIOD)
    case 1 => Clock(c.edge + T.DELAY_FROM_PHASE_1_TO_2, 2, c.nextPhase1)
    case 2 => Clock(c.edge + T.PULSE_WIDTH_PHASE_2, 3, c.nextPhase1)
    case _ => Clock(c.nextPhase1, 0, c.nextPhase1)
  }

  lemma ClockTicks(w: T.World, input: T.Input)
    requires T.Consistent(w)
    ensures var r := T.TickClock(w, input);
            Clock(r.edge, r.phase, r.nextPhase1) == Ticked(Clock(w.edge, w.phase, w.nextPhase1))
  {
    hide SignalPhase1, SignalPhase2;
  }

  class DoubleClock {
    var nextActivationTime: nat
    var phaseCount: nat
    var nextPhase1: nat
    var phase1: bool
    var phase2: bool

    ghost predicate Valid()
      reads this
    {
      phaseCount < 4 && phase1 == (phaseCount == 1) && phase2 == (phaseCount == 3)
    }

    ghost function Value(): Clock
      reads this
    {
      Clock(nextActivationTime, phaseCount, nextPhase1)
    }

    constructor ()
      ensures Valid() && Value() == Clock(0, 0, 0)
    {
      nextActivationTime, phaseCount, nextPhase1, phase1, phase2 := 0, 0, 0, false, false;
    }

    method Step()
      requires Valid()
      modifies this
      ensures Valid() && Value() == Ticked(old(Value()))
    {
      match phaseCount {
        case 0 =>
          phase1 := true;
          nextPhase1 := nextActivationTime + T.PERIOD;
          nextActivationTime := nextActivationTime + T.PULSE_WIDTH_PHASE_1;
        case 1 =>
          phase1 := false;
          nextActivationTime := nextActivationTime + T.DELAY_FROM_PHASE_1_TO_2;
        case 2 =>
          phase2 := true;
          nextActivationTime := nextActivationTime + T.PULSE_WIDTH_PHASE_2;
        case _ =>
          phase2 := false;
          nextActivationTime := nextPhase1;
      }
      phaseCount := (phaseCount + 1) % 4;
    }
  }

  // A whole cycle of the clock: two pulses that do not overlap, then the period is over.
  lemma ClockCycle(c: Clock)
    requires c.phase == 0
    ensures Ticked(Ticked(Ticked(Ticked(c)))) == Clock(c.edge + T.PERIOD, 0, c.edge + T.PERIOD)
    ensures c.edge < Ticked(c).edge < Ticked(Ticked(c)).edge < Ticked(Ticked(Ticked(c))).edge < c.edge + T.PERIOD
  {
  }

  // What the register latches on a fall of SYNC.
  function Latched(address: nat, control: CycleControl, state: TState, dataPins: Byte): (nat, CycleControl) {
    if state.T1? || state.T1I? then (address / 256 * 256 + dataPins, control)
    else if state.T2? then (dataPins % 64 * 256 + address % 256, CycleControlOf(dataPins))
    else (address, control)
  }

  lemma RegisterLatches(w: T.World)
    requires T.Consistent(w)
    ensures var r := T.LatchOnSync(w);
            (r.address, r.control) == Latched(w.address, w.control, w.cpu.core.state, w.pins.value)
  {
    hide CycleControlOf;
  }

  class GeneralAddressRegister {
    var latchedAddress: nat
    var latchedCycleControl: CycleControl

    constructor ()
      ensures latchedAddress == 0 && latchedCycleControl == PCI
    {
      latchedAddress, latchedCycleControl := 0, PCI;
    }

    method OnSync(falling: bool, state: TState, dataPins: Byte)
      modifies this
      ensures (latchedAddress, latchedCycleControl)
           == if falling then Latched(old(latchedAddress), old(latchedCycleControl), state, dataPins)
              else (old(latchedAddress), old(latchedCycleControl))
    {
      if falling {
        if state == T1 || state == T1I {
          latchedAddress := latchedAddress - latchedAddress % 256;
          latchedAddress := latchedAddress + dataPins;
        } else if state == T2 {
          latchedAddress := latchedAddress % 256;
          latchedAddress := latchedAddress + dataPins % 64 * 256;
          latchedCycleControl := CycleControlOf(dataPins);
        }
      }
    }
  }

  // The pins and t1i_cycle after a fall of phase 2; no pins where the source throws.
  function Returned(state: TState, control: CycleControl, t1iCycle: bool, jammed: Option<Byte>, latch: Byte, pins: Pins)
    : (Option<Pins>, bool)
  {
    if state.T3? then
      if control.PCW? then (Some(pins), t1iCycle)
      else if Requested(pins, Card).None? then (None, t1iCycle)
      else
        var given: Byte := if t1iCycle && jammed.Some? then jammed.value else latch;
        (Some(Owned(None, given)), t1iCycle)
    else (Some(pins), state.T1I? || (t1iCycle && !state.T1?))
  }

  lemma CardReturns(w: T.World, jammed: Option<Byte>)
    requires !w.contended
    ensures var r := T.CardOnPhase2(w, jammed);
            var (pins, t1iCycle) := Returned(w.cpu.core.state, w.control, w.interruptCycle, jammed, w.latch, w.pins);
            && r.contended == pins.None? && r.interruptCycle == t1iCycle
            && (pins.Some? ==> r.pins == pins.value)
  {
  }

  class ProcessorCard {
    var t1iCycle: bool
    var emitT3PrimeOnNextStep: bool
    var nextActivationTime: Option<nat>

    constructor ()
      ensures !t1iCycle && !emitT3PrimeOnNextStep && nextActivationTime == None
    {
      t1iCycle, emitT3PrimeOnNextStep, nextActivationTime := false, false, None;
    }

    method CpuStateChanged(previous: TState, time: nat)
      modifies this`emitT3PrimeOnNextStep, this`nextActivationTime
      ensures nextActivationTime == if previous == T2 then Some(time + 500) else old(nextActivationTime)
      ensures emitT3PrimeOnNextStep == (previous == T2 || old(emitT3PrimeOnNextStep))
    {
      if previous == T2 {
        emitT3PrimeOnNextStep := true;
        nextActivationTime := Some(time + T.T3PRIME_DELAY);
      }
    }

    // T'3 rises.
    method Step()
      requires emitT3PrimeOnNextStep
      modifies this`emitT3PrimeOnNextStep, this`nextActivationTime
      ensures !emitT3PrimeOnNextStep && nextActivationTime == None
    {
      emitT3PrimeOnNextStep := false;
      nextActivationTime := None;
    }

    // On the fall of phase 2; latch is the byte on the data bus of the cards.
    method OnPhase2(falling: bool, state: TState, control: CycleControl, jammed: Option<Byte>, latch: Byte,
                    dataPins: OwnedValue<Agent, Byte>) returns (thrown: bool)
      modifies this`t1iCycle, dataPins
      ensures var (pins, cycle) :=
                if falling then Returned(state, control, old(t1iCycle), jammed, latch, old(dataPins.Value()))
                else (Some(old(dataPins.Value())), old(t1iCycle));
              thrown == pins.None? && t1iCycle == cycle && (!thrown ==> dataPins.Value() == pins.value)
    {
      thrown := false;
      if falling {
        if state == T3 {
          if control == PCI || control == PCR || control == PCC {
            thrown := dataPins.Request(Card);
            if !thrown {
              var instruction := if t1iCycle && jammed != None then jammed.value else latch;
              thrown := dataPins.Change(instruction, Card);
            }
            if !thrown {
              thrown := dataPins.Release(Card);
            }
          }
        } else if state == T1I {
          t1iCycle := true;
        } else if state == T1 {
          t1iCycle := false;
        }
      }
    }
  }
}
