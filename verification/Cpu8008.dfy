/** The processor object: the methods that update its fields, each against its effect on the value. */
module Cpu8008 {
  import opened Bytes
  import opened Microcode
  import opened CpuCore
  import opened CpuTiming
  import opened Wires
  import AddressStacks

  class CPU8008 {
    const addressStack: AddressStacks.AddressStack
    const scratchPadMemory: array<Byte>
    const flags: array<Byte>
    var hiddenA: Byte
    var hiddenB: Byte
    var ioDataLatch: Byte
    var cycleControl: CycleControl
    var nextCycleControl: CycleControl
    var memoryCycle: nat
    var isFirstPhaseCycle: bool
    var interruptPending: bool
    var cycleEnded: bool
    var state: TState                     // output_pins.state
    var nextEvents: seq<Event>
    var nextActivationTime: Option<nat>
    var decodedInstruction: Option<Decoded>
    var assertionFailed: bool

    ghost predicate Valid()
      reads this, scratchPadMemory, flags, addressStack, addressStack.stack
    {
      && addressStack.Valid()
      && scratchPadMemory.Length == 7 && flags.Length == 4 && scratchPadMemory != flags
      && flags[CARRY] <= 1
    }

    ghost function CoreValue(): (c: Core)
      requires Valid()
      reads this, scratchPadMemory, flags, addressStack, addressStack.stack
      ensures CpuCore.Valid(c)
    {
      Core(state, cycleControl, nextCycleControl, memoryCycle, cycleEnded, scratchPadMemory[..], flags[..],
           hiddenA, hiddenB, ioDataLatch, decodedInstruction, addressStack.Value(), assertionFailed)
    }

    ghost function Value(): (c: Cpu)
      requires Valid()
      reads this, scratchPadMemory, flags, addressStack, addressStack.stack
      ensures CpuTiming.Valid(c)
    {
      Cpu(CoreValue(), interruptPending, isFirstPhaseCycle, nextEvents, nextActivationTime)
    }

    // The content of the registers and of the program counters at power on is whatever it is.
    constructor ()
      ensures Valid() && fresh(scratchPadMemory) && fresh(flags) && fresh(addressStack) && fresh(addressStack.stack)
      ensures CoreValue().state == STOPPED && CoreValue().cycleControl == PCI && !CoreValue().faulted
      ensures CoreValue().decoded.None? && flags[..] == [0, 0, 0, 0]
      ensures isFirstPhaseCycle && !interruptPending && nextEvents == []
    {
      addressStack := new AddressStacks.AddressStack();
      scratchPadMemory := new Byte[7](_ => 0);
      flags := new Byte[4](_ => 0);
      hiddenA, hiddenB, ioDataLatch := 0, 0, 0;
      cycleControl, nextCycleControl, memoryCycle := PCI, PCI, 0;
      isFirstPhaseCycle, interruptPending, cycleEnded := true, false, false;
      state, nextEvents, nextActivationTime := STOPPED, [], Some(0);
      decodedInstruction, assertionFailed := None, false;
    }

    method UpdateMemoryCycle()
      requires Valid()
      modifies this`memoryCycle
      ensures Valid() && CoreValue() == CpuCore.UpdateMemoryCycle(old(CoreValue()))
    {
      if cycleControl == PCI {
        memoryCycle := 0;
      } else {
        memoryCycle := memoryCycle + 1;
      }
    }

    method EndsCycle(newCycleControl: CycleControl)
      requires Valid()
      modifies this`cycleEnded, this`nextCycleControl
      ensures Valid() && CoreValue() == CpuCore.EndsCycle(old(CoreValue()), newCycleControl)
    {
      cycleEnded := true;
      nextCycleControl := newCycleControl;
    }

    method ExecuteCommonT1IT1()
      requires Valid()
      modifies this`ioDataLatch, this`assertionFailed, addressStack, addressStack.stack
      ensures Valid() && CoreValue() == ExecuteT1Common(old(CoreValue()))
    {
      if decodedInstruction == None {
        assertionFailed := true;
        return;
      }
      var instruction := Row(decodedInstruction.value.name);
      var action := if memoryCycle == 1 then instruction.cycle2.t1 else instruction.cycle3.t1;
      match action {
        case Out_Reg_L => ioDataLatch := scratchPadMemory[REG_L];
        case Out_PC_L => ioDataLatch := addressStack.GetLowPcAndInc();
        case Out_Reg_A => ioDataLatch := scratchPadMemory[REG_A];
      }
    }

    method ExecuteT1I()
      requires Valid()
      modifies this`memoryCycle, this`ioDataLatch, this`assertionFailed, addressStack, addressStack.stack
      ensures Valid() && CoreValue() == CpuCore.ExecuteT1I(old(CoreValue()))
    {
      UpdateMemoryCycle();
      if cycleControl == PCI {
        ioDataLatch := addressStack.GetLowPcNoInc();
      } else {
        ExecuteCommonT1IT1();
      }
    }

    method ExecuteT1()
      requires Valid()
      modifies this`memoryCycle, this`ioDataLatch, this`assertionFailed, addressStack, addressStack.stack
      ensures Valid() && CoreValue() == CpuCore.ExecuteT1(old(CoreValue()))
    {
      UpdateMemoryCycle();
      if cycleControl == PCI {
        assert memoryCycle == 0;
        ioDataLatch := addressStack.GetLowPcAndInc();
      } else {
        ExecuteCommonT1IT1();
      }
    }

    method ExecuteT2()
      requires Valid()
      modifies this`ioDataLatch, this`assertionFailed
      ensures Valid() && CoreValue() == CpuCore.ExecuteT2(old(CoreValue()))
    {
      hide Row;
      if cycleControl == PCI {
        if memoryCycle != 0 {
          assertionFailed := true;
        } else {
          ioDataLatch := addressStack.GetHighPc();
        }
      } else if decodedInstruction == None {
        assertionFailed := true;
      } else {
        var instruction := Row(decodedInstruction.value.name);
        var action := if memoryCycle == 1 then instruction.cycle2.t2 else instruction.cycle3.t2;
        match action {
          case Out_Reg_H => ioDataLatch := scratchPadMemory[REG_H];
          case Out_PC_H => ioDataLatch := addressStack.GetHighPc();
          case Out_Reg_b_At_T2 => ioDataLatch := hiddenB;
        }
      }
    }

    method ChecksCycleEnd(action: Byte)
      requires Valid()
      modifies this`cycleEnded, this`nextCycleControl, this`assertionFailed
      ensures Valid() && CoreValue() == CpuCore.ChecksCycleEnd(old(CoreValue()), action)
    {
      cycleEnded := HasCycleEnd(action);
      if cycleEnded {
        var name := if decodedInstruction.Some? then decodedInstruction.value.name else UNKNOWN;
        if memoryCycle == 0 {
          EndsCycle(Row(name).cycle2.cc);
        } else if memoryCycle == 1 {
          EndsCycle(Row(name).cycle3.cc);
        } else if memoryCycle == 2 {
          EndsCycle(PCI);
        } else {
          assertionFailed := true;
        }
      }
    }

    method ChecksConditionalCycleEnd(action: Byte)
      requires Valid()
      modifies this`cycleEnded, this`nextCycleControl
      ensures Valid() && CoreValue() == CpuCore.ChecksConditionalCycleEnd(old(CoreValue()), action)
    {
      if HasConditionalEnd(action) {
        var medium := if decodedInstruction.Some? then decodedInstruction.value.medium else 0;
        var conditionVerified := flags[medium % 4] != 0;
        if medium / 4 % 2 == 0 {
          conditionVerified := !conditionVerified;
        }
        if !conditionVerified {
          EndsCycle(PCI);
        }
      }
    }

    // The switch of execute_t3.
    method PerformT3(kind: Byte, data: Byte)
      requires Valid()
      modifies this`hiddenA, this`hiddenB, this`ioDataLatch, this`assertionFailed
      ensures Valid() && CoreValue() == T3Effect(old(CoreValue()), kind, data)
    {
      if kind == FETCH_DATA_TO_REG_B {
        hiddenB := data;
      } else if kind == FETCH_DATA_TO_REG_A {
        hiddenA := data;
      } else if kind == OUT_REG_B {
        if cycleControl != PCW {
          assertionFailed := true;
        } else {
          ioDataLatch := hiddenB;
        }
      } else if kind == FETCH_IR_AND_REG_B || kind == HALT {
        assertionFailed := true;
      }
    }

    // The instruction arrives.
    method FetchInstruction(data: Byte)
      requires Valid() && cycleControl == PCI
      modifies this`hiddenA, this`hiddenB, this`ioDataLatch, this`decodedInstruction, this`cycleEnded,
               this`nextCycleControl, this`assertionFailed
      ensures Valid() && CoreValue() == CpuCore.ExecuteT3(old(CoreValue()), data)
    {
      hide Row, Decode, CpuCore.ChecksCycleEnd, CpuCore.ChecksConditionalCycleEnd, T3Effect;
      hiddenA := 0;
      hiddenB := data;
      var decoded := DecodeInstruction(hiddenB);
      decodedInstruction := Some(decoded);
      var action := Row(decoded.name).cycle1.t3;
      if memoryCycle != 0 || action % 2 != FETCH_IR_AND_REG_B {
        assertionFailed := true;
      } else {
        ChecksCycleEnd(action);
        ChecksConditionalCycleEnd(action);
      }
    }

    method ExecuteT3(data: Byte)
      requires Valid()
      modifies this`hiddenA, this`hiddenB, this`ioDataLatch, this`decodedInstruction, this`cycleEnded,
               this`nextCycleControl, this`assertionFailed
      ensures Valid() && CoreValue() == CpuCore.ExecuteT3(old(CoreValue()), data)
    {
      hide Row, Decode, CpuCore.ChecksCycleEnd, CpuCore.ChecksConditionalCycleEnd, Masked, T3Effect;
      if cycleControl == PCI {
        FetchInstruction(data);
      } else {
        if decodedInstruction == None || memoryCycle == 0 {
          assertionFailed := true;
        } else {
          var instruction := Row(decodedInstruction.value.name);
          var action := if memoryCycle == 1 then instruction.cycle2.t3 else instruction.cycle3.t3;
          PerformT3(Masked(action), data);
          ChecksCycleEnd(action);
          ChecksConditionalCycleEnd(action);
        }
      }
    }

    method ExecuteT4()
      requires Valid()
      modifies this`hiddenB, this`ioDataLatch, this`cycleEnded, this`nextCycleControl, this`assertionFailed,
               addressStack, addressStack.stack
      ensures Valid() && CoreValue() == CpuCore.ExecuteT4(old(CoreValue()))
    {
      hide Row, CpuCore.ChecksCycleEnd, Masked, PackedFlags;
      if decodedInstruction == None {
        assertionFailed := true;
        return;
      }
      var instruction := Row(decodedInstruction.value.name);
      var action := if memoryCycle == 0 then instruction.cycle1.t4
                    else if memoryCycle == 1 then instruction.cycle2.t4
                    else instruction.cycle3.t4;
      PerformT4(Masked(action));
      ChecksCycleEnd(action);
    }

    // The switch of execute_t4.
    method PerformT4(kind: Byte)
      requires Valid()
      modifies this`hiddenB, this`ioDataLatch, this`assertionFailed, addressStack, addressStack.stack
      ensures Valid() && CoreValue() == T4Effect(old(CoreValue()), kind)
    {
      if kind == SOURCE_TO_REG_B {
        var sourceRegister := if decodedInstruction.Some? then decodedInstruction.value.low else 0;
        if sourceRegister >= 7 {
          assertionFailed := true;
        } else {
          hiddenB := scratchPadMemory[sourceRegister];
        }
      } else if kind == REG_A_TO_PC_H {
        if cycleControl != PCR {
          assertionFailed := true;
        } else {
          addressStack.SetHighPc(hiddenA);
        }
      } else if kind == PUSH_AND_REG_A_TO_PC_H {
        if cycleControl != PCR && cycleControl != PCI {
          assertionFailed := true;
        } else {
          addressStack.Push();
          addressStack.SetHighPc(hiddenA);
        }
      } else if kind == POP_STACK {
        addressStack.Pop();
      } else if kind == OUT_CONDITIONS_FLAGS {
        if cycleControl != PCC {
          assertionFailed := true;
        } else {
          ioDataLatch := BitOr(BitOr(flags[SIGN], Wrap(flags[ZERO] as int * 2)),
                               BitOr(Wrap(flags[PARITY] as int * 4), Wrap(flags[CARRY] as int * 8)));
        }
      }
    }

    // The parity is found by counting the bits of the result.
    method UpdateFlags(reg: Byte)
      requires Valid()
      modifies flags
      ensures Valid() && flags[..] == UpdatedFlags(old(flags[..]), reg)
    {
      flags[ZERO] := if reg == 0 then 1 else 0;
      flags[SIGN] := reg / 128 * 128;
      var bitCount: nat, shift: nat := 0, reg;
      for i := 0 to 8
        invariant bitCount + Ones(shift) == Ones(reg)
        invariant 0 <= shift < Power(8 - i)
      {
        bitCount := bitCount + shift % 2;
        shift := shift / 2;
      }
      flags[PARITY] := if bitCount % 2 == 0 then 1 else 0;
    }

    method SetA(value: Byte)
      requires Valid()
      modifies scratchPadMemory
      ensures Valid() && scratchPadMemory[..] == old(scratchPadMemory[..])[REG_A := value]
    {
      scratchPadMemory[REG_A] := value;
    }

    // The sums and the differences of the arithmetic unit, in wider integers than the registers.

    method Add(addend: nat)
      requires Valid()
      modifies scratchPadMemory, flags
      ensures Valid() && CoreValue() == Added(old(CoreValue()), old(scratchPadMemory[REG_A]) + addend)
    {
      var intermediate: nat := scratchPadMemory[REG_A] + addend;
      flags[CARRY] := intermediate / 256 % 2;
      SetA(intermediate % 256);
      UpdateFlags(scratchPadMemory[REG_A]);
    }

    method Subtract(subtrahend: nat)
      requires Valid()
      modifies scratchPadMemory, flags
      ensures Valid() && CoreValue() == Subtracted(old(CoreValue()), old(scratchPadMemory[REG_A]) - subtrahend)
    {
      var intermediate: int := scratchPadMemory[REG_A] - subtrahend;
      flags[CARRY] := if intermediate < 0 then 1 else 0;
      SetA(Wrap(intermediate));
      UpdateFlags(scratchPadMemory[REG_A]);
    }

    method Combine(result: Byte)
      requires Valid()
      modifies scratchPadMemory, flags
      ensures Valid() && CoreValue() == Combined(old(CoreValue()), result)
    {
      SetA(result);
      UpdateFlags(scratchPadMemory[REG_A]);
      flags[CARRY] := 0;
    }

    method PerformAlu()
      requires Valid()
      modifies this`assertionFailed, scratchPadMemory, flags
      ensures Valid() && CoreValue() == AluOperation(old(CoreValue()))
    {
      hide Added, Subtracted, Combined, UpdatedFlags, BitAnd, BitOr, BitXor;
      var operation := if decodedInstruction.Some? then decodedInstruction.value.medium else 0;
      var a: int := scratchPadMemory[REG_A];
      var carry := if flags[CARRY] != 0 then 1 else 0;
      match operation {
        case 0 => Add(hiddenB);
        case 1 => Add(hiddenB + carry);
        case 2 => Subtract(hiddenB);
        case 3 => Subtract(hiddenB + carry);
        case 4 => Combine(BitAnd(a, hiddenB));
        case 5 => Combine(BitXor(a, hiddenB));
        case 6 => Combine(BitOr(a, hiddenB));
        case 7 =>
          flags[CARRY] := if a - hiddenB < 0 then 1 else 0;
          UpdateFlags(Wrap(a - hiddenB));
        case _ => assertionFailed := true;
      }
    }

    // The carry and the accumulator after a rotation.
    method Rotate(carry: Byte, value: Byte)
      requires Valid() && carry <= 1
      modifies scratchPadMemory, flags
      ensures Valid() && CoreValue() == SetRegister(SetCarry(old(CoreValue()), carry), REG_A, value)
    {
      flags[CARRY] := carry;
      SetA(value);
    }

    method PerformRotation()
      requires Valid()
      modifies scratchPadMemory, flags
      ensures Valid() && CoreValue() == RotateA(old(CoreValue()))
    {
      hide SetRegister, SetCarry;
      var operation := if decodedInstruction.Some? then decodedInstruction.value.medium % 4 else 0;
      var a: int := scratchPadMemory[REG_A];
      var previousCarry: int := flags[CARRY];
      match operation {
        case 0 => Rotate(a / 128, Wrap(a * 2) + (if a / 128 != 0 then 1 else 0));
        case 1 => Rotate(a % 2, a / 2 + (if a % 2 != 0 then 128 else 0));
        case 2 => Rotate(a / 128, Wrap(a * 2) + previousCarry % 2);
        case _ => Rotate(a % 2, a / 2 + (if previousCarry != 0 then 128 else 0));
      }
    }

    method PerformStep(delta: int)
      requires Valid()
      modifies this`assertionFailed, scratchPadMemory, flags
      ensures Valid() && CoreValue() == StepRegister(old(CoreValue()), delta)
    {
      var destinationRegister := if decodedInstruction.Some? then decodedInstruction.value.medium else 0;
      if destinationRegister == 0 || destinationRegister == 111 || destinationRegister >= 7 {
        assertionFailed := true;
      } else {
        scratchPadMemory[destinationRegister] := Wrap(scratchPadMemory[destinationRegister] as int + delta);
        UpdateFlags(scratchPadMemory[destinationRegister]);
      }
    }

    // The switch of execute_t5.
    method PerformT5(kind: Byte)
      requires Valid()
      modifies this`assertionFailed, scratchPadMemory, flags, addressStack.stack
      ensures Valid() && CoreValue() == T5Effect(old(CoreValue()), kind)
    {
      hide AluOperation, RotateA, StepRegister;
      var destinationRegister := if decodedInstruction.Some? then decodedInstruction.value.medium else 0;
      if kind == REG_B_TO_DESTINATION {
        if destinationRegister >= 7 {
          assertionFailed := true;
        } else {
          scratchPadMemory[destinationRegister] := hiddenB;
        }
      } else if kind == INC_DESTINATION {
        PerformStep(1);
      } else if kind == DEC_DESTINATION {
        PerformStep(-1);
      } else if kind == ALU_OPERATION_WITH_REG_B {
        PerformAlu();
      } else if kind == ROTATE_A {
        PerformRotation();
      } else if kind == REG_B_TO_PC_L {
        addressStack.SetLowPc(hiddenB);
      } else if kind == REG_B_TO_PC_L_3_TO_5 {
        addressStack.SetLowPc(Wrap(destinationRegister * 8));
      } else if kind == REG_B_TO_A {
        SetA(hiddenB);
      }
    }

    method ExecuteT5()
      requires Valid()
      modifies this`cycleEnded, this`assertionFailed, scratchPadMemory, flags, addressStack.stack
      ensures Valid() && CoreValue() == CpuCore.ExecuteT5(old(CoreValue()))
    {
      hide Row, T5Effect, Masked;
      if decodedInstruction == None {
        assertionFailed := true;
        return;
      }
      var instruction := Row(decodedInstruction.value.name);
      var action := if memoryCycle == 0 then instruction.cycle1.t5
                    else if memoryCycle == 1 then instruction.cycle2.t5
                    else instruction.cycle3.t5;
      PerformT5(Masked(action));
      cycleEnded := true;
    }

    method PushEvent(e: Event)
      requires Valid()
      modifies this`nextEvents
      ensures Valid() && Value() == Push(old(Value()), e)
    {
      nextEvents := Insert(nextEvents, e);
    }

    method EnterInterrupt(edgeTime: nat)
      requires Valid()
      modifies this`interruptPending, this`nextEvents
      ensures Valid() && Value() == Push(old(Value()).(interruptPending := false), Change(edgeTime + 25, T1I))
    {
      interruptPending := false;
      PushEvent(Change(edgeTime + 25, T1I));
    }

    // At the end of an instruction a waiting interrupt comes before the next one.
    method StartNextCycle(edgeTime: nat, instructionComplete: bool)
      requires Valid()
      modifies this`interruptPending, this`nextEvents
      ensures Valid()
      ensures var interrupted := instructionComplete && old(interruptPending);
              Value() == Push(old(Value()).(interruptPending := old(interruptPending) && !interrupted),
                              Change(edgeTime + 25, if interrupted then T1I else T1))
    {
      if instructionComplete && interruptPending {
        EnterInterrupt(edgeTime);
      } else {
        PushEvent(Change(edgeTime + 25, T1));
      }
    }

    method LeaveT3(edgeTime: nat, ready: bool)
      requires Valid() && state == T3
      modifies this`interruptPending, this`nextEvents, this`cycleControl, this`assertionFailed
      ensures Valid() && Value() == ScheduleChangeState(old(Value()), edgeTime, ready)
    {
      hide Insert;
      if !cycleEnded {
        PushEvent(Change(edgeTime + 25, T4));
      } else if decodedInstruction == None {
        assertionFailed := true;
      } else if decodedInstruction.value.name == HLT {
        cycleControl := PCI;
        PushEvent(Change(edgeTime + 25, STOPPED));
      } else {
        StartNextCycle(edgeTime, nextCycleControl == PCI);
        cycleControl := nextCycleControl;
      }
    }

    method LeaveT4(edgeTime: nat, ready: bool)
      requires Valid() && state == T4
      modifies this`interruptPending, this`nextEvents, this`cycleControl
      ensures Valid() && Value() == ScheduleChangeState(old(Value()), edgeTime, ready)
    {
      hide Insert;
      if cycleEnded {
        StartNextCycle(edgeTime, nextCycleControl == PCI);
        cycleControl := nextCycleControl;
      } else {
        PushEvent(Change(edgeTime + 25, T5));
      }
    }

    method LeaveT5(edgeTime: nat, ready: bool)
      requires Valid() && state == T5
      modifies this`interruptPending, this`nextEvents, this`cycleControl, this`assertionFailed
      ensures Valid() && Value() == ScheduleChangeState(old(Value()), edgeTime, ready)
    {
      hide Insert;
      if !cycleEnded {
        assertionFailed := true;
      } else {
        StartNextCycle(edgeTime, true);
        cycleControl := PCI;
      }
    }

    method ScheduleChangeCpuState(edgeTime: nat, ready: bool)
      requires Valid()
      modifies this`interruptPending, this`nextEvents, this`cycleControl, this`assertionFailed
      ensures Valid() && Value() == ScheduleChangeState(old(Value()), edgeTime, ready)
    {
      hide Insert;
      match state {
        case STOPPED =>
          if interruptPending {
            EnterInterrupt(edgeTime);
          }
        case WAIT =>
          if ready {
            PushEvent(Change(edgeTime + 25, T3));
          }
        case T1 => PushEvent(Change(edgeTime + 25, T2));
        case T1I => PushEvent(Change(edgeTime + 25, T2));
        case T2 => PushEvent(Change(edgeTime + 25, if ready then T3 else WAIT));
        case T3 => LeaveT3(edgeTime, ready);
        case T4 => LeaveT4(edgeTime, ready);
        case T5 => LeaveT5(edgeTime, ready);
      }
    }

    method ScheduleNextEvent(edgeTime: nat)
      requires Valid()
      modifies this`nextActivationTime
      ensures Valid() && Value() == CpuTiming.ScheduleNextEvent(old(Value()), edgeTime)
    {
      if nextEvents == [] {
        nextActivationTime := Some(edgeTime);
      } else {
        nextActivationTime := Some(nextEvents[0].time);
      }
    }

    method SignalPhase1(rising: bool, edgeTime: nat, ready: bool)
      requires Valid()
      modifies this`interruptPending, this`nextEvents, this`cycleControl, this`assertionFailed, this`nextActivationTime
      ensures Valid() && Value() == CpuTiming.SignalPhase1(old(Value()), rising, edgeTime, ready)
    {
      hide Insert, ScheduleChangeState;
      if rising {
        if isFirstPhaseCycle {
          PushEvent(Sync(edgeTime + 20, true));
          ScheduleChangeCpuState(edgeTime, ready);
        } else {
          PushEvent(Sync(edgeTime + 20, false));
        }
      }
      ScheduleNextEvent(edgeTime);
    }

    method OnSignal21Raising(edgeTime: nat)
      requires Valid()
      modifies this`nextEvents
      ensures Valid() && Value() == On21Raising(old(Value()), edgeTime)
    {
      hide Insert;
      if state == T1I || state == T1 || state == T2 {
        PushEvent(DataOut(edgeTime + 20, true));
      } else if state == T4 && cycleControl == PCC {
        PushEvent(DataOut(edgeTime + 20, true));
      }
    }

    method OnSignal21Falling(edgeTime: nat)
      requires Valid()
      modifies this`nextEvents
      ensures Valid() && Value() == On21Falling(old(Value()), edgeTime)
    {
      hide Insert;
      if state == T3 && (cycleControl == PCI || cycleControl == PCR || cycleControl == PCC) {
        PushEvent(DataIn(edgeTime + 100));
      }
    }

    method OnSignal22Falling(edgeTime: nat)
      requires Valid()
      modifies this`nextEvents
      ensures Valid() && Value() == On22Falling(old(Value()), edgeTime)
    {
      hide Insert;
      if state == T1I || state == T1 || state == T2 {
        PushEvent(DataOut(edgeTime + 100 + 20, false));
      } else if state == T3 && cycleControl == PCW {
        PushEvent(DataOut(edgeTime + 100 + 20, false));
      } else if state == T4 && cycleControl == PCC {
        PushEvent(DataOut(edgeTime + 20, false));
      }
    }

    method SignalPhase2(rising: bool, edgeTime: nat)
      requires Valid()
      modifies this`nextEvents, this`isFirstPhaseCycle, this`nextActivationTime
      ensures Valid() && Value() == CpuTiming.SignalPhase2(old(Value()), rising, edgeTime)
    {
      hide On21Raising, On21Falling, On22Falling;
      if rising {
        if isFirstPhaseCycle {
          OnSignal21Raising(edgeTime);
        }
      } else {
        if isFirstPhaseCycle {
          OnSignal21Falling(edgeTime);
        } else {
          OnSignal22Falling(edgeTime);
        }
        isFirstPhaseCycle := !isFirstPhaseCycle;
      }
      ScheduleNextEvent(edgeTime);
    }

    method OnInterrupt(high: bool)
      requires Valid()
      modifies this`interruptPending
      ensures Valid() && Value() == old(Value()).(interruptPending := old(interruptPending) || high)
    {
      if high {
        interruptPending := true;
      }
    }

    // The processor enters a state, and does the work that does not wait for the data.
    method EnterNewState(newState: TState, data: Byte)
      requires Valid()
      modifies this`state, this`memoryCycle, this`hiddenA, this`hiddenB, this`ioDataLatch, this`decodedInstruction,
               this`cycleEnded, this`nextCycleControl, this`assertionFailed,
               scratchPadMemory, flags, addressStack, addressStack.stack
      ensures Valid() && CoreValue() == EnterState(old(CoreValue()), newState, data)
    {
      hide CpuCore.ExecuteT1I, CpuCore.ExecuteT1, CpuCore.ExecuteT2, CpuCore.ExecuteT3, CpuCore.ExecuteT4,
        CpuCore.ExecuteT5;
      state := newState;
      match newState {
        case T1I =>
          cycleEnded := false;
          ExecuteT1I();
        case T1 =>
          cycleEnded := false;
          ExecuteT1();
        case T2 => ExecuteT2();
        case WAIT =>
        case T3 =>
          if cycleControl == PCW {
            ExecuteT3(data);
          }
        case STOPPED =>
        case T4 => ExecuteT4();
        case T5 => ExecuteT5();
      }
    }

    method DriveDataPins(on: bool, dataPins: OwnedValue<Agent, Byte>) returns (thrown: bool)
      requires Valid()
      modifies dataPins
      ensures Valid() && Value() == old(Value())
      ensures var after := PinsAfter(old(CoreValue()), DataOut(0, on), old(dataPins.Value()));
              thrown == after.None? && (after.Some? ==> dataPins.Value() == after.value)
    {
      if on {
        var dataToSend := if state == T2 then ioDataLatch % 64 + cycleControl.Code() else ioDataLatch;
        thrown := dataPins.Request(Processor);
        if !thrown {
          thrown := dataPins.Change(dataToSend, Processor);
        }
      } else {
        thrown := dataPins.Release(Processor);
      }
    }

    method HandleEvent(event: Event, dataPins: OwnedValue<Agent, Byte>) returns (thrown: bool)
      requires Valid()
      modifies this, scratchPadMemory, flags, addressStack, addressStack.stack, dataPins
      ensures Valid() && Value() == Handle(old(Value()), event, old(dataPins.value))
      ensures var after := PinsAfter(old(CoreValue()), event, old(dataPins.Value()));
              thrown == after.None? && (after.Some? ==> dataPins.Value() == after.value)
    {
      hide EnterState, CpuCore.ExecuteT3, Insert, Driven, Requested, Released, Set;
      thrown := false;
      match event {
        case Sync(_, _) =>
        case Change(time, newState) =>
          EnterNewState(newState, dataPins.value);
          if state == T3 && cycleControl == PCW {
            PushEvent(DataOut(time + 20, true));
          }
        case DataOut(_, on) => thrown := DriveDataPins(on, dataPins);
        case DataIn(_) => ExecuteT3(dataPins.value);
      }
    }

    // One step of the scheduler: the first event, if any.
    method Step(dataPins: OwnedValue<Agent, Byte>) returns (thrown: bool)
      requires Valid()
      modifies this, scratchPadMemory, flags, addressStack, addressStack.stack, dataPins
      ensures Valid()
      ensures var after := if old(nextEvents) == [] then Some(old(dataPins.Value()))
                           else PinsAfter(old(CoreValue()), old(nextEvents)[0], old(dataPins.Value()));
              thrown == after.None? && (after.Some? ==> dataPins.Value() == after.value)
      ensures Value() == if thrown then old(Value()).(queue := old(nextEvents)[1..])
                         else CpuTiming.Step(old(Value()), old(dataPins.value))
    {
      hide Handle, PinsAfter;
      thrown := false;
      if nextEvents != [] {
        var event := nextEvents[0];
        nextEvents := nextEvents[1..];
        if PinsAfter(CoreValue(), event, dataPins.Value()).None? {
          ThrowChangesNothing(Value(), event, dataPins.value, dataPins.Value());
        }
        thrown := HandleEvent(event, dataPins);
        if thrown {
          return;
        }
      }
      if nextEvents == [] {
        nextActivationTime := None;
      } else {
        nextActivationTime := Some(nextEvents[0].time);
      }
    }
  }

  // Only what concerns the pins throws, and that leaves the processor as it is.
  lemma ThrowChangesNothing(c: Cpu, e: Event, value: Byte, p: Pins)
    requires CpuTiming.Valid(c) && PinsAfter(c.core, e, p).None?
    ensures Handle(c, e, value) == c
  {
  }

  function Power(n: nat): nat {
    if n == 0 then 1 else 2 * Power(n - 1)
  }
}
