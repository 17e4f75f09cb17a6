/** What an input instruction shows of the flags: the byte driven in its T4. */
module InputFlags {
  import opened Bytes
  import opened Microcode
  import opened CpuCore
  import opened BusMachine
  import opened AddressStacks
  import opened Runs
  import Isa

  // Carry, zero and parity are kept as 0 or 1, and the sign as 0 or 0x80.
  predicate Shaped(flags: seq<Byte>) {
    && |flags| == 4
    && flags[CARRY] <= 1 && flags[ZERO] <= 1 && flags[PARITY] <= 1 && flags[SIGN] in {0, 0x80}
  }

  lemma UpdateShapes(c: Core, x: Byte)
    requires CpuCore.Valid(c)
    ensures Shaped(UpdateFlags(c, x).flags)
  {
    hide Ones;
  }

  lemma ResultShapes(c: Core, x: int)
    requires CpuCore.Valid(c)
    ensures x >= 0 ==> Shaped(Added(c, x).flags)
    ensures Shaped(Subtracted(c, x).flags)
  {
    hide Ones;
  }

  lemma CombinedShapes(c: Core, x: Byte)
    requires CpuCore.Valid(c)
    ensures Shaped(Combined(c, x).flags)
  {
    hide Ones;
  }

  lemma AluShapes(c: Core)
    requires CpuCore.Valid(c) && Shaped(c.flags)
    ensures Shaped(AluOperation(c).flags)
  {
    hide Added, Subtracted, Combined, UpdateFlags, BitAnd, BitOr, BitXor, Wrap, Shaped;
    forall x: int
      ensures x >= 0 ==> Shaped(Added(c, x).flags)
      ensures Shaped(Subtracted(c, x).flags)
    {
      ResultShapes(c, x);
    }
    forall x: Byte
      ensures Shaped(Combined(c, x).flags)
      ensures Shaped(UpdateFlags(SetCarry(c, 0), x).flags) && Shaped(UpdateFlags(SetCarry(c, 1), x).flags)
    {
      CombinedShapes(c, x);
      UpdateShapes(SetCarry(c, 0), x);
      UpdateShapes(SetCarry(c, 1), x);
    }
  }

  lemma RotateShapes(c: Core)
    requires CpuCore.Valid(c) && Shaped(c.flags)
    ensures Shaped(RotateA(c).flags)
  {
  }

  lemma T5Shapes(c: Core)
    requires CpuCore.Valid(c) && Shaped(c.flags)
    ensures Shaped(ExecuteT5(c).flags)
  {
    hide Row, Masked, AluOperation, RotateA, UpdateFlags, SetLow, Shaped;
    AluShapes(c);
    RotateShapes(c);
    forall x: Byte, d: nat | d < 7
      ensures Shaped(UpdateFlags(SetRegister(c, d, x), x).flags)
    {
      UpdateShapes(SetRegister(c, d, x), x);
    }
  }

  // No other state changes them.

  lemma T1Keeps(c: Core)
    requires CpuCore.Valid(c)
    ensures ExecuteT1(c).flags == c.flags && ExecuteT1I(c).flags == c.flags
  {
    hide Row, EmitLow;
  }

  lemma T2Keeps(c: Core)
    requires CpuCore.Valid(c)
    ensures ExecuteT2(c).flags == c.flags
  {
    hide Row;
  }

  lemma T3Keeps(c: Core, data: Byte)
    requires CpuCore.Valid(c)
    ensures ExecuteT3(c, data).flags == c.flags
  {
    hide Row, Masked, HasCycleEnd, HasConditionalEnd, Decode, ConditionVerified;
  }

  // What T4 leaves as it is, in its effect and in the check of the cycle end.
  predicate SameInstruction(c: Core, r: Core) {
    && r.flags == c.flags && r.memoryCycle == c.memoryCycle
    && r.decoded == c.decoded && r.cycleControl == c.cycleControl
  }

  lemma T4EffectKeeps(c: Core, kind: Byte)
    requires CpuCore.Valid(c)
    ensures SameInstruction(c, T4Effect(c, kind))
  {
    hide SetHigh, Pushed, Popped, PackedFlags;
  }

  lemma CycleEndKeeps(c: Core, action: Byte)
    requires CpuCore.Valid(c)
    ensures SameInstruction(c, ChecksCycleEnd(c, action))
  {
    hide Row, HasCycleEnd;
  }

  lemma T4Keeps(c: Core)
    requires CpuCore.Valid(c)
    ensures SameInstruction(c, ExecuteT4(c))
  {
    hide T4Effect, T4Action, ChecksCycleEnd, Masked;
    T4EffectKeeps(c, Masked(T4Action(c)));
    CycleEndKeeps(T4Effect(c, Masked(T4Action(c))), T4Action(c));
  }

  lemma EntryShapes(c: Core, state: TState, pins: Byte)
    requires CpuCore.Valid(c) && Shaped(c.flags)
    ensures Shaped(EnterState(c, state, pins).flags)
  {
    hide ExecuteT1, ExecuteT1I, ExecuteT2, ExecuteT3, ExecuteT4, ExecuteT5, Shaped;
    var c1 := c.(state := state);
    T1Keeps(c1.(cycleEnded := false));
    T2Keeps(c1);
    T3Keeps(c1, pins);
    T4Keeps(c1);
    T5Shapes(c1);
  }

  lemma StateShapes(board: Isa.Board, m: Machine, e: Env)
    requires BusMachine.Valid(m) && Shaped(m.core.flags)
    ensures Shaped(Advance(board, m, e).core.flags)
  {
    hide ChangeState, EnterState, ExecuteT3, Driven, Returned, LeftOnPins, CycleControlOf, Shaped;
    var interrupt := m.interruptPending || e.interrupt;
    DecisionWrites(m.core, interrupt, e.ready);
    var (c, next) := ChangeState(m.core, interrupt, e.ready);
    if next.Some? {
      var m1 := m.(core := c, interruptPending := interrupt && next != Some(T1I));
      var entered := EnterState(c, next.value, LeftOnPins(c));
      EntryShapes(c, next.value, LeftOnPins(c));
      T3Keeps(entered, Returned(board, m1.(core := entered), e.jammed));
      T3Keeps(entered, Returned(board, m1, e.jammed));
    }
  }

  lemma {:induction false} ShapedAlways(board: Isa.Board, m: Machine, envs: seq<Env>)
    requires BusMachine.Valid(m) && Shaped(m.core.flags)
    ensures Shaped(ObserveAll(board, Begin(m), envs).machine.core.flags)
    decreases |envs|
  {
    hide Observe, Advance, Shaped;
    if envs != [] {
      var before := ObserveAll(board, Begin(m), envs[..|envs| - 1]);
      ShapedAlways(board, m, envs[..|envs| - 1]);
      ObservedMachine(board, before, envs[|envs| - 1]);
      StateShapes(board, before.machine, envs[|envs| - 1]);
    }
  }

  // The four flags on the data pins, the sign on the pin of the given weight.
  function OnPins(flags: Isa.Flags, signWeight: nat): nat {
    (if flags.sign then signWeight else 0) + (if flags.zero then 2 else 0)
    + (if flags.parity then 4 else 0) + (if flags.carry then 8 else 0)
  }

  lemma PackedIs(flags: seq<Byte>)
    requires Shaped(flags)
    ensures PackedFlags(flags) == OnPins(AbstractFlags(flags), 0x80)
  {
    hide BitOr;
    var s, z, p, c := flags[SIGN], flags[ZERO] * 2, flags[PARITY] * 4, flags[CARRY] * 8;
    SingleBits(s, z);
    SingleBits(p, c);
    PairsOfBits(s + z, p + c);
  }

  lemma SingleBits(x: Byte, y: Byte)
    requires x in {0, 4, 0x80} && y in {0, 2, 8}
    ensures BitOr(x, y) == x + y
  {
    hide Bitwise;
    OrApart(x, y, 8);
  }

  lemma PairsOfBits(x: Byte, y: Byte)
    requires x in {0, 2, 0x80, 0x82} && y in {0, 4, 8, 12}
    ensures BitOr(x, y) == x + y
  {
    hide Bitwise;
    OrApart(x, y, 8);
  }

  // What T4 of an input drives.
  lemma T4Drives(c: Core, pins: Byte)
    requires CpuCore.Valid(c) && Name(c) == INP && c.memoryCycle == 1 && c.cycleControl.PCC?
    ensures var r := EnterState(c, T4, pins); Driven(r) == PackedFlags(c.flags)
  {
    hide PackedFlags;
  }

  // The processor goes from T3 to T4 in the second cycle of an input.
  predicate ShowsFlags(before: Core, after: Core) {
    && before.state.T3? && after.state.T4?
    && Name(after) == INP && after.memoryCycle == 1 && after.cycleControl.PCC?
  }

  lemma T4Enters(c: Core, pins: Byte)
    requires CpuCore.Valid(c)
    ensures SameInstruction(c, EnterState(c, T4, pins))
  {
    hide ExecuteT4;
    T4Keeps(c.(state := T4));
  }

  lemma EntersT4(board: Isa.Board, m: Machine, e: Env)
    requires BusMachine.Valid(m) && ShowsFlags(m.core, Advance(board, m, e).core)
    ensures var c := Advance(board, m, e).core; c.flags == m.core.flags && Driven(c) == PackedFlags(c.flags)
  {
    hide PackedFlags, Driven, EnterState, Row;
    T4Enters(m.core, LeftOnPins(m.core));
    T4Drives(m.core, LeftOnPins(m.core));
  }

  lemma SignDiffers(flags: Isa.Flags)
    ensures OnPins(flags, 0x80) == OnPins(flags, 1) <==> !flags.sign
  {
  }

  // The shifts put zero, parity and carry on the pins 1, 2 and 3 and leave pin 0 to the sign. But the sign
  // is kept as 0x80 and is on pin 7, so that the byte is the intended one exactly when the sign is clear.
  lemma InputShowsFlags(board: Isa.Board, m: Machine, envs: seq<Env>, e: Env)
    requires BusMachine.Valid(m) && Shaped(m.core.flags)
    ensures var now := ObserveAll(board, Begin(m), envs).machine;
            var r := Advance(board, now, e).core;
            ShowsFlags(now.core, r) ==>
              && Driven(r) == OnPins(AbstractFlags(r.flags), 0x80)
              && (Driven(r) == OnPins(AbstractFlags(r.flags), 1) <==> !AbstractFlags(r.flags).sign)
  {
    hide ObserveAll, PackedFlags, Shaped, Advance, Driven, OnPins, AbstractFlags, ShowsFlags;
    ShapedAlways(board, m, envs);
    var now := ObserveAll(board, Begin(m), envs).machine;
    if ShowsFlags(now.core, Advance(board, now, e).core) {
      EntersT4(board, now, e);
      PackedIs(now.core.flags);
      SignDiffers(AbstractFlags(now.core.flags));
    }
  }
}
