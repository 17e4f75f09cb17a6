/** The registers and the T-states of the 8008, without the time at which things happen. */
module CpuCore {
  import opened Bytes
  import opened Microcode
  import opened AddressStacks

  datatype TState = WAIT | T3 | T1 | STOPPED | T2 | T5 | T1I | T4

  const CARRY: nat := 0
  const ZERO: nat := 1
  const SIGN: nat := 2
  const PARITY: nat := 3

  const REG_A: nat := 0
  const REG_H: nat := 5
  const REG_L: nat := 6

  // The value of the processor object, apart from interrupt_pending. Once an assertion has failed,
  // faulted stays true.
  datatype Core = Core(
    state: TState,
    cycleControl: CycleControl,
    nextCycleControl: CycleControl,
    memoryCycle: nat,
    cycleEnded: bool,
    registers: seq<Byte>,
    flags: seq<Byte>,
    hiddenA: Byte,
    hiddenB: Byte,
    ioDataLatch: Byte,
    decoded: Option<Decoded>,
    stack: Stack,
    faulted: bool)

  predicate Valid(c: Core) {
    && |c.registers| == 7
    && |c.flags| == 4
    && c.flags[CARRY] <= 1
    && AddressStacks.Valid(c.stack)
  }

  // What the work of a state never changes.
  predicate Keeps(c: Core, r: Core) {
    r.state == c.state && r.cycleControl == c.cycleControl && (c.faulted ==> r.faulted)
  }

  function Fault(c: Core): Core { c.(faulted := true) }

  // A read of the decoded instruction; before the first fetch there is none.
  function Name(c: Core): InstructionName {
    if c.decoded.Some? then c.decoded.value.name else UNKNOWN
  }

  function Medium(c: Core): nat {
    if c.decoded.Some? then c.decoded.value.medium else 0
  }

  function Low(c: Core): nat {
    if c.decoded.Some? then c.decoded.value.low else 0
  }

  function UpdateMemoryCycle(c: Core): Core {
    c.(memoryCycle := if c.cycleControl.PCI? then 0 else c.memoryCycle + 1)
  }

  // The second or the third cycle of the current instruction.
  function LaterCycle(c: Core): OtherCycle {
    if c.memoryCycle == 1 then Row(Name(c)).cycle2 else Row(Name(c)).cycle3
  }

  function ExecuteT1Common(c: Core): (r: Core)
    requires Valid(c)
    ensures Valid(r) && Keeps(c, r)
  {
    if c.decoded.None? then Fault(c)
    else
      match LaterCycle(c).t1
      case Out_Reg_L => c.(ioDataLatch := c.registers[REG_L])
      case Out_PC_L => var s := EmitLow(c.stack, true); c.(stack := s, ioDataLatch := EmittedLow(s))
      case Out_Reg_A => c.(ioDataLatch := c.registers[REG_A])
  }

  function ExecuteT1I(c: Core): (r: Core)
    requires Valid(c)
    ensures Valid(r) && Keeps(c, r)
  {
    var c1 := UpdateMemoryCycle(c);
    if c1.cycleControl.PCI? then
      var s := EmitLow(c1.stack, false);
      c1.(stack := s, ioDataLatch := EmittedLow(s))
    else ExecuteT1Common(c1)
  }

  function ExecuteT1(c: Core): (r: Core)
    requires Valid(c)
    ensures Valid(r) && Keeps(c, r)
  {
    var c1 := UpdateMemoryCycle(c);
    if c1.cycleControl.PCI? then
      var s := EmitLow(c1.stack, true);
      c1.(stack := s, ioDataLatch := EmittedLow(s))
    else ExecuteT1Common(c1)
  }

  function ExecuteT2(c: Core): (r: Core)
    requires Valid(c)
    ensures Valid(r) && Keeps(c, r)
  {
    if c.cycleControl.PCI? then
      (if c.memoryCycle == 0 then c.(ioDataLatch := EmittedHigh(c.stack)) else Fault(c))
    else if c.decoded.None? then Fault(c)
    else
      match LaterCycle(c).t2
      case Out_Reg_H => c.(ioDataLatch := c.registers[REG_H])
      case Out_PC_H => c.(ioDataLatch := EmittedHigh(c.stack))
      case Out_Reg_b_At_T2 => c.(ioDataLatch := c.hiddenB)
  }

  function EndsCycle(c: Core, next: CycleControl): (r: Core)
    ensures (Valid(c) ==> Valid(r)) && Keeps(c, r)
  {
    c.(cycleEnded := true, nextCycleControl := next)
  }

  function ChecksCycleEnd(c: Core, action: Byte): (r: Core)
    ensures (Valid(c) ==> Valid(r)) && Keeps(c, r)
  {
    var c1 := c.(cycleEnded := HasCycleEnd(action));
    if !c1.cycleEnded then c1
    else if c1.memoryCycle == 0 then EndsCycle(c1, Row(Name(c1)).cycle2.cc)
    else if c1.memoryCycle == 1 then EndsCycle(c1, Row(Name(c1)).cycle3.cc)
    else if c1.memoryCycle == 2 then EndsCycle(c1, PCI)
    else Fault(c1)
  }

  // Whether the condition named by the middle digit holds.
  predicate ConditionVerified(c: Core)
    requires Valid(c)
  {
    (c.flags[Medium(c) % 4] != 0) == (Medium(c) / 4 % 2 == 1)
  }

  function ChecksConditionalCycleEnd(c: Core, action: Byte): (r: Core)
    requires Valid(c)
    ensures Valid(r) && Keeps(c, r)
  {
    if HasConditionalEnd(action) && !ConditionVerified(c) then EndsCycle(c, PCI) else c
  }

  function T3Effect(c: Core, kind: Byte, data: Byte): (r: Core)
    requires Valid(c)
    ensures Valid(r) && Keeps(c, r)
  {
    if kind == FETCH_DATA_TO_REG_B then c.(hiddenB := data)
    else if kind == FETCH_DATA_TO_REG_A then c.(hiddenA := data)
    else if kind == OUT_REG_B then
      if !c.cycleControl.PCW? then Fault(c) else c.(ioDataLatch := c.hiddenB)
    else if kind == FETCH_IR_AND_REG_B || kind == HALT then Fault(c)
    else c
  }

  function ExecuteT3(c: Core, data: Byte): (r: Core)
    requires Valid(c)
    ensures Valid(r) && Keeps(c, r)
  {
    if c.cycleControl.PCI? then
      var c1 := c.(hiddenA := 0, hiddenB := data, decoded := Some(Decode(data)));
      var action := Row(Name(c1)).cycle1.t3;
      if c.memoryCycle != 0 || action % 2 != FETCH_IR_AND_REG_B then Fault(c1)
      else ChecksConditionalCycleEnd(ChecksCycleEnd(c1, action), action)
    else if c.decoded.None? || c.memoryCycle == 0 then Fault(c)
    else
      var action := LaterCycle(c).t3;
      var c1 := T3Effect(c, Masked(action), data);
      ChecksConditionalCycleEnd(ChecksCycleEnd(c1, action), action)
  }

  function T4Action(c: Core): Byte {
    if c.memoryCycle == 0 then Row(Name(c)).cycle1.t4 else LaterCycle(c).t4
  }

  function T5Action(c: Core): Byte {
    if c.memoryCycle == 0 then Row(Name(c)).cycle1.t5 else LaterCycle(c).t5
  }

  // The four flags as the byte an input instruction sends out.
  function PackedFlags(flags: seq<Byte>): Byte
    requires |flags| == 4
  {
    BitOr(BitOr(flags[SIGN], Wrap(flags[ZERO] as int * 2)),
          BitOr(Wrap(flags[PARITY] as int * 4), Wrap(flags[CARRY] as int * 8)))
  }

  function T4Effect(c: Core, kind: Byte): (r: Core)
    requires Valid(c)
    ensures Valid(r) && Keeps(c, r)
  {
    if kind == SOURCE_TO_REG_B then
      if Low(c) >= 7 then Fault(c) else c.(hiddenB := c.registers[Low(c)])
    else if kind == REG_A_TO_PC_H then
      if !c.cycleControl.PCR? then Fault(c) else c.(stack := SetHigh(c.stack, c.hiddenA))
    else if kind == PUSH_AND_REG_A_TO_PC_H then
      if !c.cycleControl.PCR? && !c.cycleControl.PCI? then Fault(c)
      else c.(stack := SetHigh(Pushed(c.stack), c.hiddenA))
    else if kind == POP_STACK then c.(stack := Popped(c.stack))
    else if kind == OUT_CONDITIONS_FLAGS then
      if !c.cycleControl.PCC? then Fault(c) else c.(ioDataLatch := PackedFlags(c.flags))
    else c
  }

  function ExecuteT4(c: Core): (r: Core)
    requires Valid(c)
    ensures Valid(r) && Keeps(c, r)
  {
    if c.decoded.None? then Fault(c) else ChecksCycleEnd(T4Effect(c, Masked(T4Action(c))), T4Action(c))
  }

  // Every flag but the carry, from a result.
  function UpdatedFlags(flags: seq<Byte>, reg: Byte): (r: seq<Byte>)
    requires |flags| == 4
    ensures |r| == 4 && r[CARRY] == flags[CARRY]
  {
    flags[ZERO := if reg == 0 then 1 else 0]
         [SIGN := reg / 128 * 128]
         [PARITY := if Ones(reg) % 2 == 0 then 1 else 0]
  }

  function SetRegister(c: Core, r: nat, value: Byte): Core
    requires Valid(c) && r < 7
  {
    c.(registers := c.registers[r := value])
  }

  function SetCarry(c: Core, carry: Byte): Core
    requires Valid(c)
  {
    c.(flags := c.flags[CARRY := carry])
  }

  function UpdateFlags(c: Core, reg: Byte): Core
    requires Valid(c)
  {
    c.(flags := UpdatedFlags(c.flags, reg))
  }

  // A sum whose ninth bit is the new carry.
  function Added(c: Core, sum: nat): (r: Core)
    requires Valid(c)
    ensures Valid(r) && Keeps(c, r)
  {
    UpdateFlags(SetRegister(SetCarry(c, sum / 256 % 2), REG_A, sum % 256), sum % 256)
  }

  // A difference whose borrow is the new carry.
  function Subtracted(c: Core, difference: int): (r: Core)
    requires Valid(c)
    ensures Valid(r) && Keeps(c, r)
  {
    var carry := if difference < 0 then 1 else 0;
    UpdateFlags(SetRegister(SetCarry(c, carry), REG_A, Wrap(difference)), Wrap(difference))
  }

  function Combined(c: Core, result: Byte): (r: Core)
    requires Valid(c)
    ensures Valid(r) && Keeps(c, r)
  {
    SetCarry(UpdateFlags(SetRegister(c, REG_A, result), result), 0)
  }

  function AluOperation(c: Core): (r: Core)
    requires Valid(c)
    ensures Valid(r) && Keeps(c, r)
  {
    var a: int, b: int := c.registers[REG_A], c.hiddenB;
    var carry := if c.flags[CARRY] != 0 then 1 else 0;
    match Medium(c)
    case 0 => Added(c, a + b)
    case 1 => Added(c, a + b + carry)
    case 2 => Subtracted(c, a - b)
    case 3 => Subtracted(c, a - b - carry)
    case 4 => Combined(c, BitAnd(a, b))
    case 5 => Combined(c, BitXor(a, b))
    case 6 => Combined(c, BitOr(a, b))
    case 7 => UpdateFlags(SetCarry(c, if a - b < 0 then 1 else 0), Wrap(a - b))
    case _ => Fault(c)
  }

  function RotateA(c: Core): (r: Core)
    requires Valid(c)
    ensures Valid(r) && Keeps(c, r)
  {
    var a: int := c.registers[REG_A];
    var previous: int := c.flags[CARRY];
    match Medium(c) % 4
    case 0 => SetRegister(SetCarry(c, a / 128), REG_A, Wrap(a * 2) + a / 128)
    case 1 => SetRegister(SetCarry(c, a % 2), REG_A, a / 2 + a % 2 * 128)
    case 2 => SetRegister(SetCarry(c, a / 128), REG_A, Wrap(a * 2) + previous % 2)
    case _ => SetRegister(SetCarry(c, a % 2), REG_A, a / 2 + (if previous != 0 then 128 else 0))
  }

  // The source compares with decimal 111 as well as with octal 0; index 7 would be past the array.
  function StepRegister(c: Core, delta: int): (r: Core)
    requires Valid(c)
    ensures Valid(r) && Keeps(c, r)
  {
    var d := Medium(c);
    if d == 0 || d == 111 || d >= 7 then Fault(c)
    else
      var value := Wrap(c.registers[d] as int + delta);
      UpdateFlags(SetRegister(c, d, value), value)
  }

  function T5Effect(c: Core, kind: Byte): (r: Core)
    requires Valid(c)
    ensures Valid(r) && Keeps(c, r)
  {
    if kind == REG_B_TO_DESTINATION then
      if Medium(c) >= 7 then Fault(c) else SetRegister(c, Medium(c), c.hiddenB)
    else if kind == INC_DESTINATION then StepRegister(c, 1)
    else if kind == DEC_DESTINATION then StepRegister(c, -1)
    else if kind == ALU_OPERATION_WITH_REG_B then AluOperation(c)
    else if kind == ROTATE_A then RotateA(c)
    else if kind == REG_B_TO_PC_L then c.(stack := SetLow(c.stack, c.hiddenB))
    else if kind == REG_B_TO_PC_L_3_TO_5 then c.(stack := SetLow(c.stack, Wrap(Medium(c) * 8)))
    else if kind == REG_B_TO_A then SetRegister(c, REG_A, c.hiddenB)
    else c
  }

  function ExecuteT5(c: Core): (r: Core)
    requires Valid(c)
    ensures Valid(r) && Keeps(c, r)
  {
    if c.decoded.None? then Fault(c) else T5Effect(c, Masked(T5Action(c))).(cycleEnded := true)
  }

  // At the first rise of phase 1 in a state: what the processor decides, and the state it will enter.

  // After the last state of an instruction.
  function NextInstruction(interrupt: bool): Option<TState> {
    if interrupt then Some(T1I) else Some(T1)
  }

  function EndOfCycle(c: Core, interrupt: bool): (Core, Option<TState>) {
    (c.(cycleControl := c.nextCycleControl), NextInstruction(c.nextCycleControl.PCI? && interrupt))
  }

  // An interrupt waits until the processor enters T1I.
  function ChangeState(c: Core, interrupt: bool, ready: bool): (Core, Option<TState>) {
    match c.state
    case STOPPED => (c, if interrupt then Some(T1I) else None)
    case WAIT => (c, if ready then Some(T3) else None)
    case T1 => (c, Some(T2))
    case T1I => (c, Some(T2))
    case T2 => (c, Some(if ready then T3 else WAIT))
    case T3 =>
      if !c.cycleEnded then (c, Some(T4))
      else if c.decoded.None? then (Fault(c), None)
      else if Name(c) == HLT then (c.(cycleControl := PCI), Some(STOPPED))
      else EndOfCycle(c, interrupt)
    case T4 => if c.cycleEnded then EndOfCycle(c, interrupt) else (c, Some(T5))
    case T5 =>
      if !c.cycleEnded then (Fault(c), None)
      else (c.(cycleControl := PCI), NextInstruction(interrupt))
  }

  // A cycle in which the processor reads the data pins.
  predicate Reads(cc: CycleControl) { !cc.PCW? }

  // The processor enters a state. In a reading cycle the work of T3 waits for the data.
  function EnterState(c: Core, state: TState, pins: Byte): (r: Core)
    requires Valid(c)
    ensures Valid(r) && r.state == state && r.cycleControl == c.cycleControl && (c.faulted ==> r.faulted)
  {
    var c1 := c.(state := state);
    match state
    case T1I => ExecuteT1I(c1.(cycleEnded := false))
    case T1 => ExecuteT1(c1.(cycleEnded := false))
    case T2 => ExecuteT2(c1)
    case WAIT => c1
    case T3 => if Reads(c1.cycleControl) then c1 else ExecuteT3(c1, pins)
    case STOPPED => c1
    case T4 => ExecuteT4(c1)
    case T5 => ExecuteT5(c1)
  }

  // The byte put on the data pins when the processor drives them.
  function Driven(c: Core): Byte {
    if c.state.T2? then c.ioDataLatch % 64 + c.cycleControl.Code() else c.ioDataLatch
  }
}
