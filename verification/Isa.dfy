/** The instruction set as a programmer sees it: one equation an instruction, no cycles and no states. */
module Isa {
  import opened Bytes

  const SPACE: nat := 0x4000  // the address space is 14 bits wide
  const LEVELS: nat := 8      // program counters held on chip

  type Register = r: nat | r < 7
  const A: Register := 0
  const H: Register := 5
  const L: Register := 6

  datatype Flag = Carry | Zero | Sign | Parity

  datatype Condition = Always | When(flag: Flag, expected: bool)

  datatype Operand = FromRegister(r: Register) | FromMemory | FromProgram

  datatype Rotation = LeftCircular | RightCircular | LeftThroughCarry | RightThroughCarry

  type Digit = k: nat | k < 8  // an octal digit of an opcode

  datatype Instr =
    | LoadRegister(d: Register, from: Operand)
    | StoreRegister(s: Register)
    | StoreProgram
    | Increment(d: Register)
    | Decrement(d: Register)
    | Alu(k: Digit, from: Operand)
    | Rotate(rotation: Rotation)
    | Jump(when: Condition)
    | Call(when: Condition)
    | Return(when: Condition)
    | Restart(n: Digit)
    | Input
    | Output
    | Halt
    | Undefined

  function FlagNumber(n: nat): Flag {
    match n
    case 0 => Carry
    case 1 => Zero
    case 2 => Sign
    case _ => Parity
  }

  function OperandNumber(n: nat): Operand
    requires n < 8
  {
    if n == 7 then FromMemory else FromRegister(n)
  }

  // The middle digit of a conditional instruction: sense and flag.
  function ConditionNumber(n: nat): Condition {
    When(FlagNumber(n % 4), n / 4 == 1)
  }

  function Meaning(opcode: Byte): Instr {
    OpcodeMap(opcode / 64, opcode / 8 % 8, opcode % 8)
  }

  // The opcode map, by octal digits.
  function OpcodeMap(high: nat, middle: nat, low: nat): Instr
    requires middle < 8 && low < 8
  {
    match high
    case 3 =>
      if middle == 7 && low == 7 then Halt
      else if middle == 7 then StoreRegister(low)
      else LoadRegister(middle, OperandNumber(low))
    case 2 => Alu(middle, OperandNumber(low))
    case 1 =>
      if low % 2 == 1 then (if middle < 2 then Input else Output)
      else if low == 4 then Jump(Always)
      else if low == 6 then Call(Always)
      else if low == 0 then Jump(ConditionNumber(middle))
      else Call(ConditionNumber(middle))
    case _ =>
      match low
      case 0 => if middle == 0 then Halt else if middle == 7 then Undefined else Increment(middle)
      case 1 => if middle == 0 then Halt else if middle == 7 then Undefined else Decrement(middle)
      case 2 =>
        (match middle
         case 0 => Rotate(LeftCircular)
         case 1 => Rotate(RightCircular)
         case 2 => Rotate(LeftThroughCarry)
         case 3 => Rotate(RightThroughCarry)
         case _ => Undefined)
      case 3 => Return(ConditionNumber(middle))
      case 4 => Alu(middle, FromProgram)
      case 5 => Restart(middle)
      case 6 => if middle == 7 then StoreProgram else LoadRegister(middle, FromProgram)
      case _ => Return(Always)
  }

  datatype Flags = Flags(carry: bool, zero: bool, sign: bool, parity: bool)
  {
    function Get(flag: Flag): bool {
      match flag
      case Carry => carry
      case Zero => zero
      case Sign => sign
      case Parity => parity
    }
  }

  // What surrounds the processor: where a write is kept, and what the devices answer to an
  // input at an address, given every I/O address that came before.
  datatype Board = Board(writable: nat -> bool, answer: (seq<nat>, nat) -> Byte)

  // pcs[0] is the program counter, pcs[1..] the return addresses from the most recent one.
  datatype Arch = Arch(
    regs: seq<Byte>,
    flags: Flags,
    pcs: seq<nat>,
    memory: seq<Byte>,
    io: seq<nat>,
    halted: bool)

  predicate WellFormed(s: Arch) {
    && |s.regs| == 7
    && |s.pcs| == LEVELS
    && |s.memory| == SPACE
    && forall k :: 0 <= k < LEVELS ==> s.pcs[k] < SPACE
  }

  // Every flag but the carry follows the result.
  function ResultFlags(carry: bool, result: Byte): Flags {
    Flags(carry, result == 0, result >= 128, Ones(result) % 2 == 0)
  }

  // What the accumulator becomes, and the flags.
  function AluResult(k: Digit, a: Byte, b: Byte, carry: bool): (Byte, Flags) {
    var c := if carry then 1 else 0;
    match k
    case 0 => ((a + b) % 256, ResultFlags(a + b > 255, (a + b) % 256))
    case 1 => ((a + b + c) % 256, ResultFlags(a + b + c > 255, (a + b + c) % 256))
    case 2 => ((a - b) % 256, ResultFlags(a < b, (a - b) % 256))
    case 3 => ((a - b - c) % 256, ResultFlags(a < b + c, (a - b - c) % 256))
    case 4 => (BitAnd(a, b), ResultFlags(false, BitAnd(a, b)))
    case 5 => (BitXor(a, b), ResultFlags(false, BitXor(a, b)))
    case 6 => (BitOr(a, b), ResultFlags(false, BitOr(a, b)))
    case _ => (a, ResultFlags(a < b, (a - b) % 256))
  }

  // What the accumulator and the carry become.
  function Rotated(rotation: Rotation, a: Byte, carry: bool): (Byte, bool) {
    var c := if carry then 1 else 0;
    match rotation
    case LeftCircular => (a * 2 % 256 + a / 128, a >= 128)
    case RightCircular => (a / 2 + a % 2 * 128, a % 2 == 1)
    case LeftThroughCarry => (a * 2 % 256 + c, a >= 128)
    case RightThroughCarry => (a / 2 + c * 128, a % 2 == 1)
  }

  // Two bytes as a 14-bit address.
  function Address(high: Byte, low: Byte): (address: nat)
    ensures address < SPACE
  {
    high % 64 * 256 + low
  }

  function Pointer(s: Arch): nat
    requires WellFormed(s)
  {
    Address(s.regs[H], s.regs[L])
  }

  function Next(s: Arch): Byte
    requires WellFormed(s)
  {
    s.memory[s.pcs[0]]
  }

  function SetPc(s: Arch, pc: nat): (r: Arch)
    requires WellFormed(s)
    ensures pc < SPACE ==> WellFormed(r)
  {
    s.(pcs := s.pcs[0 := pc])
  }

  // The program counter passes one byte.
  function Pass(s: Arch): (r: Arch)
    requires WellFormed(s)
    ensures WellFormed(r)
  {
    SetPc(s, (s.pcs[0] + 1) % SPACE)
  }

  // Every return address goes one level deeper and the oldest is lost.
  function Push(s: Arch, pc: nat): (r: Arch)
    requires WellFormed(s)
    ensures pc < SPACE ==> WellFormed(r)
  {
    s.(pcs := [pc] + s.pcs[..LEVELS - 1])
  }

  function Pop(s: Arch): (r: Arch)
    requires WellFormed(s)
    ensures WellFormed(r)
  {
    s.(pcs := s.pcs[1..] + [s.pcs[0]])
  }

  function Write(board: Board, s: Arch, address: nat, value: Byte): (r: Arch)
    requires WellFormed(s) && address < SPACE
    ensures WellFormed(r)
  {
    if board.writable(address) then s.(memory := s.memory[address := value]) else s
  }

  predicate Holds(when: Condition, flags: Flags) {
    when.Always? || flags.Get(when.flag) == when.expected
  }

  // The operand, and the state once it is read.
  function Read(s: Arch, from: Operand): (r: (Byte, Arch))
    requires WellFormed(s)
    ensures WellFormed(r.1)
  {
    match from
    case FromRegister(k) => (s.regs[k], s)
    case FromMemory => (s.memory[Pointer(s)], s)
    case FromProgram => (Next(s), Pass(s))
  }

  // The effect of an instruction whose opcode has been read. An I/O instruction shows the device
  // its opcode and the accumulator.
  function Execute(board: Board, s: Arch, i: Instr, opcode: Byte): (r: Arch)
    requires WellFormed(s)
    ensures WellFormed(r)
  {
    var port := Address(opcode, s.regs[A]);
    match i
    case LoadRegister(d, from) =>
      var (value, s1) := Read(s, from);
      s1.(regs := s1.regs[d := value])
    case StoreRegister(r) => Write(board, s, Pointer(s), s.regs[r])
    case StoreProgram => Write(board, Pass(s), Pointer(s), Next(s))
    case Increment(d) =>
      var value := Wrap(s.regs[d] as int + 1);
      s.(regs := s.regs[d := value], flags := ResultFlags(s.flags.carry, value))
    case Decrement(d) =>
      var value := Wrap(s.regs[d] as int - 1);
      s.(regs := s.regs[d := value], flags := ResultFlags(s.flags.carry, value))
    case Alu(k, from) =>
      var (value, s1) := Read(s, from);
      var (a, flags) := AluResult(k, s.regs[A], value, s.flags.carry);
      s1.(regs := s1.regs[A := a], flags := flags)
    case Rotate(rotation) =>
      var (a, carry) := Rotated(rotation, s.regs[A], s.flags.carry);
      s.(regs := s.regs[A := a], flags := s.flags.(carry := carry))
    case Jump(when) =>
      var s1 := Pass(s);
      if Holds(when, s.flags) then SetPc(s1, Address(Next(s1), Next(s))) else Pass(s1)
    case Call(when) =>
      var s1 := Pass(s);
      if Holds(when, s.flags) then Push(Pass(s1), Address(Next(s1), Next(s))) else Pass(s1)
    case Return(when) => if Holds(when, s.flags) then Pop(s) else s
    case Restart(n) => Push(s, n * 8)
    case Input => s.(regs := s.regs[A := board.answer(s.io, port)], io := s.io + [port])
    case Output => s.(io := s.io + [port])
    case Halt => s.(halted := true)
    case Undefined => s
  }

  // How an instruction starts: fetched at the program counter, which passes it, or during an
  // acknowledged interrupt, jammed by the processor card or else read without advancing.
  datatype Start = Fetch | Interrupt(jammed: Option<Byte>)

  function Opcode(s: Arch, start: Start): Byte
    requires WellFormed(s)
  {
    if start.Interrupt? && start.jammed.Some? then start.jammed.value else Next(s)
  }

  function Step(board: Board, s: Arch, start: Start): (r: Arch)
    requires WellFormed(s)
    ensures WellFormed(r)
  {
    var s0 := s.(halted := false);
    Execute(board, if start.Fetch? then Pass(s0) else s0, Meaning(Opcode(s, start)), Opcode(s, start))
  }

  // T-states of the internal processor operation table, the idle STOPPED state of a halt included.
  function StateCount(i: Instr, flags: Flags): nat {
    match i
    case LoadRegister(_, from) => if from.FromRegister? then 5 else 8
    case StoreRegister(_) => 7
    case StoreProgram => 9
    case Increment(_) => 5
    case Decrement(_) => 5
    case Alu(_, from) => if from.FromRegister? then 5 else 8
    case Rotate(_) => 5
    case Jump(when) => if Holds(when, flags) then 11 else 9
    case Call(when) => if Holds(when, flags) then 11 else 9
    case Return(when) => if Holds(when, flags) then 5 else 3
    case Restart(_) => 5
    case Input => 8
    case Output => 6
    case Halt => 4
    case Undefined => 3
  }
}
