/** The circular stack of eight program counters. */
module AddressStacks {
  import opened Bytes
  import Isa

  const LEVELS: nat := 8

  type Word = x: int | 0 <= x < 0x10000

  // The value of the stack object: its slots, the current slot, and the last emitted counter.
  datatype Stack = Stack(slots: seq<Word>, index: nat, emitted: Word)

  predicate Valid(s: Stack) {
    |s.slots| == LEVELS && s.index < LEVELS
  }

  function Current(s: Stack): Word
    requires Valid(s)
  {
    s.slots[s.index]
  }

  // The effects of the methods below.

  function EmitLow(s: Stack, advance: bool): (r: Stack)
    requires Valid(s)
    ensures Valid(r)
  {
    var pc: int := Current(s);
    Stack(if advance then s.slots[s.index := (pc + 1) % 0x4000] else s.slots, s.index, pc)
  }

  function EmittedLow(s: Stack): Byte { s.emitted % 256 }

  function EmittedHigh(s: Stack): Byte { s.emitted / 256 % 64 }

  function Pushed(s: Stack): (r: Stack)
    requires Valid(s)
    ensures Valid(r)
  {
    s.(index := (s.index + 1) % LEVELS)
  }

  function Popped(s: Stack): (r: Stack)
    requires Valid(s)
    ensures Valid(r)
  {
    s.(index := if s.index > 0 then s.index - 1 else LEVELS - 1)
  }

  function SetLow(s: Stack, value: Byte): (r: Stack)
    requires Valid(s)
    ensures Valid(r)
  {
    s.(slots := s.slots[s.index := Current(s) / 256 * 256 + value])
  }

  function SetHigh(s: Stack, value: Byte): (r: Stack)
    requires Valid(s)
    ensures Valid(r)
  {
    s.(slots := s.slots[s.index := Current(s) % 256 + value * 256])
  }

  class AddressStack {
    const stack: array<Word>
    var stackIndex: nat
    var emittedPc: Word

    ghost predicate Valid()
      reads this, stack
    {
      stack.Length == LEVELS && stackIndex < LEVELS
    }

    ghost function Value(): Stack
      reads this, stack
    {
      Stack(stack[..], stackIndex, emittedPc)
    }

    constructor ()
      ensures Valid() && fresh(stack)
      ensures Value() == Stack(seq(LEVELS, _ => 0), 0, 0)
    {
      stack := new Word[LEVELS](_ => 0);
      stackIndex := 0;
      emittedPc := 0;
    }

    method GetLowPcAndInc() returns (low: Byte)
      requires Valid()
      modifies this, stack
      ensures Valid() && Value() == EmitLow(old(Value()), true)
      ensures low == EmittedLow(Value())
    {
      emittedPc := stack[stackIndex];
      stack[stackIndex] := (emittedPc + 1) % 0x4000;
      low := emittedPc % 256;
    }

    method GetLowPcNoInc() returns (low: Byte)
      requires Valid()
      modifies this
      ensures Valid() && Value() == EmitLow(old(Value()), false)
      ensures low == EmittedLow(Value())
    {
      emittedPc := stack[stackIndex];
      low := emittedPc % 256;
    }

    function GetHighPc(): Byte
      reads this
    {
      emittedPc % 0x4000 / 256
    }

    method Push()
      requires Valid()
      modifies this
      ensures Valid() && Value() == Pushed(old(Value()))
    {
      stackIndex := (stackIndex + 1) % LEVELS;
    }

    method Pop()
      requires Valid()
      modifies this
      ensures Valid() && Value() == Popped(old(Value()))
    {
      if stackIndex > 0 {
        stackIndex := stackIndex - 1;
      } else {
        stackIndex := LEVELS - 1;
      }
    }

    method SetLowPc(value: Byte)
      requires Valid()
      modifies stack
      ensures Valid() && Value() == SetLow(old(Value()), value)
    {
      stack[stackIndex] := stack[stackIndex] - stack[stackIndex] % 256;
      stack[stackIndex] := stack[stackIndex] + value;
    }

    method SetHighPc(value: Byte)
      requires Valid()
      modifies stack
      ensures Valid() && Value() == SetHigh(old(Value()), value)
    {
      stack[stackIndex] := stack[stackIndex] % 256;
      stack[stackIndex] := stack[stackIndex] + value * 256;
    }
  }

  // The slot k levels behind the current one.
  function Behind(index: nat, k: nat): nat
    requires index < LEVELS && k < LEVELS
  {
    if k <= index then index - k else index + LEVELS - k
  }

  // The program counters from the current one back, as 14-bit addresses.
  function View(s: Stack): (pcs: seq<nat>)
    requires Valid(s)
    ensures |pcs| == LEVELS
  {
    seq(LEVELS, k requires 0 <= k < LEVELS => s.slots[Behind(s.index, k)] % 0x4000)
  }

  lemma HighLow(word: Word, high: Byte, low: Byte)
    ensures (word % 256 + high * 256) / 256 == high
    ensures (high * 256 + low) % 0x4000 == Isa.Address(high, low)
  {
    var q := high / 64;
    assert high * 256 + low == q * 0x4000 + Isa.Address(high, low);
  }

  lemma Increment(pc: int)
    ensures (pc + 1) % 0x4000 == (pc % 0x4000 + 1) % 0x4000
  {
    var q := pc / 0x4000;
    assert pc + 1 == q * 0x4000 + (pc % 0x4000 + 1);
  }

  lemma ViewEmitLow(s: Stack, advance: bool)
    requires Valid(s)
    ensures var r := EmitLow(s, advance);
            && View(r) == (if advance then View(s)[0 := (View(s)[0] + 1) % 0x4000] else View(s))
            && Isa.Address(EmittedHigh(r), EmittedLow(r)) == View(s)[0]
  {
    var r := EmitLow(s, advance);
    HighLow(0, r.emitted / 256, r.emitted % 256);
    Increment(Current(s));
    forall k | 1 <= k < LEVELS
      ensures View(r)[k] == View(s)[k]
    {
      assert Behind(s.index, k) != s.index;
    }
  }

  // A call takes over the slot of the oldest counter, and a new counter is written there.
  lemma ViewCall(s: Stack, high: Byte, low: Byte)
    requires Valid(s)
    ensures View(SetLow(SetHigh(Pushed(s), high), low)) == [Isa.Address(high, low)] + View(s)[..LEVELS - 1]
  {
    var r := SetLow(SetHigh(Pushed(s), high), low);
    HighLow(Current(Pushed(s)), high, low);
    forall k | 1 <= k < LEVELS
      ensures View(r)[k] == View(s)[k - 1]
    {
      assert Behind(r.index, k) == Behind(s.index, k - 1) != r.index;
    }
  }

  lemma ViewJump(s: Stack, high: Byte, low: Byte)
    requires Valid(s)
    ensures View(SetLow(SetHigh(s, high), low)) == View(s)[0 := Isa.Address(high, low)]
  {
    var r := SetLow(SetHigh(s, high), low);
    HighLow(Current(s), high, low);
    forall k | 1 <= k < LEVELS
      ensures View(r)[k] == View(s)[k]
    {
      assert Behind(s.index, k) != s.index;
    }
  }

  lemma ViewPop(s: Stack)
    requires Valid(s)
    ensures View(Popped(s)) == View(s)[1..] + [View(s)[0]]
  {
    var r := Popped(s);
    forall k | 0 <= k < LEVELS - 1
      ensures View(r)[k] == View(s)[k + 1]
    {
      assert Behind(r.index, k) == Behind(s.index, k + 1);
    }
  }

  // What the processor does to the stack: it fetches, jumps, calls and returns.
  datatype Use = Fetches | JumpsTo(high: Byte, low: Byte) | CallsTo(high: Byte, low: Byte) | Returns

  function Used(s: Stack, use: Use): (r: Stack)
    requires Valid(s)
    ensures Valid(r)
  {
    match use
    case Fetches => EmitLow(s, true)
    case JumpsTo(high, low) => SetLow(SetHigh(s, high), low)
    case CallsTo(high, low) => SetLow(SetHigh(Pushed(s), high), low)
    case Returns => Popped(s)
  }

  function UsedAll(s: Stack, uses: seq<Use>): (r: Stack)
    requires Valid(s)
    ensures Valid(r)
    decreases |uses|
  {
    if uses == [] then s else Used(UsedAll(s, uses[..|uses| - 1]), uses[|uses| - 1])
  }

  // The same on a stack of any depth, the most recent frame first. A return from the last frame
  // leaves none, and a jump then starts one.
  function Unbounded(frames: seq<nat>, use: Use): seq<nat> {
    match use
    case Fetches => if frames == [] then [] else frames[0 := (frames[0] + 1) % 0x4000]
    case JumpsTo(high, low) => [Isa.Address(high, low)] + (if frames == [] then [] else frames[1..])
    case CallsTo(high, low) => [Isa.Address(high, low)] + frames
    case Returns => if frames == [] then [] else frames[1..]
  }

  function UnboundedAll(frames: seq<nat>, uses: seq<Use>): seq<nat>
    decreases |uses|
  {
    if uses == [] then frames else Unbounded(UnboundedAll(frames, uses[..|uses| - 1]), uses[|uses| - 1])
  }

  // How many of the recent frames are still on the chip.
  function Kept(kept: nat, use: Use): nat {
    match use
    case Fetches => kept
    case JumpsTo(_, _) => if kept == 0 then 1 else kept
    case CallsTo(_, _) => if kept < LEVELS then kept + 1 else LEVELS
    case Returns => if kept == 0 then 0 else kept - 1
  }

  function KeptAll(kept: nat, uses: seq<Use>): nat
    decreases |uses|
  {
    if uses == [] then kept else Kept(KeptAll(kept, uses[..|uses| - 1]), uses[|uses| - 1])
  }

  lemma UseTracks(s: Stack, frames: seq<nat>, kept: nat, use: Use)
    requires Valid(s) && kept <= LEVELS && kept <= |frames| && View(s)[..kept] == frames[..kept]
    ensures Kept(kept, use) <= LEVELS && Kept(kept, use) <= |Unbounded(frames, use)|
    ensures View(Used(s, use))[..Kept(kept, use)] == Unbounded(frames, use)[..Kept(kept, use)]
  {
    hide View, EmitLow, SetLow, SetHigh, Pushed, Popped, Isa.Address;
    assert forall k :: 0 <= k < kept ==> View(s)[k] == View(s)[..kept][k] == frames[..kept][k] == frames[k];
    match use {
      case Fetches => ViewEmitLow(s, true);
      case JumpsTo(high, low) => ViewJump(s, high, low);
      case CallsTo(high, low) => ViewCall(s, high, low);
      case Returns => ViewPop(s);
    }
  }

  // The slots hold the most recent frames of an unbounded call stack, as many of them as are kept:
  // a return to one of those gives the program counter that it would have there.
  lemma {:induction false} TracksUnbounded(s: Stack, uses: seq<Use>)
    requires Valid(s)
    ensures var kept, frames := KeptAll(1, uses), UnboundedAll([View(s)[0]], uses);
            kept <= LEVELS && kept <= |frames| && View(UsedAll(s, uses))[..kept] == frames[..kept]
    decreases |uses|
  {
    hide View, Used, Unbounded, Kept;
    if uses != [] {
      var before := uses[..|uses| - 1];
      TracksUnbounded(s, before);
      UseTracks(UsedAll(s, before), UnboundedAll([View(s)[0]], before), KeptAll(1, before), uses[|uses| - 1]);
    }
  }

  // As long as no return loses a frame, the eight most recent ones are there.
  lemma {:induction false} WindowOfEight(s: Stack, uses: seq<Use>)
    requires Valid(s) && Returns !in uses
    ensures KeptAll(1, uses)
            == if |UnboundedAll([View(s)[0]], uses)| < 8 then |UnboundedAll([View(s)[0]], uses)| else 8
    decreases |uses|
  {
    hide View;
    if uses != [] {
      WindowOfEight(s, uses[..|uses| - 1]);
    }
  }
}
