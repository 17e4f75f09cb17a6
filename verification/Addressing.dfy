/** Which card an address selects, and the cards of the simulator. */
module Addressing {
  import opened Bytes
  import opened Microcode

  const SPACE: nat := 0x4000

  type Address = a: nat | a < SPACE

  // Bits high..low of an address.
  function Bits(a: nat, high: nat, low: nat): nat
    requires low <= high < 14
  {
    a / Weight(low) % Weight(high - low + 1)
  }

  function Weight(k: nat): (w: nat)
    requires k <= 14
    ensures w > 0
  {
    [1, 2, 4, 8, 16, 32, 64, 128, 256, 512, 1024, 2048, 4096, 8192, 16384][k]
  }

  // Memory cards are selected by three bits, S11 to S13; a card of 4k ignores S11.

  datatype MemorySize = Card2k | Card4k

  datatype MemorySelection = MemorySelection(size: MemorySize, mask: nat)

  predicate MemoryAddressed(c: MemorySelection, a: Address) {
    && (c.size.Card2k? ==> Bits(a, 11, 11) == c.mask % 2)
    && Bits(a, 13, 12) == c.mask / 2 % 4
  }

  function StartAddress(c: MemorySelection): nat {
    if c.size.Card4k? then c.mask % 8 / 2 * 4096 else c.mask % 8 * 2048
  }

  function Length(c: MemorySelection): nat {
    if c.size.Card2k? then 2048 else 4096
  }

  // A card is selected exactly by the addresses from its start address on, as many as it has bytes.
  lemma MemoryRange(c: MemorySelection, a: Address)
    requires c.mask < 8
    ensures MemoryAddressed(c, a) <==> StartAddress(c) <= a < StartAddress(c) + Length(c)
  {
    assert a == Bits(a, 13, 12) * 4096 + Bits(a, 11, 11) * 2048 + a % 2048;
  }

  // The memory of the Micral N: a ROM over a RAM, five RAM cards, and the ROM of the monitor.
  const MICRAL_N: seq<MemorySelection> := [
    MemorySelection(Card4k, 0),
    MemorySelection(Card2k, 7),
    MemorySelection(Card2k, 2),
    MemorySelection(Card2k, 3),
    MemorySelection(Card2k, 4),
    MemorySelection(Card2k, 5),
    MemorySelection(Card2k, 6)
  ]

  // The memory of the other configurations: a ROM, and six RAM cards.
  const SINGLE_ROM: seq<MemorySelection> := [
    MemorySelection(Card2k, 0),
    MemorySelection(Card2k, 2),
    MemorySelection(Card2k, 3),
    MemorySelection(Card2k, 4),
    MemorySelection(Card2k, 5),
    MemorySelection(Card2k, 6),
    MemorySelection(Card2k, 7)
  ]

  // The card of an address in the Micral N.
  function MicralCard(a: Address): nat {
    if a < 0x1000 then 0 else if a >= 0x3800 then 1 else a / 2048
  }

  lemma OneMemoryCard(a: Address, k: nat)
    requires k < 7
    ensures MemoryAddressed(MICRAL_N[k], a) <==> k == MicralCard(a)
  {
    MemoryRange(MICRAL_N[k], a);
  }

  // With a single ROM no card answers between the two first kilobytes and the RAM.
  lemma AtMostOneMemoryCard(a: Address, j: nat, k: nat)
    requires j < 7 && k < 7
    ensures MemoryAddressed(SINGLE_ROM[j], a) && MemoryAddressed(SINGLE_ROM[k], a) ==> j == k
    ensures 0x0800 <= a < 0x1000 <==> forall i :: 0 <= i < 7 ==> !MemoryAddressed(SINGLE_ROM[i], a)
  {
    hide MemoryAddressed;
    forall i | 0 <= i < 7
      ensures MemoryAddressed(SINGLE_ROM[i], a) <==> SingleRomStart(i) <= a < SingleRomStart(i) + 2048
    {
      MemoryRange(SINGLE_ROM[i], a);
    }
    var card := if a < 0x1000 then 0 else a / 2048 - 1;
    assert !(0x0800 <= a < 0x1000) ==> MemoryAddressed(SINGLE_ROM[card], a);
  }

  function SingleRomStart(k: nat): nat {
    if k == 0 then 0 else (k + 1) * 2048
  }

  // Cards of the I/O space. An input has neither S13 nor S12.

  predicate IsInput(a: Address) { Bits(a, 13, 12) == 0 }

  datatype IoMode = Input32Output32 | Input64 | Output64

  datatype IoSelection =
    | IoCard(mode: IoMode, selection: Byte)
    | StackChannel(input: Byte, output: Byte)
    | DiskController(selection: Byte)

  predicate IoAddressed(c: IoSelection, a: Address) {
    match c
    case IoCard(Input32Output32, selection) =>
      if IsInput(a) then Bits(a, 11, 9) == 0 && Bits(a, 2, 2) == selection % 2
      else Bits(a, 13, 11) == selection / 32
    case IoCard(Input64, selection) => Bits(a, 11, 9) * 32 + Bits(a, 7, 3) == selection
    case IoCard(Output64, selection) => Bits(a, 13, 12) * 64 == selection
    case StackChannel(input, output) =>
      if IsInput(a) then Bits(a, 11, 9) == input else Wrap(Bits(a, 13, 9) as int - 8) == output
    case DiskController(selection) =>
      if IsInput(a) then Bits(a, 11, 9) == 0 && a % 256 >= 0xFE
      else Bits(a, 13, 11) == selection / 32
  }

  // The cards of the simulator: terminal, disk channel, stack, disk controller.
  const SIMULATOR_IO: seq<IoSelection> := [
    IoCard(Input32Output32, 0x40),
    StackChannel(0x05, 0x15),
    StackChannel(0x06, 0x16),
    DiskController(0xA1)
  ]

  lemma HighBits(a: Address)
    ensures Bits(a, 13, 11) == a / 2048 && Bits(a, 13, 9) == a / 512
  {
  }

  lemma FieldsAsNumbers(a: Address)
    ensures Bits(a, 13, 12) == a / 0x1000 && Bits(a, 13, 11) == a / 0x800 && Bits(a, 13, 9) == a / 0x200
    ensures Bits(a, 11, 9) == a / 0x200 % 8 && Bits(a, 7, 3) == a / 8 % 32 && Bits(a, 2, 2) == a / 4 % 2
  {
  }

  // The addresses that select a card in the output space, whatever its selection.
  lemma OutputRanges(a: Address, x: Byte)
    requires a >= 0x1000
    ensures !IsInput(a)
    ensures IoAddressed(IoCard(Input32Output32, x), a) <==> x / 32 * 0x800 <= a < (x / 32 + 1) * 0x800
    ensures IoAddressed(DiskController(x), a) <==> x / 32 * 0x800 <= a < (x / 32 + 1) * 0x800
    ensures forall y: Byte ::
              IoAddressed(StackChannel(y, x), a) <==> (x + 8) * 0x200 <= a < (x + 9) * 0x200
  {
    hide Bits;
    FieldsAsNumbers(a);
  }

  // And in the input space.
  lemma InputRanges(a: Address, x: Byte)
    requires a < 0x1000
    ensures IsInput(a)
    ensures IoAddressed(IoCard(Input32Output32, x), a) <==> a < 0x200 && a / 4 % 2 == x % 2
    ensures IoAddressed(DiskController(x), a) <==> a in {0x0FE, 0x0FF, 0x1FE, 0x1FF}
    ensures forall y: Byte ::
              IoAddressed(StackChannel(x, y), a) <==> x * 0x200 <= a < (x + 1) * 0x200
  {
    hide Bits;
    FieldsAsNumbers(a);
  }

  // A card of outputs only, and one of inputs only, which looks at the same bits of any address.
  lemma OutputsOnly(a: Address, x: Byte)
    ensures IoAddressed(IoCard(Output64, x), a) <==> x % 64 == 0 && x * 64 <= a < x * 64 + 0x1000
  {
    hide Bits;
    FieldsAsNumbers(a);
  }

  lemma InputsOnly(a: Address, x: Byte)
    ensures IoAddressed(IoCard(Input64, x), a)
            <==> x / 32 * 0x200 <= a % 0x1000 < (x / 32 + 1) * 0x200 && a / 8 % 32 == x % 32
  {
    hide Bits, IoAddressed;
    GroupOfInputs(a);
    SelectsInputs(a, x);
    Halves(a / 0x200 % 8, a / 8 % 32, x);
  }

  lemma SelectsInputs(a: Address, x: Byte)
    ensures IoAddressed(IoCard(Input64, x), a) <==> a / 0x200 % 8 * 32 + a / 8 % 32 == x
  {
    hide Bits;
    FieldsAsNumbers(a);
  }

  lemma Halves(group: nat, rest: nat, x: nat)
    requires rest < 32
    ensures group * 32 + rest == x <==> group == x / 32 && rest == x % 32
  {
  }

  lemma GroupOfInputs(a: Address)
    ensures a / 0x200 % 8 == a % 0x1000 / 0x200
  {
  }

  // What selects the cards of the simulator in the output space.
  lemma OutputSelection(a: Address)
    requires !IsInput(a)
    ensures IoAddressed(SIMULATOR_IO[0], a) <==> 0x1000 <= a < 0x1800
    ensures IoAddressed(SIMULATOR_IO[1], a) <==> 0x3A00 <= a < 0x3C00
    ensures IoAddressed(SIMULATOR_IO[2], a) <==> 0x3C00 <= a < 0x3E00
    ensures IoAddressed(SIMULATOR_IO[3], a) <==> 0x2800 <= a < 0x3000
  {
    hide Bits, IsInput;
    HighBits(a);
  }

  lemma InputSelection(a: Address)
    requires IsInput(a)
    ensures IoAddressed(SIMULATOR_IO[0], a) <==> a < 0x200 && a / 4 % 2 == 0
    ensures IoAddressed(SIMULATOR_IO[1], a) <==> 0xA00 <= a < 0xC00
    ensures IoAddressed(SIMULATOR_IO[2], a) <==> 0xC00 <= a < 0xE00
    ensures IoAddressed(SIMULATOR_IO[3], a) <==> a in {0x0FE, 0x0FF, 0x1FE, 0x1FF}
  {
  }

  // No I/O address selects two cards of the simulator.
  lemma AtMostOneIoCard(a: Address, j: nat, k: nat)
    requires j < 4 && k < 4 && IoAddressed(SIMULATOR_IO[j], a) && IoAddressed(SIMULATOR_IO[k], a)
    ensures j == k
  {
    if IsInput(a) {
      InputSelection(a);
    } else {
      OutputSelection(a);
    }
  }

  // The cards that can answer at the end of T2: a memory card in a reading cycle, and a card of the
  // I/O space in an input.

  datatype Slot = MemorySlot(memory: MemorySelection) | IoSlot(io: IoSelection)

  predicate Answers(slot: Slot, a: Address, cc: CycleControl) {
    match slot
    case MemorySlot(memory) => cc in {PCI, PCR} && MemoryAddressed(memory, a)
    case IoSlot(io) => cc.PCC? && IsInput(a) && IoAddressed(io, a)
  }

  ghost predicate Exclusive(slots: seq<Slot>) {
    forall a: Address, cc: CycleControl, j: nat, k: nat ::
      j < |slots| && k < |slots| && Answers(slots[j], a, cc) && Answers(slots[k], a, cc) ==> j == k
  }

  // The cards of a simulator with the given memory.
  function Slots(memory: seq<MemorySelection>): (slots: seq<Slot>)
    ensures |slots| == |memory| + |SIMULATOR_IO|
  {
    seq(|memory|, k requires 0 <= k < |memory| => MemorySlot(memory[k]))
    + seq(|SIMULATOR_IO|, k requires 0 <= k < |SIMULATOR_IO| => IoSlot(SIMULATOR_IO[k]))
  }

  // Whatever the address and the kind of cycle, at most one card of the simulator answers, in each of
  // its two configurations.
  lemma SimulatorExclusive()
    ensures Exclusive(Slots(MICRAL_N)) && Exclusive(Slots(SINGLE_ROM))
  {
    forall a: Address, cc: CycleControl, j: nat, k: nat |
      j < |Slots(MICRAL_N)| && k < |Slots(MICRAL_N)| && Answers(Slots(MICRAL_N)[j], a, cc)
      && Answers(Slots(MICRAL_N)[k], a, cc)
      ensures j == k
    {
      OneMicralAnswers(a, cc, j, k);
    }
    forall a: Address, cc: CycleControl, j: nat, k: nat |
      j < |Slots(SINGLE_ROM)| && k < |Slots(SINGLE_ROM)| && Answers(Slots(SINGLE_ROM)[j], a, cc)
      && Answers(Slots(SINGLE_ROM)[k], a, cc)
      ensures j == k
    {
      OneSingleRomAnswers(a, cc, j, k);
    }
  }

  // The whole map of the Micral N: which slot answers which address, in each kind of cycle.
  lemma MicralAnswers(a: Address, cc: CycleControl, k: nat)
    requires k < 11
    ensures |Slots(MICRAL_N)| == 11
    ensures Answers(Slots(MICRAL_N)[k], a, cc)
            <==> if k < 7 then (cc == PCI || cc == PCR) && k == MicralCard(a)
                 else
                   && cc == PCC
                   && (k == 7 ==> a < 0x200 && a / 4 % 2 == 0)
                   && (k == 8 ==> 0xA00 <= a < 0xC00)
                   && (k == 9 ==> 0xC00 <= a < 0xE00)
                   && (k == 10 ==> a in {0x0FE, 0x0FF, 0x1FE, 0x1FF})
  {
    hide MemoryAddressed, IoAddressed, MicralCard;
    InputsAreLow(a);
    if k < 7 {
      OneMemoryCard(a, k);
    } else if IsInput(a) {
      InputSelection(a);
    }
  }

  lemma InputsAreLow(a: Address)
    ensures IsInput(a) <==> a < 0x1000
  {
  }

  lemma OneMicralAnswers(a: Address, cc: CycleControl, j: nat, k: nat)
    requires j < |Slots(MICRAL_N)| && k < |Slots(MICRAL_N)|
    requires Answers(Slots(MICRAL_N)[j], a, cc) && Answers(Slots(MICRAL_N)[k], a, cc)
    ensures j == k
  {
    hide MemoryAddressed, IoAddressed, IsInput;
    var n := |MICRAL_N|;
    if cc.PCC? {
      AtMostOneIoCard(a, j - n, k - n);
    } else {
      OneMemoryCard(a, j);
      OneMemoryCard(a, k);
    }
  }

  lemma OneSingleRomAnswers(a: Address, cc: CycleControl, j: nat, k: nat)
    requires j < |Slots(SINGLE_ROM)| && k < |Slots(SINGLE_ROM)|
    requires Answers(Slots(SINGLE_ROM)[j], a, cc) && Answers(Slots(SINGLE_ROM)[k], a, cc)
    ensures j == k
  {
    hide MemoryAddressed, IoAddressed, IsInput;
    var n := |SINGLE_ROM|;
    if cc.PCC? {
      AtMostOneIoCard(a, j - n, k - n);
    } else {
      AtMostOneMemoryCard(a, j, k);
    }
  }
}
