/** A memory card: pages read from a buffer or from a ROM that masks the first page until the first
    restart. */
module MemoryCards {
  import opened Bytes
  import opened Microcode
  import opened Addressing
  import Isa

  const PAGE_SIZE: nat := 256

  datatype AccessType = Ram | Rom | RomRam256

  // The value of a card. switched tells that the first page is no longer masked.
  datatype Card = Card(selection: MemorySelection, access: AccessType, buffer: seq<Byte>, maskedRom: seq<Byte>,
                       switched: bool)

  predicate ValidCard(c: Card) {
    && c.selection.mask < 8
    && |c.buffer| == Length(c.selection)
    && (c.access.RomRam256? ==> |c.maskedRom| == PAGE_SIZE)
  }

  predicate Masked(c: Card, local: nat) {
    c.access.RomRam256? && !c.switched && local < PAGE_SIZE
  }

  function LocalAddress(c: Card, a: Address): (local: nat)
    requires ValidCard(c) && MemoryAddressed(c.selection, a)
    ensures local < |c.buffer| && local == a - StartAddress(c.selection)
  {
    MemoryRange(c.selection, a);
    a - StartAddress(c.selection)
  }

  function ReadData(c: Card, a: Address): Byte
    requires ValidCard(c) && MemoryAddressed(c.selection, a)
  {
    var local := LocalAddress(c, a);
    if Masked(c, local) then c.maskedRom[local] else c.buffer[local]
  }

  function WriteData(c: Card, a: Address, data: Byte): (r: Card)
    requires ValidCard(c) && MemoryAddressed(c.selection, a)
    ensures ValidCard(r) && r.selection == c.selection && r.access == c.access
  {
    if c.access.Rom? then c else c.(buffer := c.buffer[LocalAddress(c, a) := data])
  }

  const RST_0: Byte := 0x05

  // What reaches a card: the end of T2, the end of T'3, and the rise of phase 2 in T3.
  datatype Signal =
    | EndOfT2(a: Address, cc: CycleControl)
    | EndOfT3Prime(a: Address, cc: CycleControl, data: Byte)
    | Phase2InT3(cc: CycleControl, md: Byte)

  predicate Writes(c: Card, s: Signal) {
    s.EndOfT3Prime? && s.cc.PCW? && MemoryAddressed(c.selection, s.a)
  }

  predicate Unmasks(c: Card, s: Signal) {
    s.Phase2InT3? && s.cc.PCI? && s.md == RST_0 && c.access.RomRam256?
  }

  function Receive(c: Card, s: Signal): (r: Card)
    requires ValidCard(c)
    ensures ValidCard(r) && r.selection == c.selection && r.access == c.access && r.maskedRom == c.maskedRom
  {
    if Writes(c, s) then WriteData(c, s.a, s.data)
    else if Unmasks(c, s) then c.(switched := true)
    else c
  }

  // What the card gives back at the end of T2, if it is addressed.
  function Answer(c: Card, s: Signal): Option<Byte>
    requires ValidCard(c)
  {
    if s.EndOfT2? && s.cc in {PCI, PCR} && MemoryAddressed(c.selection, s.a) then Some(ReadData(c, s.a)) else None
  }

  function ReceiveAll(c: Card, signals: seq<Signal>): (r: Card)
    requires ValidCard(c)
    ensures ValidCard(r) && r.selection == c.selection && r.access == c.access && r.maskedRom == c.maskedRom
    decreases |signals|
  {
    if signals == [] then c else Receive(ReceiveAll(c, signals[..|signals| - 1]), signals[|signals| - 1])
  }

  // The byte that the last write cycle at an address left, if there was one.
  function LastWritten(c: Card, signals: seq<Signal>, a: Address): Option<Byte>
    decreases |signals|
  {
    if signals == [] then None
    else
      var s := signals[|signals| - 1];
      if Writes(c, s) && s.a == a then Some(s.data) else LastWritten(c, signals[..|signals| - 1], a)
  }

  // The restart of level 0 is fetched: its opcode is on the data bus in T3 of a fetch.
  predicate FetchesRestart(s: Signal) {
    s.Phase2InT3? && s.cc.PCI? && Isa.Meaning(s.md) == Isa.Restart(0)
  }

  ghost predicate Restarted(signals: seq<Signal>) {
    exists k :: 0 <= k < |signals| && FetchesRestart(signals[k])
  }

  // What opens the first page of a card that masks it is that restart, and its opcode is 5.
  lemma UnmasksIsRestart(c: Card, s: Signal)
    ensures Unmasks(c, s) <==> c.access.RomRam256? && FetchesRestart(s)
    ensures FetchesRestart(s) <==> s.Phase2InT3? && s.cc.PCI? && s.md == 5
  {
  }

  lemma RestartedOnce(signals: seq<Signal>)
    requires signals != []
    ensures Restarted(signals) <==> Restarted(signals[..|signals| - 1]) || FetchesRestart(signals[|signals| - 1])
  {
    hide FetchesRestart;
    var n := |signals| - 1;
    var before := signals[..n];
    if Restarted(signals) && !FetchesRestart(signals[n]) {
      var k :| 0 <= k < |signals| && FetchesRestart(signals[k]);
      assert FetchesRestart(before[k]);
    }
    if Restarted(before) {
      var k :| 0 <= k < |before| && FetchesRestart(before[k]);
      assert FetchesRestart(signals[k]);
    }
  }

  // The page is open exactly when it was open before or the restart has been fetched.
  lemma {:induction false} OpensOnRestart(c: Card, signals: seq<Signal>)
    requires ValidCard(c)
    ensures ReceiveAll(c, signals).switched <==> c.switched || (c.access.RomRam256? && Restarted(signals))
    decreases |signals|
  {
    hide FetchesRestart, WriteData, Restarted, Unmasks;
    if signals != [] {
      OpensOnRestart(c, signals[..|signals| - 1]);
      RestartedOnce(signals);
      UnmasksIsRestart(ReceiveAll(c, signals[..|signals| - 1]), signals[|signals| - 1]);
      ReceiveSwitches(ReceiveAll(c, signals[..|signals| - 1]), signals[|signals| - 1]);
    } else {
      NotRestarted();
    }
  }

  lemma NotRestarted()
    ensures !Restarted([])
  {
  }

  lemma ReceiveSwitches(c: Card, s: Signal)
    requires ValidCard(c)
    ensures Receive(c, s).switched <==> c.switched || Unmasks(c, s)
  {
    hide MemoryAddressed, LocalAddress;
  }

  // What the buffer of a card holds after any run of cycles: what the last write cycle at an address
  // wrote, even behind the ROM, if the card can be written; else what was loaded.
  lemma {:induction false} HoldsLastWritten(c: Card, signals: seq<Signal>, a: Address)
    requires ValidCard(c) && MemoryAddressed(c.selection, a)
    ensures ReceiveAll(c, signals).buffer[LocalAddress(c, a)]
         == if LastWritten(c, signals, a).Some? && !c.access.Rom? then LastWritten(c, signals, a).value
            else c.buffer[LocalAddress(c, a)]
    decreases |signals|
  {
    hide MemoryAddressed, StartAddress;
    if signals != [] {
      var before := signals[..|signals| - 1];
      HoldsLastWritten(c, before, a);
      var s := signals[|signals| - 1];
      if Writes(c, s) && s.a != a {
        assert LocalAddress(ReceiveAll(c, before), s.a) != LocalAddress(c, a);
      }
    }
  }

  // What an address reads: one of the first 256 reads the masked ROM until the restart of level 0 is
  // fetched, and every other one, and these from then on, what the buffer holds.
  lemma ReadsLastWritten(c: Card, signals: seq<Signal>, a: Address)
    requires ValidCard(c) && MemoryAddressed(c.selection, a)
    ensures var local := LocalAddress(c, a);
            ReadData(ReceiveAll(c, signals), a)
            == if c.access.RomRam256? && local < 256 && !c.switched && !Restarted(signals) then c.maskedRom[local]
               else if LastWritten(c, signals, a).Some? && !c.access.Rom? then LastWritten(c, signals, a).value
               else c.buffer[local]
  {
    hide ReceiveAll, LastWritten, Restarted;
    HoldsLastWritten(c, signals, a);
    OpensOnRestart(c, signals);
  }

  // Exactly the reading cycles of its addresses have an answer, what the card reads there.
  lemma AnswersReads(c: Card, a: Address, cc: CycleControl)
    requires ValidCard(c)
    ensures Answer(c, EndOfT2(a, cc)).Some? <==> Answers(MemorySlot(c.selection), a, cc)
    ensures Answer(c, EndOfT2(a, cc)).Some? ==> Answer(c, EndOfT2(a, cc)).value == ReadData(c, a)
  {
  }

  // Exactly the writing cycles of its addresses are writes.
  lemma WritesAre(c: Card, s: Signal)
    ensures Writes(c, s) <==> s.EndOfT3Prime? && s.cc == PCW && MemoryAddressed(c.selection, s.a)
  {
  }

  // The memory behind a page.
  datatype Page = OfBuffer(start: nat) | OfMaskedRom | NoMemory

  class MemoryCard {
    const selection: MemorySelection
    const access: AccessType
    const buffer: array<Byte>
    const maskedRom: array<Byte>
    var pageReaders: seq<Page>
    var pageWriters: seq<Page>

    ghost predicate Valid()
      reads this, buffer, maskedRom
    {
      && selection.mask < 8
      && buffer.Length == Length(selection)
      && buffer != maskedRom
      && maskedRom.Length == (if access.RomRam256? then PAGE_SIZE else 0)
      && |pageReaders| == |pageWriters| == buffer.Length / PAGE_SIZE
      && (forall k :: 0 < k < |pageReaders| ==> pageReaders[k] == OfBuffer(k * PAGE_SIZE))
      && pageReaders[0] in {OfBuffer(0), OfMaskedRom}
      && (pageReaders[0].OfMaskedRom? ==> access.RomRam256?)
      && (forall k :: 0 <= k < |pageWriters| ==>
            pageWriters[k] == if access.Rom? then NoMemory else OfBuffer(k * PAGE_SIZE))
    }

    ghost function Value(): (c: Card)
      requires Valid()
      reads this, buffer, maskedRom
      ensures ValidCard(c)
    {
      Card(selection, access, buffer[..], maskedRom[..], pageReaders[0].OfBuffer?)
    }

    constructor (selection: MemorySelection, access: AccessType)
      requires selection.mask < 8
      ensures Valid() && this.selection == selection && this.access == access && fresh(buffer) && fresh(maskedRom)
      ensures Value().switched == !access.RomRam256?
    {
      this.selection, this.access := selection, access;
      buffer := new Byte[Length(selection)](_ => 0);
      maskedRom := new Byte[if access.RomRam256? then PAGE_SIZE else 0](_ => 0);
      pageReaders, pageWriters := [], [];
      new;
      var pageCount := buffer.Length / PAGE_SIZE;
      for pageIndex := 0 to pageCount
        invariant |pageReaders| == |pageWriters| == pageIndex
        invariant forall k :: 0 <= k < pageIndex ==> pageReaders[k] == OfBuffer(k * PAGE_SIZE)
        invariant forall k :: 0 <= k < pageIndex ==>
                    pageWriters[k] == if access.Rom? then NoMemory else OfBuffer(k * PAGE_SIZE)
      {
        pageReaders := pageReaders + [OfBuffer(pageIndex * PAGE_SIZE)];
        pageWriters := pageWriters
                       + [if access.Ram? || access.RomRam256? then OfBuffer(pageIndex * PAGE_SIZE) else NoMemory];
      }
      if access.RomRam256? {
        pageReaders := pageReaders[0 := OfMaskedRom];
      }
    }

    // Data go to the masked ROM when there is one.
    method LoadData(dataToLoad: seq<Byte>)
      requires Valid()
      modifies buffer, maskedRom
      ensures Valid()
      ensures Value() == if access.RomRam256? then old(Value()).(maskedRom := Loaded(old(maskedRom[..]), dataToLoad))
                         else old(Value()).(buffer := Loaded(old(buffer[..]), dataToLoad))
    {
      hide Loaded;
      if maskedRom.Length == 0 {
        CopyInto(dataToLoad, buffer);
      } else {
        CopyInto(dataToLoad, maskedRom);
      }
    }

    method Read(a: Address) returns (data: Byte)
      requires Valid() && MemoryAddressed(selection, a)
      ensures data == ReadData(Value(), a)
    {
      MemoryRange(selection, a);
      var addressOnCard := a - StartAddress(selection);
      var pageNumber := addressOnCard / PAGE_SIZE;
      var addressInPage := addressOnCard - pageNumber * PAGE_SIZE;
      if pageReaders[pageNumber].OfBuffer? {
        data := buffer[pageReaders[pageNumber].start + addressInPage];
      } else {
        data := maskedRom[addressInPage];
      }
    }

    method Write(a: Address, data: Byte)
      requires Valid() && MemoryAddressed(selection, a)
      modifies buffer
      ensures Valid() && Value() == WriteData(old(Value()), a, data)
    {
      MemoryRange(selection, a);
      var addressOnCard := a - StartAddress(selection);
      var pageNumber := addressOnCard / PAGE_SIZE;
      var addressInPage := addressOnCard - pageNumber * PAGE_SIZE;
      hide MemoryAddressed, StartAddress;
      if pageWriters[pageNumber].OfBuffer? {
        buffer[pageWriters[pageNumber].start + addressInPage] := data;
      }
    }

    method OnPhase2(rising: bool, sync: bool, t3: bool, cc: CycleControl, md: Byte)
      requires Valid()
      modifies this`pageReaders
      ensures Valid()
      ensures Value() == if rising && !sync && t3 then Receive(old(Value()), Phase2InT3(cc, md)) else old(Value())
    {
      if access.RomRam256? && rising && !sync && t3 {
        if cc == PCI && md == RST_0 {
          pageReaders := pageReaders[0 := OfBuffer(0)];
        }
      }
    }

    method OnT3Prime(falling: bool, a: Address, cc: CycleControl, data: Byte)
      requires Valid()
      modifies buffer
      ensures Valid()
      ensures Value() == if falling then Receive(old(Value()), EndOfT3Prime(a, cc, data)) else old(Value())
    {
      if falling && cc == PCW && MemoryAddressed(selection, a) {
        Write(a, data);
      }
    }

    method OnT2(falling: bool, a: Address, cc: CycleControl) returns (dataToSend: Option<Byte>)
      requires Valid()
      ensures dataToSend == if falling then Answer(Value(), EndOfT2(a, cc)) else None
    {
      dataToSend := None;
      if falling && (cc == PCI || cc == PCR) && MemoryAddressed(selection, a) {
        var data := Read(a);
        dataToSend := Some(data);
      }
    }
  }

  // The beginning of a memory once data are loaded over it.
  function Loaded(memory: seq<Byte>, data: seq<Byte>): (r: seq<Byte>)
    ensures |r| == |memory|
    ensures forall k :: 0 <= k < |memory| ==> r[k] == if k < |data| then data[k] else memory[k]
  {
    if |data| < |memory| then data + memory[|data|..] else data[..|memory|]
  }

  method CopyInto(data: seq<Byte>, target: array<Byte>)
    modifies target
    ensures target[..] == Loaded(old(target[..]), data)
  {
    var sizeToCopy := if |data| < target.Length then |data| else target.Length;
    for k := 0 to sizeToCopy
      invariant target[..k] == data[..k]
      invariant target[k..] == old(target[k..])
    {
      target[k] := data[k];
    }
    assert target[..] == target[..sizeToCopy] + target[sizeToCopy..];
  }
}
