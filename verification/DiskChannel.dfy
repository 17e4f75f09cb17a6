/** The disk channel: the disk controller hands its bytes one at a time to the stack channel card, which
    stores them in its memory. */
module DiskChannel {
  import opened Bytes

  // A scheduled signal: its level, when it rises and falls, and its activation time.
  datatype Pulse = Pulse(level: bool, timeToSetHigh: nat, timeToSetLow: nat, wake: Option<nat>)

  // None where the source asserts that the previous pulse is over.
  function Launched(p: Pulse, start: nat, duration: nat): Option<Pulse> {
    if p.wake.Some? then None else Some(Pulse(p.level, start, start + duration, Some(start)))
  }

  function PulseStepped(p: Pulse): Pulse
    requires p.wake.Some?
  {
    if p.wake.value == p.timeToSetHigh then p.(level := true, wake := Some(p.timeToSetLow))
    else if p.wake.value == p.timeToSetLow then p.(level := false, wake := None)
    else p
  }

  datatype Mode = StackMode | ChannelMode

  // The stack channel card: its memory, where the next byte goes, how many are expected.
  datatype Card = Card(mode: Mode, data: seq<Byte>, pointer: nat, counter: nat, allowed: bool, ended: bool)

  predicate ValidCard(c: Card) {
    c.data != [] && c.pointer < |c.data|
  }

  function Pushed(c: Card, value: Byte): (r: Card)
    requires ValidCard(c)
    ensures ValidCard(r)
  {
    c.(data := c.data[c.pointer := value], pointer := (c.pointer + 1) % |c.data|)
  }

  function Popped(c: Card): (r: Card)
    requires ValidCard(c)
    ensures ValidCard(r)
  {
    c.(pointer := if c.pointer > 0 then c.pointer - 1 else |c.data| - 1)
  }

  function Stopped(c: Card): Card { c.(counter := 0, allowed := false) }

  // A rise of the data transfer line. When the direction is low nothing is stored.
  function Transferred(c: Card, direction: bool, value: Byte): (r: Card)
    requires direction && c.counter > 0 ==> ValidCard(c)
    ensures ValidCard(c) ==> ValidCard(r)
  {
    if c.counter == 0 then c
    else
      var c1 := if direction then Pushed(c, value) else c;
      c1.(counter := c.counter - 1, allowed := false, ended := c.counter == 1)
  }

  // A channel expects one byte more than its counter says.
  function CounterLoaded(c: Card, value: nat): Card {
    c.(counter := if c.mode.ChannelMode? then value + 1 else value)
  }

  // What is pushed is popped first, and the pointer comes back.
  lemma PopAfterPush(c: Card, value: Byte)
    requires ValidCard(c)
    ensures var r := Popped(Pushed(c, value)); r.pointer == c.pointer && r.data[r.pointer] == value
  {
    NextPlace(c.pointer, 0, |c.data|);
    assert Pushed(c, value).pointer == if c.pointer + 1 == |c.data| then 0 else c.pointer + 1;
  }

  class StackChannelCard {
    const mode: Mode
    const data: array<Byte>
    var dataPointer: nat
    var dataCounter: nat
    var transferAllowed: bool
    var endOfTransfer: bool

    ghost predicate Valid()
      reads this
    {
      0 < data.Length
    }

    // A new pointer can be any address; a byte is stored or popped only inside the memory.
    ghost predicate PointerInside()
      reads this
    {
      dataPointer < data.Length
    }

    ghost function Value(): (c: Card)
      requires Valid()
      reads this, data
      ensures ValidCard(c) <==> PointerInside()
    {
      Card(mode, data[..], dataPointer, dataCounter, transferAllowed, endOfTransfer)
    }

    constructor (mode: Mode, memorySize: nat)
      requires memorySize > 0
      ensures Valid() && PointerInside() && fresh(data) && data.Length == memorySize && this.mode == mode
      ensures dataPointer == 0 && dataCounter == 0 && !transferAllowed && !endOfTransfer
    {
      this.mode := mode;
      data := new Byte[memorySize](_ => 0);
      dataPointer, dataCounter, transferAllowed, endOfTransfer := 0, 0, false, false;
    }

    method OnT3(falling: bool)
      requires Valid()
      modifies this`transferAllowed
      ensures Valid()
      ensures Value() == if falling && old(dataCounter) > 0 then old(Value()).(allowed := true) else old(Value())
    {
      if falling && dataCounter > 0 && !transferAllowed {
        transferAllowed := true;
      }
    }

    method PopData() returns (value: Byte)
      requires Valid() && PointerInside()
      modifies this`dataPointer
      ensures Valid() && Value() == Popped(old(Value())) && value == data[dataPointer]
    {
      if dataPointer > 0 {
        dataPointer := dataPointer - 1;
      } else {
        dataPointer := data.Length - 1;
      }
      value := data[dataPointer];
    }

    method PopDataToBus() returns (value: Byte)
      requires Valid() && PointerInside()
      modifies this`dataPointer, this`dataCounter, this`transferAllowed
      ensures Valid() && Value() == Popped(Stopped(old(Value()))) && value == data[dataPointer]
      ensures dataCounter == 0 && !transferAllowed && data[..] == old(data[..])
    {
      dataCounter := 0;
      transferAllowed := false;
      value := PopData();
    }

    method PushData(value: Byte)
      requires Valid() && PointerInside()
      modifies this`dataPointer, data
      ensures Valid() && Value() == Pushed(old(Value()), value)
    {
      data[dataPointer] := value;
      dataPointer := (dataPointer + 1) % data.Length;
    }

    // The byte is the low part of the address of an output.
    method PushDataFromBus(address: nat)
      requires Valid() && PointerInside()
      modifies this`dataPointer, this`dataCounter, this`transferAllowed, data
      ensures Valid() && Value() == Pushed(Stopped(old(Value())), address % 256)
      ensures dataCounter == 0 && !transferAllowed && data[..] == old(data[..])[old(dataPointer) := address % 256]
    {
      dataCounter := 0;
      transferAllowed := false;
      PushData(address % 256);
    }

    method OnApplyPointerAddress(rising: bool, newPointerAddress: nat)
      requires Valid()
      modifies this`dataPointer, this`dataCounter, this`transferAllowed
      ensures Valid()
      ensures Value() == if rising then Stopped(old(Value())).(pointer := newPointerAddress) else old(Value())
      ensures rising ==> dataPointer == newPointerAddress && dataCounter == 0 && !transferAllowed
    {
      if rising {
        dataPointer := newPointerAddress;
        dataCounter := 0;
        transferAllowed := false;
      }
    }

    method OnApplyCounter(rising: bool, newCounterValue: nat)
      requires Valid()
      modifies this`dataCounter
      ensures Valid()
      ensures Value() == if rising then CounterLoaded(old(Value()), newCounterValue) else old(Value())
      ensures rising ==> dataCounter == newCounterValue + (if mode == ChannelMode then 1 else 0)
    {
      if rising {
        dataCounter := newCounterValue;
        if mode == ChannelMode {
          dataCounter := dataCounter + 1;
        }
      }
    }

    method OnDataTransfer(rising: bool, direction: bool, inputData: Byte)
      requires Valid() && (rising && direction && dataCounter > 0 ==> PointerInside())
      modifies this`dataPointer, this`dataCounter, this`transferAllowed, this`endOfTransfer, data
      ensures Valid() && Value() == if rising then Transferred(old(Value()), direction, inputData) else old(Value())
      ensures rising && old(dataCounter) > 0 ==>
                && dataCounter == old(dataCounter) - 1 && !transferAllowed && (endOfTransfer <==> dataCounter == 0)
                && data[..] == if direction then old(data[..])[old(dataPointer) := inputData] else old(data[..])
    {
      if rising && dataCounter != 0 {
        dataCounter := dataCounter - 1;
        if direction {
          PushData(inputData);
        }
        transferAllowed := false;
        endOfTransfer := dataCounter == 0;
      }
    }
  }

  // The disk: ten tracks, and the byte at an index of a sector.
  datatype Reader = Reader(track: nat, sector: nat, index: nat)

  type Provider = (nat, nat, nat) -> Byte

  class DiskReader {
    const trackCount: nat
    const provider: Provider
    var track: nat
    var sector: nat
    var indexInSector: nat

    ghost function Value(): Reader
      reads this
    {
      Reader(track, sector, indexInSector)
    }

    constructor (trackCount: nat, provider: Provider)
      requires trackCount > 0
      ensures this.trackCount == trackCount && this.provider == provider && Value() == Reader(0, 0, 0)
    {
      this.trackCount, this.provider := trackCount, provider;
      track, sector, indexInSector := 0, 0, 0;
    }

    method StepTrack(next: bool)
      requires track < trackCount
      modifies this`track
      ensures track < trackCount
      ensures next ==> track == (old(track) + 1) % trackCount
      ensures !next ==> old(track) == (track + 1) % trackCount
    {
      if next {
        track := (track + 1) % trackCount;
      } else {
        track := (if track == 0 then trackCount else track) - 1;
      }
    }

    // The index starts again only when the sector changes.
    method SeekSector(newSector: nat)
      modifies this`sector, this`indexInSector
      ensures sector == newSector
      ensures indexInSector == if newSector == old(sector) then old(indexInSector) else 0
    {
      if newSector != sector {
        sector := newSector;
        indexInSector := 0;
      }
    }

    method ReadData() returns (data: Byte)
      modifies this`indexInSector
      ensures data == provider(track, sector, old(indexInSector)) && indexInSector == old(indexInSector) + 1
    {
      data := provider(track, sector, indexInSector);
      indexInSector := indexInSector + 1;
    }
  }

  // The controller and the card, connected. thrown tells that a pulse was launched over another.
  datatype System = System(
    card: Card,
    reader: Reader,
    output: Byte,
    pulse: Pulse,            // available data
    direction: bool,
    sending: bool,           // status.sending_to_channel, set and cleared with status.reading
    now: nat,
    thrown: bool)

  datatype Event = T3Falls(time: nat) | PulseDue

  const PULSE_WIDTH: nat := 100

  // Time goes on; what is due comes first; the falls of T3 are more than a pulse apart.
  predicate CanHappen(s: System, e: Event) {
    match e
    case T3Falls(time) => s.now + PULSE_WIDTH < time && (s.pulse.wake.Some? ==> time < s.pulse.wake.value)
    case PulseDue => s.pulse.wake.Some?
  }

  function OnT3(provider: Provider, s: System, time: nat): System {
    var s1 := s.(now := time);
    if s.card.counter == 0 || s.card.allowed then s1
    else
      var pulse := Launched(s.pulse, time, PULSE_WIDTH);
      if pulse.None? then s1.(thrown := true)
      else
        s1.(card := s.card.(allowed := true), reader := s.reader.(index := s.reader.index + 1),
            output := provider(s.reader.track, s.reader.sector, s.reader.index), pulse := pulse.value, sending := true)
  }

  // The card takes the byte on the rise of the pulse; the disk hears the rise of the end of transfer.
  function OnPulse(s: System): System
    requires ValidCard(s.card) && s.pulse.wake.Some?
  {
    var pulse := PulseStepped(s.pulse);
    if pulse.level && !s.pulse.level then
      var card := Transferred(s.card, s.direction, s.output);
      s.(card := card, pulse := pulse, sending := s.sending && !(card.ended && !s.card.ended))
    else s.(pulse := pulse)
  }

  function Happen(provider: Provider, s: System, e: Event): (r: System)
    requires ValidCard(s.card) && CanHappen(s, e)
    ensures ValidCard(r.card)
  {
    match e
    case T3Falls(time) => OnT3(provider, s, time)
    case PulseDue => OnPulse(s)
  }

  // The k-th place from a pointer on, around the memory.
  function Place(pointer: nat, k: nat, size: nat): nat {
    if pointer + k < size then pointer + k else pointer + k - size
  }

  lemma PlaceIsModulo(pointer: nat, k: nat, size: nat)
    requires pointer < size && k <= size
    ensures Place(pointer, k, size) == (pointer + k) % size
  {
    if pointer + k < size {
      SmallModulo(pointer + k, size);
    } else {
      SmallModulo(pointer + k - size, size);
      assert (size + (pointer + k - size)) % size == (pointer + k - size) % size;
    }
  }

  lemma SmallModulo(x: nat, size: nat)
    requires x <= size && size > 0
    ensures x % size == if x < size then x else 0
  {
  }

  // A byte has left the disk and has not reached the card.
  predicate InFlight(s: System) {
    s.pulse.wake == Some(s.pulse.timeToSetHigh) && !s.pulse.level
  }

  // The handshake between a request and the next one.
  predicate Orderly(s: System) {
    && ValidCard(s.card) && s.direction && !s.thrown
    && s.pulse.timeToSetLow == s.pulse.timeToSetHigh + PULSE_WIDTH
    && (s.pulse.wake.Some? ==> s.pulse.timeToSetHigh <= s.now)
    && (s.pulse.wake.None? ==> !s.pulse.level)
    && (s.pulse.wake.Some?
       ==> s.pulse.wake.value == if s.pulse.level then s.pulse.timeToSetLow else s.pulse.timeToSetHigh)
    && (s.card.allowed <==> InFlight(s))
    && (InFlight(s) ==> s.card.counter > 0)
  }

  // The first bytes of a sector from an index on are in memory from a pointer on, and the rest is as it was.
  ghost predicate Stores(provider: Provider, from: Reader, pointer: nat, stored: nat, before: seq<Byte>,
      after: seq<Byte>)
    requires |before| == |after| && pointer < |before|
  {
    && (forall k :: 0 <= k < stored && k < |after| ==>
          after[Place(pointer, k, |after|)] == provider(from.track, from.sector, from.index + k))
    && (forall k :: stored <= k < |after| ==>
          after[Place(pointer, k, |after|)] == before[Place(pointer, k, |after|)])
  }

  lemma StoresNext(provider: Provider, from: Reader, pointer: nat, stored: nat, before: seq<Byte>, after: seq<Byte>)
    requires |before| == |after| && pointer < |before| && stored < |after|
    requires Stores(provider, from, pointer, stored, before, after)
    ensures var value := provider(from.track, from.sector, from.index + stored);
            Stores(provider, from, pointer, stored + 1, before, after[Place(pointer, stored, |after|) := value])
  {
  }

  lemma NextPlace(pointer: nat, k: nat, size: nat)
    requires pointer < size && k < size
    ensures (Place(pointer, k, size) + 1) % size == Place(pointer, k + 1, size)
  {
    var p := Place(pointer, k, size);
    if p + 1 < size {
      assert (p + 1) % size == p + 1;
    } else {
      assert (p + 1) % size == 0;
    }
  }

  // Since a first state s0 in which nothing was in flight, the bytes taken from the disk are stored one
  // after the other from its pointer on, but for the one in flight.
  ghost predicate Conserves(provider: Provider, s0: System, s: System) {
    && Orderly(s0) && Orderly(s) && s0.card.counter <= |s0.card.data| == |s.card.data|
    && s.card.counter <= s0.card.counter
    && var stored := s0.card.counter - s.card.counter;
       && s.reader == s0.reader.(index := s0.reader.index + stored + (if InFlight(s) then 1 else 0))
       && s.card.mode == s0.card.mode
       && s.card.pointer == Place(s0.card.pointer, stored, |s.card.data|)
       && (InFlight(s) ==> s.output == provider(s0.reader.track, s0.reader.sector, s0.reader.index + stored))
       && Stores(provider, s0.reader, s0.card.pointer, stored, s0.card.data, s.card.data)
       && Ends(s0, s, stored)
  }

  // The end line is high exactly when the last byte has been stored, and as it was before the first one.
  // The disk is sending from the first request to the rise of the end line.
  predicate Ends(s0: System, s: System, stored: nat) {
    && s.card.ended == (if stored == 0 then s0.card.ended else s.card.counter == 0)
    && (stored > 0 && s.card.counter > 0 ==> s.sending)
    && (stored > 0 && s.card.counter == 0 ==> s.sending == (stored == 1 && s0.card.ended))
    && (InFlight(s) ==> s.sending)
    && (stored == 0 && !InFlight(s) ==> s.sending == s0.sending)
  }

  lemma RequestConserves(provider: Provider, s0: System, s: System, time: nat)
    requires Conserves(provider, s0, s) && CanHappen(s, T3Falls(time))
    ensures Conserves(provider, s0, Happen(provider, s, T3Falls(time)))
  {
  }

  // The pulse rises, and the byte is stored.
  lemma RiseConserves(provider: Provider, s0: System, s: System)
    requires Conserves(provider, s0, s) && InFlight(s)
    ensures Conserves(provider, s0, OnPulse(s))
  {
    hide Stores, Place;
    var stored := s0.card.counter - s.card.counter;
    StoresNext(provider, s0.reader, s0.card.pointer, stored, s0.card.data, s.card.data);
    NextPlace(s0.card.pointer, stored, |s.card.data|);
  }

  lemma FallConserves(provider: Provider, s0: System, s: System)
    requires Conserves(provider, s0, s) && s.pulse.wake.Some? && s.pulse.level
    ensures Conserves(provider, s0, OnPulse(s))
  {
    hide Transferred;
  }

  lemma PulseConserves(provider: Provider, s0: System, s: System)
    requires Conserves(provider, s0, s) && CanHappen(s, PulseDue)
    ensures Conserves(provider, s0, Happen(provider, s, PulseDue))
  {
    if s.pulse.level {
      FallConserves(provider, s0, s);
    } else {
      RiseConserves(provider, s0, s);
    }
  }

  ghost predicate IsRun(provider: Provider, s: System, events: seq<Event>, r: System)
    requires ValidCard(s.card)
    decreases |events|
  {
    if events == [] then r == s
    else CanHappen(s, events[0]) && IsRun(provider, Happen(provider, s, events[0]), events[1..], r)
  }

  // In every run: what is stored and what is still expected make up what was asked for, the disk is one
  // byte ahead exactly while a byte is in flight, and no pulse is launched over another.
  lemma {:induction false} RunConserves(provider: Provider, s0: System, s: System, events: seq<Event>, r: System)
    requires ValidCard(s.card) && Conserves(provider, s0, s) && IsRun(provider, s, events, r)
    ensures Conserves(provider, s0, r)
    decreases |events|
  {
    hide Happen, CanHappen, Conserves;
    if events != [] {
      if events[0].T3Falls? {
        RequestConserves(provider, s0, s, events[0].time);
      } else {
        PulseConserves(provider, s0, s);
      }
      RunConserves(provider, s0, Happen(provider, s, events[0]), events[1..], r);
    }
  }

  // The counter is loaded with n in a channel: once it is back to zero exactly the next n + 1 bytes of
  // the sector are in memory, from the pointer on around it, and nothing else has changed.
  lemma ChannelTransfer(provider: Provider, s: System, n: nat, events: seq<Event>, r: System)
    requires Orderly(s) && !InFlight(s) && s.card.mode.ChannelMode? && n + 1 <= |s.card.data|
    requires IsRun(provider, s.(card := CounterLoaded(s.card, n)), events, r) && r.card.counter == 0
    ensures |r.card.data| == |s.card.data| && !r.thrown && r.card.ended
    ensures r.sending == (n == 0 && s.card.ended)
    ensures r.reader == s.reader.(index := s.reader.index + n + 1)
    ensures forall k :: 0 <= k < |s.card.data| ==>
              r.card.data[Place(s.card.pointer, k, |s.card.data|)]
              == if k <= n then provider(s.reader.track, s.reader.sector, s.reader.index + k)
                 else s.card.data[Place(s.card.pointer, k, |s.card.data|)]
    ensures r.card.pointer == Place(s.card.pointer, n + 1, |s.card.data|)
  {
    var s0 := s.(card := CounterLoaded(s.card, n));
    assert Stores(provider, s0.reader, s0.card.pointer, 0, s0.card.data, s0.card.data);
    assert Conserves(provider, s0, s0);
    RunConserves(provider, s0, s0, events, r);
  }

  // The transfer goes on: the fall of T3 requests a byte whenever one is expected and none is in flight,
  // and its pulse stores it.
  lemma EachT3Stores(provider: Provider, s: System, time: nat)
    requires Orderly(s) && CanHappen(s, T3Falls(time)) && 0 < s.card.counter && !InFlight(s)
    ensures var s1 := Happen(provider, s, T3Falls(time));
            var s2 := if InFlight(s1) then Happen(provider, s1, PulseDue) else s1;
            var c := s.card;
            && InFlight(s1) && s1.card.allowed && s1.sending && !s2.card.allowed
            && s2.card.counter == c.counter - 1 && s2.card.ended == (c.counter == 1)
            && s2.card.data == c.data[c.pointer := provider(s.reader.track, s.reader.sector, s.reader.index)]
            && s2.card.pointer == (if c.pointer + 1 == |c.data| then 0 else c.pointer + 1)
            && s2.reader == s.reader.(index := s.reader.index + 1) && s2.card.mode == c.mode
            && s1.pulse == Pulse(false, time, time + 100, Some(time))
            && s2.pulse == Pulse(true, time, time + 100, Some(time + 100))
  {
    NextPlace(s.card.pointer, 0, |s.card.data|);
  }

  // The last byte ends the transfer for the disk exactly when the end line was low.
  lemma EndHeard(s: System)
    requires Orderly(s) && InFlight(s) && s.card.counter == 1 && s.sending
    ensures OnPulse(s).card.ended && (!OnPulse(s).sending <==> !s.card.ended)
  {
  }
}
