/** The processor in time with a memory card that masks its first page: what a read cycle returns is what
    the card answers, the ROM until the first restart and then the byte that the last write cycle at its
    address left. */
module Coherence {
  import opened Bytes
  import opened Microcode
  import opened CpuCore
  import opened CpuTiming
  import opened Timed
  import opened Addressing
  import opened MemoryCards
  import BusMachine
  import Isa

  // What a turn of the scheduler sends to the memory cards: T2 falls when the processor leaves it, and
  // T'3 when it leaves T3; the second rise of phase 2 comes while SYNC is low.
  function SignalOf(w: World, input: Input): Option<Signal>
    requires Timed.Consistent(w)
  {
    if w.cpu.core.faulted || w.contended then None
    else
      match Next(Raised(w, input))
      case OfProcessor =>
        if w.cpu.queue == [] || !w.cpu.queue[0].Change? then None
        else if w.cpu.core.state.T2? then Some(EndOfT2(w.address, w.control))
        else if w.cpu.core.state.T3? then Some(EndOfT3Prime(w.address, w.control, w.pins.value))
        else None
      case OfClock =>
        if w.phase == 2 && !w.cpu.firstCycle && w.cpu.core.state.T3? then Some(Phase2InT3(w.control, w.latch)) else None
      case OfCard => None
  }

  function Received(c: Card, s: Option<Signal>): (r: Card)
    requires ValidCard(c)
    ensures ValidCard(r) && r.selection == c.selection && r.access == c.access
  {
    if s.Some? then Receive(c, s.value) else c
  }

  // What a turn does to the memory.
  lemma MemoryTurn(board: Isa.Board, w: World, input: Input)
    requires Timed.Consistent(w)
    ensures var s := SignalOf(w, input);
            Tick(board, w, input).memory
            == if s.Some? && s.value.EndOfT3Prime? && s.value.cc.PCW? && board.writable(w.address)
               then w.memory[w.address := w.pins.value] else w.memory
  {
    hide SignalPhase1, SignalPhase2, CpuTiming.Step, PinsAfter, CycleControlOf;
  }

  lemma SignalBus(w: World, input: Input)
    requires Timed.Consistent(w)
    ensures var s := SignalOf(w, input);
            && (s.Some? && s.value.EndOfT3Prime? ==> s.value.a == w.address && s.value.data == w.pins.value)
            && (s.Some? && s.value.EndOfT2? ==> s.value.a == w.address && s.value.cc == w.control)
  {
  }

  // The byte latched at the end of T2.
  lemma LatchTurn(board: Isa.Board, w: World, input: Input)
    requires Timed.Consistent(w)
    ensures var s := SignalOf(w, input);
            s.Some? && s.value.EndOfT2? && s.value.cc in {PCI, PCR} ==>
              Tick(board, w, input).latch == w.memory[w.address]
  {
    hide SignalPhase1, SignalPhase2, CpuTiming.Step, PinsAfter, CycleControlOf;
  }

  predicate Masks(c: Card) { c.access.RomRam256? && !c.switched }

  predicate InFirstPage(c: Card, a: Address)
    requires ValidCard(c)
  {
    MemoryAddressed(c.selection, a) && LocalAddress(c, a) < PAGE_SIZE
  }

  // The memory of the world under the addresses of a card is what the card shows, and what can be
  // written there changes what it shows.
  ghost predicate Shows(board: Isa.Board, w: World, c: Card)
    requires Timed.Consistent(w)
  {
    && ValidCard(c)
    && forall a: Address :: MemoryAddressed(c.selection, a) ==>
         && w.memory[a] == ReadData(c, a)
         && (board.writable(a) <==> !c.access.Rom? && !MemoryCards.Masked(c, LocalAddress(c, a)))
  }

  // The same board while the first page is masked, and once it is open.
  ghost predicate Fit(masked: Isa.Board, open: Isa.Board, c: Card)
    requires ValidCard(c)
  {
    && masked.answer == open.answer
    && (forall a: Address :: MemoryAddressed(c.selection, a) ==> (open.writable(a) <==> !c.access.Rom?))
    && (forall a: Address ::
          masked.writable(a) <==> open.writable(a) && !(c.access.RomRam256? && InFirstPage(c, a)))
  }

  // The memory once the card shows the RAM of its first page.
  function Opened(memory: seq<Byte>, c: Card): (r: seq<Byte>)
    requires |memory| == Isa.SPACE && ValidCard(c)
    ensures |r| == |memory|
  {
    seq(Isa.SPACE, a requires 0 <= a < Isa.SPACE =>
      if InFirstPage(c, a) then c.buffer[LocalAddress(c, a)] else memory[a])
  }

  // The timed world with the card. Its memory changes by itself only when the page is opened.
  datatype Assembly = Assembly(world: World, card: Card)

  predicate Sane(x: Assembly) { Timed.Consistent(x.world) && ValidCard(x.card) }

  function BoardOf(masked: Isa.Board, open: Isa.Board, c: Card): Isa.Board {
    if Masks(c) then masked else open
  }

  function TakeTurn(masked: Isa.Board, open: Isa.Board, x: Assembly, input: Input): (r: Assembly)
    requires Sane(x)
    ensures Sane(r) && r.card.selection == x.card.selection && r.card.access == x.card.access
  {
    var c := Received(x.card, SignalOf(x.world, input));
    var w := Tick(BoardOf(masked, open, x.card), x.world, input);
    Assembly(if Masks(x.card) && !Masks(c) then w.(memory := Opened(w.memory, c)) else w, c)
  }

  function TakeTurns(masked: Isa.Board, open: Isa.Board, x: Assembly, inputs: seq<Input>): (r: Assembly)
    requires Sane(x)
    ensures Sane(r) && r.card.selection == x.card.selection && r.card.access == x.card.access
    decreases |inputs|
  {
    if inputs == [] then x
    else TakeTurn(masked, open, TakeTurns(masked, open, x, inputs[..|inputs| - 1]), inputs[|inputs| - 1])
  }

  // Everything the card has received in a run.
  function Signals(masked: Isa.Board, open: Isa.Board, x: Assembly, inputs: seq<Input>): seq<Signal>
    requires Sane(x)
    decreases |inputs|
  {
    if inputs == [] then []
    else
      var before := inputs[..|inputs| - 1];
      var s := SignalOf(TakeTurns(masked, open, x, before).world, inputs[|inputs| - 1]);
      Signals(masked, open, x, before) + if s.Some? then [s.value] else []
  }

  // The card of the run is the one that has received those signals.
  lemma {:induction false} CardReceives(masked: Isa.Board, open: Isa.Board, x: Assembly, inputs: seq<Input>)
    requires Sane(x)
    ensures TakeTurns(masked, open, x, inputs).card == ReceiveAll(x.card, Signals(masked, open, x, inputs))
    decreases |inputs|
  {
    hide Tick, SignalOf, Receive, Opened;
    if inputs != [] {
      var before, input := inputs[..|inputs| - 1], inputs[|inputs| - 1];
      CardReceives(masked, open, x, before);
      var signals, s := Signals(masked, open, x, before), SignalOf(TakeTurns(masked, open, x, before).world, input);
      if s.Some? {
        assert (signals + [s.value])[..|signals|] == signals;
      } else {
        assert signals + [] == signals;
      }
    }
  }

  // A signal that opens nothing keeps card and memory in agreement.
  lemma ReceiveShows(board: Isa.Board, w: World, c: Card, s: Option<Signal>, r: World)
    requires Timed.Consistent(w) && Timed.Consistent(r) && Shows(board, w, c)
    requires Masks(Received(c, s)) == Masks(c)
    requires s.Some? && s.value.EndOfT3Prime? ==> s.value.a == w.address && s.value.data == w.pins.value
    requires r.memory == if s.Some? && s.value.EndOfT3Prime? && s.value.cc.PCW? && board.writable(w.address)
                         then w.memory[w.address := w.pins.value] else w.memory
    ensures Shows(board, r, Received(c, s))
  {
    hide MemoryAddressed, StartAddress, Length;
    var c1 := Received(c, s);
    forall a: Address | MemoryAddressed(c.selection, a)
      ensures r.memory[a] == ReadData(c1, a)
    {
      if a != w.address && MemoryAddressed(c.selection, w.address) {
        assert LocalAddress(c, a) != LocalAddress(c, w.address);
      }
    }
  }

  // The signal that opens the first page: what the card shows there is its RAM, with all that was
  // written behind the ROM.
  lemma OpeningShows(masked: Isa.Board, open: Isa.Board, w: World, c: Card, s: Option<Signal>)
    requires Timed.Consistent(w) && Shows(masked, w, c) && Fit(masked, open, c)
    requires Masks(c) && !Masks(Received(c, s))
    ensures Shows(open, w.(memory := Opened(w.memory, Received(c, s))), Received(c, s))
  {
    hide MemoryAddressed, StartAddress, Length;
  }

  lemma OpeningTurn(masked: Isa.Board, w: World, c: Card, input: Input)
    requires Timed.Consistent(w) && ValidCard(c)
    requires Masks(c) && !Masks(Received(c, SignalOf(w, input)))
    ensures Tick(masked, w, input).memory == w.memory
    ensures var s := SignalOf(w, input); s.Some? && Unmasks(c, s.value)
  {
    MemoryTurn(masked, w, input);
    hide Tick, SignalOf, WriteData;
  }

  // Every turn of the assembly, the one that opens the page included, keeps the agreement.
  lemma TurnShows(masked: Isa.Board, open: Isa.Board, x: Assembly, input: Input)
    requires Sane(x) && Fit(masked, open, x.card) && Shows(BoardOf(masked, open, x.card), x.world, x.card)
    ensures var r := TakeTurn(masked, open, x, input);
            Fit(masked, open, r.card) && Shows(BoardOf(masked, open, r.card), r.world, r.card)
  {
    MemoryTurn(BoardOf(masked, open, x.card), x.world, input);
    SignalBus(x.world, input);
    hide Shows, Tick, SignalOf, Timed.Consistent, MemoryAddressed, Opened, Receive;
    var s := SignalOf(x.world, input);
    StillFits(masked, open, x.card, s);
    if Masks(x.card) && !Masks(Received(x.card, s)) {
      OpeningTurn(masked, x.world, x.card, input);
      OpenedIs(masked, open, x.world, x.card, s, Tick(masked, x.world, input));
    } else {
      OpenStays(x.card, s);
      ReceiveShows(BoardOf(masked, open, x.card), x.world, x.card, s,
                   Tick(BoardOf(masked, open, x.card), x.world, input));
    }
  }

  lemma StillFits(masked: Isa.Board, open: Isa.Board, c: Card, s: Option<Signal>)
    requires ValidCard(c) && Fit(masked, open, c)
    ensures Fit(masked, open, Received(c, s))
  {
    hide Receive, MemoryAddressed;
  }

  lemma OpenStays(c: Card, s: Option<Signal>)
    requires ValidCard(c)
    ensures !Masks(c) ==> !Masks(Received(c, s))
  {
    hide MemoryAddressed, LocalAddress;
  }

  lemma OpenedIs(masked: Isa.Board, open: Isa.Board, w: World, c: Card, s: Option<Signal>, r: World)
    requires Timed.Consistent(w) && Timed.Consistent(r) && Shows(masked, w, c) && Fit(masked, open, c)
    requires Masks(c) && !Masks(Received(c, s)) && r.memory == w.memory
    ensures Shows(open, r.(memory := Opened(r.memory, Received(c, s))), Received(c, s))
  {
    hide MemoryAddressed, Receive;
    assert Shows(masked, r, c);
    OpeningShows(masked, open, r, c, s);
  }

  lemma {:induction false} AlwaysShows(masked: Isa.Board, open: Isa.Board, x: Assembly, inputs: seq<Input>)
    requires Sane(x) && Fit(masked, open, x.card) && Shows(BoardOf(masked, open, x.card), x.world, x.card)
    ensures var r := TakeTurns(masked, open, x, inputs);
            Fit(masked, open, r.card) && Shows(BoardOf(masked, open, r.card), r.world, r.card)
    decreases |inputs|
  {
    hide Shows, TakeTurn, Fit, Masks;
    if inputs != [] {
      AlwaysShows(masked, open, x, inputs[..|inputs| - 1]);
      TurnShows(masked, open, TakeTurns(masked, open, x, inputs[..|inputs| - 1]), inputs[|inputs| - 1]);
    }
  }

  // The other cards of the machine, which mask nothing, are shown as well.

  predicate Apart(c: Card, d: Card)
    requires ValidCard(c)
  {
    forall a: nat :: a < SPACE && MemoryAddressed(d.selection, a) ==> !MemoryAddressed(c.selection, a)
  }

  lemma ElsewhereShows(masked: Isa.Board, open: Isa.Board, x: Assembly, d: Card, w: World)
    requires Sane(x) && Fit(masked, open, x.card) && ValidCard(d) && Apart(x.card, d) && Timed.Consistent(w)
    requires Shows(masked, w, d)
    ensures Shows(open, w.(memory := Opened(w.memory, x.card)), d)
  {
    hide MemoryAddressed, LocalAddress, MemoryCards.Masked, ReadData;
  }

  lemma OtherShows(masked: Isa.Board, open: Isa.Board, x: Assembly, d: Card, input: Input)
    requires Sane(x) && Fit(masked, open, x.card) && ValidCard(d) && Apart(x.card, d) && !Masks(d)
    requires Shows(BoardOf(masked, open, x.card), x.world, d)
    ensures var r := TakeTurn(masked, open, x, input);
            Shows(BoardOf(masked, open, r.card), r.world, Received(d, SignalOf(x.world, input)))
  {
    MemoryTurn(BoardOf(masked, open, x.card), x.world, input);
    SignalBus(x.world, input);
    hide Shows, Tick, SignalOf, Timed.Consistent, MemoryAddressed, Opened, Receive, Fit, Apart;
    var s := SignalOf(x.world, input);
    var board := BoardOf(masked, open, x.card);
    OpenStays(d, s);
    ReceiveShows(board, x.world, d, s, Tick(board, x.world, input));
    StillFits(masked, open, x.card, s);
    StillApart(x.card, d, s);
    OpenStays(x.card, s);
    if Masks(x.card) && !Masks(Received(x.card, s)) {
      ElsewhereShows(masked, open, Assembly(x.world, Received(x.card, s)), Received(d, s),
                     Tick(board, x.world, input));
    }
  }

  lemma StillApart(c: Card, d: Card, s: Option<Signal>)
    requires ValidCard(c) && ValidCard(d) && Apart(c, d)
    ensures Apart(Received(c, s), Received(d, s))
  {
    hide MemoryAddressed, Receive;
  }

  // In every run, what is latched at the end of T2 of a read cycle is the answer of the card that is
  // addressed: the byte of the masked ROM until RST 0 is fetched; then, and elsewhere, the byte of the
  // last write cycle at this address, even behind the ROM, if the card can be written and there was
  // one; else what the card held at first.
  lemma ReadsWhatWasWritten(masked: Isa.Board, open: Isa.Board, x: Assembly, inputs: seq<Input>, input: Input,
                            a: Address, cc: CycleControl)
    requires Sane(x) && Fit(masked, open, x.card) && Shows(BoardOf(masked, open, x.card), x.world, x.card)
    requires MemoryAddressed(x.card.selection, a) && cc in {PCI, PCR}
    requires SignalOf(TakeTurns(masked, open, x, inputs).world, input) == Some(EndOfT2(a, cc))
    ensures var c, signals, local := x.card, Signals(masked, open, x, inputs), LocalAddress(x.card, a);
            var data := TakeTurn(masked, open, TakeTurns(masked, open, x, inputs), input).world.latch;
            && MemoryCards.Answer(TakeTurns(masked, open, x, inputs).card, EndOfT2(a, cc)) == Some(data)
            && data == if c.access.RomRam256? && local < 256 && !c.switched && !Restarted(signals)
                       then c.maskedRom[local]
                       else if LastWritten(c, signals, a).Some? && !c.access.Rom? then LastWritten(c, signals, a).value
                       else c.buffer[local]
  {
    var now, signals := TakeTurns(masked, open, x, inputs), Signals(masked, open, x, inputs);
    hide Tick, TakeTurns, SignalOf, Signals, Timed.Consistent, MemoryAddressed, ReceiveAll, LastWritten, Restarted;
    hide Fit, Opened;
    AlwaysShows(masked, open, x, inputs);
    CardReceives(masked, open, x, inputs);
    SignalBus(now.world, input);
    LatchTurn(BoardOf(masked, open, now.card), now.world, input);
    ReadsLastWritten(x.card, signals, a);
  }
}
