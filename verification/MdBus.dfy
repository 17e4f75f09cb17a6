/** The data bus to the processor, which the cards and the console share: each card through its
    holder, the console when it substitutes its switches. */
module MdBus {
  import opened Bytes
  import opened Wires

  datatype Who = OfHolder(k: nat) | OfConsole

  // The wires involved: the data, READY, and the request of the console.
  datatype Lines = Lines(md: Owned<Who, Byte>, ready: Owned<Who, bool>, sub: bool)

  // A holder; due is the activation time of its scheduled action.
  datatype Holder = Holder(delay: nat, latched: Byte, hasData: bool, ownsBus: bool, due: Option<nat>)

  // A holder and the wires after an operation, None where the source throws.
  datatype Held = Held(holder: Holder, lines: Lines)

  function BusTaken(h: Holder, l: Lines, who: Who, time: nat): Option<Held> {
    var md := Requested(l.md, who);
    if md.None? || h.due.Some? then None
    else Some(Held(h.(ownsBus := true, due := Some(time + h.delay)), l.(md := md.value)))
  }

  function DataHeld(h: Holder, l: Lines, who: Who, time: nat, data: Byte): Option<Held> {
    var h1 := h.(latched := data, hasData := true);
    if l.sub then Some(Held(h1, l)) else BusTaken(h1, l, who, time)
  }

  // The scheduled action.
  function DataDriven(h: Holder, l: Lines, who: Who): Option<Held> {
    var h1 := h.(due := None);
    if !h.ownsBus then Some(Held(h1, l))
    else
      var md, ready := Set(l.md, h.latched, who), Requested(l.ready, who);
      if md.None? || ready.None? then None
      else Some(Held(h1, l.(md := md.value, ready := ready.value.(value := true))))
  }

  function BusReleased(h: Holder, l: Lines, who: Who): Option<Held> {
    var md := Set(l.md, 0, who);
    if md.None? then None
    else
      var free, ready := Released(md.value, who), Released(l.ready, who);
      if free.None? || ready.None? then None
      else Some(Held(h.(ownsBus := false), l.(md := free.value, ready := ready.value)))
  }

  // On the fall of T3.
  function AfterT3(h: Holder, l: Lines, who: Who): Option<Held> {
    if !h.hasData then Some(Held(h, l))
    else
      var r := if h.ownsBus then BusReleased(h, l, who) else Some(Held(h, l));
      if r.None? then None else Some(r.value.(holder := r.value.holder.(hasData := false)))
  }

  function AfterSub(h: Holder, l: Lines, who: Who, rising: bool, time: nat): Option<Held> {
    if rising && h.ownsBus then BusReleased(h, l, who)
    else if h.hasData then BusTaken(h, l, who, time)
    else Some(Held(h, l))
  }

  class Pluribus {
    const md: OwnedValue<Who, Byte>
    const ready: OwnedValue<Who, bool>
    var sub: bool

    constructor ()
      ensures fresh(md) && fresh(ready) && md.Value() == Owned(None, 0) && ready.Value() == Owned(None, false) && !sub
    {
      md := new OwnedValue(0);
      ready := new OwnedValue(false);
      sub := false;
    }

    ghost function Value(): Lines
      reads this, md, ready
    {
      Lines(md.Value(), ready.Value(), sub)
    }
  }

  class DataOnMDBusHolder {
    const who: Who
    const delay: nat
    var latchedData: Byte
    var hasDataToSend: bool
    var ownsBus: bool
    var placeDataAt: Option<nat>

    constructor (who: Who, delay: nat)
      ensures this.who == who && Value() == Holder(delay, 0, false, false, None)
    {
      this.who, this.delay := who, delay;
      latchedData, hasDataToSend, ownsBus, placeDataAt := 0, false, false, None;
    }

    ghost function Value(): Holder
      reads this
    {
      Holder(delay, latchedData, hasDataToSend, ownsBus, placeDataAt)
    }

    method TakeBus(pluribus: Pluribus, time: nat) returns (thrown: bool)
      modifies this`ownsBus, this`placeDataAt, pluribus.md
      ensures var r := BusTaken(old(Value()), old(pluribus.Value()), who, time);
              thrown == r.None? && (r.Some? ==> Held(Value(), pluribus.Value()) == r.value)
      ensures thrown
              <==> (old(pluribus.md.owner).Some? && old(pluribus.md.owner) != Some(who)) || old(placeDataAt).Some?
      ensures !thrown ==> ownsBus && placeDataAt == Some(time + delay) && pluribus.md.owner == Some(who)
    {
      thrown := pluribus.md.Request(who);
      if !thrown {
        ownsBus := true;
        if placeDataAt == None {
          placeDataAt := Some(time + delay);
        } else {
          thrown := true;
        }
      }
    }

    method Place(pluribus: Pluribus, time: nat, data: Byte) returns (thrown: bool)
      modifies this, pluribus.md
      ensures var r := DataHeld(old(Value()), old(pluribus.Value()), who, time, data);
              thrown == r.None? && (r.Some? ==> Held(Value(), pluribus.Value()) == r.value)
      ensures latchedData == data && hasDataToSend && (pluribus.sub ==> !thrown && ownsBus == old(ownsBus))
      ensures !pluribus.sub && !thrown ==> ownsBus && placeDataAt == Some(time + delay)
    {
      latchedData := data;
      hasDataToSend := true;
      thrown := false;
      if !pluribus.sub {
        thrown := TakeBus(pluribus, time);
      }
    }

    method PlaceData(pluribus: Pluribus) returns (thrown: bool)
      modifies this, pluribus.md, pluribus.ready
      ensures var r := DataDriven(old(Value()), old(pluribus.Value()), who);
              thrown == r.None? && (r.Some? ==> Held(Value(), pluribus.Value()) == r.value)
      ensures thrown <==> ownsBus && (old(pluribus.md.owner) != Some(who)
                                      || (old(pluribus.ready.owner).Some? && old(pluribus.ready.owner) != Some(who)))
      ensures ownsBus && !thrown ==> pluribus.md.value == latchedData && pluribus.ready.value && placeDataAt.None?
    {
      thrown := false;
      placeDataAt := None;
      if ownsBus {
        thrown := pluribus.md.Change(latchedData, who);
        if !thrown {
          thrown := pluribus.ready.Request(who);
        }
        if !thrown {
          thrown := pluribus.ready.Change(true, who);
        }
      }
    }

    method ReleaseBus(pluribus: Pluribus) returns (thrown: bool)
      modifies this`ownsBus, pluribus.md, pluribus.ready
      ensures var r := BusReleased(old(Value()), old(pluribus.Value()), who);
              thrown == r.None? && (r.Some? ==> Held(Value(), pluribus.Value()) == r.value)
      ensures thrown <==> old(pluribus.md.owner) != Some(who)
                          || (old(pluribus.ready.owner).Some? && old(pluribus.ready.owner) != Some(who))
      ensures !thrown ==> pluribus.md.Value() == Owned(None, 0) && pluribus.ready.owner.None? && !ownsBus
    {
      thrown := pluribus.md.Change(0, who);
      if !thrown {
        thrown := pluribus.md.Release(who);
      }
      if !thrown {
        thrown := pluribus.ready.Release(who);
      }
      if !thrown {
        ownsBus := false;
      }
    }

    method OnT3(pluribus: Pluribus, falling: bool) returns (thrown: bool)
      modifies this, pluribus.md, pluribus.ready
      ensures var r := if falling then AfterT3(old(Value()), old(pluribus.Value()), who)
                       else Some(Held(old(Value()), old(pluribus.Value())));
              thrown == r.None? && (r.Some? ==> Held(Value(), pluribus.Value()) == r.value)
      ensures falling && old(hasDataToSend) && !thrown ==> !hasDataToSend && !ownsBus
      ensures !falling || !old(hasDataToSend) ==> !thrown && Value() == old(Value())
    {
      thrown := false;
      if falling && hasDataToSend {
        if ownsBus {
          thrown := ReleaseBus(pluribus);
        }
        if !thrown {
          hasDataToSend := false;
        }
      }
    }

    method OnSub(pluribus: Pluribus, rising: bool, time: nat) returns (thrown: bool)
      modifies this, pluribus.md, pluribus.ready
      ensures var r := AfterSub(old(Value()), old(pluribus.Value()), who, rising, time);
              thrown == r.None? && (r.Some? ==> Held(Value(), pluribus.Value()) == r.value)
      ensures hasDataToSend == old(hasDataToSend) && latchedData == old(latchedData)
      ensures rising && old(ownsBus) && !thrown ==> !ownsBus && pluribus.md.Value() == Owned(None, 0)
      ensures !(rising && old(ownsBus)) && hasDataToSend && !thrown ==> ownsBus && placeDataAt == Some(time + delay)
    {
      thrown := false;
      if rising && ownsBus {
        thrown := ReleaseBus(pluribus);
      } else if hasDataToSend {
        thrown := TakeBus(pluribus, time);
      }
    }
  }
}
