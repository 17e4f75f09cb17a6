/** A value on a wire that devices own by request. Every change must prove ownership. */
module Wires {
  import opened Bytes

  // The owner of an owned value, and the value.
  datatype Owned<O, V> = Owned(owner: Option<O>, value: V)

  // The three operations, None where the source throws.

  function Requested<O(==), V>(w: Owned<O, V>, who: O): Option<Owned<O, V>> {
    if w.owner.Some? && w.owner.value != who then None else Some(w.(owner := Some(who)))
  }

  function Released<O(==), V>(w: Owned<O, V>, who: O): Option<Owned<O, V>> {
    if w.owner.Some? && w.owner.value != who then None else Some(w.(owner := None))
  }

  function Set<O(==), V>(w: Owned<O, V>, value: V, who: O): Option<Owned<O, V>> {
    if w.owner != Some(who) then None else Some(w.(value := value))
  }

  class OwnedValue<O(==), V> {
    var owner: Option<O>
    var value: V

    ghost function Value(): Owned<O, V>
      reads this
    {
      Owned(owner, value)
    }

    constructor (startValue: V)
      ensures Value() == Owned(None, startValue)
    {
      owner, value := None, startValue;
    }

    method Request(who: O) returns (thrown: bool)
      modifies this`owner
      ensures thrown == Requested(old(Value()), who).None?
      ensures Value() == if thrown then old(Value()) else Requested(old(Value()), who).value
      ensures thrown <==> old(owner).Some? && old(owner).value != who
      ensures owner == if thrown then old(owner) else Some(who)
    {
      thrown := owner.Some? && owner.value != who;
      if !thrown {
        owner := Some(who);
      }
    }

    method Release(who: O) returns (thrown: bool)
      modifies this`owner
      ensures thrown == Released(old(Value()), who).None?
      ensures Value() == if thrown then old(Value()) else Released(old(Value()), who).value
      ensures thrown <==> old(owner).Some? && old(owner).value != who
      ensures owner == if thrown then old(owner) else None
    {
      thrown := owner.Some? && owner.value != who;
      if !thrown {
        owner := None;
      }
    }

    method Change(newValue: V, who: O) returns (thrown: bool)
      modifies this`value
      ensures thrown == Set(old(Value()), newValue, who).None?
      ensures Value() == if thrown then old(Value()) else Set(old(Value()), newValue, who).value
      ensures thrown <==> old(owner) != Some(who)
      ensures value == if thrown then old(value) else newValue
    {
      thrown := owner != Some(who);
      if !thrown {
        value := newValue;
      }
    }
  }
}
