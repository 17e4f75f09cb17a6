/** Eight-bit values as integers, with the bitwise operators the emulated processor applies to them. */
module Bytes {
  datatype Option<+T> = None | Some(value: T)

  type Byte = x: int | 0 <= x < 256

  // The low byte of an integer in two's complement.
  function Wrap(x: int): Byte {
    x % 256
  }

  // The value of each bit of a byte.
  function Weight(k: nat): (w: nat)
    requires k <= 8
    ensures w > 0
  {
    [1, 2, 4, 8, 16, 32, 64, 128, 256][k]
  }

  datatype Gate = And | Or | Xor

  function GateOf(gate: Gate, a: nat, b: nat): (r: nat)
    ensures r <= 1
  {
    match gate
    case And => if a == 1 && b == 1 then 1 else 0
    case Or => if a == 1 || b == 1 then 1 else 0
    case Xor => if a != b then 1 else 0
  }

  // A bitwise operator, from the lowest bit on.
  function Bitwise(gate: Gate, a: nat, b: nat, bits: nat): (r: nat)
    requires bits <= 8
    ensures r < Weight(bits)
  {
    if bits == 0 then 0 else GateOf(gate, a % 2, b % 2) + 2 * Bitwise(gate, a / 2, b / 2, bits - 1)
  }

  function BitAnd(a: Byte, b: Byte): Byte { Bitwise(And, a, b, 8) }

  function BitOr(a: Byte, b: Byte): Byte { Bitwise(Or, a, b, 8) }

  function BitXor(a: Byte, b: Byte): Byte { Bitwise(Xor, a, b, 8) }

  // Number of one bits of a non-negative integer.
  function Ones(x: nat): nat {
    if x == 0 then 0 else x % 2 + Ones(x / 2)
  }

  // Bitwise and of two three-bit fields.
  function And3(x: nat, mask: nat): nat {
    (if mask / 4 % 2 == 1 then x / 4 % 2 * 4 else 0)
    + (if mask / 2 % 2 == 1 then x / 2 % 2 * 2 else 0)
    + (if mask % 2 == 1 then x % 2 else 0)
  }

  lemma Halved(x: nat, k: nat)
    requires 0 < k < 8
    ensures x / Weight(k) == x / 2 / Weight(k - 1)
  {
  }

  lemma BitwiseStep(gate: Gate, a: nat, b: nat, bits: nat)
    requires 0 < bits <= 8
    ensures var r := Bitwise(gate, a, b, bits);
            r % 2 == GateOf(gate, a % 2, b % 2) && r / 2 == Bitwise(gate, a / 2, b / 2, bits - 1)
  {
  }

  lemma {:induction false} BitwiseAt(gate: Gate, a: nat, b: nat, bits: nat, k: nat)
    requires k < bits <= 8
    ensures Bitwise(gate, a, b, bits) / Weight(k) % 2 == GateOf(gate, a / Weight(k) % 2, b / Weight(k) % 2)
  {
    hide Bitwise, GateOf;
    BitwiseStep(gate, a, b, bits);
    if k > 0 {
      BitwiseAt(gate, a / 2, b / 2, bits - 1, k - 1);
      Halved(Bitwise(gate, a, b, bits), k);
      Halved(a, k);
      Halved(b, k);
    }
  }

  // Each bit of the three operators, with the bits taken by division.
  lemma BitsOfOperators(a: Byte, b: Byte, k: nat)
    requires k < 8
    ensures var w := [1, 2, 4, 8, 16, 32, 64, 128][k];
            && BitAnd(a, b) / w % 2 == (if a / w % 2 == 1 && b / w % 2 == 1 then 1 else 0)
            && BitOr(a, b) / w % 2 == (if a / w % 2 == 1 || b / w % 2 == 1 then 1 else 0)
            && BitXor(a, b) / w % 2 == (if a / w % 2 == b / w % 2 then 0 else 1)
  {
    hide Bitwise;
    BitwiseAt(And, a, b, 8, k);
    BitwiseAt(Or, a, b, 8, k);
    BitwiseAt(Xor, a, b, 8, k);
  }

  // The or of two numbers without a common bit is their sum.
  lemma {:induction false} OrApart(a: nat, b: nat, bits: nat)
    requires bits <= 8 && a < Weight(bits) && b < Weight(bits)
    requires forall k :: 0 <= k < bits ==> a / Weight(k) % 2 == 0 || b / Weight(k) % 2 == 0
    ensures Bitwise(Or, a, b, bits) == a + b
  {
    if bits > 0 {
      assert a / Weight(0) % 2 == 0 || b / Weight(0) % 2 == 0;
      forall k | 0 <= k < bits - 1
        ensures a / 2 / Weight(k) % 2 == 0 || b / 2 / Weight(k) % 2 == 0
      {
        Halved(a, k + 1);
        Halved(b, k + 1);
      }
      OrApart(a / 2, b / 2, bits - 1);
    }
  }

  lemma OnesStep(x: nat)
    ensures Ones(x) == x % 2 + Ones(x / 2)
  {
  }

  lemma FourOnes(x: nat)
    ensures Ones(x) == x % 2 + x / 2 % 2 + x / 4 % 2 + x / 8 % 2 + Ones(x / 16)
  {
    hide Ones;
    OnesStep(x);
    OnesStep(x / 2);
    OnesStep(x / 2 / 2);
    OnesStep(x / 2 / 2 / 2);
    assert x / 2 / 2 == x / 4 && x / 2 / 2 / 2 == x / 8 && x / 2 / 2 / 2 / 2 == x / 16;
  }

  // The ones of a byte are its bits, one by one.
  lemma OnesAreBits(x: Byte)
    ensures Ones(x) == x % 2 + x / 2 % 2 + x / 4 % 2 + x / 8 % 2 + x / 16 % 2 + x / 32 % 2 + x / 64 % 2 + x / 128 % 2
  {
    assert Ones(0) == 0;
    hide Ones;
    FourOnes(x);
    FourOnes(x / 16);
    assert x / 16 / 2 == x / 32 && x / 16 / 4 == x / 64 && x / 16 / 8 == x / 128 && x / 16 / 16 == 0;
  }

  // The low byte, in the same class modulo 256.
  lemma WrapIs(x: int)
    ensures exists q: int :: x == 256 * q + Wrap(x)
  {
    assert x == 256 * (x / 256) + Wrap(x);
  }
}
