/** The disassembler: instruction sizes, and the sweep over a ROM. */
module Disassembly {
  import opened Bytes
  import opened Microcode
  import Isa

  // How many bytes an instruction has when its operand is not cut off.
  function FullSize(name: InstructionName): nat {
    match name
    case LrI => 2
    case LMI => 2
    case ALU_OPI => 2
    case JMP => 3
    case JFc => 3
    case JTc => 3
    case CAL => 3
    case CFc => 3
    case CTc => 3
    case _ => 1
  }

  function Word(low: Byte, high: Byte): nat { low as int + high as int * 256 }

  // Where the processor goes with the same two bytes.
  lemma WordIsTarget(low: Byte, high: Byte)
    ensures Word(low, high) % 0x4000 == Isa.Address(high, low)
  {
    assert Word(low, high) == 0x4000 * (high / 64) + (high % 64 * 256 + low);
  }

  // The part of get_extended that does not concern the text: an operand that goes past the end of
  // the memory makes a single byte of the opcode.
  method GetExtended(memory: seq<Byte>, address: nat) returns (operand: Option<nat>, size: nat)
    requires address < |memory|
    ensures var full := FullSize(Decode(memory[address]).name);
            var cut := address + full > |memory|;
            && size == (if cut then 1 else full)
            && (operand.Some? <==> full > 1 && !cut)
            && (operand.Some? && full == 2 ==> operand.value == memory[address + 1])
            && (operand.Some? && full == 3 ==> operand.value == Word(memory[address + 1], memory[address + 2]))
  {
    hide Decode, Word;
    var decoded := DecodeInstruction(memory[address]);
    operand, size := None, 1;
    if decoded.name in {LrI, LMI, ALU_OPI} {
      var valueAddress := address + 1;
      if valueAddress < |memory| {
        operand, size := Some(memory[valueAddress]), 2;
      }
    } else if decoded.name in {JMP, JFc, JTc, CAL, CFc, CTc} {
      var valueAddress := address + 2;
      if valueAddress < |memory| {
        operand, size := Some(Word(memory[valueAddress - 1], memory[valueAddress])), 3;
      }
    }
  }

  datatype Line = Line(address: nat, size: nat)

  // The lines cover the addresses from start to end, each once and in order.
  predicate Tiles(lines: seq<Line>, start: nat, end: nat)
    decreases |lines|
  {
    if lines == [] then start == end
    else
      var last := lines[|lines| - 1];
      last.size > 0 && last.address + last.size == end && Tiles(lines[..|lines| - 1], start, last.address)
  }

  // The addresses are unsigned 16-bit integers.
  const ADDRESSES: nat := 0x1_0000

  method DisassembleFile(rom: seq<Byte>) returns (lines: seq<Line>)
    requires |rom| < 0x1_0000
    ensures Tiles(lines, 0, |rom|)
    ensures forall k :: 0 <= k < |lines| ==>
              lines[k].address < |rom|
              && var full := FullSize(Decode(rom[lines[k].address]).name);
                 lines[k].size == if lines[k].address + full <= |rom| then full else 1
  {
    hide Decode;
    lines := [];
    var address := 0;
    while address < |rom|
      invariant address <= |rom|
      invariant Tiles(lines, 0, address)
      invariant forall k :: 0 <= k < |lines| ==>
                  lines[k].address < |rom|
                  && var full := FullSize(Decode(rom[lines[k].address]).name);
                     lines[k].size == if lines[k].address + full <= |rom| then full else 1
      decreases |rom| - address
    {
      var operand, size := GetExtended(rom, address);
      assert (lines + [Line(address, size)])[..|lines|] == lines;
      lines := lines + [Line(address, size)];
      address := (address + size) % ADDRESSES;
    }
  }

  // Every byte is in exactly one line.
  lemma {:induction false} EachByteOnce(lines: seq<Line>, start: nat, end: nat, a: nat)
    requires Tiles(lines, start, end) && start <= a < end
    ensures exists k :: 0 <= k < |lines| && Covers(lines[k], a)
    ensures forall j, k :: 0 <= j < |lines| && 0 <= k < |lines| && Covers(lines[j], a) && Covers(lines[k], a) ==> j == k
    decreases |lines|
  {
    if lines != [] {
      var n := |lines| - 1;
      var last := lines[n];
      TilesBelow(lines[..n], start, last.address);
      if a < last.address {
        EachByteOnce(lines[..n], start, last.address, a);
        var k :| 0 <= k < n && Covers(lines[..n][k], a);
        assert Covers(lines[k], a);
      } else {
        assert Covers(lines[n], a);
      }
      forall j, k | 0 <= j < |lines| && 0 <= k < |lines| && Covers(lines[j], a) && Covers(lines[k], a)
        ensures j == k
      {
        assert j < n ==> lines[..n][j] == lines[j];
        assert k < n ==> lines[..n][k] == lines[k];
      }
    }
  }

  predicate Covers(l: Line, a: nat) { l.address <= a < l.address + l.size }

  lemma {:induction false} TilesBelow(lines: seq<Line>, start: nat, end: nat)
    requires Tiles(lines, start, end)
    ensures start <= end
    ensures forall k :: 0 <= k < |lines| ==> lines[k].address + lines[k].size <= end
    decreases |lines|
  {
    if lines != [] {
      var n := |lines| - 1;
      TilesBelow(lines[..n], start, lines[n].address);
      forall k | 0 <= k < n
        ensures lines[k].address + lines[k].size <= end
      {
        assert lines[..n][k] == lines[k];
      }
    }
  }
}
