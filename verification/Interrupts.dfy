/** Interrupts are precise: a service routine entered by a jammed restart comes back to the
    interrupted program, which finds its program counters. */
module Interrupts {
  import opened Bytes
  import opened BusMachine
  import opened Runs
  import Isa

  // How an instruction changes the depth of the calls.
  function Change(i: Isa.Instr, flags: Isa.Flags): int {
    match i
    case Call(when) => if Isa.Holds(when, flags) then 1 else 0
    case Restart(_) => 1
    case Return(when) => if Isa.Holds(when, flags) then -1 else 0
    case _ => 0
  }

  function ChangeOf(s: Isa.Arch, start: Isa.Start): int
    requires Isa.WellFormed(s)
  {
    Change(Isa.Meaning(Isa.Opcode(s, start)), s.flags)
  }

  // An instruction leaves the return addresses where they are, or moves them by one level.
  lemma ExecuteFrames(board: Isa.Board, s: Isa.Arch, i: Isa.Instr, opcode: Byte, k: nat)
    requires Isa.WellFormed(s) && 1 <= k < Isa.LEVELS && 0 <= k + Change(i, s.flags) < Isa.LEVELS
    ensures Isa.Execute(board, s, i, opcode).pcs[k + Change(i, s.flags)] == s.pcs[k]
  {
    hide Isa.Holds, Isa.AluResult, Isa.Rotated, Isa.ResultFlags, Isa.Pointer, Isa.Address;
  }

  lemma StepFrames(board: Isa.Board, s: Isa.Arch, start: Isa.Start, k: nat)
    requires Isa.WellFormed(s) && 1 <= k < Isa.LEVELS && 0 <= k + ChangeOf(s, start) < Isa.LEVELS
    ensures Isa.Step(board, s, start).pcs[k + ChangeOf(s, start)] == s.pcs[k]
  {
    var s0 := s.(halted := false);
    var s1 := if start.Fetch? then Isa.Pass(s0) else s0;
    var opcode := Isa.Opcode(s, start);
    hide Isa.Execute, Isa.Meaning, Change;
    ExecuteFrames(board, s1, Isa.Meaning(opcode), opcode, k);
  }

  // The depth of the calls after some instructions.
  function Depth(board: Isa.Board, s: Isa.Arch, done: seq<Executed>): int
    requires IsRun(board, s, done)
    decreases |done|
  {
    if done == [] then 0
    else
      var before := done[..|done| - 1];
      Depth(board, s, before) + ChangeOf(Last(s, before), done[|done| - 1].start)
  }

  // The calls never go deeper than limit, nor return further than they came.
  predicate Nested(board: Isa.Board, s: Isa.Arch, done: seq<Executed>, limit: nat)
    requires IsRun(board, s, done)
    decreases |done|
  {
    done == [] || (Nested(board, s, done[..|done| - 1], limit) && 0 <= Depth(board, s, done) <= limit)
  }

  // Instructions that nest their calls leave the return addresses they found, as many as the chip can hold.
  lemma {:induction false} NestedKeeps(board: Isa.Board, s: Isa.Arch, done: seq<Executed>, limit: nat, k: nat)
    requires Isa.WellFormed(s) && IsRun(board, s, done) && Nested(board, s, done, limit)
    requires 1 <= k && k + limit < Isa.LEVELS
    ensures 0 <= Depth(board, s, done) <= limit && Isa.WellFormed(Last(s, done))
    ensures Last(s, done).pcs[k + Depth(board, s, done)] == s.pcs[k]
    decreases |done|
  {
    hide Isa.Step, Isa.Opcode, Isa.Meaning, ChangeOf;
    if done != [] {
      var before := done[..|done| - 1];
      NestedKeeps(board, s, before, limit, k);
      StepFrames(board, Last(s, before), done[|done| - 1].start, k + Depth(board, s, before));
    }
  }

  lemma {:induction false} RunSplit(board: Isa.Board, s: Isa.Arch, first: seq<Executed>, second: seq<Executed>)
    requires IsRun(board, s, first + second)
    ensures IsRun(board, s, first) && IsRun(board, Last(s, first), second)
    ensures Last(s, first + second) == Last(Last(s, first), second)
    decreases |second|
  {
    hide IsStep, Isa.WellFormed;
    RunPrefix(board, s, first + second, |first|);
    assert (first + second)[..|first|] == first;
    if second == [] {
      assert first + second == first;
    } else {
      var n := |second| - 1;
      assert (first + second)[..|first| + n] == first + second[..n];
      RunSplit(board, s, first, second[..n]);
    }
  }

  // The acknowledged interrupt executes a restart.
  predicate IsRestart(s: Isa.Arch, e: Executed, n: Isa.Digit)
    requires Isa.WellFormed(s)
  {
    e.start.Interrupt? && Isa.Meaning(Isa.Opcode(s, e.start)) == Isa.Restart(n)
  }

  predicate IsReturn(s: Isa.Arch, e: Executed)
    requires Isa.WellFormed(s)
  {
    var i := Isa.Meaning(Isa.Opcode(s, e.start));
    i.Return? && Isa.Holds(i.when, s.flags)
  }

  lemma RestartStep(board: Isa.Board, s: Isa.Arch, e: Executed, n: Isa.Digit)
    requires Isa.WellFormed(s) && IsStep(board, s, e) && IsRestart(s, e, n)
    ensures e.after == s.(pcs := [n * 8] + s.pcs[..Isa.LEVELS - 1], halted := false)
  {
  }

  lemma ReturnStep(board: Isa.Board, s: Isa.Arch, e: Executed, k: nat)
    requires Isa.WellFormed(s) && IsStep(board, s, e) && IsReturn(s, e) && k + 1 < Isa.LEVELS
    ensures e.after == s.(pcs := e.after.pcs, halted := false)
    ensures Isa.WellFormed(e.after) && e.after.pcs[k] == s.pcs[k + 1]
  {
    hide Isa.Opcode, Isa.Holds;
  }

  // Of a run in which an interrupt jams RST n, a handler nests its calls and the matching return
  // follows: the handler is entered at 8n with the registers and flags of the interrupted program,
  // and the program goes on where it was interrupted, with the return addresses it had, in what
  // the handler leaves.
  lemma ServiceReturns(board: Isa.Board, m: Machine, envs: seq<Env>, program: seq<Executed>, rst: Executed,
                       handler: seq<Executed>, ret: Executed, n: Isa.Digit, limit: nat, k: nat)
    requires BusMachine.Valid(m) && AtBoundary(m) && k + 1 + limit < Isa.LEVELS
    requires ObserveAll(board, Begin(m), envs).done == program + [rst] + handler + [ret]
    requires Isa.WellFormed(Last(Abstract(m), program)) && IsRestart(Last(Abstract(m), program), rst, n)
    requires Isa.WellFormed(rst.after) && IsRun(board, rst.after, handler) && Nested(board, rst.after, handler, limit)
    requires Depth(board, rst.after, handler) == 0
    requires Isa.WellFormed(Last(rst.after, handler)) && IsReturn(Last(rst.after, handler), ret)
    ensures var s := Last(Abstract(m), program);
            && rst.after == s.(pcs := rst.after.pcs, halted := false) && rst.after.pcs[0] == n * 8
            && |ret.after.pcs| == Isa.LEVELS && ret.after.pcs[k] == s.pcs[k]
            && ret.after == Last(rst.after, handler).(pcs := ret.after.pcs, halted := false)
  {
    EveryRunIsARun(board, m, envs);
    var s := Abstract(m);
    var interrupted := Last(s, program);
    hide ObserveAll, Abstract, AtBoundary, BusMachine.Valid, IsRestart, IsReturn, Depth, Nested, IsStep;
    RunSplit(board, s, program + [rst] + handler, [ret]);
    RunSplit(board, s, program + [rst], handler);
    RunSplit(board, s, program, [rst]);
    OneStep(board, Last(s, program + [rst] + handler), ret);
    OneStep(board, interrupted, rst);
    RestartStep(board, interrupted, rst, n);
    NestedKeeps(board, rst.after, handler, limit, k + 1);
    ReturnStep(board, Last(rst.after, handler), ret, k);
  }

  lemma OneStep(board: Isa.Board, s: Isa.Arch, e: Executed)
    requires IsRun(board, s, [e])
    ensures Isa.WellFormed(s) && IsStep(board, s, e) && Last(s, [e]) == e.after
  {
    hide IsStep, Isa.WellFormed;
    assert [e][..0] == [];
  }
}
