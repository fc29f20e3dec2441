/** The control-flow walker `read_code`: a depth-first exploration of the
    image from an address, sharing one visited set with every recursive
    exploration of a branch target, and emitting one record per decoded
    instruction (the `print` lines of the source). The walker is written
    over the opcode table `decode` it dispatches on, which the entry points
    instantiate with `Opcodes.Decode`, the source's `match`. */
module Walker {
  import opened Wrappers
  import opened Bytes
  import opened Opcodes

  /** One emitted line: recursion level, address, opcode, mnemonic and the
      operand bytes printed after it (clamped at the end of the image). */
  datatype Record = Record(level: nat, address: nat, opcode: byte, mnemonic: string, operand: seq<byte>)

  /** The record the loop prints for the instruction `ins` at `pos`. */
  function RecordAt(rom: seq<byte>, pos: nat, level: nat, ins: Instr): (rec: Record)
    requires pos < |rom|
    ensures rec.address == pos && rec.level == level && rec.opcode == rom[pos] && rec.mnemonic == ins.mnemonic
    ensures 1 <= ins.length ==> rec.operand == rom[pos + 1 .. Min(pos + ins.length, |rom|)]
  {
    Record(level, pos, rom[pos], ins.mnemonic, Slice(rom, pos + 1, pos + ins.length))
  }

  /** The exception raised on an opcode the table does not know. */
  datatype Fault = UnknownOpcode(level: nat, address: nat, opcode: byte)

  /** What one call leaves behind: the visited set, the records it emitted
      in order, and the exception that aborted it, if any. */
  datatype WalkResult = WalkResult(visited: set<nat>, out: seq<Record>, fault: Option<Fault>)

  /** The branch target of a JR (one operand byte) or a JP/CALL (two operand
      bytes, big-endian), with the operand slice clamped at the end of the image. */
  function BranchTarget(rom: seq<byte>, p: nat, flow: Flow): (t: nat)
    requires flow == Branch8 || flow == Branch16
    ensures flow == Branch8 ==> t == if p + 1 < |rom| then rom[p + 1] as nat else 0
    ensures flow == Branch16 ==> t == if p + 2 < |rom| then rom[p + 1] as nat * 0x100 + rom[p + 2] as nat
                                      else if p + 1 < |rom| then rom[p + 1] as nat else 0
  {
    var operand := Slice(rom, p + 1, if flow == Branch8 then p + 2 else p + 3);
    FromBytesBEShort(operand);
    FromBytesBE(operand)
  }

  /** How many of the addresses below `n` are not yet visited; every step of
      a walk visits one more in-range address, so this strictly decreases. */
  ghost function Unvisited(n: nat, visited: set<nat>): nat
  {
    if n == 0 then 0 else Unvisited(n - 1, visited) + (if n - 1 in visited then 0 else 1)
  }

  lemma {:induction false} UnvisitedShrinks(n: nat, visited: set<nat>, visited': set<nat>, p: nat)
    requires visited <= visited'
    ensures Unvisited(n, visited') <= Unvisited(n, visited)
    ensures p < n && p !in visited && p in visited' ==> Unvisited(n, visited') < Unvisited(n, visited)
  {
    if n > 0 {
      UnvisitedShrinks(n - 1, visited, visited', p);
    }
  }

  /** `read_code(rom, pos, level, visited)` as a function: the visited set
      and the emitted records of the call. */
  function Walk(decode: byte -> Option<Instr>, rom: seq<byte>, pos: nat, level: nat, visited: set<nat>): (r: WalkResult)
    ensures visited <= r.visited
    decreases Unvisited(|rom|, visited)
  {
    if pos >= |rom| || pos in visited then WalkResult(visited, [], None)
    else
      var v := visited + {pos};
      var op := rom[pos];
      match decode(op)
      case None => WalkResult(v, [], Some(UnknownOpcode(level, pos, op)))
      case Some(ins) =>
        var rec := RecordAt(rom, pos, level, ins);
        UnvisitedShrinks(|rom|, visited, v, pos);
        if ins.flow == Stops then WalkResult(v, [rec], None)
        else if ins.flow == Fallthrough then
          var rest := Walk(decode, rom, pos + ins.length, level, v);
          WalkResult(rest.visited, [rec] + rest.out, rest.fault)
        else
          var sub := Walk(decode, rom, BranchTarget(rom, pos, ins.flow), level + 1, v);
          if sub.fault.Some? then WalkResult(sub.visited, [rec] + sub.out, sub.fault)
          else
            UnvisitedShrinks(|rom|, visited, sub.visited, pos);
            var rest := Walk(decode, rom, pos + ins.length, level, sub.visited);
            WalkResult(rest.visited, [rec] + sub.out + rest.out, rest.fault)
  }

  /** `r` with `out` printed before it. */
  function After(out: seq<Record>, r: WalkResult): WalkResult
  {
    WalkResult(r.visited, out + r.out, r.fault)
  }

  /** One iteration of the loop at an address whose opcode ends the path. */
  lemma WalkStops(decode: byte -> Option<Instr>, rom: seq<byte>, pos: nat, level: nat, visited: set<nat>, ins: Instr)
    requires pos < |rom| && pos !in visited && decode(rom[pos]) == Some(ins) && ins.flow == Stops
    ensures Walk(decode, rom, pos, level, visited) ==
            WalkResult(visited + {pos}, [RecordAt(rom, pos, level, ins)], None)
  {
  }

  /** One iteration of the loop at an address whose opcode falls through. */
  lemma WalkFallthrough(decode: byte -> Option<Instr>, rom: seq<byte>, pos: nat, level: nat, visited: set<nat>, ins: Instr)
    requires pos < |rom| && pos !in visited && decode(rom[pos]) == Some(ins) && ins.flow == Fallthrough
    ensures Walk(decode, rom, pos, level, visited) ==
            After([RecordAt(rom, pos, level, ins)], Walk(decode, rom, pos + ins.length, level, visited + {pos}))
  {
  }

  /** One iteration of the loop at a branch: the branch target first, one
      level deeper, then the next instruction with what the target visited. */
  lemma WalkBranch(decode: byte -> Option<Instr>, rom: seq<byte>, pos: nat, level: nat, visited: set<nat>, ins: Instr)
    requires pos < |rom| && pos !in visited && decode(rom[pos]) == Some(ins)
    requires ins.flow == Branch8 || ins.flow == Branch16
    ensures var rec := RecordAt(rom, pos, level, ins);
            var sub := Walk(decode, rom, BranchTarget(rom, pos, ins.flow), level + 1, visited + {pos});
            Walk(decode, rom, pos, level, visited) ==
              if sub.fault.Some? then After([rec], sub)
              else After([rec] + sub.out, Walk(decode, rom, pos + ins.length, level, sub.visited))
  {
  }

  /** The loop at an address whose opcode is unknown raises. */
  lemma WalkUnknown(decode: byte -> Option<Instr>, rom: seq<byte>, pos: nat, level: nat, visited: set<nat>)
    requires pos < |rom| && pos !in visited && decode(rom[pos]).None?
    ensures Walk(decode, rom, pos, level, visited) == WalkResult(visited + {pos}, [], Some(UnknownOpcode(level, pos, rom[pos])))
  {
  }

  /** Printing `a` and then what `r` prints is printing `a + r.out`. */
  lemma AfterAfter(a: seq<Record>, b: seq<Record>, r: WalkResult)
    ensures After(a, After(b, r)) == After(a + b, r)
  {
    assert a + (b + r.out) == (a + b) + r.out;
  }

  /** Concatenation of printed lines is associative. */
  lemma Assoc(a: seq<Record>, b: seq<Record>, c: seq<Record>)
    ensures a + (b + c) == (a + b) + c
  {
  }

  /** `read_code`: the `while` loop over `position`, the in-place update of
      the visited set and the recursion on branch targets. `out` collects
      what the call prints; `fault` is the exception it raises. */
  method ReadCode(decode: byte -> Option<Instr>, rom: seq<byte>, start: nat, level: nat, visited0: set<nat>)
    returns (visited: set<nat>, out: seq<Record>, fault: Option<Fault>)
    ensures WalkResult(visited, out, fault) == Walk(decode, rom, start, level, visited0)
    decreases Unvisited(|rom|, visited0)
  {
    var position: nat := start;
    visited, out, fault := visited0, [], None;
    while position < |rom| && position !in visited
      invariant visited0 <= visited && fault == None
      invariant Walk(decode, rom, start, level, visited0) == After(out, Walk(decode, rom, position, level, visited))
      decreases Unvisited(|rom|, visited)
    {
      ghost var before := visited;
      ghost var outBefore := out;
      visited := visited + {position};
      UnvisitedShrinks(|rom|, before, visited, position);
      var op := rom[position];
      match decode(op) {
        case None =>
          WalkUnknown(decode, rom, position, level, before);
          fault := Some(UnknownOpcode(level, position, op));
          AfterAfter(outBefore, [], Walk(decode, rom, position, level, before));
          return;
        case Some(ins) =>
          var rec := RecordAt(rom, position, level, ins);
          out := out + [rec];
          if ins.flow == Stops {
            WalkStops(decode, rom, position, level, before, ins);
            return;
          }
          if ins.flow == Fallthrough {
            WalkFallthrough(decode, rom, position, level, before, ins);
            AfterAfter(outBefore, [rec], Walk(decode, rom, position + ins.length, level, visited));
          } else {
            WalkBranch(decode, rom, position, level, before, ins);
            UnvisitedShrinks(|rom|, visited0, visited, position);
            var subVisited, subOut, subFault := ReadCode(decode, rom, BranchTarget(rom, position, ins.flow), level + 1, visited);
            ghost var sub := WalkResult(subVisited, subOut, subFault);
            visited, out := subVisited, out + subOut;
            if subFault.Some? {
              AfterAfter(outBefore, [rec], sub);
              fault := subFault;
              return;
            }
            ghost var rest := Walk(decode, rom, position + ins.length, level, subVisited);
            AfterAfter(outBefore, [rec] + subOut, rest);
            Assoc(outBefore, [rec], subOut);
            UnvisitedShrinks(|rom|, before, visited, position);
          }
          position := position + ins.length;
      }
    }
  }
}
