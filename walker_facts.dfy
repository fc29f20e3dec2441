/** What one call of `read_code` guarantees about what it prints and what it
    leaves in the visited set: every address it adds is one it printed or
    the one it raised at, every printed line is the table entry of the byte
    at its address, no address is printed twice, and a call that does not
    raise leaves every control-flow successor of what it printed visited
    (or outside the image). */
module WalkerFacts {
  import opened Wrappers
  import opened Bytes
  import opened Opcodes
  import opened Walker

  /** The addresses of a sequence of records. */
  function Addresses(out: seq<Record>): (a: set<nat>)
    ensures forall i :: 0 <= i < |out| ==> out[i].address in a
    ensures forall x :: x in a ==> exists i :: 0 <= i < |out| && out[i].address == x
    decreases |out|
  {
    if out == [] then {} else {out[0].address} + Addresses(out[1..])
  }

  lemma {:induction false} AddressesConcat(a: seq<Record>, b: seq<Record>)
    ensures Addresses(a + b) == Addresses(a) + Addresses(b)
    decreases |a|
  {
    if a == [] {
      assert a + b == b;
    } else {
      assert (a + b)[0] == a[0];
      assert (a + b)[1..] == a[1..] + b;
      AddressesConcat(a[1..], b);
    }
  }

  /** The address of the instruction that raised, if any. */
  function FaultAddresses(f: Option<Fault>): set<nat>
  {
    if f.Some? then {f.value.address} else {}
  }

  /** `rec` is a line a call at `level` from `visited` may print: an address
      of the image not visited before, the byte there, and that byte's
      table entry with its operand bytes, at `level` or deeper. */
  ghost predicate Emitted(decode: byte -> Option<Instr>, rom: seq<byte>, level: nat, visited: set<nat>, rec: Record)
  {
    && rec.address < |rom| && rec.address !in visited && level <= rec.level
    && decode(rom[rec.address]).Some?
    && rec == RecordAt(rom, rec.address, rec.level, decode(rom[rec.address]).value)
  }

  /** `f` is an exception a call at `level` from `visited` may raise: at an
      address of the image not visited before, whose byte has no entry. */
  ghost predicate Raised(decode: byte -> Option<Instr>, rom: seq<byte>, level: nat, visited: set<nat>, f: Fault)
  {
    && f.address < |rom| && f.address !in visited && level <= f.level
    && f.opcode == rom[f.address] && decode(f.opcode).None?
  }

  /** No address is printed twice. */
  ghost predicate Distinct(out: seq<Record>)
  {
    forall i, j :: 0 <= i < j < |out| ==> out[i].address != out[j].address
  }

  /** Everything `r` says, accounted for from the visited set `visited` the
      call started with. */
  ghost predicate Accounted(decode: byte -> Option<Instr>, rom: seq<byte>, level: nat, visited: set<nat>, r: WalkResult)
  {
    && r.visited == visited + Addresses(r.out) + FaultAddresses(r.fault)
    && (forall i :: 0 <= i < |r.out| ==> Emitted(decode, rom, level, visited, r.out[i]))
    && (r.fault.Some? ==> Raised(decode, rom, level, visited, r.fault.value))
    && Distinct(r.out)
  }

  lemma AccountedDeeper(decode: byte -> Option<Instr>, rom: seq<byte>, level: nat, visited: set<nat>, r: WalkResult)
    requires Accounted(decode, rom, level + 1, visited, r)
    ensures Accounted(decode, rom, level, visited, r)
  {
  }

  /** Lines printed and then a call started from the visited set they
      leave behind. */
  lemma {:induction false} AccountedAfter(decode: byte -> Option<Instr>, rom: seq<byte>, level: nat, visited: set<nat>, out: seq<Record>, mid: set<nat>, r: WalkResult)
    requires Accounted(decode, rom, level, visited, WalkResult(mid, out, None))
    requires Accounted(decode, rom, level, mid, r)
    ensures Accounted(decode, rom, level, visited, After(out, r))
  {
    AddressesConcat(out, r.out);
    DistinctAfter(out, mid, r.out);
    var all := out + r.out;
    forall i | 0 <= i < |all|
      ensures Emitted(decode, rom, level, visited, all[i])
    {
      if |out| <= i {
        assert all[i] == r.out[i - |out|];
      }
    }
  }

  lemma DistinctAfter(out: seq<Record>, mid: set<nat>, later: seq<Record>)
    requires Distinct(out) && Distinct(later)
    requires forall i :: 0 <= i < |out| ==> out[i].address in mid
    requires forall i :: 0 <= i < |later| ==> later[i].address !in mid
    ensures Distinct(out + later)
  {
    var all := out + later;
    forall i, j | 0 <= i < j < |all|
      ensures all[i].address != all[j].address
    {
      if i < |out| && |out| <= j {
        assert all[j] == later[j - |out|];
      }
    }
  }

  /** The single line printed at `pos` with the instruction there. */
  lemma AccountedRecord(decode: byte -> Option<Instr>, rom: seq<byte>, pos: nat, level: nat, visited: set<nat>, ins: Instr)
    requires pos < |rom| && pos !in visited && decode(rom[pos]) == Some(ins)
    ensures Accounted(decode, rom, level, visited, WalkResult(visited + {pos}, [RecordAt(rom, pos, level, ins)], None))
  {
    assert Addresses([RecordAt(rom, pos, level, ins)]) == {pos};
  }

  /** The visited set a call leaves is the one it started with plus exactly
      the addresses it printed and the one it raised at; each printed line
      is the table entry of the byte at its address, at the call's level or
      deeper; no address is printed twice; a raised exception names an
      unknown opcode the call reached. */
  lemma {:induction false} WalkAccounted(decode: byte -> Option<Instr>, rom: seq<byte>, pos: nat, level: nat, visited: set<nat>)
    ensures Accounted(decode, rom, level, visited, Walk(decode, rom, pos, level, visited))
    decreases Unvisited(|rom|, visited)
  {
    if pos < |rom| && pos !in visited {
      var v := visited + {pos};
      UnvisitedShrinks(|rom|, visited, v, pos);
      match decode(rom[pos])
      case None =>
        WalkUnknown(decode, rom, pos, level, visited);
      case Some(ins) =>
        var rec := RecordAt(rom, pos, level, ins);
        AccountedRecord(decode, rom, pos, level, visited, ins);
        if ins.flow == Stops {
          WalkStops(decode, rom, pos, level, visited, ins);
        } else if ins.flow == Fallthrough {
          WalkFallthrough(decode, rom, pos, level, visited, ins);
          WalkAccounted(decode, rom, pos + ins.length, level, v);
          AccountedAfter(decode, rom, level, visited, [rec], v, Walk(decode, rom, pos + ins.length, level, v));
        } else {
          WalkBranch(decode, rom, pos, level, visited, ins);
          var sub := Walk(decode, rom, BranchTarget(rom, pos, ins.flow), level + 1, v);
          WalkAccounted(decode, rom, BranchTarget(rom, pos, ins.flow), level + 1, v);
          AccountedDeeper(decode, rom, level, v, sub);
          if sub.fault.Some? {
            AccountedAfter(decode, rom, level, visited, [rec], v, sub);
          } else {
            UnvisitedShrinks(|rom|, visited, sub.visited, pos);
            var rest := Walk(decode, rom, pos + ins.length, level, sub.visited);
            WalkAccounted(decode, rom, pos + ins.length, level, sub.visited);
            AccountedAfter(decode, rom, level, v, sub.out, sub.visited, rest);
            AccountedAfter(decode, rom, level, visited, [rec], v, After(sub.out, rest));
            AfterAfter([rec], sub.out, rest);
          }
        }
    }
  }

  /** `q` need not be explored again: it is outside the image or visited. */
  ghost predicate Covered(rom: seq<byte>, q: nat, visited: set<nat>)
  {
    q >= |rom| || q in visited
  }

  /** The control-flow successors of a printed line are covered: the next
      instruction unless the line ends the path, and the branch target of a
      JR, JP or CALL. */
  ghost predicate SuccessorsCovered(decode: byte -> Option<Instr>, rom: seq<byte>, rec: Record, visited: set<nat>)
  {
    match decode(rec.opcode)
    case None => true
    case Some(ins) =>
      && (ins.flow != Stops ==> Covered(rom, rec.address + ins.length, visited))
      && (ins.flow == Branch8 || ins.flow == Branch16 ==>
            Covered(rom, BranchTarget(rom, rec.address, ins.flow), visited))
  }

  /** A call that did not raise is closed under control flow: its start
      and every successor of every line it printed are covered. */
  ghost predicate Closed(decode: byte -> Option<Instr>, rom: seq<byte>, start: nat, r: WalkResult)
  {
    r.fault.None? ==>
      && Covered(rom, start, r.visited)
      && forall i :: 0 <= i < |r.out| ==> SuccessorsCovered(decode, rom, r.out[i], r.visited)
  }

  lemma {:induction false} ClosedAfter(decode: byte -> Option<Instr>, rom: seq<byte>, start: nat, out: seq<Record>, mid: set<nat>, r: WalkResult)
    requires mid <= r.visited && start in mid
    requires r.fault.None? ==> forall i :: 0 <= i < |out| ==> SuccessorsCovered(decode, rom, out[i], r.visited)
    requires r.fault.None? ==> forall i :: 0 <= i < |r.out| ==> SuccessorsCovered(decode, rom, r.out[i], r.visited)
    ensures Closed(decode, rom, start, After(out, r))
  {
    var all := out + r.out;
    if r.fault.None? {
      forall i | 0 <= i < |all|
        ensures SuccessorsCovered(decode, rom, all[i], r.visited)
      {
        if |out| <= i {
          assert all[i] == r.out[i - |out|];
        }
      }
    }
  }

  /** A call that does not raise leaves its start and every control-flow
      successor of what it printed visited, or outside the image. */
  lemma {:induction false} WalkClosed(decode: byte -> Option<Instr>, rom: seq<byte>, pos: nat, level: nat, visited: set<nat>)
    ensures Closed(decode, rom, pos, Walk(decode, rom, pos, level, visited))
    decreases Unvisited(|rom|, visited)
  {
    if pos < |rom| && pos !in visited {
      var v := visited + {pos};
      UnvisitedShrinks(|rom|, visited, v, pos);
      match decode(rom[pos])
      case None =>
        WalkUnknown(decode, rom, pos, level, visited);
      case Some(ins) =>
        if ins.flow == Stops {
          WalkStops(decode, rom, pos, level, visited, ins);
        } else if ins.flow == Fallthrough {
          WalkClosed(decode, rom, pos + ins.length, level, v);
          ClosedFallthrough(decode, rom, pos, level, visited, ins);
        } else {
          WalkBranch(decode, rom, pos, level, visited, ins);
          var sub := Walk(decode, rom, BranchTarget(rom, pos, ins.flow), level + 1, v);
          WalkClosed(decode, rom, BranchTarget(rom, pos, ins.flow), level + 1, v);
          if sub.fault.None? {
            UnvisitedShrinks(|rom|, visited, sub.visited, pos);
            var rest := Walk(decode, rom, pos + ins.length, level, sub.visited);
            WalkClosed(decode, rom, pos + ins.length, level, sub.visited);
            ClosedBranch(decode, rom, pos, ins, RecordAt(rom, pos, level, ins), sub, rest);
          }
        }
    }
  }

  lemma ClosedFallthrough(decode: byte -> Option<Instr>, rom: seq<byte>, pos: nat, level: nat, visited: set<nat>, ins: Instr)
    requires pos < |rom| && pos !in visited && decode(rom[pos]) == Some(ins) && ins.flow == Fallthrough
    requires Closed(decode, rom, pos + ins.length, Walk(decode, rom, pos + ins.length, level, visited + {pos}))
    ensures Closed(decode, rom, pos, Walk(decode, rom, pos, level, visited))
  {
    var v := visited + {pos};
    var rec := RecordAt(rom, pos, level, ins);
    WalkFallthrough(decode, rom, pos, level, visited, ins);
    ClosedAfter(decode, rom, pos, [rec], v, Walk(decode, rom, pos + ins.length, level, v));
  }

  /** The closure of a branch that did not raise: the line, then the
      exploration of the target, then the rest of the path. */
  lemma ClosedBranch(decode: byte -> Option<Instr>, rom: seq<byte>, pos: nat, ins: Instr, rec: Record, sub: WalkResult, rest: WalkResult)
    requires pos < |rom| && decode(rom[pos]) == Some(ins) && (ins.flow == Branch8 || ins.flow == Branch16)
    requires rec.address == pos && rec.opcode == rom[pos]
    requires pos in sub.visited && sub.visited <= rest.visited && sub.fault.None?
    requires Closed(decode, rom, BranchTarget(rom, pos, ins.flow), sub) && Closed(decode, rom, pos + ins.length, rest)
    ensures Closed(decode, rom, pos, After([rec] + sub.out, rest))
  {
    if rest.fault.None? {
      BranchCovered(decode, rom, pos, ins, rec, rest.visited);
      ClosedBranchRecords(decode, rom, rec, sub, rest.visited);
      ClosedAfter(decode, rom, pos, [rec] + sub.out, sub.visited, rest);
    }
  }

  lemma BranchCovered(decode: byte -> Option<Instr>, rom: seq<byte>, pos: nat, ins: Instr, rec: Record, later: set<nat>)
    requires pos < |rom| && decode(rom[pos]) == Some(ins) && (ins.flow == Branch8 || ins.flow == Branch16)
    requires rec.address == pos && rec.opcode == rom[pos]
    requires Covered(rom, pos + ins.length, later) && Covered(rom, BranchTarget(rom, pos, ins.flow), later)
    ensures SuccessorsCovered(decode, rom, rec, later)
  {
  }

  lemma ClosedBranchRecords(decode: byte -> Option<Instr>, rom: seq<byte>, rec: Record, sub: WalkResult, later: set<nat>)
    requires sub.visited <= later
    requires SuccessorsCovered(decode, rom, rec, later)
    requires forall i :: 0 <= i < |sub.out| ==> SuccessorsCovered(decode, rom, sub.out[i], sub.visited)
    ensures forall i :: 0 <= i < |[rec] + sub.out| ==> SuccessorsCovered(decode, rom, ([rec] + sub.out)[i], later)
  {
  }

  /** A call at an unvisited address of the image with a known opcode
      prints that instruction first, at its own level. */
  lemma WalkFirst(decode: byte -> Option<Instr>, rom: seq<byte>, pos: nat, level: nat, visited: set<nat>)
    requires pos < |rom| && pos !in visited && decode(rom[pos]).Some?
    ensures var r := Walk(decode, rom, pos, level, visited);
            |r.out| > 0 && r.out[0] == RecordAt(rom, pos, level, decode(rom[pos]).value)
  {
    var ins := decode(rom[pos]).value;
    if ins.flow == Stops {
      WalkStops(decode, rom, pos, level, visited, ins);
    } else if ins.flow == Fallthrough {
      WalkFallthrough(decode, rom, pos, level, visited, ins);
    } else {
      WalkBranch(decode, rom, pos, level, visited, ins);
    }
  }
}
