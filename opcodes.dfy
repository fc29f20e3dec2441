/** The opcode table of `read_code` (Pan Docs, "CPU Instruction Set"), laid
    out as the usual 16 x 16 opcode map: row = high nibble, column = low
    nibble. Each entry is what the source's `match` actually dispatches to:
    of two arms with the same value the first wins, so the opcodes the
    duplicated arms were meant for fall to the default arm and are unknown. */
module Opcodes {
  import opened Wrappers
  import opened Bytes

  /** What the walker does after emitting an instruction. */
  datatype Flow =
    | Fallthrough   // continue at the next instruction
    | Stops         // RET, RETI, the conditional returns and STOP end the path
    | Branch8       // JR: explore the target read from one operand byte, then fall through
    | Branch16      // JP, CALL: explore the target read from two operand bytes, then fall through

  /** A table entry: the mnemonic printed, the number of bytes the position
      advances by, and the control flow. */
  datatype Instr = Instr(mnemonic: string, length: nat, flow: Flow)

  function Op1(m: string): Option<Instr> { Some(Instr(m, 1, Fallthrough)) }
  function Op2(m: string): Option<Instr> { Some(Instr(m, 2, Fallthrough)) }
  function Op3(m: string): Option<Instr> { Some(Instr(m, 3, Fallthrough)) }
  function End(m: string): Option<Instr> { Some(Instr(m, 1, Stops)) }
  function Jr(m: string): Option<Instr> { Some(Instr(m, 2, Branch8)) }
  function Jp(m: string): Option<Instr> { Some(Instr(m, 3, Branch16)) }

  /** An entry the walker can step over: 1 to 3 bytes long, and a branch
      long enough to hold the operand its target is read from. */
  predicate Consistent(d: Option<Instr>)
  {
    d.Some? ==>
      && 1 <= d.value.length <= 3
      && (d.value.flow == Branch8 ==> d.value.length == 2)
      && (d.value.flow == Branch16 ==> d.value.length == 3)
  }

  /** The entry for an opcode byte; `None` where the source raises
      "Unknown opcode". */
  function Decode(op: byte): (r: Option<Instr>)
    ensures Consistent(r)
  {
    if op < 0x10 then Row0(op)
    else if op < 0x20 then Row1(op)
    else if op < 0x30 then Row2(op)
    else if op < 0x40 then Row3(op)
    else if op < 0x50 then Row4(op)
    else if op < 0x60 then Row5(op)
    else if op < 0x70 then Row6(op)
    else if op < 0x80 then Row7(op)
    else if op < 0x90 then Row8(op)
    else if op < 0xA0 then Row9(op)
    else if op < 0xB0 then RowA(op)
    else if op < 0xC0 then RowB(op)
    else if op < 0xD0 then RowC(op)
    else if op < 0xE0 then RowD(op)
    else if op < 0xF0 then RowE(op)
    else RowF(op)
  }

  function Row0(op: byte): (r: Option<Instr>)
    ensures Consistent(r)
  {
    match op
    case 0x00 => Op1("NOP")
    case 0x01 => Op3("LD BC n16")
    case 0x02 => Op1("LD BC A")
    case 0x03 => Op1("INC BC")
    case 0x04 => Op1("INC B")
    case 0x05 => Op1("DEC B")
    case 0x06 => Op2("LD B n8")
    case 0x07 => Op1("RLCA")
    case 0x08 => Op3("LD a16 SP")
    case 0x09 => Op1("ADD HL BC")
    case 0x0A => Op1("LD A BC")
    case 0x0B => Op1("DEC BC")
    case 0x0C => Op1("INC C")
    case 0x0D => Op1("DEC C")
    case 0x0E => Op2("LD C n8")
    case 0x0F => Op1("RRCA")
    case _ => None
  }

  function Row1(op: byte): (r: Option<Instr>)
    ensures Consistent(r)
  {
    match op
    case 0x10 => End("STOP")
    case 0x11 => Op3("LD DE n16")
    case 0x12 => Op1("LD DE A")
    case 0x13 => Op1("INC DE")
    case 0x14 => Op1("INC D")
    case 0x15 => Op1("DEC D")
    case 0x16 => Op2("LD D n8")
    case 0x17 => Op1("RLA")
    case 0x18 => Jr("JR e8")
    case 0x19 => Op1("ADD HL DE")
    case 0x1A => Op1("LD A DE")
    case 0x1B => Op1("DEC DE")
    case 0x1C => Op1("INC E")
    case 0x1D => Op1("DEC E")
    case 0x1E => Op2("LD E n8")
    case 0x1F => Op1("RRA")
    case _ => None
  }

  function Row2(op: byte): (r: Option<Instr>)
    ensures Consistent(r)
  {
    match op
    case 0x20 => Jr("JR NZ e8")
    case 0x21 => Op3("LD HL n16")
    case 0x22 => Op1("LD HL+ A")
    case 0x23 => Op1("INC HL")
    case 0x24 => Op1("INC H")
    case 0x25 => Op1("DEC H")
    case 0x26 => Op2("LD H n8")
    case 0x27 => Op1("D4A")
    case 0x28 => Jr("JR Z e8")
    case 0x29 => Op1("ADD HL HL")
    case 0x2A => Op1("LD A HL+")
    case 0x2B => Op1("DEC HL")
    case 0x2C => Op1("INC L")
    case 0x2D => Op1("DEC L")
    case 0x2E => Op2("LD L n8")
    case 0x2F => Op1("CPL")
    case _ => None
  }

  function Row3(op: byte): (r: Option<Instr>)
    ensures Consistent(r)
  {
    match op
    case 0x30 => Jr("JR NC e8")
    case 0x31 => Op3("LD SP n16")
    case 0x32 => Op1("LD HL- A")
    case 0x33 => Op1("INC SP")
    case 0x34 => Op1("INC HL")
    case 0x35 => Op1("DEC HL")
    case 0x36 => Op2("LD HL n8")
    case 0x37 => Op1("SCF")
    case 0x38 => Jr("JR C e8")
    case 0x39 => Op1("ADD HL SP")
    case 0x3A => Op1("LD A HL-")
    case 0x3B => Op1("DEC SP")
    case 0x3C => Op1("INC A")
    case 0x3D => Op1("DEC A")
    case 0x3E => Op2("LD A n8")
    case 0x3F => Op1("CCF")
    case _ => None
  }

  function Row4(op: byte): (r: Option<Instr>)
    ensures Consistent(r)
  {
    match op
    case 0x40 => Op1("LD B B")
    case 0x41 => Op1("LD B C")
    case 0x42 => Op1("LD B D")
    case 0x43 => Op1("LD B E")
    // 0x44: the arm written for it repeats 0x43, so it falls to the default
    case 0x45 => Op1("LD B L")
    case 0x46 => Op1("LD B HL")
    case 0x47 => Op1("LD B A")
    case 0x48 => Op1("LD C B")
    case 0x49 => Op1("LD C C")
    case 0x4A => Op1("LD C D")
    case 0x4B => Op1("LD C E")
    case 0x4C => Op1("LD C H")
    case 0x4D => Op1("LD C L")
    case 0x4E => Op1("LD C HL")
    case 0x4F => Op1("LD C A")
    case _ => None
  }

  function Row5(op: byte): (r: Option<Instr>)
    ensures Consistent(r)
  {
    match op
    case 0x50 => Op1("LD D B")
    case 0x51 => Op1("LD D C")
    case 0x52 => Op1("LD D D")
    case 0x53 => Op1("LD D E")
    case 0x54 => Op1("LD D H")
    case 0x55 => Op1("LD D L")
    case 0x56 => Op1("LD D HL")
    case 0x57 => Op1("LD D A")
    case 0x58 => Op1("LD E B")
    case 0x59 => Op1("LD E C")
    case 0x5A => Op1("LD E D")
    case 0x5B => Op1("LD E E")
    case 0x5C => Op1("LD E H")
    case 0x5D => Op1("LD E L")
    case 0x5E => Op1("LD E HL")
    case 0x5F => Op1("LD E A")
    case _ => None
  }

  function Row6(op: byte): (r: Option<Instr>)
    ensures Consistent(r)
  {
    match op
    case 0x60 => Op1("LD H B")
    case 0x61 => Op1("LD H C")
    case 0x62 => Op1("LD H D")
    case 0x63 => Op1("LD H E")
    // 0x64: the arm written for it repeats 0x63, so it falls to the default
    case 0x65 => Op1("LD H L")
    case 0x66 => Op1("LD H HL")
    case 0x67 => Op1("LD H A")
    case 0x68 => Op1("LD L B")
    case 0x69 => Op1("LD L C")
    case 0x6A => Op1("LD L D")
    case 0x6B => Op1("LD L E")
    case 0x6C => Op1("LD L H")
    case 0x6D => Op1("LD L L")
    case 0x6E => Op1("LD L HL")
    case 0x6F => Op1("LD L A")
    case _ => None
  }

  function Row7(op: byte): (r: Option<Instr>)
    ensures Consistent(r)
  {
    match op
    case 0x70 => Op1("LD HL B")
    case 0x71 => Op1("LD HL C")
    case 0x72 => Op1("LD HL D")
    case 0x73 => Op1("LD HL E")
    // 0x74: the arm written for it repeats 0x73, so it falls to the default
    case 0x75 => Op1("LD HL L")
    case 0x76 => Op1("HALT")
    case 0x77 => Op1("LD HL A")
    case 0x78 => Op1("LD A B")
    case 0x79 => Op1("LD A C")
    case 0x7A => Op1("LD A D")
    case 0x7B => Op1("LD A E")
    case 0x7C => Op1("LD A H")
    case 0x7D => Op1("LD A L")
    case 0x7E => Op1("LD A HL")
    case 0x7F => Op1("LD A A")
    case _ => None
  }

  function Row8(op: byte): (r: Option<Instr>)
    ensures Consistent(r)
  {
    match op
    case 0x80 => Op1("ADD A B")
    case 0x81 => Op1("ADD A C")
    case 0x82 => Op1("ADD A D")
    case 0x83 => Op1("ADD A E")
    // 0x84: the arm written for it repeats 0x83, so it falls to the default
    case 0x85 => Op1("ADD A L")
    case 0x86 => Op1("ADD A HL")
    case 0x87 => Op1("ADD A A")
    case 0x88 => Op1("ADC A B")
    case 0x89 => Op1("ADC A C")
    case 0x8A => Op1("ADC A D")
    case 0x8B => Op1("ADC A E")
    case 0x8C => Op1("ADC A H")
    case 0x8D => Op1("ADC A L")
    case 0x8E => Op1("ADC A HL")
    case 0x8F => Op1("ADC A A")
    case _ => None
  }

  function Row9(op: byte): (r: Option<Instr>)
    ensures Consistent(r)
  {
    match op
    case 0x90 => Op1("SUB A B")
    case 0x91 => Op1("SUB A C")
    case 0x92 => Op1("SUB A D")
    case 0x93 => Op1("SUB A E")
    // 0x94: the arm written for it repeats 0x93, so it falls to the default
    case 0x95 => Op1("SUB A L")
    case 0x96 => Op1("SUB A HL")
    case 0x97 => Op1("SUB A A")
    case 0x98 => Op1("SBC A B")
    case 0x99 => Op1("SBC A C")
    case 0x9A => Op1("SBC A D")
    case 0x9B => Op1("SBC A E")
    case 0x9C => Op1("SBC A H")
    case 0x9D => Op1("SBC A L")
    case 0x9E => Op1("SBC A HL")
    case 0x9F => Op1("SBC A A")
    case _ => None
  }

  function RowA(op: byte): (r: Option<Instr>)
    ensures Consistent(r)
  {
    match op
    case 0xA0 => Op1("AND A B")
    case 0xA1 => Op1("AND A C")
    case 0xA2 => Op1("AND A D")
    case 0xA3 => Op1("AND A E")
    // 0xA4: the arm written for it repeats 0xA3, so it falls to the default
    case 0xA5 => Op1("AND A L")
    case 0xA6 => Op1("AND A HL")
    case 0xA7 => Op1("AND A A")
    case 0xA8 => Op1("XOR A B")
    case 0xA9 => Op1("XOR A C")
    case 0xAA => Op1("XOR A D")
    case 0xAB => Op1("XOR A E")
    case 0xAC => Op1("XOR A H")
    case 0xAD => Op1("XOR A L")
    case 0xAE => Op1("XOR A HL")
    case 0xAF => Op1("XOR A A")
    case _ => None
  }

  function RowB(op: byte): (r: Option<Instr>)
    ensures Consistent(r)
  {
    match op
    case 0xB0 => Op1("OR A B")
    case 0xB1 => Op1("OR A C")
    case 0xB2 => Op1("OR A D")
    case 0xB3 => Op1("OR A E")
    // 0xB4: the arm written for it repeats 0xB3, so it falls to the default
    case 0xB5 => Op1("OR A L")
    case 0xB6 => Op1("OR A HL")
    case 0xB7 => Op1("OR A A")
    case 0xB8 => Op1("CP A B")
    case 0xB9 => Op1("CP A C")
    case 0xBA => Op1("CP A D")
    case 0xBB => Op1("CP A E")
    case 0xBC => Op1("CP A H")
    case 0xBD => Op1("CP A L")
    case 0xBE => Op1("CP A HL")
    case 0xBF => Op1("CP A A")
    case _ => None
  }

  function RowC(op: byte): (r: Option<Instr>)
    ensures Consistent(r)
  {
    match op
    case 0xC0 => End("RET NZ")
    case 0xC1 => Op1("POP BC")
    case 0xC2 => Jp("JP NZ a16")
    case 0xC3 => Jp("JP a16")
    case 0xC4 => Jp("CALL NZ a16")
    case 0xC5 => Op1("PUSH BC")
    case 0xC6 => Op2("ADD A n8")
    case 0xC7 => Op1("RST $00")
    case 0xC8 => End("RET Z")
    case 0xC9 => End("RET")
    case 0xCA => Jp("JP Z a16")
    case 0xCB => Op3("PREFIX")
    case 0xCC => Jp("CALL Z a16")
    case 0xCD => Jp("CALL a16")
    case 0xCE => Op2("ADC A n8")
    case 0xCF => Op1("RST $08")
    case _ => None
  }

  function RowD(op: byte): (r: Option<Instr>)
    ensures Consistent(r)
  {
    match op
    case 0xD0 => End("RET NC")
    case 0xD1 => Op1("POP DE")
    case 0xD2 => Jp("JP NC a16")
    case 0xD4 => Jp("CALL NC a16")
    case 0xD5 => Op1("PUSH DE")
    case 0xD6 => Op2("SUB A n8")
    case 0xD7 => Op1("RST $10")
    case 0xD8 => End("RET C")
    case 0xD9 => End("RETI")
    case 0xDA => Jp("JP C a16")
    case 0xDC => Jp("CALL C a16")
    case 0xDE => Op2("SBC A n8")
    case 0xDF => Op1("RST $18")
    case _ => None
  }

  function RowE(op: byte): (r: Option<Instr>)
    ensures Consistent(r)
  {
    match op
    case 0xE0 => Op2("LDH a8 A")
    case 0xE1 => Op1("POP HL")
    case 0xE2 => Op1("LD C A")
    case 0xE5 => Op1("PUSH HL")
    case 0xE6 => Op2("ADD A n8")
    case 0xE7 => Op1("RST $20")
    case 0xE8 => Op2("ADD SP e8")
    case 0xE9 => Op1("JP HL")
    case 0xEA => Op3("LD a16 A")
    case 0xEE => Op2("XOR A n8")
    case 0xEF => Op1("RST $28")
    case _ => None
  }

  function RowF(op: byte): (r: Option<Instr>)
    ensures Consistent(r)
  {
    match op
    case 0xF0 => Op2("LDH A a8")
    case 0xF1 => Op1("POP AF")
    case 0xF2 => Op1("LD A C")
    case 0xF3 => Op1("DI")
    case 0xF5 => Op1("PUSH AF")
    case 0xF6 => Op2("OR A n8")
    case 0xF7 => Op1("RST $30")
    case 0xF8 => Op2("LD HL SP + e8")
    case 0xF9 => Op1("LD SP HL")
    case 0xFA => Op3("LD A a16")
    case 0xFB => Op1("EI")
    case 0xFE => Op2("C A n8")
    case 0xFF => Op1("RST $38")
    case _ => None
  }

  /** The 18 byte values the walker rejects: the illegal opcodes of the
      instruction set, plus the seven (0x44, 0x64, 0x74, 0x84, 0x94, 0xA4,
      0xB4) that a duplicated arm shadows. */
  const UNKNOWN_OPCODES: set<byte> := {
    0x44, 0x64, 0x74, 0x84, 0x94, 0xA4, 0xB4,
    0xD3, 0xDB, 0xDD, 0xE3, 0xE4, 0xEB, 0xEC, 0xED, 0xF4, 0xFC, 0xFD
  }

  /** Opcodes followed by a 16-bit operand (n16, a16, and the 2 bytes after PREFIX). */
  const THREE_BYTE: set<byte> := {
    0x01, 0x08, 0x11, 0x21, 0x31, 0xC2, 0xC3, 0xC4, 0xCA, 0xCB, 0xCC, 0xCD, 0xD2, 0xD4, 0xDA, 0xDC, 0xEA, 0xFA
  }

  /** Opcodes followed by an 8-bit operand (n8, e8, a8). */
  const TWO_BYTE: set<byte> := {
    0x06, 0x0E, 0x16, 0x18, 0x1E, 0x20, 0x26, 0x28, 0x2E, 0x30, 0x36, 0x38, 0x3E,
    0xC6, 0xCE, 0xD6, 0xDE, 0xE0, 0xE6, 0xE8, 0xEE, 0xF0, 0xF6, 0xF8, 0xFE
  }

  /** RET NZ, RET Z, RET, RET NC, RET C, RETI and STOP. */
  const STOPPING: set<byte> := {0x10, 0xC0, 0xC8, 0xC9, 0xD0, 0xD8, 0xD9}
  /** JR e8 and its four conditional forms. */
  const RELATIVE_BRANCHES: set<byte> := {0x18, 0x20, 0x28, 0x30, 0x38}
  /** JP a16, CALL a16 and their conditional forms. */
  const ABSOLUTE_BRANCHES: set<byte> := {0xC2, 0xC3, 0xC4, 0xCA, 0xCC, 0xCD, 0xD2, 0xD4, 0xDA, 0xDC}

  /** The classification of opcode `op` by the sets above, for a table entry `d`. */
  ghost predicate EntryFacts(op: byte, d: Option<Instr>)
  {
    && (d.None? <==> op in UNKNOWN_OPCODES)
    && (d.Some? ==>
          && d.value.length == (if op in THREE_BYTE then 3 else if op in TWO_BYTE then 2 else 1)
          && (d.value.flow == Stops <==> op in STOPPING)
          && (d.value.flow == Branch8 <==> op in RELATIVE_BRANCHES)
          && (d.value.flow == Branch16 <==> op in ABSOLUTE_BRANCHES))
  }

  // Each half row of the map is checked on its own, so that each proof only
  // sees the entries of one row and splits on eight opcodes.

  lemma Row0LowFacts(op: byte)
    requires 0x00 <= op < 0x08
    ensures EntryFacts(op, Row0(op))
  {
  }

  lemma Row0HighFacts(op: byte)
    requires 0x08 <= op < 0x10
    ensures EntryFacts(op, Row0(op))
  {
  }

  lemma Row1LowFacts(op: byte)
    requires 0x10 <= op < 0x18
    ensures EntryFacts(op, Row1(op))
  {
  }

  lemma Row1HighFacts(op: byte)
    requires 0x18 <= op < 0x20
    ensures EntryFacts(op, Row1(op))
  {
  }

  lemma Row2LowFacts(op: byte)
    requires 0x20 <= op < 0x28
    ensures EntryFacts(op, Row2(op))
  {
  }

  lemma Row2HighFacts(op: byte)
    requires 0x28 <= op < 0x30
    ensures EntryFacts(op, Row2(op))
  {
  }

  lemma Row3LowFacts(op: byte)
    requires 0x30 <= op < 0x38
    ensures EntryFacts(op, Row3(op))
  {
  }

  lemma Row3HighFacts(op: byte)
    requires 0x38 <= op < 0x40
    ensures EntryFacts(op, Row3(op))
  {
  }

  lemma Row4LowFacts(op: byte)
    requires 0x40 <= op < 0x48
    ensures EntryFacts(op, Row4(op))
  {
  }

  lemma Row4HighFacts(op: byte)
    requires 0x48 <= op < 0x50
    ensures EntryFacts(op, Row4(op))
  {
  }

  lemma Row5LowFacts(op: byte)
    requires 0x50 <= op < 0x58
    ensures EntryFacts(op, Row5(op))
  {
  }

  lemma Row5HighFacts(op: byte)
    requires 0x58 <= op < 0x60
    ensures EntryFacts(op, Row5(op))
  {
  }

  lemma Row6LowFacts(op: byte)
    requires 0x60 <= op < 0x68
    ensures EntryFacts(op, Row6(op))
  {
  }

  lemma Row6HighFacts(op: byte)
    requires 0x68 <= op < 0x70
    ensures EntryFacts(op, Row6(op))
  {
  }

  lemma Row7LowFacts(op: byte)
    requires 0x70 <= op < 0x78
    ensures EntryFacts(op, Row7(op))
  {
  }

  lemma Row7HighFacts(op: byte)
    requires 0x78 <= op < 0x80
    ensures EntryFacts(op, Row7(op))
  {
  }

  lemma Row8LowFacts(op: byte)
    requires 0x80 <= op < 0x88
    ensures EntryFacts(op, Row8(op))
  {
  }

  lemma Row8HighFacts(op: byte)
    requires 0x88 <= op < 0x90
    ensures EntryFacts(op, Row8(op))
  {
  }

  lemma Row9LowFacts(op: byte)
    requires 0x90 <= op < 0x98
    ensures EntryFacts(op, Row9(op))
  {
  }

  lemma Row9HighFacts(op: byte)
    requires 0x98 <= op < 0xA0
    ensures EntryFacts(op, Row9(op))
  {
  }

  lemma RowALowFacts(op: byte)
    requires 0xA0 <= op < 0xA8
    ensures EntryFacts(op, RowA(op))
  {
  }

  lemma RowAHighFacts(op: byte)
    requires 0xA8 <= op < 0xB0
    ensures EntryFacts(op, RowA(op))
  {
  }

  lemma RowBLowFacts(op: byte)
    requires 0xB0 <= op < 0xB8
    ensures EntryFacts(op, RowB(op))
  {
  }

  lemma RowBHighFacts(op: byte)
    requires 0xB8 <= op < 0xC0
    ensures EntryFacts(op, RowB(op))
  {
  }

  lemma RowCLowFacts(op: byte)
    requires 0xC0 <= op < 0xC8
    ensures EntryFacts(op, RowC(op))
  {
  }

  lemma RowCHighFacts(op: byte)
    requires 0xC8 <= op < 0xD0
    ensures EntryFacts(op, RowC(op))
  {
  }

  lemma RowDLowFacts(op: byte)
    requires 0xD0 <= op < 0xD8
    ensures EntryFacts(op, RowD(op))
  {
  }

  lemma RowDHighFacts(op: byte)
    requires 0xD8 <= op < 0xE0
    ensures EntryFacts(op, RowD(op))
  {
  }

  lemma RowELowFacts(op: byte)
    requires 0xE0 <= op < 0xE8
    ensures EntryFacts(op, RowE(op))
  {
  }

  lemma RowEHighFacts(op: byte)
    requires 0xE8 <= op < 0xF0
    ensures EntryFacts(op, RowE(op))
  {
  }

  lemma RowFLowFacts(op: byte)
    requires 0xF0 <= op < 0xF8
    ensures EntryFacts(op, RowF(op))
  {
  }

  lemma RowFHighFacts(op: byte)
    requires 0xF8 <= op <= 0xFF
    ensures EntryFacts(op, RowF(op))
  {
  }

  lemma {:induction false} AllTableFacts(op: byte)
    ensures EntryFacts(op, Decode(op))
  {
    if op < 0x10 {
      if op < 0x08 { Row0LowFacts(op); } else { Row0HighFacts(op); }
    } else if op < 0x20 {
      if op < 0x18 { Row1LowFacts(op); } else { Row1HighFacts(op); }
    } else if op < 0x30 {
      if op < 0x28 { Row2LowFacts(op); } else { Row2HighFacts(op); }
    } else if op < 0x40 {
      if op < 0x38 { Row3LowFacts(op); } else { Row3HighFacts(op); }
    } else if op < 0x50 {
      if op < 0x48 { Row4LowFacts(op); } else { Row4HighFacts(op); }
    } else if op < 0x60 {
      if op < 0x58 { Row5LowFacts(op); } else { Row5HighFacts(op); }
    } else if op < 0x70 {
      if op < 0x68 { Row6LowFacts(op); } else { Row6HighFacts(op); }
    } else if op < 0x80 {
      if op < 0x78 { Row7LowFacts(op); } else { Row7HighFacts(op); }
    } else if op < 0x90 {
      if op < 0x88 { Row8LowFacts(op); } else { Row8HighFacts(op); }
    } else if op < 0xA0 {
      if op < 0x98 { Row9LowFacts(op); } else { Row9HighFacts(op); }
    } else if op < 0xB0 {
      if op < 0xA8 { RowALowFacts(op); } else { RowAHighFacts(op); }
    } else if op < 0xC0 {
      if op < 0xB8 { RowBLowFacts(op); } else { RowBHighFacts(op); }
    } else if op < 0xD0 {
      if op < 0xC8 { RowCLowFacts(op); } else { RowCHighFacts(op); }
    } else if op < 0xE0 {
      if op < 0xD8 { RowDLowFacts(op); } else { RowDHighFacts(op); }
    } else if op < 0xF0 {
      if op < 0xE8 { RowELowFacts(op); } else { RowEHighFacts(op); }
    } else {
      if op < 0xF8 { RowFLowFacts(op); } else { RowFHighFacts(op); }
    }
  }

  /** An opcode is rejected exactly when it is one of the 18 unknown values. */
  lemma DecodeUnknown(op: byte)
    ensures Decode(op).None? <==> op in UNKNOWN_OPCODES
  {
    AllTableFacts(op);
  }

  /** Instruction length: 3 for a 16-bit operand, 2 for an 8-bit one, 1 otherwise. */
  lemma DecodeLength(op: byte)
    requires Decode(op).Some?
    ensures Decode(op).value.length == if op in THREE_BYTE then 3 else if op in TWO_BYTE then 2 else 1
  {
    AllTableFacts(op);
  }

  /** The control flow of each opcode: the returns and STOP end the path,
      the JRs and the JP/CALLs branch, everything else (HALT, JP HL and the
      RSTs included) falls through. */
  lemma DecodeFlow(op: byte)
    requires Decode(op).Some?
    ensures Decode(op).value.flow == Stops <==> op in STOPPING
    ensures Decode(op).value.flow == Branch8 <==> op in RELATIVE_BRANCHES
    ensures Decode(op).value.flow == Branch16 <==> op in ABSOLUTE_BRANCHES
  {
    AllTableFacts(op);
  }
}
