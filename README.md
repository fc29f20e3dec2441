# A verified model of `gbr.py`, a Game Boy cartridge reader

`gbr.py` reads a Game Boy cartridge image (a `.gb` file) and does two things.

- It checks the cartridge header at 0x100..0x14F. The header layout is the one in Pan Docs, "The Cartridge Header".
  - It recomputes the header checksum over 0x134..0x14C and compares it with byte 0x14D.
  - It compares the 48-byte logo bitmap at 0x104..0x133 with the reference bitmap.
  - It reads the NUL-terminated title and the version, SGB, CGB and destination flags.
  - It decodes the cartridge type, ROM size and RAM size codes through three lookup tables. The ROM size has an MBC1 exception and the RAM size an MBC2 override.
- When the header is valid, it disassembles the code. The walker `read_code` starts at the entry point 0x100. It decodes one opcode at a time through a `match` of 245 literal arms (238 distinct values) and a default arm, following Pan Docs, "CPU Instruction Set", and prints a line per instruction. On a JR, JP or CALL it first explores the branch target, one level deeper, and then continues after the instruction. It stops at returns and STOP. It never decodes an address twice, because it shares one visited set across all recursive calls. An opcode the `match` does not know raises an exception, which aborts the whole walk.

The model is a set of Dafny modules:

- `Bytes`: Python slicing and `int.from_bytes`.
- `Header`: field locations, checksum, logo, title and flags.
- `Metadata`: the three lookup tables.
- `Text`: substring search, for the source's `"MBC1" in label` tests.
- `Opcodes`: the opcode table.
- `Walker`: `read_code` as a specification function `Walk` and as a method `ReadCode` proved equal to it.
- `WalkerFacts`: what a walk guarantees.
- `Cartridge`: `check_rom`, the walk from 0x100 and `run`.

Each loop of the source is a method with loop invariants. Each loop method is proved equal to a function, and the properties are proved about that function:

- the checksum fold;
- the logo comparison with early return;
- the title scan;
- the `read_code` loop.

Calling conventions of the model:

- A read that raises `IndexError` on a short image returns `None`.
- The shared mutable default `visited = set()` is an explicit parameter.
- The printed lines are a returned sequence of records. Each record holds the level, address, opcode byte, mnemonic and operand bytes.
- The exception is a returned `Fault`.
- The walker takes its opcode table as the parameter `decode`. The entry points pass `Opcodes.Decode`, which is the source's `match` entry by entry.

The source's quirks are reproduced, not corrected:

- Seven arms of the `match` repeat the value of the arm before them: 0x43, 0x63, 0x73, 0x83, 0x93, 0xA3 and 0xB3 each appear twice. Only the first of two equal arms can match. So 0x44, 0x64, 0x74, 0x84, 0x94, 0xA4 and 0xB4 fall to the default arm and raise, which makes 18 unknown opcodes in all.
- A JR target is the raw operand byte, used as an absolute address.
- A JP or CALL target is the big-endian value of its two operand bytes.
- An operand cut short by the end of the image gives a smaller target, or 0 when no operand byte is left.
- `PREFIX` (0xCB) is three bytes long.
- An unconditional JP or CALL still falls through after exploring its target.
- Only the opcode address is marked visited, not the operand bytes.

Two behaviours of the code worth noting:

- Only two things give the short `valid_file = False` result: a title that does not decode as UTF-8, and a header shorter than 0x14E bytes. In the second case the checksum's read of byte 0x14D raises. Nothing reads beyond 0x14D, so a header of 0x14E or 0x14F bytes is still checked in full.
- Two-byte branch operands are read big-endian, the default byte order of `int.from_bytes`. The CPU stores 16-bit operands low byte first (Pan Docs, "CPU Instruction Set"), so a JP or CALL target is the CPU's target with its two bytes swapped.

## Model

| member | source | states |
|---|---|---|
| Bytes.Slice | gbr.py:26-27 | a Python slice `s[lo:hi]` is clamped: its length is `min(hi, len) - lo`, or 0 when `hi <= lo` or `lo` is past the end, and element `i` is `s[lo + i]` |
| Bytes.FromBytesBEShort | gbr.py:224-227 | `int.from_bytes` on at most two bytes is 0 for no byte, the byte itself for one, and `b0 * 256 + b1` (big-endian) for two |
| Header.GetSection | gbr.py:26-27 | a section is the exact bytes `first..last` when the image reaches `last`, the tail when it ends inside the section, and empty when it ends before it |
| Header.FirstByte | gbr.py:57-58 | `get_section(rom, loc)[0]` succeeds exactly when the image is longer than `loc.first`, and then it is the byte at `loc.first` |
| Header.HeaderChecksumOk | gbr.py:32-37 | the check is defined exactly when the image holds byte 0x14D; it is true iff folding `(s - b - 1) % 256` from 0 over 0x134..0x14C gives byte 0x14D |
| Header.CheckHeaderChecksum | gbr.py:32-37 | the loop with its byte accumulator computes exactly `HeaderChecksumOk` |
| Header.ChecksumStep | gbr.py:35 | one step `(sum - b - 1) % 0x100` loses nothing: adding `b + 1` back modulo 256 recovers the previous sum |
| Header.HeaderSum | gbr.py:33-35 | the fold of the step from 0 over the bytes equals the closed form `(-(sum of the bytes) - count) mod 256` |
| Header.ChecksumDetectsOneByteChange | gbr.py:32-37 | in an image whose checksum holds, changing any single byte of 0x134..0x14D makes it fail |
| Header.CheckLogo | gbr.py:39-48 | the loop with early return is true iff every byte of the clamped logo section equals the reference table at the same index |
| Header.LogoMatches | gbr.py:39-48 | `checkLogo` holds iff the clamped logo section is a prefix of the reference bitmap; on an image reaching 0x133, iff the 48 bytes equal it |
| Header.LogoRejectsAnyChange | gbr.py:39-48 | on an image reaching 0x133, one logo byte that differs from the reference makes the check false |
| Header.TitleOf | gbr.py:50-55 | the title is a prefix of the title bytes, contains no zero byte, and stops at the end or at a zero byte |
| Header.TitleOfUnique | gbr.py:50-55 | those three properties determine the title uniquely |
| Header.TitleBytes | gbr.py:50-55 | the title is the image's bytes from 0x134 on: at most 16 of them, none zero, ending at the 16th, at the end of the image or just before a zero byte |
| Header.Title | gbr.py:50-55 | the scan with its return at the first zero byte yields exactly that title |
| Header.Version | gbr.py:57-58 | the version is byte 0x14C, and reading it fails exactly on an image not reaching it |
| Header.IsSGB | gbr.py:60-61 | true exactly when byte 0x146 is 0x03, undefined when absent |
| Header.IsCGB | gbr.py:63-64 | true exactly when byte 0x143 is 0x80 (an equality, not a bit test), undefined when absent |
| Header.IsJP | gbr.py:66-67 | true exactly when byte 0x14A is 0x00, undefined when absent |
| Metadata.CardTypeLabel | gbr.py:70-99 | the table of `cardType`: the label is "UNKNOWN" exactly for the codes outside the 28 listed |
| Metadata.MBC1Family | gbr.py:101-102 | the label contains "MBC1" exactly for the codes 0x01, 0x02 and 0x03 (not for HuC1 or MMM01) |
| Metadata.MBC2Family | gbr.py:116-118 | the label contains "MBC2" exactly for the codes 0x05 and 0x06 |
| Metadata.RomBanks | gbr.py:101-114 | -1 exactly for the unlisted size codes; 0 for code 0; `2^(code+1)` for codes 1..4 on every cartridge and for codes 5 and 6 on non-MBC1 ones; 63 and 125 for codes 5 and 6 on MBC1; 72, 80 and 96 for codes 0x52, 0x53 and 0x54 |
| Metadata.RamKiB | gbr.py:120-127 | the RAM table in KiB: -1 exactly for the unlisted codes, 0 for code 0, `2^(2*code-1)` (2, 8, 32, 128) for codes 1..4, 64 for code 5 |
| Metadata.ExtRamBytes | gbr.py:116-127 | 2048 for the MBC2 codes whatever the RAM code; otherwise the table value times 1024, -1024 exactly when unlisted; always a multiple of 1024 |
| Metadata.CardType | gbr.py:69-99 | defined exactly when the image holds byte 0x147, and then the label of that byte |
| Metadata.RomSizeBank | gbr.py:101-114 | defined exactly when the image holds byte 0x148, and then the table value for bytes 0x147 and 0x148 |
| Metadata.ExtRamSize | gbr.py:116-127 | defined when the image holds byte 0x149, or holds 0x147 with an MBC2 code (0x149 is then not read); 2048 whenever the type byte is an MBC2 code; always a multiple of 1024 |
| Opcodes.Decode | gbr.py:168-725 | the `match` entry by entry; every known instruction is 1 to 3 bytes long, a JR 2 bytes and a JP or CALL 3, so a branch target is read from the instruction's own operand |
| Opcodes.DecodeUnknown | gbr.py:165-725 | an opcode raises "Unknown opcode" exactly when it is one of the 18 unknown values, the seven shadowed by duplicated arms included |
| Opcodes.DecodeLength | gbr.py:169-726 | a known instruction advances the position by 3 for the 18 opcodes with a 16-bit operand (PREFIX included), by 2 for the 25 with an 8-bit operand, by 1 otherwise |
| Opcodes.DecodeFlow | gbr.py:169-725 | exactly STOP and the six returns end the path; exactly the five JRs and the ten JPs and CALLs branch; HALT, JP HL and RST fall through |
| Walker.BranchTarget | gbr.py:224-227 | a JR target is the operand byte; a JP/CALL target is `rom[p+1] * 256 + rom[p+2]`; a truncated operand gives `rom[p+1]` or 0 |
| Walker.RecordAt | gbr.py:169-723 | the printed line holds the level, the address, the byte there, the mnemonic and the operand bytes up to the instruction's end, clamped at the image's end |
| Walker.Walk | gbr.py:165-167 | one call of `read_code` only adds to the visited set; it terminates because every iteration adds an in-range address |
| Walker.WalkStops | gbr.py:604-606 | at an unvisited address whose opcode ends the path, the call prints that line and returns, with the address visited |
| Walker.WalkFallthrough | gbr.py:169-172 | at an unvisited address whose opcode falls through, the call prints the line and continues at the address plus the length |
| Walker.WalkBranch | gbr.py:586-589 | at a branch, the call prints the line, walks the target at level + 1 with the shared visited set, stops if that raised, and otherwise continues after the branch |
| Walker.WalkUnknown | gbr.py:724-725 | at an unvisited address with an unknown opcode the call raises, naming level, address and opcode, with the address visited |
| Walker.ReadCode | gbr.py:165-726 | the `while` loop with in-place visited set and recursion on branch targets produces exactly the visited set, lines and exception of `Walk` |
| WalkerFacts.WalkAccounted | gbr.py:165-726 | the visited set after a call is the one before plus exactly the addresses printed and the one raised at; each line is the table entry of the byte at its in-range, previously unvisited address, at the call's level or deeper; no address is printed twice; an exception names an unknown opcode |
| WalkerFacts.WalkClosed | gbr.py:165-726 | a call that does not raise leaves its start and every successor of every printed line (next instruction unless it ends the path, branch target) visited or outside the image |
| WalkerFacts.WalkFirst | gbr.py:166-169 | a call at an unvisited in-range address with a known opcode prints that instruction first, at its own level |
| Cartridge.CheckRomSpec | gbr.py:137-153 | the short `{"valid_file": False}` result exactly when the title does not decode or the header is shorter than 0x14E bytes; otherwise `valid_file` is checksum ∧ logo and every field is the byte or table value it reads |
| Cartridge.CheckRom | gbr.py:137-145 | calling the looping readers in the source's order, with the logo compared only after a passing checksum, gives exactly `CheckRomSpec` |
| Cartridge.CorruptedHeaderIsInvalid | gbr.py:140 | a valid header with any one byte of 0x134..0x14D changed is no longer valid |
| Cartridge.WrongLogoIsInvalid | gbr.py:140 | a header with any logo byte differing from the reference is not valid |
| Cartridge.Disassemble | gbr.py:156-163 | the walk from 0x100 at level 0 with an empty visited set prints each address at most once, only table entries of in-range bytes, raises only on an unknown opcode, and when it does not raise is closed under control flow |
| Cartridge.KnownOpcodes | gbr.py:724-725 | through the opcode table, every printed opcode is known and a raised one is one of the 18 unknown |
| Cartridge.Run | gbr.py:728-731 | the header is checked on the first 0x150 bytes of the image; the code is walked exactly when the header is valid, and the walk is `Disassemble` |

## Left out

- Opening and reading the file and the `.gb` extension check are left out; the model takes the image as a byte sequence. Without the check, the model also misses that a wrong extension makes `run` index `False` and crash.
- The `print` output, `hex()` and `.hex()` formatting, and the printing of tracebacks are left out. The printed lines are the returned records; the exception is the returned `Fault`.
- UTF-8 decoding of the title is a library call. The model keeps the title as bytes and takes whether they decode as the parameter `decodes`.
- The return value of `read_code` (`0` after STOP, `None` otherwise) is never used and is not modelled.
- `read_code` keeps its visited set in a shared mutable default argument. The model passes it explicitly; `Disassemble` and `Run` start from an empty set, which is what the single call of each run sees.
- `int.from_bytes` without a byte order argument is modelled as big-endian; Python before 3.11 requires the argument.
- `hex2int`, `MEGABYTE` and the unused locations `L_MANUF`, `L_LICEN` and `L_LICEO` are not modelled, since nothing uses them.
- Instruction semantics (registers, flags, memory, timing) are not part of the source, so they are not part of the model.
- Walker.Walk, Walker.ReadCode, Cartridge.Disassemble: CPython's recursion limit is not modelled. The source uses one stack frame per nested branch (gbr.py:226, 584, 588 and the other branch arms). Near the default limit of about 1000 frames it raises `RecursionError`, and `test_read_opcodes` catches it (gbr.py:161-163), so the walk stops there. The model walks on without a fault. For example, a chain of 1000 `CALL`s, each calling the next, ends in a traceback in the source but is printed in full by the model. "Raises only on an unknown opcode" therefore holds only for walks that stay below that depth.
- Walker.ReadCode: the in-place update of the visited set is modelled by reassigning a `set` value, so aliasing between callers is captured only through the value passed back from the recursive call.
