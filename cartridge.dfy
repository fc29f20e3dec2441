/** The two entry points: `check_rom`, which validates a header and
    gathers its metadata, and `run`, which walks the code from the entry
    point 0x100 of an image whose header is valid. Opening and reading the
    file is replaced by the image passed in; whether the title bytes decode
    as UTF-8 is the parameter `decodes`. */
module Cartridge {
  import opened Wrappers
  import opened Bytes
  import opened Header
  import opened Metadata
  import opened Opcodes
  import opened Walker
  import opened WalkerFacts

  /** The dictionary `check_rom` returns for a header it could read. */
  datatype HeaderReport = HeaderReport(
    title: seq<byte>,
    validFile: bool,
    version: byte,
    japan: bool,
    super: bool,
    color: bool,
    cardType: string,
    romBank: int,
    externalRam: int)

  /** A full report, or `{"valid_file": False}` after a caught exception. */
  datatype CheckResult = Report(report: HeaderReport) | InvalidFile

  /** Whether `check_rom` declares the image valid. */
  predicate IsValid(r: CheckResult)
  {
    r.Report? && r.report.validFile
  }

  /** What `check_rom` returns for the first 0x150 bytes `header` of a file.
      The title is decoded first, so an undecodable title gives the short
      dictionary; the checksum then reads 0x14D and raises on a header that
      ends before it. Every other field lies below 0x14D and can then be
      read, and the logo is only compared when the checksum holds. */
  function CheckRomSpec(header: seq<byte>, decodes: seq<byte> -> bool): (r: CheckResult)
    ensures r.InvalidFile? <==> !decodes(TitleBytes(header)) || |header| <= HCHCK.first
    ensures r.Report? ==>
              && r.report.title == TitleBytes(header)
              && (r.report.validFile <==>
                    HeaderSum(header[HEADP.first..HEADP.last + 1]) == header[HCHCK.first]
                    && header[NLOGO.first..NLOGO.last + 1] == LOGO)
              && r.report.version == header[MVNUM.first]
              && (r.report.japan <==> header[DESTC.first] == 0x00)
              && (r.report.super <==> header[SGBFL.first] == 0x03)
              && (r.report.color <==> header[GBCFL.first] == 0x80)
              && r.report.cardType == CardTypeLabel(header[CARDT.first])
              && r.report.romBank == RomBanks(header[CARDT.first], header[ROMSZ.first])
              && r.report.externalRam == ExtRamBytes(header[CARDT.first], header[RAMSZ.first])
  {
    if !decodes(TitleBytes(header)) then InvalidFile
    else
      match HeaderChecksumOk(header)
      case None => InvalidFile
      case Some(sumOk) =>
        Report(HeaderReport(
          TitleBytes(header),
          sumOk && LogoMatches(header),
          Version(header).value,
          IsJP(header).value,
          IsSGB(header).value,
          IsCGB(header).value,
          CardType(header).value,
          RomSizeBank(header).value,
          ExtRamSize(header).value))
  }

  /** `check_rom`, calling the looping readers in the source's order. */
  method CheckRom(header: seq<byte>, decodes: seq<byte> -> bool) returns (r: CheckResult)
    ensures r == CheckRomSpec(header, decodes)
  {
    var title := Title(header);
    if !decodes(title) {
      return InvalidFile;
    }
    var sumOk := CheckHeaderChecksum(header);
    if sumOk.None? {
      return InvalidFile;
    }
    var valid := sumOk.value;
    if valid {
      valid := CheckLogo(header);
    }
    r := Report(HeaderReport(
      title, valid, Version(header).value, IsJP(header).value, IsSGB(header).value,
      IsCGB(header).value, CardType(header).value, RomSizeBank(header).value, ExtRamSize(header).value));
  }

  /** A valid header stops being valid when any one byte of 0x134..0x14D
      changes: either the title no longer decodes or the checksum fails. */
  lemma CorruptedHeaderIsInvalid(header: seq<byte>, header': seq<byte>, k: nat, decodes: seq<byte> -> bool)
    requires |header| == |header'| && HEADP.first <= k <= HCHCK.first < |header|
    requires header[k] != header'[k]
    requires forall j :: 0 <= j < |header| && j != k ==> header[j] == header'[j]
    requires IsValid(CheckRomSpec(header, decodes))
    ensures !IsValid(CheckRomSpec(header', decodes))
  {
    if CheckRomSpec(header', decodes).Report? {
      ChecksumDetectsOneByteChange(header, header', k);
    }
  }

  /** A header whose logo area differs from the reference bitmap is never valid. */
  lemma WrongLogoIsInvalid(header: seq<byte>, k: nat, decodes: seq<byte> -> bool)
    requires NLOGO.first <= k <= NLOGO.last < |header|
    requires header[k] != LOGO[k - NLOGO.first]
    ensures !IsValid(CheckRomSpec(header, decodes))
  {
    assert header[NLOGO.first..NLOGO.last + 1][k - NLOGO.first] == header[k];
  }

  /** `test_read_opcodes`: the walk from the entry point 0x100 at level 0
      with a fresh visited set. It prints each reached address at most once,
      each line is the table entry of the byte at its address, the visited
      set is exactly what it printed plus where it raised, it raises only
      on one of the 18 unknown opcodes, and when it does not raise every
      successor of what it printed was explored. */
  function Disassemble(rom: seq<byte>): (r: WalkResult)
    ensures Accounted(Decode, rom, 0, {}, r)
    ensures Closed(Decode, rom, ENTRY.first, r)
    ensures forall a :: a in r.visited ==> a < |rom|
    ensures r.fault.Some? ==> r.fault.value.opcode in UNKNOWN_OPCODES
    ensures forall i :: 0 <= i < |r.out| ==> r.out[i].opcode !in UNKNOWN_OPCODES
  {
    var r := Walk(Decode, rom, ENTRY.first, 0, {});
    WalkAccounted(Decode, rom, ENTRY.first, 0, {});
    WalkClosed(Decode, rom, ENTRY.first, 0, {});
    KnownOpcodes(rom, r);
    r
  }

  /** Through the table, the lines of a walk have known opcodes and its
      exception an unknown one. */
  lemma KnownOpcodes(rom: seq<byte>, r: WalkResult)
    requires Accounted(Decode, rom, 0, {}, r)
    ensures r.fault.Some? ==> r.fault.value.opcode in UNKNOWN_OPCODES
    ensures forall i :: 0 <= i < |r.out| ==> r.out[i].opcode !in UNKNOWN_OPCODES
  {
    forall i | 0 <= i < |r.out|
      ensures r.out[i].opcode !in UNKNOWN_OPCODES
    {
      assert Emitted(Decode, rom, 0, {}, r.out[i]);
      DecodeUnknown(r.out[i].opcode);
    }
    if r.fault.Some? {
      DecodeUnknown(r.fault.value.opcode);
    }
  }

  /** `run`: check the header of the image (its first 0x150 bytes) and walk
      the code only when it is valid. `walk` is what the walk printed and
      where it raised, `None` when no walk happens. */
  method Run(rom: seq<byte>, decodes: seq<byte> -> bool) returns (result: CheckResult, walk: Option<WalkResult>)
    ensures result == CheckRomSpec(Slice(rom, 0, HEADER_END), decodes)
    ensures walk.Some? <==> IsValid(result)
    ensures walk.Some? ==> walk.value == Disassemble(rom)
  {
    result := CheckRom(Slice(rom, 0, HEADER_END), decodes);
    if IsValid(result) {
      var visited, out, fault := ReadCode(Decode, rom, ENTRY.first, 0, {});
      walk := Some(WalkResult(visited, out, fault));
    } else {
      walk := None;
    }
  }
}
