/** Cartridge metadata derived from header codes through the source's closed
    lookup tables: the cartridge type label, the ROM bank count and the size
    of the external RAM. Each table is a function of the codes; each reader of
    an image looks the codes up and returns `None` where the source would
    raise on a short image. */
module Metadata {
  import opened Wrappers
  import opened Bytes
  import opened Text
  import opened Header

  const KILOBYTE := 1024

  /** The 28 cartridge type codes the table of `cardType` lists. */
  const CARD_TYPE_CODES: set<byte> := {
    0x00, 0x01, 0x02, 0x03, 0x05, 0x06, 0x08, 0x09, 0x0B, 0x0C, 0x0D, 0x0F, 0x10, 0x11,
    0x12, 0x13, 0x19, 0x1A, 0x1B, 0x1C, 0x1D, 0x1E, 0x20, 0x22, 0xFC, 0xFD, 0xFE, 0xFF
  }

  /** The table of `cardType`; the sentinel "UNKNOWN" is returned exactly
      for the codes missing from the table. */
  function CardTypeLabel(code: byte): (name: string)
    ensures name == "UNKNOWN" <==> code !in CARD_TYPE_CODES
  {
    match code
    case 0x00 => "ROM ONLY"
    case 0x01 => "MBC1"
    case 0x02 => "MBC1+RAM"
    case 0x03 => "MBC1+RAM+BATTERY"
    case 0x05 => "MBC2"
    case 0x06 => "MBC2+BATTERY"
    case 0x08 => "ROM+RAM"
    case 0x09 => "ROM+RAM+BATTERY"
    case 0x0B => "MMM01"
    case 0x0C => "MMM01+RAM"
    case 0x0D => "MMM01+RAM+BATTERY"
    case 0x0F => "MBC3+TIMER+BATTERY"
    case 0x10 => "MBC3+TIMER+RAM+BATTERY"
    case 0x11 => "MBC3"
    case 0x12 => "MBC3+RAM"
    case 0x13 => "MBC3+RAM+BATTERY"
    case 0x19 => "MBC5"
    case 0x1A => "MBC5+RAM"
    case 0x1B => "MBC5+RAM+BATTERY"
    case 0x1C => "MBC5+RUMBLE"
    case 0x1D => "MBC5+RUMBLE+RAM"
    case 0x1E => "MBC5+RUMBLE+RAM+BATTERY"
    case 0x20 => "MBC6"
    case 0x22 => "MBC7+SENSOR+RUMBLE+RAM+BATTERY"
    case 0xFC => "POCKET CAMERA"
    case 0xFD => "BANDAI TAMA5"
    case 0xFE => "HuC3"
    case 0xFF => "HuC1+RAM+BATTERY"
    case _ => "UNKNOWN"
  }

  /** `"MBC1" in cardType(rom)` holds exactly for the codes 0x01..0x03. */
  lemma MBC1Family(code: byte)
    ensures Contains(CardTypeLabel(code), "MBC1") <==> code in {0x01, 0x02, 0x03}
  {
    var name := CardTypeLabel(code);
    if code in {0x01, 0x02, 0x03} {
      PrefixContains(name, "MBC1");
    } else if code == 0xFF {
      HuC1IsNotMBC1();
    } else if code in {0x0B, 0x0C, 0x0D} {
      assert 'C' !in name;       // the MMM01 labels have no 'C'
      Lacks(name, "MBC1", 2);
    } else {
      DigitsOfLabel(code);
      Lacks(name, "MBC1", 3);
    }
  }

  /** Which labels contain the digits '1' and '2': only the controller names
      MBC1, MMM01 and HuC1 have a '1', only MBC2 has a '2'. Checked group by
      group of codes. */
  lemma DigitsOfLabel(code: byte)
    ensures code !in {0x01, 0x02, 0x03, 0x0B, 0x0C, 0x0D, 0xFF} ==> '1' !in CardTypeLabel(code)
    ensures code !in {0x05, 0x06} ==> '2' !in CardTypeLabel(code)
  {
    if code in {0x00, 0x08, 0x09, 0x0F} {
      NoDigitsRom(code);
    } else if code in {0x10, 0x11, 0x12, 0x13} {
      NoDigitsMBC3(code);
    } else if code in {0x19, 0x1A, 0x1B, 0x1C} {
      NoDigitsMBC5(code);
    } else if code in {0x1D, 0x1E, 0x20} {
      NoDigitsMBC5Rumble(code);
    } else if code == 0x22 {
      NoDigitsMBC7(code);
    } else if code in {0xFC, 0xFD, 0xFE} {
      NoDigitsOther(code);
    } else if code in {0x01, 0x02, 0x03} {
      NoTwoMBC1(code);
    } else if code in {0x0B, 0x0C, 0x0D, 0xFF} {
      NoTwoMMM01HuC1(code);
    } else if code in {0x05, 0x06} {
      NoOneMBC2(code);
    } else {
      assert CardTypeLabel(code) == "UNKNOWN";
    }
  }

  lemma NoDigitsRom(code: byte)
    requires code in {0x00, 0x08, 0x09, 0x0F}
    ensures '1' !in CardTypeLabel(code) && '2' !in CardTypeLabel(code)
  {
  }

  lemma NoDigitsMBC3(code: byte)
    requires code in {0x10, 0x11, 0x12, 0x13}
    ensures '1' !in CardTypeLabel(code) && '2' !in CardTypeLabel(code)
  {
  }

  lemma NoDigitsMBC5(code: byte)
    requires code in {0x19, 0x1A, 0x1B, 0x1C}
    ensures '1' !in CardTypeLabel(code) && '2' !in CardTypeLabel(code)
  {
  }

  lemma NoDigitsMBC5Rumble(code: byte)
    requires code in {0x1D, 0x1E, 0x20}
    ensures '1' !in CardTypeLabel(code) && '2' !in CardTypeLabel(code)
  {
  }

  lemma NoDigitsMBC7(code: byte)
    requires code == 0x22
    ensures '1' !in CardTypeLabel(code) && '2' !in CardTypeLabel(code)
  {
  }

  lemma NoDigitsOther(code: byte)
    requires code in {0xFC, 0xFD, 0xFE}
    ensures '1' !in CardTypeLabel(code) && '2' !in CardTypeLabel(code)
  {
  }

  lemma NoTwoMBC1(code: byte)
    requires code in {0x01, 0x02, 0x03}
    ensures '2' !in CardTypeLabel(code)
  {
  }

  lemma NoTwoMMM01HuC1(code: byte)
    requires code in {0x0B, 0x0C, 0x0D, 0xFF}
    ensures '2' !in CardTypeLabel(code)
  {
  }

  lemma NoOneMBC2(code: byte)
    requires code in {0x05, 0x06}
    ensures '1' !in CardTypeLabel(code)
  {
  }

  lemma HuC1IsNotMBC1()
    ensures !Contains("HuC1+RAM+BATTERY", "MBC1")
  {
    // the only '1' is at index 3: no match from index 4 on, none before it
    var name := "HuC1+RAM+BATTERY";
    AbsentFrom(name, "MBC1", 4, 3);
    assert !ContainsFrom(name, "MBC1", 3);
    assert !ContainsFrom(name, "MBC1", 2);
    assert !ContainsFrom(name, "MBC1", 1);
  }

  /** `"MBC2" in cardType(rom)` holds exactly for the codes 0x05 and 0x06. */
  lemma MBC2Family(code: byte)
    ensures Contains(CardTypeLabel(code), "MBC2") <==> code in {0x05, 0x06}
  {
    var name := CardTypeLabel(code);
    if code in {0x05, 0x06} {
      PrefixContains(name, "MBC2");
    } else {
      DigitsOfLabel(code);
      Lacks(name, "MBC2", 3);
    }
  }

  /** The ROM size codes the table of `romSizeBank` lists. */
  const ROM_SIZE_CODES: set<byte> := {0x00, 0x01, 0x02, 0x03, 0x04, 0x05, 0x06, 0x52, 0x53, 0x54}

  function Pow2(n: nat): nat { if n == 0 then 1 else 2 * Pow2(n - 1) }

  /** The table of `romSizeBank`; codes 0x05 and 0x06 give one bank fewer
      (63, 125) or three fewer when the type label names the MBC1 controller. */
  function RomBanks(cardCode: byte, sizeCode: byte): (banks: int)
    ensures banks == -1 <==> sizeCode !in ROM_SIZE_CODES
    ensures sizeCode == 0x00 ==> banks == 0
    ensures 0x01 <= sizeCode <= 0x04 ==> banks == Pow2(sizeCode as nat + 1)
    ensures 0x05 <= sizeCode <= 0x06 && cardCode !in {0x01, 0x02, 0x03} ==> banks == Pow2(sizeCode as nat + 1)
    ensures sizeCode == 0x05 && cardCode in {0x01, 0x02, 0x03} ==> banks == 63
    ensures sizeCode == 0x06 && cardCode in {0x01, 0x02, 0x03} ==> banks == 125
    ensures sizeCode == 0x52 ==> banks == 72
    ensures sizeCode == 0x53 ==> banks == 80
    ensures sizeCode == 0x54 ==> banks == 96
  {
    var isMbc1 := Contains(CardTypeLabel(cardCode), "MBC1");
    MBC1Family(cardCode);
    match sizeCode
    case 0x00 => 0
    case 0x01 => 4
    case 0x02 => 8
    case 0x03 => 16
    case 0x04 => 32
    case 0x05 => if isMbc1 then 63 else 64
    case 0x06 => if isMbc1 then 125 else 128
    case 0x52 => 72
    case 0x53 => 80
    case 0x54 => 96
    case _ => -1
  }

  /** The RAM size codes the table of `extRamSize` lists. */
  const RAM_SIZE_CODES: set<byte> := {0x00, 0x01, 0x02, 0x03, 0x04, 0x05}

  /** The table of `extRamSize`, in KiB: a power of two from 2 KiB up, 0
      for code 0x00, and -1 exactly for the unlisted codes. */
  function RamKiB(ramCode: byte): (kib: int)
    ensures kib == -1 <==> ramCode !in RAM_SIZE_CODES
    ensures ramCode == 0x00 ==> kib == 0
    ensures 0x01 <= ramCode <= 0x04 ==> kib == Pow2(2 * ramCode as nat - 1)
    ensures ramCode == 0x05 ==> kib == 64
  {
    match ramCode
    case 0x00 => 0
    case 0x01 => 2
    case 0x02 => 8
    case 0x03 => 32
    case 0x04 => 128
    case 0x05 => 64
    case _ => -1
  }

  /** `extRamSize` on the codes: 2048 bytes for the MBC2 family whatever the
      RAM code, otherwise the table value times 1024, -1024 when unlisted. */
  function ExtRamBytes(cardCode: byte, ramCode: byte): (bytes: int)
    ensures cardCode in {0x05, 0x06} ==> bytes == 2048
    ensures cardCode !in {0x05, 0x06} ==> bytes == RamKiB(ramCode) * KILOBYTE
    ensures cardCode !in {0x05, 0x06} ==> (bytes == -KILOBYTE <==> ramCode !in RAM_SIZE_CODES)
    ensures bytes % KILOBYTE == 0
  {
    MBC2Family(cardCode);
    if Contains(CardTypeLabel(cardCode), "MBC2") then 512 * 4
    else RamKiB(ramCode) * KILOBYTE
  }

  /** `cardType(rom)` */
  function CardType(rom: seq<byte>): (r: Option<string>)
    ensures r.Some? <==> |rom| > CARDT.first
    ensures r.Some? ==> r.value == CardTypeLabel(rom[CARDT.first])
  {
    match FirstByte(rom, CARDT)
    case None => None
    case Some(code) => Some(CardTypeLabel(code))
  }

  /** `romSizeBank(rom)`: the type byte is read first, then the size byte. */
  function RomSizeBank(rom: seq<byte>): (r: Option<int>)
    ensures r.Some? <==> |rom| > ROMSZ.first
    ensures r.Some? ==> r.value == RomBanks(rom[CARDT.first], rom[ROMSZ.first])
  {
    match FirstByte(rom, CARDT)
    case None => None
    case Some(cardCode) =>
      match FirstByte(rom, ROMSZ)
      case None => None
      case Some(sizeCode) => Some(RomBanks(cardCode, sizeCode))
  }

  /** `extRamSize(rom)`: an MBC2 cartridge answers without reading the RAM
      code at all, so a short MBC2 image still gets 2048. */
  function ExtRamSize(rom: seq<byte>): (r: Option<int>)
    ensures r.Some? <==> |rom| > RAMSZ.first || (|rom| > CARDT.first && rom[CARDT.first] in {0x05, 0x06})
    ensures r.Some? && |rom| > RAMSZ.first ==> r.value == ExtRamBytes(rom[CARDT.first], rom[RAMSZ.first])
    ensures r.Some? && rom[CARDT.first] in {0x05, 0x06} ==> r.value == 2048
    ensures r.Some? ==> r.value % KILOBYTE == 0
  {
    match FirstByte(rom, CARDT)
    case None => None
    case Some(cardCode) =>
      MBC2Family(cardCode);
      if Contains(CardTypeLabel(cardCode), "MBC2") then Some(512 * 4)
      else
        match FirstByte(rom, RAMSZ)
        case None => None
        case Some(ramCode) => Some(RamKiB(ramCode) * KILOBYTE)
  }
}
