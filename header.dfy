/** The cartridge header at 0x100..0x14F (Pan Docs, "The Cartridge Header"):
    field locations, the header checksum, the logo bitmap, the title and the
    one-byte flags. Every reader works on a possibly short image, the way the
    source reads `f.read(0x150)`: a slice is clamped, and indexing the first
    byte of an empty slice raises, modelled as `None`. */
module Header {
  import opened Wrappers
  import opened Bytes

  /** An inclusive byte range `(first, last)` of the header. */
  datatype Location = Location(first: nat, last: nat)

  const HEADP := Location(0x134, 0x14C)   // bytes covered by the header checksum
  const ENTRY := Location(0x100, 0x103)
  const NLOGO := Location(0x104, 0x133)
  const TITLE := Location(0x134, 0x143)
  const GBCFL := Location(0x143, 0x143)
  const SGBFL := Location(0x146, 0x146)
  const CARDT := Location(0x147, 0x147)
  const ROMSZ := Location(0x148, 0x148)
  const RAMSZ := Location(0x149, 0x149)
  const DESTC := Location(0x14A, 0x14A)
  const MVNUM := Location(0x14C, 0x14C)
  const HCHCK := Location(0x14D, 0x14D)
  const GCHCK := Location(0x14E, 0x14F)
  const HEADER_END: nat := GCHCK.last + 1

  /** `get_section`: the bytes of `loc`, clamped to the image. */
  function GetSection(rom: seq<byte>, loc: Location): (r: seq<byte>)
    requires loc.first <= loc.last
    ensures |rom| > loc.last ==> r == rom[loc.first..loc.last + 1]
    ensures |rom| <= loc.first ==> r == []
    ensures loc.first < |rom| <= loc.last ==> r == rom[loc.first..]
  {
    Slice(rom, loc.first, loc.last + 1)
  }

  /** `get_section(rom, loc)[0]`, which raises on an image that ends before `loc`. */
  function FirstByte(rom: seq<byte>, loc: Location): (r: Option<byte>)
    requires loc.first <= loc.last
    ensures r.Some? <==> loc.first < |rom|
    ensures r.Some? ==> r.value == rom[loc.first]
  {
    var section := GetSection(rom, loc);
    if |section| == 0 then None else Some(section[0])
  }

  // ---------------------------------------------------------------- checksum

  /** One step of the rolling header checksum, `(sum - b - 1) % 0x100`. The
      step loses nothing: adding `b + 1` back recovers the previous sum. */
  function ChecksumStep(sum: byte, b: byte): (r: byte)
    ensures (r as int + b as int + 1) % 0x100 == sum as int
  {
    ((sum as int - b as int - 1) % 0x100) as byte
  }

  /** The checksum accumulated from 0 over `bs`, left to right. Its closed
      form is minus the byte sum, minus the number of bytes, modulo 256. */
  function HeaderSum(bs: seq<byte>): (r: byte)
    ensures r as int == (0 - Sum(bs) - |bs|) % 0x100
  {
    if bs == [] then 0
    else
      var init := bs[..|bs| - 1];
      ModStep(Sum(init) + |init|, bs[|bs| - 1] as int);
      ChecksumStep(HeaderSum(init), bs[|bs| - 1])
  }

  /** `checkHeaderChecksum`: `None` when the image is too short to hold the
      checksum byte 0x14D (the source raises `IndexError`). */
  function HeaderChecksumOk(rom: seq<byte>): (r: Option<bool>)
    ensures r.Some? <==> |rom| > HCHCK.first
    ensures r.Some? ==> (r.value <==> HeaderSum(rom[HEADP.first..HEADP.last + 1]) == rom[HCHCK.first])
  {
    match FirstByte(rom, HCHCK)
    case None => None
    case Some(expected) => Some(HeaderSum(GetSection(rom, HEADP)) == expected)
  }

  /** The loop of `checkHeaderChecksum`. */
  method CheckHeaderChecksum(rom: seq<byte>) returns (r: Option<bool>)
    ensures r == HeaderChecksumOk(rom)
  {
    var header := GetSection(rom, HEADP);
    var sum: byte := 0;
    var i := 0;
    while i < |header|
      invariant 0 <= i <= |header|
      invariant sum == HeaderSum(header[..i])
    {
      assert header[..i + 1][..i] == header[..i];
      sum := ((sum as int - header[i] as int - 1) % 0x100) as byte;
      i := i + 1;
    }
    assert header[..i] == header;
    if |rom| <= HCHCK.first {
      return None;
    }
    return Some(sum == rom[HCHCK.first]);
  }

  /** The plain sum of the bytes. */
  function Sum(bs: seq<byte>): int
  {
    if bs == [] then 0 else Sum(bs[..|bs| - 1]) + bs[|bs| - 1] as int
  }

  lemma ModStep(a: int, b: int)
    ensures ((0 - a) % 0x100 - b - 1) % 0x100 == (0 - (a + b) - 1) % 0x100
  {
    var q := (0 - a) / 0x100;
    assert (0 - a) % 0x100 == (0 - a) - q * 0x100;
    assert (0 - a) % 0x100 - b - 1 == (0 - (a + b) - 1) - q * 0x100;
  }

  /** Two sequences that differ at index `k` only have sums that differ by
      the difference of those bytes. */
  lemma {:induction false} SumOneChange(a: seq<byte>, b: seq<byte>, k: nat)
    requires |a| == |b| && k < |a|
    requires forall j :: 0 <= j < |a| && j != k ==> a[j] == b[j]
    ensures Sum(a) - Sum(b) == a[k] as int - b[k] as int
  {
    var n := |a| - 1;
    if k == n {
      assert a[..n] == b[..n];
    } else {
      SumOneChange(a[..n], b[..n], k);
    }
  }

  /** The header checksum detects every single-byte change: in an image whose
      checksum holds, changing any one byte of 0x134..0x14D makes it fail. */
  lemma ChecksumDetectsOneByteChange(rom: seq<byte>, rom': seq<byte>, k: nat)
    requires |rom| == |rom'| && HEADP.first <= k <= HCHCK.first < |rom|
    requires rom[k] != rom'[k]
    requires forall j :: 0 <= j < |rom| && j != k ==> rom[j] == rom'[j]
    requires HeaderChecksumOk(rom) == Some(true)
    ensures HeaderChecksumOk(rom') == Some(false)
  {
    var a, b := rom[HEADP.first..HEADP.last + 1], rom'[HEADP.first..HEADP.last + 1];
    if k < HCHCK.first {
      SumOneChange(a, b, k - HEADP.first);
      var d := a[k - HEADP.first] as int - b[k - HEADP.first] as int;
      assert -0x100 < d < 0x100 && d != 0;
      ModShift(0 - Sum(b) - |b|, d);
    } else {
      assert a == b;
    }
  }

  lemma ModShift(x: int, d: int)
    requires -0x100 < d < 0x100 && d != 0
    ensures (x - d) % 0x100 != x % 0x100
  {
    var q1, q2 := x / 0x100, (x - d) / 0x100;
    assert x == q1 * 0x100 + x % 0x100;
    assert x - d == q2 * 0x100 + (x - d) % 0x100;
  }

  // -------------------------------------------------------------------- logo

  /** The 48-byte logo bitmap every licensed cartridge carries at 0x104..0x133. */
  const LOGO: seq<byte> := [
    0xCE, 0xED, 0x66, 0x66, 0xCC, 0x0D, 0x00, 0x0B, 0x03, 0x73, 0x00, 0x83, 0x00, 0x0C, 0x00, 0x0D,
    0x00, 0x08, 0x11, 0x1F, 0x88, 0x89, 0x00, 0x0E, 0xDC, 0xCC, 0x6E, 0xE6, 0xDD, 0xDD, 0xD9, 0x99,
    0xBB, 0xBB, 0x67, 0x63, 0x6E, 0x0E, 0xEC, 0xCC, 0xDD, 0xDC, 0x99, 0x9F, 0xBB, 0xB9, 0x33, 0x3E
  ]

  /** `checkLogo`: every byte present in the clamped logo section equals the
      reference table at the same index. It accepts exactly the images whose
      logo area is a prefix of the reference bitmap: all 48 bytes when the
      image reaches 0x134, only the bytes present when it is shorter. */
  function LogoMatches(rom: seq<byte>): (ok: bool)
    ensures ok <==> GetSection(rom, NLOGO) <= LOGO
    ensures |rom| > NLOGO.last ==> (ok <==> rom[NLOGO.first..NLOGO.last + 1] == LOGO)
  {
    var logo := GetSection(rom, NLOGO);
    forall i :: 0 <= i < |logo| ==> logo[i] == LOGO[i]
  }

  /** The loop of `checkLogo`, with its early return on the first mismatch. */
  method CheckLogo(rom: seq<byte>) returns (ok: bool)
    ensures ok == LogoMatches(rom)
  {
    var logo := GetSection(rom, NLOGO);
    var i := 0;
    while i < |logo|
      invariant 0 <= i <= |logo|
      invariant forall j :: 0 <= j < i ==> logo[j] == LOGO[j]
    {
      if logo[i] != LOGO[i] {
        return false;
      }
      i := i + 1;
    }
    return true;
  }

  /** Changing any one of the 48 logo bytes of a full header makes the check fail. */
  lemma LogoRejectsAnyChange(rom: seq<byte>, k: nat)
    requires |rom| > NLOGO.last && NLOGO.first <= k <= NLOGO.last
    requires rom[k] != LOGO[k - NLOGO.first]
    ensures !LogoMatches(rom)
  {
    assert GetSection(rom, NLOGO)[k - NLOGO.first] == rom[k];
  }

  // ------------------------------------------------------------------- title

  /** The bytes of `t` before its first zero byte, or all of `t` without one. */
  function TitleOf(t: seq<byte>): (r: seq<byte>)
    ensures r <= t
    ensures 0 !in r
    ensures |r| == |t| || t[|r|] == 0
  {
    if t == [] || t[0] == 0 then [] else [t[0]] + TitleOf(t[1..])
  }

  /** The three properties of `TitleOf` determine it. */
  lemma {:induction false} TitleOfUnique(t: seq<byte>, r: seq<byte>)
    requires r <= t && 0 !in r && (|r| == |t| || t[|r|] == 0)
    ensures r == TitleOf(t)
  {
    if t != [] && t[0] != 0 {
      assert r[0] == t[0];
      assert r[1..] <= t[1..];
      if |r| < |t| {
        assert t[1..][|r[1..]|] == t[|r|];
      }
      TitleOfUnique(t[1..], r[1..]);
      assert r == [r[0]] + r[1..];
    }
  }

  /** The title bytes of the header (Unicode decoding is left to the caller):
      the bytes of the image from 0x134 on, at most 16 of them, none zero,
      ending at the 16th byte, at the end of the image or before a zero byte. */
  function TitleBytes(rom: seq<byte>): (r: seq<byte>)
    ensures |r| <= TITLE.last - TITLE.first + 1
    ensures forall i :: 0 <= i < |r| ==> TITLE.first + i < |rom| && rom[TITLE.first + i] == r[i] && r[i] != 0
    ensures |r| == TITLE.last - TITLE.first + 1 || TITLE.first + |r| >= |rom| || rom[TITLE.first + |r|] == 0
  {
    TitleOf(GetSection(rom, TITLE))
  }

  /** The loop of `title`, returning at the first zero byte. */
  method Title(rom: seq<byte>) returns (title: seq<byte>)
    ensures title == TitleBytes(rom)
  {
    var section := GetSection(rom, TITLE);
    var i := 0;
    while i < |section|
      invariant 0 <= i <= |section|
      invariant 0 !in section[..i]
    {
      if section[i] == 0 {
        TitleOfUnique(section, section[..i]);
        return section[..i];
      }
      assert section[..i + 1] == section[..i] + [section[i]];
      i := i + 1;
    }
    assert section[..i] == section;
    TitleOfUnique(section, section);
    return section;
  }

  // ------------------------------------------------------------------- flags

  /** `version`: the mask ROM version number at 0x14C. */
  function Version(rom: seq<byte>): (r: Option<byte>)
    ensures r.Some? <==> |rom| > MVNUM.first
    ensures r.Some? ==> r.value == rom[MVNUM.first]
  {
    FirstByte(rom, MVNUM)
  }

  /** `isSGB`: the SGB flag at 0x146 is exactly 0x03. */
  function IsSGB(rom: seq<byte>): (r: Option<bool>)
    ensures r.Some? <==> |rom| > SGBFL.first
    ensures r == Some(true) <==> |rom| > SGBFL.first && rom[SGBFL.first] == 0x03
  {
    match FirstByte(rom, SGBFL)
    case None => None
    case Some(b) => Some(b == 0x03)
  }

  /** `isCGB`: the CGB flag at 0x143 is exactly 0x80 (not tested as a bit mask). */
  function IsCGB(rom: seq<byte>): (r: Option<bool>)
    ensures r.Some? <==> |rom| > GBCFL.first
    ensures r == Some(true) <==> |rom| > GBCFL.first && rom[GBCFL.first] == 0x80
  {
    match FirstByte(rom, GBCFL)
    case None => None
    case Some(b) => Some(b == 0x80)
  }

  /** `isJP`: the destination code at 0x14A is 0x00 (Japan). */
  function IsJP(rom: seq<byte>): (r: Option<bool>)
    ensures r.Some? <==> |rom| > DESTC.first
    ensures r == Some(true) <==> |rom| > DESTC.first && rom[DESTC.first] == 0x00
  {
    match FirstByte(rom, DESTC)
    case None => None
    case Some(b) => Some(b == 0x00)
  }
}
