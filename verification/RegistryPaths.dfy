/** The file names of the registry: every container has its own, and nothing else has it. */
module RegistryPaths {
  const TWO_32: nat := 0x1_0000_0000
  const DATA := "/data/app/mcRegistry"
  const ROOT_FILE_NAME := "00000000.rootcont"
  const SP_CONT_FILE_EXT := ".spcont"
  const TL_CONT_FILE_EXT := ".tlcont"
  const TL_BIN_FILE_EXT := ".tlbin"
  const GP_TA_BIN_FILE_EXT := ".tabin"
  const GP_TA_SPID_FILE_EXT := ".spid"

  type Byte = n: nat | n < 256
  type Spid = n: nat | n < TWO_32
  type Uuid = s: seq<Byte> | |s| == 16 witness seq(16, _ => 0)

  /** The containers the registry keeps. */
  datatype Key = Root | Sp(spid: Spid) | Tl(uuid: Uuid, spid: Spid)

  function Digit(n: nat, upper: bool): char
    requires n < 16
  {
    if n < 10 then ('0' as int + n) as char
    else if upper then ('A' as int + n - 10) as char
    else ('a' as int + n - 10) as char
  }

  /** uint32ToString: the hexadecimal digits, reversed. */
  function Reversed(value: nat, digits: nat): (s: string)
    ensures |s| == digits
  {
    if digits == 0 then "" else [Digit(value % 16, true)] + Reversed(value / 16, digits - 1)
  }

  /** byteArrayToString. */
  function Hex(bytes: seq<Byte>): (s: string)
    ensures |s| == 2 * |bytes|
  {
    if bytes == [] then ""
    else [Digit(bytes[0] / 16, false), Digit(bytes[0] % 16, false)] + Hex(bytes[1..])
  }

  function Name(k: Key): string {
    match k
    case Root => ROOT_FILE_NAME
    case Sp(spid) => Reversed(spid, 8) + SP_CONT_FILE_EXT
    case Tl(uuid, spid) => Hex(uuid) + "." + Reversed(spid, 8) + TL_CONT_FILE_EXT
  }

  function Path(k: Key): string { DATA + "/" + Name(k) }

  function TlDataPath(uuid: Uuid): string { DATA + "/" + Hex(uuid) }

  function SpDataPath(spid: Spid): string { DATA + "/" + Reversed(spid, 8) }

  function TbStoragePath(name: string): string { DATA + "/" + ("TbStorage" + "/" + name) }

  // ---------------------------------------------------------------- different keys, different paths

  lemma {:induction false} ReversedInjective(a: nat, b: nat, digits: nat)
    requires Reversed(a, digits) == Reversed(b, digits) && a < Size(digits) && b < Size(digits)
    ensures a == b
  {
    if digits > 0 {
      assert Reversed(a, digits)[0] == Reversed(b, digits)[0];
      assert Reversed(a, digits)[1..] == Reversed(a / 16, digits - 1);
      assert Reversed(b, digits)[1..] == Reversed(b / 16, digits - 1);
      ReversedInjective(a / 16, b / 16, digits - 1);
    }
  }

  /** How many numbers have that many digits. */
  function Size(digits: nat): nat { if digits == 0 then 1 else 16 * Size(digits - 1) }

  lemma EightDigits()
    ensures Size(8) == TWO_32
  {
    assert Size(8) == 16 * Size(7) == 256 * Size(6);
    assert Size(6) == 16 * Size(5) == 256 * Size(4);
    assert Size(4) == 16 * Size(3) == 256 * Size(2) == 65536;
  }

  lemma {:induction false} HexInjective(a: seq<Byte>, b: seq<Byte>)
    requires Hex(a) == Hex(b)
    ensures a == b
  {
    if a != [] && b != [] {
      assert Hex(a)[0] == Hex(b)[0] && Hex(a)[1] == Hex(b)[1];
      assert Hex(a)[2..] == Hex(a[1..]) && Hex(b)[2..] == Hex(b[1..]);
      HexInjective(a[1..], b[1..]);
      assert a[0] == b[0];
    }
  }

  lemma NameLengths(k: Key)
    ensures |Name(k)| == match k case Root => 17 case Sp(_) => 15 case Tl(_, _) => 48
  {}

  /** Root, SP and trustlet containers never share a name, nor do two of the same kind. */
  lemma PathInjective(k: Key, l: Key)
    requires Path(k) == Path(l)
    ensures k == l
  {
    assert Name(k) == Path(k)[|DATA| + 1..] == Path(l)[|DATA| + 1..] == Name(l);
    NameLengths(k);
    NameLengths(l);
    EightDigits();
    match k
    case Root =>
    case Sp(spid) =>
      assert Name(k)[..8] == Reversed(spid, 8) && Name(l)[..8] == Reversed(l.spid, 8);
      ReversedInjective(spid, l.spid, 8);
    case Tl(uuid, spid) =>
      assert Name(k)[..32] == Hex(uuid) && Name(l)[..32] == Hex(l.uuid);
      assert Name(k)[33..41] == Reversed(spid, 8) && Name(l)[33..41] == Reversed(l.spid, 8);
      HexInjective(uuid, l.uuid);
      ReversedInjective(spid, l.spid, 8);
  }

  // ---------------------------------------------------------------- nothing else is a container

  lemma {:induction false} ReversedHasNoSlash(value: nat, digits: nat)
    ensures '/' !in Reversed(value, digits)
  {
    if digits > 0 { ReversedHasNoSlash(value / 16, digits - 1); }
  }

  lemma {:induction false} HexHasNoSlash(bytes: seq<Byte>)
    ensures '/' !in Hex(bytes)
  {
    if bytes != [] { HexHasNoSlash(bytes[1..]); }
  }

  lemma NameHasNoSlash(k: Key)
    ensures '/' !in Name(k)
  {
    match k
    case Root =>
    case Sp(spid) => ReversedHasNoSlash(spid, 8);
    case Tl(uuid, spid) =>
      ReversedHasNoSlash(spid, 8);
      HexHasNoSlash(uuid);
  }

  /** A file in a directory below the registry is not a container. */
  lemma BelowIsNotContainer(dir: string, name: string, k: Key)
    ensures DATA + "/" + dir + "/" + name != Path(k)
  {
    NameHasNoSlash(k);
    var p := DATA + "/" + dir + "/" + name;
    assert p[|DATA| + 1..] == dir + "/" + name;
    assert (dir + "/" + name)[|dir|] == '/';
    assert Path(k)[|DATA| + 1..] == Name(k);
  }

  /** Nor is a trustlet binary, a TA binary or the file with its service provider. */
  lemma BinaryIsNotContainer(base: string, ext: string, k: Key)
    requires ext == TL_BIN_FILE_EXT || ext == GP_TA_BIN_FILE_EXT || ext == GP_TA_SPID_FILE_EXT
    ensures base + ext != Path(k)
  {
    assert (base + ext)[|base + ext| - 1] == ext[|ext| - 1];
    assert Name(k)[|Name(k)| - 1] == 't';
    assert Path(k)[|Path(k)| - 1] == 't';
  }

  // ---------------------------------------------------------------- the names themselves

  /** Two lower-case digits for each byte, the high one first. */
  lemma {:induction false} HexDigits(bytes: seq<Byte>, i: nat)
    requires i < |bytes|
    ensures Hex(bytes)[2 * i] == "0123456789abcdef"[bytes[i] / 16]
    ensures Hex(bytes)[2 * i + 1] == "0123456789abcdef"[bytes[i] % 16]
  {
    if i > 0 {
      HexDigits(bytes[1..], i - 1);
      assert Hex(bytes)[2..] == Hex(bytes[1..]);
    }
  }

  /** Upper-case digits, the lowest first. */
  lemma {:induction false} ReversedDigits(value: nat, digits: nat, i: nat)
    requires i < digits
    ensures Reversed(value, digits)[i] == "0123456789ABCDEF"[DigitAt(value, i)]
  {
    if i > 0 { ReversedDigits(value / 16, digits - 1, i - 1); }
  }

  function DigitAt(value: nat, i: nat): (d: nat)
    ensures d < 16
  {
    if i == 0 then value % 16 else DigitAt(value / 16, i - 1)
  }

  /** A service provider's file: its id in eight upper-case digits, the lowest first. */
  lemma SpName(spid: Spid, i: nat)
    requires i < 8
    ensures |Name(Sp(spid))| == 15 && Name(Sp(spid))[8..] == ".spcont"
    ensures Name(Sp(spid))[i] == "0123456789ABCDEF"[DigitAt(spid, i)]
  {
    ReversedDigits(spid, 8, i);
  }

  /** A trustlet's: its UUID in 32 lower-case digits, a dot, and its service provider's id. */
  lemma TlName(uuid: Uuid, spid: Spid)
    ensures var name := Name(Tl(uuid, spid));
      |name| == 48 && name[..32] == Hex(uuid) && name[32] == '.' && name[33..41] == Reversed(spid, 8)
      && name[41..] == ".tlcont"
  {}
}
