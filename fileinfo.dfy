/** `conda_verify/fileinfo.py`: the object-type sniffer over a string of
    characters (the Python 2 reading of file contents, where each character
    is one byte). Its `MAGIC` and `DLL_Type` tables hold the same entries
    as `MAGIC_HEADERS` and `DLL_TYPES`, so the model looks them up there. */
module FileInfo {
  import opened Base
  import opened Text
  import opened Constants
  import Utilities

  /** `ord(c)` of a character that denotes a byte. */
  predicate IsByteChar(c: char) { (c as int) < 256 }

  /** The bytes a string of byte characters denotes. */
  function ToBytes(s: string): (b: seq<byte>)
    requires forall i | 0 <= i < |s| :: IsByteChar(s[i])
    ensures |b| == |s| && forall i | 0 <= i < |s| :: b[i] as int == s[i] as int
  {
    if |s| == 0 then []
    else
      assert IsByteChar(s[0]);
      [s[0] as int as byte] + ToBytes(s[1..])
  }

  /** `MAGIC.get(data[:4])`: every magic number is four long, so a
      shorter file never matches, and neither does a head holding a
      character outside the byte range. */
  function MagicOf(data: string): (r: Option<string>)
    ensures r.Some? ==> |data| >= 4
  {
    if |data| < 4 then None
    else if exists i | 0 <= i < 4 :: !IsByteChar(data[i]) then None
    else MagicLookup(ToBytes(data[..4]))
  }

  const PeString: string := "PE\0\0"

  /** `get_object_type(data)`. `DLL_Type.get` of an unregistered machine
      code gives `None` and `"DLL " + None` raises `TypeError`; so does an
      ELF class byte other than 1 or 2. A header cut short raises
      `IndexError`. */
  function GetObjectType(data: string): (r: Res<Option<string>>)
    ensures MagicOf(data).None? ==> r == Ok(None)
    ensures MagicOf(data) == Some("DLL") && Find(data, PeString) < 0 ==>
      r == Ok(Some(Utilities.NoPeHeader))
    ensures MagicOf(data) == Some("ELF") && |data| > 4 && data[4] == '\U{01}' ==> r == Ok(Some("ELF32"))
    ensures MagicOf(data) == Some("ELF") && |data| > 4 && data[4] == '\U{02}' ==> r == Ok(Some("ELF64"))
    ensures MagicOf(data) == Some("ELF") && !(|data| > 4 && (data[4] == '\U{01}' || data[4] == '\U{02}')) ==> r.Err?
  {
    match MagicOf(data)
    case None => Ok(None)
    case Some(lookup) =>
      if lookup == "DLL" then
        var pos := Find(data, PeString);
        if pos < 0 then Ok(Some(Utilities.NoPeHeader))
        else if pos + 5 >= |data| then Err(IndexError)
        else
          match DllLookup(CharCode(data, pos))
          case Some(n) => Ok(Some("DLL " + n))
          case None => Err(TypeError)
      else if StartsWith(lookup, "MachO") then Ok(Some(lookup))
      else if lookup == "ELF" then
        if |data| <= 4 then Err(IndexError)
        else if data[4] == '\U{01}' then Ok(Some("ELF32"))
        else if data[4] == '\U{02}' then Ok(Some("ELF64"))
        else Err(TypeError)
      else Ok(None)
  }

  /** `ord(data[pos + 4]) + 256 * ord(data[pos + 5])`: the machine code,
      little-endian. */
  function CharCode(data: string, pos: int): int
    requires 0 <= pos && pos + 5 < |data|
  {
    data[pos + 4] as int + 256 * data[pos + 5] as int
  }

  /** Fewer than four characters never match a magic number. */
  lemma ShortDataHasNoType(data: string)
    requires |data| < 4
    ensures GetObjectType(data) == Ok(None)
  {
  }

  /** A PE file names its machine by the code after the first `PE\0\0`. */
  lemma PeObjectType(data: string, pos: int)
    requires MagicOf(data) == Some("DLL")
    requires 0 <= pos && pos + 5 < |data| && Find(data, PeString) == pos
    ensures GetObjectType(data) == match DllLookup(CharCode(data, pos))
                 case Some(n) => Ok(Some("DLL " + n))
                 case None => Err(TypeError)
  {
  }

  lemma MachineName(data: string, pos: int)
    requires 0 <= pos && pos + 5 < |data|
    ensures data[pos + 4] == '\U{4c}' && data[pos + 5] == '\U{01}' ==> DllLookup(CharCode(data, pos)) == Some("I386")
    ensures data[pos + 4] == '\U{64}' && data[pos + 5] == '\U{86}' ==> DllLookup(CharCode(data, pos)) == Some("AMD64")
  {
    DllTypesNames();
  }

  lemma PeNames(data: string, pos: int)
    requires MagicOf(data) == Some("DLL")
    requires 0 <= pos && pos + 5 < |data| && Find(data, PeString) == pos
    ensures data[pos + 4] == '\U{4c}' && data[pos + 5] == '\U{01}' ==> GetObjectType(data) == Ok(Some("DLL " + "I386"))
    ensures data[pos + 4] == '\U{64}' && data[pos + 5] == '\U{86}' ==> GetObjectType(data) == Ok(Some("DLL " + "AMD64"))
  {
    MachineName(data, pos);
    PeObjectType(data, pos);
  }

  /** Machine code 0x14c, stored low byte first, names an x86 DLL, and
      0x8664 an x86-64 one. */
  lemma PeMachines(data: string, pos: int)
    requires MagicOf(data) == Some("DLL")
    requires 0 <= pos && pos + 5 < |data| && Find(data, PeString) == pos
    ensures data[pos + 4] == '\U{4c}' && data[pos + 5] == '\U{01}' ==> GetObjectType(data) == Ok(Some("DLL I386"))
    ensures data[pos + 4] == '\U{64}' && data[pos + 5] == '\U{86}' ==> GetObjectType(data) == Ok(Some("DLL AMD64"))
  {
    PeNames(data, pos);
    Utilities.DllNames();
  }

  /** A Mach-O magic returns its table name. */
  lemma MachOName(data: string)
    requires MagicOf(data).Some? && StartsWith(MagicOf(data).value, "MachO")
    ensures GetObjectType(data) == Ok(MagicOf(data))
  {
    var m := MagicOf(data).value;
    assert m != "DLL" by {
      assert m[..5] == "MachO";
    }
    assert m != "ELF";
  }

  /** A head of four byte characters is looked up as the bytes it denotes. */
  lemma MagicOfBytes(data: string)
    requires |data| >= 4 && forall i | 0 <= i < 4 :: IsByteChar(data[i])
    ensures MagicOf(data) == MagicLookup(ToBytes(data[..4]))
  {
  }

  lemma DosChars(data: string)
    requires |data| >= 4 && data[0] == 'M' && data[1] == 'Z' && data[2] == '\U{90}' && data[3] == '\0'
    ensures ToBytes(data[..4]) == [0x4d, 0x5a, 0x90, 0x00]
  {
    var b := ToBytes(data[..4]);
    assert b[0] as int == 0x4d && b[1] as int == 0x5a && b[2] as int == 0x90 && b[3] as int == 0;
  }

  lemma ElfChars(data: string)
    requires |data| >= 4 && data[0] == '\U{7f}' && data[1] == 'E' && data[2] == 'L' && data[3] == 'F'
    ensures ToBytes(data[..4]) == [0x7f, 0x45, 0x4c, 0x46]
  {
    var b := ToBytes(data[..4]);
    assert b[0] as int == 0x7f && b[1] as int == 0x45 && b[2] as int == 0x4c && b[3] as int == 0x46;
  }

  /** The DOS magic number, written as characters. */
  lemma DosMagicChars(data: string)
    requires |data| >= 4 && data[0] == 'M' && data[1] == 'Z' && data[2] == '\U{90}' && data[3] == '\0'
    ensures MagicOf(data) == Some("DLL")
  {
    DosChars(data);
    MagicOfBytes(data);
    MagicDll();
  }

  /** The ELF magic number, written as characters. */
  lemma ElfMagicChars(data: string)
    requires |data| >= 4 && data[0] == '\U{7f}' && data[1] == 'E' && data[2] == 'L' && data[3] == 'F'
    ensures MagicOf(data) == Some("ELF")
  {
    ElfChars(data);
    MagicOfBytes(data);
    MagicElf();
  }

  /** An ELF image with class byte 1 is `ELF32`, with 2 `ELF64`. */
  lemma ElfClasses(data: string)
    requires |data| > 4 && data[0] == '\U{7f}' && data[1] == 'E' && data[2] == 'L' && data[3] == 'F'
    ensures data[4] == '\U{01}' ==> GetObjectType(data) == Ok(Some("ELF32"))
    ensures data[4] == '\U{02}' ==> GetObjectType(data) == Ok(Some("ELF64"))
  {
    ElfMagicChars(data);
  }
}
