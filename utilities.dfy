/** `conda_verify/utilities.py`: the bad-sequence finder, the ASCII
    filter, the object-type sniffer over bytes, `ensure_list`, and the
    selector pre-processing of `meta.yaml` (`ns_cfg`, `select_lines`,
    `iter_cfgs`). */
module Utilities {
  import opened Base
  import opened Text
  import opened Values
  import opened Constants

  // ---------------------------------------------------------------------
  // get_bad_seq
  // ---------------------------------------------------------------------

  /** The two-character sequences rejected in names and versions, in the
      order they are tried (`__` is allowed). */
  const BadSeqs: seq<string> := ["--", "-.", "-_", ".-", "..", "._", "_-", "_."]

  /** The first bad sequence that occurs in `s`, in the fixed order. */
  function GetBadSeq(s: string): (r: Option<string>)
    ensures r.None? <==> forall k | 0 <= k < |BadSeqs| :: !Contains(s, BadSeqs[k])
    ensures r.Some? ==> exists k | 0 <= k < |BadSeqs| ::
      BadSeqs[k] == r.value && Contains(s, r.value)
      && forall m | 0 <= m < k :: !Contains(s, BadSeqs[m])
  {
    FirstBadSeq(s, 0)
  }

  function FirstBadSeq(s: string, from: nat): (r: Option<string>)
    requires from <= |BadSeqs|
    ensures r.None? <==> forall k | from <= k < |BadSeqs| :: !Contains(s, BadSeqs[k])
    ensures r.Some? ==> exists k | from <= k < |BadSeqs| ::
      BadSeqs[k] == r.value && Contains(s, r.value)
      && forall m | from <= m < k :: !Contains(s, BadSeqs[m])
    decreases |BadSeqs| - from
  {
    if from == |BadSeqs| then None
    else if Contains(s, BadSeqs[from]) then Some(BadSeqs[from])
    else FirstBadSeq(s, from + 1)
  }

  /** One of `-`, `.`, `_`. */
  predicate IsSeparator(c: char) { c == '-' || c == '.' || c == '_' }

  /** Two adjacent separators, other than two underscores. */
  predicate BadPairAt(s: string, i: int) {
    0 <= i && i + 1 < |s| && IsSeparator(s[i]) && IsSeparator(s[i + 1])
    && !(s[i] == '_' && s[i + 1] == '_')
  }

  lemma ContainsPair(s: string, a: char, b: char)
    ensures Contains(s, [a, b]) <==> exists i | 0 <= i < |s| - 1 :: s[i] == a && s[i + 1] == b
  {
    if Contains(s, [a, b]) {
      var i :| 0 <= i <= |s| - 2 && OccursAt(s, [a, b], i);
      assert s[i..i + 2][0] == a && s[i..i + 2][1] == b;
    }
    if exists i | 0 <= i < |s| - 1 :: s[i] == a && s[i + 1] == b {
      var i :| 0 <= i < |s| - 1 && s[i] == a && s[i + 1] == b;
      assert s[i..i + 2] == [a, b];
      assert OccursAt(s, [a, b], i);
    }
  }

  /** Every entry of the table is a bad pair of separators. */
  lemma BadSeqsArePairs()
    ensures forall k | 0 <= k < |BadSeqs| ::
              |BadSeqs[k]| == 2 && IsSeparator(BadSeqs[k][0]) && IsSeparator(BadSeqs[k][1])
              && !(BadSeqs[k][0] == '_' && BadSeqs[k][1] == '_')
  {
  }

  /** The position in `BadSeqs` of a bad pair of separators. */
  function PairIndex(a: char, b: char): (k: int)
    requires IsSeparator(a) && IsSeparator(b) && !(a == '_' && b == '_')
    ensures 0 <= k < |BadSeqs| && BadSeqs[k] == [a, b]
  {
    if a == '-' then (if b == '-' then 0 else if b == '.' then 1 else 2)
    else if a == '.' then (if b == '-' then 3 else if b == '.' then 4 else 5)
    else (if b == '-' then 6 else 7)
  }

  /** Reference reading: `get_bad_seq` finds nothing exactly when no two
      adjacent characters are separators, except for `__`. */
  lemma GetBadSeqNoneIff(s: string)
    ensures GetBadSeq(s).None? <==> forall i | 0 <= i < |s| :: !BadPairAt(s, i)
  {
    if GetBadSeq(s).None? {
      forall i | 0 <= i < |s| ensures !BadPairAt(s, i) {
        if BadPairAt(s, i) {
          var k := PairIndex(s[i], s[i + 1]);
          ContainsPair(s, s[i], s[i + 1]);
        }
      }
    } else {
      BadSeqsArePairs();
      var k :| 0 <= k < |BadSeqs| && Contains(s, BadSeqs[k]);
      var a, b := BadSeqs[k][0], BadSeqs[k][1];
      assert BadSeqs[k] == [a, b];
      ContainsPair(s, a, b);
      var i :| 0 <= i < |s| - 1 && s[i] == a && s[i + 1] == b;
      assert BadPairAt(s, i);
    }
  }

  /** A string with no `-` and no `.` never holds a bad sequence. */
  lemma UnderscoresAreFine(s: string)
    requires forall i | 0 <= i < |s| :: s[i] != '-' && s[i] != '.'
    ensures GetBadSeq(s) == None
  {
    GetBadSeqNoneIff(s);
  }

  // ---------------------------------------------------------------------
  // all_ascii
  // ---------------------------------------------------------------------

  /** A byte `all_ascii` accepts: LF, CR when allowed, or printable ASCII. */
  predicate AsciiByte(n: byte, allowCR: bool) {
    n == 10 || (allowCR && n == 13) || (32 <= n < 127)
  }

  predicate IsAsciiText(data: seq<byte>, allowCR: bool) {
    forall i | 0 <= i < |data| :: AsciiByte(data[i], allowCR)
  }

  /** `all_ascii(data, allow_CR)` */
  method AllAscii(data: seq<byte>, allowCR: bool) returns (ok: bool)
    ensures ok <==> IsAsciiText(data, allowCR)
  {
    var newline: seq<byte> := [10];
    if allowCR {
      newline := newline + [13];
    }
    var i := 0;
    while i < |data|
      invariant 0 <= i <= |data|
      invariant newline == if allowCR then [10, 13] else [10]
      invariant forall k | 0 <= k < i :: AsciiByte(data[k], allowCR)
    {
      var n := data[i];
      if !(n in newline || (32 <= n < 127)) {
        return false;
      }
      i := i + 1;
    }
    return true;
  }

  /** `all_ascii(path.encode('utf-8'))`: a character outside ASCII encodes
      to bytes of 128 or more, so the test on the encoded bytes is this
      test on the characters. */
  predicate IsAsciiPath(s: string) {
    forall i | 0 <= i < |s| :: s[i] == '\n' || (' ' <= s[i] <= '~')
  }

  // ---------------------------------------------------------------------
  // get_object_type (bytes)
  // ---------------------------------------------------------------------

  const PeSignature: seq<byte> := [0x50, 0x45, 0, 0]
  const NoPeHeader := "<no PE header found>"

  /** The first four bytes (fewer when `data` is shorter). */
  function Head(data: seq<byte>): (h: seq<byte>)
    ensures |h| == if |data| < 4 then |data| else 4
  {
    if |data| < 4 then data else data[..4]
  }

  /** The little-endian 16-bit machine code that follows the signature. */
  function MachineCode(data: seq<byte>, pos: int): (code: int)
    requires 0 <= pos && pos + 5 < |data|
    ensures 0 <= code < 0x10000
  {
    data[pos + 4] as int + 256 * data[pos + 5] as int
  }

  /** `get_object_type(data)` on Python 3 `bytes`. An unregistered machine
      code makes `DLL_TYPES.get` return `None`, and the ELF branch looks an
      integer up in a table keyed by strings; both end in `TypeError`. A
      file cut short after the signature raises `IndexError`. */
  function GetObjectType(data: seq<byte>): (r: Res<Option<string>>)
    ensures MagicLookup(Head(data)).None? ==> r == Ok(None)
    ensures MagicLookup(Head(data)) == Some("DLL") && Find(data, PeSignature) < 0 ==>
      r == Ok(Some(NoPeHeader))
    ensures MagicLookup(Head(data)) == Some("ELF") ==> r.Err?
    ensures forall m | m in MagicNames() && StartsWith(m, "MachO") ::
      MagicLookup(Head(data)) == Some(m) ==> r == Ok(Some(m))
  {
    match MagicLookup(Head(data))
    case None => Ok(None)
    case Some(lookup) =>
      if lookup == "DLL" then
        var pos := Find(data, PeSignature);
        if pos < 0 then Ok(Some(NoPeHeader))
        else if pos + 5 >= |data| then Err(IndexError)
        else
          match DllLookup(MachineCode(data, pos))
          case Some(n) => Ok(Some("DLL " + n))
          case None => Err(TypeError)
      else if StartsWith(lookup, "MachO") then Ok(Some(lookup))
      else if lookup == "ELF" then
        if |data| <= 4 then Err(IndexError) else Err(TypeError)
      else Ok(None)
  }

  /** The names `MAGIC_HEADERS` maps to. */
  function MagicNames(): set<string> {
    set i | 0 <= i < |MagicHeaders| :: MagicHeaders[i].1
  }

  /** Fewer than four bytes never match a magic number. */
  lemma ShortDataHasNoType(data: seq<byte>)
    requires |data| < 4
    ensures GetObjectType(data) == Ok(None)
  {
    MagicHeadersShape();
  }

  /** A PE file names its machine by the code after the first `PE\0\0`;
      an unregistered code raises `TypeError`. */
  lemma PeObjectType(data: seq<byte>, pos: int)
    requires MagicLookup(Head(data)) == Some("DLL")
    requires 0 <= pos && pos + 5 < |data| && Find(data, PeSignature) == pos
    ensures GetObjectType(data) == match DllLookup(MachineCode(data, pos))
                 case Some(n) => Ok(Some("DLL " + n))
                 case None => Err(TypeError)
  {
  }

  /** A signature too close to the end of the file raises `IndexError`. */
  lemma PeTruncated(data: seq<byte>)
    requires MagicLookup(Head(data)) == Some("DLL")
    requires Find(data, PeSignature) >= 0 && Find(data, PeSignature) + 5 >= |data|
    ensures GetObjectType(data) == Err(IndexError)
  {
  }

  lemma DosMagic(data: seq<byte>)
    requires |data| >= 4 && data[..4] == [0x4d, 0x5a, 0x90, 0x00]
    ensures MagicLookup(Head(data)) == Some("DLL")
  {
    MagicDll();
    assert Head(data) == [0x4d, 0x5a, 0x90, 0x00];
  }

  lemma ElfMagic(data: seq<byte>)
    requires |data| >= 4 && data[..4] == [0x7f, 0x45, 0x4c, 0x46]
    ensures MagicLookup(Head(data)) == Some("ELF")
  {
    MagicElf();
    assert Head(data) == [0x7f, 0x45, 0x4c, 0x46];
  }

  lemma MachineName(data: seq<byte>, pos: int)
    requires 0 <= pos && pos + 5 < |data|
    ensures data[pos + 4] == 0x4c && data[pos + 5] == 0x01 ==> DllLookup(MachineCode(data, pos)) == Some("I386")
    ensures data[pos + 4] == 0x64 && data[pos + 5] == 0x86 ==> DllLookup(MachineCode(data, pos)) == Some("AMD64")
  {
    DllTypesNames();
  }

  lemma DosPe(data: seq<byte>, pos: int)
    requires |data| >= 4 && data[..4] == [0x4d, 0x5a, 0x90, 0x00]
    requires 0 <= pos && pos + 5 < |data| && Find(data, PeSignature) == pos
    ensures data[pos + 4] == 0x4c && data[pos + 5] == 0x01 ==> GetObjectType(data) == Ok(Some("DLL " + "I386"))
    ensures data[pos + 4] == 0x64 && data[pos + 5] == 0x86 ==> GetObjectType(data) == Ok(Some("DLL " + "AMD64"))
  {
    DosMagic(data);
    MachineName(data, pos);
    PeObjectType(data, pos);
  }

  lemma DllNames()
    ensures "DLL " + "I386" == "DLL I386" && "DLL " + "AMD64" == "DLL AMD64"
  {
  }

  /** The DOS magic followed, at the first `PE\0\0`, by the machine code
      0x14c in little-endian order names an x86 DLL. */
  lemma PeI386(data: seq<byte>, pos: int)
    requires |data| >= 4 && data[..4] == [0x4d, 0x5a, 0x90, 0x00]
    requires 0 <= pos && pos + 5 < |data| && Find(data, PeSignature) == pos
    requires data[pos + 4] == 0x4c && data[pos + 5] == 0x01
    ensures GetObjectType(data) == Ok(Some("DLL I386"))
  {
    DosPe(data, pos);
    DllNames();
  }

  /** The same with machine code 0x8664. */
  lemma PeAmd64(data: seq<byte>, pos: int)
    requires |data| >= 4 && data[..4] == [0x4d, 0x5a, 0x90, 0x00]
    requires 0 <= pos && pos + 5 < |data| && Find(data, PeSignature) == pos
    requires data[pos + 4] == 0x64 && data[pos + 5] == 0x86
    ensures GetObjectType(data) == Ok(Some("DLL AMD64"))
  {
    DosPe(data, pos);
    DllNames();
  }

  // ---------------------------------------------------------------------
  // ensure_list
  // ---------------------------------------------------------------------

  /** `ensure_list(v)`: a list is returned as it is, anything else (None
      included) becomes a one-element list. */
  function EnsureList(v: Value): (r: seq<Value>)
    ensures v.List? ==> r == v.items
    ensures !v.List? ==> r == [v]
  {
    if v.List? then v.items else [v]
  }

  // ---------------------------------------------------------------------
  // Selectors: ns_cfg, select_lines, iter_cfgs
  // ---------------------------------------------------------------------

  /** One build configuration: `dict(plat=..., PY=..., NPY=...)`. */
  datatype Cfg = Cfg(plat: string, py: Value, np: Value)

  /** `bool(lo <= py < hi)` for a Python number. */
  function InRange(py: Value, lo: int, hi: int): bool
    requires IsInt(py)
  {
    lo <= IntOf(py) < hi
  }

  function IsPy(py: Value, n: int): bool
    requires IsInt(py)
  {
    IntOf(py) == n
  }

  /** The namespace selectors are evaluated in, shared by both `ns_cfg`
      variants, as the lookup of a name in it; `withPy36` adds the `py36`
      flag this one defines. */
  function Namespace(plat: string, py: Value, np: Value, withPy36: bool, name: string): Option<Value>
    requires IsInt(py)
  {
    match name
    case "nomkl" => Some(Bool(false))
    case "debug" => Some(Bool(false))
    case "linux" => Some(Bool(StartsWith(plat, "linux-")))
    case "linux32" => Some(Bool(plat == "linux-32"))
    case "linux64" => Some(Bool(plat == "linux-64"))
    case "armv7l" => Some(Bool(false))
    case "arm" => Some(Bool(false))
    case "ppc64le" => Some(Bool(false))
    case "osx" => Some(Bool(StartsWith(plat, "osx-")))
    case "unix" => Some(Bool(StartsWith(plat, "linux-") || StartsWith(plat, "osx-")))
    case "win" => Some(Bool(StartsWith(plat, "win-")))
    case "win32" => Some(Bool(plat == "win-32"))
    case "win64" => Some(Bool(plat == "win-64"))
    case "x86" => Some(Bool(EndsWith(plat, "-32") || EndsWith(plat, "-64")))
    case "x86_64" => Some(Bool(EndsWith(plat, "-64")))
    case "py" => Some(py)
    case "py3k" => Some(Bool(InRange(py, 30, 40)))
    case "py2k" => Some(Bool(InRange(py, 20, 30)))
    case "py26" => Some(Bool(IsPy(py, 26)))
    case "py27" => Some(Bool(IsPy(py, 27)))
    case "py33" => Some(Bool(IsPy(py, 33)))
    case "py34" => Some(Bool(IsPy(py, 34)))
    case "py35" => Some(Bool(IsPy(py, 35)))
    case "py36" => if withPy36 then Some(Bool(IsPy(py, 36))) else None
    case "np" => Some(np)
    case _ => None
  }

  /** `ns_cfg(cfg)` of this file: no type assertion, so a `PY` that is not
      a number fails the first comparison with `TypeError`; otherwise the
      namespace, as the lookup it provides. */
  function NsCfg(cfg: Cfg): (r: Res<string -> Option<Value>>)
    ensures r.Err? <==> !IsInt(cfg.py)
    ensures r.Ok? ==> forall name :: r.value(name) == Namespace(cfg.plat, cfg.py, cfg.np, true, name)
  {
    if !IsInt(cfg.py) then Err(TypeError)
    else Ok(name => Namespace(cfg.plat, cfg.py, cfg.np, true, name))
  }

  /** What the platform and Python flags of a namespace mean. */
  lemma NamespaceFlags(plat: string, py: Value, np: Value, withPy36: bool)
    requires IsInt(py)
    ensures Namespace(plat, py, np, withPy36, "linux") == Some(Bool(StartsWith(plat, "linux-")))
    ensures Namespace(plat, py, np, withPy36, "win32") == Some(Bool(plat == "win-32"))
    ensures Namespace(plat, py, np, withPy36, "x86_64") == Some(Bool(EndsWith(plat, "-64")))
    ensures Namespace(plat, py, np, withPy36, "py3k") == Some(Bool(30 <= IntOf(py) < 40))
    ensures Namespace(plat, py, np, withPy36, "py") == Some(py)
    ensures Namespace(plat, py, np, withPy36, "np") == Some(np)
    ensures Namespace(plat, py, np, withPy36, "py36").Some? <==> withPy36
  {
  }

  /** The Python versions and platforms `iter_cfgs` walks, in order. */
  const CfgPys: seq<int> := [27, 34, 35]
  const CfgPlats: seq<string> := ["linux-64", "linux-32", "osx-64", "win-32", "win-64"]

  /** `iter_cfgs()`: for each Python version, each platform, NumPy 1.11. */
  function IterCfgs(): seq<Cfg> {
    CfgsFor(CfgPys)
  }

  function CfgsFor(pys: seq<int>): (r: seq<Cfg>)
    ensures |r| == 5 * |pys|
  {
    if |pys| == 0 then [] else PlatCfgs(pys[0], CfgPlats) + CfgsFor(pys[1..])
  }

  function PlatCfgs(py: int, plats: seq<string>): (r: seq<Cfg>)
    ensures |r| == |plats|
    ensures forall i | 0 <= i < |plats| :: r[i] == Cfg(plats[i], Int(py), Int(111))
  {
    if |plats| == 0 then [] else [Cfg(plats[0], Int(py), Int(111))] + PlatCfgs(py, plats[1..])
  }

  lemma {:induction false} CfgsForIndex(pys: seq<int>)
    ensures forall i | 0 <= i < 5 * |pys| ::
      CfgsFor(pys)[i] == Cfg(CfgPlats[i % 5], Int(pys[i / 5]), Int(111))
  {
    if |pys| > 0 {
      CfgsForIndex(pys[1..]);
      var r := CfgsFor(pys);
      forall i | 0 <= i < 5 * |pys|
        ensures r[i] == Cfg(CfgPlats[i % 5], Int(pys[i / 5]), Int(111))
      {
        if i >= 5 {
          assert r[i] == CfgsFor(pys[1..])[i - 5];
          assert (i - 5) % 5 == i % 5 && (i - 5) / 5 == i / 5 - 1;
        }
      }
    }
  }

  /** Fifteen configurations: the i-th pairs platform `i % 5` with Python
      version `i / 5`, always with `NPY=111`. */
  lemma IterCfgsShape()
    ensures |IterCfgs()| == 15
    ensures forall i | 0 <= i < 15 ::
      IterCfgs()[i] == Cfg(CfgPlats[i % 5], Int(CfgPys[i / 5]), Int(111))
  {
    CfgsForIndex(CfgPys);
  }

  /** The match of `sel_pat = (.+?)\s*\[(.+)\]$` on a line: the text before
      the selector and the condition inside the brackets. */
  datatype Selector = Selector(head: string, cond: string)

  /** The regex's reading: `s[..k]` is the lazily matched first group, then
      white space up to `s[j] == '['`, then a non-empty condition up to the
      final `]`. (Lines never hold a newline, which `.` would refuse.) */
  predicate SelSplit(s: string, k: int, j: int) {
    1 <= k <= j <= |s| - 3 && AllSpace(s[k..j]) && s[j] == '[' && s[|s| - 1] == ']'
  }

  /** Length of the leading white-space run. */
  function SpaceRun(s: string): (n: nat)
    ensures n <= |s| && AllSpace(s[..n])
    ensures n < |s| ==> !IsSpace(s[n])
  {
    if |s| == 0 || !IsSpace(s[0]) then 0
    else
      var m := SpaceRun(s[1..]);
      assert s[..m + 1] == [s[0]] + s[1..][..m];
      m + 1
  }

  /** The lazy first group can end at `k`: the white-space run after it
      reaches a `[`, leaving room for a non-empty condition and the final
      `]`. */
  predicate SplitHere(s: string, k: int) {
    1 <= k <= |s| - 3
    && var j := k + SpaceRun(s[k..]);
       j <= |s| - 3 && s[j] == '[' && s[|s| - 1] == ']'
  }

  /** The shortest first group of at least `k` characters, or -1: the
      regex engine tries the lazy group at lengths 1, 2, ... */
  function FirstSplit(s: string, k: nat): (r: int)
    ensures r == -1 ==> forall k' | k <= k' :: !SplitHere(s, k')
    ensures r != -1 ==> k <= r && SplitHere(s, r) && forall k' | k <= k' < r :: !SplitHere(s, k')
    decreases |s| - k
  {
    if k > |s| - 3 then -1
    else if SplitHere(s, k) then k
    else FirstSplit(s, k + 1)
  }

  /** `sel_pat.match(s)` */
  function SelMatch(s: string): Option<Selector> {
    var k := FirstSplit(s, 1);
    if k < 0 then None
    else Some(Selector(s[..k], s[k + SpaceRun(s[k..]) + 1..|s| - 1]))
  }

  /** The white space between the first group and `[` is the whole run, so
      `SplitHere` is the regex's split with the one possible `j`. */
  lemma SelSplitIsRun(s: string, k: int, j: int)
    requires 1 <= k <= |s|
    ensures SelSplit(s, k, j) <==> SplitHere(s, k) && j == k + SpaceRun(s[k..])
  {
    var n := SpaceRun(s[k..]);
    if SelSplit(s, k, j) {
      assert j - k == n;
    }
    if SplitHere(s, k) && j == k + n {
      assert s[k..j] == s[k..][..n];
    }
  }

  /** `sel_pat.match` finds a selector exactly when the line splits as the
      regex reads it, and then takes the shortest first group. */
  lemma SelMatchSpec(s: string)
    ensures SelMatch(s).None? <==> forall k, j :: !SelSplit(s, k, j)
    ensures SelMatch(s).Some? ==>
      var sel := SelMatch(s).value;
      var k := |sel.head|;
      (exists j :: SelSplit(s, k, j) && sel.cond == s[j + 1..|s| - 1])
      && sel.head == s[..k]
      && forall k', j' | k' < k :: !SelSplit(s, k', j')
  {
    var k := FirstSplit(s, 1);
    forall k', j' | SelSplit(s, k', j') ensures k' >= 1 && SplitHere(s, k') {
      SelSplitIsRun(s, k', j');
    }
    if k >= 0 {
      var j := k + SpaceRun(s[k..]);
      SelSplitIsRun(s, k, j);
      assert SelSplit(s, k, j);
    }
  }

  /** What `select_lines` keeps of one line: a line without a selector,
      right-stripped; a selector line only when its condition holds, and
      then only the text before the selector. */
  function KeptLine(line: string, holds: string -> bool): seq<string> {
    var l := RStrip(line);
    match SelMatch(l)
    case None => [l]
    case Some(sel) => if holds(sel.cond) then [sel.head] else []
  }

  function KeptLines(lines: seq<string>, holds: string -> bool): seq<string> {
    if |lines| == 0 then [] else KeptLine(lines[0], holds) + KeptLines(lines[1..], holds)
  }

  lemma {:induction false} KeptLinesAppend(a: seq<string>, b: seq<string>, holds: string -> bool)
    ensures KeptLines(a + b, holds) == KeptLines(a, holds) + KeptLines(b, holds)
    decreases |a|
  {
    if |a| == 0 {
      assert a + b == b;
    } else {
      assert (a + b)[1..] == a[1..] + b;
      KeptLinesAppend(a[1..], b, holds);
    }
  }

  lemma KeptLinesStep(all: seq<string>, i: int, holds: string -> bool)
    requires 0 <= i < |all|
    ensures KeptLines(all[..i + 1], holds) == KeptLines(all[..i], holds) + KeptLine(all[i], holds)
  {
    assert all[..i + 1] == all[..i] + [all[i]];
    KeptLinesAppend(all[..i], [all[i]], holds);
  }

  /** `select_lines(data, namespace)`, where `holds(c)` stands for
      `eval(c, namespace, {})`. */
  method SelectLines(data: string, holds: string -> bool) returns (out: string)
    ensures out == Join("\n", KeptLines(SplitLines(data), holds)) + "\n"
  {
    var all := SplitLines(data);
    var lines: seq<string> := [];
    var i := 0;
    while i < |all|
      invariant 0 <= i <= |all|
      invariant lines == KeptLines(all[..i], holds)
    {
      var line := RStrip(all[i]);
      var m := SelMatch(line);
      KeptLinesStep(all, i, holds);
      if m.Some? {
        if holds(m.value.cond) {
          lines := lines + [m.value.head];
        }
      } else {
        lines := lines + [line];
      }
      i := i + 1;
    }
    assert all[..|all|] == all;
    out := Join("\n", lines) + "\n";
  }

  /** A line kept whole is right-stripped and holds no selector; a selector
      line contributes its head exactly when its condition holds. */
  lemma KeptLineSpec(line: string, holds: string -> bool)
    ensures SelMatch(RStrip(line)).None? ==> KeptLine(line, holds) == [RStrip(line)]
    ensures SelMatch(RStrip(line)).Some? ==>
      var sel := SelMatch(RStrip(line)).value;
      (KeptLine(line, holds) == [sel.head] <==> holds(sel.cond))
      && (KeptLine(line, holds) == [] <==> !holds(sel.cond))
  {
  }
}
