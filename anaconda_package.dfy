/** `anaconda_verify/package.py`: the oldest package checker. Its rules
    raise `PackageError` like those of `conda_verify/conda_package_check.py`
    and most of them have the same bodies; those are taken from
    `PackageRules`, applied to `View(pk)`. The rules that differ are
    defined here, each with a lemma relating it to its later version.
    `anaconda_verify/utils.py`, which provides `get_object_type`, is not
    part of this model: the object-type sniffer is a parameter. */
module AnacondaPackage {
  import opened Base
  import opened Text
  import opened Values
  import opened Archive
  import Utilities
  import PackageRules

  // ---------------------------------------------------------------------
  // dist_fn and construction
  // ---------------------------------------------------------------------

  /** `dist_fn(fn)`: `.tar.bz2` and `.tar` are stripped; any other name is
      fatal. There is no bad-sequence test. */
  function DistFn(fn: string): (r: Res<string>)
    ensures !EndsWith(fn, ".tar.bz2") && !EndsWith(fn, ".tar") ==>
      r == Err(PackageError("did not expect filename: " + fn))
    ensures r.Ok? ==> fn == r.value + ".tar.bz2" || fn == r.value + ".tar"
    ensures r.Err? ==> !EndsWith(fn, ".tar.bz2") && !EndsWith(fn, ".tar")
  {
    if EndsWith(fn, ".tar.bz2") then
      assert fn == fn[..|fn| - 8] + ".tar.bz2";
      Ok(fn[..|fn| - 8])
    else if EndsWith(fn, ".tar") then
      assert fn == fn[..|fn| - 4] + ".tar";
      Ok(fn[..|fn| - 4])
    else Err(PackageError("did not expect filename: " + fn))
  }

  /** Both archive suffixes come off again, whatever the name holds. */
  lemma DistFnRoundTrip(dist: string)
    ensures DistFn(dist + ".tar.bz2") == Ok(dist)
    ensures DistFn(dist + ".tar") == Ok(dist)
  {
    var a := dist + ".tar.bz2";
    assert a[|a| - 8..] == ".tar.bz2" && a[..|a| - 8] == dist;
    var b := dist + ".tar";
    assert b[|b| - 4..] == ".tar" && b[..|b| - 4] == dist;
    assert !EndsWith(b, ".tar.bz2") by {
      if |b| >= 8 {
        assert b[|b| - 1] == 'r' && b[|b| - 8..][7] == b[|b| - 1];
      }
    }
  }

  /** The later `dist_fn` only adds the bad-sequence test: where it finds
      none, or where the later one succeeds, the two agree; a name with
      `--` is taken here and refused there. */
  lemma DistFnLooser(fn: string, dist: string)
    ensures Utilities.GetBadSeq(fn).None? ==> DistFn(fn) == PackageRules.DistFn(fn)
    ensures PackageRules.DistFn(fn).Ok? ==> DistFn(fn) == PackageRules.DistFn(fn)
    ensures Contains(dist, "--") ==> DistFn(dist + ".tar") == Ok(dist) && PackageRules.DistFn(dist + ".tar").Err?
  {
    DistFnRoundTrip(dist);
    if Contains(dist, "--") {
      var s := dist + ".tar";
      var i :| 0 <= i <= |dist| - 2 && OccursAt(dist, "--", i);
      assert s[i..i + 2] == dist[i..i + 2];
      assert OccursAt(s, Utilities.BadSeqs[0], i);
    }
  }

  /** The fields `__init__` fills in. `info` is whatever `json.loads`
      gave: the rules that index it raise when it is not an object. */
  datatype Package = Package(
    dist: string, name: string, version: string, build: string,
    members: seq<Member>, info: Value, verbose: bool)

  /** `CondaPackageCheck(path, verbose)` over the archive's members; `json`
      stands for `json.loads(raw.decode('utf-8'))`. Fatal at construction:
      a file name without an archive suffix, a name that does not split
      into three parts at its last two `-`, duplicate member paths, and a
      missing or unparsable `info/index.json`. */
  function Open(path: string, members: seq<Member>, json: seq<byte> -> Res<Value>, verbose: bool): (r: Res<Package>)
    ensures DistFn(Basename(path)).Err? ==> r == Err(DistFn(Basename(path)).exc)
    ensures (DistFn(Basename(path)).Ok? && RSplit3(DistFn(Basename(path)).value, '-').None3?) ==> r == Err(ValueError)
    ensures (DistFn(Basename(path)).Ok? && RSplit3(DistFn(Basename(path)).value, '-').Some3?
             && |Paths(members)| != |members|) ==> r == Err(PackageError("duplicate members"))
    ensures r.Ok? ==>
      var pk := r.value;
      DistFn(Basename(path)) == Ok(pk.dist) && pk.members == members && pk.verbose == verbose
      && pk.dist == pk.name + "-" + pk.version + "-" + pk.build
      && '-' !in pk.version && '-' !in pk.build
      && (forall i, j | 0 <= i < j < |members| :: members[i].path != members[j].path)
      && Extract(members, "info/index.json").Ok?
      && json(Extract(members, "info/index.json").value) == Ok(pk.info)
  {
    var dist :- DistFn(Basename(path));
    match RSplit3(dist, '-')
    case None3 => Err(ValueError)
    case Some3(name, version, build) =>
      if |Paths(members)| != |members| then Err(PackageError("duplicate members"))
      else
        DuplicateMembers(members);
        var raw :- Extract(members, "info/index.json");
        var info :- json(raw);
        Ok(Package(dist, name, version, build, members, info, verbose))
  }

  /** The later checker's record for the same package, through which the
      rules whose bodies did not change are applied; those rules read only
      the members, the name, the build string and `verbose`. */
  function View(pk: Package): PackageRules.PackageCheck {
    PackageRules.PackageCheck(pk.dist, pk.name, pk.version, pk.build, pk.members,
      if pk.info.Dict? then pk.info.entries else [],
      Index(pk.info, "platform") == Ok(Str("win")), pk.verbose)
  }

  // ---------------------------------------------------------------------
  // info_files
  // ---------------------------------------------------------------------

  /** The length of the text before the first `\n`, or all of it. */
  function NewlineIndex(s: string): (n: nat)
    ensures n <= |s|
    ensures forall i | 0 <= i < n :: s[i] != '\n'
    ensures n < |s| ==> s[n] == '\n'
  {
    if |s| == 0 || s[0] == '\n' then 0 else NewlineIndex(s[1..]) + 1
  }

  /** The lines concatenated back together. */
  function Flatten(lines: seq<string>): string {
    if |lines| == 0 then "" else lines[0] + Flatten(lines[1..])
  }

  /** `readlines()` of a binary file: the lines put back together give
      the text again (`ReadLinesShape` says where they break). */
  function ReadLines(s: string): (lines: seq<string>)
    ensures Flatten(lines) == s
    decreases |s|
  {
    if |s| == 0 then []
    else
      var n := NewlineIndex(s);
      if n == |s| then [s]
      else
        assert s == s[..n + 1] + s[n + 1..];
        [s[..n + 1]] + ReadLines(s[n + 1..])
  }

  /** A line of `readlines()`: not empty, and no `\n` before its last
      character. */
  predicate IsLine(l: string) {
    |l| > 0 && forall i | 0 <= i < |l| - 1 :: l[i] != '\n'
  }

  /** Every line is a line, and every line but the last ends with `\n`. */
  lemma {:induction false} ReadLinesShape(s: string)
    ensures forall k | 0 <= k < |ReadLines(s)| :: IsLine(ReadLines(s)[k])
    ensures forall k | 0 <= k < |ReadLines(s)| - 1 :: EndsWith(ReadLines(s)[k], "\n")
    decreases |s|
  {
    if |s| > 0 {
      var n := NewlineIndex(s);
      if n < |s| {
        ReadLinesShape(s[n + 1..]);
        var head := s[..n + 1];
        var rest := ReadLines(s[n + 1..]);
        assert ReadLines(s) == [head] + rest;
        assert IsLine(head) && head[n..] == "\n";
        forall k | 1 <= k < |rest| + 1 ensures ReadLines(s)[k] == rest[k - 1] { }
      }
    }
  }

  /** `[p.decode('utf-8').strip() for p in f.readlines()]` */
  function ListedFiles(raw: seq<byte>): seq<string> {
    PackageRules.StripAll(ReadLines(Decode(raw)))
  }

  /** What `info_files` demands of `info/files`: no `info/` line, no
      repeated line, no repeated payload member, and the same paths as the
      payload. */
  predicate FilesFileValid(pk: Package, raw: seq<byte>) {
    var lista := ListedFiles(raw);
    var listb := PackageRules.PayloadPaths(pk.members);
    (forall p | p in lista :: !PackageRules.InInfo(p))
    && Distinct(lista) && Distinct(listb)
    && Elems(lista) == Elems(listb)
  }

  /** `info_files`: a missing `info/files` raises `KeyError`; otherwise it
      completes exactly when `FilesFileValid` holds. Nothing is demanded of
      the bytes' range. */
  function InfoFiles(pk: Package): (r: Status)
    ensures Extract(pk.members, "info/files").Err? ==> r == Err(KeyError("info/files"))
    ensures Extract(pk.members, "info/files").Ok? ==>
      (r == Pass <==> FilesFileValid(pk, Extract(pk.members, "info/files").value))
    ensures r.Err? && Extract(pk.members, "info/files").Ok? ==> r.exc.PackageError?
  {
    var raw :- Extract(pk.members, "info/files");
    var lista := ListedFiles(raw);
    match FirstWhere(lista, PackageRules.InInfo)
    case Some(p) => Err(PackageError("Did not expect '" + p + "' in info/files"))
    case None =>
      DistinctCard(lista);
      if |Elems(lista)| != |lista| then Err(PackageError("info/files: duplicates"))
      else
        var listb := PackageRules.PayloadPaths(pk.members);
        DistinctCard(listb);
        if |Elems(listb)| != |listb| then Err(PackageError("info_files: duplicate members"))
        else if Elems(lista) == Elems(listb) then Pass
        else Err(PackageError("info/files"))
  }

  // ---------------------------------------------------------------------
  // not_allowed_files
  // ---------------------------------------------------------------------

  /** A path `not_allowed_files` rejects: one of the five directories or a
      path below it, or a `.DS_Store` file. */
  predicate Unallowed(p: string) {
    StartsWithAny(p, PackageRules.NotAllowedDirs) || p in PackageRules.NotAllowed || EndsWith(p, "/.DS_Store")
  }

  function NotAllowedRule(p: string): Status {
    if Unallowed(p) then Err(PackageError("directory or filename not allowed: " + p)) else Pass
  }

  /** `not_allowed_files`: no path is `Unallowed`; the first one met is
      named. */
  function NotAllowedFiles(pk: Package): (r: Status)
    ensures r == Pass <==> forall p | p in Paths(pk.members) :: !Unallowed(p)
    ensures r != Pass ==> exists p | p in Paths(pk.members) ::
      Unallowed(p) && r == Err(PackageError("directory or filename not allowed: " + p))
  {
    Each(IterPaths(pk.members), NotAllowedRule, 0)
  }

  /** The later rule adds backup files and the pedantic metadata files:
      what it lets through is let through here, and a backup file is let
      through here only. */
  lemma NotAllowedLooser(pk: Package, pedantic: bool)
    ensures PackageRules.NotAllowedFiles(View(pk), pedantic) == Pass ==> NotAllowedFiles(pk) == Pass
    ensures NotAllowedRule("bin/tool~") == Pass
    ensures "bin/tool~" in Paths(pk.members) ==> PackageRules.NotAllowedFiles(View(pk), pedantic) != Pass
  {
    var p := "bin/tool~";
    assert EndsWith(p, "~");
    assert !EndsWith(p, "/.DS_Store");
    forall k | 0 <= k < |PackageRules.NotAllowedDirs| ensures !StartsWith(p, PackageRules.NotAllowedDirs[k]) {
      assert p[0] == 'b';
    }
  }

  // ---------------------------------------------------------------------
  // index_json
  // ---------------------------------------------------------------------

  /** `self.info[varname] != getattr(self, varname)` */
  function FieldRule(pk: Package, varname: string, attr: string): (r: Status)
    ensures r == Pass <==> pk.info.Dict? && Lookup(pk.info.entries, varname) == Some(Str(attr))
    ensures !pk.info.Dict? ==> r == Err(TypeError)
    ensures pk.info.Dict? && Lookup(pk.info.entries, varname).None? ==> r == Err(KeyError(varname))
  {
    var v :- Index(pk.info, varname);
    if v != Str(attr) then
      Err(PackageError("info/index.json for " + varname + ": " + PyRepr(v) + " != " + StrRepr(attr)))
    else Pass
  }

  /** `index_json`: `info` repeats the name, version and build of the file
      name, and its build number is a Python `int` (a `bool` is one). */
  function IndexJson(pk: Package): (r: Status)
    ensures r == Pass <==>
      pk.info.Dict?
      && Lookup(pk.info.entries, "name") == Some(Str(pk.name))
      && Lookup(pk.info.entries, "version") == Some(Str(pk.version))
      && Lookup(pk.info.entries, "build") == Some(Str(pk.build))
      && Lookup(pk.info.entries, "build_number").Some?
      && IsInt(Lookup(pk.info.entries, "build_number").value)
  {
    var _ :- FieldRule(pk, "name", pk.name);
    var _ :- FieldRule(pk, "version", pk.version);
    var _ :- FieldRule(pk, "build", pk.build);
    var bn :- Index(pk.info, "build_number");
    if !IsInt(bn) then Err(PackageError("info/index.json: invalid build_number: " + PyStr(bn)))
    else Pass
  }

  /** The later `index_json` only adds tests: what it accepts with or
      without pedantry is accepted here, and a negative build number is
      accepted here only. */
  lemma IndexJsonLooser(pk: Package, pedantic: bool)
    requires pk.info.Dict?
    ensures PackageRules.IndexJson(View(pk), pedantic) == Pass ==> IndexJson(pk) == Pass
    ensures IndexJson(pk) == Pass && Lookup(pk.info.entries, "build_number") == Some(Int(-1)) ==>
      PackageRules.IndexJson(View(pk), pedantic) != Pass
  {
    if Lookup(pk.info.entries, "build_number") == Some(Int(-1)) {
      PackageRules.NegativeBuildNumber(View(pk), pedantic);
    }
  }

  // ---------------------------------------------------------------------
  // has_prefix
  // ---------------------------------------------------------------------

  /** The boundaries of `bytes.splitlines()`: `\n`, `\r` and `\r\n`. */
  predicate IsByteLineBreak(c: char) { c == '\n' || c == '\r' }

  function ByteLineLen(s: string): (n: nat)
    ensures n <= |s|
    ensures forall i | 0 <= i < n :: !IsByteLineBreak(s[i])
    ensures n < |s| ==> IsByteLineBreak(s[n])
  {
    if |s| == 0 || IsByteLineBreak(s[0]) then 0 else ByteLineLen(s[1..]) + 1
  }

  /** `data.splitlines()` on bytes: no line holds a boundary, and a final
      boundary does not open an empty last line. */
  function ByteSplitLines(s: string): (lines: seq<string>)
    ensures forall k | 0 <= k < |lines| :: forall i | 0 <= i < |lines[k]| :: !IsByteLineBreak(lines[k][i])
    ensures s == [] <==> lines == []
    decreases |s|
  {
    if |s| == 0 then []
    else
      var n := ByteLineLen(s);
      if n == |s| then [s]
      else
        var brk := if s[n] == '\r' && n + 1 < |s| && s[n + 1] == '\n' then 2 else 1;
        [s[..n]] + ByteSplitLines(s[n + brk..])
  }

  /** Every boundary `str.splitlines` sees in `s` is one that
      `bytes.splitlines` sees too. */
  predicate OnlyByteBreaks(s: string) {
    forall i | 0 <= i < |s| :: IsLineBreak(s[i]) ==> IsByteLineBreak(s[i])
  }

  lemma OnlyByteBreaksSuffix(s: string, j: nat)
    requires OnlyByteBreaks(s) && j <= |s|
    ensures OnlyByteBreaks(s[j..])
  {
    assert forall i | 0 <= i < |s| - j :: s[j..][i] == s[j + i];
  }

  /** Under `OnlyByteBreaks`, the first line ends at the same place. */
  lemma LineLensAgree(s: string)
    requires OnlyByteBreaks(s)
    ensures ByteLineLen(s) == LineLen(s)
  {
    var n := ByteLineLen(s);
    assert forall i | 0 <= i < n :: !IsLineBreak(s[i]);
    assert n < |s| ==> IsLineBreak(s[n]);
  }

  /** Splitting bytes and splitting text give the same lines unless the
      text holds one of the boundaries only `str.splitlines` knows. */
  lemma {:induction false} ByteSplitLinesAgree(s: string)
    requires OnlyByteBreaks(s)
    ensures ByteSplitLines(s) == SplitLines(s)
    decreases |s|
  {
    if |s| > 0 {
      LineLensAgree(s);
      var n := LineLen(s);
      if n < |s| {
        var brk := if s[n] == '\r' && n + 1 < |s| && s[n + 1] == '\n' then 2 else 1;
        var t := s[n + brk..];
        assert ByteSplitLines(s) == [s[..n]] + ByteSplitLines(t);
        assert SplitLines(s) == [s[..n]] + SplitLines(t);
        OnlyByteBreaksSuffix(s, n + brk);
        ByteSplitLinesAgree(t);
      }
    }
  }

  const MsgWindowsBinary := "info/has_prefix: binary replace mode not allowed on Windows"

  function MsgPlaceholderLength(n: nat): string {
    "info/has_prefix: binary placeholder not 255 bytes, but: " + NatToString(n)
  }

  /** `_check_has_prefix_line(line)`: the target is a member; a binary
      entry needs a `platform` in `info` other than `win` and a placeholder
      of exactly 255 characters; a text entry passes; any other mode is
      invalid. */
  function PrefixLine(pk: Package, line: string): (r: Status)
    ensures var e := PackageRules.ParsePrefixLine(line);
      r == Pass <==> e.target in Paths(pk.members)
                     && (e.mode == "text"
                         || (e.mode == "binary" && Index(pk.info, "platform").Ok?
                             && Index(pk.info, "platform").value != Str("win") && |e.placeholder| == 255))
    ensures var e := PackageRules.ParsePrefixLine(line);
      e.target !in Paths(pk.members) ==> r == Err(PackageError("info/has_prefix: target '" + e.target + "' not in package"))
    ensures var e := PackageRules.ParsePrefixLine(line);
      (e.target in Paths(pk.members) && e.mode == "binary" && Index(pk.info, "platform").Ok?
       && Index(pk.info, "platform").value != Str("win") && |e.placeholder| != 255) ==> r == Err(PackageError(MsgPlaceholderLength(|e.placeholder|)))
    ensures var e := PackageRules.ParsePrefixLine(line);
      (e.target in Paths(pk.members) && e.mode != "binary" && e.mode != "text") ==>
      r == Err(PackageError(PackageRules.MsgInvalidMode))
  {
    var e := PackageRules.ParsePrefixLine(line);
    if e.target !in Paths(pk.members) then
      Err(PackageError("info/has_prefix: target '" + e.target + "' not in package"))
    else if e.mode == "binary" then
      var platform :- Index(pk.info, "platform");
      if platform == Str("win") then Err(PackageError(MsgWindowsBinary))
      else if |e.placeholder| != 255 then Err(PackageError(MsgPlaceholderLength(|e.placeholder|)))
      else Pass
    else if e.mode == "text" then Pass
    else Err(PackageError(PackageRules.MsgInvalidMode))
  }

  /** The placeholder length decides here and never in the later checker:
      a short binary placeholder on Linux is refused here and accepted
      there. */
  lemma ShortPlaceholder(pk: Package, line: string)
    requires pk.info.Dict? && Lookup(pk.info.entries, "platform") == Some(Str("lin")) && pk.name != "python"
    requires var e := PackageRules.ParsePrefixLine(line);
      e.target in Paths(pk.members) && e.mode == "binary" && |e.placeholder| != 255
    ensures PrefixLine(pk, line) == Err(PackageError(MsgPlaceholderLength(|PackageRules.ParsePrefixLine(line).placeholder|)))
    ensures PackageRules.PrefixLine(View(pk), line, false) == Pass
    ensures PackageRules.PrefixLine(View(pk), line, true) == Pass
  {
  }

  function PrefixLineStep(pk: Package): string -> Status {
    line => PrefixLine(pk, line)
  }

  /** What the loop body does for the `info/has_prefix` member: look up
      `platform` (for a warning on `win`), then check every line. */
  function PrefixFile(pk: Package): (r: Status)
    ensures r == Pass <==>
      Index(pk.info, "platform").Ok? && Extract(pk.members, "info/has_prefix").Ok?
      && forall line | line in ByteSplitLines(Decode(Extract(pk.members, "info/has_prefix").value)) ::
           PrefixLine(pk, line) == Pass
    ensures Index(pk.info, "platform").Err? ==> r == Err(Index(pk.info, "platform").exc)
  {
    var _ :- Index(pk.info, "platform");
    var data :- Extract(pk.members, "info/has_prefix");
    var lines := ByteSplitLines(Decode(data));
    var r := Each(lines, PrefixLineStep(pk), 0);
    assert forall k | 0 <= k < |lines| :: PrefixLineStep(pk)(lines[k]) == PrefixLine(pk, lines[k]);
    r
  }

  function PrefixMemberRule(pk: Package, m: Member): Status {
    if m.path != "info/has_prefix" then Pass else PrefixFile(pk)
  }

  function PrefixMemberStep(pk: Package): Member -> Status {
    m => PrefixMemberRule(pk, m)
  }

  /** `has_prefix`: without an `info/has_prefix` member nothing is
      checked; with one, the outcome is that of `PrefixFile`. */
  function HasPrefix(pk: Package): (r: Status)
    ensures "info/has_prefix" !in Paths(pk.members) ==> r == Pass
    ensures "info/has_prefix" in Paths(pk.members) ==> r == PrefixFile(pk)
  {
    var r := Each(pk.members, PrefixMemberStep(pk), 0);
    PrefixMembers(pk);
    r
  }

  lemma PrefixMembers(pk: Package)
    ensures "info/has_prefix" !in Paths(pk.members) ==> Each(pk.members, PrefixMemberStep(pk), 0) == Pass
    ensures "info/has_prefix" in Paths(pk.members) ==> Each(pk.members, PrefixMemberStep(pk), 0) == PrefixFile(pk)
  {
    var f := PrefixMemberStep(pk);
    var hp := "info/has_prefix";
    assert forall k | 0 <= k < |pk.members| :: f(pk.members[k]) == PrefixMemberRule(pk, pk.members[k]);
    assert forall k | 0 <= k < |pk.members| :: f(pk.members[k]) == Pass || f(pk.members[k]) == PrefixFile(pk);
    if hp in Paths(pk.members) {
      var k :| 0 <= k < |PathList(pk.members)| && PathList(pk.members)[k] == hp;
      assert f(pk.members[k]) == PrefixFile(pk);
    } else {
      forall k | 0 <= k < |pk.members| ensures f(pk.members[k]) == Pass {
        assert pk.members[k].path == PathList(pk.members)[k];
      }
    }
  }

  // ---------------------------------------------------------------------
  // no_setuptools, no_easy_install_script, no_pyc_in_stdlib
  // ---------------------------------------------------------------------

  const TestEgg := "MyPyPa-0.1.0-py2.5.egg"

  function SetuptoolsFileRule(p: string): Status {
    if EndsWith(p, TestEgg) then Pass
    else if PackageRules.SetuptoolsFile(p) then Err(PackageError("file '" + p + "' not allowed"))
    else Pass
  }

  /** `no_setuptools`: no `easy-install.pth` anywhere, and unless the
      package is setuptools or distribute, no setuptools file other than
      the one test egg. */
  function NoSetuptools(pk: Package): (r: Status)
    ensures r == Pass <==>
      (forall p | p in Paths(pk.members) :: !EndsWith(p, "easy-install.pth"))
      && (pk.name !in ["setuptools", "distribute"] ==>
            forall p | p in Paths(pk.members) :: EndsWith(p, TestEgg) || !PackageRules.SetuptoolsFile(p))
  {
    var ps := IterPaths(pk.members);
    var _ :- Each(ps, PackageRules.EasyInstallPthRule, 0);
    if pk.name in ["setuptools", "distribute"] then Pass
    else Each(ps, SetuptoolsFileRule, 0)
  }

  /** The later rule accepts every package this one accepts. */
  lemma SetuptoolsStricter(pk: Package)
    ensures NoSetuptools(pk) == Pass ==> PackageRules.NoSetuptools(View(pk)) == Pass
  {
    forall p | EndsWith(p, TestEgg) ensures EndsWithAny(p, PackageRules.TestEggs) {
      assert EndsWith(p, PackageRules.TestEggs[0]);
    }
  }

  /** The later rule also exempts a second test egg, which this one
      refuses. */
  lemma SecondTestEggRefused(pk: Package)
    requires "mytestegg-1.0.0-py3.4.egg" in Paths(pk.members) && pk.name !in ["setuptools", "distribute"]
    ensures NoSetuptools(pk) != Pass
  {
    var egg := "mytestegg-1.0.0-py3.4.egg";
    assert EndsWith(egg, ".egg");
    assert !EndsWith(egg, TestEgg) by {
      assert egg[|egg| - |TestEgg|..][0] == egg[3] == 'e';
    }
  }

  function EasyInstallScriptRule(pk: Package, m: Member): Status {
    if !StartsWithAny(m.path, ["bin/", "Scripts/"]) then Pass
    else
      var data :- Extract(pk.members, m.path);
      if Find(Decode(ReadAtMost(data, 1024)), PackageRules.EasyInstallMarker) >= 0 then
        Err(PackageError("easy install script found: " + m.path))
      else Pass
  }

  function EasyInstallScriptStep(pk: Package): Member -> Status {
    m => EasyInstallScriptRule(pk, m)
  }

  /** `no_easy_install_script`: always, the first kilobyte of every member
      under `bin/` or `Scripts/` lacks the marker. */
  function NoEasyInstallScript(pk: Package): (r: Status)
    ensures r == Pass <==> forall i | 0 <= i < |pk.members| ::
      var m := pk.members[i];
      StartsWithAny(m.path, ["bin/", "Scripts/"]) ==>
        Extract(pk.members, m.path).Ok?
        && Find(Decode(ReadAtMost(Extract(pk.members, m.path).value, 1024)), PackageRules.EasyInstallMarker) < 0
  {
    var r := Each(pk.members, EasyInstallScriptStep(pk), 0);
    assert forall i | 0 <= i < |pk.members| :: EasyInstallScriptStep(pk)(pk.members[i]) == EasyInstallScriptRule(pk, pk.members[i]);
    r
  }

  /** The later rule runs only when pedantic and skips members that are
      not regular files: what is accepted here is accepted there. */
  lemma EasyInstallScriptStricter(pk: Package, pedantic: bool)
    ensures NoEasyInstallScript(pk) == Pass ==> PackageRules.NoEasyInstallScript(View(pk), pedantic) == Pass
  {
    if NoEasyInstallScript(pk) == Pass && pedantic {
      forall i | 0 <= i < |pk.members|
        ensures PackageRules.EasyInstallScriptRule(View(pk), pk.members[i]) == Pass
      {
        assert EasyInstallScriptStep(pk)(pk.members[i]) == EasyInstallScriptRule(pk, pk.members[i]);
      }
    }
  }

  const StdlibExempt: set<string> := {"python", "scons"}

  /** `no_pyc_in_stdlib`: outside python and scons, every `.pyc` file lies
      under `site-packages`. */
  function NoPycInStdlib(pk: Package): (r: Status)
    ensures r == Pass <==> (pk.name in StdlibExempt
                            || forall p | p in Paths(pk.members) :: EndsWith(p, ".pyc") ==> Contains(p, "site-packages"))
  {
    if pk.name in StdlibExempt then Pass
    else Each(IterPaths(pk.members), PackageRules.StdlibPycRule, 0)
  }

  /** conda-build itself lost its exemption only here: its stdlib `.pyc`
      files are refused here and accepted by the later rule; for every
      other name the two agree. */
  lemma StdlibExemptions(pk: Package)
    ensures pk.name != "conda-build" ==> NoPycInStdlib(pk) == PackageRules.NoPycInStdlib(View(pk))
    ensures pk.name == "conda-build" ==> PackageRules.NoPycInStdlib(View(pk)) == Pass
    ensures pk.name == "conda-build" && "lib/os.pyc" in Paths(pk.members) ==> NoPycInStdlib(pk) != Pass
  {
    var p := "lib/os.pyc";
    assert EndsWith(p, ".pyc");
    assert !Contains(p, "site-packages");
  }

  // ---------------------------------------------------------------------
  // check_windows_arch
  // ---------------------------------------------------------------------

  const ArchExempt: seq<string> := ["python", "conda-build", "pip", "xlwings", "phantomjs", "qt"]

  /** The object type of the first 4096 bytes of a member; `sniff` stands
      for `get_object_type`. */
  function ObjectTypeOf(pk: Package, sniff: seq<byte> -> Option<string>, m: Member): Res<Option<string>> {
    var data :- Extract(pk.members, m.path);
    Ok(sniff(ReadAtMost(data, 4096)))
  }

  function ArchRule(pk: Package, sniff: seq<byte> -> Option<string>, arch: Value, m: Member): (r: Status)
    requires arch == Str("x86") || arch == Str("x86_64")
    ensures r == Pass <==> !PackageRules.Binary(m) || ObjectTypeOf(pk, sniff, m) == Ok(Some(PackageRules.ExpectedType(arch)))
  {
    if !PackageRules.Binary(m) then Pass
    else
      var tp :- ObjectTypeOf(pk, sniff, m);
      if tp != Some(PackageRules.ExpectedType(arch)) then
        Err(PackageError("File " + m.path + " has object type " + PackageRules.TypeName(tp)
                         + ", but info/index.json arch is " + PyStr(arch)))
      else Pass
  }

  function ArchStep(pk: Package, sniff: seq<byte> -> Option<string>, arch: Value): Member -> Status
    requires arch == Str("x86") || arch == Str("x86_64")
  {
    m => ArchRule(pk, sniff, arch, m)
  }

  /** `check_windows_arch`: outside the six exempt names, `platform` is
      looked up (a missing one raises); for `win`, `arch` is `x86` or
      `x86_64` and every `.exe` and `.dll` sniffs as that architecture's
      DLL type. */
  function CheckWindowsArch(pk: Package, sniff: seq<byte> -> Option<string>): (r: Status)
    ensures pk.name in ArchExempt ==> r == Pass
    ensures pk.name !in ArchExempt && Index(pk.info, "platform").Err? ==> r == Err(Index(pk.info, "platform").exc)
    ensures pk.name !in ArchExempt && Index(pk.info, "platform").Ok? && Index(pk.info, "platform").value != Str("win") ==>
      r == Pass
    ensures pk.name !in ArchExempt && Index(pk.info, "platform") == Ok(Str("win")) ==>
      var arch := Index(pk.info, "arch");
      (r == Pass <==> arch.Ok? && (arch.value == Str("x86") || arch.value == Str("x86_64"))
                      && forall i | 0 <= i < |pk.members| ::
                           !PackageRules.Binary(pk.members[i])
                           || ObjectTypeOf(pk, sniff, pk.members[i]) == Ok(Some(PackageRules.ExpectedType(arch.value))))
  {
    if pk.name in ArchExempt then Pass
    else
      var platform :- Index(pk.info, "platform");
      if platform != Str("win") then Pass
      else
        var arch :- Index(pk.info, "arch");
        if arch != Str("x86") && arch != Str("x86_64") then
          Err(PackageError("Unrecognized Windows architecture: " + PyStr(arch)))
        else
          var r := Each(pk.members, ArchStep(pk, sniff, arch), 0);
          assert forall i | 0 <= i < |pk.members| :: ArchStep(pk, sniff, arch)(pk.members[i]) == ArchRule(pk, sniff, arch, pk.members[i]);
          r
  }

  /** The later checker exempts more names: a `win` package under one of
      them with an unknown architecture is refused here and accepted
      there (`NsisExemptLater` names one). */
  lemma ArchExemptions(pk: Package, sniff: seq<byte> -> Option<string>, arch: Value)
    requires pk.name in PackageRules.ArchExempt && pk.name !in ArchExempt
    requires Index(pk.info, "platform") == Ok(Str("win")) && Index(pk.info, "arch") == Ok(arch)
    requires arch != Str("x86") && arch != Str("x86_64")
    ensures CheckWindowsArch(pk, sniff) == Err(PackageError("Unrecognized Windows architecture: " + PyStr(arch)))
    ensures PackageRules.CheckWindowsArch(View(pk)) == Pass
  {
  }

  /** `nsis` is exempt in the later checker only. */
  lemma NsisExemptLater()
    ensures "nsis" !in ArchExempt && "nsis" in PackageRules.ArchExempt
  {
    assert "nsis" == PackageRules.ArchExempt[7];
    assert forall k | 0 <= k < |ArchExempt| :: ArchExempt[k][0] != 'n';
  }

  // ---------------------------------------------------------------------
  // list_packages and validate_package
  // ---------------------------------------------------------------------

  /** `list_packages`: collect the top-level names under `site-packages`
      into a set and apply the later checker's tests to it (its body is
      that of the later rule without the `site-packages` location). */
  method ListPackages(pk: Package) returns (r: Status)
    ensures r == PackageRules.PackagesRule(View(pk), PackageRules.Found(IterPaths(pk.members)))
  {
    var ps := IterPaths(pk.members);
    var res: set<string> := {};
    var i := 0;
    while i < |ps|
      invariant 0 <= i <= |ps|
      invariant res == PackageRules.Found(ps[..i])
    {
      assert ps[..i + 1][..i] == ps[..i];
      var m := PackageRules.PackageOf(ps[i]);
      if m.Some? {
        res := res + {m.value};
      }
      i := i + 1;
    }
    assert ps[..i] == ps;
    r := PackageRules.PackagesRule(View(pk), res);
  }

  /** The outcomes of the rules `validate_package` runs that can raise, in
      its order; the warning rules (`warn_post_link`, `warn_pyo`,
      `no_py_next_so`, `pyc_files`) only print and are left out. */
  function Checks(pk: Package, sniff: seq<byte> -> Option<string>): (cs: seq<Status>)
    ensures |cs| == 12
  {
    [InfoFiles(pk), NotAllowedFiles(pk), IndexJson(pk), PackageRules.NoBatAndExe(View(pk)),
     HasPrefix(pk), NoSetuptools(pk), NoEasyInstallScript(pk), PackageRules.NoPth(View(pk), true),
     NoPycInStdlib(pk), PackageRules.No2to3Pickle(View(pk)), CheckWindowsArch(pk, sniff),
     PackageRules.PackagesRule(View(pk), PackageRules.Found(IterPaths(pk.members)))]
  }

  function Outcome(s: Status): Status { s }

  /** Statements run in order, stopping at the first that raises: the
      outcome is `Pass` only when every one completes, and otherwise the
      outcome of the first that does not. */
  function FirstRaise(cs: seq<Status>): (r: Status)
    ensures r == Pass <==> forall k | 0 <= k < |cs| :: cs[k] == Pass
    ensures r != Pass ==> exists k | 0 <= k < |cs| ::
      r == cs[k] && forall j | 0 <= j < k :: cs[j] == Pass
  {
    Each(cs, Outcome, 0)
  }

  /** `validate_package(path, verbose)` once the package is open. */
  function Verdict(pk: Package, sniff: seq<byte> -> Option<string>): Status {
    FirstRaise(Checks(pk, sniff))
  }

  /** `validate_package(path, verbose)` from the archive: construction,
      then the rules. */
  function PackageVerdict(path: string, members: seq<Member>, json: seq<byte> -> Res<Value>,
                          sniff: seq<byte> -> Option<string>, verbose: bool): (r: Status)
    ensures Open(path, members, json, verbose).Err? ==> r == Err(Open(path, members, json, verbose).exc)
    ensures Open(path, members, json, verbose).Ok? ==> r == Verdict(Open(path, members, json, verbose).value, sniff)
  {
    var pk :- Open(path, members, json, verbose);
    Verdict(pk, sniff)
  }

  /** `validate_package`: the sixteen calls in order, stopping at the
      first that raises. */
  method ValidatePackage(path: string, members: seq<Member>, json: seq<byte> -> Res<Value>,
                         sniff: seq<byte> -> Option<string>, verbose: bool) returns (r: Status)
    ensures r == PackageVerdict(path, members, json, sniff, verbose)
  {
    var built := Open(path, members, json, verbose);
    if built.Err? {
      return Err(built.exc);
    }
    var pk := built.value;
    var listed := ListPackages(pk);
    var outcomes :=
      [InfoFiles(pk), NotAllowedFiles(pk), IndexJson(pk), PackageRules.NoBatAndExe(View(pk)),
       HasPrefix(pk), NoSetuptools(pk), NoEasyInstallScript(pk), PackageRules.NoPth(View(pk), true),
       NoPycInStdlib(pk), PackageRules.No2to3Pickle(View(pk)), CheckWindowsArch(pk, sniff), listed];
    r := FirstRaise(outcomes);
  }
}
