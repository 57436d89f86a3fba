/** `conda_verify/conda_package_check.py`: the earlier package checker,
    whose rules raise `PackageError` on the first problem instead of
    returning diagnostics. Each rule is a `Status`: it completes or raises.
    The module it imports its license families from (`conda_verify.const`)
    is not part of this model; the fallback table of `Constants` stands in
    for it. */
module PackageRules {
  import opened Base
  import opened Text
  import opened Values
  import opened Archive
  import Constants
  import Utilities
  import Common
  import Utils

  // ---------------------------------------------------------------------
  // dist_fn and construction
  // ---------------------------------------------------------------------

  /** `dist_fn(fn)`: a bad sequence is fatal before the extension is looked
      at; `.tar.bz2` and `.tar` are stripped; any other name is fatal. */
  function DistFn(fn: string): (r: Res<string>)
    ensures Utilities.GetBadSeq(fn).Some? ==>
      r == Err(PackageError("'" + Utilities.GetBadSeq(fn).value + "' not allowed in file name '" + fn + "'"))
    ensures Utilities.GetBadSeq(fn).None? && !EndsWith(fn, ".tar.bz2") && !EndsWith(fn, ".tar") ==>
      r == Err(PackageError("did not expect filename: " + fn))
    ensures r.Ok? ==> Utilities.GetBadSeq(fn).None? && (fn == r.value + ".tar.bz2" || fn == r.value + ".tar")
  {
    match Utilities.GetBadSeq(fn)
    case Some(bad) => Err(PackageError("'" + bad + "' not allowed in file name '" + fn + "'"))
    case None =>
      if EndsWith(fn, ".tar.bz2") then
        assert fn == fn[..|fn| - 8] + ".tar.bz2";
        Ok(fn[..|fn| - 8])
      else if EndsWith(fn, ".tar") then
        assert fn == fn[..|fn| - 4] + ".tar";
        Ok(fn[..|fn| - 4])
      else Err(PackageError("did not expect filename: " + fn))
  }

  /** Both archive suffixes come off again. */
  lemma DistFnRoundTrip(dist: string)
    ensures Utilities.GetBadSeq(dist + ".tar.bz2").None? ==> DistFn(dist + ".tar.bz2") == Ok(dist)
    ensures Utilities.GetBadSeq(dist + ".tar").None? ==> DistFn(dist + ".tar") == Ok(dist)
  {
    var a := dist + ".tar.bz2";
    assert a[|a| - 8..] == ".tar.bz2" && a[..|a| - 8] == dist;
    var b := dist + ".tar";
    assert b[|b| - 4..] == ".tar" && b[..|b| - 4] == dist;
    assert !EndsWith(b, ".tar.bz2") by {
      if |b| >= 8 {
        assert b[|b| - 1] == 'r' && b[|b| - 8..][7] == b[|b| - 1];
      }
    }
  }

  /** The fields `__init__` fills in; `paths` is `Paths(members)`. */
  datatype PackageCheck = PackageCheck(
    dist: string, name: string, version: string, build: string,
    members: seq<Member>, info: seq<(string, Value)>, winPkg: bool, verbose: bool)

  /** `CondaPackageCheck(path, verbose)` over the archive's members; `json`
      stands for `json.loads(raw.decode('utf-8'))`. Fatal at construction:
      a bad file name, a name that does not split into three parts at its
      last two `-`, duplicate member paths, a missing `info/index.json` or
      `platform`, and bytes outside ASCII in `info/index.json` (a CR is
      allowed for `win` packages). */
  function Open(path: string, members: seq<Member>, json: seq<byte> -> Res<Value>, verbose: bool): (r: Res<PackageCheck>)
    ensures DistFn(Basename(path)).Err? ==> r == Err(DistFn(Basename(path)).exc)
    ensures (DistFn(Basename(path)).Ok? && RSplit3(DistFn(Basename(path)).value, '-').None3?) ==> r == Err(ValueError)
    ensures (DistFn(Basename(path)).Ok? && RSplit3(DistFn(Basename(path)).value, '-').Some3?
             && |Paths(members)| != |members|) ==> r == Err(PackageError("duplicate members"))
    ensures r.Ok? ==>
      var pc := r.value;
      DistFn(Basename(path)) == Ok(pc.dist) && pc.members == members && pc.verbose == verbose
      && pc.dist == pc.name + "-" + pc.version + "-" + pc.build
      && '-' !in pc.version && '-' !in pc.build
      && (forall i, j | 0 <= i < j < |members| :: members[i].path != members[j].path)
      && Extract(members, "info/index.json").Ok?
      && json(Extract(members, "info/index.json").value) == Ok(Dict(pc.info))
      && (pc.winPkg <==> Lookup(pc.info, "platform") == Some(Str("win")))
      && Utilities.IsAsciiText(Extract(members, "info/index.json").value, pc.winPkg)
  {
    var dist :- DistFn(Basename(path));
    match RSplit3(dist, '-')
    case None3 => Err(ValueError)
    case Some3(name, version, build) =>
      if |Paths(members)| != |members| then Err(PackageError("duplicate members"))
      else
        DuplicateMembers(members);
        var raw :- Extract(members, "info/index.json");
        var info :- json(raw);
        if !info.Dict? then Err(TypeError)
        else
          var platform :- Index(info, "platform");
          var win := platform == Str("win");
          if !Utilities.IsAsciiText(raw, win) then Err(PackageError("non-ASCII in: info/index.json"))
          else Ok(PackageCheck(dist, name, version, build, members, info.entries, win, verbose))
  }

  /** `self.info.get(key, default)` */
  function InfoGet(pc: PackageCheck, key: string, default: Value): (v: Value)
    ensures key !in Keys(pc.info) ==> v == default
    ensures key in Keys(pc.info) ==> Lookup(pc.info, key) == Some(v)
  {
    match Lookup(pc.info, key)
    case Some(v) => v
    case None => default
  }

  // ---------------------------------------------------------------------
  // Members and info/files
  // ---------------------------------------------------------------------

  function MemberPathRule(m: Member): Status {
    if !Utilities.IsAsciiPath(m.path) then Err(PackageError("non-ASCII path: " + StrRepr(m.path))) else Pass
  }

  /** `check_members`: every member path is ASCII (the warning about spaces
      is output only); the first other path, in archive order, is named. */
  function CheckMembers(pc: PackageCheck): (r: Status)
    ensures r == Pass <==> forall i | 0 <= i < |pc.members| :: Utilities.IsAsciiPath(pc.members[i].path)
    ensures r != Pass ==> exists i | 0 <= i < |pc.members| ::
      !Utilities.IsAsciiPath(pc.members[i].path)
      && r == Err(PackageError("non-ASCII path: " + StrRepr(pc.members[i].path)))
      && forall j | 0 <= j < i :: Utilities.IsAsciiPath(pc.members[j].path)
  {
    Each(pc.members, MemberPathRule, 0)
  }

  /** `[p.strip() for p in raw.decode('utf-8').splitlines()]` */
  function ListedFiles(raw: seq<byte>): (ls: seq<string>) {
    StripAll(SplitLines(Decode(raw)))
  }

  function StripAll(lines: seq<string>): (r: seq<string>)
    ensures |r| == |lines| && forall i | 0 <= i < |lines| :: r[i] == Strip(lines[i])
  {
    if |lines| == 0 then [] else [Strip(lines[0])] + StripAll(lines[1..])
  }

  predicate InInfo(p: string) { StartsWith(p, "info/") }

  /** `[m.path for m in members if not (m.path.startswith('info/') or m.isdir())]` */
  function PayloadPaths(members: seq<Member>): (ps: seq<string>)
    ensures forall p :: p in ps <==> exists i | 0 <= i < |members| ::
      members[i].path == p && !InInfo(p) && !members[i].isDir
  {
    if |members| == 0 then []
    else
      var m := members[|members| - 1];
      var init := PayloadPaths(members[..|members| - 1]);
      assert forall i | 0 <= i < |members| - 1 :: members[..|members| - 1][i] == members[i];
      if InInfo(m.path) || m.isDir then init else init + [m.path]
  }

  /** What `info_files` demands of `info/files`: ASCII, no `info/` line, no
      repeated line, no repeated payload member, and the same paths as the
      payload. */
  predicate FilesFileValid(pc: PackageCheck, raw: seq<byte>) {
    var lista := ListedFiles(raw);
    var listb := PayloadPaths(pc.members);
    Utilities.IsAsciiText(raw, pc.winPkg)
    && (forall p | p in lista :: !InInfo(p))
    && Distinct(lista) && Distinct(listb)
    && Elems(lista) == Elems(listb)
  }

  /** `info_files` */
  function InfoFiles(pc: PackageCheck): (r: Status)
    ensures Extract(pc.members, "info/files").Err? ==> r == Err(KeyError("info/files"))
    ensures Extract(pc.members, "info/files").Ok? ==>
      (r == Pass <==> FilesFileValid(pc, Extract(pc.members, "info/files").value))
    ensures r.Err? && Extract(pc.members, "info/files").Ok? ==> r.exc.PackageError?
  {
    var raw :- Extract(pc.members, "info/files");
    if !Utilities.IsAsciiText(raw, pc.winPkg) then Err(PackageError("non-ASCII in: info/files"))
    else
      var lista := ListedFiles(raw);
      match FirstWhere(lista, InInfo)
      case Some(p) => Err(PackageError("Did not expect '" + p + "' in info/files"))
      case None =>
        DistinctCard(lista);
        if |Elems(lista)| != |lista| then Err(PackageError("info/files: duplicates"))
        else
          var listb := PayloadPaths(pc.members);
          DistinctCard(listb);
          if |Elems(listb)| != |listb| then Err(PackageError("info_files: duplicate members"))
          else if Elems(lista) == Elems(listb) then Pass
          else Err(PackageError("info/files"))
  }

  function HardlinkRule(m: Member): Status {
    if m.isLink then Err(PackageError("hardlink found: " + m.path)) else Pass
  }

  /** `no_hardlinks`: the first hard link in archive order is fatal. */
  function NoHardlinks(pc: PackageCheck): (r: Status)
    ensures r == Pass <==> forall i | 0 <= i < |pc.members| :: !pc.members[i].isLink
    ensures r != Pass ==> exists i | 0 <= i < |pc.members| ::
      pc.members[i].isLink && r == Err(PackageError("hardlink found: " + pc.members[i].path))
  {
    Each(pc.members, HardlinkRule, 0)
  }

  // ---------------------------------------------------------------------
  // not_allowed_files
  // ---------------------------------------------------------------------

  const NotAllowed: seq<string> := ["conda-meta", "conda-bld", "pkgs", "pkgs32", "envs"]
  const NotAllowedDirs: seq<string> := ["conda-meta/", "conda-bld/", "pkgs/", "pkgs32/", "envs/"]
  const PedanticNotAllowed: seq<string> := ["info/package_metadata.json", "info/link.json"]

  /** A path `not_allowed_files` always rejects: one of the five
      directories or a path below it, a `.DS_Store` file, or a backup file
      ending in `~`. */
  predicate Unallowed(p: string) {
    StartsWithAny(p, NotAllowedDirs) || p in NotAllowed || EndsWith(p, "/.DS_Store") || EndsWith(p, "~")
  }

  function NotAllowedRule(pedantic: bool, p: string): Status {
    if Unallowed(p) then Err(PackageError("directory or filename not allowed: " + p))
    else if pedantic && p in PedanticNotAllowed then Err(PackageError("file not allowed: " + p))
    else Pass
  }

  function NotAllowedStep(pedantic: bool): string -> Status {
    p => NotAllowedRule(pedantic, p)
  }

  /** `not_allowed_files(pedantic)`: no path is `Unallowed`, and when
      pedantic none is one of the two metadata files. */
  function NotAllowedFiles(pc: PackageCheck, pedantic: bool): (r: Status)
    ensures r == Pass <==> forall p | p in Paths(pc.members) :: !Unallowed(p) && !(pedantic && p in PedanticNotAllowed)
    ensures r != Pass ==> exists p | p in Paths(pc.members) ::
      (Unallowed(p) && r == Err(PackageError("directory or filename not allowed: " + p)))
      || (!Unallowed(p) && pedantic && p in PedanticNotAllowed && r == Err(PackageError("file not allowed: " + p)))
  {
    var ps := IterPaths(pc.members);
    var r := Each(ps, NotAllowedStep(pedantic), 0);
    assert forall k | 0 <= k < |ps| :: NotAllowedStep(pedantic)(ps[k]) == NotAllowedRule(pedantic, ps[k]);
    assert r == Pass <==> forall p | p in ps :: NotAllowedRule(pedantic, p) == Pass;
    r
  }

  /** Pedantry adds the metadata files and takes nothing away. */
  lemma PedanticIsStricter(pc: PackageCheck)
    ensures NotAllowedFiles(pc, true) == Pass ==> NotAllowedFiles(pc, false) == Pass
    ensures "info/link.json" in Paths(pc.members) ==> NotAllowedFiles(pc, true) != Pass
  {
    assert "info/link.json" in PedanticNotAllowed;
  }

  // ---------------------------------------------------------------------
  // index_json
  // ---------------------------------------------------------------------

  /** `self.info[varname] != getattr(self, varname)` */
  function FieldRule(pc: PackageCheck, varname: string, attr: string): (r: Status)
    ensures r == Pass <==> Lookup(pc.info, varname) == Some(Str(attr))
    ensures Lookup(pc.info, varname).None? ==> r == Err(KeyError(varname))
  {
    var v :- Index(Dict(pc.info), varname);
    if v != Str(attr) then
      Err(PackageError("info/index.json for " + varname + ": " + PyRepr(v) + " != " + StrRepr(attr)))
    else Pass
  }

  /** The validators `index_json` runs on the name, version, build number
      and, when pedantic, build string. */
  function Validators(pc: PackageCheck, bn: Value, pedantic: bool): seq<Option<string>> {
    [Common.CheckName(Str(pc.name)), Common.CheckVersion(Str(pc.version)), Common.CheckBuildNumber(bn)]
    + if pedantic then [Common.CheckBuildString(Str(pc.build))] else []
  }

  /** `info.get('license_family', info.get('license'))` */
  function LicenseFamilyOf(pc: PackageCheck): Value {
    InfoGet(pc, "license_family", InfoGet(pc, "license", Null))
  }

  /** The part of `index_json` after the three fields matched: the build
      number, the validators, `depends` and, when pedantic, the license
      family. */
  function IndexRest(pc: PackageCheck, pedantic: bool): (r: Status)
    ensures r == Pass <==>
      Lookup(pc.info, "build_number").Some? && IsInt(Lookup(pc.info, "build_number").value)
      && (forall k | 0 <= k < |Validators(pc, Lookup(pc.info, "build_number").value, pedantic)| ::
            Validators(pc, Lookup(pc.info, "build_number").value, pedantic)[k].None?)
      && InfoGet(pc, "depends", Null) != Null
      && Iter(InfoGet(pc, "depends", Null)).Ok?
      && Common.CheckSpecsResult(Iter(InfoGet(pc, "depends", Null)).value) == Ok(None)
      && (pedantic ==> InStrs(LicenseFamilyOf(pc), Constants.LicenseFamilies))
  {
    var bn :- Index(Dict(pc.info), "build_number");
    if !IsInt(bn) then Err(PackageError("info/index.json: invalid build_number: " + PyStr(bn)))
    else match FirstSome(Validators(pc, bn, pedantic))
      case Some(res) => Err(PackageError("info/index.json: " + res))
      case None =>
        var depends := InfoGet(pc, "depends", Null);
        if depends == Null then Err(PackageError("info/index.json: key 'depends' missing"))
        else
          var specs :- Iter(depends);
          var res :- Common.CheckSpecsResult(specs);
          if res.Some? then Err(PackageError("info/index.json: " + res.value))
          else if pedantic && !InStrs(LicenseFamilyOf(pc), Constants.LicenseFamilies) then
            Err(PackageError("wrong license family: " + PyStr(LicenseFamilyOf(pc))))
          else Pass
  }

  /** `index_json(pedantic)`: `info` repeats the name, version and build of
      the file name, and then `IndexRest` holds. */
  function IndexJson(pc: PackageCheck, pedantic: bool): (r: Status)
    ensures r == Pass <==>
      Lookup(pc.info, "name") == Some(Str(pc.name)) && Lookup(pc.info, "version") == Some(Str(pc.version))
      && Lookup(pc.info, "build") == Some(Str(pc.build)) && IndexRest(pc, pedantic) == Pass
  {
    var _ :- FieldRule(pc, "name", pc.name);
    var _ :- FieldRule(pc, "version", pc.version);
    var _ :- FieldRule(pc, "build", pc.build);
    IndexRest(pc, pedantic)
  }

  /** A negative build number gets past the `isinstance` test and is
      rejected by `check_build_number`. */
  lemma NegativeBuildNumber(pc: PackageCheck, pedantic: bool)
    requires Lookup(pc.info, "build_number") == Some(Int(-1))
    ensures IndexRest(pc, pedantic) != Pass
  {
    assert Validators(pc, Int(-1), pedantic)[2] == Common.CheckBuildNumber(Int(-1));
    assert Common.CheckBuildNumber(Int(-1)).Some?;
  }

  // ---------------------------------------------------------------------
  // no_bat_and_exe
  // ---------------------------------------------------------------------

  /** `{p[:-4] for p in ps if p.endswith(ext)}` for a four-character `ext`. */
  function Stems(ps: seq<string>, ext: string): (r: seq<string>)
    requires |ext| == 4
    ensures forall s :: s in r <==> s + ext in ps
  {
    if |ps| == 0 then []
    else
      var p := ps[|ps| - 1];
      var init := Stems(ps[..|ps| - 1], ext);
      assert forall x :: x in ps <==> x in ps[..|ps| - 1] || x == p;
      if EndsWith(p, ext) then
        assert p == p[..|p| - 4] + ext;
        assert forall s | s + ext == p :: s == p[..|p| - 4] by {
          forall s | s + ext == p ensures s == p[..|p| - 4] {
            SuffixOf(s, ext);
          }
        }
        init + [p[..|p| - 4]]
      else
        assert forall s :: s + ext != p by {
          forall s ensures s + ext != p {
            SuffixOf(s, ext);
          }
        }
        init
  }

  lemma SuffixOf(s: string, ext: string)
    ensures EndsWith(s + ext, ext) && (s + ext)[..|s|] == s
  {
    assert (s + ext)[|s + ext| - |ext|..] == ext;
  }

  predicate BatAndExe(paths: set<string>, stem: string) {
    stem + ".bat" in paths && stem + ".exe" in paths
  }

  /** `repr` of a set of strings, its elements in iteration order. */
  function SetRepr(ss: seq<string>): string {
    "{" + Join(", ", StrReprs(ss)) + "}"
  }

  /** `no_bat_and_exe`: no stem has both a `.bat` and an `.exe`; the
      message lists every such stem. */
  function NoBatAndExe(pc: PackageCheck): (r: Status)
    ensures r == Pass <==> !exists stem :: BatAndExe(Paths(pc.members), stem)
  {
    var ps := IterPaths(pc.members);
    var exes := Stems(ps, ".exe");
    var both := Filter(Dedupe(Stems(ps, ".bat")), s => s in exes);
    if |both| > 0 then
      assert both[0] in both && both[0] in Dedupe(Stems(ps, ".bat"));
      assert BatAndExe(Paths(pc.members), both[0]);
      Err(PackageError("Both .bat and .exe files: " + SetRepr(both)))
    else Pass
  }

  // ---------------------------------------------------------------------
  // has_prefix
  // ---------------------------------------------------------------------

  const DummyPlaceholder := "/<dummy>/<placeholder>"
  const Quotes: set<char> := {'"', '\''}

  /** One `info/has_prefix` entry. */
  datatype PrefixEntry = PrefixEntry(placeholder: string, mode: string, target: string)

  /** The unpacking of `shlex.split(line)` with quotes stripped, taken as a
      whitespace split; a line of any other number of parts stands for a
      text-mode entry naming the whole line. */
  function ParsePrefixLine(line: string): (e: PrefixEntry)
    ensures |Split(Strip(line))| != 3 ==> e == PrefixEntry(DummyPlaceholder, "text", Strip(line))
    ensures |Split(Strip(line))| == 3 ==> e.mode == StripChars(Split(Strip(line))[1], Quotes)
  {
    var l := Strip(line);
    var parts := Split(l);
    if |parts| == 3 then
      PrefixEntry(StripChars(parts[0], Quotes), StripChars(parts[1], Quotes), StripChars(parts[2], Quotes))
    else PrefixEntry(DummyPlaceholder, "text", l)
  }

  const MsgPythonBinary := "binary placeholder not allowed in Python"
  const MsgWindowsBinary := "binary placeholder not allowed on Windows"
  const MsgInvalidMode := "info/has_prefix: invalid mode"

  /** `_check_has_prefix_line(line, pedantic)`. In binary mode a pedantic
      check returns after a warning, and a non-pedantic one only prints the
      placeholder length, so the length never decides the outcome. */
  function PrefixLine(pc: PackageCheck, line: string, pedantic: bool): (r: Status)
    ensures var e := ParsePrefixLine(line);
      r == Pass <==> e.target in Paths(pc.members)
                     && (e.mode == "text" || (e.mode == "binary" && pc.name != "python" && !pc.winPkg))
    ensures var e := ParsePrefixLine(line);
      r.Err? ==> r.exc in {
        PackageError("info/has_prefix: target '" + e.target + "' not in package"),
        PackageError(MsgPythonBinary), PackageError(MsgWindowsBinary), PackageError(MsgInvalidMode)}
    ensures var e := ParsePrefixLine(line);
      e.target !in Paths(pc.members) ==> r == Err(PackageError("info/has_prefix: target '" + e.target + "' not in package"))
  {
    var e := ParsePrefixLine(line);
    if e.target !in Paths(pc.members) then
      Err(PackageError("info/has_prefix: target '" + e.target + "' not in package"))
    else if e.mode == "binary" then
      if pc.name == "python" then Err(PackageError(MsgPythonBinary))
      else if pc.winPkg then Err(PackageError(MsgWindowsBinary))
      else Pass
    else if e.mode == "text" then Pass
    else Err(PackageError(MsgInvalidMode))
  }

  function PrefixLineStep(pc: PackageCheck, pedantic: bool): string -> Status {
    line => PrefixLine(pc, line, pedantic)
  }

  /** The check of the `info/has_prefix` file itself. */
  function PrefixFile(pc: PackageCheck, pedantic: bool): (r: Status)
    ensures Extract(pc.members, "info/has_prefix").Ok? ==>
      var data := Extract(pc.members, "info/has_prefix").value;
      (r == Pass <==> Utilities.IsAsciiText(data, pc.winPkg)
                      && forall line | line in SplitLines(Decode(data)) :: PrefixLine(pc, line, pedantic) == Pass)
  {
    var data :- Extract(pc.members, "info/has_prefix");
    if !Utilities.IsAsciiText(data, pc.winPkg) then Err(PackageError("non-ASCII in: info/has_prefix"))
    else
      var lines := SplitLines(Decode(data));
      var r := Each(lines, PrefixLineStep(pc, pedantic), 0);
      assert forall k | 0 <= k < |lines| :: PrefixLineStep(pc, pedantic)(lines[k]) == PrefixLine(pc, lines[k], pedantic);
      r
  }

  /** The body of `has_prefix`'s loop for one member. */
  function PrefixMemberRule(pc: PackageCheck, pedantic: bool, m: Member): Status {
    if m.path != "info/has_prefix" then Pass else PrefixFile(pc, pedantic)
  }

  function PrefixMemberStep(pc: PackageCheck, pedantic: bool): Member -> Status {
    m => PrefixMemberRule(pc, pedantic, m)
  }

  /** `has_prefix(pedantic)`: without an `info/has_prefix` member nothing is
      checked; with one, its bytes are ASCII and every line passes. */
  function HasPrefix(pc: PackageCheck, pedantic: bool): (r: Status)
    ensures "info/has_prefix" !in Paths(pc.members) ==> r == Pass
    ensures Extract(pc.members, "info/has_prefix").Ok? ==>
      var data := Extract(pc.members, "info/has_prefix").value;
      (r == Pass <==> Utilities.IsAsciiText(data, pc.winPkg)
                      && forall line | line in SplitLines(Decode(data)) :: PrefixLine(pc, line, pedantic) == Pass)
  {
    var r := Each(pc.members, PrefixMemberStep(pc, pedantic), 0);
    PrefixMembers(pc, pedantic);
    r
  }

  lemma PrefixMembers(pc: PackageCheck, pedantic: bool)
    ensures "info/has_prefix" !in Paths(pc.members) ==> Each(pc.members, PrefixMemberStep(pc, pedantic), 0) == Pass
    ensures "info/has_prefix" in Paths(pc.members) ==>
      (Each(pc.members, PrefixMemberStep(pc, pedantic), 0) == Pass <==> PrefixFile(pc, pedantic) == Pass)
  {
    var f := PrefixMemberStep(pc, pedantic);
    var hp := "info/has_prefix";
    assert forall k | 0 <= k < |pc.members| :: f(pc.members[k]) == PrefixMemberRule(pc, pedantic, pc.members[k]);
    if hp in Paths(pc.members) {
      var k :| 0 <= k < |PathList(pc.members)| && PathList(pc.members)[k] == hp;
      assert f(pc.members[k]) == PrefixFile(pc, pedantic);
    } else {
      forall k | 0 <= k < |pc.members| ensures f(pc.members[k]) == Pass {
        assert pc.members[k].path == PathList(pc.members)[k];
      }
    }
  }

  // ---------------------------------------------------------------------
  // Setuptools, .pth, .pyc, lib2to3
  // ---------------------------------------------------------------------

  function EasyInstallPthRule(p: string): Status {
    if EndsWith(p, "easy-install.pth") then Err(PackageError("easy-install.pth file not allowed")) else Pass
  }

  const TestEggs: seq<string> := ["MyPyPa-0.1.0-py2.5.egg", "mytestegg-1.0.0-py3.4.egg"]

  /** A file that belongs to setuptools: an egg, `pkg_resources` inside
      `site-packages`, or an `easy_install` script. */
  predicate SetuptoolsFile(p: string) {
    EndsWith(p, ".egg") || Contains(p, "site-packages/pkg_resources")
    || Contains(p, "site-packages/__pycache__/pkg_resources")
    || StartsWith(p, "bin/easy_install") || StartsWith(p, "Scripts/easy_install")
  }

  function SetuptoolsFileRule(p: string): Status {
    if EndsWithAny(p, TestEggs) then Pass
    else if SetuptoolsFile(p) then Err(PackageError("file '" + p + "' not allowed"))
    else Pass
  }

  /** `no_setuptools`: no `easy-install.pth` anywhere, and unless the
      package is setuptools or distribute, no setuptools file other than
      the two test eggs. */
  function NoSetuptools(pc: PackageCheck): (r: Status)
    ensures r == Pass <==>
      (forall p | p in Paths(pc.members) :: !EndsWith(p, "easy-install.pth"))
      && (pc.name !in ["setuptools", "distribute"] ==>
            forall p | p in Paths(pc.members) :: EndsWithAny(p, TestEggs) || !SetuptoolsFile(p))
  {
    var ps := IterPaths(pc.members);
    var _ :- Each(ps, EasyInstallPthRule, 0);
    if pc.name in ["setuptools", "distribute"] then Pass
    else Each(ps, SetuptoolsFileRule, 0)
  }

  const EasyInstallMarker := "EASY-INSTALL-SCRIPT"

  function EasyInstallScriptRule(pc: PackageCheck, m: Member): Status {
    if !StartsWithAny(m.path, ["bin/", "Scripts/"]) || !m.isFile then Pass
    else
      var data :- Extract(pc.members, m.path);
      if Find(Decode(ReadAtMost(data, 1024)), EasyInstallMarker) >= 0 then
        Err(PackageError("easy install script found: " + m.path))
      else Pass
  }

  function EasyInstallScriptStep(pc: PackageCheck): Member -> Status {
    m => EasyInstallScriptRule(pc, m)
  }

  /** `no_easy_install_script(pedantic)`: only when pedantic, the first
      kilobyte of every file under `bin/` or `Scripts/` lacks the marker. */
  function NoEasyInstallScript(pc: PackageCheck, pedantic: bool): (r: Status)
    ensures !pedantic ==> r == Pass
    ensures pedantic ==> (r == Pass <==> forall i | 0 <= i < |pc.members| :: EasyInstallScriptRule(pc, pc.members[i]) == Pass)
  {
    if !pedantic then Pass
    else Each(pc.members, EasyInstallScriptStep(pc), 0)
  }

  function NamespacePthRule(pedantic: bool, p: string): Status {
    if pedantic && EndsWith(p, "-nspkg.pth") then Err(PackageError("found namespace .pth file '" + p + "'")) else Pass
  }

  function NamespacePthStep(pedantic: bool): string -> Status {
    p => NamespacePthRule(pedantic, p)
  }

  /** `no_pth(pedantic)`: when pedantic, no namespace `.pth` file (other
      `.pth` files are only reported). */
  function NoPth(pc: PackageCheck, pedantic: bool): (r: Status)
    ensures r == Pass <==> !pedantic || forall p | p in Paths(pc.members) :: !EndsWith(p, "-nspkg.pth")
  {
    var ps := IterPaths(pc.members);
    var r := Each(ps, NamespacePthStep(pedantic), 0);
    assert forall k | 0 <= k < |ps| :: NamespacePthStep(pedantic)(ps[k]) == NamespacePthRule(pedantic, ps[k]);
    r
  }

  function StdlibPycRule(p: string): Status {
    if EndsWith(p, ".pyc") && !Contains(p, "site-packages") then Err(PackageError(".pyc found in stdlib: " + p)) else Pass
  }

  /** `no_pyc_in_stdlib`: outside python, scons and conda-build, every
      `.pyc` file lies under `site-packages`. */
  function NoPycInStdlib(pc: PackageCheck): (r: Status)
    ensures r == Pass <==> (pc.name in {"python", "scons", "conda-build"}
                            || forall p | p in Paths(pc.members) :: EndsWith(p, ".pyc") ==> Contains(p, "site-packages"))
  {
    if pc.name in {"python", "scons", "conda-build"} then Pass
    else Each(IterPaths(pc.members), StdlibPycRule, 0)
  }

  function PickleRule(p: string): Status {
    if Contains(p, "lib2to3") && EndsWith(p, ".pickle") then Err(PackageError("found lib2to3 .pickle: " + p)) else Pass
  }

  /** `no_2to3_pickle`: outside python, no `.pickle` file of `lib2to3`. */
  function No2to3Pickle(pc: PackageCheck): (r: Status)
    ensures r == Pass <==> (pc.name == "python"
                            || forall p | p in Paths(pc.members) :: !(Contains(p, "lib2to3") && EndsWith(p, ".pickle")))
  {
    if pc.name == "python" then Pass
    else Each(IterPaths(pc.members), PickleRule, 0)
  }

  // ---------------------------------------------------------------------
  // The warning rules: the lines they print, in walk order
  // ---------------------------------------------------------------------

  function Prefixed(prefix: string, ss: seq<string>): (r: seq<string>)
    ensures |r| == |ss| && forall i | 0 <= i < |ss| :: r[i] == prefix + ss[i]
  {
    if |ss| == 0 then [] else [prefix + ss[0]] + Prefixed(prefix, ss[1..])
  }

  const LinkScripts: seq<string> :=
    ["-post-link.sh", "-pre-link.sh", "-pre-unlink.sh", "-post-link.bat", "-pre-link.bat", "-pre-unlink.bat"]

  predicate LinkScript(p: string) { EndsWithAny(p, LinkScripts) }

  /** `warn_post_link`: one warning per link script. */
  function WarnPostLink(pc: PackageCheck): (ws: seq<string>)
    ensures forall p :: "WARNING: " + p in ws <==> p in Paths(pc.members) && LinkScript(p)
  {
    var scripts := Filter(IterPaths(pc.members), LinkScript);
    var ws := Prefixed("WARNING: ", scripts);
    PrefixedMembers("WARNING: ", scripts);
    ws
  }

  /** A prefixed line names exactly one element. */
  lemma PrefixedMembers(prefix: string, ss: seq<string>)
    ensures forall p :: prefix + p in Prefixed(prefix, ss) <==> p in ss
  {
    forall p ensures prefix + p in Prefixed(prefix, ss) <==> p in ss {
      if prefix + p in Prefixed(prefix, ss) {
        var i :| 0 <= i < |ss| && Prefixed(prefix, ss)[i] == prefix + p;
        assert (prefix + p)[|prefix|..] == p && (prefix + ss[i])[|prefix|..] == ss[i];
      }
      if p in ss {
        var i :| 0 <= i < |ss| && ss[i] == p;
        assert Prefixed(prefix, ss)[i] == prefix + p;
      }
    }
  }

  predicate PyoFile(p: string) { EndsWith(p, ".pyo") }

  /** `warn_pyo`: outside python, one warning per `.pyo` file. */
  function WarnPyo(pc: PackageCheck): (ws: seq<string>)
    ensures pc.name == "python" ==> ws == []
    ensures pc.name != "python" ==>
      forall p :: "WARNING: .pyo file: " + p in ws <==> p in Paths(pc.members) && PyoFile(p)
  {
    if pc.name == "python" then []
    else
      var pyos := Filter(IterPaths(pc.members), PyoFile);
      PrefixedMembers("WARNING: .pyo file: ", pyos);
      Prefixed("WARNING: .pyo file: ", pyos)
  }

  /** The root of an extension module: `p` without its `.so` or `.pyd`. */
  function ExtensionRoot(p: string): (r: Option<string>)
    ensures r.Some? <==> EndsWith(p, ".so") || EndsWith(p, ".pyd")
    ensures r.Some? ==> p == r.value + ".so" || p == r.value + ".pyd"
  {
    if EndsWith(p, ".so") then
      assert p == p[..|p| - 3] + ".so";
      Some(p[..|p| - 3])
    else if EndsWith(p, ".pyd") then
      assert p == p[..|p| - 4] + ".pyd";
      Some(p[..|p| - 4])
    else None
  }

  /** `"WARNING: %s next to: %s" % (ext, p)` */
  function NextToWarning(ext: string, p: string): string {
    "WARNING: " + ext + " next to: " + p
  }

  /** The warnings `no_py_next_so` prints for one path, `.py` first. */
  function NextToWarnings(paths: set<string>, p: string): (ws: seq<string>)
    ensures forall w | w in ws :: exists ext | ext in [".py", ".pyc"] :: w == NextToWarning(ext, p)
    ensures forall ext | ext in [".py", ".pyc"] ::
      NextToWarning(ext, p) in ws <==> ExtensionRoot(p).Some? && ExtensionRoot(p).value + ext in paths
  {
    match ExtensionRoot(p)
    case None => []
    case Some(root) =>
      WarningsDiffer(p);
      var py := root + ".py" in paths;
      var pyc := root + ".pyc" in paths;
      if py && pyc then [NextToWarning(".py", p), NextToWarning(".pyc", p)]
      else if py then [NextToWarning(".py", p)]
      else if pyc then [NextToWarning(".pyc", p)]
      else []
  }

  lemma WarningsDiffer(p: string)
    ensures NextToWarning(".py", p) != NextToWarning(".pyc", p)
  {
    assert NextToWarning(".py", p)[12] == ' ' && NextToWarning(".pyc", p)[12] == 'c';
  }

  /** A warning names one extension and one path. */
  lemma NextToWarningInjective(e1: string, p: string, e2: string, q: string)
    requires e1 in [".py", ".pyc"] && e2 in [".py", ".pyc"]
    requires NextToWarning(e1, p) == NextToWarning(e2, q)
    ensures e1 == e2 && p == q
  {
    var w := NextToWarning(e1, p);
    if e1 != e2 {
      assert w[12] == NextToWarning(".py", p)[12] || w[12] == NextToWarning(".pyc", p)[12];
      assert NextToWarning(".py", q)[12] == ' ' && NextToWarning(".pyc", p)[12] == 'c';
      assert NextToWarning(".py", p)[12] == ' ' && NextToWarning(".pyc", q)[12] == 'c';
    }
    var n := |"WARNING: "| + |e1| + |" next to: "|;
    assert w[n..] == p && NextToWarning(e2, q)[n..] == q;
  }

  function NextToAll(paths: set<string>, ps: seq<string>): seq<string> {
    if |ps| == 0 then [] else NextToWarnings(paths, ps[0]) + NextToAll(paths, ps[1..])
  }

  /** `no_py_next_so`: the warnings for every path, in walk order. */
  function NoPyNextSo(pc: PackageCheck): (ws: seq<string>) {
    NextToAll(Paths(pc.members), IterPaths(pc.members))
  }

  lemma {:induction false} NextToAllMembers(paths: set<string>, ps: seq<string>, ext: string, p: string)
    requires ext in [".py", ".pyc"]
    ensures NextToWarning(ext, p) in NextToAll(paths, ps) <==>
      p in ps && ExtensionRoot(p).Some? && ExtensionRoot(p).value + ext in paths
  {
    if |ps| > 0 {
      NextToAllMembers(paths, ps[1..], ext, p);
      var w := NextToWarning(ext, p);
      var q := ps[0];
      assert w in NextToAll(paths, ps) <==> w in NextToWarnings(paths, q) || w in NextToAll(paths, ps[1..]);
      if w in NextToWarnings(paths, q) {
        var e :| e in [".py", ".pyc"] && w == NextToWarning(e, q);
        NextToWarningInjective(ext, p, e, q);
      }
      assert p in ps <==> p == q || p in ps[1..];
    }
  }

  /** `no_py_next_so` warns about exactly the extension modules with a
      `.py` or `.pyc` of the same root. */
  lemma NoPyNextSoWarns(pc: PackageCheck, ext: string, p: string)
    requires ext in [".py", ".pyc"]
    ensures NextToWarning(ext, p) in NoPyNextSo(pc) <==>
      p in Paths(pc.members) && ExtensionRoot(p).Some? && ExtensionRoot(p).value + ext in Paths(pc.members)
  {
    NextToAllMembers(Paths(pc.members), IterPaths(pc.members), ext, p);
  }

  /** A `.py` file under `site-packages` (outside `port_v3`) without its
      compiled `.pyc`. */
  predicate PycMissing(paths: set<string>, p: string) {
    Contains(p, "/site-packages/") && !Contains(p, "/port_v3/") && EndsWith(p, ".py") && p + "c" !in paths
  }

  function PycMissingStep(paths: set<string>): string -> bool {
    p => PycMissing(paths, p)
  }

  /** `pyc_files`: nothing for a `py3` build; otherwise one warning per
      `.py` file without its `.pyc`, only the first unless verbose. */
  function PycFiles(pc: PackageCheck): (ws: seq<string>)
    ensures Contains(pc.build, "py3") ==> ws == []
    ensures !pc.verbose ==> |ws| <= 1
    ensures forall w | w in ws :: exists p | p in Paths(pc.members) && PycMissing(Paths(pc.members), p) ::
      w == "WARNING: pyc missing for: " + p
    ensures !Contains(pc.build, "py3") && (exists p | p in Paths(pc.members) :: PycMissing(Paths(pc.members), p)) ==>
      |ws| >= 1
  {
    if Contains(pc.build, "py3") then []
    else
      var missing := Filter(IterPaths(pc.members), PycMissingStep(Paths(pc.members)));
      var all := Prefixed("WARNING: pyc missing for: ", missing);
      var ws := if pc.verbose || |all| == 0 then all else all[..1];
      forall w | w in ws
        ensures exists p | p in Paths(pc.members) && PycMissing(Paths(pc.members), p) :: w == "WARNING: pyc missing for: " + p
      {
        var i :| 0 <= i < |ws| && ws[i] == w;
        assert all[i] == w;
        assert missing[i] in missing;
      }
      ws
  }

  // ---------------------------------------------------------------------
  // menu_names
  // ---------------------------------------------------------------------

  predicate MenuJson(p: string) { StartsWith(p, "Menu/") && EndsWith(p, ".json") }

  /** What `menu_names` decides once the json files under `Menu/` are listed. */
  function MenuRule(pc: PackageCheck, files: seq<string>): (r: Status)
    requires forall f | f in files :: MenuJson(f)
    ensures r == Pass <==> |files| == 0 || files == ["Menu/" + pc.name + ".json"]
  {
    if |files| == 0 then Pass
    else if |files| == 1 then
      var f := files[0];
      assert f in files && files == [f];
      assert MenuJson(f);
      MenuFileName(f, pc.name + ".json");
      var fn := f[5..];
      assert "Menu/" + (pc.name + ".json") == "Menu/" + pc.name + ".json";
      if fn != pc.name + ".json" then Err(PackageError("wrong Menu json file name: " + fn))
      else Pass
    else Err(PackageError("too many Menu json files: " + ListRepr(files)))
  }

  lemma MenuFileName(f: string, fn: string)
    requires StartsWith(f, "Menu/")
    ensures f[5..] == fn <==> f == "Menu/" + fn
  {
    assert f == f[..5] + f[5..];
    assert ("Menu/" + fn)[5..] == fn;
  }

  /** `menu_names(pedantic)`: only when pedantic, at most one Menu json
      file, named after the package. */
  method MenuNames(pc: PackageCheck, pedantic: bool) returns (r: Status)
    ensures !pedantic ==> r == Pass
    ensures pedantic ==> r == MenuRule(pc, Filter(IterPaths(pc.members), MenuJson))
  {
    if !pedantic {
      return Pass;
    }
    var ps := IterPaths(pc.members);
    var menuJsonFiles: seq<string> := [];
    var i := 0;
    while i < |ps|
      invariant 0 <= i <= |ps|
      invariant menuJsonFiles == Filter(ps[..i], MenuJson)
    {
      FilterStep(ps, MenuJson, i);
      if MenuJson(ps[i]) {
        menuJsonFiles := menuJsonFiles + [ps[i]];
      }
      i := i + 1;
    }
    assert ps[..i] == ps;
    r := MenuRule(pc, menuJsonFiles);
  }

  /** A single Menu json file named after the package passes here, which
      the later checker's C1142 rule refuses. */
  lemma OwnMenuFilePasses(pc: PackageCheck)
    requires Filter(IterPaths(pc.members), MenuJson) == ["Menu/" + pc.name + ".json"]
    ensures MenuRule(pc, Filter(IterPaths(pc.members), MenuJson)) == Pass
  {
  }

  // ---------------------------------------------------------------------
  // check_windows_arch
  // ---------------------------------------------------------------------

  const ArchExempt: seq<string> :=
    ["python", "conda-build", "pip", "xlwings", "phantomjs", "qt", "graphviz", "nsis", "swig"]

  /** The object type each architecture demands. */
  function ExpectedType(arch: Value): string {
    if arch == Str("x86") then "DLL I386" else "DLL AMD64"
  }

  predicate Binary(m: Member) { EndsWithAny(Lower(m.path), [".exe", ".dll"]) }

  /** The object type of the first 4096 bytes of a member, by the
      `get_object_type` that this file imports from `conda_verify.utils`. */
  function ObjectTypeOf(pc: PackageCheck, m: Member): Res<Option<string>> {
    var data :- Extract(pc.members, m.path);
    Utils.GetObjectType(ReadAtMost(data, 4096))
  }

  function TypeName(tp: Option<string>): string {
    if tp.Some? then tp.value else "None"
  }

  function ArchRule(pc: PackageCheck, arch: Value, m: Member): (r: Status)
    requires arch == Str("x86") || arch == Str("x86_64")
    ensures r == Pass <==> !Binary(m) || ObjectTypeOf(pc, m) == Ok(Some(ExpectedType(arch)))
  {
    if !Binary(m) then Pass
    else
      var tp :- ObjectTypeOf(pc, m);
      if tp != Some(ExpectedType(arch)) then
        Err(PackageError("File " + m.path + " has object type " + TypeName(tp)
                         + ", but info/index.json arch is " + PyStr(arch)))
      else Pass
  }

  function ArchStep(pc: PackageCheck, arch: Value): Member -> Status
    requires arch == Str("x86") || arch == Str("x86_64")
  {
    m => ArchRule(pc, arch, m)
  }

  /** `check_windows_arch`: for a `win` package outside the nine exempt
      names, `arch` is `x86` or `x86_64` and every `.exe` and `.dll` sniffs
      as that architecture's DLL type. */
  function CheckWindowsArch(pc: PackageCheck): (r: Status)
    ensures pc.name in ArchExempt || !pc.winPkg ==> r == Pass
    ensures pc.name !in ArchExempt && pc.winPkg ==>
      var arch := InfoGet(pc, "arch", Null);
      (r == Pass <==> "arch" in Keys(pc.info) && (arch == Str("x86") || arch == Str("x86_64"))
                      && forall i | 0 <= i < |pc.members| ::
                           !Binary(pc.members[i]) || ObjectTypeOf(pc, pc.members[i]) == Ok(Some(ExpectedType(arch))))
  {
    if pc.name in ArchExempt || !pc.winPkg then Pass
    else
      var arch :- Index(Dict(pc.info), "arch");
      if arch != Str("x86") && arch != Str("x86_64") then
        Err(PackageError("Unrecognized Windows architecture: " + PyStr(arch)))
      else
        var r := Each(pc.members, ArchStep(pc, arch), 0);
        assert forall i | 0 <= i < |pc.members| :: ArchStep(pc, arch)(pc.members[i]) == ArchRule(pc, arch, pc.members[i]);
        r
  }

  /** Under Python 3 `get_object_type` never names a PE image, so a `win`
      package outside the exempt names that holds any `.exe` or `.dll`
      never passes `check_windows_arch`. */
  lemma WindowsBinaryNeverPasses(pc: PackageCheck, i: nat)
    requires pc.name !in ArchExempt && pc.winPkg
    requires i < |pc.members| && Binary(pc.members[i])
    ensures CheckWindowsArch(pc) != Pass
  {
    var m := pc.members[i];
    var data := Extract(pc.members, m.path);
    if data.Ok? {
      Utils.NeverPe(ReadAtMost(data.value, 4096));
    }
    assert ObjectTypeOf(pc, m) != Ok(Some("DLL I386")) && ObjectTypeOf(pc, m) != Ok(Some("DLL AMD64"));
  }

  // ---------------------------------------------------------------------
  // get_sp_location and list_packages
  // ---------------------------------------------------------------------

  /** `self.info['depends']`, iterated. */
  function Depends(pc: PackageCheck): Res<seq<Value>> {
    var d :- Index(Dict(pc.info), "depends");
    Iter(d)
  }

  const NotPython := "<not a Python package>"

  /** `get_sp_location`: where a Python package keeps its modules, by the
      first `python` dependency that names a version. */
  method GetSpLocation(pc: PackageCheck) returns (r: Res<string>)
    ensures Depends(pc).Err? ==> r == Err(Depends(pc).exc)
    ensures Depends(pc).Ok? ==> r.Ok?
    ensures Depends(pc).Ok? ==>
      var specs := Depends(pc).value;
      (r.value == NotPython <==> forall i | 0 <= i < |specs| :: Common.PythonVersionOf(specs[i]).None?)
    ensures Depends(pc).Ok? && r.value != NotPython ==>
      var specs := Depends(pc).value;
      exists i | 0 <= i < |specs| ::
        Common.PythonVersionOf(specs[i]).Some?
        && (forall k | 0 <= k < i :: Common.PythonVersionOf(specs[k]).None?)
        && r.value == if pc.winPkg then "Lib/site-packages"
                      else "lib/python" + Common.PythonVersionOf(specs[i]).value + "/site-packages"
  {
    var specs := Depends(pc);
    if specs.Err? {
      return Err(specs.exc);
    }
    var pyVer := Common.GetPythonVersionSpecs(specs.value);
    if pyVer.None? {
      return Ok(NotPython);
    }
    if pc.winPkg {
      return Ok("Lib/site-packages");
    }
    return Ok("lib/python" + pyVer.value + "/site-packages");
  }

  const SitePackagesDir := "site-packages/"

  /** The end of the run of characters other than `/` that starts at `j`. */
  function SegmentEnd(p: string, j: nat): (k: nat)
    requires j <= |p|
    ensures j <= k <= |p| && (k == |p| || p[k] == '/')
    ensures forall i | j <= i < k :: p[i] != '/'
    decreases |p| - j
  {
    if j == |p| || p[j] == '/' then j else SegmentEnd(p, j + 1)
  }

  /** `re.search(r'site-packages/([^/]+)', p)` from position `i`: the first
      `site-packages/` followed by a character other than `/`, and the
      segment after it. */
  function PackageAt(p: string, i: nat): (r: Option<string>)
    ensures r.Some? ==> |r.value| > 0 && '/' !in r.value
    ensures !Contains(p, SitePackagesDir) ==> r.None?
    ensures r.Some? ==> exists j | i <= j && j + 14 < |p| ::
      OccursAt(p, SitePackagesDir, j) && p[j + 14] != '/' && r.value == p[j + 14..SegmentEnd(p, j + 14)]
    decreases |p| - i
  {
    if i + |SitePackagesDir| >= |p| then None
    else if OccursAt(p, SitePackagesDir, i) && p[i + 14] != '/' then
      var k := SegmentEnd(p, i + 14);
      var seg := p[i + 14..k];
      assert forall j | 0 <= j < |seg| :: seg[j] == p[i + 14 + j];
      Some(seg)
    else PackageAt(p, i + 1)
  }

  /** The top-level name added to `res` for one path, if any: names with a
      `-` and `.pyc` files are skipped. */
  function PackageOf(p: string): Option<string> {
    match PackageAt(p, 0)
    case None => None
    case Some(fn) => if '-' in fn || EndsWith(fn, ".pyc") then None else Some(fn)
  }

  /** The set `list_packages` collects over the paths in `ps`. */
  function Found(ps: seq<string>): (res: set<string>)
    ensures forall x :: x in res <==> exists p | p in ps :: PackageOf(p) == Some(x)
  {
    if |ps| == 0 then {}
    else
      var init := Found(ps[..|ps| - 1]);
      assert forall p :: p in ps <==> p in ps[..|ps| - 1] || p == ps[|ps| - 1];
      match PackageOf(ps[|ps| - 1])
      case None => init
      case Some(fn) => init + {fn}
  }

  const SetuptoolsNames: seq<string> := ["pkg_resources.py", "setuptools.pth", "easy_install.py", "setuptools"]

  /** The tests `list_packages` makes on the collected names: numpy and
      scipy belong only to themselves, and outside setuptools, distribute
      and python no setuptools module may appear. */
  function PackagesRule(pc: PackageCheck, res: set<string>): (r: Status)
    ensures r == Pass <==>
      (pc.name == "numpy" || "numpy" !in res) && (pc.name == "scipy" || "scipy" !in res)
      && (pc.name in ["setuptools", "distribute", "python"] || forall x | x in SetuptoolsNames :: x !in res)
  {
    if pc.name != "numpy" && "numpy" in res then Err(PackageError("found numpy"))
    else if pc.name != "scipy" && "scipy" in res then Err(PackageError("found scipy"))
    else if pc.name in ["setuptools", "distribute", "python"] then Pass
    else Each(SetuptoolsNames, x => if x in res then Err(PackageError("found " + x)) else Pass, 0)
  }

  /** `list_packages`: collect the top-level names under `site-packages`
      into a set (its location is only used for a warning), then apply
      `PackagesRule`. */
  method ListPackages(pc: PackageCheck) returns (r: Status)
    ensures Depends(pc).Err? ==> r == Err(Depends(pc).exc)
    ensures Depends(pc).Ok? ==> r == PackagesRule(pc, Found(IterPaths(pc.members)))
  {
    var spLocation := GetSpLocation(pc);
    if spLocation.Err? {
      return Err(spLocation.exc);
    }
    var ps := IterPaths(pc.members);
    var res: set<string> := {};
    var i := 0;
    while i < |ps|
      invariant 0 <= i <= |ps|
      invariant res == Found(ps[..i])
    {
      assert ps[..i + 1][..i] == ps[..i];
      var m := PackageOf(ps[i]);
      if m.Some? {
        res := res + {m.value};
      }
      i := i + 1;
    }
    assert ps[..i] == ps;
    r := PackagesRule(pc, res);
  }
}
