/** `conda_verify/checks.py`, class `CondaPackageCheck`: the package checks
    C1101 to C1147. Each check returns a diagnostic or nothing, and a few
    let a Python exception escape on malformed metadata; the result type
    `Res<Option<Diagnostic>>` holds all three outcomes. */
module PackageChecks {
  import opened Base
  import opened Text
  import opened Values
  import opened Patterns
  import opened Constants
  import opened Archive
  import opened Errors
  import Order
  import Utilities

  // ---------------------------------------------------------------------
  // Construction
  // ---------------------------------------------------------------------

  /** `os.path.splitext(name)[1]` of a base name: from the last `.`, when
      some character other than `.` comes before it; else empty. */
  function Extension(name: string): (ext: string)
    ensures ext == "" || (ext[0] == '.' && EndsWith(name, ext) && '.' !in ext[1..])
  {
    var d := LastIndexOf(name, '.');
    if d <= 0 then ""
    else if forall i | 0 <= i < d :: name[i] == '.' then ""
    else
      assert name[d..] == name[|name| - |name[d..]|..];
      name[d..]
  }

  /** `retrieve_package_name(path)`: a bad sequence anywhere in the base
      name is fatal before the extension is looked at; `.tar.bz2` and
      `.tar` are stripped, any other name is fatal. */
  function RetrievePackageName(path: string): (r: Res<string>)
    ensures Utilities.GetBadSeq(Basename(path)).Some? ==>
      r == Err(PackageError("Found invalid sequence \"" + Utilities.GetBadSeq(Basename(path)).value
                            + "\" in package in info/index.json"))
    ensures r.Ok? ==>
      Utilities.GetBadSeq(Basename(path)).None?
      && (Basename(path) == r.value + ".tar.bz2" || Basename(path) == r.value + ".tar")
    ensures r.Ok? ==> '/' !in r.value
    ensures (Utilities.GetBadSeq(Basename(path)).None? && !EndsWith(Basename(path), ".tar.bz2")
             && !EndsWith(Basename(path), ".tar")) ==>
      r == Err(PackageError("Found package with invalid extension \"" + Extension(Basename(path)) + "\""))
  {
    var name := Basename(path);
    match Utilities.GetBadSeq(name)
    case Some(bad) => Err(PackageError("Found invalid sequence \"" + bad + "\" in package in info/index.json"))
    case None =>
      if EndsWith(name, ".tar.bz2") then
        assert name == name[..|name| - 8] + ".tar.bz2";
        assert forall i | 0 <= i < |name| - 8 :: name[..|name| - 8][i] == name[i];
        Ok(name[..|name| - 8])
      else if EndsWith(name, ".tar") then
        assert name == name[..|name| - 4] + ".tar";
        assert forall i | 0 <= i < |name| - 4 :: name[..|name| - 4][i] == name[i];
        Ok(name[..|name| - 4])
      else Err(PackageError("Found package with invalid extension \"" + Extension(name) + "\""))
  }

  lemma BasenameAfterSlash(dir: string, name: string)
    requires '/' !in name
    ensures Basename(dir + "/" + name) == name
  {
    var p := dir + "/" + name;
    var j := LastIndexOf(p, '/');
    assert p[|dir|] == '/';
    assert forall k | |dir| < k < |p| :: p[k] == name[k - |dir| - 1];
    assert j == |dir|;
    assert p[j + 1..] == name;
  }

  /** The name of a `.tar.bz2` archive comes back from its path whenever the
      file name holds no bad sequence. */
  lemma RetrieveRoundTrip(dir: string, dist: string)
    requires '/' !in dist
    requires Utilities.GetBadSeq(dist + ".tar.bz2").None?
    ensures RetrievePackageName(dir + "/" + dist + ".tar.bz2") == Ok(dist)
  {
    var name := dist + ".tar.bz2";
    assert '/' !in name by {
      assert forall i | 0 <= i < |name| :: name[i] == if i < |dist| then dist[i] else ".tar.bz2"[i - |dist|];
    }
    assert dir + "/" + dist + ".tar.bz2" == dir + "/" + name;
    BasenameAfterSlash(dir, name);
    assert EndsWith(name, ".tar.bz2");
    assert name[..|name| - 8] == dist;
  }

  /** The fields `__init__` fills from the archive; `paths` is the set of
      member paths, `Paths(members)`. */
  datatype PackageCheck = PackageCheck(
    path: string, dist: string, name: string, version: string, build: string,
    members: seq<Member>, index: seq<byte>, info: seq<(string, Value)>,
    filesFile: seq<byte>, pathsFile: seq<byte>, winPkg: bool)

  /** `CondaPackageCheck(path)` over the archive's members; `json` stands
      for `json.loads(data.decode('utf-8'))`. The file name must split into
      name, version and build (`rsplit('-', 2)`), the three sidecar files
      must exist, and `info['platform']` must be present. */
  function Open(path: string, members: seq<Member>, json: seq<byte> -> Res<Value>): (r: Res<PackageCheck>)
    ensures RetrievePackageName(path).Err? ==> r == Err(RetrievePackageName(path).exc)
    ensures RetrievePackageName(path).Ok? && RSplit3(RetrievePackageName(path).value, '-').None3? ==>
      r == Err(ValueError)
    ensures r.Ok? ==>
      var pc := r.value;
      RetrievePackageName(path) == Ok(pc.dist) && pc.path == path && pc.members == members
      && pc.dist == pc.name + "-" + pc.version + "-" + pc.build
      && '-' !in pc.version && '-' !in pc.build && '/' !in pc.name
      && Extract(members, "info/index.json") == Ok(pc.index)
      && json(pc.index) == Ok(Dict(pc.info))
      && Extract(members, "info/files") == Ok(pc.filesFile)
      && Extract(members, "info/paths.json") == Ok(pc.pathsFile)
      && "platform" in Keys(pc.info)
      && (pc.winPkg <==> Lookup(pc.info, "platform") == Some(Str("win")))
    ensures ("info/index.json" !in Paths(members) && RetrievePackageName(path).Ok?
             && RSplit3(RetrievePackageName(path).value, '-').Some3?) ==> r == Err(KeyError("info/index.json"))
  {
    var dist :- RetrievePackageName(path);
    match RSplit3(dist, '-')
    case None3 => Err(ValueError)
    case Some3(name, version, build) =>
      assert dist == name + "-" + version + "-" + build;
      assert forall i | 0 <= i < |name| :: name[i] == dist[i];
      var index :- Extract(members, "info/index.json");
      var info :- json(index);
      var files :- Extract(members, "info/files");
      var pathsFile :- Extract(members, "info/paths.json");
      if !info.Dict? then Err(TypeError)
      else
        var platform :- Index(info, "platform");
        Ok(PackageCheck(path, dist, name, version, build, members, index, info.entries,
                        files, pathsFile, platform == Str("win")))
  }

  /** `self.info.get(key)` */
  function InfoGet(pc: PackageCheck, key: string): (v: Value)
    ensures key !in Keys(pc.info) ==> v == Null
    ensures key in Keys(pc.info) ==> Lookup(pc.info, key) == Some(v)
  {
    match Lookup(pc.info, key)
    case Some(v) => v
    case None => Null
  }

  function Diag(pc: PackageCheck, code: string, message: string): Diagnostic {
    Diagnostic(pc.path, code, message)
  }

  // ---------------------------------------------------------------------
  // Messages (the templates of the `Error(...)` calls)
  // ---------------------------------------------------------------------

  const MsgC1101 := "Missing package name in info/index.json"
  const MsgC1102 := "Found package name in info/index.json \"{}\" does not match filename \"{}\""
  const MsgC1103 := "Found invalid package name in info/index.json"
  const MsgC1104 := "Missing package version in info/index.json"
  const MsgC1105 := "Found invalid version number in info/index.json"
  const MsgC1106 := "Found package version in info/index.json \"{}\" does not match filename version \"{}\""
  const MsgC1107 := "Package version in info/index.json cannot start or end with '_' or '.'"
  const MsgC1108 := "Build number in info/index.json must be an integer"
  const MsgC1109 := "Build number in info/index.json cannot be a negative integer"
  const MsgC1110 := "Found invalid build string \"{}\" in info/index.json"
  const MsgC1111 := "Found build number in info/index.json \"{}\" does not match build number \"{}\" in filename"
  const MsgC1112 := "Missing \"depends\" field in info/index.json"
  const MsgC1113 := "Found empty dependencies in info/index.json"
  const MsgC1114 := "Found invalid dependency \"{}\" in info/index.json"
  const MsgC1115 := "Found invalid license \"{}\" in info/index.json"
  const MsgC1116 := "Found non-ascii characters inside info/index.json"
  const MsgC1117 := "Found duplicate members inside tar archive"
  const MsgC1118 := "Found archive member names containing non-ascii characters"
  const MsgC1119 := "Found filenames in info/files containing non-ascii characters"
  const MsgC1120 := "Found filenames in info/files that start with \"info\""
  const MsgC1121 := "Found duplicate filenames in info/files"
  const MsgC1122 := "Found filename in info/files missing from tar archive: {}"
  const MsgC1123 := "Found filename in tar archive missing from info/files: {}"
  const MsgC1124 := "Found hardlink {} in tar archive"
  const MsgC1125 := "Found unallowed file in tar archive: {}"
  const MsgC1126 := "Found {} however package is not a noarch package"
  const MsgC1127 := "Found both .bat and .exe files in executable directory"
  const MsgC1128 := "Found non-ascii characters in info/has_prefix"
  const MsgC1129 := "Found filename \"{}\" in info/has_prefix not included in archive"
  const MsgC1130 := "Found invalid mode \"{}\" in info/has_prefix"
  const MsgC1131 := "Binary placeholder found in info/has_prefix not allowed when building Python"
  const MsgC1132 := "Binary placeholder found in info/has_prefix not allowed in Windows package"
  const MsgC1133 := "Binary placeholder \"{}\" found in info/has_prefix does not have a length of 255 bytes"
  const MsgC1134 := "Found pre/post link file \"{}\" in archive"
  const MsgC1135 := "Found egg file \"{}\" in archive"
  const MsgC1136 := "Found easy_install script \"{}\" in archive"
  const MsgC1137 := "Found namespace file \"{}\" in archive"
  const MsgC1138 := "Found pyo file \"{}\" in archive"
  const MsgC1139 := "Found pyc file \"{}\" in invalid directory"
  const MsgC1140 := "Found lib2to3 .pickle file \"{}\""
  const MsgC1141 := "Found python file \"{}\" without a corresponding pyc file"
  const MsgC1142 := "Found invalid Menu json file \"{}\""
  const MsgC1143 := "Found more than one Menu json file"
  const MsgC1144 := "Found unrecognized Windows architecture \"{}\""
  const MsgC1145 := "Found file \"{}\" with object type \"{}\" but with arch \"{}\""
  const MsgC1146 := "Found file \"{}\" with sha256 hash different than listed in paths.json"
  const MsgC1147 := "Found file \"{}\" with filesize different than listed in paths.json"

  // ---------------------------------------------------------------------
  // info/index.json: name, version, build number, build string
  // ---------------------------------------------------------------------

  /** `check_package_name` (C1101, C1103, C1102, in that order), on the
      value `n` of `info.get('name')`; `re.match` of a value that is not a
      string raises `TypeError`. */
  function NameRule(pc: PackageCheck, n: Value): (r: Outcome)
    ensures n == Null ==> r == Ok(Some(Diag(pc, "C1101", MsgC1101)))
    ensures r.Err? <==> n != Null && !n.Str?
    ensures r == Ok(None) <==> n.Str? && NameMatch(n.s) && !TrailingSeparator(n.s) && n.s == pc.name
    ensures Reports(r, "C1103") <==> n.Str? && (!NameMatch(n.s) || TrailingSeparator(n.s))
    ensures Reports(r, "C1102") ==>
      NameMatch(n.s) && n.s != pc.name && r.value.value.message == Format(MsgC1102, [n.s, pc.name])
  {
    if n.Null? then Ok(Some(Diag(pc, "C1101", MsgC1101)))
    else if !n.Str? then Err(TypeError)
    else if !NameMatch(n.s) || TrailingSeparator(n.s) then Ok(Some(Diag(pc, "C1103", MsgC1103)))
    else if n.s != pc.name then Ok(Some(Diag(pc, "C1102", Format(MsgC1102, [n.s, pc.name]))))
    else Ok(None)
  }

  /** `check_package_name` on the stored `info.get('name')`: silent exactly
      when the stored name is a well-formed string equal to the archive's name. */
  function CheckPackageName(pc: PackageCheck): (r: Outcome)
    ensures "name" !in Keys(pc.info) ==> r == Ok(Some(Diag(pc, "C1101", MsgC1101)))
    ensures r == Ok(None) <==>
      InfoGet(pc, "name") == Str(pc.name) && NameMatch(pc.name) && !TrailingSeparator(pc.name)
  {
    NameRule(pc, InfoGet(pc, "name"))
  }

  /** `check_package_version` (C1104, C1107, C1105, C1106, in that order),
      on `v == str(info.get('version'))`: a missing version reads `None`. */
  function VersionRule(pc: PackageCheck, v: string): (r: Option<Diagnostic>)
    ensures v == "None" ==> r == Some(Diag(pc, "C1104", MsgC1104))
    ensures r.None? <==>
      v != "None" && !EdgeSeparator(v) && VersionMatch(v) && Utilities.GetBadSeq(v).None? && v == pc.version
    ensures r.Some? && r.value.code == "C1105" ==>
      !EdgeSeparator(v) && (!VersionMatch(v) || Utilities.GetBadSeq(v).Some?)
    ensures r.Some? && r.value.code == "C1106" ==> VersionMatch(v) && v != pc.version
  {
    if v == "None" then Some(Diag(pc, "C1104", MsgC1104))
    else if EdgeSeparator(v) then Some(Diag(pc, "C1107", MsgC1107))
    else if !VersionMatch(v) || Utilities.GetBadSeq(v).Some? then Some(Diag(pc, "C1105", MsgC1105))
    else if v != pc.version then Some(Diag(pc, "C1106", Format(MsgC1106, [v, pc.version])))
    else None
  }

  /** `check_package_version` on `str(info.get('version'))`: a missing
      version is C1104, and the check is silent exactly when the string form
      is a well-formed version equal to the archive's version. */
  function CheckPackageVersion(pc: PackageCheck): (r: Option<Diagnostic>)
    ensures "version" !in Keys(pc.info) ==> r == Some(Diag(pc, "C1104", MsgC1104))
    ensures r.None? <==>
      var v := PyStr(InfoGet(pc, "version"));
      v != "None" && !EdgeSeparator(v) && VersionMatch(v) && Utilities.GetBadSeq(v).None? && v == pc.version
  {
    VersionRule(pc, PyStr(InfoGet(pc, "version")))
  }

  /** `check_build_number` once `int()` has run: a `ValueError` is C1108,
      any other exception escapes, a negative number is C1109. */
  function BuildNumberOutcome(pc: PackageCheck, n: Res<int>): (r: Outcome)
    ensures n.Ok? ==> (r == Ok(None) <==> n.value >= 0)
    ensures n.Ok? && n.value < 0 ==> r == Ok(Some(Diag(pc, "C1109", MsgC1109)))
    ensures n == Err(ValueError) ==> r == Ok(Some(Diag(pc, "C1108", MsgC1108)))
    ensures n.Err? && n.exc != ValueError ==> r == Err(n.exc)
  {
    if n.Err? then
      if n.exc == ValueError then Ok(Some(Diag(pc, "C1108", MsgC1108))) else Err(n.exc)
    else if n.value < 0 then Ok(Some(Diag(pc, "C1109", MsgC1109)))
    else Ok(None)
  }

  /** `check_build_number` (C1108, C1109): `int()` of `info['build_number']`
      when it is set. */
  function CheckBuildNumber(pc: PackageCheck): (r: Outcome)
    ensures "build_number" !in Keys(pc.info) ==> r == Ok(None)
    ensures r == Ok(None) <==>
      InfoGet(pc, "build_number").Null? || (PyInt(InfoGet(pc, "build_number")).Ok? && PyInt(InfoGet(pc, "build_number")).value >= 0)
  {
    var bn := InfoGet(pc, "build_number");
    if bn.Null? then Ok(None) else BuildNumberOutcome(pc, PyInt(bn))
  }

  /** By the kind of value stored: a string `int()` refuses is C1108,
      while `int()` of a list or a dict raises `TypeError`, which the check
      does not catch. */
  lemma BuildNumberCases(pc: PackageCheck, bn: Value)
    requires InfoGet(pc, "build_number") == bn
    ensures bn.Null? ==> CheckBuildNumber(pc) == Ok(None)
    ensures IsInt(bn) ==> (CheckBuildNumber(pc) == Ok(None) <==> IntOf(bn) >= 0)
    ensures bn.Str? ==> (Reports(CheckBuildNumber(pc), "C1108") <==> ParseInt(bn.s).Err?)
    ensures bn.List? || bn.Dict? ==> CheckBuildNumber(pc) == Err(TypeError)
  {
  }

  /** `check_build_string` (C1110, C1111) on `b == info.get('build')`.
      `re.match` of anything but a string raises `TypeError`. */
  function BuildStringRule(pc: PackageCheck, b: Value): (r: Outcome)
    ensures r.Err? <==> !b.Str?
    ensures r == Ok(None) <==> b.Str? && VersionMatch(b.s) && b.s == pc.build
    ensures Reports(r, "C1110") <==> b.Str? && !VersionMatch(b.s)
    ensures Reports(r, "C1111") ==> b.s != pc.build && r.value.value.message == Format(MsgC1111, [b.s, pc.build])
  {
    if !b.Str? then Err(TypeError)
    else if !VersionMatch(b.s) then Ok(Some(Diag(pc, "C1110", Format(MsgC1110, [b.s]))))
    else if b.s != pc.build then Ok(Some(Diag(pc, "C1111", Format(MsgC1111, [b.s, pc.build]))))
    else Ok(None)
  }

  /** `check_build_string` on `info.get('build')`: a missing build string
      raises `TypeError`; silent exactly when it is well formed and equal to
      the archive's build string. */
  function CheckBuildString(pc: PackageCheck): (r: Outcome)
    ensures "build" !in Keys(pc.info) ==> r == Err(TypeError)
    ensures r == Ok(None) <==> InfoGet(pc, "build") == Str(pc.build) && VersionMatch(pc.build)
  {
    BuildStringRule(pc, InfoGet(pc, "build"))
  }

  // ---------------------------------------------------------------------
  // info/index.json: dependencies, license, encoding
  // ---------------------------------------------------------------------

  /** `check_index_dependencies` (C1112): a missing or `null` field. */
  function CheckIndexDependencies(pc: PackageCheck): (r: Option<Diagnostic>)
    ensures r.None? <==> InfoGet(pc, "depends") != Null
    ensures r.Some? ==> r.value == Diag(pc, "C1112", MsgC1112)
  {
    if InfoGet(pc, "depends").Null? then Some(Diag(pc, "C1112", MsgC1112)) else None
  }

  /** The code one dependency spec earns: no tokens at all is C1113; two
      tokens whose second is no version spec, or more than three tokens,
      is C1114. */
  function DependencyCode(dep: string): (code: Option<string>)
    ensures code == Some("C1113") <==> AllSpace(dep)
    ensures code == Some("C1114") <==>
      (|Split(dep)| == 2 && !VerSpecFull(Split(dep)[1])) || |Split(dep)| > 3
    ensures code.Some? ==> code == Some("C1113") || code == Some("C1114")
    ensures |Split(dep)| == 1 || |Split(dep)| == 3 ==> code.None?
  {
    SplitParts(dep);
    var parts := Split(dep);
    if |parts| == 0 then Some("C1113")
    else if (|parts| == 2 && !VerSpecFull(parts[1])) || |parts| > 3 then Some("C1114")
    else None
  }

  /** One item of the loop: an item that is not a string has no `split`. */
  function DependencyOutcome(pc: PackageCheck, dep: Value): (r: Outcome)
    ensures r.Err? <==> !dep.Str?
    ensures r == Ok(None) <==> dep.Str? && DependencyCode(dep.s).None?
    ensures dep.Str? && DependencyCode(dep.s) == Some("C1114") ==>
      r == Ok(Some(Diag(pc, "C1114", Format(MsgC1114, [dep.s]))))
    ensures dep.Str? && DependencyCode(dep.s) == Some("C1113") ==> r == Ok(Some(Diag(pc, "C1113", MsgC1113)))
  {
    if !dep.Str? then Err(AttributeError)
    else match DependencyCode(dep.s)
      case Some(code) => Ok(Some(Diag(pc, code, if code == "C1113" then MsgC1113 else Format(MsgC1114, [dep.s]))))
      case None => Ok(None)
  }

  /** `check_index_dependencies_specs` (C1113, C1114). `ensure_list(None)`
      is `[None]`, which turns the check off; otherwise the first refused
      item, in list order, is reported. */
  function CheckIndexDependenciesSpecs(pc: PackageCheck): (r: Outcome)
    ensures Utilities.EnsureList(InfoGet(pc, "depends")) == [Null] ==> r == Ok(None)
    ensures Utilities.EnsureList(InfoGet(pc, "depends")) != [Null] ==>
      r == FirstOutcome(Utilities.EnsureList(InfoGet(pc, "depends")), d => DependencyOutcome(pc, d), 0)
  {
    var deps := Utilities.EnsureList(InfoGet(pc, "depends"));
    if deps == [Null] then Ok(None) else FirstOutcome(deps, d => DependencyOutcome(pc, d), 0)
  }

  /** A list of dependency strings passes exactly when no item is blank
      and none has the C1114 shape; a three-token item is never checked
      against the version-spec grammar. */
  lemma DependencySpecsPass(pc: PackageCheck, deps: seq<string>)
    requires InfoGet(pc, "depends") == List(StrValues(deps))
    ensures CheckIndexDependenciesSpecs(pc) == Ok(None) <==>
      forall k | 0 <= k < |deps| :: !AllSpace(deps[k]) && !(|Split(deps[k])| == 2 && !VerSpecFull(Split(deps[k])[1]))
                                    && |Split(deps[k])| <= 3
  {
    var items := StrValues(deps);
    assert |items| == |deps| && forall k | 0 <= k < |deps| :: items[k] == Str(deps[k]);
    var f := (d: Value) => DependencyOutcome(pc, d);
    assert CheckIndexDependenciesSpecs(pc) == FirstOutcome(items, f, 0);
    forall k | 0 <= k < |deps| ensures f(items[k]) == Ok(None) <==> DependencyCode(deps[k]).None? {
    }
  }

  /** `info.get('license_family', info.get('license'))` */
  function LicenseOf(pc: PackageCheck): (v: Value)
    ensures "license_family" in Keys(pc.info) ==> v == InfoGet(pc, "license_family")
    ensures "license_family" !in Keys(pc.info) ==> v == InfoGet(pc, "license")
  {
    if "license_family" in Keys(pc.info) then InfoGet(pc, "license_family") else InfoGet(pc, "license")
  }

  /** `check_license_family` (C1115): the license must be one of the known
      families; a bound `null` family is not replaced by `license`. */
  function CheckLicenseFamily(pc: PackageCheck): (r: Option<Diagnostic>)
    ensures r.None? <==> LicenseOf(pc).Str? && LicenseOf(pc).s in LicenseFamilies
    ensures r.Some? ==> r.value == Diag(pc, "C1115", Format(MsgC1115, [PyStr(LicenseOf(pc))]))
  {
    var lic := LicenseOf(pc);
    if InStrs(lic, LicenseFamilies) then None
    else Some(Diag(pc, "C1115", Format(MsgC1115, [PyStr(lic)])))
  }

  /** `check_index_encoding` (C1116): a Windows package may hold CR. */
  function CheckIndexEncoding(pc: PackageCheck): (r: Option<Diagnostic>)
    ensures r.None? <==> forall i | 0 <= i < |pc.index| :: Utilities.AsciiByte(pc.index[i], pc.winPkg)
    ensures r.Some? ==> r.value == Diag(pc, "C1116", MsgC1116)
  {
    if Utilities.IsAsciiText(pc.index, pc.winPkg) then None else Some(Diag(pc, "C1116", MsgC1116))
  }

  // ---------------------------------------------------------------------
  // Archive members and info/files
  // ---------------------------------------------------------------------

  /** `check_duplicate_members` (C1117): fewer distinct paths than members. */
  function CheckDuplicateMembers(pc: PackageCheck): (r: Option<Diagnostic>)
    ensures r.None? <==> forall i, j | 0 <= i < j < |pc.members| :: pc.members[i].path != pc.members[j].path
    ensures r.Some? ==> r.value == Diag(pc, "C1117", MsgC1117)
  {
    DuplicateMembers(pc.members);
    if |pc.members| != |Paths(pc.members)| then Some(Diag(pc, "C1117", MsgC1117)) else None
  }

  /** `check_members` (C1118): some member name is not ASCII. */
  function CheckMembers(pc: PackageCheck): (r: Option<Diagnostic>)
    ensures r.None? <==> forall i | 0 <= i < |pc.members| :: Utilities.IsAsciiPath(pc.members[i].path)
    ensures r.Some? ==> r.value == Diag(pc, "C1118", MsgC1118)
  {
    if forall i | 0 <= i < |pc.members| :: Utilities.IsAsciiPath(pc.members[i].path) then None
    else Some(Diag(pc, "C1118", MsgC1118))
  }

  /** `check_files_file_encoding` (C1119) */
  function CheckFilesFileEncoding(pc: PackageCheck): (r: Option<Diagnostic>)
    ensures r.None? <==> forall i | 0 <= i < |pc.filesFile| :: Utilities.AsciiByte(pc.filesFile[i], pc.winPkg)
    ensures r.Some? ==> r.value == Diag(pc, "C1119", MsgC1119)
  {
    if Utilities.IsAsciiText(pc.filesFile, pc.winPkg) then None else Some(Diag(pc, "C1119", MsgC1119))
  }

  /** `[line.strip() for line in lines]` */
  function StripAll(lines: seq<string>): (r: seq<string>)
    ensures |r| == |lines| && forall k | 0 <= k < |lines| :: r[k] == Strip(lines[k])
  {
    if |lines| == 0 then [] else [Strip(lines[0])] + StripAll(lines[1..])
  }

  /** The stripped lines of `info/files`. */
  function FileNames(pc: PackageCheck): seq<string> {
    StripAll(SplitLines(Decode(pc.filesFile)))
  }

  /** `check_files_file_for_info` (C1120): a listed name starts with `info`. */
  function CheckFilesFileForInfo(pc: PackageCheck): (r: Option<Diagnostic>)
    ensures r.None? <==> forall k | 0 <= k < |FileNames(pc)| :: !StartsWith(FileNames(pc)[k], "info")
    ensures r.Some? ==> r.value == Diag(pc, "C1120", MsgC1120)
  {
    var names := FileNames(pc);
    if exists k | 0 <= k < |names| :: StartsWith(names[k], "info") then Some(Diag(pc, "C1120", MsgC1120))
    else None
  }

  /** `check_files_file_for_duplicates` (C1121): the list is longer than its
      set, that is, some name is listed twice. */
  function CheckFilesFileForDuplicates(pc: PackageCheck): (r: Option<Diagnostic>)
    ensures r.None? <==> Distinct(FileNames(pc))
    ensures r.Some? ==> r.value == Diag(pc, "C1121", MsgC1121)
  {
    var names := FileNames(pc);
    DistinctCard(names);
    if |names| != |Elems(names)| then Some(Diag(pc, "C1121", MsgC1121)) else None
  }

  /** `members[i].path` names a member that is not a directory. */
  predicate FileMemberAt(members: seq<Member>, x: string, i: int) {
    0 <= i < |members| && members[i].path == x && !members[i].isDir
  }

  /** `[m.path for m in members[i:] if not m.isdir() and not m.path.startswith('info')]` */
  function MemberFilesFrom(members: seq<Member>, i: nat): (r: seq<string>)
    requires i <= |members|
    ensures forall x :: x in r <==> !StartsWith(x, "info") && exists k | i <= k :: FileMemberAt(members, x, k)
    decreases |members| - i
  {
    if i == |members| then []
    else
      var rest := MemberFilesFrom(members, i + 1);
      forall x | exists k | i <= k :: FileMemberAt(members, x, k)
        ensures FileMemberAt(members, x, i) || exists k | i + 1 <= k :: FileMemberAt(members, x, k)
      {
        var k :| i <= k && FileMemberAt(members, x, k);
        if k > i {
          assert i + 1 <= k;
        }
      }
      forall x | x in rest ensures exists k | i <= k :: FileMemberAt(members, x, k) {
        var k :| i + 1 <= k && FileMemberAt(members, x, k);
        assert i <= k;
      }
      if !members[i].isDir && !StartsWith(members[i].path, "info") then
        assert FileMemberAt(members, members[i].path, i);
        assert forall x :: x in [members[i].path] + rest <==> x == members[i].path || x in rest;
        [members[i].path] + rest
      else rest
  }

  function MemberFiles(members: seq<Member>): (r: seq<string>)
    ensures forall x :: x in r <==> !StartsWith(x, "info") && exists k | 0 <= k :: FileMemberAt(members, x, k)
  {
    MemberFilesFrom(members, 0)
  }

  /** The names listed in `info/files` outside `info`. */
  function ListedFiles(pc: PackageCheck): (r: seq<string>)
    ensures forall x :: x in r <==> x in FileNames(pc) && !StartsWith(x, "info")
  {
    Filter(FileNames(pc), x => !StartsWith(x, "info"))
  }

  /** The names in exactly one of `ms` and `fs`: the symmetric difference
      of the two sets, as a list. */
  function SymmetricDifference(ms: seq<string>, fs: seq<string>): (d: seq<string>)
    ensures forall x :: x in d <==> (x in ms <==> x !in fs)
  {
    var all := ms + fs;
    assert forall x :: x in all <==> x in ms || x in fs;
    Filter(all, x => !(x in ms && x in fs))
  }

  lemma EmptyDifference(ms: seq<string>, fs: seq<string>)
    ensures |SymmetricDifference(ms, fs)| == 0 <==> Elems(ms) == Elems(fs)
  {
    var d := SymmetricDifference(ms, fs);
    if |d| > 0 {
      assert d[0] in d;
      if d[0] in ms { assert d[0] !in Elems(fs); } else { assert d[0] in Elems(fs); }
    }
    if Elems(ms) != Elems(fs) {
      var x :| (x in Elems(ms) && x !in Elems(fs)) || (x !in Elems(ms) && x in Elems(fs));
      assert x in d;
    }
  }

  /** The message for a name in one list and not the other. */
  function ValidityDiag(pc: PackageCheck, members: seq<string>, p: string): Diagnostic {
    if p !in members then Diag(pc, "C1122", Format(MsgC1122, [p]))
    else Diag(pc, "C1123", Format(MsgC1123, [p]))
  }

  /** `check_files_file_for_validity` (C1122, C1123): walking the union of
      both name sets in sorted order, the first name missing from one side
      is reported; nothing is reported exactly when the sets are equal. */
  function CheckFilesFileForValidity(pc: PackageCheck): (r: Option<Diagnostic>)
    ensures r.None? <==> Elems(MemberFiles(pc.members)) == Elems(ListedFiles(pc))
    ensures r.Some? ==> exists p | p in SymmetricDifference(MemberFiles(pc.members), ListedFiles(pc)) ::
      r.value == ValidityDiag(pc, MemberFiles(pc.members), p)
      && forall q | q in SymmetricDifference(MemberFiles(pc.members), ListedFiles(pc)) :: Order.LessEq(p, q)
  {
    var ms := MemberFiles(pc.members);
    var fs := ListedFiles(pc);
    var diff := SymmetricDifference(ms, fs);
    EmptyDifference(ms, fs);
    if |diff| == 0 then None
    else
      Order.MinIsLeast(diff);
      Some(ValidityDiag(pc, ms, Order.Min(diff)))
  }

  /** The index of the first hard link from `i` on, or `|members|`. */
  function FirstLink(members: seq<Member>, i: nat): (k: nat)
    requires i <= |members|
    ensures i <= k <= |members|
    ensures k < |members| ==> members[k].isLink
    ensures forall j | i <= j < k :: !members[j].isLink
    decreases |members| - i
  {
    if i == |members| || members[i].isLink then i else FirstLink(members, i + 1)
  }

  /** `check_for_hardlinks` (C1124): the first hard link, in member order. */
  function CheckForHardlinks(pc: PackageCheck): (r: Option<Diagnostic>)
    ensures r.None? <==> forall i | 0 <= i < |pc.members| :: !pc.members[i].isLink
    ensures r.Some? ==> exists i | 0 <= i < |pc.members| ::
      pc.members[i].isLink && r.value == Diag(pc, "C1124", Format(MsgC1124, [pc.members[i].path]))
      && forall j | 0 <= j < i :: !pc.members[j].isLink
  {
    var k := FirstLink(pc.members, 0);
    if k == |pc.members| then None
    else Some(Diag(pc, "C1124", Format(MsgC1124, [pc.members[k].path])))
  }

  // ---------------------------------------------------------------------
  // Rules over the path set
  // ---------------------------------------------------------------------

  /** A rule that reports the first path, in walk order, that `bad` holds
      of, with that path as the message argument. */
  function PathRule(pc: PackageCheck, code: string, template: string, bad: string -> bool): (r: Option<Diagnostic>)
    ensures r.None? <==> forall p | p in Paths(pc.members) :: !bad(p)
    ensures r.Some? ==> exists p | p in Paths(pc.members) :: bad(p) && r.value == Diag(pc, code, Format(template, [p]))
  {
    match FindPath(pc.members, bad)
    case None => None
    case Some(p) => Some(Diag(pc, code, Format(template, [p])))
  }

  const UnallowedDirectories: set<string> := {"conda-meta", "conda-bld", "pkgs", "pkgs32", "envs"}

  predicate Unallowed(p: string) {
    p in UnallowedDirectories || EndsWith(p, ".DS_Store") || EndsWith(p, "~")
  }

  /** `check_for_unallowed_files` (C1125) */
  function CheckForUnallowedFiles(pc: PackageCheck): (r: Option<Diagnostic>)
    ensures r.None? <==> forall p | p in Paths(pc.members) :: !Unallowed(p)
    ensures r.Some? ==> exists p | p in Paths(pc.members) :: Unallowed(p) && r.value == Diag(pc, "C1125", Format(MsgC1125, [p]))
  {
    PathRule(pc, "C1125", MsgC1125, Unallowed)
  }

  predicate NoarchFile(p: string) {
    Contains(p, "info/package_metadata.json") || Contains(p, "info/link.json")
  }

  /** `check_for_noarch_info` (C1126): a noarch metadata file in a package
      that is not noarch and names no preferred environment. The first such
      file reads `info['subdir']`, which raises `KeyError` when absent. */
  function CheckForNoarchInfo(pc: PackageCheck): (r: Outcome)
    ensures (forall p | p in Paths(pc.members) :: !NoarchFile(p)) ==> r == Ok(None)
    ensures (exists p | p in Paths(pc.members) :: NoarchFile(p)) ==>
      (r.Err? <==> "subdir" !in Keys(pc.info))
      && (r.Err? ==> r.exc == KeyError("subdir"))
      && (Reports(r, "C1126") <==>
            "subdir" in Keys(pc.info) && InfoGet(pc, "subdir") != Str("noarch") && "preferred_env" !in Keys(pc.info))
    ensures Reports(r, "C1126") ==> exists p | p in Paths(pc.members) ::
      NoarchFile(p) && r.value.value == Diag(pc, "C1126", Format(MsgC1126, [p]))
    ensures r.Ok? && r.value.Some? ==> r.value.value.code == "C1126"
  {
    match FindPath(pc.members, NoarchFile)
    case None => Ok(None)
    case Some(p) =>
      var subdir :- Index(Dict(pc.info), "subdir");
      if subdir != Str("noarch") && "preferred_env" !in Keys(pc.info) then
        Ok(Some(Diag(pc, "C1126", Format(MsgC1126, [p]))))
      else Ok(None)
  }

  /** `check_for_bat_and_exe` (C1127) */
  function CheckForBatAndExe(pc: PackageCheck): (r: Option<Diagnostic>)
    ensures r.Some? <==>
      (exists p | p in Paths(pc.members) :: EndsWith(p, ".bat"))
      && (exists p | p in Paths(pc.members) :: EndsWith(p, ".exe"))
    ensures r.Some? ==> r.value == Diag(pc, "C1127", MsgC1127)
  {
    if FindPath(pc.members, p => EndsWith(p, ".bat")).Some? && FindPath(pc.members, p => EndsWith(p, ".exe")).Some? then
      Some(Diag(pc, "C1127", MsgC1127))
    else None
  }

  // ---------------------------------------------------------------------
  // info/has_prefix
  // ---------------------------------------------------------------------

  const HasPrefix := "info/has_prefix"

  /** The contents of `info/has_prefix`, when the archive has it. */
  function PrefixData(members: seq<Member>): (r: Option<seq<byte>>)
    ensures r.None? <==> HasPrefix !in Paths(members)
    ensures r.Some? ==> Extract(members, HasPrefix) == Ok(r.value)
  {
    match Extract(members, HasPrefix)
    case Ok(data) => Some(data)
    case Err(_) => None
  }

  /** `prefix_file`: walks every member and, at each one named
      `info/has_prefix`, reads that name again, so the result is the
      last such member's contents, or `None`. */
  method PrefixFile(members: seq<Member>) returns (r: Option<seq<byte>>)
    ensures r == PrefixData(members)
  {
    r := None;
    var i := 0;
    while i < |members|
      invariant 0 <= i <= |members|
      invariant r.None? <==> forall k | 0 <= k < i :: members[k].path != HasPrefix
      invariant r.Some? ==> r == PrefixData(members)
    {
      if members[i].path == HasPrefix {
        assert PathList(members)[i] == HasPrefix;
        var data := Extract(members, HasPrefix);
        r := Some(data.value);
      }
      i := i + 1;
    }
    if r.None? {
      assert HasPrefix !in PathList(members);
    }
  }

  /** `check_prefix_file` (C1128) */
  function CheckPrefixFile(pc: PackageCheck): (r: Option<Diagnostic>)
    ensures r.Some? <==>
      PrefixData(pc.members).Some?
      && exists i | 0 <= i < |PrefixData(pc.members).value| :: !Utilities.AsciiByte(PrefixData(pc.members).value[i], pc.winPkg)
    ensures r.Some? ==> r.value == Diag(pc, "C1128", MsgC1128)
  {
    match PrefixData(pc.members)
    case None => None
    case Some(data) => if Utilities.IsAsciiText(data, pc.winPkg) then None else Some(Diag(pc, "C1128", MsgC1128))
  }

  /** The `(placeholder, mode, filename)` triple of a `has_prefix` line. */
  datatype PrefixEntry = PrefixEntry(placeholder: string, mode: string, filename: string)

  const Quotes: set<char> := {'\'', '"'}
  const DummyPlaceholder := "/<dummy>/<placeholder>"

  /** One stripped line: three tokens are placeholder, mode and file name,
      with quotes stripped from the first and last; any other line is a
      file name in text mode with the dummy placeholder. */
  function ParsePrefixLine(line: string): (e: PrefixEntry)
    ensures |Split(Strip(line))| == 3 ==>
      e.mode == Split(Strip(line))[1] && |e.mode| > 0 && NoSpace(e.mode)
      && e.placeholder == StripChars(Split(Strip(line))[0], Quotes)
      && e.filename == StripChars(Split(Strip(line))[2], Quotes)
    ensures |Split(Strip(line))| != 3 ==> e == PrefixEntry(DummyPlaceholder, "text", Strip(line))
  {
    var t := Strip(line);
    var parts := Split(t);
    SplitParts(t);
    if |parts| == 3 then PrefixEntry(StripChars(parts[0], Quotes), parts[1], StripChars(parts[2], Quotes))
    else PrefixEntry(DummyPlaceholder, "text", t)
  }

  /** `prefix_file_contents`: only the first line is read; no file, or a
      file without lines, gives `None`. */
  function PrefixFileContents(pc: PackageCheck): (r: Option<PrefixEntry>)
    ensures r.None? <==> PrefixData(pc.members).None? || PrefixData(pc.members).value == []
    ensures r.Some? ==> r.value == ParsePrefixLine(SplitLines(Decode(PrefixData(pc.members).value))[0])
  {
    match PrefixData(pc.members)
    case None => None
    case Some(data) =>
      var lines := SplitLines(Decode(data));
      if |lines| == 0 then None else Some(ParsePrefixLine(lines[0]))
  }

  /** Lines after the first never matter. */
  lemma PrefixFirstLineOnly(pc: PackageCheck, first: string, rest: string)
    requires forall i | 0 <= i < |first| :: !IsLineBreak(first[i])
    requires PrefixData(pc.members).Some? && Decode(PrefixData(pc.members).value) == first + "\n" + rest
    ensures PrefixFileContents(pc) == Some(ParsePrefixLine(first))
  {
    FirstLine(first, rest);
  }

  lemma FirstLine(first: string, rest: string)
    requires forall i | 0 <= i < |first| :: !IsLineBreak(first[i])
    ensures SplitLines(first + "\n" + rest)[0] == first
  {
    var text := first + "\n" + rest;
    assert forall i | 0 <= i < |first| :: text[i] == first[i];
    assert text[|first|] == '\n';
    LineLenAt(text, |first|);
    assert text[..|first|] == first;
  }

  lemma {:induction false} LineLenAt(s: string, n: nat)
    requires n < |s| && IsLineBreak(s[n]) && forall i | 0 <= i < n :: !IsLineBreak(s[i])
    ensures LineLen(s) == n
    decreases n
  {
    if n > 0 {
      LineLenAt(s[1..], n - 1);
    }
  }

  /** `check_prefix_file_filename` (C1129) */
  function CheckPrefixFileFilename(pc: PackageCheck): (r: Option<Diagnostic>)
    ensures r.Some? <==> PrefixFileContents(pc).Some? && PrefixFileContents(pc).value.filename !in Paths(pc.members)
    ensures r.Some? ==> r.value == Diag(pc, "C1129", Format(MsgC1129, [PrefixFileContents(pc).value.filename]))
  {
    match PrefixFileContents(pc)
    case None => None
    case Some(e) => if e.filename !in Paths(pc.members) then Some(Diag(pc, "C1129", Format(MsgC1129, [e.filename]))) else None
  }

  /** `check_prefix_file_mode` (C1130) */
  function CheckPrefixFileMode(pc: PackageCheck): (r: Option<Diagnostic>)
    ensures r.Some? <==> PrefixFileContents(pc).Some? && PrefixFileContents(pc).value.mode !in ["binary", "text"]
    ensures r.Some? ==> r.value == Diag(pc, "C1130", Format(MsgC1130, [PrefixFileContents(pc).value.mode]))
  {
    match PrefixFileContents(pc)
    case None => None
    case Some(e) => if e.mode !in ["binary", "text"] then Some(Diag(pc, "C1130", Format(MsgC1130, [e.mode]))) else None
  }

  /** `check_prefix_file_binary_mode` (C1131, C1132, C1133, in that order) */
  function CheckPrefixFileBinaryMode(pc: PackageCheck): (r: Option<Diagnostic>)
    ensures r.Some? ==> PrefixFileContents(pc).Some? && PrefixFileContents(pc).value.mode == "binary"
    ensures r.Some? && r.value.code == "C1133" ==> |PrefixFileContents(pc).value.placeholder| != 255
    ensures PrefixFileContents(pc).Some? && PrefixFileContents(pc).value.mode == "binary" ==>
      (pc.name == "python" ==> r == Some(Diag(pc, "C1131", MsgC1131)))
      && (pc.name != "python" && pc.winPkg ==> r == Some(Diag(pc, "C1132", MsgC1132)))
      && (pc.name != "python" && !pc.winPkg ==> (r.None? <==> |PrefixFileContents(pc).value.placeholder| == 255))
  {
    match PrefixFileContents(pc)
    case None => None
    case Some(e) =>
      if e.mode != "binary" then None
      else if pc.name == "python" then Some(Diag(pc, "C1131", MsgC1131))
      else if pc.winPkg then Some(Diag(pc, "C1132", MsgC1132))
      else if |e.placeholder| != 255 then Some(Diag(pc, "C1133", Format(MsgC1133, [e.placeholder])))
      else None
  }

  // ---------------------------------------------------------------------
  // File kinds that must not be shipped
  // ---------------------------------------------------------------------

  const LinkScriptSuffixes: seq<string> :=
    ["-post-link.sh", "-pre-link.sh", "-pre-unlink.sh", "-post-link.bat", "-pre-link.bat", "-pre-unlink.bat"]

  predicate LinkScript(p: string) { EndsWithAny(p, LinkScriptSuffixes) }

  /** `check_for_post_links` (C1134) */
  function CheckForPostLinks(pc: PackageCheck): (r: Option<Diagnostic>)
    ensures r.None? <==> forall p | p in Paths(pc.members) :: !LinkScript(p)
    ensures r.Some? ==> exists p | p in Paths(pc.members) :: LinkScript(p) && r.value == Diag(pc, "C1134", Format(MsgC1134, [p]))
  {
    PathRule(pc, "C1134", MsgC1134, LinkScript)
  }

  predicate EggFile(p: string) { EndsWith(p, ".egg") }

  /** `check_for_egg` (C1135) */
  function CheckForEgg(pc: PackageCheck): (r: Option<Diagnostic>)
    ensures r.None? <==> forall p | p in Paths(pc.members) :: !EggFile(p)
    ensures r.Some? ==> exists p | p in Paths(pc.members) :: EggFile(p) && r.value == Diag(pc, "C1135", Format(MsgC1135, [p]))
  {
    PathRule(pc, "C1135", MsgC1135, EggFile)
  }

  predicate EasyInstallScript(p: string) {
    StartsWith(p, "bin/easy_install") || StartsWith(p, "Scripts/easy_install")
  }

  /** `check_for_easy_install_script` (C1136) */
  function CheckForEasyInstallScript(pc: PackageCheck): (r: Option<Diagnostic>)
    ensures r.None? <==> forall p | p in Paths(pc.members) :: !EasyInstallScript(p)
    ensures r.Some? ==> exists p | p in Paths(pc.members) ::
      EasyInstallScript(p) && r.value == Diag(pc, "C1136", Format(MsgC1136, [p]))
  {
    PathRule(pc, "C1136", MsgC1136, EasyInstallScript)
  }

  predicate PthFile(p: string) { EndsWith(p, ".pth") }

  /** `check_for_pth_file` (C1137) */
  function CheckForPthFile(pc: PackageCheck): (r: Option<Diagnostic>)
    ensures r.None? <==> forall p | p in Paths(pc.members) :: !PthFile(p)
    ensures r.Some? ==> exists p | p in Paths(pc.members) :: PthFile(p) && r.value == Diag(pc, "C1137", Format(MsgC1137, [p]))
  {
    PathRule(pc, "C1137", MsgC1137, PthFile)
  }

  predicate PyoFile(p: string) { EndsWith(p, ".pyo") }

  /** `check_for_pyo_file` (C1138): the `python` package itself may ship them. */
  function CheckForPyoFile(pc: PackageCheck): (r: Option<Diagnostic>)
    ensures r.None? <==> pc.name == "python" || forall p | p in Paths(pc.members) :: !PyoFile(p)
    ensures r.Some? ==> exists p | p in Paths(pc.members) :: PyoFile(p) && r.value == Diag(pc, "C1138", Format(MsgC1138, [p]))
  {
    if pc.name == "python" then None else PathRule(pc, "C1138", MsgC1138, PyoFile)
  }

  predicate StrayPyc(p: string) {
    EndsWith(p, ".pyc") && !Contains(p, "site-packages") && !Contains(p, "distutils")
  }

  /** `check_for_pyc_in_site_packages` (C1139) */
  function CheckForPycInSitePackages(pc: PackageCheck): (r: Option<Diagnostic>)
    ensures r.None? <==> forall p | p in Paths(pc.members) :: !StrayPyc(p)
    ensures r.Some? ==> exists p | p in Paths(pc.members) :: StrayPyc(p) && r.value == Diag(pc, "C1139", Format(MsgC1139, [p]))
  {
    PathRule(pc, "C1139", MsgC1139, StrayPyc)
  }

  predicate Lib2to3Pickle(p: string) { Contains(p, "lib2to3") && EndsWith(p, ".pickle") }

  /** `check_for_2to3_pickle` (C1140) */
  function CheckFor2to3Pickle(pc: PackageCheck): (r: Option<Diagnostic>)
    ensures r.None? <==> forall p | p in Paths(pc.members) :: !Lib2to3Pickle(p)
    ensures r.Some? ==> exists p | p in Paths(pc.members) ::
      Lib2to3Pickle(p) && r.value == Diag(pc, "C1140", Format(MsgC1140, [p]))
  {
    PathRule(pc, "C1140", MsgC1140, Lib2to3Pickle)
  }

  /** A site-packages module whose compiled file is not in the archive. */
  predicate MissingPyc(paths: set<string>, p: string) {
    Contains(p, "/site-packages/") && EndsWith(p, ".py") && p + "c" !in paths
  }

  /** `check_pyc_files` (C1141): only for builds whose string lacks `py3`. */
  function CheckPycFiles(pc: PackageCheck): (r: Option<Diagnostic>)
    ensures r.None? <==> Contains(pc.build, "py3") || forall p | p in Paths(pc.members) :: !MissingPyc(Paths(pc.members), p)
    ensures r.Some? ==> exists p | p in Paths(pc.members) ::
      MissingPyc(Paths(pc.members), p) && r.value == Diag(pc, "C1141", Format(MsgC1141, [p]))
  {
    if Contains(pc.build, "py3") then None
    else
      var paths := Paths(pc.members);
      PathRule(pc, "C1141", MsgC1141, p => MissingPyc(paths, p))
  }

  // ---------------------------------------------------------------------
  // Menu/*.json
  // ---------------------------------------------------------------------

  predicate MenuJson(p: string) { StartsWith(p, "Menu/") && EndsWith(p, ".json") }

  /** `[p for p in paths if p.startswith('Menu/') and p.endswith('.json')]`:
      each Menu json path once. */
  function MenuJsonFiles(pc: PackageCheck): (ms: seq<string>)
    ensures Distinct(ms)
    ensures forall p :: p in ms <==> p in Paths(pc.members) && MenuJson(p)
  {
    Filter(IterPaths(pc.members), MenuJson)
  }

  /** The body of `check_menu_json_name` with the name the single Menu json
      file is compared with. */
  function MenuJsonRule(pc: PackageCheck, expected: string): (r: Option<Diagnostic>)
    ensures r.Some? && r.value.code == "C1143" <==>
      exists p, q | p in Paths(pc.members) && q in Paths(pc.members) :: p != q && MenuJson(p) && MenuJson(q)
    ensures r.Some? && r.value.code == "C1142" <==>
      |MenuJsonFiles(pc)| == 1 && MenuJsonFiles(pc)[0] != expected
    ensures r.Some? ==> r.value.code in {"C1142", "C1143"}
    ensures |MenuJsonFiles(pc)| > 1 ==> r == Some(Diag(pc, "C1143", MsgC1143))
    ensures |MenuJsonFiles(pc)| == 1 && MenuJsonFiles(pc)[0] != expected ==>
      r == Some(Diag(pc, "C1142", Format(MsgC1142, [MenuJsonFiles(pc)[0]])))
    ensures r.None? <==> |MenuJsonFiles(pc)| == 0 || (|MenuJsonFiles(pc)| == 1 && MenuJsonFiles(pc)[0] == expected)
  {
    var ms := MenuJsonFiles(pc);
    MoreThanOne(ms);
    if |ms| == 1 then
      if ms[0] != expected then Some(Diag(pc, "C1142", Format(MsgC1142, [ms[0]]))) else None
    else if |ms| > 1 then
      Some(Diag(pc, "C1143", MsgC1143))
    else None
  }

  /** A list without repeats has two different elements exactly when it is
      longer than one. */
  lemma MoreThanOne(ms: seq<string>)
    requires Distinct(ms)
    ensures |ms| > 1 <==> exists p, q | p in ms && q in ms :: p != q
  {
    if |ms| > 1 {
      assert ms[0] in ms && ms[1] in ms && ms[0] != ms[1];
    }
    if |ms| <= 1 {
      assert forall p | p in ms :: p == ms[0];
    }
  }

  /** `check_menu_json_name` as written (C1142, C1143): the single Menu json
      path is compared with `name + ".json"`, which lacks the `Menu/`
      directory. */
  function CheckMenuJsonNameAsWritten(pc: PackageCheck): (r: Option<Diagnostic>)
    ensures r == MenuJsonRule(pc, pc.name + ".json")
  {
    MenuJsonRule(pc, pc.name + ".json")
  }

  /** `check_menu_json_name` as its docstring describes: the single Menu
      json file must be `Menu/<name>.json`. */
  function CheckMenuJsonName(pc: PackageCheck): (r: Option<Diagnostic>)
    ensures |MenuJsonFiles(pc)| == 1 ==> (r.None? <==> MenuJsonFiles(pc)[0] == "Menu/" + pc.name + ".json")
    ensures |MenuJsonFiles(pc)| == 0 ==> r.None?
    ensures |MenuJsonFiles(pc)| > 1 ==> r == Some(Diag(pc, "C1143", MsgC1143))
    ensures |MenuJsonFiles(pc)| == 1 && MenuJsonFiles(pc)[0] != "Menu/" + pc.name + ".json" ==>
      r == Some(Diag(pc, "C1142", Format(MsgC1142, [MenuJsonFiles(pc)[0]])))
    ensures r == MenuJsonRule(pc, "Menu/" + pc.name + ".json")
  {
    MenuJsonRule(pc, "Menu/" + pc.name + ".json")
  }

  /** As written, a package with exactly one Menu json file is always
      flagged: the path holds a `/` and the expected name does not. */
  lemma MenuJsonAsWrittenAlwaysFlags(pc: PackageCheck)
    requires '/' !in pc.name && |MenuJsonFiles(pc)| == 1
    ensures CheckMenuJsonNameAsWritten(pc).Some? && CheckMenuJsonNameAsWritten(pc).value.code == "C1142"
  {
    var m := MenuJsonFiles(pc)[0];
    assert m in MenuJsonFiles(pc);
    assert m[4] == '/';
    var e := pc.name + ".json";
    forall i | 0 <= i < |e| ensures e[i] != '/' {
      if i < |pc.name| {
        assert e[i] == pc.name[i] && pc.name[i] in pc.name;
      }
    }
    assert m != e;
  }

  /** The package's own Menu json file, `Menu/<name>.json`, is refused as
      written and accepted as intended. */
  lemma MenuJsonForOwnName(pc: PackageCheck)
    requires '/' !in pc.name && MenuJsonFiles(pc) == ["Menu/" + pc.name + ".json"]
    ensures CheckMenuJsonNameAsWritten(pc).Some? && CheckMenuJsonNameAsWritten(pc).value.code == "C1142"
    ensures CheckMenuJsonName(pc).None?
  {
    MenuJsonAsWrittenAlwaysFlags(pc);
  }

  // ---------------------------------------------------------------------
  // Windows architecture
  // ---------------------------------------------------------------------

  predicate WindowsBinary(p: string) { EndsWith(p, ".exe") || EndsWith(p, ".dll") }

  /** `get_object_type` of the first 4096 bytes `extractfile(name)` reads. */
  function ObjectTypeOf(pc: PackageCheck, m: Member): Res<Option<string>> {
    var data :- Extract(pc.members, m.path);
    Utilities.GetObjectType(ReadAtMost(data, 4096))
  }

  /** The object type a binary of each architecture must have. */
  function ExpectedObjectType(arch: string): string {
    if arch == "x86" then "DLL I386" else "DLL AMD64"
  }

  /** `str()` of an optional object type. */
  function TypeName(t: Option<string>): string {
    match t
    case Some(n) => n
    case None => "None"
  }

  /** One member of the loop in `check_windows_arch`. */
  function ArchOutcome(pc: PackageCheck, arch: string, m: Member): (r: Outcome)
    ensures !WindowsBinary(m.path) ==> r == Ok(None)
    ensures WindowsBinary(m.path) && ObjectTypeOf(pc, m).Err? ==> r == Err(ObjectTypeOf(pc, m).exc)
    ensures WindowsBinary(m.path) && ObjectTypeOf(pc, m).Ok? ==>
      (r == Ok(None) <==> ObjectTypeOf(pc, m).value == Some(ExpectedObjectType(arch)))
      && (r != Ok(None) ==>
            r == Ok(Some(Diag(pc, "C1145", Format(MsgC1145, [m.path, TypeName(ObjectTypeOf(pc, m).value), arch])))))
  {
    if !WindowsBinary(m.path) then Ok(None)
    else
      var t :- ObjectTypeOf(pc, m);
      if t != Some(ExpectedObjectType(arch)) then Ok(Some(Diag(pc, "C1145", Format(MsgC1145, [m.path, TypeName(t), arch]))))
      else Ok(None)
  }

  /** `check_windows_arch` (C1144, C1145): only for Windows packages;
      `info['arch']` must be present and be `x86` or `x86_64`, and then
      every `.exe` and `.dll` member must carry the matching PE machine. */
  function CheckWindowsArch(pc: PackageCheck): (r: Outcome)
    ensures !pc.winPkg ==> r == Ok(None)
    ensures pc.winPkg && "arch" !in Keys(pc.info) ==> r == Err(KeyError("arch"))
    ensures pc.winPkg && "arch" in Keys(pc.info) && InfoGet(pc, "arch") !in [Str("x86"), Str("x86_64")] ==>
      r == Ok(Some(Diag(pc, "C1144", Format(MsgC1144, [PyStr(InfoGet(pc, "arch"))]))))
    ensures pc.winPkg && "arch" in Keys(pc.info) && InfoGet(pc, "arch") in [Str("x86"), Str("x86_64")] ==>
      (r == Ok(None) <==> forall k | 0 <= k < |pc.members| :: ArchOutcome(pc, InfoGet(pc, "arch").s, pc.members[k]) == Ok(None))
  {
    if !pc.winPkg then Ok(None)
    else
      var arch :- Index(Dict(pc.info), "arch");
      if arch != Str("x86") && arch != Str("x86_64") then Ok(Some(Diag(pc, "C1144", Format(MsgC1144, [PyStr(arch)]))))
      else FirstOutcome(pc.members, m => ArchOutcome(pc, arch.s, m), 0)
  }

  /** A Windows package passes the architecture check exactly when every
      `.exe` and `.dll` is a PE file for the declared machine. */
  lemma WindowsArchPasses(pc: PackageCheck)
    requires pc.winPkg && InfoGet(pc, "arch") in [Str("x86"), Str("x86_64")] && "arch" in Keys(pc.info)
    ensures CheckWindowsArch(pc) == Ok(None) <==>
      forall k | 0 <= k < |pc.members| && WindowsBinary(pc.members[k].path) ::
        ObjectTypeOf(pc, pc.members[k]) == Ok(Some(ExpectedObjectType(InfoGet(pc, "arch").s)))
  {
    var arch := InfoGet(pc, "arch").s;
    forall k | 0 <= k < |pc.members|
      ensures ArchOutcome(pc, arch, pc.members[k]) == Ok(None) <==>
        (WindowsBinary(pc.members[k].path) ==> ObjectTypeOf(pc, pc.members[k]) == Ok(Some(ExpectedObjectType(arch))))
    {
    }
  }

  // ---------------------------------------------------------------------
  // info/paths.json: hashes and sizes
  // ---------------------------------------------------------------------

  /** An entry of `paths_json['paths']` that names a path and carries a
      hash and a size. */
  predicate WellFormedEntry(e: Value) {
    e.Dict? && Lookup(e.entries, "_path").Some? && Lookup(e.entries, "sha256").Some?
    && Lookup(e.entries, "size_in_bytes").Some?
  }

  /** `member.size == entry['size_in_bytes']` in Python: numbers compare by
      value, `True == 1`, and anything else is unequal. */
  predicate SameSize(v: Value, size: int) { IsInt(v) && IntOf(v) == size }

  /** One entry of the inner loop, for member `m` whose contents hash to
      `digest`: an entry for another path is skipped. */
  function EntryOutcome(pc: PackageCheck, m: Member, digest: string, e: Value): (r: Outcome)
    ensures !e.Dict? ==> r == Err(TypeError)
    ensures WellFormedEntry(e) ==>
      var path := Lookup(e.entries, "_path").value;
      var sha := Lookup(e.entries, "sha256").value;
      var size := Lookup(e.entries, "size_in_bytes").value;
      (path != Str(m.path) ==> r == Ok(None))
      && (path == Str(m.path) && sha != Str(digest) ==> r == Ok(Some(Diag(pc, "C1146", Format(MsgC1146, [m.path])))))
      && (path == Str(m.path) && sha == Str(digest) ==>
            (r == Ok(None) <==> SameSize(size, m.size))
            && (r != Ok(None) ==> r == Ok(Some(Diag(pc, "C1147", Format(MsgC1147, [m.path]))))))
  {
    var path :- Index(e, "_path");
    if path != Str(m.path) then Ok(None)
    else
      var sha :- Index(e, "sha256");
      if sha != Str(digest) then Ok(Some(Diag(pc, "C1146", Format(MsgC1146, [m.path]))))
      else
        var size :- Index(e, "size_in_bytes");
        if !SameSize(size, m.size) then Ok(Some(Diag(pc, "C1147", Format(MsgC1147, [m.path]))))
        else Ok(None)
  }

  /** One member of the outer loop: regular files are hashed (`sha256` is
      a parameter: hashing is not modelled) and checked against every
      entry. */
  function MemberHashOutcome(pc: PackageCheck, sha256: seq<byte> -> string, entries: seq<Value>, m: Member): (r: Outcome)
    ensures !m.isFile ==> r == Ok(None)
    ensures m.isFile && m.path in Paths(pc.members) ==>
      r == FirstOutcome(entries, e => EntryOutcome(pc, m, sha256(Extract(pc.members, m.path).value), e), 0)
  {
    if !m.isFile then Ok(None)
    else
      var data :- Extract(pc.members, m.path);
      FirstOutcome(entries, e => EntryOutcome(pc, m, sha256(data), e), 0)
  }

  /** `check_package_hashes_and_size` (C1146, C1147): `paths.json` is parsed
      by `json` and its `paths` list walked for every regular file. */
  function CheckPackageHashesAndSize(pc: PackageCheck, json: seq<byte> -> Res<Value>, sha256: seq<byte> -> string): (r: Outcome)
    ensures json(pc.pathsFile).Err? ==> r == Err(json(pc.pathsFile).exc)
    ensures json(pc.pathsFile).Ok? && json(pc.pathsFile).value.Dict? && "paths" !in Keys(json(pc.pathsFile).value.entries) ==>
      r == Err(KeyError("paths"))
    ensures r.Ok? ==> exists entries ::
      Index(json(pc.pathsFile).value, "paths").Ok?
      && Iter(Index(json(pc.pathsFile).value, "paths").value) == Ok(entries)
      && r == FirstOutcome(pc.members, m => MemberHashOutcome(pc, sha256, entries, m), 0)
  {
    var pathsJson :- json(pc.pathsFile);
    var listed :- Index(pathsJson, "paths");
    var entries :- Iter(listed);
    FirstOutcome(pc.members, m => MemberHashOutcome(pc, sha256, entries, m), 0)
  }

  /** A well-formed entry agrees with a file when it names another path or
      carries the file's hash and size. */
  predicate Agrees(e: Value, path: string, digest: string, size: int)
    requires WellFormedEntry(e)
  {
    Lookup(e.entries, "_path").value == Str(path) ==>
      Lookup(e.entries, "sha256").value == Str(digest) && SameSize(Lookup(e.entries, "size_in_bytes").value, size)
  }

  predicate AllWellFormed(entries: seq<Value>) {
    forall j | 0 <= j < |entries| :: WellFormedEntry(entries[j])
  }

  /** One regular file passes when every entry agrees with it. */
  lemma MemberHashPasses(pc: PackageCheck, sha256: seq<byte> -> string, entries: seq<Value>, k: nat)
    requires AllWellFormed(entries) && k < |pc.members|
    ensures MemberHashOutcome(pc, sha256, entries, pc.members[k]) == Ok(None) <==>
      pc.members[k].isFile ==> forall j | 0 <= j < |entries| ::
        Agrees(entries[j], pc.members[k].path, sha256(Extract(pc.members, pc.members[k].path).value), pc.members[k].size)
  {
    var m := pc.members[k];
    assert PathList(pc.members)[k] == m.path;
    if m.isFile {
      var digest := sha256(Extract(pc.members, m.path).value);
      forall j | 0 <= j < |entries|
        ensures EntryOutcome(pc, m, digest, entries[j]) == Ok(None) <==> Agrees(entries[j], m.path, digest, m.size)
      {
      }
    }
  }

  /** With well-formed entries, the check passes exactly when every regular
      file agrees with every entry. */
  lemma HashesAndSizesPass(pc: PackageCheck, json: seq<byte> -> Res<Value>, sha256: seq<byte> -> string, entries: seq<Value>)
    requires json(pc.pathsFile) == Ok(Dict([("paths", List(entries))])) && AllWellFormed(entries)
    ensures CheckPackageHashesAndSize(pc, json, sha256) == Ok(None) <==>
      forall k | 0 <= k < |pc.members| :: MemberHashOutcome(pc, sha256, entries, pc.members[k]) == Ok(None)
  {
    assert Index(Dict([("paths", List(entries))]), "paths") == Ok(List(entries));
  }
}
