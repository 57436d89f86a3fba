/** `conda_verify/checks.py`, class `CondaRecipeCheck`: the recipe checks
    C2101 to C2126 over the rendered `meta.yaml` mapping and the recipe
    directory. As with the package checks, each returns a diagnostic,
    nothing, or lets a Python exception escape on malformed metadata. */
module RecipeChecks {
  import opened Base
  import opened Text
  import opened Values
  import opened Patterns
  import opened Constants
  import opened Errors
  import Utilities

  /** A recipe directory: the rendered metadata, the directory's path, the
      files below it as `(path relative to the directory, size in bytes)`
      in the order `os.walk` visits them, and the text of its `meta.yaml`
      when that file exists. */
  datatype RecipeCheck = RecipeCheck(
    meta: seq<(string, Value)>, recipeDir: string,
    files: seq<(string, nat)>, metaYaml: Option<string>)

  /** `self.meta.get(section, {})` */
  function Section(rc: RecipeCheck, section: string): (v: Value)
    ensures section !in Keys(rc.meta) ==> v == Dict([])
    ensures section in Keys(rc.meta) ==> Lookup(rc.meta, section) == Some(v)
  {
    match Lookup(rc.meta, section)
    case Some(v) => v
    case None => Dict([])
  }

  /** `self.meta.get(section, {}).get(key, default)` */
  function MetaGet(rc: RecipeCheck, section: string, key: string, default: Value): Res<Value> {
    Get(Section(rc, section), key, default)
  }

  /** `d.get(key, default)` for a mapping `d`. */
  function GetOr(entries: seq<(string, Value)>, key: string, default: Value): (v: Value)
    ensures key !in Keys(entries) ==> v == default
    ensures key in Keys(entries) ==> Lookup(entries, key) == Some(v)
  {
    match Lookup(entries, key)
    case Some(v) => v
    case None => default
  }

  function Diag(rc: RecipeCheck, code: string, message: string): Diagnostic {
    Diagnostic(rc.recipeDir, code, message)
  }

  // ---------------------------------------------------------------------
  // Messages (the templates of the `Error(...)` calls)
  // ---------------------------------------------------------------------

  const MsgC2101 := "Missing package name in meta.yaml"
  const MsgC2102 := "Found invalid package name \"{}\" in meta.yaml"
  const MsgC2103 := "Found invalid sequence \"{}\" in package name"
  const MsgC2104 := "Missing package version in meta.yaml"
  const MsgC2105 := "Found invalid package version \"{}\" in meta.yaml"
  const MsgC2106 := "Found invalid sequence \"{}\" in package version"
  const MsgC2107 := "Build number in info/index.json must be an integer"
  const MsgC2108 := "Build number in info/index.json cannot be a negative integer"
  const MsgC2109 := "Found invalid section \"{}\""
  const MsgC2110 := "Found invalid field \"{}\" in section \"{}\""
  const MsgC2111 := "Found invalid build requirement \"{}\""
  const MsgC2112 := "Found invalid run requirement \"{}\""
  const MsgC2114 := "Found invalid dependency \"{}\" in meta.yaml"
  const MsgC2115 := "Found duplicate build requirements: {}"
  const MsgC2116 := "Found duplicate run requirements: {}"
  const MsgC2117 := "Found summary with length greater than 80 characters"
  const MsgC2118 := "Found invalid URL \"{}\" in meta.yaml"
  const MsgC2119 := "Found invalid hash \"{}\" in meta.yaml"
  const MsgC2120 := "Found invalid URL \"{}\" in meta.yaml"
  const MsgC2121 := "Found both git_branch and git_tag in meta.yaml source field"
  const MsgC2122 := "Found invalid license family \"{}\""
  const MsgC2123 := "Found file \"{}\" listed outside recipe directory"
  const MsgC2124 := "Found file \"{}\" in meta.yaml that doesn't exist"
  const MsgC2125 := "Found disallowed file with extension \"{}\""
  const MsgC2126 := "Found conda-forge comment in meta.yaml file"

  // ---------------------------------------------------------------------
  // package: name, version; build: number
  // ---------------------------------------------------------------------

  /** `check_package_name` (C2101, C2102, C2103, in that order) on the
      value `n` of `meta['package'].get('name', '')`; `re.match` of a value
      that is not a string raises `TypeError`. */
  function NameRule(rc: RecipeCheck, n: Value): (r: Outcome)
    ensures n == Str("") ==> r == Ok(Some(Diag(rc, "C2101", MsgC2101)))
    ensures r.Err? <==> !n.Str?
    ensures r == Ok(None) <==>
      n.Str? && NameMatch(n.s) && !TrailingSeparator(n.s) && Utilities.GetBadSeq(n.s).None?
    ensures Reports(r, "C2102") <==> n.Str? && n.s != "" && (!NameMatch(n.s) || TrailingSeparator(n.s))
    ensures Reports(r, "C2103") ==>
      NameMatch(n.s) && Utilities.GetBadSeq(n.s).Some?
      && r.value.value.message == Format(MsgC2103, [Utilities.GetBadSeq(n.s).value])
  {
    if n == Str("") then Ok(Some(Diag(rc, "C2101", MsgC2101)))
    else if !n.Str? then Err(TypeError)
    else if !NameMatch(n.s) || TrailingSeparator(n.s) then Ok(Some(Diag(rc, "C2102", Format(MsgC2102, [n.s]))))
    else match Utilities.GetBadSeq(n.s)
      case Some(bad) => Ok(Some(Diag(rc, "C2103", Format(MsgC2103, [bad]))))
      case None => Ok(None)
  }

  /** `check_package_name` on `meta.get('package', {}).get('name', '')`:
      a recipe without a package section has no name (C2101); one whose
      package section is not a mapping raises `AttributeError`. */
  function CheckPackageName(rc: RecipeCheck): (r: Outcome)
    ensures "package" !in Keys(rc.meta) ==> r == Ok(Some(Diag(rc, "C2101", MsgC2101)))
    ensures !Section(rc, "package").Dict? ==> r == Err(AttributeError)
    ensures r == Ok(None) <==>
      var n := MetaGet(rc, "package", "name", Str(""));
      n.Ok? && n.value.Str? && NameMatch(n.value.s) && !TrailingSeparator(n.value.s)
      && Utilities.GetBadSeq(n.value.s).None?
  {
    var n :- MetaGet(rc, "package", "name", Str(""));
    NameRule(rc, n)
  }

  /** `check_package_version` (C2104, C2105, C2106, in that order) on the
      value `v` of `meta['package'].get('version', '')`. A version that is
      not a string (YAML reads `1` as an int) is not examined further. */
  function VersionRule(rc: RecipeCheck, v: Value): (r: Option<Diagnostic>)
    ensures v == Str("") ==> r == Some(Diag(rc, "C2104", MsgC2104))
    ensures !v.Str? ==> r.None?
    ensures v.Str? ==> (r.None? <==>
      VersionMatch(v.s) && !EdgeSeparator(v.s) && Utilities.GetBadSeq(v.s).None?)
    ensures r.Some? && r.value.code == "C2105" <==>
      v.Str? && v.s != "" && (!VersionMatch(v.s) || EdgeSeparator(v.s))
    ensures r.Some? && r.value.code == "C2106" ==>
      VersionMatch(v.s) && !EdgeSeparator(v.s)
      && r.value.message == Format(MsgC2106, [Utilities.GetBadSeq(v.s).value])
  {
    if v == Str("") then Some(Diag(rc, "C2104", MsgC2104))
    else if !v.Str? then None
    else if !VersionMatch(v.s) || EdgeSeparator(v.s) then Some(Diag(rc, "C2105", Format(MsgC2105, [v.s])))
    else match Utilities.GetBadSeq(v.s)
      case Some(bad) => Some(Diag(rc, "C2106", Format(MsgC2106, [bad])))
      case None => None
  }

  /** `check_package_version` on `meta.get('package', {}).get('version', '')`:
      no version is C2104, a version YAML reads as a number passes. */
  function CheckPackageVersion(rc: RecipeCheck): (r: Outcome)
    ensures "package" !in Keys(rc.meta) ==> r == Ok(Some(Diag(rc, "C2104", MsgC2104)))
    ensures !Section(rc, "package").Dict? ==> r == Err(AttributeError)
    ensures r == Ok(None) <==>
      var v := MetaGet(rc, "package", "version", Str(""));
      v.Ok? && (!v.value.Str? ||
        (VersionMatch(v.value.s) && !EdgeSeparator(v.value.s) && Utilities.GetBadSeq(v.value.s).None?))
  {
    var v :- MetaGet(rc, "package", "version", Str(""));
    Ok(VersionRule(rc, v))
  }

  /** `check_build_number` once `int()` has run: a `ValueError` is C2107,
      any other exception escapes, a negative number is C2108. */
  function BuildNumberOutcome(rc: RecipeCheck, n: Res<int>): (r: Outcome)
    ensures n.Ok? ==> (r == Ok(None) <==> n.value >= 0)
    ensures n.Ok? && n.value < 0 ==> r == Ok(Some(Diag(rc, "C2108", MsgC2108)))
    ensures n == Err(ValueError) ==> r == Ok(Some(Diag(rc, "C2107", MsgC2107)))
    ensures n.Err? && n.exc != ValueError ==> r == Err(n.exc)
  {
    if n.Err? then
      if n.exc == ValueError then Ok(Some(Diag(rc, "C2107", MsgC2107))) else Err(n.exc)
    else if n.value < 0 then Ok(Some(Diag(rc, "C2108", MsgC2108)))
    else Ok(None)
  }

  /** `check_build_number`: `build/number` is examined only when set. */
  function CheckBuildNumber(rc: RecipeCheck): (r: Outcome)
    ensures "build" !in Keys(rc.meta) ==> r == Ok(None)
    ensures !Section(rc, "build").Dict? ==> r == Err(AttributeError)
    ensures r == Ok(None) <==>
      var bn := MetaGet(rc, "build", "number", Null);
      bn.Ok? && (bn.value.Null? || (PyInt(bn.value).Ok? && PyInt(bn.value).value >= 0))
  {
    var bn :- MetaGet(rc, "build", "number", Null);
    if bn.Null? then Ok(None) else BuildNumberOutcome(rc, PyInt(bn))
  }

  /** A number written as a string, with or without `_` between digits,
      is parsed and passes. */
  lemma BuildNumberCases(rc: RecipeCheck, digits: string)
    requires IsNumeral(digits)
    requires Section(rc, "build") == Dict([("number", Str(digits))])
    ensures CheckBuildNumber(rc) == Ok(None)
  {
    ParseNumeral(digits);
  }

  // ---------------------------------------------------------------------
  // Sections and fields
  // ---------------------------------------------------------------------

  /** `key not in FIELDS[section]` for one key: a key that cannot be
      hashed raises `TypeError`. */
  function KeyOutcome(rc: RecipeCheck, section: string, key: Value): (r: Outcome)
    ensures key.Str? ==> (r == Ok(None) <==> key.s in FieldKeys(section))
    ensures key.Str? && key.s !in FieldKeys(section) ==>
      r == Ok(Some(Diag(rc, "C2110", Format(MsgC2110, [key.s, section]))))
    ensures (key.List? || key.Dict?) ==> r == Err(TypeError)
  {
    var known :- InStrSet(key, FieldKeys(section));
    if known then Ok(None) else Ok(Some(Diag(rc, "C2110", Format(MsgC2110, [PyStr(key), section]))))
  }

  /** The keys of one entry of a section that is a list (`source` and
      `outputs` may be lists of mappings). */
  function EntryOutcome(rc: RecipeCheck, section: string, entry: Value): (r: Outcome)
    ensures entry.Dict? ==> (r == Ok(None) <==> forall k | 0 <= k < |entry.entries| :: entry.entries[k].0 in FieldKeys(section))
  {
    var keys :- Iter(entry);
    FirstOutcome(keys, (key: Value) => KeyOutcome(rc, section, key), 0)
  }

  /** One section of `check_fields`: an unknown section is C2109; `extra`
      is not examined; a mapping's keys must be fields of the section;
      anything else is iterated as a list of entries. */
  function SectionOutcome(rc: RecipeCheck, section: string): (r: Outcome)
    ensures section !in FieldSections ==> r == Ok(Some(Diag(rc, "C2109", Format(MsgC2109, [section]))))
    ensures section == "extra" ==> r == Ok(None)
    ensures section in FieldSections && section != "extra" && Section(rc, section).Dict? ==>
      (r == Ok(None) <==> forall k | 0 <= k < |Section(rc, section).entries| ::
        Section(rc, section).entries[k].0 in FieldKeys(section))
  {
    if section !in FieldSections then Ok(Some(Diag(rc, "C2109", Format(MsgC2109, [section]))))
    else if section == "extra" then Ok(None)
    else
      var sub := Section(rc, section);
      if sub.Dict? then EntryOutcome(rc, section, sub)
      else
        var entries :- Iter(sub);
        FirstOutcome(entries, (entry: Value) => EntryOutcome(rc, section, entry), 0)
  }

  /** `check_fields` (C2109, C2110): the sections in document order. */
  function CheckFields(rc: RecipeCheck): (r: Outcome)
    ensures r == Ok(None) <==> forall k | 0 <= k < |rc.meta| :: SectionOutcome(rc, rc.meta[k].0) == Ok(None)
    ensures r != Ok(None) ==> exists k | 0 <= k < |rc.meta| :: r == SectionOutcome(rc, rc.meta[k].0)
  {
    var r := FirstOutcome(Keys(rc.meta), (section: string) => SectionOutcome(rc, section), 0);
    assert forall k | 0 <= k < |rc.meta| :: Keys(rc.meta)[k] == rc.meta[k].0;
    r
  }

  /** Whatever `extra` holds, it is never the reason for a finding. */
  lemma ExtraIsNotExamined(rc: RecipeCheck, extra: Value)
    requires rc.meta == [("extra", extra)]
    ensures CheckFields(rc) == Ok(None)
  {
    assert "extra" in FieldSections;
  }

  /** A recipe in which every section is known and every non-`extra`
      section is a mapping of known fields passes. */
  lemma KnownFieldsPass(rc: RecipeCheck)
    requires forall k | 0 <= k < |rc.meta| :: rc.meta[k].0 in FieldSections
    requires forall k | 0 <= k < |rc.meta| :: rc.meta[k].0 != "extra" ==>
      rc.meta[k].1.Dict? && forall j | 0 <= j < |rc.meta[k].1.entries| :: rc.meta[k].1.entries[j].0 in FieldKeys(rc.meta[k].0)
    requires Distinct(Keys(rc.meta))
    ensures CheckFields(rc) == Ok(None)
  {
    forall k | 0 <= k < |rc.meta| ensures SectionOutcome(rc, rc.meta[k].0) == Ok(None) {
      assert forall j | 0 <= j < k :: Keys(rc.meta)[j] != Keys(rc.meta)[k];
      KnownSectionPasses(rc, k);
    }
  }

  lemma KnownSectionPasses(rc: RecipeCheck, k: int)
    requires 0 <= k < |rc.meta| && rc.meta[k].0 in FieldSections
    requires forall j | 0 <= j < k :: rc.meta[j].0 != rc.meta[k].0
    requires rc.meta[k].0 != "extra" ==>
      rc.meta[k].1.Dict? && forall j | 0 <= j < |rc.meta[k].1.entries| :: rc.meta[k].1.entries[j].0 in FieldKeys(rc.meta[k].0)
    ensures SectionOutcome(rc, rc.meta[k].0) == Ok(None)
  {
    FirstBinding(rc.meta, k);
  }

  /** `Lookup` finds a binding whose key is not bound earlier. */
  lemma {:induction false} FirstBinding(entries: seq<(string, Value)>, k: int)
    requires 0 <= k < |entries|
    requires forall j | 0 <= j < k :: entries[j].0 != entries[k].0
    ensures Lookup(entries, entries[k].0) == Some(entries[k].1)
  {
    if k > 0 {
      assert entries[1..][k - 1] == entries[k];
      FirstBinding(entries[1..], k - 1);
    }
  }

  // ---------------------------------------------------------------------
  // requirements
  // ---------------------------------------------------------------------

  /** `build_requirements + run_requirements`: two lists concatenate, two
      strings concatenate into one string that is then iterated by
      character; any other pair raises `TypeError`. */
  function Concat(a: Value, b: Value): (r: Res<seq<Value>>)
    ensures a.List? && b.List? ==> r == Ok(a.items + b.items)
    ensures !(a.List? && b.List?) && !(a.Str? && b.Str?) ==> r == Err(TypeError)
  {
    if a.List? && b.List? then Ok(a.items + b.items)
    else if a.Str? && b.Str? then Ok(CharValues(a.s + b.s))
    else Err(TypeError)
  }

  /** `x in container` for a list (equality) or a string (substring). */
  predicate In(x: Value, container: Value) {
    (container.List? && x in container.items)
    || (container.Str? && x.Str? && Contains(container.s, x.s))
  }

  /** A requirement the loop lets through: a string whose first token is
      a name and whose second token, if any, matches `ver_spec_pat` whole. */
  predicate WellFormedRequirement(req: Value) {
    req.Str? && |Split(req.s)| > 0 && NameMatch(Split(req.s)[0])
    && (|Split(req.s)| >= 2 ==> VerSpecFull(Split(req.s)[1]))
  }

  /** The body of the requirements loop for one requirement: `.split()`
      raises `AttributeError` on a non-string and `[0]` raises `IndexError`
      on an empty one, so C2113 cannot be produced; a first token that is
      not a name is C2111 or C2112, by the list that holds it; a second
      token must match `ver_spec_pat` whole (C2114). */
  function RequirementOutcome(rc: RecipeCheck, build: Value, run: Value, req: Value): (r: Outcome)
    ensures !req.Str? ==> r == Err(AttributeError)
    ensures req.Str? ==> (r == Err(IndexError) <==> |Split(req.s)| == 0)
    ensures (In(req, build) || In(req, run)) ==> (r == Ok(None) <==> WellFormedRequirement(req))
    ensures Reports(r, "C2111") ==> In(req, build) && !NameMatch(Split(req.s)[0])
    ensures Reports(r, "C2112") ==> !In(req, build) && In(req, run) && !NameMatch(Split(req.s)[0])
    ensures Reports(r, "C2114") ==> |Split(req.s)| >= 2 && !VerSpecFull(Split(req.s)[1])
    ensures r.Ok? && r.value.Some? ==> r.value.value.code in {"C2111", "C2112", "C2114"}
  {
    if !req.Str? then Err(AttributeError)
    else
      var parts := Split(req.s);
      if |parts| == 0 then Err(IndexError)
      else if !NameMatch(parts[0]) && In(req, build) then
        Ok(Some(Diag(rc, "C2111", Format(MsgC2111, [req.s]))))
      else if !NameMatch(parts[0]) && In(req, run) then
        Ok(Some(Diag(rc, "C2112", Format(MsgC2112, [req.s]))))
      else if |parts| >= 2 && !VerSpecFull(parts[1]) then
        Ok(Some(Diag(rc, "C2114", Format(MsgC2114, [req.s]))))
      else Ok(None)
  }

  /** The duplicate tests after the loop: `len(l) != len(set(l))`. */
  function DuplicatesOutcome(rc: RecipeCheck, build: Value, run: Value): (r: Outcome)
    ensures build.List? && run.List? ==>
      (Reports(r, "C2115") <==> !Distinct(build.items))
      && (Reports(r, "C2116") <==> Distinct(build.items) && !Distinct(run.items))
      && (r == Ok(None) <==> Distinct(build.items) && Distinct(run.items))
    ensures Reports(r, "C2115") ==> r.value.value.message == Format(MsgC2115, [PyStr(build)])
    ensures Reports(r, "C2116") ==> r.value.value.message == Format(MsgC2116, [PyStr(run)])
  {
    var b :- Iter(build);
    var u :- Iter(run);
    if !Distinct(b) then Ok(Some(Diag(rc, "C2115", Format(MsgC2115, [PyStr(build)]))))
    else if !Distinct(u) then Ok(Some(Diag(rc, "C2116", Format(MsgC2116, [PyStr(run)]))))
    else Ok(None)
  }

  /** `check_requirements` on the two lists: every requirement passes the
      loop, then neither list holds the same string twice. */
  function RequirementsRule(rc: RecipeCheck, build: Value, run: Value): (r: Outcome)
    ensures build.List? && run.List? ==>
      (r == Ok(None) <==>
        (forall k | 0 <= k < |build.items| :: WellFormedRequirement(build.items[k]))
        && (forall k | 0 <= k < |run.items| :: WellFormedRequirement(run.items[k]))
        && Distinct(build.items) && Distinct(run.items))
    ensures build.List? && run.List? && Reports(r, "C2115") ==>
      !Distinct(build.items) && r.value.value.message == Format(MsgC2115, [PyStr(build)])
    ensures build.List? && run.List? && Reports(r, "C2116") ==>
      Distinct(build.items) && !Distinct(run.items) && r.value.value.message == Format(MsgC2116, [PyStr(run)])
  {
    RequirementLoopPasses(rc, build, run);
    var all :- Concat(build, run);
    var first := FirstOutcome(all, RequirementStep(rc, build, run), 0);
    if first != Ok(None) then first
    else DuplicatesOutcome(rc, build, run)
  }

  function RequirementStep(rc: RecipeCheck, build: Value, run: Value): Value -> Outcome {
    (req: Value) => RequirementOutcome(rc, build, run, req)
  }

  /** The loop passes exactly when every requirement of either list is
      well formed. */
  lemma RequirementLoopPasses(rc: RecipeCheck, build: Value, run: Value)
    ensures build.List? && run.List? ==>
      (FirstOutcome(build.items + run.items, RequirementStep(rc, build, run), 0) == Ok(None) <==>
        (forall k | 0 <= k < |build.items| :: WellFormedRequirement(build.items[k]))
        && (forall k | 0 <= k < |run.items| :: WellFormedRequirement(run.items[k])))
  {
    if !(build.List? && run.List?) {
      return;
    }
    var all := build.items + run.items;
    var f := RequirementStep(rc, build, run);
    forall k | 0 <= k < |all| ensures f(all[k]) == Ok(None) <==> WellFormedRequirement(all[k]) {
      if k < |build.items| {
        assert all[k] == build.items[k];
        assert In(all[k], build);
      } else {
        assert all[k] == run.items[k - |build.items|];
        assert In(all[k], run);
      }
    }
    assert forall k | 0 <= k < |build.items| :: build.items[k] == all[k];
    assert forall k | 0 <= k < |run.items| :: run.items[k] == all[|build.items| + k];
  }

  /** `check_requirements` on `meta.get('requirements', {})`, whose
      `build` and `run` lists default to empty. */
  function CheckRequirements(rc: RecipeCheck): (r: Outcome)
    ensures "requirements" !in Keys(rc.meta) ==> r == Ok(None)
    ensures !Section(rc, "requirements").Dict? ==> r == Err(AttributeError)
    ensures Section(rc, "requirements").Dict? ==>
      var build := GetOr(Section(rc, "requirements").entries, "build", List([]));
      var run := GetOr(Section(rc, "requirements").entries, "run", List([]));
      build.List? && run.List? ==>
        (r == Ok(None) <==>
          (forall k | 0 <= k < |build.items| :: WellFormedRequirement(build.items[k]))
          && (forall k | 0 <= k < |run.items| :: WellFormedRequirement(run.items[k]))
          && Distinct(build.items) && Distinct(run.items))
  {
    var requirements := Section(rc, "requirements");
    if !requirements.Dict? then Err(AttributeError)
    else
      RequirementsRule(rc, GetOr(requirements.entries, "build", List([])),
                       GetOr(requirements.entries, "run", List([])))
  }

  /** An all-white-space requirement raises `IndexError` instead of
      producing C2113. */
  lemma BlankRequirementRaises(rc: RecipeCheck, build: Value, run: Value, req: string)
    requires AllSpace(req)
    ensures RequirementOutcome(rc, build, run, Str(req)) == Err(IndexError)
  {
    SplitParts(req);
  }

  /** Duplicates are reported per list: a name listed once under build and
      once under run is not a duplicate. */
  lemma SharedRequirementIsNoDuplicate(rc: RecipeCheck, req: string)
    ensures DuplicatesOutcome(rc, List([Str(req)]), List([Str(req)])) == Ok(None)
  {
  }

  // ---------------------------------------------------------------------
  // about
  // ---------------------------------------------------------------------

  /** One URL of the about section: unset, or starting with `ftp://`,
      `http://` or `https://`. */
  function UrlOutcome(rc: RecipeCheck, url: Value): (r: Outcome)
    ensures url.Null? ==> r == Ok(None)
    ensures url.Str? ==> (r == Ok(None) <==> UrlMatch(url.s))
    ensures url.Str? && !UrlMatch(url.s) ==> r == Ok(Some(Diag(rc, "C2118", Format(MsgC2118, [url.s]))))
    ensures !url.Null? && !url.Str? ==> r == Err(TypeError)
  {
    if url.Null? then Ok(None)
    else if !url.Str? then Err(TypeError)
    else if UrlMatch(url.s) then Ok(None)
    else Ok(Some(Diag(rc, "C2118", Format(MsgC2118, [url.s]))))
  }

  const AboutUrls: seq<string> := ["home", "dev_url", "doc_url", "license_url"]

  /** `d.get(key)` for a mapping. */
  function AboutField(entries: seq<(string, Value)>, key: string): Value {
    GetOr(entries, key, Null)
  }

  /** `check_about` (C2117, C2118) on the value of `meta.get('about', {})`:
      a summary is too long above 80 characters; then the four URLs in
      order. */
  function AboutRule(rc: RecipeCheck, about: Value): (r: Outcome)
    ensures !about.Dict? ==> r == Err(AttributeError)
    ensures about.Dict? && AboutField(about.entries, "summary").Str? ==>
      (Reports(r, "C2117") <==> |AboutField(about.entries, "summary").s| > 80)
    ensures about.Dict? && AboutField(about.entries, "summary").Null? ==>
      r == FirstOutcome(AboutUrls, UrlStep(rc, about.entries), 0)
    ensures about.Dict? && AboutField(about.entries, "summary").Str?
            && |AboutField(about.entries, "summary").s| <= 80 ==>
      r == FirstOutcome(AboutUrls, UrlStep(rc, about.entries), 0)
    ensures about.Dict? && AboutField(about.entries, "summary").Str?
            && |AboutField(about.entries, "summary").s| > 80 ==>
      r == Ok(Some(Diag(rc, "C2117", MsgC2117)))
    ensures about.Dict? ==>
      (r == Ok(None) <==>
        SummaryFits(AboutField(about.entries, "summary"))
        && forall k | 0 <= k < |AboutUrls| :: UrlOutcome(rc, AboutField(about.entries, AboutUrls[k])) == Ok(None))
  {
    if !about.Dict? then Err(AttributeError)
    else
      var summary := AboutField(about.entries, "summary");
      var n :- if summary.Null? then Ok(0) else PyLen(summary);
      if n > 80 then Ok(Some(Diag(rc, "C2117", MsgC2117)))
      else FirstOutcome(AboutUrls, UrlStep(rc, about.entries), 0)
  }

  /** The summary test passes: no summary, or one of length at most 80. */
  predicate SummaryFits(summary: Value) {
    summary.Null? || (PyLen(summary).Ok? && PyLen(summary).value <= 80)
  }

  function UrlStep(rc: RecipeCheck, about: seq<(string, Value)>): string -> Outcome {
    (key: string) => UrlOutcome(rc, AboutField(about, key))
  }

  /** An about section that sets none of the four URLs passes the URL loop. */
  lemma NoUrlsPass(rc: RecipeCheck, about: seq<(string, Value)>)
    requires forall k | 0 <= k < |AboutUrls| :: AboutUrls[k] !in Keys(about)
    ensures FirstOutcome(AboutUrls, UrlStep(rc, about), 0) == Ok(None)
  {
  }

  /** `check_about` on `meta.get('about', {})`: a recipe without an about
      section passes; otherwise the check is silent exactly when the summary
      fits and every URL it sets is well formed. */
  function CheckAbout(rc: RecipeCheck): (r: Outcome)
    ensures "about" !in Keys(rc.meta) ==> r == Ok(None)
    ensures !Section(rc, "about").Dict? ==> r == Err(AttributeError)
    ensures Section(rc, "about").Dict? ==>
      (r == Ok(None) <==>
        SummaryFits(AboutField(Section(rc, "about").entries, "summary"))
        && forall k | 0 <= k < |AboutUrls| ::
          AboutField(Section(rc, "about").entries, AboutUrls[k]).Null?
          || (AboutField(Section(rc, "about").entries, AboutUrls[k]).Str?
              && UrlMatch(AboutField(Section(rc, "about").entries, AboutUrls[k]).s)))
  {
    NoUrlsPass(rc, []);
    AboutRule(rc, Section(rc, "about"))
  }

  /** A summary of exactly 80 characters is accepted and one of 81 is not. */
  lemma SummaryBoundary(rc: RecipeCheck, s: string)
    requires |s| == 80
    ensures AboutRule(rc, Dict([("summary", Str(s))])) == Ok(None)
    ensures AboutRule(rc, Dict([("summary", Str(s + "!"))])) == Ok(Some(Diag(rc, "C2117", MsgC2117)))
  {
    var about := [("summary", Str(s))];
    assert forall k | 0 <= k < |AboutUrls| :: AboutUrls[k] !in Keys(about);
    NoUrlsPass(rc, about);
    assert AboutField(about, "summary") == Str(s);
    assert AboutField([("summary", Str(s + "!"))], "summary") == Str(s + "!");
  }

  // ---------------------------------------------------------------------
  // source
  // ---------------------------------------------------------------------

  const HashAlgorithms: seq<string> := ["md5", "sha1", "sha256"]

  /** The digest length of `hash_pat[algorithm]`. */
  function DigestLength(algorithm: string): nat {
    if algorithm == "md5" then 32 else if algorithm == "sha1" then 40 else 64
  }

  /** One hash of a source: unset, or lower-case hexadecimal of the
      algorithm's length (C2119). */
  function HashOutcome(rc: RecipeCheck, source: seq<(string, Value)>, algorithm: string): (r: Outcome)
    ensures AboutField(source, algorithm).Null? ==> r == Ok(None)
    ensures AboutField(source, algorithm).Str? ==>
      (r == Ok(None) <==> HexDigest(AboutField(source, algorithm).s, DigestLength(algorithm)))
    ensures Reports(r, "C2119") ==>
      AboutField(source, algorithm).Str?
      && r.value.value.message == Format(MsgC2119, [AboutField(source, algorithm).s])
  {
    var digest := AboutField(source, algorithm);
    if digest.Null? then Ok(None)
    else if !digest.Str? then Err(TypeError)
    else if HexDigest(digest.s, DigestLength(algorithm)) then Ok(None)
    else Ok(Some(Diag(rc, "C2119", Format(MsgC2119, [digest.s]))))
  }

  /** The URL part of one source: a URL without a recognised scheme is
      C2120 and its hashes are not looked at; otherwise the hashes. */
  function SourceUrlOutcome(rc: RecipeCheck, source: seq<(string, Value)>): (r: Outcome)
    ensures AboutField(source, "url").Null? ==> r == Ok(None)
    ensures AboutField(source, "url").Str? && !UrlMatch(AboutField(source, "url").s) ==>
      r == Ok(Some(Diag(rc, "C2120", Format(MsgC2120, [AboutField(source, "url").s]))))
    ensures AboutField(source, "url").Str? && UrlMatch(AboutField(source, "url").s) ==>
      (r == Ok(None) <==> forall k | 0 <= k < |HashAlgorithms| :: HashOutcome(rc, source, HashAlgorithms[k]) == Ok(None))
  {
    var url := AboutField(source, "url");
    if url.Null? then Ok(None)
    else if !url.Str? then Err(TypeError)
    else if UrlMatch(url.s) then FirstOutcome(HashAlgorithms, (algorithm: string) => HashOutcome(rc, source, algorithm), 0)
    else Ok(Some(Diag(rc, "C2120", Format(MsgC2120, [url.s]))))
  }

  /** `git_url and (git_tag and git_branch)` */
  predicate GitConflict(source: seq<(string, Value)>) {
    Truthy(AboutField(source, "git_url")) && Truthy(AboutField(source, "git_tag"))
    && Truthy(AboutField(source, "git_branch"))
  }

  /** One source of `check_source`: the URL and its hashes, then the git
      conflict (C2121). */
  function SourceOutcome(rc: RecipeCheck, source: Value): (r: Outcome)
    ensures !source.Dict? ==> r == Err(AttributeError)
    ensures source.Dict? ==>
      (r == Ok(None) <==> SourceUrlOutcome(rc, source.entries) == Ok(None) && !GitConflict(source.entries))
    ensures source.Dict? && SourceUrlOutcome(rc, source.entries) == Ok(None) && GitConflict(source.entries) ==>
      r == Ok(Some(Diag(rc, "C2121", MsgC2121)))
  {
    if !source.Dict? then Err(AttributeError)
    else
      var pre := SourceUrlOutcome(rc, source.entries);
      if pre != Ok(None) then pre
      else if GitConflict(source.entries) then Ok(Some(Diag(rc, "C2121", MsgC2121)))
      else Ok(None)
  }

  /** `check_source` (C2119, C2120, C2121): `source` is one mapping or a
      list of them. */
  function CheckSource(rc: RecipeCheck): (r: Outcome)
    ensures r == Ok(None) <==> forall k | 0 <= k < |Utilities.EnsureList(Section(rc, "source"))| ::
      SourceOutcome(rc, Utilities.EnsureList(Section(rc, "source"))[k]) == Ok(None)
  {
    FirstOutcome(Utilities.EnsureList(Section(rc, "source")), (source: Value) => SourceOutcome(rc, source), 0)
  }

  /** A source whose URL has an unknown scheme is reported as such even when
      its hash is malformed. */
  lemma BadUrlHidesBadHash(rc: RecipeCheck, url: string, md5: string)
    requires !UrlMatch(url)
    ensures SourceOutcome(rc, Dict([("url", Str(url)), ("md5", Str(md5))])) ==
      Ok(Some(Diag(rc, "C2120", Format(MsgC2120, [url]))))
  {
    assert AboutField([("url", Str(url)), ("md5", Str(md5))], "url") == Str(url);
  }

  // ---------------------------------------------------------------------
  // about: license family
  // ---------------------------------------------------------------------

  /** `check_license_family` (C2122) on the value of `about/license_family`. */
  function LicenseRule(rc: RecipeCheck, family: Value): (r: Option<Diagnostic>)
    ensures r.None? <==> family.Null? || InStrs(family, LicenseFamilies)
    ensures r.Some? ==> r.value == Diag(rc, "C2122", Format(MsgC2122, [PyStr(family)]))
  {
    if family.Null? || InStrs(family, LicenseFamilies) then None
    else Some(Diag(rc, "C2122", Format(MsgC2122, [PyStr(family)])))
  }

  /** `check_license_family` on `meta.get('about', {}).get('license_family')`:
      an unset family passes, any other value must be one of the known ones. */
  function CheckLicenseFamily(rc: RecipeCheck): (r: Outcome)
    ensures "about" !in Keys(rc.meta) ==> r == Ok(None)
    ensures !Section(rc, "about").Dict? ==> r == Err(AttributeError)
    ensures r == Ok(None) <==>
      var family := MetaGet(rc, "about", "license_family", Null);
      family.Ok? && (family.value.Null? || InStrs(family.value, LicenseFamilies))
  {
    var family :- MetaGet(rc, "about", "license_family", Null);
    Ok(LicenseRule(rc, family))
  }

  // ---------------------------------------------------------------------
  // Files listed in meta.yaml
  // ---------------------------------------------------------------------

  /** The items that `list.extend(v)` appends. */
  function ExtendItems(v: Value): Res<seq<Value>> {
    Iter(v)
  }

  /** `Ok(prefix + r)`, or the same failure. */
  function Prepend(prefix: seq<Value>, r: Res<seq<Value>>): (q: Res<seq<Value>>)
    ensures q.Ok? <==> r.Ok?
    ensures q.Err? ==> q == r
    ensures q.Ok? ==> q.value == prefix + r.value
  {
    if r.Err? then r else Ok(prefix + r.value)
  }

  /** The patches of `sources[i..]`, as the extend loop collects them: each
      source must be a mapping, and its `patches` (default empty) must be
      iterable. */
  function PatchesFrom(sources: seq<Value>, i: nat): (r: Res<seq<Value>>)
    requires i <= |sources|
    decreases |sources| - i
  {
    if i == |sources| then Ok([])
    else
      var patches :- Get(sources[i], "patches", List([]));
      var items :- ExtendItems(patches);
      Prepend(items, PatchesFrom(sources, i + 1))
  }

  /** Lists of patches are concatenated in source order. */
  lemma {:induction false} PatchesOfLists(sources: seq<Value>, i: nat, lists: seq<seq<Value>>)
    requires i <= |sources| && |lists| == |sources|
    requires forall k | i <= k < |sources| :: sources[k] == Dict([("patches", List(lists[k]))])
    ensures PatchesFrom(sources, i).Ok?
    ensures forall k | i <= k < |sources| :: forall x | x in lists[k] :: x in PatchesFrom(sources, i).value
    decreases |sources| - i
  {
    if i < |sources| {
      PatchesOfLists(sources, i + 1, lists);
      assert Get(sources[i], "patches", List([])) == Ok(List(lists[i]));
    }
  }

  /** `source_patches = []`, then `source_patches.extend(...)` for each
      source. */
  method CollectPatches(sources: seq<Value>) returns (r: Res<seq<Value>>)
    ensures r == PatchesFrom(sources, 0)
  {
    var patches: seq<Value> := [];
    var i := 0;
    PrependNothing(PatchesFrom(sources, 0));
    while i < |sources|
      invariant 0 <= i <= |sources|
      invariant PatchesFrom(sources, 0) == Prepend(patches, PatchesFrom(sources, i))
    {
      var more := Get(sources[i], "patches", List([]));
      if more.Err? {
        return Err(more.exc);
      }
      var items := ExtendItems(more.value);
      if items.Err? {
        return Err(items.exc);
      }
      PrependTwice(patches, items.value, PatchesFrom(sources, i + 1));
      patches := patches + items.value;
      i := i + 1;
    }
    assert patches + [] == patches;
    return Ok(patches);
  }

  lemma PrependNothing(r: Res<seq<Value>>)
    ensures Prepend([], r) == r
  {
    if r.Ok? {
      assert [] + r.value == r.value;
    }
  }

  lemma PrependTwice(a: seq<Value>, b: seq<Value>, r: Res<seq<Value>>)
    ensures Prepend(a, Prepend(b, r)) == Prepend(a + b, r)
  {
    if r.Ok? {
      assert a + (b + r.value) == (a + b) + r.value;
    }
  }

  function ListedPaths(rc: RecipeCheck): seq<string> {
    seq(|rc.files|, (k: int) requires 0 <= k < |rc.files| => rc.files[k].0)
  }

  /** `os.path.exists(os.path.join(recipe_dir, name))` for a relative name:
      the directory itself, one of its files, or a directory holding some
      file. */
  predicate Exists(rc: RecipeCheck, name: string) {
    name == "" || name in ListedPaths(rc)
    || exists k | 0 <= k < |rc.files| :: StartsWith(rc.files[k].0, name + "/")
  }

  /** One listed file: `os.path.join` raises `TypeError` on a name that is
      not a string; a name starting with `..` is C2123, checked before a
      missing file (C2124). */
  function FileOutcome(rc: RecipeCheck, name: Value): (r: Outcome)
    ensures !name.Str? ==> r == Err(TypeError)
    ensures name.Str? && StartsWith(name.s, "..") ==> r == Ok(Some(Diag(rc, "C2123", Format(MsgC2123, [name.s]))))
    ensures name.Str? && !StartsWith(name.s, "..") ==>
      (r == Ok(None) <==> Exists(rc, name.s))
    ensures Reports(r, "C2124") ==> r.value.value.message == Format(MsgC2124, [name.s])
  {
    if !name.Str? then Err(TypeError)
    else if StartsWith(name.s, "..") then Ok(Some(Diag(rc, "C2123", Format(MsgC2123, [name.s]))))
    else if !Exists(rc, name.s) then Ok(Some(Diag(rc, "C2124", Format(MsgC2124, [name.s]))))
    else Ok(None)
  }

  /** `check_for_valid_files` (C2123, C2124) as a value: a `test` section
      that is no mapping has no `get`; a failure while collecting the
      patches propagates; otherwise the listed files are checked, `test/files`,
      `test/source_files` and the patches in that order. */
  function ValidFiles(rc: RecipeCheck): (r: Outcome)
    ensures r.Ok? && r.value.Some? ==> r.value.value.code in {"C2123", "C2124"}
    ensures !Section(rc, "test").Dict? ==> r == Err(AttributeError)
    ensures Section(rc, "test").Dict? && PatchesFrom(Utilities.EnsureList(Section(rc, "source")), 0).Err? ==>
      r == Err(PatchesFrom(Utilities.EnsureList(Section(rc, "source")), 0).exc)
    ensures Section(rc, "test").Dict? && PatchesFrom(Utilities.EnsureList(Section(rc, "source")), 0).Ok? ==>
      r == ListedFilesOutcome(rc, GetOr(Section(rc, "test").entries, "files", List([])),
                              GetOr(Section(rc, "test").entries, "source_files", List([])),
                              PatchesFrom(Utilities.EnsureList(Section(rc, "source")), 0).value)
  {
    var test := Section(rc, "test");
    if !test.Dict? then Err(AttributeError)
    else
      var patches :- PatchesFrom(Utilities.EnsureList(Section(rc, "source")), 0);
      ListedFilesOutcome(rc, GetOr(test.entries, "files", List([])),
                         GetOr(test.entries, "source_files", List([])), patches)
  }

  /** The loop over `test_files + test_source_files + source_patches`. */
  function ListedFilesOutcome(rc: RecipeCheck, files: Value, sourceFiles: Value, patches: seq<Value>): (r: Outcome)
    ensures !files.List? || !sourceFiles.List? ==> r == Err(TypeError)
    ensures files.List? && sourceFiles.List? ==>
      (r == Ok(None) <==> forall k | 0 <= k < |files.items + sourceFiles.items + patches| ::
        FileOutcome(rc, (files.items + sourceFiles.items + patches)[k]) == Ok(None))
    ensures files.List? && sourceFiles.List? ==>
      (r == Ok(None) <==> forall k | 0 <= k < |files.items + sourceFiles.items + patches| ::
        var name := (files.items + sourceFiles.items + patches)[k];
        name.Str? && !StartsWith(name.s, "..") && Exists(rc, name.s))
    ensures files.List? && sourceFiles.List? && r != Ok(None) ==>
      exists k | 0 <= k < |files.items + sourceFiles.items + patches| ::
        r == FileOutcome(rc, (files.items + sourceFiles.items + patches)[k])
        && forall j | 0 <= j < k :: FileOutcome(rc, (files.items + sourceFiles.items + patches)[j]) == Ok(None)
    ensures r.Ok? && r.value.Some? ==> r.value.value.code in {"C2123", "C2124"}
  {
    if !files.List? || !sourceFiles.List? then Err(TypeError)
    else FirstOutcome(files.items + sourceFiles.items + patches, (name: Value) => FileOutcome(rc, name), 0)
  }

  /** Listed test files that all exist inside the directory pass. */
  lemma ListedFilesPass(rc: RecipeCheck, files: seq<string>, sourceFiles: seq<string>)
    requires forall k | 0 <= k < |files| :: !StartsWith(files[k], "..") && files[k] in ListedPaths(rc)
    requires forall k | 0 <= k < |sourceFiles| :: !StartsWith(sourceFiles[k], "..") && sourceFiles[k] in ListedPaths(rc)
    ensures ListedFilesOutcome(rc, List(StrValues(files)), List(StrValues(sourceFiles)), []) == Ok(None)
  {
    var all := StrValues(files) + StrValues(sourceFiles) + [];
    forall k | 0 <= k < |all| ensures FileOutcome(rc, all[k]) == Ok(None) {
      if k < |files| {
        assert all[k] == Str(files[k]);
      } else {
        assert all[k] == Str(sourceFiles[k - |files|]);
      }
    }
  }

  /** A file listed first under `test/files` outside the directory is
      reported, whatever comes after it. */
  lemma OutsideFileReported(rc: RecipeCheck, name: string, rest: seq<Value>, sourceFiles: seq<Value>, patches: seq<Value>)
    requires StartsWith(name, "..")
    ensures ListedFilesOutcome(rc, List([Str(name)] + rest), List(sourceFiles), patches)
      == Ok(Some(Diag(rc, "C2123", Format(MsgC2123, [name]))))
  {
    assert ([Str(name)] + rest + sourceFiles + patches)[0] == Str(name);
  }

  /** Without a `source` section there are no patches. */
  lemma NoSourceNoPatches(rc: RecipeCheck)
    requires "source" !in Keys(rc.meta)
    ensures PatchesFrom(Utilities.EnsureList(Section(rc, "source")), 0) == Ok([])
  {
    assert PatchesFrom([Dict([])], 1) == Ok([]);
  }

  /** `check_for_valid_files`, with its extend loop. */
  method CheckForValidFiles(rc: RecipeCheck) returns (r: Outcome)
    ensures r == ValidFiles(rc)
  {
    var test := Section(rc, "test");
    if !test.Dict? {
      return Err(AttributeError);
    }
    var files := GetOr(test.entries, "files", List([]));
    var sourceFiles := GetOr(test.entries, "source_files", List([]));
    var patches := CollectPatches(Utilities.EnsureList(Section(rc, "source")));
    if patches.Err? {
      return Err(patches.exc);
    }
    r := ListedFilesOutcome(rc, files, sourceFiles, patches.value);
  }

  // ---------------------------------------------------------------------
  // Directory content and comments
  // ---------------------------------------------------------------------

  const DisallowedExtensions: seq<string> :=
    [".tar", ".tar.gz", ".tar.bz2", ".tar.xz", ".so", ".dylib", ".la", ".a", ".dll", ".pyd"]

  /** One file of the walk: its full path must not end with a disallowed
      extension (C2125). */
  function ContentOutcome(rc: RecipeCheck, file: (string, nat)): (r: Outcome)
    ensures r == Ok(None) <==> !EndsWithAny(PathJoin(rc.recipeDir, file.0), DisallowedExtensions)
    ensures r != Ok(None) ==>
      r == Ok(Some(Diag(rc, "C2125", Format(MsgC2125, [PathJoin(rc.recipeDir, file.0)]))))
  {
    var path := PathJoin(rc.recipeDir, file.0);
    if EndsWithAny(path, DisallowedExtensions) then Ok(Some(Diag(rc, "C2125", Format(MsgC2125, [path]))))
    else Ok(None)
  }

  /** `check_dir_content` (C2125): the first disallowed file of the walk. */
  function CheckDirContent(rc: RecipeCheck): (r: Outcome)
    ensures r == Ok(None) <==>
      forall k | 0 <= k < |rc.files| :: !EndsWithAny(PathJoin(rc.recipeDir, rc.files[k].0), DisallowedExtensions)
    ensures r != Ok(None) ==> exists k | 0 <= k < |rc.files| ::
      r == Ok(Some(Diag(rc, "C2125", Format(MsgC2125, [PathJoin(rc.recipeDir, rc.files[k].0)]))))
  {
    FirstOutcome(rc.files, (file: (string, nat)) => ContentOutcome(rc, file), 0)
  }

  /** A line of the conda-forge example recipe's comments. */
  predicate ForgeComment(line: string) {
    StartsWith(line, "#") && line in CondaForgeCommentLines
  }

  predicate HasForgeComment(lines: seq<string>) {
    exists k | 0 <= k < |lines| :: ForgeComment(lines[k])
  }

  /** `check_recipes_comments` (C2126): `meta.yaml` must exist, and none of
      its lines may be one of the template's comments. */
  function CheckRecipesComments(rc: RecipeCheck): (r: Outcome)
    ensures rc.metaYaml.None? ==> r == Err(FileNotFoundError(PathJoin(rc.recipeDir, "meta.yaml")))
    ensures rc.metaYaml.Some? ==> r.Ok? && (r.value.Some? <==> HasForgeComment(SplitLines(rc.metaYaml.value)))
    ensures r.Ok? && r.value.Some? ==> r.value.value == Diag(rc, "C2126", MsgC2126)
  {
    match rc.metaYaml
    case None => Err(FileNotFoundError(PathJoin(rc.recipeDir, "meta.yaml")))
    case Some(text) =>
      var lines := SplitLines(text);
      if HasForgeComment(lines) then Ok(Some(Diag(rc, "C2126", MsgC2126)))
      else Ok(None)
  }

  /** The empty line of the template is not a comment: blank lines never
      trigger C2126. */
  lemma BlankLinesAreNoComments()
    ensures !ForgeComment("")
  {
  }
}
