/** `conda_verify/recipe.py`: the oldest recipe validator. Every problem
    raises a plain `Exception`, except a license family that is not known,
    which prints the families and exits with status 1, and a license
    ending in `)` that is not written `text (http...)`, which fails an
    assertion. Its `ns_cfg`, `select_lines` and `iter_cfgs` have the bodies
    of `Utils.NsCfg`, `Utilities.SelectLines` and `Utilities.IterCfgs`, and
    its section screening and URL, hash, git and summary rules those of
    `RecipeRules` and `RecipeMeta`, which are used here raising
    `Exception`. */
module Recipe {
  import opened Base
  import opened Text
  import opened Values
  import opened Patterns
  import opened RecipeTree
  import Constants
  import Common
  import Utilities
  import Utils
  import RecipeChecks
  import RecipeRules
  import RecipeMeta
  import RecipeFiles

  // ---------------------------------------------------------------------
  // get_field
  // ---------------------------------------------------------------------

  /** `get_field(meta, section + '/' + key, default)` of this file: a
      missing or `None` section reads as `{}`, a section that is not a
      mapping has no `.get`, and a key that is present is returned even
      when it is bound to `None`. */
  function Field(meta: seq<(string, Value)>, section: string, key: string, default: Value): (r: Res<Value>)
    ensures var sub := RecipeChecks.GetOr(meta, section, Null);
      (r.Err? <==> !sub.Null? && !sub.Dict?) && (r.Err? ==> r.exc == AttributeError)
    ensures var sub := RecipeChecks.GetOr(meta, section, Null);
      sub.Null? || (sub.Dict? && key !in Keys(sub.entries)) ==> r == Ok(default)
    ensures var sub := RecipeChecks.GetOr(meta, section, Null);
      sub.Dict? && key in Keys(sub.entries) ==> r == Ok(Lookup(sub.entries, key).value)
  {
    var submeta := RecipeChecks.GetOr(meta, section, Null);
    Get(if submeta.Null? then Dict([]) else submeta, key, default)
  }

  /** The `get_field` of `utils.py` differs only in replacing a `None`
      value by the default; with `None` as the default the two agree. */
  lemma FieldVersusUtils(meta: seq<(string, Value)>, section: string, key: string, default: Value)
    ensures Utils.GetSectionKey(Dict(meta), section, key, default)
      == if Field(meta, section, key, default) == Ok(Null) then Ok(default) else Field(meta, section, key, default)
    ensures Utils.GetSectionKey(Dict(meta), section, key, Null) == Field(meta, section, key, Null)
  {
    assert Lookup(meta, section).Some? ==> Lookup(meta, section) == Some(RecipeChecks.GetOr(meta, section, Null));
  }

  /** A key bound to `None` is returned as `None`, not as the default. */
  lemma PresentNoneKept(section: string, key: string, default: Value)
    ensures Field([(section, Dict([(key, Null)]))], section, key, default) == Ok(Null)
  {
    var meta := [(section, Dict([(key, Null)]))];
    assert Keys(meta) == [section];
    assert RecipeChecks.GetOr(meta, section, Null) == Dict([(key, Null)]);
    assert Keys([(key, Null)]) == [key];
  }

  // ---------------------------------------------------------------------
  // check_name, check_version, check_build_number
  // ---------------------------------------------------------------------

  const MsgNameMissing := "package name missing"

  function MsgBadName(s: string): string { "invalid package name '" + s + "'" }

  /** `check_name(name)`: a name must be set and, as a string, match the
      name pattern; nothing else is checked. */
  function CheckName(name: Value): (r: Status)
    ensures r == Pass <==> Truthy(name) && NameMatch(PyStr(name))
    ensures !Truthy(name) ==> r == Err(PlainException(MsgNameMissing))
    ensures Truthy(name) && !NameMatch(PyStr(name)) ==> r == Err(PlainException(MsgBadName(PyStr(name))))
  {
    if !Truthy(name) then Err(PlainException(MsgNameMissing))
    else Need(NameMatch(PyStr(name)), PlainException(MsgBadName(PyStr(name))))
  }

  /** Every name `common.py` accepts is accepted here, and a name ending in
      a separator shows that the converse fails. */
  lemma NameLooser(name: Value)
    ensures Common.CheckName(name).None? ==> CheckName(name) == Pass
    ensures CheckName(Str("a-")) == Pass && Common.CheckName(Str("a-")).Some?
  {
    Common.CheckNameSpec(name);
    Common.CheckNameSpec(Str("a-"));
    assert PyStr(Str("a-")) == "a-";
    assert NameMatch("a-") by { assert NameStart("a-"[0]) && NameChar("a-"[1]); }
    assert EndsWith("a-", Common.TrailingChars[1]);
  }

  const MsgVersionMissing := "package version missing"

  function MsgBadVersion(s: string): string { "invalid package version '" + s + "'" }

  /** `check_version(ver)`: a version must be set and, as a string, match
      the version pattern; nothing else is checked. */
  function CheckVersion(ver: Value): (r: Status)
    ensures r == Pass <==> Truthy(ver) && VersionMatch(PyStr(ver))
    ensures !Truthy(ver) ==> r == Err(PlainException(MsgVersionMissing))
    ensures Truthy(ver) && !VersionMatch(PyStr(ver)) ==> r == Err(PlainException(MsgBadVersion(PyStr(ver))))
  {
    if !Truthy(ver) then Err(PlainException(MsgVersionMissing))
    else Need(VersionMatch(PyStr(ver)), PlainException(MsgBadVersion(PyStr(ver))))
  }

  /** Every version `common.py` accepts is accepted here, and a version
      ending in `.` shows that the converse fails. */
  lemma VersionLooser(ver: Value)
    ensures Common.CheckVersion(ver).None? ==> CheckVersion(ver) == Pass
    ensures CheckVersion(Str("1.")) == Pass && Common.CheckVersion(Str("1.")).Some?
  {
    Common.CheckVersionOrder(ver);
    Common.CheckVersionOrder(Str("1."));
    assert PyStr(Str("1.")) == "1.";
    assert VersionMatch("1.") by { assert VersionChar("1."[0]) && VersionChar("1."[1]); }
    assert EndsWith("1.", ".");
    assert EndsWithAny("1.", ["_", "."]) by { assert EndsWith("1.", ["_", "."][1]); }
  }

  /** `check_build_number(bn)`: the same condition as everywhere else, and
      the message of `recipe/test_meta.py`. */
  function CheckBuildNumber(bn: Value): (r: Status)
    ensures r == Pass <==> Common.CheckBuildNumber(bn).None?
    ensures r != Pass ==> r == Err(PlainException(RecipeMeta.MsgBadBuildNumber(bn)))
  {
    Need(IsInt(bn) && IntOf(bn) >= 0, PlainException(RecipeMeta.MsgBadBuildNumber(bn)))
  }

  // ---------------------------------------------------------------------
  // check_license_family, check_about
  // ---------------------------------------------------------------------

  /** The family, read with the license, which is read first, as its
      default. */
  function LicenseFamily(meta: seq<(string, Value)>): Res<Value> {
    var license :- Field(meta, "about", "license", Null);
    Field(meta, "about", "license_family", license)
  }

  /** `check_license_family(meta)`: a family that is not known ends the
      program with status 1 after printing the known families. */
  function CheckLicenseFamily(meta: seq<(string, Value)>): (r: Status)
    ensures r == Pass <==> LicenseFamily(meta).Ok? && InStrs(LicenseFamily(meta).value, Constants.LicenseFamilies)
    ensures LicenseFamily(meta).Err? ==> r == Err(LicenseFamily(meta).exc)
    ensures LicenseFamily(meta).Ok? && !InStrs(LicenseFamily(meta).value, Constants.LicenseFamilies) ==>
      r == Err(SystemExit(1))
  {
    var family :- LicenseFamily(meta);
    Need(InStrs(family, Constants.LicenseFamilies), SystemExit(1))
  }

  /** A family written `license_family:` with no value stops the program
      here, where the later checkers fall back to the license. */
  lemma NoneFamilyExits(meta: seq<(string, Value)>, about: seq<(string, Value)>)
    requires Lookup(meta, "about") == Some(Dict(about)) && Lookup(about, "license_family") == Some(Null)
    ensures CheckLicenseFamily(meta) == Err(SystemExit(1))
    ensures RecipeRules.LicenseFamily(meta) == Ok(RecipeChecks.GetOr(about, "license", Null))
  {
    assert RecipeChecks.GetOr(meta, "about", Null) == Dict(about);
    assert RecipeChecks.GetOr(about, "license_family", Null) == Null;
    assert LicenseFamily(meta).Ok? && LicenseFamily(meta).value == Null;
  }

  /** The URLs of `check_about`: `license_url` is not among them. */
  const AboutUrlKeys: seq<string> := ["home", "dev_url", "doc_url"]

  /** `if url: check_url(url)` for one about field. */
  function AboutUrlRule(meta: seq<(string, Value)>, key: string): (r: Status)
    ensures Field(meta, "about", key, Null).Ok? ==>
      r == RecipeRules.OptionalUrlRule(RaisesException, Field(meta, "about", key, Null).value)
    ensures Field(meta, "about", key, Null).Err? ==> r == Err(Field(meta, "about", key, Null).exc)
  {
    var url :- Field(meta, "about", key, Null);
    RecipeRules.OptionalUrlRule(RaisesException, url)
  }

  /** `check_about(meta)`: the summary limit always raises, then three
      URLs in order, then the license family. */
  function CheckAbout(meta: seq<(string, Value)>): (r: Status)
    ensures r == Pass <==>
      Field(meta, "about", "summary", Null).Ok?
      && RecipeRules.SummaryRule(RaisesException, Field(meta, "about", "summary", Null).value, true) == Pass
      && (forall k | 0 <= k < |AboutUrlKeys| :: AboutUrlRule(meta, AboutUrlKeys[k]) == Pass)
      && CheckLicenseFamily(meta) == Pass
    ensures (Field(meta, "about", "summary", Null).Ok?
             && RecipeRules.SummaryRule(RaisesException, Field(meta, "about", "summary", Null).value, true) != Pass) ==>
      r == RecipeRules.SummaryRule(RaisesException, Field(meta, "about", "summary", Null).value, true)
  {
    var summary :- Field(meta, "about", "summary", Null);
    var _ :- RecipeRules.SummaryRule(RaisesException, summary, true);
    var f := (key: string) => AboutUrlRule(meta, key);
    assert forall k | 0 <= k < |AboutUrlKeys| :: f(AboutUrlKeys[k]) == AboutUrlRule(meta, AboutUrlKeys[k]);
    var _ :- Each(AboutUrlKeys, f, 0);
    CheckLicenseFamily(meta)
  }

  /** The URLs checked here are the first three that `CondaRecipeCheck`
      checks: a bad `license_url` is never noticed. */
  lemma UrlsChecked()
    ensures forall k | 0 <= k < |AboutUrlKeys| :: AboutUrlKeys[k] == RecipeRules.AboutUrlKeys[k]
    ensures "license_url" in RecipeRules.AboutUrlKeys && "license_url" !in AboutUrlKeys
  {
    assert RecipeRules.AboutUrlKeys[3] == "license_url";
  }

  // ---------------------------------------------------------------------
  // validate_meta
  // ---------------------------------------------------------------------

  /** The name, version and build number, each read and checked in turn;
      an unset build number is 0, one written with no value is `None`. */
  function IdentityRule(meta: seq<(string, Value)>): (r: Status)
    ensures r == Pass ==>
      Field(meta, "package", "name", Null).Ok? && CheckName(Field(meta, "package", "name", Null).value) == Pass
      && Field(meta, "package", "version", Null).Ok? && CheckVersion(Field(meta, "package", "version", Null).value) == Pass
      && Field(meta, "build", "number", Int(0)).Ok?
      && CheckBuildNumber(Field(meta, "build", "number", Int(0)).value) == Pass
    ensures (Field(meta, "package", "name", Null).Ok? && CheckName(Field(meta, "package", "name", Null).value) != Pass) ==>
      r == CheckName(Field(meta, "package", "name", Null).value)
  {
    var name :- Field(meta, "package", "name", Null);
    var named := CheckName(name);
    if named != Pass then named else
    // the section was read for the name, so this lookup cannot fail
    var version := Field(meta, "package", "version", Null).value;
    var _ :- CheckVersion(version);
    var number :- Field(meta, "build", "number", Int(0));
    CheckBuildNumber(number)
  }

  /** `lic = get_field(meta, 'about/license')`: a license ending in `)`
      must be written `text (http...)`; `endswith` on a set value that is
      not a string raises `AttributeError`. */
  function LicenseRule(meta: seq<(string, Value)>): (r: Status)
    ensures Field(meta, "about", "license", Null).Ok? ==>
      var lic := Field(meta, "about", "license", Null).value;
      (r == Pass <==> !Truthy(lic) || (lic.Str? && (EndsWith(lic.s, ")") ==> LicMatch(lic.s))))
      && (Truthy(lic) && !lic.Str? ==> r == Err(AttributeError))
      && (lic.Str? && EndsWith(lic.s, ")") && !LicMatch(lic.s) ==> r == Err(AssertionError(lic.s)))
  {
    var lic :- Field(meta, "about", "license", Null);
    if !Truthy(lic) then Pass
    else
      var s :- AsStr(lic, AttributeError);
      if EndsWith(s, ")") then Need(LicMatch(s), AssertionError(s)) else Pass
  }

  /** A license naming its URL in parentheses is accepted. */
  lemma LicenseWithUrl()
    ensures LicMatch("BSD (http://x)")
  {
    var s := "BSD (http://x)";
    assert s[4..9] == "(http";
    assert LeadAndSpace(s, 3, 4) by { assert s[3..4] == " "; assert AllSpace(s[3..4]); }
    assert LicSplitAt(s, 4) by { assert s[9..|s| - 1] == "://x"; assert NoSpace("://x"); }
  }

  /** A license ending in `)` without a URL fails the assertion. */
  lemma LicenseWithoutUrl()
    ensures !LicMatch("BSD (see below)")
  {
    var s := "BSD (see below)";
    forall p | 0 <= p < |s| ensures !LicSplitAt(s, p) {
      assert forall i | 0 <= i < |s| :: s[i] != 'h';
      if 0 <= p && p + 5 < |s| {
        assert s[p..p + 5][1] == s[p + 1];
        assert s[p..p + 5] != "(http";
      }
    }
  }

  /** `\S+` needs at least one character after `http`, so an empty URL
      fails the assertion. */
  lemma LicenseEmptyUrl()
    ensures !LicMatch("x (http)")
  {
    var s := "x (http)";
    forall p | 0 <= p < |s| ensures !LicSplitAt(s, p) {
      if 0 <= p && p + 5 < |s| - 1 {
        assert s[p..p + 5][0] == s[p];
        assert s[p..p + 5] != "(http";
      }
    }
  }

  /** `validate_meta(meta)`: the sections and their keys, always strictly;
      then name, version and build number; the about section with the
      license family; the source; and the license's URL. */
  function ValidateMeta(meta: seq<(string, Value)>): (r: Status)
    ensures r == Pass <==>
      RecipeRules.SectionsRule(RaisesException, meta, true) == Pass && IdentityRule(meta) == Pass
      && CheckAbout(meta) == Pass && RecipeMeta.CheckSource(RaisesException, meta) == Pass
      && LicenseRule(meta) == Pass
    ensures RecipeRules.SectionsRule(RaisesException, meta, true) != Pass ==>
      r == RecipeRules.SectionsRule(RaisesException, meta, true)
    ensures (RecipeRules.SectionsRule(RaisesException, meta, true) == Pass && IdentityRule(meta) == Pass
             && CheckAbout(meta) != Pass) ==>
      r == CheckAbout(meta)
  {
    var _ :- RecipeRules.SectionsRule(RaisesException, meta, true);
    var _ :- IdentityRule(meta);
    var _ :- CheckAbout(meta);
    var _ :- RecipeMeta.CheckSource(RaisesException, meta);
    LicenseRule(meta)
  }

  /** An empty recipe is refused for its missing name. */
  lemma EmptyMetaRefused()
    ensures ValidateMeta([]) == Err(PlainException(MsgNameMissing))
  {
    assert Keys([]) == [];
    assert Field([], "package", "name", Null) == Ok(Null);
  }

  // ---------------------------------------------------------------------
  // validate_files
  // ---------------------------------------------------------------------

  /** The fields naming files, as (section, key). */
  const FileFields: seq<(string, string)> := [("test", "files"), ("source", "patches")]

  function FieldFilesRule(dir: RecipeDir, meta: seq<(string, Value)>, field: (string, string)): (r: Status)
    ensures Field(meta, field.0, field.1, Null).Ok? ==>
      r == ListedFilesRule(RaisesException, dir, Field(meta, field.0, field.1, Null).value)
    ensures Field(meta, field.0, field.1, Null).Err? ==> r == Err(AttributeError)
  {
    var flst :- Field(meta, field.0, field.1, Null);
    ListedFilesRule(RaisesException, dir, flst)
  }

  /** `validate_files(recipe_dir, meta)`: every name listed by the two
      fields stays inside the recipe and is a file there. */
  function ValidateFiles(dir: RecipeDir, meta: seq<(string, Value)>): (r: Status)
    ensures r == Pass <==> forall k | 0 <= k < |FileFields| :: FieldFilesRule(dir, meta, FileFields[k]) == Pass
  {
    var f := (field: (string, string)) => FieldFilesRule(dir, meta, field);
    assert forall k | 0 <= k < |FileFields| :: f(FileFields[k]) == FieldFilesRule(dir, meta, FileFields[k]);
    Each(FileFields, f, 0)
  }

  /** `recipe/test_files.py` accepts exactly the recipes accepted here;
      only the exception class differs. */
  lemma FilesSameVerdict(dir: RecipeDir, meta: seq<(string, Value)>)
    ensures ValidateFiles(dir, meta) == Pass <==> RecipeFiles.ValidateFiles(dir, Dict(meta)) == Pass
  {
    forall k | 0 <= k < |FileFields|
      ensures FieldFilesRule(dir, meta, FileFields[k]) == Pass
          <==> RecipeRules.FieldFilesRule(RaisesRecipeError, Dict(meta), dir, RecipeFiles.FileFields[k]) == Pass
    {
      assert FileFields[k] == RecipeFiles.FileFields[k];
      FieldVersusUtils(meta, FileFields[k].0, FileFields[k].1, Null);
      if Field(meta, FileFields[k].0, FileFields[k].1, Null).Ok? {
        ListedSameVerdict(dir, Field(meta, FileFields[k].0, FileFields[k].1, Null).value);
      }
    }
  }

  /** Whether a list of files is accepted does not depend on the exception
      class. */
  lemma ListedSameVerdict(dir: RecipeDir, flst: Value)
    ensures ListedFilesRule(RaisesException, dir, flst) == Pass <==> ListedFilesRule(RaisesRecipeError, dir, flst) == Pass
  {
    if Truthy(flst) && Iter(flst).Ok? {
      var fns := Iter(flst).value;
      assert forall k | 0 <= k < |fns| ::
        (FileRule(RaisesException, dir, fns[k]) == Pass <==> FileRule(RaisesRecipeError, dir, fns[k]) == Pass);
    }
  }

  // ---------------------------------------------------------------------
  // parse, validate_recipe
  // ---------------------------------------------------------------------

  /** `eval(cond, namespace, {})`: the Python evaluator of selector
      conditions, a parameter of the model. */
  type Eval = (string -> Option<Value>, string) -> bool

  /** `yaml.load(text)`: the YAML parser, a parameter of the model; a
      parser error propagates as its exception. */
  type Load = string -> Res<Value>

  function Holds(eval: Eval, ns: string -> Option<Value>): string -> bool {
    cond => eval(ns, cond)
  }

  /** The text `select_lines(data, ns_cfg(cfg))` returns. */
  function Selected(data: string, ns: string -> Option<Value>, eval: Eval): string {
    Join("\n", Utilities.KeptLines(SplitLines(data), Holds(eval, ns))) + "\n"
  }

  /** `dict(yamlize(text))`: an empty document is `{}`, a mapping is
      copied; a scalar is refused by `dict`. */
  function DictOf(doc: Value): (r: Res<seq<(string, Value)>>)
    ensures doc.Dict? ==> r == Ok(doc.entries)
    ensures doc.Null? ==> r == Ok([])
    ensures doc.Int? || doc.Bool? ==> r == Err(TypeError)
  {
    match doc
    case Null => Ok([])
    case Dict(entries) => Ok(entries)
    case Str(s) => if s == "" then Ok([]) else Err(ValueError)
    case List(items) => if items == [] then Ok([]) else Err(ValueError)
    case _ => Err(TypeError)
  }

  /** `meta = parse(data, cfg)` followed by `validate_meta(meta)` and
      `validate_files(recipe_dir, meta)`, once the selectors are applied. */
  function SelectedRule(dir: RecipeDir, text: string, load: Load): (r: Status)
    ensures load(text).Ok? && DictOf(load(text).value).Ok? ==>
      var meta := DictOf(load(text).value).value;
      r == Pass <==> ValidateMeta(meta) == Pass && ValidateFiles(dir, meta) == Pass
    ensures load(text).Err? ==> r == Err(load(text).exc)
  {
    var doc :- load(text);
    var meta :- DictOf(doc);
    var _ :- ValidateMeta(meta);
    ValidateFiles(dir, meta)
  }

  /** One configuration of `validate_recipe`'s loop. */
  function CfgRule(dir: RecipeDir, data: string, eval: Eval, load: Load, cfg: Utilities.Cfg): (r: Status)
    ensures Utils.NsCfg(cfg).Err? ==> r == Err(Utils.NsCfg(cfg).exc)
    ensures Utils.NsCfg(cfg).Ok? ==> r == SelectedRule(dir, Selected(data, Utils.NsCfg(cfg).value, eval), load)
  {
    var ns :- Utils.NsCfg(cfg);
    SelectedRule(dir, Selected(data, ns, eval), load)
  }

  function CfgRules(dir: RecipeDir, data: string, eval: Eval, load: Load): Utilities.Cfg -> Status {
    cfg => CfgRule(dir, data, eval, load, cfg)
  }

  /** A character `validate_recipe` admits: a newline or printable ASCII. */
  predicate Admitted(c: char) { c == '\n' || 32 <= c as int < 127 }

  /** The index of the first character from `i` on that is not admitted,
      or -1. */
  function FirstRefused(data: string, i: nat): (k: int)
    requires i <= |data|
    ensures k == -1 <==> forall j | i <= j < |data| :: Admitted(data[j])
    ensures k != -1 ==> i <= k < |data| && !Admitted(data[k]) && forall j | i <= j < k :: Admitted(data[j])
    decreases |data| - i
  {
    if i == |data| then -1
    else if !Admitted(data[i]) then i
    else FirstRefused(data, i + 1)
  }

  function MetaPath(dir: RecipeDir): string { PathJoin(dir.path, "meta.yaml") }

  function MsgNonAscii(c: char, path: string): string {
    "non-ASCII character '" + [c] + "' found in " + path
  }

  function MsgJinja(path: string): string {
    "found {{ in " + path + " (Jinja templating not allowed)"
  }

  /** The character screen: the first character that is neither a newline
      nor printable ASCII is named. */
  function CharScreen(data: string, path: string): (r: Status)
    ensures r == Pass <==> forall j | 0 <= j < |data| :: Admitted(data[j])
    ensures r != Pass ==> exists k | 0 <= k < |data| ::
      !Admitted(data[k]) && (forall j | 0 <= j < k :: Admitted(data[j]))
      && r == Err(PlainException(MsgNonAscii(data[k], path)))
  {
    var k := FirstRefused(data, 0);
    if k == -1 then Pass else Err(PlainException(MsgNonAscii(data[k], path)))
  }

  /** `validate_recipe(recipe_dir)` on the text of `meta.yaml`: the
      character screen, the Jinja screen, then every configuration of
      `iter_cfgs()` in order. */
  function RecipeVerdict(dir: RecipeDir, data: string, eval: Eval, load: Load): Status {
    var _ :- CharScreen(data, MetaPath(dir));
    var _ :- Need(!Contains(data, "{{"), PlainException(MsgJinja(MetaPath(dir))));
    Each(Utilities.IterCfgs(), CfgRules(dir, data, eval, load), 0)
  }

  /** The `for c in data` loop of `validate_recipe`. */
  method ScreenChars(data: string, path: string) returns (r: Status)
    ensures r == CharScreen(data, path)
  {
    var i := 0;
    while i < |data|
      invariant 0 <= i <= |data|
      invariant forall j | 0 <= j < i :: Admitted(data[j])
    {
      if !Admitted(data[i]) {
        assert FirstRefused(data, 0) == i;
        return Err(PlainException(MsgNonAscii(data[i], path)));
      }
      i := i + 1;
    }
    return Pass;
  }

  /** `validate_recipe(recipe_dir)`, given the text of `meta.yaml`, the
      selector evaluator and the YAML parser. */
  method ValidateRecipe(dir: RecipeDir, data: string, eval: Eval, load: Load) returns (r: Status)
    ensures r == RecipeVerdict(dir, data, eval, load)
  {
    var path := MetaPath(dir);
    r := ScreenChars(data, path);
    if r != Pass {
      return;
    }
    if Find(data, "{{") != -1 {
      return Err(PlainException(MsgJinja(path)));
    }
    r := CheckConfigs(dir, data, eval, load);
  }

  /** The `for cfg in iter_cfgs()` loop of `validate_recipe`: the first
      configuration that raises ends it. */
  method CheckConfigs(dir: RecipeDir, data: string, eval: Eval, load: Load) returns (r: Status)
    ensures r == Each(Utilities.IterCfgs(), CfgRules(dir, data, eval, load), 0)
  {
    var cfgs := Utilities.IterCfgs();
    ghost var rules := CfgRules(dir, data, eval, load);
    var i := 0;
    while i < |cfgs|
      invariant 0 <= i <= |cfgs|
      invariant Each(cfgs, rules, i) == Each(cfgs, rules, 0)
    {
      var ns := Utils.NsCfg(cfgs[i]);
      if ns.Err? {
        return Err(ns.exc);
      }
      var text := Utilities.SelectLines(data, Holds(eval, ns.value));
      var step := SelectedRule(dir, text, load);
      assert step == rules(cfgs[i]);
      if step != Pass {
        return step;
      }
      i := i + 1;
    }
    return Pass;
  }

  /** A recipe with a character the screen refuses is refused for its
      first such character whatever the selectors and the YAML say. */
  lemma ScreenFirst(dir: RecipeDir, data: string, eval: Eval, load: Load, k: nat)
    requires k < |data| && !Admitted(data[k]) && forall j | 0 <= j < k :: Admitted(data[j])
    ensures RecipeVerdict(dir, data, eval, load) == Err(PlainException(MsgNonAscii(data[k], MetaPath(dir))))
  {
    var r := CharScreen(data, MetaPath(dir));
    var i :| 0 <= i < |data| && !Admitted(data[i]) && (forall j | 0 <= j < i :: Admitted(data[j]))
      && r == Err(PlainException(MsgNonAscii(data[i], MetaPath(dir))));
    assert i == k;
  }

  /** A printable recipe holding `{{` is refused before it is parsed. */
  lemma JinjaRefused(dir: RecipeDir, data: string, eval: Eval, load: Load)
    requires forall j | 0 <= j < |data| :: Admitted(data[j])
    requires Contains(data, "{{")
    ensures RecipeVerdict(dir, data, eval, load) == Err(PlainException(MsgJinja(MetaPath(dir))))
  {
  }

  /** A recipe that is accepted passes `validate_meta` and
      `validate_files` under every one of the fifteen configurations. */
  lemma AcceptedEverywhere(dir: RecipeDir, data: string, eval: Eval, load: Load)
    requires RecipeVerdict(dir, data, eval, load) == Pass
    ensures forall k | 0 <= k < |Utilities.IterCfgs()| ::
      Utils.NsCfg(Utilities.IterCfgs()[k]).Ok?
      && SelectedRule(dir, Selected(data, Utils.NsCfg(Utilities.IterCfgs()[k]).value, eval), load) == Pass
  {
    var cfgs := Utilities.IterCfgs();
    forall k | 0 <= k < |cfgs|
      ensures Utils.NsCfg(cfgs[k]).Ok? && SelectedRule(dir, Selected(data, Utils.NsCfg(cfgs[k]).value, eval), load) == Pass
    {
      assert CfgRules(dir, data, eval, load)(cfgs[k]) == Pass;
    }
  }

  /** A document that is empty after selection is refused for its missing
      name, under the first configuration. */
  lemma EmptyDocumentRefused(dir: RecipeDir, data: string, eval: Eval, load: Load)
    requires forall j | 0 <= j < |data| :: Admitted(data[j])
    requires !Contains(data, "{{")
    requires forall text :: load(text) == Ok(Null)
    ensures RecipeVerdict(dir, data, eval, load) == Err(PlainException(MsgNameMissing))
  {
    var cfgs := Utilities.IterCfgs();
    Utils.IterCfgsNamespaces();
    EmptyMetaRefused();
    assert |cfgs| == 15;
    var ns := Utils.NsCfg(cfgs[0]).value;
    assert SelectedRule(dir, Selected(data, ns, eval), load) == Err(PlainException(MsgNameMissing));
    assert CfgRules(dir, data, eval, load)(cfgs[0]) == Err(PlainException(MsgNameMissing));
  }
}
