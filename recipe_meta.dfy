/** `conda_verify/recipe/test_meta.py`: the recipe-metadata checks as free
    functions raising `RecipeError`. The field screening, URL, summary and
    license-family rules have the bodies of `CondaRecipeCheck`'s and are
    taken from `RecipeRules`; the name and version checks raise what
    `common.py`'s return; the source check looks at hashes and the URL
    only when a file name is given. Its `verify` entry point only calls
    `validate_meta` once per configuration and is not modelled. */
module RecipeMeta {
  import opened Base
  import opened Text
  import opened Values
  import opened Patterns
  import opened RecipeTree
  import Common
  import Constants
  import Utilities
  import RecipeChecks
  import RecipeRules

  // ---------------------------------------------------------------------
  // check_name, check_version, check_build_number, check_requirements
  // ---------------------------------------------------------------------

  /** `check_name(name)`: raises, in order, on a missing name, on a name
      failing the pattern or ending in a separator, and on a bad pair. */
  function CheckName(name: Value): (r: Status)
    ensures r == Pass <==> Common.CheckName(name).None?
    ensures r != Pass ==> r == Err(RecipeError(Common.CheckName(name).value))
  {
    if !Truthy(name) then Err(RecipeError("package name missing"))
    else
      var s := PyStr(name);
      if !NameMatch(s) || EndsWithAny(s, Common.TrailingChars) then
        Err(RecipeError("invalid package name '" + s + "'"))
      else match Utilities.GetBadSeq(s)
        case Some(bad) => Err(RecipeError("'" + bad + "' is not allowed in package name: '" + s + "'"))
        case None => Pass
  }

  /** `check_version(ver)`: raises, in order, on a missing version, on the
      pattern, on a leading or trailing separator and on a bad pair. */
  function CheckVersion(ver: Value): (r: Status)
    ensures r == Pass <==> Common.CheckVersion(ver).None?
    ensures r != Pass ==> r == Err(RecipeError(Common.CheckVersion(ver).value))
  {
    if !Truthy(ver) then Err(RecipeError("package version missing"))
    else
      var s := PyStr(ver);
      if !VersionMatch(s) then Err(RecipeError("invalid version '" + s + "'"))
      else if StartsWithAny(s, ["_", "."]) || EndsWithAny(s, ["_", "."]) then
        Err(RecipeError("version cannot start or end with '_' or '.': " + s))
      else match Utilities.GetBadSeq(s)
        case Some(bad) => Err(RecipeError("'" + bad + "' not allowed in version '" + s + "'"))
        case None => Pass
  }

  function MsgBadBuildNumber(bn: Value): string {
    "build/number '" + PyStr(bn) + "' (not a positive interger)"
  }

  /** `check_build_number(bn)`: an `int` (a `bool` is one) that is not
      negative; the message differs from `common.py`'s only in naming the
      field `build/number`. */
  function CheckBuildNumber(bn: Value): (r: Status)
    ensures r == Pass <==> Common.CheckBuildNumber(bn).None?
    ensures r != Pass ==> r == Err(RecipeError(MsgBadBuildNumber(bn)))
  {
    Need(IsInt(bn) && IntOf(bn) >= 0, RecipeError(MsgBadBuildNumber(bn)))
  }

  /** One run requirement: `req.split()[0]` must be a package name. */
  function RunRequirementRule(req: Value): (r: Status)
    ensures r == Pass <==> RecipeRules.NamedRequirement(req)
    ensures !req.Str? ==> r == Err(AttributeError)
    ensures req.Str? && |Split(req.s)| == 0 ==> r == Err(IndexError)
    ensures req.Str? && |Split(req.s)| > 0 && !NameMatch(Split(req.s)[0]) ==>
      r == Err(RecipeError(RecipeRules.MsgRunName(Split(req.s)[0])))
  {
    var s :- AsStr(req, AttributeError);
    var parts := Split(s);
    if |parts| == 0 then Err(IndexError)
    else Need(NameMatch(parts[0]), RecipeError(RecipeRules.MsgRunName(parts[0])))
  }

  /** `check_requirements(meta)`: only the run requirements are looked
      at, and only their names. */
  function CheckRequirements(meta: seq<(string, Value)>): (r: Status)
    ensures r == Pass <==>
      RecipeRules.Field(meta, "requirements", "run", List([])).Ok?
      && Iter(RecipeRules.Field(meta, "requirements", "run", List([])).value).Ok?
      && var reqs := Iter(RecipeRules.Field(meta, "requirements", "run", List([])).value).value;
         forall k | 0 <= k < |reqs| :: RecipeRules.NamedRequirement(reqs[k])
  {
    var run :- RecipeRules.Field(meta, "requirements", "run", List([]));
    var reqs :- Iter(run);
    Each(reqs, RunRequirementRule, 0)
  }

  /** What `CondaRecipeCheck.check_requirements` accepts is accepted
      here: the run requirements are the tail of the list it name-checks. */
  lemma {:induction false} RunNamesSubsumed(meta: seq<(string, Value)>)
    ensures RecipeRules.CheckRequirements(meta) == Pass ==> CheckRequirements(meta) == Pass
  {
    if RecipeRules.CheckRequirements(meta) == Pass {
      var (build, run) := RecipeRules.Requirements(meta).value;
      var reqs := RecipeChecks.Concat(build, run).value;
      assert Iter(run).Ok?;
      var runReqs := Iter(run).value;
      forall k | 0 <= k < |runReqs| ensures RecipeRules.NamedRequirement(runReqs[k]) {
        if build.List? {
          assert reqs == build.items + run.items;
          assert runReqs[k] == reqs[|build.items| + k];
        } else {
          assert reqs == CharValues(build.s + run.s);
          assert (build.s + run.s)[|build.s| + k] == run.s[k];
          assert runReqs[k] == reqs[|build.s| + k];
        }
        assert RecipeRules.NamedRequirement(reqs[|reqs| - |runReqs| + k]);
      }
    }
  }

  // ---------------------------------------------------------------------
  // check_about, check_source
  // ---------------------------------------------------------------------

  /** `check_about(meta, pedantic)` as written: the summary obeys
      `pedantic`, the four URLs are checked, and then the license family
      is checked with its own default, pedantic. */
  function CheckAbout(meta: seq<(string, Value)>, pedantic: bool): (r: Status)
    ensures r == Pass <==>
      RecipeRules.Field(meta, "about", "summary", Null).Ok?
      && RecipeRules.SummaryRule(RaisesRecipeError, RecipeRules.Field(meta, "about", "summary", Null).value, pedantic) == Pass
      && (forall k | 0 <= k < |RecipeRules.AboutUrlKeys| :: RecipeRules.AboutUrlRule(meta, RecipeRules.AboutUrlKeys[k]) == Pass)
      && RecipeRules.CheckLicenseFamily(meta, true) == Pass
    ensures r == RecipeRules.CheckAbout(meta, true) || !pedantic
  {
    var summary :- RecipeRules.Field(meta, "about", "summary", Null);
    var _ :- RecipeRules.SummaryRule(RaisesRecipeError, summary, pedantic);
    var _ :- Each(RecipeRules.AboutUrlKeys, (key: string) => RecipeRules.AboutUrlRule(meta, key), 0);
    RecipeRules.CheckLicenseFamily(meta, true)
  }

  /** `check_source(meta)`: with a file name, the three hashes and then
      the URL; the git conflict in every case. `recipe.py` has the same
      body, raising a plain `Exception`. */
  function CheckSource(raiser: Raiser, meta: seq<(string, Value)>): (r: Status)
    ensures !Truthy(RecipeRules.Source(meta)) ==> r == Pass
    ensures Truthy(RecipeRules.Source(meta)) && !RecipeRules.Source(meta).Dict? ==> r == Err(AttributeError)
    ensures Truthy(RecipeRules.Source(meta)) && RecipeRules.Source(meta).Dict? ==>
      var src := RecipeRules.Source(meta).entries;
      (r == Pass <==>
        (Truthy(RecipeChecks.AboutField(src, "fn")) ==>
           RecipeRules.HashesRule(raiser, src) == Pass
           && RecipeRules.OptionalUrlRule(raiser, RecipeChecks.AboutField(src, "url")) == Pass)
        && RecipeRules.GitRule(raiser, src) == Pass)
    ensures Truthy(RecipeRules.Source(meta)) && RecipeRules.Source(meta).Dict? ==>
      var src := RecipeRules.Source(meta).entries;
      Truthy(RecipeChecks.AboutField(src, "fn")) && RecipeRules.HashesRule(raiser, src) != Pass ==>
      r == RecipeRules.HashesRule(raiser, src)
  {
    var src := RecipeRules.Source(meta);
    if !Truthy(src) then Pass
    else if !src.Dict? then Err(AttributeError)
    else
      var _ :- SourceFileRule(raiser, src.entries);
      RecipeRules.GitRule(raiser, src.entries)
  }

  /** The part of `check_source` under `if fn:`. */
  function SourceFileRule(raiser: Raiser, src: seq<(string, Value)>): (r: Status)
    ensures !Truthy(RecipeChecks.AboutField(src, "fn")) ==> r == Pass
    ensures Truthy(RecipeChecks.AboutField(src, "fn")) ==>
      (r == Pass <==> RecipeRules.HashesRule(raiser, src) == Pass
                      && RecipeRules.OptionalUrlRule(raiser, RecipeChecks.AboutField(src, "url")) == Pass)
    ensures Truthy(RecipeChecks.AboutField(src, "fn")) && RecipeRules.HashesRule(raiser, src) != Pass ==>
      r == RecipeRules.HashesRule(raiser, src)
  {
    if !Truthy(RecipeChecks.AboutField(src, "fn")) then Pass
    else
      var _ :- RecipeRules.HashesRule(raiser, src);
      RecipeRules.OptionalUrlRule(raiser, RecipeChecks.AboutField(src, "url"))
  }

  /** Without a file name neither a malformed hash nor a malformed URL is
      noticed, where `CondaRecipeCheck` refuses the URL. */
  lemma NoFileNameNoHashCheck(src: seq<(string, Value)>)
    requires !Truthy(RecipeChecks.AboutField(src, "fn")) && !RecipeChecks.GitConflict(src)
    ensures CheckSource(RaisesRecipeError, [("source", Dict(src))]) == Pass
  {
    assert RecipeRules.Source([("source", Dict(src))]) == Dict(src);
  }

  // ---------------------------------------------------------------------
  // validate_meta
  // ---------------------------------------------------------------------

  /** The checks `validate_meta` runs before `check_about`: the screening,
      the identity fields (each read and checked in turn) and the run
      requirements. */
  function PreAbout(meta: seq<(string, Value)>, pedantic: bool): (r: Status)
    ensures r == Pass ==> RecipeRules.SectionsRule(RaisesRecipeError, meta, pedantic) == Pass
  {
    var _ :- RecipeRules.SectionsRule(RaisesRecipeError, meta, pedantic);
    var name :- RecipeRules.Field(meta, "package", "name", Null);
    var _ :- CheckName(name);
    var version :- RecipeRules.Field(meta, "package", "version", Null);
    var _ :- CheckVersion(version);
    var number :- RecipeRules.Field(meta, "build", "number", Int(0));
    var _ :- CheckBuildNumber(number);
    CheckRequirements(meta)
  }

  /** `validate_meta(meta, pedantic)` as written: `check_about(meta)` runs
      once with its default, pedantic, before the source; then the
      license family and `check_about` run again with `pedantic`. */
  function ValidateMetaAsWritten(meta: seq<(string, Value)>, pedantic: bool): (r: Status)
    ensures r == Pass <==>
      PreAbout(meta, pedantic) == Pass && CheckAbout(meta, true) == Pass && CheckSource(RaisesRecipeError, meta) == Pass
      && RecipeRules.CheckLicenseFamily(meta, pedantic) == Pass && CheckAbout(meta, pedantic) == Pass
    ensures PreAbout(meta, pedantic) == Pass && CheckAbout(meta, true) != Pass ==> r == CheckAbout(meta, true)
  {
    var _ :- PreAbout(meta, pedantic);
    var _ :- CheckAbout(meta, true);
    var _ :- CheckSource(RaisesRecipeError, meta);
    var family := RecipeRules.CheckLicenseFamily(meta, pedantic);
    if family != Pass then family else CheckAbout(meta, pedantic)
  }

  /** `validate_meta(meta, pedantic)` as its last two calls intend: the
      about section, license family included, is checked once, obeying
      `pedantic`. */
  function ValidateMeta(meta: seq<(string, Value)>, pedantic: bool): (r: Status)
    ensures r == Pass <==>
      PreAbout(meta, pedantic) == Pass && CheckSource(RaisesRecipeError, meta) == Pass && RecipeRules.CheckAbout(meta, pedantic) == Pass
    ensures !pedantic ==> RecipeRules.CheckLicenseFamily(meta, pedantic) == Pass
  {
    var _ :- PreAbout(meta, pedantic);
    var _ :- CheckSource(RaisesRecipeError, meta);
    RecipeRules.CheckAbout(meta, pedantic)
  }

  /** In pedantic mode the two agree: the extra calls of the version as
      written repeat checks that are made anyway. */
  lemma PedanticAgrees(meta: seq<(string, Value)>)
    ensures ValidateMetaAsWritten(meta, true) == Pass <==> ValidateMeta(meta, true) == Pass
  {
  }

  /** The corrected check is stricter in pedantic mode, and whatever the
      version as written accepts leniently it accepts too. */
  lemma ValidateMetaModes(meta: seq<(string, Value)>)
    ensures ValidateMeta(meta, true) == Pass ==> ValidateMeta(meta, false) == Pass
    ensures ValidateMetaAsWritten(meta, false) == Pass ==> ValidateMeta(meta, false) == Pass
  {
    RecipeRules.SectionsPedanticStricter(RaisesRecipeError, meta);
    assert PreAbout(meta, true) == Pass ==> PreAbout(meta, false) == Pass;
    if ValidateMetaAsWritten(meta, false) == Pass {
      assert RecipeRules.CheckAbout(meta, false) == Pass;
    }
  }

  /** A recipe identifying package `a` version `1`, with the given about
      section. */
  function Sample(about: seq<(string, Value)>): seq<(string, Value)> {
    [("package", Dict([("name", Str("a")), ("version", Str("1"))])), ("about", Dict(about))]
  }

  /** Both sections of the sample are known, in either mode. */
  lemma SampleSections(about: seq<(string, Value)>)
    ensures RecipeRules.SectionsRule(RaisesRecipeError, Sample(about), false) == Pass
  {
    var meta := Sample(about);
    assert Keys(meta) == ["package", "about"];
    assert Constants.IsSection("package") by { assert Constants.FieldSections[0] == "package"; }
    assert Constants.IsSection("about") by { assert Constants.FieldSections[7] == "about"; }
    assert RecipeRules.SectionRule(RaisesRecipeError, meta, false, "package") == Pass;
    assert RecipeRules.SectionRule(RaisesRecipeError, meta, false, "about") == Pass;
  }

  /** `a` is a package name and `1` a version. */
  lemma SampleIdentity()
    ensures CheckName(Str("a")) == Pass
    ensures CheckVersion(Str("1")) == Pass
  {
    Common.CheckNameSpec(Str("a"));
    Common.CheckVersionOrder(Str("1"));
    assert PyStr(Str("a")) == "a" && PyStr(Str("1")) == "1";
    assert NameMatch("a");
    assert VersionMatch("1");
    var seps := ["_", "."];
    forall i | 0 <= i < |seps| ensures !StartsWith("1", seps[i]) && !EndsWith("1", seps[i]) {
      assert "1"[0] != seps[i][0];
    }
    forall i | 0 <= i < |Common.TrailingChars| ensures !EndsWith("a", Common.TrailingChars[i]) {
      assert "a"[0] != Common.TrailingChars[i][0];
    }
  }

  /** The fields of the sample read before `check_about`. */
  lemma SampleFields(about: seq<(string, Value)>)
    ensures RecipeRules.Field(Sample(about), "package", "name", Null) == Ok(Str("a"))
    ensures RecipeRules.Field(Sample(about), "package", "version", Null) == Ok(Str("1"))
    ensures RecipeRules.Field(Sample(about), "build", "number", Int(0)) == Ok(Int(0))
    ensures RecipeRules.Field(Sample(about), "requirements", "run", List([])) == Ok(List([]))
    ensures RecipeRules.Source(Sample(about)) == Null
  {
  }

  /** The sample recipe passes everything before `check_about`, and has
      no source. */
  lemma SamplePreAbout(about: seq<(string, Value)>)
    ensures PreAbout(Sample(about), false) == Pass
    ensures CheckSource(RaisesRecipeError, Sample(about)) == Pass
  {
    var meta := Sample(about);
    SampleSections(about);
    SampleIdentity();
    SampleFields(about);
    assert CheckRequirements(meta) == Pass;
  }

  /** The about fields of the sample are the entries of its about section. */
  lemma SampleAbout(about: seq<(string, Value)>, key: string)
    ensures RecipeRules.Field(Sample(about), "about", key, Null) == Ok(RecipeChecks.GetOr(about, key, Null))
  {
    assert Lookup(Sample(about), "about") == Some(Dict(about));
  }

  /** An about section without URLs passes the URL checks. */
  lemma SampleUrls(about: seq<(string, Value)>)
    requires forall k | 0 <= k < |RecipeRules.AboutUrlKeys| :: RecipeRules.AboutUrlKeys[k] !in Keys(about)
    ensures forall k | 0 <= k < |RecipeRules.AboutUrlKeys| ::
      RecipeRules.AboutUrlRule(Sample(about), RecipeRules.AboutUrlKeys[k]) == Pass
  {
    forall k | 0 <= k < |RecipeRules.AboutUrlKeys|
      ensures RecipeRules.AboutUrlRule(Sample(about), RecipeRules.AboutUrlKeys[k]) == Pass
    {
      SampleAbout(about, RecipeRules.AboutUrlKeys[k]);
    }
  }

  /** A long summary fails the about check as written, whose summary
      rule is pedantic, and passes the lenient one. */
  lemma LongSummaryRefused(summary: string)
    requires |summary| > 80
    ensures CheckAbout(Sample([("summary", Str(summary))]), true) == Err(RecipeError(RecipeRules.MsgLongSummary))
    ensures RecipeRules.CheckAbout(Sample([("summary", Str(summary))]), false) == Pass
  {
    var about := [("summary", Str(summary))];
    SampleAbout(about, "summary");
    assert RecipeChecks.GetOr(about, "summary", Null) == Str(summary);
    assert RecipeRules.SummaryRule(RaisesRecipeError, Str(summary), true) == Err(RecipeError(RecipeRules.MsgLongSummary));
    assert Keys(about) == ["summary"];
    LenientAboutPasses(about);
  }

  /** A sample whose about section holds only string fields other than the
      URLs passes the lenient about check. */
  lemma LenientAboutPasses(about: seq<(string, Value)>)
    requires forall k | 0 <= k < |RecipeRules.AboutUrlKeys| :: RecipeRules.AboutUrlKeys[k] !in Keys(about)
    requires RecipeChecks.GetOr(about, "summary", Null).Null? || RecipeChecks.GetOr(about, "summary", Null).Str?
    ensures RecipeRules.CheckAbout(Sample(about), false) == Pass
  {
    SampleAbout(about, "summary");
    SampleUrls(about);
  }

  /** A recipe that passes the lenient about check but not the about
      check as written is refused by the version as written and accepted
      by the corrected one. */
  lemma LenientDiffers(meta: seq<(string, Value)>)
    requires PreAbout(meta, false) == Pass && CheckSource(RaisesRecipeError, meta) == Pass
    requires CheckAbout(meta, true) != Pass && RecipeRules.CheckAbout(meta, false) == Pass
    ensures ValidateMetaAsWritten(meta, false) == CheckAbout(meta, true)
    ensures ValidateMeta(meta, false) == Pass
  {
  }

  /** Lenient mode as written still refuses a summary of more than 80
      characters; the corrected check accepts the recipe. */
  lemma LenientLongSummary(summary: string)
    requires |summary| > 80
    ensures ValidateMetaAsWritten(Sample([("summary", Str(summary))]), false)
      == Err(RecipeError(RecipeRules.MsgLongSummary))
    ensures ValidateMeta(Sample([("summary", Str(summary))]), false) == Pass
  {
    var about := [("summary", Str(summary))];
    SamplePreAbout(about);
    LongSummaryRefused(summary);
    LenientDiffers(Sample(about));
  }

  /** "GPL" is not a license family, which the about check as written
      notices and the lenient one does not look at. */
  lemma WrongFamilyRefused()
    ensures CheckAbout(Sample([("license", Str("GPL"))]), true) == Err(RecipeError(RecipeRules.MsgWrongLicenseFamily))
    ensures RecipeRules.CheckAbout(Sample([("license", Str("GPL"))]), false) == Pass
  {
    var about := [("license", Str("GPL"))];
    var meta := Sample(about);
    SampleAbout(about, "summary");
    assert RecipeChecks.GetOr(about, "summary", Null) == Null;
    assert Keys(about) == ["license"];
    SampleUrls(about);
    assert Lookup(meta, "about") == Some(Dict(about));
    RecipeRules.LicenseFamilyFallback(meta, about);
    assert RecipeRules.LicenseFamily(meta) == Ok(Str("GPL"));
    assert !InStrs(Str("GPL"), Constants.LicenseFamilies);
    LenientAboutPasses(about);
  }

  /** Lenient mode as written still refuses a license that is not a
      family; the corrected check accepts the recipe. */
  lemma LenientLicenseFamily()
    ensures ValidateMetaAsWritten(Sample([("license", Str("GPL"))]), false)
      == Err(RecipeError(RecipeRules.MsgWrongLicenseFamily))
    ensures ValidateMeta(Sample([("license", Str("GPL"))]), false) == Pass
  {
    var about := [("license", Str("GPL"))];
    SamplePreAbout(about);
    WrongFamilyRefused();
    LenientDiffers(Sample(about));
  }
}
