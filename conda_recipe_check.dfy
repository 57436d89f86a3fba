/** `conda_verify/conda_recipe_check.py`: `CondaRecipeCheck`, the recipe
    checks that raise `RecipeError` on the first problem they meet. The
    object only holds the rendered recipe and its directory, set once;
    each check here takes the one of the two it reads. Its
    section screening and its URL, hash, git and summary rules are written
    with the same bodies in `recipe/test_meta.py` and, raising a plain
    `Exception`, in `recipe.py`; those modules use the rules here with
    their own exception class. */
module RecipeRules {
  import opened Base
  import opened Text
  import opened Values
  import opened Patterns
  import opened RecipeTree
  import Constants
  import Common
  import Utils
  import RecipeChecks

  /** `get_field(self.meta, section + '/' + key, default)`; every field
      the checks read is written with one `/`, so `Utils.GetFieldAt` turns
      it into this lookup. */
  function Field(meta: seq<(string, Value)>, section: string, key: string, default: Value): Res<Value> {
    Utils.GetSectionKey(Dict(meta), section, key, default)
  }

  // ---------------------------------------------------------------------
  // check_fields
  // ---------------------------------------------------------------------

  function MsgUnknownSection(section: string): string { "Unknown section: " + section }

  function MsgUnknownKey(section: string, key: Value): string {
    "in section " + StrRepr(section) + ": unknown key " + PyRepr(key)
  }

  /** `key not in FIELDS[section]`, raising when it holds; hashing a list
      or a dict key raises `TypeError`. */
  function KeyRule(raiser: Raiser, section: string, key: Value): (r: Status)
    ensures r == Pass <==> key.Str? && key.s in Constants.FieldKeys(section)
    ensures (key.List? || key.Dict?) ==> r == Err(TypeError)
    ensures !key.List? && !key.Dict? && r != Pass ==> r == Err(raiser.Fail(MsgUnknownKey(section, key)))
  {
    var known :- InStrSet(key, Constants.FieldKeys(section));
    if known then Pass else Err(raiser.Fail(MsgUnknownKey(section, key)))
  }

  /** What `for key in submeta` yields, a `None` section reading as `{}`. */
  function SectionKeys(meta: seq<(string, Value)>, section: string): Res<seq<Value>> {
    var sub := RecipeChecks.GetOr(meta, section, Null);
    Iter(if sub.Null? then Dict([]) else sub)
  }

  /** One section of the screening loop: it must be a section of `FIELDS`;
      its keys are iterated in either mode, and when pedantic each must be
      a key of that section. */
  function SectionRule(raiser: Raiser, meta: seq<(string, Value)>, pedantic: bool, section: string): (r: Status)
    ensures r == Pass <==>
      Constants.IsSection(section) && SectionKeys(meta, section).Ok?
      && (pedantic ==> forall k | 0 <= k < |SectionKeys(meta, section).value| ::
            KeyRule(raiser, section, SectionKeys(meta, section).value[k]) == Pass)
    ensures !Constants.IsSection(section) ==> r == Err(raiser.Fail(MsgUnknownSection(section)))
  {
    if !Constants.IsSection(section) then Err(raiser.Fail(MsgUnknownSection(section)))
    else
      var keys :- SectionKeys(meta, section);
      if pedantic then Each(keys, (key: Value) => KeyRule(raiser, section, key), 0) else Pass
  }

  /** The screening loop of `check_fields`, over the sections in the order
      the mapping holds them. */
  function SectionsRule(raiser: Raiser, meta: seq<(string, Value)>, pedantic: bool): (r: Status)
    ensures r == Pass <==> forall k | 0 <= k < |Keys(meta)| :: SectionRule(raiser, meta, pedantic, Keys(meta)[k]) == Pass
    ensures r != Pass ==> exists k | 0 <= k < |Keys(meta)| ::
      r == SectionRule(raiser, meta, pedantic, Keys(meta)[k])
      && forall j | 0 <= j < k :: SectionRule(raiser, meta, pedantic, Keys(meta)[j]) == Pass
  {
    var f := (section: string) => SectionRule(raiser, meta, pedantic, section);
    assert forall k | 0 <= k < |Keys(meta)| :: f(Keys(meta)[k]) == SectionRule(raiser, meta, pedantic, Keys(meta)[k]);
    Each(Keys(meta), f, 0)
  }

  /** Whatever passes the pedantic screening passes the lenient one, and
      an unknown section fails both. */
  lemma SectionsPedanticStricter(raiser: Raiser, meta: seq<(string, Value)>)
    ensures SectionsRule(raiser, meta, true) == Pass ==> SectionsRule(raiser, meta, false) == Pass
    ensures (exists k | 0 <= k < |Keys(meta)| :: !Constants.IsSection(Keys(meta)[k])) ==>
      SectionsRule(raiser, meta, false) != Pass
  {
    if SectionsRule(raiser, meta, true) == Pass {
      forall k | 0 <= k < |Keys(meta)| ensures SectionRule(raiser, meta, false, Keys(meta)[k]) == Pass {
        assert SectionRule(raiser, meta, true, Keys(meta)[k]) == Pass;
      }
    }
    if exists k | 0 <= k < |Keys(meta)| :: !Constants.IsSection(Keys(meta)[k]) {
      var k :| 0 <= k < |Keys(meta)| && !Constants.IsSection(Keys(meta)[k]);
      assert SectionRule(raiser, meta, false, Keys(meta)[k]) != Pass;
    }
  }

  /** The name, version and build number `check_fields` reads, in order;
      an unset build number is 0. */
  function IdentityFields(meta: seq<(string, Value)>): Res<(Value, Value, Value)> {
    var name :- Field(meta, "package", "name", Null);
    var version :- Field(meta, "package", "version", Null);
    var number :- Field(meta, "build", "number", Int(0));
    Ok((name, version, number))
  }

  /** All three validators run before the first message is raised. */
  function IdentityMessage(fields: (Value, Value, Value)): Option<string> {
    FirstSome([Common.CheckName(fields.0), Common.CheckVersion(fields.1), Common.CheckBuildNumber(fields.2)])
  }

  const MsgNoarchPython := "noarch python recipe not allowed in pedantic mode"

  /** `str(noarch).lower() == 'python'` */
  predicate NoarchPython(noarch: Value) { Lower(PyStr(noarch)) == "python" }

  /** `check_fields(pedantic)`: the screening, then the identity fields,
      then, when pedantic, no `noarch: python`. */
  function CheckFields(meta: seq<(string, Value)>, pedantic: bool): (r: Status)
    ensures r == Pass <==>
      SectionsRule(RaisesRecipeError, meta, pedantic) == Pass
      && IdentityFields(meta).Ok? && IdentityMessage(IdentityFields(meta).value).None?
      && (pedantic ==> Field(meta, "build", "noarch", Null).Ok? && !NoarchPython(Field(meta, "build", "noarch", Null).value))
    ensures SectionsRule(RaisesRecipeError, meta, pedantic) != Pass ==>
      r == SectionsRule(RaisesRecipeError, meta, pedantic)
    ensures (SectionsRule(RaisesRecipeError, meta, pedantic) == Pass && IdentityFields(meta).Ok?
             && IdentityMessage(IdentityFields(meta).value).Some?) ==>
      r == Err(RecipeError(IdentityMessage(IdentityFields(meta).value).value))
    ensures (pedantic && SectionsRule(RaisesRecipeError, meta, pedantic) == Pass && IdentityFields(meta).Ok?
             && IdentityMessage(IdentityFields(meta).value).None? && Field(meta, "build", "noarch", Null).Ok?
             && NoarchPython(Field(meta, "build", "noarch", Null).value)) ==>
      r == Err(RecipeError(MsgNoarchPython))
  {
    var _ :- SectionsRule(RaisesRecipeError, meta, pedantic);
    var fields :- IdentityFields(meta);
    match IdentityMessage(fields)
    case Some(msg) => Err(RecipeError(msg))
    case None =>
      if pedantic then
        var noarch :- Field(meta, "build", "noarch", Null);
        Need(!NoarchPython(noarch), RecipeError(MsgNoarchPython))
      else Pass
  }

  /** A recipe the pedantic mode accepts is accepted leniently too. */
  lemma CheckFieldsPedanticStricter(meta: seq<(string, Value)>)
    ensures CheckFields(meta, true) == Pass ==> CheckFields(meta, false) == Pass
  {
    SectionsPedanticStricter(RaisesRecipeError, meta);
  }

  /** A `noarch: python` recipe is never accepted in pedantic mode. */
  lemma NoarchPythonRefused(meta: seq<(string, Value)>)
    ensures Field(meta, "build", "noarch", Null) == Ok(Str("python")) ==> CheckFields(meta, true) != Pass
  {
    assert Lower("python") == "python";
  }

  // ---------------------------------------------------------------------
  // check_requirements
  // ---------------------------------------------------------------------

  function MsgRunName(name: string): string { "invalid run requirement name '" + name + "'" }

  function MsgBuildName(name: string): string { "invalid build requirement name '" + name + "'" }

  /** The two requirement lists, each defaulting to `[]`. */
  function Requirements(meta: seq<(string, Value)>): Res<(Value, Value)> {
    var build :- Field(meta, "requirements", "build", List([]));
    var run :- Field(meta, "requirements", "run", List([]));
    Ok((build, run))
  }

  /** A requirement whose first word is a package name. */
  predicate NamedRequirement(req: Value) {
    req.Str? && |Split(req.s)| > 0 && NameMatch(Split(req.s)[0])
  }

  /** One requirement of the name loop: `req.split()[0]` must be a name;
      the message says "run" when the requirement is also in the run list. */
  function RequirementRule(run: Value, req: Value): (r: Status)
    ensures r == Pass <==> NamedRequirement(req)
    ensures !req.Str? ==> r == Err(AttributeError)
    ensures req.Str? && |Split(req.s)| == 0 ==> r == Err(IndexError)
    ensures req.Str? && |Split(req.s)| > 0 && !NameMatch(Split(req.s)[0]) ==>
      r == Err(RecipeError(
        if RecipeChecks.In(req, run) then MsgRunName(Split(req.s)[0]) else MsgBuildName(Split(req.s)[0])))
  {
    var s :- AsStr(req, AttributeError);
    var parts := Split(s);
    if |parts| == 0 then Err(IndexError)
    else if NameMatch(parts[0]) then Pass
    else if RecipeChecks.In(req, run) then Err(RecipeError(MsgRunName(parts[0])))
    else Err(RecipeError(MsgBuildName(parts[0])))
  }

  /** `res = check_specs(specs); if res: raise RecipeError(res)` */
  function SpecsRule(specs: Value): (r: Status)
    ensures r == Pass <==> Iter(specs).Ok? && Common.CheckSpecsResult(Iter(specs).value) == Ok(None)
    ensures (Iter(specs).Ok? && Common.CheckSpecsResult(Iter(specs).value).Ok?
             && Common.CheckSpecsResult(Iter(specs).value).value.Some?) ==>
      r == Err(RecipeError(Common.CheckSpecsResult(Iter(specs).value).value.value))
  {
    var items :- Iter(specs);
    var res :- Common.CheckSpecsResult(items);
    match res
    case Some(msg) => Err(RecipeError(msg))
    case None => Pass
  }

  /** `check_requirements`: every requirement of `build + run` is named,
      and only then are the two lists checked as specs, build first. */
  function CheckRequirements(meta: seq<(string, Value)>): (r: Status)
    ensures r == Pass <==>
      Requirements(meta).Ok?
      && RecipeChecks.Concat(Requirements(meta).value.0, Requirements(meta).value.1).Ok?
      && (forall k | 0 <= k < |RecipeChecks.Concat(Requirements(meta).value.0, Requirements(meta).value.1).value| ::
            NamedRequirement(RecipeChecks.Concat(Requirements(meta).value.0, Requirements(meta).value.1).value[k]))
      && SpecsRule(Requirements(meta).value.0) == Pass && SpecsRule(Requirements(meta).value.1) == Pass
    ensures (Requirements(meta).Ok?
             && RecipeChecks.Concat(Requirements(meta).value.0, Requirements(meta).value.1).Ok?
             && !(forall k | 0 <= k < |RecipeChecks.Concat(Requirements(meta).value.0, Requirements(meta).value.1).value| ::
                    NamedRequirement(RecipeChecks.Concat(Requirements(meta).value.0, Requirements(meta).value.1).value[k]))) ==>
      exists k | 0 <= k < |RecipeChecks.Concat(Requirements(meta).value.0, Requirements(meta).value.1).value| ::
        r == RequirementRule(Requirements(meta).value.1,
               RecipeChecks.Concat(Requirements(meta).value.0, Requirements(meta).value.1).value[k])
  {
    var (build, run) :- Requirements(meta);
    var reqs :- RecipeChecks.Concat(build, run);
    var _ :- Each(reqs, (req: Value) => RequirementRule(run, req), 0);
    var _ :- SpecsRule(build);
    SpecsRule(run)
  }

  // ---------------------------------------------------------------------
  // check_url, check_about
  // ---------------------------------------------------------------------

  function MsgBadUrl(url: string): string { "not a valid URL: " + url }

  /** `check_url(url)`: the URL must start with a known scheme; matching a
      non-string raises `TypeError`. */
  function UrlRule(raiser: Raiser, url: Value): (r: Status)
    ensures r == Pass <==> url.Str? && UrlMatch(url.s)
    ensures !url.Str? ==> r == Err(TypeError)
    ensures url.Str? && !UrlMatch(url.s) ==> r == Err(raiser.Fail(MsgBadUrl(url.s)))
  {
    var s :- AsStr(url, TypeError);
    Need(UrlMatch(s), raiser.Fail(MsgBadUrl(s)))
  }

  /** The scheme has to come first: a URL that only mentions one later,
      or one of another scheme, is refused. */
  lemma UrlSchemes(raiser: Raiser)
    ensures UrlRule(raiser, Str("https://example.com/a.tar.gz")) == Pass
    ensures UrlRule(raiser, Str("ftp://example.com/a.tar.gz")) == Pass
    ensures UrlRule(raiser, Str("git://example.com/a")) == Err(raiser.Fail(MsgBadUrl("git://example.com/a")))
    ensures UrlRule(raiser, Str("see http://example.com")) != Pass
  {
    assert "https://example.com/a.tar.gz"[..8] == "https://";
    assert "ftp://example.com/a.tar.gz"[..6] == "ftp://";
    assert "git://example.com/a"[0] != "ftp://"[0];
    assert "git://example.com/a"[0] != "http://"[0];
    assert "git://example.com/a"[0] != "https://"[0];
    assert "see http://example.com"[0] != "ftp://"[0];
    assert "see http://example.com"[0] != "http://"[0];
    assert "see http://example.com"[0] != "https://"[0];
  }

  /** `if url: check_url(url)` */
  function OptionalUrlRule(raiser: Raiser, url: Value): (r: Status)
    ensures r == Pass <==> !Truthy(url) || (url.Str? && UrlMatch(url.s))
    ensures Truthy(url) ==> r == UrlRule(raiser, url)
  {
    if Truthy(url) then UrlRule(raiser, url) else Pass
  }

  const MsgLongSummary := "summary exceeds 80 characters"

  /** `if summary and len(summary) > 80`: raised when pedantic, otherwise
      only printed as a warning. */
  function SummaryRule(raiser: Raiser, summary: Value, pedantic: bool): (r: Status)
    ensures !Truthy(summary) ==> r == Pass
    ensures Truthy(summary) && PyLen(summary).Ok? ==>
      (r == Pass <==> !pedantic || PyLen(summary).value <= 80)
    ensures Truthy(summary) && PyLen(summary).Err? ==> r == Err(TypeError)
    ensures r != Pass && r != Err(TypeError) ==> r == Err(raiser.Fail(MsgLongSummary))
  {
    if !Truthy(summary) then Pass
    else
      var n :- PyLen(summary);
      if n > 80 && pedantic then Err(raiser.Fail(MsgLongSummary)) else Pass
  }

  /** Exactly 80 characters is accepted, 81 is refused when pedantic, and
      without pedantic mode no summary is too long. */
  lemma SummaryBoundary(raiser: Raiser, s: string)
    ensures |s| <= 80 ==> SummaryRule(raiser, Str(s), true) == Pass
    ensures |s| > 80 ==> SummaryRule(raiser, Str(s), true) == Err(raiser.Fail(MsgLongSummary))
    ensures SummaryRule(raiser, Str(s), false) == Pass
  {
  }

  /** The URL keys of the `about` section. */
  const AboutUrlKeys: seq<string> := ["home", "dev_url", "doc_url", "license_url"]

  /** One about URL of `check_about`. */
  function AboutUrlRule(meta: seq<(string, Value)>, key: string): (r: Status)
    ensures Field(meta, "about", key, Null).Ok? ==>
      r == OptionalUrlRule(RaisesRecipeError, Field(meta, "about", key, Null).value)
    ensures Field(meta, "about", key, Null).Err? ==> r == Err(Field(meta, "about", key, Null).exc)
  {
    var url :- Field(meta, "about", key, Null);
    OptionalUrlRule(RaisesRecipeError, url)
  }

  /** `check_about(pedantic)`: the summary, the four URLs in order, then
      the license family. */
  function CheckAbout(meta: seq<(string, Value)>, pedantic: bool): (r: Status)
    ensures r == Pass <==>
      Field(meta, "about", "summary", Null).Ok?
      && SummaryRule(RaisesRecipeError, Field(meta, "about", "summary", Null).value, pedantic) == Pass
      && (forall k | 0 <= k < |AboutUrlKeys| :: AboutUrlRule(meta, AboutUrlKeys[k]) == Pass)
      && CheckLicenseFamily(meta, pedantic) == Pass
  {
    var summary :- Field(meta, "about", "summary", Null);
    var _ :- SummaryRule(RaisesRecipeError, summary, pedantic);
    var _ :- Each(AboutUrlKeys, (key: string) => AboutUrlRule(meta, key), 0);
    CheckLicenseFamily(meta, pedantic)
  }

  // ---------------------------------------------------------------------
  // check_source
  // ---------------------------------------------------------------------

  function MsgBadHash(digest: string): string { "invalid hash: " + digest }

  const MsgGitConflict := "cannot specify both git_branch and git_tag"

  /** One hash of a source: unset, or lower-case hexadecimal of the
      algorithm's length; matching a non-string raises `TypeError`. */
  function HashRule(raiser: Raiser, src: seq<(string, Value)>, algorithm: string): (r: Status)
    ensures r == Pass <==>
      var h := RecipeChecks.AboutField(src, algorithm);
      !Truthy(h) || (h.Str? && HexDigest(h.s, RecipeChecks.DigestLength(algorithm)))
    ensures var h := RecipeChecks.AboutField(src, algorithm);
      Truthy(h) && h.Str? && !HexDigest(h.s, RecipeChecks.DigestLength(algorithm)) ==>
      r == Err(raiser.Fail(MsgBadHash(h.s)))
  {
    var h := RecipeChecks.AboutField(src, algorithm);
    if !Truthy(h) then Pass
    else
      var s :- AsStr(h, TypeError);
      Need(HexDigest(s, RecipeChecks.DigestLength(algorithm)), raiser.Fail(MsgBadHash(s)))
  }

  /** The three hashes, md5, sha1 and sha256 in that order. */
  function HashesRule(raiser: Raiser, src: seq<(string, Value)>): (r: Status)
    ensures r == Pass <==> forall k | 0 <= k < |RecipeChecks.HashAlgorithms| ::
      HashRule(raiser, src, RecipeChecks.HashAlgorithms[k]) == Pass
  {
    Each(RecipeChecks.HashAlgorithms, (algorithm: string) => HashRule(raiser, src, algorithm), 0)
  }

  /** `git_url` together with both `git_tag` and `git_branch`. */
  function GitRule(raiser: Raiser, src: seq<(string, Value)>): (r: Status)
    ensures r == Pass <==> !RecipeChecks.GitConflict(src)
    ensures r != Pass ==> r == Err(raiser.Fail(MsgGitConflict))
  {
    Need(!RecipeChecks.GitConflict(src), raiser.Fail(MsgGitConflict))
  }

  /** `meta.get('source')` */
  function Source(meta: seq<(string, Value)>): Value {
    RecipeChecks.GetOr(meta, "source", Null)
  }

  /** The URL part of `check_source`: when a URL is set it is checked
      first, and then the hashes. */
  function SourceUrlRule(raiser: Raiser, src: seq<(string, Value)>): (r: Status)
    ensures !Truthy(RecipeChecks.AboutField(src, "url")) ==> r == Pass
    ensures Truthy(RecipeChecks.AboutField(src, "url")) ==>
      (r == Pass <==> UrlRule(raiser, RecipeChecks.AboutField(src, "url")) == Pass && HashesRule(raiser, src) == Pass)
    ensures Truthy(RecipeChecks.AboutField(src, "url")) && UrlRule(raiser, RecipeChecks.AboutField(src, "url")) != Pass ==>
      r == UrlRule(raiser, RecipeChecks.AboutField(src, "url"))
  {
    var url := RecipeChecks.AboutField(src, "url");
    if Truthy(url) then
      var _ :- UrlRule(raiser, url);
      HashesRule(raiser, src)
    else Pass
  }

  /** `check_source`: nothing without a source; a source that is not a
      mapping has no `.get`; otherwise the URL and hashes, then the git
      conflict. */
  function CheckSource(meta: seq<(string, Value)>): (r: Status)
    ensures !Truthy(Source(meta)) ==> r == Pass
    ensures Truthy(Source(meta)) && !Source(meta).Dict? ==> r == Err(AttributeError)
    ensures Truthy(Source(meta)) && Source(meta).Dict? ==>
      (r == Pass <==>
        SourceUrlRule(RaisesRecipeError, Source(meta).entries) == Pass
        && GitRule(RaisesRecipeError, Source(meta).entries) == Pass)
  {
    var src := Source(meta);
    if !Truthy(src) then Pass
    else if !src.Dict? then Err(AttributeError)
    else
      var _ :- SourceUrlRule(RaisesRecipeError, src.entries);
      GitRule(RaisesRecipeError, src.entries)
  }

  // ---------------------------------------------------------------------
  // check_license_family
  // ---------------------------------------------------------------------

  const MsgWrongLicenseFamily := "wrong license family"

  /** `get_field(meta, 'about/license_family', get_field(meta,
      'about/license'))`: the family, falling back to the license, which
      is read first. */
  function LicenseFamily(meta: seq<(string, Value)>): Res<Value> {
    var license :- Field(meta, "about", "license", Null);
    Field(meta, "about", "license_family", license)
  }

  /** `check_license_family(pedantic)`: skipped unless pedantic; the
      family must be one of the known families. */
  function CheckLicenseFamily(meta: seq<(string, Value)>, pedantic: bool): (r: Status)
    ensures !pedantic ==> r == Pass
    ensures pedantic ==>
      (r == Pass <==> LicenseFamily(meta).Ok? && InStrs(LicenseFamily(meta).value, Constants.LicenseFamilies))
    ensures pedantic && LicenseFamily(meta).Ok? && !InStrs(LicenseFamily(meta).value, Constants.LicenseFamilies) ==>
      r == Err(RecipeError(MsgWrongLicenseFamily))
  {
    if !pedantic then Pass
    else
      var family :- LicenseFamily(meta);
      Need(InStrs(family, Constants.LicenseFamilies), RecipeError(MsgWrongLicenseFamily))
  }

  /** Without a `license_family` the license itself is taken as the
      family; a set family wins over the license. */
  lemma LicenseFamilyFallback(meta: seq<(string, Value)>, about: seq<(string, Value)>)
    requires Lookup(meta, "about") == Some(Dict(about))
    ensures "license_family" !in Keys(about) ==>
      LicenseFamily(meta) == Ok(RecipeChecks.GetOr(about, "license", Null))
    ensures RecipeChecks.GetOr(about, "license_family", Null) != Null ==>
      LicenseFamily(meta) == Ok(RecipeChecks.GetOr(about, "license_family", Null))
  {
  }

  // ---------------------------------------------------------------------
  // validate_files
  // ---------------------------------------------------------------------

  /** The fields naming files, as (section, key). */
  const FileFields: seq<(string, string)> := [("test", "files"), ("source", "patches"), ("test", "source_files")]

  /** One field of `validate_files`. */
  function FieldFilesRule(raiser: Raiser, meta: Value, dir: RecipeDir, field: (string, string)): (r: Status)
    ensures Utils.GetSectionKey(meta, field.0, field.1, Null).Ok? ==>
      r == ListedFilesRule(raiser, dir, Utils.GetSectionKey(meta, field.0, field.1, Null).value)
    ensures Utils.GetSectionKey(meta, field.0, field.1, Null).Err? ==>
      r == Err(Utils.GetSectionKey(meta, field.0, field.1, Null).exc)
  {
    var flst :- Utils.GetSectionKey(meta, field.0, field.1, Null);
    ListedFilesRule(raiser, dir, flst)
  }

  /** `validate_files`: every file named by the three fields is inside
      the recipe and exists there. */
  function ValidateFiles(meta: seq<(string, Value)>, dir: RecipeDir): (r: Status)
    ensures r == Pass <==> forall k | 0 <= k < |FileFields| ::
      FieldFilesRule(RaisesRecipeError, Dict(meta), dir, FileFields[k]) == Pass
  {
    Each(FileFields, (field: (string, string)) => FieldFilesRule(RaisesRecipeError, Dict(meta), dir, field), 0)
  }

  // ---------------------------------------------------------------------
  // check_dir_content, dir_size
  // ---------------------------------------------------------------------

  const CompressedExtensions: seq<string> := [".bz2", ".gz"]

  function MsgTooLarge(fn: string): string { "found: " + fn + " (too large)" }

  function MsgFound(fn: string): string { "found: " + fn }

  /** Only small archives are allowed, for tests: a compressed file of
      more than 512 bytes, by its lower-cased file name. */
  predicate TooLargeArchive(file: (string, nat)) {
    EndsWithAny(Lower(Basename(file.0)), CompressedExtensions) && file.1 > 512
  }

  /** A file whose lower-cased name has a disallowed extension. */
  predicate Disallowed(file: (string, nat)) {
    EndsWithAny(Lower(Basename(file.0)), RecipeChecks.DisallowedExtensions)
  }

  /** One file of the walk, the size test before the extension test. */
  function ContentFileRule(file: (string, nat)): (r: Status)
    ensures r == Pass <==> !TooLargeArchive(file) && !Disallowed(file)
    ensures TooLargeArchive(file) ==> r == Err(RecipeError(MsgTooLarge(Basename(file.0))))
    ensures !TooLargeArchive(file) && Disallowed(file) ==> r == Err(RecipeError(MsgFound(Basename(file.0))))
  {
    if TooLargeArchive(file) then Err(RecipeError(MsgTooLarge(Basename(file.0))))
    else if Disallowed(file) then Err(RecipeError(MsgFound(Basename(file.0))))
    else Pass
  }

  /** `dir_size(recipe_dir) / 1024 > 512`: true division by a power of two
      is exact, so this is a byte count above 512 KB. */
  predicate OverLimit(size: nat) { size > 512 * 1024 }

  /** `"%d KB" % kb_size` truncates the quotient. */
  function MsgRecipeTooLarge(size: nat): string {
    "recipe too large: " + NatToString(size / 1024) + " KB (limit 512 KB)"
  }

  /** `check_dir_content`: every file of the walk, then, unless the
      directory is named `icu`, the total size. */
  function CheckDirContent(dir: RecipeDir): (r: Status)
    ensures r == Pass <==>
      (forall k | 0 <= k < |dir.files| :: ContentFileRule(dir.files[k]) == Pass)
      && (Basename(dir.path) != "icu" ==> !OverLimit(DirSize(dir.files)))
    ensures ((forall k | 0 <= k < |dir.files| :: ContentFileRule(dir.files[k]) == Pass)
             && Basename(dir.path) != "icu" && OverLimit(DirSize(dir.files))) ==>
      r == Err(RecipeError(MsgRecipeTooLarge(DirSize(dir.files))))
    ensures r != Pass && !OverLimit(DirSize(dir.files)) ==> exists k | 0 <= k < |dir.files| ::
      r == ContentFileRule(dir.files[k])
  {
    var _ :- Each(dir.files, ContentFileRule, 0);
    if Basename(dir.path) == "icu" then Pass
    else if OverLimit(DirSize(dir.files)) then Err(RecipeError(MsgRecipeTooLarge(DirSize(dir.files))))
    else Pass
  }

  /** A file `s + ext` ends with every suffix of `ext`. */
  lemma EndsWithSuffix(s: string, a: string, b: string)
    requires EndsWith(s, a + b)
    ensures EndsWith(s, b)
  {
    assert s[|s| - |b|..] == s[|s| - |a + b|..][|a|..];
  }

  /** A `.tar.bz2` name is both compressed and disallowed. */
  lemma TarBz2Suffixes(name: string)
    requires EndsWith(name, ".tar.bz2")
    ensures EndsWithAny(name, CompressedExtensions)
    ensures EndsWithAny(name, RecipeChecks.DisallowedExtensions)
  {
    EndsWithSuffix(name, ".tar", ".bz2");
    assert EndsWith(name, CompressedExtensions[0]);
    assert EndsWith(name, RecipeChecks.DisallowedExtensions[2]);
  }

  /** A large `.tar.bz2` is reported as too large, not as disallowed,
      because the size test comes first. */
  lemma LargeTarballTooLarge(fn: string, size: nat)
    requires EndsWith(Lower(Basename(fn)), ".tar.bz2") && size > 512
    ensures Disallowed((fn, size))
    ensures ContentFileRule((fn, size)) == Err(RecipeError(MsgTooLarge(Basename(fn))))
  {
    TarBz2Suffixes(Lower(Basename(fn)));
  }

  /** The `icu` directory may be of any size; elsewhere one byte over
      512 KB is too much. */
  lemma SizeLimit(dir: RecipeDir)
    requires forall k | 0 <= k < |dir.files| :: ContentFileRule(dir.files[k]) == Pass
    ensures Basename(dir.path) == "icu" ==> CheckDirContent(dir) == Pass
    ensures Basename(dir.path) != "icu" ==>
      (CheckDirContent(dir) == Pass <==> DirSize(dir.files) <= 524288)
  {
  }
}
