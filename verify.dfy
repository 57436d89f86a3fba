/** `conda_verify/verify.py`: `Verify.verify_package` and
    `Verify.verify_recipe` run every check of a checker class, keep the
    diagnostics whose code is not ignored, and return them sorted as
    `"[code] message"` lines, or stop at the first kept diagnostic when
    asked to. The `dir()` reflection that finds the checks is replaced by
    explicit lists in `dir()`'s (alphabetical) order. */
module Verify {
  import opened Base
  import opened Values
  import opened Errors
  import Order
  import Archive
  import PackageChecks
  import RecipeChecks

  // ---------------------------------------------------------------------
  // Which codes are ignored
  // ---------------------------------------------------------------------

  /** The `checks_to_ignore` argument: `None`, a list of codes (what the
      command line passes), a tuple or a set of codes (which the docstring
      also allows), or one code as a bare string. */
  datatype Ignore =
    | IgnoreNone
    | IgnoreList(codes: seq<string>)
    | IgnoreTuple(items: seq<string>)
    | IgnoreSet(members: set<string>)
    | IgnoreCode(code: string)

  /** `code in ensure_list(checks_to_ignore)` as written: `ensure_list`
      passes only a list through, so `None` becomes `[None]` and a tuple or
      a set becomes a one-element list holding it, which never equals a
      code. */
  predicate SuppressedAsWritten(code: string, ignore: Ignore): (b: bool)
    ensures b ==> ignore.IgnoreList? || ignore.IgnoreCode?
  {
    match ignore
    case IgnoreNone => false
    case IgnoreList(codes) => code in codes
    case IgnoreTuple(_) => false
    case IgnoreSet(_) => false
    case IgnoreCode(c) => code == c
  }

  /** The filter as the docstring describes it: a code is ignored when the
      list, tuple or set names it. */
  predicate Suppressed(code: string, ignore: Ignore): (b: bool)
    ensures SuppressedAsWritten(code, ignore) ==> b
    ensures ignore.IgnoreTuple? ==> (b <==> code in ignore.items)
    ensures ignore.IgnoreNone? ==> !b
  {
    match ignore
    case IgnoreNone => false
    case IgnoreList(codes) => code in codes
    case IgnoreTuple(items) => code in items
    case IgnoreSet(members) => code in members
    case IgnoreCode(c) => code == c
  }

  /** As written, ignoring codes by tuple or by set ignores nothing; as
      intended, the named code is dropped. */
  lemma TupleIgnoresNothingAsWritten(code: string)
    ensures !SuppressedAsWritten(code, IgnoreTuple([code])) && Suppressed(code, IgnoreTuple([code]))
    ensures !SuppressedAsWritten(code, IgnoreSet({code})) && Suppressed(code, IgnoreSet({code}))
  {
  }

  /** The two readings agree on everything but tuples and sets; with no
      argument nothing is suppressed. */
  lemma SuppressedAgrees(code: string, ignore: Ignore)
    ensures !ignore.IgnoreTuple? && !ignore.IgnoreSet? ==>
      (Suppressed(code, ignore) <==> SuppressedAsWritten(code, ignore))
    ensures !Suppressed(code, IgnoreNone)
  {
  }

  /** Which program a run follows: `verify.py` and `checks.py` as written,
      or with the two corrections recorded in the README (the ignore
      filter the docstring describes, and `check_menu_json_name` comparing
      with `Menu/<name>.json`). */
  datatype Reading = AsWritten | AsIntended

  /** Whether a diagnostic with this code is dropped under `reading`. */
  predicate Ignored(reading: Reading, code: string, ignore: Ignore) {
    if reading == AsWritten then SuppressedAsWritten(code, ignore) else Suppressed(code, ignore)
  }

  // ---------------------------------------------------------------------
  // The collecting loop
  // ---------------------------------------------------------------------

  /** The results that are kept: not `None` and not ignored, in order. */
  function Kept(results: seq<Option<Diagnostic>>, reading: Reading, ignore: Ignore): (kept: seq<Diagnostic>)
    ensures |kept| <= |results|
    decreases |results|
  {
    if |results| == 0 then []
    else
      var last := results[|results| - 1];
      var kept := Kept(results[..|results| - 1], reading, ignore);
      if last.Some? && !Ignored(reading, last.value.code, ignore) then kept + [last.value] else kept
  }

  /** Exactly the diagnostics that were found and are not ignored are kept. */
  lemma {:induction false} KeptMembers(results: seq<Option<Diagnostic>>, reading: Reading, ignore: Ignore, d: Diagnostic)
    ensures d in Kept(results, reading, ignore) <==> Some(d) in results && !Ignored(reading, d.code, ignore)
    decreases |results|
  {
    if |results| > 0 {
      var init := results[..|results| - 1];
      KeptMembers(init, reading, ignore, d);
      assert results == init + [results[|results| - 1]];
    }
  }

  /** How often each diagnostic is kept depends only on how often it was
      found. */
  lemma {:induction false} KeptCount(results: seq<Option<Diagnostic>>, reading: Reading, ignore: Ignore, d: Diagnostic)
    ensures multiset(Kept(results, reading, ignore))[d] == if Ignored(reading, d.code, ignore) then 0 else multiset(results)[Some(d)]
    decreases |results|
  {
    if |results| > 0 {
      var init := results[..|results| - 1];
      KeptCount(init, reading, ignore, d);
      assert results == init + [results[|results| - 1]];
    }
  }

  /** The loop over the check results: an exception escapes at once; otherwise the kept diagnostics (`checks_to_display`) and the
      last result (`check`) are what is left. */
  function Scan(results: seq<Outcome>, reading: Reading, ignore: Ignore): (r: Res<(seq<Diagnostic>, Option<Diagnostic>)>)
    ensures r.Ok? <==> forall k | 0 <= k < |results| :: results[k].Ok?
    ensures r.Ok? ==> |r.value.0| <= |results|
    ensures r.Ok? ==> forall k | 0 <= k < |r.value.0| :: !Ignored(reading, r.value.0[k].code, ignore)
    ensures r.Ok? ==> r.value.1 == if |results| == 0 then None else results[|results| - 1].value
    decreases |results|
  {
    if |results| == 0 then Ok(([], None))
    else
      var (display, _) :- Scan(results[..|results| - 1], reading, ignore);
      var last := results[|results| - 1];
      if last.Err? then Err(last.exc)
      else
        var check := last.value;
        Ok((if check.Some? && !Ignored(reading, check.value.code, ignore) then display + [check.value] else display, check))
  }

  /** Every result is unwrapped once no check raised. */
  function Unwrapped(results: seq<Outcome>): (vs: seq<Option<Diagnostic>>)
    requires forall k | 0 <= k < |results| :: results[k].Ok?
    ensures |vs| == |results| && forall k | 0 <= k < |results| :: vs[k] == results[k].value
  {
    seq(|results|, (k: int) requires 0 <= k < |results| && results[k].Ok? => results[k].value)
  }

  /** When the loop raises, it raises the first exception a check raises. */
  lemma {:induction false} ScanRaisesFirst(results: seq<Outcome>, reading: Reading, ignore: Ignore)
    ensures Scan(results, reading, ignore).Err? ==> exists k | 0 <= k < |results| ::
      results[k] == Err(Scan(results, reading, ignore).exc) && forall j | 0 <= j < k :: results[j].Ok?
    decreases |results|
  {
    if |results| > 0 {
      var n := |results|;
      var init := results[..n - 1];
      ScanRaisesFirst(init, reading, ignore);
      var s := Scan(init, reading, ignore);
      if s.Err? {
        var k :| 0 <= k < |init| && init[k] == Err(s.exc) && forall j | 0 <= j < k :: init[j].Ok?;
        assert Scan(results, reading, ignore) == Err(s.exc);
        assert forall j | 0 <= j <= k :: init[j] == results[j];
        assert results[k] == Err(s.exc) && forall j | 0 <= j < k :: results[j].Ok?;
      } else if results[n - 1].Err? {
        assert Scan(results, reading, ignore) == Err(results[n - 1].exc);
        assert forall j | 0 <= j < n - 1 :: init[j] == results[j];
        assert forall j | 0 <= j < n - 1 :: results[j].Ok?;
      }
    }
  }

  /** When no check raises, the loop keeps `Kept` of the results and ends
      on the last one. */
  lemma {:induction false} ScanSpec(results: seq<Outcome>, reading: Reading, ignore: Ignore)
    ensures Scan(results, reading, ignore).Ok? ==>
      var vs := Unwrapped(results);
      Scan(results, reading, ignore).value == (Kept(vs, reading, ignore), if |vs| == 0 then None else vs[|vs| - 1])
    decreases |results|
  {
    if |results| > 0 && Scan(results, reading, ignore).Ok? {
      var n := |results|;
      var init := results[..n - 1];
      ScanSpec(init, reading, ignore);
      assert forall k | 0 <= k < n - 1 :: init[k] == results[k];
      assert Unwrapped(results)[..n - 1] == Unwrapped(init);
    }
  }

  /** The loop of `verify_package` / `verify_recipe`. */
  method Collect(results: seq<Outcome>, reading: Reading, ignore: Ignore) returns (r: Res<(seq<Diagnostic>, Option<Diagnostic>)>)
    ensures r == Scan(results, reading, ignore)
  {
    var display: seq<Diagnostic> := [];
    var check: Option<Diagnostic> := None;
    var i := 0;
    while i < |results|
      invariant 0 <= i <= |results|
      invariant Scan(results[..i], reading, ignore) == Ok((display, check))
    {
      assert results[..i + 1][..i] == results[..i];
      if results[i].Err? {
        ScanStops(results, i + 1, reading, ignore);
        return Err(results[i].exc);
      }
      ScanStep(results, i, reading, ignore);
      check := results[i].value;
      if check.Some? && !Ignored(reading, check.value.code, ignore) {
        display := display + [check.value];
      }
      i := i + 1;
    }
    assert results[..i] == results;
    return Ok((display, check));
  }

  /** One more result extends the loop's state. */
  lemma ScanStep(results: seq<Outcome>, i: nat, reading: Reading, ignore: Ignore)
    requires i < |results| && Scan(results[..i], reading, ignore).Ok? && results[i].Ok?
    ensures var (display, _) := Scan(results[..i], reading, ignore).value;
      var check := results[i].value;
      Scan(results[..i + 1], reading, ignore)
        == Ok((if check.Some? && !Ignored(reading, check.value.code, ignore) then display + [check.value] else display, check))
  {
    assert results[..i + 1][..i] == results[..i];
  }

  /** Once a prefix raised, so does the whole run, with that exception. */
  lemma {:induction false} ScanStops(results: seq<Outcome>, n: nat, reading: Reading, ignore: Ignore)
    requires n <= |results| && Scan(results[..n], reading, ignore).Err?
    ensures Scan(results, reading, ignore) == Scan(results[..n], reading, ignore)
    decreases |results| - n
  {
    if n < |results| {
      assert results[..n + 1][..n] == results[..n];
      ScanStops(results, n + 1, reading, ignore);
    } else {
      assert results[..n] == results;
    }
  }

  // ---------------------------------------------------------------------
  // The report
  // ---------------------------------------------------------------------

  /** `"[{}] {}".format(*c[1:])` */
  function Line(d: Diagnostic): string {
    "[" + d.code + "] " + d.message
  }

  function Lines(ds: seq<Diagnostic>): (ls: seq<string>)
    ensures |ls| == |ds| && forall k | 0 <= k < |ds| :: ls[k] == Line(ds[k])
  {
    seq(|ds|, (k: int) requires 0 <= k < |ds| => Line(ds[k]))
  }

  /** Which diagnostic `exit_on_error` raises with: the package path raises
      with `check`, the last result evaluated, which may be `None`; the
      recipe path with the first kept diagnostic. */
  datatype Culprit = LastEvaluated | FirstKept

  /** What a run returns: the path and the sorted lines, a check's
      exception, or the `PackageError`/`RecipeError` raised on request. */
  datatype Verdict =
    | Report(path: string, lines: seq<string>)
    | Raised(exc: Exc)
    | Stopped(culprit: Option<Diagnostic>)

  /** The effect of one run over the check results in evaluation order. */
  function Run(path: string, results: seq<Outcome>, reading: Reading, ignore: Ignore, exitOnError: bool, culprit: Culprit): (v: Verdict)
    ensures v.Raised? <==> exists k | 0 <= k < |results| :: results[k].Err?
    ensures v.Report? ==> v.path == path && |v.lines| <= |results|
    ensures v.Stopped? ==> exitOnError
    ensures !exitOnError ==> !v.Stopped?
  {
    match Scan(results, reading, ignore)
    case Err(e) => Raised(e)
    case Ok((kept, check)) =>
      if |kept| > 0 && exitOnError then
        Stopped(if culprit == FirstKept then Some(kept[0]) else check)
      else Report(path, Order.Sort(Lines(kept)))
  }

  /** The report lists each kept diagnostic once per finding, in sorted
      order. */
  lemma ReportIsSortedKept(path: string, results: seq<Outcome>, reading: Reading, ignore: Ignore, exitOnError: bool, culprit: Culprit)
    requires Run(path, results, reading, ignore, exitOnError, culprit).Report?
    ensures forall k | 0 <= k < |results| :: results[k].Ok?
    ensures var v := Run(path, results, reading, ignore, exitOnError, culprit);
      v.path == path && Order.Sorted(v.lines)
      && multiset(v.lines) == multiset(Lines(Kept(Unwrapped(results), reading, ignore)))
  {
    ScanSpec(results, reading, ignore);
    Order.SortSpec(Lines(Kept(Unwrapped(results), reading, ignore)));
  }

  /** The lines of two runs whose checks found the same diagnostics (with
      the same multiplicities) in different orders are the same, so the
      order in which the checks run does not show in the report. */
  lemma ReportIgnoresOrder(a: seq<Option<Diagnostic>>, b: seq<Option<Diagnostic>>, reading: Reading, ignore: Ignore)
    requires multiset(a) == multiset(b)
    ensures Order.Sort(Lines(Kept(a, reading, ignore))) == Order.Sort(Lines(Kept(b, reading, ignore)))
  {
    var ka := Kept(a, reading, ignore);
    var kb := Kept(b, reading, ignore);
    forall d ensures multiset(ka)[d] == multiset(kb)[d] {
      KeptCount(a, reading, ignore, d);
      KeptCount(b, reading, ignore, d);
    }
    assert multiset(ka) == multiset(kb);
    LinesPermutation(ka, kb);
    Order.SortIgnoresOrder(Lines(ka), Lines(kb));
  }

  /** A permutation of diagnostics gives a permutation of lines. */
  lemma {:induction false} LinesPermutation(a: seq<Diagnostic>, b: seq<Diagnostic>)
    requires multiset(a) == multiset(b)
    ensures multiset(Lines(a)) == multiset(Lines(b))
    decreases |a|
  {
    if |a| > 0 {
      assert a[0] in multiset(b);
      var j :| 0 <= j < |b| && b[j] == a[0];
      var b' := b[..j] + b[j + 1..];
      assert b == b[..j] + [b[j]] + b[j + 1..];
      assert a == [a[0]] + a[1..];
      assert multiset(b) == multiset(b[..j]) + multiset{b[j]} + multiset(b[j + 1..]);
      assert multiset(b') == multiset(b[..j]) + multiset(b[j + 1..]);
      assert multiset(a) == multiset{a[0]} + multiset(a[1..]);
      assert multiset(a[1..]) == multiset(a) - multiset{a[0]};
      assert multiset(b') == multiset(b) - multiset{b[j]};
      LinesPermutation(a[1..], b');
      LinesConcat([a[0]], a[1..]);
      LinesConcat(b[..j] + [b[j]], b[j + 1..]);
      LinesConcat(b[..j], [b[j]]);
      LinesConcat(b[..j], b[j + 1..]);
    } else {
      assert |b| == |multiset(b)| == 0;
    }
  }

  lemma LinesConcat(a: seq<Diagnostic>, b: seq<Diagnostic>)
    ensures Lines(a + b) == Lines(a) + Lines(b)
  {
    forall k | 0 <= k < |a| + |b| ensures Lines(a + b)[k] == (Lines(a) + Lines(b))[k] {
      if k < |a| {
        assert (a + b)[k] == a[k];
      } else {
        assert (a + b)[k] == b[k - |a|];
      }
    }
  }

  /** A diagnostic whose code is ignored never reaches the report. */
  lemma IgnoredNeverReported(results: seq<Option<Diagnostic>>, reading: Reading, ignore: Ignore, d: Diagnostic)
    requires Ignored(reading, d.code, ignore)
    ensures d !in Kept(results, reading, ignore)
  {
    KeptMembers(results, reading, ignore, d);
  }

  /** With `exit_on_error`, a run that keeps anything raises: with the first
      kept diagnostic on the recipe path, and on the package path with the
      last result, which is `None` when the last check found nothing. */
  lemma StopCarries(path: string, d: Diagnostic, reading: Reading, ignore: Ignore)
    requires !Ignored(reading, d.code, ignore)
    ensures Run(path, [Ok(Some(d)), Ok(None)], reading, ignore, true, FirstKept) == Stopped(Some(d))
    ensures Run(path, [Ok(Some(d)), Ok(None)], reading, ignore, true, LastEvaluated) == Stopped(None)
  {
    var rs: seq<Outcome> := [Ok(Some(d)), Ok(None)];
    assert rs[..1] == [Ok(Some(d))];
    assert rs[..1][..0] == [];
    assert Scan(rs[..1][..0], reading, ignore) == Ok(([], None));
    assert [] + [d] == [d];
    assert Scan(rs[..1], reading, ignore) == Ok(([d], Some(d)));
    assert rs[..|rs| - 1] == rs[..1] && rs[|rs| - 1] == Ok(None);
    assert Scan(rs, reading, ignore) == Ok(([d], None));
  }

  /** When `exit_on_error` stops a run, nothing raised and something was
      kept; the recipe path stops with the first kept diagnostic, the
      package path with the last result. */
  lemma StoppedWith(path: string, results: seq<Outcome>, reading: Reading, ignore: Ignore, exitOnError: bool, culprit: Culprit)
    requires Run(path, results, reading, ignore, exitOnError, culprit).Stopped?
    ensures exitOnError && forall k | 0 <= k < |results| :: results[k].Ok?
    ensures var kept := Kept(Unwrapped(results), reading, ignore);
      |kept| > 0
      && (culprit == FirstKept ==> Run(path, results, reading, ignore, exitOnError, culprit).culprit == Some(kept[0]))
      && (culprit == LastEvaluated ==> Run(path, results, reading, ignore, exitOnError, culprit).culprit == results[|results| - 1].value)
  {
    ScanSpec(results, reading, ignore);
  }

  // ---------------------------------------------------------------------
  // The two entry points
  // ---------------------------------------------------------------------

  /** The checks from `check_build_number` to `check_for_hardlinks`. */
  function BuildToHardlinkResults(pc: PackageChecks.PackageCheck): (rs: seq<Outcome>)
    ensures |rs| == 12
  {
    [ PackageChecks.CheckBuildNumber(pc),
      PackageChecks.CheckBuildString(pc),
      Ok(PackageChecks.CheckDuplicateMembers(pc)),
      Ok(PackageChecks.CheckFilesFileEncoding(pc)),
      Ok(PackageChecks.CheckFilesFileForDuplicates(pc)),
      Ok(PackageChecks.CheckFilesFileForInfo(pc)),
      Ok(PackageChecks.CheckFilesFileForValidity(pc)),
      Ok(PackageChecks.CheckFor2to3Pickle(pc)),
      Ok(PackageChecks.CheckForBatAndExe(pc)),
      Ok(PackageChecks.CheckForEasyInstallScript(pc)),
      Ok(PackageChecks.CheckForEgg(pc)),
      Ok(PackageChecks.CheckForHardlinks(pc)) ]
  }

  /** The checks from `check_for_noarch_info` to `check_members`. */
  function NoarchToMembersResults(pc: PackageChecks.PackageCheck): (rs: seq<Outcome>)
    ensures |rs| == 11
  {
    [ PackageChecks.CheckForNoarchInfo(pc),
      Ok(PackageChecks.CheckForPostLinks(pc)),
      Ok(PackageChecks.CheckForPthFile(pc)),
      Ok(PackageChecks.CheckForPycInSitePackages(pc)),
      Ok(PackageChecks.CheckForPyoFile(pc)),
      Ok(PackageChecks.CheckForUnallowedFiles(pc)),
      Ok(PackageChecks.CheckIndexDependencies(pc)),
      PackageChecks.CheckIndexDependenciesSpecs(pc),
      Ok(PackageChecks.CheckIndexEncoding(pc)),
      Ok(PackageChecks.CheckLicenseFamily(pc)),
      Ok(PackageChecks.CheckMembers(pc)) ]
  }

  /** `check_menu_json_name` under `reading`. */
  function MenuJsonName(pc: PackageChecks.PackageCheck, reading: Reading): (r: Option<Diagnostic>)
    ensures reading == AsWritten ==> r == PackageChecks.CheckMenuJsonNameAsWritten(pc)
    ensures reading == AsIntended ==> r == PackageChecks.CheckMenuJsonName(pc)
  {
    if reading == AsWritten then PackageChecks.CheckMenuJsonNameAsWritten(pc) else PackageChecks.CheckMenuJsonName(pc)
  }

  /** The checks from `check_menu_json_name` to `check_windows_arch`. */
  function MenuToArchResults(pc: PackageChecks.PackageCheck, json: seq<byte> -> Res<Value>, sha256: seq<byte> -> string,
                             reading: Reading): (rs: seq<Outcome>)
    ensures |rs| == 10 && rs[0] == Ok(MenuJsonName(pc, reading))
  {
    [ Ok(MenuJsonName(pc, reading)),
      PackageChecks.CheckPackageHashesAndSize(pc, json, sha256),
      PackageChecks.CheckPackageName(pc),
      Ok(PackageChecks.CheckPackageVersion(pc)),
      Ok(PackageChecks.CheckPrefixFile(pc)),
      Ok(PackageChecks.CheckPrefixFileBinaryMode(pc)),
      Ok(PackageChecks.CheckPrefixFileFilename(pc)),
      Ok(PackageChecks.CheckPrefixFileMode(pc)),
      Ok(PackageChecks.CheckPycFiles(pc)),
      PackageChecks.CheckWindowsArch(pc) ]
  }

  /** The results of `CondaPackageCheck`'s checks in `dir()` order. */
  function PackageResults(pc: PackageChecks.PackageCheck, json: seq<byte> -> Res<Value>, sha256: seq<byte> -> string,
                          reading: Reading): (rs: seq<Outcome>)
    ensures |rs| == 33
    ensures rs[0] == PackageChecks.CheckBuildNumber(pc) && rs[23] == Ok(MenuJsonName(pc, reading))
    ensures rs[32] == PackageChecks.CheckWindowsArch(pc)
  {
    BuildToHardlinkResults(pc) + NoarchToMembersResults(pc) + MenuToArchResults(pc, json, sha256, reading)
  }

  /** The results of `CondaRecipeCheck`'s checks in `dir()` order. */
  function RecipeResults(rc: RecipeChecks.RecipeCheck): (rs: seq<Outcome>)
    ensures |rs| == 11
  {
    [ RecipeChecks.CheckAbout(rc),
      RecipeChecks.CheckBuildNumber(rc),
      RecipeChecks.CheckDirContent(rc),
      RecipeChecks.CheckFields(rc),
      RecipeChecks.ValidFiles(rc),
      RecipeChecks.CheckLicenseFamily(rc),
      RecipeChecks.CheckPackageName(rc),
      RecipeChecks.CheckPackageVersion(rc),
      RecipeChecks.CheckRecipesComments(rc),
      RecipeChecks.CheckRequirements(rc),
      RecipeChecks.CheckSource(rc) ]
  }

  /** `verify_package`: open the archive (a failure there escapes), run the
      checks, and stop with the last result when `exit_on_error` is set
      and something was kept. */
  method VerifyPackage(path: string, members: seq<Archive.Member>, json: seq<byte> -> Res<Value>,
                       sha256: seq<byte> -> string, reading: Reading, ignore: Ignore, exitOnError: bool) returns (v: Verdict)
    ensures PackageChecks.Open(path, members, json).Err? ==> v == Raised(PackageChecks.Open(path, members, json).exc)
    ensures PackageChecks.Open(path, members, json).Ok? ==>
      v == Run(path, PackageResults(PackageChecks.Open(path, members, json).value, json, sha256, reading),
               reading, ignore, exitOnError, LastEvaluated)
  {
    var pc := PackageChecks.Open(path, members, json);
    if pc.Err? {
      return Raised(pc.exc);
    }
    var results := PackageResults(pc.value, json, sha256, reading);
    v := Finish(path, results, reading, ignore, exitOnError, LastEvaluated);
  }

  /** `verify_recipe`: run the checks and stop with the first kept
      diagnostic when `exit_on_error` is set. */
  method VerifyRecipe(rc: RecipeChecks.RecipeCheck, reading: Reading, ignore: Ignore, exitOnError: bool) returns (v: Verdict)
    ensures v == Run(rc.recipeDir, RecipeResults(rc), reading, ignore, exitOnError, FirstKept)
  {
    var validFiles := RecipeChecks.CheckForValidFiles(rc);
    var results :=
      [ RecipeChecks.CheckAbout(rc),
        RecipeChecks.CheckBuildNumber(rc),
        RecipeChecks.CheckDirContent(rc),
        RecipeChecks.CheckFields(rc),
        validFiles,
        RecipeChecks.CheckLicenseFamily(rc),
        RecipeChecks.CheckPackageName(rc),
        RecipeChecks.CheckPackageVersion(rc),
        RecipeChecks.CheckRecipesComments(rc),
        RecipeChecks.CheckRequirements(rc),
        RecipeChecks.CheckSource(rc) ];
    v := Finish(rc.recipeDir, results, reading, ignore, exitOnError, FirstKept);
  }

  /** The common tail of both entry points. */
  method Finish(path: string, results: seq<Outcome>, reading: Reading, ignore: Ignore, exitOnError: bool, culprit: Culprit)
    returns (v: Verdict)
    ensures v == Run(path, results, reading, ignore, exitOnError, culprit)
  {
    var collected := Collect(results, reading, ignore);
    if collected.Err? {
      return Raised(collected.exc);
    }
    var (display, check) := collected.value;
    if |display| > 0 && exitOnError {
      return Stopped(if culprit == FirstKept then Some(display[0]) else check);
    }
    return Report(path, Order.Sort(Lines(display)));
  }

  // ---------------------------------------------------------------------
  // The two readings
  // ---------------------------------------------------------------------

  /** The readings drop the same codes unless the ignore argument is a
      tuple or a set. */
  lemma IgnoredAgrees(code: string, ignore: Ignore)
    requires !ignore.IgnoreTuple? && !ignore.IgnoreSet?
    ensures Ignored(AsWritten, code, ignore) <==> Ignored(AsIntended, code, ignore)
  {
    SuppressedAgrees(code, ignore);
  }

  /** So the loop gives the same result under both readings. */
  lemma {:induction false} ScanAgrees(results: seq<Outcome>, ignore: Ignore)
    requires !ignore.IgnoreTuple? && !ignore.IgnoreSet?
    ensures Scan(results, AsWritten, ignore) == Scan(results, AsIntended, ignore)
    decreases |results|
  {
    if |results| > 0 {
      ScanAgrees(results[..|results| - 1], ignore);
      var last := results[|results| - 1];
      if last.Ok? && last.value.Some? {
        IgnoredAgrees(last.value.value.code, ignore);
      }
    }
  }

  /** So does a whole run. */
  lemma RunAgrees(path: string, results: seq<Outcome>, ignore: Ignore, exitOnError: bool, culprit: Culprit)
    requires !ignore.IgnoreTuple? && !ignore.IgnoreSet?
    ensures Run(path, results, AsWritten, ignore, exitOnError, culprit) == Run(path, results, AsIntended, ignore, exitOnError, culprit)
  {
    ScanAgrees(results, ignore);
  }

  /** The package checks give the same results under both readings unless
      the package holds exactly one Menu json file. */
  lemma PackageResultsAgree(pc: PackageChecks.PackageCheck, json: seq<byte> -> Res<Value>, sha256: seq<byte> -> string)
    requires |PackageChecks.MenuJsonFiles(pc)| != 1
    ensures PackageResults(pc, json, sha256, AsWritten) == PackageResults(pc, json, sha256, AsIntended)
  {
    var w := PackageChecks.CheckMenuJsonNameAsWritten(pc);
    var i := PackageChecks.CheckMenuJsonName(pc);
    assert w.Some? <==> i.Some?;
    if w.Some? {
      assert w.value.code == "C1143" && i.value.code == "C1143";
    }
  }

  /** `verify_package` as written and as intended report the same unless
      the ignore argument is a tuple or a set or the package holds exactly
      one Menu json file. */
  lemma PackageReadingsAgree(path: string, pc: PackageChecks.PackageCheck, json: seq<byte> -> Res<Value>,
                             sha256: seq<byte> -> string, ignore: Ignore, exitOnError: bool)
    requires !ignore.IgnoreTuple? && !ignore.IgnoreSet? && |PackageChecks.MenuJsonFiles(pc)| != 1
    ensures Run(path, PackageResults(pc, json, sha256, AsWritten), AsWritten, ignore, exitOnError, LastEvaluated)
         == Run(path, PackageResults(pc, json, sha256, AsIntended), AsIntended, ignore, exitOnError, LastEvaluated)
  {
    PackageResultsAgree(pc, json, sha256);
    RunAgrees(path, PackageResults(pc, json, sha256, AsWritten), ignore, exitOnError, LastEvaluated);
  }

  /** `verify_recipe` as written and as intended report the same unless
      the ignore argument is a tuple or a set. */
  lemma RecipeReadingsAgree(rc: RecipeChecks.RecipeCheck, ignore: Ignore, exitOnError: bool)
    requires !ignore.IgnoreTuple? && !ignore.IgnoreSet?
    ensures Run(rc.recipeDir, RecipeResults(rc), AsWritten, ignore, exitOnError, FirstKept)
         == Run(rc.recipeDir, RecipeResults(rc), AsIntended, ignore, exitOnError, FirstKept)
  {
    RunAgrees(rc.recipeDir, RecipeResults(rc), ignore, exitOnError, FirstKept);
  }

  /** A diagnostic whose code is named in a tuple is still reported as
      written, and dropped as intended. */
  lemma TupleKeptAsWritten(d: Diagnostic)
    ensures Kept([Some(d)], AsWritten, IgnoreTuple([d.code])) == [d]
    ensures Kept([Some(d)], AsIntended, IgnoreTuple([d.code])) == []
  {
    var rs := [Some(d)];
    assert rs[..0] == [];
    TupleIgnoresNothingAsWritten(d.code);
  }
}
