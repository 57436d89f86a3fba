# conda-verify, modelled in Dafny

conda-verify checks conda packages (`.tar.bz2` archives) and conda recipes
(`meta.yaml` plus the recipe directory) against the packaging conventions
of conda and conda-forge. It exists in three generations, all modelled:

- `conda_verify/checks.py` with `conda_verify/verify.py`. The current
  checkers `CondaPackageCheck` (codes C1101 to C1147) and
  `CondaRecipeCheck` (C2101 to C2126) return diagnostics `(path, code,
  message)`. `Verify` runs every check, drops the ignored codes and returns
  the sorted `"[code] message"` lines, or raises on the first kept
  diagnostic in strict mode.
- `conda_verify/conda_package_check.py`, `conda_verify/conda_recipe_check.py`
  and the functions of `conda_verify/recipe/test_meta.py` and
  `conda_verify/recipe/test_files.py`. These are the earlier checkers,
  which raise `PackageError` or `RecipeError` on the first problem.
- `anaconda_verify/package.py` and `conda_verify/recipe.py`. These are the
  oldest validators. The package one raises `PackageError`; the recipe one
  raises a plain `Exception`, fails an assertion, or exits.

The helpers they share are modelled too: the validators of
`conda_verify/common.py`, the byte and selector utilities of
`conda_verify/utilities.py` and `conda_verify/utils.py`, the object-file
sniffer of `conda_verify/fileinfo.py` and the tables of
`conda_verify/constants.py`.

Modules, one per source file where there is one:

| module | file | what it holds |
|---|---|---|
| `Base`, `Text`, `Values`, `Patterns`, `Order` | (shared) | Python exceptions as `Res<T>`, `str` operations on `seq<char>`, decoded JSON/YAML values with Python truthiness, the regular expressions as recognisers, string ordering and `sorted`/`min` |
| `Archive` | (shared) | an opened package: members in archive order with header flags, sizes and contents |
| `Constants` | `conda_verify/constants.py` | the fallback license families and fields, magic numbers, PE machine codes, conda-forge comments |
| `Utilities`, `Utils`, `FileInfo` | `conda_verify/utilities.py`, `utils.py`, `fileinfo.py` | bad sequences, ASCII filter, object-type sniffers, `ensure_list`, `ns_cfg`, `select_lines`, `iter_cfgs`, `get_field`, the `memoized` cache as a class |
| `Errors`, `Common` | `conda_verify/errors.py`, `common.py` | the diagnostic and its message formats; the name/version/spec validators |
| `PackageChecks`, `RecipeChecks` | `conda_verify/checks.py` | every `check_*` method as a function returning `Res<Option<Diagnostic>>` |
| `Verify` | `conda_verify/verify.py` | the collecting loops as methods proved against `Kept`/`Run`, for either `Reading`: `AsWritten` runs `verify.py` and `checks.py` exactly as written, `AsIntended` with the ignore filter and the Menu json name of the Findings table corrected; lemmas say where the two agree |
| `PackageRules`, `RecipeRules` | `conda_package_check.py`, `conda_recipe_check.py` | the raising rules as `Status` values |
| `RecipeTree`, `RecipeFiles`, `RecipeMeta` | `conda_verify/recipe/` | the recipe directory as a listing; `test_files.py`; `test_meta.py` |
| `Recipe`, `AnacondaPackage` | `conda_verify/recipe.py`, `anaconda_verify/package.py` | the oldest validators, each rule related to its later version by a lemma |

Where two generations share a body the later module reuses the earlier
function. Where they differ, a lemma states how: which inputs one accepts
and the other refuses, or that the results agree.

Behaviour of the code that the model keeps as written:
- In `check_requirements` (`conda_verify/checks.py`), a blank requirement
  raises `IndexError` before C2113 can be reported
  (`RecipeChecks.BlankRequirementRaises`).
- `verify_package` raises `PackageError` with the last check evaluated,
  which may be `None`. `verify_recipe` raises with the first kept
  diagnostic (`Verify.StopCarries`).
- `_check_has_prefix_line` in `conda_package_check.py` never raises for a
  placeholder that is not 255 characters long. Pedantic mode has returned
  before that test, and lenient mode only warns.
- The Python 3 sniffer in `conda_verify/utilities.py` fails with
  `TypeError` on an unknown PE machine code and on every ELF header.
- `conda_package_check.py` imports `get_object_type` from
  `conda_verify/utils.py`, which on Python 3 bytes raises `TypeError` at its
  `find('PE\0\0')` for every DLL head (`Utils.GetObjectType`). So its
  `check_windows_arch` raises for every `.exe` or `.dll` with a DLL head
  and never passes a `win` package that holds one
  (`PackageRules.WindowsBinaryNeverPasses`). The Python 2 reading on text
  is `FileInfo.GetObjectType`.

## Model

| member | source | states |
|---|---|---|
| Constants.MagicLookup | conda_verify/constants.py:38-46 | `MAGIC_HEADERS.get(head)`: a name is found exactly when some entry has that head, and it is that entry's name |
| Constants.DllLookup | conda_verify/constants.py:48-54 | `DLL_TYPES.get(code)`: a name is found exactly when some entry has that code, and it is that entry's name |
| Constants.LicenseFamiliesShape | conda_verify/constants.py:6-7 | the fallback list has eleven distinct families, ending with `Other` |
| Constants.FieldsShape | conda_verify/constants.py:14-36 | the fallback `FIELDS` has nine distinct sections, among them `extra` and `outputs`; a name that is not a section has no keys |
| Constants.MagicHeadersShape | conda_verify/constants.py:38-46 | seven magic numbers, each four bytes long |
| Constants.MagicDll | conda_verify/constants.py:44 | the DOS header `MZ\x90\0` denotes a DLL |
| Constants.MagicElf | conda_verify/constants.py:45 | `\x7fELF` denotes an ELF image |
| Constants.DllTypesShape | conda_verify/constants.py:48-54 | twenty machine codes, no code listed twice |
| Constants.DllTypesNames | conda_verify/constants.py:49-50 | code 0 is `UNKNOWN`, 0x14c is `I386`, 0x8664 is `AMD64` |
| Constants.CondaForgeCommentsAreComments | conda_verify/constants.py:56-80 | every non-empty line of the conda-forge example comments starts with `#` |
| Utilities.GetBadSeq | conda_verify/utilities.py:123-129 | the first of the eight separator pairs, in the table's order, that occurs in the string; none exactly when none occurs |
| Utilities.GetBadSeqNoneIff | conda_verify/utilities.py:123-129 | reference reading: nothing is found exactly when no two adjacent characters are separators other than `__` |
| Utilities.UnderscoresAreFine | conda_verify/utilities.py:123-129 | a string without `-` and `.` never holds a bad sequence |
| Utilities.AllAscii | conda_verify/utilities.py:132-140 | the loop returns true exactly when every byte is LF, CR when allowed, or printable ASCII |
| Utilities.GetObjectType | conda_verify/utilities.py:106-120 | an unknown head gives None; a DLL without `PE\0\0` gives the no-header text; a Mach-O head gives its name; the ELF branch always raises on Python 3 bytes |
| Utilities.ShortDataHasNoType | conda_verify/utilities.py:107-109 | fewer than four bytes never match a magic number |
| Utilities.PeObjectType | conda_verify/utilities.py:111-116 | a PE file is named by the little-endian code after its first `PE\0\0`; an unregistered code raises `TypeError` |
| Utilities.PeTruncated | conda_verify/utilities.py:112-115 | a signature within five bytes of the end raises `IndexError` |
| Utilities.PeI386 | conda_verify/utilities.py:106-116 | the DOS magic and machine code 0x14c give `DLL I386` |
| Utilities.PeAmd64 | conda_verify/utilities.py:106-116 | the DOS magic and machine code 0x8664 give `DLL AMD64` |
| Utilities.EnsureList | conda_verify/utilities.py:143-146 | a list comes back as it is; any other value, `None` included, becomes a one-element list |
| Utilities.NsCfg | conda_verify/utilities.py:23-54 | without an assertion, a non-numeric `PY` raises `TypeError` at the first comparison; otherwise the namespace is the one `Namespace` defines, `py36` included |
| Utilities.NamespaceFlags | conda_verify/utilities.py:23-54 | `linux`, `win32`, `x86_64` and `py3k` follow the platform and Python version; `py` and `np` are passed through; `py36` exists only in this file's namespace |
| Utilities.IterCfgsShape | conda_verify/utilities.py:100-103 | fifteen configurations: the i-th pairs platform i mod 5 with Python version i div 5, always with `NPY=111` |
| Utilities.SelMatchSpec | conda_verify/utilities.py:57 | `sel_pat.match` finds a selector exactly when the line splits as the regex reads it, and then takes the shortest first group |
| Utilities.KeptLineSpec | conda_verify/utilities.py:60-68 | a line without a selector is kept right-stripped; a selector line contributes its head exactly when its condition holds |
| Utilities.SelectLines | conda_verify/utilities.py:58-69 | the loop's output is the kept lines joined by newlines, plus a final newline |
| Utils.Memoized.Call | conda_verify/utils.py:17-27 | as written: a list or dict argument raises `TypeError` and leaves the cache alone; otherwise the result is `func`'s value, served from the cache on a hit and added to it on a miss |
| Utils.Memoized.CallIntended | conda_verify/utils.py:17-27 | as intended: the result is always `func`'s value; unhashable arguments bypass the cache |
| Utils.UnhashableCallRaises | conda_verify/utils.py:18-22 | a memoized call with a list argument raises `TypeError` |
| Utils.CallTwice | conda_verify/utils.py:22-27 | two calls with the same hashable arguments give the same value and miss the cache at most once |
| Utils.SplitField | conda_verify/utils.py:117 | the two-name unpacking succeeds exactly when the field holds one `/`, and splits around it |
| Utils.GetField | conda_verify/utils.py:116-124 | a field without exactly one `/` raises `ValueError`; otherwise it is the section-and-key lookup |
| Utils.GetSectionKey | conda_verify/utils.py:118-124 | a meta that is not a mapping raises `AttributeError`; a missing or `None` section gives the default; any result other than the default is the bound, non-`None` value |
| Utils.GetFieldAt | conda_verify/utils.py:116-124 | `section/key` is looked up as that section and key |
| Utils.GetFieldDefault | conda_verify/utils.py:119-123 | the default comes back both for a missing key and for a key bound to `None` |
| Utils.GetFieldPresent | conda_verify/utils.py:121-124 | a present, non-`None` value comes back as it is |
| Utils.SplitUnique | conda_verify/utils.py:117 | a string with one `/` splits around it in one way only |
| Utils.NsCfg | conda_verify/utils.py:39-70 | `PY` and `NPY` must be ints, else the assertion fails naming the first offender; the namespace has no `py36` |
| Utils.IterCfgsNamespaces | conda_verify/utils.py:127-130 | every configuration `iter_cfgs` yields passes the assertion, and its namespace has no `py36` |
| Utils.IntCfgHasNoPy36 | conda_verify/utils.py:43-70 | integer `PY` and `NPY` always pass, and `py36` is not defined |
| FileInfo.MagicOf | conda_verify/fileinfo.py:1-9 | `MAGIC.get(data[:4])` on text: only a head of four characters can match |
| FileInfo.GetObjectType | conda_verify/fileinfo.py:20-34 | the Python 2 reading on text: an unknown head gives None; a DLL without `PE\0\0` gives the no-header text; ELF class 1 or 2 gives `ELF32` or `ELF64`, any other class raises |
| FileInfo.ShortDataHasNoType | conda_verify/fileinfo.py:21-23 | fewer than four characters never match |
| FileInfo.PeObjectType | conda_verify/fileinfo.py:25-30 | a PE file is named by the code after its first `PE\0\0`; an unregistered code raises `TypeError` |
| FileInfo.PeMachines | conda_verify/fileinfo.py:11-17 | machine code 0x14c, low byte first, is `DLL I386`, and 0x8664 is `DLL AMD64` |
| FileInfo.MachOName | conda_verify/fileinfo.py:31-32 | a Mach-O head returns its table name |
| FileInfo.MagicOfBytes | conda_verify/fileinfo.py:1-9 | a head of four byte characters is looked up like the bytes it denotes in the later table |
| FileInfo.DosMagicChars | conda_verify/fileinfo.py:7 | `MZ\x90\x00` denotes a DLL |
| FileInfo.ElfMagicChars | conda_verify/fileinfo.py:8 | `\x7fELF` denotes an ELF image |
| FileInfo.ElfClasses | conda_verify/fileinfo.py:33-34 | an ELF image with class byte 1 is `ELF32`, with 2 `ELF64` |
| Errors.FormatNoHoles | conda_verify/checks.py:101 | a template without `{}` is its own message |
| Errors.FormatOneHole | conda_verify/checks.py:101 | the argument lands where the template's one hole was |
| Errors.FormatPrefix | conda_verify/checks.py:71 | text before the first hole is copied unchanged |
| Patterns.TrailingSeparatorIff | conda_verify/common.py:12 | the trailing-character test on a name is exactly `endswith(('.', '-', '_'))` |
| Patterns.EdgeSeparatorIff | conda_verify/common.py:27 | the edge test on a version is exactly start or end in `_` or `.` |
| Patterns.RunCharacterized | conda_verify/checks.py:24 | the recogniser for the dependency version pattern is in the state its last one or two characters name when the prefix is locally valid, and dead otherwise |
| Patterns.VerSpecFullIff | conda_verify/checks.py:24 | a full match of the version-spec pattern holds exactly when the position-wise reading of the pattern admits the string |
| Patterns.BangFollowsDigit | conda_verify/checks.py:24 | in an accepted spec `!` only comes straight after a digit or `*` |
| Patterns.NotEqualsAfterComma | tests/unit_tests/test_regex.py:29 | a `,!=` clause is refused by the pattern whatever surrounds it |
| Patterns.VerSpecRejectsTripleOperator | tests/unit_tests/test_regex.py:22 | `>===3.5` is refused |
| Patterns.VerSpecAcceptsRange | tests/unit_tests/test_regex.py:25 | `>=2,<3` is accepted |
| Patterns.VerSpecAcceptsAlternative | tests/unit_tests/test_regex.py:30 | `1.0\|1.2.*` is accepted |
| Patterns.VerSpecAcceptsPrerelease | tests/unit_tests/test_regex.py:27 | `2.0rc1` is accepted |
| Common.CheckName | conda_verify/common.py:8-17 | a missing name gives "package name missing" |
| Common.CheckNameSpec | conda_verify/common.py:8-17 | a name is accepted iff it is given, matches the name pattern, has no trailing separator and no bad pair; a bad sequence is named in the message |
| Common.CheckVersion | conda_verify/common.py:21-32 | a missing version gives "package version missing" |
| Common.CheckVersionOrder | conda_verify/common.py:21-32 | the tests apply in the order missing, pattern, edge separator, bad sequence, with their messages; a version is accepted iff it passes all four |
| Common.CheckBuildString | conda_verify/common.py:36-42 | a build string is accepted iff it matches the version pattern and holds no `g`/`h` followed by five hex digits |
| Common.BuildStringHash | conda_verify/common.py:35-42 | `py36h1af98f8_0` is refused and `py27_0` accepted |
| Common.CheckSpec | conda_verify/common.py:46-62 | a missing spec gives "spec missing"; an accepted spec has one to three parts |
| Common.CheckSpecSpec | conda_verify/common.py:46-62 | a spec is accepted iff it is given, has one to three parts, a valid name, a constraint matching the spec pattern and, with three parts, a pure version |
| Common.VersionIsSpec | conda_verify/common.py:56-58 | a pure version also passes the constraint pattern |
| Common.Scan | conda_verify/common.py:67-71 | the first refused spec gives its message, a non-`str` accepted spec raises `AttributeError`, and `Ok(None)` means every spec is an accepted `str` |
| Common.Dedup | conda_verify/common.py:66-72 | the keys of the `defaultdict` are the distinct names in first-occurrence order |
| Common.OrderStep | conda_verify/common.py:71 | inserting a spec appends a new name to the key order and leaves a known one in place |
| Common.NamedStep | conda_verify/common.py:71 | inserting a spec appends it to its own name's list only |
| Common.GroupsStep | conda_verify/common.py:71 | the map built so far keeps mapping every name to its specs in order |
| Common.CheckSpecs | conda_verify/common.py:65-76 | the method's result is the one the specification function gives |
| Common.AddSpec | conda_verify/common.py:71 | appending an accepted spec to its name's list keeps every name keyed, in first-occurrence order, to exactly the specs seen so far with that name |
| Common.ReportDuplicate | conda_verify/common.py:72-75 | the second loop reports the first name in key order with two specs or more |
| Common.NamedCount | conda_verify/common.py:71-74 | the length of a name's list is the number of specs with that name |
| Common.FirstDupNone | conda_verify/common.py:72-76 | nothing is reported iff every group has at most one spec |
| Common.DuplicatesIff | conda_verify/common.py:72-76 | nothing is reported iff no two specs share a name |
| Common.CheckSpecsDuplicates | conda_verify/common.py:65-76 | once every spec is accepted, `check_specs` returns None iff no two specs share a name |
| Common.CheckSpecsFirstFailure | conda_verify/common.py:67-70 | the first refused spec decides the result before any duplicate test |
| Common.CheckBuildNumber | conda_verify/common.py:79-81 | accepted iff an `int` that is at least 0, refusal with the source's message |
| Common.PyVersionPrefix | conda_verify/common.py:90-102 | `(\d\.\d)` matches at the start iff digit, dot, digit, and the group is those three characters |
| Common.GetPythonVersionSpecs | conda_verify/common.py:84-103 | None iff no spec names a Python version; otherwise the version of the first spec that names one |
| PackageChecks.Extension | conda_verify/checks.py:59 | the extension is empty or starts with the last `.`, ends the name and holds no other `.` |
| PackageChecks.RetrievePackageName | conda_verify/checks.py:46-59 | a bad sequence in the base name is fatal with its message; success means the base name is the result plus `.tar.bz2` or `.tar`; any other extension is fatal |
| PackageChecks.BasenameAfterSlash | conda_verify/checks.py:49 | the base name of `dir/name` is `name` |
| PackageChecks.RetrieveRoundTrip | conda_verify/checks.py:46-59 | the package name of `dir/<dist>.tar.bz2` is `dist` whenever the file name holds no bad sequence |
| PackageChecks.Open | conda_verify/checks.py:29-41 | a bad archive name or one that does not split into three is fatal; on success the name, version, build, members and sidecar files are the ones the archive gives |
| PackageChecks.InfoGet | conda_verify/checks.py:63 | `info.get(key)`: the stored value, or `None` for a missing key |
| PackageChecks.NameRule | conda_verify/checks.py:61-71 | C1101 for a missing name, an exception for a non-string, C1103 iff the name fails the pattern or ends in a separator, C1102 for a name other than the archive's; passes iff none of these |
| PackageChecks.CheckPackageName | conda_verify/checks.py:61-71 | a missing name is C1101; the check is silent iff the stored name is a well-formed string equal to the archive's name |
| PackageChecks.VersionRule | conda_verify/checks.py:73-83 | C1104 for a missing version; passes iff the version has no edge separator, matches the pattern, has no bad sequence and equals the archive's |
| PackageChecks.CheckPackageVersion | conda_verify/checks.py:73-83 | a missing version is C1104; silent iff the string form of the stored version is well formed, free of bad sequences and equal to the archive's version |
| PackageChecks.BuildNumberOutcome | conda_verify/checks.py:85-95 | a number passes iff at least 0, else C1109; a `ValueError` is C1108 and any other exception escapes |
| PackageChecks.BuildNumberCases | conda_verify/checks.py:85-95 | by value kind: a missing number passes, an `int` passes iff at least 0, a string is C1108 iff Python's `int()` refuses it, a list or dict raises `TypeError` |
| PackageChecks.CheckBuildNumber | conda_verify/checks.py:85-95 | a missing number passes; the check is silent iff the number is unset or `int()` of it succeeds with a value of at least 0 |
| PackageChecks.CheckBuildString | conda_verify/checks.py:97-103 | a missing build string raises `TypeError`; silent iff the stored string is well formed and equal to the archive's build string |
| PackageChecks.BuildStringRule | conda_verify/checks.py:97-103 | a non-string raises; passes iff matching the version pattern and equal to the archive's build; C1110 iff the pattern fails |
| PackageChecks.CheckIndexDependencies | conda_verify/checks.py:105-109 | C1112 with its message iff `depends` is missing or null |
| PackageChecks.DependencyCode | conda_verify/checks.py:111-121 | C1113 iff the spec is blank; C1114 iff two tokens with an invalid constraint or more than three tokens; one or three tokens always pass |
| PackageChecks.DependencyOutcome | conda_verify/checks.py:115-121 | a non-string item raises; otherwise the item's code with the source's message |
| PackageChecks.CheckIndexDependenciesSpecs | conda_verify/checks.py:111-121 | `ensure_list(None)` switches the check off; otherwise the first refused item in order is reported |
| PackageChecks.DependencySpecsPass | conda_verify/checks.py:111-121 | a list of strings passes iff no item is blank, none has the C1114 shape, and none has more than three tokens |
| PackageChecks.LicenseOf | conda_verify/checks.py:125 | the license family when the key is present, else the license |
| PackageChecks.CheckLicenseFamily | conda_verify/checks.py:123-127 | passes iff the license is a string among the known families; C1115 names it otherwise |
| PackageChecks.CheckIndexEncoding | conda_verify/checks.py:129-132 | passes iff every byte of `index.json` is ASCII (CR allowed on Windows); a report is C1116 with its message |
| PackageChecks.CheckDuplicateMembers | conda_verify/checks.py:134-137 | passes iff no two members share a path; a report is C1117 with its message |
| PackageChecks.CheckMembers | conda_verify/checks.py:139-148 | passes iff every member path is ASCII; a report is C1118 with its message |
| PackageChecks.CheckFilesFileEncoding | conda_verify/checks.py:150-153 | passes iff every byte of `info/files` is ASCII (CR allowed on Windows); a report is C1119 with its message |
| PackageChecks.StripAll | conda_verify/checks.py:157 | each line stripped, in order |
| PackageChecks.CheckFilesFileForInfo | conda_verify/checks.py:155-160 | passes iff no listed name starts with `info`; a report is C1120 with its message |
| PackageChecks.CheckFilesFileForDuplicates | conda_verify/checks.py:162-166 | passes iff no name is listed twice; a report is C1121 with its message |
| PackageChecks.MemberFilesFrom | conda_verify/checks.py:170-171 | exactly the non-directory member paths outside `info` |
| PackageChecks.MemberFiles | conda_verify/checks.py:170-171 | exactly the non-directory member paths outside `info` |
| PackageChecks.ListedFiles | conda_verify/checks.py:172-173 | exactly the listed names outside `info` |
| PackageChecks.SymmetricDifference | conda_verify/checks.py:175 | exactly the names in one list and not the other |
| PackageChecks.EmptyDifference | conda_verify/checks.py:175-180 | the difference is empty iff the two name sets are equal |
| PackageChecks.CheckFilesFileForValidity | conda_verify/checks.py:168-180 | passes iff archive files and listed files are the same set; otherwise the least name in sorted order of the difference is reported |
| PackageChecks.FirstLink | conda_verify/checks.py:183-186 | the index of the first hard link from `i` on |
| PackageChecks.CheckForHardlinks | conda_verify/checks.py:182-186 | passes iff no member is a hard link; otherwise the first one is named |
| PackageChecks.PathRule | conda_verify/checks.py:188-194 | a path rule passes iff no path is bad, and otherwise names a bad path |
| PackageChecks.CheckForUnallowedFiles | conda_verify/checks.py:188-194 | C1125 iff some path is disallowed, naming one |
| PackageChecks.CheckForNoarchInfo | conda_verify/checks.py:196-201 | no noarch file passes; with one, a missing `subdir` raises `KeyError` and C1126 follows the subdir and preferred-environment tests |
| PackageChecks.CheckForBatAndExe | conda_verify/checks.py:203-209 | C1127 with its message iff the package holds both a `.bat` and an `.exe` |
| PackageChecks.PrefixData | conda_verify/checks.py:211-221 | absent iff there is no `info/has_prefix` member, else its contents |
| PackageChecks.PrefixFile | conda_verify/checks.py:211-221 | the loop's result is the contents of `info/has_prefix`, or none |
| PackageChecks.CheckPrefixFile | conda_verify/checks.py:223-227 | C1128 with its message iff the prefix file exists and holds a non-ASCII byte |
| PackageChecks.ParsePrefixLine | conda_verify/checks.py:237-243 | three tokens give placeholder, mode and file name with quotes stripped; any other line is a text-mode file name with the default placeholder |
| PackageChecks.PrefixFileContents | conda_verify/checks.py:229-246 | none iff there is no prefix file or it is empty; otherwise the parse of its first line |
| PackageChecks.PrefixFirstLineOnly | conda_verify/checks.py:236-245 | lines after the first never change the parsed entry |
| PackageChecks.CheckPrefixFileFilename | conda_verify/checks.py:248-253 | C1129 iff the named file is not an archive member |
| PackageChecks.CheckPrefixFileMode | conda_verify/checks.py:255-261 | C1130 iff the mode is neither `binary` nor `text`, and its message names the mode |
| PackageChecks.CheckPrefixFileBinaryMode | conda_verify/checks.py:263-274 | only binary mode is flagged: C1131 for python, C1132 on Windows, C1133 for a placeholder whose length is not 255 |
| PackageChecks.CheckForPostLinks | conda_verify/checks.py:276-281 | C1134 iff some path is a link script, naming one |
| PackageChecks.CheckForEgg | conda_verify/checks.py:283-287 | C1135 iff some path is an egg directory or file, naming one |
| PackageChecks.CheckForEasyInstallScript | conda_verify/checks.py:289-293 | C1136 iff some path is an easy-install script, naming one |
| PackageChecks.CheckForPthFile | conda_verify/checks.py:295-299 | C1137 iff some path ends in `.pth`, naming one |
| PackageChecks.CheckForPyoFile | conda_verify/checks.py:301-305 | passes iff the package is python or no path ends in `.pyo` |
| PackageChecks.CheckForPycInSitePackages | conda_verify/checks.py:307-311 | C1139 iff some `.pyc` sits outside site-packages and `__pycache__` |
| PackageChecks.CheckFor2to3Pickle | conda_verify/checks.py:313-317 | C1140 iff some path is a lib2to3 grammar pickle |
| PackageChecks.CheckPycFiles | conda_verify/checks.py:319-325 | passes iff the build is `py3` or every site-packages `.py` has its `.pyc` |
| PackageChecks.MenuJsonFiles | conda_verify/checks.py:329 | each `Menu/*.json` path once |
| PackageChecks.MenuJsonRule | conda_verify/checks.py:327-337 | more than one Menu json file is C1143; exactly one that differs from the expected path is C1142 naming it; passes iff there is none or only the expected one |
| PackageChecks.MoreThanOne | conda_verify/checks.py:335 | a list without repeats is longer than one iff it holds two different elements |
| PackageChecks.CheckMenuJsonNameAsWritten | conda_verify/checks.py:327-337 | the rule with `name + ".json"` as the expected path |
| PackageChecks.CheckMenuJsonName | conda_verify/checks.py:327-337 | the rule with `Menu/<name>.json` expected: several Menu json files are C1143, a single other one is C1142 naming it, and it passes iff there is none or only `Menu/<name>.json` |
| PackageChecks.MenuJsonAsWrittenAlwaysFlags | conda_verify/checks.py:332-334 | as written, a package with exactly one Menu json file is always flagged C1142 |
| PackageChecks.MenuJsonForOwnName | conda_verify/checks.py:327-337 | `Menu/<name>.json` is refused as written and accepted as intended |
| PackageChecks.ArchOutcome | conda_verify/checks.py:345-353 | non-binaries pass; a binary's type error escapes; a binary passes iff its PE machine matches the arch, else C1145 |
| PackageChecks.CheckWindowsArch | conda_verify/checks.py:339-353 | only Windows packages; a missing `arch` raises `KeyError`; an arch other than `x86`/`x86_64` is C1144 |
| PackageChecks.WindowsArchPasses | conda_verify/checks.py:339-353 | with a valid arch, passes iff every `.exe`/`.dll` is a PE file for that machine |
| PackageChecks.EntryOutcome | conda_verify/checks.py:364-368 | a non-dict entry raises `TypeError`; an entry for another path is skipped; a wrong hash is C1146 and a wrong size C1147 |
| PackageChecks.MemberHashOutcome | conda_verify/checks.py:359-368 | directories and links are skipped; a file is checked against every entry in order |
| PackageChecks.CheckPackageHashesAndSize | conda_verify/checks.py:355-368 | a json error escapes; a missing `paths` raises `KeyError`; a result comes from walking the `paths` list for every member |
| PackageChecks.MemberHashPasses | conda_verify/checks.py:359-368 | a regular file passes iff every well-formed entry agrees with its hash and size |
| PackageChecks.HashesAndSizesPass | conda_verify/checks.py:355-368 | with well-formed entries, passes iff every member passes |
| RecipeChecks.Section | conda_verify/checks.py:388 | `meta.get(section, {})`: the stored section or an empty dict |
| RecipeChecks.GetOr | conda_verify/checks.py:388 | `d.get(key, default)`: the stored value or the default |
| RecipeChecks.NameRule | conda_verify/checks.py:386-398 | C2101 for an empty name, an exception for a non-string, C2102 iff the pattern or trailing test fails; passes iff valid and free of bad sequences |
| RecipeChecks.CheckPackageName | conda_verify/checks.py:386-398 | a recipe without a package section is C2101, a package section that is not a mapping raises `AttributeError`; silent iff the name is a well-formed string free of bad sequences |
| RecipeChecks.VersionRule | conda_verify/checks.py:400-413 | C2104 for an empty version, a non-string is not examined, a string passes iff it matches, has no edge separator and no bad sequence; C2105 iff the pattern or edge test fails |
| RecipeChecks.CheckPackageVersion | conda_verify/checks.py:400-413 | a recipe without a package section is C2104, a non-mapping section raises `AttributeError`; silent iff the version is not a string or is a well-formed one free of bad sequences |
| RecipeChecks.BuildNumberOutcome | conda_verify/checks.py:415-426 | a number passes iff at least 0, else C2108; a `ValueError` is C2107 and any other exception escapes |
| RecipeChecks.BuildNumberCases | conda_verify/checks.py:415-426 | a build number written as a string of digits, with single `_` between digits allowed, passes |
| RecipeChecks.CheckBuildNumber | conda_verify/checks.py:415-426 | a recipe without a build section passes, a non-mapping one raises `AttributeError`; silent iff the number is unset or `int()` of it is at least 0 |
| RecipeChecks.KeyOutcome | conda_verify/checks.py:437-439 | a string key passes iff it is a known field of its section, else C2110 names key and section; an unhashable key raises `TypeError` |
| RecipeChecks.EntryOutcome | conda_verify/checks.py:442-445 | a dict entry of a list section passes iff all its keys are known fields |
| RecipeChecks.SectionOutcome | conda_verify/checks.py:430-445 | an unknown section is C2109, `extra` is never examined, a dict section passes iff all its keys are known fields |
| RecipeChecks.CheckFields | conda_verify/checks.py:428-445 | passes iff every section passes; otherwise the result is one section's outcome |
| RecipeChecks.ExtraIsNotExamined | conda_verify/checks.py:434 | a recipe with only an `extra` section passes whatever it holds |
| RecipeChecks.KnownFieldsPass | conda_verify/checks.py:428-445 | a recipe whose sections and keys are all known passes |
| RecipeChecks.KnownSectionPasses | conda_verify/checks.py:431-439 | a known section with known keys passes |
| RecipeChecks.Concat | conda_verify/checks.py:452 | `build + run`: two lists concatenate; mixing kinds raises `TypeError` |
| RecipeChecks.RequirementOutcome | conda_verify/checks.py:453-466 | a non-string raises `AttributeError`, a blank one `IndexError`; a listed requirement passes iff well formed; C2111 only for a bad build name |
| RecipeChecks.DuplicatesOutcome | conda_verify/checks.py:468-472 | C2115 iff the build list repeats, C2116 iff only the run list repeats, passes iff neither |
| RecipeChecks.RequirementsRule | conda_verify/checks.py:447-472 | with two lists, passes iff every requirement is well formed and neither list repeats |
| RecipeChecks.RequirementLoopPasses | conda_verify/checks.py:452-466 | the loop over `build + run` passes iff every requirement of either list is well formed |
| RecipeChecks.BlankRequirementRaises | conda_verify/checks.py:453-454 | a blank requirement raises `IndexError` before C2113 can be reached |
| RecipeChecks.SharedRequirementIsNoDuplicate | conda_verify/checks.py:468-472 | one requirement in both build and run is no duplicate |
| RecipeChecks.UrlOutcome | conda_verify/checks.py:486-488 | a missing URL passes, a string passes iff it starts with a known scheme, else C2118; another value raises `TypeError` |
| RecipeChecks.AboutRule | conda_verify/checks.py:474-488 | a non-dict section raises `AttributeError`; a summary over 80 characters is C2117 with its message; a null or short summary leaves the first failing URL test; passes iff the summary fits and every URL test passes |
| RecipeChecks.NoUrlsPass | conda_verify/checks.py:481-488 | without URLs the URL loop passes |
| RecipeChecks.SummaryBoundary | conda_verify/checks.py:478 | an 80-character summary passes and 81 characters is C2117 |
| RecipeChecks.HashOutcome | conda_verify/checks.py:498-501 | a missing digest passes, a string passes iff it is a hex digest of the algorithm's length, else C2119 |
| RecipeChecks.SourceUrlOutcome | conda_verify/checks.py:494-504 | no URL passes, a bad URL is C2120, a good one passes iff every digest does |
| RecipeChecks.SourceOutcome | conda_verify/checks.py:493-508 | a non-dict raises; passes iff the URL part passes and the git fields do not clash, else C2121 |
| RecipeChecks.CheckSource | conda_verify/checks.py:490-508 | passes iff every source of `ensure_list(source)` passes |
| RecipeChecks.BadUrlHidesBadHash | conda_verify/checks.py:496-504 | a bad URL is reported whatever the digest beside it |
| RecipeChecks.LicenseRule | conda_verify/checks.py:510-515 | passes iff the family is absent or a known one; else C2122 names it |
| RecipeChecks.Prepend | conda_verify/checks.py:524 | prefixing keeps errors and otherwise concatenates |
| RecipeChecks.PatchesOfLists | conda_verify/checks.py:522-524 | every patch of every source is collected |
| RecipeChecks.CollectPatches | conda_verify/checks.py:522-524 | the loop's result is the specification's patch list |
| RecipeChecks.PrependNothing | conda_verify/checks.py:524 | an empty prefix changes nothing |
| RecipeChecks.PrependTwice | conda_verify/checks.py:524 | two prefixes are one prefix of their concatenation |
| RecipeChecks.FileOutcome | conda_verify/checks.py:527-532 | a non-string raises; a `..` name is C2123; otherwise passes iff the file exists, else C2124 |
| RecipeChecks.ValidFiles | conda_verify/checks.py:517-532 | a non-dict `test` raises `AttributeError`; a failing patch collection raises its error; otherwise the outcome over `files`, `source_files` and the patches, in that order, defaulting to empty lists |
| RecipeChecks.ListedFilesOutcome | conda_verify/checks.py:526-532 | non-list fields raise `TypeError`; passes iff every listed name is a string not starting with `..` that exists in the recipe; otherwise the report is that of the first failing name; a report is C2123 or C2124 |
| RecipeChecks.ListedFilesPass | conda_verify/checks.py:517-532 | existing files inside the recipe pass |
| RecipeChecks.OutsideFileReported | conda_verify/checks.py:528-529 | a first file starting with `..` is C2123 |
| RecipeChecks.NoSourceNoPatches | conda_verify/checks.py:521-524 | no source section means no patches |
| RecipeChecks.CheckForValidFiles | conda_verify/checks.py:517-532 | the loop's result is the specification's |
| RecipeChecks.ContentOutcome | conda_verify/checks.py:541-543 | a file passes iff its joined path has no disallowed extension, else C2125 names it |
| RecipeChecks.CheckDirContent | conda_verify/checks.py:534-543 | passes iff no file of the walk has a disallowed extension; otherwise one is named |
| RecipeChecks.CheckRecipesComments | conda_verify/checks.py:545-553 | a missing `meta.yaml` raises; C2126 iff some line is a conda-forge template comment |
| RecipeChecks.BlankLinesAreNoComments | conda_verify/checks.py:552 | an empty line is no template comment |
| Verify.TupleIgnoresNothingAsWritten | conda_verify/verify.py:39-41 | as written a tuple or set of codes suppresses none of them, though the docstring promises it does; the intended test suppresses the code |
| Verify.SuppressedAgrees | conda_verify/verify.py:39-41 | for `None`, one code or a list the written and the intended test agree; `None` suppresses nothing |
| Verify.Kept | conda_verify/verify.py:33-42 | the displayed checks, under either reading of the ignore filter, are no more than the results |
| Verify.KeptMembers | conda_verify/verify.py:39-42 | under the written filter and under the intended one alike, a diagnostic is displayed iff some check returned it and that filter does not drop its code |
| Verify.KeptCount | conda_verify/verify.py:39-42 | under either filter, each diagnostic is displayed as often as the checks returned it, or never when that filter drops it |
| Verify.Unwrapped | conda_verify/verify.py:38 | the values of checks none of which raised, in order |
| Verify.ScanRaisesFirst | conda_verify/verify.py:33-37 | when the loop raises, the exception is that of the first check that raised, every earlier check having returned |
| Verify.ScanSpec | conda_verify/verify.py:33-41 | when no check raises, the loop displays `Kept` of the returned values, under the chosen filter, and ends on the last check |
| Verify.Collect | conda_verify/verify.py:33-42 | the loop's result is the scan's |
| Verify.ScanStep | conda_verify/verify.py:38-42 | one more check appends its diagnostic unless it is `None` or ignored, and becomes the last check |
| Verify.ScanStops | conda_verify/verify.py:38 | once a check has raised, later checks do not matter |
| Verify.Lines | conda_verify/verify.py:48 | one `[code] message` line per displayed check |
| Verify.ReportIsSortedKept | conda_verify/verify.py:44-49 | a returned report carries the path and the sorted lines of exactly the kept diagnostics |
| Verify.ReportIgnoresOrder | conda_verify/verify.py:48 | the report does not depend on the order the checks ran in |
| Verify.LinesPermutation | conda_verify/verify.py:48 | permuted diagnostics give permuted lines |
| Verify.LinesConcat | conda_verify/verify.py:48 | lines of a concatenation are the concatenated lines |
| Verify.IgnoredNeverReported | conda_verify/verify.py:39-42 | an ignored code is never displayed |
| Verify.StopCarries | conda_verify/verify.py:44-45 | with `exit_on_error` the package entry point raises with the last check evaluated, which may be `None`, while the recipe entry point raises with the first displayed one |
| Verify.StoppedWith | conda_verify/verify.py:44-45 | a stop happens only with `exit_on_error`, no check raising and something displayed; the culprit is the first displayed check or the last one evaluated |
| Verify.PackageResults | conda_verify/verify.py:34-38 | the 33 `check*` methods of `CondaPackageCheck`, in `dir()` order, with `check_menu_json_name` as written under `AsWritten` |
| Verify.RecipeResults | conda_verify/verify.py:74-75 | the 11 `check_*` methods of `CondaRecipeCheck`, in `dir()` order |
| Verify.VerifyPackage | conda_verify/verify.py:13-49 | a failure to open the package raises; otherwise the verdict is that of the checks' run with the last-evaluated culprit; with `AsWritten` the run is `verify.py` and `checks.py` as written |
| Verify.VerifyRecipe | conda_verify/verify.py:51-84 | the verdict of the recipe checks' run with the first displayed check as culprit; with `AsWritten` the ignore filter is the written one |
| Verify.Finish | conda_verify/verify.py:44-49 | the loop, the `exit_on_error` stop and the sorted report give exactly `Run` of the results |
| Order.LessIrreflexive | conda_verify/verify.py:48 | string order is irreflexive |
| Order.LessTrans | conda_verify/verify.py:48 | string order is transitive |
| Order.LessTotal | conda_verify/verify.py:48 | two different strings are ordered |
| Order.MinIsLeast | conda_verify/checks.py:176 | the least element of a non-empty list is in it and below all |
| Order.Insert | conda_verify/verify.py:48 | insertion adds exactly the element |
| Order.Sort | conda_verify/verify.py:48 | sorting is a permutation |
| Order.InsertSorted | conda_verify/verify.py:48 | insertion into a sorted list keeps it sorted |
| Order.SortSpec | conda_verify/verify.py:48 | `sorted` returns a sorted permutation |
| Order.SortedUnique | conda_verify/verify.py:48 | two sorted permutations of each other are equal |
| Order.SortIgnoresOrder | conda_verify/verify.py:48 | sorting two permutations of each other gives one result |
| Verify.SuppressedAsWritten | conda_verify/verify.py:39-41 | as written only a list of codes or one bare code can suppress anything |
| Verify.Suppressed | conda_verify/verify.py:17-19 | the docstring's filter drops every code the written one drops, every code of a tuple, and nothing for `None` |
| Verify.Scan | conda_verify/verify.py:33-42 | the loop completes iff no check raises; then it displays no more than the results, none with a dropped code, and ends on the last result |
| Verify.Run | conda_verify/verify.py:33-49 | a run raises iff some check raises; a report carries the path and no more lines than checks; it stops only with `exit_on_error` |
| Verify.MenuJsonName | conda_verify/checks.py:327-337 | `check_menu_json_name` as written under `AsWritten`, corrected under `AsIntended` |
| Verify.IgnoredAgrees | conda_verify/verify.py:39-41 | both readings drop the same codes unless the ignore argument is a tuple or a set |
| Verify.ScanAgrees | conda_verify/verify.py:33-42 | for such an argument the loop gives the same result under both readings |
| Verify.RunAgrees | conda_verify/verify.py:33-49 | for such an argument the whole run, raise, stop or report, is the same under both readings |
| Verify.PackageResultsAgree | conda_verify/checks.py:327-337 | the package checks agree under both readings unless the package has exactly one Menu json file |
| Verify.PackageReadingsAgree | conda_verify/verify.py:13-49 | `verify_package` as written and as intended give the same verdict outside those two cases |
| Verify.RecipeReadingsAgree | conda_verify/verify.py:51-84 | `verify_recipe` as written and as intended give the same verdict unless the ignore argument is a tuple or a set |
| Verify.TupleKeptAsWritten | conda_verify/verify.py:39-42 | a diagnostic whose code a tuple names is displayed as written and dropped as intended |
| PackageRules.DistFn | conda_verify/conda_package_check.py:13-21 | a bad sequence is fatal with its message; `.tar.bz2` and `.tar` are stripped; any other name is "did not expect filename" |
| PackageRules.DistFnRoundTrip | conda_verify/conda_package_check.py:13-21 | stripping gives back the distribution name of a `.tar.bz2` or `.tar` file without bad sequences |
| PackageRules.Open | conda_verify/conda_package_check.py:25-38 | archive-name errors propagate; repeated member paths are "duplicate members"; on success the fields are those of the archive and its `index.json` |
| PackageRules.InfoGet | conda_verify/conda_package_check.py:118 | `info.get(key, default)` |
| PackageRules.CheckMembers | conda_verify/conda_package_check.py:40-46 | passes iff every member path is ASCII; otherwise the first non-ASCII path is named by its `repr` |
| PackageRules.StripAll | conda_verify/conda_package_check.py:52 | each line stripped, in order |
| PackageRules.PayloadPaths | conda_verify/conda_package_check.py:61-62 | exactly the non-directory member paths outside `info/` |
| PackageRules.InfoFiles | conda_verify/conda_package_check.py:48-74 | a missing `info/files` raises `KeyError`; otherwise passes iff the file is ASCII, lists nothing under `info/`, has no duplicates and names exactly the payload; a failure is a `PackageError` |
| PackageRules.NoHardlinks | conda_verify/conda_package_check.py:76-79 | passes iff no member is a hard link; otherwise one is named |
| PackageRules.NotAllowedFiles | conda_verify/conda_package_check.py:81-94 | passes iff no path is disallowed and, when pedantic, none is a noarch metadata file; a failure names the path |
| PackageRules.PedanticIsStricter | conda_verify/conda_package_check.py:92-94 | the pedantic test accepts no more than the lenient one and refuses `info/link.json` |
| PackageRules.FieldRule | conda_verify/conda_package_check.py:97-101 | passes iff the stored field equals the archive's; a missing field raises `KeyError` |
| PackageRules.IndexRest | conda_verify/conda_package_check.py:102-128 | passes iff the build number is an `int`, the name, version, number (and pedantic build string) validators pass, `depends` is present and its specs pass, and (pedantic) the license family is known |
| PackageRules.IndexJson | conda_verify/conda_package_check.py:96-128 | passes iff name, version and build equal the archive's and the rest of the index passes |
| PackageRules.NegativeBuildNumber | conda_verify/conda_package_check.py:110 | a build number of -1 is refused |
| PackageRules.Stems | conda_verify/conda_package_check.py:131-132 | `{p[:-4] for p in paths if p.endswith(ext)}` holds exactly the stems of the paths with that extension |
| PackageRules.SuffixOf | conda_verify/conda_package_check.py:131 | cutting the extension off `s + ext` gives `s` |
| PackageRules.NoBatAndExe | conda_verify/conda_package_check.py:130-135 | passes iff no stem has both a `.bat` and an `.exe` |
| PackageRules.ParsePrefixLine | conda_verify/conda_package_check.py:138-143 | three tokens give placeholder, mode and target with quotes stripped; any other line is a text-mode target with the default placeholder |
| PackageRules.PrefixLine | conda_verify/conda_package_check.py:137-168 | passes iff the target is a member and the mode is text, or binary outside python and Windows; the placeholder length never raises, because pedantic mode returns first |
| PackageRules.PrefixFile | conda_verify/conda_package_check.py:176-180 | passes iff the file is ASCII and every line passes |
| PackageRules.HasPrefix | conda_verify/conda_package_check.py:170-180 | no prefix file passes; otherwise the verdict of the prefix file |
| PackageRules.PrefixMembers | conda_verify/conda_package_check.py:171-180 | the member loop is the file check when the file is present and passes otherwise |
| PackageRules.NoSetuptools | conda_verify/conda_package_check.py:190-206 | passes iff no `easy-install.pth` and, outside setuptools and distribute, every setuptools file is one of the two test eggs |
| PackageRules.NoEasyInstallScript | conda_verify/conda_package_check.py:208-218 | lenient mode passes; pedantic passes iff no script member under `bin/` or `Scripts/` carries the marker in its first 1024 bytes |
| PackageRules.NoPth | conda_verify/conda_package_check.py:220-225 | passes iff lenient or no namespace `.pth` is present |
| PackageRules.NoPycInStdlib | conda_verify/conda_package_check.py:246-251 | passes iff the package is exempt or every `.pyc` lies in site-packages |
| PackageRules.No2to3Pickle | conda_verify/conda_package_check.py:253-258 | passes iff the package is python or holds no lib2to3 pickle |
| PackageRules.Prefixed | conda_verify/conda_package_check.py:188 | each string prefixed, in order |
| PackageRules.WarnPostLink | conda_verify/conda_package_check.py:182-188 | a warning exactly for each link script |
| PackageRules.PrefixedMembers | conda_verify/conda_package_check.py:188 | a prefixed string is present iff the string was |
| PackageRules.WarnPyo | conda_verify/conda_package_check.py:227-232 | none for python; otherwise a warning exactly for each `.pyo` |
| PackageRules.ExtensionRoot | conda_verify/conda_package_check.py:236-241 | a root exactly for `.so` and `.pyd` paths, with the extension cut off |
| PackageRules.NextToWarnings | conda_verify/conda_package_check.py:242-244 | a warning for `.py` or `.pyc` exactly when that sibling of the root is present |
| PackageRules.WarningsDiffer | conda_verify/conda_package_check.py:244 | the two warnings for one path differ |
| PackageRules.NextToWarningInjective | conda_verify/conda_package_check.py:244 | a warning names its extension and path unambiguously |
| PackageRules.NextToAllMembers | conda_verify/conda_package_check.py:235-244 | the loop warns for a path and extension iff the path is listed and the sibling present |
| PackageRules.NoPyNextSoWarns | conda_verify/conda_package_check.py:234-244 | `no_py_next_so` warns exactly for the extension modules next to a `.py` or `.pyc` |
| PackageRules.PycFiles | conda_verify/conda_package_check.py:260-269 | none for `py3` builds; at most one unless verbose; each warning names a site-packages `.py` without its `.pyc`, and one exists when some such file does |
| PackageRules.MenuRule | conda_verify/conda_package_check.py:278-286 | passes iff there is no Menu json file or exactly `Menu/<name>.json` |
| PackageRules.MenuFileName | conda_verify/conda_package_check.py:281-282 | the name after `Menu/` equals `fn` iff the path is `Menu/` plus `fn` |
| PackageRules.MenuNames | conda_verify/conda_package_check.py:271-286 | lenient mode passes; pedantic mode is the rule on the collected Menu json files |
| PackageRules.OwnMenuFilePasses | conda_verify/conda_package_check.py:280-283 | the package's own `Menu/<name>.json` passes here, unlike in the later check C1142 |
| PackageRules.ArchRule | conda_verify/conda_package_check.py:298-307 | a member passes iff it is no `.exe`/`.dll` or `get_object_type` of its first 4096 bytes is the declared machine's PE type |
| PackageRules.CheckWindowsArch | conda_verify/conda_package_check.py:288-307 | exempt or non-Windows packages pass; otherwise passes iff `arch` is `x86` or `x86_64` and every binary matches it |
| PackageRules.GetSpLocation | conda_verify/conda_package_check.py:309-317 | a missing `depends` raises; no Python dependency gives the non-Python marker; otherwise `Lib/site-packages` on Windows or the versioned path |
| PackageRules.SegmentEnd | conda_verify/conda_package_check.py:321 | the end of the path segment starting at `j` |
| PackageRules.PackageAt | conda_verify/conda_package_check.py:321-324 | `site-packages/([^/]+)` searched from `i`: a non-empty segment after the first occurrence that is followed by one |
| PackageRules.Found | conda_verify/conda_package_check.py:322-332 | exactly the names the pattern finds in some path, without `-` and not ending in `.pyc` |
| PackageRules.PackagesRule | conda_verify/conda_package_check.py:336-343 | passes iff numpy and scipy are found only in themselves and no setuptools name is found outside setuptools, distribute and python |
| PackageRules.ListPackages | conda_verify/conda_package_check.py:319-343 | a missing `depends` raises; otherwise the rule on the names found |
| RecipeRules.KeyRule | conda_verify/conda_recipe_check.py:30-33 | a key passes iff it is a string among its section's fields; an unhashable key raises `TypeError`; otherwise the unknown-key error |
| RecipeRules.SectionRule | conda_verify/conda_recipe_check.py:24-33 | a section passes iff it is known, its keys can be iterated, and (pedantic) each key passes; an unknown section is "Unknown section" |
| RecipeRules.SectionsRule | conda_verify/conda_recipe_check.py:24-33 | passes iff every section passes; otherwise the first failing section's error |
| RecipeRules.SectionsPedanticStricter | conda_verify/conda_recipe_check.py:31 | pedantic accepts no more than lenient, and an unknown section fails both |
| RecipeRules.CheckFields | conda_verify/conda_recipe_check.py:22-42 | passes iff the sections pass, name, version and build number pass their validators and (pedantic) `build/noarch` is not python |
| RecipeRules.CheckFieldsPedanticStricter | conda_verify/conda_recipe_check.py:22-42 | pedantic accepts no more than lenient |
| RecipeRules.NoarchPythonRefused | conda_verify/conda_recipe_check.py:41-42 | a noarch python recipe fails in pedantic mode |
| RecipeRules.RequirementRule | conda_verify/conda_recipe_check.py:48-54 | passes iff the requirement's first token is a valid name; a non-string raises `AttributeError`, a blank one `IndexError`; a bad name is a run error when listed in run, else a build error |
| RecipeRules.SpecsRule | conda_verify/conda_recipe_check.py:56-59 | passes iff the specs iterate and `check_specs` returns None; its message otherwise becomes the error |
| RecipeRules.CheckRequirements | conda_verify/conda_recipe_check.py:44-59 | passes iff both lists exist and concatenate, every requirement is named validly and both spec lists pass |
| RecipeRules.UrlRule | conda_verify/conda_recipe_check.py:61-63 | passes iff the URL is a string starting with `ftp://`, `http://` or `https://`; a non-string raises `TypeError` |
| RecipeRules.UrlSchemes | conda_verify/conda_recipe_check.py:61-63 | `https` and `ftp` pass, `git` fails, a URL not at the start fails |
| RecipeRules.OptionalUrlRule | conda_verify/conda_recipe_check.py:77-79 | an empty URL passes; a given one is checked |
| RecipeRules.SummaryRule | conda_verify/conda_recipe_check.py:67-73 | an empty summary passes; otherwise passes iff lenient or at most 80 long; one without a length raises `TypeError` |
| RecipeRules.SummaryBoundary | conda_verify/conda_recipe_check.py:68 | 80 characters pass, 81 fail in pedantic mode, lenient always passes |
| RecipeRules.AboutUrlRule | conda_verify/conda_recipe_check.py:75-79 | each about URL field is looked up and checked |
| RecipeRules.CheckAbout | conda_verify/conda_recipe_check.py:65-80 | passes iff the summary passes, every about URL passes and the license family passes |
| RecipeRules.HashRule | conda_verify/conda_recipe_check.py:92-94 | an empty digest passes; a string passes iff it is a hex digest of the algorithm's length |
| RecipeRules.HashesRule | conda_verify/conda_recipe_check.py:91-94 | passes iff md5, sha1 and sha256 all pass |
| RecipeRules.GitRule | conda_verify/conda_recipe_check.py:96-98 | passes iff `git_url` is not given with both a tag and a branch |
| RecipeRules.SourceUrlRule | conda_verify/conda_recipe_check.py:87-94 | no URL passes; otherwise passes iff the URL and every digest pass |
| RecipeRules.CheckSource | conda_verify/conda_recipe_check.py:82-98 | no source passes; a non-dict raises `AttributeError`; otherwise passes iff URL and git tests pass |
| RecipeRules.CheckLicenseFamily | conda_verify/conda_recipe_check.py:100-113 | lenient passes; pedantic passes iff the family, falling back to the license, is known, else "wrong license family" |
| RecipeRules.LicenseFamilyFallback | conda_verify/conda_recipe_check.py:104-105 | without `license_family` the license is used; a given family wins |
| RecipeRules.FieldFilesRule | conda_verify/conda_recipe_check.py:118-127 | each file field is looked up and its files checked |
| RecipeRules.ValidateFiles | conda_verify/conda_recipe_check.py:115-127 | passes iff `test/files`, `source/patches` and `test/source_files` all pass |
| RecipeRules.ContentFileRule | conda_verify/conda_recipe_check.py:136-144 | a file passes iff it is no archive over 512 bytes and has no disallowed extension; the size test comes first |
| RecipeRules.CheckDirContent | conda_verify/conda_recipe_check.py:129-154 | passes iff every file passes and, outside `icu`, the total stays within the limit |
| RecipeRules.TarBz2Suffixes | conda_verify/conda_recipe_check.py:140-144 | a `.tar.bz2` name is both compressed and disallowed |
| RecipeRules.LargeTarballTooLarge | conda_verify/conda_recipe_check.py:140-142 | a `.tar.bz2` over 512 bytes is reported as too large |
| RecipeRules.SizeLimit | conda_verify/conda_recipe_check.py:146-154 | with every file passing, `icu` passes and any other directory passes iff it holds at most 524288 bytes |
| RecipeTree.DirSizeAppend | conda_verify/conda_recipe_check.py:156-159 | the size of two listings together is the sum of their sizes |
| RecipeTree.DirSizeBound | conda_verify/conda_recipe_check.py:156-159 | no file is larger than the directory holding it |
| RecipeTree.Raiser.Fail | conda_verify/recipe.py:190-201 | the checker's exception class carries the message unchanged |
| RecipeTree.FileRule | conda_verify/conda_recipe_check.py:121-127 | a listed file passes iff it is a string, does not start with `..` and is a file of the recipe; a non-string raises `AttributeError`; `..` is refused before the directory is consulted |
| RecipeTree.ListedFilesRule | conda_verify/conda_recipe_check.py:118-127 | an empty field passes; an iterable one passes iff every file passes; a number raises `TypeError` |
| RecipeTree.ListedFileAccepted | conda_verify/conda_recipe_check.py:121-127 | an existing file inside the recipe passes, a `..` one is refused |
| RecipeFiles.ContentFileRule | conda_verify/recipe/test_files.py:18-26 | a file passes iff it has no disallowed extension and is no archive over 512 bytes; the extension test comes first |
| RecipeFiles.CheckDirContent | conda_verify/recipe/test_files.py:12-36 | passes iff every file passes and, outside `icu`, the total is within the limit |
| RecipeFiles.SameVerdicts | conda_verify/recipe/test_files.py:12-36 | this checker and `CondaRecipeCheck.check_dir_content` accept the same directories |
| RecipeFiles.OrderDiffers | conda_verify/recipe/test_files.py:20-26 | a large `.tar.bz2` is "found" here and "too large" in `CondaRecipeCheck` |
| RecipeFiles.ValidateFiles | conda_verify/recipe/test_files.py:39-50 | passes iff `test/files` and `source/patches` pass |
| RecipeFiles.FewerFields | conda_verify/recipe/test_files.py:40 | what `CondaRecipeCheck.validate_files` accepts is accepted here |
| RecipeMeta.CheckName | conda_verify/recipe/test_meta.py:9-19 | passes iff the shared name validator accepts; the validator's message becomes the `RecipeError` |
| RecipeMeta.CheckVersion | conda_verify/recipe/test_meta.py:23-35 | passes iff the shared version validator accepts; its message becomes the `RecipeError` |
| RecipeMeta.CheckBuildNumber | conda_verify/recipe/test_meta.py:38-40 | passes iff the number is an `int` of at least 0; otherwise the `build/number` message |
| RecipeMeta.RunRequirementRule | conda_verify/recipe/test_meta.py:44-47 | passes iff the first token is a valid name; a non-string raises `AttributeError`, a blank one `IndexError`, a bad name the run-requirement error |
| RecipeMeta.CheckRequirements | conda_verify/recipe/test_meta.py:43-47 | passes iff the run list exists, iterates and every requirement is validly named; build requirements are not examined |
| RecipeMeta.RunNamesSubsumed | conda_verify/recipe/test_meta.py:43-47 | what `CondaRecipeCheck.check_requirements` accepts is accepted here |
| RecipeMeta.CheckAbout | conda_verify/recipe/test_meta.py:71-86 | passes iff the summary passes, every about URL passes and the license family passes in pedantic mode whatever `pedantic` is |
| RecipeMeta.CheckSource | conda_verify/recipe/test_meta.py:92-108 | no source passes; a non-dict raises `AttributeError`; otherwise passes iff the file-name part and the git test pass |
| RecipeMeta.SourceFileRule | conda_verify/recipe/test_meta.py:96-104 | without `fn` nothing is checked; with it, passes iff every digest and the URL pass |
| RecipeMeta.NoFileNameNoHashCheck | conda_verify/recipe/test_meta.py:97 | without `fn`, bad digests and URLs pass |
| RecipeMeta.PreAbout | conda_verify/recipe/test_meta.py:111-126 | passing the steps before `check_about` implies the sections passed |
| RecipeMeta.ValidateMetaAsWritten | conda_verify/recipe/test_meta.py:111-130 | passes iff the early steps pass, `check_about` passes in pedantic mode, the source passes, the license family passes in the given mode and `check_about` passes again in that mode |
| RecipeMeta.ValidateMeta | conda_verify/recipe/test_meta.py:111-130 | as intended: passes iff the early steps, the source and `check_about` in the given mode pass; lenient mode never examines the license family |
| RecipeMeta.PedanticAgrees | conda_verify/recipe/test_meta.py:127-130 | in pedantic mode the written and intended versions agree |
| RecipeMeta.ValidateMetaModes | conda_verify/recipe/test_meta.py:111-130 | pedantic accepts no more than lenient; the written lenient mode accepts no more than the intended one |
| RecipeMeta.LongSummaryRefused | conda_verify/recipe/test_meta.py:73-76 | a summary over 80 characters fails the pedantic about check and passes the lenient one |
| RecipeMeta.LenientAboutPasses | conda_verify/recipe/test_meta.py:71-84 | in lenient mode a recipe without about URLs passes the about check |
| RecipeMeta.LenientDiffers | conda_verify/recipe/test_meta.py:127 | when only the pedantic about check fails, the written lenient mode fails with its error and the intended one passes |
| RecipeMeta.LenientLongSummary | conda_verify/recipe/test_meta.py:127 | a long summary fails `validate_meta(meta, pedantic=False)` as written and passes as intended |
| RecipeMeta.WrongFamilyRefused | conda_verify/recipe/test_meta.py:86 | the license `GPL` fails the about check and passes the lenient one |
| RecipeMeta.LenientLicenseFamily | conda_verify/recipe/test_meta.py:86 | the license `GPL` fails `validate_meta(meta, pedantic=False)` as written and passes as intended |
| Recipe.Field | conda_verify/recipe.py:78-83 | a section that is neither missing, `None` nor a dict raises `AttributeError`; a missing section or key gives the default; a present key gives its value, even `None` |
| Recipe.FieldVersusUtils | conda_verify/recipe.py:78-83 | it agrees with `utils.get_field` except that a key bound to `None` is kept here and replaced by the default there |
| Recipe.PresentNoneKept | conda_verify/recipe.py:83 | a key bound to `None` comes back as `None`, not as the default |
| Recipe.CheckName | conda_verify/recipe.py:87-93 | passes iff the name is given and matches the name pattern; a plain `Exception` names the failure |
| Recipe.NameLooser | conda_verify/recipe.py:87-93 | every name the shared validator accepts passes, and `a-` passes only here |
| Recipe.CheckVersion | conda_verify/recipe.py:97-103 | passes iff the version is given and matches the version pattern |
| Recipe.VersionLooser | conda_verify/recipe.py:97-103 | every version the shared validator accepts passes, and `1.` passes only here |
| Recipe.CheckBuildNumber | conda_verify/recipe.py:106-108 | passes iff an `int` of at least 0, else the `build/number` message as a plain `Exception` |
| Recipe.CheckLicenseFamily | conda_verify/recipe.py:111-121 | passes iff the family, falling back to the license, is known; an unknown one exits with status 1 |
| Recipe.NoneFamilyExits | conda_verify/recipe.py:112-121 | a `license_family` bound to `None` is not replaced and exits with 1, where `CondaRecipeCheck` falls back to the license |
| Recipe.AboutUrlRule | conda_verify/recipe.py:135-138 | each about URL field is looked up and, when given, checked |
| Recipe.CheckAbout | conda_verify/recipe.py:130-140 | passes iff the summary is at most 80 long, every checked URL passes and the license family passes |
| Recipe.UrlsChecked | conda_verify/recipe.py:135 | the URL fields are the first three of `CondaRecipeCheck`'s four; `license_url` is not checked |
| Recipe.IdentityRule | conda_verify/recipe.py:179-181 | passing means name, version and build number exist and pass |
| Recipe.LicenseRule | conda_verify/recipe.py:185-187 | an empty license passes; a string passes iff it does not end in `)` or matches the licence-with-URL pattern |
| Recipe.LicenseWithUrl | conda_verify/recipe.py:165 | `BSD (http://x)` matches the licence pattern |
| Recipe.LicenseWithoutUrl | conda_verify/recipe.py:165 | `BSD (see below)` does not |
| Recipe.ValidateMeta | conda_verify/recipe.py:167-187 | passes iff all sections and keys are known, the identity passes, about, source and licence tests pass; the steps run in that order |
| Recipe.EmptyMetaRefused | conda_verify/recipe.py:179 | an empty recipe fails with "package name missing" |
| Recipe.FieldFilesRule | conda_verify/recipe.py:192-201 | each file field is looked up and its files checked |
| Recipe.ValidateFiles | conda_verify/recipe.py:190-201 | passes iff `test/files` and `source/patches` pass |
| Recipe.FilesSameVerdict | conda_verify/recipe.py:190-201 | it accepts what `recipe/test_files.py` accepts |
| Recipe.ListedSameVerdict | conda_verify/recipe.py:195-201 | the exception class does not change the verdict |
| Recipe.DictOf | conda_verify/recipe.py:66-75 | a dict document gives its entries, `None` an empty dict, a number raises `TypeError` |
| Recipe.SelectedRule | conda_verify/recipe.py:224-226 | a loaded dict passes iff `validate_meta` and `validate_files` pass; a load error propagates |
| Recipe.CfgRule | conda_verify/recipe.py:223-226 | one configuration: the namespace error propagates; otherwise the verdict on the selected text |
| Recipe.FirstRefused | conda_verify/recipe.py:214-216 | -1 iff every character from `i` is a newline or printable ASCII; otherwise the first one that is not |
| Recipe.CharScreen | conda_verify/recipe.py:214-218 | passes iff every character is admitted; otherwise the first one is named |
| Recipe.ScreenChars | conda_verify/recipe.py:214-218 | the loop's result is the screen's |
| Recipe.ValidateRecipe | conda_verify/recipe.py:210-226 | the method's result is the recipe verdict |
| Recipe.CheckConfigs | conda_verify/recipe.py:223-226 | the loop's result is the first failure over the fifteen configurations |
| Recipe.ScreenFirst | conda_verify/recipe.py:214-218 | the first refused character decides the verdict |
| Recipe.JinjaRefused | conda_verify/recipe.py:219-221 | an ASCII recipe holding `{{` is refused |
| Recipe.AcceptedEverywhere | conda_verify/recipe.py:223-226 | an accepted recipe passes in every configuration |
| Recipe.EmptyDocumentRefused | conda_verify/recipe.py:66-75 | an empty document is read as `{}` and fails for its missing name |
| AnacondaPackage.DistFn | anaconda_verify/package.py:16-21 | `.tar.bz2` and `.tar` are stripped and any other name is "did not expect filename"; no bad-sequence test |
| AnacondaPackage.DistFnRoundTrip | anaconda_verify/package.py:16-21 | stripping gives back any distribution name |
| AnacondaPackage.DistFnLooser | anaconda_verify/package.py:16-21 | it agrees with the later `dist_fn` on names without bad sequences and wherever that one succeeds, and accepts a `--` name the later one refuses |
| AnacondaPackage.Open | anaconda_verify/package.py:25-35 | archive-name errors propagate; a name that does not split into three raises `ValueError`; repeated members are "duplicate members"; on success the fields come from the archive and `index.json` |
| AnacondaPackage.NewlineIndex | anaconda_verify/package.py:39 | the position of the first newline, or the length |
| AnacondaPackage.ReadLines | anaconda_verify/package.py:38-39 | `readlines()` loses nothing: the lines concatenate to the file |
| AnacondaPackage.ReadLinesShape | anaconda_verify/package.py:38-39 | each line holds at most one newline, at its end, and every line but the last has one |
| AnacondaPackage.InfoFiles | anaconda_verify/package.py:37-61 | a missing `info/files` raises `KeyError`; otherwise passes iff it lists nothing under `info/`, has no duplicates and names exactly the payload; no ASCII test |
| AnacondaPackage.NotAllowedFiles | anaconda_verify/package.py:63-72 | passes iff no path is disallowed; otherwise one is named |
| AnacondaPackage.NotAllowedLooser | anaconda_verify/package.py:63-72 | what the later `not_allowed_files` accepts is accepted here, and a backup file `bin/tool~` passes only here |
| AnacondaPackage.FieldRule | anaconda_verify/package.py:75-79 | passes iff `info` is a dict whose field equals the archive's; a non-dict raises `TypeError`, a missing field `KeyError` |
| AnacondaPackage.IndexJson | anaconda_verify/package.py:74-83 | passes iff name, version and build equal the archive's and the build number is an `int` |
| AnacondaPackage.IndexJsonLooser | anaconda_verify/package.py:74-83 | what the later `index_json` accepts is accepted here, and a build number of -1 passes only here |
| AnacondaPackage.ByteLineLen | anaconda_verify/package.py:125 | the length of the first line under `bytes.splitlines` |
| AnacondaPackage.ByteSplitLines | anaconda_verify/package.py:125 | `bytes.splitlines`: no line holds `\n` or `\r`, and only empty data has no lines |
| AnacondaPackage.ByteSplitLinesAgree | anaconda_verify/package.py:125 | on data whose only line breaks are `\n` and `\r`, it is the text `splitlines` |
| AnacondaPackage.PrefixLine | anaconda_verify/package.py:93-115 | passes iff the target is a member and the mode is text, or binary on a non-Windows platform with a 255-character placeholder; python is not refused here |
| AnacondaPackage.ShortPlaceholder | anaconda_verify/package.py:109-111 | a binary line with a short placeholder raises here, where the later checker only warns |
| AnacondaPackage.PrefixFile | anaconda_verify/package.py:122-126 | passes iff `platform` is present, the file can be read and every `bytes.splitlines` line passes |
| AnacondaPackage.HasPrefix | anaconda_verify/package.py:118-126 | no prefix file passes; otherwise the verdict of the prefix file |
| AnacondaPackage.PrefixMembers | anaconda_verify/package.py:119-126 | the member loop is the file check when present and passes otherwise |
| AnacondaPackage.NoSetuptools | anaconda_verify/package.py:137-152 | passes iff no `easy-install.pth` and, outside setuptools and distribute, every setuptools file is the one test egg |
| AnacondaPackage.SetuptoolsStricter | anaconda_verify/package.py:145 | what passes here passes the later check |
| AnacondaPackage.SecondTestEggRefused | anaconda_verify/package.py:145 | the second test egg, which the later check exempts, is refused here |
| AnacondaPackage.NoEasyInstallScript | anaconda_verify/package.py:154-160 | passes iff no member under `bin/` or `Scripts/`, file or not, carries the marker in its first 1024 bytes |
| AnacondaPackage.EasyInstallScriptStricter | anaconda_verify/package.py:154-160 | what passes here passes the later check in either mode |
| AnacondaPackage.NoPycInStdlib | anaconda_verify/package.py:188-193 | passes iff the package is python or scons or every `.pyc` lies in site-packages |
| AnacondaPackage.StdlibExemptions | anaconda_verify/package.py:189 | it agrees with the later check except for conda-build, whose `lib/os.pyc` is refused only here |
| AnacondaPackage.ArchRule | anaconda_verify/package.py:223-232 | a member passes iff it is no `.exe`/`.dll` or it is a PE file for the declared machine |
| AnacondaPackage.CheckWindowsArch | anaconda_verify/package.py:213-232 | exempt packages pass; a missing `platform` raises; non-Windows packages pass; otherwise passes iff `arch` is `x86` or `x86_64` and every binary matches |
| AnacondaPackage.ArchExemptions | anaconda_verify/package.py:214-222 | a package exempt only in the later list is examined here and refused for an unknown arch |
| AnacondaPackage.NsisExemptLater | anaconda_verify/package.py:214-215 | nsis is exempt only in the later list |
| AnacondaPackage.ListPackages | anaconda_verify/package.py:234-255 | the loop's result is the shared rule on the names found in site-packages |
| AnacondaPackage.Checks | anaconda_verify/package.py:258-276 | the twelve calls of `validate_package` that can raise, in call order |
| AnacondaPackage.FirstRaise | anaconda_verify/package.py:258-276 | passes iff every check passes; otherwise the first failure in call order |
| AnacondaPackage.PackageVerdict | anaconda_verify/package.py:258-276 | an opening failure propagates; otherwise the first failing check decides |
| AnacondaPackage.ValidatePackage | anaconda_verify/package.py:258-276 | the method's result is the package verdict |
| RecipeChecks.CheckRequirements | conda_verify/checks.py:447-472 | no requirements section passes, a non-mapping one raises `AttributeError`; with lists for `build` and `run` (each defaulting to empty) the check is silent iff every requirement is well formed and neither list repeats an entry |
| RecipeChecks.CheckAbout | conda_verify/checks.py:474-488 | no about section passes, a non-mapping one raises `AttributeError`; otherwise passes iff the summary is null or at most 80 long and each of the four URLs is null or a string matching the URL pattern |
| RecipeChecks.CheckLicenseFamily | conda_verify/checks.py:510-515 | no about section passes, a non-mapping one raises `AttributeError`; silent iff the family is unset or one of the known families |
| Patterns.NameMatchShape | conda_verify/checks.py:42 | a name the pattern accepts is non-empty, lower case, does not start with `-` or `.`, and holds no white space or `/` |
| Patterns.VersionMatchShape | conda_verify/checks.py:44 | a version the pattern accepts is non-empty and holds no `-`, white space or `/` |
| Patterns.UrlMatchIff | conda_verify/checks.py:381 | the URL pattern matches exactly the strings starting with `ftp://`, `http://` or `https://` |
| Patterns.LicMatchShape | conda_verify/recipe.py:165 | a licence the pattern accepts ends in `)`, contains `(http`, and has no white space just before the closing parenthesis |
| Recipe.LicenseEmptyUrl | conda_verify/recipe.py:165 | `x (http)` is refused, because `\S+` needs at least one character after `http` |
| Values.ParseInt | conda_verify/checks.py:90 | `int()` of a string fails only with `ValueError`, and succeeds iff the stripped text is an optional sign followed by digits with single `_` between digits; the value is the numeral's, negated after `-` |
| Values.ParseNumeral | conda_verify/checks.py:90 | such a numeral parses to its value |
| Values.ParseUnderscore | conda_verify/checks.py:421 | `int("1_0")` is 10, as in Python 3 |
| Values.RefuseUnderscores | conda_verify/checks.py:421 | `1__0`, `_1` and `1_` are refused with `ValueError` |
| Values.PyInt | conda_verify/checks.py:90 | `int()` of an `int` or `bool` is its value, of `None`, a list or a dict raises `TypeError`, of a string is `ParseInt` |
| Values.ParseSignedPadded | conda_verify/checks.py:90 | `int(" -3")` is `-3`: the padding is stripped and the sign applied |
| Utils.GetObjectType | conda_verify/utils.py:133-146 | on Python 3 bytes: an unknown head gives None; a Mach-O head gives its name; a DLL head raises `TypeError` at the `find`; an ELF head raises `IndexError` on 4 bytes or fewer and `TypeError` otherwise; so a result is None or a Mach-O name |
| Utils.GetObjectTypeAgrees | conda_verify/utils.py:133-146 | away from a DLL head it gives what the utilities.py sniffer gives |
| Utils.NeverPe | conda_verify/utils.py:138-142 | no data is ever named `DLL I386` or `DLL AMD64` |
| PackageRules.WindowsBinaryNeverPasses | conda_verify/conda_package_check.py:288-307 | a `win` package outside the exempt names that holds an `.exe` or `.dll` never passes `check_windows_arch` |

## Left out

- Archive and file input: `tarfile`, `extractfile`, `os.walk`, `getsize`, `isfile`, `os.path.exists` and `open`. The members, the directory listing and the file texts are inputs. Symbolic links are read like files. A directory member reads as empty contents, where `extractfile` returns `None`. `RecipeTree.IsFile` compares path strings with the listing, so `./x`, `..` and absolute paths are not resolved the way `os.path.isfile` resolves them.
- Parsing: `json.loads`, `yaml.load`, Jinja rendering and `render_metadata`. They are parameters or given values. A parser failure is an exception value.
- Selector conditions: `eval` is an abstract predicate over the namespace. The exceptions `eval` can raise are not modelled.
- Hashing: `hashlib.sha256` and the file digests of `check_package_hashes_and_size` are an uninterpreted digest supplied by the caller.
- Object-type sniffing in `anaconda_verify/package.py`: `anaconda_verify/utils.py` is not part of this model, so its `get_object_type` is a parameter `sniff`.
- `shlex.split` in the prefix-file rules is approximated by a whitespace split with surrounding quotes removed.
- Printed output and `warnings.warn`: the warning-only rules return the lines they would print, except in `AnacondaPackage`. There `warn_post_link`, `warn_pyo`, `no_py_next_so` and `pyc_files` have the bodies of the `PackageRules` functions and are not repeated. How printed lines interleave with an exception is not modelled.
- AnacondaPackage.ValidatePackage: runs only the twelve rules that can raise, because the four warning rules never change the outcome.
- Python `set` iteration order: rules that scan `self.paths` state their result over the set, and the scan follows archive order. Where the source reports "the first" offending path of a set, the model names one that offends rather than which one.
- The repr of a set in a message follows archive order.
- Text is `seq<char>`: bytes decode one byte to one character, and there is no UTF-8. `\w`, `\d` and `lower()` are ASCII only. `re`'s `$` is read as the end of the string, without its trailing-newline leniency.
- Text.StrRepr: a string's `repr` is the text between single quotes. Python's escapes (`\n`, `\\`, non-printable characters) and its switch to double quotes for text that holds `'` are not modelled. This reaches every message that embeds a `repr`: the non-ASCII member path of `PackageRules.CheckMembers`, the recipe-file messages of `RecipeRules`, the list reprs of `Common` (`ListRepr`) and the path messages of `AnacondaPackage`.
- Values.IsNumeral: only the ASCII digits `0`-`9` count, while Python 3's `int()` also accepts any other Unicode decimal digit (Arabic-Indic, fullwidth and so on). Text is `seq<char>` without Unicode categories, so such a build number is refused here where Python accepts it.
- AnacondaPackage.PrefixFile: the file is split as Python 2 `bytes.splitlines` (on `\n`, `\r` and `\r\n`). The agreement lemma covers only data whose line breaks are those.
- Floats: decoded values are `None`, booleans, integers, strings, lists and mappings. A version or build number written as a YAML or JSON float is not modelled.
- conda-build: the import with fallback in `conda_verify/constants.py` is left out, and only the literal fallback tables are modelled. `conda_verify.const` and `conda_verify.exceptions` are not part of this model; `Constants` and the exception constructors of `Base` stand in.
- The `memoized` decorator on `yamlize`: the cache is modelled once, in `Utils.Memoized`, and the functions that use it are modelled uncached.
- `lru_cache` is library behaviour and is not modelled.
- `Verify.VerifyPackage`: the deprecation warning for legacy keyword arguments is not modelled.
- The `dir()` reflection of `Verify` is replaced by explicit check lists in alphabetical order.
- The `verify` entry points of `recipe/test_meta.py` and `recipe/test_files.py` only loop over configurations and call the validators. They are not modelled.
- Recipe.CheckLicenseFamily: an unknown family prints the list and calls `sys.exit(1)`. The call is modelled as the exception value `SystemExit(1)`, without the printed list.
- The `ns_cfg` of `recipe.py` has the body of `Utils.NsCfg`, and is not repeated. Its failed `assert` is an `AssertionError`.
- Recipe.DictOf: `dict()` of a non-empty top-level YAML list is refused with `ValueError`, although Python accepts a list of pairs.
- The CLI (`cli.py`, `main.py`, `anaconda_verify/main.py`), `setup.py`, concurrency and the thin wrappers under `conda_verify/package/` and `conda_verify/recipe/test_{fields,license_family,package,recipe_files,requirements}.py` only call the modelled functions in sequence. They are not modelled.
- `conda_verify/package/test_paths.py` consists of file reads and hashing and is not modelled.
- `conda_verify/errors.py` declares `Error` with four fields (file, line number, code, message), so the three-argument `Error(...)` calls of `checks.py` would raise `TypeError` against it. The model's `Diagnostic` keeps the three fields passed. `errors.py` also does not define the `PackageError` and `RecipeError` that `verify.py` and `checks.py` import from it; the constructors of `Base.Exc` stand in.
- Errors.Format: Python raises `IndexError` when a template has more holes than arguments; the model leaves the surplus holes as written, and every use passes exactly as many arguments as holes.
- Integer widths do not arise: Python integers are unbounded, like Dafny's.

## Findings

| source | as written | input that shows it | evidently intended | confidence | as-written member | corrected member |
|---|---|---|---|---|---|---|
| conda_verify/utils.py:18 | `isinstance(args, Hashable)` tests the argument tuple, which is always hashable, so the bypass branch never runs | `memoized(f)([1])`: hashing the key raises `TypeError` | a list or dict argument bypasses the cache and `f` is called | not executed | Utils.Memoized.Call | Utils.Memoized.CallIntended |
| conda_verify/checks.py:332-334 | the single Menu json path is compared with `name + ".json"`, which lacks the `Menu/` prefix | a package `foo` whose only Menu file is `Menu/foo.json` gets C1142 | `Menu/<name>.json` is accepted | not executed | PackageChecks.MenuJsonForOwnName | PackageChecks.CheckMenuJsonName (used by `Verify` under `AsIntended`) |
| conda_verify/verify.py:39-41 | `ensure_list` wraps a tuple or set of codes into a one-element list, so `code in` never matches | `checks_to_ignore=("C1115",)` keeps C1115 | every code of the tuple or set is ignored | not executed | Verify.TupleIgnoresNothingAsWritten, Verify.TupleKeptAsWritten | Verify.Suppressed (used by `Verify` under `AsIntended`) |
| conda_verify/recipe/test_meta.py:127 | `check_about(meta)` runs with its default `pedantic=True` before the lenient checks | `validate_meta(meta, pedantic=False)` with an 81-character summary raises | lenient mode does not raise for a long summary | not executed | RecipeMeta.LenientLongSummary | RecipeMeta.ValidateMeta |
| conda_verify/recipe/test_meta.py:86 | `check_about` calls `check_license_family(meta)` with its default `pedantic=True`, whatever its own mode | `validate_meta(meta, pedantic=False)` with `license: GPL` raises | lenient mode skips the license-family test | not executed | RecipeMeta.LenientLicenseFamily | RecipeMeta.ValidateMeta |
