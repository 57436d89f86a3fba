/** `conda_verify/common.py`: validators that return an error message, or
    `None` when the value is acceptable. It imports `get_bad_seq` from
    `anaconda_verify.utils`, which is not part of this model; the
    `Utilities` finder with the same sequences stands in for it. */
module Common {
  import opened Base
  import opened Text
  import opened Values
  import opened Patterns
  import Utilities

  const TrailingChars: seq<string> := [".", "-", "_"]

  /** `check_name(name)` */
  function CheckName(name: Value): (r: Option<string>)
    ensures !Truthy(name) ==> r == Some("package name missing")
  {
    if !Truthy(name) then Some("package name missing")
    else
      var s := PyStr(name);
      if !NameMatch(s) || EndsWithAny(s, TrailingChars) then
        Some("invalid package name '" + s + "'")
      else match Utilities.GetBadSeq(s)
        case Some(bad) => Some("'" + bad + "' is not allowed in package name: '" + s + "'")
        case None => None
  }

  /** A name is accepted exactly when it is given, matches the name
      pattern, does not end in a separator and holds no bad pair; a
      rejection because of a bad sequence names the first one. */
  lemma CheckNameSpec(name: Value)
    ensures CheckName(name).None? <==>
      Truthy(name) && NameMatch(PyStr(name)) && !EndsWithAny(PyStr(name), TrailingChars)
      && forall i | 0 <= i < |PyStr(name)| - 1 :: !Utilities.BadPairAt(PyStr(name), i)
    ensures (Truthy(name) && NameMatch(PyStr(name)) && !EndsWithAny(PyStr(name), TrailingChars)
             && Utilities.GetBadSeq(PyStr(name)).Some?) ==>
      CheckName(name) == Some("'" + Utilities.GetBadSeq(PyStr(name)).value
                              + "' is not allowed in package name: '" + PyStr(name) + "'")
  {
    Utilities.GetBadSeqNoneIff(PyStr(name));
  }

  /** `check_version(ver)` */
  function CheckVersion(ver: Value): (r: Option<string>)
    ensures !Truthy(ver) ==> r == Some("package version missing")
  {
    if !Truthy(ver) then Some("package version missing")
    else
      var s := PyStr(ver);
      if !VersionMatch(s) then Some("invalid version '" + s + "'")
      else if StartsWithAny(s, ["_", "."]) || EndsWithAny(s, ["_", "."]) then
        Some("version cannot start or end with '_' or '.': " + s)
      else match Utilities.GetBadSeq(s)
        case Some(bad) => Some("'" + bad + "' not allowed in version '" + s + "'")
        case None => None
  }

  /** The version tests apply in the order missing, pattern, leading or
      trailing separator, bad sequence; a version passing all four is
      accepted. */
  lemma CheckVersionOrder(ver: Value)
    ensures Truthy(ver) && !VersionMatch(PyStr(ver)) ==>
      CheckVersion(ver) == Some("invalid version '" + PyStr(ver) + "'")
    ensures (Truthy(ver) && VersionMatch(PyStr(ver))
             && (StartsWithAny(PyStr(ver), ["_", "."]) || EndsWithAny(PyStr(ver), ["_", "."]))) ==>
      CheckVersion(ver) == Some("version cannot start or end with '_' or '.': " + PyStr(ver))
    ensures CheckVersion(ver).None? <==>
      Truthy(ver) && VersionMatch(PyStr(ver))
      && !StartsWithAny(PyStr(ver), ["_", "."]) && !EndsWithAny(PyStr(ver), ["_", "."])
      && forall i | 0 <= i < |PyStr(ver)| - 1 :: !Utilities.BadPairAt(PyStr(ver), i)
  {
    Utilities.GetBadSeqNoneIff(PyStr(ver));
  }

  /** `check_build_string(build)` */
  function CheckBuildString(build: Value): (r: Option<string>)
    ensures r.None? <==> VersionMatch(PyStr(build)) && !HashSearch(PyStr(build))
  {
    var s := PyStr(build);
    if !VersionMatch(s) then Some("invalid build string '" + s + "'")
    else if HashSearch(s) then Some("hashes not allowed in build string '" + s + "'")
    else None
  }

  /** A build string holding `h` and five hex digits is refused; a plain
      `py27_0` is accepted. */
  lemma BuildStringHash()
    ensures CheckBuildString(Str("py36h1af98f8_0")).Some?
    ensures CheckBuildString(Str("py27_0")) == None
  {
    assert HashAt("py36h1af98f8_0", 4);
    var s := "py27_0";
    assert VersionMatch(s);
    assert !HashSearch(s) by {
      forall i | 0 <= i < |s| ensures !HashAt(s, i) {
      }
    }
  }

  /** `check_spec(spec)` */
  function CheckSpec(spec: Value): (r: Option<string>)
    ensures !Truthy(spec) ==> r == Some("spec missing")
    ensures r.None? ==> 1 <= |Split(PyStr(spec))| <= 3
  {
    if !Truthy(spec) then Some("spec missing")
    else
      var s := PyStr(spec);
      var parts := Split(s);
      var n := |parts|;
      if n == 0 then Some("empty spec '" + s + "'")
      else if !NameMatch(parts[0]) then Some("invalid name spec '" + s + "'")
      else if n >= 2 && !SpecMatch(parts[1]) then Some("invalid version spec '" + s + "'")
      else if n == 3 && !VersionMatch(parts[1]) then Some("invalid (pure) version spec '" + s + "'")
      else if n > 3 then Some("invalid spec (too many parts) '" + s + "'")
      else None
  }

  /** An accepted spec is a name, optionally followed by a version
      constraint and, when there are three parts, a pure version and a
      build string; every such spec is accepted. */
  lemma CheckSpecSpec(spec: Value)
    ensures CheckSpec(spec).None? <==>
      Truthy(spec)
      && var parts := Split(PyStr(spec));
         1 <= |parts| <= 3 && NameMatch(parts[0])
         && (|parts| >= 2 ==> SpecMatch(parts[1]))
         && (|parts| == 3 ==> VersionMatch(parts[1]))
  {
  }

  /** A version made of word characters and dots also passes the looser
      constraint pattern, so the third-part test never rejects more than a
      pure version. */
  lemma VersionIsSpec(s: string)
    requires VersionMatch(s)
    ensures SpecMatch(s)
  {
  }

  // ---------------------------------------------------------------------
  // check_specs
  // ---------------------------------------------------------------------

  /** The specs are scanned in order from `i`: the first refused one
      gives its message; an accepted spec that is not a `str` has no
      `split` and raises. `Ok(None)` means every spec from `i` on is an
      accepted `str`. */
  function Scan(specs: seq<Value>, i: nat): (r: Res<Option<string>>)
    requires i <= |specs|
    ensures r == Ok(None) ==> Accepted(specs, i, |specs|)
    ensures r.Err? ==> r.exc == AttributeError
    decreases |specs| - i
  {
    if i == |specs| then Ok(None)
    else match CheckSpec(specs[i])
      case Some(m) => Ok(Some(m))
      case None =>
        if !specs[i].Str? then Err(AttributeError)
        else
          assert PyStr(specs[i]) == specs[i].s;
          Scan(specs, i + 1)
  }

  /** Specs `lo` up to `hi` are `str`s with at least one token. */
  predicate Accepted(specs: seq<Value>, lo: int, hi: int)
    requires 0 <= lo <= hi <= |specs|
  {
    forall k | lo <= k < hi :: specs[k].Str? && |Split(specs[k].s)| > 0
  }

  /** `spec.split()[0]` */
  function SpecName(s: string): string
    requires |Split(s)| > 0
  {
    Split(s)[0]
  }

  /** The first `n` specs, each with its name. */
  function Pairs(specs: seq<Value>, n: nat): (ps: seq<(string, string)>)
    requires n <= |specs| && Accepted(specs, 0, n)
    ensures |ps| == n
  {
    if n == 0 then [] else Pairs(specs, n - 1) + [(SpecName(specs[n - 1].s), specs[n - 1].s)]
  }

  lemma {:induction false} PairsAt(specs: seq<Value>, n: nat)
    requires n <= |specs| && Accepted(specs, 0, n)
    ensures forall k | 0 <= k < n :: Pairs(specs, n)[k] == (SpecName(specs[k].s), specs[k].s)
  {
    if n > 0 {
      PairsAt(specs, n - 1);
    }
  }

  /** The names, in spec order. */
  function NamesOf(ps: seq<(string, string)>): (ns: seq<string>)
    ensures |ns| == |ps| && forall i | 0 <= i < |ps| :: ns[i] == ps[i].0
  {
    if |ps| == 0 then [] else NamesOf(ps[..|ps| - 1]) + [ps[|ps| - 1].0]
  }

  /** The specs named `n`, in order. */
  function Named(ps: seq<(string, string)>, n: string): seq<string> {
    if |ps| == 0 then []
    else Named(ps[..|ps| - 1], n) + (if ps[|ps| - 1].0 == n then [ps[|ps| - 1].1] else [])
  }

  /** The distinct names in the order they first occur: the iteration
      order of the `defaultdict`. */
  function Dedup(ns: seq<string>): (d: seq<string>)
    ensures forall n :: n in d <==> n in ns
    ensures forall i, j | 0 <= i < j < |d| :: d[i] != d[j]
  {
    if |ns| == 0 then []
    else
      var d := Dedup(ns[..|ns| - 1]);
      assert forall n :: n in ns <==> n in ns[..|ns| - 1] || n == ns[|ns| - 1] by {
        assert ns == ns[..|ns| - 1] + [ns[|ns| - 1]];
      }
      if ns[|ns| - 1] in d then d else d + [ns[|ns| - 1]]
  }

  /** The first name, in `order`, shared by two or more specs, reported with
      all its specs. */
  function FirstDup(ps: seq<(string, string)>, order: seq<string>): (r: Option<string>) {
    if |order| == 0 then None
    else if |Named(ps, order[0])| > 1 then Some("duplicate specs: " + ListRepr(Named(ps, order[0])))
    else FirstDup(ps, order[1..])
  }

  /** What `check_specs` returns. */
  function CheckSpecsResult(specs: seq<Value>): Res<Option<string>> {
    match Scan(specs, 0)
    case Err(e) => Err(e)
    case Ok(Some(m)) => Ok(Some(m))
    case Ok(None) =>
      var ps := Pairs(specs, |specs|);
      Ok(FirstDup(ps, Dedup(NamesOf(ps))))
  }

  /** Accepted `str` specs do not change the outcome of the scan. */
  lemma {:induction false} ScanSkip(specs: seq<Value>, j: nat, i: nat)
    requires j <= i <= |specs|
    requires forall k | j <= k < i :: CheckSpec(specs[k]).None? && specs[k].Str?
    ensures Scan(specs, j) == Scan(specs, i)
    decreases i - j
  {
    if j < i {
      ScanSkip(specs, j + 1, i);
    }
  }

  /** Adding one named spec to the `defaultdict`: a new name is appended to
      the key order, a known one keeps it. */
  lemma OrderStep(ps: seq<(string, string)>, n: string, s: string)
    ensures Dedup(NamesOf(ps + [(n, s)])) ==
      (var d := Dedup(NamesOf(ps)); if n in d then d else d + [n])
  {
    var qs := ps + [(n, s)];
    assert qs[..|qs| - 1] == ps;
    var ns := NamesOf(qs);
    assert ns[..|ns| - 1] == NamesOf(ps);
  }

  /** ... and the spec joins the list of its name. */
  lemma NamedStep(ps: seq<(string, string)>, n: string, s: string)
    ensures forall m :: Named(ps + [(n, s)], m) == Named(ps, m) + (if n == m then [s] else [])
  {
    var qs := ps + [(n, s)];
    assert qs[..|qs| - 1] == ps;
  }

  lemma GroupsStep(groups: map<string, seq<string>>, ps: seq<(string, string)>, name: string, s: string)
    requires forall n | n in groups :: groups[n] == Named(ps, n)
    requires name !in groups ==> name !in NamesOf(ps)
    ensures name in groups ==>
      var g := groups[name := groups[name] + [s]];
      forall n | n in g :: g[n] == Named(ps + [(name, s)], n)
    ensures name !in groups ==>
      var g := groups[name := [s]];
      forall n | n in g :: g[n] == Named(ps + [(name, s)], n)
  {
    NamedStep(ps, name, s);
    if name !in groups {
      NamedCount(ps, name);
    }
  }

  /** One more accepted `str` spec extends the accepted prefix. */
  lemma ScanStep(specs: seq<Value>, i: nat)
    requires i < |specs| && Accepted(specs, 0, i)
    requires CheckSpec(specs[i]).None? && specs[i].Str?
    ensures Scan(specs, i) == Scan(specs, i + 1)
    ensures |Split(specs[i].s)| > 0 && Accepted(specs, 0, i + 1)
  {
    assert PyStr(specs[i]) == specs[i].s;
  }

  /** The state of the first loop of `check_specs` after `i` specs: all
      were accepted `str`s, `seen` pairs each with its name, `order` holds
      the names in first-occurrence order and `groups` maps each name to
      its specs. */
  ghost predicate Grouped(specs: seq<Value>, i: nat, groups: map<string, seq<string>>, order: seq<string>,
                          seen: seq<(string, string)>)
  {
    i <= |specs|
    && Scan(specs, 0) == Scan(specs, i)
    && Accepted(specs, 0, i)
    && seen == Pairs(specs, i)
    && order == Dedup(NamesOf(seen))
    && (forall n :: n in groups <==> n in order)
    && (forall n | n in groups :: groups[n] == Named(seen, n))
  }

  /** One more accepted `str` spec joins its group. */
  lemma GroupedStep(specs: seq<Value>, i: nat, groups: map<string, seq<string>>, order: seq<string>,
                    seen: seq<(string, string)>, groups': map<string, seq<string>>, order': seq<string>)
    requires i < |specs| && Grouped(specs, i, groups, order, seen)
    requires CheckSpec(specs[i]).None? && specs[i].Str? && |Split(specs[i].s)| > 0
    requires var name := SpecName(specs[i].s);
      if name in groups then groups' == groups[name := groups[name] + [specs[i].s]] && order' == order
      else groups' == groups[name := [specs[i].s]] && order' == order + [name]
    ensures Grouped(specs, i + 1, groups', order', seen + [(SpecName(specs[i].s), specs[i].s)])
  {
    var s := specs[i].s;
    ScanStep(specs, i);
    var name := SpecName(s);
    var seen' := seen + [(name, s)];
    assert seen' == Pairs(specs, i + 1);
    assert name !in groups ==> name !in NamesOf(seen) by {
      assert name in order <==> name in NamesOf(seen);
    }
    OrderStep(seen, name, s);
    GroupsStep(groups, seen, name, s);
    if name in groups {
      var g := groups[name := groups[name] + [s]];
      assert forall n :: n in g <==> n in order;
      assert Grouped(specs, i + 1, g, order, seen');
    } else {
      var g := groups[name := [s]];
      assert forall n :: n in g <==> n in order + [name];
      assert Grouped(specs, i + 1, g, order + [name], seen');
    }
  }

  /** The loop has looked at every spec: what remains is the search for a
      duplicate in key order. */
  lemma GroupedDone(specs: seq<Value>, groups: map<string, seq<string>>, order: seq<string>,
                    seen: seq<(string, string)>)
    requires Grouped(specs, |specs|, groups, order, seen)
    ensures forall n | n in order :: n in groups && groups[n] == Named(seen, n)
    ensures CheckSpecsResult(specs) == Ok(FirstDup(seen, order))
  {
  }

  /** A refused spec, or one that is not a `str`, ends the first loop with
      the result of the whole check. */
  lemma GroupedStop(specs: seq<Value>, i: nat, groups: map<string, seq<string>>, order: seq<string>,
                    seen: seq<(string, string)>)
    requires i < |specs| && Grouped(specs, i, groups, order, seen)
    ensures CheckSpec(specs[i]).Some? ==> CheckSpecsResult(specs) == Ok(CheckSpec(specs[i]))
    ensures CheckSpec(specs[i]).None? && !specs[i].Str? ==> CheckSpecsResult(specs) == Err(AttributeError)
    ensures CheckSpec(specs[i]).None? && specs[i].Str? ==> |Split(specs[i].s)| > 0
  {
  }

  /** `d[spec.split()[0]].append(spec)` on the `defaultdict`. */
  method AddSpec(specs: seq<Value>, i: nat, groups: map<string, seq<string>>, order: seq<string>,
                 ghost seen: seq<(string, string)>)
    returns (groups': map<string, seq<string>>, order': seq<string>)
    requires i < |specs| && Grouped(specs, i, groups, order, seen)
    requires CheckSpec(specs[i]).None? && specs[i].Str? && |Split(specs[i].s)| > 0
    ensures Grouped(specs, i + 1, groups', order', seen + [(SpecName(specs[i].s), specs[i].s)])
  {
    var s := specs[i].s;
    var name := SpecName(s);
    if name in groups {
      groups', order' := groups[name := groups[name] + [s]], order;
    } else {
      groups', order' := groups[name := [s]], order + [name];
    }
    GroupedStep(specs, i, groups, order, seen, groups', order');
  }

  /** `check_specs(specs)`: a `defaultdict(list)` from names to specs,
      filled in spec order, then searched in key order. */
  method CheckSpecs(specs: seq<Value>) returns (r: Res<Option<string>>)
    ensures r == CheckSpecsResult(specs)
  {
    var groups: map<string, seq<string>> := map[];
    var order: seq<string> := [];
    ghost var seen: seq<(string, string)> := [];
    var i := 0;
    while i < |specs|
      invariant Grouped(specs, i, groups, order, seen)
    {
      GroupedStop(specs, i, groups, order, seen);
      var res := CheckSpec(specs[i]);
      if res.Some? {
        return Ok(res);
      }
      if !specs[i].Str? {
        return Err(AttributeError);
      }
      var s := specs[i].s;
      groups, order := AddSpec(specs, i, groups, order, seen);
      seen := seen + [(SpecName(s), s)];
      i := i + 1;
    }
    GroupedDone(specs, groups, order, seen);
    var dup := ReportDuplicate(groups, order, seen);
    r := Ok(dup);
  }

  /** The second loop of `check_specs`: the groups in key order, the first
      with two specs or more reported. */
  method ReportDuplicate(groups: map<string, seq<string>>, order: seq<string>, ghost ps: seq<(string, string)>)
    returns (r: Option<string>)
    requires forall n | n in order :: n in groups && groups[n] == Named(ps, n)
    ensures r == FirstDup(ps, order)
  {
    var k := 0;
    while k < |order|
      invariant 0 <= k <= |order|
      invariant FirstDup(ps, order) == FirstDup(ps, order[k..])
    {
      assert order[k..][1..] == order[k + 1..];
      var group := groups[order[k]];
      if |group| > 1 {
        return Some("duplicate specs: " + ListRepr(group));
      }
      k := k + 1;
    }
    r := None;
  }

  /** `|Named(ps, n)|` counts the specs named `n`. */
  lemma {:induction false} NamedCount(ps: seq<(string, string)>, n: string)
    ensures |Named(ps, n)| == multiset(NamesOf(ps))[n]
    decreases |ps|
  {
    if |ps| > 0 {
      var p := ps[..|ps| - 1];
      NamedCount(p, n);
      assert NamesOf(ps) == NamesOf(p) + [ps[|ps| - 1].0];
    }
  }

  lemma {:induction false} FirstDupNone(ps: seq<(string, string)>, order: seq<string>)
    ensures FirstDup(ps, order).None? <==> forall k | 0 <= k < |order| :: |Named(ps, order[k])| <= 1
    decreases |order|
  {
    if |order| > 0 {
      FirstDupNone(ps, order[1..]);
      assert forall k | 1 <= k < |order| :: order[1..][k - 1] == order[k];
    }
  }

  lemma DistinctCountOne(ns: seq<string>, k: int)
    requires 0 <= k < |ns| && forall i, j | 0 <= i < j < |ns| :: ns[i] != ns[j]
    ensures multiset(ns)[ns[k]] == 1
  {
    var pre, post := ns[..k], ns[k + 1..];
    assert ns == pre + [ns[k]] + post;
    assert ns[k] !in pre by {
      forall x | x in pre ensures x != ns[k] {
        var m :| 0 <= m < |pre| && pre[m] == x;
      }
    }
    assert ns[k] !in post by {
      forall x | x in post ensures x != ns[k] {
        var m :| 0 <= m < |post| && post[m] == x;
        assert x == ns[k + 1 + m];
      }
    }
    assert multiset(ns) == multiset(pre) + multiset([ns[k]]) + multiset(post);
  }

  lemma TwoOccurrences(ns: seq<string>, i: int, j: int)
    requires 0 <= i < j < |ns| && ns[i] == ns[j]
    ensures multiset(ns)[ns[i]] >= 2
  {
    assert ns == ns[..j] + [ns[j]] + ns[j + 1..];
    assert ns[..j][i] == ns[i];
    assert multiset(ns) == multiset(ns[..j]) + multiset([ns[j]]) + multiset(ns[j + 1..]);
  }

  /** No duplicate is reported exactly when no two specs share a name. */
  lemma DuplicatesIff(ps: seq<(string, string)>)
    ensures FirstDup(ps, Dedup(NamesOf(ps))).None? <==>
      forall i, j | 0 <= i < j < |ps| :: ps[i].0 != ps[j].0
  {
    var ns := NamesOf(ps);
    if forall i, j | 0 <= i < j < |ns| :: ns[i] != ns[j] {
      DistinctNoDup(ps);
    } else {
      var i, j :| 0 <= i < j < |ns| && ns[i] == ns[j];
      SharedNameIsDup(ps, i, j);
    }
  }

  lemma DistinctNoDup(ps: seq<(string, string)>)
    requires forall i, j | 0 <= i < j < |ps| :: ps[i].0 != ps[j].0
    ensures FirstDup(ps, Dedup(NamesOf(ps))).None?
  {
    var ns := NamesOf(ps);
    var d := Dedup(ns);
    forall k | 0 <= k < |d| ensures |Named(ps, d[k])| <= 1 {
      DistinctOnce(ps, d[k]);
    }
    FirstDupNone(ps, d);
  }

  /** With distinct names, a name labels at most one spec. */
  lemma DistinctOnce(ps: seq<(string, string)>, n: string)
    requires forall i, j | 0 <= i < j < |ps| :: ps[i].0 != ps[j].0
    ensures |Named(ps, n)| <= 1
  {
    var ns := NamesOf(ps);
    NamedCount(ps, n);
    if n in ns {
      var m :| 0 <= m < |ns| && ns[m] == n;
      DistinctCountOne(ns, m);
    }
  }

  lemma SharedNameIsDup(ps: seq<(string, string)>, i: int, j: int)
    requires 0 <= i < j < |ps| && ps[i].0 == ps[j].0
    ensures FirstDup(ps, Dedup(NamesOf(ps))).Some?
  {
    var ns := NamesOf(ps);
    var d := Dedup(ns);
    FirstDupNone(ps, d);
    TwoOccurrences(ns, i, j);
    NamedCount(ps, ns[i]);
    assert ns[i] in d;
    var k :| 0 <= k < |d| && d[k] == ns[i];
  }

  /** Once every spec is accepted, `check_specs` reports nothing exactly
      when no two specs share a name; so `numpy 1.2` and `numpy 1.3`
      collide. */
  lemma CheckSpecsDuplicates(specs: seq<Value>)
    requires Scan(specs, 0) == Ok(None)
    ensures Accepted(specs, 0, |specs|)
    ensures CheckSpecsResult(specs) == Ok(None) <==>
      forall i, j | 0 <= i < j < |specs| :: SpecName(specs[i].s) != SpecName(specs[j].s)
  {
    var ps := Pairs(specs, |specs|);
    PairsAt(specs, |specs|);
    DuplicatesIff(ps);
  }

  /** The first refused spec decides the result before any duplicate
      test. */
  lemma CheckSpecsFirstFailure(specs: seq<Value>, i: int)
    requires 0 <= i < |specs| && CheckSpec(specs[i]).Some?
    requires forall k | 0 <= k < i :: CheckSpec(specs[k]).None? && specs[k].Str?
    ensures CheckSpecsResult(specs) == Ok(CheckSpec(specs[i]))
  {
    ScanSkip(specs, 0, i);
  }

  // ---------------------------------------------------------------------
  // check_build_number, get_python_version_specs
  // ---------------------------------------------------------------------

  /** `check_build_number(bn)` */
  function CheckBuildNumber(bn: Value): (r: Option<string>)
    ensures r.None? <==> IsInt(bn) && IntOf(bn) >= 0
    ensures r.Some? ==> r.value == "build number '" + PyStr(bn) + "' (not a positive interger)"
  {
    if IsInt(bn) && IntOf(bn) >= 0 then None
    else Some("build number '" + PyStr(bn) + "' (not a positive interger)")
  }

  /** `(\d\.\d)` matched at the start of a version: its three characters. */
  function PyVersionPrefix(version: string): (r: Option<string>)
    ensures r.Some? <==> |version| >= 3 && IsAsciiDigit(version[0]) && version[1] == '.' && IsAsciiDigit(version[2])
    ensures r.Some? ==> r.value == version[..3] && StartsWith(version, r.value)
  {
    if |version| >= 3 && IsAsciiDigit(version[0]) && version[1] == '.' && IsAsciiDigit(version[2])
    then Some(version[..3]) else None
  }

  /** What one spec says about the Python version: it must have two parts
      or more, be named `python`, and have a version starting `d.d`. */
  function PythonVersionOf(spec: Value): Option<string> {
    var parts := Split(PyStr(spec));
    if |parts| < 2 || parts[0] != "python" then None
    else PyVersionPrefix(parts[1])
  }

  /** `get_python_version_specs(specs)`: the first spec that names a
      Python version decides. */
  method GetPythonVersionSpecs(specs: seq<Value>) returns (r: Option<string>)
    ensures r.None? <==> forall i | 0 <= i < |specs| :: PythonVersionOf(specs[i]).None?
    ensures r.Some? ==> exists i | 0 <= i < |specs| ::
      PythonVersionOf(specs[i]) == r && forall k | 0 <= k < i :: PythonVersionOf(specs[k]).None?
  {
    var i := 0;
    while i < |specs|
      invariant 0 <= i <= |specs|
      invariant forall k | 0 <= k < i :: PythonVersionOf(specs[k]).None?
    {
      var m := PythonVersionOf(specs[i]);
      if m.Some? {
        return m;
      }
      NoVersionStep(specs, i);
      i := i + 1;
    }
    r := None;
  }

  lemma NoVersionStep(specs: seq<Value>, i: int)
    requires 0 <= i < |specs| && PythonVersionOf(specs[i]).None?
    requires forall k | 0 <= k < i :: PythonVersionOf(specs[k]).None?
    ensures forall k | 0 <= k < i + 1 :: PythonVersionOf(specs[k]).None?
  {
  }
}
