/** The regular expressions of the checkers, as character-class predicates
    and small recognisers. `re.match(p + '$', s)` is read as a match of the
    whole string (the trailing-newline leniency of `$` is not modelled). */
module Patterns {
  import opened Text

  /** `[a-z0-9_]` */
  predicate NameStart(c: char) { IsAsciiLower(c) || IsAsciiDigit(c) || c == '_' }

  /** `[a-z0-9_\-\.]` */
  predicate NameChar(c: char) { NameStart(c) || c == '-' || c == '.' }

  /** `name_pat = [a-z0-9_][a-z0-9_\-\.]*$` */
  predicate NameMatch(s: string) {
    |s| > 0 && NameStart(s[0]) && forall i | 1 <= i < |s| :: NameChar(s[i])
  }

  /** A name the pattern accepts is non-empty, lower case, does not start
      with `-` or `.`, and holds no white space or `/`. */
  lemma NameMatchShape(s: string)
    requires NameMatch(s)
    ensures |s| > 0 && s[0] != '-' && s[0] != '.'
    ensures Lower(s) == s
    ensures forall i | 0 <= i < |s| :: !IsSpace(s[i]) && s[i] != '/'
  {
    forall i | 0 <= i < |s|
      ensures LowerChar(s[i]) == s[i] && !IsSpace(s[i]) && s[i] != '/'
    {
      NameCharShape(s[i]);
    }
    assert Lower(s) == s;
  }

  /** A character of the name pattern is its own lower case and is neither
      white space nor `/`. */
  lemma NameCharShape(c: char)
    requires NameChar(c)
    ensures LowerChar(c) == c && !IsSpace(c) && c != '/'
  {
  }

  /** `[\w\.]` */
  predicate VersionChar(c: char) { IsWordChar(c) || c == '.' }

  /** `version_pat = [\w\.]+$` */
  predicate VersionMatch(s: string) {
    |s| > 0 && forall i | 0 <= i < |s| :: VersionChar(s[i])
  }

  /** A version the pattern accepts is non-empty and holds no `-`, white
      space or `/`. */
  lemma VersionMatchShape(s: string)
    requires VersionMatch(s)
    ensures |s| > 0 && '-' !in s
    ensures forall i | 0 <= i < |s| :: !IsSpace(s[i]) && s[i] != '/'
  {
  }

  /** `s.endswith(('.', '-', '_'))` */
  predicate TrailingSeparator(n: string) {
    |n| > 0 && n[|n| - 1] in ".-_"
  }

  lemma TrailingSeparatorIff(n: string)
    ensures TrailingSeparator(n) <==> EndsWithAny(n, [".", "-", "_"])
  {
    if |n| > 0 && n[|n| - 1] in ".-_" {
      var k := if n[|n| - 1] == '.' then 0 else if n[|n| - 1] == '-' then 1 else 2;
      assert n[|n| - 1..] == [".", "-", "_"][k];
    }
  }

  /** The version starts or ends with `_` or `.`. */
  predicate EdgeSeparator(v: string) {
    |v| > 0 && (v[0] in "_." || v[|v| - 1] in "_.")
  }

  lemma EdgeSeparatorIff(v: string)
    ensures EdgeSeparator(v) <==> StartsWithAny(v, ["_", "."]) || EndsWithAny(v, ["_", "."])
  {
    if |v| > 0 {
      if v[0] in "_." {
        var k := if v[0] == '_' then 0 else 1;
        assert StartsWith(v, ["_", "."][k]);
      }
      if v[|v| - 1] in "_." {
        var k := if v[|v| - 1] == '_' then 0 else 1;
        assert v[|v| - 1..] == ["_", "."][k];
      }
    }
  }

  /** `[\w\.,=!<>\*]` */
  predicate SpecChar(c: char) {
    VersionChar(c) || c == ',' || c == '=' || c == '!' || c == '<' || c == '>' || c == '*'
  }

  /** The older `ver_spec_pat = [\w\.,=!<>\*]+$`. */
  predicate SpecMatch(s: string) {
    |s| > 0 && forall i | 0 <= i < |s| :: SpecChar(s[i])
  }

  /** `[gh][0-9a-f]{5}` (case-insensitive) starting at `i`. */
  predicate HashAt(s: string, i: int) {
    0 <= i && i + 6 <= |s|
    && (s[i] == 'g' || s[i] == 'h' || s[i] == 'G' || s[i] == 'H')
    && forall k | i + 1 <= k < i + 6 :: IsHexIgnoreCase(s[k])
  }

  /** `hash_pat.search(s)` with `hash_pat = [gh][0-9a-f]{5,}`, `re.I`: a
      longer run of digits changes nothing, since five are enough. */
  predicate HashSearch(s: string) {
    exists i | 0 <= i < |s| :: HashAt(s, i)
  }

  /** `url_pat.match(s)` with `url_pat = (ftp|http(s)?)://`: a prefix test. */
  predicate UrlMatch(s: string) {
    StartsWith(s, "ftp://") || StartsWith(s, "http://") || StartsWith(s, "https://")
  }

  /** The pattern is `s.startswith(('ftp://', 'http://', 'https://'))`. */
  lemma UrlMatchIff(s: string)
    ensures UrlMatch(s) <==> StartsWithAny(s, ["ftp://", "http://", "https://"])
  {
    if StartsWith(s, "ftp://") {
      assert StartsWith(s, ["ftp://", "http://", "https://"][0]);
    } else if StartsWith(s, "http://") {
      assert StartsWith(s, ["ftp://", "http://", "https://"][1]);
    } else if StartsWith(s, "https://") {
      assert StartsWith(s, ["ftp://", "http://", "https://"][2]);
    }
  }

  /** `[a-f0-9]{n}$` */
  predicate HexDigest(s: string, n: nat) {
    |s| == n && forall i | 0 <= i < |s| :: IsLowerHex(s[i])
  }

  /** `lic_pat = .+?\s+\(http\S+\)$`: some text without a newline, white
      space, then `(http`, at least one non-space character, and `)`. */
  predicate LicMatch(s: string) {
    exists p | 0 <= p < |s| :: LicSplitAt(s, p)
  }

  /** A matching license ends in `)`, holds `(http`, and has a character
      other than white space before the `)`. */
  lemma LicMatchShape(s: string)
    ensures LicMatch(s) ==> EndsWith(s, ")") && Contains(s, "(http") && !IsSpace(s[|s| - 2])
  {
    if LicMatch(s) {
      var p :| 0 <= p < |s| && LicSplitAt(s, p);
      assert OccursAt(s, "(http", p);
      assert s[|s| - 1..] == ")";
      assert s[|s| - 2] == s[p + 5..|s| - 1][|s| - 2 - (p + 5)];
    }
  }

  predicate LicSplitAt(s: string, p: int) {
    0 <= p && p + 5 < |s| - 1 && s[p..p + 5] == "(http" && s[|s| - 1] == ')'
    && NoSpace(s[p + 5..|s| - 1])
    && exists q | 1 <= q < p :: LeadAndSpace(s, q, p)
  }

  predicate LeadAndSpace(s: string, q: int, p: int)
    requires 1 <= q < p <= |s|
  {
    AllSpace(s[q..p]) && '\n' !in s[..q]
  }

  // ---------------------------------------------------------------------
  // The newer dependency-spec pattern
  //   ^(?:[><=]{0,2}(?:(?:[\d\*]+[!\._]?){1,})[+\w\*]*[|,]?){1,}
  // applied with a whole-string match, recognised by a finite automaton.
  // ---------------------------------------------------------------------

  predicate IsOp(c: char) { c == '<' || c == '>' || c == '=' }
  predicate IsDig(c: char) { IsAsciiDigit(c) || c == '*' }
  predicate IsBar(c: char) { c == '|' || c == ',' }
  /** `\w` and `+` other than digits and `_`. */
  predicate IsWl(c: char) { IsAsciiLetter(c) || c == '+' }
  predicate IsSep(c: char) { c == '.' || c == '!' || c == '_' }

  /** After an operator run of length 1 or 2, inside digits, after a
      separator or suffix character, after `|`/`,`; `Dead` has no way back. */
  datatype SpecState = Init | Op1 | Op2 | Dig | Tail | Bar | Dead

  function Step(q: SpecState, c: char): SpecState {
    match q
    case Init => if IsOp(c) then Op1 else if IsDig(c) then Dig else Dead
    case Op1 => if IsOp(c) then Op2 else if IsDig(c) then Dig else Dead
    case Op2 => if IsDig(c) then Dig else Dead
    case Dig =>
      if IsOp(c) then Op1 else if IsDig(c) then Dig
      else if IsSep(c) || IsWl(c) then Tail else if IsBar(c) then Bar else Dead
    case Tail =>
      if IsOp(c) then Op1 else if IsDig(c) then Dig
      else if c == '_' || IsWl(c) then Tail else if IsBar(c) then Bar else Dead
    case Bar => if IsOp(c) then Op1 else if IsDig(c) then Dig else Dead
    case Dead => Dead
  }

  function Run(q: SpecState, s: string): SpecState
    decreases |s|
  {
    if |s| == 0 then q else Run(Step(q, s[0]), s[1..])
  }

  predicate Accepting(q: SpecState) { q == Dig || q == Tail || q == Bar }

  /** `fullmatch(ver_spec_pat, s)` */
  predicate VerSpecFull(s: string) {
    Accepting(Run(Init, s))
  }

  /** A direct reading of the pattern, position by position: every character
      belongs to one of the classes above; the string starts with an operator
      or a digit and does not end in an operator; an operator run is at most
      two long and is followed by a digit; `.` and `!` follow a digit; `_`,
      letters, `+`, `|` and `,` follow neither an operator nor `|`/`,`. */
  predicate PosOK(s: string, i: int)
    requires 0 <= i < |s|
  {
    var c := s[i];
    (IsOp(c) || IsDig(c) || IsSep(c) || IsWl(c) || IsBar(c))
    && (i == 0 ==> IsOp(c) || IsDig(c))
    && (i > 0 ==>
          (IsOp(c) ==> !(i >= 2 && IsOp(s[i - 1]) && IsOp(s[i - 2])))
          && ((c == '.' || c == '!') ==> IsDig(s[i - 1]))
          && ((c == '_' || IsWl(c) || IsBar(c)) ==> !IsOp(s[i - 1]) && !IsBar(s[i - 1])))
  }

  predicate PrefixOK(s: string) {
    forall i | 0 <= i < |s| :: PosOK(s, i)
  }

  predicate VerSpecLocal(s: string) {
    |s| > 0 && PrefixOK(s) && !IsOp(s[|s| - 1])
  }

  /** The automaton state reached on a non-empty, locally valid string is
      determined by its last one or two characters. */
  function StateOf(s: string): SpecState
    requires |s| > 0
  {
    var c := s[|s| - 1];
    if IsOp(c) then (if |s| >= 2 && IsOp(s[|s| - 2]) then Op2 else Op1)
    else if IsDig(c) then Dig
    else if IsSep(c) || IsWl(c) then Tail
    else if IsBar(c) then Bar
    else Dead
  }

  lemma {:induction false} RunSnoc(q: SpecState, s: string, c: char)
    ensures Run(q, s + [c]) == Step(Run(q, s), c)
    decreases |s|
  {
    if |s| == 0 {
      assert s + [c] == [c];
      assert [c][1..] == [];
    } else {
      assert (s + [c])[1..] == s[1..] + [c];
      RunSnoc(Step(q, s[0]), s[1..], c);
    }
  }

  lemma PrefixOKSnoc(s: string, c: char)
    ensures PrefixOK(s + [c]) <==> PrefixOK(s) && PosOK(s + [c], |s|)
  {
    var t := s + [c];
    forall i | 0 <= i < |s|
      ensures PosOK(t, i) <==> PosOK(s, i)
    {
      assert t[i] == s[i];
      if i > 0 { assert t[i - 1] == s[i - 1]; }
      if i > 1 { assert t[i - 2] == s[i - 2]; }
    }
    if PrefixOK(s) && PosOK(t, |s|) {
      forall i | 0 <= i < |t| ensures PosOK(t, i) {
        if i < |s| { assert PosOK(s, i); }
      }
    }
    if PrefixOK(t) {
      forall i | 0 <= i < |s| ensures PosOK(s, i) {
        assert PosOK(t, i);
      }
      assert PosOK(t, |s|);
    }
  }

  /** One step of the automaton from a locally valid prefix. */
  lemma StepStateOf(p: string, c: char)
    requires |p| > 0 && PrefixOK(p)
    ensures Step(StateOf(p), c) == (if PosOK(p + [c], |p|) then StateOf(p + [c]) else Dead)
  {
    var t := p + [c];
    assert t[|p|] == c && t[|p| - 1] == p[|p| - 1];
    if |p| >= 2 { assert t[|p| - 2] == p[|p| - 2]; }
    assert PosOK(p, |p| - 1);
  }

  /** The invariant of the automaton: on a non-empty string it is in the
      state `StateOf` names when the string is locally valid, and dead
      otherwise. */
  lemma {:induction false} RunCharacterized(s: string)
    ensures |s| > 0 ==> Run(Init, s) == (if PrefixOK(s) then StateOf(s) else Dead)
    decreases |s|
  {
    if |s| == 0 {
      return;
    }
    var p := s[..|s| - 1];
    var c := s[|s| - 1];
    assert s == p + [c];
    RunSnoc(Init, p, c);
    PrefixOKSnoc(p, c);
    if |p| == 0 {
      assert Run(Init, p) == Init;
      return;
    }
    RunCharacterized(p);
    if !PrefixOK(p) {
      assert !PrefixOK(s);
      return;
    }
    StepStateOf(p, c);
  }

  /** The automaton accepts exactly the strings the position-wise reading
      of the pattern admits. */
  lemma VerSpecFullIff(s: string)
    ensures VerSpecFull(s) <==> VerSpecLocal(s)
  {
    RunCharacterized(s);
    if |s| > 0 && PrefixOK(s) {
      assert PosOK(s, |s| - 1);
    }
  }

  /** `!` is only admitted directly after a digit or `*`. */
  lemma BangFollowsDigit(s: string, i: int)
    requires VerSpecFull(s) && 0 < i < |s| && s[i] == '!'
    ensures IsDig(s[i - 1])
  {
    VerSpecFullIff(s);
    assert PosOK(s, i);
  }

  /** Hence a `!=` clause after a comma, as in the regex tests'
      `>=0.7,!=1.1.0,<2.2`, is rejected whatever surrounds it. */
  lemma NotEqualsAfterComma(p: string, q: string)
    ensures !VerSpecFull(p + ",!" + q)
  {
    var a := p + [','] + ['!'];
    assert p + ",!" + q == a + q;
    RunSnoc(Init, p, ',');
    RunSnoc(Init, p + [','], '!');
    assert Run(Init, a) == Dead;
    RunAppend(Init, a, q);
    RunDead(q);
  }

  lemma {:induction false} RunAppend(q: SpecState, a: string, b: string)
    ensures Run(q, a + b) == Run(Run(q, a), b)
    decreases |a|
  {
    if |a| > 0 {
      assert (a + b)[0] == a[0] && (a + b)[1..] == a[1..] + b;
      RunAppend(Step(q, a[0]), a[1..], b);
    } else {
      assert a + b == b;
    }
  }

  /** `Dead` is a sink. */
  lemma {:induction false} RunDead(s: string)
    ensures Run(Dead, s) == Dead
    decreases |s|
  {
    if |s| > 0 {
      RunDead(s[1..]);
    }
  }

  /** A run of three operators is rejected. */
  lemma VerSpecRejectsTripleOperator()
    ensures !VerSpecFull(">===3.5")
  {
  }

  /** Specs from the regex tests that the pattern accepts. */
  lemma VerSpecAcceptsRange()
    ensures VerSpecFull(">=2,<3")
  {
  }

  lemma VerSpecAcceptsAlternative()
    ensures VerSpecFull("1.0|1.2.*")
  {
  }

  lemma VerSpecAcceptsPrerelease()
    ensures VerSpecFull("2.0rc1")
  {
  }
}
