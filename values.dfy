/** The decoded content of `info/index.json` (JSON) and of a rendered
    `meta.yaml` (YAML), with the Python operations the checkers apply to it.
    Mappings keep their keys in document order, as Python dicts do. */
module Values {
  import opened Base
  import opened Text

  datatype Value =
    | Null
    | Bool(b: bool)
    | Int(i: int)
    | Str(s: string)
    | List(items: seq<Value>)
    | Dict(entries: seq<(string, Value)>)

  /** Python truthiness: `if v:` */
  predicate Truthy(v: Value) {
    match v
    case Null => false
    case Bool(b) => b
    case Int(i) => i != 0
    case Str(s) => s != ""
    case List(items) => items != []
    case Dict(entries) => entries != []
  }

  /** `isinstance(v, int)`; `bool` is a subclass of `int` in Python. */
  predicate IsInt(v: Value) { v.Int? || v.Bool? }

  function IntOf(v: Value): int
    requires IsInt(v)
  {
    if v.Int? then v.i else if v.b then 1 else 0
  }

  /** `str(v)` */
  function PyStr(v: Value): string
    decreases v, 1
  {
    match v
    case Null => "None"
    case Bool(b) => if b then "True" else "False"
    case Int(i) => IntToString(i)
    case Str(s) => s
    case List(items) => "[" + Join(", ", ReprItems(items)) + "]"
    case Dict(entries) => "{" + Join(", ", ReprEntries(entries)) + "}"
  }

  /** `repr(v)`: strings are quoted, everything else prints as `str`. */
  function PyRepr(v: Value): string
    decreases v, 2
  {
    if v.Str? then StrRepr(v.s) else PyStr(v)
  }

  function ReprItems(items: seq<Value>): seq<string>
    decreases items
  {
    if |items| == 0 then [] else [PyRepr(items[0])] + ReprItems(items[1..])
  }

  function ReprEntries(entries: seq<(string, Value)>): seq<string>
    decreases entries
  {
    if |entries| == 0 then []
    else
      var (k, x) := entries[0];
      assert x < entries[0];
      assert entries[0] in entries;
      [StrRepr(entries[0].0) + ": " + PyRepr(entries[0].1)] + ReprEntries(entries[1..])
  }

  /** The keys of a mapping, in order. */
  function Keys(entries: seq<(string, Value)>): (ks: seq<string>)
    ensures |ks| == |entries|
    ensures forall i | 0 <= i < |ks| :: ks[i] == entries[i].0
  {
    if |entries| == 0 then [] else [entries[0].0] + Keys(entries[1..])
  }

  /** `key in d` and `d[key]`: the first binding of `key`. */
  function Lookup(entries: seq<(string, Value)>, key: string): (r: Option<Value>)
    ensures r.None? <==> key !in Keys(entries)
    ensures r.Some? ==> exists i | 0 <= i < |entries| :: entries[i] == (key, r.value)
  {
    if |entries| == 0 then None
    else if entries[0].0 == key then Some(entries[0].1)
    else Lookup(entries[1..], key)
  }

  /** `d.get(key, default)` on a value that must be a dict (anything else
      has no `.get` and raises `AttributeError`). */
  function Get(v: Value, key: string, default: Value): (r: Res<Value>)
    ensures r.Err? <==> !v.Dict?
    ensures r.Err? ==> r.exc == AttributeError
    ensures v.Dict? && key !in Keys(v.entries) ==> r == Ok(default)
    ensures v.Dict? && key in Keys(v.entries) ==> r == Ok(Lookup(v.entries, key).value)
  {
    if !v.Dict? then Err(AttributeError)
    else match Lookup(v.entries, key)
      case Some(x) => Ok(x)
      case None => Ok(default)
  }

  /** `d[key]` on a dict; a missing key raises `KeyError`. */
  function Index(v: Value, key: string): (r: Res<Value>)
    ensures v.Dict? && key in Keys(v.entries) ==> r == Ok(Lookup(v.entries, key).value)
    ensures v.Dict? && key !in Keys(v.entries) ==> r == Err(KeyError(key))
  {
    if !v.Dict? then Err(TypeError)
    else match Lookup(v.entries, key)
      case Some(x) => Ok(x)
      case None => Err(KeyError(key))
  }

  /** `for x in v`: lists yield their items, dicts their keys, strings their
      characters; anything else is not iterable. */
  function Iter(v: Value): (r: Res<seq<Value>>)
    ensures v.List? ==> r == Ok(v.items)
    ensures (v.Null? || v.Int? || v.Bool?) ==> r == Err(TypeError)
  {
    match v
    case List(items) => Ok(items)
    case Dict(entries) => Ok(KeyValues(Keys(entries)))
    case Str(s) => Ok(CharValues(s))
    case _ => Err(TypeError)
  }

  function KeyValues(ks: seq<string>): (r: seq<Value>)
    ensures |r| == |ks| && forall i | 0 <= i < |ks| :: r[i] == Str(ks[i])
  {
    if |ks| == 0 then [] else [Str(ks[0])] + KeyValues(ks[1..])
  }

  function CharValues(s: string): (r: seq<Value>)
    ensures |r| == |s| && forall i | 0 <= i < |s| :: r[i] == Str([s[i]])
  {
    if |s| == 0 then [] else [Str([s[0]])] + CharValues(s[1..])
  }

  /** The string held by `v`, or the exception `e` that a `str` method or a
      regex raises when handed something else. */
  function AsStr(v: Value, e: Exc): (r: Res<string>)
    ensures v.Str? ==> r == Ok(v.s)
    ensures !v.Str? ==> r == Err(e)
  {
    if v.Str? then Ok(v.s) else Err(e)
  }

  /** The items of `v`, which must be a list (`list + list`). */
  function AsList(v: Value, e: Exc): (r: Res<seq<Value>>)
    ensures v.List? ==> r == Ok(v.items)
    ensures !v.List? ==> r == Err(e)
  {
    if v.List? then Ok(v.items) else Err(e)
  }

  /** Every item is a string; then `Strs` gives them. */
  predicate AllStr(items: seq<Value>) {
    forall i | 0 <= i < |items| :: items[i].Str?
  }

  function Strs(items: seq<Value>): (r: seq<string>)
    requires AllStr(items)
    ensures |r| == |items| && forall i | 0 <= i < |items| :: r[i] == items[i].s
  {
    if |items| == 0 then [] else [items[0].s] + Strs(items[1..])
  }

  function StrValues(ss: seq<string>): (r: seq<Value>)
    ensures |r| == |ss| && forall i | 0 <= i < |ss| :: r[i] == Str(ss[i])
    ensures AllStr(r) && Strs(r) == ss
  {
    if |ss| == 0 then [] else [Str(ss[0])] + StrValues(ss[1..])
  }

  /** `v in strings`: only a `str` can compare equal to a `str`. */
  predicate InStrs(v: Value, strings: seq<string>) {
    v.Str? && v.s in strings
  }

  /** `v in set_of_strings`: hashing a list or a dict raises `TypeError`. */
  function InStrSet(v: Value, strings: set<string>): (r: Res<bool>)
    ensures v.Str? ==> r == Ok(v.s in strings)
    ensures (v.List? || v.Dict?) ==> r == Err(TypeError)
    ensures (v.Null? || v.Bool? || v.Int?) ==> r == Ok(false)
  {
    match v
    case Str(s) => Ok(s in strings)
    case List(_) => Err(TypeError)
    case Dict(_) => Err(TypeError)
    case _ => Ok(false)
  }

  function DigitsValue(s: string): (n: nat)
    requires forall i | 0 <= i < |s| :: IsAsciiDigit(s[i])
  {
    if |s| == 0 then 0
    else
      assert IsAsciiDigit(s[|s| - 1]);
      DigitsValue(s[..|s| - 1]) * 10 + (s[|s| - 1] as int - '0' as int)
  }

  predicate AllDigits(s: string) {
    |s| > 0 && forall i | 0 <= i < |s| :: IsAsciiDigit(s[i])
  }

  /** A decimal numeral as `int()` reads it since Python 3.6: digits,
      where a single `_` may stand between two digits. */
  predicate IsNumeral(s: string) {
    |s| > 0 && IsAsciiDigit(s[0]) && IsAsciiDigit(s[|s| - 1])
    && forall i | 0 <= i < |s| :: IsAsciiDigit(s[i]) || (s[i] == '_' && 0 < i < |s| - 1 && IsAsciiDigit(s[i - 1]))
  }

  /** The digits of a numeral, its underscores dropped. */
  function NumeralDigits(s: string): (d: string)
    ensures |d| <= |s|
    ensures (forall i | 0 <= i < |s| :: IsAsciiDigit(s[i]) || s[i] == '_') ==>
      forall i | 0 <= i < |d| :: IsAsciiDigit(d[i])
    ensures (forall i | 0 <= i < |s| :: IsAsciiDigit(s[i])) ==> d == s
    ensures |s| > 0 && IsAsciiDigit(s[0]) ==> |d| > 0 && d[0] == s[0]
  {
    if |s| == 0 then [] else (if s[0] == '_' then [] else [s[0]]) + NumeralDigits(s[1..])
  }

  /** The value of a numeral. */
  function NumeralValue(s: string): (n: nat)
    requires IsNumeral(s)
  {
    var d := NumeralDigits(s);
    assert forall i | 0 <= i < |s| :: IsAsciiDigit(s[i]) || s[i] == '_';
    DigitsValue(d)
  }

  /** `int(s)` for a string: optional surrounding white space, an optional
      sign and a numeral; anything else raises `ValueError`. */
  function ParseInt(s: string): (r: Res<int>)
    ensures r.Err? ==> r.exc == ValueError
    ensures r.Ok? <==> var t := Strip(s);
      IsNumeral(t) || (|t| > 0 && (t[0] == '-' || t[0] == '+') && IsNumeral(t[1..]))
    ensures r.Ok? && IsNumeral(Strip(s)) ==> r.value == NumeralValue(Strip(s))
    ensures r.Ok? && !IsNumeral(Strip(s)) ==>
      var t := Strip(s);
      var n: int := NumeralValue(t[1..]);
      r.value == if t[0] == '-' then -n else n
  {
    var t := Strip(s);
    if |t| > 0 && (t[0] == '-' || t[0] == '+') then
      if IsNumeral(t[1..]) then
        var n: int := NumeralValue(t[1..]);
        Ok(if t[0] == '-' then -n else n)
      else Err(ValueError)
    else if IsNumeral(t) then Ok(NumeralValue(t))
    else Err(ValueError)
  }

  /** A string that neither starts nor ends with white space is its own
      `strip()`. */
  lemma StripFixed(s: string)
    requires |s| > 0 && !IsSpace(s[0]) && !IsSpace(s[|s| - 1])
    ensures Strip(s) == s
  {
    assert RStripSpace(s) == s;
    assert LStripSpace(s) == s;
  }

  /** A numeral without surrounding white space reads as its value. */
  lemma ParseNumeral(s: string)
    requires IsNumeral(s)
    ensures ParseInt(s) == Ok(NumeralValue(s))
  {
    StripFixed(s);
    assert s[0] != '-' && s[0] != '+';
  }

  lemma ParseDigits(s: string)
    requires AllDigits(s)
    ensures ParseInt(s) == Ok(DigitsValue(s))
  {
    ParseNumeral(s);
  }

  /** An underscore between digits is read. */
  lemma ParseUnderscore()
    ensures ParseInt("1_0") == Ok(10)
  {
    NumeralOneZero();
    ParseNumeral("1_0");
  }

  lemma NumeralOneZero()
    ensures IsNumeral("1_0") && NumeralValue("1_0") == 10
  {
    var s := "1_0";
    assert IsNumeral(s) by {
      assert IsAsciiDigit(s[0]) && s[1] == '_' && IsAsciiDigit(s[2]);
    }
    assert NumeralDigits(s[2..]) == "0";
    assert NumeralDigits(s[1..]) == "0";
    assert NumeralDigits(s) == "10";
    assert DigitsValue("10"[..1]) == 1;
  }

  /** Surrounding white space is dropped and a sign is read:
      `int(" -3")` is -3. */
  lemma ParseSignedPadded()
    ensures ParseInt(" -3") == Ok(-3)
  {
    var s := " -3";
    StripSignedThree();
    assert !IsNumeral("-3") by { assert !IsAsciiDigit("-3"[0]); }
    assert "-3"[1..] == "3";
    NumeralThree();
  }

  lemma StripSignedThree()
    ensures Strip(" -3") == "-3"
  {
    var s := " -3";
    assert RStripSpace(s) == s by { assert !IsSpace(s[2]); }
    assert LStripSpace(s) == LStripSpace(s[1..]) by { assert IsSpace(s[0]); }
    SignIsNoSpace();
    StripFixed("-3");
    assert s[1..] == "-3";
  }

  lemma NumeralThree()
    ensures IsNumeral("3") && NumeralValue("3") == 3
  {
    assert IsAsciiDigit("3"[0]);
    assert NumeralDigits("3") == "3";
    assert "3"[..0] == "";
    assert DigitsValue("3") == 3;
  }

  /** Doubled, leading and trailing underscores are refused. */
  lemma RefuseUnderscores()
    ensures ParseInt("1__0").Err? && ParseInt("_1").Err? && ParseInt("1_").Err?
  {
    StripFixed("1__0");
    assert !IsNumeral("1__0") by { assert "1__0"[2] == '_' && !IsAsciiDigit("1__0"[1]); }
    StripFixed("1_");
    assert Strip("_1") == "_1" by { assert RStripSpace("_1") == "_1"; assert LStripSpace("_1") == "_1"; }
  }

  /** `int(v)` */
  function PyInt(v: Value): (r: Res<int>)
    ensures IsInt(v) ==> r == Ok(IntOf(v))
    ensures (v.Null? || v.List? || v.Dict?) ==> r == Err(TypeError)
    ensures v.Str? ==> r == ParseInt(v.s)
  {
    match v
    case Int(i) => Ok(i)
    case Bool(b) => Ok(if b then 1 else 0)
    case Str(s) => ParseInt(s)
    case _ => Err(TypeError)
  }

  /** `len(v)`: strings, lists and dicts have a length; anything else
      raises `TypeError`. */
  function PyLen(v: Value): (r: Res<nat>)
    ensures v.Str? ==> r == Ok(|v.s|)
    ensures v.List? ==> r == Ok(|v.items|)
    ensures v.Dict? ==> r == Ok(|v.entries|)
    ensures (v.Null? || v.Bool? || v.Int?) ==> r == Err(TypeError)
  {
    match v
    case Str(s) => Ok(|s|)
    case List(items) => Ok(|items|)
    case Dict(entries) => Ok(|entries|)
    case _ => Err(TypeError)
  }
}
