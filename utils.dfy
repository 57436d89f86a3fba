/** `conda_verify/utils.py`: the `memoized` decorator (the one object of
    the core that updates itself), `get_field` and the asserting `ns_cfg`.
    Its `get_bad_seq`, `all_ascii`, `select_lines` and `iter_cfgs` have
    the same bodies as the ones modelled in `Utilities`. Its
    `get_object_type` keeps the text literals of `fileinfo.py` and is
    modelled here as Python 3 runs it on the `bytes` a tar member reads. */
module Utils {
  import opened Base
  import opened Text
  import opened Values
  import opened Constants
  import Utilities

  // ---------------------------------------------------------------------
  // memoized
  // ---------------------------------------------------------------------

  /** Whether Python can hash a value: lists and dicts cannot, and a
      tuple can be hashed only when all its items can. */
  predicate HashableValue(v: Value) { !v.List? && !v.Dict? }

  predicate HashableArgs(args: seq<Value>) {
    forall i | 0 <= i < |args| :: HashableValue(args[i])
  }

  /** `memoized(func)`: `cache` maps argument tuples to results; `misses`
      records, in order, every tuple `func` was evaluated on to fill the
      cache. */
  class Memoized<V> {
    const func: seq<Value> -> V
    var cache: map<seq<Value>, V>
    ghost var misses: seq<seq<Value>>

    /** Every cached value is `func` of its key, every key is hashable,
        and `func` was evaluated exactly once per key. */
    ghost predicate Valid()
      reads this
    {
      (forall args | args in cache :: HashableArgs(args) && cache[args] == func(args))
      && Distinct(misses)
      && (forall i | 0 <= i < |misses| :: misses[i] in cache)
      && (forall args | args in cache :: args in misses)
    }

    constructor (f: seq<Value> -> V)
      ensures Valid()
      ensures func == f && cache == map[] && misses == []
    {
      func := f;
      cache := map[];
      misses := [];
    }

    /** `__call__(*args)` as written. `args` is a tuple, and a tuple is
        always an instance of `Hashable`, so the bypass branch is never
        taken; the membership test then hashes the tuple, which raises
        `TypeError` when an argument is a list or a dict. */
    method Call(args: seq<Value>) returns (r: Res<V>)
      requires Valid()
      modifies this
      ensures Valid()
      ensures !HashableArgs(args) ==> r == Err(TypeError) && cache == old(cache) && misses == old(misses)
      ensures HashableArgs(args) ==> r == Ok(func(args))
      ensures HashableArgs(args) && args in old(cache) ==>
        cache == old(cache) && misses == old(misses)
      ensures HashableArgs(args) && args !in old(cache) ==>
        cache == old(cache)[args := func(args)] && misses == old(misses) + [args]
    {
      if !HashableArgs(args) {
        return Err(TypeError);
      }
      if args in cache {
        r := Ok(cache[args]);
      } else {
        var value := func(args);
        cache := cache[args := value];
        misses := misses + [args];
        r := Ok(value);
      }
    }

    /** `__call__(*args)` as its comment intends: arguments that cannot be
        hashed are passed to `func` without touching the cache. */
    method CallIntended(args: seq<Value>) returns (r: V)
      requires Valid()
      modifies this
      ensures Valid()
      ensures r == func(args)
      ensures !HashableArgs(args) ==> cache == old(cache) && misses == old(misses)
      ensures HashableArgs(args) && args in old(cache) ==>
        cache == old(cache) && misses == old(misses)
      ensures HashableArgs(args) && args !in old(cache) ==>
        cache == old(cache)[args := func(args)] && misses == old(misses) + [args]
    {
      if !HashableArgs(args) {
        return func(args);
      }
      if args in cache {
        r := cache[args];
      } else {
        r := func(args);
        cache := cache[args := r];
        misses := misses + [args];
      }
    }
  }

  /** A memoized function called with a list argument raises instead of
      returning `func`'s value. */
  method UnhashableCallRaises() returns (r: Res<int>)
    ensures r == Err(TypeError)
  {
    var m := new Memoized<int>((args: seq<Value>) => |args|);
    var args := [List([])];
    assert !HashableValue(args[0]);
    r := m.Call(args);
  }

  /** Calling twice with the same hashable arguments evaluates `func` at
      most once: the second call is a cache hit. */
  method CallTwice(m: Memoized<int>, args: seq<Value>) returns (first: Res<int>, second: Res<int>)
    requires m.Valid() && HashableArgs(args)
    modifies m
    ensures m.Valid()
    ensures first == second == Ok(m.func(args))
    ensures args in m.cache
    ensures |m.misses| <= |old(m.misses)| + 1
  {
    first := m.Call(args);
    second := m.Call(args);
  }

  // ---------------------------------------------------------------------
  // get_field
  // ---------------------------------------------------------------------

  /** `section, key = field.split('/')`: the unpacking succeeds exactly
      when `field` holds one `/`. */
  function SplitField(field: string): (r: Option<(string, string)>)
    ensures r.Some? <==> multiset(field)['/'] == 1
    ensures r.Some? ==> field == r.value.0 + "/" + r.value.1
  {
    var j := LastIndexOf(field, '/');
    if j < 0 then
      assert forall i | 0 <= i < |field| :: field[i] != '/';
      assert multiset(field)['/'] == 0 by { NoSlash(field); }
      None
    else
      assert field == field[..j] + "/" + field[j + 1..];
      assert '/' !in field[j + 1..];
      if LastIndexOf(field[..j], '/') >= 0 then
        var i := LastIndexOf(field[..j], '/');
        assert field == field[..i] + "/" + field[i + 1..j] + "/" + field[j + 1..];
        MoreThanOneSlash(field[..i], field[i + 1..j], field[j + 1..]);
        None
      else
        NoSlash(field[..j]);
        NoSlash(field[j + 1..]);
        assert multiset(field) == multiset(field[..j]) + multiset("/") + multiset(field[j + 1..]);
        Some((field[..j], field[j + 1..]))
  }

  lemma NoSlash(s: string)
    requires forall i | 0 <= i < |s| :: s[i] != '/'
    ensures multiset(s)['/'] == 0
  {
    assert '/' !in s;
  }

  lemma MoreThanOneSlash(a: string, b: string, c: string)
    ensures multiset(a + "/" + b + "/" + c)['/'] >= 2
  {
    assert multiset(a + "/" + b + "/" + c) == multiset(a) + multiset("/") + multiset(b) + multiset("/") + multiset(c);
  }

  /** `get_field(meta, field, default)` of this file: the field must
      split into a section and a key. */
  function GetField(meta: Value, field: string, default: Value): (r: Res<Value>)
    ensures SplitField(field).None? ==> r == Err(ValueError)
    ensures SplitField(field).Some? ==>
      r == GetSectionKey(meta, SplitField(field).value.0, SplitField(field).value.1, default)
  {
    match SplitField(field)
    case None => Err(ValueError)
    case Some((section, key)) => GetSectionKey(meta, section, key, default)
  }

  /** The lookup `get_field` makes once the field is split: a missing
      section or a `None` section reads as empty, and a missing key or a
      `None` value gives the default. */
  function GetSectionKey(meta: Value, section: string, key: string, default: Value): (r: Res<Value>)
    ensures !meta.Dict? ==> r == Err(AttributeError)
    ensures meta.Dict? && (Lookup(meta.entries, section).None? || Lookup(meta.entries, section) == Some(Null)) ==>
      r == Ok(default)
    ensures r.Ok? && r.value != default ==>
      meta.Dict? && Lookup(meta.entries, section).Some?
      && var sub := Lookup(meta.entries, section).value;
         sub.Dict? && Lookup(sub.entries, key) == Some(r.value) && r.value != Null
  {
    var submeta :- Get(meta, section, Null);
    var sub := if submeta.Null? then Dict([]) else submeta;
    var res :- Get(sub, key, Null);
    Ok(if res.Null? then default else res)
  }

  /** A field written `section/key` is looked up as that section and key. */
  lemma GetFieldAt(meta: Value, section: string, key: string, default: Value)
    requires '/' !in section && '/' !in key
    ensures GetField(meta, section + "/" + key, default) == GetSectionKey(meta, section, key, default)
  {
    SlashOnce(section, key);
  }

  /** The default comes back both when the key is absent and when it is
      bound to `None`. */
  lemma GetFieldDefault(meta: Value, section: string, key: string, default: Value)
    requires '/' !in section && '/' !in key
    requires meta.Dict? && Lookup(meta.entries, section) == Some(Dict([(key, Null)]))
    ensures GetField(meta, section + "/" + key, default) == Ok(default)
    ensures GetField(Dict([]), section + "/" + key, default) == Ok(default)
  {
    SlashOnce(section, key);
  }

  /** A present, non-`None` value is returned as it is. */
  lemma GetFieldPresent(section: string, key: string, v: Value, default: Value)
    requires '/' !in section && '/' !in key && v != Null
    ensures GetField(Dict([(section, Dict([(key, v)]))]), section + "/" + key, default) == Ok(v)
  {
    SlashOnce(section, key);
  }

  lemma SlashOnce(section: string, key: string)
    requires '/' !in section && '/' !in key
    ensures SplitField(section + "/" + key) == Some((section, key))
  {
    var f := section + "/" + key;
    assert multiset(f) == multiset(section) + multiset("/") + multiset(key);
    assert multiset(section)['/'] == 0 && multiset(key)['/'] == 0;
    var (a, b) := SplitField(f).value;
    assert f == a + "/" + b;
    SplitUnique(section, key, a, b);
  }

  /** A string with one `/` splits around it in one way only. */
  lemma SplitUnique(a: string, b: string, c: string, d: string)
    requires '/' !in a && '/' !in b && '/' !in c && '/' !in d
    requires a + "/" + b == c + "/" + d
    ensures a == c && b == d
  {
    var s := a + "/" + b;
    assert s[|a|] == '/' && s[|c|] == '/';
    assert a == s[..|a|] && c == s[..|c|];
    assert b == s[|a| + 1..] && d == s[|c| + 1..];
  }

  // ---------------------------------------------------------------------
  // ns_cfg
  // ---------------------------------------------------------------------

  /** `ns_cfg(cfg)` of this file (and of `recipe.py`): `PY` and `NPY` must
      be ints, else the assertion fails naming the first offender; the
      namespace defines no `py36`. */
  function NsCfg(cfg: Utilities.Cfg): (r: Res<string -> Option<Value>>)
    ensures r.Err? <==> !(IsInt(cfg.py) && IsInt(cfg.np))
    ensures !IsInt(cfg.py) ==> r == Err(AssertionError(PyStr(cfg.py)))
    ensures IsInt(cfg.py) && !IsInt(cfg.np) ==> r == Err(AssertionError(PyStr(cfg.np)))
    ensures r.Ok? ==> forall name :: r.value(name) == Utilities.Namespace(cfg.plat, cfg.py, cfg.np, false, name)
  {
    if !IsInt(cfg.py) then Err(AssertionError(PyStr(cfg.py)))
    else if !IsInt(cfg.np) then Err(AssertionError(PyStr(cfg.np)))
    else Ok(name => Utilities.Namespace(cfg.plat, cfg.py, cfg.np, false, name))
  }

  /** Every configuration `iter_cfgs` yields passes the assertion, and its
      namespace has no `py36` flag. */
  lemma IterCfgsNamespaces()
    ensures forall i | 0 <= i < |Utilities.IterCfgs()| ::
      NsCfg(Utilities.IterCfgs()[i]).Ok?
      && NsCfg(Utilities.IterCfgs()[i]).value("py36") == None
  {
    Utilities.IterCfgsShape();
    forall i | 0 <= i < |Utilities.IterCfgs()|
      ensures NsCfg(Utilities.IterCfgs()[i]).Ok? && NsCfg(Utilities.IterCfgs()[i]).value("py36") == None
    {
      IntCfgHasNoPy36(Utilities.IterCfgs()[i]);
    }
  }

  lemma IntCfgHasNoPy36(cfg: Utilities.Cfg)
    requires IsInt(cfg.py) && IsInt(cfg.np)
    ensures NsCfg(cfg).Ok? && NsCfg(cfg).value("py36") == None
  {
  }

  // ---------------------------------------------------------------------
  // get_object_type
  // ---------------------------------------------------------------------

  /** `get_object_type(data)` (utils.py) on Python 3 `bytes`, with the
      `bytes`-keyed tables standing in for `conda_verify.const`. The head is
      found, but the DLL branch searches `bytes` for the `str` `'PE\0\0'`,
      which raises `TypeError`, and the ELF branch looks an `int` up in a
      table keyed by strings and adds the `None` it gets to a string. */
  function GetObjectType(data: seq<byte>): (r: Res<Option<string>>)
    ensures MagicLookup(Utilities.Head(data)).None? ==> r == Ok(None)
    ensures MagicLookup(Utilities.Head(data)) == Some("DLL") ==> r == Err(TypeError)
    ensures MagicLookup(Utilities.Head(data)) == Some("ELF") ==>
      r == if |data| <= 4 then Err(IndexError) else Err(TypeError)
    ensures forall m | m in Utilities.MagicNames() && StartsWith(m, "MachO") ::
      MagicLookup(Utilities.Head(data)) == Some(m) ==> r == Ok(Some(m))
    ensures r.Ok? ==> r.value.None? || StartsWith(r.value.value, "MachO")
  {
    match MagicLookup(Utilities.Head(data))
    case None => Ok(None)
    case Some(lookup) =>
      if lookup == "DLL" then Err(TypeError)
      else if StartsWith(lookup, "MachO") then Ok(Some(lookup))
      else if lookup == "ELF" then
        if |data| <= 4 then Err(IndexError) else Err(TypeError)
      else Ok(None)
  }

  /** The utils.py sniffer agrees with the `bytes`-aware one of
      utilities.py on every head but the DLL one. */
  lemma GetObjectTypeAgrees(data: seq<byte>)
    requires MagicLookup(Utilities.Head(data)) != Some("DLL")
    ensures GetObjectType(data) == Utilities.GetObjectType(data)
  {
  }

  /** Under Python 3 no data is ever named a PE image: `DLL I386` and
      `DLL AMD64` are never returned. */
  lemma NeverPe(data: seq<byte>)
    ensures GetObjectType(data) != Ok(Some("DLL I386")) && GetObjectType(data) != Ok(Some("DLL AMD64"))
  {
  }
}
