/** The opened package archive, as the checkers see it: the members in
    archive order, each with its header flags, size and contents. Reading
    the tarball and parsing its JSON files are not part of this model; the
    parsed `info/index.json` is an input beside the members. */
module Archive {
  import opened Base
  import opened Text

  /** One `TarInfo`: `path` (the same as `name`), `isdir()`, `islnk()`,
      `isfile()`, `size`, and the bytes `extractfile(path).read()` gives. */
  datatype Member = Member(path: string, isDir: bool, isLink: bool, isFile: bool, size: int, data: seq<byte>)

  /** `[m.path for m in members]` */
  function PathList(members: seq<Member>): (ps: seq<string>)
    ensures |ps| == |members| && forall i | 0 <= i < |members| :: ps[i] == members[i].path
  {
    if |members| == 0 then [] else [members[0].path] + PathList(members[1..])
  }

  /** `set(m.path for m in members)` */
  function Paths(members: seq<Member>): set<string> {
    Elems(PathList(members))
  }

  /** The member `extractfile(path)` reads: a name that occurs more than
      once denotes its last occurrence. */
  function LastWithPath(members: seq<Member>, path: string): (r: Option<Member>)
    ensures r.None? <==> forall i | 0 <= i < |members| :: members[i].path != path
    ensures r.Some? ==> exists i | 0 <= i < |members| ::
      members[i] == r.value && r.value.path == path
      && forall j | i < j < |members| :: members[j].path != path
  {
    if |members| == 0 then None
    else if members[|members| - 1].path == path then Some(members[|members| - 1])
    else LastWithPath(members[..|members| - 1], path)
  }

  /** `extractfile(path).read()`; an absent name raises `KeyError`. */
  function Extract(members: seq<Member>, path: string): (r: Res<seq<byte>>)
    ensures r.Err? <==> path !in Paths(members)
    ensures r.Err? ==> r.exc == KeyError(path)
    ensures r.Ok? ==> LastWithPath(members, path).Some? && r.value == LastWithPath(members, path).value.data
  {
    match LastWithPath(members, path)
    case None => Err(KeyError(path))
    case Some(m) => Ok(m.data)
  }

  /** `data.read(n)`: at most the first `n` bytes. */
  function ReadAtMost(data: seq<byte>, n: nat): (r: seq<byte>)
    ensures |r| <= n && |r| <= |data| && r == data[..|r|]
    ensures |data| >= n ==> |r| == n
  {
    if |data| <= n then data else data[..n]
  }

  /** `bytes.decode('utf-8')`, read one byte to one character (see the
      README: multi-byte sequences are not decoded). */
  function Decode(data: seq<byte>): (s: string)
    ensures |s| == |data| && forall i | 0 <= i < |data| :: s[i] as int == data[i] as int
  {
    if |data| == 0 then [] else [data[0] as int as char] + Decode(data[1..])
  }

  /** `s.encode()` of an ASCII string, the inverse of `Decode`. */
  function Encode(s: string): (b: seq<byte>)
    requires forall i | 0 <= i < |s| :: (s[i] as int) < 256
    ensures |b| == |s| && forall i | 0 <= i < |s| :: b[i] as int == s[i] as int
  {
    if |s| == 0 then [] else
      assert s[0] as int < 256;
      [s[0] as int as byte] + Encode(s[1..])
  }

  /** Decoding what was encoded gives the string back. */
  lemma DecodeEncode(s: string)
    requires forall i | 0 <= i < |s| :: (s[i] as int) < 256
    ensures Decode(Encode(s)) == s
  {
    var d := Decode(Encode(s));
    assert |d| == |s|;
    forall i | 0 <= i < |s| ensures d[i] == s[i] {
      assert d[i] as int == s[i] as int;
    }
  }

  /** `s` without its repeated elements, keeping first occurrences. */
  function Dedupe(s: seq<string>): (d: seq<string>)
    ensures Distinct(d)
    ensures forall x :: x in d <==> x in s
  {
    if |s| == 0 then []
    else
      var d := Dedupe(s[..|s| - 1]);
      assert forall x :: x in s <==> x in s[..|s| - 1] || x == s[|s| - 1];
      if s[|s| - 1] in d then d else d + [s[|s| - 1]]
  }

  /** The order in which the rules walk the path set: Python leaves it
      unspecified, and the model takes archive order without repeats. */
  function IterPaths(members: seq<Member>): (ps: seq<string>)
    ensures Distinct(ps)
    ensures forall p :: p in ps <==> p in Paths(members)
  {
    Dedupe(PathList(members))
  }

  /** The elements of `s` that satisfy `keep`, in order. */
  function Filter(s: seq<string>, keep: string -> bool): (f: seq<string>)
    ensures forall x :: x in f <==> x in s && keep(x)
    ensures Distinct(s) ==> Distinct(f)
    ensures |f| <= |s|
  {
    if |s| == 0 then []
    else
      var f := Filter(s[..|s| - 1], keep);
      assert forall x :: x in s <==> x in s[..|s| - 1] || x == s[|s| - 1];
      if keep(s[|s| - 1]) then f + [s[|s| - 1]] else f
  }

  /** One more element of `s` extends the filtered prefix by that element
      when it is kept. */
  lemma FilterStep(s: seq<string>, keep: string -> bool, i: nat)
    requires i < |s|
    ensures Filter(s[..i + 1], keep) == Filter(s[..i], keep) + (if keep(s[i]) then [s[i]] else [])
  {
    assert s[..i + 1][..i] == s[..i];
  }

  /** The first element of `s` that satisfies `bad`. */
  function FirstWhere(s: seq<string>, bad: string -> bool): (r: Option<string>)
    ensures r.None? <==> forall x | x in s :: !bad(x)
    ensures r.Some? ==> r.value in s && bad(r.value)
  {
    if |s| == 0 then None
    else if bad(s[0]) then Some(s[0])
    else
      assert forall x :: x in s <==> x == s[0] || x in s[1..];
      FirstWhere(s[1..], bad)
  }

  /** The first path of the archive, in walk order, that satisfies `bad`. */
  function FindPath(members: seq<Member>, bad: string -> bool): (r: Option<string>)
    ensures r.None? <==> forall p | p in Paths(members) :: !bad(p)
    ensures r.Some? ==> r.value in Paths(members) && bad(r.value)
  {
    FirstWhere(IterPaths(members), bad)
  }

  /** `len(members) != len(paths)` says exactly that some path occurs twice. */
  lemma DuplicateMembers(members: seq<Member>)
    ensures |Paths(members)| <= |members|
    ensures |Paths(members)| == |members| <==>
      forall i, j | 0 <= i < j < |members| :: members[i].path != members[j].path
  {
    var ps := PathList(members);
    DistinctCard(ps);
    if Distinct(ps) {
      forall i, j | 0 <= i < j < |members| ensures members[i].path != members[j].path {
        assert ps[i] != ps[j];
      }
    }
    if forall i, j | 0 <= i < j < |members| :: members[i].path != members[j].path {
      assert Distinct(ps);
    }
  }
}
