/** A recipe directory as the older recipe checkers see it: its path and
    the files `os.walk` finds under it, each with its path relative to the
    directory and its size in bytes, in walk order. Also the pieces of
    `validate_files` that `conda_recipe_check.py`, `recipe.py` and
    `recipe/test_files.py` write with the same body, differing only in the
    exception class they raise. */
module RecipeTree {
  import opened Base
  import opened Text
  import opened Values

  datatype RecipeDir = RecipeDir(path: string, files: seq<(string, nat)>)

  /** `isfile(join(recipe_dir, fn))` for a path relative to the directory. */
  predicate IsFile(dir: RecipeDir, fn: string) {
    exists k | 0 <= k < |dir.files| :: dir.files[k].0 == fn
  }

  /** `dir_size(recipe_dir)`: the sizes of all files of the walk, summed. */
  function DirSize(files: seq<(string, nat)>): nat {
    if |files| == 0 then 0 else DirSize(files[..|files| - 1]) + files[|files| - 1].1
  }

  /** The size of two listings together is the sum of their sizes. */
  lemma {:induction false} DirSizeAppend(a: seq<(string, nat)>, b: seq<(string, nat)>)
    ensures DirSize(a + b) == DirSize(a) + DirSize(b)
    decreases |b|
  {
    if |b| > 0 {
      assert (a + b)[..|a + b| - 1] == a + b[..|b| - 1];
      DirSizeAppend(a, b[..|b| - 1]);
    } else {
      assert a + b == a;
    }
  }

  /** No single file is larger than the directory holding it. */
  lemma {:induction false} DirSizeBound(files: seq<(string, nat)>, k: nat)
    requires k < |files|
    ensures files[k].1 <= DirSize(files)
    decreases |files|
  {
    if k < |files| - 1 {
      DirSizeBound(files[..|files| - 1], k);
    }
  }

  /** The exception class a checker raises its findings as: `RecipeError`
      in `conda_recipe_check.py` and in `recipe/`, a plain `Exception` in
      `recipe.py`. */
  datatype Raiser = RaisesRecipeError | RaisesException {
    function Fail(msg: string): (e: Exc)
      ensures e.RecipeError? || e.PlainException?
      ensures e.msg == msg
    {
      if RaisesRecipeError? then RecipeError(msg) else PlainException(msg)
    }
  }

  function MsgOutside(fn: string): string { "path outsite recipe: " + fn }

  function MsgNoSuchFile(dir: RecipeDir, fn: string): string {
    "no such file '" + PathJoin(dir.path, fn) + "'"
  }

  /** One listed file of `validate_files`: a name reaching above the
      recipe with `..` is refused before the directory is consulted;
      otherwise it must be a file of the recipe. `startswith` on a
      non-string raises `AttributeError`. */
  function FileRule(raiser: Raiser, dir: RecipeDir, fn: Value): (r: Status)
    ensures r == Pass <==> fn.Str? && !StartsWith(fn.s, "..") && IsFile(dir, fn.s)
    ensures !fn.Str? ==> r == Err(AttributeError)
    ensures fn.Str? && StartsWith(fn.s, "..") ==> r == Err(raiser.Fail(MsgOutside(fn.s)))
    ensures fn.Str? && !StartsWith(fn.s, "..") && !IsFile(dir, fn.s) ==>
      r == Err(raiser.Fail(MsgNoSuchFile(dir, fn.s)))
  {
    var s :- AsStr(fn, AttributeError);
    if StartsWith(s, "..") then Err(raiser.Fail(MsgOutside(s)))
    else if IsFile(dir, s) then Pass
    else Err(raiser.Fail(MsgNoSuchFile(dir, s)))
  }

  /** The value of one field of `validate_files`: an empty or unset list
      is skipped, otherwise every name it yields must pass `FileRule`. */
  function ListedFilesRule(raiser: Raiser, dir: RecipeDir, flst: Value): (r: Status)
    ensures !Truthy(flst) ==> r == Pass
    ensures Truthy(flst) && Iter(flst).Ok? ==>
      (r == Pass <==> forall k | 0 <= k < |Iter(flst).value| :: FileRule(raiser, dir, Iter(flst).value[k]) == Pass)
    ensures Truthy(flst) && (flst.Int? || flst.Bool?) ==> r == Err(TypeError)
  {
    if !Truthy(flst) then Pass
    else
      var fns :- Iter(flst);
      Each(fns, (fn: Value) => FileRule(raiser, dir, fn), 0)
  }

  /** A listed name that the directory holds and that stays inside it is
      accepted, and one that climbs out is refused even when a file of
      that name exists. */
  lemma ListedFileAccepted(raiser: Raiser, dir: RecipeDir, fn: string)
    ensures IsFile(dir, fn) && !StartsWith(fn, "..") ==> ListedFilesRule(raiser, dir, List([Str(fn)])) == Pass
    ensures StartsWith(fn, "..") ==>
      ListedFilesRule(raiser, dir, List([Str(fn)])) == Err(raiser.Fail(MsgOutside(fn)))
  {
    var flst := List([Str(fn)]);
    assert Iter(flst).value == [Str(fn)];
    assert Truthy(flst);
  }
}
