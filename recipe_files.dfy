/** `conda_verify/recipe/test_files.py`: the directory checks as free
    functions. They are `CondaRecipeCheck`'s rules with two differences:
    a file's extension is checked before its size, and only two fields name
    files. Its `verify` entry point only calls `validate_files` once per
    configuration and is not modelled. */
module RecipeFiles {
  import opened Base
  import opened Text
  import opened Values
  import opened RecipeTree
  import RecipeRules

  /** One file of the walk, the extension test before the size test. */
  function ContentFileRule(file: (string, nat)): (r: Status)
    ensures r == Pass <==> !RecipeRules.Disallowed(file) && !RecipeRules.TooLargeArchive(file)
    ensures RecipeRules.Disallowed(file) ==> r == Err(RecipeError(RecipeRules.MsgFound(Basename(file.0))))
    ensures !RecipeRules.Disallowed(file) && RecipeRules.TooLargeArchive(file) ==>
      r == Err(RecipeError(RecipeRules.MsgTooLarge(Basename(file.0))))
  {
    if RecipeRules.Disallowed(file) then Err(RecipeError(RecipeRules.MsgFound(Basename(file.0))))
    else if RecipeRules.TooLargeArchive(file) then Err(RecipeError(RecipeRules.MsgTooLarge(Basename(file.0))))
    else Pass
  }

  /** `check_dir_content(recipe_dir)`: every file of the walk, then,
      unless the directory is named `icu`, the total size. */
  function CheckDirContent(dir: RecipeDir): (r: Status)
    ensures r == Pass <==>
      (forall k | 0 <= k < |dir.files| :: ContentFileRule(dir.files[k]) == Pass)
      && (Basename(dir.path) != "icu" ==> !RecipeRules.OverLimit(DirSize(dir.files)))
    ensures ((forall k | 0 <= k < |dir.files| :: ContentFileRule(dir.files[k]) == Pass)
             && Basename(dir.path) != "icu" && RecipeRules.OverLimit(DirSize(dir.files))) ==>
      r == Err(RecipeError(RecipeRules.MsgRecipeTooLarge(DirSize(dir.files))))
  {
    var _ :- Each(dir.files, ContentFileRule, 0);
    if Basename(dir.path) == "icu" then Pass
    else if RecipeRules.OverLimit(DirSize(dir.files)) then
      Err(RecipeError(RecipeRules.MsgRecipeTooLarge(DirSize(dir.files))))
    else Pass
  }

  /** The two generations accept and refuse the same directories; only
      the message can differ. */
  lemma SameVerdicts(dir: RecipeDir)
    ensures CheckDirContent(dir) == Pass <==> RecipeRules.CheckDirContent(dir) == Pass
  {
    assert forall k | 0 <= k < |dir.files| ::
      (ContentFileRule(dir.files[k]) == Pass <==> RecipeRules.ContentFileRule(dir.files[k]) == Pass);
  }

  /** The order is observable: a large `.tar.bz2` is "found" here and
      "too large" in `CondaRecipeCheck`. */
  lemma OrderDiffers(fn: string, size: nat)
    requires EndsWith(Lower(Basename(fn)), ".tar.bz2") && size > 512
    ensures ContentFileRule((fn, size)) == Err(RecipeError(RecipeRules.MsgFound(Basename(fn))))
    ensures RecipeRules.ContentFileRule((fn, size)) == Err(RecipeError(RecipeRules.MsgTooLarge(Basename(fn))))
    ensures ContentFileRule((fn, size)) != RecipeRules.ContentFileRule((fn, size))
  {
    RecipeRules.LargeTarballTooLarge(fn, size);
    assert |RecipeRules.MsgFound(Basename(fn))| < |RecipeRules.MsgTooLarge(Basename(fn))|;
  }

  /** The fields naming files, as (section, key). */
  const FileFields: seq<(string, string)> := [("test", "files"), ("source", "patches")]

  /** `validate_files(recipe_dir, meta)` */
  function ValidateFiles(dir: RecipeDir, meta: Value): (r: Status)
    ensures r == Pass <==> forall k | 0 <= k < |FileFields| ::
      RecipeRules.FieldFilesRule(RaisesRecipeError, meta, dir, FileFields[k]) == Pass
  {
    Each(FileFields, (field: (string, string)) => RecipeRules.FieldFilesRule(RaisesRecipeError, meta, dir, field), 0)
  }

  /** What `CondaRecipeCheck.validate_files` accepts is accepted here:
      the fields checked here are the first two of its three. */
  lemma FewerFields(meta: seq<(string, Value)>, dir: RecipeDir)
    ensures RecipeRules.ValidateFiles(meta, dir) == Pass ==> ValidateFiles(dir, Dict(meta)) == Pass
  {
    assert FileFields[0] == RecipeRules.FileFields[0] && FileFields[1] == RecipeRules.FileFields[1];
  }
}
