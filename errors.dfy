/** `conda_verify/errors.py`: the diagnostic a check returns. The declared
    tuple has four fields (file, line number, code, message), so the
    three-argument `Error(...)` calls every check makes would raise
    `TypeError` against that file as it stands; the model keeps the three
    fields those calls pass (file, code, message), which are all the
    aggregator reads. `errors.py` also defines no `PackageError` or
    `RecipeError`, although other modules import them from it; the model
    gives both a constructor of `Exc`. */
module Errors {
  import opened Base

  datatype Diagnostic = Diagnostic(path: string, code: string, message: string)

  /** `template.format(*args)` for templates whose holes are plain `{}`:
      each hole takes the next argument. Python raises `IndexError` when
      the arguments run out; the model keeps the surplus holes instead, and
      every use in this model passes exactly as many arguments as the
      template has holes. */
  function Format(template: string, args: seq<string>): (r: string)
    decreases |template|
  {
    if |template| == 0 then ""
    else if |template| >= 2 && template[0] == '{' && template[1] == '}' && |args| > 0 then
      args[0] + Format(template[2..], args[1..])
    else [template[0]] + Format(template[1..], args)
  }

  /** `{}` occurs in `s`. */
  predicate HasHole(s: string) {
    exists i | 0 <= i < |s| - 1 :: s[i] == '{' && s[i + 1] == '}'
  }

  /** A template without holes is its own message. */
  lemma {:induction false} FormatNoHoles(t: string, args: seq<string>)
    requires !HasHole(t)
    ensures Format(t, args) == t
    decreases |t|
  {
    if |t| > 0 {
      forall i | 0 <= i < |t[1..]| - 1 ensures !(t[1..][i] == '{' && t[1..][i + 1] == '}') {
        assert t[1..][i] == t[i + 1] && t[1..][i + 1] == t[i + 2];
      }
      assert !(|t| >= 2 && t[0] == '{' && t[1] == '}');
      FormatNoHoles(t[1..], args);
    }
  }

  /** The argument lands where the template's one hole was. */
  lemma FormatOneHole(pre: string, post: string, a: string)
    requires !HasHole(pre + "{") && !HasHole("}" + post)
    ensures Format(pre + "{}" + post, [a]) == pre + a + post
  {
    FormatPrefix(pre, "{}" + post, [a]);
    assert (pre + "{}" + post)[|pre|..] == "{}" + post;
    assert ("{}" + post)[2..] == post;
    forall i | 0 <= i < |post| - 1 ensures !(post[i] == '{' && post[i + 1] == '}') {
      assert ("}" + post)[i + 1] == post[i] && ("}" + post)[i + 2] == post[i + 1];
    }
    FormatNoHoles(post, []);
    assert pre + "{}" + post == pre + ("{}" + post);
  }

  /** Text before the first hole is copied unchanged. */
  lemma {:induction false} FormatPrefix(pre: string, rest: string, args: seq<string>)
    requires !HasHole(pre + "{") && |rest| > 0 && rest[0] == '{'
    ensures Format(pre + rest, args) == pre + Format(rest, args)
    decreases |pre|
  {
    if |pre| > 0 {
      var t := pre + rest;
      assert !(t[0] == '{' && t[1] == '}') by {
        if |pre| == 1 {
          assert (pre + "{")[0] == pre[0] && (pre + "{")[1] == '{';
        } else {
          assert (pre + "{")[0] == pre[0] && (pre + "{")[1] == pre[1];
        }
      }
      var u := pre[1..] + "{";
      forall i | 0 <= i < |u| - 1 ensures !(u[i] == '{' && u[i + 1] == '}') {
        assert u[i] == (pre + "{")[i + 1] && u[i + 1] == (pre + "{")[i + 2];
      }
      assert t[1..] == pre[1..] + rest;
      FormatPrefix(pre[1..], rest, args);
      assert Format(t, args) == [t[0]] + Format(t[1..], args);
      assert pre == [pre[0]] + pre[1..];
    } else {
      assert pre + rest == rest;
    }
  }

  /** What a check gives back: a diagnostic, nothing, or an exception. */
  type Outcome = Res<Option<Diagnostic>>

  predicate Reports(r: Outcome, code: string) {
    r.Ok? && r.value.Some? && r.value.value.code == code
  }

  /** The first outcome other than "nothing found" among `f` of `xs[i..]`,
      which is how a `for` loop that returns from its body behaves. */
  function FirstOutcome<T>(xs: seq<T>, f: T -> Outcome, i: nat): (r: Outcome)
    requires i <= |xs|
    ensures r == Ok(None) <==> forall k | i <= k < |xs| :: f(xs[k]) == Ok(None)
    ensures r != Ok(None) ==> exists k | i <= k < |xs| ::
      r == f(xs[k]) && forall j | i <= j < k :: f(xs[j]) == Ok(None)
    decreases |xs| - i
  {
    if i == |xs| then Ok(None)
    else if f(xs[i]) != Ok(None) then f(xs[i])
    else FirstOutcome(xs, f, i + 1)
  }
}
