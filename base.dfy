/** Shared vocabulary of the model: Python exceptions, a failure-compatible
    result type, and bytes. */
module Base {

  /** An unsigned 8-bit value, as read from an archive member. */
  newtype byte = x: int | 0 <= x < 256

  datatype Option<+T> = None | Some(value: T)

  /** The Python exceptions that the modelled code raises or lets escape.
      `PackageError` and `RecipeError` are the project's own; the others
      are the interpreter's, raised by a failing operation on bad input. */
  datatype Exc =
    | PackageError(msg: string)
    | RecipeError(msg: string)
    | PlainException(msg: string)   // `raise Exception(...)`
    | AssertionError(msg: string)
    | SystemExit(status: int)
    | TypeError
    | AttributeError
    | KeyError(key: string)
    | IndexError
    | ValueError
    | FileNotFoundError(path: string)

  /** The outcome of a Python computation: a value, or an exception that
      propagates to the caller. */
  datatype Res<+T> = Ok(value: T) | Err(exc: Exc) {
    predicate IsFailure() { Err? }

    function PropagateFailure<U>(): Res<U>
      requires Err?
    {
      Err(exc)
    }

    function Extract(): T
      requires Ok?
    {
      value
    }
  }

  /** A statement that either completes or raises. */
  type Status = Res<()>

  const Pass: Status := Ok(())

  function Raise(e: Exc): Status { Err(e) }

  /** `if cond: raise e` */
  function Need(cond: bool, e: Exc): (r: Status)
    ensures r == Pass <==> cond
    ensures !cond ==> r == Err(e)
  {
    if cond then Pass else Err(e)
  }

  /** `for x in xs[i:]: f(x)` where each step completes or raises: the
      first exception ends the loop and propagates. */
  function Each<T>(xs: seq<T>, f: T -> Status, i: nat): (r: Status)
    requires i <= |xs|
    ensures r == Pass <==> forall k | i <= k < |xs| :: f(xs[k]) == Pass
    ensures r != Pass ==> exists k | i <= k < |xs| ::
      r == f(xs[k]) && forall j | i <= j < k :: f(xs[j]) == Pass
    decreases |xs| - i
  {
    if i == |xs| then Pass
    else if f(xs[i]) != Pass then f(xs[i])
    else Each(xs, f, i + 1)
  }

  /** The first result that is set (`for res in results: if res: ...`). */
  function FirstSome<T>(results: seq<Option<T>>): (r: Option<T>)
    ensures r.None? <==> forall k | 0 <= k < |results| :: results[k].None?
    ensures r.Some? ==> exists k | 0 <= k < |results| ::
      results[k] == r && forall j | 0 <= j < k :: results[j].None?
  {
    if |results| == 0 then None
    else if results[0].Some? then results[0]
    else
      var r := FirstSome(results[1..]);
      assert r.Some? ==> exists k | 0 <= k < |results[1..]| ::
        results[1..][k] == r && forall j | 0 <= j < k :: results[1..][j].None?;
      assert r.Some? ==> exists k | 0 <= k < |results| ::
        results[k] == r && forall j | 0 <= j < k :: results[j].None? by {
        if r.Some? {
          var k :| 0 <= k < |results[1..]| && results[1..][k] == r && forall j | 0 <= j < k :: results[1..][j].None?;
          assert results[k + 1] == r;
          assert forall j | 0 <= j < k + 1 :: results[j].None? by {
            forall j | 0 <= j < k + 1 ensures results[j].None? {
              if j > 0 { assert results[j] == results[1..][j - 1]; }
            }
          }
        }
      }
      r
  }

  /** Every element of `s` is different from every other. */
  predicate Distinct<T(==)>(s: seq<T>) {
    forall i, j | 0 <= i < j < |s| :: s[i] != s[j]
  }

  /** `set(s)` */
  function Elems<T(==)>(s: seq<T>): set<T> {
    set x | x in s
  }

  /** `len(set(s)) == len(s)` says exactly that `s` has no repeated
      element; otherwise the set is smaller. */
  lemma {:induction false} DistinctCard<T>(s: seq<T>)
    ensures |Elems(s)| <= |s|
    ensures |Elems(s)| == |s| <==> Distinct(s)
  {
    if |s| > 0 {
      var t := s[..|s| - 1];
      var x := s[|s| - 1];
      DistinctCard(t);
      assert s == t + [x];
      assert Elems(s) == Elems(t) + {x};
      if x in t {
        assert Elems(s) == Elems(t);
        var i :| 0 <= i < |t| && t[i] == x;
        assert s[i] == s[|s| - 1];
      } else {
        assert x !in Elems(t);
        if Distinct(t) {
          forall i, j | 0 <= i < j < |s| ensures s[i] != s[j] {
            if j == |s| - 1 {
              assert s[i] == t[i];
            } else {
              assert s[i] == t[i] && s[j] == t[j];
            }
          }
        } else {
          var i, j :| 0 <= i < j < |t| && t[i] == t[j];
          assert s[i] == s[j];
        }
      }
    }
  }
}
