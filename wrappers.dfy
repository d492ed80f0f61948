/**
 Option and Result wrappers shared by every module, and the kinds of error
 the library throws.
 */
module Wrappers {

  datatype Option<+T> = None | Some(value: T) {

    /** `x ?? d` in the source. */
    function GetOr(default: T): T {
      match this
      case Some(v) => v
      case None => default
    }
  }

  /** A truthy optional string: present and not empty. */
  predicate NonEmpty(s: Option<string>) {
    s.Some? && s.value != ""
  }

  /** What a `throw` in the source carries. `line` is the 1-based line number
      that transcript errors put in front of their message, when they do. */
  datatype Error =
    | TypeError(msg: string)
    | SyntaxError(line: Option<nat>, msg: string)
    | PlainError(msg: string)
    | ValidationError(path: string)

  datatype Result<+T> = Ok(value: T) | Err(error: Error) {

    predicate IsFailure() {
      Err?
    }

    function PropagateFailure<U>(): Result<U>
      requires Err?
    {
      Err(error)
    }

    function Extract(): T
      requires Ok?
    {
      value
    }
  }

  /** `xs.map(f)` where `f` may throw: the first failure stops the map. */
  function MapResult<A, B>(xs: seq<A>, f: A -> Result<B>): (r: Result<seq<B>>)
    ensures r.Ok? <==> forall i :: 0 <= i < |xs| ==> f(xs[i]).Ok?
    ensures r.Ok? ==> |r.value| == |xs| && forall i :: 0 <= i < |xs| ==> r.value[i] == f(xs[i]).value
    ensures r.Err? ==>
      exists i :: 0 <= i < |xs| && f(xs[i]) == Err(r.error) && forall j :: 0 <= j < i ==> f(xs[j]).Ok?
  {
    if |xs| == 0 then Ok([])
    else
      match f(xs[0])
      case Err(e) => Err(e)
      case Ok(h) =>
        match MapResult(xs[1..], f)
        case Err(e) =>
          assert exists i :: 0 <= i < |xs| && f(xs[i]) == Err(e) && forall j :: 0 <= j < i ==> f(xs[j]).Ok? by {
            var k :| 0 <= k < |xs| - 1 && f(xs[1..][k]) == Err(e) && forall j :: 0 <= j < k ==> f(xs[1..][j]).Ok?;
            assert forall j :: 0 <= j < k + 1 ==> f(xs[j]).Ok? by {
              forall j | 0 <= j < k + 1 ensures f(xs[j]).Ok? {
                if j > 0 { assert xs[j] == xs[1..][j - 1]; }
              }
            }
            assert f(xs[k + 1]) == Err(e);
          }
          Err(e)
        case Ok(t) =>
          assert forall i :: 1 <= i < |xs| ==> xs[i] == xs[1..][i - 1];
          Ok([h] + t)
  }
}
