/** Failure-compatible result types shared by every part of the model.

    The Rust code aborts with `unwrap()` or `unreachable!()` on bad input and
    reports macro-argument mistakes as compile errors; the model turns each of
    these into an explicit failure value so that the error paths can be stated
    and proved about. */
module Outcomes {

  /** A value that may be absent; `None` is a failure for `:-`. */
  datatype Option<+T> = None | Some(value: T) {
    predicate IsFailure() {
      None?
    }

    function PropagateFailure<U>(): Option<U>
      requires None?
    {
      None
    }

    function Extract(): T
      requires Some?
    {
      value
    }
  }

  /** Why a front end gave up. */
  datatype Failure =
    | Unreachable(site: string)     // an `unreachable!()` was hit
    | UnwrapFailed(site: string)    // an `unwrap()` on an error value
    | CompileError(message: string) // a syn parse error reported to the compiler

  /** A value or the reason it could not be produced. */
  datatype Result<+T> = Ok(value: T) | Err(error: Failure) {
    predicate IsFailure() {
      Err?
    }

    function PropagateFailure<U>(): Result<U>
      requires Err?
    {
      Err(error)
    }

    function Extract(): T
      requires Ok?
    {
      value
    }
  }

  /** `for x in xs { out.push(f(x)) }` where `f` may abort: the results of
      every element, in order, or else the failure of the first element
      that fails. */
  function MapAll<T, U>(xs: seq<T>, f: T -> Result<U>): (r: Result<seq<U>>)
    ensures r.Ok? <==> forall i :: 0 <= i < |xs| ==> f(xs[i]).Ok?
    ensures r.Ok? ==> |r.value| == |xs| && forall i :: 0 <= i < |xs| ==> r.value[i] == f(xs[i]).value
    ensures r.Err? ==> exists i :: 0 <= i < |xs| && f(xs[i]) == Err(r.error)
                                   && forall j :: 0 <= j < i ==> f(xs[j]).Ok?
  {
    if |xs| == 0 then Ok([])
    else
      var first :- f(xs[0]);
      var rest := MapAll(xs[1..], f);
      assert forall i :: 1 <= i < |xs| ==> xs[i] == xs[1..][i - 1];
      if rest.Err? then
        var k :| 0 <= k < |xs[1..]| && f(xs[1..][k]) == Err(rest.error)
                 && forall j :: 0 <= j < k ==> f(xs[1..][j]).Ok?;
        assert f(xs[k + 1]) == Err(rest.error);
        Err(rest.error)
      else
        Ok([first] + rest.value)
  }
}
