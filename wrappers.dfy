/** Option and Result, the failure-compatible wrappers used across the model. */
module Wrappers {

  /** Python's `Optional[T]`: `None` or a present value. */
  datatype Option<+T> = None | Some(value: T)

  /** The outcome of a call that may raise: a value, or the exception it raises. */
  datatype Result<+T, +E> = Success(value: T) | Failure(error: E) {

    predicate IsFailure() {
      Failure?
    }

    function PropagateFailure<U>(): Result<U, E>
      requires Failure?
    {
      Failure(error)
    }

    function Extract(): T
      requires Success?
    {
      value
    }
  }

  /** A list comprehension whose element expression may raise: the elements
      are evaluated in order and the first exception propagates. */
  function MapAll<A, B, E>(xs: seq<A>, f: A -> Result<B, E>): (r: Result<seq<B>, E>)
    ensures r.Success? <==> forall i :: 0 <= i < |xs| ==> f(xs[i]).Success?
    ensures r.Success? ==> |r.value| == |xs| && forall i :: 0 <= i < |xs| ==> r.value[i] == f(xs[i]).value
    ensures r.Failure? ==> exists i :: (0 <= i < |xs| && f(xs[i]) == Failure(r.error)
                                     && forall j :: 0 <= j < i ==> f(xs[j]).Success?)
    decreases |xs|
  {
    if xs == [] then Success([])
    else
      var head := f(xs[0]);
      if head.Failure? then
        Failure(head.error)
      else
        var rest := MapAll(xs[1..], f);
        assert forall i :: 0 <= i < |xs| - 1 ==> xs[1..][i] == xs[i + 1];
        if rest.Failure? then
          ghost var k :| 0 <= k < |xs[1..]| && f(xs[1..][k]) == Failure(rest.error)
            && forall j :: 0 <= j < k ==> f(xs[1..][j]).Success?;
          assert f(xs[k + 1]) == Failure(rest.error);
          assert forall j :: 0 <= j < k + 1 ==> f(xs[j]).Success?;
          Failure(rest.error)
        else
          Success([head.value] + rest.value)
  }
}
