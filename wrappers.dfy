/** Optional values, results of operations that may throw, and the
    in-order traversal the handlers use for `Promise.all(xs.map(f))`. */
module Wrappers {

  /** A value that may be `null`/`undefined` in the source. */
  datatype Option<+T> = None | Some(value: T)

  function GetOr<T>(o: Option<T>, default: T): T
  {
    match o
    case Some(v) => v
    case None => default
  }

  /** The outcome of an operation that either returns a value or throws;
      `error` is the thrown error's string description. */
  datatype Result<+T, +E> = Success(value: T) | Failure(error: E) {

    predicate IsFailure() {
      Failure?
    }

    function PropagateFailure<U>(): Result<U, E>
      requires Failure?
    {
      Failure(error)
    }

    function Extract(): T
      requires Success?
    {
      value
    }
  }

  /** Applies `f` to every element in order and collects the results; the
      first failure in list order is the failure of the whole traversal. */
  function Traverse<T, U, E>(xs: seq<T>, f: T -> Result<U, E>): (r: Result<seq<U>, E>)
    ensures r.Success? ==> |r.value| == |xs|
    ensures r.Success? ==> forall i :: 0 <= i < |xs| ==> f(xs[i]) == Success(r.value[i])
    ensures r.Failure? ==> exists i :: 0 <= i < |xs| && f(xs[i]) == Failure(r.error)
                                       && forall j :: 0 <= j < i ==> f(xs[j]).Success?
  {
    if xs == [] then Success([])
    else
      match f(xs[0])
      case Failure(e) => Failure(e)
      case Success(y) =>
        match Traverse(xs[1..], f)
        case Failure(e) =>
          assert forall i :: 1 <= i < |xs| ==> xs[1..][i - 1] == xs[i];
          Failure(e)
        case Success(ys) => Success([y] + ys)
  }

  /** The traversal succeeds exactly when every application does. */
  lemma {:induction false} TraverseSucceedsIff<T, U, E>(xs: seq<T>, f: T -> Result<U, E>)
    ensures Traverse(xs, f).Success? <==> forall i :: 0 <= i < |xs| ==> f(xs[i]).Success?
  {
    if xs != [] {
      TraverseSucceedsIff(xs[1..], f);
      assert forall i :: 1 <= i < |xs| ==> xs[1..][i - 1] == xs[i];
    }
  }
}
