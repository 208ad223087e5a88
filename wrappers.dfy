/** Failure-compatible Option and Result types used across the model. */
module Wrappers {

  datatype Option<+T> = None | Some(value: T)

  datatype Result<+R, +E> = Ok(value: R) | Err(error: E) {
    predicate IsFailure() {
      Err?
    }

    function PropagateFailure<U>(): Result<U, E>
      requires Err?
    {
      Err(error)
    }

    function Extract(): R
      requires Ok?
    {
      value
    }
  }

  /** Applies `f` to every element in order; the first failure is the result. */
  function MapAll<A, B, E>(xs: seq<A>, f: A -> Result<B, E>): (r: Result<seq<B>, E>)
    ensures r.Ok? ==> |r.value| == |xs|
  {
    if xs == [] then Ok([])
    else
      match MapAll(xs[..|xs| - 1], f)
      case Err(e) => Err(e)
      case Ok(ys) =>
        match f(xs[|xs| - 1])
        case Err(e) => Err(e)
        case Ok(y) => Ok(ys + [y])
  }

  /** `MapAll` succeeds exactly when `f` succeeds everywhere, and then holds
      each element's image at its own position. */
  lemma {:induction false} MapAllElementwise<A, B, E>(xs: seq<A>, f: A -> Result<B, E>)
    ensures MapAll(xs, f).Ok? <==> forall i :: 0 <= i < |xs| ==> f(xs[i]).Ok?
    ensures MapAll(xs, f).Ok? ==> forall i :: 0 <= i < |xs| ==> MapAll(xs, f).value[i] == f(xs[i]).value
  {
    if xs != [] {
      var init := xs[..|xs| - 1];
      MapAllElementwise(init, f);
      assert forall i :: 0 <= i < |init| ==> init[i] == xs[i];
    }
  }

  /** One more element that `f` maps successfully extends the result by its image. */
  lemma MapAllSnoc<A, B, E>(xs: seq<A>, f: A -> Result<B, E>, n: nat, ys: seq<B>)
    requires n < |xs| && MapAll(xs[..n], f) == Ok(ys) && f(xs[n]).Ok?
    ensures MapAll(xs[..n + 1], f) == Ok(ys + [f(xs[n]).value])
  {
    assert xs[..n + 1][..n] == xs[..n];
  }

  /** When `MapAll` fails, it reports the error of the first failing element. */
  lemma {:induction false} MapAllFirstError<A, B, E>(xs: seq<A>, f: A -> Result<B, E>, k: nat)
    requires k < |xs| && f(xs[k]).Err?
    requires forall i :: 0 <= i < k ==> f(xs[i]).Ok?
    ensures MapAll(xs, f) == Err(f(xs[k]).error)
  {
    var init := xs[..|xs| - 1];
    if k < |xs| - 1 {
      assert init[k] == xs[k];
      assert forall i :: 0 <= i < k ==> init[i] == xs[i];
      MapAllFirstError(init, f, k);
    } else {
      MapAllElementwise(init, f);
      assert forall i :: 0 <= i < |init| ==> init[i] == xs[i];
    }
  }
}
