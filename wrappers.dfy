// Option and Result, the two wrappers the library's Rust code returns everywhere,
// plus the short-circuiting collection of a sequence of results that
// `Iterator::collect::<Result<Vec<_>, _>>()` performs.
module Wrappers {

  datatype Option<T> = None | Some(value: T) {
    predicate IsSome() { Some? }

    function UnwrapOr(default: T): (r: T)
      ensures Some? ==> r == value
      ensures None? ==> r == default
    {
      match this
      case Some(v) => v
      case None => default
    }
  }

  datatype Result<T, E> = Ok(value: T) | Err(error: E) {
    function MapErr<E2>(f: E -> E2): (r: Result<T, E2>)
      ensures Ok? <==> r.Ok?
      ensures Ok? ==> r.value == value
      ensures Err? ==> r.error == f(error)
    {
      match this
      case Ok(v) => Ok(v)
      case Err(e) => Err(f(e))
    }
  }

  /** Index of the first `Err` in `xs`, when there is one. */
  function FirstErrIndex<T, E>(xs: seq<Result<T, E>>): (r: Option<nat>)
    ensures r.None? <==> forall i :: 0 <= i < |xs| ==> xs[i].Ok?
    ensures r.Some? ==> r.value < |xs| && xs[r.value].Err?
    ensures r.Some? ==> forall j :: 0 <= j < r.value ==> xs[j].Ok?
  {
    if |xs| == 0 then None
    else if xs[0].Err? then Some(0)
    else match FirstErrIndex(xs[1..])
      case None => None
      case Some(k) => Some(k + 1)
  }

  /** The `Ok` payloads of a sequence of results that are all `Ok`. */
  function Values<T, E>(xs: seq<Result<T, E>>): (r: seq<T>)
    requires forall i :: 0 <= i < |xs| ==> xs[i].Ok?
    ensures |r| == |xs|
    ensures forall i :: 0 <= i < |xs| ==> r[i] == xs[i].value
  {
    if |xs| == 0 then [] else [xs[0].value] + Values(xs[1..])
  }

  /**
   * `collect::<Result<Vec<T>, E>>()`: all values in order when every element
   * is `Ok`, otherwise the error of the first `Err`.
   */
  function Collect<T, E>(xs: seq<Result<T, E>>): (r: Result<seq<T>, E>)
  {
    if |xs| == 0 then Ok([])
    else if xs[0].Err? then Err(xs[0].error)
    else match Collect(xs[1..])
      case Ok(rest) => Ok([xs[0].value] + rest)
      case Err(e) => Err(e)
  }

  lemma {:induction false} CollectOk<T, E>(xs: seq<Result<T, E>>)
    ensures Collect(xs).Ok? <==> forall i :: 0 <= i < |xs| ==> xs[i].Ok?
    ensures Collect(xs).Ok? ==> Collect(xs).value == Values(xs)
    decreases |xs|
  {
    if |xs| != 0 && xs[0].Ok? {
      CollectOk(xs[1..]);
      assert forall i :: 1 <= i < |xs| ==> xs[i] == xs[1..][i - 1];
    }
  }

  lemma {:induction false} CollectErr<T, E>(xs: seq<Result<T, E>>)
    ensures Collect(xs).Err? ==>
      FirstErrIndex(xs).Some? && Collect(xs).error == xs[FirstErrIndex(xs).value].error
    decreases |xs|
  {
    if |xs| != 0 && xs[0].Ok? {
      CollectErr(xs[1..]);
    }
  }
}
