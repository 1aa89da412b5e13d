/** Outcomes of the client's operations: a value, or the Python exception that escapes
    from the operation. The client catches nothing but Pydantic's ValidationError, and that
    only inside its two try/except fallbacks; every other exception reaches the caller. */
module Results {

  datatype Option<+T> = None | Some(value: T)

  /** The exception kinds that can leave an LspClient operation. */
  datatype Error =
    | ValueError(message: string)     // raised by the client itself (missing capabilities)
    | TypeError(message: string)      // iterating, subscripting or `in` on a value that does not allow it
    | KeyError(key: string)           // subscripting a dict with a key it lacks
    | AttributeError(name: string)    // `.get` / `.items` on something that is not a dict
    | ValidationError                 // a Pydantic model rejected the value
    | EndpointError(reason: string)   // raised by the endpoint's call_method, passed on unchanged

  datatype Result<T> = Ok(value: T) | Err(error: Error) {

    predicate IsFailure() {
      Err?
    }

    function PropagateFailure<U>(): Result<U>
      requires Err?
    {
      Err(error)
    }

    function Extract(): T
      requires Ok?
    {
      value
    }

    /** Feeds a successful value to `f`; a failure is passed on unchanged. */
    function Then<U>(f: T -> Result<U>): Result<U> {
      match this
      case Ok(v) => f(v)
      case Err(e) => Err(e)
    }
  }

  /** A Python list comprehension `[f(x) for x in xs]` whose element function may raise:
      the elements are processed in order and the first exception escapes, so the result
      is either every element converted or the first element's failure. */
  function MapAll<A, B>(xs: seq<A>, f: A -> Result<B>): (r: Result<seq<B>>)
    ensures r.Ok? <==> forall i | 0 <= i < |xs| :: f(xs[i]).Ok?
    ensures r.Ok? ==> |r.value| == |xs| && forall i | 0 <= i < |xs| :: r.value[i] == f(xs[i]).value
    ensures r.Err? ==>
      exists i | 0 <= i < |xs| :: f(xs[i]) == Err(r.error) && forall j | 0 <= j < i :: f(xs[j]).Ok?
  {
    if xs == [] then Ok([])
    else
      var y :- f(xs[0]);
      var ys :- MapAll(xs[1..], f);
      Ok([y] + ys)
  }

  /** When every element converts, the comprehension yields exactly the converted elements. */
  lemma MapAllOk<A, B>(xs: seq<A>, f: A -> Result<B>, ys: seq<B>)
    requires |xs| == |ys|
    requires forall i | 0 <= i < |xs| :: f(xs[i]) == Ok(ys[i])
    ensures MapAll(xs, f) == Ok(ys)
  {
    var r := MapAll(xs, f);
    assert r.Ok?;
    assert r.value == ys;
  }

  /** When some element fails and every failure is `e`, the comprehension fails with `e`. */
  lemma MapAllFailsWith<A, B>(xs: seq<A>, f: A -> Result<B>, k: nat, e: Error)
    requires k < |xs| && f(xs[k]).Err?
    requires forall i | 0 <= i < |xs| && f(xs[i]).Err? :: f(xs[i]).error == e
    ensures MapAll(xs, f) == Err(e)
  {
    var r := MapAll(xs, f);
    assert r.Err?;
    var i :| 0 <= i < |xs| && f(xs[i]) == Err(r.error);
  }
}
