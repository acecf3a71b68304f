/** Optional values and the failures the modelled Python and C++ code can raise. */
module Wrappers {

  datatype Option<+T> = None | Some(value: T)

  /** How a run of the modelled code can end abnormally. */
  datatype Failure =
    | ValueError(message: string)      // Python `raise ValueError(...)`
    | AssertionError                   // Python `assert` that does not hold
    | KeyError(key: string)            // Python dictionary lookup of a missing key
    | IndexError                       // Python list index out of range
    | AttributeError(name: string)     // Python attribute the value does not have
    | TypeError(message: string)       // Python operation applied to None
    | ZeroDivisionError                // Python float division by zero
    | UnboundLocalError(name: string)  // Python local read before any assignment
    | SystemExit(code: int)            // Python `sys.exit(code)`
    | Terminate(message: string)       // C++ `throw;` with no active exception

  datatype Result<+T> = Ok(value: T) | Err(failure: Failure)
  {
    predicate IsFailure()
    {
      Err?
    }

    function PropagateFailure<U>(): Result<U>
      requires Err?
    {
      Err(failure)
    }

    function Extract(): T
      requires Ok?
    {
      value
    }
  }

  /** A list of values prepended to the list a computation returns; a
      failure stays the same failure. */
  function Prepend<T>(front: seq<T>, r: Result<seq<T>>): Result<seq<T>>
  {
    match r
    case Ok(rest) => Ok(front + rest)
    case Err(f) => Err(f)
  }

  lemma PrependEmpty<T>(r: Result<seq<T>>)
    ensures Prepend([], r) == r
  {
    if r.Ok? {
      assert [] + r.value == r.value;
    }
  }

  lemma PrependAssoc<T>(a: seq<T>, b: seq<T>, r: Result<seq<T>>)
    ensures Prepend(a, Prepend(b, r)) == Prepend(a + b, r)
  {
    if r.Ok? {
      assert a + (b + r.value) == (a + b) + r.value;
    }
  }
}
