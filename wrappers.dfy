/** Option, Outcome and Result, and the errors the pipeline raises. */
module Wrappers {

  datatype Option<+T> = None | Some(value: T)

  datatype Result<+R, +E> = Success(value: R) | Failure(error: E)
  {
    predicate IsFailure() { Failure? }

    function PropagateFailure<U>(): Result<U, E>
      requires Failure?
    {
      Failure(error)
    }

    function Extract(): R
      requires Success?
    {
      value
    }
  }

  datatype Outcome<+E> = Pass | Fail(error: E)

  /** The exceptions the modelled code raises or lets through. */
  datatype Error =
    | FilePathNotSpecified   // 01_etl/state_storage.py: save_state without a path
    | JsonDecodeError        // json.load on a file that is not JSON (an empty file, say)
    | SchemaValidation       // a pydantic scheme refused a row
    | StopIteration          // next() on a generator that already finished
    | AttributeError         // reading an attribute a scheme does not declare
    | TypeError              // open(None): an index name without a scheme file path

  /** `d.get(key)` on a dictionary: the value of a present key, else None. */
  function Get<K, V>(m: map<K, V>, key: K): (r: Option<V>)
    ensures r.Some? <==> key in m
    ensures r.Some? ==> r.value == m[key]
  {
    if key in m then Some(m[key]) else None
  }

  function Min(a: int, b: int): int { if a <= b then a else b }
}
