/** Option and Result, the failure-carrying datatypes the other modules share. */
module Wrappers {

  datatype Option<+T> = None | Some(value: T) {
    function GetOr(default: T): T {
      match this
      case Some(v) => v
      case None => default
    }
  }

  /** The outcome of a step that can throw: a value, or the text of the exception. */
  datatype Result<+R> = Ok(value: R) | Err(what: string) {
    predicate IsFailure() { Err? }

    function PropagateFailure<U>(): Result<U>
      requires Err?
    {
      Err(what)
    }

    function Extract(): R
      requires Ok?
    {
      value
    }
  }

  /** The concatenation of a sequence of chunks, in order. */
  function Concat<T>(chunks: seq<seq<T>>): seq<T> {
    if chunks == [] then [] else chunks[0] + Concat(chunks[1..])
  }
}
