/** Option and Result, and the Python exceptions the model can raise. */
module Wrappers {

  datatype Option<+T> = None | Some(value: T)

  /** The exceptions raised when a value does not have the shape the code expects. */
  datatype Failure =
    | KeyError(key: string)        // a dict subscript with a key it does not hold
    | TypeError(reason: string)    // a subscript, assignment or iteration on the wrong kind of value
    | IndexError(reason: string)   // popping from an empty list
    | UnboundLocalError(name: string)  // reading a local variable that was never assigned
    | ValueError(reason: string)   // `dict` applied to a value that is not a sequence of pairs
    | AttributeError(reason: string)  // a method a value of that kind does not have

  datatype Result<+T> = Ok(value: T) | Err(error: Failure) {
    predicate IsFailure() { Err? }
    function PropagateFailure<U>(): Result<U>
      requires Err?
    {
      Err(error)
    }
    function Extract(): T
      requires Ok?
    {
      value
    }
  }
}
