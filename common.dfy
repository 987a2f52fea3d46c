/** Shared wrappers: an optional value and the outcome of an operation that
    either yields a value or fails with the message of the thrown `Error`. */
module Common {

  datatype Option<+T> = None | Some(value: T)

  /** `Err(message)` stands for a JavaScript `throw new Error(message)`. */
  datatype Result<+T> = Ok(value: T) | Err(message: string) {
    predicate IsFailure() { Err? }

    function PropagateFailure<U>(): Result<U>
      requires Err?
    {
      Err(message)
    }

    function Extract(): T
      requires Ok?
    {
      value
    }
  }
}
