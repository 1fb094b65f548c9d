/** Result values in the style of DIRAC's S_OK / S_ERROR dictionaries.
    `Raised` stands for a Python exception that escapes the call instead of
    being turned into an S_ERROR; callers in the source never catch it. */
module Outcomes {

  datatype Option<T> = None | Some(value: T)

  datatype Result<T> = Ok(value: T) | Error(message: string) | Raised(exception: string) {

    predicate IsFailure() {
      !Ok?
    }

    function Extract(): T
      requires Ok?
    {
      value
    }

    /** The same failure, re-typed for the caller that returns it unchanged. */
    function PropagateFailure<U>(): Result<U>
      requires !Ok?
    {
      if Error? then Error(message) else Raised(exception)
    }
  }
}
