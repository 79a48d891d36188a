/** Outcome datatypes shared by the model.

    The source fails in several ways (a failed `assert`, a `KeyError`, a
    generic `Exception`); every one of them aborts the run, so the model
    collapses them into the single `Error` case of `Result`. */
module Outcomes {

  /** An optional value: a key that may be absent, a mapping that may give None. */
  datatype Option<+T> = None | Some(value: T)

  /** Either a value or the one failure outcome. Usable with `:-`. */
  datatype Result<+T> = Ok(value: T) | Error {

    predicate IsFailure() {
      Error?
    }

    function PropagateFailure<U>(): Result<U>
      requires Error?
    {
      Error
    }

    function Extract(): T
      requires Ok?
    {
      value
    }
  }
}
