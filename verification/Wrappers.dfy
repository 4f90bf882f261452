/** Optional values and the outcomes of calls that may throw. */
module Wrappers {

  datatype Option<+T> = None | Some(value: T)

  datatype Result<+T> = Ok(value: T) | Err(error: string)

  /** A call that returns nothing, or throws. */
  datatype Outcome = Pass | Thrown(error: string) {
    predicate IsFailure() {
      Thrown?
    }

    function PropagateFailure(): Outcome {
      this
    }
  }

  function Need(condition: bool, error: string): Outcome {
    if condition then Pass else Thrown(error)
  }
}
