/** Failure-compatible wrappers and the ways a scaffolding run can fail. */
module Outcomes {

  datatype Option<+T> = None | Some(value: T)

  /** Success or failure; usable with `:-`. */
  datatype Result<+T, +E> = Success(value: T) | Failure(error: E) {
    predicate IsFailure() { Failure? }

    function PropagateFailure<U>(): Result<U, E>
      requires Failure?
    {
      Failure(error)
    }

    function Extract(): T
      requires Success?
    {
      value
    }
  }

  /** Why a run aborts. Nothing in the generator catches any of these. */
  datatype Error =
    | LookupFailed(package: string)   // the registry lookup of one package rejected
    | InitFailed(stderr: string)      // `npm init -y` wrote to its error stream
    | NullMember(key: string)         // a property was assigned on a manifest member that is `null`
}
