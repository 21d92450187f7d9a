/** Option, Result and Outcome: the model's stand-ins for C# nullable references and thrown exceptions. */
module Wrappers {

  /** A C# reference or nullable value: `None` is `null`. */
  datatype Option<+T> = None | Some(value: T) {

    /** The `??` operator: this value when it is not null, `default` otherwise. */
    function GetOr(default: T): T
    {
      match this
      case Some(v) => v
      case None => default
    }
  }

  /** A call that either returns a value or throws an exception. */
  datatype Result<+R, +E> = Success(value: R) | Failure(error: E)

  /** A `void` call that either completes or throws an exception. */
  datatype Outcome<+E> = Pass | Fail(error: E)
}
