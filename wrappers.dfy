/** Failure-compatible wrappers used throughout the model: `Option` stands for a
    reference that may be null, `Result` for a call that either returns a value
    or throws an exception. */
module Wrappers {

  datatype Option<+T> = None | Some(value: T) {
    function GetOr(default: T): T {
      match this
      case Some(v) => v
      case None => default
    }
  }

  datatype Result<+T, +E> = Success(value: T) | Failure(error: E) {
    predicate IsFailure() {
      Failure?
    }

    function PropagateFailure<U>(): Result<U, E>
      requires Failure?
    {
      Failure(error)
    }

    function Extract(): T
      requires Success?
    {
      value
    }
  }
}

/** The exceptions the configuration providers and their helpers can raise,
    named after the .NET exception types that carry them. */
module Failures {

  datatype Error =
    | ArgumentNull(paramName: string)     // ArgumentNullException
    | Argument(paramName: string)         // ArgumentException from a guard clause
    | NullReference                       // NullReferenceException (a member called on null)
    | DuplicateKey(key: string)           // ArgumentException from Dictionary.Add / ToDictionary
    | NotSupported(message: string)       // NotSupportedException
    | InvalidOperation(message: string)   // InvalidOperationException
    | MalformedJson                       // JsonException from JsonDocument.Parse
    | Remote(message: string)             // a failed remote call (transport, authentication)
    | Timeout                             // OperationCanceledException once loadTimeout elapses
}
