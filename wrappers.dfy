/** Failure-compatible wrappers shared by every module of the model. */
module Wrappers {
  /** A value that may be missing; `None` stands for a C# `null`. */
  datatype Option<+T> = None | Some(value: T) {
    function GetOr(default: T): T {
      match this
      case Some(v) => v
      case None => default
    }
  }

  /** A computation that returns `value` or raises `error`. */
  datatype Result<+T, +E> = Success(value: T) | Failure(error: E)

  /** An action that returns nothing: it completes, or it raises `error`. */
  datatype Outcome<+E> = Pass | Fail(error: E)
}

/** The exceptions the core raises, and the status codes of failed broker calls. */
module Errors {
  import opened Wrappers

  /** The status codes a failed broker call carries that the core tells apart. */
  datatype Status = NotFound | AlreadyExists | OtherStatus

  datatype Error =
    | ArgumentError(message: string, paramName: Option<string>)  // ArgumentException
    | ArgumentNullError(argument: string)                        // ArgumentNullException
    | InvalidOperation(message: string)                          // InvalidOperationException
    | NullReference                                              // NullReferenceException
    | Rpc(status: Status)                                        // RpcException from the broker
    | EmptyResourceId(argument: string)                          // ArgumentException of a resource-name constructor
}
