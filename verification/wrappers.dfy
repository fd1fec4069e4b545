/** Optional values (the C# `string?` fields) and fallible results (exceptions thrown by the stack). */
module Wrappers {

  /** A value that may be absent; `None` stands for a C# `null`. */
  datatype Option<+T> = None | Some(value: T) {

    /** The present value, or `default` in place of a `null`. */
    function GetOr(default: T): T {
      match this
      case Some(v) => v
      case None => default
    }
  }

  /** Either a value or the message of the exception that aborted the computation. */
  datatype Result<+T> = Ok(value: T) | Err(message: string)
}
