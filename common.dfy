/**
 * Values shared by the whole model: optional values, results of an
 * operation that may throw, the exceptions the loader can meet, and the way
 * a call ends (returning normally or throwing).
 */
module Common {

  datatype Option<+T> = None | Some(value: T)

  /** The outcome of a Java call that either returns a value or throws. */
  datatype Result<+T> = Ok(value: T) | Err(error: Error)

  /** The exceptions that can leave the loader's operations. */
  datatype Error =
    | NullReference                        // a NullPointerException
    | NotAString                           // a ClassCastException from JsonArray.getString
    | ClassNotFound(name: string)          // the main class is unknown to the class loader
    | CompileFailed(source: string)        // the source file could not be compiled
    | InstantiationFailed(name: string)    // newInstance of a binder class threw
    | MultiException(causes: seq<string>)  // the container's aggregate injection failure
    | Raised(description: string)          // thrown by code outside the model

  /** How a void Java method ends: it returns, or it throws. */
  datatype Outcome = Normal | Threw(error: Error)
}
