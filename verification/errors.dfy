/** Failure-carrying values shared by every part of the model: an optional
    value, the errors the transaction layer can raise, and a result that is
    either a value or one of those errors. */
module Errors {

  datatype Option<+T> = None | Some(value: T)

  /** Every way an operation of the transaction layer can end abnormally. */
  datatype Error =
    /** `commit` called on a context that is no longer ACTIVE */
    | CommitNotActive
    /** `rollback` called on a context that is no longer ACTIVE */
    | RollbackNotActive
    /** the connection rejected the statement issued at position `at` of the log */
    | QueryFailed(at: nat)
    /** an error raised by caller code inside a transaction body */
    | Thrown(reason: string)
    /** a TypeError: a value that is not a function was called or bound */
    | NotAFunction
    /** caller code named a handle it never obtained */
    | ReferenceError

  datatype Result<+T> = Ok(value: T) | Err(error: Error)
}
