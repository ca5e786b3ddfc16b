/** What a Cloud Functions callable gives back: its result, or the error it
    throws. The calls themselves are outside the model. */
module Callable {
  import opened Wrappers

  /** What a failing callable throws: an optional code and an optional message. */
  datatype CallableError = CallableError(code: Option<string>, message: Option<string>)

  /** The outcome of one callable invocation. */
  datatype CallOutcome<T> = Returned(value: T) | Threw(error: CallableError)
}
