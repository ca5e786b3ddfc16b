/** What the two Firestore-listening hooks do when attaching their listener
    throws (hooks/useEventCategories.ts, hooks/useEvents.ts). */
module Listener {

  /** The thrown value: an `Error` carries a message, anything else does not. */
  datatype SetupFailure = ErrorThrown(message: string) | OtherThrown

  /** `err instanceof Error ? err.message : 'Unknown error'`; the contract is
      that choice, one clause per kind of thrown value. */
  function SetupErrorMessage(failure: SetupFailure): (msg: string)
    ensures failure.ErrorThrown? ==> msg == failure.message
    ensures failure.OtherThrown? ==> msg == "Unknown error"
  {
    match failure
    case ErrorThrown(m) => m
    case OtherThrown => "Unknown error"
  }
}
