/** Outcome types shared by every module of the model. */
module Outcomes {

  datatype Option<+T> = None | Some(value: T)

  /** What one request to the hosted backend gives back: a `data` payload,
      an `error` payload, or an exception thrown by the client library
      (a request that never got an answer). */
  datatype Answer<+T> = Data(value: T) | Error(message: string) | Raise(reason: string)

  /** How an `async` function of the web client settles: its promise
      resolves with a value or rejects with an exception. */
  datatype Completion<+T> = Returned(value: T) | Threw(reason: string)

  /** The message an `error` payload or an exception carries, as `throw error` re-throws it. */
  function Reason<T>(a: Answer<T>): string
    requires !a.Data?
  {
    if a.Error? then a.message else a.reason
  }
}
