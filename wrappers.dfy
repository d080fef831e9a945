/** Failure-carrying values shared by every module of the model. */
module Wrappers {

  datatype Option<+T> = None | Some(value: T)

  datatype Result<+R, +E> = Success(value: R) | Failure(error: E)

  /** A value caught by a JavaScript `catch`: an `Error` object with its
      message, or any other thrown value (whose content nothing inspects). */
  datatype Thrown = JsError(message: string) | NonError

  /** `err instanceof Error ? err.message : fallback`, the idiom every
      catch block of the client uses to turn a caught value into text. */
  function MessageOr(err: Thrown, fallback: string): (msg: string)
    ensures err.JsError? ==> msg == err.message
    ensures err.NonError? ==> msg == fallback
  {
    match err
    case JsError(m) => m
    case NonError => fallback
  }
}
