/**
 * Optional values, outcomes of calls that can fail with a message, and what
 * a rejected promise or a `throw` carries on the client.
 */
module Wrappers {
  datatype Option<+T> = None | Some(value: T)

  datatype Result<+T> = Ok(value: T) | Err(msg: string)
  {
    predicate IsFailure() { Err? }
  }

  /** What a rejected promise carries: an `Error` with its message, or any other value. */
  datatype Thrown = ErrorObject(message: string) | OtherValue

  /** `error instanceof Error ? error.message : fallback`. */
  function MessageOr(e: Thrown, fallback: string): string {
    match e
    case ErrorObject(m) => m
    case OtherValue => fallback
  }

  /**
   * The answer to a `fetch` whose failure is rethrown: the parsed body of a
   * 2xx response, a response that is not 2xx, or what the request threw.
   */
  datatype Reply<+T> = Answered(value: T) | NotOk | Raised(thrown: Thrown)

  /** The message a failed reply leaves: the fixed text thrown for a non-2xx status, or the thrown message. */
  function ReplyError<T>(r: Reply<T>, notOk: string, fallback: string): string
    requires !r.Answered?
  {
    match r
    case NotOk => notOk
    case Raised(e) => MessageOr(e, fallback)
  }
}
