/** Option, and the outcome of one awaited call into the remote service. */
module Wrappers {

  datatype Option<+T> = None | Some(value: T)

  /** What an awaited service call yields: the parsed payload, or the value it
      threw. A thrown `Error` carries its message; anything else thrown
      carries none. */
  datatype Outcome<+T> = Success(value: T) | Failure(message: Option<string>)

  /** The hooks' `err instanceof Error ? err.message : fallback`: the error's own
      message when there is one, the operation's fixed text otherwise. */
  function ErrorText(message: Option<string>, fallback: string): (text: string)
    ensures message.Some? ==> text == message.value
    ensures message.None? ==> text == fallback
  {
    match message
    case Some(m) => m
    case None => fallback
  }
}
