/** What a request handler answers: an HTTP status with a message, an error, or a payload. */
module Responses {

  /** The errors that reach a handler's `catch` block. */
  datatype Fault =
    | Validation(paths: seq<string>)   // a Mongoose ValidationError naming the schema paths that failed
    | Reference(name: string)          // ReferenceError: <name> is not defined
    | NotCallable(expression: string)  // TypeError: <expression> is not a function (a method called on undefined)
    | Thrown(message: string)          // an error raised by the judge request, with its text

  /** A response body: fixed text, a caught error behind a fixed prefix (`"Error: " + err`), or data. */
  datatype Reply<B> = Message(text: string) | Failure(prefix: string, fault: Fault) | Payload(body: B)

  /**
   * The handler's answer. `StillPolling` means the handler has not answered yet: every
   * poll reply supplied so far was unfinished, and the source polls without a bound.
   */
  datatype Outcome<B> = Respond(status: int, reply: Reply<B>) | StillPolling

  function Says<B>(status: int, text: string): Outcome<B> {
    Respond(status, Message(text))
  }

  function Fails<B>(status: int, prefix: string, fault: Fault): Outcome<B> {
    Respond(status, Failure(prefix, fault))
  }

  function Sends<B>(status: int, body: B): Outcome<B> {
    Respond(status, Payload(body))
  }
}
