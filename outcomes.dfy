/** Values, signals and observable events that flow through one dispatch of abot's command dispatcher. */
module Outcomes {

  datatype Option<+T> = None | Some(value: T)

  /** The exceptions that cross the dispatcher's frames. */
  datatype Raised =
    | ClickException(message: string)  // click.ClickException, click.UsageError from ctx.fail; format_message() is the message
    | Abort                            // click.Abort
    | ExitCode(code: int)              // abot's ExitCode, raised by Context.exit
    | Foreign(description: string)     // any other exception: a reply that cannot be sent, a handler's own error

  /** A step either returns a value or raises. */
  datatype Outcome<+T> = Return(value: T) | Raise(exc: Raised)

  /** Context.exit: it never returns, it raises ExitCode, and the status code defaults to 0. */
  function Exit(code: int := 0): Raised
  {
    ExitCode(code)
  }

  /** The Python values that callbacks return and that groups pass on. */
  datatype Value =
    | Nothing                   // None
    | Text(text: string)
    | Items(items: seq<Value>)  // a list, such as the results of a chain
    | Unawaited(argument: Value) // a coroutine object that was created and never awaited

  /** What the outside world observes of a dispatch, in order. */
  datatype Event =
    | Called(command: string)        // a command's callback ran (in the context with this info name)
    | ResultCalled(command: string)  // a group's result callback ran
    | Sent(text: string)             // a reply was awaited and delivered
    | Requested(text: string)        // a reply coroutine was created but not awaited

  /** The events of replies that are awaited one after the other. */
  function Replies(texts: seq<string>): seq<Event>
  {
    seq(|texts|, i requires 0 <= i < |texts| => Sent(texts[i]))
  }

  lemma AppendAssoc<T>(a: seq<T>, b: seq<T>, c: seq<T>)
    ensures a + (b + c) == (a + b) + c
  {
  }
}
