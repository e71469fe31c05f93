/** Go's `error` values as this program meets them, and the nil-or-value
    shape (`Option`) used for an `error` result that may be nil. */
module Errors {

  /** `None` stands for Go's nil. */
  datatype Option<+T> = None | Some(value: T)

  /** The errors the program creates or passes on. */
  datatype Error =
    | Signalled(text: string)   // errors.New(text), built from a progress record's `error` field
    | Foreign(reason: string)   // an error returned by a library call: engine client, archiver, line scanner

  /** What `err.Error()` returns. */
  function Message(e: Error): string
  {
    match e
    case Signalled(text) => text
    case Foreign(reason) => reason
  }
}
