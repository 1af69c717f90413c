/** Small value types shared by the modules of the model. */
module Wrappers {

  /** A value that may be absent: `null`, `undefined` or a missing key. */
  datatype Option<T> = None | Some(value: T)

  /** How an awaited call settles: resolved, or rejected with the error it rethrows. */
  datatype Outcome = Resolved | Rejected(error: string)

  /** A server reply whose payload the caller does not keep: it either succeeded or failed. */
  datatype Reply = Succeeded | Failed
}
