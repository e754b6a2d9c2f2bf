/**
 * The optional value of TypeScript's `T | undefined` / `T | null`, and the outcome of a
 * handler that either goes ahead or stops with an alert.
 */
module Wrappers {

  datatype Option<+T> = None | Some(value: T)

  /** A handler's verdict: it goes ahead, or it stops after alerting `message`. */
  datatype Outcome = Accepted | Refused(message: string)
}
