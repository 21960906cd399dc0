/**
 * How a Java call ends: it returns a value or it throws. A Java reference that
 * may be `null` is an `Option`, with `None` standing for `null`.
 */
module Outcomes {

  datatype Option<+T> = None | Some(value: T)

  /** The exceptions the modelled code throws or lets escape. */
  datatype Exception =
    | IllegalArgumentException
    | NumberFormatException
    | NullPointerException
    | ClassCastException
    | UIDOutOfRangeException

  /** The result of a Java call: the value it returned, or the exception it threw. */
  datatype Outcome<+T> = Returned(value: T) | Threw(exception: Exception)
}
