/** Failure-carrying result types shared by the whole model.

    A call into code outside the model (a native COM method, a remote call
    over the IPC channel, a user-supplied delegate) either returns a value
    or throws; `Outcome` records which. */
module Outcomes {

  /** An exception, identified by its message. */
  datatype Fault = Fault(message: string)

  /** The result of a call that may throw. */
  datatype Outcome<+T> = Ok(value: T) | Throws(fault: Fault)

  /** A reference that may be null. */
  datatype Option<+T> = None | Some(value: T)
}
