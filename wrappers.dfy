/** Small value types shared by the modules of this model. */
module Wrappers {

  /** An optional value: Ruby's `nil` or a present value. */
  datatype Option<+T> = None | Some(value: T)

  /** A StandardError raised by a job (or by an error handler); only its identity matters. */
  datatype Fault = Fault(code: nat)
}
