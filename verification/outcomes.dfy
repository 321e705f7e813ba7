/** The failure modes of the loan engine, named after the exceptions the
    Python implementation raises, and the value-or-error wrapper used for
    every operation that can raise one of them. */
module Outcomes {

  /** The exceptions the engine can raise. */
  datatype Error =
    | ZeroDivisionError    // a float division by zero, or 0.0 raised to a negative power
    | TypeError            // the period count resolved to None
    | NotImplementedError  // a loan type other than "annuity"

  /** Either the computed value or the exception that ended the computation. */
  datatype Result<+T> = Ok(value: T) | Err(error: Error)

  /** An optional value, standing in for Python's `None`. */
  datatype Option<+T> = None | Some(value: T)
}
