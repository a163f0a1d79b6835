/** The ways a driver operation can fail. */
module Errors {

  datatype Error =
      /** A logical index at or past the end of an address table
          (Python raises IndexError when the list is indexed). */
    | OutOfRange(index: nat, size: nat)
      /** The coil read back after a verified write differs from the value
          written; the driver raises an assertion error there. */
    | VerificationMismatch(address: nat, expected: bool, observed: bool)
}
