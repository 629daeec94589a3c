/** Option and the exception-or-value result used throughout the model. */
module Wrappers {

  datatype Option<+T> = None | Some(value: T)

  /** The Python exceptions the modelled code can raise. */
  datatype Fault =
    | Timeout        // socket.timeout: no datagram arrived
    | IndexError     // a split() result indexed past its end
    | ValueError     // int() of a non-number
    | OSError        // seek() to a negative position (EINVAL)
    | OverflowError  // int.to_bytes(4) of a value that needs more than 4 bytes
    | FileNotFound   // stat() or open() of a local file that is not there

  /** A Python call either returns a value or raises. */
  datatype Result<+T> = Ok(value: T) | Raised(fault: Fault)
}
