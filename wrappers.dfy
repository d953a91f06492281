/** Small failure-carrying datatypes shared by the model. */
module Wrappers {

  datatype Option<+T> = None | Some(value: T)

  /** A Python call either returns a value or raises; the raise is kept as a short reason. */
  datatype Result<+T> = Ok(value: T) | Raised(reason: string)
}
