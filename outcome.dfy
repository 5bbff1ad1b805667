/**
 Outcomes of Python calls: a value or `None`, and a returned value or a raised exception.
 */
module Outcome {

  /** A Python value that may be `None`. */
  datatype Option<+T> = None | Some(value: T)

  /** The exceptions the modelled code raises, with their messages. */
  datatype PyException =
    | Exception(message: string)   // `raise Exception(...)`
    | ValueError(message: string)  // `raise ValueError(...)`

  /** A call either returns a value or raises an exception. */
  datatype Result<+T> = Ok(value: T) | Raised(error: PyException)
}
