/** Option, Result and the reasons for which a write is refused. */
module Wrappers {

  datatype Option<+T> = None | Some(value: T)

  datatype Result<+T, +E> = Ok(value: T) | Err(error: E)

  datatype Reason = NotFound | Validate | InvalidArgs | PathError | UnsupportedPathShape
}
