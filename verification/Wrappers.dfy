/** Result shapes shared by the other modules. */
module Wrappers {

  datatype Option<+T> = None | Some(value: T)

  datatype Result<+T, +E> = Ok(value: T) | Err(error: E)

  /** The outcome of polling a future: not yet, or finished with a value. */
  datatype Poll<+T> = Pending | Ready(value: T)
}
