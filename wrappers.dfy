/** Failure-carrying values shared by the modules of this model. An exception
    raised by the modelled code becomes a `Fail`/`Err` carrying its message,
    or the kind of error where the message is not modelled. */
module Wrappers {

  /** A value that may be absent; stands for a nullable reference. */
  datatype Option<+T> = None | Some(value: T)

  /** The completion of a void operation: it returned normally, or it threw. */
  datatype Outcome<+E> = Pass | Fail(error: E)

  /** The completion of an operation that returns a value, or threw. */
  datatype Result<+T, +E> = Ok(value: T) | Err(error: E)
}
