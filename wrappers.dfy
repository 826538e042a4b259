/** Option for Java's null; Result and Outcome for operations that may throw. */
module Wrappers {

  /** A nullable reference: None stands for Java/Kotlin null. */
  datatype Option<+T> = None | Some(value: T)

  /** The value of an operation that either returns or throws. */
  datatype Result<+T, +E> = Ok(value: T) | Err(error: E)

  /** The value of an operation that returns nothing or throws. */
  datatype Outcome<+E> = Pass | Fail(error: E)

  /** The exceptions the modelled code can throw. */
  datatype Error =
    | MalformedUrl       // java.net.MalformedURLException: too few locations for a request
    | IllegalArgument    // IllegalArgumentException: heading outside [0, 360)
    | IndexOutOfBounds   // ArrayIndexOutOfBoundsException: a point with fewer than two coordinates
}
