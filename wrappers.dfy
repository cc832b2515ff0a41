/** Java's nullable references, made explicit. */
module Wrappers {

  /** `None` stands for a Java `null`; `Some(v)` for a non-null reference to `v`. */
  datatype Option<+T> = None | Some(value: T)

  /** The exceptions the modelled code can raise (none of them is caught in the core). */
  datatype Exception = NullPointerException

  /** The outcome of a Java call: it returns a value or throws. */
  datatype Outcome<+T> = Returned(value: T) | Threw(exception: Exception)
}
