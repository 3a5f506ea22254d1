/** Option and Result, standing in for Java's null and thrown exceptions. */
module Wrappers {

  /** `None` plays the part of a Java `null` reference. */
  datatype Option<+T> = None | Some(value: T) {
    predicate IsFailure() { None? }

    function PropagateFailure<U>(): Option<U>
      requires None?
    {
      None
    }

    function Extract(): T
      requires Some?
    {
      value
    }
  }

  /** `Failure(e)` plays the part of a Java method that throws `e`. */
  datatype Result<+R, +E> = Success(value: R) | Failure(error: E)
}
