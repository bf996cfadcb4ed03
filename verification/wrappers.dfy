/** Failure-carrying datatypes shared by every module of the model.
    - Option<T> stands for a Java reference that may be null.
    - Outcome<T> is a call that either returns a value or throws an unchecked
      exception (a NullPointerException, a ClassCastException, a rejected task).
    - Validated<T> is a record constructor that either builds the value or
      throws IllegalArgumentException with a message.
 */
module Wrappers {

  datatype Option<+T> = None | Some(value: T)

  datatype Outcome<+T> = Ok(value: T) | Crash

  datatype Validated<+T> = Accepted(value: T) | Rejected(message: string)
}
