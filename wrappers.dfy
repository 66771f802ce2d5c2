/** Optional values and the outcome of a Java call that may throw. */
module Wrappers {

  /** A Java reference that may be null. */
  datatype Option<+T> = None | Some(value: T)

  /**
   * The result of a Java method: it returned `value`, or an unchecked
   * exception (named by its class) escaped from it.
   */
  datatype Outcome<+T> = Done(value: T) | Threw(exception: string)
}
