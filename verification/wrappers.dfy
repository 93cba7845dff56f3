/** Failure-carrying result types shared by the planner modules. */
module Wrappers {

  /** An optional value: `None` where the planner has nothing to return. */
  datatype Option<+T> = None | Some(value: T)

  /** Either a value or an error describing why none could be produced. */
  datatype Result<+R, +E> = Success(value: R) | Failure(error: E)
}
