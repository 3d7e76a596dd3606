/** Failure-compatible result types shared by the engine's operations. */
module Wrappers {

  /** An optional value; `None` stands for JavaScript's `undefined` from a failed lookup. */
  datatype Option<+T> = None | Some(value: T)

  /** The outcome of a guarded command: the new state, or the rejection the engine returns
      instead (`{success: false, message}`) with the old state left as it was. */
  datatype Result<+T, +E> = Success(value: T) | Failure(error: E)
}
