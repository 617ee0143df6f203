/** Types used throughout. */
module Wrappers {
  /** A value that may be missing. */
  datatype Option<+T> = None | Some(value: T)

  /** What became of a blocking step: Busy if it outlasted the watch. */
  datatype Progress = Busy | Done | Cancelled

  /** How the watch of a loop ended: the loop was left, it is blocked in a step
      that outlasted the watch, or all rounds were made. */
  datatype Watch = Left | Blocked | Watched
}
