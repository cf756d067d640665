/**
 * A value that may be absent (a nil pointer or a missing map entry in the
 * source), and the status of an operation that may panic on purpose.
 */
module Wrappers {

  datatype Option<+T> = None | Some(value: T)

  /** Whether an operation completed or hit a deliberate, fatal `panic`. */
  datatype Status = Done | Fatal(reason: string)

}
