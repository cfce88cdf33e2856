/** Option, the model's stand-in for a Go pointer or error value that may be nil. */
module Wrappers {

  datatype Option<+T> = None | Some(value: T)
}

/** Errors and the ways the driver process can stop. */
module Process {

  /** A Go `error` value; only its message is kept. */
  datatype Error = Error(message: string)

  /** Whether the process is still running after a step.
      Fatal stands for `log.Fatalf` (the logger exits the process),
      Panicked for a method call through a nil *MediaPlayer, which panics
      the discovery goroutine and with it the whole process. */
  datatype Exit = Running | Fatal(cause: Error) | Panicked
}
