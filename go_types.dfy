/** Values shared by every part of the model: Go's nil-able results and its `error`. */
module GoTypes {

  /** A value that may be absent, standing for a Go pointer or interface that may be nil. */
  datatype Option<+T> = None | Some(value: T)

  /** A Go `error`, reduced to the text its `Error()` method returns. */
  datatype Error = Error(message: string)
}
