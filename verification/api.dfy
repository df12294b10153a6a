/**
 The values the control-plane API hands back, and the two failure-carrying
 wrappers the rest of the model uses in place of Go's nil pointers and
 `error` returns. Only the resource fields the command-line client reads
 are modelled; every other field travels inside the opaque pretty-printer.
 */
module Api {

  /** A Go pointer that may be nil. */
  datatype Option<+T> = None | Some(value: T)

  /** A Go `(value, error)` pair where exactly one side is meaningful; the
      error is kept as the message Go prints for it with `%s` / `%v`. */
  datatype Result<+T> = Ok(value: T) | Err(error: string)

  datatype Runtime = Runtime(id: string, name: string)

  datatype Lambda = Lambda(id: string, name: string, lambdaType: string)

  datatype Endpoint = Endpoint(id: string, name: string, path: string, lambda: string)

  /** The status record of a server-side task. Of its details map only the
      "error" entry is read, and only as the text `%v` prints for it, so that
      text is what is kept here. */
  datatype TaskStatus = TaskStatus(status: string, errorDetail: string)
}
