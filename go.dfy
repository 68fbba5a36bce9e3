/** Go-level values the program passes around: optional values, error values,
    and the outcome of a call that may panic instead of returning. */
module Go {

  type byte = bv8

  /** A value that may be absent (a nil pointer, slice, interface or error). */
  datatype Option<+T> = None | Some(value: T)

  /** A non-nil Go `error`, known only by its diagnostic text. */
  datatype Error = Error(message: string)

  /** Why a call panicked instead of returning. */
  datatype Cause =
    | NilHandler           // taking the method value `ServeHTTP` of a nil http.Handler
    | Raised(err: Error)   // an explicit `panic(err)`

  /** The outcome of a Go call: it returned a value, or it panicked. */
  datatype Call<+T> = Returned(value: T) | Panicked(cause: Cause)
}
