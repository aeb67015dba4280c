/** How an operation of the tool ends. */
module Outcomes {

  /** The reason logged before the process stops, or the error returned. */
  datatype Reason =
    | MissingQuerySource      // neither -query nor -file
    | ConflictingQuerySource  // both -query and -file
    | QueryFileUnreadable     // the query file could not be read
    | MissingEndpoint         // the pivot is not a URL and -endpoint does not parse
    | InvalidQuerySource      // the pivot is neither a readable file nor non-empty text
    | InvalidURL              // the last argument does not parse as a URL
    | EncodingFailed          // json.Marshal returned an error
    | RequestFailed           // http.NewRequest returned an error

  /**
   * What a Go function with results `(T, error)` does: return a value with a
   * nil error, return an error, stop the process with `os.Exit(1)` after
   * logging, or panic at run time (an index out of range, a nil dereference).
   */
  datatype Outcome<T> =
    | Returned(value: T)
    | ReturnedError(error: Reason)
    | Exited(reason: Reason)
    | Panicked

  /** An intermediate decision: its value, or the reason it stops. */
  datatype Result<T> = Ok(value: T) | Fail(reason: Reason) {

    predicate IsFailure() {
      Fail?
    }

    function PropagateFailure<U>(): Result<U>
      requires Fail?
    {
      Fail(reason)
    }

    function Extract(): T
      requires Ok?
    {
      value
    }
  }

  /** A decision made inside a function that stops the process on every failure. */
  function Exits<T>(r: Result<T>): Outcome<T>
  {
    match r
    case Ok(v) => Returned(v)
    case Fail(why) => Exited(why)
  }
}
