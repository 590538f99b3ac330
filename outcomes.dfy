/** Result shapes shared by the pipeline components. */
module Outcomes {

  /** Python's optional value: `None` or a value. */
  datatype Option<T> = None | Some(value: T) {
    function GetOr(default: T): T {
      match this
      case Some(v) => v
      case None => default
    }
  }

  /**
   * What a retrying call shows to its caller.  The source retries by
   * calling itself again with no bound; a model is handed the responses of
   * the external service one call at a time, and when they run out while the
   * source would call again the outcome is `StillRetrying`.
   */
  datatype Outcome<T> = Returned(answer: Option<T>) | StillRetrying

  /** A value, or the exception that Python would raise instead. */
  datatype Result<T, E> = Ok(value: T) | Err(error: E)
}
