/** Small failure-carrying datatypes shared by the exporter model. */
module Wrappers {

  datatype Option<+T> = None | Some(value: T) {
    /** The wrapped value, or `default` when there is none. */
    function GetOr(default: T): T {
      match this
      case Some(v) => v
      case None => default
    }
  }

  datatype Result<+T, +E> = Success(value: T) | Failure(error: E)

  /** The outcome of an HTTP request to the database server: the decoded
      response document, or a transport error. */
  datatype Fetch<+T> = Fetched(doc: T) | FetchError
}
