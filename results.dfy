/** Optional values and thrown failures, shared by every module of the model. */
module Results {

  /** `undefined`/`null` versus a present value. */
  datatype Option<T> = None | Some(value: T) {
    function GetOr(default: T): T {
      if Some? then value else default
    }
  }

  /** The ways an operation of the storage layer throws. */
  datatype Failure =
    | NotAFunction    // a method called on the DataStore class instead of an instance
    | RecordNotFound  // the remote table holds no row for the requested key
    | Transport       // the HTTP request to the remote table failed

  /** A value returned normally, or the failure thrown instead. */
  datatype Result<T> = Ok(value: T) | Err(error: Failure)
}
