/** Optional values and error-carrying results shared by the pipeline's stages. */
module Results {

  /** A dictionary entry that may be absent. */
  datatype Option<+T> = None | Some(value: T) {

    /** The value, or the default a `dict.get` call supplies when the key is absent. */
    function GetOr(default: T): T {
      match this
      case Some(v) => v
      case None => default
    }
  }

  /** The outcome of a stage that may raise: the value, or the message of the exception. */
  datatype Result<+T> = Ok(value: T) | Err(message: string)
}
