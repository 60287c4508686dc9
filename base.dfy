/** Small failure-carrying datatypes shared by every module of the model. */
module Base {

  /** An optional value: Python's `None` versus a present value. */
  datatype Option<+T> = None | Some(value: T) {
    function GetOr(default: T): T
    {
      match this
      case Some(v) => v
      case None => default
    }
  }

  /** The value of a call that either returns or raises an exception whose `str()` is `error`. */
  datatype Result<+T> = Ok(value: T) | Raised(error: string)

  /** A call returning nothing that either completes or raises. */
  datatype Outcome = Done | Fails(error: string)
}
