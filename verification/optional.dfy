/** Option and Result types shared by the modules of this model.
    `None` stands for JavaScript's `undefined`/`null`; `Err` for a thrown error. */
module Optional {

  datatype Option<+T> = None | Some(value: T) {

    /** The value, or `default` when absent (JavaScript's `x ?? default`). */
    function GetOr(default: T): T {
      match this
      case Some(v) => v
      case None => default
    }
  }

  datatype Result<+T, +E> = Ok(value: T) | Err(error: E)
}
