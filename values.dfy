/** Optional values and results shared by the client and the backend models. */
module Values {

  /** A value that may be absent (JavaScript `undefined`, Python `None`). */
  datatype Option<+T> = None | Some(value: T)

  /** The outcome of a step that may raise: its value, or the text of what it raised (`str(e)`). */
  datatype Result<+T> = Ok(value: T) | Err(error: string)
}
