/** Optional values and thrown errors: the model's stand-ins for `null`/`undefined` and `throw`. */
module Options {
  datatype Option<+T> = None | Some(value: T)

  /** A value, or the message of the `Error` the source throws instead. */
  datatype Result<+T> = Ok(value: T) | Thrown(message: string)
}
