/** Java-level building blocks shared by the model: the 32-bit `int`,
    `null`-able references as `Option`, and the exceptions a constructor
    throws as the error half of `Result`. */
module Base {

  /** Java's `int`. */
  newtype int32 = x: int | -0x8000_0000 <= x < 0x8000_0000

  /** A reference that may be `null` (`None`). */
  datatype Option<+T> = None | Some(value: T)

  /** The exception a constructor throws; only `IllegalArgumentException`
      occurs in the modelled code. */
  datatype Error = IllegalArgument(message: string)

  /** Either the constructed value or the exception thrown instead. */
  datatype Result<+T> = Ok(value: T) | Err(error: Error)
}
