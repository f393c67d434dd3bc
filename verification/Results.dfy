/** Values that may be absent, and computations that may throw. */
module Results {

  datatype Option<+T> = None | Some(value: T)

  /** `Thrown` stands for an exception: the caller sees the reason and the state is unchanged. */
  datatype Result<+T, +E> = Ok(value: T) | Thrown(error: E)
}
