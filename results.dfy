/** Failure-carrying return values: the model's stand-in for the exceptions that
    conversion and evaluation throw (an empty-stack pop, an
    IllegalArgumentException, a number that does not parse). */
module Results {

  datatype Option<+T> = None | Some(value: T)

  datatype Result<+T, +E> = Ok(value: T) | Err(error: E)
}
